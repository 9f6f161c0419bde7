/**
 * The income form: its fields start from the active income, the amount
 * field only takes texts the amount pattern accepts, and saving copies the
 * fields back into the active income before the page submits it.
 */
module AddIncome {
  import opened JsText
  import opened Models
  import opened AmountInput
  import opened PageCommon
  import Serializers
  import IncomePage

  /** The form's state: description, source, amount, date text and fixed flag. */
  datatype FormValues = FormValues(item: string, category: string, spending: JsNum, date: string, fixed: bool)

  /** The fields as the form opens on an income. */
  function InitialValues(e: Income): (v: FormValues)
    ensures v.item == e.item.description && v.category == e.item.tag && v.spending == e.item.amount
    ensures v.date == DateToString(e.item.date) && v.fixed == e.fixed
  {
    FormValues(e.item.description, e.item.tag, e.item.amount, DateToString(e.item.date), e.fixed)
  }

  /** `saveDate`: the form's fields written into the income; id, user and interval are kept. */
  function SaveDate(v: FormValues, e: Income): (r: Income)
    ensures r.item.id == e.item.id && r.item.userId == e.item.userId && r.item.interval == e.item.interval
    ensures r.item.amount == v.spending && r.item.tag == v.category && r.item.description == v.item
    ensures r.fixed == v.fixed && r.item.date == ConvertDateToField(v.date)
  {
    Income(e.item.(amount := v.spending, tag := v.category, description := v.item,
                    date := ConvertDateToField(v.date)), v.fixed)
  }

  /** Saving a form nobody edited gives back the income it was opened on, when the
      income's date reads back from its own text. */
  lemma UneditedSaveKeepsIncome(e: Income)
    requires ReadableDate(e.item.date)
    ensures SaveDate(InitialValues(e), e) == e
  {
    DateTextRoundTrip(e.item.date);
  }

  /** A negative year in the active income does not survive an unedited save. */
  lemma UneditedSaveLosesNegativeYear(e: Income)
    requires e.item.date == DateField(Num(-5), Num(1), Num(2))
    ensures SaveDate(InitialValues(e), e).item.date == DateField(Num(0), Num(5), Num(1))
  {
    NegativeYearDoesNotRoundTrip();
  }

  class Form {
    var item: string
    var category: string
    var spending: JsNum
    var date: string
    var fixed: bool

    function Values(): FormValues
      reads this
    {
      FormValues(item, category, spending, date, fixed)
    }

    constructor(activeIncome: Income)
      ensures Values() == InitialValues(activeIncome)
    {
      item := activeIncome.item.description;
      category := activeIncome.item.tag;
      spending := activeIncome.item.amount;
      date := DateToString(activeIncome.item.date);
      fixed := activeIncome.fixed;
    }

    method OnItemChange(text: string)
      modifies this
      ensures Values() == old(Values()).(item := text)
    {
      item := text;
    }

    method OnCategoryChange(key: string)
      modifies this
      ensures Values() == old(Values()).(category := key)
    {
      category := key;
    }

    /** The amount field: a text the pattern accepts is stored parsed; any other keystroke
        is dropped and the amount stays as it was. */
    method OnSpendingChange(text: string)
      modifies this
      ensures AmountPattern(text) ==> Values() == old(Values()).(spending := ParseFloat(text))
      ensures !AmountPattern(text) ==> Values() == old(Values())
    {
      PatternAtFirstNonDigit(text);
      var k := FirstNonDigit(text);
      if SplitsAt(text, k) {
        spending := ParseFloat(text);
      }
    }

    method OnDateChange(text: string)
      modifies this
      ensures Values() == old(Values()).(date := text)
    {
      date := text;
    }

    method OnFixedChange(b: bool)
      modifies this
      ensures Values() == old(Values()).(fixed := b)
    {
      fixed := b;
    }

    /** `handleSave`: the fields are copied into the page's active income first, then the
        page's submit handler runs on it. */
    method HandleSave(page: IncomePage.Page) returns (req: Request)
      requires page.Valid()
      modifies page
      ensures page.Valid()
      ensures old(page.mode) == "add" ==>
                page.activeIncome == (var s := SaveDate(Values(), old(page.activeIncome));
                                       s.(item := s.item.(userId := TmpUserId)))
      ensures old(page.mode) != "add" ==> page.activeIncome == SaveDate(Values(), old(page.activeIncome))
      ensures old(page.mode) == "add" ==> req == Create(TmpUserId, Serializers.SerializeIncome(page.activeIncome))
      ensures old(page.mode) == "edit" ==>
                req == Update(ModifyTargetId(page.activeIncome.item.id), Serializers.SerializeIncome(page.activeIncome))
      ensures old(page.mode) != "add" && old(page.mode) != "edit" ==> req == NoRequest
      ensures page.year == old(page.year) && page.month == old(page.month) && page.loaded == old(page.loaded)
      ensures page.incomeList == old(page.incomeList) && page.active == old(page.active)
      ensures page.mode == old(page.mode) && page.source == old(page.source) && page.error == old(page.error)
    {
      page.activeIncome := SaveDate(Values(), page.activeIncome);
      req := page.FormSubmit();
    }
  }
}
