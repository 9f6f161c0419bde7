/**
 * The expense form: its fields start from the active expense, the amount
 * field only takes texts the amount pattern accepts, and saving copies the
 * fields back into the active expense before the page submits it.
 */
module AddExpense {
  import opened JsText
  import opened Models
  import opened AmountInput
  import opened PageCommon
  import Serializers
  import ExpensePage

  /** The form's state: description, category, amount, date text and recurring flag. */
  datatype FormValues = FormValues(item: string, category: string, spending: JsNum, date: string, recurring: bool)

  /** The fields as the form opens on an expense. */
  function InitialValues(e: Expense): (v: FormValues)
    ensures v.item == e.item.description && v.category == e.item.tag && v.spending == e.item.amount
    ensures v.date == DateToString(e.item.date) && v.recurring == e.recurring
  {
    FormValues(e.item.description, e.item.tag, e.item.amount, DateToString(e.item.date), e.recurring)
  }

  /** `saveDate`: the form's fields written into the expense; id, user and interval are kept. */
  function SaveDate(v: FormValues, e: Expense): (r: Expense)
    ensures r.item.id == e.item.id && r.item.userId == e.item.userId && r.item.interval == e.item.interval
    ensures r.item.amount == v.spending && r.item.tag == v.category && r.item.description == v.item
    ensures r.recurring == v.recurring && r.item.date == ConvertDateToField(v.date)
  {
    Expense(e.item.(amount := v.spending, tag := v.category, description := v.item,
                    date := ConvertDateToField(v.date)), v.recurring)
  }

  /** Saving a form nobody edited gives back the expense it was opened on, when the
      expense's date reads back from its own text. */
  lemma UneditedSaveKeepsExpense(e: Expense)
    requires ReadableDate(e.item.date)
    ensures SaveDate(InitialValues(e), e) == e
  {
    DateTextRoundTrip(e.item.date);
  }

  /** A negative year in the active expense does not survive an unedited save. */
  lemma UneditedSaveLosesNegativeYear(e: Expense)
    requires e.item.date == DateField(Num(-5), Num(1), Num(2))
    ensures SaveDate(InitialValues(e), e).item.date == DateField(Num(0), Num(5), Num(1))
  {
    NegativeYearDoesNotRoundTrip();
  }

  class Form {
    var item: string
    var category: string
    var spending: JsNum
    var date: string
    var recurring: bool

    function Values(): FormValues
      reads this
    {
      FormValues(item, category, spending, date, recurring)
    }

    constructor(activeExpense: Expense)
      ensures Values() == InitialValues(activeExpense)
    {
      item := activeExpense.item.description;
      category := activeExpense.item.tag;
      spending := activeExpense.item.amount;
      date := DateToString(activeExpense.item.date);
      recurring := activeExpense.recurring;
    }

    method OnItemChange(text: string)
      modifies this
      ensures Values() == old(Values()).(item := text)
    {
      item := text;
    }

    method OnCategoryChange(key: string)
      modifies this
      ensures Values() == old(Values()).(category := key)
    {
      category := key;
    }

    /** The amount field: a text the pattern accepts is stored parsed; any other keystroke
        is dropped and the amount stays as it was. */
    method OnSpendingChange(text: string)
      modifies this
      ensures AmountPattern(text) ==> Values() == old(Values()).(spending := ParseFloat(text))
      ensures !AmountPattern(text) ==> Values() == old(Values())
    {
      PatternAtFirstNonDigit(text);
      var k := FirstNonDigit(text);
      if SplitsAt(text, k) {
        spending := ParseFloat(text);
      }
    }

    method OnDateChange(text: string)
      modifies this
      ensures Values() == old(Values()).(date := text)
    {
      date := text;
    }

    method OnRecurringChange(b: bool)
      modifies this
      ensures Values() == old(Values()).(recurring := b)
    {
      recurring := b;
    }

    /** `handleSave`: the fields are copied into the page's active expense first, then the
        page's submit handler runs on it. */
    method HandleSave(page: ExpensePage.Page) returns (req: Request)
      requires page.Valid()
      modifies page
      ensures page.Valid()
      ensures old(page.mode) == "add" ==>
                page.activeExpense == (var s := SaveDate(Values(), old(page.activeExpense));
                                       s.(item := s.item.(userId := TmpUserId)))
      ensures old(page.mode) != "add" ==> page.activeExpense == SaveDate(Values(), old(page.activeExpense))
      ensures old(page.mode) == "add" ==> req == Create(TmpUserId, Serializers.SerializeExpense(page.activeExpense))
      ensures old(page.mode) == "edit" ==>
                req == Update(ModifyTargetId(page.activeExpense.item.id), Serializers.SerializeExpense(page.activeExpense))
      ensures old(page.mode) != "add" && old(page.mode) != "edit" ==> req == NoRequest
      ensures page.year == old(page.year) && page.month == old(page.month) && page.loaded == old(page.loaded)
      ensures page.expenseList == old(page.expenseList) && page.active == old(page.active)
      ensures page.mode == old(page.mode) && page.category == old(page.category) && page.error == old(page.error)
    {
      page.activeExpense := SaveDate(Values(), page.activeExpense);
      req := page.FormSubmit();
    }
  }
}
