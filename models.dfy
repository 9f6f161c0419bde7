/**
 * The front end's value objects: a recurrence interval (DateDelta), a
 * calendar date (DateField) and the ledger items built on them.
 */
module Models {
  import opened Wrappers
  import opened JsText

  /** A recurrence step of years, months and days. */
  datatype DateDelta = DateDelta(yDelta: JsNum, mDelta: JsNum, dDelta: JsNum)

  /** A calendar date as three numbers; nothing forces them into range. */
  datatype DateField = DateField(year: JsNum, month: JsNum, day: JsNum)

  /** A base ledger item. `id` is `null` until the backend assigns one. */
  datatype Item = Item(
    id: Option<int>,
    userId: int,
    description: string,
    tag: string,
    amount: JsNum,
    interval: DateDelta,
    date: DateField)

  datatype Income = Income(item: Item, fixed: bool)

  datatype Expense = Expense(item: Item, recurring: bool)

  /** `new DateDelta()`. */
  const DefaultDelta := DateDelta(Num(0), Num(0), Num(0))

  /** A component that reads back from its own text: non-negative or NaN. */
  predicate Readable(x: JsNum) { x.NaN? || x.v >= 0 }

  predicate ReadableDate(d: DateField) {
    Readable(d.year) && Readable(d.month) && Readable(d.day)
  }

  predicate ReadableDelta(d: DateDelta) {
    Readable(d.yDelta) && Readable(d.mDelta) && Readable(d.dDelta)
  }

  /** `DateDelta.toString`: the three deltas joined by '-', unpadded. */
  function DeltaToString(d: DateDelta): string {
    NumToString(d.yDelta) + "-" + NumToString(d.mDelta) + "-" + NumToString(d.dDelta)
  }

  /** `DateField.toString`: the year as is, month and day padded to two characters. */
  function DateToString(d: DateField): string {
    NumToString(d.year) + "-" + PadStart2(NumToString(d.month)) + "-" + PadStart2(NumToString(d.day))
  }

  /** `DateField.getBrief`: month, '.', day, unpadded. */
  function GetBrief(d: DateField): string {
    NumToString(d.month) + "." + NumToString(d.day)
  }

  /** The brief names the month and the day: split on '.', its two parts read
      back as them, for readable components. */
  lemma BriefReadsBack(d: DateField)
    requires Readable(d.month) && Readable(d.day)
    ensures |Split(GetBrief(d), '.')| == 2
    ensures ToNumber(Split(GetBrief(d), '.')[0]) == d.month
    ensures ToNumber(Split(GetBrief(d), '.')[1]) == d.day
  {
    var m, dd := NumToString(d.month), NumToString(d.day);
    if d.month.Num? {
      var s := NatToString(d.month.v);
      assert forall i :: 0 <= i < |s| ==> IsDigit(s[i]);
    }
    if d.day.Num? {
      var s := NatToString(d.day.v);
      assert forall i :: 0 <= i < |s| ==> IsDigit(s[i]);
    }
    assert '.' !in m && '.' !in dd;
    Split2(m, dd, '.');
    assert GetBrief(d) == m + ['.'] + dd;
    NumTextRoundTrip(d.month);
    NumTextRoundTrip(d.day);
  }

  /** `+parts[k]`, where a missing part is `undefined` and reads as NaN. */
  function PartNumber(parts: seq<string>, k: nat): (x: JsNum)
    ensures k >= |parts| ==> x == NaN
    ensures k < |parts| ==> x == ToNumber(parts[k])
  {
    if k < |parts| then ToNumber(parts[k]) else NaN
  }

  /** `convertDateToField`: split on '-' and read the first three parts. */
  function ConvertDateToField(s: string): DateField {
    var parts := Split(s, '-');
    DateField(PartNumber(parts, 0), PartNumber(parts, 1), PartNumber(parts, 2))
  }

  /** The same split-and-read that the deserializers apply to an interval text. */
  function ConvertTextToDelta(s: string): DateDelta {
    var parts := Split(s, '-');
    DateDelta(PartNumber(parts, 0), PartNumber(parts, 1), PartNumber(parts, 2))
  }

  lemma NumTextHasNoDash(x: JsNum)
    requires Readable(x)
    ensures '-' !in NumToString(x) && '-' !in PadStart2(NumToString(x))
  {
    if x.Num? {
      var s := NatToString(x.v);
      assert forall i :: 0 <= i < |s| ==> IsDigit(s[i]);
    }
    var p := PadStart2(NumToString(x));
    assert forall i :: 0 <= i < |p| ==> p[i] != '-';
  }

  /** Converting a date's own text gives back the date, for readable components. */
  lemma DateTextRoundTrip(d: DateField)
    requires ReadableDate(d)
    ensures ConvertDateToField(DateToString(d)) == d
  {
    var y, m, dd := NumToString(d.year), PadStart2(NumToString(d.month)), PadStart2(NumToString(d.day));
    NumTextHasNoDash(d.year);
    NumTextHasNoDash(d.month);
    NumTextHasNoDash(d.day);
    Split3(y, m, dd, '-');
    assert DateToString(d) == y + ['-'] + m + ['-'] + dd;
    NumTextRoundTrip(d.year);
    PaddedNumTextRoundTrip(d.month);
    PaddedNumTextRoundTrip(d.day);
  }

  /** Reading an interval's own text gives back the interval, for readable components. */
  lemma DeltaTextRoundTrip(d: DateDelta)
    requires ReadableDelta(d)
    ensures ConvertTextToDelta(DeltaToString(d)) == d
  {
    var y, m, dd := NumToString(d.yDelta), NumToString(d.mDelta), NumToString(d.dDelta);
    NumTextHasNoDash(d.yDelta);
    NumTextHasNoDash(d.mDelta);
    NumTextHasNoDash(d.dDelta);
    Split3(y, m, dd, '-');
    assert DeltaToString(d) == y + ['-'] + m + ['-'] + dd;
    NumTextRoundTrip(d.yDelta);
    NumTextRoundTrip(d.mDelta);
    NumTextRoundTrip(d.dDelta);
  }

  /** The text of a date with year -5 splits into an empty part and three digit parts. */
  lemma NegativeYearParts()
    ensures Split(DateToString(DateField(Num(-5), Num(1), Num(2))), '-') == ["", "5", "01", "02"]
  {
    var s := DateToString(DateField(Num(-5), Num(1), Num(2)));
    assert NumToString(Num(-5)) == "-5";
    assert PadStart2(NumToString(Num(1))) == "01" && PadStart2(NumToString(Num(2))) == "02";
    var rest := "5" + ['-'] + "01" + ['-'] + "02";
    assert s == "" + ['-'] + rest;
    SplitCons("", '-', rest);
    Split3("5", "01", "02", '-');
  }

  /** A negative year does not survive: its sign is taken for a separator. */
  lemma NegativeYearDoesNotRoundTrip()
    ensures ConvertDateToField(DateToString(DateField(Num(-5), Num(1), Num(2))))
         == DateField(Num(0), Num(5), Num(1))
  {
    NegativeYearParts();
    var parts: seq<string> := ["", "5", "01", "02"];
    assert DigitsValue("01") == 1 && DigitsValue("5") == 5 && DigitsValue("") == 0;
    assert PartNumber(parts, 0) == Num(0) && PartNumber(parts, 1) == Num(5) && PartNumber(parts, 2) == Num(1);
  }

  lemma DefaultDeltaText()
    ensures DeltaToString(DefaultDelta) == "0-0-0"
  {
  }

  /** `new ItemModel(id, userId, description, tag, amount, interval, date)`. */
  function NewItem(id: Option<int>, userId: int, description: string, tag: string,
                   amount: JsNum, interval: DateDelta, date: DateField): (r: Item)
    ensures r.id == id && r.userId == userId && r.description == description
    ensures r.tag == tag && r.amount == amount && r.interval == interval && r.date == date
  {
    Item(id, userId, description, tag, amount, interval, date)
  }

  /** `new IncomeModel(id, userId, amount, source, description, type, interval, date)`:
      the arguments come in another order than the base constructor takes them. */
  function NewIncome(id: Option<int>, userId: int, amount: JsNum, source: string,
                     description: string, kind: bool, interval: DateDelta, date: DateField): (r: Income)
    ensures r.item.id == id && r.item.userId == userId && r.item.amount == amount
    ensures r.item.tag == source && r.item.description == description && r.fixed == kind
    ensures r.item.interval == interval && r.item.date == date
  {
    Income(NewItem(id, userId, description, source, amount, interval, date), kind)
  }

  /** `new ExpenseModel(id, userId, amount, category, description, type, interval, date)`. */
  function NewExpense(id: Option<int>, userId: int, amount: JsNum, category: string,
                      description: string, kind: bool, interval: DateDelta, date: DateField): (r: Expense)
    ensures r.item.id == id && r.item.userId == userId && r.item.amount == amount
    ensures r.item.tag == category && r.item.description == description && r.recurring == kind
    ensures r.item.interval == interval && r.item.date == date
  {
    Expense(NewItem(id, userId, description, category, amount, interval, date), kind)
  }

  /** The defaults of the base constructor; the default date is the clock's,
      passed in as `today`. */
  function DefaultItem(today: DateField): (r: Item)
    ensures r.id == None && r.userId == 0 && r.description == "" && r.tag == "none"
    ensures r.amount == Num(0) && r.interval == DefaultDelta && r.date == today
  {
    NewItem(None, 0, "", "none", Num(0), DefaultDelta, today)
  }

  /** `new IncomeModel()`. */
  function DefaultIncome(today: DateField): (r: Income)
    ensures r.item == DefaultItem(today) && !r.fixed
  {
    NewIncome(None, 0, Num(0), "none", "", false, DefaultDelta, today)
  }

  /** `new ExpenseModel()`. */
  function DefaultExpense(today: DateField): (r: Expense)
    ensures r.item == DefaultItem(today) && !r.recurring
  {
    NewExpense(None, 0, Num(0), "none", "", false, DefaultDelta, today)
  }
}
