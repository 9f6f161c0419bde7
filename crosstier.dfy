/** What the two tiers agree on: the category keys the backend stores are
    the keys the front end's tag tables know; the interval text the front end
    sends is what the backend's column accepts and the upcoming-expenses view
    parses; and the window labels the backend emits turn into the intended
    tick texts on the line chart. */
module CrossTier {
  import opened Wrappers
  import opened JsText
  import opened Dates
  import TagTable
  import EC = ExpenseCategories
  import IC = IncomeCategories
  import BM = BackendModels
  import Models
  import Views
  import LineChart
  import Upcoming

  // ---------------------------------------------------------------------
  // Tags

  /** A stored expense choice whose key and display name are those of
      table entry j is shown as that entry. */
  lemma ExpenseChoiceAt(i: nat, j: nat)
    requires i < |BM.ExpenseCategoryChoices| && j < |EC.ExpenseTags|
    requires BM.ExpenseCategoryChoices[i] == (EC.ExpenseTags[j].0, EC.ExpenseTags[j].1.text)
    ensures EC.GetExpenseTag(BM.ExpenseCategoryChoices[i].0).Found?
    ensures EC.GetExpenseTag(BM.ExpenseCategoryChoices[i].0).element.text == BM.ExpenseCategoryChoices[i].1
    ensures BM.ExpenseCategoryChoices[i].0 in EC.ExpenseKeyOrder
  {
    EC.ExpenseKeysListed();
    EC.KeyFound(j);
    assert EC.ExpenseKeyOrder[j] == EC.ExpenseTags[j].0;
  }

  /** The stored expense choice i is shown as a tag whose text is its
      display name. */
  lemma ExpenseChoiceShown(i: nat)
    requires i < |BM.ExpenseCategoryChoices|
    ensures EC.GetExpenseTag(BM.ExpenseCategoryChoices[i].0).Found?
    ensures EC.GetExpenseTag(BM.ExpenseCategoryChoices[i].0).element.text == BM.ExpenseCategoryChoices[i].1
    ensures BM.ExpenseCategoryChoices[i].0 in EC.ExpenseKeyOrder
  {
    match i
    case 0 =>
      ExpenseChoiceAt(0, 3);
    case 1 =>
      ExpenseChoiceAt(1, 5);
    case 2 =>
      ExpenseChoiceAt(2, 12);
    case 3 =>
      ExpenseChoiceAt(3, 8);
    case 4 =>
      ExpenseChoiceAt(4, 6);
    case 5 =>
      ExpenseChoiceAt(5, 1);
    case 6 =>
      ExpenseChoiceAt(6, 4);
    case 7 =>
      ExpenseChoiceAt(7, 10);
    case 8 =>
      ExpenseChoiceAt(8, 2);
    case 9 =>
      ExpenseChoiceAt(9, 7);
    case 10 =>
      ExpenseChoiceAt(10, 11);
    case 11 =>
      ExpenseChoiceAt(11, 9);
    case 12 =>
      ExpenseChoiceAt(12, 0);
    case 13 =>
      ExpenseChoiceAt(13, 13);
  }

  /** Each key of the front end's expense table is a stored choice. */
  lemma ExpenseKeyStored(j: nat)
    requires j < |EC.ExpenseKeyOrder|
    ensures EC.ExpenseKeyOrder[j] in BM.ChoiceKeys(BM.ExpenseCategoryChoices)
  {
    var keys := BM.ChoiceKeys(BM.ExpenseCategoryChoices);
    match j
    case 0 =>
      assert keys[12] == EC.ExpenseKeyOrder[0];
    case 1 =>
      assert keys[5] == EC.ExpenseKeyOrder[1];
    case 2 =>
      assert keys[8] == EC.ExpenseKeyOrder[2];
    case 3 =>
      assert keys[0] == EC.ExpenseKeyOrder[3];
    case 4 =>
      assert keys[6] == EC.ExpenseKeyOrder[4];
    case 5 =>
      assert keys[1] == EC.ExpenseKeyOrder[5];
    case 6 =>
      assert keys[4] == EC.ExpenseKeyOrder[6];
    case 7 =>
      assert keys[9] == EC.ExpenseKeyOrder[7];
    case 8 =>
      assert keys[3] == EC.ExpenseKeyOrder[8];
    case 9 =>
      assert keys[11] == EC.ExpenseKeyOrder[9];
    case 10 =>
      assert keys[7] == EC.ExpenseKeyOrder[10];
    case 11 =>
      assert keys[10] == EC.ExpenseKeyOrder[11];
    case 12 =>
      assert keys[2] == EC.ExpenseKeyOrder[12];
    case 13 =>
      assert keys[13] == EC.ExpenseKeyOrder[13];
  }

  /** The backend's expense choices and the front end's table have the same
      keys, and every stored choice is shown with its display name. */
  lemma ExpenseChoicesShown()
    ensures |BM.ExpenseCategoryChoices| == |EC.ExpenseKeyOrder|
    ensures forall k :: k in BM.ChoiceKeys(BM.ExpenseCategoryChoices) <==> k in EC.ExpenseKeyOrder
    ensures forall i :: 0 <= i < |BM.ExpenseCategoryChoices| ==>
      EC.GetExpenseTag(BM.ExpenseCategoryChoices[i].0).Found? &&
      EC.GetExpenseTag(BM.ExpenseCategoryChoices[i].0).element.text == BM.ExpenseCategoryChoices[i].1
  {
    var keys := BM.ChoiceKeys(BM.ExpenseCategoryChoices);
    forall i | 0 <= i < |BM.ExpenseCategoryChoices|
      ensures EC.GetExpenseTag(BM.ExpenseCategoryChoices[i].0).Found?
      ensures EC.GetExpenseTag(BM.ExpenseCategoryChoices[i].0).element.text == BM.ExpenseCategoryChoices[i].1
    {
      ExpenseChoiceShown(i);
    }
    forall k | k in keys
      ensures k in EC.ExpenseKeyOrder
    {
      var i :| 0 <= i < |keys| && keys[i] == k;
      ExpenseChoiceShown(i);
    }
    forall k | k in EC.ExpenseKeyOrder
      ensures k in keys
    {
      var j :| 0 <= j < |EC.ExpenseKeyOrder| && EC.ExpenseKeyOrder[j] == k;
      ExpenseKeyStored(j);
    }
  }

  /** A stored income choice whose key and display name are those of
      table entry j is shown as that entry. */
  lemma IncomeChoiceAt(i: nat, j: nat)
    requires i < |BM.IncomeSourceChoices| && j < |IC.IncomeTags|
    requires BM.IncomeSourceChoices[i] == (IC.IncomeTags[j].0, IC.IncomeTags[j].1.text)
    ensures IC.GetIncomeTag(BM.IncomeSourceChoices[i].0).Found?
    ensures IC.GetIncomeTag(BM.IncomeSourceChoices[i].0).element.text == BM.IncomeSourceChoices[i].1
    ensures BM.IncomeSourceChoices[i].0 in IC.IncomeKeyOrder
  {
    IC.IncomeKeysListed();
    IC.KeyFound(j);
    assert IC.IncomeKeyOrder[j] == IC.IncomeTags[j].0;
  }

  /** The stored income choice i is shown as a tag whose text is its
      display name. */
  lemma IncomeChoiceShown(i: nat)
    requires i < |BM.IncomeSourceChoices|
    ensures IC.GetIncomeTag(BM.IncomeSourceChoices[i].0).Found?
    ensures IC.GetIncomeTag(BM.IncomeSourceChoices[i].0).element.text == BM.IncomeSourceChoices[i].1
    ensures BM.IncomeSourceChoices[i].0 in IC.IncomeKeyOrder
  {
    match i
    case 0 =>
      IncomeChoiceAt(0, 6);
    case 1 =>
      IncomeChoiceAt(1, 4);
    case 2 =>
      IncomeChoiceAt(2, 3);
    case 3 =>
      IncomeChoiceAt(3, 2);
    case 4 =>
      IncomeChoiceAt(4, 0);
    case 5 =>
      IncomeChoiceAt(5, 1);
    case 6 =>
      IncomeChoiceAt(6, 5);
    case 7 =>
      IncomeChoiceAt(7, 7);
  }

  /** Each key of the front end's income table is a stored choice. */
  lemma IncomeKeyStored(j: nat)
    requires j < |IC.IncomeKeyOrder|
    ensures IC.IncomeKeyOrder[j] in BM.ChoiceKeys(BM.IncomeSourceChoices)
  {
    var keys := BM.ChoiceKeys(BM.IncomeSourceChoices);
    match j
    case 0 =>
      assert keys[4] == IC.IncomeKeyOrder[0];
    case 1 =>
      assert keys[5] == IC.IncomeKeyOrder[1];
    case 2 =>
      assert keys[3] == IC.IncomeKeyOrder[2];
    case 3 =>
      assert keys[2] == IC.IncomeKeyOrder[3];
    case 4 =>
      assert keys[1] == IC.IncomeKeyOrder[4];
    case 5 =>
      assert keys[6] == IC.IncomeKeyOrder[5];
    case 6 =>
      assert keys[0] == IC.IncomeKeyOrder[6];
    case 7 =>
      assert keys[7] == IC.IncomeKeyOrder[7];
  }

  /** The backend's income choices and the front end's table have the same
      keys, and every stored choice is shown with its display name. */
  lemma IncomeChoicesShown()
    ensures |BM.IncomeSourceChoices| == |IC.IncomeKeyOrder|
    ensures forall k :: k in BM.ChoiceKeys(BM.IncomeSourceChoices) <==> k in IC.IncomeKeyOrder
    ensures forall i :: 0 <= i < |BM.IncomeSourceChoices| ==>
      IC.GetIncomeTag(BM.IncomeSourceChoices[i].0).Found? &&
      IC.GetIncomeTag(BM.IncomeSourceChoices[i].0).element.text == BM.IncomeSourceChoices[i].1
  {
    var keys := BM.ChoiceKeys(BM.IncomeSourceChoices);
    forall i | 0 <= i < |BM.IncomeSourceChoices|
      ensures IC.GetIncomeTag(BM.IncomeSourceChoices[i].0).Found?
      ensures IC.GetIncomeTag(BM.IncomeSourceChoices[i].0).element.text == BM.IncomeSourceChoices[i].1
    {
      IncomeChoiceShown(i);
    }
    forall k | k in keys
      ensures k in IC.IncomeKeyOrder
    {
      var i :| 0 <= i < |keys| && keys[i] == k;
      IncomeChoiceShown(i);
    }
    forall k | k in IC.IncomeKeyOrder
      ensures k in keys
    {
      var j :| 0 <= j < |IC.IncomeKeyOrder| && IC.IncomeKeyOrder[j] == k;
      IncomeKeyStored(j);
    }
  }

  // ---------------------------------------------------------------------
  // Intervals

  /** The text the front end sends for an interval within the column's bounds
      is accepted by the column and read back by the upcoming-expenses view as
      the same three numbers. */
  lemma FrontIntervalAccepted(y: nat, m: nat, d: nat)
    requires y <= 10 && m <= 11 && d <= 30
    ensures BM.IntervalFieldValid(Models.DeltaToString(Models.DateDelta(Num(y), Num(m), Num(d))))
    ensures BM.IntervalFieldValidAsWritten(Models.DeltaToString(Models.DateDelta(Num(y), Num(m), Num(d))))
    ensures Upcoming.ParseInterval(Models.DeltaToString(Models.DateDelta(Num(y), Num(m), Num(d))))
      == Some(Upcoming.Delta(y, m, d))
  {
    var s := Models.DeltaToString(Models.DateDelta(Num(y), Num(m), Num(d)));
    assert s == NatToString(y) + "-" + NatToString(m) + "-" + NatToString(d);
    BM.CanonicalIntervalFullMatch(y, m, d);
    BM.CanonicalIntervalAccepted(y, m, d);
    assert |s| <= BM.IntervalMaxLength by {
      assert |NatToString(y)| <= 2 && |NatToString(m)| <= 2 && |NatToString(d)| <= 2;
    }
    Upcoming.CanonicalIntervalParses(y, m, d);
  }

  /** The interval of a new item is "0-0-0": stored as is, and the zero step
      for the upcoming-expenses view. */
  lemma DefaultDeltaRoundTrip()
    ensures Models.DeltaToString(Models.DefaultDelta) == "0-0-0"
    ensures BM.IntervalFieldValid("0-0-0")
    ensures Upcoming.ParseInterval("0-0-0") == Some(Upcoming.Zero)
  {
    FrontIntervalAccepted(0, 0, 0);
    assert Models.DeltaToString(Models.DefaultDelta) == "0-0-0";
  }

  // ---------------------------------------------------------------------
  // Chart labels

  /** No text of an integer holds a comma. */
  lemma NoCommaInIntText(n: int)
    ensures ',' !in IntToString(n)
  {
    var t := NatToString(if n < 0 then -n else n);
    assert forall i :: 0 <= i < |t| ==> IsDigit(t[i]);
  }

  /** The last two digits of a four-digit year. */
  function YearDigits(y: nat): (s: string)
    ensures |s| == 2 && AllDigits(s)
  {
    [DigitChar(y / 10 % 10), DigitChar(y % 10)]
  }

  /** For a four-digit year the chart's `slice(3, 5)` of " yyyy" keeps its last
      two digits. */
  lemma FourDigitYearSuffix(y: nat)
    requires 1000 <= y <= 9999
    ensures Slice(" " + IntToString(y), 3, 5) == YearDigits(y)
  {
    var s := NatToString(y);
    assert s == NatToString(y / 10) + [DigitChar(y % 10)];
    assert NatToString(y / 10) == NatToString(y / 100) + [DigitChar(y / 10 % 10)];
    assert |NatToString(y / 100)| == 2;
    assert |s| == 4;
    assert (" " + s)[3..5] == [s[2], s[3]];
  }

  /** The '3y' tick shown for the label of a date. */
  lemma SeasonOfLabel(d: Date)
    requires Valid(d)
    ensures LineChart.TickLabel("3y", Views.Label("3y", d))
      == Some(LineChart.Seasons[(d.month - 1) / 3] + "." + Slice(" " + IntToString(d.year), 3, 5))
  {
    NoCommaInIntText(d.year);
    Views.QuarterLabel(d);
    LineChart.SeasonTick((d.month - 1) / 3, IntToString(d.year));
  }

  /** The '1y' tick shown for the label of a date. */
  lemma MonthYearOfLabel(d: Date)
    requires Valid(d)
    ensures LineChart.TickLabel("1y", Views.Label("1y", d))
      == Some(LineChart.Months[d.month - 1][..3] + "." + Slice(" " + IntToString(d.year), 3, 5))
  {
    NoCommaInIntText(d.year);
    assert Views.Label("1y", d) == NatToString(d.month) + ", " + IntToString(d.year);
    LineChart.MonthYearTick(d.month, IntToString(d.year));
  }

  /** The '6m' tick shown for the label of a date. */
  lemma MonthOfLabel(d: Date)
    requires Valid(d)
    ensures LineChart.TickLabel("6m", Views.Label("6m", d)) == Some(LineChart.Months[d.month - 1][..3])
  {
    NoCommaInIntText(d.year);
    assert Views.Label("6m", d) == NatToString(d.month) + ", " + IntToString(d.year);
    LineChart.MonthTick(d.month, IntToString(d.year));
  }

  /** The '3m' tick shown for the label of a date. */
  lemma WeekOfLabel(d: Date)
    requires Valid(d)
    ensures LineChart.TickLabel("3m", Views.Label("3m", d)) == Some(NatToString(d.day) + ". " + NatToString(d.month))
  {
    NoCommaInIntText(d.year);
    LineChart.WeekTick(d.day, d.month, IntToString(d.year));
  }

  /** The '1m' tick shown for the label of a date. */
  lemma DayOfLabel(d: Date)
    requires Valid(d)
    ensures LineChart.TickLabel("1m", Views.Label("1m", d))
      == if d.day % 5 == 0 || d.day == 1 then Some(NatToString(d.day)) else None
  {
    LineChart.DayTick(d.day, d.month);
  }

  /** The tick text the chart shows for the label the backend gives a date,
      for each scale. The year part of the coarse scales is the two characters
      at positions 3 and 4 of " " + year; for a four-digit year those are its
      last two digits. */
  lemma TicksOfLabels(d: Date)
    requires Valid(d)
    ensures LineChart.TickLabel("3y", Views.Label("3y", d))
      == Some(LineChart.Seasons[(d.month - 1) / 3] + "." + Slice(" " + IntToString(d.year), 3, 5))
    ensures LineChart.TickLabel("1y", Views.Label("1y", d))
      == Some(LineChart.Months[d.month - 1][..3] + "." + Slice(" " + IntToString(d.year), 3, 5))
    ensures LineChart.TickLabel("6m", Views.Label("6m", d)) == Some(LineChart.Months[d.month - 1][..3])
    ensures LineChart.TickLabel("3m", Views.Label("3m", d))
      == Some(NatToString(d.day) + ". " + NatToString(d.month))
    ensures LineChart.TickLabel("1m", Views.Label("1m", d))
      == if d.day % 5 == 0 || d.day == 1 then Some(NatToString(d.day)) else None
    ensures 1000 <= d.year <= 9999 ==> Slice(" " + IntToString(d.year), 3, 5) == YearDigits(d.year)
  {
    SeasonOfLabel(d);
    MonthYearOfLabel(d);
    MonthOfLabel(d);
    WeekOfLabel(d);
    DayOfLabel(d);
    if 1000 <= d.year <= 9999 {
      FourDigitYearSuffix(d.year);
    }
  }
}
