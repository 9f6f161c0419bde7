/**
 * The backend's ledger tables: the recurrence-interval validator, the
 * category choices, the field defaults and limits, and how an amount is
 * stored with two decimal places.
 */
module BackendModels {
  import opened Wrappers
  import opened JsText

  // ---------------------------------------------------------------------
  // The interval validator

  /** A regular-expression word character, on ASCII. */
  predicate IsWordChar(c: char) {
    IsDigit(c) || ('a' <= c <= 'z') || ('A' <= c <= 'Z') || c == '_'
  }

  /** `\b` at position i: a word character on exactly one side of it. */
  predicate Boundary(s: string, i: int)
    requires 0 <= i <= |s|
  {
    (i > 0 && IsWordChar(s[i - 1])) != (i < |s| && IsWordChar(s[i]))
  }

  /** `([0-9]|10)`. */
  predicate YearTok(t: string) {
    (|t| == 1 && IsDigit(t[0])) || t == "10"
  }

  /** `([0-9]|1[0-1])`. */
  predicate MonthTok(t: string) {
    (|t| == 1 && IsDigit(t[0])) || t == "10" || t == "11"
  }

  /** `([0-9]|[12][0-9]|30)`. */
  predicate DayTok(t: string) {
    || (|t| == 1 && IsDigit(t[0]))
    || (|t| == 2 && (t[0] == '1' || t[0] == '2') && IsDigit(t[1]))
    || t == "30"
  }

  /** A match of `\b([0-9]|10)\-\b([0-9]|1[0-1])\-\b([0-9]|[12][0-9]|30)` starting at i,
      the year ending at j and the month at k. Nothing follows the pattern, so the day
      needs only its first digit; the `\b` after each '-' holds because a digit follows it. */
  predicate MatchAt(s: string, i: int, j: int, k: int) {
    && 0 <= i <= j < k && k + 1 < |s|
    && Boundary(s, i) && YearTok(s[i..j]) && s[j] == '-'
    && MonthTok(s[j + 1..k]) && s[k] == '-' && IsDigit(s[k + 1])
  }

  /** `interval_validator`: the validator searches for the pattern anywhere in the text. */
  predicate IntervalValidator(s: string) {
    exists i, j, k :: 0 <= i <= j < k < |s| && MatchAt(s, i, j, k)
  }

  /** The format the validator's comment describes: exactly three '-'-separated fields
      with at most 10 years, 11 months and 30 days. */
  predicate IntervalFullMatch(s: string) {
    var parts := Split(s, '-');
    |parts| == 3 && YearTok(parts[0]) && MonthTok(parts[1]) && DayTok(parts[2])
  }

  lemma TokDigits(t: string)
    ensures YearTok(t) || MonthTok(t) || DayTok(t) ==> AllDigits(t)
  {
  }

  /** The full match bounds the three numbers as the comment says. */
  lemma FullMatchBounds(s: string)
    requires IntervalFullMatch(s)
    ensures var parts := Split(s, '-');
            AllDigits(parts[0]) && AllDigits(parts[1]) && AllDigits(parts[2]) &&
            DigitsValue(parts[0]) <= 10 && DigitsValue(parts[1]) <= 11 && DigitsValue(parts[2]) <= 30
  {
    var parts := Split(s, '-');
    TokDigits(parts[0]);
    TokDigits(parts[1]);
    TokDigits(parts[2]);
    assert DigitsValue("10") == 10 && DigitsValue("11") == 11 && DigitsValue("30") == 30;
    var d := parts[2];
    if |d| == 2 {
      assert DigitsValue(d) == DigitsValue(d[..1]) * 10 + DigitValue(d[1]);
      assert d[..1] == [d[0]];
    }
  }

  /** Anything of the intended format passes the validator. */
  lemma FullMatchPassesValidator(s: string)
    requires IntervalFullMatch(s)
    ensures IntervalValidator(s)
  {
    var parts := Split(s, '-');
    SplitJoin(s, '-');
    var a, b, c := parts[0], parts[1], parts[2];
    assert parts[1..][1..] == [c];
    assert Join(parts[1..], '-') == b + ['-'] + c;
    assert s == a + ['-'] + (b + ['-'] + c);
    var j := |a|;
    var k := |a| + 1 + |b|;
    assert s[0..j] == a;
    assert s[j + 1..k] == b;
    assert s[k + 1] == c[0];
    assert MatchAt(s, 0, j, k);
  }

  lemma TwoDigitText(n: nat)
    requires 10 <= n < 100
    ensures NatToString(n) == [DigitChar(n / 10), DigitChar(n % 10)]
  {
  }

  lemma NoDashInNatText(n: nat)
    ensures '-' !in NatToString(n)
  {
  }

  lemma YearTokOfText(n: nat)
    requires n <= 10
    ensures YearTok(NatToString(n))
  {
    if n == 10 { TwoDigitText(n); }
  }

  lemma MonthTokOfText(n: nat)
    requires n <= 11
    ensures MonthTok(NatToString(n))
  {
    if n >= 10 { TwoDigitText(n); }
  }

  lemma DayTokOfText(n: nat)
    requires n <= 30
    ensures DayTok(NatToString(n))
  {
    if n >= 10 { TwoDigitText(n); }
  }

  /** The canonical text of a year, month and day within bounds has the intended format. */
  lemma CanonicalIntervalFullMatch(y: nat, m: nat, d: nat)
    requires y <= 10 && m <= 11 && d <= 30
    ensures IntervalFullMatch(NatToString(y) + "-" + NatToString(m) + "-" + NatToString(d))
  {
    var a, b, c := NatToString(y), NatToString(m), NatToString(d);
    NoDashInNatText(y);
    NoDashInNatText(m);
    NoDashInNatText(d);
    YearTokOfText(y);
    MonthTokOfText(m);
    DayTokOfText(d);
    Split3(a, b, c, '-');
    assert a + "-" + b + "-" + c == a + ['-'] + b + ['-'] + c;
  }

  /** ... and so it passes the validator. */
  lemma CanonicalIntervalAccepted(y: nat, m: nat, d: nat)
    requires y <= 10 && m <= 11 && d <= 30
    ensures IntervalValidator(NatToString(y) + "-" + NatToString(m) + "-" + NatToString(d))
  {
    CanonicalIntervalFullMatch(y, m, d);
    FullMatchPassesValidator(NatToString(y) + "-" + NatToString(m) + "-" + NatToString(d));
  }

  /** The default interval of the front end passes both. */
  lemma ZeroIntervalAccepted()
    ensures IntervalFullMatch("0-0-0") && IntervalValidator("0-0-0")
  {
    assert NatToString(0) + "-" + NatToString(0) + "-" + NatToString(0) == "0-0-0";
    CanonicalIntervalAccepted(0, 0, 0);
    CanonicalIntervalFullMatch(0, 0, 0);
  }

  /** The validator accepts 31 days: it stops after the day's first digit. */
  lemma ValidatorAcceptsThirtyOneDays()
    ensures IntervalValidator("0-0-31") && !IntervalFullMatch("0-0-31")
  {
    var s := "0-0-31";
    assert s[0..1] == "0" && s[2..3] == "0";
    assert MatchAt(s, 0, 1, 3);
    Split3("0", "0", "31", '-');
    assert s == "0" + ['-'] + "0" + ['-'] + "31";
  }

  /** It also accepts text around a match. */
  lemma ValidatorAcceptsSurroundingText()
    ensures IntervalValidator("every 1-2-3 days") && !IntervalFullMatch("every 1-2-3 days")
  {
    var s := "every 1-2-3 days";
    assert s[6..7] == "1" && s[8..9] == "2";
    assert MatchAt(s, 6, 7, 9);
    Split3("every 1", "2", "3 days", '-');
    assert s == "every 1" + ['-'] + "2" + ['-'] + "3 days";
  }

  /** The interval column: blank is allowed (validators do not run on an empty value),
      otherwise at most 10 characters of the intended format. */
  predicate IntervalFieldValid(s: string) {
    s == "" || (|s| <= IntervalMaxLength && IntervalFullMatch(s))
  }

  /** The same column as written, with the searching validator. */
  predicate IntervalFieldValidAsWritten(s: string) {
    s == "" || (|s| <= IntervalMaxLength && IntervalValidator(s))
  }

  /** Every interval the intended column takes, the column as written takes too. */
  lemma FieldValidIsStricter(s: string)
    requires IntervalFieldValid(s)
    ensures IntervalFieldValidAsWritten(s)
  {
    if s != "" {
      FullMatchPassesValidator(s);
    }
  }

  // ---------------------------------------------------------------------
  // Choices, defaults and limits

  /** `Income.INCOME_CATEGORY_CHOICES`: stored value and display name. */
  const IncomeSourceChoices: seq<(string, string)> := [
    ("SALARY", "Salary"), ("INVESTMENT", "Investment"), ("INTEREST", "Interest"),
    ("GOVERNMENT", "Government"), ("BUSINESS", "Business"), ("DIVIDEND", "Dividend"),
    ("PENSION", "Pension"), ("OTHER", "Other")]

  /** `Expense.EXPENSE_CATEGORY_CHOICES`. */
  const ExpenseCategoryChoices: seq<(string, string)> := [
    ("FOOD", "Food"), ("HOUSING", "Housing"), ("TRANSPORTATION", "Transportation"),
    ("MEDICAL", "Medical"), ("INSURANCE", "Insurance"), ("EDUCATION", "Education"),
    ("HOUSEHOLD", "Household"), ("SHOPPING", "Shopping"), ("ENTERTAINMENT", "Entertainment"),
    ("INVESTMENT", "Investment"), ("SUBSCRIPTION", "Subscription"), ("SAVING", "Saving"),
    ("DEBT", "Debt"), ("OTHER", "Other")]

  /** The type flag's choices of both tables. */
  const IncomeTypeChoices: seq<(bool, string)> := [(true, "Fixed"), (false, "Non-fixed")]
  const ExpenseTypeChoices: seq<(bool, string)> := [(true, "Recurring"), (false, "Non-recurring")]

  const SourceMaxLength: nat := 100
  const CategoryMaxLength: nat := 50
  const DescriptionMaxLength: nat := 150
  const IntervalMaxLength: nat := 10
  const AmountMaxDigits: nat := 10
  const AmountDecimalPlaces: nat := 2

  function ChoiceKeys<K, V>(choices: seq<(K, V)>): (ks: seq<K>)
    ensures |ks| == |choices| && forall i :: 0 <= i < |choices| ==> ks[i] == choices[i].0
  {
    seq(|choices|, i requires 0 <= i < |choices| => choices[i].0)
  }

  /** A stored row of either table, as far as its own columns go; `amount` in cents. */
  datatype Row = Row(amount: int, tag: string, description: string, kind: bool, interval: string)

  /** The columns a row gets from its defaults: amount 0, tag 'OTHER', description '',
      type False. The interval has no default and is blank unless given. */
  function DefaultRow(): (r: Row)
    ensures r.amount == 0 && r.tag == "OTHER" && r.description == "" && !r.kind
  {
    Row(0, "OTHER", "", false, "")
  }

  /** The default tag is one of each table's choices. */
  lemma DefaultTagIsAChoice()
    ensures DefaultRow().tag in ChoiceKeys(IncomeSourceChoices)
    ensures DefaultRow().tag in ChoiceKeys(ExpenseCategoryChoices)
  {
    assert ChoiceKeys(IncomeSourceChoices)[7] == "OTHER";
    assert ChoiceKeys(ExpenseCategoryChoices)[13] == "OTHER";
  }

  /** Row limits of the expense table. */
  predicate ExpenseRowFits(r: Row) {
    |r.tag| <= CategoryMaxLength && |r.description| <= DescriptionMaxLength && IntervalFieldValid(r.interval)
  }

  /** Row limits of the income table. */
  predicate IncomeRowFits(r: Row) {
    |r.tag| <= SourceMaxLength && |r.description| <= DescriptionMaxLength && IntervalFieldValid(r.interval)
  }

  lemma DefaultRowsFit()
    ensures ExpenseRowFits(DefaultRow()) && IncomeRowFits(DefaultRow())
  {
  }

  // ---------------------------------------------------------------------
  // Amounts

  function Pow10(k: nat): (p: nat)
    ensures p >= 1
  {
    if k == 0 then 1 else 10 * Pow10(k - 1)
  }

  /** `n / d` rounded to the nearest integer, ties to the even one. */
  function RoundHalfEven(n: int, d: int): (q: int)
    requires d > 0
    ensures 2 * (n - q * d) <= d && -d <= 2 * (n - q * d)
    ensures 2 * (n - q * d) == d ==> q % 2 == 0
    ensures -d == 2 * (n - q * d) ==> q % 2 == 0
  {
    var f := n / d;
    var r := n - f * d;
    assert 0 <= r < d;
    assert n - (f + 1) * d == r - d;
    if 2 * r < d then f
    else if 2 * r > d then f + 1
    else if f % 2 == 0 then f else f + 1
  }

  datatype AmountError = TooManyDigits

  /** Storing the decimal `n / 10^k` in a column with two decimal places and at most ten
      digits: rounded half-even to cents; more than ten digits is an error. */
  function StoreAmount(n: int, k: nat): (r: Result<int, AmountError>)
    ensures r.Ok? ==> -(Pow10(AmountMaxDigits) as int) < r.value < Pow10(AmountMaxDigits)
    ensures r.Ok? ==> r.value == RoundHalfEven(n * 100, Pow10(k))
    ensures r.Err? ==> RoundHalfEven(n * 100, Pow10(k)) <= -(Pow10(AmountMaxDigits) as int)
                       || Pow10(AmountMaxDigits) <= RoundHalfEven(n * 100, Pow10(k))
  {
    var cents := RoundHalfEven(n * 100, Pow10(k));
    if -(Pow10(AmountMaxDigits) as int) < cents < Pow10(AmountMaxDigits) then Ok(cents) else Err(TooManyDigits)
  }

  /** An amount that already has at most two decimals is stored unchanged. */
  lemma StoreExactCents(cents: int)
    requires -(Pow10(AmountMaxDigits) as int) < cents < Pow10(AmountMaxDigits)
    ensures StoreAmount(cents, 2) == Ok(cents)
  {
    assert Pow10(2) == 100;
  }

  /** 0.005 is stored as 0.00 (the tie goes to the even cent), 0.015 as 0.02. */
  lemma HalfCentTies()
    ensures StoreAmount(5, 3) == Ok(0)
    ensures StoreAmount(15, 3) == Ok(2)
  {
    assert Pow10(3) == 1000;
  }
}
