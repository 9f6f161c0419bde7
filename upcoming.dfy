/** The backend's upcoming-expenses view: every recurring expense whose date is
    in the past is moved forward by its interval until it is not, the new dates
    are written back, and the expenses due within the next 30 days are returned
    in date order. */
module Upcoming {
  import opened Wrappers
  import opened JsText
  import opened Dates

  /** The fields of a stored expense that the view reads or writes; `recurring`
      is the `type` column. */
  datatype Expense = Expense(id: int, date: Date, interval: string, recurring: bool)

  /** `relativedelta(years=y, months=m, days=d)` for the parsed interval. */
  datatype Delta = Delta(years: nat, months: nat, days: nat)

  const Zero: Delta := Delta(0, 0, 0)

  /** The view stops with an exception on an interval it cannot evaluate. */
  datatype UpcomingError = BadInterval(id: int)

  /** An interval part that `eval` reads as a non-negative integer literal:
      digits only, and no leading zero unless every digit is zero. */
  predicate IsIntLiteral(t: string) {
    |t| >= 1 && AllDigits(t) && (t[0] != '0' || forall i :: 0 <= i < |t| ==> t[i] == '0')
  }

  /** `[eval(n) for n in interval.split('-')]` unpacked into three names. */
  function ParseInterval(s: string): (r: Option<Delta>)
    ensures r.Some? <==> |Split(s, '-')| == 3 && IsIntLiteral(Split(s, '-')[0])
                         && IsIntLiteral(Split(s, '-')[1]) && IsIntLiteral(Split(s, '-')[2])
    ensures r.Some? ==> r.value == Delta(DigitsValue(Split(s, '-')[0]), DigitsValue(Split(s, '-')[1]),
                                         DigitsValue(Split(s, '-')[2]))
  {
    var parts := Split(s, '-');
    if |parts| == 3 && IsIntLiteral(parts[0]) && IsIntLiteral(parts[1]) && IsIntLiteral(parts[2]) then
      Some(Delta(DigitsValue(parts[0]), DigitsValue(parts[1]), DigitsValue(parts[2])))
    else None
  }

  /** The text of a number never starts with a zero unless it is "0". */
  lemma {:induction false} NatTextIsLiteral(n: nat)
    ensures IsIntLiteral(NatToString(n))
    ensures n > 0 ==> NatToString(n)[0] != '0'
    ensures '-' !in NatToString(n)
    decreases n
  {
    if n >= 10 {
      NatTextIsLiteral(n / 10);
      assert NatToString(n)[0] == NatToString(n / 10)[0];
    }
  }

  /** A canonical interval text "y-m-d" parses to its three numbers. */
  lemma CanonicalIntervalParses(y: nat, m: nat, d: nat)
    ensures ParseInterval(NatToString(y) + "-" + NatToString(m) + "-" + NatToString(d)) == Some(Delta(y, m, d))
  {
    NatTextIsLiteral(y);
    NatTextIsLiteral(m);
    NatTextIsLiteral(d);
    var s := NatToString(y) + "-" + NatToString(m) + "-" + NatToString(d);
    assert s == NatToString(y) + ['-'] + NatToString(m) + ['-'] + NatToString(d);
    Split3(NatToString(y), NatToString(m), NatToString(d), '-');
    DigitsValueOfNatToString(y);
    DigitsValueOfNatToString(m);
    DigitsValueOfNatToString(d);
  }

  /** The model's default interval "0-0-0" parses to the zero step. */
  lemma DefaultIntervalIsZero()
    ensures ParseInterval("0-0-0") == Some(Zero)
  {
    CanonicalIntervalParses(0, 0, 0);
    assert NatToString(0) + "-" + NatToString(0) + "-" + NatToString(0) == "0-0-0";
  }

  /** `eval("00")` is 0, so a zero part may repeat its zero: "0-0-00" is the zero
      step too. */
  lemma RepeatedZeroPartIsZero()
    ensures ParseInterval("0-0-00") == Some(Zero)
  {
    assert "0-0-00" == "0" + ['-'] + "0" + ['-'] + "00";
    Split3("0", "0", "00", '-');
    assert DigitsValue("00") == DigitsValue("0" + "0");
    DigitsValueLeadingZero("0");
  }

  /** A part with a leading zero such as "01" is a syntax error for `eval`, and
      a two-part text cannot be unpacked into three names. */
  lemma MalformedIntervalsRejected()
    ensures ParseInterval("01-0-0") == None
    ensures ParseInterval("1-2") == None
  {
    assert "01-0-0" == "01" + ['-'] + "0" + ['-'] + "0";
    Split3("01", "0", "0", '-');
    assert "1-2" == "1" + ['-'] + "2";
    Split2("1", "2", '-');
  }

  /** `date + relativedelta(years=y, months=m, days=d)`: years and months first,
      with the day clamped to the new month, then the days. */
  function AddInterval(d: Date, iv: Delta): (r: Date)
    requires Valid(d)
    ensures Valid(r)
    ensures iv == Zero ==> r == d
    ensures iv != Zero ==> Less(d, r)
  {
    var shifted := ShiftMonths(d, 12 * iv.years + iv.months);
    ShiftMonthsOrder(d, 12 * iv.years + iv.months);
    var r := AddDays(shifted, iv.days);
    LessTransitive(d, shifted, r);
    r
  }

  /** The date after n steps of the interval. */
  function Iterate(d: Date, iv: Delta, n: nat): (r: Date)
    requires Valid(d)
    ensures Valid(r)
  {
    if n == 0 then d else AddInterval(Iterate(d, iv, n - 1), iv)
  }

  /** r is the first date along d, d + iv, d + 2 iv, ... that is not before today. */
  ghost predicate FirstNotBefore(d: Date, iv: Delta, today: Date, r: Date)
    requires Valid(d)
  {
    exists n: nat :: r == Iterate(d, iv, n) && !Less(r, today) && forall k :: 0 <= k < n ==> Less(Iterate(d, iv, k), today)
  }

  /** There is only one such date. */
  lemma FirstNotBeforeUnique(d: Date, iv: Delta, today: Date, r1: Date, r2: Date)
    requires Valid(d) && FirstNotBefore(d, iv, today, r1) && FirstNotBefore(d, iv, today, r2)
    ensures r1 == r2
  {
  }

  /** With the zero interval every step stays where it is: a past date never
      reaches today, so the view's loop does not end. */
  lemma {:induction false} ZeroIntervalStaysInPast(d: Date, today: Date, n: nat)
    requires Valid(d) && Less(d, today)
    ensures Iterate(d, Zero, n) == d && Less(Iterate(d, Zero, n), today)
  {
    if n > 0 {
      ZeroIntervalStaysInPast(d, today, n - 1);
    }
  }

  /** `while expense.date < curr_date: expense.date += interval`. The zero
      interval is excluded for past dates, on which the loop runs forever. */
  method AdvanceDate(date: Date, iv: Delta, today: Date) returns (r: Date)
    requires Valid(date) && Valid(today)
    requires iv == Zero ==> !Less(date, today)
    ensures Valid(r) && !Less(r, today)
    ensures FirstNotBefore(date, iv, today, r)
    ensures !Less(date, today) ==> r == date
  {
    r := date;
    ghost var n: nat := 0;
    while Less(r, today)
      invariant Valid(r) && r == Iterate(date, iv, n)
      invariant iv == Zero ==> r == date
      invariant forall k :: 0 <= k < n ==> Less(Iterate(date, iv, k), today)
      decreases today.year - r.year, 12 - r.month, 31 - r.day
    {
      r := AddInterval(r, iv);
      n := n + 1;
    }
  }

  predicate ValidDates(xs: seq<Expense>) {
    forall i :: 0 <= i < |xs| ==> Valid(xs[i].date)
  }

  /** `Expense.objects.filter(user=pk, type=True)` on the user's expenses. */
  function Recurring(xs: seq<Expense>): (r: seq<Expense>)
    ensures forall x :: x in r <==> x in xs && x.recurring
    ensures multiset(r) <= multiset(xs)
  {
    if |xs| == 0 then []
    else
      assert xs == [xs[0]] + xs[1..];
      (if xs[0].recurring then [xs[0]] else []) + Recurring(xs[1..])
  }

  /** The zero interval is never applied to a past date. */
  predicate NoStuckExpense(xs: seq<Expense>, today: Date) {
    forall i :: 0 <= i < |xs| && ParseInterval(xs[i].interval) == Some(Zero) ==> !Less(xs[i].date, today)
  }

  /** The new rows: each has only its date changed, to the first step of its
      interval that is not before today. */
  ghost predicate AdvancedAll(xs: seq<Expense>, today: Date, ys: seq<Expense>)
    requires ValidDates(xs)
  {
    |ys| == |xs| &&
    forall i :: 0 <= i < |xs| ==>
      ParseInterval(xs[i].interval).Some? && ys[i] == xs[i].(date := ys[i].date) &&
      FirstNotBefore(xs[i].date, ParseInterval(xs[i].interval).value, today, ys[i].date)
  }

  /** The update loop over the recurring expenses: the first interval that
      does not evaluate stops the view. */
  method AdvanceAll(xs: seq<Expense>, today: Date) returns (r: Result<seq<Expense>, UpcomingError>)
    requires ValidDates(xs) && Valid(today) && NoStuckExpense(xs, today)
    ensures r.Ok? <==> forall i :: 0 <= i < |xs| ==> ParseInterval(xs[i].interval).Some?
    ensures r.Ok? ==> AdvancedAll(xs, today, r.value) && ValidDates(r.value)
    ensures r.Err? ==> exists j :: 0 <= j < |xs| && r.error == BadInterval(xs[j].id) && ParseInterval(xs[j].interval).None?
  {
    var ys: seq<Expense> := [];
    var i := 0;
    while i < |xs|
      invariant 0 <= i <= |xs|
      invariant AdvancedAll(xs[..i], today, ys) && ValidDates(ys)
    {
      var iv := ParseInterval(xs[i].interval);
      if iv.None? {
        return Err(BadInterval(xs[i].id));
      }
      var next := AdvanceDate(xs[i].date, iv.value, today);
      ys := ys + [xs[i].(date := next)];
      i := i + 1;
    }
    assert xs[..i] == xs;
    return Ok(ys);
  }

  /** `date__gte=curr_date, date__lte=curr_date + timedelta(days=30)`. */
  predicate DueSoon(x: Expense, today: Date)
    requires Valid(today)
  {
    Le(today, x.date) && Le(x.date, AddDays(today, 30))
  }

  function Due(xs: seq<Expense>, today: Date): (r: seq<Expense>)
    requires Valid(today)
    ensures forall x :: x in r <==> x in xs && DueSoon(x, today)
    ensures multiset(r) <= multiset(xs)
  {
    if |xs| == 0 then []
    else
      assert xs == [xs[0]] + xs[1..];
      (if DueSoon(xs[0], today) then [xs[0]] else []) + Due(xs[1..], today)
  }

  predicate SortedByDate(xs: seq<Expense>) {
    forall i, j :: 0 <= i < j < |xs| ==> Le(xs[i].date, xs[j].date)
  }

  /** Insertion before the first row that is not earlier than x. */
  function Insert(x: Expense, xs: seq<Expense>): (r: seq<Expense>)
    ensures multiset(r) == multiset(xs) + multiset{x}
  {
    if |xs| == 0 then [x]
    else if Le(x.date, xs[0].date) then [x] + xs
    else
      assert xs == [xs[0]] + xs[1..];
      [xs[0]] + Insert(x, xs[1..])
  }

  /** A date at or below x and every row stays at or below the result. */
  lemma {:induction false} InsertAbove(x: Expense, xs: seq<Expense>, b: Date)
    requires Le(b, x.date) && forall j :: 0 <= j < |xs| ==> Le(b, xs[j].date)
    ensures forall j :: 0 <= j < |Insert(x, xs)| ==> Le(b, Insert(x, xs)[j].date)
  {
    if |xs| > 0 && !Le(x.date, xs[0].date) {
      InsertAbove(x, xs[1..], b);
    }
  }

  /** Insertion into a date-ordered list keeps it ordered. */
  lemma {:induction false} InsertSorted(x: Expense, xs: seq<Expense>)
    requires SortedByDate(xs)
    ensures SortedByDate(Insert(x, xs))
  {
    if |xs| > 0 {
      if Le(x.date, xs[0].date) {
        forall j | 0 <= j < |xs|
          ensures Le(x.date, xs[j].date)
        {
          LessTransitive(x.date, xs[0].date, xs[j].date);
        }
      } else {
        InsertSorted(x, xs[1..]);
        InsertAbove(x, xs[1..], xs[0].date);
      }
    }
  }

  /** `.order_by('date')`; rows with the same date keep their order. */
  function SortByDate(xs: seq<Expense>): (r: seq<Expense>)
    ensures multiset(r) == multiset(xs)
  {
    if |xs| == 0 then []
    else
      assert xs == [xs[0]] + xs[1..];
      Insert(xs[0], SortByDate(xs[1..]))
  }

  /** The sorted list is in ascending date order. */
  lemma {:induction false} SortByDateSorted(xs: seq<Expense>)
    ensures SortedByDate(SortByDate(xs))
  {
    if |xs| > 0 {
      SortByDateSorted(xs[1..]);
      InsertSorted(xs[0], SortByDate(xs[1..]));
    }
  }

  /** `UpcomingExpenses.get`: the advanced rows are what is written back, and
      the answer is the due ones in date order. */
  method UpcomingExpenses(expenses: seq<Expense>, today: Date)
    returns (written: seq<Expense>, r: Result<seq<Expense>, UpcomingError>)
    requires ValidDates(expenses) && Valid(today) && NoStuckExpense(Recurring(expenses), today)
    ensures r.Err? ==> written == []
    ensures r.Ok? ==> AdvancedAll(Recurring(expenses), today, written)
    ensures r.Ok? ==> r.value == SortByDate(Due(written, today))
    ensures r.Ok? ==> SortedByDate(r.value) && forall x :: x in r.value ==> x.recurring && DueSoon(x, today)
  {
    var recurring := Recurring(expenses);
    assert ValidDates(recurring) by {
      forall i | 0 <= i < |recurring|
        ensures Valid(recurring[i].date)
      {
        assert recurring[i] in expenses;
      }
    }
    var advanced := AdvanceAll(recurring, today);
    if advanced.Err? {
      return [], Err(advanced.error);
    }
    written := advanced.value;
    var due := Due(written, today);
    forall x | x in due
      ensures x.recurring
    {
      var i :| 0 <= i < |written| && written[i] == x;
      assert recurring[i] in recurring;
    }
    var sorted := SortByDate(due);
    SortByDateSorted(due);
    assert forall x :: x in sorted ==> x in multiset(due);
    r := Ok(sorted);
  }
}
