/** Calendar dates as the backend's `datetime.date` values and the
    `relativedelta` / `timedelta` steps it applies to them: the proleptic
    Gregorian calendar, dates compared field by field. */
module Dates {
  datatype Date = Date(year: int, month: int, day: int)

  predicate IsLeap(y: int) {
    y % 4 == 0 && (y % 100 != 0 || y % 400 == 0)
  }

  function DaysInMonth(y: int, m: int): (n: int)
    ensures 28 <= n <= 31
    ensures m == 2 ==> (n == 29 <==> IsLeap(y))
  {
    if m == 2 then (if IsLeap(y) then 29 else 28)
    else if m == 4 || m == 6 || m == 9 || m == 11 then 30
    else 31
  }

  /** A date that exists in the calendar. */
  predicate Valid(d: Date) {
    1 <= d.month <= 12 && 1 <= d.day <= DaysInMonth(d.year, d.month)
  }

  /** `a < b` on dates: year, then month, then day. */
  predicate Less(a: Date, b: Date) {
    a.year < b.year || (a.year == b.year && (a.month < b.month || (a.month == b.month && a.day < b.day)))
  }

  predicate Le(a: Date, b: Date) {
    a == b || Less(a, b)
  }

  lemma LessTransitive(a: Date, b: Date, c: Date)
    requires Le(a, b) && Le(b, c)
    ensures Le(a, c)
    ensures Less(a, b) || Less(b, c) ==> Less(a, c)
  {
  }

  /** `d + timedelta(days=-1)`. */
  function DayBefore(d: Date): (r: Date)
    ensures Valid(d) ==> Valid(r) && Less(r, d)
  {
    if d.day > 1 then Date(d.year, d.month, d.day - 1)
    else if d.month > 1 then Date(d.year, d.month - 1, DaysInMonth(d.year, d.month - 1))
    else Date(d.year - 1, 12, 31)
  }

  /** No valid date lies strictly between the day before and the day itself. */
  lemma DayBeforeIsPredecessor(x: Date, d: Date)
    requires Valid(x) && Valid(d)
    ensures Le(x, DayBefore(d)) <==> Less(x, d)
  {
  }

  /** `d + timedelta(days=1)`. */
  function DayAfter(d: Date): (r: Date)
    ensures Valid(d) ==> Valid(r) && Less(d, r)
  {
    if d.day < DaysInMonth(d.year, d.month) then Date(d.year, d.month, d.day + 1)
    else if d.month < 12 then Date(d.year, d.month + 1, 1)
    else Date(d.year + 1, 1, 1)
  }

  /** `d + timedelta(days=n)`. */
  function AddDays(d: Date, n: nat): (r: Date)
    requires Valid(d)
    ensures Valid(r) && Le(d, r)
    ensures n > 0 ==> Less(d, r)
    decreases n
  {
    if n == 0 then d
    else
      var r := AddDays(DayAfter(d), n - 1);
      LessTransitive(d, DayAfter(d), r);
      r
  }

  /** `d - timedelta(days=n)`. */
  function SubDays(d: Date, n: nat): (r: Date)
    requires Valid(d)
    ensures Valid(r) && Le(r, d)
    ensures n > 0 ==> Less(r, d)
    decreases n
  {
    if n == 0 then d
    else
      var r := SubDays(DayBefore(d), n - 1);
      LessTransitive(r, DayBefore(d), d);
      r
  }

  function Min(a: int, b: int): int {
    if a <= b then a else b
  }

  /** The months since the start of year 0: the quantity `relativedelta(months=k)`
      adds k to. */
  function MonthNumber(d: Date): int {
    d.year * 12 + d.month - 1
  }

  /** `d + relativedelta(months=delta)`: the month moves by delta, carrying into
      the year, and the day is clamped to the length of the new month. */
  function ShiftMonths(d: Date, delta: int): (r: Date)
    requires Valid(d)
    ensures Valid(r)
    ensures MonthNumber(r) == MonthNumber(d) + delta
    ensures r.day == Min(d.day, DaysInMonth(r.year, r.month))
  {
    var total := MonthNumber(d) + delta;
    var m := total % 12 + 1;
    Date(total / 12, m, Min(d.day, DaysInMonth(total / 12, m)))
  }

  /** A later month number means a later date, whatever the days. */
  lemma MonthNumberOrder(a: Date, b: Date)
    requires Valid(a) && Valid(b) && MonthNumber(a) < MonthNumber(b)
    ensures Less(a, b)
  {
  }

  /** Moving forward by a positive number of months gives a later date, and
      backward an earlier one. */
  lemma ShiftMonthsOrder(d: Date, delta: int)
    requires Valid(d)
    ensures delta > 0 ==> Less(d, ShiftMonths(d, delta))
    ensures delta < 0 ==> Less(ShiftMonths(d, delta), d)
    ensures delta == 0 ==> ShiftMonths(d, delta) == d
  {
    var r := ShiftMonths(d, delta);
    if delta > 0 {
      MonthNumberOrder(d, r);
    } else if delta < 0 {
      MonthNumberOrder(r, d);
    }
  }

  /** `y + y/4 - y/100 + y/400` in Sakamoto's formula: the days the years before
      contribute, modulo 7, with floor division. */
  function YearKey(y: int): int {
    y + y / 4 - y / 100 + y / 400
  }

  /** Sakamoto's month offsets `[0, 3, 2, 5, 0, 3, 5, 1, 4, 6, 2, 4]`. */
  function MonthOffset(m: int): int
    requires 1 <= m <= 12
  {
    [0, 3, 2, 5, 0, 3, 5, 1, 4, 6, 2, 4][m - 1]
  }

  /** The sum Sakamoto's formula reduces modulo 7; March starts the counting year. */
  function SakamotoSum(d: Date): int
    requires Valid(d)
  {
    YearKey(if d.month < 3 then d.year - 1 else d.year) + MonthOffset(d.month) + d.day
  }

  /** `date.weekday()`, Monday being 0: Sakamoto's formula counts from Sunday. */
  function Weekday(d: Date): (w: nat)
    requires Valid(d)
    ensures w < 7
  {
    var sunday := SakamotoSum(d) % 7;
    (sunday + 6) % 7
  }

  /** Each floor-division term of the year key steps by one exactly at its multiples. */
  lemma QuarterStep(y: int)
    ensures y / 4 - (y - 1) / 4 == if y % 4 == 0 then 1 else 0
  {
    assert y - 1 == 4 * ((y - 1) / 4) + (y - 1) % 4;
  }

  lemma CenturyStep(y: int)
    ensures y / 100 - (y - 1) / 100 == if y % 100 == 0 then 1 else 0
  {
    assert y - 1 == 100 * ((y - 1) / 100) + (y - 1) % 100;
  }

  lemma QuadricentennialStep(y: int)
    ensures y / 400 - (y - 1) / 400 == if y % 400 == 0 then 1 else 0
  {
    assert y - 1 == 400 * ((y - 1) / 400) + (y - 1) % 400;
  }

  /** A multiple of 100 is a multiple of 4. */
  lemma CenturyIsQuarter(y: int)
    requires y % 100 == 0
    ensures y % 4 == 0
  {
    var q := y / 100;
    assert y == 4 * (25 * q);
  }

  /** A multiple of 400 is a multiple of 100. */
  lemma QuadricentennialIsCentury(y: int)
    requires y % 400 == 0
    ensures y % 100 == 0
  {
    var q := y / 400;
    assert y == 100 * (4 * q);
  }

  /** The year key grows by one more in a leap year. */
  lemma YearKeyStep(y: int)
    ensures YearKey(y) - YearKey(y - 1) == if IsLeap(y) then 2 else 1
  {
    QuarterStep(y);
    CenturyStep(y);
    QuadricentennialStep(y);
    if y % 400 == 0 {
      QuadricentennialIsCentury(y);
    }
    if y % 100 == 0 {
      CenturyIsQuarter(y);
    }
  }

  /** Sakamoto's sum drops by one modulo 7 from a day to the day before it, at a
      month's or a year's first day as well. */
  lemma SakamotoSumDayBefore(x: Date)
    requires Valid(x)
    ensures (SakamotoSum(x) - SakamotoSum(DayBefore(x))) % 7 == 1
  {
    if x.day == 1 && x.month == 3 {
      YearKeyStep(x.year);
    }
  }

  /** Shifting the sum by one modulo 7 shifts the Monday-based weekday by one. */
  lemma WeekdayShift(a: int, b: int)
    requires (a - b) % 7 == 1
    ensures (b % 7 + 6) % 7 == ((a % 7 + 6) % 7 + 6) % 7
  {
  }

  /** The day before a date falls on the previous weekday. */
  lemma WeekdayDayBefore(x: Date)
    requires Valid(x)
    ensures Weekday(DayBefore(x)) == (Weekday(x) + 6) % 7
  {
    SakamotoSumDayBefore(x);
    WeekdayShift(SakamotoSum(x), SakamotoSum(DayBefore(x)));
  }

  /** One weekday back, then n - 1 more, is n back. */
  lemma StepBack(w0: int, w1: int, w2: int, n: int)
    requires w1 == (w0 + 6) % 7 && w2 == (w1 - (n - 1)) % 7
    ensures w2 == (w0 - n) % 7
  {
  }

  /** n days back moves the weekday back by n, modulo 7. */
  lemma {:induction false} WeekdaySubDays(d: Date, n: nat)
    requires Valid(d)
    ensures Weekday(SubDays(d, n)) == (Weekday(d) - n) % 7
    decreases n
  {
    if n > 0 {
      var b := DayBefore(d);
      assert SubDays(d, n) == SubDays(b, n - 1);
      WeekdayDayBefore(d);
      WeekdaySubDays(b, n - 1);
      StepBack(Weekday(d), Weekday(b), Weekday(SubDays(b, n - 1)), n);
    }
  }

  /** Going back a + b days is going back a days, then b. */
  lemma {:induction false} SubDaysAdd(d: Date, a: nat, b: nat)
    requires Valid(d)
    ensures SubDays(d, a + b) == SubDays(SubDays(d, a), b)
    decreases a
  {
    if a > 0 {
      SubDaysAdd(DayBefore(d), a - 1, b);
    }
  }

  /** `d + relativedelta(weekday=MO(-1))`: the latest Monday on or before d. */
  function LastMonday(d: Date): (r: Date)
    requires Valid(d)
    ensures Valid(r) && Le(r, d)
    ensures Weekday(r) == 0
  {
    var w := Weekday(d);
    WeekdaySubDays(d, w);
    assert (w - w) % 7 == 0;
    SubDays(d, w)
  }

  /** The Monday found is within the last seven days, and a Monday is its own
      last Monday. */
  lemma LastMondayWithinWeek(d: Date)
    requires Valid(d)
    ensures Le(SubDays(d, 6), LastMonday(d))
    ensures Weekday(d) == 0 ==> LastMonday(d) == d
  {
    var w := Weekday(d);
    SubDaysAdd(d, w, 6 - w);
  }

  lemma SmallRemainder(x: int, r: int)
    requires 0 < x < 7 && r == x % 7
    ensures r != 0
  {
  }

  /** None of the days after the Monday found, up to d, is a Monday. */
  lemma NoMondayAfterLast(d: Date, j: nat)
    requires Valid(d) && j < Weekday(d)
    ensures Weekday(SubDays(d, j)) != 0
  {
    WeekdaySubDays(d, j);
    SmallRemainder(Weekday(d) - j, Weekday(SubDays(d, j)));
  }

  /** Two fixed Mondays: 1 January 2024 and 3 January 2000. */
  lemma KnownMondays()
    ensures Weekday(Date(2024, 1, 1)) == 0
    ensures Weekday(Date(2000, 1, 3)) == 0
    ensures LastMonday(Date(2024, 1, 7)) == Date(2024, 1, 1)
  {
    assert Weekday(Date(2024, 1, 7)) == 6;
    assert SubDays(Date(2024, 1, 7), 6) == Date(2024, 1, 1);
  }
}
