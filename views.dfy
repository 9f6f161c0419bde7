/** The backend's chart and net-income views, over in-memory lists of dated
    amounts (the rows the ORM filters and sums): the chart label per scale, the
    default scale, the window plan per scale, the per-window net income list,
    the backwards money-flow recurrence and the net income up to a day. */
module Views {
  import opened Wrappers
  import opened JsText
  import opened Dates

  /** One income or expense row: its date and its amount in cents. */
  datatype Entry = Entry(date: Date, amount: int)

  predicate ValidEntries(es: seq<Entry>) {
    forall i :: 0 <= i < |es| ==> Valid(es[i].date)
  }

  /** `date__gte=lo` (when a lower bound is given) and `date__lte=hi`. */
  predicate InWindow(x: Date, lo: Option<Date>, hi: Date) {
    (lo.None? || Le(lo.value, x)) && Le(x, hi)
  }

  /** The amounts of the rows in the window, added up. */
  function SumIn(es: seq<Entry>, lo: Option<Date>, hi: Date): int {
    if |es| == 0 then 0
    else (if InWindow(es[0].date, lo, hi) then es[0].amount else 0) + SumIn(es[1..], lo, hi)
  }

  /** `.aggregate(Sum('amount'))['amount__sum']`: None when no row is in the
      window, else the sum. */
  function AggregateSum(es: seq<Entry>, lo: Option<Date>, hi: Date): (r: Option<int>)
    ensures r.Some? ==> r.value == SumIn(es, lo, hi)
    ensures r.None? ==> SumIn(es, lo, hi) == 0
  {
    if |es| == 0 then None
    else
      var rest := AggregateSum(es[1..], lo, hi);
      if InWindow(es[0].date, lo, hi) then Some(es[0].amount + rest.GetOr(0)) else rest
  }

  /** The aggregate is None exactly when no row falls in the window. */
  lemma {:induction false} AggregateSumNone(es: seq<Entry>, lo: Option<Date>, hi: Date)
    ensures AggregateSum(es, lo, hi).None? <==> forall i :: 0 <= i < |es| ==> !InWindow(es[i].date, lo, hi)
  {
    if |es| > 0 {
      AggregateSumNone(es[1..], lo, hi);
      assert forall i :: 1 <= i < |es| ==> es[i] == es[1..][i - 1];
    }
  }

  /** Python truth of an aggregate: None and a zero Decimal are false. */
  predicate Truthy(x: Option<int>) {
    x.Some? && x.value != 0
  }

  /** The current window's net in `getAbsoluteNetIncomeList`: income minus
      expense when both sums are truthy, otherwise 0. */
  function CurrentNet(income: Option<int>, expense: Option<int>): int {
    if Truthy(income) && Truthy(expense) then income.value - expense.value else 0
  }

  /** An earlier window's net: a falsy sum counts as 0. */
  function WindowNet(income: Option<int>, expense: Option<int>): int {
    (if Truthy(income) then income.value else 0) - (if Truthy(expense) then expense.value else 0)
  }

  /** The net of the rows in a window. */
  function NetIn(incomes: seq<Entry>, expenses: seq<Entry>, lo: Option<Date>, hi: Date): int {
    SumIn(incomes, lo, hi) - SumIn(expenses, lo, hi)
  }

  /** An earlier window's net is the window's income total minus its expense
      total. */
  lemma WindowNetIsNetIn(incomes: seq<Entry>, expenses: seq<Entry>, lo: Option<Date>, hi: Date)
    ensures WindowNet(AggregateSum(incomes, lo, hi), AggregateSum(expenses, lo, hi)) == NetIn(incomes, expenses, lo, hi)
  {
  }

  /** The current window shows 0 when it has incomes but no expenses, unlike
      every earlier window. */
  lemma CurrentWindowHidesOneSidedNet(day: Date, amount: int)
    requires amount != 0
    ensures CurrentNet(AggregateSum([Entry(day, amount)], Some(day), day), AggregateSum([], Some(day), day)) == 0
    ensures WindowNet(AggregateSum([Entry(day, amount)], Some(day), day), AggregateSum([], Some(day), day)) == amount
  {
  }

  /** `int((m - 1) / 3)`: true division, then truncation toward zero. */
  function TruncDiv3(n: int): (q: int)
    ensures n >= 0 ==> q == n / 3
    ensures n < 0 ==> q == -((-n) / 3)
  {
    if n >= 0 then n / 3 else -((-n) / 3)
  }

  const Scales: set<string> := {"3y", "1y", "6m", "3m", "1m"}

  /** `getLabel(scale, date)`. */
  function Label(scale: string, d: Date): (s: string)
    ensures scale !in Scales ==> s == ""
  {
    if scale == "3y" then IntToString(TruncDiv3(d.month - 1)) + ", " + IntToString(d.year)
    else if scale == "1y" || scale == "6m" then IntToString(d.month) + ", " + IntToString(d.year)
    else if scale == "3m" then IntToString(d.day) + ", " + IntToString(d.month) + ", " + IntToString(d.year)
    else if scale == "1m" then IntToString(d.day) + ", " + IntToString(d.month)
    else ""
  }

  /** For a real date the '3y' label starts with the quarter index 0..3, and
      months of one quarter share it. */
  lemma QuarterLabel(d: Date)
    requires Valid(d)
    ensures 0 <= (d.month - 1) / 3 < 4
    ensures Label("3y", d) == NatToString((d.month - 1) / 3) + ", " + IntToString(d.year)
    ensures d.month in {1, 2, 3} ==> Label("3y", d) == Label("3y", Date(d.year, 1, 1))
  {
  }

  /** The scale query parameter: missing or empty means '6m'. */
  function ScaleOrDefault(param: Option<string>): (scale: string)
    ensures param.None? ==> scale == "6m"
    ensures param.Some? ==> scale == if param.value == "" then "6m" else param.value
  {
    if param.None? || param.value == "" then "6m" else param.value
  }

  /** The step from one window start to the previous one. */
  datatype Interval = MonthsBack(months: nat) | DaysBack(days: nat)

  /** The first window's start, the step between windows and how many earlier
      windows follow the first. */
  datatype Plan = Plan(start: Date, step: Interval, count: nat)

  /** A plan whose first window starts on or before today and whose step
      goes back by at least one day. */
  predicate GoodPlan(p: Plan, today: Date) {
    Valid(today) && Valid(p.start) && Le(p.start, today) && p.step != MonthsBack(0) && p.step != DaysBack(0)
  }

  /** The per-scale settings; an unknown scale takes the error branch. */
  function PlanFor(scale: string, today: Date): (p: Option<Plan>)
    requires Valid(today)
    ensures p.Some? <==> scale in Scales
    ensures p.Some? ==> GoodPlan(p.value, today)
  {
    var firstOfMonth := Date(today.year, today.month, 1);
    if scale == "3y" then
      var quarter := TruncDiv3(today.month - 1);
      Some(Plan(Date(today.year, quarter * 3 + 1, 1), MonthsBack(3), 11))
    else if scale == "1y" then
      ShiftMonthsOrder(firstOfMonth, -1);
      Some(Plan(ShiftMonths(firstOfMonth, -1), MonthsBack(2), 5))
    else if scale == "6m" then
      Some(Plan(firstOfMonth, MonthsBack(1), 5))
    else if scale == "3m" then
      Some(Plan(LastMonday(today), DaysBack(7), 11))
    else if scale == "1m" then
      Some(Plan(today, DaysBack(1), today.day - 1))
    else
      None
  }

  /** `start + interval` for the backwards steps. */
  function Back(d: Date, step: Interval): (r: Date)
    requires Valid(d)
    ensures Valid(r)
    ensures step != MonthsBack(0) && step != DaysBack(0) ==> Less(r, d)
  {
    match step
    case MonthsBack(n) => ShiftMonthsOrder(d, -(n as int)); ShiftMonths(d, -(n as int))
    case DaysBack(n) => SubDays(d, n)
  }

  /** The start of window k; window 0 is the one containing today. */
  function Start(p: Plan, k: nat): (r: Date)
    requires Valid(p.start)
    ensures Valid(r)
  {
    if k == 0 then p.start else Back(Start(p, k - 1), p.step)
  }

  /** The end of window k: today for window 0, else the day before the start
      of the window after it. */
  function End(p: Plan, today: Date, k: nat): (r: Date)
    requires Valid(p.start) && Valid(today)
    ensures Valid(r)
  {
    if k == 0 then today else DayBefore(Start(p, k - 1))
  }

  /** Each window of a plan is a non-empty run of days. */
  lemma {:induction false} WindowsOrdered(p: Plan, today: Date, k: nat)
    requires GoodPlan(p, today)
    ensures Le(Start(p, k), End(p, today, k))
  {
    if k > 0 {
      DayBeforeIsPredecessor(Start(p, k), Start(p, k - 1));
    }
  }

  /** A Python dict built by assignments: a pair list where assigning a key
      that is present replaces its value in place and a new key goes last. */
  type Dict = seq<(string, int)>

  function Keys(d: Dict): (ks: seq<string>)
    ensures |ks| == |d| && forall i :: 0 <= i < |d| ==> ks[i] == d[i].0
  {
    seq(|d|, i requires 0 <= i < |d| => d[i].0)
  }

  /** The position of key k: the first pair that holds it. */
  function IndexOf(d: Dict, k: string): (i: nat)
    requires k in Keys(d)
    ensures i < |d| && d[i].0 == k
    ensures forall j :: 0 <= j < i ==> d[j].0 != k
    decreases |d|
  {
    if d[0].0 == k then 0
    else
      assert Keys(d) == [d[0].0] + Keys(d[1..]);
      1 + IndexOf(d[1..], k)
  }

  /** `d[k] = v`. */
  function Put(d: Dict, k: string, v: int): Dict {
    if k in Keys(d) then d[IndexOf(d, k) := (k, v)] else d + [(k, v)]
  }

  /** Assigning a new key appends the pair; assigning a present key replaces
      the value at its first position and leaves every other pair and the
      length as they were. */
  lemma PutAssigns(d: Dict, k: string, v: int)
    ensures k !in Keys(d) ==> Put(d, k, v) == d + [(k, v)]
    ensures k in Keys(d) ==> |Put(d, k, v)| == |d| && Put(d, k, v)[IndexOf(d, k)] == (k, v)
    ensures k in Keys(d) ==> forall i :: 0 <= i < |d| && i != IndexOf(d, k) ==> Put(d, k, v)[i] == d[i]
  {
  }

  /** `dict(reversed(list(d.items())))`. */
  function Reverse(d: Dict): (r: Dict)
    ensures |r| == |d| && forall i :: 0 <= i < |d| ==> r[i] == d[|d| - 1 - i]
  {
    seq(|d|, i requires 0 <= i < |d| => d[|d| - 1 - i])
  }

  /** The dict that assigning `keys(0): vals(0)`, ..., `keys(n): vals(n)` in
      turn builds. */
  function Assigned(keys: nat -> string, vals: nat -> int, n: nat): Dict {
    if n == 0 then [(keys(0), vals(0))] else Put(Assigned(keys, vals, n - 1), keys(n), vals(n))
  }

  /** The pairs `(keys(k), vals(k))` for k = 0..n, in order. */
  function Listed(keys: nat -> string, vals: nat -> int, n: nat): (d: Dict)
    ensures |d| == n + 1
  {
    seq(n + 1, k requires 0 <= k <= n => (keys(k), vals(k)))
  }

  predicate DistinctKeys(keys: nat -> string, n: nat) {
    forall i, j :: 0 <= i < j <= n ==> keys(i) != keys(j)
  }

  /** When no key repeats, no assignment overwrites: the dict lists every pair
      in assignment order. */
  lemma {:induction false} AssignedDistinct(keys: nat -> string, vals: nat -> int, n: nat)
    requires DistinctKeys(keys, n)
    ensures Assigned(keys, vals, n) == Listed(keys, vals, n)
  {
    if n > 0 {
      assert DistinctKeys(keys, n - 1);
      AssignedDistinct(keys, vals, n - 1);
      var d := Listed(keys, vals, n - 1);
      assert keys(n) !in Keys(d) by {
        forall k | 0 <= k < |d|
          ensures Keys(d)[k] != keys(n)
        {
          assert Keys(d)[k] == keys(k);
        }
      }
      var e := Listed(keys, vals, n);
      assert d + [(keys(n), vals(n))] == e by {
        forall k | 0 <= k <= n
          ensures (d + [(keys(n), vals(n))])[k] == e[k]
        {
          if k < n {
            assert d[k] == e[k];
          }
        }
      }
    }
  }

  /** The label of each window end. */
  function WindowLabels(scale: string, p: Plan, today: Date): nat -> string
    requires Valid(p.start) && Valid(today)
  {
    (k: nat) => Label(scale, End(p, today, k))
  }

  /** The net of window k in `getAbsoluteNetIncomeList`. */
  function AbsoluteNet(incomes: seq<Entry>, expenses: seq<Entry>, p: Plan, today: Date, k: nat): int
    requires Valid(p.start) && Valid(today)
  {
    var lo, hi := Some(Start(p, k)), End(p, today, k);
    if k == 0 then CurrentNet(AggregateSum(incomes, lo, hi), AggregateSum(expenses, lo, hi))
    else WindowNet(AggregateSum(incomes, lo, hi), AggregateSum(expenses, lo, hi))
  }

  /** The nets of the windows in `getAbsoluteNetIncomeList`. */
  function AbsoluteNets(incomes: seq<Entry>, expenses: seq<Entry>, p: Plan, today: Date): nat -> int
    requires Valid(p.start) && Valid(today)
  {
    (k: nat) => AbsoluteNet(incomes, expenses, p, today, k)
  }

  datatype ViewError = UnknownScale | TypeError

  /** One more window in `getAbsoluteNetIncomeList`: its label and net are
      assigned into the dict of the windows before it. */
  lemma AbsoluteStep(incomes: seq<Entry>, expenses: seq<Entry>, scale: string, p: Plan, today: Date, i: nat)
    requires Valid(p.start) && Valid(today)
    ensures var prevStart, prevEnd := Back(Start(p, i), p.step), DayBefore(Start(p, i));
            Assigned(WindowLabels(scale, p, today), AbsoluteNets(incomes, expenses, p, today), i + 1)
            == Put(Assigned(WindowLabels(scale, p, today), AbsoluteNets(incomes, expenses, p, today), i),
                   Label(scale, prevEnd),
                   WindowNet(AggregateSum(incomes, Some(prevStart), prevEnd), AggregateSum(expenses, Some(prevStart), prevEnd)))
  {
  }

  /** `getAbsoluteNetIncomeList(pk, scale)` on the user's rows. */
  method AbsoluteNetIncomeList(incomes: seq<Entry>, expenses: seq<Entry>, scale: string, today: Date)
    returns (r: Result<Dict, ViewError>)
    requires Valid(today)
    ensures PlanFor(scale, today).None? ==> r == Err(UnknownScale)
    ensures PlanFor(scale, today).Some? ==>
              var p := PlanFor(scale, today).value;
              r == Ok(Reverse(Assigned(WindowLabels(scale, p, today), AbsoluteNets(incomes, expenses, p, today), p.count)))
  {
    var plan := PlanFor(scale, today);
    if plan.None? {
      return Err(UnknownScale);
    }
    var p := plan.value;
    var keys, nets := WindowLabels(scale, p, today), AbsoluteNets(incomes, expenses, p, today);
    var currStart, currEnd := p.start, today;
    var incomeSum := AggregateSum(incomes, Some(currStart), currEnd);
    var expenseSum := AggregateSum(expenses, Some(currStart), currEnd);
    var list: Dict := [(Label(scale, currEnd), CurrentNet(incomeSum, expenseSum))];
    assert list == Assigned(keys, nets, 0);
    var i := 0;
    while i < p.count
      invariant 0 <= i <= p.count
      invariant Valid(currStart) && currStart == Start(p, i)
      invariant list == Assigned(keys, nets, i)
    {
      var prevStart := Back(currStart, p.step);
      var prevEnd := DayBefore(currStart);
      incomeSum := AggregateSum(incomes, Some(prevStart), prevEnd);
      expenseSum := AggregateSum(expenses, Some(prevStart), prevEnd);
      var net := WindowNet(incomeSum, expenseSum);
      AbsoluteStep(incomes, expenses, scale, p, today, i);
      list := Put(list, Label(scale, prevEnd), net);
      currStart := prevStart;
      i := i + 1;
    }
    return Ok(Reverse(list));
  }

  /** The net income up to and including a day: every income minus every
      expense dated on or before it. */
  function NetUpTo(incomes: seq<Entry>, expenses: seq<Entry>, day: Date): int {
    NetIn(incomes, expenses, None, day)
  }

  /** `NetIncome.get` and the start of `getMoneyFlow` as written: the aggregate
      result dict is always truthy, so a missing sum reaches `+=`, `-=` or `-`
      as None and raises TypeError. */
  function NetIncomeAsWritten(incomes: seq<Entry>, expenses: seq<Entry>, day: Date): (r: Result<int, ViewError>)
    ensures r.Ok? ==> r.value == NetUpTo(incomes, expenses, day)
    ensures r.Err? <==> AggregateSum(incomes, None, day).None? || AggregateSum(expenses, None, day).None?
  {
    var income := AggregateSum(incomes, None, day);
    var expense := AggregateSum(expenses, None, day);
    if income.None? || expense.None? then Err(TypeError) else Ok(income.value - expense.value)
  }

  /** A user with an expense but no income yet gets an error instead of a
      negative net income. */
  lemma NetIncomeFailsWithoutIncomes(day: Date, amount: int)
    ensures NetIncomeAsWritten([], [Entry(day, amount)], day) == Err(TypeError)
    ensures NetUpTo([], [Entry(day, amount)], day) == -amount
  {
    assert [Entry(day, amount)][1..] == [];
  }

  /** The net income up to a day, missing sums read as 0: what the view
      evidently means and what the money flow below starts from. */
  function NetIncome(incomes: seq<Entry>, expenses: seq<Entry>, day: Date): (r: int)
    ensures r == (AggregateSum(incomes, None, day).GetOr(0) - AggregateSum(expenses, None, day).GetOr(0))
    ensures NetIncomeAsWritten(incomes, expenses, day).Ok? ==> NetIncomeAsWritten(incomes, expenses, day).value == r
  {
    NetUpTo(incomes, expenses, day)
  }

  /** Removing a window [s, e] from "everything up to e" leaves everything up
      to the day before s. */
  lemma {:induction false} SumUpToSplit(es: seq<Entry>, s: Date, e: Date)
    requires ValidEntries(es) && Valid(s) && Le(s, e)
    ensures SumIn(es, None, e) - SumIn(es, Some(s), e) == SumIn(es, None, DayBefore(s))
  {
    if |es| > 0 {
      assert ValidEntries(es[1..]) by {
        assert forall i :: 0 <= i < |es[1..]| ==> es[1..][i] == es[i + 1];
      }
      SumUpToSplit(es[1..], s, e);
      DayBeforeIsPredecessor(es[0].date, s);
      if Less(es[0].date, s) {
        LessTransitive(es[0].date, s, e);
      }
    }
  }

  /** The money-flow value for window k: the net so far, minus the nets of
      windows 0..k-1. */
  function Flow(incomes: seq<Entry>, expenses: seq<Entry>, p: Plan, today: Date, k: nat): int
    requires Valid(p.start) && Valid(today)
  {
    if k == 0 then NetIncome(incomes, expenses, today)
    else
      var lo, hi := Some(Start(p, k - 1)), End(p, today, k - 1);
      Flow(incomes, expenses, p, today, k - 1) - WindowNet(AggregateSum(incomes, lo, hi), AggregateSum(expenses, lo, hi))
  }

  /** Every money-flow value is the net income up to the day it is labelled
      with. */
  lemma {:induction false} FlowIsNetIncome(incomes: seq<Entry>, expenses: seq<Entry>, p: Plan, today: Date, k: nat)
    requires ValidEntries(incomes) && ValidEntries(expenses) && GoodPlan(p, today)
    ensures Flow(incomes, expenses, p, today, k) == NetIncome(incomes, expenses, End(p, today, k))
  {
    if k > 0 {
      FlowIsNetIncome(incomes, expenses, p, today, k - 1);
      FlowNext(incomes, expenses, p, today, k - 1);
    }
  }

  /** One window further back: if the running value of window i is the net
      income up to its end, so is that of window i + 1. */
  lemma FlowNext(incomes: seq<Entry>, expenses: seq<Entry>, p: Plan, today: Date, i: nat)
    requires ValidEntries(incomes) && ValidEntries(expenses) && GoodPlan(p, today)
    requires Flow(incomes, expenses, p, today, i) == NetIncome(incomes, expenses, End(p, today, i))
    ensures Flow(incomes, expenses, p, today, i + 1) == NetIncome(incomes, expenses, End(p, today, i + 1))
  {
    FlowStep(incomes, expenses, p, today, i);
    WindowsOrdered(p, today, i);
    WindowRemoval(incomes, expenses, Start(p, i), End(p, today, i));
  }

  /** The net income up to e, less the net of the window [s, e], is the net
      income up to the day before s. */
  lemma WindowRemoval(incomes: seq<Entry>, expenses: seq<Entry>, s: Date, e: Date)
    requires ValidEntries(incomes) && ValidEntries(expenses) && Valid(s) && Le(s, e)
    ensures NetIncome(incomes, expenses, e)
              - WindowNet(AggregateSum(incomes, Some(s), e), AggregateSum(expenses, Some(s), e))
            == NetIncome(incomes, expenses, DayBefore(s))
  {
    WindowNetIsNetIn(incomes, expenses, Some(s), e);
    SumUpToSplit(incomes, s, e);
    SumUpToSplit(expenses, s, e);
  }

  /** The money-flow values of the window ends. */
  function Flows(incomes: seq<Entry>, expenses: seq<Entry>, p: Plan, today: Date): nat -> int
    requires Valid(p.start) && Valid(today)
  {
    (k: nat) => Flow(incomes, expenses, p, today, k)
  }

  /** How one pass of the money-flow loop moves from window i to window i + 1:
      the next window ends the day before window i starts, and its value is
      the running value less window i's net. */
  lemma FlowStep(incomes: seq<Entry>, expenses: seq<Entry>, p: Plan, today: Date, i: nat)
    requires Valid(p.start) && Valid(today)
    ensures Start(p, i + 1) == Back(Start(p, i), p.step) && End(p, today, i + 1) == DayBefore(Start(p, i))
    ensures Flow(incomes, expenses, p, today, i + 1)
            == Flow(incomes, expenses, p, today, i)
               - WindowNet(AggregateSum(incomes, Some(Start(p, i)), End(p, today, i)),
                           AggregateSum(expenses, Some(Start(p, i)), End(p, today, i)))
  {
  }

  /** Recording window i + 1's value under its label extends the dict of the
      first i + 1 windows to the dict of the first i + 2. */
  lemma FlowRecorded(incomes: seq<Entry>, expenses: seq<Entry>, scale: string, p: Plan, today: Date, i: nat, flow: Dict)
    requires Valid(p.start) && Valid(today)
    requires flow == Assigned(WindowLabels(scale, p, today), Flows(incomes, expenses, p, today), i)
    ensures Put(flow, Label(scale, DayBefore(Start(p, i))), Flow(incomes, expenses, p, today, i + 1))
            == Assigned(WindowLabels(scale, p, today), Flows(incomes, expenses, p, today), i + 1)
  {
  }

  /** The state of the money-flow loop after i passes: the window bounds, the
      running value and the dict recorded so far. */
  predicate FlowState(incomes: seq<Entry>, expenses: seq<Entry>, scale: string, p: Plan, today: Date, i: nat,
                      currStart: Date, currEnd: Date, soFar: int, flow: Dict)
    requires Valid(p.start) && Valid(today)
  {
    currStart == Start(p, i) && currEnd == End(p, today, i) && soFar == Flow(incomes, expenses, p, today, i)
    && flow == Assigned(WindowLabels(scale, p, today), Flows(incomes, expenses, p, today), i)
  }

  /** One pass of the money-flow loop takes the state after i passes to the
      state after i + 1. */
  lemma FlowPass(incomes: seq<Entry>, expenses: seq<Entry>, scale: string, p: Plan, today: Date, i: nat,
                 currStart: Date, currEnd: Date, soFar: int, flow: Dict)
    requires Valid(p.start) && Valid(today)
    requires FlowState(incomes, expenses, scale, p, today, i, currStart, currEnd, soFar, flow)
    ensures var next := soFar - WindowNet(AggregateSum(incomes, Some(currStart), currEnd),
                                          AggregateSum(expenses, Some(currStart), currEnd));
            FlowState(incomes, expenses, scale, p, today, i + 1, Back(currStart, p.step), DayBefore(currStart),
                      next, Put(flow, Label(scale, DayBefore(currStart)), next))
  {
    FlowStep(incomes, expenses, p, today, i);
    FlowRecorded(incomes, expenses, scale, p, today, i, flow);
  }

  /** The loop of `getMoneyFlow`: from the net so far at today, each pass steps
      one window back, takes that window's net off the running value and
      records it under the label of the day before the window. */
  method FlowWindows(incomes: seq<Entry>, expenses: seq<Entry>, scale: string, p: Plan, today: Date, net: int)
    returns (flow: Dict)
    requires Valid(p.start) && Valid(today) && net == NetIncome(incomes, expenses, today)
    ensures flow == Assigned(WindowLabels(scale, p, today), Flows(incomes, expenses, p, today), p.count)
  {
    var soFar := net;
    flow := [(Label(scale, today), soFar)];
    var currStart, currEnd := p.start, today;
    for i := 0 to p.count
      invariant FlowState(incomes, expenses, scale, p, today, i, currStart, currEnd, soFar, flow)
    {
      var incomeSum := AggregateSum(incomes, Some(currStart), currEnd);
      var expenseSum := AggregateSum(expenses, Some(currStart), currEnd);
      FlowPass(incomes, expenses, scale, p, today, i, currStart, currEnd, soFar, flow);
      soFar := soFar - WindowNet(incomeSum, expenseSum);
      var prevEnd := DayBefore(currStart);
      flow := Put(flow, Label(scale, prevEnd), soFar);
      currStart := Back(currStart, p.step);
      currEnd := prevEnd;
    }
  }

  /** `getMoneyFlow(pk, scale)` corrected: it starts from the net income with
      missing sums read as 0 (see `MoneyFlowAsWritten` for the code as it
      stands). */
  method MoneyFlow(incomes: seq<Entry>, expenses: seq<Entry>, scale: string, today: Date)
    returns (r: Result<Dict, ViewError>)
    requires Valid(today)
    ensures PlanFor(scale, today).None? ==> r == Err(UnknownScale)
    ensures PlanFor(scale, today).Some? ==>
              var p := PlanFor(scale, today).value;
              r == Ok(Reverse(Assigned(WindowLabels(scale, p, today), Flows(incomes, expenses, p, today), p.count)))
  {
    var soFar := NetIncome(incomes, expenses, today);
    var plan := PlanFor(scale, today);
    if plan.None? {
      return Err(UnknownScale);
    }
    var flow := FlowWindows(incomes, expenses, scale, plan.value, today, soFar);
    return Ok(Reverse(flow));
  }

  /** `getMoneyFlow(pk, scale)` as written: the net so far is taken at the top,
      with no test and before the scale is looked at, so a missing income or
      expense sum up to today raises TypeError whatever the scale. Otherwise
      it is `MoneyFlow`. */
  method MoneyFlowAsWritten(incomes: seq<Entry>, expenses: seq<Entry>, scale: string, today: Date)
    returns (r: Result<Dict, ViewError>)
    requires Valid(today)
    ensures NetIncomeAsWritten(incomes, expenses, today).Err? ==> r == Err(TypeError)
    ensures NetIncomeAsWritten(incomes, expenses, today).Ok? && PlanFor(scale, today).None? ==> r == Err(UnknownScale)
    ensures NetIncomeAsWritten(incomes, expenses, today).Ok? && PlanFor(scale, today).Some? ==>
              var p := PlanFor(scale, today).value;
              r == Ok(Reverse(Assigned(WindowLabels(scale, p, today), Flows(incomes, expenses, p, today), p.count)))
  {
    var soFar := NetIncomeAsWritten(incomes, expenses, today);
    if soFar.Err? {
      return Err(TypeError);
    }
    var plan := PlanFor(scale, today);
    if plan.None? {
      return Err(UnknownScale);
    }
    var flow := FlowWindows(incomes, expenses, scale, plan.value, today, soFar.value);
    return Ok(Reverse(flow));
  }

  /** With distinct labels the money flow lists, oldest window end first and
      today last, each window end's label with the net income up to that day. */
  lemma MoneyFlowEntries(incomes: seq<Entry>, expenses: seq<Entry>, scale: string, p: Plan, today: Date, n: nat)
    requires ValidEntries(incomes) && ValidEntries(expenses) && GoodPlan(p, today)
    requires DistinctKeys(WindowLabels(scale, p, today), n)
    ensures var d := Reverse(Assigned(WindowLabels(scale, p, today), Flows(incomes, expenses, p, today), n));
            |d| == n + 1 && d[n] == (Label(scale, today), NetIncome(incomes, expenses, today)) &&
            forall k :: 0 <= k <= n ==>
              d[n - k] == (Label(scale, End(p, today, k)), NetIncome(incomes, expenses, End(p, today, k)))
  {
    AssignedDistinct(WindowLabels(scale, p, today), Flows(incomes, expenses, p, today), n);
    forall k | 0 <= k <= n
      ensures Flow(incomes, expenses, p, today, k) == NetIncome(incomes, expenses, End(p, today, k))
    {
      FlowIsNetIncome(incomes, expenses, p, today, k);
    }
  }

  /** With distinct labels the reversed net income list holds the windows
      oldest first, each under its end's label, and ends with today's label
      and the current window's net. */
  lemma AbsoluteListEntries(incomes: seq<Entry>, expenses: seq<Entry>, scale: string, p: Plan, today: Date, n: nat)
    requires Valid(p.start) && Valid(today) && DistinctKeys(WindowLabels(scale, p, today), n)
    ensures var d := Reverse(Assigned(WindowLabels(scale, p, today), AbsoluteNets(incomes, expenses, p, today), n));
            |d| == n + 1 &&
            d[n] == (Label(scale, today), AbsoluteNet(incomes, expenses, p, today, 0)) &&
            forall k :: 0 <= k <= n ==>
              d[n - k] == (Label(scale, End(p, today, k)), AbsoluteNet(incomes, expenses, p, today, k))
  {
    AssignedDistinct(WindowLabels(scale, p, today), AbsoluteNets(incomes, expenses, p, today), n);
  }

  /** `GraphDataDetail.get` corrected: the scale parameter with its default,
      then the corrected money flow and the net income list for it. */
  method GraphData(incomes: seq<Entry>, expenses: seq<Entry>, param: Option<string>, today: Date)
    returns (flow: Result<Dict, ViewError>, list: Result<Dict, ViewError>)
    requires Valid(today)
    ensures var scale := ScaleOrDefault(param);
            (flow.Ok? <==> scale in Scales) && (list.Ok? <==> scale in Scales)
    ensures var scale := ScaleOrDefault(param);
            scale !in Scales ==> flow == Err(UnknownScale) && list == Err(UnknownScale)
    ensures var scale := ScaleOrDefault(param);
            PlanFor(scale, today).Some? ==>
              var p := PlanFor(scale, today).value;
              flow == Ok(Reverse(Assigned(WindowLabels(scale, p, today), Flows(incomes, expenses, p, today), p.count))) &&
              list == Ok(Reverse(Assigned(WindowLabels(scale, p, today), AbsoluteNets(incomes, expenses, p, today), p.count)))
    ensures param.None? ==> flow.Ok? && list.Ok?
  {
    var scale := ScaleOrDefault(param);
    flow := MoneyFlow(incomes, expenses, scale, today);
    list := AbsoluteNetIncomeList(incomes, expenses, scale, today);
  }

  /** `GraphDataDetail.get` as written: the money flow runs first, and its
      TypeError for a user without income or without expense up to today ends
      the request for every scale, the default one included. */
  method GraphDataAsWritten(incomes: seq<Entry>, expenses: seq<Entry>, param: Option<string>, today: Date)
    returns (r: Result<(Dict, Dict), ViewError>)
    requires Valid(today)
    ensures NetIncomeAsWritten(incomes, expenses, today).Err? ==> r == Err(TypeError)
    ensures NetIncomeAsWritten(incomes, expenses, today).Ok? ==>
              (r.Ok? <==> ScaleOrDefault(param) in Scales) &&
              (ScaleOrDefault(param) !in Scales ==> r == Err(UnknownScale))
    ensures var scale := ScaleOrDefault(param);
            NetIncomeAsWritten(incomes, expenses, today).Ok? && PlanFor(scale, today).Some? ==>
              var p := PlanFor(scale, today).value;
              r == Ok((Reverse(Assigned(WindowLabels(scale, p, today), Flows(incomes, expenses, p, today), p.count)),
                       Reverse(Assigned(WindowLabels(scale, p, today), AbsoluteNets(incomes, expenses, p, today), p.count))))
    ensures param.None? ==> (r.Ok? <==> NetIncomeAsWritten(incomes, expenses, today).Ok?)
  {
    var scale := ScaleOrDefault(param);
    var flow := MoneyFlowAsWritten(incomes, expenses, scale, today);
    if flow.Err? {
      return Err(flow.error);
    }
    var list := AbsoluteNetIncomeList(incomes, expenses, scale, today);
    return Ok((flow.value, list.value));
  }
}
