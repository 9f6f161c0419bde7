/**
 * The ledger list shared by the income and expense pages: each row shows
 * the item and the running "remaining" total, the sum of its own amount and
 * of every amount below it.
 */
module ItemList {
  import opened Wrappers
  import opened JsText
  import opened Models
  import opened TagTable
  import IncomeCategories
  import ExpenseCategories

  /** `getTag`: the income table first; the expense table only when the income lookup is
      null. An `undefined` from the income table is not null and is returned as is. */
  function GetTag(tag: string): (r: TagLookup)
    ensures IncomeCategories.GetIncomeTag(tag).Null? ==> r == ExpenseCategories.GetExpenseTag(tag)
    ensures !IncomeCategories.GetIncomeTag(tag).Null? ==> r == IncomeCategories.GetIncomeTag(tag)
  {
    var res := IncomeCategories.GetIncomeTag(tag);
    if !res.Null? then res else ExpenseCategories.GetExpenseTag(tag)
  }

  /** A tag is null exactly when its upper-case form is a key of neither table. */
  lemma GetTagNull(tag: string)
    ensures GetTag(tag).Null? <==>
              ToUpper(tag) !in IncomeCategories.IncomeKeyOrder && ToUpper(tag) !in ExpenseCategories.ExpenseKeyOrder
  {
  }

  /** The two keys both tables have resolve to the income tag. */
  lemma SharedKeysResolveToIncome()
    ensures GetTag("INVESTMENT") == Found(IncomeCategories.IncomeTags[4].1)
    ensures GetTag("OTHER") == Found(IncomeCategories.IncomeTags[7].1)
  {
    IncomeCategories.IncomeTableShape();
    UpperKeyFound(IncomeCategories.IncomeTags, 4);
    UpperKeyFound(IncomeCategories.IncomeTags, 7);
    assert IncomeCategories.GetIncomeTag("INVESTMENT") == LookupTag(IncomeCategories.IncomeTags, "INVESTMENT");
    assert IncomeCategories.GetIncomeTag("OTHER") == LookupTag(IncomeCategories.IncomeTags, "OTHER");
  }

  /** An expense-only key falls through to the expense table. */
  lemma ExpenseKeyFallsThrough()
    ensures GetTag("FOOD") == Found(ExpenseCategories.ExpenseTags[3].1)
  {
    IncomeCategories.UnknownTagIsNull();
    ExpenseCategories.FoodFound();
  }

  function Amounts(items: seq<Item>): (xs: seq<JsNum>)
    ensures |xs| == |items| && forall i :: 0 <= i < |items| ==> xs[i] == items[i].amount
  {
    seq(|items|, i requires 0 <= i < |items| => items[i].amount)
  }

  /** The sum of the amounts, added from the first to the last as `forEach` does. */
  function Sum(xs: seq<JsNum>): JsNum {
    if |xs| == 0 then Num(0) else Add(Sum(xs[..|xs| - 1]), xs[|xs| - 1])
  }

  predicate AllFinite(xs: seq<JsNum>) {
    forall i :: 0 <= i < |xs| ==> xs[i].Num?
  }

  lemma FiniteSuffix(xs: seq<JsNum>, k: nat)
    requires k <= |xs| && AllFinite(xs)
    ensures AllFinite(xs[k..])
  {
  }

  /** The sum is NaN exactly when some amount is. */
  lemma {:induction false} SumFinite(xs: seq<JsNum>)
    ensures Sum(xs).Num? <==> AllFinite(xs)
  {
    if |xs| > 0 {
      var front := xs[..|xs| - 1];
      SumFinite(front);
      assert forall i :: 0 <= i < |front| ==> front[i] == xs[i];
    }
  }

  /** The sum taken from the front: the first amount plus the sum of the rest. */
  lemma {:induction false} SumFront(xs: seq<JsNum>)
    requires |xs| > 0
    ensures Sum(xs) == Add(xs[0], Sum(xs[1..]))
  {
    if |xs| > 1 {
      var front := xs[..|xs| - 1];
      SumFront(front);
      assert front[1..] == xs[1..][..|xs[1..]| - 1];
      assert front[0] == xs[0];
    } else {
      assert xs[..0] == [];
      assert xs[1..] == [];
    }
  }

  /** Suffix sums: the first is the total, the last is the last amount, and each is its
      own amount plus the next. */
  lemma SuffixFirst(xs: seq<JsNum>)
    ensures Sum(xs[0..]) == Sum(xs)
  {
    assert xs[0..] == xs;
  }

  lemma SuffixLast(xs: seq<JsNum>)
    requires |xs| > 0 && xs[|xs| - 1].Num?
    ensures Sum(xs[|xs| - 1..]) == xs[|xs| - 1]
  {
    var t := xs[|xs| - 1..];
    assert t[..0] == [];
  }

  lemma SuffixStep(xs: seq<JsNum>, i: nat)
    requires i < |xs|
    ensures Sum(xs[i..]) == Add(xs[i], Sum(xs[i + 1..]))
  {
    SumFront(xs[i..]);
    assert xs[i..][1..] == xs[i + 1..];
  }

  /** What row k shows: the suffix sum from k when every amount is a number, otherwise NaN. */
  function Remaining(xs: seq<JsNum>, k: nat): JsNum
    requires k <= |xs|
  {
    if AllFinite(xs) then Sum(xs[k..]) else NaN
  }

  /** Subtracting row k's amount from what row k shows gives what row k + 1 shows. */
  lemma RemainingStep(xs: seq<JsNum>, k: nat)
    requires k < |xs|
    ensures Sub(Remaining(xs, k), xs[k]) == Remaining(xs, k + 1)
  {
    if AllFinite(xs) {
      SuffixStep(xs, k);
      FiniteSuffix(xs, k + 1);
      SumFinite(xs[k + 1..]);
    }
  }

  /** The first row shows the total of all amounts. */
  lemma FirstRowShowsTotal(xs: seq<JsNum>)
    ensures Remaining(xs, 0) == Sum(xs)
  {
    SuffixFirst(xs);
    SumFinite(xs);
  }

  /** The last row shows its own amount. */
  lemma LastRowShowsOwnAmount(xs: seq<JsNum>)
    requires |xs| > 0 && AllFinite(xs)
    ensures Remaining(xs, |xs| - 1) == xs[|xs| - 1]
  {
    SuffixLast(xs);
  }

  /** Consecutive rows differ by the earlier row's amount. */
  lemma ConsecutiveRowsDiffer(xs: seq<JsNum>, k: nat)
    requires k + 1 < |xs| && AllFinite(xs)
    ensures Remaining(xs, k).Num? && Remaining(xs, k + 1).Num?
    ensures Remaining(xs, k).v - Remaining(xs, k + 1).v == xs[k].v
  {
    RemainingStep(xs, k);
    SumFinite(xs);
    SumFinite(xs[k..]);
    FiniteSuffix(xs, k);
  }

  /** The `forEach` that accumulates the total. */
  method TotalAmount(items: seq<Item>) returns (total: JsNum)
    ensures total == Sum(Amounts(items))
  {
    ghost var xs := Amounts(items);
    total := Num(0);
    var k := 0;
    while k < |items|
      invariant 0 <= k <= |items|
      invariant total == Sum(xs[..k])
    {
      assert xs[..k + 1][..k] == xs[..k];
      total := Add(total, items[k].amount);
      k := k + 1;
    }
    assert xs[..|items|] == xs;
  }

  /** One rendered row: the item, the "remaining" total it is handed and whether its
      buttons are shown. What else it displays is computed from the item: see
      `RowBrief` and `RowTag`. */
  datatype Row = Row(item: Item, remaining: JsNum, expanded: bool)

  /** The date brief a row shows. */
  function RowBrief(r: Row): string {
    GetBrief(r.item.date)
  }

  /** The tag a row shows. */
  function RowTag(r: Row): TagLookup {
    GetTag(r.item.tag)
  }

  /** The row component for an item, given the total it is handed and the clicked id,
      once its effect has run: its buttons show exactly when its id is the clicked
      one. The collapse button, which hides them until the next effect, is
      `Cell.Collapse`. */
  function ItemRow(item: Item, remaining: JsNum, clicked: Option<int>): (r: Row)
    ensures r.item == item && r.remaining == remaining && (r.expanded <==> item.id == clicked)
  {
    Row(item, remaining, item.id == clicked)
  }

  /** The local state of one `Item` row component: `clicked` shows its buttons, and
      `t` is raised by a click on the row so that the effect runs again even when the
      list's clicked id stays the same. */
  class Cell {
    const item: Item
    var clicked: bool
    var t: bool

    /** The row as it is drawn, handed `remaining`. */
    function View(remaining: JsNum): Row
      reads this
    {
      Row(item, remaining, clicked)
    }

    /** Both states start false. */
    constructor(item: Item)
      ensures this.item == item && !clicked && !t
    {
      this.item := item;
      clicked := false;
      t := false;
    }

    /** The effect on `[clickedID, t]`: the buttons show exactly when the row's id is
        the clicked one, so the row is drawn as `ItemRow` says, and `t` is lowered. */
    method Effect(clickedID: Option<int>)
      modifies this
      ensures clicked <==> item.id == clickedID
      ensures forall remaining :: View(remaining) == ItemRow(item, remaining, clickedID)
      ensures !t
    {
      clicked := item.id == clickedID;
      t := false;
    }

    /** A click on the row: `t` is raised and the row's id is handed to the list,
        which stores it as the clicked id. */
    method RowClick() returns (reported: Option<int>)
      modifies this
      ensures reported == item.id && t && clicked == old(clicked)
    {
      t := true;
      reported := item.id;
    }

    /** The row's own collapse button: the buttons are hidden, whatever the clicked id. */
    method Collapse()
      modifies this
      ensures !clicked && t == old(t)
    {
      clicked := false;
    }
  }

  /** The collapse button hides a row's buttons while the list's clicked id still
      names the row, so the row is then not drawn as `ItemRow` says; clicking the row
      again raises `t`, the effect reruns on the same id and the buttons come back. */
  method CollapseThenClick(cell: Cell, clickedID: Option<int>, remaining: JsNum)
    returns (collapsed: Row, reopened: Row)
    requires cell.item.id == clickedID
    modifies cell
    ensures !collapsed.expanded && ItemRow(cell.item, remaining, clickedID).expanded
    ensures reopened == ItemRow(cell.item, remaining, clickedID) && reopened.expanded
  {
    cell.Effect(clickedID);
    cell.Collapse();
    collapsed := cell.View(remaining);
    var reported := cell.RowClick();
    cell.Effect(reported);
    reopened := cell.View(remaining);
  }

  /** Row i of the list as the component shows it. */
  function RowAt(items: seq<Item>, clicked: Option<int>, i: nat): Row
    requires i < |items|
  {
    ItemRow(items[i], Remaining(Amounts(items), i), clicked)
  }

  datatype ListView = NoItems | Rows(rows: seq<Row>)

  /** The first k rows are the ones the component shows. */
  predicate RowsShown(items: seq<Item>, clicked: Option<int>, rows: seq<Row>, k: nat) {
    k <= |items| && |rows| == k && forall i :: 0 <= i < k ==> rows[i] == RowAt(items, clicked, i)
  }

  /** One step of the `map`: the row handed the running total is the next row shown,
      and subtracting its amount gives the total the row after it is handed. */
  lemma RowStep(items: seq<Item>, clicked: Option<int>, rows: seq<Row>, k: nat, total: JsNum)
    requires k < |items| && RowsShown(items, clicked, rows, k) && total == Remaining(Amounts(items), k)
    ensures RowsShown(items, clicked, rows + [ItemRow(items[k], total, clicked)], k + 1)
    ensures Sub(total, items[k].amount) == Remaining(Amounts(items), k + 1)
  {
    RemainingStep(Amounts(items), k);
  }

  /** The `map` over the items: each row is handed the running total, from which
      its own amount is then subtracted. */
  method RenderRows(items: seq<Item>, clicked: Option<int>, total: JsNum) returns (rows: seq<Row>)
    requires total == Remaining(Amounts(items), 0)
    ensures RowsShown(items, clicked, rows, |items|)
  {
    var totalAmount := total;
    rows := [];
    var k := 0;
    while k < |items|
      invariant 0 <= k <= |items|
      invariant RowsShown(items, clicked, rows, k)
      invariant totalAmount == Remaining(Amounts(items), k)
    {
      RowStep(items, clicked, rows, k, totalAmount);
      rows := rows + [ItemRow(items[k], totalAmount, clicked)];
      totalAmount := Sub(totalAmount, items[k].amount);
      k := k + 1;
    }
  }

  /** `ItemList` with `clicked` the id of the last clicked row (null at first): the total
      is accumulated over all items, then each row shows it before its own amount is
      subtracted. With every amount a number, row i shows the sum of amounts i to the
      end; one NaN amount makes every row NaN. */
  method RenderItemList(items: seq<Item>, clicked: Option<int>) returns (view: ListView)
    ensures view.NoItems? <==> |items| == 0
    ensures view.Rows? ==> |view.rows| == |items|
    ensures view.Rows? ==> forall i :: 0 <= i < |items| ==>
              view.rows[i] == RowAt(items, clicked, i)
  {
    var totalAmount := TotalAmount(items);
    if |items| == 0 {
      return NoItems;
    }
    FirstRowShowsTotal(Amounts(items));
    var rows := RenderRows(items, clicked, totalAmount);
    view := Rows(rows);
  }
}
