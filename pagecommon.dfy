/**
 * What the income and expense pages share: month paging, the requests a
 * handler issues, the error shown in the pop-up, and the look-up of the item
 * to edit.
 */
module PageCommon {
  import opened Wrappers
  import opened Json

  /** The user every request is made for, until real users are wired in. */
  const TmpUserId: int := 2

  /** The HTTP call a handler starts; the response comes back later through a
      response handler of the page. */
  datatype Request =
    | NoRequest
    | Retrieve(userId: int, year: int, month: int, filter: Option<string>)
    | Create(userId: int, body: JsonObject)
    | Update(id: int, body: JsonObject)
    | Delete(id: int)

  /** The page's `error` state: an object with a code and a message built by the page, or
      an exception object (a rejected request, or one thrown in a response handler). */
  datatype PageError = Coded(code: string, message: string) | Thrown

  const UnknownError: string := "Unknown Error"

  /** The left arrow: month 1 goes to month 12 of the previous year. */
  function PrevMonth(year: int, month: int): (r: (int, int))
    ensures month == 1 ==> r == (year - 1, 12)
    ensures month != 1 ==> r == (year, month - 1)
  {
    if month - 1 == 0 then (year - 1, 12) else (year, month - 1)
  }

  /** The right arrow: month 12 goes to month 1 of the next year. */
  function NextMonth(year: int, month: int): (r: (int, int))
    ensures month == 12 ==> r == (year + 1, 1)
    ensures month != 12 ==> r == (year, month + 1)
  {
    if month + 1 == 13 then (year + 1, 1) else (year, month + 1)
  }

  /** Both arrows keep the month in 1..12. */
  lemma PagingKeepsMonthInRange(year: int, month: int)
    requires 1 <= month <= 12
    ensures 1 <= PrevMonth(year, month).1 <= 12 && 1 <= NextMonth(year, month).1 <= 12
  {
  }

  /** Each arrow undoes the other. */
  lemma ArrowsAreInverse(year: int, month: int)
    requires 1 <= month <= 12
    ensures NextMonth(PrevMonth(year, month).0, PrevMonth(year, month).1) == (year, month)
    ensures PrevMonth(NextMonth(year, month).0, NextMonth(year, month).1) == (year, month)
  {
  }

  /** A month's position on a single time line. */
  function MonthIndex(year: int, month: int): int {
    year * 12 + (month - 1)
  }

  /** The right arrow moves one month forward on the time line, the left one back. */
  lemma ArrowsStepOneMonth(year: int, month: int)
    requires 1 <= month <= 12
    ensures MonthIndex(NextMonth(year, month).0, NextMonth(year, month).1) == MonthIndex(year, month) + 1
    ensures MonthIndex(PrevMonth(year, month).0, PrevMonth(year, month).1) == MonthIndex(year, month) - 1
  {
  }

  /** `activeItem.id ? activeItem.id : -1`: null and 0 are falsy. */
  function ModifyTargetId(id: Option<int>): (r: int)
    ensures id.Some? && id.value != 0 ==> r == id.value
    ensures id == None || id == Some(0) ==> r == -1
  {
    if id.Some? && id.value != 0 then id.value else -1
  }

  /** `list.find(item => item.id === id)`, as a position: the first element with that id. */
  function FindById<T>(xs: seq<T>, idOf: T -> Option<int>, id: int): (r: Option<nat>)
    ensures r.Some? ==> r.value < |xs| && idOf(xs[r.value]) == Some(id)
    ensures r.Some? ==> forall j :: 0 <= j < r.value ==> idOf(xs[j]) != Some(id)
    ensures r.None? ==> forall j :: 0 <= j < |xs| ==> idOf(xs[j]) != Some(id)
  {
    if |xs| == 0 then None
    else if idOf(xs[0]) == Some(id) then Some(0)
    else
      match FindById(xs[1..], idOf, id)
      case None =>
        assert forall j :: 1 <= j < |xs| ==> xs[j] == xs[1..][j - 1];
        None
      case Some(k) =>
        assert forall j :: 1 <= j < k + 1 ==> xs[j] == xs[1..][j - 1];
        Some(k + 1)
  }
}
