/**
 * The expense page: the month and category being shown, the loaded list,
 * and the form state for the expense being added or edited. Each handler is
 * one state transition; a handler that talks to the backend returns the
 * request it starts, and the answer arrives through a response handler.
 */
module ExpensePage {
  import opened Wrappers
  import opened JsText
  import opened Json
  import opened Models
  import opened Serializers
  import opened Deserializers
  import opened PageCommon

  function ExpenseId(e: Expense): Option<int> { e.item.id }

  class Page {
    var year: int
    var month: int
    var category: Option<string>
    var loaded: bool
    var error: Option<PageError>
    var expenseList: seq<Expense>
    var mode: string
    var active: bool
    var activeExpense: Expense

    /** The month shown is a calendar month. */
    predicate Valid()
      reads this
    {
      1 <= month <= 12
    }

    /** The initial state; `today` is the clock's date, whose month is in 1..12. */
    constructor(today: DateField)
      requires today.year.Num? && today.month.Num? && 1 <= today.month.v <= 12
      ensures Valid()
      ensures year == today.year.v && month == today.month.v && category == None
      ensures !loaded && error == None && expenseList == [] && mode == "none" && !active
      ensures activeExpense == DefaultExpense(today)
    {
      year := today.year.v;
      month := today.month.v;
      category := None;
      loaded := false;
      error := None;
      expenseList := [];
      mode := "none";
      active := false;
      activeExpense := DefaultExpense(today);
    }

    /** The effect after each render: fetch the month's list while it is not loaded. */
    function FetchRequest(): (r: Request)
      reads this
      ensures r.NoRequest? <==> loaded
      ensures r.Retrieve? ==> r == Retrieve(TmpUserId, year, month, category)
    {
      if !loaded then Retrieve(TmpUserId, year, month, category) else NoRequest
    }

    /** The answer to the list request: status 200 with a body replaces the list and marks
        it loaded; a list that fails to deserialize throws; anything else reports a failure. */
    method OnFetchResponse(status: int, body: Option<seq<JsonObject>>)
      modifies this
      ensures status == 200 && body.Some? && ExpenseListData(body.value).Ok? ==>
                expenseList == ExpenseListData(body.value).value && loaded && error == old(error)
      ensures status == 200 && body.Some? && ExpenseListData(body.value).Err? ==>
                error == Some(Thrown) && expenseList == old(expenseList) && loaded == old(loaded)
      ensures !(status == 200 && body.Some?) ==>
                error == Some(Coded(UnknownError, "Unable to fetch data.")) &&
                expenseList == old(expenseList) && loaded == old(loaded)
      ensures year == old(year) && month == old(month) && category == old(category)
      ensures mode == old(mode) && active == old(active) && activeExpense == old(activeExpense)
    {
      if status == 200 && body.Some? {
        var r := ExpenseListData(body.value);
        if r.Ok? {
          expenseList := r.value;
          loaded := true;
        } else {
          error := Some(Thrown);
        }
      } else {
        error := Some(Coded(UnknownError, "Unable to fetch data."));
      }
    }

    /** A rejected request shows the exception. */
    method OnRejected()
      modifies this
      ensures error == Some(Thrown)
      ensures year == old(year) && month == old(month) && category == old(category) && loaded == old(loaded)
      ensures expenseList == old(expenseList) && mode == old(mode) && active == old(active)
      ensures activeExpense == old(activeExpense)
    {
      error := Some(Thrown);
    }

    /** Closing the pop-up clears the error. */
    method CloseError()
      modifies this
      ensures error == None
      ensures year == old(year) && month == old(month) && category == old(category) && loaded == old(loaded)
      ensures expenseList == old(expenseList) && mode == old(mode) && active == old(active)
      ensures activeExpense == old(activeExpense)
    {
      error := None;
    }

    /** `handleAddExpense`: stamps the user id on the active expense, then posts it serialized. */
    method AddExpense() returns (req: Request)
      modifies this
      ensures activeExpense == old(activeExpense).(item := old(activeExpense).item.(userId := TmpUserId))
      ensures req == Create(TmpUserId, SerializeExpense(activeExpense))
      ensures req.body["user"] == JNum(Num(TmpUserId))
      ensures year == old(year) && month == old(month) && category == old(category) && loaded == old(loaded)
      ensures error == old(error) && expenseList == old(expenseList) && mode == old(mode) && active == old(active)
    {
      activeExpense := activeExpense.(item := activeExpense.item.(userId := TmpUserId));
      req := Create(TmpUserId, SerializeExpense(activeExpense));
    }

    /** `handleModifyExpense`: puts the active expense under its id, or under -1 when it has none. */
    method ModifyExpense() returns (req: Request)
      ensures req == Update(ModifyTargetId(activeExpense.item.id), SerializeExpense(activeExpense))
    {
      req := Update(ModifyTargetId(activeExpense.item.id), SerializeExpense(activeExpense));
    }

    /** A successful add, modify or delete reloads the list and closes the form. */
    method Reset(today: DateField)
      modifies this
      ensures !loaded && !active && activeExpense == DefaultExpense(today)
      ensures year == old(year) && month == old(month) && category == old(category)
      ensures error == old(error) && expenseList == old(expenseList) && mode == old(mode)
    {
      loaded := false;
      active := false;
      activeExpense := DefaultExpense(today);
    }

    /** The answer to a create, update or delete: `expected` is the success status (201, 200
        or 204) and `message` the failure text of that request. */
    method OnChangeResponse(status: int, expected: int, message: string, today: DateField)
      modifies this
      ensures status == expected ==> !loaded && !active && activeExpense == DefaultExpense(today) && error == old(error)
      ensures status != expected ==>
                error == Some(Coded(UnknownError, message)) &&
                loaded == old(loaded) && active == old(active) && activeExpense == old(activeExpense)
      ensures year == old(year) && month == old(month) && category == old(category)
      ensures expenseList == old(expenseList) && mode == old(mode)
    {
      if status == expected {
        Reset(today);
      } else {
        error := Some(Coded(UnknownError, message));
      }
    }

    method OnAddResponse(status: int, today: DateField)
      modifies this
      ensures status == 201 ==> !loaded && !active && activeExpense == DefaultExpense(today) && error == old(error)
      ensures status != 201 ==>
                error == Some(Coded(UnknownError, "Unable to add data.")) &&
                loaded == old(loaded) && active == old(active) && activeExpense == old(activeExpense)
      ensures year == old(year) && month == old(month) && category == old(category)
      ensures expenseList == old(expenseList) && mode == old(mode)
    {
      OnChangeResponse(status, 201, "Unable to add data.", today);
    }

    method OnModifyResponse(status: int, today: DateField)
      modifies this
      ensures status == 200 ==> !loaded && !active && activeExpense == DefaultExpense(today) && error == old(error)
      ensures status != 200 ==>
                error == Some(Coded(UnknownError, "Unable to modify data.")) &&
                loaded == old(loaded) && active == old(active) && activeExpense == old(activeExpense)
      ensures year == old(year) && month == old(month) && category == old(category)
      ensures expenseList == old(expenseList) && mode == old(mode)
    {
      OnChangeResponse(status, 200, "Unable to modify data.", today);
    }

    method OnDeleteResponse(status: int, today: DateField)
      modifies this
      ensures status == 204 ==> !loaded && !active && activeExpense == DefaultExpense(today) && error == old(error)
      ensures status != 204 ==>
                error == Some(Coded(UnknownError, "Unable to delete data.")) &&
                loaded == old(loaded) && active == old(active) && activeExpense == old(activeExpense)
      ensures year == old(year) && month == old(month) && category == old(category)
      ensures expenseList == old(expenseList) && mode == old(mode)
    {
      OnChangeResponse(status, 204, "Unable to delete data.", today);
    }

    /** `handleFormSubmit`: adds in mode "add", modifies in mode "edit", and does nothing
        in any other mode. */
    method FormSubmit() returns (req: Request)
      modifies this
      ensures old(mode) == "add" ==>
                activeExpense == old(activeExpense).(item := old(activeExpense).item.(userId := TmpUserId)) &&
                req == Create(TmpUserId, SerializeExpense(activeExpense))
      ensures old(mode) == "edit" ==>
                activeExpense == old(activeExpense) &&
                req == Update(ModifyTargetId(activeExpense.item.id), SerializeExpense(activeExpense))
      ensures old(mode) != "add" && old(mode) != "edit" ==> req == NoRequest && activeExpense == old(activeExpense)
      ensures year == old(year) && month == old(month) && category == old(category) && loaded == old(loaded)
      ensures error == old(error) && expenseList == old(expenseList) && mode == old(mode) && active == old(active)
    {
      if mode == "add" {
        req := AddExpense();
      } else if mode == "edit" {
        req := ModifyExpense();
      } else {
        req := NoRequest;
      }
    }

    /** `handleFormCancel`: closes the form and resets the active expense. */
    method FormCancel(today: DateField)
      modifies this
      ensures !active && activeExpense == DefaultExpense(today)
      ensures year == old(year) && month == old(month) && category == old(category) && loaded == old(loaded)
      ensures error == old(error) && expenseList == old(expenseList) && mode == old(mode)
    {
      active := false;
      activeExpense := DefaultExpense(today);
    }

    /** `handleEditClick`: opens the form in edit mode on the first listed expense with
        that id, keeping the active expense when none has it. */
    method EditClick(id: int)
      modifies this
      ensures active && mode == "edit"
      ensures FindById(expenseList, ExpenseId, id).Some? ==>
                activeExpense == expenseList[FindById(expenseList, ExpenseId, id).value] &&
                activeExpense.item.id == Some(id)
      ensures FindById(expenseList, ExpenseId, id).None? ==> activeExpense == old(activeExpense)
      ensures year == old(year) && month == old(month) && category == old(category) && loaded == old(loaded)
      ensures error == old(error) && expenseList == old(expenseList)
    {
      active := true;
      mode := "edit";
      var found := FindById(expenseList, ExpenseId, id);
      if found.Some? {
        activeExpense := expenseList[found.value];
      }
    }

    /** The add button opens the form in add mode. */
    method AddClick()
      modifies this
      ensures active && mode == "add"
      ensures year == old(year) && month == old(month) && category == old(category) && loaded == old(loaded)
      ensures error == old(error) && expenseList == old(expenseList) && activeExpense == old(activeExpense)
    {
      active := true;
      mode := "add";
    }

    /** `handleDeleteClick`: requests the deletion and closes the form. */
    method DeleteClick(id: int) returns (req: Request)
      modifies this
      ensures req == Delete(id) && !active
      ensures year == old(year) && month == old(month) && category == old(category) && loaded == old(loaded)
      ensures error == old(error) && expenseList == old(expenseList) && mode == old(mode)
      ensures activeExpense == old(activeExpense)
    {
      req := Delete(id);
      active := false;
    }

    /** `handleTagClick`: filters by the category (None shows all) and reloads. */
    method TagClick(c: Option<string>)
      modifies this
      ensures category == c && !loaded
      ensures year == old(year) && month == old(month) && error == old(error)
      ensures expenseList == old(expenseList) && mode == old(mode) && active == old(active)
      ensures activeExpense == old(activeExpense)
    {
      category := c;
      loaded := false;
    }

    /** `handleMonthLeftClick`. */
    method MonthLeftClick()
      requires Valid()
      modifies this
      ensures Valid()
      ensures (year, month) == PrevMonth(old(year), old(month)) && !loaded
      ensures category == old(category) && error == old(error) && expenseList == old(expenseList)
      ensures mode == old(mode) && active == old(active) && activeExpense == old(activeExpense)
    {
      if month - 1 == 0 {
        month := 12;
        year := year - 1;
      } else {
        month := month - 1;
      }
      loaded := false;
    }

    /** `handleMonthRightClick`. */
    method MonthRightClick()
      requires Valid()
      modifies this
      ensures Valid()
      ensures (year, month) == NextMonth(old(year), old(month)) && !loaded
      ensures category == old(category) && error == old(error) && expenseList == old(expenseList)
      ensures mode == old(mode) && active == old(active) && activeExpense == old(activeExpense)
    {
      if month + 1 == 13 {
        month := 1;
        year := year + 1;
      } else {
        month := month + 1;
      }
      loaded := false;
    }
  }

  /** Paging right then left shows the same month again, and asks for it again. */
  method RightThenLeft(p: Page)
    requires p.Valid()
    modifies p
    ensures p.Valid() && p.year == old(p.year) && p.month == old(p.month) && !p.loaded
    ensures p.FetchRequest() == Retrieve(TmpUserId, old(p.year), old(p.month), old(p.category))
  {
    p.MonthRightClick();
    p.MonthLeftClick();
  }
}
