/**
 * The income page: the month and source being shown, the loaded list,
 * and the form state for the income being added or edited. Each handler is
 * one state transition; a handler that talks to the backend returns the
 * request it starts, and the answer arrives through a response handler.
 */
module IncomePage {
  import opened Wrappers
  import opened JsText
  import opened Json
  import opened Models
  import opened Serializers
  import opened Deserializers
  import opened PageCommon

  function IncomeId(e: Income): Option<int> { e.item.id }

  class Page {
    var year: int
    var month: int
    var source: Option<string>
    var loaded: bool
    var error: Option<PageError>
    var incomeList: seq<Income>
    var mode: string
    var active: bool
    var activeIncome: Income

    /** The month shown is a calendar month. */
    predicate Valid()
      reads this
    {
      1 <= month <= 12
    }

    /** The initial state; `today` is the clock's date, whose month is in 1..12. */
    constructor(today: DateField)
      requires today.year.Num? && today.month.Num? && 1 <= today.month.v <= 12
      ensures Valid()
      ensures year == today.year.v && month == today.month.v && source == None
      ensures !loaded && error == None && incomeList == [] && mode == "none" && !active
      ensures activeIncome == DefaultIncome(today)
    {
      year := today.year.v;
      month := today.month.v;
      source := None;
      loaded := false;
      error := None;
      incomeList := [];
      mode := "none";
      active := false;
      activeIncome := DefaultIncome(today);
    }

    /** The effect after each render: fetch the month's list while it is not loaded. */
    function FetchRequest(): (r: Request)
      reads this
      ensures r.NoRequest? <==> loaded
      ensures r.Retrieve? ==> r == Retrieve(TmpUserId, year, month, source)
    {
      if !loaded then Retrieve(TmpUserId, year, month, source) else NoRequest
    }

    /** The answer to the list request: status 200 replaces the list and marks it loaded;
        a missing body or a list that fails to deserialize throws; any other status reports
        a failure. Unlike the expense page, the body is not tested before it is used. */
    method OnFetchResponse(status: int, body: Option<seq<JsonObject>>)
      modifies this
      ensures status == 200 && body.Some? && IncomeListData(body.value).Ok? ==>
                incomeList == IncomeListData(body.value).value && loaded && error == old(error)
      ensures status == 200 && (body.None? || IncomeListData(body.value).Err?) ==>
                error == Some(Thrown) && incomeList == old(incomeList) && loaded == old(loaded)
      ensures status != 200 ==>
                error == Some(Coded(UnknownError, "Unable to fetch data.")) &&
                incomeList == old(incomeList) && loaded == old(loaded)
      ensures year == old(year) && month == old(month) && source == old(source)
      ensures mode == old(mode) && active == old(active) && activeIncome == old(activeIncome)
    {
      if status == 200 {
        if body.None? {
          error := Some(Thrown);
        } else {
          var r := IncomeListData(body.value);
          if r.Ok? {
            incomeList := r.value;
            loaded := true;
          } else {
            error := Some(Thrown);
          }
        }
      } else {
        error := Some(Coded(UnknownError, "Unable to fetch data."));
      }
    }

    /** A rejected request shows the exception. */
    method OnRejected()
      modifies this
      ensures error == Some(Thrown)
      ensures year == old(year) && month == old(month) && source == old(source) && loaded == old(loaded)
      ensures incomeList == old(incomeList) && mode == old(mode) && active == old(active)
      ensures activeIncome == old(activeIncome)
    {
      error := Some(Thrown);
    }

    /** Closing the pop-up clears the error. */
    method CloseError()
      modifies this
      ensures error == None
      ensures year == old(year) && month == old(month) && source == old(source) && loaded == old(loaded)
      ensures incomeList == old(incomeList) && mode == old(mode) && active == old(active)
      ensures activeIncome == old(activeIncome)
    {
      error := None;
    }

    /** `handleAddIncome`: stamps the user id on the active income, then posts it serialized. */
    method AddIncome() returns (req: Request)
      modifies this
      ensures activeIncome == old(activeIncome).(item := old(activeIncome).item.(userId := TmpUserId))
      ensures req == Create(TmpUserId, SerializeIncome(activeIncome))
      ensures req.body["user"] == JNum(Num(TmpUserId))
      ensures year == old(year) && month == old(month) && source == old(source) && loaded == old(loaded)
      ensures error == old(error) && incomeList == old(incomeList) && mode == old(mode) && active == old(active)
    {
      activeIncome := activeIncome.(item := activeIncome.item.(userId := TmpUserId));
      req := Create(TmpUserId, SerializeIncome(activeIncome));
    }

    /** `handleModifyIncome`: puts the active income under its id, or under -1 when it has none. */
    method ModifyIncome() returns (req: Request)
      ensures req == Update(ModifyTargetId(activeIncome.item.id), SerializeIncome(activeIncome))
    {
      req := Update(ModifyTargetId(activeIncome.item.id), SerializeIncome(activeIncome));
    }

    /** A successful add, modify or delete reloads the list and closes the form. */
    method Reset(today: DateField)
      modifies this
      ensures !loaded && !active && activeIncome == DefaultIncome(today)
      ensures year == old(year) && month == old(month) && source == old(source)
      ensures error == old(error) && incomeList == old(incomeList) && mode == old(mode)
    {
      loaded := false;
      active := false;
      activeIncome := DefaultIncome(today);
    }

    /** The answer to a create, update or delete: `expected` is the success status (201, 200
        or 204) and `message` the failure text of that request. */
    method OnChangeResponse(status: int, expected: int, message: string, today: DateField)
      modifies this
      ensures status == expected ==> !loaded && !active && activeIncome == DefaultIncome(today) && error == old(error)
      ensures status != expected ==>
                error == Some(Coded(UnknownError, message)) &&
                loaded == old(loaded) && active == old(active) && activeIncome == old(activeIncome)
      ensures year == old(year) && month == old(month) && source == old(source)
      ensures incomeList == old(incomeList) && mode == old(mode)
    {
      if status == expected {
        Reset(today);
      } else {
        error := Some(Coded(UnknownError, message));
      }
    }

    method OnAddResponse(status: int, today: DateField)
      modifies this
      ensures status == 201 ==> !loaded && !active && activeIncome == DefaultIncome(today) && error == old(error)
      ensures status != 201 ==>
                error == Some(Coded(UnknownError, "Unable to add data.")) &&
                loaded == old(loaded) && active == old(active) && activeIncome == old(activeIncome)
      ensures year == old(year) && month == old(month) && source == old(source)
      ensures incomeList == old(incomeList) && mode == old(mode)
    {
      OnChangeResponse(status, 201, "Unable to add data.", today);
    }

    method OnModifyResponse(status: int, today: DateField)
      modifies this
      ensures status == 200 ==> !loaded && !active && activeIncome == DefaultIncome(today) && error == old(error)
      ensures status != 200 ==>
                error == Some(Coded(UnknownError, "Unable to edit data.")) &&
                loaded == old(loaded) && active == old(active) && activeIncome == old(activeIncome)
      ensures year == old(year) && month == old(month) && source == old(source)
      ensures incomeList == old(incomeList) && mode == old(mode)
    {
      OnChangeResponse(status, 200, "Unable to edit data.", today);
    }

    method OnDeleteResponse(status: int, today: DateField)
      modifies this
      ensures status == 204 ==> !loaded && !active && activeIncome == DefaultIncome(today) && error == old(error)
      ensures status != 204 ==>
                error == Some(Coded(UnknownError, "Unable to delete data.")) &&
                loaded == old(loaded) && active == old(active) && activeIncome == old(activeIncome)
      ensures year == old(year) && month == old(month) && source == old(source)
      ensures incomeList == old(incomeList) && mode == old(mode)
    {
      OnChangeResponse(status, 204, "Unable to delete data.", today);
    }

    /** `handleFormSubmit`: adds in mode "add", modifies in mode "edit", and does nothing
        in any other mode. */
    method FormSubmit() returns (req: Request)
      modifies this
      ensures old(mode) == "add" ==>
                activeIncome == old(activeIncome).(item := old(activeIncome).item.(userId := TmpUserId)) &&
                req == Create(TmpUserId, SerializeIncome(activeIncome))
      ensures old(mode) == "edit" ==>
                activeIncome == old(activeIncome) &&
                req == Update(ModifyTargetId(activeIncome.item.id), SerializeIncome(activeIncome))
      ensures old(mode) != "add" && old(mode) != "edit" ==> req == NoRequest && activeIncome == old(activeIncome)
      ensures year == old(year) && month == old(month) && source == old(source) && loaded == old(loaded)
      ensures error == old(error) && incomeList == old(incomeList) && mode == old(mode) && active == old(active)
    {
      if mode == "add" {
        req := AddIncome();
      } else if mode == "edit" {
        req := ModifyIncome();
      } else {
        req := NoRequest;
      }
    }

    /** `handleFormCancel`: closes the form and resets the active income. */
    method FormCancel(today: DateField)
      modifies this
      ensures !active && activeIncome == DefaultIncome(today)
      ensures year == old(year) && month == old(month) && source == old(source) && loaded == old(loaded)
      ensures error == old(error) && incomeList == old(incomeList) && mode == old(mode)
    {
      active := false;
      activeIncome := DefaultIncome(today);
    }

    /** `handleEditClick`: opens the form in edit mode on the first listed income with
        that id, keeping the active income when none has it. */
    method EditClick(id: int)
      modifies this
      ensures active && mode == "edit"
      ensures FindById(incomeList, IncomeId, id).Some? ==>
                activeIncome == incomeList[FindById(incomeList, IncomeId, id).value] &&
                activeIncome.item.id == Some(id)
      ensures FindById(incomeList, IncomeId, id).None? ==> activeIncome == old(activeIncome)
      ensures year == old(year) && month == old(month) && source == old(source) && loaded == old(loaded)
      ensures error == old(error) && incomeList == old(incomeList)
    {
      active := true;
      mode := "edit";
      var found := FindById(incomeList, IncomeId, id);
      if found.Some? {
        activeIncome := incomeList[found.value];
      }
    }

    /** The add button opens the form in add mode. */
    method AddClick()
      modifies this
      ensures active && mode == "add"
      ensures year == old(year) && month == old(month) && source == old(source) && loaded == old(loaded)
      ensures error == old(error) && incomeList == old(incomeList) && activeIncome == old(activeIncome)
    {
      active := true;
      mode := "add";
    }

    /** `handleDeleteClick`: requests the deletion and closes the form. */
    method DeleteClick(id: int) returns (req: Request)
      modifies this
      ensures req == Delete(id) && !active
      ensures year == old(year) && month == old(month) && source == old(source) && loaded == old(loaded)
      ensures error == old(error) && incomeList == old(incomeList) && mode == old(mode)
      ensures activeIncome == old(activeIncome)
    {
      req := Delete(id);
      active := false;
    }

    /** `handleTagClick`: filters by the source (None shows all) and reloads. */
    method TagClick(c: Option<string>)
      modifies this
      ensures source == c && !loaded
      ensures year == old(year) && month == old(month) && error == old(error)
      ensures incomeList == old(incomeList) && mode == old(mode) && active == old(active)
      ensures activeIncome == old(activeIncome)
    {
      source := c;
      loaded := false;
    }

    /** `handleMonthLeftClick`. */
    method MonthLeftClick()
      requires Valid()
      modifies this
      ensures Valid()
      ensures (year, month) == PrevMonth(old(year), old(month)) && !loaded
      ensures source == old(source) && error == old(error) && incomeList == old(incomeList)
      ensures mode == old(mode) && active == old(active) && activeIncome == old(activeIncome)
    {
      if month - 1 == 0 {
        month := 12;
        year := year - 1;
      } else {
        month := month - 1;
      }
      loaded := false;
    }

    /** `handleMonthRightClick`. */
    method MonthRightClick()
      requires Valid()
      modifies this
      ensures Valid()
      ensures (year, month) == NextMonth(old(year), old(month)) && !loaded
      ensures source == old(source) && error == old(error) && incomeList == old(incomeList)
      ensures mode == old(mode) && active == old(active) && activeIncome == old(activeIncome)
    {
      if month + 1 == 13 {
        month := 1;
        year := year + 1;
      } else {
        month := month + 1;
      }
      loaded := false;
    }
  }

  /** Paging right then left shows the same month again, and asks for it again. */
  method RightThenLeft(p: Page)
    requires p.Valid()
    modifies p
    ensures p.Valid() && p.year == old(p.year) && p.month == old(p.month) && !p.loaded
    ensures p.FetchRequest() == Retrieve(TmpUserId, old(p.year), old(p.month), old(p.source))
  {
    p.MonthRightClick();
    p.MonthLeftClick();
  }
}
