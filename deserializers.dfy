/**
 * The deserializers that rebuild ledger models from the backend's JSON
 * objects, one object at a time or a whole array.
 *
 * An absent key reads as `undefined`, so the model constructor's default
 * applies (no id, user 0, tag "none", empty description, flag false); the
 * amount goes through `parseFloat`, so an absent one is NaN. The interval
 * and the date are split as text: without a text there the deserializer
 * throws, which is `Err(NotText(key))` here.
 */
module Deserializers {
  import opened Wrappers
  import opened JsText
  import opened Json
  import opened Models
  import opened AmountInput

  datatype DecodeError =
    | NotText(key: string)     // `split` on something that is not a string throws a TypeError
    | WrongType(key: string)   // a field of another JSON type than the model declares

  /** `json.id`: absent or null give no identifier. */
  function ReadId(j: JsonObject): (r: Result<Option<int>, DecodeError>)
    ensures "id" !in j ==> r == Ok(None)
    ensures r.Ok? && r.value.Some? ==> "id" in j && j["id"] == JNum(Num(r.value.value))
  {
    if "id" !in j then Ok(None)
    else match j["id"]
      case JNull => Ok(None)
      case JNum(Num(n)) => Ok(Some(n))
      case _ => Err(WrongType("id"))
  }

  /** `json.user`, defaulting to 0. */
  function ReadUser(j: JsonObject): (r: Result<int, DecodeError>)
    ensures "user" !in j ==> r == Ok(0)
    ensures "user" in j && j["user"].JNum? && j["user"].n.Num? ==> r == Ok(j["user"].n.v)
  {
    if "user" !in j then Ok(0)
    else match j["user"]
      case JNum(Num(n)) => Ok(n)
      case _ => Err(WrongType("user"))
  }

  /** `parseFloat(json.amount)`: a number stays itself, a text is parsed, anything else is NaN. */
  function ReadAmount(j: JsonObject): (x: JsNum)
    ensures "amount" !in j ==> x == NaN
    ensures "amount" in j && j["amount"].JNum? ==> x == j["amount"].n
    ensures "amount" in j && j["amount"].JStr? ==> x == ParseFloat(j["amount"].s)
  {
    if "amount" !in j then NaN
    else match j["amount"]
      case JNum(n) => n
      case JStr(s) => ParseFloat(s)
      case _ => NaN
  }

  /** A text field with the constructor's default for `undefined`. */
  function ReadText(j: JsonObject, key: string, default: string): (r: Result<string, DecodeError>)
    ensures key !in j ==> r == Ok(default)
    ensures r.Ok? && key in j ==> j[key] == JStr(r.value)
    ensures r.Err? ==> key in j && !j[key].JStr?
  {
    if key !in j then Ok(default)
    else match j[key]
      case JStr(s) => Ok(s)
      case _ => Err(WrongType(key))
  }

  /** `json.type`, defaulting to false. */
  function ReadFlag(j: JsonObject): (r: Result<bool, DecodeError>)
    ensures "type" !in j ==> r == Ok(false)
    ensures r.Ok? && "type" in j ==> j["type"] == JBool(r.value)
  {
    if "type" !in j then Ok(false)
    else match j["type"]
      case JBool(b) => Ok(b)
      case _ => Err(WrongType("type"))
  }

  /** `(json[key] as string).split("-")` needs a text. */
  function ReadSplitText(j: JsonObject, key: string): (r: Result<string, DecodeError>)
    ensures r.Ok? <==> key in j && j[key].JStr?
    ensures r.Ok? ==> j[key] == JStr(r.value)
    ensures r.Err? ==> r.error == NotText(key)
  {
    if key in j && j[key].JStr? then Ok(j[key].s) else Err(NotText(key))
  }

  /** Every field the deserializer reads has a type it accepts; `tagKey` is "source"
      for incomes and "category" for expenses. */
  predicate WellTyped(j: JsonObject, tagKey: string) {
    && ReadSplitText(j, "interval").Ok? && ReadSplitText(j, "date").Ok?
    && ReadId(j).Ok? && ReadUser(j).Ok? && ReadText(j, tagKey, "none").Ok?
    && ReadText(j, "description", "").Ok? && ReadFlag(j).Ok?
  }

  /** `IncomeDeserializer.deserialize`. The interval is split before the date, so a
      missing interval is the error reported when both are missing. */
  function DeserializeIncome(j: JsonObject): (r: Result<Income, DecodeError>)
    ensures r.Ok? <==> WellTyped(j, "source")
    ensures !ReadSplitText(j, "interval").Ok? ==> r == Err(NotText("interval"))
    ensures r.Ok? ==> && r.value.item.interval == ConvertTextToDelta(j["interval"].s)
                      && r.value.item.date == ConvertDateToField(j["date"].s)
                      && r.value.item.id == ReadId(j).value && r.value.item.userId == ReadUser(j).value
                      && r.value.item.amount == ReadAmount(j)
                      && r.value.item.tag == ReadText(j, "source", "none").value
                      && r.value.item.description == ReadText(j, "description", "").value
                      && r.value.fixed == ReadFlag(j).value
  {
    var iv :- ReadSplitText(j, "interval");
    var dt :- ReadSplitText(j, "date");
    var id :- ReadId(j);
    var user :- ReadUser(j);
    var source :- ReadText(j, "source", "none");
    var description :- ReadText(j, "description", "");
    var kind :- ReadFlag(j);
    Ok(NewIncome(id, user, ReadAmount(j), source, description, kind,
                 ConvertTextToDelta(iv), ConvertDateToField(dt)))
  }

  /** `ExpenseDeserializer.deserialize`: as for incomes, with the tag read from `category`. */
  function DeserializeExpense(j: JsonObject): (r: Result<Expense, DecodeError>)
    ensures r.Ok? <==> WellTyped(j, "category")
    ensures !ReadSplitText(j, "interval").Ok? ==> r == Err(NotText("interval"))
    ensures r.Ok? ==> && r.value.item.interval == ConvertTextToDelta(j["interval"].s)
                      && r.value.item.date == ConvertDateToField(j["date"].s)
                      && r.value.item.id == ReadId(j).value && r.value.item.userId == ReadUser(j).value
                      && r.value.item.amount == ReadAmount(j)
                      && r.value.item.tag == ReadText(j, "category", "none").value
                      && r.value.item.description == ReadText(j, "description", "").value
                      && r.value.recurring == ReadFlag(j).value
  {
    var iv :- ReadSplitText(j, "interval");
    var dt :- ReadSplitText(j, "date");
    var id :- ReadId(j);
    var user :- ReadUser(j);
    var category :- ReadText(j, "category", "none");
    var description :- ReadText(j, "description", "");
    var kind :- ReadFlag(j);
    Ok(NewExpense(id, user, ReadAmount(j), category, description, kind,
                  ConvertTextToDelta(iv), ConvertDateToField(dt)))
  }

  /** A deserializer holds its JSON and the model built at construction; `data()` returns
      that model. Construction fails exactly when the deserialization throws. */
  datatype IncomeDeserializer = IncomeDeserializer(json: JsonObject, model: Income) {
    function Data(): Income { model }
  }

  datatype ExpenseDeserializer = ExpenseDeserializer(json: JsonObject, model: Expense) {
    function Data(): Expense { model }
  }

  function NewIncomeDeserializer(j: JsonObject): (r: Result<IncomeDeserializer, DecodeError>)
    ensures r.Ok? <==> DeserializeIncome(j).Ok?
    ensures r.Ok? ==> r.value.json == j && r.value.Data() == DeserializeIncome(j).value
  {
    var m :- DeserializeIncome(j);
    Ok(IncomeDeserializer(j, m))
  }

  function NewExpenseDeserializer(j: JsonObject): (r: Result<ExpenseDeserializer, DecodeError>)
    ensures r.Ok? <==> DeserializeExpense(j).Ok?
    ensures r.Ok? ==> r.value.json == j && r.value.Data() == DeserializeExpense(j).value
  {
    var m :- DeserializeExpense(j);
    Ok(ExpenseDeserializer(j, m))
  }

  /** `ModelListDeserializer.data`: `map` over the array, which throws at the first
      element whose deserialization throws. */
  function DeserializeList<T>(arr: seq<JsonObject>, decode: JsonObject -> Result<T, DecodeError>): (r: Result<seq<T>, DecodeError>)
    ensures r.Ok? ==> |r.value| == |arr| && forall i :: 0 <= i < |arr| ==> decode(arr[i]) == Ok(r.value[i])
    ensures r.Err? ==> exists i :: && 0 <= i < |arr| && decode(arr[i]) == Err(r.error)
                                   && forall k :: 0 <= k < i ==> decode(arr[k]).Ok?
  {
    if |arr| == 0 then Ok([])
    else
      var first :- decode(arr[0]);
      var rest :- DeserializeList(arr[1..], decode);
      assert forall i :: 1 <= i < |arr| ==> arr[i] == arr[1..][i - 1];
      Ok([first] + rest)
  }

  /** The list succeeds exactly when every element does. */
  lemma {:induction false} DeserializeListOkIffAll<T>(arr: seq<JsonObject>, decode: JsonObject -> Result<T, DecodeError>)
    ensures DeserializeList(arr, decode).Ok? <==> forall i :: 0 <= i < |arr| ==> decode(arr[i]).Ok?
  {
    if |arr| > 0 {
      DeserializeListOkIffAll(arr[1..], decode);
      assert forall i :: 1 <= i < |arr| ==> arr[i] == arr[1..][i - 1];
    }
  }

  /** `IncomeListDeserializer.data`. */
  function IncomeListData(arr: seq<JsonObject>): (r: Result<seq<Income>, DecodeError>)
    ensures r.Ok? <==> forall i :: 0 <= i < |arr| ==> DeserializeIncome(arr[i]).Ok?
    ensures r.Ok? ==> |r.value| == |arr| && forall i :: 0 <= i < |arr| ==> DeserializeIncome(arr[i]) == Ok(r.value[i])
  {
    DeserializeListOkIffAll(arr, DeserializeIncome);
    DeserializeList(arr, DeserializeIncome)
  }

  /** `ExpenseListDeserializer.data`. */
  function ExpenseListData(arr: seq<JsonObject>): (r: Result<seq<Expense>, DecodeError>)
    ensures r.Ok? <==> forall i :: 0 <= i < |arr| ==> DeserializeExpense(arr[i]).Ok?
    ensures r.Ok? ==> |r.value| == |arr| && forall i :: 0 <= i < |arr| ==> DeserializeExpense(arr[i]) == Ok(r.value[i])
  {
    DeserializeListOkIffAll(arr, DeserializeExpense);
    DeserializeList(arr, DeserializeExpense)
  }
}
