/**
 * The serializers that turn a ledger model into the JSON object posted to
 * the backend. The identifier is never sent: the backend assigns it.
 */
module Serializers {
  import opened JsText
  import opened Json
  import opened Models

  /** The keys every serialized income carries. */
  const IncomeKeys: set<string> := {"user", "amount", "source", "description", "type", "interval", "date"}

  /** The keys every serialized expense carries. */
  const ExpenseKeys: set<string> := {"user", "amount", "category", "description", "type", "interval", "date"}

  /** `IncomeSerializer.serialize`: the tag travels as `source`, the fixed flag as `type`,
      interval and date as their texts. */
  function SerializeIncome(m: Income): (j: JsonObject)
    ensures j.Keys == IncomeKeys && "id" !in j
    ensures j["user"] == JNum(Num(m.item.userId)) && j["amount"] == JNum(m.item.amount)
    ensures j["source"] == JStr(m.item.tag) && j["description"] == JStr(m.item.description)
    ensures j["type"] == JBool(m.fixed)
    ensures j["interval"] == JStr(DeltaToString(m.item.interval)) && j["date"] == JStr(DateToString(m.item.date))
  {
    map["user" := JNum(Num(m.item.userId)),
        "amount" := JNum(m.item.amount),
        "source" := JStr(m.item.tag),
        "description" := JStr(m.item.description),
        "type" := JBool(m.fixed),
        "interval" := JStr(DeltaToString(m.item.interval)),
        "date" := JStr(DateToString(m.item.date))]
  }

  /** `ExpenseSerializer.serialize`: the tag travels as `category`, the recurring flag as `type`. */
  function SerializeExpense(m: Expense): (j: JsonObject)
    ensures j.Keys == ExpenseKeys && "id" !in j
    ensures j["user"] == JNum(Num(m.item.userId)) && j["amount"] == JNum(m.item.amount)
    ensures j["category"] == JStr(m.item.tag) && j["description"] == JStr(m.item.description)
    ensures j["type"] == JBool(m.recurring)
    ensures j["interval"] == JStr(DeltaToString(m.item.interval)) && j["date"] == JStr(DateToString(m.item.date))
  {
    map["user" := JNum(Num(m.item.userId)),
        "amount" := JNum(m.item.amount),
        "category" := JStr(m.item.tag),
        "description" := JStr(m.item.description),
        "type" := JBool(m.recurring),
        "interval" := JStr(DeltaToString(m.item.interval)),
        "date" := JStr(DateToString(m.item.date))]
  }

  /** A serializer holds the model it was built from and the JSON computed at construction;
      `data()` hands out that JSON, so later changes to the model are not reflected. */
  datatype IncomeSerializer = IncomeSerializer(model: Income, json: JsonObject) {
    function Data(): JsonObject { json }
  }

  datatype ExpenseSerializer = ExpenseSerializer(model: Expense, json: JsonObject) {
    function Data(): JsonObject { json }
  }

  function NewIncomeSerializer(m: Income): (s: IncomeSerializer)
    ensures s.model == m && s.Data() == SerializeIncome(m)
  {
    IncomeSerializer(m, SerializeIncome(m))
  }

  function NewExpenseSerializer(m: Expense): (s: ExpenseSerializer)
    ensures s.model == m && s.Data() == SerializeExpense(m)
  {
    ExpenseSerializer(m, SerializeExpense(m))
  }
}
