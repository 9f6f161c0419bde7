/**
 * What survives a trip through the backend's JSON: a model serialized and
 * read back is the same model without its identifier, as long as the parts
 * of its interval and date read back from their own text.
 */
module Wire {
  import opened Wrappers
  import opened JsText
  import opened Json
  import opened Models
  import opened Serializers
  import opened Deserializers

  lemma IncomeRoundTrip(m: Income)
    requires ReadableDate(m.item.date) && ReadableDelta(m.item.interval)
    ensures DeserializeIncome(SerializeIncome(m)) == Ok(m.(item := m.item.(id := None)))
  {
    DateTextRoundTrip(m.item.date);
    DeltaTextRoundTrip(m.item.interval);
  }

  lemma ExpenseRoundTrip(m: Expense)
    requires ReadableDate(m.item.date) && ReadableDelta(m.item.interval)
    ensures DeserializeExpense(SerializeExpense(m)) == Ok(m.(item := m.item.(id := None)))
  {
    DateTextRoundTrip(m.item.date);
    DeltaTextRoundTrip(m.item.interval);
  }

  /** The backend answers with the object it stored plus its identifier; reading that
      back gives the posted model with the new identifier. */
  lemma IncomeEchoWithId(m: Income, id: int)
    requires ReadableDate(m.item.date) && ReadableDelta(m.item.interval)
    ensures DeserializeIncome(SerializeIncome(m)["id" := JNum(Num(id))]) == Ok(m.(item := m.item.(id := Some(id))))
  {
    DateTextRoundTrip(m.item.date);
    DeltaTextRoundTrip(m.item.interval);
  }

  lemma ExpenseEchoWithId(m: Expense, id: int)
    requires ReadableDate(m.item.date) && ReadableDelta(m.item.interval)
    ensures DeserializeExpense(SerializeExpense(m)["id" := JNum(Num(id))]) == Ok(m.(item := m.item.(id := Some(id))))
  {
    DateTextRoundTrip(m.item.date);
    DeltaTextRoundTrip(m.item.interval);
  }

  /** A negative year does not survive: "-5-01-02" splits into four parts. */
  lemma NegativeYearIsLost()
    ensures var m := NewIncome(None, 2, Num(100), "SALARY", "", false, DefaultDelta,
                               DateField(Num(-5), Num(1), Num(2)));
            DeserializeIncome(SerializeIncome(m)).Ok? &&
            DeserializeIncome(SerializeIncome(m)).value.item.date == DateField(Num(0), Num(5), Num(1))
  {
    NegativeYearDoesNotRoundTrip();
  }
}
