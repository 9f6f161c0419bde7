/**
 * The expense-budget input: a text state that only ever holds a text the
 * amount pattern accepts, handed to the parent parsed when saved.
 */
module ExpenseBudget {
  import opened JsText
  import opened AmountInput

  class BudgetInput {
    var expenseBudgetValue: string

    /** The stored text always matches the amount pattern. */
    predicate Valid()
      reads this
    {
      AmountPattern(expenseBudgetValue)
    }

    constructor()
      ensures Valid() && expenseBudgetValue == ""
    {
      expenseBudgetValue := "";
      assert SplitsAt("", 0);
    }

    /** A text the pattern accepts replaces the value; any other is dropped. */
    method OnChange(text: string)
      requires Valid()
      modifies this
      ensures Valid()
      ensures expenseBudgetValue == if AmountPattern(text) then text else old(expenseBudgetValue)
    {
      PatternAtFirstNonDigit(text);
      if SplitsAt(text, FirstNonDigit(text)) {
        expenseBudgetValue := text;
      }
    }

    /** The Save button: the parent's `handleClick` receives `parseFloat` of the value,
        which is a number exactly when the value holds a digit. */
    method Save() returns (budget: JsNum)
      requires Valid()
      ensures budget == ParseFloat(expenseBudgetValue)
      ensures budget.Num? <==> HasDigit(expenseBudgetValue)
    {
      budget := ParseFloat(expenseBudgetValue);
    }
  }
}
