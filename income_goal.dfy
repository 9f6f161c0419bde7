/**
 * The income-goal input: a text state that only ever holds a text the
 * amount pattern accepts, handed to the parent parsed when saved.
 */
module IncomeGoal {
  import opened JsText
  import opened AmountInput

  class GoalInput {
    var incomeGoalValue: string

    /** The stored text always matches the amount pattern. */
    predicate Valid()
      reads this
    {
      AmountPattern(incomeGoalValue)
    }

    constructor()
      ensures Valid() && incomeGoalValue == ""
    {
      incomeGoalValue := "";
      assert SplitsAt("", 0);
    }

    /** A text the pattern accepts replaces the value; any other is dropped. */
    method OnChange(text: string)
      requires Valid()
      modifies this
      ensures Valid()
      ensures incomeGoalValue == if AmountPattern(text) then text else old(incomeGoalValue)
    {
      PatternAtFirstNonDigit(text);
      if SplitsAt(text, FirstNonDigit(text)) {
        incomeGoalValue := text;
      }
    }

    /** The Save button: the parent's `handleClick` receives `parseFloat` of the value,
        which is a number exactly when the value holds a digit. */
    method Save() returns (goal: JsNum)
      requires Valid()
      ensures goal == ParseFloat(incomeGoalValue)
      ensures goal.Num? <==> HasDigit(incomeGoalValue)
    {
      goal := ParseFloat(incomeGoalValue);
    }
  }
}
