/** The expense category tags and their lookups. */
module ExpenseCategories {
  import opened Wrappers
  import opened JsText
  import opened TagTable

  /** `expenseTags`, in declaration order. */
  const ExpenseTags: Table := [
    ("DEBT", InlineTag("1", "papayawhip", "Debt")),
    ("EDUCATION", InlineTag("2", "honeydew", "Education")),
    ("ENTERTAINMENT", InlineTag("3", "mistyrose", "Entertainment")),
    ("FOOD", ClassTag("4", "tag is-primary is-light", "Food")),
    ("HOUSEHOLD", InlineTag("5", "lemonchiffon", "Household")),
    ("HOUSING", InlineTag("6", "paleturquoise", "Housing")),
    ("INSURANCE", ClassTag("7", "tag is-info is-light", "Insurance")),
    ("INVESTMENT", InlineTag("8", "lightcyan", "Investment")),
    ("MEDICAL", InlineTag("9", "peachpuff", "Medical")),
    ("SAVING", ClassTag("10", "tag is-danger is-light", "Saving")),
    ("SHOPPING", ClassTag("11", "tag is-link is-light", "Shopping")),
    ("SUBSCRIPTION", ClassTag("12", "tag is-success is-light", "Subscription")),
    ("TRANSPORTATION", InlineTag("13", "lavender", "Transportation")),
    ("OTHER", InlineTag("14", "whitesmoke", "Other"))
  ]

  const ExpenseKeyOrder: seq<string> := [
    "DEBT", "EDUCATION", "ENTERTAINMENT", "FOOD", "HOUSEHOLD", "HOUSING", "INSURANCE",
    "INVESTMENT", "MEDICAL", "SAVING", "SHOPPING", "SUBSCRIPTION", "TRANSPORTATION", "OTHER"]

  /** The keys styled by classes only, which carry no style object. */
  const ClassStyled: set<string> := {"FOOD", "INSURANCE", "SAVING", "SHOPPING", "SUBSCRIPTION"}

  /** The table has exactly fourteen keys, in this order, none repeated, all upper-case. */
  lemma ExpenseTableShape()
    ensures Keys(ExpenseTags) == ExpenseKeyOrder && |ExpenseTags| == 14
    ensures WellFormed(ExpenseTags)
    ensures forall i :: 0 <= i < |ExpenseTags| ==> ToUpper(ExpenseTags[i].0) == ExpenseTags[i].0
  {
    ExpenseKeysListed();
    ExpenseKeysDistinct();
    ExpenseKeysUpper();
  }

  /** The keys in declaration order. */
  lemma ExpenseKeysListed()
    ensures Keys(ExpenseTags) == ExpenseKeyOrder && |ExpenseTags| == 14
  {
  }

  /** No key appears twice. */
  lemma ExpenseKeysDistinct()
    ensures WellFormed(ExpenseTags)
  {
  }

  /** Every key is written in upper case. */
  lemma ExpenseKeysUpper()
    ensures forall i :: 0 <= i < |ExpenseTags| ==> ToUpper(ExpenseTags[i].0) == ExpenseTags[i].0
  {
    forall i | 0 <= i < |ExpenseTags|
      ensures ToUpper(ExpenseTags[i].0) == ExpenseTags[i].0
    {
      ToUpperOfUpper(ExpenseTags[i].0);
    }
  }

  /** `getExpenseTag`. */
  function GetExpenseTag(tag: string): (r: TagLookup)
    ensures r.Null? <==> ToUpper(tag) !in ExpenseKeyOrder
    ensures r.Absent? <==> ToUpper(tag) in ExpenseKeyOrder && tag !in ExpenseKeyOrder
    ensures r.Found? ==> exists i :: 0 <= i < |ExpenseTags| && ExpenseTags[i] == (tag, r.element)
  {
    ExpenseTableShape();
    HasKeyIffInKeys(ExpenseTags, ToUpper(tag));
    HasKeyIffInKeys(ExpenseTags, tag);
    LookupTag(ExpenseTags, tag)
  }

  /** `getTagBackgroundColor` of the expense table. */
  function GetTagBackgroundColor(tag: string): (r: Result<Option<string>, ColorError>)
    ensures r == Ok(None) <==> ToUpper(tag) !in ExpenseKeyOrder
    ensures r == Err(NoElement) <==> GetExpenseTag(tag).Absent?
    ensures r == Err(NoStyle) <==> GetExpenseTag(tag).Found? && GetExpenseTag(tag).element.style.ClassOnly?
    ensures r.Ok? && r.value.Some? ==> GetExpenseTag(tag).Found? && GetExpenseTag(tag).element.style == Inline(r.value.value)
  {
    ExpenseTableShape();
    HasKeyIffInKeys(ExpenseTags, ToUpper(tag));
    BackgroundColor(ExpenseTags, tag)
  }

  /** Which keys are class-styled. */
  lemma ClassStyledKeys(i: nat)
    requires i < |ExpenseTags|
    ensures ExpenseTags[i].1.style.ClassOnly? <==> ExpenseTags[i].0 in ClassStyled
  {
    match i
    case 0 => case 1 => case 2 => case 3 => case 4 => case 5 => case 6 =>
    case 7 => case 8 => case 9 => case 10 => case 11 => case 12 => case 13 =>
  }

  /** A key of the table has a colour exactly when it is not class-styled. */
  lemma ColorDefinedExactlyForInline(i: nat)
    requires i < |ExpenseTags|
    ensures GetTagBackgroundColor(ExpenseTags[i].0).Ok? <==> ExpenseTags[i].0 !in ClassStyled
    ensures GetTagBackgroundColor(ExpenseTags[i].0).Ok? ==> GetTagBackgroundColor(ExpenseTags[i].0).value.Some?
  {
    ExpenseTableShape();
    UpperKeyFound(ExpenseTags, i);
    ClassStyledKeys(i);
    assert GetTagBackgroundColor(ExpenseTags[i].0) == BackgroundColor(ExpenseTags, ExpenseTags[i].0);
  }

  /** Every key of the table, as written, is found with its own element. */
  lemma KeyFound(i: nat)
    requires i < |ExpenseTags|
    ensures GetExpenseTag(ExpenseTags[i].0) == Found(ExpenseTags[i].1)
  {
    ExpenseTableShape();
    UpperKeyFound(ExpenseTags, i);
    assert GetExpenseTag(ExpenseTags[i].0) == LookupTag(ExpenseTags, ExpenseTags[i].0);
  }

  /** An upper-case key is found. */
  lemma FoodFound()
    ensures GetExpenseTag("FOOD") == Found(ExpenseTags[3].1)
  {
    assert ExpenseTags[3].0 == "FOOD";
    KeyFound(3);
  }

  /** Its lower-case spelling passes the membership test and fetches nothing. */
  lemma LowerFoodAbsent()
    ensures GetExpenseTag("food") == Absent
  {
    var u := ToUpper("food");
    assert u[0] == 'F' && u[1] == 'O' && u[2] == 'O' && u[3] == 'D';
    assert u == ExpenseTags[3].0;
    OtherSpellingAbsent(ExpenseTags, "food", 3);
    assert GetExpenseTag("food") == LookupTag(ExpenseTags, "food");
  }

  /** A text that is no key in any spelling is null. */
  lemma UnknownTagIsNull()
    ensures GetExpenseTag("PIZZA") == Null
  {
    ToUpperOfUpper("PIZZA");
    assert "PIZZA" !in ExpenseKeyOrder;
  }

  /** A class-styled key has no style object to read a colour from. */
  lemma FoodHasNoColor()
    ensures GetTagBackgroundColor("FOOD") == Err(NoStyle)
  {
    assert ExpenseTags[3].0 == "FOOD";
    KeyFound(3);
    assert GetTagBackgroundColor("FOOD") == BackgroundColor(ExpenseTags, "FOOD");
  }

  /** An inline-styled key gives its background colour. */
  lemma DebtColor()
    ensures GetTagBackgroundColor("DEBT") == Ok(Some("papayawhip"))
  {
    KeyFound(0);
    assert GetTagBackgroundColor("DEBT") == BackgroundColor(ExpenseTags, "DEBT");
  }

  /** `getAllExpenseTags`: fourteen clickable tags in table order; the k-th reports key k. */
  method GetAllExpenseTags() returns (values: seq<ClickableTag>)
    ensures |values| == 14
    ensures forall k :: 0 <= k < 14 ==>
              values[k].reports == ExpenseKeyOrder[k] && values[k].element == ExpenseTags[k].1 && values[k].cursor == "pointer"
  {
    values := AllTags(ExpenseTags);
  }
}
