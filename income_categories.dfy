/** The income source tags and their lookups. */
module IncomeCategories {
  import opened Wrappers
  import opened JsText
  import opened TagTable

  /** `incomeTags`, in declaration order. */
  const IncomeTags: Table := [
    ("BUSINESS", ClassTag("1", "tag is-danger is-light", "Business")),
    ("DIVIDEND", ClassTag("2", "tag is-primary is-light", "Dividend")),
    ("GOVERNMENT", ClassTag("3", "tag is-info is-light", "Government")),
    ("INTEREST", InlineTag("4", "lavender", "Interest")),
    ("INVESTMENT", ClassTag("5", "tag is-link is-light", "Investment")),
    ("PENSION", InlineTag("6", "lavenderblush", "Pension")),
    ("SALARY", InlineTag("7", "lemonchiffon", "Salary")),
    ("OTHER", InlineTag("8", "whitesmoke", "Other"))
  ]

  const IncomeKeyOrder: seq<string> := [
    "BUSINESS", "DIVIDEND", "GOVERNMENT", "INTEREST", "INVESTMENT", "PENSION", "SALARY", "OTHER"]

  /** The keys styled by classes only, which carry no style object. */
  const ClassStyled: set<string> := {"BUSINESS", "DIVIDEND", "GOVERNMENT", "INVESTMENT"}

  /** The table has exactly eight keys, in this order, none repeated, all upper-case. */
  lemma IncomeTableShape()
    ensures Keys(IncomeTags) == IncomeKeyOrder && |IncomeTags| == 8
    ensures WellFormed(IncomeTags)
    ensures forall i :: 0 <= i < |IncomeTags| ==> ToUpper(IncomeTags[i].0) == IncomeTags[i].0
  {
    IncomeKeysListed();
    IncomeKeysDistinct();
    IncomeKeysUpper();
  }

  /** The keys in declaration order. */
  lemma IncomeKeysListed()
    ensures Keys(IncomeTags) == IncomeKeyOrder && |IncomeTags| == 8
  {
  }

  /** No key appears twice. */
  lemma IncomeKeysDistinct()
    ensures WellFormed(IncomeTags)
  {
  }

  /** Every key is written in upper case. */
  lemma IncomeKeysUpper()
    ensures forall i :: 0 <= i < |IncomeTags| ==> ToUpper(IncomeTags[i].0) == IncomeTags[i].0
  {
    forall i | 0 <= i < |IncomeTags|
      ensures ToUpper(IncomeTags[i].0) == IncomeTags[i].0
    {
      ToUpperOfUpper(IncomeTags[i].0);
    }
  }

  /** `getIncomeTag`. */
  function GetIncomeTag(tag: string): (r: TagLookup)
    ensures r.Null? <==> ToUpper(tag) !in IncomeKeyOrder
    ensures r.Absent? <==> ToUpper(tag) in IncomeKeyOrder && tag !in IncomeKeyOrder
    ensures r.Found? ==> exists i :: 0 <= i < |IncomeTags| && IncomeTags[i] == (tag, r.element)
  {
    IncomeTableShape();
    HasKeyIffInKeys(IncomeTags, ToUpper(tag));
    HasKeyIffInKeys(IncomeTags, tag);
    LookupTag(IncomeTags, tag)
  }

  /** `getTagBackgroundColor` of the income table. */
  function GetTagBackgroundColor(tag: string): (r: Result<Option<string>, ColorError>)
    ensures r == Ok(None) <==> ToUpper(tag) !in IncomeKeyOrder
    ensures r == Err(NoElement) <==> GetIncomeTag(tag).Absent?
    ensures r == Err(NoStyle) <==> GetIncomeTag(tag).Found? && GetIncomeTag(tag).element.style.ClassOnly?
    ensures r.Ok? && r.value.Some? ==> GetIncomeTag(tag).Found? && GetIncomeTag(tag).element.style == Inline(r.value.value)
  {
    IncomeTableShape();
    HasKeyIffInKeys(IncomeTags, ToUpper(tag));
    BackgroundColor(IncomeTags, tag)
  }

  /** Which keys are class-styled. */
  lemma ClassStyledKeys(i: nat)
    requires i < |IncomeTags|
    ensures IncomeTags[i].1.style.ClassOnly? <==> IncomeTags[i].0 in ClassStyled
  {
    match i
    case 0 => case 1 => case 2 => case 3 => case 4 => case 5 => case 6 => case 7 =>
  }

  /** A key of the table has a colour exactly when it is not class-styled. */
  lemma ColorDefinedExactlyForInline(i: nat)
    requires i < |IncomeTags|
    ensures GetTagBackgroundColor(IncomeTags[i].0).Ok? <==> IncomeTags[i].0 !in ClassStyled
    ensures GetTagBackgroundColor(IncomeTags[i].0).Ok? ==> GetTagBackgroundColor(IncomeTags[i].0).value.Some?
  {
    IncomeTableShape();
    UpperKeyFound(IncomeTags, i);
    ClassStyledKeys(i);
    assert GetTagBackgroundColor(IncomeTags[i].0) == BackgroundColor(IncomeTags, IncomeTags[i].0);
  }

  /** Every key of the table, as written, is found with its own element. */
  lemma KeyFound(i: nat)
    requires i < |IncomeTags|
    ensures GetIncomeTag(IncomeTags[i].0) == Found(IncomeTags[i].1)
  {
    IncomeTableShape();
    UpperKeyFound(IncomeTags, i);
    assert GetIncomeTag(IncomeTags[i].0) == LookupTag(IncomeTags, IncomeTags[i].0);
  }

  /** An upper-case key is found. */
  lemma SalaryFound()
    ensures GetIncomeTag("SALARY") == Found(IncomeTags[6].1)
  {
    KeyFound(6);
  }

  /** Its lower-case spelling passes the membership test and fetches nothing. */
  lemma LowerSalaryAbsent()
    ensures GetIncomeTag("salary") == Absent
  {
    var u := ToUpper("salary");
    assert u[0] == 'S' && u[1] == 'A' && u[2] == 'L' && u[3] == 'A' && u[4] == 'R' && u[5] == 'Y';
    assert u == IncomeTags[6].0;
    OtherSpellingAbsent(IncomeTags, "salary", 6);
    assert GetIncomeTag("salary") == LookupTag(IncomeTags, "salary");
  }

  /** An expense-only key is no income key in any spelling. */
  lemma UnknownTagIsNull()
    ensures GetIncomeTag("FOOD") == Null
  {
    ToUpperOfUpper("FOOD");
    assert "FOOD" !in IncomeKeyOrder;
  }

  /** A class-styled key has no style object to read a colour from. */
  lemma BusinessHasNoColor()
    ensures GetTagBackgroundColor("BUSINESS") == Err(NoStyle)
  {
    KeyFound(0);
    assert GetTagBackgroundColor("BUSINESS") == BackgroundColor(IncomeTags, "BUSINESS");
  }

  /** An inline-styled key gives its background colour. */
  lemma SalaryColor()
    ensures GetTagBackgroundColor("SALARY") == Ok(Some("lemonchiffon"))
  {
    KeyFound(6);
    assert GetTagBackgroundColor("SALARY") == BackgroundColor(IncomeTags, "SALARY");
  }

  /** `getAllIncomeTags`: eight clickable tags in table order; the k-th reports key k. */
  method GetAllIncomeTags() returns (values: seq<ClickableTag>)
    ensures |values| == 8
    ensures forall k :: 0 <= k < 8 ==>
              values[k].reports == IncomeKeyOrder[k] && values[k].element == IncomeTags[k].1 && values[k].cursor == "pointer"
  {
    values := AllTags(IncomeTags);
  }
}
