/**
 * A table of category tags, as the two category components declare them:
 * an object from category key to a styled `<span>`, enumerated in
 * declaration order.
 */
module TagTable {
  import opened Wrappers
  import opened JsText

  /** A tag's look: an inline background colour, or only Bulma classes and no style object. */
  datatype Style = Inline(background: string) | ClassOnly

  /** `<span key=… className=… style=…>text</span>`. */
  datatype TagElement = TagElement(reactKey: string, classes: string, style: Style, text: string)

  /** A tag coloured by an inline background. */
  function InlineTag(key: string, color: string, text: string): TagElement {
    TagElement(key, "tag", Inline(color), text)
  }

  /** A tag coloured by Bulma classes alone. */
  function ClassTag(key: string, classes: string, text: string): TagElement {
    TagElement(key, classes, ClassOnly, text)
  }

  type Table = seq<(string, TagElement)>

  /** The table's keys do not repeat. */
  predicate WellFormed(t: Table) {
    forall i, j :: 0 <= i < j < |t| ==> t[i].0 != t[j].0
  }

  predicate HasKey(t: Table, k: string) {
    exists i :: 0 <= i < |t| && t[i].0 == k
  }

  /** `table[k]`: the element under key `k`, `undefined` (None) when there is none. */
  function Get(t: Table, k: string): (r: Option<TagElement>)
    ensures r.Some? <==> HasKey(t, k)
    ensures r.Some? ==> exists i :: 0 <= i < |t| && t[i] == (k, r.value)
  {
    if |t| == 0 then None
    else if t[0].0 == k then Some(t[0].1)
    else
      var r := Get(t[1..], k);
      assert forall i :: 1 <= i < |t| ==> t[i] == t[1..][i - 1];
      r
  }

  /** In a well-formed table the element found is the one stored at the key's position. */
  lemma GetAt(t: Table, i: nat)
    requires WellFormed(t) && i < |t|
    ensures Get(t, t[i].0) == Some(t[i].1)
  {
    var r := Get(t, t[i].0);
    var j :| 0 <= j < |t| && t[j] == (t[i].0, r.value);
  }

  /** The outcome of a tag lookup: the element, `undefined`, or `null`. */
  datatype TagLookup = Found(element: TagElement) | Absent | Null

  /** `getExpenseTag` / `getIncomeTag`: membership is tested on the upper-cased tag, but the
      element is fetched with the tag as given. */
  function LookupTag(t: Table, tag: string): (r: TagLookup)
    ensures r.Null? <==> !HasKey(t, ToUpper(tag))
    ensures r.Absent? <==> HasKey(t, ToUpper(tag)) && !HasKey(t, tag)
    ensures r.Found? ==> Get(t, tag) == Some(r.element)
  {
    if !HasKey(t, ToUpper(tag)) then Null
    else match Get(t, tag)
      case Some(e) => Found(e)
      case None => Absent
  }

  /** The property read on an element that is not there, or on a style object that is
      not there, throws. */
  datatype ColorError = NoElement | NoStyle

  /** `getTagBackgroundColor`: `table[tag].props.style.backgroundColor`, or null when the
      upper-cased tag is not a key. */
  function BackgroundColor(t: Table, tag: string): (r: Result<Option<string>, ColorError>)
    ensures r == Ok(None) <==> !HasKey(t, ToUpper(tag))
    ensures r.Ok? && r.value.Some? <==> LookupTag(t, tag).Found? && LookupTag(t, tag).element.style.Inline?
    ensures r.Ok? && r.value.Some? ==> r.value.value == LookupTag(t, tag).element.style.background
    ensures r == Err(NoStyle) <==> LookupTag(t, tag).Found? && LookupTag(t, tag).element.style.ClassOnly?
  {
    match LookupTag(t, tag)
    case Null => Ok(None)
    case Absent => Err(NoElement)
    case Found(e) =>
      match e.style
      case Inline(c) => Ok(Some(c))
      case ClassOnly => Err(NoStyle)
  }

  /** A tag as the full list renders it: the element with `cursor: pointer` added to its style,
      and the category it reports when clicked. */
  datatype ClickableTag = ClickableTag(element: TagElement, cursor: string, reports: string)

  /** `getAllExpenseTags` / `getAllIncomeTags`: one clickable copy per key, in enumeration
      order, each reporting its own key. */
  method AllTags(t: Table) returns (values: seq<ClickableTag>)
    ensures |values| == |t|
    ensures forall k :: 0 <= k < |t| ==> values[k] == ClickableTag(t[k].1, "pointer", t[k].0)
  {
    values := [];
    var k := 0;
    while k < |t|
      invariant 0 <= k <= |t| && |values| == k
      invariant forall i :: 0 <= i < k ==> values[i] == ClickableTag(t[i].1, "pointer", t[i].0)
    {
      var category := t[k].0;
      var value := t[k].1;
      values := values + [ClickableTag(value, "pointer", category)];
      k := k + 1;
    }
  }

  /** The keys of a table, in order. */
  function Keys(t: Table): (ks: seq<string>)
    ensures |ks| == |t| && forall i :: 0 <= i < |t| ==> ks[i] == t[i].0
  {
    seq(|t|, i requires 0 <= i < |t| => t[i].0)
  }

  /** Membership by key is membership in the key sequence. */
  lemma HasKeyIffInKeys(t: Table, k: string)
    ensures HasKey(t, k) <==> k in Keys(t)
  {
    if k in Keys(t) {
      var i :| 0 <= i < |Keys(t)| && Keys(t)[i] == k;
      assert t[i].0 == k;
    }
  }

  /** A key that is the upper-case form of itself is found exactly. */
  lemma UpperKeyFound(t: Table, i: nat)
    requires WellFormed(t) && i < |t| && ToUpper(t[i].0) == t[i].0
    ensures LookupTag(t, t[i].0) == Found(t[i].1)
  {
    GetAt(t, i);
  }

  /** A spelling that upper-cases to a key, when no key is spelled that way, passes the
      membership test and fetches nothing. */
  lemma OtherSpellingAbsent(t: Table, tag: string, i: nat)
    requires i < |t| && ToUpper(tag) == t[i].0
    requires forall j :: 0 <= j < |t| ==> t[j].0 != tag
    ensures LookupTag(t, tag) == Absent
  {
  }
}
