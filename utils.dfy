/**
 * Small helpers of the front end: capitalising a tag name for display and
 * listing the keys and values of a plain object.
 */
module Utils {
  import opened JsText

  /** `standardizeString`: the first character upper-cased, the rest lower-cased. */
  function StandardizeString(s: string): (r: string)
    ensures |r| == |s|
    ensures |s| > 0 ==> r[0] == UpperChar(s[0])
    ensures forall i :: 1 <= i < |s| ==> r[i] == LowerChar(s[i])
  {
    ToUpper(CharAt0(s)) + ToLower(Slice(s, 1, |s|))
  }

  lemma StandardizeEmpty()
    ensures StandardizeString("") == ""
  {
  }

  lemma StandardizeFood()
    ensures StandardizeString("FOOD") == "Food"
  {
    assert StandardizeString("FOOD") == ['F'] + ToLower("OOD");
    assert ToLower("OOD") == "ood";
  }

  /** Standardizing twice gives the same text as standardizing once. */
  lemma StandardizeIdempotent(s: string)
    ensures StandardizeString(StandardizeString(s)) == StandardizeString(s)
  {
    var r := StandardizeString(s);
    var rr := StandardizeString(r);
    assert forall i :: 1 <= i < |s| ==> rr[i] == LowerChar(LowerChar(s[i])) == r[i];
  }

  /** A plain object, as its entries in enumeration order; no key repeats. */
  predicate UniqueKeys<V>(entries: seq<(string, V)>) {
    forall i, j :: 0 <= i < j < |entries| ==> entries[i].0 != entries[j].0
  }

  /** `getKeys`: `Object.keys`. */
  function GetKeys<V>(entries: seq<(string, V)>): (keys: seq<string>)
    ensures |keys| == |entries| && forall i :: 0 <= i < |entries| ==> keys[i] == entries[i].0
  {
    seq(|entries|, i requires 0 <= i < |entries| => entries[i].0)
  }

  /** `getValues`: `Object.values`. */
  function GetValues<V>(entries: seq<(string, V)>): (values: seq<V>)
    ensures |values| == |entries| && forall i :: 0 <= i < |entries| ==> values[i] == entries[i].1
  {
    seq(|entries|, i requires 0 <= i < |entries| => entries[i].1)
  }

  /** The object as a dictionary. */
  function AsMap<V>(entries: seq<(string, V)>): map<string, V> {
    if |entries| == 0 then map[]
    else AsMap(entries[..|entries| - 1])[entries[|entries| - 1].0 := entries[|entries| - 1].1]
  }

  lemma {:induction false} AsMapLookup<V>(entries: seq<(string, V)>, i: nat)
    requires UniqueKeys(entries) && i < |entries|
    ensures entries[i].0 in AsMap(entries) && AsMap(entries)[entries[i].0] == entries[i].1
  {
    var n := |entries| - 1;
    if i < n {
      var front := entries[..n];
      assert front[i] == entries[i];
      assert UniqueKeys(front) by {
        forall a, b | 0 <= a < b < |front| ensures front[a].0 != front[b].0 {
          assert front[a] == entries[a] && front[b] == entries[b];
        }
      }
      AsMapLookup(front, i);
    }
  }

  /** Keys and values line up: the value at position i is the object's value for the key at
      position i, and the keys are the object's keys without repetition. */
  lemma KeysValuesAligned<V>(entries: seq<(string, V)>)
    requires UniqueKeys(entries)
    ensures |GetKeys(entries)| == |GetValues(entries)|
    ensures forall i :: 0 <= i < |entries| ==> GetKeys(entries)[i] in AsMap(entries) &&
                                               AsMap(entries)[GetKeys(entries)[i]] == GetValues(entries)[i]
  {
    forall i | 0 <= i < |entries|
      ensures GetKeys(entries)[i] in AsMap(entries) && AsMap(entries)[GetKeys(entries)[i]] == GetValues(entries)[i]
    {
      AsMapLookup(entries, i);
    }
  }
}
