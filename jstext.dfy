/**
 * The small part of JavaScript's number and string semantics the front end
 * relies on: unary `+` on text, number-to-text, `split`, `padStart`,
 * `slice`, `charAt`, and ASCII case mapping.
 */
module JsText {

  /** A JavaScript number as the model sees it: an integer in the unit of the
      field that holds it (plain units for date parts, cents for amounts), or NaN. */
  datatype JsNum = Num(v: int) | NaN

  predicate IsDigit(c: char) { '0' <= c <= '9' }

  predicate AllDigits(s: string) {
    forall i :: 0 <= i < |s| ==> IsDigit(s[i])
  }

  function DigitChar(d: nat): (c: char)
    requires d < 10
    ensures IsDigit(c)
  {
    ('0' as int + d) as char
  }

  function DigitValue(c: char): (d: nat)
    requires IsDigit(c)
    ensures d < 10
  {
    c as int - '0' as int
  }

  /** Decimal text of a natural number, without leading zeros. */
  function NatToString(n: nat): (s: string)
    ensures |s| >= 1 && AllDigits(s)
    ensures n < 10 <==> |s| == 1
    decreases n
  {
    if n < 10 then [DigitChar(n)] else NatToString(n / 10) + [DigitChar(n % 10)]
  }

  /** The value of a digit string; the empty string reads as 0. */
  function DigitsValue(s: string): nat
    requires AllDigits(s)
  {
    if s == [] then 0 else DigitsValue(s[..|s| - 1]) * 10 + DigitValue(s[|s| - 1])
  }

  lemma {:induction false} DigitsValueOfNatToString(n: nat)
    ensures DigitsValue(NatToString(n)) == n
    decreases n
  {
    if n >= 10 {
      var s := NatToString(n);
      assert s[..|s| - 1] == NatToString(n / 10);
      DigitsValueOfNatToString(n / 10);
    }
  }

  /** Leading zeros do not change the value: `+"05"` is 5. */
  lemma {:induction false} DigitsValueLeadingZero(s: string)
    requires AllDigits(s)
    ensures AllDigits("0" + s) && DigitsValue("0" + s) == DigitsValue(s)
    decreases |s|
  {
    var t := "0" + s;
    if s != [] {
      assert t[..|t| - 1] == "0" + s[..|s| - 1];
      DigitsValueLeadingZero(s[..|s| - 1]);
    }
  }

  /** `${n}` for an integer number: a '-' exactly for a negative number, then the
      digits of its magnitude. */
  function IntToString(n: int): (r: string)
    ensures |r| >= 1 && (r[0] == '-' <==> n < 0)
    ensures n < 0 ==> |r| >= 2 && AllDigits(r[1..])
    ensures n >= 0 ==> AllDigits(r)
  {
    if n < 0 then "-" + NatToString(-n) else NatToString(n)
  }

  /** `${x}` / `x.toString()` for a JavaScript number: a number's text starts with
      a sign or a digit, and NaN's does not. */
  function NumToString(x: JsNum): (r: string)
    ensures |r| >= 1
    ensures x.NaN? <==> !(r[0] == '-' || IsDigit(r[0]))
  {
    match x
    case Num(v) => IntToString(v)
    case NaN => "NaN"
  }

  /** The digits after an integer's optional '-' read back as its magnitude. */
  lemma IntTextRoundTrip(n: int)
    ensures n >= 0 ==> ToNumber(IntToString(n)) == Num(n)
    ensures n < 0 ==> ToNumber(IntToString(n)[1..]) == Num(-n)
  {
    if n < 0 {
      var t := NatToString(-n);
      assert IntToString(n) == "-" + t;
      assert ("-" + t)[1..] == t;
      DigitsValueOfNatToString(-n);
    } else {
      assert IntToString(n) == NatToString(n);
      DigitsValueOfNatToString(n);
    }
  }

  /** Unary `+` on text as the model reads it: the empty string is 0, a digit
      string is its decimal value, anything else is NaN. */
  function ToNumber(s: string): (x: JsNum)
    ensures x.Num? ==> x.v >= 0
  {
    if AllDigits(s) then Num(DigitsValue(s)) else NaN
  }

  /** A number that is NaN or non-negative reads back from its own text. */
  lemma NumTextRoundTrip(x: JsNum)
    requires x.NaN? || x.v >= 0
    ensures ToNumber(NumToString(x)) == x
  {
    if x.Num? {
      DigitsValueOfNatToString(x.v);
    } else {
      assert !IsDigit(NumToString(x)[0]);
    }
  }

  /** `s.padStart(2, '0')`. */
  function PadStart2(s: string): (r: string)
    ensures |s| >= 2 ==> r == s
    ensures |s| < 2 ==> |r| == 2 && r[2 - |s|..] == s
    ensures forall i :: 0 <= i < 2 - |s| ==> r[i] == '0'
  {
    if |s| == 0 then "00" else if |s| == 1 then "0" + s else s
  }

  /** Padding a number's text with zeros does not change its value. */
  lemma PaddedNumTextRoundTrip(x: JsNum)
    requires x.NaN? || x.v >= 0
    ensures ToNumber(PadStart2(NumToString(x))) == x
  {
    NumTextRoundTrip(x);
    var s := NumToString(x);
    if x.Num? && |s| < 2 {
      DigitsValueLeadingZero(s);
      assert PadStart2(s) == "0" + s;
    }
  }

  /** `s.split(sep)` for a one-character separator. */
  function Split(s: string, sep: char): (parts: seq<string>)
    ensures |parts| >= 1
    decreases |s|
  {
    if |s| == 0 then [""]
    else
      var rest := Split(s[1..], sep);
      if s[0] == sep then [""] + rest else [[s[0]] + rest[0]] + rest[1..]
  }

  lemma {:induction false} SplitFree(a: string, sep: char)
    requires sep !in a
    ensures Split(a, sep) == [a]
    decreases |a|
  {
    if |a| > 0 {
      SplitFree(a[1..], sep);
      assert [a[0]] + a[1..] == a;
    }
  }

  /** Splitting `a + sep + b` where `a` holds no separator gives `a` and then the parts of `b`. */
  lemma {:induction false} SplitCons(a: string, sep: char, b: string)
    requires sep !in a
    ensures Split(a + [sep] + b, sep) == [a] + Split(b, sep)
    decreases |a|
  {
    var s := a + [sep] + b;
    if |a| == 0 {
      assert s[1..] == b;
    } else {
      assert s[1..] == a[1..] + [sep] + b;
      SplitCons(a[1..], sep, b);
      assert [a[0]] + a[1..] == a;
    }
  }

  lemma Split3(a: string, b: string, c: string, sep: char)
    requires sep !in a && sep !in b && sep !in c
    ensures Split(a + [sep] + b + [sep] + c, sep) == [a, b, c]
  {
    var rest := b + [sep] + c;
    assert a + [sep] + b + [sep] + c == a + [sep] + rest;
    SplitCons(a, sep, rest);
    Split2(b, c, sep);
  }

  lemma Split2(a: string, b: string, sep: char)
    requires sep !in a && sep !in b
    ensures Split(a + [sep] + b, sep) == [a, b]
  {
    SplitCons(a, sep, b);
    SplitFree(b, sep);
  }

  /** The parts joined back with the separator between them. */
  function Join(parts: seq<string>, sep: char): string
    requires |parts| >= 1
  {
    if |parts| == 1 then parts[0] else parts[0] + [sep] + Join(parts[1..], sep)
  }

  /** Splitting loses nothing: joining the parts gives the text back, and no part holds
      the separator. */
  lemma {:induction false} SplitJoin(s: string, sep: char)
    ensures Join(Split(s, sep), sep) == s
    ensures forall k :: 0 <= k < |Split(s, sep)| ==> sep !in Split(s, sep)[k]
    decreases |s|
  {
    if |s| > 0 {
      var rest := Split(s[1..], sep);
      SplitJoin(s[1..], sep);
      if s[0] == sep {
        assert Split(s, sep) == [""] + rest;
        assert Split(s, sep)[1..] == rest;
      } else {
        var parts := Split(s, sep);
        assert parts == [[s[0]] + rest[0]] + rest[1..];
        assert parts[1..] == rest[1..];
        if |rest| > 1 {
          assert Join(rest, sep) == rest[0] + [sep] + Join(rest[1..], sep);
        }
        assert forall k :: 1 <= k < |parts| ==> parts[k] == rest[k];
      }
    }
  }

  /** `s.slice(a, b)` for non-negative bounds: both are clamped to the length. */
  function Slice(s: string, a: nat, b: nat): (r: string)
    ensures |r| <= |s|
    ensures a <= b <= |s| ==> r == s[a..b]
  {
    var lo := if a < |s| then a else |s|;
    var hi := if b < |s| then b else |s|;
    if lo < hi then s[lo..hi] else ""
  }

  /** `s.charAt(0)`: the first character, or "" for the empty string. */
  function CharAt0(s: string): (r: string)
    ensures |r| == if |s| == 0 then 0 else 1
  {
    if |s| == 0 then "" else [s[0]]
  }

  function UpperChar(c: char): char {
    if 'a' <= c <= 'z' then (c as int - 32) as char else c
  }

  function LowerChar(c: char): char {
    if 'A' <= c <= 'Z' then (c as int + 32) as char else c
  }

  /** `s.toUpperCase()` on ASCII letters; other characters pass through. */
  function ToUpper(s: string): (r: string)
    ensures |r| == |s|
    ensures forall i :: 0 <= i < |s| ==> r[i] == UpperChar(s[i])
  {
    seq(|s|, i requires 0 <= i < |s| => UpperChar(s[i]))
  }

  /** `s.toLowerCase()` on ASCII letters; other characters pass through. */
  function ToLower(s: string): (r: string)
    ensures |r| == |s|
    ensures forall i :: 0 <= i < |s| ==> r[i] == LowerChar(s[i])
  {
    seq(|s|, i requires 0 <= i < |s| => LowerChar(s[i]))
  }

  /** Text with no lower-case ASCII letter is its own upper-case form. */
  lemma ToUpperOfUpper(s: string)
    requires forall i :: 0 <= i < |s| ==> !('a' <= s[i] <= 'z')
    ensures ToUpper(s) == s
  {
  }

  /** `a + b` on numbers: NaN absorbs. */
  function Add(a: JsNum, b: JsNum): (r: JsNum)
    ensures r.Num? <==> a.Num? && b.Num?
    ensures r.Num? ==> r.v == a.v + b.v
  {
    if a.Num? && b.Num? then Num(a.v + b.v) else NaN
  }

  /** `a - b` on numbers: NaN absorbs. */
  function Sub(a: JsNum, b: JsNum): (r: JsNum)
    ensures r.Num? <==> a.Num? && b.Num?
    ensures r.Num? ==> r.v == a.v - b.v
  {
    if a.Num? && b.Num? then Num(a.v - b.v) else NaN
  }
}
