/**
 * The amount validator shared by the four amount inputs (the pattern
 * `^\d*\.{0,1}\d{0,2}$`) and `parseFloat` on the texts it accepts.
 */
module AmountInput {
  import opened JsText

  /** The text splits at `k` into digits, then either nothing or a '.' and at most two digits. */
  predicate SplitsAt(s: string, k: int)
    requires 0 <= k <= |s|
  {
    AllDigits(s[..k]) && (k == |s| || (s[k] == '.' && AllDigits(s[k + 1..]) && |s| - (k + 1) <= 2))
  }

  /** The regular expression `^\d*\.{0,1}\d{0,2}$`, matched against the whole text:
      `\d*` takes the integer digits, the optional '.', and at most two more digits. */
  predicate AmountPattern(s: string) {
    exists k :: 0 <= k <= |s| && SplitsAt(s, k)
  }

  /** The index of the first character that is not a digit, or the length. */
  function FirstNonDigit(s: string): (k: nat)
    ensures k <= |s| && AllDigits(s[..k]) && (k < |s| ==> !IsDigit(s[k]))
  {
    if |s| == 0 || !IsDigit(s[0]) then 0
    else
      var k := 1 + FirstNonDigit(s[1..]);
      assert s[..k] == [s[0]] + s[1..][..k - 1];
      k
  }

  /** The pattern holds exactly when the text splits at its first non-digit. */
  lemma PatternAtFirstNonDigit(s: string)
    ensures AmountPattern(s) <==> SplitsAt(s, FirstNonDigit(s))
  {
    var k0 := FirstNonDigit(s);
    if AmountPattern(s) {
      var k :| 0 <= k <= |s| && SplitsAt(s, k);
    }
  }

  /** Character view of the pattern: every character is a digit or '.', at most one '.',
      and no more than two characters after it. */
  predicate DigitsAndOneDot(s: string) {
    && (forall i :: 0 <= i < |s| ==> IsDigit(s[i]) || s[i] == '.')
    && (forall i, j :: 0 <= i < j < |s| && s[i] == '.' ==> s[j] != '.')
    && (forall i :: 0 <= i < |s| && s[i] == '.' ==> |s| - (i + 1) <= 2)
  }

  lemma PatternIsDigitsAndOneDot(s: string)
    ensures AmountPattern(s) <==> DigitsAndOneDot(s)
  {
    if AmountPattern(s) {
      var k :| 0 <= k <= |s| && SplitsAt(s, k);
      forall i | 0 <= i < |s|
        ensures (IsDigit(s[i]) || s[i] == '.') && (i != k ==> IsDigit(s[i]))
      {
        if i < k {
          assert s[..k][i] == s[i];
        } else if i > k {
          assert s[k + 1..][i - (k + 1)] == s[i];
        }
      }
    }
    if DigitsAndOneDot(s) {
      if exists i :: 0 <= i < |s| && s[i] == '.' {
        var k :| 0 <= k < |s| && s[k] == '.';
        assert forall i :: 0 <= i < k ==> s[..k][i] == s[i] && s[i] != '.';
        forall j | k + 1 <= j < |s|
          ensures IsDigit(s[j])
        {
          assert s[k] == '.';
        }
        assert SplitsAt(s, k);
      } else {
        assert s[..|s|] == s;
        assert SplitsAt(s, |s|);
      }
    }
  }

  predicate HasDigit(s: string) {
    exists i :: 0 <= i < |s| && IsDigit(s[i])
  }

  /** The cents of a fraction part of at most two digits: "5" is 50, "05" is 5. */
  function FractionCents(f: string): (c: nat)
    requires AllDigits(f) && |f| <= 2
    ensures c < 100
  {
    if |f| == 0 then 0
    else if |f| == 1 then DigitValue(f[0]) * 10
    else DigitValue(f[0]) * 10 + DigitValue(f[1])
  }

  /** `parseFloat` on an amount text, in cents. Texts the pattern accepts and that hold
      a digit are read exactly; "", "." and everything else give NaN. */
  function ParseFloat(s: string): (x: JsNum)
    ensures x.Num? ==> x.v >= 0
    ensures x.Num? <==> AmountPattern(s) && HasDigit(s)
  {
    PatternAtFirstNonDigit(s);
    var k := FirstNonDigit(s);
    if SplitsAt(s, k) && HasDigit(s) then
      Num(DigitsValue(s[..k]) * 100 + (if k == |s| then 0 else FractionCents(s[k + 1..])))
    else NaN
  }

  /** A whole number of units reads as that many hundred cents. */
  lemma ParseFloatOfDigits(n: nat)
    ensures ParseFloat(NatToString(n)) == Num(n * 100)
  {
    var s := NatToString(n);
    assert FirstNonDigit(s) == |s|;
    assert s[..|s|] == s;
    assert IsDigit(s[0]);
    DigitsValueOfNatToString(n);
  }
  /** A position before which every character is a digit and at which there is none
      is the first non-digit. */
  lemma {:induction false} FirstNonDigitAt(s: string, k: nat)
    requires k <= |s| && AllDigits(s[..k]) && (k < |s| ==> !IsDigit(s[k]))
    ensures FirstNonDigit(s) == k
    decreases k
  {
    if k > 0 {
      assert s[0] == s[..k][0];
      assert s[1..][..k - 1] == s[1..k];
      assert forall i :: 0 <= i < k - 1 ==> s[1..k][i] == s[..k][i + 1];
      FirstNonDigitAt(s[1..], k - 1);
    }
  }

  /** Digits, a '.', and at most two digits read as the integer part in hundreds plus
      the fraction's cents. */
  lemma ParseSplit(s: string, a: string, f: string)
    requires AllDigits(a) && AllDigits(f) && |f| <= 2 && |a| + |f| >= 1
    requires s == a + "." + f
    ensures ParseFloat(s) == Num(DigitsValue(a) * 100 + FractionCents(f))
  {
    var k := |a|;
    assert s[..k] == a;
    assert s[k + 1..] == f;
    assert s[k] == '.';
    FirstNonDigitAt(s, k);
    assert SplitsAt(s, k);
    assert HasDigit(s) by {
      var i := if |a| >= 1 then 0 else 1;
      assert IsDigit(s[i]);
    }
  }

  /** A two-digit fraction reads as its own value in cents. */
  lemma FractionOfPadded(c: nat)
    requires c < 100
    ensures AllDigits(PadStart2(NatToString(c))) && |PadStart2(NatToString(c))| == 2
    ensures FractionCents(PadStart2(NatToString(c))) == c
  {
    var t := NatToString(c);
    var f := PadStart2(t);
    if c < 10 {
      assert f == "0" + t;
      DigitsValueLeadingZero(t);
    }
    DigitsValueOfNatToString(c);
    assert f[..1] == [f[0]];
    assert DigitsValue(f) == DigitValue(f[0]) * 10 + DigitValue(f[1]);
  }

  /** The text of n units and c cents, written "n.cc", reads back as n * 100 + c cents. */
  lemma ParseFloatOfCents(n: nat, c: nat)
    requires c < 100
    ensures ParseFloat(NatToString(n) + "." + PadStart2(NatToString(c))) == Num(n * 100 + c)
  {
    FractionOfPadded(c);
    ParseSplit(NatToString(n) + "." + PadStart2(NatToString(c)), NatToString(n), PadStart2(NatToString(c)));
    DigitsValueOfNatToString(n);
  }

  /** One digit after the '.' counts tenths: "n.d" is n * 100 + 10 * d cents. */
  lemma ParseFloatOfTenths(n: nat, d: nat)
    requires d < 10
    ensures ParseFloat(NatToString(n) + "." + [DigitChar(d)]) == Num(n * 100 + 10 * d)
  {
    ParseSplit(NatToString(n) + "." + [DigitChar(d)], NatToString(n), [DigitChar(d)]);
    DigitsValueOfNatToString(n);
  }

  /** Without integer digits, ".de" is 10 * d + e cents. */
  lemma ParseFloatOfFraction(d: nat, e: nat)
    requires d < 10 && e < 10
    ensures ParseFloat(['.', DigitChar(d), DigitChar(e)]) == Num(10 * d + e)
  {
    var f := [DigitChar(d), DigitChar(e)];
    assert ['.', DigitChar(d), DigitChar(e)] == "" + "." + f;
    ParseSplit(['.', DigitChar(d), DigitChar(e)], "", f);
  }

  /** A trailing '.' adds nothing: "n." is n * 100 cents. */
  lemma ParseFloatTrailingDot(n: nat)
    ensures ParseFloat(NatToString(n) + ".") == Num(n * 100)
  {
    ParseSplit(NatToString(n) + ".", NatToString(n), "");
    DigitsValueOfNatToString(n);
  }
}
