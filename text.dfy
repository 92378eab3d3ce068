/** Text rules the service applies to the values it receives from the stats
    provider and to the numbers it writes into its messages: strings of
    decimal digits, the part of a string before its first '.', plain decimal
    literals, and the decimal rendering of an integer. */
module Text {

  predicate IsDigit(c: char) { '0' <= c <= '9' }

  predicate IsDigits(s: string) { forall i :: 0 <= i < |s| ==> IsDigit(s[i]) }

  function DigitValue(c: char): (d: nat)
    requires IsDigit(c)
    ensures d < 10
  {
    c as int - '0' as int
  }

  function DigitChar(d: nat): (c: char)
    requires d < 10
    ensures IsDigit(c) && DigitValue(c) == d
  {
    ('0' as int + d) as char
  }

  function Pow10(n: nat): (p: nat)
    ensures p >= 1
  {
    if n == 0 then 1 else 10 * Pow10(n - 1)
  }

  /** The value of a string of decimal digits, most significant digit first.
      An n-digit string denotes less than 10^n. */
  function DigitsValue(s: string): (v: nat)
    requires IsDigits(s)
    ensures v < Pow10(|s|)
  {
    if s == [] then 0
    else
      var v0 := DigitsValue(s[..|s| - 1]);
      assert v0 + 1 <= Pow10(|s| - 1);
      10 * v0 + DigitValue(s[|s| - 1])
  }

  lemma DigitsValueSnoc(s: string, c: char)
    requires IsDigits(s) && IsDigit(c)
    ensures IsDigits(s + [c]) && DigitsValue(s + [c]) == 10 * DigitsValue(s) + DigitValue(c)
  {
    assert (s + [c])[..|s|] == s;
  }

  /** A leading zero does not change the value: int("007") is 7. */
  lemma {:induction false} LeadingZero(s: string)
    requires IsDigits(s)
    ensures IsDigits("0" + s) && DigitsValue("0" + s) == DigitsValue(s)
  {
    if s == [] {
      assert "0" + s == "0";
    } else {
      var init, last := s[..|s| - 1], s[|s| - 1];
      LeadingZero(init);
      assert "0" + s == ("0" + init) + [last];
      assert s == init + [last];
      DigitsValueSnoc("0" + init, last);
      DigitsValueSnoc(init, last);
    }
  }

  /** The text before the first '.', or all of `s` when it has none; this is
      Python's `s.split(".")[0]`. The three postconditions pin the result
      down completely (see BeforeDotUnique). */
  function BeforeDot(s: string): (r: string)
    ensures r <= s
    ensures '.' !in r
    ensures |r| < |s| ==> s[|r|] == '.'
  {
    if s == [] || s[0] == '.' then [] else [s[0]] + BeforeDot(s[1..])
  }

  /** Any prefix free of '.' that stops at a '.' or at the end is BeforeDot(s). */
  lemma BeforeDotUnique(s: string, r: string)
    requires r <= s && '.' !in r
    requires |r| < |s| ==> s[|r|] == '.'
    ensures r == BeforeDot(s)
  {
  }

  /** Whole digits before the dot, digits after it; a lone "." is no number.
      These are the decimal literals Python's float() accepts that carry
      no sign, exponent or surrounding blanks. */
  predicate IsDecimal(s: string)
  {
    var w := BeforeDot(s);
    && IsDigits(w)
    && (|w| == |s| ==> |w| > 0)
    && (|w| < |s| ==> |s| > 1 && IsDigits(s[|w| + 1..]))
  }

  /** The digits after the dot (empty when there is no dot). */
  function Fraction(s: string): (f: string)
    ensures |BeforeDot(s)| < |s| ==> s == BeforeDot(s) + "." + f
    ensures |BeforeDot(s)| == |s| ==> f == []
  {
    var w := BeforeDot(s);
    if |w| < |s| then s[|w| + 1..] else []
  }

  /** The number written with whole digits w and fraction digits f. */
  function DecimalValue(w: string, f: string): (x: real)
    requires IsDigits(w) && IsDigits(f)
    ensures 0.0 <= x
  {
    DigitsValue(w) as real + DigitsValue(f) as real / Pow10(|f|) as real
  }

  /** The exact value of a decimal literal: its whole part plus its fraction. */
  function ParseDecimal(s: string): (x: real)
    requires IsDecimal(s)
    ensures 0.0 <= x
  {
    DecimalValue(BeforeDot(s), Fraction(s))
  }

  /** The whole part of a decimal literal is the floor of its value: the
      fraction adds less than one. */
  lemma WholePartIsFloor(s: string)
    requires IsDecimal(s)
    ensures IsDigits(BeforeDot(s))
    ensures DigitsValue(BeforeDot(s)) as real <= ParseDecimal(s) < DigitsValue(BeforeDot(s)) as real + 1.0
  {
    var f := Fraction(s);
    ProperFraction(DigitsValue(f), Pow10(|f|));
    assert ParseDecimal(s) == DigitsValue(BeforeDot(s)) as real + DigitsValue(f) as real / Pow10(|f|) as real;
  }

  lemma ProperFraction(num: nat, den: nat)
    requires num < den
    ensures 0.0 <= num as real / den as real < 1.0
  {
    var x := num as real / den as real;
    assert x * den as real == num as real;
  }

  lemma DigitsHaveNoDot(w: string)
    requires IsDigits(w)
    ensures '.' !in w
  {
    forall i | 0 <= i < |w| ensures w[i] != '.' {
      assert IsDigit(w[i]);
    }
  }

  /** In `w.f` with no dot in w, the text before the first dot is w. */
  lemma SplitAtDot(w: string, f: string)
    requires '.' !in w
    ensures BeforeDot(w + "." + f) == w && Fraction(w + "." + f) == f
  {
    var s := w + "." + f;
    assert w <= s && s[|w|] == '.';
    BeforeDotUnique(s, w);
    assert s[|w| + 1..] == f;
  }

  /** Whole digits, a dot and fraction digits read as the whole part plus
      the fraction over the matching power of ten. */
  lemma DecimalWithFraction(w: string, f: string)
    requires IsDigits(w) && |w| > 0 && IsDigits(f)
    ensures BeforeDot(w + "." + f) == w && Fraction(w + "." + f) == f
    ensures IsDecimal(w + "." + f)
    ensures ParseDecimal(w + "." + f) == DecimalValue(w, f)
  {
    DigitsHaveNoDot(w);
    SplitAtDot(w, f);
  }

  /** A literal without a dot is read as the integer its digits denote. */
  lemma DotlessDecimal(s: string)
    requires IsDigits(s) && |s| > 0
    ensures BeforeDot(s) == s && IsDecimal(s) && ParseDecimal(s) == DigitsValue(s) as real
  {
    assert '.' !in s by {
      forall i | 0 <= i < |s| ensures s[i] != '.' {
        assert IsDigit(s[i]);
      }
    }
    BeforeDotUnique(s, s);
  }

  /** The decimal digits of a natural number, without leading zeros;
      Python's str() of a non-negative int. */
  function NatText(n: nat): (s: string)
    ensures IsDigits(s) && |s| > 0
    ensures s[0] == '0' ==> n == 0
  {
    if n < 10 then [DigitChar(n)] else NatText(n / 10) + [DigitChar(n % 10)]
  }

  /** Python's str() of an int: a '-' before the digits of a negative one. */
  function IntText(i: int): (s: string)
    ensures |s| > 0
    ensures i >= 0 ==> IsDigits(s)
    ensures i < 0 ==> s[0] == '-' && IsDigits(s[1..])
  {
    if i < 0 then "-" + NatText(-i) else NatText(i)
  }

  /** Reading back the rendered digits gives the number. */
  lemma {:induction false} NatTextRoundTrip(n: nat)
    ensures DigitsValue(NatText(n)) == n
  {
    if n >= 10 {
      NatTextRoundTrip(n / 10);
      DigitsValueSnoc(NatText(n / 10), DigitChar(n % 10));
    }
  }

  /** A digit string that is not 0-padded is the rendering of its value. */
  lemma {:induction false} DigitsRoundTrip(s: string)
    requires IsDigits(s) && |s| > 0
    requires s[0] == '0' ==> |s| == 1
    ensures NatText(DigitsValue(s)) == s
  {
    var init, last := s[..|s| - 1], s[|s| - 1];
    assert s == init + [last];
    if |s| > 1 {
      DigitsValueBelow(init);
      DigitsRoundTrip(init);
      var v := DigitsValue(s);
      assert v == 10 * DigitsValue(init) + DigitValue(last);
      assert v / 10 == DigitsValue(init) && v % 10 == DigitValue(last);
      assert DigitChar(v % 10) == last;
    }
  }

  /** A digit string with a non-zero leading digit denotes at least 10^(n-1). */
  lemma {:induction false} DigitsValueBelow(s: string)
    requires IsDigits(s) && |s| > 0 && s[0] != '0'
    ensures DigitsValue(s) >= Pow10(|s| - 1)
  {
    if |s| > 1 {
      var init := s[..|s| - 1];
      assert init[0] == s[0];
      DigitsValueBelow(init);
    }
  }
}
