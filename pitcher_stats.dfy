/** get_pitcher_stats: a pitcher's season line, normalised to three numbers
    with a default for every piece the provider leaves out. The HTTP request
    is not modelled: the function receives the decoded reply. */
module PitcherStats {
  import opened Text
  import opened Provider

  /** The normalised record: `era` and `inningsPitched` are Python floats,
      `strikeOuts` an int; innings pitched is always a whole number. */
  datatype PitchingLine = PitchingLine(era: real, strikeOuts: int, inningsPitched: nat)

  /** What a reply without any split yields. */
  const DefaultLine := PitchingLine(99.0, 0, 0)

  const DefaultEra := Int(99)
  const DefaultInnings := Str("0")

  /** `float(s.split(".")[0])` succeeds: the value is a string (only strings
      have `.split`) whose text before the first '.' is a number. */
  predicate InningsReady(v: Scalar)
  {
    v.Str? && CanFloat(Str(BeforeDot(v.s)))
  }

  /** `float(t.split(".")[0])`: the innings before the dot; whatever follows
      the dot (the partial inning) is dropped. */
  function Innings(t: string): (ip: nat)
    requires InningsReady(Str(t))
    ensures ip as real == ToFloat(Str(BeforeDot(t)))
  {
    var w := BeforeDot(t);
    DotlessDecimal(w);
    DigitsValue(w)
  }

  /** Every coercion of a present split succeeds. */
  predicate PitchingReady(s: StatFields)
  {
    && CanFloat(s.era.GetOr(DefaultEra))
    && CanInt(s.strikeOuts.GetOr(DefaultStrikeOuts))
    && InningsReady(s.inningsPitched.GetOr(DefaultInnings))
  }

  /** The record built from the first split: each field is coerced from its
      own key, and each missing key takes its own default. */
  function Normalize(s: StatFields): (p: PitchingLine)
    requires PitchingReady(s)
    ensures s.era.None? ==> p.era == 99.0
    ensures s.strikeOuts.None? ==> p.strikeOuts == 0
    ensures s.inningsPitched.None? ==> p.inningsPitched == 0
    ensures s.era.Some? ==> p.era == ToFloat(s.era.value)
    ensures s.strikeOuts.Some? ==> p.strikeOuts == ToInt(s.strikeOuts.value)
    ensures s.inningsPitched.Some? ==> p.inningsPitched == Innings(s.inningsPitched.value.s)
  {
    assert Innings("0") == 0 by { DotlessDecimal("0"); }
    PitchingLine(
      ToFloat(s.era.GetOr(DefaultEra)),
      ToInt(s.strikeOuts.GetOr(DefaultStrikeOuts)),
      Innings(s.inningsPitched.GetOr(DefaultInnings).s))
  }

  /** The reply can be read without raising. */
  predicate StatsReady(r: StatsResponse)
  {
    HasFirstGroup(r) && (FirstSplit(r).Some? ==> PitchingReady(FirstSplit(r).value))
  }

  /** get_pitcher_stats on a decoded reply. */
  function GetPitcherStats(r: StatsResponse): (p: PitchingLine)
    requires StatsReady(r)
    ensures FirstSplit(r).None? ==> p == DefaultLine
    ensures FirstSplit(r).Some? ==> p == Normalize(FirstSplit(r).value)
  {
    match FirstSplit(r)
    case None => DefaultLine
    case Some(s) => Normalize(s)
  }

  /** A split that lacks every key and a reply with no split at all give the
      same record: the field defaults agree with the all-default record. */
  lemma EmptySplitIsDefault()
    ensures PitchingReady(NoFields) && Normalize(NoFields) == DefaultLine
  {
    DotlessDecimal("0");
  }

  /** Each of the three shapes of "no split" gives the all-default record. */
  lemma NoSplitGivesDefault(g: StatsGroup)
    requires g.splits.None? || g.splits.value == []
    ensures GetPitcherStats(StatsResponse(None)) == DefaultLine
    ensures GetPitcherStats(StatsResponse(Some([g]))) == DefaultLine
  {
  }

  /** Innings pitched is the whole part of the provider's figure: partial
      innings are dropped, never rounded up. */
  lemma InningsTruncates(t: string)
    requires IsDecimal(t) && |BeforeDot(t)| > 0
    ensures InningsReady(Str(t))
    ensures Innings(t) as real <= ParseDecimal(t) < Innings(t) as real + 1.0
  {
    DotlessDecimal(BeforeDot(t));
    WholePartIsFloor(t);
  }

  /** The text after the first '.' is never looked at. */
  lemma InningsIgnoresFraction(w: string, u: string)
    requires IsDigits(w) && |w| > 0
    ensures InningsReady(Str(w + "." + u)) && InningsReady(Str(w))
    ensures Innings(w + "." + u) == Innings(w) == DigitsValue(w)
  {
    var t := w + "." + u;
    DigitsHaveNoDot(w);
    SplitAtDot(w, u);
    DotlessDecimal(w);
    assert BeforeDot(t) == BeforeDot(w) == w;
    assert Innings(t) as real == ParseDecimal(w) == DigitsValue(w) as real;
    assert Innings(w) as real == ParseDecimal(w);
  }

  /** "123.2" (123 and two thirds) counts 123 innings. */
  lemma InningsOfPartialFigure()
    ensures InningsReady(Str("123.2")) && Innings("123.2") == 123
  {
    assert "123" + "." + "2" == "123.2";
    assert IsDigits("123") && DigitsValue("123") == 123;
    InningsIgnoresFraction("123", "2");
  }

  /** A figure without a dot is read whole. */
  lemma InningsOfDigits(w: string)
    requires IsDigits(w) && |w| > 0
    ensures InningsReady(Str(w)) && Innings(w) == DigitsValue(w)
  {
    DotlessDecimal(w);
  }
}
