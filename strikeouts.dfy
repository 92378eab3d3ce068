/** get_strikeout_predictions: one strikeout prop per configured pitcher,
    in list order. The list (with its betting lines and odds) is a
    parameter, and the per-pitcher stats request is replaced by `fetch`,
    the provider's decoded reply for each pitcher id. */
module Strikeouts {
  import opened Text
  import opened Provider
  import opened Rounding

  /** A configured pitcher: provider id, name, team, betting line and odds. */
  datatype PropEntry = PropEntry(id: int, name: string, team: string, line: string, odds: string)

  /** Strikeouts per game as a whole number of tenths, or the "-" sentinel. */
  datatype Average = Tenths(tenths: int) | Dash

  datatype StrikeoutProp = StrikeoutProp(
    name: string, pick: string, line: string, average: Average, recentStats: string)

  const DefaultGames := Int(1)
  const LimitedSummary := "Limited data available for this season."

  /** The reply can be read without raising: the coercions succeed and the
      games-played count is not 0 (which would raise ZeroDivisionError). */
  predicate PropReady(r: StatsResponse)
  {
    && HasFirstGroup(r)
    && (FirstSplit(r).Some? ==>
          var s := FirstSplit(r).value;
          && CanInt(s.strikeOuts.GetOr(DefaultStrikeOuts))
          && CanInt(s.gamesPlayed.GetOr(DefaultGames))
          && ToInt(s.gamesPlayed.GetOr(DefaultGames)) != 0)
  }

  /** `round(so / games, 1)` in tenths: within a twentieth of the exact
      ratio, an exact half going to the even tenth. */
  function AverageTenths(so: int, games: int): (t: int)
    requires games != 0
    ensures so as real / games as real - 0.05 <= t as real / 10.0 <= so as real / games as real + 0.05
    ensures (t as real / 10.0 == so as real / games as real - 0.05
             || t as real / 10.0 == so as real / games as real + 0.05) ==> t % 2 == 0
  {
    RoundTenths(so as real / games as real)
  }

  /** How Python writes a float with one decimal: digits, a dot, one digit. */
  function TenthsText(t: int): (s: string)
    ensures t >= 0 ==> s == NatText(t / 10) + "." + [DigitChar(t % 10)]
  {
    (if t < 0 then "-" else "") + NatText(if t < 0 then -t / 10 else t / 10)
      + "." + [DigitChar(if t < 0 then -t % 10 else t % 10)]
  }

  /** The text written for a non-negative average reads back as its value. */
  lemma TenthsTextReadsBack(t: nat)
    ensures IsDecimal(TenthsText(t)) && ParseDecimal(TenthsText(t)) == t as real / 10.0
  {
    var w, f := NatText(t / 10), [DigitChar(t % 10)];
    DecimalWithFraction(w, f);
    NatTextRoundTrip(t / 10);
    assert DigitsValue(f) == t % 10 by { DigitsValueSnoc([], f[0]); assert [] + f == f; }
    assert Pow10(1) == 10;
  }

  /** The body of the loop over the configured pitchers. */
  function Prop(p: PropEntry, r: StatsResponse): (sp: StrikeoutProp)
    requires PropReady(r)
    ensures sp.name == p.name && sp.pick == p.line && sp.line == p.odds
    ensures sp.average.Dash? <==> FirstSplit(r).None?
    ensures sp.average.Dash? ==> sp.recentStats == LimitedSummary
  {
    match FirstSplit(r)
    case None => StrikeoutProp(p.name, p.line, p.odds, Dash, LimitedSummary)
    case Some(s) =>
      var so := ToInt(s.strikeOuts.GetOr(DefaultStrikeOuts));
      var games := ToInt(s.gamesPlayed.GetOr(DefaultGames));
      var avg := AverageTenths(so, games);
      StrikeoutProp(p.name, p.line, p.odds, Tenths(avg),
        "Averaging " + TenthsText(avg) + " Ks over " + IntText(games)
        + " games. Facing a team in the bottom 10 of K%.")
  }

  /** With a split: the average is strikeouts per game to the nearest tenth
      (an exact half going to the even tenth) and the summary quotes that average and the games count. */
  lemma PropFromSplit(p: PropEntry, r: StatsResponse)
    requires PropReady(r) && FirstSplit(r).Some?
    ensures var s := FirstSplit(r).value;
            var so := ToInt(s.strikeOuts.GetOr(DefaultStrikeOuts)) as real;
            var games := ToInt(s.gamesPlayed.GetOr(DefaultGames));
            var sp := Prop(p, r);
            && sp.average.Tenths?
            && so / games as real - 0.05 <= sp.average.tenths as real / 10.0 <= so / games as real + 0.05
            && ((sp.average.tenths as real / 10.0 == so / games as real - 0.05
                 || sp.average.tenths as real / 10.0 == so / games as real + 0.05) ==> sp.average.tenths % 2 == 0)
            && sp.recentStats == "Averaging " + TenthsText(sp.average.tenths) + " Ks over "
                 + IntText(games) + " games. Facing a team in the bottom 10 of K%."
  {
  }

  /** 13 strikeouts over 4 games is 3.25, which rounds half-to-even to 3.2. */
  lemma ThirteenOverFour()
    ensures AverageTenths(13, 4) == 32 && TenthsText(32) == "3.2"
  {
    RoundHalfEvenUnique(32.5, 32);
    assert NatText(3) == "3";
  }

  /** A split without gamesPlayed counts one game: the average is the whole
      strikeout total. */
  lemma GamesDefaultToOne(p: PropEntry, r: StatsResponse, so: int)
    requires HasFirstGroup(r) && FirstSplit(r).Some?
    requires FirstSplit(r).value.strikeOuts == Some(Int(so)) && FirstSplit(r).value.gamesPlayed.None?
    ensures PropReady(r)
    ensures Prop(p, r).average == Tenths(10 * so)
    ensures Prop(p, r).recentStats
      == "Averaging " + TenthsText(10 * so) + " Ks over " + "1" + " games. Facing a team in the bottom 10 of K%."
  {
    assert so as real / 1 as real * 10.0 == (10 * so) as real;
    RoundInteger(10 * so);
    assert IntText(1) == "1";
  }

  /** No split: the "-" sentinel and the limited-data summary. */
  lemma PropWithoutSplit(p: PropEntry, r: StatsResponse)
    requires HasFirstGroup(r) && FirstSplit(r).None?
    ensures PropReady(r)
    ensures Prop(p, r) == StrikeoutProp(p.name, p.line, p.odds, Dash, "Limited data available for this season.")
  {
  }

  /** The first |results| pitchers have their props, in order. */
  ghost predicate PropsPrefix(results: seq<StrikeoutProp>, pitchers: seq<PropEntry>, fetch: int -> StatsResponse)
  {
    && |results| <= |pitchers|
    && forall k :: 0 <= k < |results| ==>
         PropReady(fetch(pitchers[k].id)) && results[k] == Prop(pitchers[k], fetch(pitchers[k].id))
  }

  lemma PropsPrefixSnoc(results: seq<StrikeoutProp>, pitchers: seq<PropEntry>, fetch: int -> StatsResponse)
    requires PropsPrefix(results, pitchers, fetch) && |results| < |pitchers|
    requires PropReady(fetch(pitchers[|results|].id))
    ensures PropsPrefix(results + [Prop(pitchers[|results|], fetch(pitchers[|results|].id))], pitchers, fetch)
  {
    var next := results + [Prop(pitchers[|results|], fetch(pitchers[|results|].id))];
    forall k | 0 <= k < |next|
      ensures PropReady(fetch(pitchers[k].id)) && next[k] == Prop(pitchers[k], fetch(pitchers[k].id))
    {
      if k < |results| {
        assert next[k] == results[k];
      }
    }
  }

  /** get_strikeout_predictions: one prop per configured pitcher, in order. */
  method StrikeoutProps(pitchers: seq<PropEntry>, fetch: int -> StatsResponse) returns (results: seq<StrikeoutProp>)
    requires forall k :: 0 <= k < |pitchers| ==> PropReady(fetch(pitchers[k].id))
    ensures |results| == |pitchers|
    ensures forall k :: 0 <= k < |results| ==> results[k] == Prop(pitchers[k], fetch(pitchers[k].id))
  {
    results := [];
    var i := 0;
    while i < |pitchers|
      invariant 0 <= i <= |pitchers|
      invariant |results| == i
      invariant PropsPrefix(results, pitchers, fetch)
    {
      var entry := pitchers[i];
      PropsPrefixSnoc(results, pitchers, fetch);
      results := results + [Prop(entry, fetch(entry.id))];
      i := i + 1;
    }
  }
}
