/** get_game_predictions: one prediction per scheduled game, in the order
    the provider lists dates and the games within each date. The schedule
    request and the per-pitcher stats requests are not modelled: the method
    receives the decoded schedule and, as `fetch`, the provider's reply for
    each pitcher id. */
module Games {
  import opened Text
  import opened Provider
  import opened PitcherStats
  import opened Rounding
  import opened Scoring

  /** `teams.<side>.probablePitcher`: both keys may be missing. */
  datatype Pitcher = Pitcher(fullName: Option<string>, id: Option<int>)

  /** `teams.<side>`: the team's name and its probable pitcher, if announced. */
  datatype TeamSide = TeamSide(teamName: string, probablePitcher: Option<Pitcher>)

  datatype Game = Game(away: TeamSide, home: TeamSide)

  datatype DateEntry = DateEntry(games: Option<seq<Game>>)

  datatype Schedule = Schedule(dates: Option<seq<DateEntry>>)

  /** The values the analysis sentence is built from. */
  datatype Analysis =
    | Edge(awayPitcher: string, awayEra: real, awayStrikeOuts: int,
           homePitcher: string, homeEra: real, homeStrikeOuts: int, favourite: string)
    | AwaitingStarters(awayPitcher: string, homePitcher: string)

  datatype MatchupPrediction = MatchupPrediction(
    matchup: string, predictedWinner: string, winProbability: int, analysis: Analysis)

  /** `.get("probablePitcher", {})`. */
  function PitcherOf(t: TeamSide): Pitcher
  {
    t.probablePitcher.GetOr(Pitcher(None, None))
  }

  /** `.get("fullName", "TBD")` on `.get("probablePitcher", {})`: the
      announced name, or "TBD" when the pitcher or its name is missing. */
  function PitcherName(t: TeamSide): (n: string)
    ensures t.probablePitcher.None? ==> n == "TBD"
    ensures t.probablePitcher.Some? && t.probablePitcher.value.fullName.None? ==> n == "TBD"
    ensures t.probablePitcher.Some? && t.probablePitcher.value.fullName.Some?
      ==> n == t.probablePitcher.value.fullName.value
  {
    PitcherOf(t).fullName.GetOr("TBD")
  }

  /** Python truthiness of an id: present and not 0. */
  predicate Truthy(id: Option<int>)
  {
    id.Some? && id.value != 0
  }

  /** `if away_id and home_id`: both starters are known, that is both
      pitcher objects are present with an id other than 0. */
  predicate HasStarters(g: Game): (b: bool)
    ensures b <==>
      && g.away.probablePitcher.Some? && g.away.probablePitcher.value.id.Some?
      && g.away.probablePitcher.value.id.value != 0
      && g.home.probablePitcher.Some? && g.home.probablePitcher.value.id.Some?
      && g.home.probablePitcher.value.id.value != 0
  {
    Truthy(PitcherOf(g.away).id) && Truthy(PitcherOf(g.home).id)
  }

  function Matchup(g: Game): string
  {
    g.away.teamName + " @ " + g.home.teamName
  }

  /** The stats requests of a game with both starters known can be read and
      the scores do not sum to zero (which would raise ZeroDivisionError). */
  predicate GameReady(g: Game, fetch: int -> StatsResponse)
  {
    HasStarters(g) ==>
      var a, h := fetch(PitcherOf(g.away).id.value), fetch(PitcherOf(g.home).id.value);
      && StatsReady(a) && StatsReady(h)
      && Score(GetPitcherStats(a)) + Score(GetPitcherStats(h)) != 0.0
  }

  /** The body of the loop over games: score both starters (away first), or,
      when either is unknown, the TBD record. */
  function Predict(g: Game, fetch: int -> StatsResponse): (r: MatchupPrediction)
    requires GameReady(g, fetch)
    ensures r.matchup == g.away.teamName + " @ " + g.home.teamName
    ensures HasStarters(g) ==> r.analysis.Edge? && r.predictedWinner == r.analysis.favourite
    ensures !HasStarters(g) ==> r.analysis.AwaitingStarters? && r.predictedWinner == "TBD"
  {
    if HasStarters(g) then
      var awayLine := GetPitcherStats(fetch(PitcherOf(g.away).id.value));
      var homeLine := GetPitcherStats(fetch(PitcherOf(g.home).id.value));
      var awayScore, homeScore := Score(awayLine), Score(homeLine);
      var winner := if Favourite(awayScore, homeScore) == Away then g.away.teamName else g.home.teamName;
      MatchupPrediction(
        Matchup(g), winner, WinProbability(awayScore, homeScore),
        Edge(PitcherName(g.away), awayLine.era, awayLine.strikeOuts,
             PitcherName(g.home), homeLine.era, homeLine.strikeOuts, winner))
    else
      MatchupPrediction(Matchup(g), "TBD", 50, AwaitingStarters(PitcherName(g.away), PitcherName(g.home)))
  }

  predicate EndsWith(s: string, suffix: string)
  {
    |suffix| <= |s| && s[|s| - |suffix|..] == suffix
  }

  /** The analysis sentence. `eraText` stands for Python's rendering of a
      float, which is not modelled; counts are written in decimal. */
  function Sentence(a: Analysis, eraText: real -> string): (s: string)
    ensures a.awayPitcher <= s
    ensures a.Edge? ==> EndsWith(s, a.favourite + " has the edge based on recent season performance.")
    ensures a.AwaitingStarters? ==> EndsWith(s, ". Waiting for confirmed starters.")
  {
    match a
    case Edge(ap, ae, ak, hp, he, hk, fav) =>
      var head := ap + " (ERA " + eraText(ae) + ", " + IntText(ak) + " K) vs. "
        + hp + " (ERA " + eraText(he) + ", " + IntText(hk) + " K). ";
      var tail := fav + " has the edge based on recent season performance.";
      assert (head + tail)[..|ap|] == ap;
      assert (head + tail)[|head + tail| - |tail|..] == tail;
      head + tail
    case AwaitingStarters(ap, hp) =>
      var head := ap + " vs. " + hp;
      var tail := ". Waiting for confirmed starters.";
      assert (head + tail)[..|ap|] == ap;
      assert (head + tail)[|head + tail| - |tail|..] == tail;
      head + tail
  }

  /** Without both starters no stats are used: the record is the TBD one
      whatever the provider would reply. */
  lemma TbdIgnoresStats(g: Game, fetch: int -> StatsResponse, other: int -> StatsResponse)
    requires !HasStarters(g)
    ensures GameReady(g, fetch) && GameReady(g, other)
    ensures Predict(g, fetch) == Predict(g, other)
    ensures Predict(g, fetch).predictedWinner == "TBD" && Predict(g, fetch).winProbability == 50
  {
  }

  /** The TBD sentence, for any rendering of floats. */
  lemma TbdSentence(g: Game, fetch: int -> StatsResponse, eraText: real -> string)
    requires !HasStarters(g)
    ensures GameReady(g, fetch)
    ensures Sentence(Predict(g, fetch).analysis, eraText)
      == PitcherName(g.away) + " vs. " + PitcherName(g.home) + ". Waiting for confirmed starters."
  {
  }

  /** A missing pitcher object, a missing id or an id of 0 (false in Python)
      on either side makes the game a TBD game; a side whose pitcher or name
      is missing shows "TBD". */
  lemma MissingStarterIsTbd(g: Game, fetch: int -> StatsResponse)
    requires || g.away.probablePitcher.None? || g.home.probablePitcher.None?
             || PitcherOf(g.away).id.None? || PitcherOf(g.home).id.None?
             || PitcherOf(g.away).id == Some(0) || PitcherOf(g.home).id == Some(0)
    ensures GameReady(g, fetch) && !HasStarters(g)
    ensures PitcherOf(g.away).fullName.None? ==> PitcherName(g.away) == "TBD"
    ensures PitcherOf(g.home).fullName.None? ==> PitcherName(g.home) == "TBD"
    ensures Predict(g, fetch).predictedWinner == "TBD" && Predict(g, fetch).winProbability == 50
  {
  }

  /** With both starters known: the away team is picked only on a strictly
      higher score, and the probability is the matchup rule applied to the
      two scores (Scoring.WinProbability states what that rule gives). */
  lemma ScoredPrediction(g: Game, fetch: int -> StatsResponse)
    requires HasStarters(g) && GameReady(g, fetch)
    ensures var a := Score(GetPitcherStats(fetch(PitcherOf(g.away).id.value)));
            var h := Score(GetPitcherStats(fetch(PitcherOf(g.home).id.value)));
            && Predict(g, fetch).predictedWinner == (if a > h then g.away.teamName else g.home.teamName)
            && Predict(g, fetch).winProbability == WinProbability(a, h)
  {
  }

  /** The games of a date, `date_obj.get("games", [])`. */
  function GamesOf(d: DateEntry): seq<Game>
  {
    d.games.GetOr([])
  }

  /** The games of several dates, date after date. */
  function DatesGames(ds: seq<DateEntry>): seq<Game>
  {
    if ds == [] then [] else DatesGames(ds[..|ds| - 1]) + GamesOf(ds[|ds| - 1])
  }

  /** Every game the nested loops visit, `data.get("dates", [])` first. */
  function Fixtures(s: Schedule): seq<Game>
  {
    DatesGames(s.dates.GetOr([]))
  }

  /** The games of the first i dates come first, unchanged. */
  lemma {:induction false} DatesGamesPrefix(ds: seq<DateEntry>, i: nat)
    requires i <= |ds|
    ensures DatesGames(ds[..i]) <= DatesGames(ds)
  {
    if i < |ds| {
      var init := ds[..|ds| - 1];
      DatesGamesPrefix(init, i);
      assert init[..i] == ds[..i];
    } else {
      assert ds[..i] == ds;
    }
  }

  /** Taking one more date appends that date's games. */
  lemma DatesGamesStep(ds: seq<DateEntry>, i: nat)
    requires i < |ds|
    ensures DatesGames(ds[..i + 1]) == DatesGames(ds[..i]) + GamesOf(ds[i])
  {
    assert ds[..i + 1][..i] == ds[..i];
  }

  /** Game j of date i comes after all games of dates before i: the order is
      dates first, then games within a date. */
  lemma FixtureOrder(ds: seq<DateEntry>, i: nat, j: nat)
    requires i < |ds| && j < |GamesOf(ds[i])|
    ensures |DatesGames(ds[..i])| + j < |DatesGames(ds)|
    ensures DatesGames(ds)[|DatesGames(ds[..i])| + j] == GamesOf(ds[i])[j]
  {
    DatesGamesStep(ds, i);
    DatesGamesPrefix(ds, i + 1);
  }

  /** Dates with no games contribute nothing. */
  lemma {:induction false} GamelessDates(ds: seq<DateEntry>)
    requires forall k :: 0 <= k < |ds| ==> ds[k].games.None? || ds[k].games.value == []
    ensures DatesGames(ds) == []
  {
    if ds != [] {
      GamelessDates(ds[..|ds| - 1]);
    }
  }

  /** An absent or empty `dates` list means no games. */
  lemma EmptySchedule()
    ensures Fixtures(Schedule(None)) == [] && Fixtures(Schedule(Some([]))) == []
  {
  }

  /** The first |games| fixtures have been predicted, in order. */
  ghost predicate PredictedPrefix(games: seq<MatchupPrediction>, all: seq<Game>, fetch: int -> StatsResponse)
  {
    && |games| <= |all|
    && forall k :: 0 <= k < |games| ==> GameReady(all[k], fetch) && games[k] == Predict(all[k], fetch)
  }

  lemma PredictedPrefixSnoc(games: seq<MatchupPrediction>, all: seq<Game>, fetch: int -> StatsResponse)
    requires PredictedPrefix(games, all, fetch) && |games| < |all| && GameReady(all[|games|], fetch)
    ensures PredictedPrefix(games + [Predict(all[|games|], fetch)], all, fetch)
  {
    var next := games + [Predict(all[|games|], fetch)];
    forall k | 0 <= k < |next|
      ensures GameReady(all[k], fetch) && next[k] == Predict(all[k], fetch)
    {
      if k < |games| {
        assert next[k] == games[k];
      }
    }
  }

  /** get_game_predictions: one record per game, in fixture order. */
  method GamePredictions(s: Schedule, fetch: int -> StatsResponse) returns (games: seq<MatchupPrediction>)
    requires forall g :: g in Fixtures(s) ==> GameReady(g, fetch)
    ensures |games| == |Fixtures(s)|
    ensures forall k :: 0 <= k < |games| ==> games[k] == Predict(Fixtures(s)[k], fetch)
  {
    var dates := s.dates.GetOr([]);
    ghost var all := Fixtures(s);
    games := [];
    var i := 0;
    while i < |dates|
      invariant 0 <= i <= |dates|
      invariant |games| == |DatesGames(dates[..i])|
      invariant PredictedPrefix(games, all, fetch)
    {
      var day := GamesOf(dates[i]);
      var j := 0;
      while j < |day|
        invariant 0 <= j <= |day|
        invariant |games| == |DatesGames(dates[..i])| + j
        invariant PredictedPrefix(games, all, fetch)
      {
        var game := day[j];
        FixtureOrder(dates, i, j);
        assert all[|games|] == game;
        PredictedPrefixSnoc(games, all, fetch);
        games := games + [Predict(game, fetch)];
        j := j + 1;
      }
      DatesGamesStep(dates, i);
      i := i + 1;
    }
    assert dates[..i] == dates;
  }

  /** The stat line of a pitcher with the given season ERA and innings text
      and no strikeouts. */
  function SeasonFields(era: string, innings: string): StatFields
  {
    StatFields(Some(Str(era)), Some(Int(0)), Some(Str(innings)), None, None, None)
  }

  /** The provider's reply whose only split is that stat line. */
  function SeasonReply(era: string, innings: string): StatsResponse
  {
    StatsResponse(Some([StatsGroup(Some([SeasonFields(era, innings)]))]))
  }

  const ExampleGame := Game(
    TeamSide("Away", Some(Pitcher(Some("A. Starter"), Some(1)))),
    TeamSide("Home", Some(Pitcher(Some("H. Starter"), Some(2)))))

  /** A season reply with ERA text `era` and innings text `ip` normalises
      to those numbers and no strikeouts. */
  lemma SeasonLine(era: string, ip: string)
    requires IsDecimal(era) && IsDigits(ip) && |ip| > 0
    ensures StatsReady(SeasonReply(era, ip))
    ensures GetPitcherStats(SeasonReply(era, ip)) == PitchingLine(ParseDecimal(era), 0, DigitsValue(ip))
  {
    assert FirstSplit(SeasonReply(era, ip)) == Some(SeasonFields(era, ip));
    SeasonFieldsNormalize(era, ip);
  }

  lemma SeasonFieldsNormalize(era: string, ip: string)
    requires IsDecimal(era) && IsDigits(ip) && |ip| > 0
    ensures PitchingReady(SeasonFields(era, ip))
    ensures Normalize(SeasonFields(era, ip)) == PitchingLine(ParseDecimal(era), 0, DigitsValue(ip))
  {
    InningsOfDigits(ip);
  }

  lemma EraTwo()
    ensures IsDecimal("2.00") && ParseDecimal("2.00") == 2.0
  {
    DecimalWithFraction("2", "00");
    assert "2" + "." + "00" == "2.00";
    assert DecimalValue("2", "00") == 2.0;
  }

  lemma EraFour()
    ensures IsDecimal("4.00") && ParseDecimal("4.00") == 4.0
  {
    DecimalWithFraction("4", "00");
    assert "4" + "." + "00" == "4.00";
    assert DecimalValue("4", "00") == 4.0;
  }

  /** A reply of ERA "2.00" over "100" innings reads as 2.0 and 100. */
  lemma ExampleAwayLine()
    ensures StatsReady(SeasonReply("2.00", "100"))
    ensures GetPitcherStats(SeasonReply("2.00", "100")) == PitchingLine(2.0, 0, 100)
  {
    EraTwo();
    assert IsDigits("100") && DigitsValue("100") == 100;
    SeasonLine("2.00", "100");
  }

  /** A reply of ERA "4.00" over "50" innings reads as 4.0 and 50. */
  lemma ExampleHomeLine()
    ensures StatsReady(SeasonReply("4.00", "50"))
    ensures GetPitcherStats(SeasonReply("4.00", "50")) == PitchingLine(4.0, 0, 50)
  {
    EraFour();
    assert IsDigits("50") && DigitsValue("50") == 50;
    SeasonLine("4.00", "50");
  }

  /** ERA 2.0 over 100 innings (away) against ERA 4.0 over 50 (home): the
      code's formula scores 180 against 110, so the away team is picked at
      round(62.07) = 62. The two lemmas above give such replies. */
  lemma WorkedExample(fetch: int -> StatsResponse)
    requires StatsReady(fetch(1)) && GetPitcherStats(fetch(1)) == PitchingLine(2.0, 0, 100)
    requires StatsReady(fetch(2)) && GetPitcherStats(fetch(2)) == PitchingLine(4.0, 0, 50)
    ensures GameReady(ExampleGame, fetch)
    ensures Score(GetPitcherStats(fetch(1))) == 180.0 && Score(GetPitcherStats(fetch(2))) == 110.0
    ensures Predict(ExampleGame, fetch).predictedWinner == "Away"
    ensures Predict(ExampleGame, fetch).winProbability == 62
  {
    var x := 180.0 / 290.0 * 100.0;
    assert 61.5 < x < 62.5;
    RoundHalfEvenUnique(x, 62);
  }
}
