/** get_home_run_predictions: one power profile per player of a configured
    roster, in roster order. The roster is a parameter (the source holds it
    as a literal) and the per-player hitting-stats request is replaced by
    `fetch`, the provider's decoded reply for each player id. */
module Homers {
  import opened Text
  import opened Provider

  /** A roster entry: provider id, display name and team code. */
  datatype Slugger = Slugger(id: int, name: string, team: string)

  datatype PowerProfile = PowerProfile(name: string, team: string, description: string)

  const DefaultHomeRuns := Str("0")
  const DefaultSlugging := Str("0.000")
  const LimitedEvidence := "with limited data this season"

  /** The evidence clause: the home runs and slugging of the first split,
      written as the provider gave them, or the limited-data phrase. */
  function Evidence(split: Option<StatFields>): (e: string)
    ensures split.None? ==> e == LimitedEvidence
  {
    match split
    case None => LimitedEvidence
    case Some(s) =>
      "with " + Render(s.homeRuns.GetOr(DefaultHomeRuns))
      + " HRs and a slugging % of " + Render(s.sluggingPercentage.GetOr(DefaultSlugging))
  }

  /** The body of the loop over the roster. */
  function Profile(p: Slugger, r: StatsResponse): (pp: PowerProfile)
    requires HasFirstGroup(r)
    ensures pp.name == p.name && pp.team == p.team
  {
    PowerProfile(p.name, p.team,
      p.name + " (" + p.team + ") is a top power threat " + Evidence(FirstSplit(r)) + ".")
  }

  /** A split that states both values puts them into the sentence verbatim. */
  lemma ProfileQuotesValues(p: Slugger, r: StatsResponse, hr: Scalar, slg: Scalar)
    requires HasFirstGroup(r) && FirstSplit(r).Some?
    requires FirstSplit(r).value.homeRuns == Some(hr)
    requires FirstSplit(r).value.sluggingPercentage == Some(slg)
    ensures Profile(p, r).description
      == p.name + " (" + p.team + ") is a top power threat "
         + ("with " + Render(hr) + " HRs and a slugging % of " + Render(slg)) + "."
  {
  }

  /** A home-run count sent as a number is written in decimal digits that
      read back as the count. */
  lemma HomeRunsReadBack(n: nat)
    ensures IsDigits(Render(Int(n))) && DigitsValue(Render(Int(n))) == n
  {
    NatTextRoundTrip(n);
  }

  /** Each missing value takes its own default, whether or not the other
      one is present: home runs read as "0", slugging as "0.000". */
  lemma ProfileDefaults(p: Slugger, r: StatsResponse, hr: Scalar, slg: Scalar)
    requires HasFirstGroup(r) && FirstSplit(r).Some?
    ensures var s := FirstSplit(r).value;
            s.homeRuns.None? && s.sluggingPercentage == Some(slg) ==>
              Profile(p, r).description
                == p.name + " (" + p.team + ") is a top power threat "
                   + ("with " + "0" + " HRs and a slugging % of " + Render(slg)) + "."
    ensures var s := FirstSplit(r).value;
            s.homeRuns == Some(hr) && s.sluggingPercentage.None? ==>
              Profile(p, r).description
                == p.name + " (" + p.team + ") is a top power threat "
                   + ("with " + Render(hr) + " HRs and a slugging % of " + "0.000") + "."
    ensures var s := FirstSplit(r).value;
            s.homeRuns.None? && s.sluggingPercentage.None? ==>
              Profile(p, r).description
                == p.name + " (" + p.team + ") is a top power threat "
                   + ("with " + "0" + " HRs and a slugging % of " + "0.000") + "."
  {
  }

  /** No split: the limited-data sentence. */
  lemma ProfileWithoutSplit(p: Slugger, r: StatsResponse)
    requires HasFirstGroup(r) && FirstSplit(r).None?
    ensures Profile(p, r).description
      == p.name + " (" + p.team + ") is a top power threat " + "with limited data this season" + "."
  {
  }

  /** The first |results| roster entries have their profiles, in order. */
  ghost predicate ProfilesPrefix(results: seq<PowerProfile>, roster: seq<Slugger>, fetch: int -> StatsResponse)
  {
    && |results| <= |roster|
    && forall k :: 0 <= k < |results| ==>
         HasFirstGroup(fetch(roster[k].id)) && results[k] == Profile(roster[k], fetch(roster[k].id))
  }

  lemma ProfilesPrefixSnoc(results: seq<PowerProfile>, roster: seq<Slugger>, fetch: int -> StatsResponse)
    requires ProfilesPrefix(results, roster, fetch) && |results| < |roster|
    requires HasFirstGroup(fetch(roster[|results|].id))
    ensures ProfilesPrefix(results + [Profile(roster[|results|], fetch(roster[|results|].id))], roster, fetch)
  {
    var next := results + [Profile(roster[|results|], fetch(roster[|results|].id))];
    forall k | 0 <= k < |next|
      ensures HasFirstGroup(fetch(roster[k].id)) && next[k] == Profile(roster[k], fetch(roster[k].id))
    {
      if k < |results| {
        assert next[k] == results[k];
      }
    }
  }

  /** get_home_run_predictions: one profile per roster entry, in roster order. */
  method PowerProfiles(roster: seq<Slugger>, fetch: int -> StatsResponse) returns (results: seq<PowerProfile>)
    requires forall k :: 0 <= k < |roster| ==> HasFirstGroup(fetch(roster[k].id))
    ensures |results| == |roster|
    ensures forall k :: 0 <= k < |results| ==> results[k] == Profile(roster[k], fetch(roster[k].id))
  {
    results := [];
    var i := 0;
    while i < |roster|
      invariant 0 <= i <= |roster|
      invariant |results| == i
      invariant ProfilesPrefix(results, roster, fetch)
    {
      var player := roster[i];
      ProfilesPrefixSnoc(results, roster, fetch);
      results := results + [Profile(player, fetch(player.id))];
      i := i + 1;
    }
  }
}
