/** The decoded replies of the stats provider, as far as the service reads
    them, and Python's float() and int() coercions of the values in them.
    A reply to a per-player season-stats request is
    `{"stats": [{"splits": [{"stat": {...}}, ...]}, ...]}`. The keys the
    service reads with a default (`stats`, `splits` and the stat values) may
    be missing; `stat` itself, which the service indexes directly, is always
    present here. */
module Provider {
  import opened Text

  datatype Option<T> = None | Some(value: T)
  {
    /** Python's `d.get(key, default)` on a key that may be missing. */
    function GetOr(default: T): (r: T)
      ensures Some? ==> r == value
      ensures None? ==> r == default
    {
      match this
      case Some(v) => v
      case None => default
    }
  }

  /** A scalar JSON value inside a stat line: a number or a string. */
  datatype Scalar = Int(i: int) | Str(s: string)

  /** The keys of a split's `stat` object the service reads. */
  datatype StatFields = StatFields(
    era: Option<Scalar>,
    strikeOuts: Option<Scalar>,
    inningsPitched: Option<Scalar>,
    homeRuns: Option<Scalar>,
    sluggingPercentage: Option<Scalar>,
    gamesPlayed: Option<Scalar>)

  const NoFields := StatFields(None, None, None, None, None, None)

  /** `stat_line.get("strikeOuts", 0)`, read by both pitching requests. */
  const DefaultStrikeOuts := Int(0)

  /** One entry of the `stats` list; each split carries its `stat` object. */
  datatype StatsGroup = StatsGroup(splits: Option<seq<StatFields>>)

  datatype StatsResponse = StatsResponse(stats: Option<seq<StatsGroup>>)

  /** `data.get("stats", [{}])[0]` raises IndexError on an empty list. */
  predicate HasFirstGroup(r: StatsResponse)
  {
    r.stats.None? || |r.stats.value| > 0
  }

  /** `data.get("stats", [{}])[0].get("splits", [])`, then its first entry
      when there is one: absent `stats`, absent `splits` and an empty
      `splits` all mean "no split". */
  function FirstSplit(r: StatsResponse): (o: Option<StatFields>)
    requires HasFirstGroup(r)
    ensures o.None? <==>
      (r.stats.None? || r.stats.value[0].splits.None? || r.stats.value[0].splits.value == [])
    ensures o.Some? ==> o.value == r.stats.value[0].splits.value[0]
  {
    var splits := if r.stats.None? then [] else r.stats.value[0].splits.GetOr([]);
    if splits == [] then None else Some(splits[0])
  }

  /** float(v) succeeds: v is a number or a plain decimal literal. */
  predicate CanFloat(v: Scalar)
  {
    v.Int? || IsDecimal(v.s)
  }

  /** Python's float() of a number or of a decimal literal. */
  function ToFloat(v: Scalar): (x: real)
    requires CanFloat(v)
    ensures v.Int? ==> x == v.i as real
    ensures v.Str? ==> x == ParseDecimal(v.s)
  {
    match v
    case Int(i) => i as real
    case Str(s) => ParseDecimal(s)
  }

  /** int(v) succeeds: v is a number or a non-empty string of digits. */
  predicate CanInt(v: Scalar)
  {
    v.Int? || (IsDigits(v.s) && |v.s| > 0)
  }

  /** Python's int() of a number or of a string of digits. */
  function ToInt(v: Scalar): (n: int)
    requires CanInt(v)
    ensures v.Int? ==> n == v.i
    ensures v.Str? ==> n == DigitsValue(v.s)
    ensures v.Str? ==> n >= 0 && (v.s[0] != '0' ==> NatText(n) == v.s)
  {
    match v
    case Int(i) => i
    case Str(s) =>
      assert s[0] != '0' ==> NatText(DigitsValue(s)) == s by {
        if s[0] != '0' { DigitsRoundTrip(s); }
      }
      DigitsValue(s)
  }

  /** How an f-string writes a scalar: a number in decimal, a string as is. */
  function Render(v: Scalar): (t: string)
    ensures v.Str? ==> t == v.s
    ensures v.Int? ==> |t| > 0 && (v.i >= 0 ==> IsDigits(t))
  {
    match v
    case Int(i) => IntText(i)
    case Str(s) => s
  }
}
