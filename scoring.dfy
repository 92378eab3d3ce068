/** The matchup rule of get_game_predictions: a linear score per starting
    pitcher, the away side favoured only on a strictly higher score, and the
    favourite's share of the summed scores as a whole percentage. The score
    is a deliberate simplification, not a calibrated model. */
module Scoring {
  import opened Rounding
  import opened PitcherStats

  /** Ten points lost per run of ERA, one point gained per whole inning. */
  function Score(p: PitchingLine): (s: real)
    ensures p.era == 0.0 && p.inningsPitched == 0 ==> s == 100.0
    ensures p == DefaultLine ==> s == -890.0
  {
    (100.0 - p.era * 10.0) + p.inningsPitched as real
  }

  /** A lower ERA and more innings never score lower, and score strictly
      higher when either is strict. */
  lemma ScoreOrder(p: PitchingLine, q: PitchingLine)
    requires p.era <= q.era && p.inningsPitched >= q.inningsPitched
    ensures Score(p) >= Score(q)
    ensures (p.era < q.era || p.inningsPitched > q.inningsPitched) ==> Score(p) > Score(q)
  {
  }

  datatype Side = Away | Home

  /** The away side is favoured only on a strictly higher score; equal
      scores favour the home side. */
  function Favourite(awayScore: real, homeScore: real): (w: Side)
    ensures w == Away <==> awayScore > homeScore
    ensures awayScore == homeScore ==> w == Home
  {
    if awayScore > homeScore then Away else Home
  }

  function WinnerScore(awayScore: real, homeScore: real): (s: real)
    ensures s >= awayScore && s >= homeScore
    ensures s == awayScore || s == homeScore
  {
    if Favourite(awayScore, homeScore) == Away then awayScore else homeScore
  }

  /** `round(winner / (away + home) * 100)`: the favourite's share of the
      summed scores as the nearest whole percentage, an exact half going to
      the even one. Equal scores give 50 and
      two positive scores give a value in [50, 100]; with a negative score
      the value is not clamped (see below). Python raises ZeroDivisionError
      when the scores sum to zero. */
  function WinProbability(awayScore: real, homeScore: real): (p: int)
    requires awayScore + homeScore != 0.0
    ensures var share := WinnerScore(awayScore, homeScore) / (awayScore + homeScore) * 100.0;
            && share - 0.5 <= p as real <= share + 0.5
            && ((p as real == share - 0.5 || p as real == share + 0.5) ==> p % 2 == 0)
    ensures awayScore == homeScore ==> p == 50
    ensures awayScore > 0.0 && homeScore > 0.0 ==> 50 <= p <= 100
  {
    var share := WinnerScore(awayScore, homeScore) / (awayScore + homeScore) * 100.0;
    var p := RoundHalfEven(share);
    assert awayScore == homeScore ==> p == 50 by {
      if awayScore == homeScore {
        ShareOnTie(awayScore);
        RoundInteger(50);
      }
    }
    assert awayScore > 0.0 && homeScore > 0.0 ==> 50 <= p <= 100 by {
      if awayScore > 0.0 && homeScore > 0.0 {
        ShareBounds(awayScore, homeScore);
        RoundWithin(share, 50, 100);
      }
    }
    p
  }

  /** Equal scores split the sum evenly. */
  lemma ShareOnTie(s: real)
    requires s != 0.0
    ensures WinnerScore(s, s) / (s + s) * 100.0 == 50.0
  {
    assert s / (s + s) == 0.5;
  }

  /** With positive scores the higher one is between half and all of the sum. */
  lemma ShareBounds(awayScore: real, homeScore: real)
    requires awayScore > 0.0 && homeScore > 0.0
    ensures 50.0 <= WinnerScore(awayScore, homeScore) / (awayScore + homeScore) * 100.0 <= 100.0
  {
    var sum := awayScore + homeScore;
    var w := WinnerScore(awayScore, homeScore);
    assert 2.0 * w >= sum && w <= sum;
    QuotientBounds(w, sum, 0.5, 1.0);
  }

  lemma QuotientBounds(a: real, b: real, lo: real, hi: real)
    requires b > 0.0 && lo * b <= a <= hi * b
    ensures lo <= a / b <= hi
  {
  }

  /** The probability does not depend on which side is away: swapping the
      sides changes only who is favoured on a tie. */
  lemma ProbabilitySymmetric(awayScore: real, homeScore: real)
    requires awayScore + homeScore != 0.0
    ensures WinProbability(awayScore, homeScore) == WinProbability(homeScore, awayScore)
  {
    assert WinnerScore(awayScore, homeScore) == WinnerScore(homeScore, awayScore);
    assert awayScore + homeScore == homeScore + awayScore;
  }

  /** A strict away win can still round to 50: 101 against 100 is 50.25%. */
  lemma NarrowWinRoundsToFifty()
    ensures Favourite(101.0, 100.0) == Away
    ensures WinProbability(101.0, 100.0) == 50
  {
    var x := 101.0 / 201.0 * 100.0;
    assert 50.0 < x < 50.5;
    RoundHalfEvenUnique(x, 50);
  }

  /** The probability is not clamped to [0, 100]: a clean line (ERA 0) facing
      an ERA of 15 gives 200. */
  lemma ProbabilityAboveHundred()
    ensures Score(PitchingLine(0.0, 0, 0)) == 100.0
    ensures Score(PitchingLine(15.0, 0, 0)) == -50.0
    ensures WinProbability(100.0, -50.0) == 200
  {
    assert 100.0 / 50.0 * 100.0 == 200.0;
    RoundInteger(200);
  }

  /** Against the all-default line (score -890) a clean home pitcher is
      favoured with a negative probability. */
  lemma ProbabilityBelowZero()
    ensures Favourite(Score(DefaultLine), 100.0) == Home
    ensures WinProbability(Score(DefaultLine), 100.0) == -13
  {
    var x := 100.0 / (-790.0) * 100.0;
    assert -13.0 < x < -12.5;
    RoundHalfEvenUnique(x, -13);
  }
}
