# MLB predictor: a Dafny model of the prediction service

The service answers three requests with lists built from data sent by a
public baseball statistics provider:

- **game predictions**: one record per game on today's schedule;
- **home-run predictions**: one record per player of a fixed roster of sluggers;
- **strikeout props**: one record per pitcher of a fixed list, with its betting line and odds.

For a game where both starting pitchers are announced, the service reads each
starter's season line. That means the ERA, the strikeouts, and the innings
pitched truncated to whole innings. The service scores each starter as
`(100 - 10 * ERA) + innings`. The away team is favoured only when its score is
strictly higher. The favourite's win probability is its share of the two
scores, as a percentage rounded half-to-even. A game without both starters
gets a "TBD" record at 50.

This project models that logic on the provider's decoded replies. The modules
are:

- `Text`: digit strings, `split(".")[0]`, plain decimal literals and the decimal writing of integers.
- `Provider`: the shape of a stats reply, `dict.get` with a default, and `float()`/`int()` on the values.
- `Rounding`: Python's `round`, computed on exact reals.
- `PitcherStats`: `get_pitcher_stats`.
- `Scoring`: the score, the favourite and the probability.
- `Games`: the schedule loop.
- `Homers`: the power-profile loop.
- `Strikeouts`: the strikeout-prop loop.

Each of the three request handlers is a method with a `while` loop. Its
postcondition says that the result holds, in input order, exactly the
per-item record computed by a function. The lemmas state what those records
contain.

Python raises an exception in the following cases. The ones that depend on a
value are modelled as preconditions; the ones about a missing key cannot be
written down, because the datatypes always carry that key:

- `stats` is an empty list (IndexError, main.py:26, 132, 167);
- `float()` or `int()` is given text it rejects (ValueError, main.py:30-32, 170-171);
- `inningsPitched` is a number rather than a string, which has no `split` (AttributeError, main.py:32);
- the two scores sum to zero (ZeroDivisionError, main.py:70, 73);
- a pitcher has 0 games played (ZeroDivisionError, main.py:172);
- a split without `stat`, or a game without `teams`, a team without `team` or a team without `name` (KeyError, main.py:28, 48-50, 134, 169): always present in the model.

A request to the provider is replaced by a parameter `fetch` that gives the
decoded reply for a player id. The schedule is passed as a value.

Some consequences of the code worth stating, each proved:

- **Worked example.** ERA 2.00 over 100 innings (away) against ERA 4.00 over 50 (home) scores 180 against 110, and the away team is picked at round(62.07) = 62 (`Games.WorkedExample`).
- **Rounding of the strikeout average.** 13 strikeouts in 4 games average 3.25, which Python rounds half-to-even to 3.2 (`Strikeouts.ThirteenOverFour`).
- **Narrow away win.** 101 against 100 is a strict away win that rounds to exactly 50 (`Scoring.NarrowWinRoundsToFifty`).
- **Unclamped probability.** The probability can exceed 100 or be negative (`Scoring.ProbabilityAboveHundred`, `Scoring.ProbabilityBelowZero`).
- **Zero score sum.** Scores that sum to zero make the division raise; `Scoring.WinProbability` requires a non-zero sum.

## Model

| member | source | states |
|---|---|---|
| Text.BeforeDot | main.py:32 | `split(".")[0]` is the longest prefix without '.', and it stops at the first '.' or at the end. |
| Text.WholePartIsFloor | main.py:32 | The digits before the dot are the floor of a decimal literal's value. |
| Text.NatTextRoundTrip | main.py:173 | Writing a non-negative int in decimal and reading it back gives the same number. |
| Text.DigitsRoundTrip | main.py:170-171 | A digit string without zero padding is exactly how `int()` of it is written back. |
| Text.LeadingZero | main.py:31 | A leading zero does not change the value the digits denote, so `int("007")` is 7. |
| Text.NatText | main.py:173 | `str()` of a non-negative int is a non-empty digit string without leading zeros. |
| Text.IntText | main.py:76-77 | `str()` of an int is non-empty; a negative one is a "-" followed by digits. |
| Provider.FirstSplit | main.py:26 | There is no split exactly when `stats` is absent, `splits` is absent, or `splits` is empty. Otherwise it is the first split. |
| Provider.ToInt | main.py:31 | `int()` of a number is that number. `int()` of a digit string is the number its digits denote; a string without a leading zero is exactly how that number is written back. |
| Provider.ToFloat | main.py:30 | `float()` of a number is that number; `float()` of a decimal literal is its exact value. |
| Provider.Render | main.py:137 | An f-string writes a string value as is, and a non-negative number as a non-empty string of decimal digits. |
| PitcherStats.Normalize | main.py:28-33 | Each field is coerced from its own key. A missing `era` gives 99, a missing `strikeOuts` gives 0, and a missing `inningsPitched` gives 0. |
| PitcherStats.Innings | main.py:32 | `float(t.split(".")[0])` is the value of the text before the first dot, a whole number. |
| PitcherStats.GetPitcherStats | main.py:26-34 | No split gives the default record `{era 99, strikeOuts 0, inningsPitched 0}`. Otherwise the first split is normalised. |
| PitcherStats.EmptySplitIsDefault | main.py:30-34 | A split with none of the keys normalises to the same record as no split. |
| PitcherStats.NoSplitGivesDefault | main.py:26-34 | An absent `stats` list, an absent `splits` list and an empty `splits` list all give the default record. |
| PitcherStats.InningsTruncates | main.py:32 | Innings pitched is the whole part of the figure: at most the figure, and less than one below it. |
| PitcherStats.InningsIgnoresFraction | main.py:32 | Whatever follows the first '.' of the innings figure does not affect the result. |
| PitcherStats.InningsOfPartialFigure | main.py:32 | "123.2" counts as 123 innings. |
| Rounding.RoundHalfEven | main.py:70 | `round()` is within one half of its argument, and an exact half goes to the even integer. |
| Rounding.RoundHalfEvenUnique | main.py:70 | The two properties above determine `round()` completely. |
| Rounding.RoundTenths | main.py:172 | `round(x, 1)` is within one twentieth of x, and an exact half goes to the even tenth. |
| Scoring.Score | main.py:65-66 | ERA 0 with 0 innings scores 100. The default record scores -890. |
| Scoring.ScoreOrder | main.py:64-66 | A lower ERA and more innings never lower the score, and raise it when either is strict. |
| Scoring.Favourite | main.py:68-73 | The away side is picked exactly when its score is strictly higher. Equal scores pick the home side. |
| Scoring.WinProbability | main.py:68-73 | The probability is the favourite's share of the summed scores, rounded to the nearest percent with an exact half going to the even one. A tie gives 50, and two positive scores give a value in [50, 100]. |
| Scoring.ProbabilitySymmetric | main.py:68-73 | Swapping the sides does not change the probability. |
| Scoring.NarrowWinRoundsToFifty | main.py:68-70 | 101 against 100 picks the away side at 50. |
| Scoring.ProbabilityAboveHundred | main.py:65-73 | ERA 0 against ERA 15 gives 200: the probability is not clamped. |
| Scoring.ProbabilityBelowZero | main.py:65-73 | The default record against a score of 100 picks the home side at -13. |
| Games.Predict | main.py:48-90 | The matchup is "away @ home". With both starters, the record is a scored analysis naming the favourite as the winner. Otherwise it is the TBD record. |
| Games.PitcherName | main.py:53-56 | The announced name, or "TBD" when the pitcher object or its `fullName` is missing. |
| Games.HasStarters | main.py:57-60 | Both starters are known exactly when both pitcher objects are present with an id other than 0. |
| Games.TbdIgnoresStats | main.py:60-83 | Without both starters, no stats reply is read: the record is "TBD" at 50 whatever the provider replies. |
| Games.TbdSentence | main.py:80-83 | The TBD sentence is "away vs. home. Waiting for confirmed starters." |
| Games.MissingStarterIsTbd | main.py:53-60 | A missing pitcher object, a missing id or an id of 0 on either side makes the game a TBD game with "TBD" at 50, and a side without a name shows "TBD". |
| Games.ScoredPrediction | main.py:60-73 | With both starters, the winner is the away team exactly when its score is strictly higher, and the probability is the matchup rule applied to the two scores. |
| Games.Sentence | main.py:75-83 | The analysis starts with the away pitcher's name. A scored game's analysis ends with "<winner> has the edge based on recent season performance."; a TBD game's ends with ". Waiting for confirmed starters." |
| Games.FixtureOrder | main.py:46-47 | Game j of date i comes after every game of the earlier dates. |
| Games.GamelessDates | main.py:46-47 | Dates without games contribute no records. |
| Games.EmptySchedule | main.py:46 | An absent or empty `dates` list gives no records. |
| Games.GamePredictions | main.py:45-92 | One record per scheduled game, in date-then-game order, each the record of `Predict` for that game. |
| Games.SeasonLine | main.py:26-33 | A reply whose first split has a decimal ERA and whole innings reads as those numbers. |
| Games.ExampleAwayLine | main.py:30-32 | ERA "2.00" over "100" innings reads as 2.0 and 100. |
| Games.ExampleHomeLine | main.py:30-32 | ERA "4.00" over "50" innings reads as 4.0 and 50. |
| Games.WorkedExample | main.py:60-73 | These two starters score 180 and 110, so the away team is picked at 62. |
| Homers.Profile | main.py:132-145 | The name and team are copied from the roster entry. |
| Homers.Evidence | main.py:133-139 | A reply without a split gives "with limited data this season". |
| Homers.ProfileQuotesValues | main.py:134-144 | The home runs and slugging of the first split appear verbatim in the description. |
| Homers.ProfileDefaults | main.py:135-137 | Each missing value takes its own default whether or not the other is present: home runs read as "0", slugging as "0.000". |
| Homers.ProfileWithoutSplit | main.py:138-144 | No split gives "<name> (<team>) is a top power threat with limited data this season." |
| Homers.HomeRunsReadBack | main.py:137 | A numeric home-run count is written in digits that read back as the count. |
| Homers.PowerProfiles | main.py:126-147 | One profile per roster entry, in roster order, each built from that player's own reply. |
| Strikeouts.AverageTenths | main.py:172 | The average is strikeouts per game to the nearest tenth, an exact half going to the even tenth. |
| Strikeouts.TenthsText | main.py:173 | A non-negative average is written as its whole part, a dot and one digit. |
| Strikeouts.TenthsTextReadsBack | main.py:172-173 | The written average parses back to its value. |
| Strikeouts.Prop | main.py:167-184 | The name is copied, `pick` is the line and `line` is the odds. The average is "-" exactly when there is no split, and then the summary is the limited-data sentence. |
| Strikeouts.PropFromSplit | main.py:168-173 | With a split, the average is strikeouts per game to the nearest tenth (an exact half going to the even tenth), and the summary quotes the average and the games count. |
| Strikeouts.ThirteenOverFour | main.py:172-173 | 13 strikeouts over 4 games average 3.2. |
| Strikeouts.GamesDefaultToOne | main.py:170-173 | A split without `gamesPlayed` counts one game. |
| Strikeouts.PropWithoutSplit | main.py:174-176 | No split gives "-" and "Limited data available for this season." |
| Strikeouts.StrikeoutProps | main.py:161-186 | One prop per configured pitcher, in list order, each built from that pitcher's own reply. |

## Left out

- HTTP requests, `async`, FastAPI routing, CORS and the root message: the replies are parameters (`fetch`, the schedule).
- The order in which requests are sent, and network or JSON failures: the replies are parameters.
- The second application object (main.py:100): rebinding `app` leaves the root route and `/predictions/games` (main.py:17, 36) on the first, discarded instance, so the served `main:app` exposes only the home-run and strikeout routes. Routing is not modelled; `get_game_predictions` is modelled as the function it is.
- `date.today()` and the schedule URL: the schedule is a parameter.
- The literal roster of sluggers and list of pitchers: they are method parameters.
- Binary floating point: scores, shares and averages are exact reals. A tie that floating point cannot represent exactly may round the other way in Python.
- Python's text for a float (`repr`): the analysis sentence takes a renderer `eraText` as a parameter. The sentence is kept structured in `Analysis`. The default record's `era` is the int 99 and is written "99"; a parsed ERA is written like "99.0". That difference is not modelled.
- `float()` and `int()` of text with a sign, blanks, underscores, an exponent, "inf", "nan" or non-ASCII Unicode digits: these are preconditions (treated as raising), although Python accepts each of them in `float()`, `int()` or both.
- Strikeouts.TenthsText: only the non-negative case is stated. The "-0.0" and exponent forms Python writes for some floats are not modelled.
- A stat value of any JSON type other than a number or a string (for example `null`).
- JSON numbers are integers in the model (`Scalar.Int`). An ERA, slugging or other value sent as a fractional JSON number is not modelled.
