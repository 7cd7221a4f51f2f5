# f1ratings rating engine in Dafny

This project models the rating engine of `f1ratings`. The engine replays every Formula 1
season in order. After each race it appends a new `(rating, date)` entry to the history of
each driver named in the results, and one to each team that scored.

Two ingredients drive a driver's change:

- Position curve: a piecewise cubic that is `+5` at the front, `0` mid-field and `-5` at the
  back.
- Elo expected score: `1 / (1 + 10^((opponent - own)/400))`.

These feed six components, which the engine then adjusts:

- the components are the teammate score, the race, qualifying and sprint bonuses, and the race
  and sprint grid-to-finish gaps;
- team-strength multipliers are clamped to `[0.5, 1.5]`;
- a rookie multiplier applies to the positive components only;
- a fault penalty and a decay toward the base rating are subtracted.

The season weight `most_races / season_len` and its logarithmic "influence" form scale the
result. Teams are ranked by a weighted average of their drivers' positions. Each team then
moves by its distance to the median position, scaled by an Elo expected score against the
average scored team. At a season boundary, team ratings can be reset, re-rated around the
season median, or reset on re-entry.

The model is written in the source's own shape:

| File | Module | What it holds |
|---|---|---|
| `base.dfy` | `Base` | `Option`, `Result` and the error kinds that stand for the source's exceptions. `Math`, a record of the `exp`, `log` and `10**` functions, with the facts the engine needs (`Lawful`). The Elo expected score. |
| `records.dfy` | `Records` | Drivers, teams, results, races, qualifying, sprints, seasons. The "only appended" relations `DriversExtend` / `TeamsExtend`. |
| `config.dfy` | `Config` | The constants of `config.py`, and a `RunConfig` for the three season switches, the current year and the two names `compute.py` uses but never defines. |
| `sorting.dfy`, `search.dfy` | `Sorting`, `Search` | Python's stable `sort(key=...)` as an insertion sort, both as a function and in place on an `array`. The `next((x for x in s if key(x) == k), None)` search. |
| `helpers.dfy` | `Helpers` | `helpers.py`. |
| `compute_driver.dfy` | `ComputeDriver` | `compute_driver.py`. |
| `compute_team.dfy` | `ComputeTeam` | `compute_team.py`. |
| `race_driver.dfy` | `RaceDriver` | The driver phase of one race in `compute.py`: lines 39-206. |
| `race_team.dfy` | `RaceTeam` | The team aggregation and team update of one race: lines 208-260. |
| `compute.dfy` | `Compute` | `compute_ratings` as a whole. |

How the source's forms carry over:

- Functions that build a value in a loop become a `method` with a loop, proved equal to a
  specification function. The source's loops are the lookups, the decay maps, the teammate
  lists, the aggregation averages, and the race and season loops.
- Sorts of the caller's list become in-place sorts of an `array`. These are
  `get_last_race_*` and the sort inside `compute_team_rating_change`.
- Properties are lemmas about those functions.
- Exceptions become `Result` errors:
  - `ZeroDivision` for a division by zero;
  - `MathDomain` for `log` of a non-positive number;
  - `MissingDriver` for the `AttributeError` of `None.ratings`;
  - `EmptyIndex` for `races[0]` on an empty list.

## Model

| member | source | states |
|---|---|---|
| Base.ExpectedScore | f1ratings/compute_driver.py:33 | the Elo expected score `1/(1+10^((opp-own)/400))` lies strictly between 0 and 1, and is exactly 1/2 at equal ratings |
| Helpers.DistributionFunction | f1ratings/helpers.py:4-17 | 0 when `x` or `a` is not numeric; exactly `N` for `x <= 0`; 0 for `x > a`; raises ZeroDivisionError exactly when `a == 2` and `0 < x <= 1` |
| Helpers.CurvePieces | f1ratings/helpers.py:12-15 | up to `a/2` the curve is the falling cubic from `N`; from there to `a`, the cubic falling to `-N` |
| Helpers.CurveEndpoints | f1ratings/helpers.py:12-15 | for `a > 0` with `a/2 != 1`, `x = a` gives `-N` and `x = a/2` gives 0 |
| Helpers.CurveBounded | f1ratings/helpers.py:12-15 | for `a/2 > 1`, `N >= 0` and `1 <= x <= a`, the value lies in `[-N, N]` |
| Helpers.CurveOvershoots | f1ratings/helpers.py:12-13 | for `a/2 > 1`, `N > 0` and `0 < x < 1`, the value exceeds `N`, so the bound needs `x >= 1` |
| Helpers.CurveNonIncreasing | f1ratings/helpers.py:12-15 | for `a/2 > 1`, `N >= 0` and `x <= y` both in `{0}` or `[1, a]`, the value at `y` is at most the value at `x` |
| Helpers.InfluenceFunction | f1ratings/helpers.py:19-25 | 0 for a non-numeric `x`; raises a math domain error exactly when `a + 1 <= 0` or `a*x + 1 <= 0` |
| Helpers.InfluenceAtOne | f1ratings/helpers.py:24-25 | `influence_function(1, a, b) == 1` for every `b` and every `a > -1`, whatever `log` is |
| Helpers.IsDriverFault | f1ratings/helpers.py:27-39 | true exactly for the statuses 20, 77, 81 and 97; the status table is not consulted |
| Helpers.GetDriverById | f1ratings/helpers.py:41-45 | returns the first driver with the id, and none exactly when no driver has it |
| Helpers.GetTeamById | f1ratings/helpers.py:47-51 | returns the first team with the id, and none exactly when no team has it |
| Helpers.LowerNormalises | f1ratings/helpers.py:56 | `lower()` leaves no upper-case ASCII letter, so lowering twice is the same as lowering once |
| Helpers.GetDriverByName | f1ratings/helpers.py:53-58 | returns the first driver whose `"forename surname"` equals the name ignoring case, and none exactly when there is no such driver |
| Helpers.GetTeamByName | f1ratings/helpers.py:60-64 | returns the first team whose name equals the name ignoring case, and none exactly when there is no such team |
| Helpers.LatestRaceFirst | f1ratings/helpers.py:67-68 | after sorting by date descending, the first race is one of the races and no race is later |
| Helpers.DriverSetOf | f1ratings/helpers.py:69-73 | the set holds the lookup of every result's driver id, an unknown id contributing `None` |
| Helpers.TeamSetOf | f1ratings/helpers.py:79-83 | the set holds the lookup of every result's team id, an unknown id contributing `None` |
| Helpers.GetLastRaceDrivers | f1ratings/helpers.py:66-74 | leaves `races` sorted by date descending (a stable sort); for an empty list raises IndexError; otherwise returns the set of lookups for the driver ids of the latest race |
| Helpers.GetLastRaceTeams | f1ratings/helpers.py:76-84 | the same for teams and the results' team ids |
| Search.FirstIndex | f1ratings/helpers.py:41-45 | the index found is the first with the key; none exactly when no element has it |
| Sorting.SortByFacts | f1ratings/compute_team.py:14 | `sort(key=...)` yields a list sorted by the key that is a permutation of the input |
| Sorting.SortByStable | f1ratings/compute_team.py:14 | the sort is stable: the elements with any one key come out in their input order, which decides the order of tied teams |
| Sorting.SortInPlace | f1ratings/compute_team.py:14 | sorting the array in place leaves exactly the sorted sequence |
| Sorting.MiddleIsOrderStatistic | f1ratings/compute_team.py:15 | `sorted[n//2]` is an element of the list, with at most `n//2` keys strictly below it and more than `n//2` at or below it |
| ComputeDriver.TeammateIds | f1ratings/compute_driver.py:14-16 | the teammate list is empty exactly when no other result shares the team id, and it never holds the driver itself |
| ComputeDriver.Diffs | f1ratings/compute_driver.py:19-25 | each difference is the teammate's position, or `lastPossiblePosition` when it does not parse, minus the driver's own |
| ComputeDriver.ComputeDiffs | f1ratings/compute_driver.py:19-25 | the loop builds exactly `Diffs` |
| ComputeDriver.ExpectedScores | f1ratings/compute_driver.py:27-34 | the k-th score is the Elo expected score of the driver's current rating against the k-th teammate that is a known driver with a rating (unknown or unrated teammates are skipped); it raises exactly when some teammate is rated and the driver itself is unknown (`MissingDriver`) or unrated (`EmptyIndex`) |
| ComputeDriver.ComputeExpectedScores | f1ratings/compute_driver.py:27-34 | the loop builds exactly `ExpectedScores`, raising when the driver itself is not found |
| ComputeDriver.Distributed | f1ratings/compute_driver.py:38-45 | each distributed gap is the curve of `abs(d)` over span `L-1`, with the sign of `d` |
| ComputeDriver.ComputeDistributed | f1ratings/compute_driver.py:38-45 | the loop builds exactly `Distributed` |
| ComputeDriver.AdjustedKeepsSign | f1ratings/compute_driver.py:47 | with every expected score in (0, 1), each term `dist * 2 * E` has the sign of its distributed gap and is smaller than `2 * dist` in size (0 for a zero gap) |
| ComputeDriver.ComputeTeammatePlaceDiff | f1ratings/compute_driver.py:5-49 | the method computes `TeammatePlaceDiff` |
| ComputeDriver.ComputeScoreFromDiffs | f1ratings/compute_driver.py:27-49 | the expected-score loop, the distribution loop and the adjusted mean compute exactly `ScoreFromDiffs`: 0 without an expected score, the error of the first failing lookup or curve otherwise |
| ComputeDriver.TeammateUnplacedNotFault | f1ratings/compute_driver.py:6-10 | an unparsable own position with a status that is not a fault scores 0 |
| ComputeDriver.TeammateUnplacedFault | f1ratings/compute_driver.py:11-12 | an unparsable own position with a fault status scores as `lastPossiblePosition` |
| ComputeDriver.TeammateAlone | f1ratings/compute_driver.py:14-16 | with no other result sharing the team id, the score is 0 |
| ComputeDriver.TeammateUnplacedCountsLast | f1ratings/compute_driver.py:20-24 | a teammate whose position does not parse scores as if at `lastPossiblePosition`, whatever its status |
| ComputeDriver.TiedGapFull | f1ratings/compute_driver.py:39-44 | a tied gap `d = 0` distributes to the full `+5` |
| ComputeDriver.SignedGapSign | f1ratings/compute_driver.py:39-44 | up to half the span the distributed gap keeps the sign of `d`; beyond half the span it has the opposite sign |
| ComputeDriver.WorkedCaseWinner | f1ratings/compute_driver.py:44 | field of 5, teammates at P1 and P5 at equal ratings: the P1 driver scores exactly `-5` |
| ComputeDriver.WorkedCaseLoser | f1ratings/compute_driver.py:44 | in the same field the P5 driver scores exactly `+5` |
| ComputeDriver.DriverDecaysFacts | f1ratings/compute_driver.py:51-59 | the map holds exactly the ids of drivers off `BASE_DRIVER_RATING`, each bound to `(r - BASE) / (full / w)`; it raises exactly when some driver is off base and `w` or `full` is 0 |
| ComputeDriver.DriverDecaysLastWins | f1ratings/compute_driver.py:51-59 | with repeated ids, an id is bound to the decay of the last driver with it that is off base, as the dict assignment leaves it |
| ComputeDriver.DecaySign | f1ratings/compute_driver.py:57 | for `full / w > 0`, the decay has the sign of the deviation from the base |
| ComputeDriver.ComputeDriversRatingDecay | f1ratings/compute_driver.py:51-59 | the loop builds exactly `DriverDecays` |
| ComputeTeam.MinPos | f1ratings/compute_team.py:9 | the best position is at most every position and is one of them |
| ComputeTeam.MaxPos | f1ratings/compute_team.py:10 | the worst position is at least every position and is one of them |
| ComputeTeam.TeamRatingChangeZero | f1ratings/compute_team.py:4-21 | the change is 0 when the team id is not listed, when best equals worst, when the team is not found, and when it has no ratings |
| ComputeTeam.TeamRatingChangeScaled | f1ratings/compute_team.py:16-33 | when the change is scored, it has the sign of `raw = (middle - team_pos + n) / (worst - best)` and is strictly smaller than it in size |
| ComputeTeam.MiddleIsMedian | f1ratings/compute_team.py:14-15 | the middle value is the median order statistic of the weighted positions |
| ComputeTeam.ComputeScoredChange | f1ratings/compute_team.py:19-33 | the lookup, the filter of the sorted ids and the average compute exactly the scored part of the change, 0 on every early return |
| ComputeTeam.ComputeTeamRatingChange | f1ratings/compute_team.py:4-33 | returns `TeamRatingChange`; leaves the caller's array untouched on the early returns and sorted ascending by position afterwards |
| ComputeTeam.CollectSeasonTeamIds | f1ratings/compute_team.py:36-40 | the loop collects exactly the team ids of every result of every race of the season |
| ComputeTeam.ResultTeamIdsMembers | f1ratings/compute_team.py:39-40 | an id is collected from a race exactly when some result of it carries that team id |
| ComputeTeam.SeasonTeamIdsMembers | f1ratings/compute_team.py:36-40 | an id is in the season set exactly when some race of the season contributes it |
| ComputeTeam.RerateAppendsOne | f1ratings/compute_team.py:35-58 | every team keeps its id and name; a team absent from the season, or any team on a no-op, is unchanged; otherwise a season team gains exactly one undated entry |
| ComputeTeam.RerateExtends | f1ratings/compute_team.py:48-56 | re-rating only appends to the histories |
| ComputeTeam.RerateKeepsDifferences | f1ratings/compute_team.py:47-56 | pairwise differences among rated season teams are preserved; a season team with an empty history gets `BASE_TEAM_RATING` |
| ComputeTeam.RerateRecentres | f1ratings/compute_team.py:52-54 | a rated season team moves to `last - median + BASE_TEAM_RATING` |
| ComputeTeam.RerateMedianOnBase | f1ratings/compute_team.py:47-53 | the team at the median lands exactly on `BASE_TEAM_RATING` |
| ComputeTeam.RerateMedianExists | f1ratings/compute_team.py:44-47 | the median is the middle order statistic of the season ratings, and some season team lands on the base |
| ComputeTeam.RerateScenario | f1ratings/compute_team.py:35-58 | three season teams rated 1000, 1100 and 1500 are re-rated to 1100, 1200 and 1600 |
| ComputeTeam.ComputeRerateTeams | f1ratings/compute_team.py:35-58 | the loops compute exactly `RerateTeams`, including the two no-op returns |
| ComputeTeam.TeamDecaysFacts | f1ratings/compute_team.py:60-68 | the map holds exactly the ids of teams off `BASE_TEAM_RATING`, each bound to its decay; it raises exactly when some team is off base and `w` or `full` is 0 |
| ComputeTeam.TeamDecaysLastWins | f1ratings/compute_team.py:60-68 | with repeated ids, an id is bound to the decay of the last team with it that is off base, as the dict assignment leaves it |
| ComputeTeam.ComputeTeamsRatingDecay | f1ratings/compute_team.py:60-68 | the loop builds exactly `TeamDecays` |
| ComputeTeam.ResetTeamReentryFacts | f1ratings/compute_team.py:70-87 | no-op without a season of the previous year; otherwise a team present this season and absent last season gains exactly `(BASE_TEAM_RATING, None)`, and every other team is unchanged |
| ComputeTeam.ResetExtends | f1ratings/compute_team.py:84-86 | the reset only appends to the histories |
| ComputeTeam.ReentryScenario | f1ratings/compute_team.py:84-86 | a team back in 1955 after missing 1954 gains `(1200, None)` after its 1954 entry |
| ComputeTeam.ComputeResetTeamReentryRatings | f1ratings/compute_team.py:70-87 | the loops compute exactly `ResetTeamReentryRatings` |
| RaceDriver.GridGap | f1ratings/compute.py:75-82 | the gap is 0 without a starting slot or a parsable finish, and positive exactly when the driver finished ahead of where they started |
| RaceDriver.NoGapFullGridTerm | f1ratings/compute.py:84-91 | a gap of 0 takes the full `+5` grid term |
| RaceDriver.Clamp | f1ratings/compute.py:143-151 | the multiplier is clamped to `[0.5, 1.5]` and is unchanged inside it |
| RaceDriver.MultipliersFor | f1ratings/compute.py:140-151 | the growth and dumper multipliers both lie in `[0.5, 1.5]` |
| RaceDriver.BaseTeamNeutral | f1ratings/compute.py:140-141 | a team on the base rating gives both multipliers 1 |
| RaceDriver.TeamScaledFacts | f1ratings/compute.py:153-164 | negative bonuses use the dumper multiplier and non-negative ones the growth multiplier; the sign is kept and the size changes by a factor in `[0.5, 1.5]` |
| RaceDriver.RookieWindow | f1ratings/compute.py:125-127 | the window is the larger of 2 and `ROOKIE_RATING_COUNT / ws` (at least both, and equal to one of them); raises exactly when `ws` is 0 |
| RaceDriver.RookieMultiplier | f1ratings/compute.py:132-135 | at least 1, and above 1 exactly while the history is shorter than both the window and `ROOKIE_RATING_COUNT` |
| RaceDriver.RookieMultiplierRange | f1ratings/compute.py:133 | inside the window the boost exceeds 1, is at most `1 + ROOKIE_MODIFIER`, and grows as the history nears `ROOKIE_RATING_COUNT` |
| RaceDriver.Penalty | f1ratings/compute.py:136-138 | the penalty is `rating * PENALTY_FACTOR` for a fault status once the history reaches the window, and 0 otherwise |
| RaceDriver.RookieSparesLosses | f1ratings/compute.py:166-203 | when no component is positive, the rookie multiplier changes nothing |
| RaceDriver.RookieBoostsGains | f1ratings/compute.py:166-203 | when every component is non-negative the rookie multiplier can only raise the change |
| RaceDriver.RecordFacts | f1ratings/compute.py:99-123 | the team keys stay distinct and in first-seen order; the result's team has the race placing and its qualifying and sprint placings (when it has them) appended to its three lists, a new team enters with exactly those, and every other team's lists are unchanged |
| RaceDriver.RecordEntryFor | f1ratings/compute.py:99-123 | recording appends to the entry under its own team id and leaves the entry under every other id as it was |
| RaceDriver.RecordKeys | f1ratings/compute.py:99-100 | recording adds the result's team id to the keys of the dicts and no other |
| RaceDriver.ResultStepHistory | f1ratings/compute.py:129-206 | a result appends exactly one entry to the first driver with its id, dated with the race and valued `rating + rating_change - decay` (`NewDriverRating` of the result's components and the rookie window), and changes no other driver |
| RaceDriver.ResultStepEntries | f1ratings/compute.py:99-123 | a result keeps the team keys of the per-team placings distinct |
| RaceDriver.DriverPhaseEntries | f1ratings/compute.py:44-123 | over a race, the team keys of the per-team placings stay distinct |
| RaceDriver.DriverPhaseRecords | f1ratings/compute.py:44-123 | over the results, the lists under every team id are those it had followed by the placings of that team's results in result order (`TeamPlacings`), an unparsed position counting as the field size |
| RaceDriver.DriverPhaseKeys | f1ratings/compute.py:44-123 | over the results, the keys are those there were and the team ids of the results |
| RaceDriver.RacePlacingsRecorded | f1ratings/compute.py:44-123 | after one race, the dicts hold one key per team id among the results, in first-seen order, and under each exactly that team's placings in result order |
| RaceDriver.DriverPhaseFacts | f1ratings/compute.py:44-206 | over a race, each driver gains exactly one entry per result naming it, all dated with the race |
| RaceDriver.DriverPhaseUntouched | f1ratings/compute.py:129-130 | a driver no result names leaves the race unchanged |
| RaceDriver.ComputeComponents | f1ratings/compute.py:45-93 | the method computes the six components `ResultComponents` |
| RaceDriver.ApplyResult | f1ratings/compute.py:45-206 | the loop body computes exactly `ResultStep` |
| RaceDriver.RunDriverPhase | f1ratings/compute.py:44-206 | the result loop computes exactly `DriverPhaseOver` |
| RaceTeam.ScalingAtBase | f1ratings/compute.py:215-218 | a driver on the base rating has scaling factor 1 |
| RaceTeam.PlacedRating | f1ratings/compute.py:215 | raises MissingDriver exactly when the driver id is not found |
| RaceTeam.ScaledSumAtBase | f1ratings/compute.py:213-221 | with every driver on the base rating, the accumulated sum is the plain sum of positions |
| RaceTeam.ScaledSumMissing | f1ratings/compute.py:215 | one unknown driver in a team's list makes the aggregation raise MissingDriver |
| RaceTeam.ScaledSumRaises | f1ratings/compute.py:214-219 | a list's scaled sum raises exactly when one of its placings names a driver that is not found |
| RaceTeam.WeightedPositionRaises | f1ratings/compute.py:213-247 | a team's weighted position raises, with MissingDriver, exactly when one of its race, qualifying or sprint lists names a driver that is not found |
| RaceTeam.SprintAverageCounterexample | f1ratings/compute.py:232-241 | the sprint average as written is 1.5 for two base-rated drivers at P1 and P3, where the accumulated average is 2 |
| RaceTeam.ComputeScaledAverage | f1ratings/compute.py:213-221 | the accumulating loop computes exactly `ScaledAverage` |
| RaceTeam.Aggregate | f1ratings/compute.py:208-247 | the weighted positions list the teams of the position dicts in insertion order, skipping ids that are not found (with the corrected sprint average) |
| RaceTeam.AggregateValues | f1ratings/compute.py:213-247 | each listed value is `race_avg*0.6*w + quali_avg*0.3*w + sprint_avg*0.1` (`WeightedPosition`) of an entry with that team id |
| RaceTeam.AggregateRaises | f1ratings/compute.py:210-247 | the aggregation raises, with MissingDriver, exactly when an entry whose team is found has a list naming a driver that is not found; entries of unknown teams are never read |
| RaceTeam.RaceWeightedPositions | f1ratings/compute.py:44-247 | over one race, every found team of the results is weighed exactly once, at the weighted position of the placings its own results recorded, read with the drivers' updated ratings |
| RaceTeam.FoundIdsFacts | f1ratings/compute.py:210-212 | the listed ids are exactly the dict's ids with a team, and stay distinct |
| RaceTeam.ComputeAggregation | f1ratings/compute.py:208-247 | the aggregation loop computes exactly `Aggregate`, whose values and errors `AggregateValues` and `AggregateRaises` state; its sprint average accumulates where line 239 overwrites |
| RaceTeam.TeamUpdatedFacts | f1ratings/compute.py:251-260 | the first team with the id gains exactly one entry dated with the race, valued `last + change * SWING_MULTIPLIER_TEAM * ws - decay`; no other team changes |
| RaceTeam.TeamPhaseFacts | f1ratings/compute.py:250-260 | each team gains one entry per visit that names it, dated with the race |
| RaceTeam.TeamPhaseOncePerTeam | f1ratings/compute.py:249-260 | visiting a snapshot of the ids, each team with a weighted position gains exactly one entry, and every other team none |
| RaceTeam.VisitsCounterexample | f1ratings/compute.py:250-252 | positions `[(1,3),(2,1),(3,2)]` are visited as `[1, 3, 1]`: team 2 never |
| RaceTeam.TeamPhaseCounterexample | f1ratings/compute.py:250-260 | visited as written, team 2 gains no rating and team 1 gains two |
| RaceTeam.VisitTeam | f1ratings/compute.py:251-260 | one visit updates the team and sorts the shared list as `compute_team_rating_change` does |
| RaceTeam.RunTeamPhase | f1ratings/compute.py:249-260 | the corrected team loop computes exactly the fold over the snapshot of ids |
| RaceTeam.RunTeamPhaseAsWritten | f1ratings/compute.py:249-260 | iterating the list while it is sorted in place visits exactly `VisitsAsWritten` |
| Compute.DriversWithBase | f1ratings/compute.py:9-10 | every driver gains exactly `(BASE_DRIVER_RATING, None)` |
| Compute.TeamsWithBase | f1ratings/compute.py:22-24 | every team gains exactly `(BASE_TEAM_RATING, None)` (also the seeding of lines 12-13) |
| Compute.SeedFacts | f1ratings/compute.py:9-13 | every driver ends on the base rating; teams too unless both reset and re-rate are on, in which case they are untouched |
| Compute.MostRaces | f1ratings/compute.py:15-18 | the largest number of races of any season, and 0 when there are none |
| Compute.ComputeMostRaces | f1ratings/compute.py:15-18 | the loop computes exactly `MostRaces` |
| Compute.SeasonWeight | f1ratings/compute.py:31-34 | `most / len`, which raises ZeroDivisionError exactly when the length is 0 |
| Compute.LongestSeasonNeutral | f1ratings/compute.py:34-35 | the longest season weighs 1 and so does its scaled weight |
| Compute.ShorterSeasonHeavier | f1ratings/compute.py:34 | a shorter, non-empty season weighs more than 1 |
| Compute.OpenSeason | f1ratings/compute.py:22-29 | the season's opening only appends to team histories; it keeps every team rated, and rates every team when the reset is on |
| Compute.OpenSeasonOff | f1ratings/compute.py:22-29 | with all three switches off the season opens with the teams as they are |
| Compute.OpenSeasonReset | f1ratings/compute.py:22-24 | with only the reset on, every team gains `(BASE_TEAM_RATING, None)` |
| Compute.RaceStep | f1ratings/compute.py:37-260 | a race keeps every history non-empty, only appends, and dates every new driver entry with a race (with the corrected sprint average and team visit) |
| Compute.ComputeRatingsHistories | f1ratings/compute.py:8-262 | the result keeps every driver and team, their ids and earlier histories, then the seeded base entry, then for drivers only dated entries |
| Compute.ComputeRatingsEmptySeason | f1ratings/compute.py:31-34 | a season whose length is taken as 0 makes the whole computation raise |
| Compute.RunRace | f1ratings/compute.py:39-260 | the race body computes exactly `RaceStep`, with the corrected sprint average and team visit |
| Compute.RunRaces | f1ratings/compute.py:37-260 | the race loop computes exactly the fold of `RaceStep`, with the corrected sprint average and team visit |
| Compute.RunSeason | f1ratings/compute.py:20-260 | the season body computes exactly `SeasonStep`, with the corrected sprint average and team visit |
| Compute.ComputeRatings | f1ratings/compute.py:8-262 | the method computes exactly `ComputeRatingsSpec`, with the corrected sprint average and team visit |

## Left out

- `print` calls (`compute.py` lines 21 and 38). Data loading, plots, the API facade, file
  output and console formatting are not part of this model.
- IEEE floating point: positions, ratings and weights are `real`, with no rounding.
- `exp`, `log` and `10**` are the fields of `Base.Math`. The engine relies only on these facts:
  - `exp` and `10**` are positive;
  - `exp(0) == 1` and `10**0 == 1`.
- The current year replaces `datetime.now().year` (`compute.py` line 32). It is the field
  `RunConfig.currentYear`.
- `CURRENT_SEASON_LENGTH` and `DRIVER_RATING_DEVIATION_MULTIPLIER` are used at `compute.py`
  lines 33 and 217 but defined nowhere. They are the fields `currentSeasonLength` and
  `driverRatingDeviationMultiplier` of `RunConfig`. As written they raise `NameError`.
- `compute.py` line 35 calls `influence_function(..., c=0.19)`, but `helpers.py` line 19
  accepts only `(x, a, b)`. As written the call raises `TypeError`. The model applies
  `influence_function(w, 2.9, 0.6)` and drops the extra argument.
- Object identity is not modelled: the lists are values. The source creates each driver and
  team object once. `teams.copy()` shares the team objects, so the change computation sees
  ratings appended earlier in the same loop. The model reproduces this by passing it the
  current teams.
- A `set` of drivers or teams is a Dafny `set` of `Option` values, and its order as a list is
  not modelled (`get_last_race_*`).
- `lower()` is modelled on ASCII letters only.
- State after an exception: an error aborts the whole run. The histories already appended
  before it are not modelled.
- A status is an `int`. The source's guard `status is not None` at `compute.py` line 49 is
  therefore always true. The status table is carried along but never read, as in the source.
- The three `teams_positions_*` dicts get the same key at the same moment (lines 99-117). They
  are modelled as one list of `TeamEntry` records holding three placing lists.
- ComputeDriver.DriverDecays and ComputeTeam.TeamDecays require every history to be
  non-empty. An empty history would raise `IndexError` at `ratings[-1]`. `compute_ratings`
  seeds every driver before it rates any, and every team unless teams are re-rated instead.
  Within the engine the precondition is therefore always met, as `Compute.RaceStep` shows.
- Compute.ComputeRatingsEmptySeason: states only that the computation raises, not which
  error. An earlier season can raise first.
- Compute.ComputeRatingsHistories: states how the histories begin, not the value of each
  later entry. The values are stated per race by RaceTeam.TeamUpdatedFacts and the RaceDriver
  lemmas.

- RaceTeam.Aggregate: folds the accumulating sprint average, not the overwrite of `compute.py`
  line 239 (see Findings). The as-written average is `RaceTeam.SprintAverageAsWritten`.
- RaceTeam.ComputeAggregation: computes the corrected `Aggregate`, with the accumulating sprint
  average in place of the overwrite at `compute.py` line 239.
- Compute.RaceStep: folds the corrected sprint average and visits a snapshot of the weighted
  team ids. The source re-reads the list that `compute_team.py` line 14 sorts in place
  (`compute.py` lines 250-252); that visit is `RaceTeam.VisitsAsWritten`, run by
  `RaceTeam.RunTeamPhaseAsWritten`.
- Compute.RunRace: computes the corrected `RaceStep` (accumulating sprint average, snapshot team
  visit), not lines 239 and 250-252 as written.
- Compute.RunRaces: folds the corrected `RaceStep` (accumulating sprint average, snapshot team
  visit), not lines 239 and 250-252 as written.
- Compute.RunSeason: folds the corrected `RaceStep` (accumulating sprint average, snapshot team
  visit), not lines 239 and 250-252 as written.
- Compute.ComputeRatings: equals the engine built from the corrected `RaceStep` (accumulating
  sprint average, snapshot team visit), not lines 239 and 250-252 as written.

### Behaviour of the code worth noting

- The worked teammate case (P1 against P5 in a field of 5) gives the winner `-5` and the
  loser `+5`. The gap `4` equals the span `L - 1`, which sits at the negative end of the curve.
- The position curve is not bounded by `N` on `(0, 1)`: it exceeds `N` there.
- Beyond half the span, the distributed gap has the opposite sign to the gap.
- A gap of 0, including "no starting slot", takes the full `+5`.
- The rookie multiplier's denominator is `ROOKIE_RATING_COUNT - len`, not `window - len`.
- A teammate that is unknown or unrated gives a gap but no expected score. `zip` then pairs
  each later gap with the expected score of the teammate before it (`ComputeDriver.ExpectedScores`
  numbers the scores by rated teammate).
- The teammate score raises `AttributeError` (`MissingDriver`) when the driver's own id is
  not among the drivers.

## Findings

| source | as written | input that shows it | evidently intended | confidence | as-written member | corrected member |
|---|---|---|---|---|---|---|
| f1ratings/compute.py:239 | `sprint_avg = position[1] * scaling_factor` overwrites the sum with the last sprint driver's term before dividing by the count | two base-rated drivers of one team at sprint positions 1 and 3 give `3 / 2 = 1.5` | accumulate as for race and qualifying (`+=`), giving the mean 2 | high; not executed | RaceTeam.SprintAverageCounterexample | RaceTeam.ComputeScaledAverage |
| f1ratings/compute.py:250-252 with f1ratings/compute_team.py:14 | the loop iterates `teams_weighted_pos` while `compute_team_rating_change` sorts that same list in place, so after the first visit the iterator continues in the sorted list | weighted positions `[(1, 3.0), (2, 1.0), (3, 2.0)]` are visited as teams 1, 3, 1: team 2 gets no rating for the race and team 1 gets two | visit every team that has a weighted position exactly once | high; not executed | RaceTeam.TeamPhaseCounterexample | RaceTeam.TeamPhaseOncePerTeam |

In both rows, the race fold `Compute.RaceStep` uses the corrected definition:

- the accumulating sprint average `RaceTeam.ScaledAverage`;
- the visit of a snapshot of the ids, `RaceTeam.RunTeamPhase`.

`RaceTeam.SprintAverageAsWritten`, `RaceTeam.VisitsAsWritten` and
`RaceTeam.RunTeamPhaseAsWritten` keep the code as written.
