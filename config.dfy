/**
 * The rating constants of `config.py`, and the run configuration: the three
 * season-boundary switches, the current year (`datetime.now().year`) and the two
 * constants the engine reads but `config.py` does not define.
 */
module Config {

  const BASE_DRIVER_RATING: real := 1200.0
  const BASE_TEAM_RATING: real := 1200.0

  const PENALTY_FACTOR: real := 0.1

  const DIFF_TEAMMATES: real := 0.5
  const RACE_BONUS: real := 0.4
  const QUALI_BONUS: real := 0.3
  const SPRINT_BONUS: real := 0.05
  const DIFF_RACE: real := 0.15
  const DIFF_SPRINT: real := 0.025

  const ROOKIE_RATING_COUNT: int := 7
  const ROOKIE_MODIFIER: real := 1.5

  const TEAM_RACE_WEIGHT: real := 0.6
  const TEAM_QUALI_WEIGHT: real := 0.3
  const TEAM_SPRINT_WEIGHT: real := 0.1

  const DIFF_TEAM_GROWTH_WEIGHT: real := 3.0
  const DIFF_TEAM_DUMPER_WEIGHT: real := 2.0

  const SWING_MULTIPLIER: real := 10.0
  const SWING_MULTIPLIER_TEAM: real := 300.0

  const TEAM_RATING_DECAY_NUM_RACES: real := 5.0
  const DRIVER_RATING_DECAY_NUM_RACES: real := 100.0

  /** The amplitude every call of the position curve uses. */
  const CURVE_AMPLITUDE: real := 5.0

  /** The `a` and `b` the engine passes to the influence function. */
  const INFLUENCE_A: real := 2.9
  const INFLUENCE_B: real := 0.6

  datatype RunConfig = RunConfig(
    resetTeamRatingsSeason: bool,
    rerateTeamRatingsSeason: bool,
    resetTeamReentryRatings: bool,
    currentYear: int,
    currentSeasonLength: int,
    driverRatingDeviationMultiplier: real)

  /** The switches as `config.py` sets them. */
  function Default(currentYear: int, currentSeasonLength: int, deviationMultiplier: real): RunConfig
  {
    RunConfig(false, false, true, currentYear, currentSeasonLength, deviationMultiplier)
  }
}
