/**
 * `compute_ratings` (`compute.py`, lines 8-262): seed every history with the base rating,
 * weight each season by its length against the longest one, then rate every race of every
 * season in order, drivers first and teams after.
 */
module Compute {
  import opened Base
  import opened Records
  import opened Config
  import opened Helpers
  import opened ComputeDriver
  import opened ComputeTeam
  import opened RaceDriver
  import opened RaceTeam

  /** What the whole computation reads and never changes. */
  datatype Inputs = Inputs(m: Math, cfg: RunConfig, seasons: seq<Season>, qualis: seq<Qualifying>,
                           sprints: seq<Sprint>, statuses: Statuses)

  /** The two lists the computation updates and returns. */
  datatype Ratings = Ratings(drivers: seq<Driver>, teams: seq<Team>)

  predicate Rated(st: Ratings)
  {
    DriversRated(st.drivers) && TeamsRated(st.teams)
  }

  /** Every driver entry added between `before` and `after` is dated with a race. */
  predicate DriversDated(before: seq<Driver>, after: seq<Driver>)
  {
    forall i, k :: 0 <= i < |before| && i < |after| && |before[i].ratings| <= k < |after[i].ratings| ==>
      after[i].ratings[k].date.Some?
  }

  /** Both lists only extended, and the drivers only by race results. */
  predicate Grows(before: Ratings, after: Ratings)
  {
    DriversExtend(before.drivers, after.drivers) && TeamsExtend(before.teams, after.teams)
    && DriversDated(before.drivers, after.drivers)
  }

  lemma GrowsTransitive(a: Ratings, b: Ratings, c: Ratings)
    requires Grows(a, b) && Grows(b, c)
    ensures Grows(a, c)
  {
    DriversExtendTransitive(a.drivers, b.drivers, c.drivers);
    TeamsExtendTransitive(a.teams, b.teams, c.teams);
    forall i, k | 0 <= i < |a.drivers| && |a.drivers[i].ratings| <= k < |c.drivers[i].ratings|
      ensures c.drivers[i].ratings[k].date.Some?
    {
      if k < |b.drivers[i].ratings| {
        assert c.drivers[i].ratings[k] == c.drivers[i].ratings[..|b.drivers[i].ratings|][k];
      }
    }
  }

  // ---------------------------------------------------------------------------------------
  // Seeding (lines 9-13) and the season weight (lines 15-34)
  // ---------------------------------------------------------------------------------------

  /** Every driver gains `(BASE_DRIVER_RATING, None)`. */
  function DriversWithBase(drivers: seq<Driver>): (r: seq<Driver>)
    ensures DriversRated(r) && DriversExtend(drivers, r)
    ensures forall i :: 0 <= i < |r| ==>
      |r[i].ratings| == |drivers[i].ratings| + 1 && r[i].ratings[|drivers[i].ratings|] == Rating(BASE_DRIVER_RATING, None)
  {
    var r := seq(|drivers|, i requires 0 <= i < |drivers| =>
      drivers[i].(ratings := drivers[i].ratings + [Rating(BASE_DRIVER_RATING, None)]));
    assert forall i :: 0 <= i < |r| ==> r[i].ratings[..|drivers[i].ratings|] == drivers[i].ratings;
    r
  }

  /** Every team gains `(BASE_TEAM_RATING, None)`: the seeding, and the per-season reset. */
  function TeamsWithBase(teams: seq<Team>): (r: seq<Team>)
    ensures TeamsRated(r) && TeamsExtend(teams, r)
    ensures forall i :: 0 <= i < |r| ==>
      |r[i].ratings| == |teams[i].ratings| + 1 && r[i].ratings[|teams[i].ratings|] == Rating(BASE_TEAM_RATING, None)
  {
    var r := seq(|teams|, i requires 0 <= i < |teams| =>
      teams[i].(ratings := teams[i].ratings + [Rating(BASE_TEAM_RATING, None)]));
    assert forall i :: 0 <= i < |r| ==> r[i].ratings[..|teams[i].ratings|] == teams[i].ratings;
    r
  }

  /** Teams are seeded unless the ratings are both reset and re-rated every season. */
  predicate SeedsTeams(cfg: RunConfig)
  {
    !cfg.resetTeamRatingsSeason || !cfg.rerateTeamRatingsSeason
  }

  function Seed(cfg: RunConfig, st: Ratings): Ratings
  {
    Ratings(DriversWithBase(st.drivers), if SeedsTeams(cfg) then TeamsWithBase(st.teams) else st.teams)
  }

  /**
   * After seeding every driver, and every team unless both switches are on, ends with the
   * base rating; every history keeps its earlier entries.
   */
  lemma SeedFacts(cfg: RunConfig, st: Ratings)
    ensures DriversRated(Seed(cfg, st).drivers) && DriversExtend(st.drivers, Seed(cfg, st).drivers)
    ensures TeamsExtend(st.teams, Seed(cfg, st).teams)
    ensures TeamsRated(Seed(cfg, st).teams) || cfg.resetTeamRatingsSeason
    ensures forall i :: 0 <= i < |st.drivers| ==> Last(Seed(cfg, st).drivers[i].ratings) == BASE_DRIVER_RATING
    ensures SeedsTeams(cfg) ==> forall i :: 0 <= i < |st.teams| ==> Last(Seed(cfg, st).teams[i].ratings) == BASE_TEAM_RATING
    ensures !SeedsTeams(cfg) ==> Seed(cfg, st).teams == st.teams
  {
  }

  /** `most_races_in_season`: the largest number of races of any season, 0 for none. */
  function MostRaces(seasons: seq<Season>): (r: nat)
    ensures forall i :: 0 <= i < |seasons| ==> |seasons[i].races| <= r
    ensures r == 0 || exists i :: 0 <= i < |seasons| && |seasons[i].races| == r
    decreases |seasons|
  {
    if |seasons| == 0 then 0
    else
      var pre := MostRaces(seasons[..|seasons| - 1]);
      assert forall i :: 0 <= i < |seasons| - 1 ==> seasons[..|seasons| - 1][i] == seasons[i];
      var n := |seasons[|seasons| - 1].races|;
      if n > pre then n else pre
  }

  /** The number of races the season is taken to have: the configured length for the current year. */
  function SeasonLength(cfg: RunConfig, season: Season): int
  {
    if season.year == cfg.currentYear then cfg.currentSeasonLength else |season.races|
  }

  /**
   * `num_races_weight = most_races_in_season / season_len`: the longest season weighs 1 and a
   * shorter one more; a season of length 0 raises ZeroDivisionError.
   */
  function SeasonWeight(most: nat, len: int): (r: Result<real>)
    ensures r.Err? <==> len == 0
    ensures r.Err? ==> r.error == ZeroDivision
    ensures r.Ok? ==> r.value * (len as real) == most as real
  {
    if len == 0 then Err(ZeroDivision) else Ok((most as real) / (len as real))
  }

  /** A season as long as the longest weighs exactly 1, and so does its scaled weight. */
  lemma LongestSeasonNeutral(m: Math, most: nat)
    requires most > 0
    ensures SeasonWeight(most, most) == Ok(1.0)
    ensures InfluenceFunction(Some(1.0), INFLUENCE_A, INFLUENCE_B, m) == Ok(1.0)
  {
    DivSelf(most as real);
    InfluenceAtOne(INFLUENCE_A, INFLUENCE_B, m);
  }

  /** A shorter season weighs more than 1: its races move the ratings further. */
  lemma ShorterSeasonHeavier(most: nat, len: int)
    requires 0 < len < most
    ensures SeasonWeight(most, len).Ok? && SeasonWeight(most, len).value > 1.0
  {
    var w := SeasonWeight(most, len).value;
    var l := len as real;
    assert w * l == most as real && (most as real) > l;
    assert (w - 1.0) * l == w * l - l;
    assert (w - 1.0) * l > 0.0;
  }

  // ---------------------------------------------------------------------------------------
  // The start of a season (lines 18-28)
  // ---------------------------------------------------------------------------------------

  /**
   * The optional reset to the base rating, re-rating around the median, and re-entry reset,
   * in that order.
   */
  function OpenSeason(env: Inputs, season: Season, teams: seq<Team>): (r: seq<Team>)
    ensures TeamsExtend(teams, r)
    ensures TeamsRated(teams) || env.cfg.resetTeamRatingsSeason ==> TeamsRated(r)
  {
    var reset := if env.cfg.resetTeamRatingsSeason then TeamsWithBase(teams) else teams;
    var rerated := if env.cfg.rerateTeamRatingsSeason then RerateTeams(season, reset) else reset;
    RerateExtends(season, reset);
    TeamsExtendTransitive(teams, reset, rerated);
    var r := if env.cfg.resetTeamReentryRatings then ResetTeamReentryRatings(env.seasons, season, rerated) else rerated;
    ResetExtends(env.seasons, season, rerated);
    TeamsExtendTransitive(teams, rerated, r);
    r
  }

  /** With every switch off, a season starts from the ratings the last one left. */
  lemma OpenSeasonOff(env: Inputs, season: Season, teams: seq<Team>)
    requires !env.cfg.resetTeamRatingsSeason && !env.cfg.rerateTeamRatingsSeason && !env.cfg.resetTeamReentryRatings
    ensures OpenSeason(env, season, teams) == teams
  {
  }

  /**
   * With only the reset on, every team starts the season on the base rating, with an
   * undated entry.
   */
  lemma OpenSeasonReset(env: Inputs, season: Season, teams: seq<Team>, i: nat)
    requires env.cfg.resetTeamRatingsSeason && !env.cfg.rerateTeamRatingsSeason && !env.cfg.resetTeamReentryRatings
    requires i < |teams|
    ensures Last(OpenSeason(env, season, teams)[i].ratings) == BASE_TEAM_RATING
    ensures OpenSeason(env, season, teams)[i].ratings == teams[i].ratings + [Rating(BASE_TEAM_RATING, None)]
  {
    var r := OpenSeason(env, season, teams);
    assert r[i].ratings == r[i].ratings[..|teams[i].ratings|] + [r[i].ratings[|teams[i].ratings|]];
  }

  // ---------------------------------------------------------------------------------------
  // One race, one season, all seasons
  // ---------------------------------------------------------------------------------------

  function ContextFor(env: Inputs, w: real, ws: real): RaceContext
  {
    RaceContext(env.m, env.statuses, env.qualis, env.sprints, w, ws)
  }

  /**
   * One race (lines 36-260): the driver decays on the ratings before the race, the driver
   * phase, then the team decays, the team positions and the team phase.
   */
  function RaceStep(env: Inputs, ctx: RaceContext, st: Ratings, race: Race): (r: Result<Ratings>)
    requires Lawful(ctx.m) && Rated(st)
    ensures r.Ok? ==> Rated(r.value) && Grows(st, r.value)
  {
    var decays :- DriverDecays(st.drivers, DRIVER_RATING_DECAY_NUM_RACES, ctx.w);
    var phase :- DriverPhaseOver(ctx, st.teams, decays, race, DriverPhase(st.drivers, []), race.results);
    var teamDecays :- TeamDecays(st.teams, TEAM_RATING_DECAY_NUM_RACES, ctx.w);
    var wp :- Aggregate(ctx.w, env.cfg.driverRatingDeviationMultiplier, phase.drivers, st.teams, phase.entries);
    var teams := TeamPhaseOver(ctx.m, ctx.ws, teamDecays, race.date, TeamPhase(st.teams, wp), WeightedIds(wp)).teams;
    RaceDatesDrivers(ctx, st.teams, decays, race, st.drivers);
    Ok(Ratings(phase.drivers, teams))
  }

  /** The driver phase dates every entry it adds. */
  lemma RaceDatesDrivers(ctx: RaceContext, teams: seq<Team>, decays: map<int, real>, race: Race, drivers: seq<Driver>)
    requires Lawful(ctx.m) && DriversRated(drivers) && TeamsRated(teams)
    ensures var r := DriverPhaseOver(ctx, teams, decays, race, DriverPhase(drivers, []), race.results);
      r.Ok? ==> DriversDated(drivers, r.value.drivers)
  {
    var r := DriverPhaseOver(ctx, teams, decays, race, DriverPhase(drivers, []), race.results);
    if r.Ok? {
      forall i, k | 0 <= i < |drivers| && i < |r.value.drivers| && |drivers[i].ratings| <= k < |r.value.drivers[i].ratings|
        ensures r.value.drivers[i].ratings[k].date.Some?
      {
        DriverPhaseFacts(ctx, teams, decays, race, DriverPhase(drivers, []), race.results, i);
      }
    }
  }

  /** The races of a season, in order. */
  function RacesOver(env: Inputs, ctx: RaceContext, st: Ratings, races: seq<Race>): (r: Result<Ratings>)
    requires Lawful(ctx.m) && Rated(st)
    ensures r.Ok? ==> Rated(r.value) && Grows(st, r.value)
    decreases |races|
  {
    if |races| == 0 then Ok(st)
    else
      var pre :- RacesOver(env, ctx, st, races[..|races| - 1]);
      var r :- RaceStep(env, ctx, pre, races[|races| - 1]);
      GrowsTransitive(st, pre, r);
      Ok(r)
  }

  /**
   * One season (lines 17-260): open it, weigh it, scale the weight, and rate its races; the
   * weight raises when the season's length is 0, and the scaled weight when `log` does.
   */
  function SeasonStep(env: Inputs, most: nat, st: Ratings, season: Season): (r: Result<Ratings>)
    requires Lawful(env.m) && DriversRated(st.drivers) && (TeamsRated(st.teams) || env.cfg.resetTeamRatingsSeason)
    ensures r.Ok? ==> Rated(r.value) && Grows(st, r.value)
  {
    var teams := OpenSeason(env, season, st.teams);
    var w :- SeasonWeight(most, SeasonLength(env.cfg, season));
    var ws :- InfluenceFunction(Some(w), INFLUENCE_A, INFLUENCE_B, env.m);
    var begun := Ratings(st.drivers, teams);
    assert Grows(st, begun);
    var r :- RacesOver(env, ContextFor(env, w, ws), begun, season.races);
    GrowsTransitive(st, begun, r);
    Ok(r)
  }

  /** The seasons, in order. */
  function SeasonsOver(env: Inputs, most: nat, st: Ratings, seasons: seq<Season>): (r: Result<Ratings>)
    requires Lawful(env.m) && DriversRated(st.drivers) && (TeamsRated(st.teams) || env.cfg.resetTeamRatingsSeason)
    ensures r.Ok? ==> DriversRated(r.value.drivers) && (TeamsRated(r.value.teams) || env.cfg.resetTeamRatingsSeason)
    ensures r.Ok? ==> Grows(st, r.value)
    decreases |seasons|
  {
    if |seasons| == 0 then Ok(st)
    else
      var pre :- SeasonsOver(env, most, st, seasons[..|seasons| - 1]);
      var r :- SeasonStep(env, most, pre, seasons[|seasons| - 1]);
      GrowsTransitive(st, pre, r);
      Ok(r)
  }

  /** `compute_ratings(seasons, drivers, teams, qualis, sprints, statuses)`. */
  function ComputeRatingsSpec(env: Inputs, drivers: seq<Driver>, teams: seq<Team>): Result<Ratings>
    requires Lawful(env.m)
  {
    var seeded := Seed(env.cfg, Ratings(drivers, teams));
    SeedFacts(env.cfg, Ratings(drivers, teams));
    SeasonsOver(env, MostRaces(env.seasons), seeded, env.seasons)
  }

  // ---------------------------------------------------------------------------------------
  // What the whole computation promises
  // ---------------------------------------------------------------------------------------

  /**
   * The computation only appends: each driver keeps its id, names and earlier history,
   * followed by the base rating and then only entries dated with a race; each team keeps its
   * id, name and earlier history, followed by the base rating whenever teams are seeded.
   */
  lemma ComputeRatingsHistories(env: Inputs, drivers: seq<Driver>, teams: seq<Team>)
    requires Lawful(env.m) && ComputeRatingsSpec(env, drivers, teams).Ok?
    ensures var r := ComputeRatingsSpec(env, drivers, teams).value;
      |r.drivers| == |drivers| && |r.teams| == |teams|
    ensures var r := ComputeRatingsSpec(env, drivers, teams).value;
      forall i :: 0 <= i < |drivers| ==>
        r.drivers[i].id == drivers[i].id && |r.drivers[i].ratings| > |drivers[i].ratings|
        && r.drivers[i].ratings[..|drivers[i].ratings| + 1] == drivers[i].ratings + [Rating(BASE_DRIVER_RATING, None)]
    ensures var r := ComputeRatingsSpec(env, drivers, teams).value;
      forall i, k :: 0 <= i < |drivers| && |drivers[i].ratings| < k < |r.drivers[i].ratings| ==>
        r.drivers[i].ratings[k].date.Some?
    ensures var r := ComputeRatingsSpec(env, drivers, teams).value;
      forall i :: 0 <= i < |teams| ==>
        r.teams[i].id == teams[i].id && r.teams[i].ratings[..|teams[i].ratings|] == teams[i].ratings
        && (SeedsTeams(env.cfg) ==>
              |r.teams[i].ratings| > |teams[i].ratings| && r.teams[i].ratings[|teams[i].ratings|] == Rating(BASE_TEAM_RATING, None))
  {
    var st := Ratings(drivers, teams);
    var seeded := Seed(env.cfg, st);
    SeedFacts(env.cfg, st);
    var r := ComputeRatingsSpec(env, drivers, teams).value;
    assert Grows(seeded, r);
    forall i | 0 <= i < |drivers|
      ensures r.drivers[i].ratings[..|drivers[i].ratings| + 1] == drivers[i].ratings + [Rating(BASE_DRIVER_RATING, None)]
    {
      var s := seeded.drivers[i].ratings;
      assert r.drivers[i].ratings[..|s|] == s;
      assert s == drivers[i].ratings + [Rating(BASE_DRIVER_RATING, None)];
    }
    forall i | 0 <= i < |teams|
      ensures r.teams[i].ratings[..|teams[i].ratings|] == teams[i].ratings
      ensures SeedsTeams(env.cfg) ==> r.teams[i].ratings[|teams[i].ratings|] == Rating(BASE_TEAM_RATING, None)
    {
      var s := seeded.teams[i].ratings;
      assert r.teams[i].ratings[..|s|] == s;
      assert s[..|teams[i].ratings|] == teams[i].ratings;
      assert r.teams[i].ratings[..|teams[i].ratings|] == r.teams[i].ratings[..|s|][..|teams[i].ratings|];
      if SeedsTeams(env.cfg) {
        assert r.teams[i].ratings[|teams[i].ratings|] == r.teams[i].ratings[..|s|][|teams[i].ratings|];
      }
    }
  }

  /** A season that is taken to have no races makes the computation raise ZeroDivisionError. */
  lemma {:induction false} EmptySeasonRaises(env: Inputs, most: nat, st: Ratings, seasons: seq<Season>, k: nat)
    requires Lawful(env.m) && DriversRated(st.drivers) && (TeamsRated(st.teams) || env.cfg.resetTeamRatingsSeason)
    requires k < |seasons| && SeasonLength(env.cfg, seasons[k]) == 0
    ensures SeasonsOver(env, most, st, seasons).Err?
    decreases |seasons|
  {
    if k < |seasons| - 1 {
      EmptySeasonRaises(env, most, st, seasons[..|seasons| - 1], k);
    } else {
      var pre := SeasonsOver(env, most, st, seasons[..|seasons| - 1]);
      if pre.Ok? {
        SeasonStepEmpty(env, most, pre.value, seasons[k]);
      }
    }
  }

  lemma SeasonStepEmpty(env: Inputs, most: nat, st: Ratings, season: Season)
    requires Lawful(env.m) && DriversRated(st.drivers) && (TeamsRated(st.teams) || env.cfg.resetTeamRatingsSeason)
    requires SeasonLength(env.cfg, season) == 0
    ensures SeasonStep(env, most, st, season).Err?
  {
    assert SeasonWeight(most, 0).Err?;
  }

  /** Whole computation: any season of length 0 (no races, or the configured current length) raises. */
  lemma ComputeRatingsEmptySeason(env: Inputs, drivers: seq<Driver>, teams: seq<Team>, k: nat)
    requires Lawful(env.m) && k < |env.seasons| && SeasonLength(env.cfg, env.seasons[k]) == 0
    ensures ComputeRatingsSpec(env, drivers, teams).Err?
  {
    SeedFacts(env.cfg, Ratings(drivers, teams));
    EmptySeasonRaises(env, MostRaces(env.seasons), Seed(env.cfg, Ratings(drivers, teams)), env.seasons, k);
  }

  // ---------------------------------------------------------------------------------------
  // The loops
  // ---------------------------------------------------------------------------------------

  /** Line 10: `for driver in drivers: driver.ratings.append((BASE, None))`. */
  method AppendBaseDrivers(drivers: seq<Driver>) returns (r: seq<Driver>)
    ensures r == DriversWithBase(drivers)
  {
    r := drivers;
    for i := 0 to |drivers|
      invariant |r| == |drivers|
      invariant forall k :: 0 <= k < i ==> r[k] == DriversWithBase(drivers)[k]
      invariant forall k :: i <= k < |drivers| ==> r[k] == drivers[k]
    {
      r := r[i := drivers[i].(ratings := drivers[i].ratings + [Rating(BASE_DRIVER_RATING, None)])];
    }
  }

  /** Lines 13 and 21: `for team in teams: team.ratings.append((BASE, None))`. */
  method AppendBaseTeams(teams: seq<Team>) returns (r: seq<Team>)
    ensures r == TeamsWithBase(teams)
  {
    r := teams;
    for i := 0 to |teams|
      invariant |r| == |teams|
      invariant forall k :: 0 <= k < i ==> r[k] == TeamsWithBase(teams)[k]
      invariant forall k :: i <= k < |teams| ==> r[k] == teams[k]
    {
      r := r[i := teams[i].(ratings := teams[i].ratings + [Rating(BASE_TEAM_RATING, None)])];
    }
  }

  /** Lines 15-18. */
  method ComputeMostRaces(seasons: seq<Season>) returns (most: nat)
    ensures most == MostRaces(seasons)
  {
    most := 0;
    for i := 0 to |seasons|
      invariant most == MostRaces(seasons[..i])
    {
      assert seasons[..i + 1][..i] == seasons[..i];
      if |seasons[i].races| > most {
        most := |seasons[i].races|;
      }
    }
    assert seasons[..|seasons|] == seasons;
  }

  /** Lines 18-28. */
  method RunOpenSeason(env: Inputs, season: Season, teams: seq<Team>) returns (r: seq<Team>)
    ensures r == OpenSeason(env, season, teams)
  {
    r := teams;
    if env.cfg.resetTeamRatingsSeason {
      r := AppendBaseTeams(r);
    }
    if env.cfg.rerateTeamRatingsSeason {
      r := ComputeRerateTeams(season, r);
    }
    if env.cfg.resetTeamReentryRatings {
      r := ComputeResetTeamReentryRatings(env.seasons, season, r);
    }
  }

  /** Lines 36-260 for one race. */
  method RunRace(env: Inputs, ctx: RaceContext, st: Ratings, race: Race) returns (r: Result<Ratings>)
    requires Lawful(ctx.m) && Rated(st)
    ensures r == RaceStep(env, ctx, st, race)
  {
    var decays :- ComputeDriversRatingDecay(st.drivers, DRIVER_RATING_DECAY_NUM_RACES, ctx.w);
    var phase :- RunDriverPhase(ctx, st.teams, decays, race, st.drivers);
    var teamDecays :- ComputeTeamsRatingDecay(st.teams, TEAM_RATING_DECAY_NUM_RACES, ctx.w);
    var wp :- ComputeAggregation(ctx.w, env.cfg.driverRatingDeviationMultiplier, phase.drivers, st.teams, phase.entries);
    var teams := RunTeamPhase(ctx.m, ctx.ws, teamDecays, race.date, st.teams, wp);
    r := Ok(Ratings(phase.drivers, teams));
  }

  lemma {:induction false} RacesErrorPersists(env: Inputs, ctx: RaceContext, st: Ratings, races: seq<Race>, j: nat)
    requires Lawful(ctx.m) && Rated(st)
    requires j <= |races| && RacesOver(env, ctx, st, races[..j]).Err?
    ensures RacesOver(env, ctx, st, races) == RacesOver(env, ctx, st, races[..j])
    decreases |races| - j
  {
    if j < |races| {
      assert races[..|races| - 1][..j] == races[..j];
      RacesErrorPersists(env, ctx, st, races[..|races| - 1], j);
    } else {
      assert races[..j] == races;
    }
  }

  lemma RacesUnfold(env: Inputs, ctx: RaceContext, st: Ratings, races: seq<Race>, i: nat, cur: Ratings)
    requires Lawful(ctx.m) && Rated(st)
    requires i < |races| && RacesOver(env, ctx, st, races[..i]) == Ok(cur)
    ensures Rated(cur)
    ensures RacesOver(env, ctx, st, races[..i + 1]) == RaceStep(env, ctx, cur, races[i])
  {
    assert races[..i + 1][..i] == races[..i];
  }

  /** The race loop of one season (lines 36-260). */
  method RunRaces(env: Inputs, ctx: RaceContext, st: Ratings, races: seq<Race>) returns (r: Result<Ratings>)
    requires Lawful(ctx.m) && Rated(st)
    ensures r == RacesOver(env, ctx, st, races)
  {
    var cur := st;
    for i := 0 to |races|
      invariant RacesOver(env, ctx, st, races[..i]) == Ok(cur)
      invariant Rated(cur)
    {
      RacesUnfold(env, ctx, st, races, i, cur);
      var next := RunRace(env, ctx, cur, races[i]);
      if next.Err? {
        RacesErrorPersists(env, ctx, st, races, i + 1);
        return next;
      }
      cur := next.value;
    }
    assert races[..|races|] == races;
    return Ok(cur);
  }

  /** Lines 17-260 for one season. */
  method RunSeason(env: Inputs, most: nat, st: Ratings, season: Season) returns (r: Result<Ratings>)
    requires Lawful(env.m) && DriversRated(st.drivers) && (TeamsRated(st.teams) || env.cfg.resetTeamRatingsSeason)
    ensures r == SeasonStep(env, most, st, season)
  {
    var teams := RunOpenSeason(env, season, st.teams);
    var len := |season.races|;
    if season.year == env.cfg.currentYear {
      len := env.cfg.currentSeasonLength;
    }
    if len == 0 {
      return Err(ZeroDivision);
    }
    var w := (most as real) / (len as real);
    var ws :- InfluenceFunction(Some(w), INFLUENCE_A, INFLUENCE_B, env.m);
    r := RunRaces(env, ContextFor(env, w, ws), Ratings(st.drivers, teams), season.races);
  }

  lemma {:induction false} SeasonsErrorPersists(env: Inputs, most: nat, st: Ratings, seasons: seq<Season>, j: nat)
    requires Lawful(env.m) && DriversRated(st.drivers) && (TeamsRated(st.teams) || env.cfg.resetTeamRatingsSeason)
    requires j <= |seasons| && SeasonsOver(env, most, st, seasons[..j]).Err?
    ensures SeasonsOver(env, most, st, seasons) == SeasonsOver(env, most, st, seasons[..j])
    decreases |seasons| - j
  {
    if j < |seasons| {
      assert seasons[..|seasons| - 1][..j] == seasons[..j];
      SeasonsErrorPersists(env, most, st, seasons[..|seasons| - 1], j);
    } else {
      assert seasons[..j] == seasons;
    }
  }

  lemma SeasonsUnfold(env: Inputs, most: nat, st: Ratings, seasons: seq<Season>, i: nat, cur: Ratings)
    requires Lawful(env.m) && DriversRated(st.drivers) && (TeamsRated(st.teams) || env.cfg.resetTeamRatingsSeason)
    requires i < |seasons| && SeasonsOver(env, most, st, seasons[..i]) == Ok(cur)
    ensures DriversRated(cur.drivers) && (TeamsRated(cur.teams) || env.cfg.resetTeamRatingsSeason)
    ensures SeasonsOver(env, most, st, seasons[..i + 1]) == SeasonStep(env, most, cur, seasons[i])
  {
    assert seasons[..i + 1][..i] == seasons[..i];
  }

  /** `compute_ratings`, with its loops. */
  method ComputeRatings(env: Inputs, drivers: seq<Driver>, teams: seq<Team>) returns (r: Result<Ratings>)
    requires Lawful(env.m)
    ensures r == ComputeRatingsSpec(env, drivers, teams)
  {
    var seededDrivers := AppendBaseDrivers(drivers);
    var seededTeams := teams;
    if SeedsTeams(env.cfg) {
      seededTeams := AppendBaseTeams(teams);
    }
    var most := ComputeMostRaces(env.seasons);
    ghost var start := Seed(env.cfg, Ratings(drivers, teams));
    SeedFacts(env.cfg, Ratings(drivers, teams));
    var cur := Ratings(seededDrivers, seededTeams);
    assert cur == start;
    for i := 0 to |env.seasons|
      invariant SeasonsOver(env, most, start, env.seasons[..i]) == Ok(cur)
      invariant DriversRated(cur.drivers) && (TeamsRated(cur.teams) || env.cfg.resetTeamRatingsSeason)
    {
      SeasonsUnfold(env, most, start, env.seasons, i, cur);
      var next := RunSeason(env, most, cur, env.seasons[i]);
      if next.Err? {
        SeasonsErrorPersists(env, most, start, env.seasons, i + 1);
        return next;
      }
      cur := next.value;
    }
    assert env.seasons[..|env.seasons|] == env.seasons;
    return Ok(cur);
  }
}
