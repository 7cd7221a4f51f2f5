/**
 * The driver phase of one race in `compute_ratings` (`compute.py`, lines 39-206): for each
 * result in order, the six rating components, the team position lists, and the new rating
 * appended to the driver.
 */
module RaceDriver {
  import opened Base
  import opened Records
  import opened Config
  import opened Search
  import opened Helpers
  import opened ComputeDriver
  import opened ComputeTeam

  /** What stays fixed for a whole race: the tables, the season weight and its scaled form. */
  datatype RaceContext = RaceContext(m: Math, statuses: Statuses, qualis: seq<Qualifying>, sprints: seq<Sprint>,
                                     w: real, ws: real)

  // ---------------------------------------------------------------------------------------
  // Lookups of one result's other sessions (lines 52-66)
  // ---------------------------------------------------------------------------------------

  /** The starting position of the first grid slot with this driver. */
  function StartingGrid(slots: seq<GridSlot>, driverId: int): Option<int>
  {
    match First(slots, GridDriverKey, driverId)
    case Some(g) => Some(g.grid)
    case None => None
  }

  /** The driver's result in the first qualifying session of this race. */
  function QualiResultFor(qualis: seq<Qualifying>, raceId: int, driverId: int): Option<QualiResult>
  {
    match First(qualis, QualiRaceKey, raceId)
    case None => None
    case Some(q) => First(q.results, QualiDriverKey, driverId)
  }

  function SprintFor(sprints: seq<Sprint>, raceId: int): Option<Sprint>
  {
    First(sprints, SprintRaceKey, raceId)
  }

  function SprintResultFor(sprint: Option<Sprint>, driverId: int): Option<RaceResult>
  {
    match sprint
    case None => None
    case Some(s) => First(s.results, ResultDriverKey, driverId)
  }

  function SprintGridFor(sprint: Option<Sprint>, driverId: int): Option<int>
  {
    match sprint
    case None => None
    case Some(s) => StartingGrid(s.startingPositions, driverId)
  }

  function SprintPosition(sr: Option<RaceResult>): Option<int>
  {
    match sr
    case None => None
    case Some(r) => r.position
  }

  // ---------------------------------------------------------------------------------------
  // The components (lines 68-93)
  // ---------------------------------------------------------------------------------------

  function AsReal(p: Option<int>): Option<real>
  {
    match p
    case None => None
    case Some(v) => Some(v as real)
  }

  /** A session bonus: the position curve against the field size. */
  function Bonus(position: Option<int>, n: int): Result<real>
  {
    DistributionFunction(AsReal(position), Some(n as real), CURVE_AMPLITUDE)
  }

  /**
   * `start[1] - int(finish)`: 0 when there is no starting slot, and 0 when the finish does
   * not parse (the `TypeError` the source catches).
   */
  function GridGap(start: Option<int>, finish: Option<int>): (r: int)
    ensures start.None? || finish.None? ==> r == 0
    ensures start.Some? && finish.Some? ==> (r > 0 <==> finish.value < start.value)
  {
    if start.Some? && finish.Some? then start.value - finish.value else 0
  }

  /** The six weighted-to-be terms of one result, before the team and rookie multipliers. */
  datatype Components = Components(teammates: real, race: real, quali: real, sprint: real,
                                    gridRace: real, gridSprint: real)

  /**
   * The components of one result, in the order the source evaluates them: the teammate
   * score, the race, qualifying and sprint bonuses (race and qualifying scaled by `w`), and
   * the race and sprint grid gaps (the race one scaled by `w`).
   */
  function ResultComponents(ctx: RaceContext, drivers: seq<Driver>, race: Race, res: RaceResult): Result<Components>
    requires Lawful(ctx.m)
  {
    var teammates :- TeammatePlaceDiff(ctx.m, drivers, ctx.statuses, res.driverId, res.teamId, res.position, res.status,
                                       race.results, |race.results|);
    SessionComponents(ctx, race, res, teammates)
  }

  /** The components after the teammate score. */
  function SessionComponents(ctx: RaceContext, race: Race, res: RaceResult, teammates: real): Result<Components>
  {
    var n := |race.results|;
    var qr := QualiResultFor(ctx.qualis, race.id, res.driverId);
    var sprint := SprintFor(ctx.sprints, race.id);
    var sr := SprintResultFor(sprint, res.driverId);
    var raceBonus :- Bonus(res.position, n);
    var qualiBonus :- if qr.Some? then Bonus(qr.value.position, n) else Ok(0.0);
    var sprintBonus :- if sr.Some? then Bonus(sr.value.position, n) else Ok(0.0);
    var gridRace :- SignedGap(GridGap(StartingGrid(race.startingPositions, res.driverId), res.position), n - 1);
    var gridSprint :- SignedGap(GridGap(SprintGridFor(sprint, res.driverId), SprintPosition(sr)), n - 1);
    Ok(Components(teammates, raceBonus * ctx.w, qualiBonus * ctx.w, sprintBonus, gridRace * ctx.w, gridSprint))
  }

  /**
   * A gap of 0 takes the top of the curve: a driver with no starting slot, or one who
   * finishes where they started, gets the full `+5` grid term.
   */
  lemma NoGapFullGridTerm(n: int)
    ensures SignedGap(GridGap(None, None), n - 1) == Ok(CURVE_AMPLITUDE)
    ensures forall p :: SignedGap(GridGap(Some(p), Some(p)), n - 1) == Ok(CURVE_AMPLITUDE)
  {
  }

  // ---------------------------------------------------------------------------------------
  // Team multipliers (lines 95-97, 140-164)
  // ---------------------------------------------------------------------------------------

  /** The team's current rating, or the base when the team is unknown. */
  function TeamRatingOf(teams: seq<Team>, teamId: int): real
    requires TeamsRated(teams)
  {
    match FirstIndex(teams, TeamKey, teamId)
    case Some(i) => Last(teams[i].ratings)
    case None => BASE_TEAM_RATING
  }

  /** `x` clamped to [0.5, 1.5]. */
  function Clamp(x: real): (r: real)
    ensures 0.5 <= r <= 1.5
    ensures 0.5 <= x <= 1.5 ==> r == x
    ensures x < 0.5 ==> r == 0.5
    ensures x > 1.5 ==> r == 1.5
  {
    if x < 0.5 then 0.5 else if x > 1.5 then 1.5 else x
  }

  datatype TeamMultipliers = TeamMultipliers(growth: real, dumper: real)

  /**
   * The growth multiplier `exp(-3 d / 1200)` for gains and the dumper multiplier
   * `exp(2 d / 1200)` for losses, `d` the team's deviation from the base, both clamped.
   */
  function MultipliersFor(m: Math, teamRating: real): (r: TeamMultipliers)
    ensures 0.5 <= r.growth <= 1.5 && 0.5 <= r.dumper <= 1.5
  {
    var deviation := teamRating - BASE_TEAM_RATING;
    TeamMultipliers(Clamp(m.exp(-DIFF_TEAM_GROWTH_WEIGHT * deviation / BASE_TEAM_RATING)),
                    Clamp(m.exp(DIFF_TEAM_DUMPER_WEIGHT * deviation / BASE_TEAM_RATING)))
  }

  /** A base-rated (or unknown) team leaves bonuses unscaled. */
  lemma BaseTeamNeutral(m: Math)
    requires Lawful(m)
    ensures MultipliersFor(m, BASE_TEAM_RATING) == TeamMultipliers(1.0, 1.0)
  {
    assert -DIFF_TEAM_GROWTH_WEIGHT * 0.0 / BASE_TEAM_RATING == 0.0;
    assert DIFF_TEAM_DUMPER_WEIGHT * 0.0 / BASE_TEAM_RATING == 0.0;
  }

  /** A bonus scaled by its team multiplier: losses by the dumper, the rest by the growth. */
  function TeamScaled(bonus: real, t: TeamMultipliers): real
  {
    if bonus < 0.0 then bonus * t.dumper else bonus * t.growth
  }

  /**
   * The team multiplier never changes a bonus's sign, and scales its size by a factor in
   * [0.5, 1.5]: a loss by the dumper multiplier, a gain by the growth multiplier.
   */
  lemma TeamScaledFacts(bonus: real, t: TeamMultipliers)
    requires 0.5 <= t.growth <= 1.5 && 0.5 <= t.dumper <= 1.5
    ensures TeamScaled(bonus, t) < 0.0 <==> bonus < 0.0
    ensures TeamScaled(bonus, t) == 0.0 <==> bonus == 0.0
    ensures bonus < 0.0 ==> TeamScaled(bonus, t) == bonus * t.dumper && bonus * 1.5 <= TeamScaled(bonus, t) <= bonus * 0.5
    ensures bonus >= 0.0 ==> TeamScaled(bonus, t) == bonus * t.growth && bonus * 0.5 <= TeamScaled(bonus, t) <= bonus * 1.5
  {
    if bonus < 0.0 {
      var q := -bonus;
      assert q * 0.5 <= q * t.dumper <= q * 1.5;
      assert bonus * t.dumper == -(q * t.dumper);
    } else {
      assert bonus * 0.5 <= bonus * t.growth <= bonus * 1.5;
    }
  }

  // ---------------------------------------------------------------------------------------
  // Rookie multiplier and penalty (lines 125-138, 166-189)
  // ---------------------------------------------------------------------------------------

  /** `7 / ws`, floored at 2, i.e. the larger of the two; `ws == 0` raises `ZeroDivisionError`. */
  function RookieWindow(ws: real): (r: Result<real>)
    ensures r.Err? <==> ws == 0.0
    ensures r.Ok? ==> r.value >= 2.0 && r.value >= (ROOKIE_RATING_COUNT as real) / ws
    ensures r.Ok? ==> r.value == 2.0 || r.value == (ROOKIE_RATING_COUNT as real) / ws
  {
    if ws == 0.0 then Err(ZeroDivision)
    else
      var window := (ROOKIE_RATING_COUNT as real) / ws;
      Ok(if window < 2.0 then 2.0 else window)
  }

  /**
   * `1 + 1.5 / (7 - count)` while `count` is under both the scaled window and 7, else 1.
   */
  function RookieMultiplier(count: nat, window: real): (r: real)
    ensures r >= 1.0
    ensures r > 1.0 <==> (count as real) < window && count < ROOKIE_RATING_COUNT
  {
    if (count as real) < window && count < ROOKIE_RATING_COUNT then
      DivPositive(ROOKIE_RATING_COUNT - count);
      1.0 + ROOKIE_MODIFIER * (1.0 / ((ROOKIE_RATING_COUNT - count) as real))
    else 1.0
  }

  lemma DivPositive(k: int)
    requires k >= 1
    ensures 0.0 < 1.0 / (k as real) <= 1.0
  {
  }

  /**
   * Inside the window the multiplier's denominator `7 - count` is at least 1, so the
   * multiplier lies in (1, 2.5]; and it grows with the history length, from 1.25 at one
   * entry up to 2.5 at six.
   */
  lemma RookieMultiplierRange(c1: nat, c2: nat, window: real)
    requires c1 < c2 && (c2 as real) < window && c2 < ROOKIE_RATING_COUNT
    ensures 1.0 < RookieMultiplier(c1, window) < RookieMultiplier(c2, window) <= 1.0 + ROOKIE_MODIFIER
  {
    var k1, k2 := (ROOKIE_RATING_COUNT - c1) as real, (ROOKIE_RATING_COUNT - c2) as real;
    assert 1.0 <= k2 < k1;
    ReciprocalDecreasing(k2, k1);
  }

  lemma ReciprocalDecreasing(x: real, y: real)
    requires 0.0 < x < y
    ensures 1.0 / y < 1.0 / x
  {
    var a, b := 1.0 / y, 1.0 / x;
    assert a * y == 1.0 && b * x == 1.0;
    assert a * y * x == x && b * x * y == y;
    assert (b - a) * (x * y) == y - x;
  }

  /** `rating * 0.1` for a fault once the history has reached the window, else 0. */
  function Penalty(fault: bool, count: nat, window: real, rating: real): (r: real)
    ensures r != 0.0 ==> fault && (count as real) >= window
    ensures fault && (count as real) >= window ==> r == rating * PENALTY_FACTOR
  {
    if fault && (count as real) >= window then rating * PENALTY_FACTOR else 0.0
  }

  /** The rookie multiplier for one component: none on a loss. */
  function RookieFor(x: real, rm: real): real
  {
    if x < 0.0 then 1.0 else rm
  }

  /** One component times its weight and its rookie multiplier. */
  function Term(x: real, k: real, rm: real): real
  {
    x * k * RookieFor(x, rm)
  }

  /** The weighted sum of the components, each with its own rookie multiplier. */
  function Weighted(c: Components, rm: real): real
  {
    Term(c.teammates, DIFF_TEAMMATES, rm)
    + Term(c.race, RACE_BONUS, rm)
    + Term(c.quali, QUALI_BONUS, rm)
    + Term(c.sprint, SPRINT_BONUS, rm)
    + Term(c.gridRace, DIFF_RACE, rm)
    + Term(c.gridSprint, DIFF_SPRINT, rm)
  }

  /** The weighted sum times the swing constant and the scaled season weight. */
  function Swing(weighted: real, ws: real): real
  {
    weighted * SWING_MULTIPLIER * ws
  }

  /** `rating_change` of lines 196-203. */
  function RatingChange(c: Components, rm: real, ws: real, penalty: real): real
  {
    Swing(Weighted(c, rm), ws) - penalty
  }

  predicate AllLosses(c: Components)
  {
    c.teammates <= 0.0 && c.race <= 0.0 && c.quali <= 0.0 && c.sprint <= 0.0 && c.gridRace <= 0.0 && c.gridSprint <= 0.0
  }

  predicate AllGains(c: Components)
  {
    c.teammates >= 0.0 && c.race >= 0.0 && c.quali >= 0.0 && c.sprint >= 0.0 && c.gridRace >= 0.0 && c.gridSprint >= 0.0
  }

  lemma TermSpared(x: real, k: real, rm: real)
    requires x <= 0.0
    ensures Term(x, k, rm) == Term(x, k, 1.0)
  {
  }

  lemma TermBoosted(x: real, k: real, rm: real)
    requires x >= 0.0 && k >= 0.0 && rm >= 1.0
    ensures Term(x, k, rm) >= Term(x, k, 1.0)
  {
    assert x * k >= 0.0;
    assert x * k * rm - x * k * 1.0 == x * k * (rm - 1.0);
  }

  lemma SwingMonotone(a: real, b: real, ws: real)
    requires a >= b && ws >= 0.0
    ensures Swing(a, ws) >= Swing(b, ws)
  {
    assert Swing(a, ws) - Swing(b, ws) == (a - b) * (SWING_MULTIPLIER * ws);
  }

  /** A result made only of losses changes the rating exactly as if there were no rookie boost. */
  lemma RookieSparesLosses(c: Components, rm: real, ws: real, penalty: real)
    requires AllLosses(c)
    ensures RatingChange(c, rm, ws, penalty) == RatingChange(c, 1.0, ws, penalty)
  {
    TermSpared(c.teammates, DIFF_TEAMMATES, rm);
    TermSpared(c.race, RACE_BONUS, rm);
    TermSpared(c.quali, QUALI_BONUS, rm);
    TermSpared(c.sprint, SPRINT_BONUS, rm);
    TermSpared(c.gridRace, DIFF_RACE, rm);
    TermSpared(c.gridSprint, DIFF_SPRINT, rm);
  }

  /** A result made only of gains changes the rating at least as much with the rookie boost. */
  lemma RookieBoostsGains(c: Components, rm: real, ws: real, penalty: real)
    requires AllGains(c) && rm >= 1.0 && ws >= 0.0
    ensures RatingChange(c, rm, ws, penalty) >= RatingChange(c, 1.0, ws, penalty)
  {
    TermBoosted(c.teammates, DIFF_TEAMMATES, rm);
    TermBoosted(c.race, RACE_BONUS, rm);
    TermBoosted(c.quali, QUALI_BONUS, rm);
    TermBoosted(c.sprint, SPRINT_BONUS, rm);
    TermBoosted(c.gridRace, DIFF_RACE, rm);
    TermBoosted(c.gridSprint, DIFF_SPRINT, rm);
    SwingMonotone(Weighted(c, rm), Weighted(c, 1.0), ws);
  }

  /** The decay of this driver in the map computed before the race, or 0. */
  function DecayOf(decays: map<int, real>, driverId: int): real
  {
    if driverId in decays then decays[driverId] else 0.0
  }

  /** The driver's new rating: `rating + rating_change - decay` (lines 130-204). */
  function NewDriverRating(ctx: RaceContext, teams: seq<Team>, decays: map<int, real>, d: Driver, res: RaceResult,
                           c: Components, window: real): real
    requires |d.ratings| > 0 && TeamsRated(teams)
  {
    var rating := Last(d.ratings);
    var count := |d.ratings|;
    var rm := RookieMultiplier(count, window);
    var penalty := Penalty(IsDriverFault(res.status, ctx.statuses), count, window, rating);
    var t := MultipliersFor(ctx.m, TeamRatingOf(teams, res.teamId));
    var scaled := c.(race := TeamScaled(c.race, t), quali := TeamScaled(c.quali, t), sprint := TeamScaled(c.sprint, t));
    rating + RatingChange(scaled, rm, ctx.ws, penalty) - DecayOf(decays, res.driverId)
  }

  // ---------------------------------------------------------------------------------------
  // Team position lists (lines 99-123)
  // ---------------------------------------------------------------------------------------

  /** `(driver_id, position)` in a team's position list. */
  datatype Placed = Placed(driverId: int, pos: int)

  /**
   * One key of the three `teams_positions_*` dicts. Every result inserts its team id into
   * all three, so they always hold the same keys in the same order; one entry holds the
   * team's three lists.
   */
  datatype TeamEntry = TeamEntry(teamId: int, race: seq<Placed>, quali: seq<Placed>, sprint: seq<Placed>)

  function EntryKey(e: TeamEntry): int { e.teamId }

  /** A placing, with a position that does not parse counted as the field size. */
  function Placing(driverId: int, position: Option<int>, n: int): (r: Placed)
    ensures r.driverId == driverId
    ensures position.None? ==> r.pos == n
    ensures position.Some? ==> r.pos == position.value
  {
    Placed(driverId, position.GetOr(n))
  }

  /** The result's qualifying placing, when its driver has a qualifying result in this race. */
  function QualiPlacing(ctx: RaceContext, race: Race, res: RaceResult): Option<Placed>
  {
    var qr := QualiResultFor(ctx.qualis, race.id, res.driverId);
    if qr.Some? then Some(Placing(res.driverId, qr.value.position, |race.results|)) else None
  }

  /** The result's sprint placing, when the race has a sprint with a result for its driver. */
  function SprintPlacing(ctx: RaceContext, race: Race, res: RaceResult): Option<Placed>
  {
    var sr := SprintResultFor(SprintFor(ctx.sprints, race.id), res.driverId);
    if sr.Some? then Some(Placing(res.driverId, sr.value.position, |race.results|)) else None
  }

  function OptionalList(p: Option<Placed>): seq<Placed>
  {
    match p
    case None => []
    case Some(x) => [x]
  }

  /** The team ids of the entries, in insertion order. */
  function EntryIds(entries: seq<TeamEntry>): (r: seq<int>)
    ensures |r| == |entries| && forall k :: 0 <= k < |entries| ==> r[k] == entries[k].teamId
  {
    seq(|entries|, k requires 0 <= k < |entries| => entries[k].teamId)
  }

  /** Distinct keys, as a dict has. */
  predicate DistinctIds(entries: seq<TeamEntry>)
  {
    forall i, j :: 0 <= i < j < |entries| ==> entries[i].teamId != entries[j].teamId
  }

  /** An entry with its lists extended by one result's placings. */
  function AddPlacings(e: TeamEntry, race: Placed, quali: Option<Placed>, sprint: Option<Placed>): (r: TeamEntry)
    ensures r.teamId == e.teamId
    ensures r.race == e.race + [race]
    ensures r.quali == e.quali + OptionalList(quali) && r.sprint == e.sprint + OptionalList(sprint)
  {
    e.(race := e.race + [race], quali := e.quali + OptionalList(quali), sprint := e.sprint + OptionalList(sprint))
  }

  /** Adds one result's placings under its team id, creating the key on first sight. */
  function Record(entries: seq<TeamEntry>, teamId: int, race: Placed, quali: Option<Placed>, sprint: Option<Placed>): seq<TeamEntry>
  {
    match FirstIndex(entries, EntryKey, teamId)
    case None => entries + [AddPlacings(TeamEntry(teamId, [], [], []), race, quali, sprint)]
    case Some(i) => entries[i := AddPlacings(entries[i], race, quali, sprint)]
  }

  /**
   * Recording keeps the keys distinct and in first-seen order, adds the team id at the end
   * if it is new, appends the race placing and the qualifying and sprint placings (when
   * there are any) to that team's lists, and leaves every other team's lists as they were.
   */
  lemma RecordFacts(entries: seq<TeamEntry>, teamId: int, race: Placed, quali: Option<Placed>, sprint: Option<Placed>)
    requires DistinctIds(entries)
    ensures var r := Record(entries, teamId, race, quali, sprint);
      DistinctIds(r) &&
      (if teamId in EntryIds(entries) then EntryIds(r) == EntryIds(entries) else EntryIds(r) == EntryIds(entries) + [teamId])
    ensures var r := Record(entries, teamId, race, quali, sprint);
      forall k :: 0 <= k < |entries| && entries[k].teamId != teamId ==> r[k] == entries[k]
    ensures var r := Record(entries, teamId, race, quali, sprint);
      forall k :: 0 <= k < |entries| && entries[k].teamId == teamId ==>
        r[k].race == entries[k].race + [race] && r[k].quali == entries[k].quali + OptionalList(quali)
        && r[k].sprint == entries[k].sprint + OptionalList(sprint)
    ensures var r := Record(entries, teamId, race, quali, sprint);
      teamId !in EntryIds(entries) ==> r[|entries|] == TeamEntry(teamId, [race], OptionalList(quali), OptionalList(sprint))
  {
    var r := Record(entries, teamId, race, quali, sprint);
    match FirstIndex(entries, EntryKey, teamId)
    case None =>
      assert teamId !in EntryIds(entries);
      assert EntryIds(r) == EntryIds(entries) + [teamId];
      assert r[|entries|].teamId == teamId;
    case Some(i) =>
      assert EntryIds(entries)[i] == teamId;
      assert EntryIds(r) == EntryIds(entries);
      assert r[i].teamId == teamId;
  }

  /** Recording adds the team id to the keys, whatever keys there were. */
  lemma RecordKeys(entries: seq<TeamEntry>, teamId: int, race: Placed, quali: Option<Placed>, sprint: Option<Placed>)
    ensures forall id :: id in EntryIds(Record(entries, teamId, race, quali, sprint)) <==> id in EntryIds(entries) || id == teamId
  {
    var r := Record(entries, teamId, race, quali, sprint);
    match FirstIndex(entries, EntryKey, teamId)
    case None =>
      assert EntryIds(r) == EntryIds(entries) + [teamId];
    case Some(i) =>
      assert EntryIds(entries)[i] == teamId;
      assert EntryIds(r) == EntryIds(entries);
  }

  /** The entry recorded under `teamId`, or an empty one when the key is absent. */
  function EntryFor(entries: seq<TeamEntry>, teamId: int): (r: TeamEntry)
    ensures r.teamId == teamId
  {
    match FirstIndex(entries, EntryKey, teamId)
    case None => TeamEntry(teamId, [], [], [])
    case Some(i) => entries[i]
  }

  /** Recording changes the entry under its own team id only, by appending to it. */
  lemma RecordEntryFor(entries: seq<TeamEntry>, teamId: int, race: Placed, quali: Option<Placed>, sprint: Option<Placed>,
                       id: int)
    ensures EntryFor(Record(entries, teamId, race, quali, sprint), id) ==
      if id == teamId then AddPlacings(EntryFor(entries, teamId), race, quali, sprint) else EntryFor(entries, id)
  {
    var r := Record(entries, teamId, race, quali, sprint);
    match FirstIndex(entries, EntryKey, teamId)
    case None =>
      assert r[..|entries|] == entries;
      if id == teamId {
        assert FirstIndex(r, EntryKey, id) == Some(|entries|);
      } else {
        assert FirstIndex(r, EntryKey, id) == FirstIndex(entries, EntryKey, id);
      }
    case Some(i) =>
      FirstIndexSameKeys(entries, r, EntryKey, id);
  }

  // ---------------------------------------------------------------------------------------
  // One result, and the whole driver phase
  // ---------------------------------------------------------------------------------------

  /** The state the driver phase threads through the results. */
  datatype DriverPhase = DriverPhase(drivers: seq<Driver>, entries: seq<TeamEntry>)

  /**
   * One result (lines 44-206): its components, its placings, the rookie window, and, when
   * the driver id is found, one new `(rating, race.date)` on the first driver with it.
   */
  function ResultStep(ctx: RaceContext, teams: seq<Team>, decays: map<int, real>, race: Race, st: DriverPhase,
                      res: RaceResult): (r: Result<DriverPhase>)
    requires Lawful(ctx.m) && DriversRated(st.drivers) && TeamsRated(teams)
    ensures r.Ok? ==> DriversRated(r.value.drivers) && DriversExtend(st.drivers, r.value.drivers)
  {
    var n := |race.results|;
    var c :- ResultComponents(ctx, st.drivers, race, res);
    var entries := Record(st.entries, res.teamId, Placing(res.driverId, res.position, n),
                          QualiPlacing(ctx, race, res), SprintPlacing(ctx, race, res));
    var window :- RookieWindow(ctx.ws);
    Ok(DriverPhase(Credit(ctx, teams, decays, race, st.drivers, res, c, window), entries))
  }

  /** The first driver with the result's id, if any, gains one `(rating, race.date)`. */
  function Credit(ctx: RaceContext, teams: seq<Team>, decays: map<int, real>, race: Race, drivers: seq<Driver>,
                  res: RaceResult, c: Components, window: real): (r: seq<Driver>)
    requires Lawful(ctx.m) && DriversRated(drivers) && TeamsRated(teams)
    ensures DriversRated(r) && DriversExtend(drivers, r)
  {
    match FirstIndex(drivers, DriverKey, res.driverId)
    case None => drivers
    case Some(i) =>
      var d := drivers[i];
      var v := NewDriverRating(ctx, teams, decays, d, res, c, window);
      var after := drivers[i := d.(ratings := d.ratings + [Rating(v, Some(race.date))])];
      assert after[i].ratings[..|d.ratings|] == d.ratings;
      after
  }

  /** The results folded in order. */
  function DriverPhaseOver(ctx: RaceContext, teams: seq<Team>, decays: map<int, real>, race: Race, st: DriverPhase,
                           results: seq<RaceResult>): (r: Result<DriverPhase>)
    requires Lawful(ctx.m) && DriversRated(st.drivers) && TeamsRated(teams)
    ensures r.Ok? ==> DriversRated(r.value.drivers) && DriversExtend(st.drivers, r.value.drivers)
    decreases |results|
  {
    if |results| == 0 then Ok(st)
    else
      var pre :- DriverPhaseOver(ctx, teams, decays, race, st, results[..|results| - 1]);
      var r := ResultStep(ctx, teams, decays, race, pre, results[|results| - 1]);
      if r.Ok? then DriversExtendTransitive(st.drivers, pre.drivers, r.value.drivers); r else r
  }

  /** How many of `results` name the driver at index `j` (the first driver with that id). */
  function Hits(drivers: seq<Driver>, results: seq<RaceResult>, j: nat): nat
    decreases |results|
  {
    if |results| == 0 then 0
    else Hits(drivers, results[..|results| - 1], j)
         + (if FirstIndex(drivers, DriverKey, results[|results| - 1].driverId) == Some(j) then 1 else 0)
  }

  /** The entries of `ratings` from index `from` on are all dated `date`. */
  predicate DatedFrom(ratings: seq<Rating>, from: nat, date: int)
  {
    forall k :: from <= k < |ratings| ==> ratings[k].date == Some(date)
  }

  /** One result keeps the team keys of the placings distinct. */
  lemma ResultStepEntries(ctx: RaceContext, teams: seq<Team>, decays: map<int, real>, race: Race, st: DriverPhase,
                          res: RaceResult)
    requires Lawful(ctx.m) && DriversRated(st.drivers) && TeamsRated(teams)
    requires DistinctIds(st.entries)
    ensures var r := ResultStep(ctx, teams, decays, race, st, res);
      r.Ok? ==> DistinctIds(r.value.entries)
  {
    RecordFacts(st.entries, res.teamId, Placing(res.driverId, res.position, |race.results|),
                QualiPlacing(ctx, race, res), SprintPlacing(ctx, race, res));
  }

  /**
   * One result appends exactly one entry, dated with the race, to the first driver with
   * its id, and changes no other driver.
   */
  lemma ResultStepHistory(ctx: RaceContext, teams: seq<Team>, decays: map<int, real>, race: Race, st: DriverPhase,
                          res: RaceResult, j: nat)
    requires Lawful(ctx.m) && DriversRated(st.drivers) && TeamsRated(teams) && j < |st.drivers|
    ensures var r := ResultStep(ctx, teams, decays, race, st, res);
      r.Ok? && FirstIndex(st.drivers, DriverKey, res.driverId) != Some(j) ==> r.value.drivers[j] == st.drivers[j]
    ensures var r := ResultStep(ctx, teams, decays, race, st, res);
      r.Ok? && FirstIndex(st.drivers, DriverKey, res.driverId) == Some(j) ==>
        |r.value.drivers[j].ratings| == |st.drivers[j].ratings| + 1
        && r.value.drivers[j].ratings[|st.drivers[j].ratings|].date == Some(race.date)
    ensures var r := ResultStep(ctx, teams, decays, race, st, res);
      r.Ok? && FirstIndex(st.drivers, DriverKey, res.driverId) == Some(j) ==>
        ResultComponents(ctx, st.drivers, race, res).Ok? && RookieWindow(ctx.ws).Ok? &&
        Last(r.value.drivers[j].ratings) == NewDriverRating(ctx, teams, decays, st.drivers[j], res,
                                                            ResultComponents(ctx, st.drivers, race, res).value,
                                                            RookieWindow(ctx.ws).value)
  {
  }

  /** The shape part of `ResultStepHistory`, which the per-race lemmas use. */
  lemma ResultStepShape(ctx: RaceContext, teams: seq<Team>, decays: map<int, real>, race: Race, st: DriverPhase,
                        res: RaceResult, j: nat)
    requires Lawful(ctx.m) && DriversRated(st.drivers) && TeamsRated(teams) && j < |st.drivers|
    ensures var r := ResultStep(ctx, teams, decays, race, st, res);
      r.Ok? && FirstIndex(st.drivers, DriverKey, res.driverId) != Some(j) ==> r.value.drivers[j] == st.drivers[j]
    ensures var r := ResultStep(ctx, teams, decays, race, st, res);
      r.Ok? && FirstIndex(st.drivers, DriverKey, res.driverId) == Some(j) ==>
        |r.value.drivers[j].ratings| == |st.drivers[j].ratings| + 1
        && r.value.drivers[j].ratings[|st.drivers[j].ratings|].date == Some(race.date)
  {
  }

  /** Over the whole race, the team keys of the placings stay distinct. */
  lemma {:induction false} DriverPhaseEntries(ctx: RaceContext, teams: seq<Team>, decays: map<int, real>, race: Race,
                                              st: DriverPhase, results: seq<RaceResult>)
    requires Lawful(ctx.m) && DriversRated(st.drivers) && TeamsRated(teams)
    requires DistinctIds(st.entries)
    ensures var r := DriverPhaseOver(ctx, teams, decays, race, st, results);
      r.Ok? ==> DistinctIds(r.value.entries)
    decreases |results|
  {
    if |results| > 0 {
      var pre := DriverPhaseOver(ctx, teams, decays, race, st, results[..|results| - 1]);
      DriverPhaseEntries(ctx, teams, decays, race, st, results[..|results| - 1]);
      if pre.Ok? {
        ResultStepEntries(ctx, teams, decays, race, pre.value, results[|results| - 1]);
      }
    }
  }

  /**
   * The placings the results of one team contribute, in result order: each result's race
   * placing, and its qualifying and sprint placings when it has them.
   */
  function TeamPlacings(ctx: RaceContext, race: Race, results: seq<RaceResult>, teamId: int): (r: TeamEntry)
    ensures r.teamId == teamId
    decreases |results|
  {
    if |results| == 0 then TeamEntry(teamId, [], [], [])
    else
      var pre := TeamPlacings(ctx, race, results[..|results| - 1], teamId);
      var res := results[|results| - 1];
      if res.teamId == teamId then
        AddPlacings(pre, Placing(res.driverId, res.position, |race.results|), QualiPlacing(ctx, race, res), SprintPlacing(ctx, race, res))
      else pre
  }

  /** The lists of `a` followed by those of `b`. */
  function Joined(a: TeamEntry, b: TeamEntry): TeamEntry
  {
    a.(race := a.race + b.race, quali := a.quali + b.quali, sprint := a.sprint + b.sprint)
  }

  lemma JoinedAdd(a: TeamEntry, b: TeamEntry, race: Placed, quali: Option<Placed>, sprint: Option<Placed>)
    ensures Joined(a, AddPlacings(b, race, quali, sprint)) == AddPlacings(Joined(a, b), race, quali, sprint)
  {
    assert a.race + (b.race + [race]) == (a.race + b.race) + [race];
    assert a.quali + (b.quali + OptionalList(quali)) == (a.quali + b.quali) + OptionalList(quali);
    assert a.sprint + (b.sprint + OptionalList(sprint)) == (a.sprint + b.sprint) + OptionalList(sprint);
  }

  /** The placing lists a result leaves behind are those of `Record`. */
  lemma ResultStepRecords(ctx: RaceContext, teams: seq<Team>, decays: map<int, real>, race: Race, st: DriverPhase,
                          res: RaceResult)
    requires Lawful(ctx.m) && DriversRated(st.drivers) && TeamsRated(teams)
    ensures var r := ResultStep(ctx, teams, decays, race, st, res);
      r.Ok? ==> r.value.entries == Record(st.entries, res.teamId, Placing(res.driverId, res.position, |race.results|),
                                          QualiPlacing(ctx, race, res), SprintPlacing(ctx, race, res))
  {
  }

  /**
   * Over the results, the placings recorded under every team id are those it had, followed
   * by the placings of that team's results in order.
   */
  lemma {:induction false} DriverPhaseRecords(ctx: RaceContext, teams: seq<Team>, decays: map<int, real>, race: Race,
                                              st: DriverPhase, results: seq<RaceResult>)
    requires Lawful(ctx.m) && DriversRated(st.drivers) && TeamsRated(teams)
    ensures var r := DriverPhaseOver(ctx, teams, decays, race, st, results);
      r.Ok? ==> forall id :: EntryFor(r.value.entries, id) == Joined(EntryFor(st.entries, id), TeamPlacings(ctx, race, results, id))
    decreases |results|
  {
    var r := DriverPhaseOver(ctx, teams, decays, race, st, results);
    if |results| == 0 {
      forall id ensures EntryFor(st.entries, id) == Joined(EntryFor(st.entries, id), TeamPlacings(ctx, race, results, id)) {
        var e := EntryFor(st.entries, id);
        assert e.race + [] == e.race && e.quali + [] == e.quali && e.sprint + [] == e.sprint;
      }
    } else {
      var prefix := results[..|results| - 1];
      var pre := DriverPhaseOver(ctx, teams, decays, race, st, prefix);
      DriverPhaseRecords(ctx, teams, decays, race, st, prefix);
      if pre.Ok? && r.Ok? {
        var res := results[|results| - 1];
        var p := pre.value.entries;
        var placed := Placing(res.driverId, res.position, |race.results|);
        var q, sp := QualiPlacing(ctx, race, res), SprintPlacing(ctx, race, res);
        ResultStepRecords(ctx, teams, decays, race, pre.value, res);
        forall id ensures EntryFor(r.value.entries, id) == Joined(EntryFor(st.entries, id), TeamPlacings(ctx, race, results, id)) {
          RecordEntryFor(p, res.teamId, placed, q, sp, id);
          if id == res.teamId {
            JoinedAdd(EntryFor(st.entries, id), TeamPlacings(ctx, race, prefix, id), placed, q, sp);
          }
        }
      }
    }
  }

  /** Over the results, the keys are those there were and the team ids of the results. */
  lemma {:induction false} DriverPhaseKeys(ctx: RaceContext, teams: seq<Team>, decays: map<int, real>, race: Race,
                                           st: DriverPhase, results: seq<RaceResult>)
    requires Lawful(ctx.m) && DriversRated(st.drivers) && TeamsRated(teams)
    ensures var r := DriverPhaseOver(ctx, teams, decays, race, st, results);
      r.Ok? ==> forall id :: id in EntryIds(r.value.entries) <==> id in EntryIds(st.entries) || id in ResultTeamIds(results)
    decreases |results|
  {
    var r := DriverPhaseOver(ctx, teams, decays, race, st, results);
    if |results| > 0 {
      var prefix := results[..|results| - 1];
      var pre := DriverPhaseOver(ctx, teams, decays, race, st, prefix);
      DriverPhaseKeys(ctx, teams, decays, race, st, prefix);
      if pre.Ok? && r.Ok? {
        var res := results[|results| - 1];
        ResultStepRecords(ctx, teams, decays, race, pre.value, res);
        RecordKeys(pre.value.entries, res.teamId, Placing(res.driverId, res.position, |race.results|),
                   QualiPlacing(ctx, race, res), SprintPlacing(ctx, race, res));
      }
    }
  }

  /** With distinct keys, the entry found under an entry's own key is that entry. */
  lemma EntryForOwnKey(entries: seq<TeamEntry>, k: nat)
    requires DistinctIds(entries) && k < |entries|
    ensures EntryFor(entries, entries[k].teamId) == entries[k]
  {
    var i := FirstIndex(entries, EntryKey, entries[k].teamId);
    assert EntryKey(entries[k]) == entries[k].teamId;
    assert i.Some? && i.value <= k;
    assert entries[i.value].teamId == entries[k].teamId;
  }

  /**
   * The three placing dicts of one race: one key per team id among the results, in order
   * of first appearance, and under each the placings of that team's results in result order.
   */
  lemma RacePlacingsRecorded(ctx: RaceContext, teams: seq<Team>, decays: map<int, real>, race: Race, drivers: seq<Driver>)
    requires Lawful(ctx.m) && DriversRated(drivers) && TeamsRated(teams)
    ensures var r := DriverPhaseOver(ctx, teams, decays, race, DriverPhase(drivers, []), race.results);
      r.Ok? ==> DistinctIds(r.value.entries) &&
                (forall id :: id in EntryIds(r.value.entries) <==> exists i :: 0 <= i < |race.results| && race.results[i].teamId == id)
    ensures var r := DriverPhaseOver(ctx, teams, decays, race, DriverPhase(drivers, []), race.results);
      r.Ok? ==> forall k :: 0 <= k < |r.value.entries| ==>
        r.value.entries[k] == TeamPlacings(ctx, race, race.results, r.value.entries[k].teamId)
  {
    var st := DriverPhase(drivers, []);
    var r := DriverPhaseOver(ctx, teams, decays, race, st, race.results);
    DriverPhaseEntries(ctx, teams, decays, race, st, race.results);
    DriverPhaseRecords(ctx, teams, decays, race, st, race.results);
    DriverPhaseKeys(ctx, teams, decays, race, st, race.results);
    ResultTeamIdsMembers(race.results);
    if r.Ok? {
      assert EntryIds(st.entries) == [];
      forall k | 0 <= k < |r.value.entries|
        ensures r.value.entries[k] == TeamPlacings(ctx, race, race.results, r.value.entries[k].teamId)
      {
        var e := r.value.entries[k];
        var b := TeamPlacings(ctx, race, race.results, e.teamId);
        EntryForOwnKey(r.value.entries, k);
        assert [] + b.race == b.race && [] + b.quali == b.quali && [] + b.sprint == b.sprint;
      }
    }
  }

  /**
   * Over the whole race, each driver's history is extended by exactly one entry per result
   * that names it, each dated with the race; a driver no result names is unchanged.
   */
  lemma DriverPhaseFacts(ctx: RaceContext, teams: seq<Team>, decays: map<int, real>, race: Race,
                         st: DriverPhase, results: seq<RaceResult>, j: nat)
    requires Lawful(ctx.m) && DriversRated(st.drivers) && TeamsRated(teams) && j < |st.drivers|
    ensures var r := DriverPhaseOver(ctx, teams, decays, race, st, results);
      r.Ok? ==> |r.value.drivers[j].ratings| == |st.drivers[j].ratings| + Hits(st.drivers, results, j)
    ensures var r := DriverPhaseOver(ctx, teams, decays, race, st, results);
      r.Ok? ==> DatedFrom(r.value.drivers[j].ratings, |st.drivers[j].ratings|, race.date)
  {
    DriverPhaseGrowth(ctx, teams, decays, race, st, results, j);
    DriverPhaseDated(ctx, teams, decays, race, st, results, j);
  }

  lemma {:induction false} DriverPhaseGrowth(ctx: RaceContext, teams: seq<Team>, decays: map<int, real>, race: Race,
                                             st: DriverPhase, results: seq<RaceResult>, j: nat)
    requires Lawful(ctx.m) && DriversRated(st.drivers) && TeamsRated(teams) && j < |st.drivers|
    ensures var r := DriverPhaseOver(ctx, teams, decays, race, st, results);
      r.Ok? ==> |r.value.drivers[j].ratings| == |st.drivers[j].ratings| + Hits(st.drivers, results, j)
    decreases |results|
  {
    if |results| > 0 {
      var pre := DriverPhaseOver(ctx, teams, decays, race, st, results[..|results| - 1]);
      DriverPhaseGrowth(ctx, teams, decays, race, st, results[..|results| - 1], j);
      if pre.Ok? {
        var res := results[|results| - 1];
        ResultStepShape(ctx, teams, decays, race, pre.value, res, j);
        FirstIndexSameKeys(st.drivers, pre.value.drivers, DriverKey, res.driverId);
      }
    }
  }

  lemma {:induction false} DriverPhaseDated(ctx: RaceContext, teams: seq<Team>, decays: map<int, real>, race: Race,
                                            st: DriverPhase, results: seq<RaceResult>, j: nat)
    requires Lawful(ctx.m) && DriversRated(st.drivers) && TeamsRated(teams) && j < |st.drivers|
    ensures var r := DriverPhaseOver(ctx, teams, decays, race, st, results);
      r.Ok? ==> DatedFrom(r.value.drivers[j].ratings, |st.drivers[j].ratings|, race.date)
    decreases |results|
  {
    if |results| > 0 {
      var pre := DriverPhaseOver(ctx, teams, decays, race, st, results[..|results| - 1]);
      DriverPhaseDated(ctx, teams, decays, race, st, results[..|results| - 1], j);
      if pre.Ok? {
        var p := pre.value;
        var res := results[|results| - 1];
        var r := ResultStep(ctx, teams, decays, race, p, res);
        ResultStepShape(ctx, teams, decays, race, p, res, j);
        if r.Ok? && FirstIndex(p.drivers, DriverKey, res.driverId) == Some(j) {
          var before, after := p.drivers[j].ratings, r.value.drivers[j].ratings;
          assert after == before + [after[|before|]];
          assert DatedFrom(after, |st.drivers[j].ratings|, race.date);
        }
      }
    }
  }

  /** A driver that no result names leaves the race with the history it had. */
  lemma DriverPhaseUntouched(ctx: RaceContext, teams: seq<Team>, decays: map<int, real>, race: Race,
                             drivers: seq<Driver>, j: nat)
    requires Lawful(ctx.m) && DriversRated(drivers) && TeamsRated(teams) && j < |drivers|
    requires Hits(drivers, race.results, j) == 0
    ensures var r := DriverPhaseOver(ctx, teams, decays, race, DriverPhase(drivers, []), race.results);
      r.Ok? ==> r.value.drivers[j] == drivers[j]
  {
    var r := DriverPhaseOver(ctx, teams, decays, race, DriverPhase(drivers, []), race.results);
    DriverPhaseFacts(ctx, teams, decays, race, DriverPhase(drivers, []), race.results, j);
    if r.Ok? {
      assert r.value.drivers[j].ratings == r.value.drivers[j].ratings[..|drivers[j].ratings|];
    }
  }

  lemma {:induction false} DriverPhaseErrorPersists(ctx: RaceContext, teams: seq<Team>, decays: map<int, real>, race: Race,
                                                    st: DriverPhase, results: seq<RaceResult>, j: nat)
    requires Lawful(ctx.m) && DriversRated(st.drivers) && TeamsRated(teams)
    requires j <= |results| && DriverPhaseOver(ctx, teams, decays, race, st, results[..j]).Err?
    ensures DriverPhaseOver(ctx, teams, decays, race, st, results) == DriverPhaseOver(ctx, teams, decays, race, st, results[..j])
    decreases |results| - j
  {
    if j < |results| {
      assert results[..|results| - 1][..j] == results[..j];
      DriverPhaseErrorPersists(ctx, teams, decays, race, st, results[..|results| - 1], j);
    } else {
      assert results[..j] == results;
    }
  }

  lemma DriverPhaseUnfold(ctx: RaceContext, teams: seq<Team>, decays: map<int, real>, race: Race, st: DriverPhase,
                          results: seq<RaceResult>, i: nat, p: DriverPhase)
    requires Lawful(ctx.m) && DriversRated(st.drivers) && TeamsRated(teams)
    requires i < |results| && DriverPhaseOver(ctx, teams, decays, race, st, results[..i]) == Ok(p)
    ensures DriversRated(p.drivers)
    ensures DriverPhaseOver(ctx, teams, decays, race, st, results[..i + 1]) == ResultStep(ctx, teams, decays, race, p, results[i])
  {
    assert results[..i + 1][..i] == results[..i];
  }

  // ---------------------------------------------------------------------------------------
  // The loops
  // ---------------------------------------------------------------------------------------

  /** Lines 45-93 for one result: the six components. */
  method ComputeComponents(ctx: RaceContext, drivers: seq<Driver>, race: Race, res: RaceResult) returns (r: Result<Components>)
    requires Lawful(ctx.m)
    ensures r == ResultComponents(ctx, drivers, race, res)
  {
    var teammates :- ComputeTeammatePlaceDiff(ctx.m, drivers, ctx.statuses, res.driverId, res.teamId, res.position,
                                              res.status, race.results, |race.results|);
    r := SessionComponents(ctx, race, res, teammates);
  }

  /** The body of the result loop for one result. */
  method ApplyResult(ctx: RaceContext, teams: seq<Team>, decays: map<int, real>, race: Race, st: DriverPhase,
                     res: RaceResult) returns (r: Result<DriverPhase>)
    requires Lawful(ctx.m) && DriversRated(st.drivers) && TeamsRated(teams)
    ensures r == ResultStep(ctx, teams, decays, race, st, res)
  {
    var n := |race.results|;
    var c :- ComputeComponents(ctx, st.drivers, race, res);
    var entries := Record(st.entries, res.teamId, Placing(res.driverId, res.position, n),
                          QualiPlacing(ctx, race, res), SprintPlacing(ctx, race, res));
    var window :- RookieWindow(ctx.ws);
    var i := FindFirst(st.drivers, DriverKey, res.driverId);
    if i.None? {
      return Ok(DriverPhase(st.drivers, entries));
    }
    var d := st.drivers[i.value];
    var v := NewDriverRating(ctx, teams, decays, d, res, c, window);
    r := Ok(DriverPhase(st.drivers[i.value := d.(ratings := d.ratings + [Rating(v, Some(race.date))])], entries));
  }

  /** The result loop of one race (lines 44-206). */
  method RunDriverPhase(ctx: RaceContext, teams: seq<Team>, decays: map<int, real>, race: Race, drivers: seq<Driver>)
    returns (r: Result<DriverPhase>)
    requires Lawful(ctx.m) && DriversRated(drivers) && TeamsRated(teams)
    ensures r == DriverPhaseOver(ctx, teams, decays, race, DriverPhase(drivers, []), race.results)
  {
    var st := DriverPhase(drivers, []);
    ghost var start := st;
    for i := 0 to |race.results|
      invariant DriverPhaseOver(ctx, teams, decays, race, start, race.results[..i]) == Ok(st)
      invariant DriversRated(st.drivers)
    {
      DriverPhaseUnfold(ctx, teams, decays, race, start, race.results, i, st);
      var next := ApplyResult(ctx, teams, decays, race, st, race.results[i]);
      if next.Err? {
        DriverPhaseErrorPersists(ctx, teams, decays, race, start, race.results, i + 1);
        return next;
      }
      st := next.value;
    }
    assert race.results[..|race.results|] == race.results;
    return Ok(st);
  }
}
