/**
 * The team phase of one race in `compute_ratings` (`compute.py`, lines 208-260): each
 * team's weighted field position, then one relative change per team.
 */
module RaceTeam {
  import opened Base
  import opened Records
  import opened Config
  import opened Search
  import opened Sorting
  import opened ComputeTeam
  import opened RaceDriver

  // ---------------------------------------------------------------------------------------
  // Weighted field position (lines 210-247)
  // ---------------------------------------------------------------------------------------

  /** `(BASE + (rating - BASE) * multiplier) / BASE`. */
  function Scaling(rating: real, multiplier: real): real
  {
    (BASE_DRIVER_RATING + (rating - BASE_DRIVER_RATING) * multiplier) / BASE_DRIVER_RATING
  }

  /** A base-rated driver's position is taken as it is. */
  lemma ScalingAtBase(multiplier: real)
    ensures Scaling(BASE_DRIVER_RATING, multiplier) == 1.0
  {
  }

  /**
   * `get_driver_by_id(drivers, id).ratings[-1][0]`: a driver that is not found makes the
   * source read `.ratings` of `None`.
   */
  function PlacedRating(drivers: seq<Driver>, p: Placed): (r: Result<real>)
    requires DriversRated(drivers)
    ensures r.Err? <==> FirstIndex(drivers, DriverKey, p.driverId).None?
    ensures r.Err? ==> r.error == MissingDriver
  {
    match FirstIndex(drivers, DriverKey, p.driverId)
    case None => Err(MissingDriver)
    case Some(i) => Ok(Last(drivers[i].ratings))
  }

  /** `sum(position * scaling)` over a list, as the `+=` loop accumulates it. */
  function ScaledSum(drivers: seq<Driver>, placed: seq<Placed>, multiplier: real): (r: Result<real>)
    requires DriversRated(drivers)
    ensures r.Err? ==> r.error == MissingDriver
    decreases |placed|
  {
    if |placed| == 0 then Ok(0.0)
    else
      var pre :- ScaledSum(drivers, placed[..|placed| - 1], multiplier);
      var p := placed[|placed| - 1];
      var rating :- PlacedRating(drivers, p);
      Ok(pre + (p.pos as real) * Scaling(rating, multiplier))
  }

  /** The scaled sum divided by the list's length, or 0 for an empty list. */
  function ScaledAverage(drivers: seq<Driver>, placed: seq<Placed>, multiplier: real): Result<real>
    requires DriversRated(drivers)
  {
    var total :- ScaledSum(drivers, placed, multiplier);
    Ok(if |placed| == 0 then 0.0 else total / (|placed| as real))
  }

  /** `sum(position for ...)` over a list. */
  function PositionSum(placed: seq<Placed>): int
    decreases |placed|
  {
    if |placed| == 0 then 0 else PositionSum(placed[..|placed| - 1]) + placed[|placed| - 1].pos
  }

  /** Whether every placing names a driver that is found and sits on the base rating. */
  predicate AllAtBase(drivers: seq<Driver>, placed: seq<Placed>)
    requires DriversRated(drivers)
  {
    forall k :: 0 <= k < |placed| ==> PlacedRating(drivers, placed[k]) == Ok(BASE_DRIVER_RATING)
  }

  /** With every driver on the base rating, the scaled sum is the plain sum of positions. */
  lemma {:induction false} ScaledSumAtBase(drivers: seq<Driver>, placed: seq<Placed>, multiplier: real)
    requires DriversRated(drivers) && AllAtBase(drivers, placed)
    ensures ScaledSum(drivers, placed, multiplier) == Ok(PositionSum(placed) as real)
    decreases |placed|
  {
    if |placed| > 0 {
      var pre := placed[..|placed| - 1];
      assert forall k :: 0 <= k < |pre| ==> pre[k] == placed[k];
      ScaledSumAtBase(drivers, pre, multiplier);
      ScalingAtBase(multiplier);
    }
  }

  /** Any placing whose driver is missing makes the sum raise. */
  lemma {:induction false} ScaledSumMissing(drivers: seq<Driver>, placed: seq<Placed>, multiplier: real, k: nat)
    requires DriversRated(drivers) && k < |placed| && FirstIndex(drivers, DriverKey, placed[k].driverId).None?
    ensures ScaledSum(drivers, placed, multiplier) == Err(MissingDriver)
    decreases |placed|
  {
    if k < |placed| - 1 {
      ScaledSumMissing(drivers, placed[..|placed| - 1], multiplier, k);
    }
  }

  /**
   * Lines 234-239 as written: every sprint placing's scaled position replaces the running
   * value instead of adding to it, so only the last one survives the division.
   */
  function LastScaled(drivers: seq<Driver>, placed: seq<Placed>, multiplier: real): Result<real>
    requires DriversRated(drivers)
    decreases |placed|
  {
    if |placed| == 0 then Ok(0.0)
    else
      var _ :- LastScaled(drivers, placed[..|placed| - 1], multiplier);
      var p := placed[|placed| - 1];
      var rating :- PlacedRating(drivers, p);
      Ok((p.pos as real) * Scaling(rating, multiplier))
  }

  function SprintAverageAsWritten(drivers: seq<Driver>, placed: seq<Placed>, multiplier: real): Result<real>
    requires DriversRated(drivers)
  {
    var last :- LastScaled(drivers, placed, multiplier);
    Ok(if |placed| == 0 then 0.0 else last / (|placed| as real))
  }

  function TwoBaseDrivers(): seq<Driver>
  {
    [Driver(1, "A", "A", [Rating(BASE_DRIVER_RATING, None)]), Driver(2, "B", "B", [Rating(BASE_DRIVER_RATING, None)])]
  }

  /**
   * Two base-rated sprint drivers of one team at positions 1 and 3: the team's sprint
   * average should be 2, but as written it is 3 / 2.
   */
  lemma SprintAverageCounterexample(multiplier: real)
    ensures SprintAverageAsWritten(TwoBaseDrivers(), [Placed(1, 1), Placed(2, 3)], multiplier) == Ok(1.5)
    ensures ScaledAverage(TwoBaseDrivers(), [Placed(1, 1), Placed(2, 3)], multiplier) == Ok(2.0)
  {
    var drivers := TwoBaseDrivers();
    var placed := [Placed(1, 1), Placed(2, 3)];
    assert FirstIndex(drivers[..1], DriverKey, 1) == Some(0);
    assert FirstIndex(drivers, DriverKey, 1) == Some(0);
    assert FirstIndex(drivers[..1], DriverKey, 2) == None;
    assert FirstIndex(drivers, DriverKey, 2) == Some(1);
    ScalingAtBase(multiplier);
    assert placed[..1] == [Placed(1, 1)] && placed[..1][..0] == [];
    assert AllAtBase(drivers, placed);
    ScaledSumAtBase(drivers, placed, multiplier);
    assert PositionSum(placed[..1]) == 1;
    assert LastScaled(drivers, placed[..1], multiplier) == Ok(1.0);
    assert LastScaled(drivers, placed, multiplier) == Ok(3.0);
  }

  /** `race_avg * 0.6 * w + quali_avg * 0.3 * w + sprint_avg * 0.1`. */
  function Combined(w: real, race: real, quali: real, sprint: real): real
  {
    race * TEAM_RACE_WEIGHT * w + quali * TEAM_QUALI_WEIGHT * w + sprint * TEAM_SPRINT_WEIGHT
  }

  /**
   * One team's weighted field position: race and qualifying averages scaled by `w`, and
   * the sprint average (accumulated, as for race and qualifying) unscaled.
   */
  function WeightedPosition(w: real, multiplier: real, drivers: seq<Driver>, e: TeamEntry): Result<real>
    requires DriversRated(drivers)
  {
    var raceAvg :- ScaledAverage(drivers, e.race, multiplier);
    var qualiAvg :- ScaledAverage(drivers, e.quali, multiplier);
    var sprintAvg :- ScaledAverage(drivers, e.sprint, multiplier);
    Ok(Combined(w, raceAvg, qualiAvg, sprintAvg))
  }

  /** The ids of the entries whose team is found, in entry order. */
  function FoundIds(teams: seq<Team>, ids: seq<int>): seq<int>
    decreases |ids|
  {
    if |ids| == 0 then []
    else
      var pre := FoundIds(teams, ids[..|ids| - 1]);
      if FirstIndex(teams, TeamKey, ids[|ids| - 1]).Some? then pre + [ids[|ids| - 1]] else pre
  }

  /** `teams_weighted_pos`: one weighted position per entry whose team is found. */
  function Aggregate(w: real, multiplier: real, drivers: seq<Driver>, teams: seq<Team>, entries: seq<TeamEntry>): (r: Result<seq<WeightedPos>>)
    requires DriversRated(drivers)
    ensures r.Ok? ==> WeightedIds(r.value) == FoundIds(teams, EntryIds(entries))
    decreases |entries|
  {
    if |entries| == 0 then Ok([])
    else
      var pre :- Aggregate(w, multiplier, drivers, teams, entries[..|entries| - 1]);
      var e := entries[|entries| - 1];
      assert EntryIds(entries)[..|entries| - 1] == EntryIds(entries[..|entries| - 1]);
      if FirstIndex(teams, TeamKey, e.teamId).None? then Ok(pre)
      else
        var v :- WeightedPosition(w, multiplier, drivers, e);
        assert WeightedIds(pre + [WeightedPos(e.teamId, v)]) == WeightedIds(pre) + [e.teamId];
        Ok(pre + [WeightedPos(e.teamId, v)])
  }

  /** Whether some placing names a driver that is not found. */
  predicate NamesUnknown(drivers: seq<Driver>, placed: seq<Placed>)
  {
    exists k :: 0 <= k < |placed| && FirstIndex(drivers, DriverKey, placed[k].driverId).None?
  }

  /** The sum raises exactly when some placing names a driver that is not found. */
  lemma {:induction false} ScaledSumRaises(drivers: seq<Driver>, placed: seq<Placed>, multiplier: real)
    requires DriversRated(drivers)
    ensures ScaledSum(drivers, placed, multiplier).Err? <==> NamesUnknown(drivers, placed)
    decreases |placed|
  {
    if |placed| > 0 {
      var pre := placed[..|placed| - 1];
      ScaledSumRaises(drivers, pre, multiplier);
      if NamesUnknown(drivers, placed) {
        var k :| 0 <= k < |placed| && FirstIndex(drivers, DriverKey, placed[k].driverId).None?;
        ScaledSumMissing(drivers, placed, multiplier, k);
      } else {
        assert !NamesUnknown(drivers, pre) by {
          forall k | 0 <= k < |pre| ensures FirstIndex(drivers, DriverKey, pre[k].driverId).Some? {
            assert pre[k] == placed[k];
          }
        }
      }
    }
  }

  /**
   * A team's weighted position raises (reading `.ratings` of a driver that is not found),
   * and then with `MissingDriver`, exactly when one of its three lists names such a driver.
   */
  lemma WeightedPositionRaises(w: real, multiplier: real, drivers: seq<Driver>, e: TeamEntry)
    requires DriversRated(drivers)
    ensures WeightedPosition(w, multiplier, drivers, e).Err? <==>
      NamesUnknown(drivers, e.race) || NamesUnknown(drivers, e.quali) || NamesUnknown(drivers, e.sprint)
    ensures WeightedPosition(w, multiplier, drivers, e).Err? ==> WeightedPosition(w, multiplier, drivers, e).error == MissingDriver
  {
    ScaledSumRaises(drivers, e.race, multiplier);
    ScaledSumRaises(drivers, e.quali, multiplier);
    ScaledSumRaises(drivers, e.sprint, multiplier);
  }

  /** Each aggregated position is the weighted position of an entry with that team id. */
  lemma {:induction false} AggregateValues(w: real, multiplier: real, drivers: seq<Driver>, teams: seq<Team>, entries: seq<TeamEntry>)
    requires DriversRated(drivers)
    ensures var r := Aggregate(w, multiplier, drivers, teams, entries);
      r.Ok? ==> forall k :: 0 <= k < |r.value| ==>
        exists j :: 0 <= j < |entries| && entries[j].teamId == r.value[k].teamId &&
                    WeightedPosition(w, multiplier, drivers, entries[j]) == Ok(r.value[k].pos)
    decreases |entries|
  {
    var r := Aggregate(w, multiplier, drivers, teams, entries);
    if |entries| > 0 && r.Ok? {
      var prefix := entries[..|entries| - 1];
      var pre := Aggregate(w, multiplier, drivers, teams, prefix);
      AggregateValues(w, multiplier, drivers, teams, prefix);
      var e := entries[|entries| - 1];
      assert pre.Ok? && r.value[..|pre.value|] == pre.value;
      forall k | 0 <= k < |r.value|
        ensures exists j :: 0 <= j < |entries| && entries[j].teamId == r.value[k].teamId &&
                            WeightedPosition(w, multiplier, drivers, entries[j]) == Ok(r.value[k].pos)
      {
        if k < |pre.value| {
          assert r.value[k] == r.value[..|pre.value|][k];
          var j :| 0 <= j < |prefix| && prefix[j].teamId == pre.value[k].teamId &&
                   WeightedPosition(w, multiplier, drivers, prefix[j]) == Ok(pre.value[k].pos);
          assert entries[j] == prefix[j];
        } else {
          assert entries[|entries| - 1] == e;
        }
      }
    }
  }

  /**
   * The aggregation raises exactly when an entry whose team is found has a list naming a
   * driver that is not found, and then with `MissingDriver`.
   */
  lemma {:induction false} AggregateRaises(w: real, multiplier: real, drivers: seq<Driver>, teams: seq<Team>, entries: seq<TeamEntry>)
    requires DriversRated(drivers)
    ensures var r := Aggregate(w, multiplier, drivers, teams, entries);
      r.Err? <==> exists j :: 0 <= j < |entries| && FirstIndex(teams, TeamKey, entries[j].teamId).Some? &&
                              (NamesUnknown(drivers, entries[j].race) || NamesUnknown(drivers, entries[j].quali) ||
                               NamesUnknown(drivers, entries[j].sprint))
    ensures var r := Aggregate(w, multiplier, drivers, teams, entries);
      r.Err? ==> r.error == MissingDriver
    decreases |entries|
  {
    if |entries| > 0 {
      var prefix := entries[..|entries| - 1];
      AggregateRaises(w, multiplier, drivers, teams, prefix);
      var e := entries[|entries| - 1];
      WeightedPositionRaises(w, multiplier, drivers, e);
      assert forall j :: 0 <= j < |prefix| ==> prefix[j] == entries[j];
    }
  }

  /**
   * Over one race, the aggregation weighs every team of the results that is found, once,
   * and each at the weighted position of the placings its own results recorded.
   */
  lemma RaceWeightedPositions(ctx: RaceContext, teams: seq<Team>, decays: map<int, real>, race: Race, drivers: seq<Driver>,
                              w: real, multiplier: real)
    requires Lawful(ctx.m) && DriversRated(drivers) && TeamsRated(teams)
    ensures var phase := DriverPhaseOver(ctx, teams, decays, race, DriverPhase(drivers, []), race.results);
      phase.Ok? && Aggregate(w, multiplier, phase.value.drivers, teams, phase.value.entries).Ok? ==>
        var wp := Aggregate(w, multiplier, phase.value.drivers, teams, phase.value.entries).value;
        (forall id :: id in WeightedIds(wp) <==> id in ResultTeamIds(race.results) && FirstIndex(teams, TeamKey, id).Some?) &&
        DistinctInts(WeightedIds(wp)) &&
        forall k :: 0 <= k < |wp| ==>
          WeightedPosition(w, multiplier, phase.value.drivers, TeamPlacings(ctx, race, race.results, wp[k].teamId)) == Ok(wp[k].pos)
  {
    var phase := DriverPhaseOver(ctx, teams, decays, race, DriverPhase(drivers, []), race.results);
    if phase.Ok? {
      var entries := phase.value.entries;
      var r := Aggregate(w, multiplier, phase.value.drivers, teams, entries);
      RacePlacingsRecorded(ctx, teams, decays, race, drivers);
      ResultTeamIdsMembers(race.results);
      if r.Ok? {
        AggregateValues(w, multiplier, phase.value.drivers, teams, entries);
        FoundIdsFacts(teams, EntryIds(entries));
        assert DistinctInts(EntryIds(entries));
      }
    }
  }

  predicate DistinctInts(ids: seq<int>)
  {
    forall i, j :: 0 <= i < j < |ids| ==> ids[i] != ids[j]
  }

  /**
   * The aggregated ids are the entries' ids whose team is found, in order: so they are
   * distinct when the entries' keys are, and each one names a known team.
   */
  lemma {:induction false} FoundIdsFacts(teams: seq<Team>, ids: seq<int>)
    ensures forall x :: x in FoundIds(teams, ids) <==> x in ids && FirstIndex(teams, TeamKey, x).Some?
    ensures DistinctInts(ids) ==> DistinctInts(FoundIds(teams, ids))
    decreases |ids|
  {
    if |ids| > 0 {
      var pre := ids[..|ids| - 1];
      FoundIdsFacts(teams, pre);
      assert forall x :: x in ids <==> x in pre || x == ids[|ids| - 1];
    }
  }

  // ---------------------------------------------------------------------------------------
  // Team update (lines 249-260)
  // ---------------------------------------------------------------------------------------

  /** The state the team loop threads: the teams and the (possibly re-sorted) list. */
  datatype TeamPhase = TeamPhase(teams: seq<Team>, list: seq<WeightedPos>)

  /**
   * A found team gains the rating `last + change * 300 * ws - decay`, dated with the race;
   * an unknown id changes nothing.
   */
  function TeamUpdated(ws: real, decays: map<int, real>, date: int, teams: seq<Team>, id: int, change: real): (r: seq<Team>)
    requires TeamsRated(teams)
    ensures TeamsRated(r) && TeamsExtend(teams, r)
  {
    match FirstIndex(teams, TeamKey, id)
    case None => teams
    case Some(i) =>
      var t := teams[i];
      var v := Last(t.ratings) + change * SWING_MULTIPLIER_TEAM * ws - DecayOf(decays, id);
      var after := teams[i := t.(ratings := t.ratings + [Rating(v, Some(date))])];
      assert after[i].ratings[..|t.ratings|] == t.ratings;
      after
  }

  /**
   * One visit of the team loop: the change is computed on the current teams (the copy
   * shares the team objects, so earlier appends are visible) and the current list, which
   * the call may sort.
   */
  function TeamStep(m: Math, ws: real, decays: map<int, real>, date: int, st: TeamPhase, id: int): (r: TeamPhase)
    requires Lawful(m) && TeamsRated(st.teams)
    ensures TeamsRated(r.teams) && TeamsExtend(st.teams, r.teams)
  {
    TeamPhase(TeamUpdated(ws, decays, date, st.teams, id, TeamRatingChange(m, st.teams, id, st.list)),
              ListAfterChange(id, st.list))
  }

  /**
   * Exactly the first team with the id gains one entry, dated with the race, whose value is
   * its last rating moved by the scaled change and lowered by its decay (0 when absent).
   */
  lemma TeamUpdatedFacts(ws: real, decays: map<int, real>, date: int, teams: seq<Team>, id: int, change: real, j: nat)
    requires TeamsRated(teams) && j < |teams|
    ensures var r := TeamUpdated(ws, decays, date, teams, id, change);
      |r[j].ratings| == |teams[j].ratings| + (if FirstIndex(teams, TeamKey, id) == Some(j) then 1 else 0)
      && forall k :: |teams[j].ratings| <= k < |r[j].ratings| ==> r[j].ratings[k].date == Some(date)
    ensures var r := TeamUpdated(ws, decays, date, teams, id, change);
      FirstIndex(teams, TeamKey, id) == Some(j) ==>
        Last(r[j].ratings) == Last(teams[j].ratings) + change * SWING_MULTIPLIER_TEAM * ws
                              - (if id in decays then decays[id] else 0.0)
  {
  }

  /** The visits folded in order. */
  function TeamPhaseOver(m: Math, ws: real, decays: map<int, real>, date: int, st: TeamPhase, ids: seq<int>): (r: TeamPhase)
    requires Lawful(m) && TeamsRated(st.teams)
    ensures TeamsRated(r.teams) && TeamsExtend(st.teams, r.teams)
    decreases |ids|
  {
    if |ids| == 0 then st
    else
      var pre := TeamPhaseOver(m, ws, decays, date, st, ids[..|ids| - 1]);
      var r := TeamStep(m, ws, decays, date, pre, ids[|ids| - 1]);
      TeamsExtendTransitive(st.teams, pre.teams, r.teams);
      r
  }

  /** How many of `ids` name the team at index `j` (the first team with that id). */
  function TeamHits(teams: seq<Team>, ids: seq<int>, j: nat): nat
    decreases |ids|
  {
    if |ids| == 0 then 0
    else TeamHits(teams, ids[..|ids| - 1], j) + (if FirstIndex(teams, TeamKey, ids[|ids| - 1]) == Some(j) then 1 else 0)
  }

  /**
   * Each visit appends exactly one entry, dated with the race, to the first team with its
   * id: a team gains one entry per visit that names it, and nothing else.
   */
  lemma TeamPhaseFacts(m: Math, ws: real, decays: map<int, real>, date: int, st: TeamPhase, ids: seq<int>, j: nat)
    requires Lawful(m) && TeamsRated(st.teams) && j < |st.teams|
    ensures var r := TeamPhaseOver(m, ws, decays, date, st, ids);
      |r.teams[j].ratings| == |st.teams[j].ratings| + TeamHits(st.teams, ids, j)
    ensures var r := TeamPhaseOver(m, ws, decays, date, st, ids);
      DatedFrom(r.teams[j].ratings, |st.teams[j].ratings|, date)
  {
    TeamPhaseGrowth(m, ws, decays, date, st, ids, j);
    TeamPhaseDated(m, ws, decays, date, st, ids, j);
  }

  lemma {:induction false} TeamPhaseGrowth(m: Math, ws: real, decays: map<int, real>, date: int, st: TeamPhase,
                                           ids: seq<int>, j: nat)
    requires Lawful(m) && TeamsRated(st.teams) && j < |st.teams|
    ensures var r := TeamPhaseOver(m, ws, decays, date, st, ids);
      |r.teams[j].ratings| == |st.teams[j].ratings| + TeamHits(st.teams, ids, j)
    decreases |ids|
  {
    if |ids| > 0 {
      var pre := TeamPhaseOver(m, ws, decays, date, st, ids[..|ids| - 1]);
      TeamPhaseGrowth(m, ws, decays, date, st, ids[..|ids| - 1], j);
      var id := ids[|ids| - 1];
      var change := TeamRatingChange(m, pre.teams, id, pre.list);
      assert TeamPhaseOver(m, ws, decays, date, st, ids).teams == TeamUpdated(ws, decays, date, pre.teams, id, change);
      TeamUpdatedFacts(ws, decays, date, pre.teams, id, change, j);
      FirstIndexSameKeys(st.teams, pre.teams, TeamKey, id);
    }
  }

  lemma {:induction false} TeamPhaseDated(m: Math, ws: real, decays: map<int, real>, date: int, st: TeamPhase,
                                          ids: seq<int>, j: nat)
    requires Lawful(m) && TeamsRated(st.teams) && j < |st.teams|
    ensures var r := TeamPhaseOver(m, ws, decays, date, st, ids);
      DatedFrom(r.teams[j].ratings, |st.teams[j].ratings|, date)
    decreases |ids|
  {
    if |ids| > 0 {
      var pre := TeamPhaseOver(m, ws, decays, date, st, ids[..|ids| - 1]);
      TeamPhaseDated(m, ws, decays, date, st, ids[..|ids| - 1], j);
      var id := ids[|ids| - 1];
      var change := TeamRatingChange(m, pre.teams, id, pre.list);
      var r := TeamUpdated(ws, decays, date, pre.teams, id, change);
      assert TeamPhaseOver(m, ws, decays, date, st, ids).teams == r;
      TeamUpdatedFacts(ws, decays, date, pre.teams, id, change, j);
      assert r[j].ratings[..|pre.teams[j].ratings|] == pre.teams[j].ratings;
    }
  }

  /** Visiting distinct ids, each team is named at most once, and exactly once when listed. */
  lemma {:induction false} TeamHitsDistinct(teams: seq<Team>, ids: seq<int>, j: nat)
    requires DistinctInts(ids) && j < |teams|
    ensures TeamHits(teams, ids, j) <= 1
    ensures TeamHits(teams, ids, j) == 1 <==> FirstIndex(teams, TeamKey, teams[j].id) == Some(j) && teams[j].id in ids
    decreases |ids|
  {
    if |ids| > 0 {
      var pre := ids[..|ids| - 1];
      var x := ids[|ids| - 1];
      TeamHitsDistinct(teams, pre, j);
      assert x !in pre;
      assert forall y :: y in ids <==> y in pre || y == x;
      if FirstIndex(teams, TeamKey, x) == Some(j) {
        assert x == teams[j].id;
      }
    }
  }

  /**
   * Corrected update: visiting a snapshot of the aggregated ids, every team whose weighted
   * position was computed gains exactly one rating dated with the race, and every other
   * team none.
   */
  lemma TeamPhaseOncePerTeam(m: Math, ws: real, decays: map<int, real>, date: int, teams: seq<Team>,
                             wp: seq<WeightedPos>, j: nat)
    requires Lawful(m) && TeamsRated(teams) && j < |teams| && DistinctInts(WeightedIds(wp))
    requires FirstIndex(teams, TeamKey, teams[j].id) == Some(j)
    ensures var r := TeamPhaseOver(m, ws, decays, date, TeamPhase(teams, wp), WeightedIds(wp));
      |r.teams[j].ratings| == |teams[j].ratings| + (if teams[j].id in WeightedIds(wp) then 1 else 0)
  {
    TeamPhaseFacts(m, ws, decays, date, TeamPhase(teams, wp), WeightedIds(wp), j);
    TeamHitsDistinct(teams, WeightedIds(wp), j);
  }

  // ---------------------------------------------------------------------------------------
  // The visit order as written (lines 250-252 with `compute_team.py` line 14)
  // ---------------------------------------------------------------------------------------

  /**
   * Python's list iterator reads the list by index on every step, and the first call sorts
   * the list in place: the loop visits the first entry, then the sorted list from index 1.
   */
  function VisitsAsWritten(wp: seq<WeightedPos>): seq<int>
  {
    if |wp| == 0 then []
    else [wp[0].teamId] + WeightedIds(ListAfterChange(wp[0].teamId, wp))[1..]
  }

  lemma VisitsLength(wp: seq<WeightedPos>)
    ensures |VisitsAsWritten(wp)| == |wp|
  {
    if |wp| > 0 {
      ListSettled(wp, 0);
    }
  }

  /** After the first call, no later call moves the list again. */
  lemma ListSettled(wp: seq<WeightedPos>, id: int)
    requires |wp| > 0
    ensures |ListAfterChange(wp[0].teamId, wp)| == |wp|
    ensures ListAfterChange(id, ListAfterChange(wp[0].teamId, wp)) == ListAfterChange(wp[0].teamId, wp)
  {
    var id0 := wp[0].teamId;
    var a := ListAfterChange(id0, wp);
    SortByFacts(wp, PosKey);
    assert FirstIndex(wp, WeightedTeamKey, id0).Some?;
    if ReachesSort(id0, wp) {
      if ReachesSort(id, a) {
        SortBySorted(a, PosKey);
      }
    } else {
      assert MinPos(wp) == MaxPos(wp);
    }
  }

  function ThreeTeams(): seq<WeightedPos>
  {
    [WeightedPos(1, 3.0), WeightedPos(2, 1.0), WeightedPos(3, 2.0)]
  }

  lemma SortFirstTwo()
    ensures SortBy(ThreeTeams()[..2], PosKey) == [WeightedPos(2, 1.0), WeightedPos(1, 3.0)]
  {
    var s := ThreeTeams()[..2];
    assert s[..1] == [WeightedPos(1, 3.0)] && s[..1][..0] == [];
    assert SortBy(s[..1], PosKey) == [WeightedPos(1, 3.0)];
    var one := [WeightedPos(1, 3.0)];
    assert one[..0] == [];
    assert Insert(one, WeightedPos(2, 1.0), PosKey) == [WeightedPos(2, 1.0), WeightedPos(1, 3.0)];
  }

  lemma InsertThird()
    ensures Insert([WeightedPos(2, 1.0), WeightedPos(1, 3.0)], WeightedPos(3, 2.0), PosKey)
            == [WeightedPos(2, 1.0), WeightedPos(3, 2.0), WeightedPos(1, 3.0)]
  {
    var t := [WeightedPos(2, 1.0), WeightedPos(1, 3.0)];
    assert t[..1] == [WeightedPos(2, 1.0)];
    assert Insert(t[..1], WeightedPos(3, 2.0), PosKey) == [WeightedPos(2, 1.0), WeightedPos(3, 2.0)];
  }

  lemma ThreeTeamsSorted()
    ensures SortBy(ThreeTeams(), PosKey) == [WeightedPos(2, 1.0), WeightedPos(3, 2.0), WeightedPos(1, 3.0)]
  {
    var s := ThreeTeams();
    assert s[..|s| - 1] == s[..2];
    SortFirstTwo();
    InsertThird();
  }

  /**
   * Three teams with weighted positions 3, 1, 2 (ids 1, 2, 3): as written the loop visits
   * team 1, team 3, then team 1 again, so team 1 is updated twice and team 2 never.
   */
  lemma VisitsCounterexample()
    ensures VisitsAsWritten(ThreeTeams()) == [1, 3, 1]
    ensures 2 in WeightedIds(ThreeTeams()) && 2 !in VisitsAsWritten(ThreeTeams())
  {
    var s := ThreeTeams();
    ThreeTeamsSorted();
    ThreeTeamsReachSort();
    assert WeightedIds(s)[1] == 2;
  }

  /** The first call of the loop, for team 1, reaches the sort. */
  lemma ThreeTeamsReachSort()
    ensures ReachesSort(1, ThreeTeams())
  {
    var s := ThreeTeams();
    assert s[1].pos == 1.0 && s[0].pos == 3.0;
    assert MinPos(s) <= 1.0 && 3.0 <= MaxPos(s);
    assert WeightedTeamKey(s[0]) == 1;
  }

  predicate ThreeTeamIds(teams: seq<Team>)
  {
    |teams| == 3 && teams[0].id == 1 && teams[1].id == 2 && teams[2].id == 3
  }

  lemma ThreeTeamsFound(teams: seq<Team>)
    requires ThreeTeamIds(teams)
    ensures FirstIndex(teams, TeamKey, 1) == Some(0) && FirstIndex(teams, TeamKey, 3) == Some(2)
  {
    assert TeamKey(teams[0]) == 1 && TeamKey(teams[1]) == 2 && TeamKey(teams[2]) == 3;
  }

  lemma ThreeTeamsHits(teams: seq<Team>)
    requires ThreeTeamIds(teams)
    ensures TeamHits(teams, [1, 3, 1], 0) == 2 && TeamHits(teams, [1, 3, 1], 1) == 0
  {
    ThreeTeamsFound(teams);
    var ids := [1, 3, 1];
    assert ids[..2] == [1, 3] && [1, 3][..1] == [1] && [1][..0] == [];
  }

  /** The same three teams, visited as written, leave team 2 without a rating for the race. */
  lemma TeamPhaseCounterexample(m: Math, ws: real, decays: map<int, real>, date: int, teams: seq<Team>)
    requires Lawful(m) && TeamsRated(teams) && ThreeTeamIds(teams)
    ensures var r := TeamPhaseOver(m, ws, decays, date, TeamPhase(teams, ThreeTeams()), VisitsAsWritten(ThreeTeams()));
      |r.teams[1].ratings| == |teams[1].ratings| && |r.teams[0].ratings| == |teams[0].ratings| + 2
  {
    VisitsCounterexample();
    ThreeTeamsHits(teams);
    TeamPhaseFacts(m, ws, decays, date, TeamPhase(teams, ThreeTeams()), [1, 3, 1], 1);
    TeamPhaseFacts(m, ws, decays, date, TeamPhase(teams, ThreeTeams()), [1, 3, 1], 0);
  }

  // ---------------------------------------------------------------------------------------
  // The loops
  // ---------------------------------------------------------------------------------------

  lemma ScaledSumStep(drivers: seq<Driver>, placed: seq<Placed>, multiplier: real, k: nat, total: real, rating: real)
    requires DriversRated(drivers) && k < |placed|
    requires ScaledSum(drivers, placed[..k], multiplier) == Ok(total) && PlacedRating(drivers, placed[k]) == Ok(rating)
    ensures ScaledSum(drivers, placed[..k + 1], multiplier) == Ok(total + (placed[k].pos as real) * Scaling(rating, multiplier))
  {
    var s := placed[..k + 1];
    assert s[..|s| - 1] == placed[..k] && s[|s| - 1] == placed[k];
    var x := ScaledSum(drivers, s, multiplier);
    assert x.Ok?;
    assert x.value == total + (placed[k].pos as real) * Scaling(rating, multiplier);
  }

  /** Lines 214-221: the `+=` accumulation and the division. */
  method ComputeScaledAverage(drivers: seq<Driver>, placed: seq<Placed>, multiplier: real) returns (r: Result<real>)
    requires DriversRated(drivers)
    ensures r == ScaledAverage(drivers, placed, multiplier)
  {
    var total := 0.0;
    for k := 0 to |placed|
      invariant ScaledSum(drivers, placed[..k], multiplier) == Ok(total)
    {
      assert placed[..k + 1][..k] == placed[..k];
      var i := FindFirst(drivers, DriverKey, placed[k].driverId);
      if i.None? {
        ScaledSumMissing(drivers, placed, multiplier, k);
        return Err(MissingDriver);
      }
      var rating := Last(drivers[i.value].ratings);
      ScaledSumStep(drivers, placed, multiplier, k, total, rating);
      total := total + (placed[k].pos as real) * Scaling(rating, multiplier);
    }
    assert placed[..|placed|] == placed;
    if |placed| != 0 {
      total := total / (|placed| as real);
    }
    return Ok(total);
  }

  lemma {:induction false} AggregateErrorPersists(w: real, multiplier: real, drivers: seq<Driver>, teams: seq<Team>,
                                                  entries: seq<TeamEntry>, j: nat)
    requires DriversRated(drivers)
    requires j <= |entries| && Aggregate(w, multiplier, drivers, teams, entries[..j]).Err?
    ensures Aggregate(w, multiplier, drivers, teams, entries) == Aggregate(w, multiplier, drivers, teams, entries[..j])
    decreases |entries| - j
  {
    if j < |entries| {
      assert entries[..|entries| - 1][..j] == entries[..j];
      AggregateErrorPersists(w, multiplier, drivers, teams, entries[..|entries| - 1], j);
    } else {
      assert entries[..j] == entries;
    }
  }

  /** One more entry: skipped, appended, or the error raised. */
  lemma AggregateStep(w: real, multiplier: real, drivers: seq<Driver>, teams: seq<Team>, entries: seq<TeamEntry>,
                      k: nat, wp: seq<WeightedPos>, v: Result<real>)
    requires DriversRated(drivers) && k < |entries|
    requires Aggregate(w, multiplier, drivers, teams, entries[..k]) == Ok(wp)
    requires v == WeightedPosition(w, multiplier, drivers, entries[k])
    ensures Aggregate(w, multiplier, drivers, teams, entries[..k + 1])
            == if FirstIndex(teams, TeamKey, entries[k].teamId).None? then Ok(wp)
               else if v.Err? then Err(v.error)
               else Ok(wp + [WeightedPos(entries[k].teamId, v.value)])
  {
    var s := entries[..k + 1];
    assert s[..|s| - 1] == entries[..k] && s[|s| - 1] == entries[k];
  }

  /** Lines 214-245 for one team: its three averages combined. */
  method ComputeWeightedPosition(w: real, multiplier: real, drivers: seq<Driver>, e: TeamEntry) returns (r: Result<real>)
    requires DriversRated(drivers)
    ensures r == WeightedPosition(w, multiplier, drivers, e)
  {
    var raceAvg := ComputeScaledAverage(drivers, e.race, multiplier);
    var qualiAvg := ComputeScaledAverage(drivers, e.quali, multiplier);
    var sprintAvg := ComputeScaledAverage(drivers, e.sprint, multiplier);
    if raceAvg.Err? || qualiAvg.Err? || sprintAvg.Err? {
      return Err(MissingDriver);
    }
    r := Ok(Combined(w, raceAvg.value, qualiAvg.value, sprintAvg.value));
  }

  /** Lines 208-247: the weighted position of every found team, in key order. */
  method ComputeAggregation(w: real, multiplier: real, drivers: seq<Driver>, teams: seq<Team>, entries: seq<TeamEntry>)
    returns (r: Result<seq<WeightedPos>>)
    requires DriversRated(drivers)
    ensures r == Aggregate(w, multiplier, drivers, teams, entries)
  {
    var wp: seq<WeightedPos> := [];
    for k := 0 to |entries|
      invariant Aggregate(w, multiplier, drivers, teams, entries[..k]) == Ok(wp)
    {
      var t := FindFirst(teams, TeamKey, entries[k].teamId);
      var v: Result<real> := Ok(0.0);
      if t.Some? {
        v := ComputeWeightedPosition(w, multiplier, drivers, entries[k]);
      }
      ghost var full := WeightedPosition(w, multiplier, drivers, entries[k]);
      AggregateStep(w, multiplier, drivers, teams, entries, k, wp, full);
      if t.None? {
        continue;
      }
      if v.Err? {
        AggregateErrorPersists(w, multiplier, drivers, teams, entries, k + 1);
        return Err(v.error);
      }
      wp := wp + [WeightedPos(entries[k].teamId, v.value)];
    }
    assert entries[..|entries|] == entries;
    return Ok(wp);
  }

  lemma TeamPhaseUnfold(m: Math, ws: real, decays: map<int, real>, date: int, st: TeamPhase, ids: seq<int>, i: nat)
    requires Lawful(m) && TeamsRated(st.teams) && i < |ids|
    ensures TeamPhaseOver(m, ws, decays, date, st, ids[..i + 1])
            == TeamStep(m, ws, decays, date, TeamPhaseOver(m, ws, decays, date, st, ids[..i]), ids[i])
  {
    assert ids[..i + 1][..i] == ids[..i];
  }

  /** One visit on the caller's array: the change (which may sort it), then the update. */
  method VisitTeam(m: Math, ws: real, decays: map<int, real>, date: int, teams: seq<Team>, id: int,
                   twp: array<WeightedPos>) returns (r: seq<Team>)
    requires Lawful(m) && TeamsRated(teams)
    modifies twp
    ensures TeamPhase(r, twp[..]) == TeamStep(m, ws, decays, date, TeamPhase(teams, old(twp[..])), id)
  {
    var change := ComputeTeamRatingChange(m, teams, id, twp);
    r := TeamUpdated(ws, decays, date, teams, id, change);
  }

  /**
   * Lines 249-260 corrected: the loop visits a snapshot of the aggregated ids, while each
   * call may still sort the shared list.
   */
  method RunTeamPhase(m: Math, ws: real, decays: map<int, real>, date: int, teams: seq<Team>, wp: seq<WeightedPos>)
    returns (r: seq<Team>)
    requires Lawful(m) && TeamsRated(teams)
    ensures r == TeamPhaseOver(m, ws, decays, date, TeamPhase(teams, wp), WeightedIds(wp)).teams
  {
    var twp := new WeightedPos[|wp|](k requires 0 <= k < |wp| => wp[k]);
    assert twp[..] == wp;
    var ids := WeightedIds(wp);
    r := teams;
    for i := 0 to |ids|
      invariant TeamPhaseOver(m, ws, decays, date, TeamPhase(teams, wp), ids[..i]) == TeamPhase(r, twp[..])
    {
      TeamPhaseUnfold(m, ws, decays, date, TeamPhase(teams, wp), ids, i);
      r := VisitTeam(m, ws, decays, date, r, ids[i], twp);
    }
    assert ids[..|ids|] == ids;
  }

  /** The list the as-written loop reads at step `i`: the caller's before the first call. */
  function ListAtVisit(wp: seq<WeightedPos>, i: nat): seq<WeightedPos>
  {
    if i == 0 || |wp| == 0 then wp else ListAfterChange(wp[0].teamId, wp)
  }

  lemma VisitStep(wp: seq<WeightedPos>, i: nat)
    requires i < |wp|
    ensures |ListAtVisit(wp, i)| == |wp| && |VisitsAsWritten(wp)| == |wp|
    ensures ListAtVisit(wp, i)[i].teamId == VisitsAsWritten(wp)[i]
    ensures ListAfterChange(VisitsAsWritten(wp)[i], ListAtVisit(wp, i)) == ListAtVisit(wp, i + 1)
  {
    VisitsLength(wp);
    if i == 0 {
      assert ListAtVisit(wp, 0) == wp;
    } else {
      VisitLater(wp, i);
    }
  }

  /** From the second visit on, the list is the settled one and the ids are read from it. */
  lemma VisitLater(wp: seq<WeightedPos>, i: nat)
    requires 0 < i < |wp|
    ensures |ListAtVisit(wp, i)| == |wp|
    ensures ListAtVisit(wp, i)[i].teamId == VisitsAsWritten(wp)[i]
    ensures ListAfterChange(VisitsAsWritten(wp)[i], ListAtVisit(wp, i)) == ListAtVisit(wp, i + 1)
  {
    VisitsLength(wp);
    var cur := ListAfterChange(wp[0].teamId, wp);
    var id := VisitsAsWritten(wp)[i];
    ListSettled(wp, id);
    VisitReadsSettled(wp, cur, i);
  }

  lemma VisitReadsSettled(wp: seq<WeightedPos>, cur: seq<WeightedPos>, i: nat)
    requires 0 < i < |wp| && cur == ListAfterChange(wp[0].teamId, wp) && |cur| == |wp|
    ensures ListAtVisit(wp, i) == cur && ListAtVisit(wp, i + 1) == cur
    ensures VisitsAsWritten(wp)[i] == cur[i].teamId
  {
    var ids := WeightedIds(cur);
    assert VisitsAsWritten(wp) == [wp[0].teamId] + ids[1..];
  }

  /**
   * Lines 249-260 as written: the loop reads the list by index while the first call sorts
   * it in place.
   */
  method RunTeamPhaseAsWritten(m: Math, ws: real, decays: map<int, real>, date: int, teams: seq<Team>, wp: seq<WeightedPos>)
    returns (r: seq<Team>)
    requires Lawful(m) && TeamsRated(teams)
    ensures r == TeamPhaseOver(m, ws, decays, date, TeamPhase(teams, wp), VisitsAsWritten(wp)).teams
  {
    var twp := new WeightedPos[|wp|](k requires 0 <= k < |wp| => wp[k]);
    assert twp[..] == wp;
    ghost var visits := VisitsAsWritten(wp);
    r := teams;
    var i := 0;
    while i < twp.Length
      invariant twp.Length == |wp| && 0 <= i <= |wp|
      invariant twp[..] == ListAtVisit(wp, i)
      invariant TeamPhaseOver(m, ws, decays, date, TeamPhase(teams, wp), visits[..i]) == TeamPhase(r, twp[..])
    {
      VisitStep(wp, i);
      ghost var before := TeamPhase(r, twp[..]);
      var id := twp[i].teamId;
      assert id == visits[i];
      TeamPhaseUnfold(m, ws, decays, date, TeamPhase(teams, wp), visits, i);
      r := VisitTeam(m, ws, decays, date, r, id, twp);
      assert TeamPhase(r, twp[..]) == TeamStep(m, ws, decays, date, before, id);
      assert twp[..] == ListAfterChange(id, ListAtVisit(wp, i));
      i := i + 1;
    }
    VisitsLength(wp);
    assert visits[..|wp|] == visits;
  }
}
