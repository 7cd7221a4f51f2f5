/**
 * `compute_driver.py`: the teammate comparison score of one result, and the map of
 * per-driver decays toward the base rating.
 */
module ComputeDriver {
  import opened Base
  import opened Records
  import opened Config
  import opened Search
  import opened Helpers

  // ---------------------------------------------------------------------------------------
  // Teammate comparison (`compute_teammate_place_diff`)
  // ---------------------------------------------------------------------------------------

  /**
   * The finishing position the comparison uses for the driver itself: its own position
   * when it parses, `last` when it does not and the status is the driver's fault, and
   * nothing (the comparison scores 0) otherwise.
   */
  function OwnPosition(position: Option<int>, status: int, statuses: Statuses, last: int): Option<int>
  {
    if position.Some? then position
    else if IsDriverFault(status, statuses) then Some(last)
    else None
  }

  /** The ids of the other results of the same team, in result order (with repeats). */
  function TeammateIds(results: seq<RaceResult>, driverId: int, teamId: int): (r: seq<int>)
    ensures |r| == 0 <==> forall k :: 0 <= k < |results| ==> results[k].teamId != teamId || results[k].driverId == driverId
    ensures forall id :: id in r ==> id != driverId
    decreases |results|
  {
    if |results| == 0 then []
    else
      var rest := TeammateIds(results[..|results| - 1], driverId, teamId);
      var res := results[|results| - 1];
      if res.teamId == teamId && res.driverId != driverId then rest + [res.driverId] else rest
  }

  /** The positions of every result whose driver is one of `ids`, in result order. */
  function TeammatePositions(results: seq<RaceResult>, ids: seq<int>): seq<Option<int>>
    decreases |results|
  {
    if |results| == 0 then []
    else
      var rest := TeammatePositions(results[..|results| - 1], ids);
      var res := results[|results| - 1];
      if res.driverId in ids then rest + [res.position] else rest
  }

  /** Each teammate's gap to the driver; an unparsed teammate position counts as `last`. */
  function Diffs(positions: seq<Option<int>>, own: int, last: int): (r: seq<int>)
    ensures |r| == |positions|
    ensures forall k :: 0 <= k < |r| ==> r[k] == positions[k].GetOr(last) - own
    decreases |positions|
  {
    if |positions| == 0 then []
    else Diffs(positions[..|positions| - 1], own, last) + [positions[|positions| - 1].GetOr(last) - own]
  }

  /** The current rating of a known driver with a non-empty history, or nothing. */
  function RatedLast(drivers: seq<Driver>, id: int): Option<real>
  {
    match DriverLookup(drivers, id)
    case None => None
    case Some(d) => if |d.ratings| == 0 then None else Some(Last(d.ratings))
  }

  /** The teammate ids that yield an expected score: the known drivers with a rating, in order. */
  function RatedIds(drivers: seq<Driver>, ids: seq<int>): (r: seq<int>)
    ensures |r| <= |ids|
    ensures forall id :: id in r <==> id in ids && RatedLast(drivers, id).Some?
    decreases |ids|
  {
    if |ids| == 0 then []
    else
      var rest := RatedIds(drivers, ids[..|ids| - 1]);
      var id := ids[|ids| - 1];
      if RatedLast(drivers, id).Some? then rest + [id] else rest
  }

  /**
   * One Elo expected score per teammate that is a known driver with a rating, against the
   * driver's own current rating. Reading the driver's own rating raises when the driver is
   * unknown (`None.ratings`) or has no rating (`ratings[-1]`), and only once some teammate
   * scores. The k-th score belongs to the k-th rated teammate, which is not the k-th gap
   * once a teammate is skipped.
   */
  function ExpectedScores(m: Math, drivers: seq<Driver>, driverId: int, ids: seq<int>): (r: Result<seq<real>>)
    requires Lawful(m)
    ensures r.Err? <==> |RatedIds(drivers, ids)| > 0 && RatedLast(drivers, driverId).None?
    ensures r.Err? ==> r.error == if DriverLookup(drivers, driverId).None? then MissingDriver else EmptyIndex
    ensures r.Ok? ==> |r.value| == |RatedIds(drivers, ids)|
    ensures r.Ok? ==> forall k :: 0 <= k < |r.value| ==>
      RatedLast(drivers, driverId).Some? && RatedLast(drivers, RatedIds(drivers, ids)[k]).Some? &&
      r.value[k] == ExpectedScore(m, RatedLast(drivers, driverId).value, RatedLast(drivers, RatedIds(drivers, ids)[k]).value)
    ensures r.Ok? ==> forall k :: 0 <= k < |r.value| ==> 0.0 < r.value[k] < 1.0
    decreases |ids|
  {
    if |ids| == 0 then Ok([])
    else
      var pre :- ExpectedScores(m, drivers, driverId, ids[..|ids| - 1]);
      ExpectedStep(m, drivers, driverId, pre, ids[|ids| - 1])
  }

  /** One teammate id: skipped when unknown or unrated, else one more expected score. */
  function ExpectedStep(m: Math, drivers: seq<Driver>, driverId: int, pre: seq<real>, id: int): (r: Result<seq<real>>)
    requires Lawful(m)
    requires forall k :: 0 <= k < |pre| ==> 0.0 < pre[k] < 1.0
    ensures RatedLast(drivers, id).None? ==> r == Ok(pre)
    ensures RatedLast(drivers, id).Some? && RatedLast(drivers, driverId).None? ==>
      r == Err(if DriverLookup(drivers, driverId).None? then MissingDriver else EmptyIndex)
    ensures RatedLast(drivers, id).Some? && RatedLast(drivers, driverId).Some? ==>
      r == Ok(pre + [ExpectedScore(m, RatedLast(drivers, driverId).value, RatedLast(drivers, id).value)])
    ensures r.Ok? ==> forall k :: 0 <= k < |r.value| ==> 0.0 < r.value[k] < 1.0
  {
    match DriverLookup(drivers, id)
    case None => Ok(pre)
    case Some(t) =>
      if |t.ratings| == 0 then Ok(pre)
      else
        match DriverLookup(drivers, driverId)
        case None => Err(MissingDriver)
        case Some(d) =>
          if |d.ratings| == 0 then Err(EmptyIndex)
          else Ok(pre + [ExpectedScore(m, Last(d.ratings), Last(t.ratings))])
  }

  lemma ExpectedScoresUnfold(m: Math, drivers: seq<Driver>, driverId: int, ids: seq<int>, i: nat, pre: seq<real>)
    requires Lawful(m)
    requires i < |ids| && ExpectedScores(m, drivers, driverId, ids[..i]) == Ok(pre)
    ensures forall k :: 0 <= k < |pre| ==> 0.0 < pre[k] < 1.0
    ensures ExpectedScores(m, drivers, driverId, ids[..i + 1]) == ExpectedStep(m, drivers, driverId, pre, ids[i])
  {
    assert ids[..i + 1][..i] == ids[..i];
  }

  /**
   * A signed gap run through the position curve: the curve at `|d|`, times -1 for a
   * negative gap. Used for teammate gaps and for grid-to-finish gaps.
   */
  function SignedGap(d: int, span: int): Result<real>
  {
    var v :- DistributionFunction(Some(Abs(d) as real), Some(span as real), CURVE_AMPLITUDE);
    Ok(if d < 0 then -v else v)
  }

  /** The gaps run through the curve against `last - 1`. */
  function Distributed(diffs: seq<int>, last: int): (r: Result<seq<real>>)
    ensures r.Ok? ==> |r.value| == |diffs|
    ensures r.Ok? ==> forall k :: 0 <= k < |diffs| ==> SignedGap(diffs[k], last - 1) == Ok(r.value[k])
    decreases |diffs|
  {
    if |diffs| == 0 then Ok([])
    else
      var pre :- Distributed(diffs[..|diffs| - 1], last);
      var v :- SignedGap(diffs[|diffs| - 1], last - 1);
      Ok(pre + [v])
  }

  /** `[diff * 2 * e for diff, e in zip(distributed, expected)]`: `zip` stops at the shorter. */
  function Adjusted(distributed: seq<real>, expected: seq<real>): (r: seq<real>)
    ensures |r| == if |distributed| < |expected| then |distributed| else |expected|
    ensures forall k :: 0 <= k < |r| ==> r[k] == distributed[k] * 2.0 * expected[k]
  {
    var n := if |distributed| < |expected| then |distributed| else |expected|;
    seq(n, k requires 0 <= k < n => distributed[k] * 2.0 * expected[k])
  }

  /** `t` has the sign of `d` and is smaller than `2 * d` in size. */
  predicate SignKeptWithin(d: real, t: real)
  {
    (d > 0.0 ==> 0.0 < t < 2.0 * d) && (d < 0.0 ==> 2.0 * d < t < 0.0) && (d == 0.0 ==> t == 0.0)
  }

  /**
   * With every expected score strictly between 0 and 1, each adjusted term keeps the sign
   * of its distributed gap and stays below twice the gap in size.
   */
  lemma AdjustedKeepsSign(distributed: seq<real>, expected: seq<real>)
    requires forall k :: 0 <= k < |expected| ==> 0.0 < expected[k] < 1.0
    ensures var r := Adjusted(distributed, expected);
      forall k :: 0 <= k < |r| ==> SignKeptWithin(distributed[k], r[k])
  {
    var r := Adjusted(distributed, expected);
    forall k | 0 <= k < |r|
      ensures SignKeptWithin(distributed[k], r[k])
    {
      TermBetween(distributed[k], expected[k]);
    }
  }

  lemma TermBetween(d: real, e: real)
    requires 0.0 < e < 1.0
    ensures SignKeptWithin(d, d * 2.0 * e)
  {
    assert 2.0 * d - d * 2.0 * e == 2.0 * d * (1.0 - e);
    if d > 0.0 {
      assert 2.0 * d * (1.0 - e) > 0.0;
    } else if d < 0.0 {
      assert 2.0 * (-d) * (1.0 - e) > 0.0;
      assert 2.0 * (-d) * e > 0.0;
    }
  }

  /** `sum(xs) / len(xs) if xs else 0`. */
  function Mean(xs: seq<real>): real
  {
    if |xs| > 0 then Sum(xs) / (|xs| as real) else 0.0
  }

  /**
   * `compute_teammate_place_diff(drivers, statuses, driver_id, team_id, position, status,
   * results, last)`: the mean over teammates of `2 * E * sign(d) * curve(|d|, last - 1, 5)`.
   */
  function TeammatePlaceDiff(m: Math, drivers: seq<Driver>, statuses: Statuses, driverId: int, teamId: int,
                             position: Option<int>, status: int, results: seq<RaceResult>, last: int): Result<real>
    requires Lawful(m)
  {
    match OwnPosition(position, status, statuses, last)
    case None => Ok(0.0)
    case Some(own) =>
      var ids := TeammateIds(results, driverId, teamId);
      if |ids| == 0 then Ok(0.0)
      else
        ScoreFromDiffs(m, drivers, driverId, ids, Diffs(TeammatePositions(results, ids), own, last), last)
  }

  /** The part of the comparison after the gaps are known (lines 27-49). */
  function ScoreFromDiffs(m: Math, drivers: seq<Driver>, driverId: int, ids: seq<int>, diffs: seq<int>, last: int): Result<real>
    requires Lawful(m)
  {
    var expected :- ExpectedScores(m, drivers, driverId, ids);
    if |expected| == 0 then Ok(0.0)
    else
      var distributed :- Distributed(diffs, last);
      Ok(Mean(Adjusted(distributed, expected)))
  }

  /** Once a prefix of the teammate ids raises, the whole list raises the same error. */
  lemma {:induction false} ExpectedScoresErrorPersists(m: Math, drivers: seq<Driver>, driverId: int, ids: seq<int>, j: nat)
    requires Lawful(m)
    requires j <= |ids| && ExpectedScores(m, drivers, driverId, ids[..j]).Err?
    ensures ExpectedScores(m, drivers, driverId, ids) == ExpectedScores(m, drivers, driverId, ids[..j])
    decreases |ids| - j
  {
    if j < |ids| {
      assert ids[..|ids| - 1][..j] == ids[..j];
      ExpectedScoresErrorPersists(m, drivers, driverId, ids[..|ids| - 1], j);
    } else {
      assert ids[..j] == ids;
    }
  }

  /** Once a prefix of the gaps raises, the whole list raises the same error. */
  lemma {:induction false} DistributedErrorPersists(diffs: seq<int>, last: int, j: nat)
    requires j <= |diffs| && Distributed(diffs[..j], last).Err?
    ensures Distributed(diffs, last) == Distributed(diffs[..j], last)
    decreases |diffs| - j
  {
    if j < |diffs| {
      assert diffs[..|diffs| - 1][..j] == diffs[..j];
      DistributedErrorPersists(diffs[..|diffs| - 1], last, j);
    } else {
      assert diffs[..j] == diffs;
    }
  }

  /** The `diffs` loop (lines 19-25). */
  method ComputeDiffs(positions: seq<Option<int>>, own: int, last: int) returns (diffs: seq<int>)
    ensures diffs == Diffs(positions, own, last)
  {
    diffs := [];
    for i := 0 to |positions|
      invariant diffs == Diffs(positions[..i], own, last)
    {
      assert positions[..i + 1][..i] == positions[..i];
      var teammatePosition := if positions[i].Some? then positions[i].value else last;
      diffs := diffs + [teammatePosition - own];
    }
    assert positions[..|positions|] == positions;
  }

  /** The `expectedScores` loop (lines 27-34). */
  method ComputeExpectedScores(m: Math, drivers: seq<Driver>, driverId: int, ids: seq<int>) returns (r: Result<seq<real>>)
    requires Lawful(m)
    ensures r == ExpectedScores(m, drivers, driverId, ids)
  {
    var expected: seq<real> := [];
    for i := 0 to |ids|
      invariant ExpectedScores(m, drivers, driverId, ids[..i]) == Ok(expected)
    {
      ExpectedScoresUnfold(m, drivers, driverId, ids, i, expected);
      var t := GetDriverById(drivers, ids[i]);
      if t.Some? && |drivers[t.value].ratings| > 0 {
        var d := GetDriverById(drivers, driverId);
        if d.None? {
          ExpectedScoresErrorPersists(m, drivers, driverId, ids, i + 1);
          return Err(MissingDriver);
        }
        if |drivers[d.value].ratings| == 0 {
          ExpectedScoresErrorPersists(m, drivers, driverId, ids, i + 1);
          return Err(EmptyIndex);
        }
        expected := expected + [ExpectedScore(m, Last(drivers[d.value].ratings), Last(drivers[t.value].ratings))];
      }
    }
    assert ids[..|ids|] == ids;
    return Ok(expected);
  }

  /** The `diffs_distributed` loop (lines 38-45). */
  method ComputeDistributed(diffs: seq<int>, last: int) returns (r: Result<seq<real>>)
    ensures r == Distributed(diffs, last)
  {
    var distributed: seq<real> := [];
    for i := 0 to |diffs|
      invariant Distributed(diffs[..i], last) == Ok(distributed)
    {
      assert diffs[..i + 1][..i] == diffs[..i];
      var v := SignedGap(diffs[i], last - 1);
      if v.Err? {
        DistributedErrorPersists(diffs, last, i + 1);
        return Err(v.error);
      }
      distributed := distributed + [v.value];
    }
    assert diffs[..|diffs|] == diffs;
    return Ok(distributed);
  }

  /** `compute_teammate_place_diff` itself. */
  method ComputeTeammatePlaceDiff(m: Math, drivers: seq<Driver>, statuses: Statuses, driverId: int, teamId: int,
                                  position: Option<int>, status: int, results: seq<RaceResult>, last: int)
    returns (r: Result<real>)
    requires Lawful(m)
    ensures r == TeammatePlaceDiff(m, drivers, statuses, driverId, teamId, position, status, results, last)
  {
    var own: int;
    if position.Some? {
      own := position.value;
    } else if !IsDriverFault(status, statuses) {
      return Ok(0.0);
    } else {
      own := last;
    }
    var ids := TeammateIds(results, driverId, teamId);
    if |ids| == 0 {
      return Ok(0.0);
    }
    var diffs := ComputeDiffs(TeammatePositions(results, ids), own, last);
    r := ComputeScoreFromDiffs(m, drivers, driverId, ids, diffs, last);
  }

  /** Lines 27-49: the expected scores, the distributed gaps and their adjusted mean. */
  method ComputeScoreFromDiffs(m: Math, drivers: seq<Driver>, driverId: int, ids: seq<int>, diffs: seq<int>, last: int)
    returns (r: Result<real>)
    requires Lawful(m)
    ensures r == ScoreFromDiffs(m, drivers, driverId, ids, diffs, last)
  {
    var expected :- ComputeExpectedScores(m, drivers, driverId, ids);
    if |expected| == 0 {
      return Ok(0.0);
    }
    var distributed :- ComputeDistributed(diffs, last);
    return Ok(Mean(Adjusted(distributed, expected)));
  }

  /** An unparsed own position that is not the driver's fault scores 0. */
  lemma TeammateUnplacedNotFault(m: Math, drivers: seq<Driver>, statuses: Statuses, driverId: int, teamId: int,
                                 status: int, results: seq<RaceResult>, last: int)
    requires Lawful(m)
    requires !IsDriverFault(status, statuses)
    ensures TeammatePlaceDiff(m, drivers, statuses, driverId, teamId, None, status, results, last) == Ok(0.0)
  {
  }

  /** An unparsed own position that is the driver's fault counts as finishing `last`. */
  lemma TeammateUnplacedFault(m: Math, drivers: seq<Driver>, statuses: Statuses, driverId: int, teamId: int,
                              status: int, results: seq<RaceResult>, last: int)
    requires Lawful(m)
    requires IsDriverFault(status, statuses)
    ensures TeammatePlaceDiff(m, drivers, statuses, driverId, teamId, None, status, results, last)
         == TeammatePlaceDiff(m, drivers, statuses, driverId, teamId, Some(last), status, results, last)
  {
  }

  /** With no other result of the same team, the score is 0. */
  lemma TeammateAlone(m: Math, drivers: seq<Driver>, statuses: Statuses, driverId: int, teamId: int,
                      position: Option<int>, status: int, results: seq<RaceResult>, last: int)
    requires Lawful(m)
    requires forall k :: 0 <= k < |results| ==> results[k].teamId != teamId || results[k].driverId == driverId
    ensures TeammatePlaceDiff(m, drivers, statuses, driverId, teamId, position, status, results, last) == Ok(0.0)
  {
  }

  /** The positions list ignores whether a teammate's position parsed: only `GetOr(last)` is read. */
  lemma {:induction false} PositionsFilled(results: seq<RaceResult>, ids: seq<int>, j: nat, last: int)
    requires j < |results| && results[j].position.None?
    ensures var filled := results[j := results[j].(position := Some(last))];
      |TeammatePositions(filled, ids)| == |TeammatePositions(results, ids)| &&
      forall k :: 0 <= k < |TeammatePositions(results, ids)| ==>
        TeammatePositions(filled, ids)[k].GetOr(last) == TeammatePositions(results, ids)[k].GetOr(last)
    decreases |results|
  {
    var filled := results[j := results[j].(position := Some(last))];
    var n := |results|;
    if j < n - 1 {
      PositionsFilled(results[..n - 1], ids, j, last);
      assert filled[..n - 1] == results[..n - 1][j := results[j].(position := Some(last))];
    } else {
      assert filled[..n - 1] == results[..n - 1];
    }
  }

  lemma {:induction false} TeammateIdsFilled(results: seq<RaceResult>, driverId: int, teamId: int, j: nat, last: int)
    requires j < |results|
    ensures TeammateIds(results[j := results[j].(position := Some(last))], driverId, teamId) == TeammateIds(results, driverId, teamId)
    decreases |results|
  {
    var filled := results[j := results[j].(position := Some(last))];
    var n := |results|;
    if j < n - 1 {
      TeammateIdsFilled(results[..n - 1], driverId, teamId, j, last);
      assert filled[..n - 1] == results[..n - 1][j := results[j].(position := Some(last))];
    } else {
      assert filled[..n - 1] == results[..n - 1];
    }
  }

  /**
   * A teammate whose position does not parse counts as finishing `last`, whatever its
   * status: filling that position in with `last` does not change the score.
   */
  lemma TeammateUnplacedCountsLast(m: Math, drivers: seq<Driver>, statuses: Statuses, driverId: int, teamId: int,
                                   position: Option<int>, status: int, results: seq<RaceResult>, last: int, j: nat)
    requires Lawful(m)
    requires j < |results| && results[j].position.None? && results[j].driverId != driverId
    ensures TeammatePlaceDiff(m, drivers, statuses, driverId, teamId, position, status,
                              results[j := results[j].(position := Some(last))], last)
         == TeammatePlaceDiff(m, drivers, statuses, driverId, teamId, position, status, results, last)
  {
    var filled := results[j := results[j].(position := Some(last))];
    TeammateIdsFilled(results, driverId, teamId, j, last);
    var ids := TeammateIds(results, driverId, teamId);
    PositionsFilled(results, ids, j, last);
    var own := OwnPosition(position, status, statuses, last);
    if own.Some? {
      DiffsAgree(TeammatePositions(filled, ids), TeammatePositions(results, ids), own.value, last);
    }
  }

  /** Positions that agree once an unparsed one is read as `last` give the same gaps. */
  lemma DiffsAgree(ps: seq<Option<int>>, qs: seq<Option<int>>, own: int, last: int)
    requires |ps| == |qs| && forall k :: 0 <= k < |ps| ==> ps[k].GetOr(last) == qs[k].GetOr(last)
    ensures Diffs(ps, own, last) == Diffs(qs, own, last)
  {
    var a, b := Diffs(ps, own, last), Diffs(qs, own, last);
    assert forall k :: 0 <= k < |a| ==> a[k] == b[k];
  }

  /** A tied gap earns the full amplitude, so it contributes `5 * 2 * E`. */
  lemma TiedGapFull(diffs: seq<int>, last: int, k: nat)
    requires Distributed(diffs, last).Ok? && k < |diffs| && diffs[k] == 0
    ensures Distributed(diffs, last).value[k] == CURVE_AMPLITUDE
  {
  }

  /**
   * A gap keeps its sign through the curve only up to half the span; beyond half the
   * span the curve is negative, so a larger gap flips the sign.
   */
  lemma SignedGapSign(d: int, span: int)
    requires span > 2 && 1 <= Abs(d) <= span
    ensures SignedGap(d, span).Ok?
    ensures (Abs(d) as real) <= (span as real) / 2.0 ==> (d > 0 ==> SignedGap(d, span).value >= 0.0) && (d < 0 ==> SignedGap(d, span).value <= 0.0)
    ensures (Abs(d) as real) > (span as real) / 2.0 ==> (d > 0 ==> SignedGap(d, span).value < 0.0) && (d < 0 ==> SignedGap(d, span).value > 0.0)
  {
    var x, a := Abs(d) as real, span as real;
    CurveBounded(x, a, CURVE_AMPLITUDE);
    if x <= a / 2.0 {
      UpperHalf(x, a, CURVE_AMPLITUDE);
    } else {
      CurvePieces(x, a, CURVE_AMPLITUDE);
      DivBelowOne(x - a / 2.0, a - a / 2.0);
      var q := (x - a / 2.0) / (a - a / 2.0);
      assert q > 0.0 by {
        assert q * (a - a / 2.0) == x - a / 2.0;
      }
      CubePositive(q);
      assert CURVE_AMPLITUDE * Cube(q) > 0.0;
    }
  }

  lemma ExpectedScoresOne(m: Math, drivers: seq<Driver>, driverId: int, id: int, i: nat, j: nat)
    requires Lawful(m)
    requires i < |drivers| && DriverLookup(drivers, id) == Some(drivers[i]) && |drivers[i].ratings| > 0
    requires j < |drivers| && DriverLookup(drivers, driverId) == Some(drivers[j]) && |drivers[j].ratings| > 0
    ensures ExpectedScores(m, drivers, driverId, [id]) == Ok([ExpectedScore(m, Last(drivers[j].ratings), Last(drivers[i].ratings))])
  {
    var ids := [id];
    assert ids[..|ids| - 1] == [] && ids[|ids| - 1] == id;
    assert ExpectedScores(m, drivers, driverId, ids[..|ids| - 1]) == Ok([]);
    assert DriverLookup(drivers, ids[|ids| - 1]) == Some(drivers[i]);
    assert ExpectedScores(m, drivers, driverId, ids).Ok?;
    assert ExpectedScores(m, drivers, driverId, ids).value == [ExpectedScore(m, Last(drivers[j].ratings), Last(drivers[i].ratings))];
  }

  lemma DistributedOne(d: int, last: int, v: real)
    requires SignedGap(d, last - 1) == Ok(v)
    ensures Distributed([d], last) == Ok([v])
  {
    var diffs := [d];
    assert diffs[..|diffs| - 1] == [] && diffs[|diffs| - 1] == d;
    assert Distributed(diffs[..|diffs| - 1], last) == Ok([]);
    assert SignedGap(diffs[|diffs| - 1], last - 1) == Ok(v);
    assert Distributed(diffs, last).Ok?;
    assert Distributed(diffs, last).value == [v];
  }

  /** A field of five: teammates 1 and 2 of team 10 finish first and fifth, the other three teams between them. */
  function WorkedField(): seq<RaceResult>
  {
    [RaceResult(1, 10, Some(1), 1), RaceResult(3, 11, Some(2), 1), RaceResult(4, 12, Some(3), 1),
     RaceResult(5, 13, Some(4), 1), RaceResult(2, 10, Some(5), 1)]
  }

  function WorkedDrivers(rating: real): seq<Driver>
  {
    [Driver(1, "A", "", [Rating(rating, None)]), Driver(2, "B", "", [Rating(rating, None)])]
  }

  lemma WorkedFieldFacts()
    ensures TeammateIds(WorkedField(), 1, 10) == [2] && TeammateIds(WorkedField(), 2, 10) == [1]
    ensures TeammatePositions(WorkedField(), [2]) == [Some(5)] && TeammatePositions(WorkedField(), [1]) == [Some(1)]
  {
    var r1 := [RaceResult(1, 10, Some(1), 1)];
    var r2 := r1 + [RaceResult(3, 11, Some(2), 1)];
    var r3 := r2 + [RaceResult(4, 12, Some(3), 1)];
    var r4 := r3 + [RaceResult(5, 13, Some(4), 1)];
    var r5 := r4 + [RaceResult(2, 10, Some(5), 1)];
    assert r5 == WorkedField();
    assert r1[..|r1| - 1] == [] && r2[..|r2| - 1] == r1 && r3[..|r3| - 1] == r2 && r4[..|r4| - 1] == r3 && r5[..|r5| - 1] == r4;
    assert TeammateIds(r1, 1, 10) == [] && TeammateIds(r4, 1, 10) == [] && TeammateIds(r5, 1, 10) == [2];
    assert TeammateIds(r1, 2, 10) == [1];
    assert TeammateIds(r2, 2, 10) == [1];
    assert TeammateIds(r3, 2, 10) == [1];
    assert TeammateIds(r4, 2, 10) == [1];
    assert TeammateIds(r5, 2, 10) == [1];
    assert TeammatePositions(r1, [2]) == [];
    assert TeammatePositions(r2, [2]) == [];
    assert TeammatePositions(r3, [2]) == [];
    assert TeammatePositions(r4, [2]) == [];
    assert TeammatePositions(r5, [2]) == [Some(5)];
    assert TeammatePositions(r1, [1]) == [Some(1)];
    assert TeammatePositions(r2, [1]) == [Some(1)];
    assert TeammatePositions(r3, [1]) == [Some(1)];
    assert TeammatePositions(r4, [1]) == [Some(1)];
  }

  lemma WorkedLookups(rating: real)
    ensures DriverLookup(WorkedDrivers(rating), 1) == Some(WorkedDrivers(rating)[0])
    ensures DriverLookup(WorkedDrivers(rating), 2) == Some(WorkedDrivers(rating)[1])
  {
    var drivers := WorkedDrivers(rating);
    assert drivers[..1][..0] == [] && drivers[..|drivers| - 1] == drivers[..1];
  }

  /** The mean of a single value is that value. */
  lemma MeanOne(x: real)
    ensures Mean([x]) == x
  {
    var xs := [x];
    assert xs[..|xs| - 1] == [];
    assert Sum(xs) == x;
  }

  /** With one expected score and one gap, the score is their one adjusted term. */
  lemma ScoreOfOne(m: Math, drivers: seq<Driver>, driverId: int, ids: seq<int>, diffs: seq<int>, last: int, e: real, v: real)
    requires Lawful(m)
    requires ExpectedScores(m, drivers, driverId, ids) == Ok([e])
    requires Distributed(diffs, last) == Ok([v])
    ensures ScoreFromDiffs(m, drivers, driverId, ids, diffs, last) == Ok(Mean(Adjusted([v], [e])))
  {
  }

  /** With one teammate at equal rating, the score is twice the half-weighted curve value. */
  lemma WorkedScore(m: Math, drivers: seq<Driver>, driverId: int, ids: seq<int>, diffs: seq<int>, last: int, rating: real, v: real)
    requires Lawful(m)
    requires ExpectedScores(m, drivers, driverId, ids) == Ok([ExpectedScore(m, rating, rating)])
    requires Distributed(diffs, last) == Ok([v])
    ensures ScoreFromDiffs(m, drivers, driverId, ids, diffs, last) == Ok(v)
  {
    ScoreOfOne(m, drivers, driverId, ids, diffs, last, ExpectedScore(m, rating, rating), v);
    HalfAdjusted(m, rating, v);
  }

  /** At equal ratings `2 * E` is 1, so the one adjusted term is the gap's curve value. */
  lemma HalfAdjusted(m: Math, rating: real, v: real)
    requires Lawful(m)
    ensures Mean(Adjusted([v], [ExpectedScore(m, rating, rating)])) == v
  {
    var e := ExpectedScore(m, rating, rating);
    assert e == 0.5;
    assert Adjusted([v], [e]) == [v * 2.0 * 0.5];
    assert v * 2.0 * 0.5 == v;
    MeanOne(v);
  }

  /**
   * A field of five, teammates finishing first and fifth with equal ratings: the winner
   * scores -5 and the loser +5 (WorkedCaseLoser). The gap of 4 equals the span `5 - 1`,
   * where the curve is at `-5`.
   */
  lemma WorkedCaseWinner(m: Math, rating: real, statuses: Statuses)
    requires Lawful(m)
    ensures TeammatePlaceDiff(m, WorkedDrivers(rating), statuses, 1, 10, Some(1), 1, WorkedField(), 5) == Ok(-5.0)
  {
    var drivers := WorkedDrivers(rating);
    WorkedFieldFacts();
    WorkedLookups(rating);
    assert Diffs([Some(5)], 1, 5) == [4];
    ExpectedScoresOne(m, drivers, 1, 2, 1, 0);
    CurveEndpoints(4.0, CURVE_AMPLITUDE);
    assert SignedGap(4, 4) == Ok(-5.0);
    DistributedOne(4, 5, -5.0);
    WorkedScore(m, drivers, 1, [2], [4], 5, rating, -5.0);
    var results := WorkedField();
    assert OwnPosition(Some(1), 1, statuses, 5) == Some(1);
    assert TeammateIds(results, 1, 10) == [2];
    assert Diffs(TeammatePositions(results, [2]), 1, 5) == [4];
  }

  /** The same example seen from fifth place: the score is +5. */
  lemma WorkedCaseLoser(m: Math, rating: real, statuses: Statuses)
    requires Lawful(m)
    ensures TeammatePlaceDiff(m, WorkedDrivers(rating), statuses, 2, 10, Some(5), 1, WorkedField(), 5) == Ok(5.0)
  {
    var drivers := WorkedDrivers(rating);
    WorkedFieldFacts();
    WorkedLookups(rating);
    assert Diffs([Some(1)], 5, 5) == [-4];
    ExpectedScoresOne(m, drivers, 2, 1, 0, 1);
    CurveEndpoints(4.0, CURVE_AMPLITUDE);
    assert SignedGap(-4, 4) == Ok(5.0);
    DistributedOne(-4, 5, 5.0);
    WorkedScore(m, drivers, 2, [1], [-4], 5, rating, 5.0);
    var results := WorkedField();
    assert OwnPosition(Some(5), 1, statuses, 5) == Some(5);
    assert TeammateIds(results, 2, 10) == [1];
    assert Diffs(TeammatePositions(results, [1]), 5, 5) == [-4];
  }

  // ---------------------------------------------------------------------------------------
  // Driver decay (`compute_drivers_rating_decay`)
  // ---------------------------------------------------------------------------------------

  /** The decay of a rating `r`: `(r - base) / (full / w)`. */
  function Decay(r: real, base: real, full: real, w: real): real
    requires w != 0.0 && full / w != 0.0
  {
    (r - base) / (full / w)
  }

  /**
   * `compute_drivers_rating_decay(drivers, full, w)`: driver id to decay, for every driver
   * off the base rating; a later driver with the same id overwrites an earlier one.
   * `full / w` or `diff / (full / w)` raises when `w` or `full` is 0.
   */
  function DriverDecays(drivers: seq<Driver>, full: real, w: real): Result<map<int, real>>
    requires DriversRated(drivers)
    decreases |drivers|
  {
    if |drivers| == 0 then Ok(map[])
    else
      var pre :- DriverDecays(drivers[..|drivers| - 1], full, w);
      var d := drivers[|drivers| - 1];
      if Last(d.ratings) - BASE_DRIVER_RATING == 0.0 then Ok(pre)
      else if w == 0.0 || full / w == 0.0 then Err(ZeroDivision)
      else Ok(pre[d.id := Decay(Last(d.ratings), BASE_DRIVER_RATING, full, w)])
  }

  /**
   * The map holds exactly the ids of drivers off the base rating, each bound to the decay
   * of such a driver; it is an error exactly when some driver is off base and `w` or `full`
   * is 0.
   */
  lemma {:induction false} DriverDecaysFacts(drivers: seq<Driver>, full: real, w: real)
    requires DriversRated(drivers)
    ensures var r := DriverDecays(drivers, full, w);
      (r.Err? <==> (w == 0.0 || full == 0.0) && exists i :: 0 <= i < |drivers| && Last(drivers[i].ratings) != BASE_DRIVER_RATING)
    ensures var r := DriverDecays(drivers, full, w);
      r.Ok? ==> forall id :: id in r.value <==> exists i :: 0 <= i < |drivers| && drivers[i].id == id && Last(drivers[i].ratings) != BASE_DRIVER_RATING
    ensures var r := DriverDecays(drivers, full, w);
      r.Ok? ==> forall id :: id in r.value ==> (exists i :: 0 <= i < |drivers| && drivers[i].id == id && Last(drivers[i].ratings) != BASE_DRIVER_RATING
                                                            && r.value[id] == Decay(Last(drivers[i].ratings), BASE_DRIVER_RATING, full, w))
    decreases |drivers|
  {
    if |drivers| > 0 {
      var n := |drivers|;
      var pre := drivers[..n - 1];
      DriverDecaysFacts(pre, full, w);
      assert forall i :: 0 <= i < n - 1 ==> pre[i] == drivers[i];
      if w != 0.0 && full != 0.0 {
        assert full / w != 0.0 by {
          assert (full / w) * w == full;
        }
      }
    }
  }

  /**
   * With repeated ids the last off-base driver wins, as in the `decays[driver.id] = decay`
   * assignment: a later driver with the same id on the base rating leaves the value alone.
   */
  lemma {:induction false} DriverDecaysLastWins(drivers: seq<Driver>, full: real, w: real, i: nat)
    requires DriversRated(drivers) && i < |drivers| && Last(drivers[i].ratings) != BASE_DRIVER_RATING
    requires forall j :: i < j < |drivers| && drivers[j].id == drivers[i].id ==> Last(drivers[j].ratings) == BASE_DRIVER_RATING
    ensures var r := DriverDecays(drivers, full, w);
      r.Ok? ==> w != 0.0 && full / w != 0.0 && drivers[i].id in r.value && r.value[drivers[i].id] == Decay(Last(drivers[i].ratings), BASE_DRIVER_RATING, full, w)
    decreases |drivers|
  {
    var n := |drivers|;
    var pre := drivers[..n - 1];
    if i < n - 1 {
      assert forall j :: 0 <= j < |pre| ==> pre[j] == drivers[j];
      DriverDecaysLastWins(pre, full, w, i);
    }
  }

  /** The decay pulls toward the base: it has the sign of the deviation when `full / w > 0`. */
  lemma DecaySign(r: real, base: real, full: real, w: real)
    requires w != 0.0 && full / w > 0.0
    ensures Decay(r, base, full, w) > 0.0 <==> r > base
    ensures Decay(r, base, full, w) < 0.0 <==> r < base
    ensures Decay(r, base, full, w) == 0.0 <==> r == base
  {
    var q := full / w;
    var dec := Decay(r, base, full, w);
    assert dec * q == r - base;
    if r > base {
      assert dec > 0.0;
    } else if r < base {
      assert dec < 0.0;
    }
  }

  /** Once a prefix raises, the whole list raises the same error. */
  lemma {:induction false} DriverDecaysErrorPersists(drivers: seq<Driver>, full: real, w: real, j: nat)
    requires DriversRated(drivers)
    requires j <= |drivers| && DriverDecays(drivers[..j], full, w).Err?
    ensures DriverDecays(drivers, full, w) == DriverDecays(drivers[..j], full, w)
    decreases |drivers| - j
  {
    if j < |drivers| {
      assert drivers[..|drivers| - 1][..j] == drivers[..j];
      DriverDecaysErrorPersists(drivers[..|drivers| - 1], full, w, j);
    } else {
      assert drivers[..j] == drivers;
    }
  }

  /** The loop of `compute_drivers_rating_decay`. */
  method ComputeDriversRatingDecay(drivers: seq<Driver>, full: real, w: real) returns (r: Result<map<int, real>>)
    requires DriversRated(drivers)
    ensures r == DriverDecays(drivers, full, w)
  {
    var decays: map<int, real> := map[];
    for i := 0 to |drivers|
      invariant DriverDecays(drivers[..i], full, w) == Ok(decays)
    {
      assert drivers[..i + 1][..i] == drivers[..i];
      var diff := Last(drivers[i].ratings) - BASE_DRIVER_RATING;
      if diff == 0.0 {
        continue;
      }
      if w == 0.0 || full / w == 0.0 {
        DriverDecaysErrorPersists(drivers, full, w, i + 1);
        return Err(ZeroDivision);
      }
      decays := decays[drivers[i].id := diff / (full / w)];
    }
    assert drivers[..|drivers|] == drivers;
    return Ok(decays);
  }
}
