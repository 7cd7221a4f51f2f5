/**
 * `helpers.py`: the position curve, the logarithmic influence curve, the fault test and
 * the lookups by id, by name and by latest race.
 */
module Helpers {
  import opened Base
  import opened Records
  import opened Sorting
  import opened Search

  function Cube(t: real): real { t * t * t }

  /** The ease-out cubic of the curve's first half, falling from `N` at 1 to 0 at `a / 2`. */
  function EaseOut(x: real, a: real, n: real): real
    requires a / 2.0 - 1.0 != 0.0
  {
    n * Cube(1.0 - (x - 1.0) / (a / 2.0 - 1.0))
  }

  /** The ease-in cubic of the curve's second half, falling from 0 at `a / 2` to `-N` at `a`. */
  function EaseIn(x: real, a: real, n: real): real
    requires a > 0.0
  {
    -(n * Cube((x - a / 2.0) / (a - a / 2.0)))
  }

  /**
   * `distribution_function(x, a, N)`: the reward for position (or gap) `x` in a field of
   * span `a`. `None` stands for an argument `float(...)` cannot convert.
   */
  function DistributionFunction(x: Option<real>, a: Option<real>, n: real): (r: Result<real>)
    ensures x.None? || a.None? ==> r == Ok(0.0)
    ensures x.Some? && a.Some? && x.value <= 0.0 ==> r == Ok(n)
    ensures x.Some? && a.Some? && x.value > 0.0 && x.value > a.value ==> r == Ok(0.0)
    ensures r.Err? <==> x.Some? && a.Some? && a.value == 2.0 && 0.0 < x.value <= 1.0
    ensures r.Err? ==> r.error == ZeroDivision
  {
    if x.None? || a.None? then Ok(0.0)
    else
      var x, a := x.value, a.value;
      if x <= 0.0 then Ok(n)
      else if x <= a / 2.0 then
        if a / 2.0 - 1.0 == 0.0 then Err(ZeroDivision)
        else Ok(EaseOut(x, a, n))
      else if x <= a then Ok(EaseIn(x, a, n))
      else Ok(0.0)
  }

  /** The curve at a numeric position and span. */
  function Curve(x: real, a: real, n: real): Result<real>
  {
    DistributionFunction(Some(x), Some(a), n)
  }

  lemma DivSelf(h: real)
    requires h != 0.0
    ensures h / h == 1.0
  {
  }

  lemma DivMonotone(u: real, v: real, h: real)
    requires h > 0.0 && u <= v
    ensures u / h <= v / h
  {
    assert (v / h - u / h) * h == v - u;
  }

  lemma DivBelowOne(u: real, h: real)
    requires h > 0.0 && 0.0 <= u <= h
    ensures 0.0 <= u / h <= 1.0
  {
    DivMonotone(u, h, h);
    DivMonotone(0.0, u, h);
    DivSelf(h);
  }

  lemma CubeMonotone(u: real, v: real)
    requires 0.0 <= u <= v
    ensures Cube(u) <= Cube(v)
  {
    assert u * u <= u * v <= v * v;
    assert u * u * u <= v * v * u <= v * v * v;
  }

  lemma CubeUnit(u: real)
    requires 0.0 <= u <= 1.0
    ensures 0.0 <= Cube(u) <= 1.0
  {
    CubeMonotone(u, 1.0);
    assert u * u >= 0.0;
  }

  lemma CubePositive(u: real)
    requires u > 0.0
    ensures Cube(u) > 0.0
  {
    assert u * u > 0.0;
    assert (u * u) * u > 0.0;
  }

  lemma ScaledCubeMonotone(u: real, v: real, n: real)
    requires 0.0 <= u <= v && n >= 0.0
    ensures n * Cube(u) <= n * Cube(v)
  {
    CubeMonotone(u, v);
  }

  lemma ScaledCubeUnit(u: real, n: real)
    requires 0.0 <= u <= 1.0 && n >= 0.0
    ensures 0.0 <= n * Cube(u) <= n
  {
    CubeUnit(u);
    assert n * Cube(u) <= n * 1.0;
  }

  /** Which piece of the curve applies, for a span above 2 and a position from 1 on. */
  lemma CurvePieces(x: real, a: real, n: real)
    requires a > 2.0 && x > 0.0
    ensures x <= a / 2.0 ==> Curve(x, a, n) == Ok(EaseOut(x, a, n))
    ensures a / 2.0 < x <= a ==> Curve(x, a, n) == Ok(EaseIn(x, a, n))
  {
  }

  /** For a positive span other than 2, the curve is `-N` at the span and 0 at half of it. */
  lemma CurveEndpoints(a: real, n: real)
    requires a > 0.0 && a != 2.0
    ensures Curve(a, a, n) == Ok(-n)
    ensures Curve(a / 2.0, a, n) == Ok(0.0)
  {
    var d := a - a / 2.0;
    DivSelf(d);
    assert Cube(d / d) == 1.0;
    assert EaseIn(a, a, n) == -n;
    var h := a / 2.0 - 1.0;
    DivSelf(h);
    assert Cube(1.0 - h / h) == 0.0;
    assert EaseOut(a / 2.0, a, n) == 0.0;
  }

  /** On the ease-out half the value lies in [0, N]. */
  lemma UpperHalf(x: real, a: real, n: real)
    requires a > 2.0 && 1.0 <= x <= a / 2.0 && n >= 0.0
    ensures Curve(x, a, n).Ok?
    ensures 0.0 <= Curve(x, a, n).value <= n
  {
    CurvePieces(x, a, n);
    DivBelowOne(x - 1.0, a / 2.0 - 1.0);
    ScaledCubeUnit(1.0 - (x - 1.0) / (a / 2.0 - 1.0), n);
  }

  /** On the ease-in half the value lies in [-N, 0]. */
  lemma LowerHalf(x: real, a: real, n: real)
    requires a > 2.0 && a / 2.0 < x <= a && n >= 0.0
    ensures Curve(x, a, n).Ok?
    ensures -n <= Curve(x, a, n).value <= 0.0
  {
    CurvePieces(x, a, n);
    DivBelowOne(x - a / 2.0, a - a / 2.0);
    ScaledCubeUnit((x - a / 2.0) / (a - a / 2.0), n);
  }

  /** For spans above 2 and positions in [1, a], the curve stays within [-N, N]. */
  lemma CurveBounded(x: real, a: real, n: real)
    requires a > 2.0 && 1.0 <= x <= a && n >= 0.0
    ensures Curve(x, a, n).Ok?
    ensures -n <= Curve(x, a, n).value <= n
  {
    if x <= a / 2.0 { UpperHalf(x, a, n); } else { LowerHalf(x, a, n); }
  }

  /** Below position 1 the ease-out cubic overshoots `N`. */
  lemma CurveOvershoots(x: real, a: real, n: real)
    requires a > 2.0 && 0.0 < x < 1.0 && n > 0.0
    ensures Curve(x, a, n).Ok?
    ensures Curve(x, a, n).value > n
  {
    CurvePieces(x, a, n);
    var h := a / 2.0 - 1.0;
    var t := 1.0 - (x - 1.0) / h;
    assert (x - 1.0) / h < 0.0;
    assert t > 1.0;
    assert t * t > 1.0 by { assert t * t > t * 1.0; }
    assert t * t * t > 1.0 by { assert (t * t) * t > (t * t) * 1.0; }
    assert n * Cube(t) > n * 1.0;
  }

  /** On the ease-out half, a later position earns no more. */
  lemma UpperHalfNonIncreasing(x: real, y: real, a: real, n: real)
    requires a > 2.0 && n >= 0.0 && 1.0 <= x <= y <= a / 2.0
    ensures Curve(x, a, n).Ok? && Curve(y, a, n).Ok?
    ensures Curve(y, a, n).value <= Curve(x, a, n).value
  {
    CurvePieces(x, a, n);
    CurvePieces(y, a, n);
    EaseOutNonIncreasing(x, y, a, n);
  }

  lemma EaseOutNonIncreasing(x: real, y: real, a: real, n: real)
    requires a > 2.0 && n >= 0.0 && 1.0 <= x <= y <= a / 2.0
    ensures EaseOut(y, a, n) <= EaseOut(x, a, n)
  {
    var h := a / 2.0 - 1.0;
    DivMonotone(x - 1.0, y - 1.0, h);
    DivBelowOne(y - 1.0, h);
    ScaledCubeMonotone(1.0 - (y - 1.0) / h, 1.0 - (x - 1.0) / h, n);
  }

  /** On the ease-in half, a later position earns no more. */
  lemma LowerHalfNonIncreasing(x: real, y: real, a: real, n: real)
    requires a > 2.0 && n >= 0.0 && a / 2.0 < x <= y <= a
    ensures Curve(x, a, n).Ok? && Curve(y, a, n).Ok?
    ensures Curve(y, a, n).value <= Curve(x, a, n).value
  {
    CurvePieces(x, a, n);
    CurvePieces(y, a, n);
    EaseInNonIncreasing(x, y, a, n);
  }

  lemma EaseInNonIncreasing(x: real, y: real, a: real, n: real)
    requires a > 2.0 && n >= 0.0 && a / 2.0 < x <= y <= a
    ensures EaseIn(y, a, n) <= EaseIn(x, a, n)
  {
    var d := a - a / 2.0;
    DivMonotone(x - a / 2.0, y - a / 2.0, d);
    DivBelowOne(x - a / 2.0, d);
    ScaledCubeMonotone((x - a / 2.0) / d, (y - a / 2.0) / d, n);
  }

  /**
   * The curve is non-increasing over the positions a field can produce: 0 and every
   * position from 1 up to the span.
   */
  lemma CurveNonIncreasing(x: real, y: real, a: real, n: real)
    requires a > 2.0 && n >= 0.0
    requires x == 0.0 || 1.0 <= x
    requires x <= y <= a && (y == 0.0 || 1.0 <= y)
    ensures Curve(x, a, n).Ok? && Curve(y, a, n).Ok?
    ensures Curve(y, a, n).value <= Curve(x, a, n).value
  {
    if y == 0.0 {
    } else if x == 0.0 {
      CurveBounded(y, a, n);
    } else if y <= a / 2.0 {
      UpperHalfNonIncreasing(x, y, a, n);
    } else if x <= a / 2.0 {
      UpperHalf(x, a, n);
      LowerHalf(y, a, n);
    } else {
      LowerHalfNonIncreasing(x, y, a, n);
    }
  }

  /**
   * `influence_function(x, a, b)`: `log(a*x + 1) * b + 1 - b * log(a + 1)`, 0 for a
   * non-numeric `x`, and the ValueError `math.log` raises for a non-positive argument.
   */
  function InfluenceFunction(x: Option<real>, a: real, b: real, m: Math): (r: Result<real>)
    ensures x.None? ==> r == Ok(0.0)
    ensures r.Err? <==> x.Some? && (a + 1.0 <= 0.0 || a * x.value + 1.0 <= 0.0)
  {
    if x.None? then Ok(0.0)
    else if a + 1.0 <= 0.0 then Err(MathDomain)
    else
      var c := 1.0 - b * m.log(a + 1.0);
      if a * x.value + 1.0 <= 0.0 then Err(MathDomain)
      else Ok(m.log(a * x.value + 1.0) * b + c)
  }

  /** The influence curve passes through (1, 1), whatever `log` is. */
  lemma InfluenceAtOne(a: real, b: real, m: Math)
    requires a > -1.0
    ensures InfluenceFunction(Some(1.0), a, b, m) == Ok(1.0)
  {
    var l := m.log(a + 1.0);
    var x: Option<real> := Some(1.0);
    var arg := a * x.value + 1.0;
    assert arg == a + 1.0;
    assert m.log(arg) == l;
    assert InfluenceFunction(x, a, b, m).Ok?;
    var v := InfluenceFunction(x, a, b, m).value;
    assert v == m.log(arg) * b + (1.0 - b * l);
    LogTermsCancel(m.log(arg), l, b);
    assert v == 1.0;
  }

  lemma LogTermsCancel(k: real, l: real, b: real)
    requires k == l
    ensures k * b + (1.0 - b * l) == 1.0
  {
    assert k * b == b * l;
  }

  const FAULT_STATUSES: seq<int> := [20, 77, 81, 97]

  /**
   * `is_driver_fault(status_id, statuses)`: spun off (20), 107% rule (77), did not
   * qualify (81) or did not prequalify (97). The status table is not consulted.
   */
  function IsDriverFault(status: int, statuses: Statuses): (r: bool)
    ensures r <==> status == 20 || status == 77 || status == 81 || status == 97
  {
    status in FAULT_STATUSES
  }

  /**
   * `get_driver_by_id`: the position of the first driver with this id, standing for the
   * driver object the source returns; `None` when no driver has it.
   */
  method GetDriverById(drivers: seq<Driver>, id: int) returns (r: Option<nat>)
    ensures r == FirstIndex(drivers, DriverKey, id)
    ensures r.None? <==> forall k :: 0 <= k < |drivers| ==> drivers[k].id != id
    ensures r.Some? ==> r.value < |drivers| && drivers[r.value].id == id
    ensures r.Some? ==> forall k :: 0 <= k < r.value ==> drivers[k].id != id
  {
    r := FindFirst(drivers, DriverKey, id);
  }

  /** `get_team_by_id`, as `GetDriverById`. */
  method GetTeamById(teams: seq<Team>, id: int) returns (r: Option<nat>)
    ensures r == FirstIndex(teams, TeamKey, id)
    ensures r.None? <==> forall k :: 0 <= k < |teams| ==> teams[k].id != id
    ensures r.Some? ==> r.value < |teams| && teams[r.value].id == id
    ensures r.Some? ==> forall k :: 0 <= k < r.value ==> teams[k].id != id
  {
    r := FindFirst(teams, TeamKey, id);
  }

  /** `str.lower()` on ASCII letters. */
  function Lower(s: string): (r: string)
    ensures |r| == |s|
    ensures forall i :: 0 <= i < |s| ==> ('A' <= s[i] <= 'Z' ==> r[i] == s[i] - 'A' + 'a')
    ensures forall i :: 0 <= i < |s| ==> (!('A' <= s[i] <= 'Z') ==> r[i] == s[i])
  {
    seq(|s|, i requires 0 <= i < |s| => if 'A' <= s[i] <= 'Z' then s[i] - 'A' + 'a' else s[i])
  }

  /** Lowering leaves no upper-case ASCII letter, so lowering twice is lowering once. */
  lemma LowerNormalises(s: string)
    ensures forall i :: 0 <= i < |Lower(s)| ==> !('A' <= Lower(s)[i] <= 'Z')
    ensures Lower(Lower(s)) == Lower(s)
  {
  }

  function DriverNameKey(d: Driver): string { Lower(d.forename + " " + d.surname) }
  function TeamNameKey(t: Team): string { Lower(t.name) }

  /** `get_driver_by_name`: the first driver whose "forename surname" matches, ignoring case. */
  method GetDriverByName(drivers: seq<Driver>, name: string) returns (r: Option<nat>)
    ensures r.None? <==> forall k :: 0 <= k < |drivers| ==> DriverNameKey(drivers[k]) != Lower(name)
    ensures r.Some? ==> r.value < |drivers| && Lower(drivers[r.value].forename + " " + drivers[r.value].surname) == Lower(name)
    ensures r.Some? ==> forall k :: 0 <= k < r.value ==> DriverNameKey(drivers[k]) != Lower(name)
  {
    r := FindFirst(drivers, DriverNameKey, Lower(name));
  }

  /** `get_team_by_name`: the first team whose name matches, ignoring case. */
  method GetTeamByName(teams: seq<Team>, name: string) returns (r: Option<nat>)
    ensures r.None? <==> forall k :: 0 <= k < |teams| ==> Lower(teams[k].name) != Lower(name)
    ensures r.Some? ==> r.value < |teams| && Lower(teams[r.value].name) == Lower(name)
    ensures r.Some? ==> forall k :: 0 <= k < r.value ==> Lower(teams[k].name) != Lower(name)
  {
    r := FindFirst(teams, TeamNameKey, Lower(name));
  }

  /** Sort key of `races.sort(key=lambda x: x.date, reverse=True)`. */
  function LatestFirstKey(r: Race): real { -(r.date as real) }

  /** After the sort, the first race is a race of the list with the latest date. */
  lemma LatestRaceFirst(races: seq<Race>)
    requires |races| > 0
    ensures |SortBy(races, LatestFirstKey)| == |races|
    ensures SortBy(races, LatestFirstKey)[0] in races
    ensures forall k :: 0 <= k < |races| ==> races[k].date <= SortBy(races, LatestFirstKey)[0].date
  {
    SortByFacts(races, LatestFirstKey);
    var t := SortBy(races, LatestFirstKey);
    assert t[0] in multiset(t);
    forall k | 0 <= k < |races| ensures races[k].date <= t[0].date {
      assert races[k] in multiset(races);
      var j :| 0 <= j < |t| && t[j] == races[k];
      assert LatestFirstKey(t[0]) <= LatestFirstKey(t[j]);
    }
  }

  function DriverLookup(drivers: seq<Driver>, id: int): Option<Driver>
  {
    First(drivers, DriverKey, id)
  }

  function TeamLookup(teams: seq<Team>, id: int): Option<Team>
  {
    First(teams, TeamKey, id)
  }

  /** The lookups of a race's driver ids, as the set the source fills. */
  method DriverSetOf(drivers: seq<Driver>, results: seq<RaceResult>) returns (found: set<Option<Driver>>)
    ensures found == set k | 0 <= k < |results| :: DriverLookup(drivers, results[k].driverId)
  {
    found := {};
    var i := 0;
    while i < |results|
      invariant 0 <= i <= |results|
      invariant found == set k | 0 <= k < i :: DriverLookup(drivers, results[k].driverId)
    {
      var idx := GetDriverById(drivers, results[i].driverId);
      var driver := if idx.Some? then Some(drivers[idx.value]) else None;
      assert driver == DriverLookup(drivers, results[i].driverId);
      if driver !in found {
        found := found + {driver};
      }
      i := i + 1;
    }
  }

  /** The lookups of a race's team ids, as the set the source fills. */
  method TeamSetOf(teams: seq<Team>, results: seq<RaceResult>) returns (found: set<Option<Team>>)
    ensures found == set k | 0 <= k < |results| :: TeamLookup(teams, results[k].teamId)
  {
    found := {};
    var i := 0;
    while i < |results|
      invariant 0 <= i <= |results|
      invariant found == set k | 0 <= k < i :: TeamLookup(teams, results[k].teamId)
    {
      var idx := GetTeamById(teams, results[i].teamId);
      var team := if idx.Some? then Some(teams[idx.value]) else None;
      assert team == TeamLookup(teams, results[i].teamId);
      if team !in found {
        found := found + {team};
      }
      i := i + 1;
    }
  }

  /**
   * `get_last_race_drivers`: sorts `races` latest first, in place, and returns the set of
   * lookups of the drivers of the first race's results (`None` for an unknown id);
   * `races[0]` raises IndexError when there is no race.
   */
  method GetLastRaceDrivers(drivers: seq<Driver>, races: array<Race>) returns (r: Result<set<Option<Driver>>>)
    modifies races
    ensures races[..] == SortBy(old(races[..]), LatestFirstKey)
    ensures races.Length == 0 <==> r == Err(EmptyIndex)
    ensures races.Length > 0 ==> r == Ok(set k | 0 <= k < |races[0].results| :: DriverLookup(drivers, races[0].results[k].driverId))
  {
    SortInPlace(races, LatestFirstKey);
    if races.Length == 0 {
      return Err(EmptyIndex);
    }
    var found := DriverSetOf(drivers, races[0].results);
    return Ok(found);
  }

  /** `get_last_race_teams`, as `GetLastRaceDrivers` with the results' team ids. */
  method GetLastRaceTeams(teams: seq<Team>, races: array<Race>) returns (r: Result<set<Option<Team>>>)
    modifies races
    ensures races[..] == SortBy(old(races[..]), LatestFirstKey)
    ensures races.Length == 0 <==> r == Err(EmptyIndex)
    ensures races.Length > 0 ==> r == Ok(set k | 0 <= k < |races[0].results| :: TeamLookup(teams, races[0].results[k].teamId))
  {
    SortInPlace(races, LatestFirstKey);
    if races.Length == 0 {
      return Err(EmptyIndex);
    }
    var found := TeamSetOf(teams, races[0].results);
    return Ok(found);
  }
}
