/**
 * The records the engine reads and writes. Dates are day numbers; a rating entry whose
 * date is `None` is a synthetic season-boundary entry rather than the outcome of a race.
 * Positions that `int(...)` cannot parse (a retirement's `\N`) are `None`.
 */
module Records {
  import opened Base

  /** One `(rating, date)` pair of a history. */
  datatype Rating = Rating(value: real, date: Option<int>)

  datatype Driver = Driver(id: int, forename: string, surname: string, ratings: seq<Rating>)

  datatype Team = Team(id: int, name: string, ratings: seq<Rating>)

  /** `(driver_id, team_id, position, status_id)` of a race or sprint. */
  datatype RaceResult = RaceResult(driverId: int, teamId: int, position: Option<int>, status: int)

  /** `(driver_id, starting_position)`. */
  datatype GridSlot = GridSlot(driverId: int, grid: int)

  datatype Race = Race(id: int, name: string, date: int, circuitId: int,
                       results: seq<RaceResult>, startingPositions: seq<GridSlot>)

  /** `(driver_id, team_id, position)` of a qualifying session. */
  datatype QualiResult = QualiResult(driverId: int, teamId: int, position: Option<int>)

  datatype Qualifying = Qualifying(raceId: int, results: seq<QualiResult>)

  datatype Sprint = Sprint(raceId: int, results: seq<RaceResult>, startingPositions: seq<GridSlot>)

  datatype Season = Season(year: int, races: seq<Race>)

  /** The status table: status id to its label. The engine never reads the labels. */
  type Statuses = map<int, string>

  /** The current rating: the value of the last entry of a non-empty history. */
  function Last(ratings: seq<Rating>): real
    requires |ratings| > 0
  {
    ratings[|ratings| - 1].value
  }

  /** Every driver has a current rating, so `ratings[-1]` cannot raise. */
  predicate DriversRated(drivers: seq<Driver>)
  {
    forall i :: 0 <= i < |drivers| ==> |drivers[i].ratings| > 0
  }

  /** Every team has a current rating. */
  predicate TeamsRated(teams: seq<Team>)
  {
    forall i :: 0 <= i < |teams| ==> |teams[i].ratings| > 0
  }

  // Key functions used to search and sort the engine's lists.
  function DriverKey(d: Driver): int { d.id }
  function TeamKey(t: Team): int { t.id }
  function ResultDriverKey(r: RaceResult): int { r.driverId }
  function QualiDriverKey(q: QualiResult): int { q.driverId }
  function GridDriverKey(g: GridSlot): int { g.driverId }
  function QualiRaceKey(q: Qualifying): int { q.raceId }
  function SprintRaceKey(s: Sprint): int { s.raceId }
  function SeasonYearKey(s: Season): int { s.year }

  /** Same length, same ids and names, and every driver history only extended. */
  predicate DriversExtend(before: seq<Driver>, after: seq<Driver>)
  {
    && |after| == |before|
    && forall i :: 0 <= i < |before| ==>
         after[i].id == before[i].id && after[i].forename == before[i].forename && after[i].surname == before[i].surname
         && |before[i].ratings| <= |after[i].ratings| && after[i].ratings[..|before[i].ratings|] == before[i].ratings
  }

  lemma DriversExtendTransitive(a: seq<Driver>, b: seq<Driver>, c: seq<Driver>)
    requires DriversExtend(a, b) && DriversExtend(b, c)
    ensures DriversExtend(a, c)
  {
    forall i | 0 <= i < |a|
      ensures c[i].ratings[..|a[i].ratings|] == a[i].ratings
    {
      assert c[i].ratings[..|a[i].ratings|] == c[i].ratings[..|b[i].ratings|][..|a[i].ratings|];
    }
  }

  /** Same length, same ids and names, and every team history only extended. */
  predicate TeamsExtend(before: seq<Team>, after: seq<Team>)
  {
    && |after| == |before|
    && forall i :: 0 <= i < |before| ==>
         after[i].id == before[i].id && after[i].name == before[i].name
         && |before[i].ratings| <= |after[i].ratings| && after[i].ratings[..|before[i].ratings|] == before[i].ratings
  }

  lemma TeamsExtendTransitive(a: seq<Team>, b: seq<Team>, c: seq<Team>)
    requires TeamsExtend(a, b) && TeamsExtend(b, c)
    ensures TeamsExtend(a, c)
  {
    forall i | 0 <= i < |a|
      ensures c[i].ratings[..|a[i].ratings|] == a[i].ratings
    {
      assert c[i].ratings[..|a[i].ratings|] == c[i].ratings[..|b[i].ratings|][..|a[i].ratings|];
    }
  }
}
