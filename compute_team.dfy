/**
 * `compute_team.py`: the relative team rating change of one race, and the three
 * season-boundary operations on team histories (re-rate, decay map, re-entry reset).
 */
module ComputeTeam {
  import opened Base
  import opened Records
  import opened Config
  import opened Search
  import opened Sorting
  import opened Helpers
  import opened ComputeDriver

  // ---------------------------------------------------------------------------------------
  // Relative change (`compute_team_rating_change`)
  // ---------------------------------------------------------------------------------------

  /** `(team_id, weighted_position)`: lower is better. */
  datatype WeightedPos = WeightedPos(teamId: int, pos: real)

  function PosKey(p: WeightedPos): real { p.pos }
  function WeightedTeamKey(p: WeightedPos): int { p.teamId }

  /** `min(pos[1] for pos in s)`. */
  function MinPos(s: seq<WeightedPos>): (r: real)
    requires |s| > 0
    ensures forall k :: 0 <= k < |s| ==> r <= s[k].pos
    ensures exists k :: 0 <= k < |s| && s[k].pos == r
    decreases |s|
  {
    if |s| == 1 then s[0].pos
    else
      var m := MinPos(s[..|s| - 1]);
      assert forall k :: 0 <= k < |s| - 1 ==> s[..|s| - 1][k] == s[k];
      if s[|s| - 1].pos < m then s[|s| - 1].pos else m
  }

  /** `max(pos[1] for pos in s)`. */
  function MaxPos(s: seq<WeightedPos>): (r: real)
    requires |s| > 0
    ensures forall k :: 0 <= k < |s| ==> s[k].pos <= r
    ensures exists k :: 0 <= k < |s| && s[k].pos == r
    decreases |s|
  {
    if |s| == 1 then s[0].pos
    else
      var m := MaxPos(s[..|s| - 1]);
      assert forall k :: 0 <= k < |s| - 1 ==> s[..|s| - 1][k] == s[k];
      if s[|s| - 1].pos > m then s[|s| - 1].pos else m
  }

  /**
   * Whether a call gets as far as the in-place sort (line 14): the team has an entry and
   * the weighted positions are not all equal.
   */
  predicate ReachesSort(teamId: int, twp: seq<WeightedPos>)
  {
    FirstIndex(twp, WeightedTeamKey, teamId).Some? && MinPos(twp) != MaxPos(twp)
  }

  /** The caller's list as the call leaves it: sorted by weighted position, or untouched. */
  function ListAfterChange(teamId: int, twp: seq<WeightedPos>): seq<WeightedPos>
  {
    if ReachesSort(teamId, twp) then SortBy(twp, PosKey) else twp
  }

  /** The weighted position of the team's (first) entry. */
  function TeamPos(teamId: int, twp: seq<WeightedPos>): real
    requires FirstIndex(twp, WeightedTeamKey, teamId).Some?
  {
    twp[FirstIndex(twp, WeightedTeamKey, teamId).value].pos
  }

  /** The middle of the sorted list, `sorted[n // 2]`. */
  function MiddlePos(twp: seq<WeightedPos>): real
    requires |twp| > 0
  {
    SortByLength(twp, PosKey);
    SortBy(twp, PosKey)[|twp| / 2].pos
  }

  /** `raw = (middle - team_pos + n) / (worst - best)` (lines 15-17). */
  function RawChange(teamId: int, twp: seq<WeightedPos>): real
    requires ReachesSort(teamId, twp)
  {
    RawFrom(MiddlePos(twp), TeamPos(teamId, twp), |twp|, MinPos(twp), MaxPos(twp))
  }

  function RawFrom(middle: real, teamPos: real, n: int, best: real, worst: real): real
    requires worst != best
  {
    (middle - teamPos + n as real) / (worst - best)
  }

  /** `[pos[0] for pos in twp]`. */
  function WeightedIds(twp: seq<WeightedPos>): (r: seq<int>)
    ensures |r| == |twp| && forall k :: 0 <= k < |twp| ==> r[k] == twp[k].teamId
  {
    seq(|twp|, k requires 0 <= k < |twp| => twp[k].teamId)
  }

  /** The teams, in list order, whose id is one of `ids`. */
  function TeamsWithIds(teams: seq<Team>, ids: seq<int>): (r: seq<Team>)
    ensures |r| <= |teams|
    decreases |teams|
  {
    if |teams| == 0 then []
    else
      var rest := TeamsWithIds(teams[..|teams| - 1], ids);
      if teams[|teams| - 1].id in ids then rest + [teams[|teams| - 1]] else rest
  }

  /** `sum(t.ratings[-1][0] for t in ts if t.ratings)`. */
  function RatedTotal(ts: seq<Team>): real
    decreases |ts|
  {
    if |ts| == 0 then 0.0
    else
      var t := ts[|ts| - 1];
      RatedTotal(ts[..|ts| - 1]) + (if |t.ratings| > 0 then Last(t.ratings) else 0.0)
  }

  /**
   * `compute_team_rating_change(teams, team_id, teams_weighted_pos)`: the raw change
   * scaled by the Elo expected score of the team against the mean current rating of every
   * scored team (itself included). `teams_filtered` is counted with its unrated members,
   * whose ratings add nothing to the total.
   */
  function TeamRatingChange(m: Math, teams: seq<Team>, teamId: int, twp: seq<WeightedPos>): real
    requires Lawful(m)
  {
    if !ReachesSort(teamId, twp) then 0.0
    else ScoredChange(m, teams, teamId, RawChange(teamId, twp), WeightedIds(SortBy(twp, PosKey)))
  }

  /** Lines 19-33: `raw` scaled by the expected score against the teams listed in `ids`. */
  function ScoredChange(m: Math, teams: seq<Team>, teamId: int, raw: real, ids: seq<int>): real
    requires Lawful(m)
  {
    match TeamLookup(teams, teamId)
    case None => 0.0
    case Some(team) =>
      if |team.ratings| == 0 then 0.0
      else
        var scored := TeamsWithIds(teams, ids);
        if |scored| == 0 then 0.0
        else raw * ExpectedScore(m, Last(team.ratings), RatedTotal(scored) / (|scored| as real))
  }

  /** `abs` on reals. */
  function RAbs(x: real): real { if x < 0.0 then -x else x }

  /**
   * The change is 0 when the team has no entry, when every weighted position is equal, or
   * when the team is unknown or unrated.
   */
  lemma TeamRatingChangeZero(m: Math, teams: seq<Team>, teamId: int, twp: seq<WeightedPos>)
    requires Lawful(m)
    ensures FirstIndex(twp, WeightedTeamKey, teamId).None? ==> TeamRatingChange(m, teams, teamId, twp) == 0.0
    ensures |twp| > 0 && MinPos(twp) == MaxPos(twp) ==> TeamRatingChange(m, teams, teamId, twp) == 0.0
    ensures TeamLookup(teams, teamId).None? ==> TeamRatingChange(m, teams, teamId, twp) == 0.0
    ensures TeamLookup(teams, teamId).Some? && |TeamLookup(teams, teamId).value.ratings| == 0 ==>
      TeamRatingChange(m, teams, teamId, twp) == 0.0
  {
  }

  /**
   * Otherwise the change is the raw change times an expected score in (0, 1): it has the
   * raw change's sign and, when the raw change is not 0, a strictly smaller magnitude.
   */
  lemma TeamRatingChangeScaled(m: Math, teams: seq<Team>, teamId: int, twp: seq<WeightedPos>)
    requires Lawful(m) && ReachesSort(teamId, twp)
    requires TeamLookup(teams, teamId).Some? && |TeamLookup(teams, teamId).value.ratings| > 0
    ensures RAbs(TeamRatingChange(m, teams, teamId, twp)) <= RAbs(RawChange(teamId, twp))
    ensures RawChange(teamId, twp) >= 0.0 ==> TeamRatingChange(m, teams, teamId, twp) >= 0.0
    ensures RawChange(teamId, twp) <= 0.0 ==> TeamRatingChange(m, teams, teamId, twp) <= 0.0
    ensures RawChange(teamId, twp) != 0.0 ==> RAbs(TeamRatingChange(m, teams, teamId, twp)) < RAbs(RawChange(teamId, twp))
  {
    var team := TeamLookup(teams, teamId).value;
    var sorted := SortBy(twp, PosKey);
    var scored := TeamsWithIds(teams, WeightedIds(sorted));
    ScoredNonEmpty(teams, teamId, twp);
    var raw := RawChange(teamId, twp);
    var e := ExpectedScore(m, Last(team.ratings), RatedTotal(scored) / (|scored| as real));
    assert TeamRatingChange(m, teams, teamId, twp) == raw * e by {
      assert |team.ratings| > 0 && |scored| > 0;
    }
    ScaleByUnit(raw, e);
  }

  /** The team itself is among the scored teams, so their mean is well defined. */
  lemma ScoredNonEmpty(teams: seq<Team>, teamId: int, twp: seq<WeightedPos>)
    requires FirstIndex(twp, WeightedTeamKey, teamId).Some? && TeamLookup(teams, teamId).Some?
    ensures |TeamsWithIds(teams, WeightedIds(SortBy(twp, PosKey)))| > 0
  {
    var sorted := SortBy(twp, PosKey);
    SortByFacts(twp, PosKey);
    var j := FirstIndex(twp, WeightedTeamKey, teamId).value;
    assert twp[j] in multiset(sorted) by {
      assert twp[j] in multiset(twp);
    }
    var k :| 0 <= k < |sorted| && sorted[k] == twp[j];
    assert WeightedIds(sorted)[k] == teamId;
    assert FirstIndex(teams, TeamKey, teamId).Some?;
    var i := FirstIndex(teams, TeamKey, teamId).value;
    TeamsWithIdsMember(teams, WeightedIds(sorted), i);
  }

  lemma ScaleByUnit(raw: real, e: real)
    requires 0.0 < e < 1.0
    ensures RAbs(raw * e) <= RAbs(raw)
    ensures raw >= 0.0 ==> raw * e >= 0.0
    ensures raw <= 0.0 ==> raw * e <= 0.0
    ensures raw != 0.0 ==> RAbs(raw * e) < RAbs(raw)
  {
    if raw > 0.0 {
      assert raw * e < raw * 1.0;
    } else if raw < 0.0 {
      var q := -raw;
      assert q * e < q * 1.0;
      assert q * e > 0.0;
      assert raw * e == -(q * e);
      assert RAbs(raw * e) == q * e;
    }
  }

  /** A team whose id is listed is kept by the filter. */
  lemma {:induction false} TeamsWithIdsMember(teams: seq<Team>, ids: seq<int>, i: nat)
    requires i < |teams| && teams[i].id in ids
    ensures |TeamsWithIds(teams, ids)| > 0
    decreases |teams|
  {
    if i < |teams| - 1 {
      TeamsWithIdsMember(teams[..|teams| - 1], ids, i);
    }
  }

  /**
   * The middle value is a median of the weighted positions: fewer than half lie below it
   * and more than half lie at or below it.
   */
  lemma MiddleIsMedian(twp: seq<WeightedPos>)
    requires |twp| > 0
    ensures CountUpTo(twp, PosKey, MiddlePos(twp), true) <= |twp| / 2
    ensures CountUpTo(twp, PosKey, MiddlePos(twp), false) > |twp| / 2
  {
    MiddleIsOrderStatistic(twp, PosKey);
  }

  /** `compute_team_rating_change`, sorting the caller's array in place. */
  method ComputeTeamRatingChange(m: Math, teams: seq<Team>, teamId: int, twp: array<WeightedPos>) returns (r: real)
    requires Lawful(m)
    modifies twp
    ensures r == TeamRatingChange(m, teams, teamId, old(twp[..]))
    ensures twp[..] == ListAfterChange(teamId, old(twp[..]))
  {
    ghost var orig := twp[..];
    var idx := FindFirst(twp[..], WeightedTeamKey, teamId);
    if idx.None? {
      return 0.0;
    }
    var teamPos := twp[idx.value].pos;
    var best := MinPos(twp[..]);
    var worst := MaxPos(twp[..]);
    if best == worst {
      return 0.0;
    }
    assert ReachesSort(teamId, orig) && teamPos == TeamPos(teamId, orig);
    SortInPlace(twp, PosKey);
    var sorted := twp[..];
    SortByLength(orig, PosKey);
    var raw := RawFrom(sorted[|sorted| / 2].pos, teamPos, |sorted|, best, worst);
    r := ComputeScoredChange(m, teams, teamId, raw, WeightedIds(sorted));
  }

  /** Lines 19-33 of `compute_team_rating_change`. */
  method ComputeScoredChange(m: Math, teams: seq<Team>, teamId: int, raw: real, ids: seq<int>) returns (r: real)
    requires Lawful(m)
    ensures r == ScoredChange(m, teams, teamId, raw, ids)
  {
    var t := GetTeamById(teams, teamId);
    if t.None? || |teams[t.value].ratings| == 0 {
      return 0.0;
    }
    var teamRating := Last(teams[t.value].ratings);
    var filtered := TeamsWithIds(teams, ids);
    var total := RatedTotal(filtered);
    var n := |filtered|;
    if n == 0 {
      return 0.0;
    }
    var average := total / (n as real);
    r := raw * ExpectedScore(m, teamRating, average);
  }

  // ---------------------------------------------------------------------------------------
  // Team ids of a season (the loops at lines 36-40, 76-83)
  // ---------------------------------------------------------------------------------------

  /** The team ids of a list of results. */
  function ResultTeamIds(results: seq<RaceResult>): set<int>
    decreases |results|
  {
    if |results| == 0 then {}
    else ResultTeamIds(results[..|results| - 1]) + {results[|results| - 1].teamId}
  }

  /** The team ids of every result of every race. */
  function SeasonTeamIds(races: seq<Race>): set<int>
    decreases |races|
  {
    if |races| == 0 then {}
    else SeasonTeamIds(races[..|races| - 1]) + ResultTeamIds(races[|races| - 1].results)
  }

  /** An id is collected exactly when some result carries it. */
  lemma {:induction false} ResultTeamIdsMembers(results: seq<RaceResult>)
    ensures forall id :: id in ResultTeamIds(results) <==> exists j :: 0 <= j < |results| && results[j].teamId == id
    decreases |results|
  {
    if |results| > 0 {
      var pre := results[..|results| - 1];
      ResultTeamIdsMembers(pre);
      assert forall j :: 0 <= j < |pre| ==> pre[j] == results[j];
    }
  }

  /** An id is collected exactly when some race of the season has a result carrying it. */
  lemma {:induction false} SeasonTeamIdsMembers(races: seq<Race>)
    ensures forall id :: id in SeasonTeamIds(races) <==> exists i :: 0 <= i < |races| && id in ResultTeamIds(races[i].results)
    decreases |races|
  {
    if |races| > 0 {
      var pre := races[..|races| - 1];
      SeasonTeamIdsMembers(pre);
      assert forall i :: 0 <= i < |pre| ==> pre[i] == races[i];
    }
  }

  /** The nested loops that fill `team_ids_in_season` (and both sets of the re-entry check). */
  method CollectSeasonTeamIds(season: Season) returns (ids: set<int>)
    ensures ids == SeasonTeamIds(season.races)
  {
    ids := {};
    for i := 0 to |season.races|
      invariant ids == SeasonTeamIds(season.races[..i])
    {
      assert season.races[..i + 1][..i] == season.races[..i];
      var results := season.races[i].results;
      for j := 0 to |results|
        invariant ids == SeasonTeamIds(season.races[..i]) + ResultTeamIds(results[..j])
      {
        assert results[..j + 1][..j] == results[..j];
        if results[j].teamId !in ids {
          ids := ids + {results[j].teamId};
        }
      }
      assert results[..|results|] == results;
    }
    assert season.races[..|season.races|] == season.races;
  }

  // ---------------------------------------------------------------------------------------
  // Re-rate (`rerate_teams`)
  // ---------------------------------------------------------------------------------------

  /** `[t.ratings[-1][0] for t in ts if t.ratings]`. */
  function RatedLasts(ts: seq<Team>): (r: seq<real>)
    ensures |r| <= |ts|
    decreases |ts|
  {
    if |ts| == 0 then []
    else
      var rest := RatedLasts(ts[..|ts| - 1]);
      var t := ts[|ts| - 1];
      if |t.ratings| > 0 then rest + [Last(t.ratings)] else rest
  }

  function RealKey(x: real): real { x }

  /** `sorted(ratings)[len(ratings) // 2]`. */
  function Median(ratings: seq<real>): real
    requires |ratings| > 0
  {
    SortByLength(ratings, RealKey);
    SortBy(ratings, RealKey)[|ratings| / 2]
  }

  /** One team after re-rating: season teams gain one entry with no date. */
  function Rerated(t: Team, ids: set<int>, median: real): Team
  {
    if t.id !in ids then t
    else if |t.ratings| > 0 then t.(ratings := t.ratings + [Rating(Last(t.ratings) - median + BASE_TEAM_RATING, None)])
    else t.(ratings := t.ratings + [Rating(BASE_TEAM_RATING, None)])
  }

  /** Whether re-rating changes anything: some season team exists and some has a rating. */
  predicate RerateApplies(season: Season, teams: seq<Team>)
  {
    var inSeason := TeamsWithIds(teams, SetToSeqIds(SeasonTeamIds(season.races), teams));
    |inSeason| > 0 && |RatedLasts(inSeason)| > 0
  }

  /** The ids of `teams` that are in `ids`, as a list to filter by. */
  function SetToSeqIds(ids: set<int>, teams: seq<Team>): (r: seq<int>)
    ensures forall id :: id in r <==> id in ids && exists i :: 0 <= i < |teams| && teams[i].id == id
    decreases |teams|
  {
    if |teams| == 0 then []
    else
      var pre := teams[..|teams| - 1];
      assert forall i :: 0 <= i < |pre| ==> pre[i] == teams[i];
      var rest := SetToSeqIds(ids, pre);
      if teams[|teams| - 1].id in ids then rest + [teams[|teams| - 1].id] else rest
  }

  /** The season teams' current ratings, whose median is re-centred on the base. */
  function SeasonRatings(season: Season, teams: seq<Team>): seq<real>
  {
    RatedLasts(TeamsWithIds(teams, SetToSeqIds(SeasonTeamIds(season.races), teams)))
  }

  /** Every team re-rated against `median`, the others untouched. */
  function RerateAll(teams: seq<Team>, ids: set<int>, median: real): (r: seq<Team>)
    ensures |r| == |teams|
  {
    seq(|teams|, i requires 0 <= i < |teams| => Rerated(teams[i], ids, median))
  }

  /**
   * `rerate_teams(season, teams)`: every team of the season gains `last - median + BASE`
   * (or `BASE` when it has no rating), where the median is taken over the season teams'
   * current ratings; a no-op when there is no season team or none is rated.
   */
  function RerateTeams(season: Season, teams: seq<Team>): (r: seq<Team>)
    ensures |r| == |teams|
  {
    if !RerateApplies(season, teams) then teams
    else RerateAll(teams, SeasonTeamIds(season.races), Median(SeasonRatings(season, teams)))
  }

  /** The final loop of `rerate_teams`, appending to each season team in turn. */
  method RerateEach(teams: seq<Team>, ids: set<int>, median: real) returns (r: seq<Team>)
    ensures r == RerateAll(teams, ids, median)
  {
    r := teams;
    for i := 0 to |teams|
      invariant |r| == |teams|
      invariant forall k :: 0 <= k < i ==> r[k] == Rerated(teams[k], ids, median)
      invariant forall k :: i <= k < |teams| ==> r[k] == teams[k]
    {
      if teams[i].id !in ids {
        continue;
      }
      if |teams[i].ratings| > 0 {
        var normalized := (Last(teams[i].ratings) - median) + BASE_TEAM_RATING;
        r := r[i := teams[i].(ratings := teams[i].ratings + [Rating(normalized, None)])];
      } else {
        r := r[i := teams[i].(ratings := teams[i].ratings + [Rating(BASE_TEAM_RATING, None)])];
      }
    }
  }

  /** `rerate_teams`, with its loops. */
  method ComputeRerateTeams(season: Season, teams: seq<Team>) returns (r: seq<Team>)
    ensures r == RerateTeams(season, teams)
  {
    var ids := CollectSeasonTeamIds(season);
    var inSeason := TeamsWithIds(teams, SetToSeqIds(ids, teams));
    if |inSeason| == 0 {
      return teams;
    }
    var ratings := RatedLasts(inSeason);
    if |ratings| == 0 {
      return teams;
    }
    SortByLength(ratings, RealKey);
    var median := SortBy(ratings, RealKey)[|ratings| / 2];
    assert median == Median(SeasonRatings(season, teams));
    r := RerateEach(teams, ids, median);
  }

  /**
   * Re-rating only appends: a team outside the season (or every team, when it does not
   * apply) is unchanged, and a season team keeps its id and name and gains exactly one
   * entry, with no date.
   */
  lemma RerateAppendsOne(season: Season, teams: seq<Team>, i: nat)
    requires i < |teams|
    ensures var r := RerateTeams(season, teams);
      r[i].id == teams[i].id && r[i].name == teams[i].name
    ensures var r := RerateTeams(season, teams);
      !RerateApplies(season, teams) || teams[i].id !in SeasonTeamIds(season.races) ==> r[i] == teams[i]
    ensures var r := RerateTeams(season, teams);
      RerateApplies(season, teams) && teams[i].id in SeasonTeamIds(season.races) ==>
        |r[i].ratings| == |teams[i].ratings| + 1 && r[i].ratings[..|teams[i].ratings|] == teams[i].ratings
        && r[i].ratings[|teams[i].ratings|].date.None?
  {
    var r := RerateTeams(season, teams);
    if RerateApplies(season, teams) && teams[i].id in SeasonTeamIds(season.races) {
      assert r[i] == RerateAll(teams, SeasonTeamIds(season.races), Median(SeasonRatings(season, teams)))[i];
      assert r[i].ratings[..|teams[i].ratings|] == teams[i].ratings;
    }
  }

  /** Re-rating only extends histories, so rated teams stay rated. */
  lemma RerateExtends(season: Season, teams: seq<Team>)
    ensures TeamsExtend(teams, RerateTeams(season, teams))
    ensures TeamsRated(teams) ==> TeamsRated(RerateTeams(season, teams))
  {
    var r := RerateTeams(season, teams);
    forall i | 0 <= i < |teams|
      ensures r[i].id == teams[i].id && r[i].name == teams[i].name
      ensures |teams[i].ratings| <= |r[i].ratings| && r[i].ratings[..|teams[i].ratings|] == teams[i].ratings
    {
      RerateAppendsOne(season, teams, i);
    }
  }

  /**
   * Re-rating preserves the differences between the ratings of rated season teams, and a
   * season team with no history gets exactly the base rating.
   */
  lemma RerateKeepsDifferences(season: Season, teams: seq<Team>, i: nat, j: nat)
    requires i < |teams| && j < |teams| && RerateApplies(season, teams)
    requires teams[i].id in SeasonTeamIds(season.races) && teams[j].id in SeasonTeamIds(season.races)
    ensures var r := RerateTeams(season, teams);
      |teams[i].ratings| > 0 && |teams[j].ratings| > 0 ==>
        Last(r[i].ratings) - Last(r[j].ratings) == Last(teams[i].ratings) - Last(teams[j].ratings)
    ensures var r := RerateTeams(season, teams);
      |teams[i].ratings| == 0 ==> Last(r[i].ratings) == BASE_TEAM_RATING
  {
    RerateAppendsOne(season, teams, i);
    RerateAppendsOne(season, teams, j);
  }

  /** A rated season team gains its rating minus the season median plus the base. */
  lemma RerateRecentres(season: Season, teams: seq<Team>, i: nat)
    requires i < |teams| && RerateApplies(season, teams)
    requires teams[i].id in SeasonTeamIds(season.races) && |teams[i].ratings| > 0
    ensures Last(RerateTeams(season, teams)[i].ratings) == Last(teams[i].ratings) - Median(SeasonRatings(season, teams)) + BASE_TEAM_RATING
  {
    assert RerateTeams(season, teams)[i] == RerateAll(teams, SeasonTeamIds(season.races), Median(SeasonRatings(season, teams)))[i];
  }

  /** A rated season team whose rating is the median lands exactly on the base rating. */
  lemma RerateMedianOnBase(season: Season, teams: seq<Team>, i: nat)
    requires i < |teams| && RerateApplies(season, teams)
    requires teams[i].id in SeasonTeamIds(season.races) && |teams[i].ratings| > 0
    requires Last(teams[i].ratings) == Median(SeasonRatings(season, teams))
    ensures Last(RerateTeams(season, teams)[i].ratings) == BASE_TEAM_RATING
  {
    RerateAppendsOne(season, teams, i);
  }

  /**
   * The median is one of the season ratings, so some rated season team lands on the base;
   * and it is an order statistic: fewer than half of the ratings lie below it, more than
   * half at or below it.
   */
  lemma RerateMedianExists(season: Season, teams: seq<Team>)
    requires RerateApplies(season, teams)
    ensures var ratings := SeasonRatings(season, teams);
      CountUpTo(ratings, RealKey, Median(ratings), true) <= |ratings| / 2 &&
      CountUpTo(ratings, RealKey, Median(ratings), false) > |ratings| / 2
    ensures exists i :: 0 <= i < |teams| && teams[i].id in SeasonTeamIds(season.races) && |teams[i].ratings| > 0
                        && Last(RerateTeams(season, teams)[i].ratings) == BASE_TEAM_RATING
  {
    var ids := SeasonTeamIds(season.races);
    var inSeason := TeamsWithIds(teams, SetToSeqIds(ids, teams));
    var ratings := SeasonRatings(season, teams);
    MiddleIsOrderStatistic(ratings, RealKey);
    var med := Median(ratings);
    assert med in multiset(ratings);
    var k := RatedLastsSource(inSeason, med);
    var i := TeamsWithIdsSource(teams, SetToSeqIds(ids, teams), k);
    RerateMedianOnBase(season, teams, i);
  }

  /** Three teams A, B and C with the single ratings 1000, 1100 and 1500. */
  function ScenarioTeams(): seq<Team>
  {
    [Team(1, "A", [Rating(1000.0, None)]), Team(2, "B", [Rating(1100.0, None)]), Team(3, "C", [Rating(1500.0, None)])]
  }

  /**
   * Three season teams rated 1000, 1100 and 1500: the median is 1100, so they are re-rated
   * to 1100, 1200 and 1600.
   */
  lemma RerateScenario(season: Season)
    requires 1 in SeasonTeamIds(season.races) && 2 in SeasonTeamIds(season.races) && 3 in SeasonTeamIds(season.races)
    ensures var r := RerateTeams(season, ScenarioTeams());
      Last(r[0].ratings) == 1100.0 && Last(r[1].ratings) == 1200.0 && Last(r[2].ratings) == 1600.0
  {
    var teams := ScenarioTeams();
    ScenarioRatings(season);
    ScenarioMedian();
    RerateRecentres(season, teams, 0);
    RerateRecentres(season, teams, 1);
    RerateRecentres(season, teams, 2);
  }

  lemma ScenarioMedian()
    ensures Median([1000.0, 1100.0, 1500.0]) == 1100.0
  {
    var ratings := [1000.0, 1100.0, 1500.0];
    assert SortedBy(ratings, RealKey);
    SortBySorted(ratings, RealKey);
  }

  lemma ScenarioRatings(season: Season)
    requires 1 in SeasonTeamIds(season.races) && 2 in SeasonTeamIds(season.races) && 3 in SeasonTeamIds(season.races)
    ensures SeasonRatings(season, ScenarioTeams()) == [1000.0, 1100.0, 1500.0]
    ensures RerateApplies(season, ScenarioTeams())
  {
    var listed := ScenarioListed(season);
    ScenarioKept();
    ScenarioLasts();
  }

  lemma ScenarioKept()
    ensures TeamsWithIds(ScenarioTeams(), [1, 2, 3]) == ScenarioTeams()
  {
    var teams := ScenarioTeams();
    assert teams[..2][..1] == teams[..1] && teams[..3][..2] == teams[..2] && teams[..3] == teams;
    assert TeamsWithIds(teams[..1], [1, 2, 3]) == teams[..1];
    assert TeamsWithIds(teams[..2], [1, 2, 3]) == teams[..2];
  }

  lemma ScenarioLasts()
    ensures RatedLasts(ScenarioTeams()) == [1000.0, 1100.0, 1500.0]
  {
    var teams := ScenarioTeams();
    assert teams[..2][..1] == teams[..1] && teams[..3][..2] == teams[..2] && teams[..3] == teams;
    assert RatedLasts(teams[..1]) == [1000.0];
    assert RatedLasts(teams[..2]) == [1000.0, 1100.0];
  }

  lemma ScenarioListed(season: Season) returns (listed: seq<int>)
    requires 1 in SeasonTeamIds(season.races) && 2 in SeasonTeamIds(season.races) && 3 in SeasonTeamIds(season.races)
    ensures listed == SetToSeqIds(SeasonTeamIds(season.races), ScenarioTeams()) == [1, 2, 3]
  {
    var teams := ScenarioTeams();
    var ids := SeasonTeamIds(season.races);
    assert teams[..2][..1] == teams[..1] && teams[..3][..2] == teams[..2] && teams[..3] == teams;
    assert SetToSeqIds(ids, teams[..1]) == [1];
    assert SetToSeqIds(ids, teams[..2]) == [1, 2];
    listed := SetToSeqIds(ids, teams);
  }

  /** Every rating in `RatedLasts(ts)` is the current rating of a rated team of `ts`. */
  lemma {:induction false} RatedLastsSource(ts: seq<Team>, x: real) returns (k: nat)
    requires x in multiset(RatedLasts(ts))
    ensures k < |ts| && |ts[k].ratings| > 0 && Last(ts[k].ratings) == x
    decreases |ts|
  {
    var rest := RatedLasts(ts[..|ts| - 1]);
    var t := ts[|ts| - 1];
    if |t.ratings| > 0 && x == Last(t.ratings) {
      k := |ts| - 1;
    } else {
      if |t.ratings| > 0 {
        assert multiset(rest + [Last(t.ratings)]) == multiset(rest) + multiset{Last(t.ratings)};
      }
      k := RatedLastsSource(ts[..|ts| - 1], x);
    }
  }

  /** Every team kept by the filter is a team of the list whose id is listed. */
  lemma {:induction false} TeamsWithIdsSource(teams: seq<Team>, ids: seq<int>, k: nat) returns (i: nat)
    requires k < |TeamsWithIds(teams, ids)|
    ensures i < |teams| && teams[i] == TeamsWithIds(teams, ids)[k] && teams[i].id in ids
    decreases |teams|
  {
    var rest := TeamsWithIds(teams[..|teams| - 1], ids);
    if k < |rest| {
      i := TeamsWithIdsSource(teams[..|teams| - 1], ids, k);
    } else {
      i := |teams| - 1;
    }
  }

  // ---------------------------------------------------------------------------------------
  // Team decay (`compute_teams_rating_decay`)
  // ---------------------------------------------------------------------------------------

  /**
   * `compute_teams_rating_decay(teams, full, w)`: team id to decay, for every team off the
   * base rating; `full / w` or `diff / (full / w)` raises when `w` or `full` is 0.
   */
  function TeamDecays(teams: seq<Team>, full: real, w: real): Result<map<int, real>>
    requires TeamsRated(teams)
    decreases |teams|
  {
    if |teams| == 0 then Ok(map[])
    else
      var pre :- TeamDecays(teams[..|teams| - 1], full, w);
      var t := teams[|teams| - 1];
      if Last(t.ratings) - BASE_TEAM_RATING == 0.0 then Ok(pre)
      else if w == 0.0 || full / w == 0.0 then Err(ZeroDivision)
      else Ok(pre[t.id := Decay(Last(t.ratings), BASE_TEAM_RATING, full, w)])
  }

  /**
   * The map holds exactly the ids of teams off the base rating, each bound to the decay of
   * such a team; it is an error exactly when some team is off base and `w` or `full` is 0.
   */
  lemma {:induction false} TeamDecaysFacts(teams: seq<Team>, full: real, w: real)
    requires TeamsRated(teams)
    ensures var r := TeamDecays(teams, full, w);
      (r.Err? <==> (w == 0.0 || full == 0.0) && exists i :: 0 <= i < |teams| && Last(teams[i].ratings) != BASE_TEAM_RATING)
    ensures var r := TeamDecays(teams, full, w);
      r.Ok? ==> forall id :: id in r.value <==> exists i :: 0 <= i < |teams| && teams[i].id == id && Last(teams[i].ratings) != BASE_TEAM_RATING
    ensures var r := TeamDecays(teams, full, w);
      r.Ok? ==> forall id :: id in r.value ==> (exists i :: 0 <= i < |teams| && teams[i].id == id && Last(teams[i].ratings) != BASE_TEAM_RATING
                                                            && r.value[id] == Decay(Last(teams[i].ratings), BASE_TEAM_RATING, full, w))
    decreases |teams|
  {
    if |teams| > 0 {
      var n := |teams|;
      var pre := teams[..n - 1];
      TeamDecaysFacts(pre, full, w);
      assert forall i :: 0 <= i < n - 1 ==> pre[i] == teams[i];
      if w != 0.0 && full != 0.0 {
        assert full / w != 0.0 by {
          assert (full / w) * w == full;
        }
      }
    }
  }

  /**
   * With repeated ids the last off-base team wins, as in the `decays[team.id] = decay`
   * assignment: a later team with the same id on the base rating leaves the value alone.
   */
  lemma {:induction false} TeamDecaysLastWins(teams: seq<Team>, full: real, w: real, i: nat)
    requires TeamsRated(teams) && i < |teams| && Last(teams[i].ratings) != BASE_TEAM_RATING
    requires forall j :: i < j < |teams| && teams[j].id == teams[i].id ==> Last(teams[j].ratings) == BASE_TEAM_RATING
    ensures var r := TeamDecays(teams, full, w);
      r.Ok? ==> w != 0.0 && full / w != 0.0 && teams[i].id in r.value && r.value[teams[i].id] == Decay(Last(teams[i].ratings), BASE_TEAM_RATING, full, w)
    decreases |teams|
  {
    var n := |teams|;
    var pre := teams[..n - 1];
    if i < n - 1 {
      assert forall j :: 0 <= j < |pre| ==> pre[j] == teams[j];
      TeamDecaysLastWins(pre, full, w, i);
    }
  }

  lemma {:induction false} TeamDecaysErrorPersists(teams: seq<Team>, full: real, w: real, j: nat)
    requires TeamsRated(teams)
    requires j <= |teams| && TeamDecays(teams[..j], full, w).Err?
    ensures TeamDecays(teams, full, w) == TeamDecays(teams[..j], full, w)
    decreases |teams| - j
  {
    if j < |teams| {
      assert teams[..|teams| - 1][..j] == teams[..j];
      TeamDecaysErrorPersists(teams[..|teams| - 1], full, w, j);
    } else {
      assert teams[..j] == teams;
    }
  }

  /** The loop of `compute_teams_rating_decay`. */
  method ComputeTeamsRatingDecay(teams: seq<Team>, full: real, w: real) returns (r: Result<map<int, real>>)
    requires TeamsRated(teams)
    ensures r == TeamDecays(teams, full, w)
  {
    var decays: map<int, real> := map[];
    for i := 0 to |teams|
      invariant TeamDecays(teams[..i], full, w) == Ok(decays)
    {
      assert teams[..i + 1][..i] == teams[..i];
      var diff := Last(teams[i].ratings) - BASE_TEAM_RATING;
      if diff == 0.0 {
        continue;
      }
      if w == 0.0 || full / w == 0.0 {
        TeamDecaysErrorPersists(teams, full, w, i + 1);
        return Err(ZeroDivision);
      }
      decays := decays[teams[i].id := diff / (full / w)];
    }
    assert teams[..|teams|] == teams;
    return Ok(decays);
  }

  // ---------------------------------------------------------------------------------------
  // Re-entry reset (`reset_team_reentry_ratings`)
  // ---------------------------------------------------------------------------------------

  /** Whether a team competes this season but did not compete in `prev`. */
  predicate Reenters(t: Team, season: Season, prev: Season)
  {
    t.id in SeasonTeamIds(season.races) && t.id !in SeasonTeamIds(prev.races)
  }

  /** Every team in `current` and not in `previous` gains `(BASE, None)`. */
  function ResetAbsent(teams: seq<Team>, current: set<int>, previous: set<int>): (r: seq<Team>)
    ensures |r| == |teams|
  {
    seq(|teams|, i requires 0 <= i < |teams| =>
      if teams[i].id in current && teams[i].id !in previous
      then teams[i].(ratings := teams[i].ratings + [Rating(BASE_TEAM_RATING, None)])
      else teams[i])
  }

  /**
   * `reset_team_reentry_ratings(seasons, season, teams)`: with `prev` the first season of
   * year `season.year - 1`, every team present this season and absent from `prev` gains
   * `(BASE, None)`; a no-op when there is no such season.
   */
  function ResetTeamReentryRatings(seasons: seq<Season>, season: Season, teams: seq<Team>): (r: seq<Team>)
    ensures |r| == |teams|
  {
    match First(seasons, SeasonYearKey, season.year - 1)
    case None => teams
    case Some(prev) => ResetAbsent(teams, SeasonTeamIds(season.races), SeasonTeamIds(prev.races))
  }

  /**
   * The reset only appends: without a previous season nothing changes; otherwise each team
   * keeps its id and name, and its history gains exactly `(BASE, None)` if and only if it
   * re-enters, and is untouched otherwise.
   */
  lemma ResetTeamReentryFacts(seasons: seq<Season>, season: Season, teams: seq<Team>, i: nat)
    requires i < |teams|
    ensures First(seasons, SeasonYearKey, season.year - 1).None? ==> ResetTeamReentryRatings(seasons, season, teams) == teams
    ensures var r := ResetTeamReentryRatings(seasons, season, teams);
      r[i].id == teams[i].id && r[i].name == teams[i].name
    ensures var r := ResetTeamReentryRatings(seasons, season, teams);
      var prev := First(seasons, SeasonYearKey, season.year - 1);
      if prev.Some? && Reenters(teams[i], season, prev.value)
      then r[i].ratings == teams[i].ratings + [Rating(BASE_TEAM_RATING, None)]
      else r[i].ratings == teams[i].ratings
  {
  }

  /** The reset only extends histories, so rated teams stay rated. */
  lemma ResetExtends(seasons: seq<Season>, season: Season, teams: seq<Team>)
    ensures TeamsExtend(teams, ResetTeamReentryRatings(seasons, season, teams))
    ensures TeamsRated(teams) ==> TeamsRated(ResetTeamReentryRatings(seasons, season, teams))
  {
    var r := ResetTeamReentryRatings(seasons, season, teams);
    forall i | 0 <= i < |teams|
      ensures r[i].id == teams[i].id && r[i].name == teams[i].name
      ensures |teams[i].ratings| <= |r[i].ratings| && r[i].ratings[..|teams[i].ratings|] == teams[i].ratings
    {
      ResetTeamReentryFacts(seasons, season, teams, i);
    }
  }

  /**
   * A team rated 1350 that races in 1955 but not in 1954 re-enters at the base rating, with
   * no date, ahead of the 1955 races.
   */
  lemma ReentryScenario(seasons: seq<Season>, season: Season, teams: seq<Team>, i: nat)
    requires season.year == 1955 && i < |teams| && teams[i].ratings == [Rating(1350.0, Some(19541024))]
    requires First(seasons, SeasonYearKey, 1954).Some?
    requires teams[i].id in SeasonTeamIds(season.races)
    requires teams[i].id !in SeasonTeamIds(First(seasons, SeasonYearKey, 1954).value.races)
    ensures ResetTeamReentryRatings(seasons, season, teams)[i].ratings == [Rating(1350.0, Some(19541024)), Rating(1200.0, None)]
  {
    ResetTeamReentryFacts(seasons, season, teams, i);
  }

  /** The final loop of `reset_team_reentry_ratings`. */
  method ResetEachAbsent(teams: seq<Team>, current: set<int>, previous: set<int>) returns (r: seq<Team>)
    ensures r == ResetAbsent(teams, current, previous)
  {
    r := teams;
    for i := 0 to |teams|
      invariant |r| == |teams|
      invariant forall k :: 0 <= k < i ==> r[k] == ResetAbsent(teams, current, previous)[k]
      invariant forall k :: i <= k < |teams| ==> r[k] == teams[k]
    {
      if teams[i].id in current && teams[i].id !in previous {
        r := r[i := teams[i].(ratings := teams[i].ratings + [Rating(BASE_TEAM_RATING, None)])];
      }
    }
  }

  /** `reset_team_reentry_ratings`, with its loops. */
  method ComputeResetTeamReentryRatings(seasons: seq<Season>, season: Season, teams: seq<Team>) returns (r: seq<Team>)
    ensures r == ResetTeamReentryRatings(seasons, season, teams)
  {
    var p := FindFirst(seasons, SeasonYearKey, season.year - 1);
    if p.None? {
      return teams;
    }
    var prev := seasons[p.value];
    var current := CollectSeasonTeamIds(season);
    var previous := CollectSeasonTeamIds(prev);
    assert First(seasons, SeasonYearKey, season.year - 1) == Some(prev);
    r := ResetEachAbsent(teams, current, previous);
    assert ResetTeamReentryRatings(seasons, season, teams) == ResetAbsent(teams, current, previous);
  }
}
