/** Statistics over the rows the database returns: the row search, a team's
    win/draw/loss record, the head-to-head merge and the league summary.
    Every function answers with an empty list or an all-zero record when the
    client is missing, the query fails or the call throws. */
module RealMatchesData {
  import opened Basics
  import opened MatchRecord
  import opened OfflineData
  import DataProcessor

  // ---------------------------------------------------------------------------
  // The database as an input
  // ---------------------------------------------------------------------------

  /** What one query answered: the rows (`data`, possibly `null`) and the
      error. */
  datatype Answer = Answer(data: Option<seq<Match>>, error: Option<string>)

  /** The backend as a function sees it: no client configured, a call that
      threw (caught by the function's `try`), or the answer(s) it got. */
  datatype Backend<A> = NotConfigured | Threw | Replied(answer: A)

  /** `if (error || !data)`: the answer carries rows to work on. */
  predicate HasRows(a: Answer) {
    a.error.None? && a.data.Some?
  }

  // ---------------------------------------------------------------------------
  // Row filters
  // ---------------------------------------------------------------------------

  /** One `ilike` condition of a PostgREST filter, or a conjunction of two. */
  datatype Cond = HomeLike(term: string) | AwayLike(term: string) | And(left: Cond, right: Cond)

  /** `column.ilike.%term%` read as a case-insensitive "contains" (the term's
      own LIKE wildcards are not interpreted). */
  predicate Holds(c: Cond, m: Match) {
    match c
    case HomeLike(t) => MatchesText(m.homeTeam, t)
    case AwayLike(t) => MatchesText(m.awayTeam, t)
    case And(l, r) => Holds(l, m) && Holds(r, m)
  }

  /** An `or(...)` filter: a row passes when one alternative holds; no
      alternatives at all means that no filter is sent. */
  predicate Admits(alternatives: seq<Cond>, m: Match) {
    alternatives == [] || exists i :: 0 <= i < |alternatives| && Holds(alternatives[i], m)
  }

  /** JavaScript's truthiness of an optional name. */
  predicate Given(name: Option<string>) {
    name.Some? && name.value != ""
  }

  /** The `or` filter `getRealMatchesData` sends for the two optional names:
      both orientations of the pair when both are given, either side for a
      single name, nothing otherwise. */
  function RealMatchesFilter(homeTeam: Option<string>, awayTeam: Option<string>): seq<Cond> {
    if Given(homeTeam) && Given(awayTeam) then
      [And(HomeLike(homeTeam.value), AwayLike(awayTeam.value)),
       And(HomeLike(awayTeam.value), AwayLike(homeTeam.value))]
    else if Given(homeTeam) then [HomeLike(homeTeam.value), AwayLike(homeTeam.value)]
    else if Given(awayTeam) then [HomeLike(awayTeam.value), AwayLike(awayTeam.value)]
    else []
  }

  /** What the filter asks for, in terms of the rows: with two names, a match
      between the two teams in either orientation; with one name, a match
      that team played on either side; with none, every row. */
  lemma RealMatchesFilterMeaning(homeTeam: Option<string>, awayTeam: Option<string>, m: Match)
    ensures Given(homeTeam) && Given(awayTeam) ==>
      (Admits(RealMatchesFilter(homeTeam, awayTeam), m) <==>
        (MatchesText(m.homeTeam, homeTeam.value) && MatchesText(m.awayTeam, awayTeam.value)) ||
        (MatchesText(m.homeTeam, awayTeam.value) && MatchesText(m.awayTeam, homeTeam.value)))
    ensures Given(homeTeam) != Given(awayTeam) ==>
      var name := if Given(homeTeam) then homeTeam.value else awayTeam.value;
      (Admits(RealMatchesFilter(homeTeam, awayTeam), m) <==> EitherSide(m, name))
    ensures !Given(homeTeam) && !Given(awayTeam) ==> Admits(RealMatchesFilter(homeTeam, awayTeam), m)
  {
    var f := RealMatchesFilter(homeTeam, awayTeam);
    if Given(homeTeam) || Given(awayTeam) {
      AdmitsPair(f, m);
      if Given(homeTeam) && Given(awayTeam) {
        assert Holds(f[0], m) <==> MatchesText(m.homeTeam, homeTeam.value) && MatchesText(m.awayTeam, awayTeam.value);
        assert Holds(f[1], m) <==> MatchesText(m.homeTeam, awayTeam.value) && MatchesText(m.awayTeam, homeTeam.value);
      } else {
        var name := if Given(homeTeam) then homeTeam.value else awayTeam.value;
        assert f == [HomeLike(name), AwayLike(name)];
      }
    }
  }

  /** A two-alternative filter admits a row when either alternative holds. */
  lemma AdmitsPair(f: seq<Cond>, m: Match)
    requires |f| == 2
    ensures Admits(f, m) <==> Holds(f[0], m) || Holds(f[1], m)
  {
    if Admits(f, m) {
      var i :| 0 <= i < |f| && Holds(f[i], m);
      assert i == 0 || i == 1;
    }
  }

  /** Swapping the two names changes the filter text but not the rows it
      admits. */
  lemma RealMatchesFilterSymmetric(homeTeam: Option<string>, awayTeam: Option<string>, m: Match)
    ensures Admits(RealMatchesFilter(homeTeam, awayTeam), m) <==> Admits(RealMatchesFilter(awayTeam, homeTeam), m)
  {
    RealMatchesFilterMeaning(homeTeam, awayTeam, m);
    RealMatchesFilterMeaning(awayTeam, homeTeam, m);
  }

  /** `getRealMatchesData(homeTeam, awayTeam, limit)`: the rows, or `[]` when
      the client is missing, the query fails or the call throws. The filter
      and the order and limit are applied by the database. */
  function GetRealMatchesData(backend: Backend<Answer>): (r: seq<Match>)
    ensures backend.Replied? && backend.answer.error.None? ==> r == backend.answer.data.GetOr([])
    ensures !backend.Replied? || backend.answer.error.Some? ==> r == []
  {
    match backend
    case Replied(Answer(data, error)) => if error.Some? then [] else data.GetOr([])
    case _ => []
  }

  // ---------------------------------------------------------------------------
  // A team's record
  // ---------------------------------------------------------------------------

  /** `match.home_team.toLowerCase().includes(teamName.toLowerCase())`. */
  predicate IsHome(m: Match, teamName: string) {
    MatchesText(m.homeTeam, teamName)
  }

  /** The team's and the opponent's full-time goals, from the side `IsHome`
      decides. */
  function GoalsFor(m: Match, teamName: string): nat {
    if IsHome(m, teamName) then m.homeGoals else m.awayGoals
  }

  function GoalsAgainst(m: Match, teamName: string): nat {
    if IsHome(m, teamName) then m.awayGoals else m.homeGoals
  }

  /** The seven counters of `getTeamRealStatistics`. */
  datatype Tally = Tally(
    wins: nat,
    draws: nat,
    losses: nat,
    goalsScored: nat,
    goalsConceded: nat,
    homeMatches: nat,
    awayMatches: nat)

  const ZERO_TALLY := Tally(0, 0, 0, 0, 0, 0, 0)

  /** One iteration of the `forEach` body. */
  function TallyStep(t: Tally, m: Match, teamName: string): Tally {
    if IsHome(m, teamName) then
      var t1 := t.(homeMatches := t.homeMatches + 1,
        goalsScored := t.goalsScored + m.homeGoals, goalsConceded := t.goalsConceded + m.awayGoals);
      if m.homeGoals > m.awayGoals then t1.(wins := t1.wins + 1)
      else if m.homeGoals == m.awayGoals then t1.(draws := t1.draws + 1)
      else t1.(losses := t1.losses + 1)
    else
      var t1 := t.(awayMatches := t.awayMatches + 1,
        goalsScored := t.goalsScored + m.awayGoals, goalsConceded := t.goalsConceded + m.homeGoals);
      if m.awayGoals > m.homeGoals then t1.(wins := t1.wins + 1)
      else if m.awayGoals == m.homeGoals then t1.(draws := t1.draws + 1)
      else t1.(losses := t1.losses + 1)
  }

  /** The counters after the `forEach` over `data`. */
  function TallyOf(data: seq<Match>, teamName: string): Tally {
    if data == [] then ZERO_TALLY
    else TallyStep(TallyOf(data[..|data| - 1], teamName), data[|data| - 1], teamName)
  }

  /** The counters after one more row. */
  lemma TallyOfNext(data: seq<Match>, i: nat, teamName: string)
    requires i < |data|
    ensures TallyOf(data[..i + 1], teamName) == TallyStep(TallyOf(data[..i], teamName), data[i], teamName)
  {
    assert data[..i + 1][..i] == data[..i];
  }

  /** How many rows satisfy `p`. */
  function Count(data: seq<Match>, p: Match -> bool): (n: nat)
    ensures n <= |data|
  {
    if data == [] then 0
    else Count(data[..|data| - 1], p) + (if p(data[|data| - 1]) then 1 else 0)
  }

  /** The sum of both sides' full-time goals. */
  function TotalGoals(data: seq<Match>): nat {
    if data == [] then 0
    else TotalGoals(data[..|data| - 1]) + data[|data| - 1].homeGoals + data[|data| - 1].awayGoals
  }

  /** Each counter counts what its name says: wins, draws and losses from the
      team's side, and the home and away rows. */
  lemma {:induction false} TallyCounts(data: seq<Match>, teamName: string)
    ensures var t := TallyOf(data, teamName);
      t.wins == Count(data, (m: Match) => GoalsFor(m, teamName) > GoalsAgainst(m, teamName)) &&
      t.draws == Count(data, (m: Match) => GoalsFor(m, teamName) == GoalsAgainst(m, teamName)) &&
      t.losses == Count(data, (m: Match) => GoalsFor(m, teamName) < GoalsAgainst(m, teamName)) &&
      t.homeMatches == Count(data, (m: Match) => IsHome(m, teamName)) &&
      t.awayMatches == Count(data, (m: Match) => !IsHome(m, teamName))
  {
    if data != [] {
      TallyCounts(data[..|data| - 1], teamName);
    }
  }

  /** Every row is one win, draw or loss and one home or away match, and
      every goal is scored or conceded. */
  lemma {:induction false} TallyTotals(data: seq<Match>, teamName: string)
    ensures var t := TallyOf(data, teamName);
      t.wins + t.draws + t.losses == |data| &&
      t.homeMatches + t.awayMatches == |data| &&
      t.goalsScored + t.goalsConceded == TotalGoals(data)
  {
    if data != [] {
      TallyTotals(data[..|data| - 1], teamName);
    }
  }

  /** The record `getTeamRealStatistics` returns. */
  datatype TeamStats = TeamStats(
    totalMatches: nat,
    wins: nat,
    draws: nat,
    losses: nat,
    goalsScored: nat,
    goalsConceded: nat,
    homeMatches: nat,
    awayMatches: nat,
    recentForm: seq<Match>)

  /** The all-zero record of the fallbacks. */
  const ZERO_TEAM_STATS := TeamStats(0, 0, 0, 0, 0, 0, 0, 0, [])

  /** The counters of a record. */
  function TallyPart(s: TeamStats): Tally {
    Tally(s.wins, s.draws, s.losses, s.goalsScored, s.goalsConceded, s.homeMatches, s.awayMatches)
  }

  /** `getTeamRealStatistics(teamName)` on the rows the team query returned
      (the filter, the newest-first order and the limit of 50 are the
      database's). */
  method GetTeamRealStatistics(backend: Backend<Answer>, teamName: string) returns (stats: TeamStats)
    ensures !(backend.Replied? && HasRows(backend.answer)) ==> stats == ZERO_TEAM_STATS
    ensures backend.Replied? && HasRows(backend.answer) ==>
      var data := backend.answer.data.value;
      stats.totalMatches == |data| &&
      TallyPart(stats) == TallyOf(data, teamName) &&
      stats.recentForm == Slice(data, 10)
    ensures stats.wins + stats.draws + stats.losses == stats.totalMatches
    ensures stats.homeMatches + stats.awayMatches == stats.totalMatches
    ensures |stats.recentForm| <= 10 && |stats.recentForm| <= stats.totalMatches
  {
    if !backend.Replied? || !HasRows(backend.answer) {
      return ZERO_TEAM_STATS;
    }
    var data := backend.answer.data.value;
    var wins: nat, draws: nat, losses: nat := 0, 0, 0;
    var goalsScored: nat, goalsConceded: nat := 0, 0;
    var homeMatches: nat, awayMatches: nat := 0, 0;
    for i := 0 to |data|
      invariant Tally(wins, draws, losses, goalsScored, goalsConceded, homeMatches, awayMatches)
        == TallyOf(data[..i], teamName)
    {
      var m := data[i];
      TallyOfNext(data, i, teamName);
      if IsHome(m, teamName) {
        homeMatches := homeMatches + 1;
        goalsScored := goalsScored + m.homeGoals;
        goalsConceded := goalsConceded + m.awayGoals;
        if m.homeGoals > m.awayGoals {
          wins := wins + 1;
        } else if m.homeGoals == m.awayGoals {
          draws := draws + 1;
        } else {
          losses := losses + 1;
        }
      } else {
        awayMatches := awayMatches + 1;
        goalsScored := goalsScored + m.awayGoals;
        goalsConceded := goalsConceded + m.homeGoals;
        if m.awayGoals > m.homeGoals {
          wins := wins + 1;
        } else if m.awayGoals == m.homeGoals {
          draws := draws + 1;
        } else {
          losses := losses + 1;
        }
      }
    }
    assert data[..|data|] == data;
    TallyTotals(data, teamName);
    stats := TeamStats(|data|, wins, draws, losses, goalsScored, goalsConceded,
      homeMatches, awayMatches, Slice(data, 10));
  }

  // ---------------------------------------------------------------------------
  // Head to head
  // ---------------------------------------------------------------------------

  /** The two queries of `getHeadToHeadMatches`, `team1` at home against
      `team2` and the reverse, as the alternatives of one filter: together
      they ask for the pairing in either orientation, which for two non-empty
      names is what `getRealMatchesData` asks for. */
  function HeadToHeadQueries(team1: string, team2: string): (q: seq<Cond>)
    ensures |q| == 2
    ensures forall m :: Admits(q, m) <==>
      (MatchesText(m.homeTeam, team1) && MatchesText(m.awayTeam, team2)) ||
      (MatchesText(m.homeTeam, team2) && MatchesText(m.awayTeam, team1))
    ensures team1 != "" && team2 != "" ==> q == RealMatchesFilter(Some(team1), Some(team2))
  {
    var q := [And(HomeLike(team1), AwayLike(team2)), And(HomeLike(team2), AwayLike(team1))];
    forall m: Match
      ensures Admits(q, m) <==>
        (MatchesText(m.homeTeam, team1) && MatchesText(m.awayTeam, team2)) ||
        (MatchesText(m.homeTeam, team2) && MatchesText(m.awayTeam, team1))
    {
      AdmitsPair(q, m);
    }
    q
  }

  /** `getHeadToHeadMatches(team1, team2)` on the answers to its two queries:
      `[]` on any failure, otherwise both lists merged, newest insertion
      first, at most 20. */
  function GetHeadToHeadMatches(backend: Backend<(Answer, Answer)>): (r: seq<Match>)
    ensures !backend.Replied? || backend.answer.0.error.Some? || backend.answer.1.error.Some? ==> r == []
    ensures |r| <= 20
    ensures SortedDesc(r, ByCreatedAt)
    ensures backend.Replied? ==> forall m :: m in r ==>
      m in backend.answer.0.data.GetOr([]) || m in backend.answer.1.data.GetOr([])
    ensures (backend.Replied? && backend.answer.0.error.None? && backend.answer.1.error.None? &&
      |backend.answer.0.data.GetOr([])| + |backend.answer.1.data.GetOr([])| <= 20) ==>
      multiset(r) == multiset(backend.answer.0.data.GetOr([])) + multiset(backend.answer.1.data.GetOr([]))
  {
    match backend
    case Replied((a1, a2)) =>
      if a1.error.Some? || a2.error.Some? then []
      else
        var all := a1.data.GetOr([]) + a2.data.GetOr([]);
        assert forall m :: m in all ==> m in a1.data.GetOr([]) || m in a2.data.GetOr([]);
        TakeNewest(all, ByCreatedAt, 20)
    case _ => []
  }

  // ---------------------------------------------------------------------------
  // League summary
  // ---------------------------------------------------------------------------

  /** `getLeagueStatistics`'s default league. */
  const DEFAULT_LEAGUE: string := "spain"

  /** The five counters of `getLeagueStatistics`. */
  datatype LeagueTally = LeagueTally(totalGoals: nat, bothTeamsScored: nat, homeWins: nat, draws: nat, awayWins: nat)

  function LeagueStep(t: LeagueTally, m: Match): LeagueTally {
    var t1 := t.(totalGoals := t.totalGoals + m.homeGoals + m.awayGoals);
    var t2 := if m.homeGoals > 0 && m.awayGoals > 0 then t1.(bothTeamsScored := t1.bothTeamsScored + 1) else t1;
    if m.homeGoals > m.awayGoals then t2.(homeWins := t2.homeWins + 1)
    else if m.homeGoals == m.awayGoals then t2.(draws := t2.draws + 1)
    else t2.(awayWins := t2.awayWins + 1)
  }

  /** The counters after the `forEach` over `data`. */
  function LeagueTallyOf(data: seq<Match>): LeagueTally {
    if data == [] then LeagueTally(0, 0, 0, 0, 0)
    else LeagueStep(LeagueTallyOf(data[..|data| - 1]), data[|data| - 1])
  }

  /** The counters after one more row. */
  lemma LeagueTallyOfNext(data: seq<Match>, i: nat)
    requires i < |data|
    ensures LeagueTallyOf(data[..i + 1]) == LeagueStep(LeagueTallyOf(data[..i]), data[i])
  {
    assert data[..i + 1][..i] == data[..i];
  }

  /** Every row is exactly one home win, draw or away win; the goal counter is
      the sum of all goals; the both-scored counter counts the rows in which
      both sides scored. */
  lemma {:induction false} LeagueTallyTotals(data: seq<Match>)
    ensures var t := LeagueTallyOf(data);
      t.homeWins + t.draws + t.awayWins == |data| &&
      t.totalGoals == TotalGoals(data) &&
      t.bothTeamsScored == DataProcessor.CountBothScored(data) &&
      t.bothTeamsScored <= |data|
  {
    if data != [] {
      LeagueTallyTotals(data[..|data| - 1]);
    }
  }

  /** The record `getLeagueStatistics` returns; JavaScript numbers are read
      as exact reals. */
  datatype LeagueStats = LeagueStats(
    totalMatches: nat,
    totalGoals: nat,
    averageGoalsPerMatch: real,
    bothTeamsScoredPercentage: real,
    homeWinPercentage: real,
    drawPercentage: real,
    awayWinPercentage: real)

  const ZERO_LEAGUE_STATS := LeagueStats(0, 0, 0.0, 0.0, 0.0, 0.0, 0.0)

  /** `(count / total) * 100`, or 0 for no rows. */
  function Percentage(count: nat, total: nat): real {
    if total > 0 then (count as real / total as real) * 100.0 else 0.0
  }

  /** The returned record for the counters of `totalMatches` rows. */
  function LeagueStatsOf(t: LeagueTally, totalMatches: nat): (s: LeagueStats)
    ensures totalMatches == 0 ==> s == LeagueStats(0, t.totalGoals, 0.0, 0.0, 0.0, 0.0, 0.0)
    ensures totalMatches > 0 ==> s.averageGoalsPerMatch * totalMatches as real == t.totalGoals as real
  {
    LeagueStats(totalMatches, t.totalGoals,
      if totalMatches > 0 then t.totalGoals as real / totalMatches as real else 0.0,
      Percentage(t.bothTeamsScored, totalMatches),
      Percentage(t.homeWins, totalMatches),
      Percentage(t.draws, totalMatches),
      Percentage(t.awayWins, totalMatches))
  }

  /** A count of at most the total is a percentage in [0, 100]. */
  lemma PercentageBounds(count: nat, total: nat)
    requires count <= total
    ensures 0.0 <= Percentage(count, total) <= 100.0
  {
    if total > 0 {
      ShareBounds(count as real, total as real);
    }
  }

  /** Percentages of one total add up like the counts. */
  lemma PercentageSum(a: nat, b: nat, c: nat, total: nat)
    requires total > 0
    ensures Percentage(a, total) + Percentage(b, total) + Percentage(c, total) == Percentage(a + b + c, total)
  {
    var n := total as real;
    assert a as real / n + b as real / n + c as real / n == (a + b + c) as real / n;
  }

  /** For a non-empty league the three outcome percentages and the
      both-scored percentage lie in [0, 100] and the outcomes add up to 100;
      for an empty one every figure is 0. */
  lemma LeagueStatsShape(data: seq<Match>)
    ensures var s := LeagueStatsOf(LeagueTallyOf(data), |data|);
      (|data| == 0 ==> s == ZERO_LEAGUE_STATS) &&
      (|data| > 0 ==>
        0.0 <= s.homeWinPercentage <= 100.0 && 0.0 <= s.drawPercentage <= 100.0 &&
        0.0 <= s.awayWinPercentage <= 100.0 && 0.0 <= s.bothTeamsScoredPercentage <= 100.0 &&
        s.homeWinPercentage + s.drawPercentage + s.awayWinPercentage == 100.0)
  {
    var t := LeagueTallyOf(data);
    LeagueTallyTotals(data);
    if |data| > 0 {
      PercentageBounds(t.homeWins, |data|);
      PercentageBounds(t.draws, |data|);
      PercentageBounds(t.awayWins, |data|);
      PercentageBounds(t.bothTeamsScored, |data|);
      PercentageSum(t.homeWins, t.draws, t.awayWins, |data|);
      ShareBounds(|data| as real, |data| as real);
    }
  }

  /** `getLeagueStatistics(league)` on the rows the league query returned
      (the league filter and the limit of 1000 are the database's). */
  method GetLeagueStatistics(backend: Backend<Answer>) returns (stats: LeagueStats)
    ensures !(backend.Replied? && HasRows(backend.answer)) ==> stats == ZERO_LEAGUE_STATS
    ensures backend.Replied? && HasRows(backend.answer) ==>
      var data := backend.answer.data.value;
      stats == LeagueStatsOf(LeagueTallyOf(data), |data|) &&
      stats.totalGoals == TotalGoals(data)
  {
    if !backend.Replied? || !HasRows(backend.answer) {
      return ZERO_LEAGUE_STATS;
    }
    var data := backend.answer.data.value;
    var totalGoals: nat, bothTeamsScored: nat := 0, 0;
    var homeWins: nat, draws: nat, awayWins: nat := 0, 0, 0;
    for i := 0 to |data|
      invariant LeagueTally(totalGoals, bothTeamsScored, homeWins, draws, awayWins) == LeagueTallyOf(data[..i])
    {
      var m := data[i];
      LeagueTallyOfNext(data, i);
      var homeGoals, awayGoals := m.homeGoals, m.awayGoals;
      totalGoals := totalGoals + homeGoals + awayGoals;
      if homeGoals > 0 && awayGoals > 0 {
        bothTeamsScored := bothTeamsScored + 1;
      }
      if homeGoals > awayGoals {
        homeWins := homeWins + 1;
      } else if homeGoals == awayGoals {
        draws := draws + 1;
      } else {
        awayWins := awayWins + 1;
      }
    }
    assert data[..|data|] == data;
    LeagueTallyTotals(data);
    var totalMatches := |data|;
    stats := LeagueStats(totalMatches, totalGoals,
      if totalMatches > 0 then totalGoals as real / totalMatches as real else 0.0,
      Percentage(bothTeamsScored, totalMatches),
      Percentage(homeWins, totalMatches),
      Percentage(draws, totalMatches),
      Percentage(awayWins, totalMatches));
  }
}
