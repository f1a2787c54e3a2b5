/** The offline fixture the application falls back to when no database is
    configured, and the three searches over it. */
module OfflineData {
  import opened Basics
  import opened Text
  import opened MatchRecord

  /** `OFFLINE_MATCHES`: ten finished matches of the 2023/24 season. Kick-off
      and insertion times are Unix seconds of the fixture's UTC timestamps. */
  const OFFLINE_MATCHES: seq<Match> := [
    Match(1, "Barcelona", "Real Madrid", 2, 1, 1, 0, 1705330800, "spain", "2023/24", 1705338000),
    Match(2, "Valencia", "Sevilla", 1, 1, 0, 1, 1705257000, "spain", "2023/24", 1705264200),
    Match(3, "Athletic Bilbao", "Villarreal", 3, 1, 2, 0, 1705176000, "spain", "2023/24", 1705183200),
    Match(4, "Las Palmas", "Getafe", 0, 2, 0, 0, 1705076100, "spain", "2023/24", 1705083300),
    Match(5, "Girona", "Alaves", 2, 2, 1, 1, 1705002300, "spain", "2023/24", 1705009500),
    Match(6, "Manchester City", "Liverpool", 2, 2, 1, 1, 1706904000, "england", "2023/24", 1706911800),
    Match(7, "Arsenal", "Chelsea", 1, 0, 0, 0, 1707156000, "england", "2023/24", 1707163500),
    Match(8, "Bayern Munich", "Borussia Dortmund", 3, 2, 2, 1, 1707334200, "germany", "2023/24", 1707341700),
    Match(9, "Juventus", "Inter", 0, 1, 0, 0, 1707511500, "italy", "2023/24", 1707519000),
    Match(10, "PSG", "Marseille", 2, 0, 1, 0, 1707771600, "france", "2023/24", 1707779100)
  ]

  /** `s.toLowerCase().includes(q.toLowerCase())`. */
  predicate MatchesText(s: string, q: string) {
    Contains(Lower(s), Lower(q))
  }

  /** `ms.filter(keep)`: the elements that pass, in their order, each as often
      as it occurs. */
  function Filter(ms: seq<Match>, keep: Match -> bool): (r: seq<Match>)
    ensures |r| <= |ms|
    ensures forall m :: m in r <==> m in ms && keep(m)
    ensures forall m :: multiset(r)[m] == if keep(m) then multiset(ms)[m] else 0
  {
    if ms == [] then []
    else
      var rest := Filter(ms[1..], keep);
      assert ms == [ms[0]] + ms[1..];
      (if keep(ms[0]) then [ms[0]] else []) + rest
  }

  /** JavaScript's `if (query)`: a missing or empty query is not applied. */
  predicate Applies(query: Option<string>) {
    query.Some? && query.value != ""
  }

  /** Whether one side of a match satisfies an optional query on that side. */
  predicate SideOk(team: string, query: Option<string>) {
    !Applies(query) || MatchesText(team, query.value)
  }

  function FilterHome(ms: seq<Match>, homeTeam: Option<string>): seq<Match> {
    if Applies(homeTeam) then Filter(ms, (m: Match) => MatchesText(m.homeTeam, homeTeam.value)) else ms
  }

  function FilterAway(ms: seq<Match>, awayTeam: Option<string>): seq<Match> {
    if Applies(awayTeam) then Filter(ms, (m: Match) => MatchesText(m.awayTeam, awayTeam.value)) else ms
  }

  /** The matches both side filters of `offlineSearchMatches` keep, before
      sorting and truncation. */
  function Selected(ms: seq<Match>, homeTeam: Option<string>, awayTeam: Option<string>): (r: seq<Match>)
    ensures forall m :: m in r <==> m in ms && SideOk(m.homeTeam, homeTeam) && SideOk(m.awayTeam, awayTeam)
    ensures forall m ::
      multiset(r)[m] == (if SideOk(m.homeTeam, homeTeam) && SideOk(m.awayTeam, awayTeam) then multiset(ms)[m] else 0)
  {
    FilterAway(FilterHome(ms, homeTeam), awayTeam)
  }

  /** Filter by each side that has a query, newest kick-off first, then
      `slice(0, limit)`. */
  function SearchIn(ms: seq<Match>, homeTeam: Option<string>, awayTeam: Option<string>, limit: int): (r: seq<Match>)
    ensures forall m :: m in r ==> m in ms
    ensures limit >= 0 ==> |r| <= limit
    ensures SortedDesc(r, ByMatchTime)
    ensures forall m :: m in r ==> SideOk(m.homeTeam, homeTeam) && SideOk(m.awayTeam, awayTeam)
    ensures |Selected(ms, homeTeam, awayTeam)| <= limit ==> multiset(r) == multiset(Selected(ms, homeTeam, awayTeam))
  {
    TakeNewest(Selected(ms, homeTeam, awayTeam), ByMatchTime, limit)
  }

  /** `offlineSearchMatches(homeTeam, awayTeam, limit)` on the fixture. */
  function OfflineSearchMatches(homeTeam: Option<string>, awayTeam: Option<string>, limit: int): (r: seq<Match>)
    ensures forall m :: m in r ==> m in OFFLINE_MATCHES
    ensures limit >= 0 ==> |r| <= limit
    ensures SortedDesc(r, ByMatchTime)
    ensures forall m :: m in r ==> SideOk(m.homeTeam, homeTeam) && SideOk(m.awayTeam, awayTeam)
    ensures |Selected(OFFLINE_MATCHES, homeTeam, awayTeam)| <= limit ==>
      multiset(r) == multiset(Selected(OFFLINE_MATCHES, homeTeam, awayTeam))
  {
    SearchIn(OFFLINE_MATCHES, homeTeam, awayTeam, limit)
  }

  /** Either side contains the name, ignoring ASCII case. */
  predicate EitherSide(m: Match, teamName: string) {
    MatchesText(m.homeTeam, teamName) || MatchesText(m.awayTeam, teamName)
  }

  /** The matches in which either side contains the name, newest first, at
      most `limit` of them. */
  function SearchByTeamIn(ms: seq<Match>, teamName: string, limit: int): (r: seq<Match>)
    ensures forall m :: m in r ==> m in ms && EitherSide(m, teamName)
    ensures limit >= 0 ==> |r| <= limit
    ensures SortedDesc(r, ByMatchTime)
    ensures limit >= |ms| ==> forall m :: m in ms && EitherSide(m, teamName) ==> m in r
  {
    var found := Filter(ms, (m: Match) => EitherSide(m, teamName));
    var r := TakeNewest(found, ByMatchTime, limit);
    assert limit >= |ms| ==> multiset(r) == multiset(found);
    r
  }

  /** `offlineSearchByTeam(teamName, limit)` on the fixture. */
  function OfflineSearchByTeam(teamName: string, limit: int): (r: seq<Match>)
    ensures forall m :: m in r ==> m in OFFLINE_MATCHES && EitherSide(m, teamName)
    ensures limit >= 0 ==> |r| <= limit
    ensures SortedDesc(r, ByMatchTime)
    ensures limit >= |OFFLINE_MATCHES| ==> forall m :: m in OFFLINE_MATCHES && EitherSide(m, teamName) ==> m in r
  {
    SearchByTeamIn(OFFLINE_MATCHES, teamName, limit)
  }

  /** Every home and away name of a list of matches. */
  function TeamNames(ms: seq<Match>): (names: set<string>)
    ensures forall n :: n in names <==> exists m :: m in ms && (n == m.homeTeam || n == m.awayTeam)
  {
    if ms == [] then {}
    else
      var init := ms[..|ms| - 1];
      var last := ms[|ms| - 1];
      assert ms == init + [last];
      TeamNames(init) + {last.homeTeam, last.awayTeam}
  }

  /** Every name of a list of matches added to a `Set`, then sorted: the list
      has no duplicates. */
  method SortedTeamNames(ms: seq<Match>) returns (names: seq<string>)
    ensures StrictlyIncreasing(names)
    ensures forall n :: n in names <==> n in TeamNames(ms)
  {
    names := [];
    for i := 0 to |ms|
      invariant StrictlyIncreasing(names)
      invariant forall n :: n in names <==> n in TeamNames(ms[..i])
    {
      var m := ms[i];
      assert ms[..i + 1][..i] == ms[..i];
      names := InsertSorted(names, m.homeTeam);
      names := InsertSorted(names, m.awayTeam);
    }
    assert ms[..|ms|] == ms;
  }

  /** `offlineTeamNames()`: the fixture's names, each once, sorted. */
  method OfflineTeamNames() returns (names: seq<string>)
    ensures StrictlyIncreasing(names)
    ensures forall n :: n in names <==> n in TeamNames(OFFLINE_MATCHES)
  {
    names := SortedTeamNames(OFFLINE_MATCHES);
  }
}
