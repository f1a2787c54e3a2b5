/** The match record every component works on, and the "most recent first"
    ordering the searches, the form estimator and the head-to-head merge use. */
module MatchRecord {
  import opened Basics


  /** One completed fixture. Goals are non-negative; timestamps are integers
      whose order is the order of the source's ISO-8601 timestamps. */
  datatype Match = Match(
    id: int,
    homeTeam: string,
    awayTeam: string,
    homeGoals: nat,
    awayGoals: nat,
    halfTimeHomeGoals: nat,
    halfTimeAwayGoals: nat,
    matchTime: int,
    league: string,
    season: string,
    createdAt: int)

  /** Which timestamp a sort looks at: the kickoff (`match_time`) or the
      insertion time (`created_at`). */
  datatype SortKey = ByMatchTime | ByCreatedAt

  function Key(m: Match, k: SortKey): int {
    match k
    case ByMatchTime => m.matchTime
    case ByCreatedAt => m.createdAt
  }

  /** Most recent first. */
  predicate SortedDesc(s: seq<Match>, k: SortKey) {
    forall i, j :: 0 <= i < j < |s| ==> Key(s[i], k) >= Key(s[j], k)
  }

  /** Puts `x` before the first element that is not more recent than it. */
  function InsertDesc(x: Match, s: seq<Match>, k: SortKey): (r: seq<Match>)
    requires SortedDesc(s, k)
    ensures SortedDesc(r, k)
    ensures multiset(r) == multiset(s) + multiset{x}
  {
    if s == [] then [x]
    else if Key(s[0], k) <= Key(x, k) then
      SortedCons(x, s, k);
      [x] + s
    else
      var rest := InsertDesc(x, s[1..], k);
      HeadBoundsInsertion(s, x, rest, k);
      SortedCons(s[0], rest, k);
      assert s == [s[0]] + s[1..];
      [s[0]] + rest
  }

  /** A list stays sorted when an element at least as recent as all of it is put in front. */
  lemma SortedCons(h: Match, s: seq<Match>, k: SortKey)
    requires SortedDesc(s, k)
    requires forall m :: m in s ==> Key(h, k) >= Key(m, k)
    ensures SortedDesc([h] + s, k)
  {
    var r := [h] + s;
    forall i, j | 0 <= i < j < |r| ensures Key(r[i], k) >= Key(r[j], k) {
      assert r[j] == s[j - 1];
      if i > 0 {
        assert r[i] == s[i - 1];
      }
    }
  }

  /** The head of a sorted list that is more recent than `x` is at least as
      recent as everything of its tail with `x` inserted. */
  lemma HeadBoundsInsertion(s: seq<Match>, x: Match, rest: seq<Match>, k: SortKey)
    requires s != [] && SortedDesc(s, k) && Key(s[0], k) > Key(x, k)
    requires multiset(rest) == multiset(s[1..]) + multiset{x}
    ensures forall m :: m in rest ==> Key(s[0], k) >= Key(m, k)
  {
    forall m | m in rest ensures Key(s[0], k) >= Key(m, k) {
      assert m in multiset(rest);
      if m != x {
        assert m in multiset(s[1..]);
        var j :| 0 <= j < |s[1..]| && s[1..][j] == m;
        assert s[j + 1] == m;
      }
    }
  }

  /** A stable sort, most recent first, as `Array.prototype.sort` with the
      comparator `(a, b) => time(b) - time(a)` gives. */
  function SortDesc(s: seq<Match>, k: SortKey): (r: seq<Match>)
    ensures SortedDesc(r, k)
    ensures multiset(r) == multiset(s)
    ensures |r| == |s|
  {
    if s == [] then []
    else
      assert s == [s[0]] + s[1..];
      var r := InsertDesc(s[0], SortDesc(s[1..], k), k);
      assert |r| == |multiset(r)|;
      r
  }

  /** In a sorted list every element kept by a prefix is at least as recent as
      every element that the prefix drops. */
  lemma PrefixIsMostRecent(s: seq<Match>, k: SortKey, n: nat, x: Match, y: Match)
    requires SortedDesc(s, k) && n <= |s|
    requires x in s[..n] && y in s[n..]
    ensures Key(x, k) >= Key(y, k)
  {
    var i :| 0 <= i < n && s[..n][i] == x;
    var j :| 0 <= j < |s| - n && s[n..][j] == y;
    assert s[i] == x && s[n + j] == y;
  }

  /** A prefix of a sorted list is sorted. */
  lemma PrefixSorted(s: seq<Match>, k: SortKey, n: nat)
    requires SortedDesc(s, k) && n <= |s|
    ensures SortedDesc(s[..n], k)
  {
  }

  /** Everything a prefix keeps comes from the permuted original. */
  lemma PrefixOfPermutation(sorted: seq<Match>, s: seq<Match>, n: nat)
    requires multiset(sorted) == multiset(s) && n <= |sorted|
    ensures forall m :: m in sorted[..n] ==> m in s
  {
    forall m | m in sorted[..n] ensures m in s {
      assert m in sorted;
      assert m in multiset(sorted);
    }
  }

  /** `s.sort(newest first).slice(0, limit)`: the `limit` most recent matches. */
  function TakeNewest(s: seq<Match>, k: SortKey, limit: int): (r: seq<Match>)
    ensures SortedDesc(r, k)
    ensures forall m :: m in r ==> m in s
    ensures limit >= 0 ==> |r| <= limit
    ensures |s| <= limit ==> multiset(r) == multiset(s)
  {
    var sorted := SortDesc(s, k);
    var n := SliceLength(|sorted|, limit);
    PrefixSorted(sorted, k, n);
    PrefixOfPermutation(sorted, s, n);
    assert |s| <= limit ==> sorted[..n] == sorted;
    sorted[..n]
  }
}
