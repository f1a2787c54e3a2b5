/** The baseline prediction engine that runs in the background worker:
    form index, expected goals, empirical both-teams-to-score rate, a
    Poisson grid over the scorelines 0..5 x 0..5 for the outcome and
    over-2.5 markets, the form nudge with clamping and normalisation, the
    confidence score, the key factors, and the worker's message handler.

    `Math.exp` is not modelled: every member that needs a Poisson weight
    takes the exponential as a parameter `exp`. Probabilities are reals. */
module DataProcessor {
  import opened Basics
  import opened MatchRecord

  // ---------------------------------------------------------------------
  // Factorial and the Poisson weight
  // ---------------------------------------------------------------------

  /** n! for n >= 2 and 1 for every smaller n, as `factorial` returns. */
  function Fact(n: int): (r: nat)
    ensures r >= 1
    ensures n >= 1 ==> r >= n
  {
    if n <= 1 then 1 else n * Fact(n - 1)
  }

  /** `factorial`: the loop multiplies 2, 3, ..., n into `result`. */
  method Factorial(n: int) returns (result: int)
    ensures result == Fact(n)
  {
    if n <= 1 {
      return 1;
    }
    result := 1;
    var i := 2;
    while i <= n
      invariant 2 <= i <= n + 1
      invariant result == Fact(i - 1)
    {
      assert Fact(i) == i * Fact(i - 1);
      result := result * i;
      i := i + 1;
    }
  }

  /** `Math.pow(x, k)` for a natural exponent. */
  function Pow(x: real, k: nat): (r: real)
    ensures x >= 0.0 ==> r >= 0.0
    ensures k == 0 ==> r == 1.0
  {
    if k == 0 then 1.0 else x * Pow(x, k - 1)
  }

  /** `poissonProbability(lambda, k)`. A rate that is not positive puts all
      the weight on k = 0; otherwise lambda^k * exp(-lambda) / k!. */
  function Poisson(exp: real -> real, lambda: real, k: nat): (r: real)
    ensures lambda <= 0.0 ==> (r == 1.0 <==> k == 0) && (r == 0.0 <==> k != 0)
    ensures lambda > 0.0 && exp(-lambda) >= 0.0 ==> r >= 0.0
  {
    if lambda <= 0.0 then (if k == 0 then 1.0 else 0.0)
    else Pow(lambda, k) * exp(-lambda) / (Fact(k) as real)
  }

  /** A non-negative exponential of the rate gives non-negative weights. */
  lemma PoissonNonNegative(exp: real -> real, lambda: real, k: nat)
    requires exp(-lambda) >= 0.0
    ensures Poisson(exp, lambda, k) >= 0.0
  {
    if lambda > 0.0 {
      assert exp(-lambda) >= 0.0;
    }
  }

  // ---------------------------------------------------------------------
  // Which matches an estimator looks at
  // ---------------------------------------------------------------------

  /** The team plays on the requested side (exact name equality). A missing
      team name equals no team. */
  predicate PlaysOn(m: Match, team: Option<string>, isHome: bool) {
    if isHome then team == Some(m.homeTeam) else team == Some(m.awayTeam)
  }

  /** `matches.filter(...)` on the requested side, order kept. */
  function Relevant(ms: seq<Match>, team: Option<string>, isHome: bool): (r: seq<Match>)
    ensures forall m :: m in r <==> m in ms && PlaysOn(m, team, isHome)
    ensures multiset(r) <= multiset(ms)
    ensures |r| <= |ms|
  {
    if ms == [] then []
    else
      var last := ms[|ms| - 1];
      assert ms == ms[..|ms| - 1] + [last];
      Relevant(ms[..|ms| - 1], team, isHome) + (if PlaysOn(last, team, isHome) then [last] else [])
  }

  /** A match that does not involve the team on that side changes nothing. */
  lemma RelevantSkips(ms: seq<Match>, m: Match, team: Option<string>, isHome: bool)
    requires !PlaysOn(m, team, isHome)
    ensures Relevant(ms + [m], team, isHome) == Relevant(ms, team, isHome)
  {
    assert (ms + [m])[..|ms + [m]| - 1] == ms;
  }

  // ---------------------------------------------------------------------
  // Form index
  // ---------------------------------------------------------------------

  /** Goals of one side of a match. */
  function SideGoals(m: Match, isHome: bool): nat {
    if isHome then m.homeGoals else m.awayGoals
  }

  /** The team's side scored more than the other side. */
  predicate Won(m: Match, isHome: bool) {
    SideGoals(m, isHome) > SideGoals(m, !isHome)
  }

  function CountWins(s: seq<Match>, isHome: bool): (n: nat)
    ensures n <= |s|
  {
    if s == [] then 0
    else CountWins(s[..|s| - 1], isHome) + (if Won(s[|s| - 1], isHome) then 1 else 0)
  }

  function CountDraws(s: seq<Match>): (n: nat)
    ensures n <= |s|
  {
    if s == [] then 0
    else CountDraws(s[..|s| - 1]) + (if s[|s| - 1].homeGoals == s[|s| - 1].awayGoals then 1 else 0)
  }

  /** Points one match adds in the `forEach` of `calculateFormIndex`. */
  function MatchPoints(m: Match, team: Option<string>, isHome: bool): nat {
    if isHome then
      if team == Some(m.homeTeam) then
        if m.homeGoals > m.awayGoals then 3 else if m.homeGoals == m.awayGoals then 1 else 0
      else 0
    else
      if team == Some(m.awayTeam) then
        if m.awayGoals > m.homeGoals then 3 else if m.awayGoals == m.homeGoals then 1 else 0
      else 0
  }

  /** Total points over a list of matches; never more than 3 per match. */
  function PointsSum(s: seq<Match>, team: Option<string>, isHome: bool): (n: nat)
    ensures n <= 3 * |s|
  {
    if s == [] then 0
    else PointsSum(s[..|s| - 1], team, isHome) + MatchPoints(s[|s| - 1], team, isHome)
  }

  /** On matches the team played on that side, a win is worth 3 and a draw 1. */
  lemma {:induction false} PointsAreWinsAndDraws(s: seq<Match>, team: Option<string>, isHome: bool)
    requires forall m :: m in s ==> PlaysOn(m, team, isHome)
    ensures PointsSum(s, team, isHome) == 3 * CountWins(s, isHome) + CountDraws(s)
  {
    if s != [] {
      var init := s[..|s| - 1];
      assert forall m :: m in init ==> m in s;
      PointsAreWinsAndDraws(init, team, isHome);
      assert s[|s| - 1] in s;
    }
  }

  /** The matches `calculateFormIndex` scores: the relevant ones, most recent
      first, at most five of them. */
  function RecentMatches(ms: seq<Match>, team: Option<string>, isHome: bool): (r: seq<Match>)
    ensures |r| <= 5
  {
    Slice(SortDesc(Relevant(ms, team, isHome), ByMatchTime), 5)
  }

  /** The relevant matches that are not scored (the sorted list past five). */
  function OlderMatches(ms: seq<Match>, team: Option<string>, isHome: bool): seq<Match> {
    var sorted := SortDesc(Relevant(ms, team, isHome), ByMatchTime);
    sorted[|RecentMatches(ms, team, isHome)|..]
  }

  /** Points over three per match, or 0.5 for no match: the rate the
      `forEach` of `calculateFormIndex` computes over the recent matches. */
  function PointsRate(recent: seq<Match>, team: Option<string>, isHome: bool): (r: real)
    ensures 0.0 <= r <= 1.0
    ensures recent == [] ==> r == 0.5
  {
    if |recent| == 0 then 0.5
    else
      var maxPoints := 3 * |recent|;
      var points := PointsSum(recent, team, isHome);
      ShareBounds(points as real, maxPoints as real);
      points as real / maxPoints as real
  }

  /** `calculateFormIndex`: the points rate of the recent matches, or 0.5
      when the team has no match on that side. */
  function FormIndex(ms: seq<Match>, team: Option<string>, isHome: bool): (r: real)
    ensures 0.0 <= r <= 1.0
    ensures Relevant(ms, team, isHome) == [] ==> r == 0.5
  {
    PointsRate(RecentMatches(ms, team, isHome), team, isHome)
  }

  /** Only the five most recent relevant matches count: the scored matches
      and the rest together are exactly the relevant matches, the scored ones
      number min(5, relevant), and none of the rest is more recent than any
      scored match. */
  lemma FormIndexUsesFiveMostRecent(ms: seq<Match>, team: Option<string>, isHome: bool, x: Match, y: Match)
    requires x in RecentMatches(ms, team, isHome) && y in OlderMatches(ms, team, isHome)
    ensures y.matchTime <= x.matchTime
  {
    var sorted := SortDesc(Relevant(ms, team, isHome), ByMatchTime);
    PrefixIsMostRecent(sorted, ByMatchTime, |RecentMatches(ms, team, isHome)|, x, y);
  }

  lemma FormIndexPartition(ms: seq<Match>, team: Option<string>, isHome: bool)
    ensures multiset(RecentMatches(ms, team, isHome)) + multiset(OlderMatches(ms, team, isHome))
            == multiset(Relevant(ms, team, isHome))
    ensures |RecentMatches(ms, team, isHome)| == if |Relevant(ms, team, isHome)| < 5 then |Relevant(ms, team, isHome)| else 5
  {
    var sorted := SortDesc(Relevant(ms, team, isHome), ByMatchTime);
    var n := |RecentMatches(ms, team, isHome)|;
    assert sorted == sorted[..n] + sorted[n..];
  }

  /** Every scored match is one the team played on that side. */
  lemma RecentAreRelevant(ms: seq<Match>, team: Option<string>, isHome: bool)
    ensures forall m :: m in RecentMatches(ms, team, isHome) ==> PlaysOn(m, team, isHome)
  {
    var rel := Relevant(ms, team, isHome);
    var sorted := SortDesc(rel, ByMatchTime);
    forall m | m in RecentMatches(ms, team, isHome) ensures PlaysOn(m, team, isHome) {
      assert m in sorted;
      assert multiset(sorted)[m] > 0;
      assert m in multiset(rel);
    }
  }

  /** The form index is the points rate of the scored matches: 3 per win and
      1 per draw, out of 3 per match. */
  lemma FormIndexIsPointsRate(ms: seq<Match>, team: Option<string>, isHome: bool)
    requires RecentMatches(ms, team, isHome) != []
    ensures var recent := RecentMatches(ms, team, isHome);
            FormIndex(ms, team, isHome)
            == (3 * CountWins(recent, isHome) + CountDraws(recent)) as real / (3 * |recent|) as real
  {
    RecentAreRelevant(ms, team, isHome);
    RateOfPlayedMatches(RecentMatches(ms, team, isHome), team, isHome);
  }

  /** On matches the team played on that side, the points rate counts 3 per
      win and 1 per draw. */
  lemma RateOfPlayedMatches(recent: seq<Match>, team: Option<string>, isHome: bool)
    requires recent != [] && forall m :: m in recent ==> PlaysOn(m, team, isHome)
    ensures PointsRate(recent, team, isHome)
            == (3 * CountWins(recent, isHome) + CountDraws(recent)) as real / (3 * |recent|) as real
  {
    PointsAreWinsAndDraws(recent, team, isHome);
  }

  /** The `forEach` of `calculateFormIndex` over the recent matches. */
  method ScoreRecentMatches(recent: seq<Match>, team: Option<string>, isHome: bool) returns (r: real)
    ensures r == PointsRate(recent, team, isHome)
  {
    var points := 0;
    var maxPoints := 0;
    var i := 0;
    while i < |recent|
      invariant 0 <= i <= |recent|
      invariant points == PointsSum(recent[..i], team, isHome)
      invariant maxPoints == 3 * i
    {
      assert recent[..i + 1][..i] == recent[..i];
      maxPoints := maxPoints + 3;
      points := points + MatchPoints(recent[i], team, isHome);
      i := i + 1;
    }
    assert recent[..i] == recent;
    r := if maxPoints > 0 then points as real / maxPoints as real else 0.5;
  }

  /** `calculateFormIndex`: filter, sort, slice, then score. */
  method CalculateFormIndex(ms: seq<Match>, team: Option<string>, isHome: bool) returns (r: real)
    ensures r == FormIndex(ms, team, isHome)
  {
    var recent := RecentMatches(ms, team, isHome);
    if |recent| == 0 {
      return 0.5;
    }
    r := ScoreRecentMatches(recent, team, isHome);
  }

  // ---------------------------------------------------------------------
  // Expected goals
  // ---------------------------------------------------------------------

  function GoalSum(s: seq<Match>, isHome: bool): nat {
    if s == [] then 0 else GoalSum(s[..|s| - 1], isHome) + SideGoals(s[|s| - 1], isHome)
  }

  /** `calculateExpectedGoals`: the mean goals on that side over every
      relevant match (no cap on their number) times 1.1 at home and 0.9
      away; 1.5, with no multiplier, when there is no relevant match. */
  function ExpectedGoals(ms: seq<Match>, team: Option<string>, isHome: bool): (r: real)
    ensures r >= 0.0
    ensures Relevant(ms, team, isHome) == [] ==> r == 1.5
  {
    var rel := Relevant(ms, team, isHome);
    if |rel| == 0 then 1.5
    else
      var avgGoals := GoalSum(rel, isHome) as real / |rel| as real;
      if isHome then avgGoals * 1.1 else avgGoals * 0.9
  }

  /** The goal total of matches that all scored `g` on that side. */
  lemma {:induction false} GoalSumUniform(s: seq<Match>, isHome: bool, g: nat)
    requires forall m :: m in s ==> SideGoals(m, isHome) == g
    ensures GoalSum(s, isHome) == g * |s|
  {
    if s != [] {
      var init := s[..|s| - 1];
      assert forall m :: m in init ==> m in s;
      GoalSumUniform(init, isHome, g);
      assert s[|s| - 1] in s;
      MulStep(g, |init|);
    }
  }

  lemma MulStep(g: nat, n: nat)
    ensures g * (n + 1) == g * n + g
  {
  }

  /** When every relevant match scored `g` on that side, the estimate is
      g times the side's multiplier, however many matches there are. */
  lemma ExpectedGoalsOfUniformHistory(ms: seq<Match>, team: Option<string>, isHome: bool, g: nat)
    requires Relevant(ms, team, isHome) != []
    requires forall m :: m in ms && PlaysOn(m, team, isHome) ==> SideGoals(m, isHome) == g
    ensures ExpectedGoals(ms, team, isHome) == g as real * (if isHome then 1.1 else 0.9)
  {
    var rel := Relevant(ms, team, isHome);
    GoalSumUniform(rel, isHome, g);
    MeanOfUniform(GoalSum(rel, isHome), g, |rel|);
  }

  /** A total of g per item over n items averages to g. */
  lemma MeanOfUniform(total: nat, g: nat, n: nat)
    requires n > 0 && total == g * n
    ensures total as real / n as real == g as real
  {
    CastProduct(g, n);
    DivideMultiple(g as real, n as real);
  }

  /** Adding a match the team did not play on that side leaves the estimate alone. */
  lemma ExpectedGoalsIgnoresOtherMatches(ms: seq<Match>, m: Match, team: Option<string>, isHome: bool)
    requires !PlaysOn(m, team, isHome)
    ensures ExpectedGoals(ms + [m], team, isHome) == ExpectedGoals(ms, team, isHome)
    ensures FormIndex(ms + [m], team, isHome) == FormIndex(ms, team, isHome)
  {
    RelevantSkips(ms, m, team, isHome);
  }

  // ---------------------------------------------------------------------
  // Both teams to score
  // ---------------------------------------------------------------------

  predicate BothScored(m: Match) { m.homeGoals > 0 && m.awayGoals > 0 }

  function CountBothScored(s: seq<Match>): (n: nat)
    ensures n <= |s|
    ensures n == 0 <==> forall m :: m in s ==> !BothScored(m)
    ensures n == |s| <==> forall m :: m in s ==> BothScored(m)
  {
    if s == [] then 0
    else
      assert forall m :: m in s <==> m in s[..|s| - 1] || m == s[|s| - 1] by {
        assert s == s[..|s| - 1] + [s[|s| - 1]];
      }
      CountBothScored(s[..|s| - 1]) + (if BothScored(s[|s| - 1]) then 1 else 0)
  }

  /** `calculateBTTSProbability`: the share of the head-to-head matches in
      which both sides scored, or 0.5 when there is none. */
  function BttsProbability(ms: seq<Match>): (r: real)
    ensures 0.0 <= r <= 1.0
    ensures ms == [] ==> r == 0.5
    ensures ms != [] ==> (r == 1.0 <==> forall m :: m in ms ==> BothScored(m))
    ensures ms != [] ==> (r == 0.0 <==> forall m :: m in ms ==> !BothScored(m))
  {
    if |ms| == 0 then 0.5
    else
      ShareBounds(CountBothScored(ms) as real, |ms| as real);
      CountBothScored(ms) as real / |ms| as real
  }

  // ---------------------------------------------------------------------
  // The scoreline grid
  // ---------------------------------------------------------------------

  /** Weight of the scoreline i-j. */
  function Cell(exp: real -> real, hx: real, ax: real, i: nat, j: nat): real {
    Poisson(exp, hx, i) * Poisson(exp, ax, j)
  }

  /** Home win, draw and away win weights. */
  datatype Outcome = Outcome(home: real, draw: real, away: real)

  /** Adds the weight `p` of the scoreline h-a to the bucket it belongs to. */
  function AddCell(o: Outcome, h: nat, a: nat, p: real): (r: Outcome)
    ensures r.home + r.draw + r.away == o.home + o.draw + o.away + p
    ensures h > a ==> r == o.(home := o.home + p)
    ensures h == a ==> r == o.(draw := o.draw + p)
    ensures h < a ==> r == o.(away := o.away + p)
  {
    if h > a then Outcome(o.home + p, o.draw, o.away)
    else if h == a then Outcome(o.home, o.draw + p, o.away)
    else Outcome(o.home, o.draw, o.away + p)
  }

  /** The buckets after the inner loop has visited the scorelines h-0 .. h-(a-1),
      starting from `o`. */
  function GridRow(exp: real -> real, hx: real, ax: real, o: Outcome, h: nat, a: nat): Outcome {
    if a == 0 then o
    else AddCell(GridRow(exp, hx, ax, o, h, a - 1), h, a - 1, Cell(exp, hx, ax, h, a - 1))
  }

  /** The buckets after the outer loop has visited the home scores 0 .. h-1,
      each against the away scores 0 .. 5. */
  function GridOutcome(exp: real -> real, hx: real, ax: real, h: nat): Outcome {
    if h == 0 then Outcome(0.0, 0.0, 0.0)
    else GridRow(exp, hx, ax, GridOutcome(exp, hx, ax, h - 1), h - 1, 6)
  }

  /** Sum of the weights of the scorelines h-0 .. h-(a-1). */
  function RowMass(exp: real -> real, hx: real, ax: real, h: nat, a: nat): real {
    if a == 0 then 0.0 else RowMass(exp, hx, ax, h, a - 1) + Cell(exp, hx, ax, h, a - 1)
  }

  /** Sum of the weights of the whole rows 0 .. h-1. */
  function GridMass(exp: real -> real, hx: real, ax: real, h: nat): real {
    if h == 0 then 0.0 else GridMass(exp, hx, ax, h - 1) + RowMass(exp, hx, ax, h - 1, 6)
  }

  /** Every cell of a row goes to exactly one bucket. */
  lemma {:induction false} GridRowSplitsMass(exp: real -> real, hx: real, ax: real, o: Outcome, h: nat, a: nat)
    ensures var r := GridRow(exp, hx, ax, o, h, a);
            r.home + r.draw + r.away == o.home + o.draw + o.away + RowMass(exp, hx, ax, h, a)
  {
    if a > 0 {
      GridRowSplitsMass(exp, hx, ax, o, h, a - 1);
    }
  }

  /** The three buckets together hold the whole weight of the grid visited so far. */
  lemma {:induction false} GridOutcomeSplitsMass(exp: real -> real, hx: real, ax: real, h: nat)
    ensures var o := GridOutcome(exp, hx, ax, h); o.home + o.draw + o.away == GridMass(exp, hx, ax, h)
  {
    if h > 0 {
      GridOutcomeSplitsMass(exp, hx, ax, h - 1);
      GridRowSplitsMass(exp, hx, ax, GridOutcome(exp, hx, ax, h - 1), h - 1, 6);
    }
  }

  lemma CellNonNegative(exp: real -> real, hx: real, ax: real, i: nat, j: nat)
    requires exp(-hx) >= 0.0 && exp(-ax) >= 0.0
    ensures Cell(exp, hx, ax, i, j) >= 0.0
  {
    PoissonNonNegative(exp, hx, i);
    PoissonNonNegative(exp, ax, j);
    MulLe(Poisson(exp, hx, i), 0.0, Poisson(exp, ax, j));
  }

  predicate NonNegative(o: Outcome) { o.home >= 0.0 && o.draw >= 0.0 && o.away >= 0.0 }

  lemma {:induction false} GridRowNonNegative(exp: real -> real, hx: real, ax: real, o: Outcome, h: nat, a: nat)
    requires exp(-hx) >= 0.0 && exp(-ax) >= 0.0
    requires NonNegative(o)
    ensures NonNegative(GridRow(exp, hx, ax, o, h, a))
  {
    if a > 0 {
      GridRowNonNegative(exp, hx, ax, o, h, a - 1);
      CellNonNegative(exp, hx, ax, h, a - 1);
    }
  }

  /** With non-negative exponentials of the two rates every bucket is non-negative. */
  lemma {:induction false} GridOutcomeNonNegative(exp: real -> real, hx: real, ax: real, h: nat)
    requires exp(-hx) >= 0.0 && exp(-ax) >= 0.0
    ensures NonNegative(GridOutcome(exp, hx, ax, h))
  {
    if h > 0 {
      GridOutcomeNonNegative(exp, hx, ax, h - 1);
      GridRowNonNegative(exp, hx, ax, GridOutcome(exp, hx, ax, h - 1), h - 1, 6);
    }
  }

  /** A row whose cells all weigh nothing leaves the buckets as they were. */
  lemma {:induction false} GridRowOfZeroCells(exp: real -> real, hx: real, ax: real, o: Outcome, h: nat, a: nat)
    requires forall j :: 0 <= j < a ==> Cell(exp, hx, ax, h, j) == 0.0
    ensures GridRow(exp, hx, ax, o, h, a) == o
  {
    if a > 0 {
      GridRowOfZeroCells(exp, hx, ax, o, h, a - 1);
    }
  }

  /** Two rates that are not positive put all the weight on 0-0, a draw. */
  lemma {:induction false} GridOutcomeOfZeroRates(exp: real -> real, hx: real, ax: real, h: nat)
    requires 1 <= h && hx <= 0.0 && ax <= 0.0
    ensures GridOutcome(exp, hx, ax, h) == Outcome(0.0, 1.0, 0.0)
  {
    if h == 1 {
      RowShift(exp, hx, ax, Outcome(0.0, 0.0, 0.0), 0, 6);
    } else {
      GridOutcomeOfZeroRates(exp, hx, ax, h - 1);
      GridRowOfZeroCells(exp, hx, ax, Outcome(0.0, 1.0, 0.0), h - 1, 6);
    }
  }

  /** Row 0 with two non-positive rates: after its first cell nothing is added. */
  lemma {:induction false} RowShift(exp: real -> real, hx: real, ax: real, o: Outcome, h: nat, a: nat)
    requires 1 <= a && hx <= 0.0 && ax <= 0.0 && h == 0
    ensures GridRow(exp, hx, ax, o, h, a) == GridRow(exp, hx, ax, o, h, 1)
  {
    if a > 1 {
      RowShift(exp, hx, ax, o, h, a - 1);
    }
  }

  /** Weight of the scorelines h-0 .. h-(a-1) with at most two goals, added to `acc`. */
  function UnderRow(exp: real -> real, hx: real, ax: real, acc: real, h: nat, a: nat): real {
    if a == 0 then acc
    else UnderRow(exp, hx, ax, acc, h, a - 1) + (if h + (a - 1) <= 2 then Cell(exp, hx, ax, h, a - 1) else 0.0)
  }

  /** Weight of the scorelines of rows 0 .. h-1 with at most two goals. */
  function GridUnder(exp: real -> real, hx: real, ax: real, h: nat): real {
    if h == 0 then 0.0 else UnderRow(exp, hx, ax, GridUnder(exp, hx, ax, h - 1), h - 1, 6)
  }

  /** Past the third cell of a row, nothing more has at most two goals when
      the row starts at 0; past cell 3 - h in general. */
  lemma {:induction false} UnderRowTail(exp: real -> real, hx: real, ax: real, acc: real, h: nat, a: nat)
    requires h <= 3 && 3 - h <= a
    ensures UnderRow(exp, hx, ax, acc, h, a) == UnderRow(exp, hx, ax, acc, h, 3 - h)
  {
    if a > 3 - h {
      UnderRowTail(exp, hx, ax, acc, h, a - 1);
    }
  }

  /** Rows with three or more home goals add nothing to the under weight. */
  lemma {:induction false} UnderRowHigh(exp: real -> real, hx: real, ax: real, acc: real, h: nat, a: nat)
    requires h >= 3
    ensures UnderRow(exp, hx, ax, acc, h, a) == acc
  {
    if a > 0 {
      UnderRowHigh(exp, hx, ax, acc, h, a - 1);
    }
  }

  /** The under-2.5 weight is the sum of the six scorelines 0-0, 0-1, 0-2,
      1-0, 1-1 and 2-0. */
  lemma GridUnderIsSixCells(exp: real -> real, hx: real, ax: real)
    ensures GridUnder(exp, hx, ax, 6)
            == Cell(exp, hx, ax, 0, 0) + Cell(exp, hx, ax, 0, 1) + Cell(exp, hx, ax, 0, 2)
             + Cell(exp, hx, ax, 1, 0) + Cell(exp, hx, ax, 1, 1) + Cell(exp, hx, ax, 2, 0)
  {
    var r0 := GridUnder(exp, hx, ax, 1);
    UnderRowTail(exp, hx, ax, 0.0, 0, 6);
    assert UnderRow(exp, hx, ax, 0.0, 0, 1) == Cell(exp, hx, ax, 0, 0);
    assert UnderRow(exp, hx, ax, 0.0, 0, 2) == Cell(exp, hx, ax, 0, 0) + Cell(exp, hx, ax, 0, 1);
    assert GridUnder(exp, hx, ax, 0) == 0.0;
    assert r0 == UnderRow(exp, hx, ax, GridUnder(exp, hx, ax, 0), 0, 6);
    assert r0 == UnderRow(exp, hx, ax, 0.0, 0, 3);
    assert r0 == Cell(exp, hx, ax, 0, 0) + Cell(exp, hx, ax, 0, 1) + Cell(exp, hx, ax, 0, 2);
    var r1 := GridUnder(exp, hx, ax, 2);
    UnderRowTail(exp, hx, ax, r0, 1, 6);
    assert UnderRow(exp, hx, ax, r0, 1, 1) == r0 + Cell(exp, hx, ax, 1, 0);
    assert r1 == r0 + Cell(exp, hx, ax, 1, 0) + Cell(exp, hx, ax, 1, 1);
    var r2 := GridUnder(exp, hx, ax, 3);
    UnderRowTail(exp, hx, ax, r1, 2, 6);
    assert r2 == r1 + Cell(exp, hx, ax, 2, 0);
    UnderRowHigh(exp, hx, ax, r2, 3, 6);
    UnderRowHigh(exp, hx, ax, GridUnder(exp, hx, ax, 4), 4, 6);
    UnderRowHigh(exp, hx, ax, GridUnder(exp, hx, ax, 5), 5, 6);
  }

  /** `calculateOver25Probability`: one minus the under-2.5 weight, clamped
      to [0, 1] (not to 0.95). */
  function Over25(exp: real -> real, hx: real, ax: real): (r: real)
    ensures 0.0 <= r <= 1.0
    ensures var u := GridUnder(exp, hx, ax, 6); 0.0 <= u <= 1.0 ==> r == 1.0 - u
  {
    Clamp(0.0, 1.0, 1.0 - GridUnder(exp, hx, ax, 6))
  }

  /** Two rates that are not positive make over 2.5 impossible. */
  lemma Over25OfZeroRates(exp: real -> real, hx: real, ax: real)
    requires hx <= 0.0 && ax <= 0.0
    ensures Over25(exp, hx, ax) == 0.0
  {
    GridUnderIsSixCells(exp, hx, ax);
  }

  /** `calculateOver25Probability` with its nested loops. */
  method CalculateOver25Probability(exp: real -> real, hx: real, ax: real) returns (r: real)
    ensures r == Over25(exp, hx, ax)
  {
    var probability := 0.0;
    var h := 0;
    while h <= 5
      invariant 0 <= h <= 6
      invariant probability == GridUnder(exp, hx, ax, h)
    {
      var a := 0;
      while a <= 5
        invariant 0 <= a <= 6
        invariant probability == UnderRow(exp, hx, ax, GridUnder(exp, hx, ax, h), h, a)
      {
        ghost var before := probability;
        if h + a <= 2 {
          probability := probability + Poisson(exp, hx, h) * Poisson(exp, ax, a);
        }
        assert probability == before + (if h + a <= 2 then Cell(exp, hx, ax, h, a) else 0.0);
        a := a + 1;
      }
      h := h + 1;
    }
    r := Clamp(0.0, 1.0, 1.0 - probability);
  }

  // ---------------------------------------------------------------------
  // Form nudge, clamping and normalisation
  // ---------------------------------------------------------------------

  /** The form sensitivity of `calculateBaseline`. */
  const FORM_SENSITIVITY: real := 0.2

  /** Home and away weights moved by 0.2 times the form difference and
      clamped to [0.05, 0.9]; the draw becomes what is left, at least 0.05.
      The grid's own draw weight is discarded. */
  function ClampOutcome(raw: Outcome, homeForm: real, awayForm: real): (c: Outcome)
    ensures 0.05 <= c.home <= 0.9 && 0.05 <= c.away <= 0.9 && c.draw >= 0.05
    ensures c.home + c.away <= 0.95 ==> c.home + c.draw + c.away == 1.0
    ensures c.home + c.away > 0.95 ==> c.draw == 0.05
  {
    var adjustment := (homeForm - awayForm) * FORM_SENSITIVITY;
    var h := Clamp(0.05, 0.9, raw.home + adjustment);
    var a := Clamp(0.05, 0.9, raw.away - adjustment);
    Outcome(h, MaxReal(0.05, 1.0 - h - a), a)
  }

  /** Division by the total: three values in (0, 1) that sum to one. */
  function Normalize(c: Outcome): (r: Outcome)
    requires c.home > 0.0 && c.draw > 0.0 && c.away > 0.0
    ensures r.home + r.draw + r.away == 1.0
    ensures 0.0 < r.home < 1.0 && 0.0 < r.draw < 1.0 && 0.0 < r.away < 1.0
  {
    var total := c.home + c.draw + c.away;
    var r := Outcome(c.home / total, c.draw / total, c.away / total);
    assert r.home + r.draw + r.away == (c.home + c.draw + c.away) / total;
    r
  }

  /** The outcome step of `calculateBaseline` after the grid. */
  function AdjustOutcome(raw: Outcome, homeForm: real, awayForm: real): (r: Outcome)
    ensures r.home + r.draw + r.away == 1.0
    ensures 0.0 < r.home < 1.0 && 0.0 < r.draw < 1.0 && 0.0 < r.away < 1.0
  {
    Normalize(ClampOutcome(raw, homeForm, awayForm))
  }

  /** When clamped home and away leave at least 0.05 for the draw, the
      normalisation changes nothing. */
  lemma NormalizeKeepsRoomyOutcome(raw: Outcome, homeForm: real, awayForm: real)
    requires var c := ClampOutcome(raw, homeForm, awayForm); c.home + c.away <= 0.95
    ensures AdjustOutcome(raw, homeForm, awayForm) == ClampOutcome(raw, homeForm, awayForm)
  {
  }

  /** The grid's draw weight has no influence on the result. */
  lemma AdjustIgnoresGridDraw(raw: Outcome, d: real, homeForm: real, awayForm: real)
    ensures AdjustOutcome(raw, homeForm, awayForm) == AdjustOutcome(raw.(draw := d), homeForm, awayForm)
  {
  }

  /** h / max(1, h + a + 0.05), which is what the home probability works out
      to from clamped home h and away a. */
  lemma HomeShare(c: Outcome)
    requires 0.05 <= c.home && 0.05 <= c.away
    requires c.draw == MaxReal(0.05, 1.0 - c.home - c.away)
    ensures Normalize(c).home == c.home / MaxReal(1.0, c.home + c.away + 0.05)
  {
  }

  lemma CrossMultiply(a: real, b: real, c: real, d: real)
    requires b > 0.0 && d > 0.0 && a * d <= c * b
    ensures a / b <= c / d
  {
    assert a / b == (a * d) / (b * d);
    assert c / d == (c * b) / (b * d);
  }

  /** h / max(1, h + a + 0.05) grows with h and shrinks with a. */
  lemma HomeShareMonotone(h1: real, a1: real, h2: real, a2: real)
    requires 0.05 <= h1 <= h2 && 0.05 <= a2 <= a1
    ensures h1 / MaxReal(1.0, h1 + a1 + 0.05) <= h2 / MaxReal(1.0, h2 + a2 + 0.05)
  {
    var t1 := MaxReal(1.0, h1 + a1 + 0.05);
    var t2 := MaxReal(1.0, h2 + a2 + 0.05);
    if t1 >= t2 {
      CrossTermsShrinking(h1, h2, t1, t2);
    } else if h1 + a1 + 0.05 >= 1.0 {
      assert t1 == h1 + a1 + 0.05 && t2 == h2 + a2 + 0.05;
      CrossTermsFull(h1, a1, h2, a2);
      assert h1 * t2 <= h2 * t1;
    } else {
      assert t1 == 1.0 && t2 == h2 + a2 + 0.05;
      CrossTermsShort(h1, a1, h2, a2);
      assert h1 * t2 <= h2 * t1;
    }
    CrossMultiply(h1, t1, h2, t2);
  }

  /** The cross-multiplied form when the first total is the larger. */
  lemma CrossTermsShrinking(h1: real, h2: real, t1: real, t2: real)
    requires 0.0 <= h1 <= h2 && 0.0 <= t2 <= t1
    ensures h1 * t2 <= h2 * t1
  {
    MulLe(h1, t2, t1);
    MulLe(t1, h1, h2);
  }

  /** The cross-multiplied form when both totals exceed one. */
  lemma CrossTermsFull(h1: real, a1: real, h2: real, a2: real)
    requires 0.05 <= h1 <= h2 && 0.05 <= a2 <= a1
    ensures h1 * (h2 + a2 + 0.05) <= h2 * (h1 + a1 + 0.05)
  {
    MulLe(h1, a2 + 0.05, a1 + 0.05);
    MulLe(a1 + 0.05, h1, h2);
  }

  /** The cross-multiplied form when only the second total exceeds one. */
  lemma CrossTermsShort(h1: real, a1: real, h2: real, a2: real)
    requires 0.05 <= h1 <= h2 && 0.05 <= a2 <= a1 && h1 + a1 + 0.05 < 1.0
    ensures h1 * (h2 + a2 + 0.05) <= h2 * 1.0
  {
    calc {
      h1 * (h2 + a2 + 0.05);
      h1 * h2 + h1 * (a2 + 0.05);
    <= { MulLe(h1, a2 + 0.05, a1 + 0.05); }
      h1 * h2 + h1 * (a1 + 0.05);
    <= { MulLe(h1, a1 + 0.05, 1.0 - h1); }
      h1 * h2 + h1 * (1.0 - h1);
    <= { MulLe(1.0 - h1, h1, h2); }
      h1 * h2 + h2 * (1.0 - h1);
      h2 * 1.0;
    }
  }

  /** A better home form (or a worse away form) never lowers the home win
      probability. */
  lemma AdjustMonotoneInForm(raw: Outcome, hf1: real, af1: real, hf2: real, af2: real)
    requires hf1 - af1 <= hf2 - af2
    ensures AdjustOutcome(raw, hf1, af1).home <= AdjustOutcome(raw, hf2, af2).home
  {
    var c1 := ClampOutcome(raw, hf1, af1);
    var c2 := ClampOutcome(raw, hf2, af2);
    HomeShare(c1);
    HomeShare(c2);
    HomeShareMonotone(c1.home, c1.away, c2.home, c2.away);
  }

  // ---------------------------------------------------------------------
  // Confidence and key factors
  // ---------------------------------------------------------------------

  /** 0.3, plus 0.03 per head-to-head match up to 0.3, plus 0.01 per match of
      each team up to 0.2 each. */
  function Confidence(h2h: nat, home: nat, away: nat): (r: real)
    ensures 0.3 <= r <= 1.0
    ensures h2h == 0 && home == 0 && away == 0 ==> r == 0.3
    ensures r == 1.0 <==> h2h >= 10 && home >= 20 && away >= 20
  {
    0.3 + MinReal(0.3, h2h as real * 0.03) + MinReal(0.2, home as real * 0.01)
        + MinReal(0.2, away as real * 0.01)
  }

  lemma ConfidenceMonotone(h1: nat, m1: nat, a1: nat, h2: nat, m2: nat, a2: nat)
    requires h1 <= h2 && m1 <= m2 && a1 <= a2
    ensures Confidence(h1, m1, a1) <= Confidence(h2, m2, a2)
  {
  }

  /** How a team name prints in a template literal; a missing one prints as "undefined". */
  function TeamLabel(team: Option<string>): string {
    team.GetOr("undefined")
  }

  /** The suffixes of the two form factors. */
  const EXCELLENT_FORM: string := " excellent form"
  const POOR_FORM: string := " poor form"

  /** The form rule for one team: excellent above 0.7, otherwise poor below 0.3. */
  function FormFactor(team: Option<string>, form: real): (r: seq<string>)
    ensures |r| <= 1
  {
    if form > 0.7 then [TeamLabel(team) + EXCELLENT_FORM]
    else if form < 0.3 then [TeamLabel(team) + POOR_FORM]
    else []
  }

  function Flag(holds: bool, factor: string): (r: seq<string>)
    ensures |r| <= 1
  {
    if holds then [factor] else []
  }

  /** The texts of the five fixed factors. */
  const HIGH_SCORING_HOME: string := "High-scoring home team"
  const HIGH_SCORING_AWAY: string := "High-scoring away team"
  const BTTS_LIKELY: string := "Both teams likely to score"
  const OVER25_LIKELY: string := "High-scoring match expected"
  const STRONG_H2H: string := "Strong H2H history"

  /** The five factors with a fixed text, in the source's order. */
  function FixedFactors(homeXG: real, awayXG: real, btts: real, over25: real, h2hCount: nat): (r: seq<string>)
    ensures |r| <= 5
  {
    Flag(homeXG > 2.5, HIGH_SCORING_HOME) + Flag(awayXG > 2.5, HIGH_SCORING_AWAY)
    + Flag(btts > 0.7, BTTS_LIKELY) + Flag(over25 > 0.7, OVER25_LIKELY)
    + Flag(h2hCount > 10, STRONG_H2H)
  }

  /** The key factors: the two form rules, then the five fixed rules, one
      push after another. */
  function KeyFactors(homeTeam: Option<string>, awayTeam: Option<string>, homeForm: real, awayForm: real, homeXG: real, awayXG: real, btts: real, over25: real, h2hCount: nat): (r: seq<string>)
    ensures |r| <= 7
    ensures r == FormFactor(homeTeam, homeForm) + FormFactor(awayTeam, awayForm)
                 + FixedFactors(homeXG, awayXG, btts, over25, h2hCount)
  {
    var forms := FormFactor(homeTeam, homeForm) + FormFactor(awayTeam, awayForm);
    var f1 := Flag(homeXG > 2.5, HIGH_SCORING_HOME);
    var f2 := Flag(awayXG > 2.5, HIGH_SCORING_AWAY);
    var f3 := Flag(btts > 0.7, BTTS_LIKELY);
    var f4 := Flag(over25 > 0.7, OVER25_LIKELY);
    var f5 := Flag(h2hCount > 10, STRONG_H2H);
    AppendAssoc5(forms, f1, f2, f3, f4, f5);
    forms + f1 + f2 + f3 + f4 + f5
  }

  /** Pushing five pieces one after the other is appending their concatenation. */
  lemma AppendAssoc5<T>(s: seq<T>, a: seq<T>, b: seq<T>, c: seq<T>, d: seq<T>, e: seq<T>)
    ensures s + a + b + c + d + e == s + (a + b + c + d + e)
  {
    assert s + a + b == s + (a + b);
    assert s + (a + b) + c == s + (a + b + c);
    assert s + (a + b + c) + d == s + (a + b + c + d);
  }

  /** Two strings whose n-th characters from the end differ are different,
      whatever precedes them. */
  lemma TailsDiffer(x: string, s: string, y: string, t: string, n: nat)
    requires 1 <= n <= |s| && n <= |t| && s[|s| - n] != t[|t| - n]
    ensures x + s != y + t
  {
    var u, v := x + s, y + t;
    if |u| == |v| {
      assert u[|u| - n] == s[|s| - n];
      assert v[|v| - n] == t[|t| - n];
    }
  }

  /** "form" ends every form factor. */
  predicate EndsInRm(f: string) {
    |f| >= 2 && f[|f| - 2] == 'r' && f[|f| - 1] == 'm'
  }

  lemma FormFactorsEndInRm(name: string)
    ensures EndsInRm(name + EXCELLENT_FORM) && EndsInRm(name + POOR_FORM)
  {
    var e, p := name + EXCELLENT_FORM, name + POOR_FORM;
    assert e[|e| - 2..] == EXCELLENT_FORM[13..];
    assert p[|p| - 2..] == POOR_FORM[8..];
  }

  /** None of the fixed factors ends in "rm", so none is a form factor. */
  lemma FixedFactorsDoNotEndInRm(homeXG: real, awayXG: real, btts: real, over25: real, h2hCount: nat)
    ensures forall f :: f in FixedFactors(homeXG, awayXG, btts, over25, h2hCount) ==> !EndsInRm(f)
  {
    assert !EndsInRm(HIGH_SCORING_HOME) && !EndsInRm(HIGH_SCORING_AWAY);
    assert !EndsInRm(BTTS_LIKELY) && !EndsInRm(OVER25_LIKELY);
    assert !EndsInRm(STRONG_H2H);
  }

  /** Each fixed factor is listed exactly when its threshold is passed. */
  lemma FixedFactorsRules(homeXG: real, awayXG: real, btts: real, over25: real, h2hCount: nat)
    ensures var r := FixedFactors(homeXG, awayXG, btts, over25, h2hCount);
            (STRONG_H2H in r <==> h2hCount > 10)
            && (HIGH_SCORING_HOME in r <==> homeXG > 2.5)
            && (HIGH_SCORING_AWAY in r <==> awayXG > 2.5)
            && (BTTS_LIKELY in r <==> btts > 0.7)
            && (OVER25_LIKELY in r <==> over25 > 0.7)
  {
    assert HIGH_SCORING_HOME[13] != HIGH_SCORING_AWAY[13];
  }

  /** "Strong H2H history" is listed exactly when there are more than ten
      head-to-head matches; the other fixed factors follow their thresholds
      in the same way, whatever the teams' forms. */
  lemma KeyFactorsFixedRules(homeTeam: Option<string>, awayTeam: Option<string>, homeForm: real, awayForm: real, homeXG: real, awayXG: real, btts: real, over25: real, h2hCount: nat)
    ensures var r := KeyFactors(homeTeam, awayTeam, homeForm, awayForm, homeXG, awayXG, btts, over25, h2hCount);
            (STRONG_H2H in r <==> h2hCount > 10)
            && (HIGH_SCORING_HOME in r <==> homeXG > 2.5)
            && (HIGH_SCORING_AWAY in r <==> awayXG > 2.5)
            && (BTTS_LIKELY in r <==> btts > 0.7)
            && (OVER25_LIKELY in r <==> over25 > 0.7)
  {
    FixedFactorsRules(homeXG, awayXG, btts, over25, h2hCount);
    FixedNotAFormFactor(HIGH_SCORING_HOME, homeTeam, awayTeam, homeForm, awayForm);
    FixedNotAFormFactor(HIGH_SCORING_AWAY, homeTeam, awayTeam, homeForm, awayForm);
    FixedNotAFormFactor(BTTS_LIKELY, homeTeam, awayTeam, homeForm, awayForm);
    FixedNotAFormFactor(OVER25_LIKELY, homeTeam, awayTeam, homeForm, awayForm);
    FixedNotAFormFactor(STRONG_H2H, homeTeam, awayTeam, homeForm, awayForm);
  }

  /** A text that does not end in "rm" is not among the form factors. */
  lemma FixedNotAFormFactor(f: string, homeTeam: Option<string>, awayTeam: Option<string>, homeForm: real, awayForm: real)
    requires !EndsInRm(f)
    ensures f !in FormFactor(homeTeam, homeForm) + FormFactor(awayTeam, awayForm)
  {
    FormFactorsEndInRm(TeamLabel(homeTeam));
    FormFactorsEndInRm(TeamLabel(awayTeam));
  }

  /** Appending the same suffix to two different names keeps them different. */
  lemma SuffixKeepsNamesApart(h: string, a: string, suffix: string)
    requires h != a
    ensures h + suffix != a + suffix
  {
    if |h| == |a| {
      assert (h + suffix)[..|h|] == h && (a + suffix)[..|a|] == a;
    }
  }

  /** A team's own form factor says "excellent" exactly above 0.7 and "poor"
      exactly below 0.3. */
  lemma OwnFormFactor(team: Option<string>, form: real)
    ensures var r, x := FormFactor(team, form), TeamLabel(team);
            (x + EXCELLENT_FORM in r <==> form > 0.7) && (x + POOR_FORM in r <==> form < 0.3)
  {
    var x := TeamLabel(team);
    TailsDiffer(x, EXCELLENT_FORM, x, POOR_FORM, 6);
  }

  /** The other team's form factor never names this team. */
  lemma OtherFormFactor(x: string, team: Option<string>, form: real)
    requires x != TeamLabel(team)
    ensures x + EXCELLENT_FORM !in FormFactor(team, form) && x + POOR_FORM !in FormFactor(team, form)
  {
    var y := TeamLabel(team);
    SuffixKeepsNamesApart(x, y, EXCELLENT_FORM);
    SuffixKeepsNamesApart(x, y, POOR_FORM);
    TailsDiffer(x, EXCELLENT_FORM, y, POOR_FORM, 6);
    TailsDiffer(x, POOR_FORM, y, EXCELLENT_FORM, 6);
  }

  /** No fixed factor names a team's form. */
  lemma FormNotAFixedFactor(x: string, homeXG: real, awayXG: real, btts: real, over25: real, h2hCount: nat)
    ensures x + EXCELLENT_FORM !in FixedFactors(homeXG, awayXG, btts, over25, h2hCount)
    ensures x + POOR_FORM !in FixedFactors(homeXG, awayXG, btts, over25, h2hCount)
  {
    FormFactorsEndInRm(x);
    FixedFactorsDoNotEndInRm(homeXG, awayXG, btts, over25, h2hCount);
  }

  /** For two differently named teams, a team is listed in excellent form
      exactly when its form index is above 0.7 and in poor form exactly when
      it is below 0.3. */
  lemma KeyFactorsFormRules(homeTeam: Option<string>, awayTeam: Option<string>, homeForm: real, awayForm: real, homeXG: real, awayXG: real, btts: real, over25: real, h2hCount: nat)
    requires TeamLabel(homeTeam) != TeamLabel(awayTeam)
    ensures var r := KeyFactors(homeTeam, awayTeam, homeForm, awayForm, homeXG, awayXG, btts, over25, h2hCount);
            var h, a := TeamLabel(homeTeam), TeamLabel(awayTeam);
            (h + EXCELLENT_FORM in r <==> homeForm > 0.7)
            && (h + POOR_FORM in r <==> homeForm < 0.3)
            && (a + EXCELLENT_FORM in r <==> awayForm > 0.7)
            && (a + POOR_FORM in r <==> awayForm < 0.3)
  {
    var h, a := TeamLabel(homeTeam), TeamLabel(awayTeam);
    OwnFormFactor(homeTeam, homeForm);
    OwnFormFactor(awayTeam, awayForm);
    OtherFormFactor(h, awayTeam, awayForm);
    OtherFormFactor(a, homeTeam, homeForm);
    FormNotAFixedFactor(h, homeXG, awayXG, btts, over25, h2hCount);
    FormNotAFixedFactor(a, homeXG, awayXG, btts, over25, h2hCount);
  }

  /** Each team gets at most one of the two form factors. */
  lemma KeyFactorsOneFormPerTeam(homeTeam: Option<string>, awayTeam: Option<string>, homeForm: real, awayForm: real, homeXG: real, awayXG: real, btts: real, over25: real, h2hCount: nat)
    requires TeamLabel(homeTeam) != TeamLabel(awayTeam)
    ensures var r := KeyFactors(homeTeam, awayTeam, homeForm, awayForm, homeXG, awayXG, btts, over25, h2hCount);
            var h, a := TeamLabel(homeTeam), TeamLabel(awayTeam);
            !(h + EXCELLENT_FORM in r && h + POOR_FORM in r) && !(a + EXCELLENT_FORM in r && a + POOR_FORM in r)
  {
    KeyFactorsFormRules(homeTeam, awayTeam, homeForm, awayForm, homeXG, awayXG, btts, over25, h2hCount);
  }

  // ---------------------------------------------------------------------
  // The baseline prediction
  // ---------------------------------------------------------------------

  datatype Prediction = Prediction(
    homeWin: real,
    draw: real,
    awayWin: real,
    btts: real,
    over25: real,
    confidence: real,
    keyFactors: seq<string>,
    modelVersion: string,
    predictionSource: string)

  const MODEL_VERSION: string := "baseline-v1.0"
  const LOCAL_SOURCE: string := "local"

  /** `calculateBaseline`. Form and expected goals of the home team look at
      the head-to-head matches followed by the home team's matches, those of
      the away team at the head-to-head matches followed by the away team's;
      BTTS looks at the head-to-head matches only. */
  function Baseline(exp: real -> real, homeTeam: Option<string>, awayTeam: Option<string>, matches: seq<Match>, homeMatches: seq<Match>, awayMatches: seq<Match>): (p: Prediction)
    ensures p.homeWin + p.draw + p.awayWin == 1.0
    ensures 0.0 < p.homeWin < 1.0 && 0.0 < p.draw < 1.0 && 0.0 < p.awayWin < 1.0
    ensures 0.0 <= p.btts <= 1.0 && 0.0 <= p.over25 <= 1.0
    ensures 0.3 <= p.confidence <= 1.0
    ensures |p.keyFactors| <= 7
    ensures p.predictionSource == "local" && p.modelVersion == "baseline-v1.0"
  {
    var homeForm := FormIndex(matches + homeMatches, homeTeam, true);
    var awayForm := FormIndex(matches + awayMatches, awayTeam, false);
    var homeXG := ExpectedGoals(matches + homeMatches, homeTeam, true);
    var awayXG := ExpectedGoals(matches + awayMatches, awayTeam, false);
    var o := AdjustOutcome(GridOutcome(exp, homeXG, awayXG, 6), homeForm, awayForm);
    var btts := BttsProbability(matches);
    var over25 := Over25(exp, homeXG, awayXG);
    Prediction(o.home, o.draw, o.away, btts, over25,
               Confidence(|matches|, |homeMatches|, |awayMatches|),
               KeyFactors(homeTeam, awayTeam, homeForm, awayForm, homeXG, awayXG, btts, over25, |matches|),
               MODEL_VERSION, LOCAL_SOURCE)
  }

  /** With no history at all: base confidence only, neutral form and the
      1.5 default rate on both sides (so no form or scoring factor), and the
      BTTS default of 0.5. */
  lemma BaselineWithoutHistory(exp: real -> real, homeTeam: Option<string>, awayTeam: Option<string>)
    ensures var p := Baseline(exp, homeTeam, awayTeam, [], [], []);
            p.confidence == 0.3 && p.btts == 0.5
            && (p.keyFactors == [] || p.keyFactors == [OVER25_LIKELY])
  {
    var none: seq<Match> := [];
    assert none + none == none;
  }

  /** The nested loops of `calculateBaseline` that fill the three buckets. */
  method AccumulateOutcomes(exp: real -> real, homeXG: real, awayXG: real) returns (o: Outcome)
    ensures o == GridOutcome(exp, homeXG, awayXG, 6)
  {
    var homeWin, draw, awayWin := 0.0, 0.0, 0.0;
    var h := 0;
    while h <= 5
      invariant 0 <= h <= 6
      invariant Outcome(homeWin, draw, awayWin) == GridOutcome(exp, homeXG, awayXG, h)
    {
      var a := 0;
      while a <= 5
        invariant 0 <= a <= 6
        invariant Outcome(homeWin, draw, awayWin)
                  == GridRow(exp, homeXG, awayXG, GridOutcome(exp, homeXG, awayXG, h), h, a)
      {
        ghost var before := Outcome(homeWin, draw, awayWin);
        var prob := Poisson(exp, homeXG, h) * Poisson(exp, awayXG, a);
        assert prob == Cell(exp, homeXG, awayXG, h, a);
        if h > a {
          homeWin := homeWin + prob;
        } else if h == a {
          draw := draw + prob;
        } else {
          awayWin := awayWin + prob;
        }
        assert Outcome(homeWin, draw, awayWin) == AddCell(before, h, a, prob);
        a := a + 1;
      }
      h := h + 1;
    }
    o := Outcome(homeWin, draw, awayWin);
  }

  /** One team's `if ... push ... else if ... push` form rule. */
  method PushFormFactor(keyFactors: seq<string>, team: Option<string>, form: real) returns (r: seq<string>)
    ensures r == keyFactors + FormFactor(team, form)
  {
    r := keyFactors;
    if form > 0.7 {
      r := r + [TeamLabel(team) + EXCELLENT_FORM];
    } else if form < 0.3 {
      r := r + [TeamLabel(team) + POOR_FORM];
    }
  }

  /** One `if (...) keyFactors.push(...)` with a fixed text. */
  method PushIf(keyFactors: seq<string>, holds: bool, factor: string) returns (r: seq<string>)
    ensures r == keyFactors + Flag(holds, factor)
  {
    r := keyFactors;
    if holds {
      r := r + [factor];
    }
  }

  /** The `keyFactors.push` steps of `calculateBaseline`. */
  method CollectKeyFactors(homeTeam: Option<string>, awayTeam: Option<string>, homeForm: real, awayForm: real, homeXG: real, awayXG: real, btts: real, over25: real, h2hCount: nat)
    returns (keyFactors: seq<string>)
    ensures keyFactors == KeyFactors(homeTeam, awayTeam, homeForm, awayForm, homeXG, awayXG, btts, over25, h2hCount)
  {
    keyFactors := PushFormFactor([], homeTeam, homeForm);
    keyFactors := PushFormFactor(keyFactors, awayTeam, awayForm);
    keyFactors := PushIf(keyFactors, homeXG > 2.5, HIGH_SCORING_HOME);
    keyFactors := PushIf(keyFactors, awayXG > 2.5, HIGH_SCORING_AWAY);
    keyFactors := PushIf(keyFactors, btts > 0.7, BTTS_LIKELY);
    keyFactors := PushIf(keyFactors, over25 > 0.7, OVER25_LIKELY);
    keyFactors := PushIf(keyFactors, h2hCount > 10, STRONG_H2H);
    assert [] + FormFactor(homeTeam, homeForm) == FormFactor(homeTeam, homeForm);
  }

  /** The in-place nudge, clamp and normalisation of `calculateBaseline`. */
  method AdjustProbabilities(grid: Outcome, homeForm: real, awayForm: real) returns (r: Outcome)
    ensures r == AdjustOutcome(grid, homeForm, awayForm)
  {
    var homeWin, draw, awayWin := grid.home, grid.draw, grid.away;
    var formDifference := homeForm - awayForm;
    var adjustment := formDifference * FORM_SENSITIVITY;
    homeWin := Clamp(0.05, 0.9, homeWin + adjustment);
    awayWin := Clamp(0.05, 0.9, awayWin - adjustment);
    draw := MaxReal(0.05, 1.0 - homeWin - awayWin);
    assert Outcome(homeWin, draw, awayWin) == ClampOutcome(grid, homeForm, awayForm);
    var total := homeWin + draw + awayWin;
    homeWin := homeWin / total;
    draw := draw / total;
    awayWin := awayWin / total;
    r := Outcome(homeWin, draw, awayWin);
  }

  /** The `confidence +=` steps of `calculateBaseline`. */
  method ConfidenceScore(h2hCount: nat, homeCount: nat, awayCount: nat) returns (confidence: real)
    ensures confidence == Confidence(h2hCount, homeCount, awayCount)
  {
    confidence := 0.3;
    confidence := confidence + MinReal(0.3, h2hCount as real * 0.03);
    confidence := confidence + MinReal(0.2, homeCount as real * 0.01);
    confidence := confidence + MinReal(0.2, awayCount as real * 0.01);
  }

  /** `calculateBaseline` as the source writes it: the estimators, the grid
      loops, the nudge, the other markets, the confidence and the key factors. */
  method CalculateBaseline(exp: real -> real, homeTeam: Option<string>, awayTeam: Option<string>, matches: seq<Match>, homeMatches: seq<Match>, awayMatches: seq<Match>)
    returns (p: Prediction)
    ensures p == Baseline(exp, homeTeam, awayTeam, matches, homeMatches, awayMatches)
  {
    var homeForm := CalculateFormIndex(matches + homeMatches, homeTeam, true);
    var awayForm := CalculateFormIndex(matches + awayMatches, awayTeam, false);
    var homeXG := ExpectedGoals(matches + homeMatches, homeTeam, true);
    var awayXG := ExpectedGoals(matches + awayMatches, awayTeam, false);
    var grid := AccumulateOutcomes(exp, homeXG, awayXG);
    var adjusted := AdjustProbabilities(grid, homeForm, awayForm);
    var btts := BttsProbability(matches);
    var over25 := CalculateOver25Probability(exp, homeXG, awayXG);
    var confidence := ConfidenceScore(|matches|, |homeMatches|, |awayMatches|);
    var keyFactors := CollectKeyFactors(homeTeam, awayTeam, homeForm, awayForm, homeXG, awayXG, btts, over25, |matches|);
    p := Prediction(adjusted.home, adjusted.draw, adjusted.away, btts, over25, confidence, keyFactors, MODEL_VERSION, LOCAL_SOURCE);
  }

  // ---------------------------------------------------------------------
  // The worker's message handler
  // ---------------------------------------------------------------------

  /** The request payload. Every field may be missing, as in an untyped
      JavaScript object. */
  datatype Payload = Payload(
    homeTeam: Option<string>,
    awayTeam: Option<string>,
    matches: Option<seq<Match>>,
    homeMatches: Option<seq<Match>>,
    awayMatches: Option<seq<Match>>)

  datatype WorkerMessage = WorkerMessage(kind: string, payload: Option<Payload>)

  datatype Response = PredictionResult(prediction: Prediction) | Error(message: string)

  const CALCULATE_PREDICTIONS: string := "CALCULATE_PREDICTIONS"

  /** Text of the TypeError raised by destructuring a missing payload or
      spreading a missing list; the exact words come from the JavaScript engine. */
  const FAULT_MESSAGE: string := "TypeError: payload is not iterable"

  /** `calculateBaseline` would raise: the payload or one of its three lists is missing. */
  predicate Faults(payload: Option<Payload>) {
    payload.None? || payload.value.matches.None? || payload.value.homeMatches.None?
    || payload.value.awayMatches.None?
  }

  /** `self.onmessage` as a function from the message to the posted reply. */
  function HandleMessage(exp: real -> real, msg: WorkerMessage): (r: Response)
    ensures r.PredictionResult? <==> msg.kind == "CALCULATE_PREDICTIONS" && !Faults(msg.payload)
    ensures r.PredictionResult? ==> r.prediction.predictionSource == "local"
                                    && r.prediction.modelVersion == "baseline-v1.0"
    ensures r.PredictionResult? ==>
      var p := msg.payload.value;
      r.prediction == Baseline(exp, p.homeTeam, p.awayTeam, p.matches.value, p.homeMatches.value, p.awayMatches.value)
    ensures r.PredictionResult? ==>
      r.prediction.homeWin + r.prediction.draw + r.prediction.awayWin == 1.0 && 0.3 <= r.prediction.confidence <= 1.0
    ensures msg.kind == "CALCULATE_PREDICTIONS" && Faults(msg.payload) ==> r == Error(FAULT_MESSAGE)
    ensures msg.kind != "CALCULATE_PREDICTIONS" ==> r == Error("Unknown message type: " + msg.kind)
  {
    if msg.kind == CALCULATE_PREDICTIONS then
      if Faults(msg.payload) then Error(FAULT_MESSAGE)
      else
        var p := msg.payload.value;
        PredictionResult(Baseline(exp, p.homeTeam, p.awayTeam, p.matches.value, p.homeMatches.value,
                                  p.awayMatches.value))
    else Error("Unknown message type: " + msg.kind)
  }

  /** Empty team names are not rejected: they still get a prediction. */
  lemma EmptyTeamNamesArePredicted(exp: real -> real, ms: seq<Match>, hs: seq<Match>, as_: seq<Match>)
    ensures HandleMessage(exp, WorkerMessage("CALCULATE_PREDICTIONS",
              Some(Payload(Some(""), Some(""), Some(ms), Some(hs), Some(as_))))).PredictionResult?
  {
  }
}
