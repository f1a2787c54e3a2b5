/** The prediction service: a cache-first lookup of stored predictions keyed
    by the fixture, with a strict expiry check, invalidation when an update
    is triggered, and defaults for missing feature values. The database is an
    input and the clock is passed in as `now` (milliseconds). */
module Predictions {
  import opened Basics
  import opened Text

  /** `PredictionParams`. */
  datatype PredictionParams = PredictionParams(
    homeTeam: string,
    awayTeam: string,
    league: Option<string>,
    matchDate: Option<string>)

  datatype PredictionSource = Edge | Local

  /** `PredictionResult`; times are milliseconds since the epoch. */
  datatype PredictionResult = PredictionResult(
    id: string,
    homeTeam: string,
    awayTeam: string,
    league: string,
    homeWinProbability: real,
    drawProbability: real,
    awayWinProbability: real,
    bttsProbability: real,
    over25Probability: real,
    confidenceScore: real,
    keyFactors: seq<string>,
    predictionSource: PredictionSource,
    generatedAt: int,
    expiresAt: int,
    modelVersion: string)

  /** The `features` object of a stored prediction; any field may be absent. */
  datatype Features = Features(
    homeWinProbability: Option<real>,
    drawProbability: Option<real>,
    awayWinProbability: Option<real>,
    bttsProbability: Option<real>,
    over25Probability: Option<real>,
    confidenceScore: Option<real>,
    keyFactors: Option<seq<string>>)

  /** A row of the `predictions` table. */
  datatype PredictionRow = PredictionRow(
    id: string,
    homeTeam: string,
    awayTeam: string,
    league: string,
    features: Option<Features>,
    generatedAt: int,
    expiresAt: int,
    modelVersion: string)

  /** What a backend call gave: it threw, it answered with an error, or it
      succeeded (with the row, for the prediction query). */
  datatype Reply<T> = Threw | Failed(error: string) | Succeeded(value: T)

  /** `CACHE_DURATION`: 30 minutes in milliseconds (declared by the service,
      never read: the expiry comes from the stored row). */
  const CACHE_DURATION: int := 30 * 60 * 1000

  /** JavaScript's truthiness of an optional string. */
  function OrDefault(s: Option<string>, default: string): (r: string)
    ensures s.Some? && s.value != "" ==> r == s.value
    ensures s.None? || s.value == "" ==> r == default
  {
    if s.Some? && s.value != "" then s.value else default
  }

  /** `getCacheKey(params)`: home-away-league-date, with "default" for a
      falsy league and "today" for a falsy date. */
  function CacheKey(params: PredictionParams): string {
    params.homeTeam + "-" + params.awayTeam + "-" + OrDefault(params.league, "default") + "-" +
      OrDefault(params.matchDate, "today")
  }

  /** `isCacheValid(prediction)` at `now`: strictly before the expiry. */
  predicate IsCacheValid(prediction: PredictionResult, now: int) {
    prediction.expiresAt > now
  }

  /** The league the database is asked about: a falsy league becomes
      "Premier League", not the "default" of the cache key. */
  function QueryLeague(params: PredictionParams): string {
    OrDefault(params.league, "Premier League")
  }

  /** `x || default` on an optional number: absent or 0 reads as the
      default. */
  function OrNumber(x: Option<real>, default: real): (r: real)
    ensures default != 0.0 ==> r != 0.0
    ensures x.Some? && x.value != 0.0 ==> r == x.value
    ensures x.None? || x.value == 0.0 ==> r == default
  {
    if x.Some? && x.value != 0.0 then x.value else default
  }

  /** `p == (x || default)` on an optional number: a present non-zero value is
      copied, and an absent or zero one gives the default. */
  predicate CopiedOr(x: Option<real>, v: real, default: real) {
    && (x.Some? && x.value != 0.0 ==> v == x.value)
    && (x.None? || x.value == 0.0 ==> v == default)
  }

  /** `data.features?.field`. */
  function Feature(features: Option<Features>, pick: Features -> Option<real>): Option<real> {
    if features.Some? then pick(features.value) else None
  }

  /** The `PredictionResult` built from a stored row. */
  function FromRow(row: PredictionRow): (p: PredictionResult)
    ensures p.predictionSource == Edge
    ensures p.id == row.id && p.homeTeam == row.homeTeam && p.awayTeam == row.awayTeam && p.league == row.league
    ensures p.generatedAt == row.generatedAt && p.expiresAt == row.expiresAt && p.modelVersion == row.modelVersion
    ensures p.homeWinProbability != 0.0 && p.drawProbability != 0.0 && p.awayWinProbability != 0.0
    ensures p.bttsProbability != 0.0 && p.over25Probability != 0.0 && p.confidenceScore != 0.0
    ensures row.features.None? ==>
      p.homeWinProbability == 0.33 && p.drawProbability == 0.33 && p.awayWinProbability == 0.33 &&
      p.bttsProbability == 0.5 && p.over25Probability == 0.5 && p.confidenceScore == 0.5 && p.keyFactors == []
    ensures row.features.Some? ==>
      var f := row.features.value;
      CopiedOr(f.homeWinProbability, p.homeWinProbability, 0.33) &&
      CopiedOr(f.drawProbability, p.drawProbability, 0.33) &&
      CopiedOr(f.awayWinProbability, p.awayWinProbability, 0.33) &&
      CopiedOr(f.bttsProbability, p.bttsProbability, 0.5) &&
      CopiedOr(f.over25Probability, p.over25Probability, 0.5) &&
      CopiedOr(f.confidenceScore, p.confidenceScore, 0.5)
    ensures row.features.Some? && row.features.value.keyFactors.Some? ==> p.keyFactors == row.features.value.keyFactors.value
    ensures row.features.Some? && row.features.value.keyFactors.None? ==> p.keyFactors == []
  {
    var f := row.features;
    PredictionResult(
      row.id, row.homeTeam, row.awayTeam, row.league,
      OrNumber(Feature(f, (x: Features) => x.homeWinProbability), 0.33),
      OrNumber(Feature(f, (x: Features) => x.drawProbability), 0.33),
      OrNumber(Feature(f, (x: Features) => x.awayWinProbability), 0.33),
      OrNumber(Feature(f, (x: Features) => x.bttsProbability), 0.5),
      OrNumber(Feature(f, (x: Features) => x.over25Probability), 0.5),
      OrNumber(Feature(f, (x: Features) => x.confidenceScore), 0.5),
      if f.Some? && f.value.keyFactors.Some? then f.value.keyFactors.value else [],
      Edge, row.generatedAt, row.expiresAt, row.modelVersion)
  }

  /** What the cache alone answers for these parameters at `now`. */
  function CachedAnswer(cache: map<string, PredictionResult>, params: PredictionParams, now: int): Option<PredictionResult> {
    var key := CacheKey(params);
    if key in cache && IsCacheValid(cache[key], now) then Some(cache[key]) else None
  }

  class PredictionService {
    /** `private cache = new Map<string, PredictionResult>()`. */
    var cache: map<string, PredictionResult>

    constructor()
      ensures cache == map[]
    {
      cache := map[];
    }

    /** `fetchPredictions(params)` at `now`, with `backend` the answer the
        query would get: a valid cached entry is returned as it is and the
        backend is not used; otherwise a stored row is converted, cached under
        the key and returned, and a failure returns nothing and leaves the
        cache alone. */
    method FetchPredictions(params: PredictionParams, backend: Reply<PredictionRow>, now: int)
      returns (r: Option<PredictionResult>)
      modifies this
      ensures CachedAnswer(old(cache), params, now).Some? ==>
        r == CachedAnswer(old(cache), params, now) && cache == old(cache)
      ensures CachedAnswer(old(cache), params, now).None? && !backend.Succeeded? ==>
        r.None? && cache == old(cache)
      ensures CachedAnswer(old(cache), params, now).None? && backend.Succeeded? ==>
        r == Some(FromRow(backend.value)) && cache == old(cache)[CacheKey(params) := FromRow(backend.value)]
    {
      var cacheKey := CacheKey(params);
      if cacheKey in cache && IsCacheValid(cache[cacheKey], now) {
        return Some(cache[cacheKey]);
      }
      match backend {
        case Succeeded(row) =>
          var prediction := FromRow(row);
          cache := cache[cacheKey := prediction];
          return Some(prediction);
        case _ =>
          return None;
      }
    }

    /** `triggerUpdate(params)`, with `backend` the answer of the batch
        recalculation: on success the key's entry is dropped so the next fetch
        goes to the database; on failure nothing changes. */
    method TriggerUpdate(params: PredictionParams, backend: Reply<()>) returns (ok: bool)
      modifies this
      ensures ok <==> backend.Succeeded?
      ensures ok ==> cache == old(cache) - {CacheKey(params)}
      ensures !ok ==> cache == old(cache)
    {
      if !backend.Succeeded? {
        return false;
      }
      var cacheKey := CacheKey(params);
      cache := cache - {cacheKey};
      return true;
    }

    /** `clearCache()`. */
    method ClearCache()
      modifies this
      ensures cache == map[]
    {
      cache := map[];
    }
  }

  /** An entry is invalid at the instant of its expiry. */
  lemma ValidityIsStrict(p: PredictionResult)
    ensures !IsCacheValid(p, p.expiresAt)
    ensures IsCacheValid(p, p.expiresAt - 1)
  {
  }

  /** What a successful fetch stores answers the next fetch with the same
      parameters exactly while it is unexpired; after an update is triggered
      the cache answers nothing for those parameters. */
  lemma CachedAfterStore(cache: map<string, PredictionResult>, params: PredictionParams, row: PredictionRow, later: int)
    ensures CachedAnswer(cache[CacheKey(params) := FromRow(row)], params, later) ==
      (if later < row.expiresAt then Some(FromRow(row)) else None)
    ensures CachedAnswer(cache - {CacheKey(params)}, params, later).None?
  {
  }

  /** A missing or empty league and the literal "default" share one cache
      entry, and so do a missing date, an empty one and "today"; the database
      is asked about "Premier League" for a missing league, which the cache
      keys apart from an explicit "Premier League". */
  lemma CacheKeyDefaults(home: string, away: string, league: Option<string>, date: Option<string>)
    ensures CacheKey(PredictionParams(home, away, None, date)) == CacheKey(PredictionParams(home, away, Some("default"), date))
    ensures CacheKey(PredictionParams(home, away, None, date)) == CacheKey(PredictionParams(home, away, Some(""), date))
    ensures CacheKey(PredictionParams(home, away, league, None)) == CacheKey(PredictionParams(home, away, league, Some("today")))
    ensures QueryLeague(PredictionParams(home, away, None, date)) == QueryLeague(PredictionParams(home, away, Some("Premier League"), date))
    ensures CacheKey(PredictionParams(home, away, None, date)) != CacheKey(PredictionParams(home, away, Some("Premier League"), date))
  {
    var d := OrDefault(date, "today");
    var k1 := CacheKey(PredictionParams(home, away, None, date));
    var k2 := CacheKey(PredictionParams(home, away, Some("Premier League"), date));
    assert |k1| != |k2| by {
      assert |k1| == |home| + |away| + |"default"| + |d| + 3;
      assert |k2| == |home| + |away| + |"Premier League"| + |d| + 3;
    }
  }

  /** The key is made of the four parts joined by dashes: with no dash inside
      the parts, equal keys mean equal parts. */
  lemma CacheKeyInjective(p1: PredictionParams, p2: PredictionParams)
    requires CacheKey(p1) == CacheKey(p2)
    requires '-' !in p1.homeTeam && '-' !in p1.awayTeam && '-' !in OrDefault(p1.league, "default")
    requires '-' !in p2.homeTeam && '-' !in p2.awayTeam && '-' !in OrDefault(p2.league, "default")
    ensures p1.homeTeam == p2.homeTeam && p1.awayTeam == p2.awayTeam
    ensures OrDefault(p1.league, "default") == OrDefault(p2.league, "default")
    ensures OrDefault(p1.matchDate, "today") == OrDefault(p2.matchDate, "today")
  {
    var l1, l2 := OrDefault(p1.league, "default"), OrDefault(p2.league, "default");
    var d1, d2 := OrDefault(p1.matchDate, "today"), OrDefault(p2.matchDate, "today");
    var rest1, rest2 := p1.awayTeam + "-" + l1 + "-" + d1, p2.awayTeam + "-" + l2 + "-" + d2;
    assert CacheKey(p1) == p1.homeTeam + "-" + rest1;
    assert CacheKey(p2) == p2.homeTeam + "-" + rest2;
    SplitAtDash(p1.homeTeam, rest1, p2.homeTeam, rest2);
    var tail1, tail2 := l1 + "-" + d1, l2 + "-" + d2;
    assert rest1 == p1.awayTeam + "-" + tail1 && rest2 == p2.awayTeam + "-" + tail2;
    SplitAtDash(p1.awayTeam, tail1, p2.awayTeam, tail2);
    SplitAtDash(l1, d1, l2, d2);
  }

  /** With a dash inside a team name, two different fixtures share a key. */
  lemma CacheKeyCollision()
    ensures CacheKey(PredictionParams("A-B", "C", None, None)) == CacheKey(PredictionParams("A", "B-C", None, None))
  {
  }
}
