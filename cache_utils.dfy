/** The in-memory TTL cache: a map from keys to items that carry their
    insertion time and expiry, read and cleaned against a clock that the
    caller passes in as `now` (milliseconds). */
module Cache {
  import opened Basics

  /** A stored value with its insertion time and expiry, in milliseconds. */
  datatype CacheItem<T> = CacheItem(data: T, timestamp: int, expiresAt: int)

  /** The default time to live, in seconds. */
  const DEFAULT_TTL: int := 3600

  /** An item is dead only once the clock is strictly past its expiry. */
  predicate Expired<T>(item: CacheItem<T>, now: int) {
    now > item.expiresAt
  }

  /** The item `set(key, data, ttlSeconds)` stores at `now`. */
  function NewItem<T>(data: T, ttlSeconds: int, now: int): (item: CacheItem<T>)
    ensures item.data == data && item.timestamp == now
    ensures ttlSeconds >= 0 ==> !Expired(item, now)
    ensures forall t :: !Expired(item, t) <==> t <= now + ttlSeconds * 1000
  {
    CacheItem(data, now, now + ttlSeconds * 1000)
  }

  /** What `get(key)` answers at `now`. */
  function Lookup<T>(m: map<string, CacheItem<T>>, key: string, now: int): Option<T> {
    if key in m && !Expired(m[key], now) then Some(m[key].data) else None
  }

  /** The map after a `get` or `has` at `now`: an expired entry for the key is
      dropped, nothing else changes. */
  function Evict<T>(m: map<string, CacheItem<T>>, key: string, now: int): (r: map<string, CacheItem<T>>)
    ensures key in m && Expired(m[key], now) ==> key !in r
    ensures !(key in m && Expired(m[key], now)) ==> r == m
    ensures forall k :: k != key ==> (k in r <==> k in m) && (k in r ==> r[k] == m[k])
  {
    if key in m && Expired(m[key], now) then m - {key} else m
  }

  /** The entries that survive `cleanExpired` at `now`. */
  function Unexpired<T>(m: map<string, CacheItem<T>>, now: int): (r: map<string, CacheItem<T>>)
    ensures forall k :: k in r <==> k in m && !Expired(m[k], now)
    ensures forall k :: k in r ==> r[k] == m[k]
  {
    map k | k in m && !Expired(m[k], now) :: m[k]
  }

  /** A value stored with a non-negative time to live is found at the same
      instant, and storing under one key leaves every other key's answer
      alone. */
  lemma SetThenGet<T>(m: map<string, CacheItem<T>>, key: string, data: T, ttlSeconds: int, now: int, other: string, later: int)
    requires ttlSeconds >= 0
    ensures Lookup(m[key := NewItem(data, ttlSeconds, now)], key, now) == Some(data)
    ensures other != key ==> Lookup(m[key := NewItem(data, ttlSeconds, now)], other, later) == Lookup(m, other, later)
    ensures Lookup(m[key := NewItem(data, ttlSeconds, now)], key, later).Some? <==> later <= now + ttlSeconds * 1000
  {
  }

  /** After cleaning, every remaining entry answers `get` with its own data and
      every lookup gives what it gave before; cleaning twice is cleaning
      once. */
  lemma CleanKeepsAnswers<T>(m: map<string, CacheItem<T>>, now: int, key: string)
    ensures Lookup(Unexpired(m, now), key, now) == Lookup(m, key, now)
    ensures Unexpired(Unexpired(m, now), now) == Unexpired(m, now)
    ensures |Unexpired(m, now)| <= |m|
  {
    var r := Unexpired(m, now);
    assert r.Keys <= m.Keys;
    SubsetSize(r.Keys, m.Keys);
    assert |r| == |r.Keys| && |m| == |m.Keys|;
    assert Unexpired(r, now) == r;
  }

  /** A subset is no larger than its superset. */
  lemma {:induction false} SubsetSize<K>(a: set<K>, b: set<K>)
    requires a <= b
    ensures |a| <= |b|
    decreases a
  {
    if a != {} {
      var x :| x in a;
      SubsetSize(a - {x}, b - {x});
    }
  }

  /** A lookup never lets an expired entry through and never invents one. */
  lemma LookupMeaning<T>(m: map<string, CacheItem<T>>, key: string, now: int)
    ensures Lookup(m, key, now).Some? <==> key in Unexpired(m, now)
    ensures Lookup(m, key, now).Some? ==> Lookup(m, key, now).value == m[key].data
    ensures Lookup(Evict(m, key, now), key, now) == Lookup(m, key, now)
  {
  }

  class CacheUtils<T> {
    /** `private cache = new Map<string, CacheItem<any>>()`. */
    var cache: map<string, CacheItem<T>>

    constructor()
      ensures cache == map[]
    {
      cache := map[];
    }

    /** `set(key, data, ttlSeconds = DEFAULT_TTL)` at `now`. */
    method Set(key: string, data: T, ttlSeconds: Option<int>, now: int)
      modifies this
      ensures cache == old(cache)[key := NewItem(data, ttlSeconds.GetOr(DEFAULT_TTL), now)]
    {
      var ttl := ttlSeconds.GetOr(DEFAULT_TTL);
      var expiresAt := now + ttl * 1000;
      cache := cache[key := CacheItem(data, now, expiresAt)];
    }

    /** `get(key)` at `now`: the data of a live entry; an expired entry is
        removed and reads as missing. */
    method Get(key: string, now: int) returns (r: Option<T>)
      modifies this
      ensures r == Lookup(old(cache), key, now)
      ensures cache == Evict(old(cache), key, now)
    {
      if key !in cache {
        return None;
      }
      var item := cache[key];
      if now > item.expiresAt {
        cache := cache - {key};
        return None;
      }
      return Some(item.data);
    }

    /** `delete(key)`: whether the key was present; it is gone afterwards. */
    method Delete(key: string) returns (existed: bool)
      modifies this
      ensures existed <==> key in old(cache)
      ensures cache == old(cache) - {key}
    {
      existed := key in cache;
      cache := cache - {key};
    }

    /** `clear()`. */
    method Clear()
      modifies this
      ensures cache == map[]
    {
      cache := map[];
    }

    /** `has(key)` at `now`: like `get`, answering whether the entry is live. */
    method Has(key: string, now: int) returns (present: bool)
      modifies this
      ensures present <==> Lookup(old(cache), key, now).Some?
      ensures cache == Evict(old(cache), key, now)
    {
      if key !in cache {
        return false;
      }
      var item := cache[key];
      if now > item.expiresAt {
        cache := cache - {key};
        return false;
      }
      return true;
    }

    /** `cleanExpired()` at `now`: one pass over the entries, deleting each
        expired one. */
    method CleanExpired(now: int)
      modifies this
      ensures cache == Unexpired(old(cache), now)
    {
      ghost var original := cache;
      var pending := cache.Keys;
      while pending != {}
        invariant pending <= original.Keys
        invariant forall k :: k in cache <==> k in original && (k in pending || !Expired(original[k], now))
        invariant forall k :: k in cache ==> cache[k] == original[k]
        decreases pending
      {
        var key :| key in pending;
        if now > cache[key].expiresAt {
          cache := cache - {key};
        }
        pending := pending - {key};
      }
      assert cache == Unexpired(original, now);
    }

    /** `size()` at `now`: the number of live entries, after cleaning. */
    method Size(now: int) returns (n: nat)
      modifies this
      ensures cache == Unexpired(old(cache), now)
      ensures n == |cache| && n <= |old(cache)|
    {
      CleanExpired(now);
      CleanKeepsAnswers(old(cache), now, "");
      n := |cache|;
    }

    /** `keys()` at `now`: the live keys, each once, after cleaning. */
    method Keys(now: int) returns (ks: seq<string>)
      modifies this
      ensures cache == Unexpired(old(cache), now)
      ensures forall k :: k in ks <==> k in cache
      ensures forall i, j :: 0 <= i < j < |ks| ==> ks[i] != ks[j]
    {
      CleanExpired(now);
      ks := [];
      var rest := cache.Keys;
      while rest != {}
        invariant rest <= cache.Keys
        invariant forall k :: k in ks <==> k in cache && k !in rest
        invariant forall i, j :: 0 <= i < j < |ks| ==> ks[i] != ks[j]
        decreases rest
      {
        var key :| key in rest;
        ks := ks + [key];
        rest := rest - {key};
      }
    }
  }

  /** `getPredictionKey(homeTeam, awayTeam, league)`: a falsy league reads as
      "default". */
  function PredictionKey(homeTeam: string, awayTeam: string, league: Option<string>): string {
    "prediction_" + homeTeam + "_" + awayTeam + "_" + (if league.Some? && league.value != "" then league.value else "default")
  }

  /** `getStatsKey(dateFrom, dateTo)`. */
  function StatsKey(dateFrom: string, dateTo: string): string {
    "stats_" + dateFrom + "_" + dateTo
  }

  /** A missing league, an empty one and the literal "default" share one key,
      and a prediction key, whatever the league, never collides with a
      statistics key. */
  lemma KeyShapes(homeTeam: string, awayTeam: string, league: Option<string>, dateFrom: string, dateTo: string)
    ensures PredictionKey(homeTeam, awayTeam, None) == PredictionKey(homeTeam, awayTeam, Some(""))
    ensures PredictionKey(homeTeam, awayTeam, None) == PredictionKey(homeTeam, awayTeam, Some("default"))
    ensures PredictionKey(homeTeam, awayTeam, league) != StatsKey(dateFrom, dateTo)
  {
    assert PredictionKey(homeTeam, awayTeam, league)[0] == 'p';
    assert StatsKey(dateFrom, dateTo)[0] == 's';
  }

  /** A prediction key starts with "prediction_", ends with the league part
      and is as long as its parts together. */
  lemma PredictionKeyEnds(homeTeam: string, awayTeam: string, league: Option<string>)
    ensures var tail := if league.Some? && league.value != "" then league.value else "default";
      var key := PredictionKey(homeTeam, awayTeam, league);
      |key| == |"prediction_"| + |homeTeam| + 1 + |awayTeam| + 1 + |tail| &&
      key[|key| - |tail|..] == tail &&
      key[..|"prediction_"|] == "prediction_"
  {
  }
}
