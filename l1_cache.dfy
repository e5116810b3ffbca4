/** The in-process L1 cache: a bounded map from composite keys to entry
    objects whose access count is bumped in place on every hit.  Which entry
    an overflowing insert evicts is the eviction library's choice (by recency,
    frequency or age); the model only fixes that one entry goes, and only when
    the cache is full. */
module L1 {
  import opened Wrappers
  import opened Redis

  datatype Strategy = Lru | Lfu | Ttl

  /** The strategy check of `L1Cache.__init__`: anything but lru, lfu or ttl raises ValueError. */
  function ParseStrategy(s: string): (r: Result<Strategy>)
    ensures r.Ok? <==> s == "lru" || s == "lfu" || s == "ttl"
    ensures r == Ok(Lru) <==> s == "lru"
    ensures r == Ok(Lfu) <==> s == "lfu"
    ensures r == Ok(Ttl) <==> s == "ttl"
  {
    if s == "lru" then Ok(Lru)
    else if s == "lfu" then Ok(Lfu)
    else if s == "ttl" then Ok(Ttl)
    else Err("Unknown strategy: " + s)
  }

  /** How many entries a cache of the given `maxsize` can hold. */
  function Capacity(maxSize: int): nat
  {
    if maxSize > 0 then maxSize else 0
  }

  /** `after` is `before` with `key` bound to `v`; when `key` is new and the cache
      is already full, exactly one other entry, chosen by the eviction strategy, goes. */
  ghost predicate BoundedPut<V>(before: map<string, V>, after: map<string, V>, key: string, v: V, maxSize: int)
  {
    if key in before || |before| < Capacity(maxSize) then after == before[key := v]
    else exists victim :: victim in before && after == Evicted(before, victim)[key := v]
  }

  /** The cache without `victim`. */
  function Evicted<V>(m: map<string, V>, victim: string): (r: map<string, V>)
    requires victim in m
    ensures r.Keys == m.Keys - {victim} && |r| == |m| - 1
    ensures forall k :: k in r ==> r[k] == m[k]
  {
    var r := m - {victim};
    assert r.Keys + {victim} == m.Keys;
    r
  }

  /** A bounded insert keeps the cache within its capacity, binds the key and keeps
      every other surviving entry as it was. */
  lemma BoundedPutSize<V>(before: map<string, V>, after: map<string, V>, key: string, v: V, maxSize: int)
    requires maxSize >= 1 && |before| <= Capacity(maxSize)
    requires BoundedPut(before, after, key, v, maxSize)
    ensures |after| <= Capacity(maxSize)
    ensures key in after && after[key] == v
    ensures after.Keys <= before.Keys + {key}
    ensures forall k :: k in after && k != key ==> after[k] == before[k]
  {
    if !(key in before || |before| < Capacity(maxSize)) {
      var victim :| victim in before && after == Evicted(before, victim)[key := v];
    }
  }

  /** `L1CacheEntry`: the cached response, a copy of its metadata and when it was cached. */
  class L1CacheEntry {
    const response: string
    const metadata: Option<map<string, Meta>>
    const cachedAt: real
    var accessCount: int

    constructor (response: string, metadata: Option<map<string, Meta>>, cachedAt: real)
      ensures this.response == response && this.metadata == metadata && this.cachedAt == cachedAt
      ensures accessCount == 0
    {
      this.response := response;
      this.metadata := metadata;
      this.cachedAt := cachedAt;
      accessCount := 0;
    }
  }

  class L1Cache {
    const strategy: Strategy
    const maxSize: int
    const ttlSeconds: int
    var cache: map<string, L1CacheEntry>

    ghost predicate Valid()
      reads this
    {
      |cache| <= Capacity(maxSize)
    }

    /** The cached responses by key. */
    function Responses(): (r: map<string, string>)
      reads this
      ensures r.Keys == cache.Keys
      ensures forall k :: k in r ==> r[k] == cache[k].response
    {
      map k | k in cache :: cache[k].response
    }

    constructor (maxSize: int, ttlSeconds: int, strategy: Strategy)
      ensures Valid() && cache == map[]
      ensures this.maxSize == maxSize && this.ttlSeconds == ttlSeconds && this.strategy == strategy
    {
      this.maxSize := maxSize;
      this.ttlSeconds := ttlSeconds;
      this.strategy := strategy;
      cache := map[];
    }

    /** `get`: a hit returns the stored entry after bumping its access count; a miss changes nothing. */
    method Get(key: string) returns (r: Option<L1CacheEntry>)
      requires Valid()
      modifies cache.Values
      ensures Valid() && cache == old(cache)
      ensures key in cache ==> r == Some(cache[key]) && cache[key].accessCount == old(cache[key].accessCount) + 1
      ensures key !in cache ==> r == None
      ensures forall e :: e in cache.Values && (key !in cache || e != cache[key]) ==> e.accessCount == old(e.accessCount)
    {
      if key in cache {
        var entry := cache[key];
        entry.accessCount := entry.accessCount + 1;
        r := Some(entry);
      } else {
        r := None;
      }
    }

    /** `set`: bind `key`, evicting one entry when the cache is full; a cache whose
        `maxsize` is below 1 refuses every value (the library raises ValueError). */
    method Set(key: string, entry: L1CacheEntry) returns (ok: bool)
      requires Valid()
      modifies this
      ensures Valid()
      ensures ok <==> maxSize >= 1
      ensures ok ==> BoundedPut(old(cache), cache, key, entry, maxSize)
      ensures !ok ==> cache == old(cache)
    {
      if maxSize < 1 {
        return false;
      }
      ghost var before := cache;
      if key !in cache && |cache| >= maxSize {
        var victim :| victim in cache;
        cache := Evicted(cache, victim);
      }
      cache := cache[key := entry];
      ok := true;
      BoundedPutSize(before, cache, key, entry, maxSize);
    }

    /** `invalidate`: remove `key` if present. */
    method Invalidate(key: string)
      requires Valid()
      modifies this
      ensures Valid() && cache == old(cache) - {key}
    {
      cache := cache - {key};
    }

    /** `clear`: drop every entry. */
    method Clear()
      requires Valid()
      modifies this
      ensures Valid() && cache == map[] && Len() == 0
    {
      cache := map[];
    }

    /** `__len__`. */
    function Len(): (n: nat)
      reads this
      ensures n == |cache.Keys|
    {
      |cache|
    }
  }

  /** Setting a key and reading it back, with no eviction or expiry in between, returns the entry. */
  method SetThenGet(c: L1Cache, key: string, entry: L1CacheEntry) returns (r: Option<L1CacheEntry>)
    requires c.Valid() && c.maxSize >= 1
    modifies c, c.cache.Values, entry
    ensures key in c.cache && c.cache[key] == entry && r == Some(entry)
  {
    var ok := c.Set(key, entry);
    BoundedPutSize(old(c.cache), c.cache, key, entry, c.maxSize);
    r := c.Get(key);
  }
}
