/** The asynchronous cache manager: the two-tier lookup (`check`), the write
    path (`store`), the batched lookup, tag invalidation and threshold
    updates.  The pure functions of this module say what one call does --
    its result, the recording calls it makes on the metrics object, in order,
    and what it leaves in the L1 cache -- and the methods of
    `SemanticCacheManager` do it step by step on the shared objects.

    The outside world enters as parameters: the L2 search attempts, the
    reranker's answer, the clock and the latencies are fields of an
    environment value, and the SHA-256 context digest is the function
    `digest`. */
module CacheManager {
  import opened Wrappers
  import Config
  import opened Metrics
  import opened Redis
  import opened TagIndex
  import opened L1
  import opened SearchReply
  import opened Policy
  import opened Retry

  // ---------------------------------------------------------------- the environment of one lookup

  /** One attempt of the L2 search inside the retry loop: the raw FT.SEARCH reply
      when the command returned one, and what the library's own search returns when
      the raw command or its parsing raised (`None`: that raised as well). */
  datatype SearchAttempt = SearchAttempt(reply: Option<seq<Reply>>, fallback: Option<seq<Doc>>)

  /** What `check` needs from outside: the measured latencies, the clock, the
      search attempts by filter and attempt number, the float and timestamp
      parsers and the reranker's answer. */
  datatype CheckEnv = CheckEnv(
    l1Latency: real,
    l2Latency: real,
    totalLatency: real,
    now: real,
    search: (Option<FilterExpr>, nat) -> SearchAttempt,
    parseFloat: string -> Option<real>,
    parseTime: string -> Option<real>,
    rerank: RerankOutcome)

  /** The documents one search attempt yields: the parsed raw reply, or the
      fallback when the reply is missing or does not parse. */
  function AttemptResult(a: SearchAttempt, parseFloat: string -> Option<real>): Option<seq<Doc>>
  {
    if a.reply.Some? && ParsedReply(a.reply.value, parseFloat).Ok? then Some(ParsedReply(a.reply.value, parseFloat).value)
    else a.fallback
  }

  /** The attempts of the retry loop around the L2 search with filter `fe`. */
  function Attempts(env: CheckEnv, fe: Option<FilterExpr>): nat -> Option<seq<Doc>>
  {
    (i: nat) => AttemptResult(env.search(fe, i), env.parseFloat)
  }

  /** What the L1 tier holds for the lookup key before the call. */
  datatype L1View = NoL1 | L1Found(response: string) | L1Missed(canStore: bool)

  /** One lookup: the value returned, the recording calls made in order, and the
      response written to L1 under the lookup key, if any. */
  datatype CheckResult = CheckResult(result: Option<string>, events: seq<Event>, cached: Option<string>)

  /** A result preceded by the recording calls `head`. */
  function Prepend(head: seq<Event>, c: CheckResult): (r: CheckResult)
    ensures r.result == c.result && r.cached == c.cached && r.events == head + c.events
  {
    CheckResult(c.result, head + c.events, c.cached)
  }

  /** The call recorded on a hit with a non-empty context. */
  function ContextEvents(ctx: Context): seq<Event>
  {
    if ctx != map[] then [ContextHit(ContextType(ctx))] else []
  }

  /** A failure caught by `check`: one more error, and no value. */
  const Failed: CheckResult := CheckResult(None, [Error], None)

  /** A non-empty, hence truthy, response. */
  predicate Truthy(r: Option<string>)
  {
    r.Some? && r.value != ""
  }

  /** The metadata of a hit as the L1 entry keeps it. */
  function MetaOf(m: map<string, string>): (r: map<string, Meta>)
    ensures r.Keys == m.Keys
  {
    map k | k in m :: Text(m[k])
  }

  // ---------------------------------------------------------------- what check does

  /** The end of an L2 hit, once the hit is recorded: the staleness check, the
      version check, then the top response, written to L1 when it is truthy.
      Recording a stale or mismatched entry reads counters the recorder never
      initialises, so each of those paths ends in the caught-error branch. */
  function TopSpec(cfg: Config.CacheConfig, view: L1View, ranked: seq<Doc>, now: real,
                   parseTime: string -> Option<real>): CheckResult
  {
    if ranked == [] then Failed
    else if cfg.enableStaleWhileRevalidate
         && Classify(EntryAge(ranked[0].metadata, now, parseTime), cfg.ttl, cfg.maxStaleAgeSeconds) != Fresh then Failed
    else if cfg.enableVersionChecking && VersionMismatch(ranked[0].metadata, cfg.cacheVersion) then Failed
    else
      var resp := ranked[0].response;
      if !view.L1Missed? || !Truthy(resp) then CheckResult(resp, [], None)
      else if !view.canStore then Failed
      else CheckResult(resp, [], resp)
  }

  /** The calls `check` records when it serves an L2 answer, before the gates on the top entry. */
  function ServedHead(hasReranker: bool, ctx: Context, env: CheckEnv): seq<Event>
  {
    (if hasReranker then [Rerank] else []) + [Hit(env.totalLatency), L2Hit(env.l2Latency)] + ContextEvents(ctx)
  }

  /** A non-empty L2 answer: the top hit past the threshold is a miss; otherwise
      the results are reranked (when a reranker is configured) and the hit is recorded. */
  function ServeSpec(cfg: Config.CacheConfig, hasReranker: bool, view: L1View, ctx: Context,
                     docs: seq<Doc>, env: CheckEnv): CheckResult
    requires docs != []
  {
    if docs[0].distance.Some? && docs[0].distance.value > cfg.distanceThreshold then CheckResult(None, [Miss], None)
    else
      var ranked := if hasReranker then RerankResults(docs, env.rerank) else docs;
      Prepend(ServedHead(hasReranker, ctx, env), TopSpec(cfg, view, ranked, env.now, env.parseTime))
  }

  /** The L2 tier: the filtered search under the retry loop; exhausted retries are
      recorded twice (by the loop and by `check`), an empty answer is a miss. */
  function L2Spec(cfg: Config.CacheConfig, hasReranker: bool, digest: Context -> string, view: L1View,
                  userId: string, ctx: Context, filters: Filters, env: CheckEnv): CheckResult
  {
    match FirstSuccess(Attempts(env, CheckFilter(cfg, digest, userId, ctx, filters)), 0, AttemptCount(cfg.maxRetries))
    case None => CheckResult(None, [Error, Error], None)
    case Some(docs) =>
      if docs == [] then CheckResult(None, [Miss, L2Miss], None)
      else ServeSpec(cfg, hasReranker, view, ctx, docs, env)
  }

  /** The two tiers in turn: an L1 hit answers at once, otherwise L2 decides. */
  function TiersSpec(cfg: Config.CacheConfig, hasReranker: bool, digest: Context -> string, view: L1View,
                     userId: string, ctx: Context, filters: Filters, env: CheckEnv): CheckResult
  {
    match view
    case L1Found(resp) => CheckResult(Some(resp), [Hit(env.totalLatency), L1Hit(env.l1Latency)] + ContextEvents(ctx), None)
    case L1Missed(_) => Prepend([L1Miss], L2Spec(cfg, hasReranker, digest, view, userId, ctx, filters, env))
    case NoL1 => L2Spec(cfg, hasReranker, digest, view, userId, ctx, filters, env)
  }

  /** `check`: count the query, then consult the tiers. */
  function CheckSpec(cfg: Config.CacheConfig, hasReranker: bool, digest: Context -> string, view: L1View,
                     userId: string, ctx: Context, filters: Filters, env: CheckEnv): CheckResult
  {
    Prepend([Query], TiersSpec(cfg, hasReranker, digest, view, userId, ctx, filters, env))
  }

  /** What a lookup leaves in L1: nothing new, or the cached response bound to the
      key, inserted the way a bounded cache inserts. */
  ghost predicate L1Effect(before: map<string, L1CacheEntry>, after: map<string, L1CacheEntry>, key: string,
                           cached: Option<string>, maxSize: int)
  {
    match cached
    case None => after == before
    case Some(resp) => key in after && after[key].response == resp && BoundedPut(before, after, key, after[key], maxSize)
  }

  /** The eviction strategy a configuration that passed validation names. */
  function StrategyOf(cfg: Config.CacheConfig): (s: Strategy)
    requires cfg.l1Cache.evictionStrategy in Config.EvictionStrategies
    ensures ParseStrategy(cfg.l1Cache.evictionStrategy) == Ok(s)
  {
    ParseStrategy(cfg.l1Cache.evictionStrategy).value
  }

  // ---------------------------------------------------------------- what store writes

  /** What `store` needs from outside: the ISO timestamp written as `cached_at`,
      the clock for the L1 entry, and the vector store's write attempts (the key
      it returns, or `None` when the write raised). */
  datatype StoreEnv = StoreEnv(cachedAt: string, now: real, write: nat -> Option<string>)

  /** The hash `store` hands to the vector store for one entry. */
  function StoredValue(cfg: Config.CacheConfig, digest: Context -> string, prompt: string, response: string,
                       userId: string, ctx: Context, meta: map<string, Meta>, filters: Filters,
                       ttl: Option<int>, cachedAt: string): RedisValue
    requires IsDict(filters)
  {
    var hashing := cfg.enableContextHashing;
    HashValue(StoredEntry(prompt, response, StoreMetadata(meta, cachedAt, ctx, hashing, digest),
                          StoreFilters(userId, filters, ctx, hashing, digest), ttl))
  }

  /** What `store` leaves in L1: the new entry bound to the lookup key, inserted the
      way a bounded cache inserts, or nothing new when the cache cannot hold anything. */
  ghost predicate StoreL1Effect(before: map<string, L1CacheEntry>, after: map<string, L1CacheEntry>, key: string,
                                response: string, md: map<string, Meta>, maxSize: int)
  {
    if maxSize >= 1 then
      && key in after && after[key].response == response && after[key].metadata == Some(md)
      && BoundedPut(before, after, key, after[key], maxSize)
    else after == before
  }

  /** One lookup of `key` finds the entry `e`: 1 when it does, else 0. */
  ghost function Finds(cache: map<string, L1CacheEntry>, key: string, e: L1CacheEntry): nat
  {
    if key in cache && cache[key] == e then 1 else 0
  }

  /** How many of the lookups of `keys`, made one after another, find the entry `e`. */
  ghost function Hits(cache: map<string, L1CacheEntry>, keys: seq<string>, e: L1CacheEntry): nat
    decreases |keys|
  {
    if keys == [] then 0 else Hits(cache, keys[..|keys| - 1], e) + Finds(cache, keys[|keys| - 1], e)
  }

  /** An entry gains nothing from a run of lookups exactly when none of them finds it. */
  lemma {:induction false} HitsNone(cache: map<string, L1CacheEntry>, keys: seq<string>, e: L1CacheEntry)
    ensures Hits(cache, keys, e) == 0 <==> forall j :: 0 <= j < |keys| ==> keys[j] !in cache || cache[keys[j]] != e
    decreases |keys|
  {
    if keys != [] {
      var prefix := keys[..|keys| - 1];
      HitsNone(cache, prefix, e);
      assert forall j :: 0 <= j < |prefix| ==> prefix[j] == keys[j];
    }
  }

  /** What an L1 entry holds for a reader: its response and its metadata. */
  datatype Cached = Cached(response: string, metadata: Option<map<string, Meta>>)

  /** The L1 contents by key, as readers see them. */
  function Contents(cache: map<string, L1CacheEntry>): (r: map<string, Cached>)
    ensures r.Keys == cache.Keys && |r| == |cache|
    ensures forall k :: k in r ==> r[k] == Cached(cache[k].response, cache[k].metadata)
  {
    var r := map k | k in cache :: Cached(cache[k].response, cache[k].metadata);
    assert r.Keys == cache.Keys;
    r
  }

  /** One L1 write of the L2 pass of `batch_check`. */
  datatype L1Write = L1Write(key: string, response: string, md: map<string, Meta>)

  /** One successful write into contents `before`: a bounded insert of the response
      and its metadata.  A cache that can hold nothing accepts no write. */
  ghost predicate WriteStep(before: map<string, Cached>, after: map<string, Cached>, w: L1Write, maxSize: int)
  {
    maxSize >= 1 && BoundedPut(before, after, w.key, Cached(w.response, Some(w.md)), maxSize)
  }

  /** `after` is `before` with the writes made in order. */
  ghost predicate WritesChain(before: map<string, Cached>, after: map<string, Cached>, writes: seq<L1Write>, maxSize: int)
    decreases |writes|
  {
    if writes == [] then after == before
    else
      var prefix, last := writes[..|writes| - 1], writes[|writes| - 1];
      exists mid :: WritesChain(before, mid, prefix, maxSize) && WriteStep(mid, after, last, maxSize)
  }

  /** Binding an entry shows its response and metadata under its key. */
  lemma ContentsPut(m: map<string, L1CacheEntry>, key: string, e: L1CacheEntry)
    ensures Contents(m[key := e]) == Contents(m)[key := Cached(e.response, e.metadata)]
  {
    var l, r := Contents(m[key := e]), Contents(m)[key := Cached(e.response, e.metadata)];
    assert l.Keys == r.Keys;
    forall k | k in l
      ensures l[k] == r[k]
    {
    }
  }

  /** Evicting an entry removes its key from the contents. */
  lemma ContentsEvicted(m: map<string, L1CacheEntry>, victim: string)
    requires victim in m
    ensures Contents(Evicted(m, victim)) == Evicted(Contents(m), victim)
  {
    var l, r := Contents(Evicted(m, victim)), Evicted(Contents(m), victim);
    assert l.Keys == r.Keys;
    forall k | k in l
      ensures l[k] == r[k]
    {
    }
  }

  /** The write `store` and the L2 pass make on the entries is that write on the contents. */
  lemma StoreL1Contents(before: map<string, L1CacheEntry>, after: map<string, L1CacheEntry>, w: L1Write, maxSize: int)
    requires maxSize >= 1 && StoreL1Effect(before, after, w.key, w.response, w.md, maxSize)
    ensures WriteStep(Contents(before), Contents(after), w, maxSize)
  {
    var e := after[w.key];
    if w.key in before || |before| < Capacity(maxSize) {
      ContentsPut(before, w.key, e);
    } else {
      var victim :| victim in before && after == Evicted(before, victim)[w.key := e];
      ContentsPut(Evicted(before, victim), w.key, e);
      ContentsEvicted(before, victim);
    }
  }

  /** A run of writes keeps the cache within its capacity, adds no key it does not
      write, changes nothing when the cache cannot hold anything, and leaves the
      last write readable under its key. */
  lemma {:induction false} WritesChainBounded(before: map<string, Cached>, after: map<string, Cached>,
                                              writes: seq<L1Write>, maxSize: int)
    requires |before| <= Capacity(maxSize)
    requires WritesChain(before, after, writes, maxSize)
    ensures |after| <= Capacity(maxSize)
    ensures after.Keys <= before.Keys + set w | w in writes :: w.key
    ensures maxSize < 1 ==> writes == [] && after == before
    ensures writes != [] ==> var w := writes[|writes| - 1];
      w.key in after && after[w.key] == Cached(w.response, Some(w.md))
    decreases |writes|
  {
    if writes != [] {
      var w := writes[|writes| - 1];
      var prefix := writes[..|writes| - 1];
      var mid :| WritesChain(before, mid, prefix, maxSize) && WriteStep(mid, after, w, maxSize);
      WritesChainBounded(before, mid, prefix, maxSize);
      assert (set v | v in prefix :: v.key) <= (set v | v in writes :: v.key);
      BoundedPutSize(mid, after, w.key, Cached(w.response, Some(w.md)), maxSize);
    }
  }

  // ---------------------------------------------------------------- what batch_check answers

  /** What `batch_check` needs from outside: the latencies, the clock, and the
      library's search by prompt and filter (`None` when it raised). */
  datatype BatchEnv = BatchEnv(
    l1Latency: real,
    l2Latency: real,
    totalLatency: real,
    now: real,
    search: (string, Option<FilterExpr>) -> Option<seq<Doc>>)

  /** A missing list of user ids or contexts stands for `n` missing entries. */
  function OrBlank<T>(xs: seq<T>, n: nat, blank: T): (r: seq<T>)
    ensures xs == [] ==> |r| == n && forall i :: 0 <= i < n ==> r[i] == blank
    ensures xs != [] ==> r == xs
  {
    if xs == [] then seq(n, _ => blank) else xs
  }

  /** The user ids and contexts are missing or have one entry per prompt. */
  predicate BatchShape<U, C>(prompts: seq<string>, userIds: seq<U>, contexts: seq<C>)
  {
    (userIds == [] || |userIds| == |prompts|) && (contexts == [] || |contexts| == |prompts|)
  }

  /** The L2 search `batch_check` runs for one prompt: only the context hash and
      the user id filter it, and there is no retry. */
  function BatchSearch(cfg: Config.CacheConfig, digest: Context -> string, env: BatchEnv,
                       prompt: string, userId: string, ctx: Context): Option<seq<Doc>>
  {
    env.search(prompt, BuildFilterExpression(userId, SearchFilters([], ctx, cfg.enableContextHashing, digest)))
  }

  /** A search that succeeded and found something. */
  predicate Found(a: Option<seq<Doc>>)
  {
    a.Some? && a.value != []
  }

  /** The answer for one prompt of a batch, given its L1 key and its L2 search: the
      L1 response under the key, else the response of the top L2 document, with no
      threshold, staleness or version check. */
  function SlotAnswer(cached: map<string, string>, key: string, found: Option<seq<Doc>>): Option<string>
  {
    if key in cached then Some(cached[key]) else L2Answer(found)
  }

  /** The answers of a batch, slot by slot. */
  function BatchSpec(cached: map<string, string>, cfg: Config.CacheConfig, digest: Context -> string,
                     env: BatchEnv, prompts: seq<string>, userIds: seq<string>, ctxs: seq<Context>): (r: seq<Option<string>>)
    requires |userIds| == |prompts| && |ctxs| == |prompts|
    ensures |r| == |prompts|
  {
    seq(|prompts|, i requires 0 <= i < |prompts| =>
      SlotAnswer(cached, ContextKey(prompts[i], userIds[i], ctxs[i], cfg.enableContextHashing, cfg.contextFields, digest),
                 BatchSearch(cfg, digest, env, prompts[i], userIds[i], ctxs[i])))
  }

  /** The indices below `i` whose key L1 does not hold, in increasing order: the
      prompts the L1 pass leaves to L2. */
  function MissIndices(keys: seq<string>, cached: map<string, string>, i: nat): seq<nat>
    requires i <= |keys|
  {
    if i == 0 then [] else MissIndices(keys, cached, i - 1) + (if L1Answer(cached, keys[i - 1]).Some? then [] else [i - 1])
  }

  /** The L1 pass leaves exactly the prompts whose key L1 does not hold. */
  lemma {:induction false} MissIndicesExact(keys: seq<string>, cached: map<string, string>, i: nat)
    requires i <= |keys|
    ensures forall j: nat :: j in MissIndices(keys, cached, i) <==> j < i && keys[j] !in cached
    ensures cached == map[] ==> |MissIndices(keys, cached, i)| == i
  {
    if i > 0 {
      MissIndicesExact(keys, cached, i - 1);
    }
  }

  /** ... each once, in increasing order. */
  lemma {:induction false} MissIndicesIncreasing(keys: seq<string>, cached: map<string, string>, i: nat)
    requires i <= |keys|
    ensures Increasing(MissIndices(keys, cached, i), i)
  {
    if i > 0 {
      var prev := MissIndices(keys, cached, i - 1);
      MissIndicesIncreasing(keys, cached, i - 1);
      if keys[i - 1] !in cached {
        var next := prev + [i - 1];
        assert next == MissIndices(keys, cached, i);
        forall a, b | 0 <= a < b < |next|
          ensures next[a] < next[b]
        {
          if b == |prev| {
            assert next[a] == prev[a];
          }
        }
      }
    }
  }

  /** The answer the L1 pass of `batch_check` takes for a key: the cached response, if any. */
  function L1Answer(cached: map<string, string>, key: string): Option<string>
  {
    if key in cached then Some(cached[key]) else None
  }

  /** The answer `batch_check` takes from one L2 search. */
  function L2Answer(found: Option<seq<Doc>>): Option<string>
  {
    if Found(found) then found.value[0].response else None
  }

  /** The L1 key of every prompt of a batch. */
  function BatchKeys(cfg: Config.CacheConfig, digest: Context -> string,
                     prompts: seq<string>, uids: seq<string>, ctxs: seq<Context>): (keys: seq<string>)
    requires |uids| == |prompts| && |ctxs| == |prompts|
    ensures |keys| == |prompts|
    ensures forall j :: 0 <= j < |prompts| ==>
      keys[j] == ContextKey(prompts[j], uids[j], ctxs[j], cfg.enableContextHashing, cfg.contextFields, digest)
  {
    seq(|prompts|, j requires 0 <= j < |prompts| =>
      ContextKey(prompts[j], uids[j], ctxs[j], cfg.enableContextHashing, cfg.contextFields, digest))
  }

  /** The gathered L2 searches of the pending prompts, in order. */
  function PendingSearches(cfg: Config.CacheConfig, digest: Context -> string, env: BatchEnv,
                           prompts: seq<string>, uids: seq<string>, ctxs: seq<Context>, pending: seq<nat>)
    : (r: seq<Option<seq<Doc>>>)
    requires |uids| == |prompts| && |ctxs| == |prompts|
    requires forall a :: 0 <= a < |pending| ==> pending[a] < |prompts|
    ensures |r| == |pending|
    ensures forall a :: 0 <= a < |pending| ==>
      r[a] == BatchSearch(cfg, digest, env, prompts[pending[a]], uids[pending[a]], ctxs[pending[a]])
  {
    seq(|pending|, a requires 0 <= a < |pending| =>
      BatchSearch(cfg, digest, env, prompts[pending[a]], uids[pending[a]], ctxs[pending[a]]))
  }

  /** `n` calls of `increment_query`. */
  function Queries(n: nat): seq<Event>
  {
    if n == 0 then [] else Queries(n - 1) + [Query]
  }

  /** The recording calls of one prompt of the L1 pass: the hit, the L1 hit and the
      context hit when L1 holds its key, the L1 miss otherwise. */
  function L1SlotEvents(cached: map<string, string>, key: string, ctx: Context, env: BatchEnv): seq<Event>
  {
    if key in cached then [Hit(env.totalLatency), L1Hit(env.l1Latency)] + ContextEvents(ctx) else [L1Miss]
  }

  /** The recording calls of the first `i` prompts of the L1 pass, in order. */
  function L1PassEvents(cached: map<string, string>, keys: seq<string>, ctxs: seq<Context>, env: BatchEnv, i: nat)
    : seq<Event>
    requires i <= |keys| && |ctxs| == |keys|
  {
    if i == 0 then []
    else L1PassEvents(cached, keys, ctxs, env, i - 1) + L1SlotEvents(cached, keys[i - 1], ctxs[i - 1], env)
  }

  /** The recording calls of one pending prompt of the L2 pass: the hit, the L2 hit
      with the gathered latency shared out over the pending prompts, and the context
      hit when the search found something; the miss and the L2 miss otherwise. */
  function L2SlotEvents(found: Option<seq<Doc>>, ctx: Context, env: BatchEnv, pendingCount: nat): seq<Event>
    requires pendingCount > 0
  {
    if Found(found) then [Hit(env.totalLatency), L2Hit(env.l2Latency / pendingCount as real)] + ContextEvents(ctx)
    else [Miss, L2Miss]
  }

  /** The recording calls of the first `t` pending prompts of the L2 pass, in order. */
  function L2PassEvents(ctxs: seq<Context>, pending: seq<nat>, l2Results: seq<Option<seq<Doc>>>, env: BatchEnv, t: nat)
    : seq<Event>
    requires t <= |pending| && |l2Results| == |pending|
    requires forall a :: 0 <= a < |pending| ==> pending[a] < |ctxs|
  {
    if t == 0 then []
    else
      var before := L2PassEvents(ctxs, pending, l2Results, env, t - 1);
      before + L2SlotEvents(l2Results[t - 1], ctxs[pending[t - 1]], env, |pending|)
  }

  /** The first of the first `t` gathered searches whose answer is truthy, or `t`
      when there is none. */
  function FirstTruthy(l2Results: seq<Option<seq<Doc>>>, t: nat): (k: nat)
    requires t <= |l2Results|
    ensures k <= t
    ensures k < t ==> Truthy(L2Answer(l2Results[k]))
    ensures forall a :: 0 <= a < k ==> !Truthy(L2Answer(l2Results[a]))
  {
    if t == 0 then 0
    else
      var k := FirstTruthy(l2Results, t - 1);
      if k < t - 1 then k else if Truthy(L2Answer(l2Results[t - 1])) then t - 1 else t
  }

  /** The L2 pass fails: L1 refuses every write and some answer is truthy, so the
      write of the first such answer raises. */
  predicate Refused(l2Results: seq<Option<seq<Doc>>>, refusing: bool)
  {
    refusing && FirstTruthy(l2Results, |l2Results|) < |l2Results|
  }

  /** How many pending prompts the L2 pass serves: all of them, or, when it fails,
      those up to and including the one whose write raises. */
  function Served(l2Results: seq<Option<seq<Doc>>>, refusing: bool): (n: nat)
    ensures n <= |l2Results|
    ensures !Refused(l2Results, refusing) ==> n == |l2Results|
    ensures Refused(l2Results, refusing) ==> 0 < n && Truthy(L2Answer(l2Results[n - 1]))
  {
    if Refused(l2Results, refusing) then FirstTruthy(l2Results, |l2Results|) + 1 else |l2Results|
  }

  /** The L1 writes of the first `t` pending slots of the L2 pass, in order: a slot
      whose top response is truthy writes it, with the top document's metadata,
      under its own key. */
  function SlotWrites(keys: seq<string>, pending: seq<nat>, l2Results: seq<Option<seq<Doc>>>, t: nat): seq<L1Write>
    requires t <= |pending| && |l2Results| == |pending|
    requires forall a :: 0 <= a < |pending| ==> pending[a] < |keys|
  {
    if t == 0 then []
    else
      var answer := L2Answer(l2Results[t - 1]);
      SlotWrites(keys, pending, l2Results, t - 1)
      + if Truthy(answer) then [L1Write(keys[pending[t - 1]], answer.value, MetaOf(l2Results[t - 1].value[0].metadata))]
        else []
  }

  /** Filling slots with answers none of which is truthy leaves no slot truthy. */
  lemma {:induction false} FilledUntruthy(results: seq<Option<string>>, pending: seq<nat>,
                                          l2Results: seq<Option<seq<Doc>>>, t: nat)
    requires t <= |pending| && |l2Results| == |pending|
    requires forall a :: 0 <= a < |pending| ==> pending[a] < |results|
    requires forall a :: 0 <= a < t ==> !Truthy(L2Answer(l2Results[a]))
    requires forall j :: 0 <= j < |results| ==> !Truthy(results[j])
    ensures forall j :: 0 <= j < |results| ==> !Truthy(Filled(results, pending, l2Results, t)[j])
  {
    if t > 0 {
      FilledUntruthy(results, pending, l2Results, t - 1);
    }
  }

  /** The first `t` pending slots write nothing exactly when none of their answers
      is truthy. */
  lemma {:induction false} SlotWritesEmpty(keys: seq<string>, pending: seq<nat>, l2Results: seq<Option<seq<Doc>>>, t: nat)
    requires t <= |pending| && |l2Results| == |pending|
    requires forall a :: 0 <= a < |pending| ==> pending[a] < |keys|
    ensures SlotWrites(keys, pending, l2Results, t) == [] <==> forall a :: 0 <= a < t ==> !Truthy(L2Answer(l2Results[a]))
  {
    if t > 0 {
      SlotWritesEmpty(keys, pending, l2Results, t - 1);
    }
  }

  /** A cache that can hold nothing took none of the writes of a chain, so none of
      the answers that would have been written was truthy. */
  lemma ChainUntruthy(keys: seq<string>, pending: seq<nat>, l2Results: seq<Option<seq<Doc>>>, t: nat,
                      start: map<string, Cached>, now: map<string, Cached>, maxSize: int)
    requires t <= |pending| && |l2Results| == |pending|
    requires forall a :: 0 <= a < |pending| ==> pending[a] < |keys|
    requires maxSize < 1 && WritesChain(start, now, SlotWrites(keys, pending, l2Results, t), maxSize)
    ensures forall a :: 0 <= a < t ==> !Truthy(L2Answer(l2Results[a]))
  {
    SlotWritesEmpty(keys, pending, l2Results, t);
  }

  /** The batch's answers once the first `t` pending slots of the L2 pass are
      served: each of them holds its gathered L2 answer. */
  function Filled(results: seq<Option<string>>, pending: seq<nat>, l2Results: seq<Option<seq<Doc>>>, t: nat)
    : (r: seq<Option<string>>)
    requires t <= |pending| && |l2Results| == |pending|
    requires forall a :: 0 <= a < |pending| ==> pending[a] < |results|
    ensures |r| == |results|
  {
    if t == 0 then results
    else Filled(results, pending, l2Results, t - 1)[pending[t - 1] := L2Answer(l2Results[t - 1])]
  }

  /** After `t` served slots, every served slot holds its L2 answer and every
      other slot keeps its L1 result. */
  lemma {:induction false} FilledSlots(results: seq<Option<string>>, pending: seq<nat>,
                                       l2Results: seq<Option<seq<Doc>>>, t: nat)
    requires t <= |pending| && |l2Results| == |pending| && Increasing(pending, |results|)
    ensures forall a :: 0 <= a < t ==> Filled(results, pending, l2Results, t)[pending[a]] == L2Answer(l2Results[a])
    ensures forall j :: 0 <= j < |results| && (forall a :: 0 <= a < t ==> pending[a] != j) ==>
      Filled(results, pending, l2Results, t)[j] == results[j]
  {
    if t > 0 {
      FilledSlots(results, pending, l2Results, t - 1);
    }
  }

  /** The L1 writes of a whole batch over the L1 responses `cached` before the call:
      one per prompt L1 did not answer whose L2 search found a truthy top response,
      in index order. */
  ghost function BatchWrites(cached: map<string, string>, cfg: Config.CacheConfig, digest: Context -> string,
                             env: BatchEnv, prompts: seq<string>, uids: seq<string>, ctxs: seq<Context>): seq<L1Write>
    requires |uids| == |prompts| && |ctxs| == |prompts|
  {
    var keys := BatchKeys(cfg, digest, prompts, uids, ctxs);
    var pending := MissIndices(keys, cached, |keys|);
    MissIndicesIncreasing(keys, cached, |keys|);
    SlotWrites(keys, pending, PendingSearches(cfg, digest, env, prompts, uids, ctxs, pending), |pending|)
  }

  /** With no truthy answer to write, or with an L1 tier that accepts writes, the L2
      pass serves every pending prompt. */
  lemma ServedAll(l2Results: seq<Option<seq<Doc>>>, refusing: bool)
    requires refusing ==> forall a :: 0 <= a < |l2Results| ==> !Truthy(L2Answer(l2Results[a]))
    ensures !Refused(l2Results, refusing) && Served(l2Results, refusing) == |l2Results|
  {
  }

  /** When L1 refuses writes, the L2 pass stops at the first truthy answer, having
      served the prompts up to and including it. */
  lemma ServedUpTo(l2Results: seq<Option<seq<Doc>>>, t: nat)
    requires t < |l2Results| && Truthy(L2Answer(l2Results[t]))
    requires forall a :: 0 <= a < t ==> !Truthy(L2Answer(l2Results[a]))
    ensures Refused(l2Results, true) && Served(l2Results, true) == t + 1
  {
  }

  /** One more prompt of the L1 pass extends the recorder's history by that prompt's calls. */
  lemma L1PassStep(s0: Stats, mid: Stats, after: Stats, cached: map<string, string>, keys: seq<string>,
                   ctxs: seq<Context>, env: BatchEnv, i: nat)
    requires i < |keys| && |ctxs| == |keys|
    requires mid == ApplyAll(s0, L1PassEvents(cached, keys, ctxs, env, i))
    requires after == ApplyAll(mid, L1SlotEvents(cached, keys[i], ctxs[i], env))
    ensures after == ApplyAll(s0, L1PassEvents(cached, keys, ctxs, env, i + 1))
  {
    ApplyAllConcat(s0, L1PassEvents(cached, keys, ctxs, env, i), L1SlotEvents(cached, keys[i], ctxs[i], env));
  }

  /** One more pending prompt of the L2 pass extends the recorder's history by that
      prompt's calls. */
  lemma L2PassStep(s0: Stats, mid: Stats, after: Stats, ctxs: seq<Context>, pending: seq<nat>,
                   l2Results: seq<Option<seq<Doc>>>, env: BatchEnv, t: nat)
    requires t < |pending| && |l2Results| == |pending|
    requires forall a :: 0 <= a < |pending| ==> pending[a] < |ctxs|
    requires mid == ApplyAll(s0, L2PassEvents(ctxs, pending, l2Results, env, t))
    requires after == ApplyAll(mid, L2SlotEvents(l2Results[t], ctxs[pending[t]], env, |pending|))
    ensures after == ApplyAll(s0, L2PassEvents(ctxs, pending, l2Results, env, t + 1))
  {
    ApplyAllConcat(s0, L2PassEvents(ctxs, pending, l2Results, env, t),
                   L2SlotEvents(l2Results[t], ctxs[pending[t]], env, |pending|));
  }

  /** The gathered L2 searches of a whole batch over the L1 responses `cached`. */
  ghost function BatchSearches(cached: map<string, string>, cfg: Config.CacheConfig, digest: Context -> string,
                               env: BatchEnv, prompts: seq<string>, uids: seq<string>, ctxs: seq<Context>)
    : seq<Option<seq<Doc>>>
    requires |uids| == |prompts| && |ctxs| == |prompts|
  {
    var keys := BatchKeys(cfg, digest, prompts, uids, ctxs);
    MissIndicesIncreasing(keys, cached, |keys|);
    PendingSearches(cfg, digest, env, prompts, uids, ctxs, MissIndices(keys, cached, |keys|))
  }

  /** The recording calls of the L2 pass of a whole batch; `refusing` says that L1
      refuses every write. */
  ghost function BatchL2Events(cached: map<string, string>, cfg: Config.CacheConfig, digest: Context -> string,
                               env: BatchEnv, prompts: seq<string>, uids: seq<string>, ctxs: seq<Context>,
                               refusing: bool): seq<Event>
    requires |uids| == |prompts| && |ctxs| == |prompts|
  {
    var keys := BatchKeys(cfg, digest, prompts, uids, ctxs);
    MissIndicesIncreasing(keys, cached, |keys|);
    var l2Results := BatchSearches(cached, cfg, digest, env, prompts, uids, ctxs);
    L2PassEvents(ctxs, MissIndices(keys, cached, |keys|), l2Results, env, Served(l2Results, refusing))
  }

  /** The recording calls of a whole batch, in order: one query per prompt, the L1
      pass's calls when there is an L1 tier, then the L2 pass's. */
  ghost function BatchEvents(cached: map<string, string>, cfg: Config.CacheConfig, digest: Context -> string,
                             env: BatchEnv, prompts: seq<string>, uids: seq<string>, ctxs: seq<Context>,
                             hasL1: bool, refusing: bool): seq<Event>
    requires |uids| == |prompts| && |ctxs| == |prompts|
  {
    Queries(|prompts|)
      + (if hasL1 then L1PassEvents(cached, BatchKeys(cfg, digest, prompts, uids, ctxs), ctxs, env, |prompts|) else [])
      + BatchL2Events(cached, cfg, digest, env, prompts, uids, ctxs, refusing)
  }

  /** One more pending slot of the L2 pass extends the chain of writes by that
      slot's write, when its answer is truthy. */
  lemma WriteChainStep(keys: seq<string>, pending: seq<nat>, l2Results: seq<Option<seq<Doc>>>, t: nat,
                       start: map<string, Cached>, prev: map<string, L1CacheEntry>, now: map<string, L1CacheEntry>,
                       maxSize: int)
    requires t < |pending| && |l2Results| == |pending|
    requires forall a :: 0 <= a < |pending| ==> pending[a] < |keys|
    requires WritesChain(start, Contents(prev), SlotWrites(keys, pending, l2Results, t), maxSize)
    requires Truthy(L2Answer(l2Results[t])) ==> maxSize >= 1
    requires var answer := L2Answer(l2Results[t]);
      if Truthy(answer) then StoreL1Effect(prev, now, keys[pending[t]], answer.value, MetaOf(l2Results[t].value[0].metadata), maxSize)
      else now == prev
    ensures WritesChain(start, Contents(now), SlotWrites(keys, pending, l2Results, t + 1), maxSize)
  {
    var ws := SlotWrites(keys, pending, l2Results, t);
    var answer := L2Answer(l2Results[t]);
    if Truthy(answer) {
      var w := L1Write(keys[pending[t]], answer.value, MetaOf(l2Results[t].value[0].metadata));
      StoreL1Contents(prev, now, w, maxSize);
      var next := ws + [w];
      assert SlotWrites(keys, pending, l2Results, t + 1) == next;
      assert next[..|next| - 1] == ws && next[|next| - 1] == w;
      var mid := Contents(prev);
      assert WritesChain(start, mid, next[..|next| - 1], maxSize) && WriteStep(mid, Contents(now), next[|next| - 1], maxSize);
    } else {
      assert SlotWrites(keys, pending, l2Results, t + 1) == ws;
    }
  }

  /** The two passes together give the batch's answers: the L1 responses for the
      prompts L1 holds, and the gathered L2 answers, in order, for the others. */
  lemma {:induction false} BatchMerge(cached: map<string, string>, cfg: Config.CacheConfig, digest: Context -> string,
                                      env: BatchEnv, prompts: seq<string>, userIds: seq<string>, ctxs: seq<Context>,
                                      keys: seq<string>, pending: seq<nat>, l2Results: seq<Option<seq<Doc>>>,
                                      results: seq<Option<string>>)
    requires |userIds| == |prompts| && |ctxs| == |prompts| && |keys| == |prompts| && |results| == |prompts|
    requires forall j :: 0 <= j < |prompts| ==>
      keys[j] == ContextKey(prompts[j], userIds[j], ctxs[j], cfg.enableContextHashing, cfg.contextFields, digest)
    requires Increasing(pending, |prompts|) && |l2Results| == |pending|
    requires forall j: nat :: j in pending <==> j < |prompts| && keys[j] !in cached
    requires forall a :: 0 <= a < |pending| ==>
      l2Results[a] == BatchSearch(cfg, digest, env, prompts[pending[a]], userIds[pending[a]], ctxs[pending[a]])
    requires forall j :: 0 <= j < |prompts| ==> results[j] == L1Answer(cached, keys[j])
    ensures Filled(results, pending, l2Results, |pending|) == BatchSpec(cached, cfg, digest, env, prompts, userIds, ctxs)
  {
    var answers := Filled(results, pending, l2Results, |pending|);
    var spec := BatchSpec(cached, cfg, digest, env, prompts, userIds, ctxs);
    FilledSlots(results, pending, l2Results, |pending|);
    forall j | 0 <= j < |prompts|
      ensures answers[j] == spec[j]
    {
      if keys[j] !in cached {
        assert j in pending;
        var a :| 0 <= a < |pending| && pending[a] == j;
      }
    }
  }
  /** The L2 pass over the L1 results of a batch: the pending prompts are listed in
      order, the answers it fills in are the batch's answers and the writes it
      makes are the batch's writes. */
  lemma L2PassAnswers(cached: map<string, string>, cfg: Config.CacheConfig, digest: Context -> string,
                      env: BatchEnv, prompts: seq<string>, uids: seq<string>, ctxs: seq<Context>,
                      results: seq<Option<string>>)
    requires |uids| == |prompts| && |ctxs| == |prompts| && |results| == |prompts|
    requires forall j :: 0 <= j < |prompts| ==> results[j] == L1Answer(cached, BatchKeys(cfg, digest, prompts, uids, ctxs)[j])
    ensures var keys := BatchKeys(cfg, digest, prompts, uids, ctxs);
      var pending := MissIndices(keys, cached, |keys|);
      && Increasing(pending, |keys|)
      && var l2Results := PendingSearches(cfg, digest, env, prompts, uids, ctxs, pending);
      && Filled(results, pending, l2Results, |pending|) == BatchSpec(cached, cfg, digest, env, prompts, uids, ctxs)
      && SlotWrites(keys, pending, l2Results, |pending|) == BatchWrites(cached, cfg, digest, env, prompts, uids, ctxs)
  {
    var keys := BatchKeys(cfg, digest, prompts, uids, ctxs);
    var pending := MissIndices(keys, cached, |keys|);
    MissIndicesExact(keys, cached, |keys|);
    MissIndicesIncreasing(keys, cached, |keys|);
    var l2Results := PendingSearches(cfg, digest, env, prompts, uids, ctxs, pending);
    BatchMerge(cached, cfg, digest, env, prompts, uids, ctxs, keys, pending, l2Results, results);
  }




  /** Indices listed in increasing order, each below `n`. */
  predicate Increasing(s: seq<nat>, n: nat)
  {
    (forall a, b :: 0 <= a < b < |s| ==> s[a] < s[b]) && (forall a :: 0 <= a < |s| ==> s[a] < n)
  }

  // ---------------------------------------------------------------- the manager object

  class SemanticCacheManager {
    var config: Config.CacheConfig
    const metrics: CacheMetrics
    const l1: L1Cache?
    const tags: TagManager?
    const redis: RedisStore
    const hasReranker: bool
    const digest: Context -> string

    /** The objects are consistent, and no query was counted as both a hit and a miss. */
    ghost predicate Valid()
      reads this, metrics, l1
    {
      && metrics.Valid()
      && (l1 != null ==> l1.Valid())
      && (tags != null ==> tags.redis == redis)
      && metrics.cacheHits + metrics.cacheMisses <= metrics.totalQueries
    }

    /** `_generate_context_key` under the current configuration. */
    function Key(prompt: string, userId: string, ctx: Context): string
      reads this
    {
      ContextKey(prompt, userId, ctx, config.enableContextHashing, config.contextFields, digest)
    }

    /** What L1 holds under `key`. */
    function L1ViewOf(key: string): L1View
      reads this, l1
    {
      if l1 == null then NoL1
      else if key in l1.cache then L1Found(l1.cache[key].response)
      else L1Missed(l1.maxSize >= 1)
    }

    /** The cached responses by key; none without an L1 tier. */
    function L1Responses(): map<string, string>
      reads this, l1
    {
      if l1 == null then map[] else l1.Responses()
    }

    /** `__init__` followed by `initialize`: the recorder, the L1 tier when enabled,
        the tag index over the shared Redis client when enabled. */
    constructor (config: Config.CacheConfig, redis: RedisStore, digest: Context -> string)
      requires config.l1Cache.evictionStrategy in Config.EvictionStrategies
      ensures Valid() && fresh(metrics) && metrics.Snapshot() == Initial()
      ensures this.config == config && this.redis == redis && this.digest == digest
      ensures hasReranker == config.reranker.enabled
      ensures (l1 != null) == config.l1Cache.enabled && (tags != null) == config.enableTags
      ensures l1 != null ==> fresh(l1) && l1.cache == map[] && l1.maxSize == config.l1Cache.maxSize
                             && l1.ttlSeconds == config.l1Cache.ttlSeconds
                             && ParseStrategy(config.l1Cache.evictionStrategy) == Ok(l1.strategy)
    {
      this.config := config;
      this.redis := redis;
      this.digest := digest;
      metrics := new CacheMetrics();
      hasReranker := config.reranker.enabled;
      var cache: L1Cache? := null;
      if config.l1Cache.enabled {
        var strategy := StrategyOf(config);
        cache := new L1Cache(config.l1Cache.maxSize, config.l1Cache.ttlSeconds, strategy);
      }
      l1 := cache;
      var index: TagManager? := null;
      if config.enableTags {
        index := new TagManager(redis);
      }
      tags := index;
    }

    /** One recording call on the metrics object. */
    method Emit(e: Event, ghost s0: Stats, ghost ev: seq<Event>) returns (ghost ev': seq<Event>)
      requires metrics.Valid() && metrics.Snapshot() == ApplyAll(s0, ev)
      modifies metrics
      ensures metrics.Valid() && ev' == ev + [e] && metrics.Snapshot() == ApplyAll(s0, ev')
      ensures metrics.Snapshot() == Apply(old(metrics.Snapshot()), e)
    {
      match e {
      case Query => metrics.IncrementQuery();
      case Hit(lat) => metrics.RecordHit(lat);
      case Miss => metrics.RecordMiss();
      case Error => metrics.RecordError();
      case Rerank => metrics.RecordRerank();
      case L1Hit(lat) => metrics.RecordL1Hit(lat);
      case L1Miss => metrics.RecordL1Miss();
      case L2Hit(lat) => metrics.RecordL2Hit(lat);
      case L2Miss => metrics.RecordL2Miss();
      case ContextHit(t) => metrics.RecordContextHit(t);
      case TagInvalidation(t, n) => metrics.RecordTagInvalidation(t, n);
      }
      ApplyAllAppend(s0, ev, e);
      ev' := ev + [e];
    }

    /** The recording calls `es`, made in order. */
    method Record(es: seq<Event>)
      requires metrics.Valid()
      modifies metrics
      ensures metrics.Valid() && metrics.Snapshot() == ApplyAll(old(metrics.Snapshot()), es)
    {
      ghost var s0 := metrics.Snapshot();
      ghost var done: seq<Event> := [];
      var i := 0;
      while i < |es|
        invariant 0 <= i <= |es| && done == es[..i]
        invariant metrics.Valid() && metrics.Snapshot() == ApplyAll(s0, done)
      {
        done := Emit(es[i], s0, done);
        assert es[..i + 1] == es[..i] + [es[i]];
        i := i + 1;
      }
      assert es[..i] == es;
    }

    /** `check`: the two-tier lookup, with the result, the recording calls and the
        L1 write that `CheckSpec` prescribes for the L1 contents before the call. */
    method Check(prompt: string, userId: string, ctx: Context, filters: Filters, env: CheckEnv)
      returns (r: Option<string>, ghost events: seq<Event>)
      requires Valid()
      modifies metrics, l1, if l1 == null then {} else l1.cache.Values
      ensures Valid()
      ensures var spec := CheckSpec(config, hasReranker, digest, old(L1ViewOf(Key(prompt, userId, ctx))), userId, ctx, filters, env);
        && r == spec.result && events == spec.events
        && metrics.Snapshot() == ApplyAll(old(metrics.Snapshot()), events)
        && (l1 != null ==> L1Effect(old(l1.cache), l1.cache, Key(prompt, userId, ctx), spec.cached, l1.maxSize))
      ensures l1 != null ==> forall e :: e in old(l1.cache).Values ==>
        e.accessCount == old(e.accessCount) + Finds(old(l1.cache), Key(prompt, userId, ctx), e)
    {
      ghost var s0 := metrics.Snapshot();
      var l1Key := Key(prompt, userId, ctx);
      ghost var view := L1ViewOf(l1Key);
      Record([Query]);
      ghost var rest;
      r, rest := Tiers(l1Key, view, userId, ctx, filters, env);
      ApplyAllConcat(s0, [Query], rest);
      events := [Query] + rest;
      CheckCounts(config, hasReranker, digest, view, userId, ctx, filters, env);
      ApplyAllCounts(s0, events);
    }

    /** The L1 lookup, and the L2 lookup after an L1 miss or without an L1 tier. */
    method Tiers(l1Key: string, ghost view: L1View, userId: string, ctx: Context, filters: Filters, env: CheckEnv)
      returns (r: Option<string>, ghost events: seq<Event>)
      requires metrics.Valid()
      requires view == L1ViewOf(l1Key)
      requires l1 != null ==> l1.Valid()
      modifies metrics, l1, if l1 == null then {} else l1.cache.Values
      ensures metrics.Valid() && (l1 != null ==> l1.Valid())
      ensures var spec := TiersSpec(config, hasReranker, digest, view, userId, ctx, filters, env);
        && r == spec.result && events == spec.events
        && metrics.Snapshot() == ApplyAll(old(metrics.Snapshot()), events)
        && (l1 != null ==> L1Effect(old(l1.cache), l1.cache, l1Key, spec.cached, l1.maxSize))
      ensures l1 != null ==> forall e :: e in old(l1.cache).Values ==>
        e.accessCount == old(e.accessCount) + Finds(old(l1.cache), l1Key, e)
    {
      if l1 == null {
        r, events := CheckL2(l1Key, view, userId, ctx, filters, env);
        return;
      }
      var entry := l1.Get(l1Key);
      if entry.Some? {
        events := [Hit(env.totalLatency), L1Hit(env.l1Latency)] + ContextEvents(ctx);
        Record([Hit(env.totalLatency), L1Hit(env.l1Latency)] + ContextEvents(ctx));
        r := Some(entry.value.response);
      } else {
        ghost var s0 := metrics.Snapshot();
        Record([L1Miss]);
        ghost var rest;
        r, rest := CheckL2(l1Key, L1Missed(l1.maxSize >= 1), userId, ctx, filters, env);
        ApplyAllConcat(s0, [L1Miss], rest);
        events := [L1Miss] + rest;
      }
    }

    /** The L2 part of `check`, entered after an L1 miss or without an L1 tier. */
    method CheckL2(l1Key: string, ghost view: L1View, userId: string, ctx: Context, filters: Filters, env: CheckEnv)
      returns (r: Option<string>, ghost events: seq<Event>)
      requires metrics.Valid()
      requires view == if l1 == null then NoL1 else L1Missed(l1.maxSize >= 1)
      requires l1 != null ==> l1.Valid() && l1Key !in l1.cache
      modifies metrics, l1
      ensures metrics.Valid() && (l1 != null ==> l1.Valid())
      ensures var spec := L2Spec(config, hasReranker, digest, view, userId, ctx, filters, env);
        && r == spec.result && events == spec.events
        && metrics.Snapshot() == ApplyAll(old(metrics.Snapshot()), events)
        && (l1 != null ==> L1Effect(old(l1.cache), l1.cache, l1Key, spec.cached, l1.maxSize))
    {
      var fe := CheckFilter(config, digest, userId, ctx, filters);
      var found := SearchWithRetries(fe, env);
      if found.None? {
        // one error from the retry loop, one from the handler in `check`
        events := [Error, Error];
        Record([Error, Error]);
        r := None;
      } else if found.value == [] {
        events := [Miss, L2Miss];
        Record([Miss, L2Miss]);
        r := None;
      } else {
        r, events := Serve(l1Key, view, ctx, found.value, env);
      }
    }

    /** `_retry_operation` around the L2 search: the first attempt that does not raise. */
    method SearchWithRetries(fe: Option<FilterExpr>, env: CheckEnv) returns (found: Option<seq<Doc>>)
      ensures found == FirstSuccess(Attempts(env, fe), 0, AttemptCount(config.maxRetries))
    {
      var sleeps, calls;
      found, sleeps, calls := RunRetries(config.maxRetries, config.retryDelay, config.retryBackoff, Attempts(env, fe));
    }

    /** A non-empty L2 answer: the threshold re-check, the reranking and the recorded hit. */
    method Serve(l1Key: string, ghost view: L1View, ctx: Context, docs: seq<Doc>, env: CheckEnv)
      returns (r: Option<string>, ghost events: seq<Event>)
      requires docs != []
      requires metrics.Valid()
      requires view == if l1 == null then NoL1 else L1Missed(l1.maxSize >= 1)
      requires l1 != null ==> l1.Valid() && l1Key !in l1.cache
      modifies metrics, l1
      ensures metrics.Valid() && (l1 != null ==> l1.Valid())
      ensures var spec := ServeSpec(config, hasReranker, view, ctx, docs, env);
        && r == spec.result && events == spec.events
        && metrics.Snapshot() == ApplyAll(old(metrics.Snapshot()), events)
        && (l1 != null ==> L1Effect(old(l1.cache), l1.cache, l1Key, spec.cached, l1.maxSize))
    {
      var top := docs[0];
      if top.distance.Some? && top.distance.value > config.distanceThreshold {
        events := [Miss];
        Record([Miss]);
        return None, events;
      }
      ghost var s0 := metrics.Snapshot();
      var ranked := docs;
      if hasReranker {
        ranked := RerankResults(docs, env.rerank);
      }
      var head := ServedHead(hasReranker, ctx, env);
      Record(head);
      ghost var rest;
      r, rest := ServeTop(l1Key, view, ranked, env);
      ApplyAllConcat(s0, head, rest);
      events := head + rest;
    }

    /** The staleness and version checks on the top hit, then its response and the L1 write. */
    method ServeTop(l1Key: string, ghost view: L1View, ranked: seq<Doc>, env: CheckEnv)
      returns (r: Option<string>, ghost events: seq<Event>)
      requires metrics.Valid()
      requires view == if l1 == null then NoL1 else L1Missed(l1.maxSize >= 1)
      requires l1 != null ==> l1.Valid() && l1Key !in l1.cache
      modifies metrics, l1
      ensures metrics.Valid() && (l1 != null ==> l1.Valid())
      ensures var spec := TopSpec(config, view, ranked, env.now, env.parseTime);
        && r == spec.result && events == spec.events
        && metrics.Snapshot() == ApplyAll(old(metrics.Snapshot()), events)
        && (l1 != null ==> L1Effect(old(l1.cache), l1.cache, l1Key, spec.cached, l1.maxSize))
    {
      events := [];
      if ranked == [] {
        // `cached_results[0]` raises IndexError
        events := [Error];
        Record([Error]);
        return None, events;
      }
      if config.enableStaleWhileRevalidate {
        var age := EntryAge(ranked[0].metadata, env.now, env.parseTime);
        if Classify(age, config.ttl, config.maxStaleAgeSeconds) != Fresh {
          // recording a stale entry raises AttributeError
          events := [Error];
          Record([Error]);
          return None, events;
        }
      }
      if config.enableVersionChecking && VersionMismatch(ranked[0].metadata, config.cacheVersion) {
        // recording a version mismatch raises AttributeError
        events := [Error];
        Record([Error]);
        return None, events;
      }
      r := ranked[0].response;
      if l1 != null && Truthy(r) {
        var entry := new L1CacheEntry(r.value, Some(MetaOf(ranked[0].metadata)), env.now);
        var ok := l1.Set(l1Key, entry);
        if !ok {
          // the eviction library rejects every value when `maxsize` is below 1
          events := [Error];
          Record([Error]);
          return None, events;
        }
        BoundedPutSize(old(l1.cache), l1.cache, l1Key, entry, l1.maxSize);
      }
    }

    /** `store`: the retried write to the vector store, then the L1 entry, then the
        tags.  A failure after the write leaves the written entry in place. */
    method Store(prompt: string, response: string, userId: string, ctx: Context, meta: map<string, Meta>,
                 entryTags: seq<string>, filters: Filters, ttl: Option<int>, env: StoreEnv)
      returns (r: Result<string>)
      requires Valid() && IsDict(filters)
      modifies metrics, l1, redis
      ensures Valid()
      ensures var written := FirstSuccess(env.write, 0, AttemptCount(config.maxRetries));
        written.None? ==>
          && r.Err? && redis.data == old(redis.data)
          && (l1 != null ==> l1.cache == old(l1.cache))
          && metrics.Snapshot() == ApplyAll(old(metrics.Snapshot()), [Error, Error])
      ensures var written := FirstSuccess(env.write, 0, AttemptCount(config.maxRetries));
        written.Some? ==>
          var d1 := old(redis.data)[written.value := StoredValue(config, digest, prompt, response, userId, ctx, meta,
                                                                 filters, ttl, env.cachedAt)];
          var l1Ok := l1 == null || l1.maxSize >= 1;
          var tagging := l1Ok && entryTags != [] && tags != null;
          && redis.data == (if tagging then Tagged(d1, written.value, TagKeySet(entryTags)) else d1)
          && (l1 != null ==> StoreL1Effect(old(l1.cache), l1.cache, Key(prompt, userId, ctx), response,
                                           StoreMetadata(meta, env.cachedAt, ctx, config.enableContextHashing, digest), l1.maxSize))
          && (r.Ok? <==> l1Ok && (tagging ==> forall i :: 0 <= i < |entryTags| ==> IsSet(d1, TagKey(entryTags[i]))))
          && (r.Ok? ==> r.value == written.value && metrics.Snapshot() == old(metrics.Snapshot()))
          && (r.Err? ==> metrics.Snapshot() == Apply(old(metrics.Snapshot()), Error))
    {
      var written := WriteWithRetries(env);
      if written.None? {
        // one error from the retry loop, one from the handler in `store`
        RecordErrors([Error, Error]);
        return Err("CacheOperationError: Failed to store in cache");
      }
      r := StoreWritten(written.value, prompt, response, userId, ctx, meta, entryTags, filters, ttl, env);
    }

    /** The end of `store` once the write has succeeded under `key`: the entry in the
        vector store, the L1 entry, then the tags; an L1 or tag failure is recorded as
        an error. */
    method StoreWritten(key: string, prompt: string, response: string, userId: string, ctx: Context,
                        meta: map<string, Meta>, entryTags: seq<string>, filters: Filters, ttl: Option<int>,
                        env: StoreEnv)
      returns (r: Result<string>)
      requires Valid() && IsDict(filters)
      modifies metrics, l1, redis
      ensures Valid() && config == old(config)
      ensures var d1 := old(redis.data)[key := StoredValue(config, digest, prompt, response, userId, ctx, meta,
                                                           filters, ttl, env.cachedAt)];
        var l1Ok := l1 == null || l1.maxSize >= 1;
        var tagging := l1Ok && entryTags != [] && tags != null;
        && redis.data == (if tagging then Tagged(d1, key, TagKeySet(entryTags)) else d1)
        && (l1 != null ==> StoreL1Effect(old(l1.cache), l1.cache, Key(prompt, userId, ctx), response,
                                         StoreMetadata(meta, env.cachedAt, ctx, config.enableContextHashing, digest), l1.maxSize))
        && (r.Ok? <==> l1Ok && (tagging ==> forall i :: 0 <= i < |entryTags| ==> IsSet(d1, TagKey(entryTags[i]))))
        && (r.Ok? ==> r.value == key && metrics.Snapshot() == old(metrics.Snapshot()))
        && (r.Err? ==> metrics.Snapshot() == Apply(old(metrics.Snapshot()), Error))
    {
      var value := StoredValue(config, digest, prompt, response, userId, ctx, meta, filters, ttl, env.cachedAt);
      var md := StoreMetadata(meta, env.cachedAt, ctx, config.enableContextHashing, digest);
      r := StoreSteps(key, value, Key(prompt, userId, ctx), response, md, entryTags, env.now);
    }

    /** The steps of `store` after the write: the entry in the vector store, the L1
        entry, then the tags. */
    method StoreSteps(key: string, value: RedisValue, l1Key: string, response: string, md: map<string, Meta>,
                      entryTags: seq<string>, now: real)
      returns (r: Result<string>)
      requires Valid()
      modifies metrics, l1, redis
      ensures Valid()
      ensures var d1 := old(redis.data)[key := value];
        var l1Ok := l1 == null || l1.maxSize >= 1;
        var tagging := l1Ok && entryTags != [] && tags != null;
        && redis.data == (if tagging then Tagged(d1, key, TagKeySet(entryTags)) else d1)
        && (l1 != null ==> StoreL1Effect(old(l1.cache), l1.cache, l1Key, response, md, l1.maxSize))
        && (r.Ok? <==> l1Ok && (tagging ==> forall i :: 0 <= i < |entryTags| ==> IsSet(d1, TagKey(entryTags[i]))))
        && (r.Ok? ==> r.value == key && metrics.Snapshot() == old(metrics.Snapshot()))
        && (r.Err? ==> metrics.Snapshot() == Apply(old(metrics.Snapshot()), Error))
    {
      redis.data := redis.data[key := value];
      var ok := StoreL1(l1Key, response, md, now);
      if ok {
        ok := StoreTags(key, entryTags);
      }
      if !ok {
        metrics.RecordError();
        return Err("CacheOperationError: Failed to store in cache");
      }
      r := Ok(key);
    }

    /** Recording calls that are all errors: the manager stays valid. */
    method RecordErrors(es: seq<Event>)
      requires Valid() && forall i :: 0 <= i < |es| ==> es[i].Error?
      modifies metrics
      ensures Valid() && metrics.Snapshot() == ApplyAll(old(metrics.Snapshot()), es)
    {
      ghost var s0 := metrics.Snapshot();
      Record(es);
      ApplyAllCounts(s0, es);
      ErrorCounts(es);
    }

    /** `_retry_operation` around the write: the first attempt that does not raise. */
    method WriteWithRetries(env: StoreEnv) returns (written: Option<string>)
      ensures written == FirstSuccess(env.write, 0, AttemptCount(config.maxRetries))
    {
      var sleeps, calls;
      written, sleeps, calls := RunRetries(config.maxRetries, config.retryDelay, config.retryBackoff, env.write);
    }

    /** The L1 entry `store` writes; it fails only when the cache cannot hold anything. */
    method StoreL1(l1Key: string, response: string, md: map<string, Meta>, now: real) returns (ok: bool)
      requires l1 != null ==> l1.Valid()
      modifies l1
      ensures l1 != null ==> l1.Valid() && StoreL1Effect(old(l1.cache), l1.cache, l1Key, response, md, l1.maxSize)
      ensures ok <==> l1 == null || l1.maxSize >= 1
    {
      ok := true;
      if l1 != null {
        var entry := new L1CacheEntry(response, Some(md), now);
        ok := l1.Set(l1Key, entry);
        if ok {
          BoundedPutSize(old(l1.cache), l1.cache, l1Key, entry, l1.maxSize);
        }
      }
    }

    /** The tags `store` adds for a written entry, when there are tags and a tag index. */
    method StoreTags(key: string, entryTags: seq<string>) returns (ok: bool)
      requires tags != null ==> tags.redis == redis
      modifies redis
      ensures redis.data == if entryTags != [] && tags != null then Tagged(old(redis.data), key, TagKeySet(entryTags))
                            else old(redis.data)
      ensures ok <==> entryTags == [] || tags == null || forall i :: 0 <= i < |entryTags| ==> IsSet(old(redis.data), TagKey(entryTags[i]))
    {
      ok := true;
      if entryTags != [] && tags != null {
        ok := tags.AddTags(key, entryTags);
      }
    }

    /** `batch_check`: the queries counted up front, the L1 pass over every prompt,
        then one L2 search per prompt L1 did not answer.  The answers are those of
        `BatchSpec` over the L1 contents before the call; the only failure after
        the input checks is an L1 write that the cache rejects. */
    method BatchCheck(prompts: seq<string>, userIds: seq<string>, contexts: seq<Context>, env: BatchEnv)
      returns (r: Result<seq<Option<string>>>)
      requires Valid()
      modifies metrics, l1, if l1 == null then {} else l1.cache.Values
      ensures Valid()
      ensures metrics.errors == old(metrics.errors)
      ensures prompts == [] ==> r == Ok([]) && metrics.Snapshot() == old(metrics.Snapshot())
      ensures prompts != [] && !BatchShape(prompts, userIds, contexts) ==>
        r.Err? && metrics.Snapshot() == old(metrics.Snapshot())
      ensures prompts != [] && BatchShape(prompts, userIds, contexts) ==>
        var uids, ctxs := OrBlank(userIds, |prompts|, ""), OrBlank(contexts, |prompts|, map[]);
        && metrics.Snapshot() == ApplyAll(old(metrics.Snapshot()),
             BatchEvents(old(L1Responses()), config, digest, env, prompts, uids, ctxs, l1 != null, l1 != null && l1.maxSize < 1))
        && (r.Err? <==> Refused(BatchSearches(old(L1Responses()), config, digest, env, prompts, uids, ctxs),
                                l1 != null && l1.maxSize < 1))
        && metrics.totalQueries == old(metrics.totalQueries) + |prompts|
      ensures r.Ok? && prompts != [] ==>
        && BatchShape(prompts, userIds, contexts)
        && r.value == BatchSpec(old(L1Responses()), config, digest, env, prompts,
                                OrBlank(userIds, |prompts|, ""), OrBlank(contexts, |prompts|, map[]))
        && metrics.cacheHits + metrics.cacheMisses == old(metrics.cacheHits + metrics.cacheMisses) + |prompts|
      ensures r.Err? && BatchShape(prompts, userIds, contexts) ==> l1 != null && l1.maxSize < 1
      ensures r.Ok? && l1 != null && l1.maxSize < 1 ==> forall i :: 0 <= i < |r.value| ==> !Truthy(r.value[i])
      ensures l1 != null ==> forall e :: e in old(l1.cache).Values ==>
        e.accessCount == old(e.accessCount)
          + if prompts != [] && BatchShape(prompts, userIds, contexts)
            then Hits(old(l1.cache), BatchKeys(config, digest, prompts, OrBlank(userIds, |prompts|, ""),
                                               OrBlank(contexts, |prompts|, map[])), e)
            else 0
      ensures l1 != null && r.Ok? && prompts != [] && BatchShape(prompts, userIds, contexts) ==>
        WritesChain(Contents(old(l1.cache)), Contents(l1.cache),
                    BatchWrites(old(L1Responses()), config, digest, env, prompts,
                                OrBlank(userIds, |prompts|, ""), OrBlank(contexts, |prompts|, map[])),
                    l1.maxSize)
      ensures l1 != null && (r.Err? || prompts == []) ==> l1.cache == old(l1.cache)
    {
      if prompts == [] {
        return Ok([]);
      }
      var n := |prompts|;
      if !BatchShape(prompts, userIds, contexts) {
        return Err("ValueError: user_ids and contexts lists must match prompts length");
      }
      r := RunBatch(prompts, OrBlank(userIds, n, ""), OrBlank(contexts, n, map[]), env);
    }

    /** `batch_check` past its input checks, on one user id and one context per prompt. */
    method RunBatch(prompts: seq<string>, uids: seq<string>, ctxs: seq<Context>, env: BatchEnv)
      returns (r: Result<seq<Option<string>>>)
      requires Valid() && |uids| == |prompts| && |ctxs| == |prompts|
      modifies metrics, l1, if l1 == null then {} else l1.cache.Values
      ensures Valid()
      ensures metrics.Snapshot() == ApplyAll(old(metrics.Snapshot()),
                BatchEvents(old(L1Responses()), config, digest, env, prompts, uids, ctxs,
                            l1 != null, l1 != null && l1.maxSize < 1))
      ensures r.Err? <==> Refused(BatchSearches(old(L1Responses()), config, digest, env, prompts, uids, ctxs),
                                  l1 != null && l1.maxSize < 1)
      ensures metrics.errors == old(metrics.errors)
      ensures metrics.totalQueries == old(metrics.totalQueries) + |prompts|
      ensures r.Ok? ==>
        && r.value == BatchSpec(old(L1Responses()), config, digest, env, prompts, uids, ctxs)
        && metrics.cacheHits + metrics.cacheMisses == old(metrics.cacheHits + metrics.cacheMisses) + |prompts|
      ensures r.Err? ==> l1 != null && l1.maxSize < 1
      ensures r.Ok? && l1 != null && l1.maxSize < 1 ==> forall i :: 0 <= i < |r.value| ==> !Truthy(r.value[i])
      ensures l1 != null ==> forall e :: e in old(l1.cache).Values ==>
        e.accessCount == old(e.accessCount) + Hits(old(l1.cache), BatchKeys(config, digest, prompts, uids, ctxs), e)
      ensures l1 != null && r.Ok? ==>
        WritesChain(Contents(old(l1.cache)), Contents(l1.cache),
                    BatchWrites(old(L1Responses()), config, digest, env, prompts, uids, ctxs), l1.maxSize)
      ensures l1 != null && r.Err? ==> l1.cache == old(l1.cache)
    {
      ghost var s0 := metrics.Snapshot();
      RecordQueries(|prompts|);
      ghost var s1 := metrics.Snapshot();
      ghost var s2;
      r, s2 := Passes(prompts, uids, ctxs, env);
      BatchHistory(s0, s1, s2, metrics.Snapshot(), old(L1Responses()), config, digest, env, prompts, uids, ctxs,
                   l1 != null, l1 != null && l1.maxSize < 1);
    }

    /** The L1 pass then the L2 pass; `mid` is the recorder's state between them. */
    method Passes(prompts: seq<string>, uids: seq<string>, ctxs: seq<Context>, env: BatchEnv)
      returns (r: Result<seq<Option<string>>>, ghost mid: Stats)
      requires metrics.Valid() && (l1 != null ==> l1.Valid()) && |uids| == |prompts| && |ctxs| == |prompts|
      modifies metrics, l1, if l1 == null then {} else l1.cache.Values
      ensures metrics.Valid() && (l1 != null ==> l1.Valid())
      ensures mid == ApplyAll(old(metrics.Snapshot()), if l1 != null
                then L1PassEvents(old(L1Responses()), BatchKeys(config, digest, prompts, uids, ctxs), ctxs, env, |prompts|)
                else [])
      ensures metrics.Snapshot() == ApplyAll(mid,
                BatchL2Events(old(L1Responses()), config, digest, env, prompts, uids, ctxs, l1 != null && l1.maxSize < 1))
      ensures r.Err? <==> Refused(BatchSearches(old(L1Responses()), config, digest, env, prompts, uids, ctxs),
                                  l1 != null && l1.maxSize < 1)
      ensures r.Ok? ==> r.value == BatchSpec(old(L1Responses()), config, digest, env, prompts, uids, ctxs)
      ensures r.Ok? && l1 != null && l1.maxSize < 1 ==> forall i :: 0 <= i < |r.value| ==> !Truthy(r.value[i])
      ensures l1 != null ==> forall e :: e in old(l1.cache).Values ==>
        e.accessCount == old(e.accessCount) + Hits(old(l1.cache), BatchKeys(config, digest, prompts, uids, ctxs), e)
      ensures l1 != null && r.Ok? ==>
        WritesChain(Contents(old(l1.cache)), Contents(l1.cache),
                    BatchWrites(old(L1Responses()), config, digest, env, prompts, uids, ctxs), l1.maxSize)
      ensures l1 != null && r.Err? ==> l1.cache == old(l1.cache)
    {
      var keys := BatchKeys(config, digest, prompts, uids, ctxs);
      ghost var cached := L1Responses();
      var results, pending := L1Pass(keys, ctxs, env, cached);
      mid := metrics.Snapshot();
      r := L2Pass(prompts, uids, ctxs, keys, env, cached, results, pending);
    }

    /** The L1 pass, or every prompt pending without an L1 tier. */
    method L1Pass(keys: seq<string>, ctxs: seq<Context>, env: BatchEnv, ghost cached: map<string, string>)
      returns (results: seq<Option<string>>, pending: seq<nat>)
      requires metrics.Valid() && (l1 != null ==> l1.Valid()) && cached == L1Responses() && |ctxs| == |keys|
      modifies metrics, if l1 == null then {} else l1.cache.Values
      ensures metrics.Valid()
      ensures |results| == |keys| && pending == MissIndices(keys, cached, |keys|)
      ensures forall j :: 0 <= j < |keys| ==> results[j] == L1Answer(cached, keys[j])
      ensures metrics.Snapshot() == ApplyAll(old(metrics.Snapshot()),
                if l1 != null then L1PassEvents(cached, keys, ctxs, env, |keys|) else [])
      ensures l1 != null ==> forall e :: e in old(l1.cache).Values ==>
        e.accessCount == old(e.accessCount) + Hits(old(l1.cache), keys, e)
    {
      if l1 != null {
        results, pending := BatchL1(keys, ctxs, env, cached);
      } else {
        results := seq(|keys|, _ => None);
        pending := MissIndices(keys, map[], |keys|);
        MissIndicesExact(keys, cached, |keys|);
      }
    }

    /** The L2 pass: the searches of the pending prompts, gathered, then processed in
        order and merged with the L1 answers. */
    method L2Pass(prompts: seq<string>, uids: seq<string>, ctxs: seq<Context>, keys: seq<string>, env: BatchEnv,
                  ghost cached: map<string, string>, results: seq<Option<string>>, pending: seq<nat>)
      returns (r: Result<seq<Option<string>>>)
      requires metrics.Valid() && (l1 != null ==> l1.Valid())
      requires |uids| == |prompts| && |ctxs| == |prompts| && |results| == |prompts|
      requires keys == BatchKeys(config, digest, prompts, uids, ctxs)
      requires pending == MissIndices(keys, cached, |keys|)
      requires forall j :: 0 <= j < |keys| ==> results[j] == L1Answer(cached, keys[j])
      requires l1 != null && l1.maxSize < 1 ==> cached == map[]
      modifies metrics, l1
      ensures metrics.Valid() && (l1 != null ==> l1.Valid())
      ensures metrics.Snapshot() == ApplyAll(old(metrics.Snapshot()),
                BatchL2Events(cached, config, digest, env, prompts, uids, ctxs, l1 != null && l1.maxSize < 1))
      ensures r.Err? <==> Refused(BatchSearches(cached, config, digest, env, prompts, uids, ctxs),
                                  l1 != null && l1.maxSize < 1)
      ensures r.Ok? ==> r.value == BatchSpec(cached, config, digest, env, prompts, uids, ctxs)
      ensures r.Ok? && l1 != null && l1.maxSize < 1 ==> forall i :: 0 <= i < |r.value| ==> !Truthy(r.value[i])
      ensures l1 != null && r.Ok? ==>
        WritesChain(Contents(old(l1.cache)), Contents(l1.cache),
                    BatchWrites(cached, config, digest, env, prompts, uids, ctxs), l1.maxSize)
      ensures l1 != null && r.Err? ==> l1.cache == old(l1.cache)
      ensures l1 != null ==> forall e :: e in old(l1.cache).Values ==> e.accessCount == old(e.accessCount)
    {
      L2PassAnswers(cached, config, digest, env, prompts, uids, ctxs, results);
      var l2Results := PendingSearches(config, digest, env, prompts, uids, ctxs, pending);
      ghost var served;
      r, served := BatchL2(keys, ctxs, pending, l2Results, results, env);
      if r.Ok? && l1 != null && l1.maxSize < 1 {
        FilledUntruthy(results, pending, l2Results, |pending|);
      }
    }

    /** `increment_query` once per prompt. */
    method RecordQueries(n: nat)
      requires metrics.Valid()
      modifies metrics
      ensures metrics.Valid() && metrics.Snapshot() == ApplyAll(old(metrics.Snapshot()), Queries(n))
      ensures l1 != null ==> forall e :: e in l1.cache.Values ==> e.accessCount == old(e.accessCount)
    {
      var k := 0;
      while k < n
        invariant 0 <= k <= n && metrics.Valid()
        invariant metrics.Snapshot() == ApplyAll(old(metrics.Snapshot()), Queries(k))
      {
        metrics.IncrementQuery();
        ApplyAllAppend(old(metrics.Snapshot()), Queries(k), Query);
        k := k + 1;
      }
    }

    /** The L1 pass of `batch_check`: every hit answered and recorded, every miss
        recorded and left pending, in index order. */
    method BatchL1(keys: seq<string>, ctxs: seq<Context>, env: BatchEnv, ghost cached: map<string, string>)
      returns (results: seq<Option<string>>, pending: seq<nat>)
      requires l1 != null && l1.Valid() && cached == l1.Responses()
      requires metrics.Valid() && |ctxs| == |keys|
      modifies metrics, l1.cache.Values
      ensures metrics.Valid()
      ensures |results| == |keys| && pending == MissIndices(keys, cached, |keys|)
      ensures forall j :: 0 <= j < |keys| ==> results[j] == L1Answer(cached, keys[j])
      ensures metrics.Snapshot() == ApplyAll(old(metrics.Snapshot()), L1PassEvents(cached, keys, ctxs, env, |keys|))
      ensures forall e :: e in old(l1.cache).Values ==> e.accessCount == old(e.accessCount) + Hits(old(l1.cache), keys, e)
    {
      var n := |keys|;
      results := [];
      pending := [];
      var i: nat := 0;
      ghost var s0 := metrics.Snapshot();
      ghost var cache0 := l1.cache;
      while i < n
        invariant 0 <= i <= n && metrics.Valid() && l1.Valid() && cached == l1.Responses()
        invariant |results| == i && pending == MissIndices(keys, cached, i)
        invariant forall j :: 0 <= j < i ==> results[j] == L1Answer(cached, keys[j])
        invariant metrics.Snapshot() == ApplyAll(s0, L1PassEvents(cached, keys, ctxs, env, i))
        invariant l1.cache == cache0
        invariant forall e :: e in cache0.Values ==> e.accessCount == old(e.accessCount) + Hits(cache0, keys[..i], e)
      {
        ghost var mid := metrics.Snapshot();
        results, pending := L1Step(keys, ctxs, i, env, cached, results, pending);
        L1PassStep(s0, mid, metrics.Snapshot(), cached, keys, ctxs, env, i);
        i := i + 1;
      }
      assert keys[..i] == keys;
    }

    /** Prompt `i` of the L1 pass: its answer appended, its index left pending on a
        miss, and the access count of the entry it finds raised by one. */
    method L1Step(keys: seq<string>, ctxs: seq<Context>, i: nat, env: BatchEnv, ghost cached: map<string, string>,
                  results: seq<Option<string>>, pending: seq<nat>)
      returns (results': seq<Option<string>>, pending': seq<nat>)
      requires i < |keys| && |ctxs| == |keys|
      requires l1 != null && l1.Valid() && cached == l1.Responses() && metrics.Valid()
      requires |results| == i && pending == MissIndices(keys, cached, i)
      requires forall j :: 0 <= j < i ==> results[j] == L1Answer(cached, keys[j])
      modifies metrics, l1.cache.Values
      ensures metrics.Valid() && l1.Valid() && l1.cache == old(l1.cache) && cached == l1.Responses()
      ensures |results'| == i + 1 && pending' == MissIndices(keys, cached, i + 1)
      ensures forall j :: 0 <= j < i + 1 ==> results'[j] == L1Answer(cached, keys[j])
      ensures metrics.Snapshot() == ApplyAll(old(metrics.Snapshot()), L1SlotEvents(cached, keys[i], ctxs[i], env))
      ensures forall e :: e in l1.cache.Values ==>
        e.accessCount == old(e.accessCount) + Hits(l1.cache, keys[..i + 1], e) - Hits(l1.cache, keys[..i], e)
    {
      var hit := LookupL1(keys[i], ctxs[i], env, cached);
      assert keys[..i + 1][..i] == keys[..i];
      results' := results + [hit];
      pending' := pending + if hit.Some? then [] else [i];
    }

    /** One prompt of the L1 pass: the lookup, and the hit (with its context) or the
        L1 miss recorded. */
    method LookupL1(key: string, ctx: Context, env: BatchEnv, ghost cached: map<string, string>)
      returns (hit: Option<string>)
      requires metrics.Valid() && l1 != null && l1.Valid() && cached == l1.Responses()
      modifies metrics, l1.cache.Values
      ensures metrics.Valid() && l1.Valid()
      ensures hit == L1Answer(cached, key)
      ensures metrics.Snapshot() == ApplyAll(old(metrics.Snapshot()), L1SlotEvents(cached, key, ctx, env))
      ensures l1.cache == old(l1.cache)
      ensures forall e :: e in old(l1.cache).Values ==> e.accessCount == old(e.accessCount) + Finds(old(l1.cache), key, e)
    {
      var entry := l1.Get(key);
      if entry.Some? {
        Record([Hit(env.totalLatency), L1Hit(env.l1Latency)] + ContextEvents(ctx));
        hit := Some(entry.value.response);
      } else {
        Record([L1Miss]);
        hit := None;
      }
    }

    /** The L2 pass of `batch_check`: the gathered answers of the pending prompts,
        processed in order. */
    method BatchL2(keys: seq<string>, ctxs: seq<Context>, pending: seq<nat>, l2Results: seq<Option<seq<Doc>>>,
                   results: seq<Option<string>>, env: BatchEnv)
      returns (r: Result<seq<Option<string>>>, ghost served: nat)
      requires metrics.Valid() && (l1 != null ==> l1.Valid())
      requires |ctxs| == |keys| && |results| == |keys| && |l2Results| == |pending|
      requires forall a :: 0 <= a < |pending| ==> pending[a] < |keys|
      modifies metrics, l1
      ensures metrics.Valid() && (l1 != null ==> l1.Valid())
      ensures served == Served(l2Results, l1 != null && l1.maxSize < 1)
      ensures metrics.Snapshot() == ApplyAll(old(metrics.Snapshot()), L2PassEvents(ctxs, pending, l2Results, env, served))
      ensures r.Err? <==> Refused(l2Results, l1 != null && l1.maxSize < 1)
      ensures r.Ok? ==> r.value == Filled(results, pending, l2Results, |pending|)
      ensures r.Ok? && l1 != null && l1.maxSize < 1 ==> forall a :: 0 <= a < |pending| ==> !Truthy(L2Answer(l2Results[a]))
      ensures l1 != null && r.Ok? ==>
        WritesChain(Contents(old(l1.cache)), Contents(l1.cache), SlotWrites(keys, pending, l2Results, |pending|), l1.maxSize)
      ensures l1 != null && r.Err? ==> l1.cache == old(l1.cache)
      ensures l1 != null ==> forall e :: e in old(l1.cache).Values ==> e.accessCount == old(e.accessCount)
    {
      ghost var start := if l1 != null then Contents(l1.cache) else map[];
      var ok, res;
      ok, res, served := ServeAll(keys, ctxs, pending, l2Results, results, env);
      if !ok {
        // the L1 write is outside any handler: the error propagates
        return Err("ValueError: value too large for the L1 cache"), served;
      }
      if l1 != null && l1.maxSize < 1 {
        ChainUntruthy(keys, pending, l2Results, |pending|, start, Contents(l1.cache), l1.maxSize);
      }
      ServedAll(l2Results, l1 != null && l1.maxSize < 1);
      r := Ok(res);
    }

    /** The pending prompts served in order, stopping at the first L1 write that
        fails; `served` counts the prompts served, that one included. */
    method ServeAll(keys: seq<string>, ctxs: seq<Context>, pending: seq<nat>, l2Results: seq<Option<seq<Doc>>>,
                    results: seq<Option<string>>, env: BatchEnv)
      returns (ok: bool, res: seq<Option<string>>, ghost served: nat)
      requires metrics.Valid() && (l1 != null ==> l1.Valid())
      requires |ctxs| == |keys| && |results| == |keys| && |l2Results| == |pending|
      requires forall a :: 0 <= a < |pending| ==> pending[a] < |keys|
      modifies metrics, l1
      ensures metrics.Valid() && (l1 != null ==> l1.Valid())
      ensures served <= |pending|
      ensures metrics.Snapshot() == ApplyAll(old(metrics.Snapshot()), L2PassEvents(ctxs, pending, l2Results, env, served))
      ensures ok ==> served == |pending| && res == Filled(results, pending, l2Results, |pending|)
      ensures ok && l1 != null ==>
        WritesChain(Contents(old(l1.cache)), Contents(l1.cache), SlotWrites(keys, pending, l2Results, |pending|), l1.maxSize)
      ensures !ok ==> var refusing := l1 != null && l1.maxSize < 1;
        refusing && Refused(l2Results, refusing) && Served(l2Results, refusing) == served
      ensures l1 != null && l1.maxSize < 1 ==> l1.cache == old(l1.cache)
      ensures l1 != null ==> forall e :: e in old(l1.cache).Values ==> e.accessCount == old(e.accessCount)
    {
      res := results;
      var t := 0;
      ghost var start := if l1 != null then Contents(l1.cache) else map[];
      ghost var s0 := metrics.Snapshot();
      while t < |pending|
        invariant 0 <= t <= |pending| && metrics.Valid() && (l1 != null ==> l1.Valid())
        invariant res == Filled(results, pending, l2Results, t)
        invariant metrics.Snapshot() == ApplyAll(s0, L2PassEvents(ctxs, pending, l2Results, env, t))
        invariant l1 != null ==> WritesChain(start, Contents(l1.cache), SlotWrites(keys, pending, l2Results, t), l1.maxSize)
        invariant l1 != null && l1.maxSize < 1 ==> l1.cache == old(l1.cache)
      {
        ok, res := ServePending(keys, ctxs, pending, l2Results, results, res, t, env, start, s0);
        if !ok {
          return false, res, t + 1;
        }
        t := t + 1;
      }
      ok, served := true, t;
    }

    /** Pending slot `t` of the L2 pass: its answer fills its slot, and the L1
        writes so far are extended by its own. */
    method ServePending(keys: seq<string>, ctxs: seq<Context>, pending: seq<nat>, l2Results: seq<Option<seq<Doc>>>,
                        results: seq<Option<string>>, res: seq<Option<string>>, t: nat, env: BatchEnv,
                        ghost start: map<string, Cached>, ghost s0: Stats)
      returns (ok: bool, res': seq<Option<string>>)
      requires t < |pending| && |l2Results| == |pending| && |ctxs| == |keys|
      requires forall a :: 0 <= a < |pending| ==> pending[a] < |keys|
      requires |results| == |keys| && res == Filled(results, pending, l2Results, t)
      requires metrics.Valid() && (l1 != null ==> l1.Valid())
      requires l1 != null ==> WritesChain(start, Contents(l1.cache), SlotWrites(keys, pending, l2Results, t), l1.maxSize)
      requires metrics.Snapshot() == ApplyAll(s0, L2PassEvents(ctxs, pending, l2Results, env, t))
      modifies metrics, l1
      ensures metrics.Valid() && (l1 != null ==> l1.Valid())
      ensures ok <==> !(l1 != null && l1.maxSize < 1 && Truthy(L2Answer(l2Results[t])))
      ensures res' == Filled(results, pending, l2Results, t + 1)
      ensures metrics.Snapshot() == ApplyAll(s0, L2PassEvents(ctxs, pending, l2Results, env, t + 1))
      ensures !ok ==> var refusing := l1 != null && l1.maxSize < 1;
        refusing && Refused(l2Results, refusing) && Served(l2Results, refusing) == t + 1
      ensures ok && l1 != null ==> WritesChain(start, Contents(l1.cache), SlotWrites(keys, pending, l2Results, t + 1), l1.maxSize)
      ensures l1 != null && l1.maxSize < 1 ==> l1.cache == old(l1.cache)
    {
      var idx := pending[t];
      ghost var prev := if l1 != null then l1.cache else map[];
      var answer;
      ghost var mid := metrics.Snapshot();
      ok, answer := ServeSlot(keys[idx], ctxs[idx], l2Results[t], |pending|, env);
      L2PassStep(s0, mid, metrics.Snapshot(), ctxs, pending, l2Results, env, t);
      if ok && l1 != null {
        WriteChainStep(keys, pending, l2Results, t, start, prev, l1.cache, l1.maxSize);
      } else if !ok {
        ChainUntruthy(keys, pending, l2Results, t, start, Contents(prev), l1.maxSize);
        ServedUpTo(l2Results, t);
      }
      res' := res[idx := answer];
    }

    /** One pending prompt of the L2 pass: a search that found something is a hit
        whose top response is answered and, when truthy, written to L1; anything
        else is a miss.  Only the L1 write can fail. */
    method ServeSlot(key: string, ctx: Context, found: Option<seq<Doc>>, pendingCount: nat, env: BatchEnv)
      returns (ok: bool, answer: Option<string>)
      requires pendingCount > 0 && metrics.Valid() && (l1 != null ==> l1.Valid())
      modifies metrics, l1
      ensures metrics.Valid() && (l1 != null ==> l1.Valid())
      ensures answer == L2Answer(found)
      ensures ok <==> !(l1 != null && l1.maxSize < 1 && Truthy(answer))
      ensures metrics.Snapshot() == ApplyAll(old(metrics.Snapshot()), L2SlotEvents(found, ctx, env, pendingCount))
      ensures l1 != null ==>
        if Truthy(answer) then StoreL1Effect(old(l1.cache), l1.cache, key, answer.value, MetaOf(found.value[0].metadata), l1.maxSize)
        else l1.cache == old(l1.cache)
    {
      ok := true;
      if Found(found) {
        Record([Hit(env.totalLatency), L2Hit(env.l2Latency / pendingCount as real)] + ContextEvents(ctx));
        answer := found.value[0].response;
        if l1 != null && Truthy(answer) {
          var entry := new L1CacheEntry(answer.value, Some(MetaOf(found.value[0].metadata)), env.now);
          ok := l1.Set(key, entry);
          if ok {
            BoundedPutSize(old(l1.cache), l1.cache, key, entry, l1.maxSize);
          }
        }
      } else {
        Record([Miss, L2Miss]);
        answer := None;
      }
    }

    /** `invalidate_by_tag`: without a tag index nothing happens and 0 is returned;
        otherwise L1 is emptied and the tag's entries are deleted. */
    method InvalidateByTag(tag: string) returns (r: Result<nat>)
      requires Valid()
      modifies l1, redis
      ensures Valid()
      ensures tags == null ==> r == Ok(0) && redis.data == old(redis.data) && (l1 != null ==> l1.cache == old(l1.cache))
      ensures tags != null ==> (r, redis.data) == InvalidatedTag(old(redis.data), tag) && (l1 != null ==> l1.cache == map[])
    {
      if tags == null {
        return Ok(0);
      }
      if l1 != null {
        l1.Clear();
      }
      r := tags.InvalidateByTag(tag);
    }

    /** `invalidate_by_tags`: as `InvalidateByTag`, for entries holding any (or all) of `tagList`. */
    method InvalidateByTags(tagList: seq<string>, matchAll: bool) returns (r: Result<nat>)
      requires Valid()
      modifies l1, redis
      ensures Valid()
      ensures tags == null ==> r == Ok(0) && redis.data == old(redis.data) && (l1 != null ==> l1.cache == old(l1.cache))
      ensures tags != null ==>
        (r, redis.data) == InvalidatedTags(old(redis.data), tagList, matchAll) && (l1 != null ==> l1.cache == map[])
    {
      if tags == null {
        return Ok(0);
      }
      if l1 != null {
        l1.Clear();
      }
      r := tags.InvalidateByTags(tagList, matchAll);
    }

    /** `set_threshold`: a threshold outside [0, 1] is refused and nothing changes. */
    method SetThreshold(threshold: real) returns (r: Result<real>)
      modifies this
      ensures r.Ok? <==> 0.0 <= threshold <= 1.0
      ensures r.Ok? ==> config == old(config).(distanceThreshold := threshold)
      ensures r.Err? ==> config == old(config)
    {
      if !(0.0 <= threshold <= 1.0) {
        return Err("ValueError: Threshold must be between 0.0 and 1.0");
      }
      config := config.(distanceThreshold := threshold);
      r := Ok(threshold);
    }

    /** `reset_metrics`. */
    method ResetMetrics()
      requires Valid()
      modifies metrics
      ensures Valid() && metrics.Snapshot() == ResetStats(old(metrics.Snapshot()))
    {
      metrics.Reset();
    }
  }

  // ---------------------------------------------------------------- what check promises

  /** The counts of a single recording call. */
  lemma CountOne(e: Event)
    ensures CountQueries([e]) == (if e.Query? then 1 else 0)
    ensures CountHits([e]) == (if e.Hit? then 1 else 0)
    ensures CountMisses([e]) == (if e.Miss? then 1 else 0)
    ensures CountErrors([e]) == (if e.Error? then 1 else 0)
  {
    assert [e][..0] == [];
  }

  /** The counts of two recording calls. */
  lemma CountTwo(e: Event, f: Event)
    ensures CountQueries([e, f]) == CountQueries([e]) + CountQueries([f])
    ensures CountHits([e, f]) == CountHits([e]) + CountHits([f])
    ensures CountMisses([e, f]) == CountMisses([e]) + CountMisses([f])
    ensures CountErrors([e, f]) == CountErrors([e]) + CountErrors([f])
  {
    CountAppend([e], [f]);
    assert [e] + [f] == [e, f];
  }

  /** Errors are neither queries, hits nor misses. */
  lemma {:induction false} ErrorCounts(es: seq<Event>)
    requires forall i :: 0 <= i < |es| ==> es[i].Error?
    ensures CountQueries(es) == 0 && CountHits(es) == 0 && CountMisses(es) == 0 && CountErrors(es) == |es|
  {
    if es != [] {
      ErrorCounts(es[..|es| - 1]);
    }
  }

  /** The context call is neither a query, a hit, a miss nor an error. */
  lemma ContextCounts(ctx: Context)
    ensures var es := ContextEvents(ctx);
      CountQueries(es) == 0 && CountHits(es) == 0 && CountMisses(es) == 0 && CountErrors(es) == 0
  {
    if ctx != map[] {
      CountOne(ContextHit(ContextType(ctx)));
    }
  }

  /** After the hit is recorded, `check` records nothing or one error. */
  lemma {:induction false} TopCounts(cfg: Config.CacheConfig, view: L1View, ranked: seq<Doc>, now: real,
                                     parseTime: string -> Option<real>)
    ensures var es := TopSpec(cfg, view, ranked, now, parseTime).events;
      CountQueries(es) == 0 && CountHits(es) == 0 && CountMisses(es) == 0 && CountErrors(es) <= 1
  {
    CountOne(Error);
  }

  /** A non-empty L2 answer records exactly one hit or one miss. */
  lemma {:induction false} ServeCounts(cfg: Config.CacheConfig, hasReranker: bool, view: L1View, ctx: Context,
                                       docs: seq<Doc>, env: CheckEnv)
    requires docs != []
    ensures var es := ServeSpec(cfg, hasReranker, view, ctx, docs, env).events;
      CountQueries(es) == 0 && CountHits(es) + CountMisses(es) == 1
  {
    CountOne(Miss);
    if !(docs[0].distance.Some? && docs[0].distance.value > cfg.distanceThreshold) {
      var ranked := if hasReranker then RerankResults(docs, env.rerank) else docs;
      var top := TopSpec(cfg, view, ranked, env.now, env.parseTime);
      ServedHeadCounts(hasReranker, ctx, env);
      TopCounts(cfg, view, ranked, env.now, env.parseTime);
      CountAppend(ServedHead(hasReranker, ctx, env), top.events);
    }
  }

  /** Those calls hold one hit and no query, miss or error. */
  lemma ServedHeadCounts(hasReranker: bool, ctx: Context, env: CheckEnv)
    ensures var head := ServedHead(hasReranker, ctx, env);
      CountQueries(head) == 0 && CountHits(head) == 1 && CountMisses(head) == 0 && CountErrors(head) == 0
  {
    var rr: seq<Event> := if hasReranker then [Rerank] else [];
    CountOne(Rerank);
    assert rr == [] || rr == [Rerank];
    CountTwo(Hit(env.totalLatency), L2Hit(env.l2Latency));
    CountOne(Hit(env.totalLatency));
    CountOne(L2Hit(env.l2Latency));
    ContextCounts(ctx);
    CountAppend(rr, [Hit(env.totalLatency), L2Hit(env.l2Latency)]);
    CountAppend(rr + [Hit(env.totalLatency), L2Hit(env.l2Latency)], ContextEvents(ctx));
  }

  /** The L2 tier records no query and at most one hit or miss. */
  lemma {:induction false} L2Counts(cfg: Config.CacheConfig, hasReranker: bool, digest: Context -> string, view: L1View,
                                    userId: string, ctx: Context, filters: Filters, env: CheckEnv)
    ensures var es := L2Spec(cfg, hasReranker, digest, view, userId, ctx, filters, env).events;
      CountQueries(es) == 0 && CountHits(es) + CountMisses(es) <= 1
  {
    var fe := CheckFilter(cfg, digest, userId, ctx, filters);
    CountTwo(Error, Error);
    CountTwo(Miss, L2Miss);
    CountOne(Error);
    CountOne(Miss);
    CountOne(L2Miss);
    match FirstSuccess(Attempts(env, fe), 0, AttemptCount(cfg.maxRetries))
    case None =>
    case Some(docs) =>
      if docs != [] {
        ServeCounts(cfg, hasReranker, view, ctx, docs, env);
      }
  }

  /** The post-filter re-checks only the top result: a distance strictly above the
      threshold is a plain miss (no L2 miss is recorded) and nothing is served; a
      distance at or below it, or none, records the hit. */
  lemma {:induction false} ServePostFilter(cfg: Config.CacheConfig, hasReranker: bool, view: L1View, ctx: Context,
                                           docs: seq<Doc>, env: CheckEnv)
    requires docs != []
    ensures var c := ServeSpec(cfg, hasReranker, view, ctx, docs, env);
      var over := docs[0].distance.Some? && docs[0].distance.value > cfg.distanceThreshold;
      && (over <==> c.events == [Miss])
      && (over ==> c.result == None && c.cached == None)
      && (!over <==> CountHits(c.events) == 1)
  {
    var c := ServeSpec(cfg, hasReranker, view, ctx, docs, env);
    CountOne(Miss);
    if !(docs[0].distance.Some? && docs[0].distance.value > cfg.distanceThreshold) {
      var ranked := if hasReranker then RerankResults(docs, env.rerank) else docs;
      var top := TopSpec(cfg, view, ranked, env.now, env.parseTime);
      ServedHeadCounts(hasReranker, ctx, env);
      TopCounts(cfg, view, ranked, env.now, env.parseTime);
      CountAppend(ServedHead(hasReranker, ctx, env), top.events);
      assert c.events != [Miss];
    }
  }

  /** The tiers record no query and at most one hit or miss. */
  lemma {:induction false} TiersCounts(cfg: Config.CacheConfig, hasReranker: bool, digest: Context -> string, view: L1View,
                                       userId: string, ctx: Context, filters: Filters, env: CheckEnv)
    ensures var es := TiersSpec(cfg, hasReranker, digest, view, userId, ctx, filters, env).events;
      CountQueries(es) == 0 && CountHits(es) + CountMisses(es) <= 1
  {
    var l2 := L2Spec(cfg, hasReranker, digest, view, userId, ctx, filters, env).events;
    L2Counts(cfg, hasReranker, digest, view, userId, ctx, filters, env);
    CountOne(Hit(env.totalLatency));
    CountOne(L1Hit(env.l1Latency));
    CountOne(L1Miss);
    ContextCounts(ctx);
    match view
    case L1Found(resp) =>
      CountTwo(Hit(env.totalLatency), L1Hit(env.l1Latency));
      CountAppend([Hit(env.totalLatency), L1Hit(env.l1Latency)], ContextEvents(ctx));
    case L1Missed(_) =>
      CountAppend([L1Miss], l2);
    case NoL1 =>
  }

  /** Every lookup counts exactly one query, and at most one hit or miss: the
      manager's hit and miss counters never outgrow its query counter. */
  lemma {:induction false} CheckCounts(cfg: Config.CacheConfig, hasReranker: bool, digest: Context -> string, view: L1View,
                                       userId: string, ctx: Context, filters: Filters, env: CheckEnv)
    ensures var es := CheckSpec(cfg, hasReranker, digest, view, userId, ctx, filters, env).events;
      CountQueries(es) == 1 && CountHits(es) + CountMisses(es) <= 1
  {
    TiersCounts(cfg, hasReranker, digest, view, userId, ctx, filters, env);
    CountOne(Query);
    CountAppend([Query], TiersSpec(cfg, hasReranker, digest, view, userId, ctx, filters, env).events);
  }

  /** Without an L1 hit, `check` answers and writes what the L2 tier does, and its
      hits, misses and errors are those of the L2 tier. */
  lemma {:induction false} CheckPastL1(cfg: Config.CacheConfig, hasReranker: bool, digest: Context -> string, view: L1View,
                                       userId: string, ctx: Context, filters: Filters, env: CheckEnv)
    requires !view.L1Found?
    ensures var c := CheckSpec(cfg, hasReranker, digest, view, userId, ctx, filters, env);
      var l2 := L2Spec(cfg, hasReranker, digest, view, userId, ctx, filters, env);
      && c.result == l2.result && c.cached == l2.cached
      && CountHits(c.events) == CountHits(l2.events) && CountMisses(c.events) == CountMisses(l2.events)
      && CountErrors(c.events) == CountErrors(l2.events)
  {
    var l2 := L2Spec(cfg, hasReranker, digest, view, userId, ctx, filters, env);
    CountOne(Query);
    CountOne(L1Miss);
    CountAppend([L1Miss], l2.events);
    CountAppend([Query], TiersSpec(cfg, hasReranker, digest, view, userId, ctx, filters, env).events);
  }

  /** The filter expression of the L2 search of `check`. */
  function CheckFilter(cfg: Config.CacheConfig, digest: Context -> string, userId: string, ctx: Context,
                       filters: Filters): Option<FilterExpr>
  {
    BuildFilterExpression(userId, SearchFilters(filters, ctx, cfg.enableContextHashing, digest))
  }

  /** What `check` answers from L2 passed every gate: the search found something,
      the top hit is within the threshold, and the entry served (the top one after
      reranking) is fresh and of the current version when those checks are on. */
  lemma {:induction false} CheckServesOnlyAdmissible(cfg: Config.CacheConfig, hasReranker: bool, digest: Context -> string,
                                                     view: L1View, userId: string, ctx: Context, filters: Filters, env: CheckEnv)
    requires !view.L1Found?
    requires CheckSpec(cfg, hasReranker, digest, view, userId, ctx, filters, env).result.Some?
    ensures var found := FirstSuccess(Attempts(env, CheckFilter(cfg, digest, userId, ctx, filters)), 0, AttemptCount(cfg.maxRetries));
      && found.Some? && found.value != []
      && (found.value[0].distance.None? || found.value[0].distance.value <= cfg.distanceThreshold)
      && var ranked := if hasReranker then RerankResults(found.value, env.rerank) else found.value;
         && ranked != []
         && CheckSpec(cfg, hasReranker, digest, view, userId, ctx, filters, env).result == ranked[0].response
         && (cfg.enableStaleWhileRevalidate ==>
               Classify(EntryAge(ranked[0].metadata, env.now, env.parseTime), cfg.ttl, cfg.maxStaleAgeSeconds) == Fresh)
         && (cfg.enableVersionChecking ==> !VersionMismatch(ranked[0].metadata, cfg.cacheVersion))
  {
    var found := FirstSuccess(Attempts(env, CheckFilter(cfg, digest, userId, ctx, filters)), 0, AttemptCount(cfg.maxRetries));
    assert L2Spec(cfg, hasReranker, digest, view, userId, ctx, filters, env).result.Some?;
    assert found.Some? && found.value != [];
    var docs := found.value;
    assert ServeSpec(cfg, hasReranker, view, ctx, docs, env).result.Some?;
  }

  /** When every attempt of the L2 search raises, `check` answers nothing and records
      two errors (one from the retry loop, one from its own handler) and neither a
      hit nor a miss. */
  lemma {:induction false} CheckExhaustedRetries(cfg: Config.CacheConfig, hasReranker: bool, digest: Context -> string,
                                                 view: L1View, userId: string, ctx: Context, filters: Filters, env: CheckEnv)
    requires !view.L1Found?
    requires forall j :: 0 <= j < AttemptCount(cfg.maxRetries) ==> Attempts(env, CheckFilter(cfg, digest, userId, ctx, filters))(j).None?
    ensures var c := CheckSpec(cfg, hasReranker, digest, view, userId, ctx, filters, env);
      && c.result == None && c.cached == None
      && CountErrors(c.events) == 2 && CountHits(c.events) == 0 && CountMisses(c.events) == 0
  {
    FirstSuccessNone(Attempts(env, CheckFilter(cfg, digest, userId, ctx, filters)), 0, AttemptCount(cfg.maxRetries));
    assert L2Spec(cfg, hasReranker, digest, view, userId, ctx, filters, env).events == [Error, Error];
    CountTwo(Error, Error);
    CountOne(Error);
    CheckPastL1(cfg, hasReranker, digest, view, userId, ctx, filters, env);
  }

  /** A non-empty L2 answer within the threshold whose served entry is stale under
      stale-while-revalidate: the hit is recorded, then the error, and nothing is answered. */
  lemma {:induction false} ServeRefusesStale(cfg: Config.CacheConfig, hasReranker: bool, view: L1View, ctx: Context,
                                             docs: seq<Doc>, env: CheckEnv)
    requires docs != [] && cfg.enableStaleWhileRevalidate
    requires docs[0].distance.None? || docs[0].distance.value <= cfg.distanceThreshold
    requires var ranked := if hasReranker then RerankResults(docs, env.rerank) else docs;
      ranked != [] && Classify(EntryAge(ranked[0].metadata, env.now, env.parseTime), cfg.ttl, cfg.maxStaleAgeSeconds) != Fresh
    ensures var c := ServeSpec(cfg, hasReranker, view, ctx, docs, env);
      && c.result == None && c.cached == None
      && CountQueries(c.events) == 0 && CountHits(c.events) == 1 && CountMisses(c.events) == 0 && CountErrors(c.events) == 1
  {
    var ranked := if hasReranker then RerankResults(docs, env.rerank) else docs;
    var head := ServedHead(hasReranker, ctx, env);
    assert TopSpec(cfg, view, ranked, env.now, env.parseTime) == Failed;
    assert ServeSpec(cfg, hasReranker, view, ctx, docs, env).events == head + [Error];
    ServedHeadCounts(hasReranker, ctx, env);
    CountOne(Error);
    CountAppend(head, [Error]);
  }

  /** A stale entry under stale-while-revalidate is refused only after its hit was
      counted: `check` answers nothing, records one hit and one error, and writes
      nothing to L1. */
  lemma {:induction false} CheckRefusesStale(cfg: Config.CacheConfig, hasReranker: bool, digest: Context -> string,
                                             view: L1View, userId: string, ctx: Context, filters: Filters, env: CheckEnv)
    requires !view.L1Found? && cfg.enableStaleWhileRevalidate
    requires var found := FirstSuccess(Attempts(env, CheckFilter(cfg, digest, userId, ctx, filters)), 0, AttemptCount(cfg.maxRetries));
      && found.Some? && found.value != []
      && (found.value[0].distance.None? || found.value[0].distance.value <= cfg.distanceThreshold)
      && var ranked := if hasReranker then RerankResults(found.value, env.rerank) else found.value;
         ranked != []
         && Classify(EntryAge(ranked[0].metadata, env.now, env.parseTime), cfg.ttl, cfg.maxStaleAgeSeconds) != Fresh
    ensures var c := CheckSpec(cfg, hasReranker, digest, view, userId, ctx, filters, env);
      && c.result == None && c.cached == None
      && CountHits(c.events) == 1 && CountMisses(c.events) == 0 && CountErrors(c.events) == 1
  {
    var docs := FirstSuccess(Attempts(env, CheckFilter(cfg, digest, userId, ctx, filters)), 0, AttemptCount(cfg.maxRetries)).value;
    ServeRefusesStale(cfg, hasReranker, view, ctx, docs, env);
    assert L2Spec(cfg, hasReranker, digest, view, userId, ctx, filters, env) == ServeSpec(cfg, hasReranker, view, ctx, docs, env);
    CheckPastL1(cfg, hasReranker, digest, view, userId, ctx, filters, env);
  }

  /** An L1 hit answers without consulting L2: the answer and the recorded calls do
      not depend on the search, the reranker or the clock. */
  lemma CheckL1HitSkipsSearch(cfg: Config.CacheConfig, hasReranker: bool, digest: Context -> string, resp: string,
                              userId: string, ctx: Context, filters: Filters, env: CheckEnv, other: CheckEnv)
    requires other.l1Latency == env.l1Latency && other.totalLatency == env.totalLatency
    ensures var c := CheckSpec(cfg, hasReranker, digest, L1Found(resp), userId, ctx, filters, env);
      && c == CheckSpec(cfg, hasReranker, digest, L1Found(resp), userId, ctx, filters, other)
      && c.result == Some(resp) && c.cached == None
  {
  }

  // ---------------------------------------------------------------- what batch_check promises

  /** One query counted per prompt, and nothing else. */
  lemma {:induction false} QueriesCounts(n: nat)
    ensures var es := Queries(n);
      CountQueries(es) == n && CountHits(es) == 0 && CountMisses(es) == 0 && CountErrors(es) == 0
  {
    if n > 0 {
      QueriesCounts(n - 1);
      CountOne(Query);
      CountAppend(Queries(n - 1), [Query]);
    }
  }

  /** One prompt of the L1 pass records a hit exactly when L1 answers it, and no
      query, miss or error. */
  lemma L1SlotCounts(cached: map<string, string>, key: string, ctx: Context, env: BatchEnv)
    ensures var es := L1SlotEvents(cached, key, ctx, env);
      && CountQueries(es) == 0 && CountMisses(es) == 0 && CountErrors(es) == 0
      && CountHits(es) == if key in cached then 1 else 0
  {
    CountOne(L1Miss);
    CountOne(Hit(env.totalLatency));
    CountOne(L1Hit(env.l1Latency));
    CountTwo(Hit(env.totalLatency), L1Hit(env.l1Latency));
    ContextCounts(ctx);
    CountAppend([Hit(env.totalLatency), L1Hit(env.l1Latency)], ContextEvents(ctx));
  }

  /** The L1 pass records one hit per prompt it answers, that is, per prompt it
      does not leave pending. */
  lemma {:induction false} L1PassCounts(cached: map<string, string>, keys: seq<string>, ctxs: seq<Context>,
                                        env: BatchEnv, i: nat)
    requires i <= |keys| && |ctxs| == |keys|
    ensures var es := L1PassEvents(cached, keys, ctxs, env, i);
      && CountQueries(es) == 0 && CountMisses(es) == 0 && CountErrors(es) == 0
      && CountHits(es) == i - |MissIndices(keys, cached, i)|
  {
    if i > 0 {
      L1PassCounts(cached, keys, ctxs, env, i - 1);
      L1SlotCounts(cached, keys[i - 1], ctxs[i - 1], env);
      CountAppend(L1PassEvents(cached, keys, ctxs, env, i - 1), L1SlotEvents(cached, keys[i - 1], ctxs[i - 1], env));
    }
  }

  /** One pending prompt of the L2 pass records exactly one hit or one miss, and no
      query or error. */
  lemma L2SlotCounts(found: Option<seq<Doc>>, ctx: Context, env: BatchEnv, pendingCount: nat)
    requires pendingCount > 0
    ensures var es := L2SlotEvents(found, ctx, env, pendingCount);
      CountQueries(es) == 0 && CountErrors(es) == 0 && CountHits(es) + CountMisses(es) == 1
  {
    var hit := Hit(env.totalLatency);
    var l2 := L2Hit(env.l2Latency / pendingCount as real);
    CountOne(hit);
    CountOne(l2);
    CountTwo(hit, l2);
    ContextCounts(ctx);
    CountAppend([hit, l2], ContextEvents(ctx));
    CountOne(Miss);
    CountOne(L2Miss);
    CountTwo(Miss, L2Miss);
  }

  /** The first `t` pending prompts of the L2 pass record `t` hits and misses together. */
  lemma {:induction false} L2PassCounts(ctxs: seq<Context>, pending: seq<nat>, l2Results: seq<Option<seq<Doc>>>,
                                        env: BatchEnv, t: nat)
    requires t <= |pending| && |l2Results| == |pending|
    requires forall a :: 0 <= a < |pending| ==> pending[a] < |ctxs|
    ensures var es := L2PassEvents(ctxs, pending, l2Results, env, t);
      CountQueries(es) == 0 && CountErrors(es) == 0 && CountHits(es) + CountMisses(es) == t
  {
    if t > 0 {
      L2PassCounts(ctxs, pending, l2Results, env, t - 1);
      var slot := L2SlotEvents(l2Results[t - 1], ctxs[pending[t - 1]], env, |pending|);
      L2SlotCounts(l2Results[t - 1], ctxs[pending[t - 1]], env, |pending|);
      CountAppend(L2PassEvents(ctxs, pending, l2Results, env, t - 1), slot);
    }
  }

  /** The recorder's history over a batch is the queries, then the L1 pass's calls,
      then the L2 pass's; the query count grows by the batch's size, the error count
      does not grow, and the hit and miss counts grow by one per prompt when the L2
      pass does not fail. */
  lemma {:induction false} BatchHistory(s0: Stats, s1: Stats, s2: Stats, s3: Stats, cached: map<string, string>,
                     cfg: Config.CacheConfig, digest: Context -> string, env: BatchEnv, prompts: seq<string>,
                     uids: seq<string>, ctxs: seq<Context>, hasL1: bool, refusing: bool)
    requires |uids| == |prompts| && |ctxs| == |prompts|
    requires hasL1 || cached == map[]
    requires s1 == ApplyAll(s0, Queries(|prompts|))
    requires s2 == ApplyAll(s1, if hasL1 then L1PassEvents(cached, BatchKeys(cfg, digest, prompts, uids, ctxs), ctxs, env, |prompts|) else [])
    requires s3 == ApplyAll(s2, BatchL2Events(cached, cfg, digest, env, prompts, uids, ctxs, refusing))
    ensures s3 == ApplyAll(s0, BatchEvents(cached, cfg, digest, env, prompts, uids, ctxs, hasL1, refusing))
    ensures s3.totalQueries == s0.totalQueries + |prompts| && s3.errors == s0.errors
    ensures s3.cacheHits + s3.cacheMisses <= s0.cacheHits + s0.cacheMisses + |prompts|
    ensures !Refused(BatchSearches(cached, cfg, digest, env, prompts, uids, ctxs), refusing) ==>
      s3.cacheHits + s3.cacheMisses == s0.cacheHits + s0.cacheMisses + |prompts|
  {
    var l1Events := if hasL1 then L1PassEvents(cached, BatchKeys(cfg, digest, prompts, uids, ctxs), ctxs, env, |prompts|) else [];
    var l2Events := BatchL2Events(cached, cfg, digest, env, prompts, uids, ctxs, refusing);
    ApplyAllConcat(s0, Queries(|prompts|), l1Events);
    ApplyAllConcat(s0, Queries(|prompts|) + l1Events, l2Events);
    BatchEventsCounts(cached, cfg, digest, env, prompts, uids, ctxs, hasL1, refusing);
    ApplyAllCounts(s0, BatchEvents(cached, cfg, digest, env, prompts, uids, ctxs, hasL1, refusing));
  }

  /** A batch counts one query per prompt, records no error, and records one hit or
      one miss per prompt it serves: every prompt, unless the L2 pass fails. */
  lemma {:induction false} BatchEventsCounts(cached: map<string, string>, cfg: Config.CacheConfig,
                                             digest: Context -> string, env: BatchEnv, prompts: seq<string>,
                                             uids: seq<string>, ctxs: seq<Context>, hasL1: bool, refusing: bool)
    requires |uids| == |prompts| && |ctxs| == |prompts|
    requires hasL1 || cached == map[]
    ensures var es := BatchEvents(cached, cfg, digest, env, prompts, uids, ctxs, hasL1, refusing);
      && CountQueries(es) == |prompts| && CountErrors(es) == 0
      && CountHits(es) + CountMisses(es) <= |prompts|
      && (!Refused(BatchSearches(cached, cfg, digest, env, prompts, uids, ctxs), refusing) ==>
            CountHits(es) + CountMisses(es) == |prompts|)
  {
    var keys := BatchKeys(cfg, digest, prompts, uids, ctxs);
    MissIndicesIncreasing(keys, cached, |keys|);
    var pending := MissIndices(keys, cached, |keys|);
    var l2Results := BatchSearches(cached, cfg, digest, env, prompts, uids, ctxs);
    var l1Events := if hasL1 then L1PassEvents(cached, keys, ctxs, env, |prompts|) else [];
    var l2Events := BatchL2Events(cached, cfg, digest, env, prompts, uids, ctxs, refusing);
    assert l2Events == L2PassEvents(ctxs, pending, l2Results, env, Served(l2Results, refusing));
    QueriesCounts(|prompts|);
    L1PassCounts(cached, keys, ctxs, env, |prompts|);
    MissIndicesExact(keys, cached, |keys|);
    L2PassCounts(ctxs, pending, l2Results, env, Served(l2Results, refusing));
    CountAppend(Queries(|prompts|), l1Events);
    CountAppend(Queries(|prompts|) + l1Events, l2Events);
  }
}
