/** The pure decisions of the cache manager: the composite L1 key, the filter
    expression sent with a search, the filters and metadata written by `store`,
    the staleness and version checks on a hit, and the reranker re-mapping.
    Dictionaries the source tests only for truthiness are modelled with their
    empty value standing for `None`: no user is `""`, no context is `map[]`,
    no filters is `[]`. */
module Policy {
  import opened Wrappers
  import opened Redis
  import opened SearchReply

  /** A caller's context dictionary (values as their text). */
  type Context = map<string, string>

  /** A filter dictionary, as its entries in insertion order. */
  type Filters = seq<(string, string)>

  // ---------------------------------------------------------------- the composite L1 key

  /** `":".join(parts)`. */
  function JoinColon(parts: seq<string>): string
  {
    if parts == [] then ""
    else if |parts| == 1 then parts[0]
    else JoinColon(parts[..|parts| - 1]) + ":" + parts[|parts| - 1]
  }

  lemma JoinColonSnoc(parts: seq<string>, x: string)
    requires parts != []
    ensures JoinColon(parts + [x]) == JoinColon(parts) + ":" + x
  {
    assert (parts + [x])[..|parts|] == parts;
  }

  /** The part of the context the L1 key hashes: only the configured fields, or
      all of it when no fields are configured. */
  function ContextSubset(ctx: Context, fields: seq<string>): (r: Context)
    ensures fields == [] ==> r == ctx
    ensures forall k :: k in r <==> k in ctx && (fields == [] || k in fields)
    ensures forall k :: k in r ==> r[k] == ctx[k]
  {
    if fields == [] then ctx else map k | k in ctx && k in fields :: ctx[k]
  }

  /** `_generate_context_key`.  `digest` stands for the first 16 hex digits of the
      SHA-256 of the sorted-key JSON of a context; nothing is assumed about it. */
  function ContextKey(prompt: string, userId: string, ctx: Context, hashing: bool,
                      fields: seq<string>, digest: Context -> string): (r: string)
    ensures var sub := ContextSubset(ctx, fields);
      r == prompt
           + (if userId != "" then ":user:" + userId else "")
           + (if ctx != map[] && hashing && sub != map[] then ":ctx:" + digest(sub) else "")
  {
    var sub := ContextSubset(ctx, fields);
    var head := [prompt] + (if userId != "" then ["user:" + userId] else []);
    var parts := head + (if ctx != map[] && hashing && sub != map[] then ["ctx:" + digest(sub)] else []);
    assert JoinColon([prompt]) == prompt;
    JoinColonSnoc([prompt], "user:" + userId);
    JoinColonSnoc(head, "ctx:" + digest(sub));
    assert JoinColon(head) == prompt + (if userId != "" then ":user:" + userId else "") by {
      if userId != "" {
        assert prompt + ":" + ("user:" + userId) == prompt + ":user:" + userId;
      }
    }
    assert JoinColon(parts) == JoinColon(head) + (if ctx != map[] && hashing && sub != map[] then ":ctx:" + digest(sub) else "") by {
      if ctx != map[] && hashing && sub != map[] {
        assert JoinColon(head) + ":" + ("ctx:" + digest(sub)) == JoinColon(head) + ":ctx:" + digest(sub);
      } else {
        assert parts == head;
      }
    }
    JoinColon(parts)
  }

  /** Two contexts that agree on the configured fields share an L1 key, whatever
      else they contain; with hashing off the context plays no part at all. */
  lemma ContextKeyIgnoresOtherFields(prompt: string, userId: string, c1: Context, c2: Context,
                                     hashing: bool, fields: seq<string>, digest: Context -> string)
    requires fields != []
    requires forall k :: k in fields ==> (k in c1 <==> k in c2) && (k in c1 ==> c1[k] == c2[k])
    ensures ContextKey(prompt, userId, c1, hashing, fields, digest) == ContextKey(prompt, userId, c2, hashing, fields, digest)
  {
    assert ContextSubset(c1, fields) == ContextSubset(c2, fields);
  }

  /** The key is not injective: a prompt that itself contains `:user:` collides with
      a shorter prompt from that user. */
  lemma ContextKeyCollides(digest: Context -> string)
    ensures ContextKey("a:user:b", "", map[], true, [], digest) == ContextKey("a", "b", map[], true, [], digest)
  {
  }

  // ---------------------------------------------------------------- filter expressions

  /** A RedisVL filter: a tag equality, or the conjunction of two filters. */
  datatype FilterExpr = TagEq(field: string, value: string) | And(left: FilterExpr, right: FilterExpr)

  /** The equalities of a filter, left to right. */
  function Conjuncts(e: FilterExpr): seq<(string, string)>
  {
    match e
    case TagEq(f, v) => [(f, v)]
    case And(l, r) => Conjuncts(l) + Conjuncts(r)
  }

  /** The equalities `_build_filter_expression` collects: the user first, then each filter entry in order. */
  function FilterParts(userId: string, filters: Filters): seq<(string, string)>
  {
    (if userId != "" then [("user_id", userId)] else []) + filters
  }

  /** `result = parts[0]; for fp in parts[1:]: result = result & fp`. */
  function Conjoin(parts: seq<(string, string)>): (r: FilterExpr)
    requires parts != []
    ensures Conjuncts(r) == parts
    ensures |parts| == 1 <==> r.TagEq?
  {
    if |parts| == 1 then TagEq(parts[0].0, parts[0].1)
    else
      var last := parts[|parts| - 1];
      assert parts == parts[..|parts| - 1] + [last];
      And(Conjoin(parts[..|parts| - 1]), TagEq(last.0, last.1))
  }

  /** `_build_filter_expression`: no filter exactly when there is no user and no filter
      entry; otherwise the conjunction of the user equality and the entries, in order. */
  function BuildFilterExpression(userId: string, filters: Filters): (r: Option<FilterExpr>)
    ensures r.None? <==> userId == "" && filters == []
    ensures r.Some? ==> Conjuncts(r.value) == FilterParts(userId, filters)
  {
    var parts := FilterParts(userId, filters);
    if userId == "" && filters == [] then None
    else if parts == [] then None
    else Some(Conjoin(parts))
  }

  // ---------------------------------------------------------------- dictionaries as entry lists

  /** The entries of a dictionary: no key twice. */
  predicate IsDict(d: Filters)
  {
    forall i, j :: 0 <= i < j < |d| ==> d[i].0 != d[j].0
  }

  /** `d.get(k)` on a dictionary given as its entries. */
  function Lookup(d: Filters, k: string): (r: Option<string>)
    ensures r.None? <==> forall i :: 0 <= i < |d| ==> d[i].0 != k
    ensures r.Some? ==> exists i :: 0 <= i < |d| && d[i] == (k, r.value)
  {
    if d == [] then None
    else if d[0].0 == k then Some(d[0].1)
    else Lookup(d[1..], k)
  }

  /** `d[k] = v`: an existing key keeps its place and takes the new value; a new key goes last. */
  function SetEntry(d: Filters, k: string, v: string): (r: Filters)
    ensures Lookup(r, k) == Some(v)
    ensures forall j :: j != k ==> Lookup(r, j) == Lookup(d, j)
    ensures Lookup(d, k).Some? ==> |r| == |d|
    ensures Lookup(d, k).None? ==> r == d + [(k, v)]
  {
    if d == [] then [(k, v)]
    else if d[0].0 == k then [(k, v)] + d[1..]
    else
      var rest := SetEntry(d[1..], k, v);
      assert ([d[0]] + rest)[1..] == rest;
      assert d + [(k, v)] == [d[0]] + (d[1..] + [(k, v)]);
      [d[0]] + rest
  }

  /** `d.update(e)`: each entry of `e` set in turn. */
  function Update(d: Filters, e: Filters): (r: Filters)
    requires IsDict(e)
    ensures forall j :: Lookup(r, j) == if Lookup(e, j).Some? then Lookup(e, j) else Lookup(d, j)
    decreases |e|
  {
    if e == [] then d
    else
      var r := Update(SetEntry(d, e[0].0, e[0].1), e[1..]);
      assert Lookup(e[1..], e[0].0).None? by {
        LookupAbsent(e, 0);
      }
      r
  }

  /** In a dictionary, a key found at position `i` occurs nowhere after it. */
  lemma LookupAbsent(e: Filters, i: nat)
    requires IsDict(e) && i < |e|
    ensures Lookup(e[i + 1..], e[i].0).None?
  {
    var rest := e[i + 1..];
    forall j | 0 <= j < |rest|
      ensures rest[j].0 != e[i].0
    {
      assert rest[j] == e[i + 1 + j];
    }
  }

  /** The filters `check` searches with: the caller's, plus the whole context's hash
      when there is a context and hashing is on. */
  function SearchFilters(filters: Filters, ctx: Context, hashing: bool, digest: Context -> string): (r: Filters)
    ensures ctx != map[] && hashing ==> Lookup(r, "context_hash") == Some(digest(ctx))
    ensures forall j :: j != "context_hash" || ctx == map[] || !hashing ==> Lookup(r, j) == Lookup(filters, j)
  {
    if ctx != map[] && hashing then SetEntry(filters, "context_hash", digest(ctx)) else filters
  }

  /** The filters `store` writes: the user, then the caller's filters (which may
      replace the user), then the whole context's hash (which replaces both). */
  function StoreFilters(userId: string, filters: Filters, ctx: Context, hashing: bool, digest: Context -> string): (r: Filters)
    requires IsDict(filters)
  {
    var d := if userId != "" then [("user_id", userId)] else [];
    var d := Update(d, filters);
    if ctx != map[] && hashing then SetEntry(d, "context_hash", digest(ctx)) else d
  }

  /** Which value wins in the stored filters: the context hash over everything, a
      caller's filter over the user id, the user id last. */
  lemma StoreFiltersPrecedence(userId: string, filters: Filters, ctx: Context, hashing: bool, digest: Context -> string, k: string)
    requires IsDict(filters)
    ensures var r := StoreFilters(userId, filters, ctx, hashing, digest);
      Lookup(r, k) ==
        if k == "context_hash" && ctx != map[] && hashing then Some(digest(ctx))
        else if Lookup(filters, k).Some? then Lookup(filters, k)
        else if k == "user_id" && userId != "" then Some(userId)
        else None
  {
  }

  /** A search with the same context and hashing setting looks for the context hash
      that `store` wrote. */
  lemma SearchMatchesStoredContext(userId: string, stored: Filters, searched: Filters, ctx: Context, digest: Context -> string)
    requires ctx != map[] && IsDict(stored)
    ensures Lookup(SearchFilters(searched, ctx, true, digest), "context_hash")
         == Lookup(StoreFilters(userId, stored, ctx, true, digest), "context_hash")
  {
    StoreFiltersPrecedence(userId, stored, ctx, true, digest, "context_hash");
  }

  /** The metadata `store` writes: the caller's metadata with `cached_at`, and, when
      there is a context, its hash (if hashing is on) and the context itself. */
  function StoreMetadata(meta: map<string, Meta>, cachedAt: string, ctx: Context, hashing: bool, digest: Context -> string): (r: map<string, Meta>)
    ensures "cached_at" in r && r["cached_at"] == Text(cachedAt)
    ensures ctx != map[] ==> "context" in r && r["context"] == Ctx(ctx)
    ensures ctx != map[] && hashing ==> "context_hash" in r && r["context_hash"] == Text(digest(ctx))
    ensures forall k :: k !in {"cached_at", "context", "context_hash"} ==> (k in r <==> k in meta) && (k in r ==> r[k] == meta[k])
  {
    var m := meta["cached_at" := Text(cachedAt)];
    if ctx == map[] then m
    else
      var m := if hashing then m["context_hash" := Text(digest(ctx))] else m;
      m["context" := Ctx(ctx)]
  }

  // ---------------------------------------------------------------- staleness and version

  /** `self.config.ttl or 3600`: an unset or zero TTL counts as one hour. */
  function EffectiveTtl(ttl: Option<int>): (t: int)
    ensures ttl.Some? && ttl.value != 0 ==> t == ttl.value
    ensures ttl.None? || ttl.value == 0 ==> t == 3600
  {
    if ttl.None? || ttl.value == 0 then 3600 else ttl.value
  }

  datatype Staleness = Fresh | StaleServe | StaleRefuse

  /** The stale-while-revalidate decision on the top hit's age. */
  function Classify(age: real, ttl: Option<int>, maxStaleAge: int): (r: Staleness)
  {
    if age > EffectiveTtl(ttl) as real then
      if age < maxStaleAge as real then StaleServe else StaleRefuse
    else Fresh
  }

  /** How stale a decision is, for comparing decisions. */
  function Rank(s: Staleness): nat
  {
    match s
    case Fresh => 0
    case StaleServe => 1
    case StaleRefuse => 2
  }

  /** The three outcomes partition the ages: up to the TTL is fresh, past it and
      under the maximum stale age is served stale, past both is refused. */
  lemma ClassifyCases(age: real, ttl: Option<int>, maxStaleAge: int)
    ensures var t := EffectiveTtl(ttl) as real;
      && (Classify(age, ttl, maxStaleAge) == Fresh <==> age <= t)
      && (Classify(age, ttl, maxStaleAge) == StaleServe <==> t < age < maxStaleAge as real)
      && (Classify(age, ttl, maxStaleAge) == StaleRefuse <==> t < age && maxStaleAge as real <= age)
  {
  }

  /** An older entry is never judged fresher than a younger one. */
  lemma ClassifyMonotone(a1: real, a2: real, ttl: Option<int>, maxStaleAge: int)
    requires a1 <= a2
    ensures Rank(Classify(a1, ttl, maxStaleAge)) <= Rank(Classify(a2, ttl, maxStaleAge))
  {
  }

  /** `_get_entry_age`: seconds since the `stored_at` timestamp in the hit's
      metadata; 0 when it is missing, empty or does not parse. */
  function EntryAge(metadata: map<string, string>, now: real, parseTime: string -> Option<real>): (r: real)
    ensures "stored_at" !in metadata || metadata["stored_at"] == "" ==> r == 0.0
    ensures "stored_at" in metadata && metadata["stored_at"] != "" && parseTime(metadata["stored_at"]).Some?
            ==> r == now - parseTime(metadata["stored_at"]).value
  {
    if "stored_at" !in metadata || metadata["stored_at"] == "" then 0.0
    else match parseTime(metadata["stored_at"])
      case None => 0.0
      case Some(t) => now - t
  }

  /** `store` writes `cached_at`, not the `stored_at` the age is read from, so an entry
      whose metadata never got a `stored_at` from its caller is always fresh. */
  lemma NeverStaleWithoutStoredAt(meta: map<string, Meta>, cachedAt: string, ctx: Context, hashing: bool,
                                  digest: Context -> string, hit: map<string, string>, now: real,
                                  parseTime: string -> Option<real>, ttl: Option<int>, maxStaleAge: int)
    requires "stored_at" !in meta
    requires "stored_at" in hit ==> "stored_at" in StoreMetadata(meta, cachedAt, ctx, hashing, digest)
    requires ttl.None? || ttl.value >= 0
    ensures "stored_at" !in StoreMetadata(meta, cachedAt, ctx, hashing, digest)
    ensures Classify(EntryAge(hit, now, parseTime), ttl, maxStaleAge) == Fresh
  {
  }

  /** The version check: a mismatch needs a stored, non-empty version that differs. */
  function VersionMismatch(metadata: map<string, string>, current: string): bool
  {
    "cache_version" in metadata && metadata["cache_version"] != "" && metadata["cache_version"] != current
  }

  /** Entries without a version, or with the current one, are never refused. */
  lemma VersionMismatchCases(metadata: map<string, string>, current: string)
    ensures "cache_version" !in metadata ==> !VersionMismatch(metadata, current)
    ensures "cache_version" in metadata && metadata["cache_version"] == current ==> !VersionMismatch(metadata, current)
    ensures VersionMismatch(metadata, current) ==> metadata["cache_version"] != current
  {
  }

  /** The label a context hit is counted under: the persona, else the conversation, else "unknown". */
  function ContextType(ctx: Context): (r: string)
    ensures r != ""
    ensures "user_persona" in ctx && ctx["user_persona"] != "" ==> r == ctx["user_persona"]
    ensures (("user_persona" !in ctx || ctx["user_persona"] == "")
             && "conversation_id" in ctx && ctx["conversation_id"] != "") ==> r == ctx["conversation_id"]
    ensures (("user_persona" !in ctx || ctx["user_persona"] == "")
             && ("conversation_id" !in ctx || ctx["conversation_id"] == "")) ==> r == "unknown"
  {
    if "user_persona" in ctx && ctx["user_persona"] != "" then ctx["user_persona"]
    else if "conversation_id" in ctx && ctx["conversation_id"] != "" then ctx["conversation_id"]
    else "unknown"
  }

  // ---------------------------------------------------------------- reranking

  /** What the reranker returned: documents with scores, a list that is not a
      (documents, scores) pair and is passed on as it is, or an exception. */
  datatype RerankOutcome = Ranked(contents: seq<string>, scores: seq<real>) | Unpaired(docs: seq<Doc>) | RerankFailed

  /** The documents handed to the reranker: each result's prompt, `""` when it has none. */
  function RerankInput(results: seq<Doc>): (r: seq<string>)
    ensures |r| == |results|
    ensures forall i :: 0 <= i < |results| ==> r[i] == if results[i].prompt.Some? then results[i].prompt.value else ""
  {
    if results == [] then []
    else [if results[0].prompt.Some? then results[0].prompt.value else ""] + RerankInput(results[1..])
  }

  /** The first result whose prompt is `content`. */
  function FirstWithPrompt(results: seq<Doc>, content: string): (r: Option<Doc>)
    ensures r.Some? ==> r.value in results && r.value.prompt == Some(content)
    ensures r.None? <==> forall i :: 0 <= i < |results| ==> results[i].prompt != Some(content)
  {
    if results == [] then None
    else if results[0].prompt == Some(content) then Some(results[0])
    else FirstWithPrompt(results[1..], content)
  }

  /** The re-mapping of the first `n` (document, score) pairs: each matched to the
      first result with that prompt and copied with the score; unmatched ones dropped. */
  function Remap(results: seq<Doc>, contents: seq<string>, scores: seq<real>, n: nat): seq<Doc>
    requires n <= |contents| && n <= |scores|
  {
    if n == 0 then []
    else
      var prefix := Remap(results, contents, scores, n - 1);
      match FirstWithPrompt(results, contents[n - 1])
      case None => prefix
      case Some(d) => prefix + [d.(rerankScore := Some(scores[n - 1]))]
  }

  function Min(a: nat, b: nat): nat
  {
    if a <= b then a else b
  }

  /** `_rerank_results`: an empty list is returned as it is; a failure keeps the
      original order; an unpaired result replaces the list. */
  function RerankResults(results: seq<Doc>, outcome: RerankOutcome): seq<Doc>
  {
    if results == [] then results
    else match outcome
      case RerankFailed => results
      case Unpaired(docs) => docs
      case Ranked(contents, scores) => Remap(results, contents, scores, Min(|contents|, |scores|))
  }

  /** `d` is some result copied with the score of a paired document matching its prompt. */
  ghost predicate ScoredCopy(d: Doc, results: seq<Doc>, contents: seq<string>, scores: seq<real>, n: nat)
    requires n <= |contents| && n <= |scores|
  {
    exists i, k :: 0 <= i < |results| && 0 <= k < n && results[i].prompt == Some(contents[k])
                   && d == results[i].(rerankScore := Some(scores[k]))
  }

  /** Every re-mapped result is a copy of an original result carrying the score of
      the reranked document whose content is its prompt; there are never more of
      them than paired documents. */
  lemma {:induction false} RemapFromResults(results: seq<Doc>, contents: seq<string>, scores: seq<real>, n: nat)
    requires n <= |contents| && n <= |scores|
    ensures |Remap(results, contents, scores, n)| <= n
    ensures forall j :: 0 <= j < |Remap(results, contents, scores, n)| ==>
      ScoredCopy(Remap(results, contents, scores, n)[j], results, contents, scores, n)
  {
    if n > 0 {
      RemapFromResults(results, contents, scores, n - 1);
      var prefix := Remap(results, contents, scores, n - 1);
      var r := Remap(results, contents, scores, n);
      forall j | 0 <= j < |r|
        ensures ScoredCopy(r[j], results, contents, scores, n)
      {
        if j < |prefix| {
          assert r[j] == prefix[j];
          var i, k :| 0 <= i < |results| && 0 <= k < n - 1 && results[i].prompt == Some(contents[k])
                      && prefix[j] == results[i].(rerankScore := Some(scores[k]));
        } else {
          var x := FirstWithPrompt(results, contents[n - 1]).value;
          var i :| 0 <= i < |results| && results[i] == x;
          assert r[j] == results[i].(rerankScore := Some(scores[n - 1]));
        }
      }
    }
  }

  /** A reranked document some result has as its prompt. */
  ghost predicate Matched(results: seq<Doc>, content: string)
  {
    exists i :: 0 <= i < |results| && results[i].prompt == Some(content)
  }

  /** When every reranked document matches some result, the re-mapping keeps the
      reranker's order: entry `k` has the `k`-th document as prompt and the `k`-th score. */
  lemma {:induction false} RemapFollowsReranker(results: seq<Doc>, contents: seq<string>, scores: seq<real>, n: nat)
    requires n <= |contents| && n <= |scores|
    requires forall k :: 0 <= k < n ==> Matched(results, contents[k])
    ensures |Remap(results, contents, scores, n)| == n
    ensures forall k :: 0 <= k < n ==>
      Remap(results, contents, scores, n)[k].prompt == Some(contents[k])
      && Remap(results, contents, scores, n)[k].rerankScore == Some(scores[k])
  {
    if n > 0 {
      RemapFollowsReranker(results, contents, scores, n - 1);
      assert Matched(results, contents[n - 1]);
      var i :| 0 <= i < |results| && results[i].prompt == Some(contents[n - 1]);
      assert FirstWithPrompt(results, contents[n - 1]).Some?;
    }
  }
}
