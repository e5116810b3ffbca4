# Semantic cache core, modelled in Dafny

This project models the core of an asynchronous two-tier semantic cache for LLM responses:

- The **L1 tier** is an in-process bounded cache. Its keys combine the prompt, the user id and a hash of the configured context fields.
- The **L2 tier** is a Redis vector index, queried with FT.SEARCH.
- The **cache manager** ties the two tiers together. It provides:
  - `check`, the two-tier lookup with a distance post-filter, optional reranking, and stale-while-revalidate and version gates on the served entry;
  - `store`, a retried write followed by the L1 entry and the tags;
  - `batch_check`;
  - tag invalidation, `set_threshold` and `reset_metrics`.
- The **metrics recorder** is a set of counters that every operation reports to.
- The **tag index** is a reverse index of `tag:<t>` sets kept in the same Redis keyspace.
- The **configuration validators** check and normalise the settings.

The model is split into modules:

| module | file | contents |
|---|---|---|
| `Config` | `config.dfy` | the configuration models and their validators |
| `Metrics` | `metrics.dfy` | the recorder |
| `Redis` | `keyspace.dfy` | the shared keyspace |
| `TagIndex` | `tag_manager.dfy` | the tag index |
| `L1` | `l1_cache.dfy` | the L1 cache |
| `Retry` | `retry.dfy` | the retry loop with exponential back-off |
| `SearchReply` | `search_reply.dfy` | the parser of raw FT.SEARCH replies |
| `Policy` | `policy.dfy` | the pure decisions of the manager: the L1 key, the filter expression, the stored filters and metadata, staleness, versions, reranking |
| `CacheManager` | `cache_manager.dfy` | the manager object and the specification of what each of its calls does |

State that the source updates in place is modelled by classes whose methods are proved against specification functions:

- The recorder is `Metrics.CacheMetrics`. The pure `Stats`/`Event`/`Apply` say what each recording call does.
- The L1 cache is `L1.L1Cache`.
- The keyspace is `Redis.RedisStore`, shared by the manager and the tag index.
- The manager is `CacheManager.SemanticCacheManager`.

A manager call is specified by three things:

- the value it returns;
- the exact sequence of recording calls it makes on the recorder, in order, with the latencies it reads from the clock taken as parameters;
- what it leaves in L1 and in the keyspace.

The methods prove that they follow these specifications. The lemmas prove what the specifications promise. Examples:

- every lookup counts one query and at most one hit or miss, so hits plus misses never exceed queries;
- the distance post-filter and the staleness and version gates;
- exhausted retries record two errors;
- tag invalidation deletes exactly the tagged entries;
- the retry schedule is geometric.

Where the code and its documentation disagree, the model follows the code:

- **Stale and version-mismatched entries.** Recording a stale entry or a version mismatch raises, because the recorder never initialises those counters. So in `check` these paths end in the caught-error branch: one error is recorded after the hit was already counted, and nothing is answered. The documented miss is never recorded.
- **Entry age.** The age read back by the staleness gate comes from a `stored_at` metadata key, but `store` writes `cached_at`. An entry written by the cache therefore always counts as fresh (`Policy.NeverStaleWithoutStoredAt`).
- **Exhausted retries.** When every retry fails in `check` or `store`, two errors are recorded: one by the retry loop and one by the caller's handler.
- **Tag invalidations.** The manager never reports tag invalidations to the recorder.
- **`batch_check` lookups.** `batch_check` skips the distance post-filter, the staleness and version gates, reranking and retries. It does not catch an L1 write failure.
- **The two context hashes.** The L1 key hashes only the configured context fields. The L2 filter hashes the whole context.

The environment enters as parameters:

- search replies and write outcomes for each attempt;
- the reranker's answer;
- the clock and the measured latencies;
- float and timestamp parsing;
- the SHA-256 context digest (`digest: Context -> string`).

## Model

| member | source | states |
|---|---|---|
| Config.ValidateLogLevel | src/semantic_cache/core/config.py:284-290 | a log level is accepted exactly when its upper-cased form is one of the five levels, and the upper-cased form is returned |
| Config.ValidateLogLevelIdempotent | src/semantic_cache/core/config.py:284-290 | validating an accepted level again returns it unchanged |
| Config.ValidateLogLevelIgnoresCase | src/semantic_cache/core/config.py:284-290 | spellings that differ only in case are accepted or refused together and normalise to the same level |
| Config.UpperIdempotent | src/semantic_cache/core/config.py:288-290 | upper-casing twice is upper-casing once |
| Config.UpperHasNoLowerCase | src/semantic_cache/core/config.py:288-290 | the normalised level has no lower-case letter |
| Config.ValidateThreshold | src/semantic_cache/core/config.py:277-282 | the distance threshold is accepted exactly when it lies in [0, 1], and is returned unchanged |
| Config.ValidateProvider | src/semantic_cache/core/config.py:85-91 | the vectorizer provider is accepted exactly when it is one of the six providers, and is returned unchanged |
| Config.Validate | src/semantic_cache/core/config.py:126-290 | a configuration is accepted exactly when every declared field constraint holds; the accepted value is the input with the log level upper-cased |
| Config.ValidateProducesValid | src/semantic_cache/core/config.py:126-290 | validating a validated configuration changes nothing |
| Config.ValidBounds | src/semantic_cache/core/config.py:146-242 | a valid configuration has a non-negative TTL, a threshold in [0, 1], non-negative retries and delay, a back-off of at least 1, and a known eviction strategy, provider and log level |
| Config.ToCacheConfig | src/semantic_cache/core/config.py:309-317 | the settings convert exactly when their TTL, threshold and log level are valid; the result carries the five settings over the defaults and is itself valid |
| Metrics.Bump | src/vertector_semantic_cache/core/metrics.py:95-103 | a defaultdict increment: a missing key counts from 0 and every other key is unchanged |
| Metrics.Recorded | src/vertector_semantic_cache/core/metrics.py:66-88 | a latency window keeps only positive samples, ends with the new one, never exceeds 1000 samples, and keeps the most recent ones in order |
| Metrics.Apply | src/vertector_semantic_cache/core/metrics.py:39-103 | each recording call bumps exactly its own counters (a hit bumps hits and LLM calls avoided, and adds the saved latency) and leaves every other field alone |
| Metrics.ResetStats | src/vertector_semantic_cache/core/metrics.py:326-335 | reset zeroes the seven top-level counters and keeps the tier counters, the latency windows and the counting maps |
| Metrics.ApplyAllCounts | src/vertector_semantic_cache/core/metrics.py:39-59 | after a run of recording calls, the query, hit, miss and error counters grow by the number of matching calls |
| Metrics.ApplyAllConsistent | src/vertector_semantic_cache/core/metrics.py:44-88 | any run of recording calls keeps LLM calls avoided equal to hits and both latency windows within 1000 samples |
| Metrics.CacheMetrics.constructor | src/vertector_semantic_cache/core/metrics.py:11-37 | a new recorder has every counter at zero and empty maps and windows |
| Metrics.CacheMetrics.IncrementQuery | src/vertector_semantic_cache/core/metrics.py:39-42 | the fields become Apply(old, Query) |
| Metrics.CacheMetrics.RecordHit | src/vertector_semantic_cache/core/metrics.py:44-49 | the fields become Apply(old, Hit(latency)) |
| Metrics.CacheMetrics.RecordMiss | src/vertector_semantic_cache/core/metrics.py:51-54 | the fields become Apply(old, Miss) |
| Metrics.CacheMetrics.RecordError | src/vertector_semantic_cache/core/metrics.py:56-59 | the fields become Apply(old, Error) |
| Metrics.CacheMetrics.RecordRerank | src/vertector_semantic_cache/core/metrics.py:61-64 | the fields become Apply(old, Rerank) |
| Metrics.CacheMetrics.RecordL1Hit | src/vertector_semantic_cache/core/metrics.py:66-74 | the fields become Apply(old, L1Hit(latency)), with the bounded window |
| Metrics.CacheMetrics.RecordL1Miss | src/vertector_semantic_cache/core/metrics.py:76-79 | the fields become Apply(old, L1Miss) |
| Metrics.CacheMetrics.RecordL2Hit | src/vertector_semantic_cache/core/metrics.py:81-88 | the fields become Apply(old, L2Hit(latency)), with the bounded window |
| Metrics.CacheMetrics.RecordL2Miss | src/vertector_semantic_cache/core/metrics.py:90-93 | the fields become Apply(old, L2Miss) |
| Metrics.CacheMetrics.RecordContextHit | src/vertector_semantic_cache/core/metrics.py:95-98 | the fields become Apply(old, ContextHit(type)) |
| Metrics.CacheMetrics.RecordTagInvalidation | src/vertector_semantic_cache/core/metrics.py:100-103 | the fields become Apply(old, TagInvalidation(tag, count)) |
| Metrics.CacheMetrics.Reset | src/vertector_semantic_cache/core/metrics.py:326-335 | the fields become ResetStats(old) |
| Metrics.CacheMetrics.HitRate | src/vertector_semantic_cache/core/metrics.py:105-111 | 0 with no queries; a percentage in [0, 100] when hits do not exceed queries |
| Metrics.CacheMetrics.CostSavingsPercentage | src/vertector_semantic_cache/core/metrics.py:113-119 | 0 with no queries; equal to the hit rate in a consistent recorder |
| Metrics.CacheMetrics.AverageLatencySaved | src/vertector_semantic_cache/core/metrics.py:121-127 | 0 with no hits; non-negative when the saved latency is |
| Metrics.CacheMetrics.ErrorRate | src/vertector_semantic_cache/core/metrics.py:171-177 | 0 with no queries; non-negative otherwise |
| Redis.SAdd | src/vertector_semantic_cache/core/tag_manager.py:18-19 | SADD adds the member to a set key (absent means empty) and leaves a key of another type, and every other key, unchanged |
| TagIndex.TagKeyInjective | src/vertector_semantic_cache/core/tag_manager.py:19 | distinct tags have distinct `tag:` keys |
| TagIndex.TagKeySeq | src/vertector_semantic_cache/core/tag_manager.py:59 | the tag keys, one per tag, in order |
| TagIndex.TagKeySetMembers | src/vertector_semantic_cache/core/tag_manager.py:18-19 | a key is among the keys tagged exactly when it is the `tag:` key of one of the tags |
| TagIndex.Tagged | src/vertector_semantic_cache/core/tag_manager.py:12-21 | after tagging, every set-valued tag key holds the entry key in addition, and every other key keeps its value |
| TagIndex.TaggedStep | src/vertector_semantic_cache/core/tag_manager.py:18-19 | one more SADD extends the set of tag keys tagged |
| TagIndex.TaggedIdempotent | src/vertector_semantic_cache/core/tag_manager.py:12-21 | tagging the same key with the same tags twice changes nothing the second time |
| TagIndex.UnionAllMembers | src/vertector_semantic_cache/core/tag_manager.py:64-66 | SUNION holds a key exactly when some tag set holds it |
| TagIndex.InterAllMembers | src/vertector_semantic_cache/core/tag_manager.py:61-63 | SINTER holds a key exactly when every tag set holds it |
| TagIndex.InvalidateTagTwice | src/vertector_semantic_cache/core/tag_manager.py:23-48 | after a successful invalidation of a tag, a second one deletes nothing and returns 0 |
| TagIndex.InvalidatedTagsSpec | src/vertector_semantic_cache/core/tag_manager.py:50-88 | multi-tag invalidation deletes exactly the keys tagged with all (or any) of the tags and keeps every other key, tag sets included, unchanged |
| TagIndex.MatchedByTags | src/vertector_semantic_cache/core/tag_manager.py:62-66 | SINTER over the tag keys holds exactly the keys carrying every tag, and SUNION exactly those carrying some tag |
| TagIndex.InvalidatedTagsCount | src/vertector_semantic_cache/core/tag_manager.py:62-88 | a multi-tag invalidation returns the number of keys carrying all (or any) of the tags, including keys the tag sets name that no longer exist |
| TagIndex.TagManager.AddTags | src/vertector_semantic_cache/core/tag_manager.py:12-21 | the keyspace becomes Tagged(old, key, tag keys); success exactly when no tag key holds a non-set value; no tags changes nothing |
| TagIndex.TagManager.InvalidateByTag | src/vertector_semantic_cache/core/tag_manager.py:23-48 | deletes every member key and the tag set and returns the member count; 0 and no change for an empty tag; an error for a non-set tag key |
| TagIndex.TagManager.InvalidateByTags | src/vertector_semantic_cache/core/tag_manager.py:50-88 | no tags returns 0; otherwise deletes the intersection or the union of the tag sets and returns its size; the tag sets are kept |
| L1.ParseStrategy | src/vertector_semantic_cache/core/l1_cache.py:30-37 | exactly `lru`, `lfu` and `ttl` are accepted, each as its own strategy |
| L1.BoundedPutSize | src/vertector_semantic_cache/core/l1_cache.py:52-56 | a bounded insert keeps the cache within capacity, binds the key, and keeps every surviving entry |
| L1.L1CacheEntry.constructor | src/vertector_semantic_cache/core/l1_cache.py:11-16 | an entry holds its response, metadata and time, with access count 0 |
| L1.L1Cache.constructor | src/vertector_semantic_cache/core/l1_cache.py:21-39 | a new cache is empty and keeps its size, TTL and strategy |
| L1.L1Cache.Get | src/vertector_semantic_cache/core/l1_cache.py:41-50 | a hit returns the stored entry and bumps only its access count; a miss returns nothing; the mapping is unchanged |
| L1.L1Cache.Set | src/vertector_semantic_cache/core/l1_cache.py:52-56 | succeeds exactly when the size is at least 1, then binds the key with at most one eviction when full; a refused value changes nothing |
| L1.L1Cache.Invalidate | src/vertector_semantic_cache/core/l1_cache.py:58-61 | removes the key if present and nothing else |
| L1.L1Cache.Clear | src/vertector_semantic_cache/core/l1_cache.py:63-66 | leaves the cache empty |
| L1.L1Cache.Len | src/vertector_semantic_cache/core/l1_cache.py:68-71 | the number of keys held |
| L1.SetThenGet | src/vertector_semantic_cache/core/l1_cache.py:41-56 | a value set in a cache that can hold one is read back |
| Retry.Delay | src/vertector_semantic_cache/core/cache_manager.py:178-191 | sleeps are non-negative under a valid configuration |
| Retry.DelayIsGeometric | src/vertector_semantic_cache/core/cache_manager.py:178-191 | the i-th sleep is `retry_delay * retry_backoff^i` |
| Retry.BackoffNeverShrinks | src/vertector_semantic_cache/core/cache_manager.py:178-191 | with a back-off of at least 1, later sleeps are never shorter |
| Retry.FirstSuccessIsFirst | src/vertector_semantic_cache/core/cache_manager.py:180-183 | a result is the outcome of some attempt, and every earlier attempt failed |
| Retry.FirstSuccessNone | src/vertector_semantic_cache/core/cache_manager.py:180-196 | the loop gives up exactly when every attempt of `range(max_retries + 1)` fails, which is at once when there are none |
| Retry.AttemptCount | src/vertector_semantic_cache/core/cache_manager.py:180 | `range(max_retries + 1)` makes `max_retries + 1` attempts, and none once `max_retries` is negative |
| Retry.RunRetries | src/vertector_semantic_cache/core/cache_manager.py:162-196 | at most `max_retries + 1` calls and none for a negative `max_retries`, at least one otherwise; the result is the first success and every earlier call failed; exhaustion makes every call; one sleep follows each failed non-final attempt, with the geometric delays |
| SearchReply.PlaceField | src/vertector_semantic_cache/core/cache_manager.py:356-369 | a field fails only on an unparseable distance; `vector_distance` sets the parsed distance, `prompt` and `response` set their field to the value, `prompt_vector` changes nothing, and any other name sets that metadata key to the value |
| SearchReply.ParseFields | src/vertector_semantic_cache/core/cache_manager.py:350-369 | the inner loop builds the record FieldsDoc prescribes, including the failure on a missing value |
| SearchReply.PlacePair | src/vertector_semantic_cache/core/cache_manager.py:351-369 | one pair either extends the prefix record or fails with the result of the whole list |
| SearchReply.ParseEntry | src/vertector_semantic_cache/core/cache_manager.py:343-371 | one field list becomes EntryDoc's record |
| SearchReply.ParsePair | src/vertector_semantic_cache/core/cache_manager.py:341-371 | one (key, fields) pair either extends the records or fails with the result of the whole reply |
| SearchReply.ParseReply | src/vertector_semantic_cache/core/cache_manager.py:334-373 | the outer loop returns ParsedReply of the raw reply |
| SearchReply.FieldsMissingValue | src/vertector_semantic_cache/core/cache_manager.py:353 | a field list of odd length fails on the missing value after its earlier pairs |
| SearchReply.ParsedReplyMissingFields | src/vertector_semantic_cache/core/cache_manager.py:343 | a reply whose last key has no field list fails |
| SearchReply.ParsedReplyIgnoresCount | src/vertector_semantic_cache/core/cache_manager.py:338 | the leading count does not affect the result |
| SearchReply.ParsedReplyOrder | src/vertector_semantic_cache/core/cache_manager.py:341-371 | a parsed reply has odd length and one record per key, in reply order, each built from its field list |
| SearchReply.EntriesDocsOrder | src/vertector_semantic_cache/core/cache_manager.py:341-371 | the records of the (key, fields) pairs are in order, one per pair |
| SearchReply.FieldsDocPlacement | src/vertector_semantic_cache/core/cache_manager.py:350-369 | a name is in metadata exactly when some pair names it and it is not reserved; prompt, response and distance are set exactly when named; every field and metadata key holds the value of the last pair that names it |
| SearchReply.FieldsDocLastValue | src/vertector_semantic_cache/core/cache_manager.py:350-369 | a parsed field list holds only strings in pairs, and prompt, response, the parsed distance and each metadata key take the value of the last pair naming them |
| Policy.ContextSubset | src/vertector_semantic_cache/core/cache_manager.py:992-998 | only the configured context fields are hashed, or the whole context when none are configured |
| Policy.ContextKey | src/vertector_semantic_cache/core/cache_manager.py:979-1005 | the L1 key is the prompt, then `:user:<id>` when there is a user, then `:ctx:<hash>` when hashing is on and the hashed subset is non-empty |
| Policy.ContextKeyIgnoresOtherFields | src/vertector_semantic_cache/core/cache_manager.py:992-998 | contexts that agree on the configured fields share an L1 key |
| Policy.ContextKeyCollides | src/vertector_semantic_cache/core/cache_manager.py:979-1005 | the key is not injective: a prompt containing `:user:` collides with a shorter prompt from that user |
| Policy.Conjoin | src/vertector_semantic_cache/core/cache_manager.py:1025-1031 | the left-nested conjunction has exactly the given equalities in order, and is a single equality exactly when there is one part |
| Policy.BuildFilterExpression | src/vertector_semantic_cache/core/cache_manager.py:1007-1031 | no filter exactly when there is no user and no filter; otherwise the user equality first, then each filter entry in order |
| Policy.SetEntry | src/vertector_semantic_cache/core/cache_manager.py:570 | a dictionary assignment binds the key, keeps every other key, keeps an existing key's place and appends a new one |
| Policy.Update | src/vertector_semantic_cache/core/cache_manager.py:559 | `dict.update`: an updated key takes the new value and every other key keeps the old one |
| Policy.SearchFilters | src/vertector_semantic_cache/core/cache_manager.py:279-284 | with a context and hashing on, `context_hash` is the hash of the whole context; every other filter is the caller's |
| Policy.StoreFiltersPrecedence | src/vertector_semantic_cache/core/cache_manager.py:554-570 | in the stored filters the context hash wins over everything, a caller's filter wins over the user id, and the user id comes last |
| Policy.SearchMatchesStoredContext | src/vertector_semantic_cache/core/cache_manager.py:562-570 | a lookup with the same context searches for the context hash that `store` wrote |
| Policy.StoreMetadata | src/vertector_semantic_cache/core/cache_manager.py:550-573 | the stored metadata has `cached_at`, the context and its hash when applicable, and otherwise the caller's metadata |
| Policy.EffectiveTtl | src/vertector_semantic_cache/core/cache_manager.py:433 | an unset or zero TTL counts as 3600 seconds |
| Policy.ClassifyCases | src/vertector_semantic_cache/core/cache_manager.py:429-463 | fresh up to the TTL, served stale past it and below the maximum stale age, refused past both |
| Policy.ClassifyMonotone | src/vertector_semantic_cache/core/cache_manager.py:429-463 | an older entry is never judged fresher than a younger one |
| Policy.EntryAge | src/vertector_semantic_cache/core/cache_manager.py:957-977 | the age is 0 without a usable `stored_at`, else now minus the parsed time |
| Policy.NeverStaleWithoutStoredAt | src/vertector_semantic_cache/core/cache_manager.py:957-977 | `store` never writes `stored_at`, so an entry without one from its caller is always judged fresh |
| Policy.VersionMismatchCases | src/vertector_semantic_cache/core/cache_manager.py:466-468 | entries without a version, or with the current one, are never refused |
| Policy.ContextType | src/vertector_semantic_cache/core/cache_manager.py:410 | the context label is the persona, else the conversation id, else `unknown` when neither is set, and never empty |
| Policy.RerankInput | src/vertector_semantic_cache/core/cache_manager.py:1044 | one document per result: its prompt, or empty when it has none |
| Policy.FirstWithPrompt | src/vertector_semantic_cache/core/cache_manager.py:1055-1060 | the first result whose prompt is the document's content, or nothing exactly when none matches |
| Policy.RemapFromResults | src/vertector_semantic_cache/core/cache_manager.py:1050-1061 | every reranked result is a copy of an original with the score of a matching document, and there are no more than the paired documents |
| Policy.RemapFollowsReranker | src/vertector_semantic_cache/core/cache_manager.py:1050-1061 | when every document matches a result, the reranked list follows the reranker's order and scores |
| CacheManager.OrBlank | src/vertector_semantic_cache/core/cache_manager.py:729-730 | a missing id or context list stands for one blank per prompt |
| CacheManager.BatchSpec | src/vertector_semantic_cache/core/cache_manager.py:690-844 | a batch answers each prompt in its slot |
| CacheManager.MissIndicesExact | src/vertector_semantic_cache/core/cache_manager.py:744-766 | the L1 pass leaves to L2 exactly the prompts whose key L1 does not hold, all of them without an L1 tier |
| CacheManager.MissIndicesIncreasing | src/vertector_semantic_cache/core/cache_manager.py:744-766 | the prompts left to L2 are in increasing order, each once |
| CacheManager.BatchMerge | src/vertector_semantic_cache/core/cache_manager.py:808-836 | filling the gathered L2 answers, in order, into the L1 results gives the batch's answers, slot by slot |
| CacheManager.L2PassAnswers | src/vertector_semantic_cache/core/cache_manager.py:768-836 | the prompts left to L2 are listed in increasing order, the answers the L2 pass fills in are the batch's answers and its L1 writes are the batch's writes |
| CacheManager.FilledSlots | src/vertector_semantic_cache/core/cache_manager.py:808-820 | after the first slots of the L2 pass are served, each of them holds its own L2 answer and every other slot keeps its L1 result |
| CacheManager.FilledUntruthy | src/vertector_semantic_cache/core/cache_manager.py:808-820 | when no L1 result and no L2 answer is truthy, no slot of the filled answers is truthy |
| CacheManager.SlotWritesEmpty | src/vertector_semantic_cache/core/cache_manager.py:823-831 | the L2 pass writes nothing to L1 exactly when none of its answers is truthy |
| CacheManager.ChainUntruthy | src/vertector_semantic_cache/core/cache_manager.py:823-831 | a cache that can hold nothing took none of the writes, so none of the answers that would have been written was truthy |
| CacheManager.SemanticCacheManager.constructor | src/vertector_semantic_cache/core/cache_manager.py:69-156 | a fresh recorder, an empty L1 tier exactly when enabled, a tag index on the shared client exactly when enabled, and a reranker exactly when enabled |
| CacheManager.SemanticCacheManager.Check | src/vertector_semantic_cache/core/cache_manager.py:198-516 | returns CheckSpec's answer, makes exactly its recording calls and writes its L1 entry, keeps hits plus misses within queries, and adds one to the access count of the L1 entry found under the key and to no other entry's |
| CacheManager.SemanticCacheManager.Tiers | src/vertector_semantic_cache/core/cache_manager.py:244-504 | an L1 hit answers with the cached response and bumps only that entry's access count; an L1 miss records it and defers to L2 |
| CacheManager.SemanticCacheManager.CheckL2 | src/vertector_semantic_cache/core/cache_manager.py:270-511 | the L2 tier with its filter, retries, empty-answer miss and error handling, as L2Spec prescribes |
| CacheManager.SemanticCacheManager.SearchWithRetries | src/vertector_semantic_cache/core/cache_manager.py:385 | the L2 answer is the first search attempt that does not raise |
| CacheManager.SemanticCacheManager.Serve | src/vertector_semantic_cache/core/cache_manager.py:387-411 | the post-filter, rerank and hit recording, as ServeSpec prescribes |
| CacheManager.SemanticCacheManager.ServeTop | src/vertector_semantic_cache/core/cache_manager.py:429-491 | the staleness and version gates and the L1 write of the served response, as TopSpec prescribes |
| CacheManager.SemanticCacheManager.Store | src/vertector_semantic_cache/core/cache_manager.py:518-606 | exhausted retries record two errors and change nothing; otherwise the entry's hash is written, the L1 entry is inserted, and the tags are added; any L1 or tag failure records one error |
| CacheManager.SemanticCacheManager.StoreWritten | src/vertector_semantic_cache/core/cache_manager.py:549-599 | after a write, the stored hash carries the prepared metadata and filters, followed by the L1 entry and the tags |
| CacheManager.SemanticCacheManager.StoreSteps | src/vertector_semantic_cache/core/cache_manager.py:585-599 | the written entry, then the L1 entry, then the tags; the first failure stops the steps and records one error |
| CacheManager.SemanticCacheManager.WriteWithRetries | src/vertector_semantic_cache/core/cache_manager.py:585 | the written key is the first write attempt that does not raise |
| CacheManager.SemanticCacheManager.StoreL1 | src/vertector_semantic_cache/core/cache_manager.py:589-595 | the L1 entry is inserted with the stored metadata; it fails exactly when the cache cannot hold anything |
| CacheManager.SemanticCacheManager.StoreTags | src/vertector_semantic_cache/core/cache_manager.py:598-599 | tags are added only when there are tags and a tag index |
| CacheManager.SemanticCacheManager.BatchCheck | src/vertector_semantic_cache/core/cache_manager.py:690-844 | an empty batch changes nothing; mismatched lists are refused before any recording call; otherwise the recorder ends as `BatchEvents` applied to its old state (the queries, then each L1 lookup's calls, then each served L2 slot's calls, in order), the call fails exactly when `Refused` holds, the answers are BatchSpec's over the L1 contents before the call, one access-count increment per prompt whose key finds the entry, and L1 contents that are the old ones with the batch's writes made in order |
| CacheManager.SemanticCacheManager.RunBatch | src/vertector_semantic_cache/core/cache_manager.py:735-844 | counting, the L1 pass and the L2 pass together make exactly the recording calls of `BatchEvents`, fail exactly when `Refused` holds, and give the batch's answers, its access-count increments (`Hits` over the batch's keys) and its L1 writes (`BatchWrites`, in order); a refused write leaves L1 as it was |
| CacheManager.SemanticCacheManager.Passes | src/vertector_semantic_cache/core/cache_manager.py:743-836 | the L1 pass makes the calls of `L1PassEvents` (none without an L1 tier) and the L2 pass then those of `BatchL2Events`; the call fails exactly when `Refused` holds and otherwise answers BatchSpec |
| CacheManager.SemanticCacheManager.RecordQueries | src/vertector_semantic_cache/core/cache_manager.py:740-741 | the recorder ends as `Queries(n)` applied to its old state: one `increment_query` per prompt and no other call; no access count changes |
| CacheManager.SemanticCacheManager.L1Pass | src/vertector_semantic_cache/core/cache_manager.py:744-766 | the L1 answers and the prompts left to L2; the recorder ends as `L1PassEvents` applied to its old state with an L1 tier and unchanged without one; each entry's access count rises by the number of prompts whose key finds it |
| CacheManager.SemanticCacheManager.BatchL1 | src/vertector_semantic_cache/core/cache_manager.py:745-764 | the loop over the prompts answers each from L1, collects the misses in order, makes the recording calls of `L1PassEvents` in order, leaves the mapping unchanged and raises each entry's access count by the number of lookups that find it |
| CacheManager.SemanticCacheManager.L1Step | src/vertector_semantic_cache/core/cache_manager.py:746-764 | one turn of the L1 loop appends the prompt's L1 answer, leaves its index pending exactly on a miss, makes that prompt's `L1SlotEvents` calls, and raises the found entry's access count by one |
| CacheManager.SemanticCacheManager.LookupL1 | src/vertector_semantic_cache/core/cache_manager.py:746-764 | one prompt's L1 answer; on a hit exactly `record_hit`, `record_l1_hit` and, for a non-empty context, `record_context_hit`, on a miss exactly `record_l1_miss`; one added to the found entry's access count only |
| CacheManager.SemanticCacheManager.L2Pass | src/vertector_semantic_cache/core/cache_manager.py:768-836 | the answers are the batch's answers; the recorder ends as `BatchL2Events` applied to its old state; L1 ends as the old contents with the batch's writes made in order; the call fails exactly when `Refused` holds (an L1 write into a cache that can hold nothing), which leaves L1 as it was, and a success on such a cache answers nothing truthy |
| CacheManager.SemanticCacheManager.BatchL2 | src/vertector_semantic_cache/core/cache_manager.py:809-835 | each gathered L2 result fills its slot in order (`Filled`); the recording calls are those of the first `Served` slots (`L2PassEvents`); L1 ends as the old contents with the truthy top responses written in order (`SlotWrites`); the call fails exactly when `Refused` holds, leaving L1 as it was |
| CacheManager.SemanticCacheManager.ServeAll | src/vertector_semantic_cache/core/cache_manager.py:809-835 | the loop over the gathered results serves the first `served` slots with their recording calls; it finishes every slot, or stops exactly after the first truthy answer when L1 refuses every write |
| CacheManager.SemanticCacheManager.ServePending | src/vertector_semantic_cache/core/cache_manager.py:809-831 | one turn of the L2 loop fills the slot with its answer, extends the recorder's history by the slot's calls and, unless the write is refused, the L1 writes by the slot's own; a refused write happens exactly at the first truthy answer, which is where `Served` stops |
| CacheManager.SemanticCacheManager.ServeSlot | src/vertector_semantic_cache/core/cache_manager.py:810-835 | one slot's L2 answer is the top document's response; a found result makes exactly `record_hit`, `record_l2_hit` with the gathered latency divided by the number of pending prompts and, for a non-empty context, `record_context_hit`; otherwise exactly `record_miss` and `record_l2_miss`; a truthy answer is written to L1 under the slot's key with the top document's metadata, as a bounded insert, and otherwise L1 is unchanged |
| CacheManager.HitsNone | src/vertector_semantic_cache/core/l1_cache.py:41-50 | a run of lookups leaves an entry's access count alone exactly when none of them finds it |
| CacheManager.StoreL1Contents | src/vertector_semantic_cache/core/cache_manager.py:823-831 | an L1 entry write into a cache that can hold something, seen through the responses and metadata readers get back, is one bounded insert of that response and metadata |
| CacheManager.WriteChainStep | src/vertector_semantic_cache/core/cache_manager.py:809-831 | one more pending slot extends the batch's chain of L1 writes by that slot's write when its answer is truthy |
| CacheManager.WritesChainBounded | src/vertector_semantic_cache/core/cache_manager.py:823-831 | the batch's writes keep L1 within its capacity, add no key they do not write, cannot have happened at all when the cache can hold nothing, and leave the last write readable under its key |
| CacheManager.FirstTruthy | src/vertector_semantic_cache/core/cache_manager.py:823-831 | the index of the first truthy answer among the first `t` gathered results, or `t` when none is truthy |
| CacheManager.Served | src/vertector_semantic_cache/core/cache_manager.py:809-835 | the L2 pass serves every pending prompt unless it fails, and when it fails its last served slot has a truthy answer |
| CacheManager.ServedAll | src/vertector_semantic_cache/core/cache_manager.py:823-831 | with nothing truthy to write, or an L1 tier that accepts writes, the L2 pass does not fail and serves every pending prompt |
| CacheManager.ServedUpTo | src/vertector_semantic_cache/core/cache_manager.py:823-831 | when L1 refuses writes, the pass fails at the first truthy answer, having served the prompts up to and including it |
| CacheManager.L1PassStep | src/vertector_semantic_cache/core/cache_manager.py:745-764 | the recording calls of one more prompt extend the L1 pass's history |
| CacheManager.L2PassStep | src/vertector_semantic_cache/core/cache_manager.py:809-835 | the recording calls of one more pending prompt extend the L2 pass's history |
| CacheManager.SemanticCacheManager.InvalidateByTag | src/vertector_semantic_cache/core/cache_manager.py:638-659 | without a tag index, returns 0 and changes nothing; otherwise empties L1 and performs the tag index's invalidation |
| CacheManager.SemanticCacheManager.InvalidateByTags | src/vertector_semantic_cache/core/cache_manager.py:661-688 | as InvalidateByTag, for all or any of the tags |
| CacheManager.SemanticCacheManager.SetThreshold | src/vertector_semantic_cache/core/cache_manager.py:874-887 | a threshold in [0, 1] replaces the configured one; any other is refused and nothing changes |
| CacheManager.SemanticCacheManager.ResetMetrics | src/vertector_semantic_cache/core/cache_manager.py:869-872 | the recorder becomes ResetStats of what it was |
| CacheManager.ContextCounts | src/vertector_semantic_cache/core/cache_manager.py:409-411 | the context call counts as no query, hit, miss or error |
| CacheManager.ServedHeadCounts | src/vertector_semantic_cache/core/cache_manager.py:399-411 | serving an L2 answer records exactly one hit and no query, miss or error before the gates |
| CacheManager.TopCounts | src/vertector_semantic_cache/core/cache_manager.py:429-511 | after the hit, the gates record at most one error and nothing else that counts |
| CacheManager.ServeCounts | src/vertector_semantic_cache/core/cache_manager.py:387-411 | a non-empty L2 answer records exactly one hit or one miss |
| CacheManager.ServePostFilter | src/vertector_semantic_cache/core/cache_manager.py:387-397 | a top distance above the threshold is exactly a plain miss with nothing served; at or below it, or absent, exactly one hit is recorded |
| CacheManager.L2Counts | src/vertector_semantic_cache/core/cache_manager.py:385-511 | the L2 tier records no query and at most one hit or miss |
| CacheManager.TiersCounts | src/vertector_semantic_cache/core/cache_manager.py:244-511 | the tiers record no query and at most one hit or miss |
| CacheManager.CheckCounts | src/vertector_semantic_cache/core/cache_manager.py:225-511 | every lookup counts exactly one query and at most one hit or miss |
| CacheManager.CheckPastL1 | src/vertector_semantic_cache/core/cache_manager.py:262-266 | without an L1 hit, the answer, the L1 write and the hit, miss and error counts are those of the L2 tier |
| CacheManager.CheckServesOnlyAdmissible | src/vertector_semantic_cache/core/cache_manager.py:385-491 | an L2 answer was found, its top distance is within the threshold, and the served entry is the top one after reranking, fresh and of the current version when those checks are on |
| CacheManager.CheckExhaustedRetries | src/vertector_semantic_cache/core/cache_manager.py:195-196 | when every attempt raises, nothing is answered and exactly two errors, no hit and no miss are recorded |
| CacheManager.ServeRefusesStale | src/vertector_semantic_cache/core/cache_manager.py:429-463 | a stale served entry records one hit and then one error, and nothing is answered |
| CacheManager.CheckRefusesStale | src/vertector_semantic_cache/core/cache_manager.py:429-511 | a stale entry is refused only after its hit was counted: no answer, one hit, one error, no miss, no L1 write |
| CacheManager.CheckL1HitSkipsSearch | src/vertector_semantic_cache/core/cache_manager.py:246-264 | an L1 hit answers with the cached response whatever the search, the reranker or the clock would give |
| CacheManager.QueriesCounts | src/vertector_semantic_cache/core/cache_manager.py:740-741 | the batch's query calls count exactly one query per prompt and no hit, miss or error |
| CacheManager.L1SlotCounts | src/vertector_semantic_cache/core/cache_manager.py:746-764 | one L1 lookup records a hit exactly when L1 holds the key, and no query, miss or error |
| CacheManager.L1PassCounts | src/vertector_semantic_cache/core/cache_manager.py:745-764 | the L1 pass records one hit per prompt it answers, that is, per prompt it does not leave pending, and no query, miss or error |
| CacheManager.L2SlotCounts | src/vertector_semantic_cache/core/cache_manager.py:810-835 | one served L2 slot records exactly one hit or one miss, and no query or error |
| CacheManager.L2PassCounts | src/vertector_semantic_cache/core/cache_manager.py:809-835 | `t` served L2 slots record `t` hits and misses together, and no query or error |
| CacheManager.BatchEventsCounts | src/vertector_semantic_cache/core/cache_manager.py:735-844 | a batch counts one query per prompt, records no error, and one hit or miss per prompt it serves: every prompt unless the L2 pass fails |
| CacheManager.BatchHistory | src/vertector_semantic_cache/core/cache_manager.py:735-844 | the recorder's history over a batch is the queries, then the L1 pass's calls, then the L2 pass's; queries grow by the batch size, errors do not grow, and hits plus misses grow by the batch size unless the L2 pass fails, and never by more |

## Left out

**Not modelled at all**

- Embedding, logging, tracing spans and connection set-up are not modelled. They have no effect on results or counters.
- The FT.SEARCH query string, the `VECTOR_RANGE` radius and the `SORTBY` order are not modelled. The replies of each attempt are parameters, so the database's own distance filtering is not modelled either.
- Concurrency is not modelled: the recorder's lock, `asyncio.gather` and `create_task`. The gathered L2 searches of `batch_check` are modelled as computed first and then processed in order, as the code processes them.
- The stale-refresh callback, which the background task only announces, is not modelled.
- The recorder's stale and version counters and their properties are not modelled. Their recording methods raise before changing anything, which the model captures as the caught-error path of `check`.
- `to_dict` and `to_prometheus` are not modelled. They only format counters.
- Floating-point arithmetic is not modelled: latencies, percentages, ages and thresholds are exact reals, and no rounding is modelled.
- TTL expiry inside the L1 cache and the choice of eviction victim are library behaviour. `L1.BoundedPut` fixes only that at most one entry goes, and only when the cache is full.
- Values of non-string type are not modelled. Context values are text, and parsed reply items that are not strings or arrays are treated as malformed, where the source would keep them as they are.
- Per-entry TTL expiry in Redis is not modelled. The TTL is only recorded in the stored entry.
- `initialize`, `clear`, `delete`, `disconnect`, `set_ttl` and `get_metrics` are not modelled. They are pass-through calls to the vector library, or plain getters.

**Weaker contracts and narrowed behaviour**

- Mutation of caller-owned dictionaries is not modelled. `store` adds keys to the caller's `metadata` dict, and `check` adds the context hash to the caller's `filters` dict. Each call here works on its own values.
- `Policy.RerankResults` models the reranker's answer as a parameter. Only the re-mapping of (documents, scores) pairs is modelled, not the scoring.
- `Config.Upper`: upper-casing covers ASCII letters only, where the source upper-cases any Unicode letter.
- `CacheManager.SemanticCacheManager.constructor` requires only the eviction-strategy check that `L1Cache` itself performs. It models `__init__` followed by `initialize`, not a manager that initialises lazily on first use.
- `CacheManager.SemanticCacheManager.BatchCheck` takes its latencies as one value per batch from `BatchEnv`: one total latency, one L1 latency and one gathered L2 latency. The source reads the clock again for each slot, so its recorded latencies differ from slot to slot. The `cached_at` time of the L1 entries it writes is not stated.
- `CacheManager.L1Effect` states the response of the entry a lookup writes to L1, not its metadata. Nothing in the manager reads the metadata of an L1 entry back: a hit uses only `.response`.
- `CacheManager.SemanticCacheManager.Check`: the answer and the recording calls are those of `CheckSpec`. The source's `acheck` fallback, used when the raw reply cannot be parsed, is an oracle (the `fallback` field of each search attempt).
- `Metrics.CacheMetrics.RecordTagInvalidation` is modelled, but the manager never calls it.
