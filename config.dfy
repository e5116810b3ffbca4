/** Configuration of the semantic cache: the declared field constraints, the
    field validators and the conversion from environment settings.  A pydantic
    model either validates every field or raises; `Validate` returns the
    normalised configuration or an error naming the fields that failed. */
module Config {
  import opened Wrappers

  const VectorizerProviders: seq<string> := ["huggingface", "openai", "cohere", "vertexai", "voyageai", "custom"]
  const RerankerProviders: seq<string> := ["huggingface", "cohere", "voyageai"]
  const EvictionStrategies: seq<string> := ["lru", "lfu", "ttl"]
  const TracingExporters: seq<string> := ["console", "otlp", "jaeger"]
  const LogLevels: seq<string> := ["DEBUG", "INFO", "WARNING", "ERROR", "CRITICAL"]

  datatype L1CacheConfig = L1CacheConfig(enabled: bool, maxSize: int, ttlSeconds: int, evictionStrategy: string)

  datatype VectorizerConfig = VectorizerConfig(provider: string, model: string, dtype: string, dims: Option<int>)

  datatype RerankerConfig = RerankerConfig(enabled: bool, provider: string, model: string, limit: int, returnScore: bool)

  datatype ObservabilityConfig = ObservabilityConfig(enableTracing: bool, tracingExporter: string, serviceName: string)

  datatype CacheConfig = CacheConfig(
    redisUrl: string,
    name: string,
    ttl: Option<int>,
    distanceThreshold: real,
    vectorizer: VectorizerConfig,
    reranker: RerankerConfig,
    l1Cache: L1CacheConfig,
    enableContextHashing: bool,
    contextFields: seq<string>,
    enableTags: bool,
    maxTagsPerEntry: int,
    observability: ObservabilityConfig,
    enableStaleWhileRevalidate: bool,
    staleToleranceSeconds: int,
    maxStaleAgeSeconds: int,
    enableVersionChecking: bool,
    cacheVersion: string,
    maxRetries: int,
    retryDelay: real,
    retryBackoff: real,
    connectionPoolSize: int,
    logLevel: string,
    jsonLogging: bool)

  /** The environment-backed settings object; its fields carry no constraints of their own. */
  datatype CacheSettings = CacheSettings(redisUrl: string, cacheName: string, ttl: Option<int>, distanceThreshold: real, logLevel: string)

  // ---------------------------------------------------------------- log level

  /** ASCII upper-casing of one character. */
  function UpperChar(c: char): char
  {
    if 'a' <= c <= 'z' then (c as int - 32) as char else c
  }

  /** `str.upper()` restricted to ASCII letters. */
  function Upper(s: string): (r: string)
    ensures |r| == |s|
  {
    if s == [] then [] else [UpperChar(s[0])] + Upper(s[1..])
  }

  /** Upper-casing twice is upper-casing once. */
  lemma {:induction false} UpperIdempotent(s: string)
    ensures Upper(Upper(s)) == Upper(s)
  {
    if s != [] {
      UpperIdempotent(s[1..]);
      assert Upper(s)[1..] == Upper(s[1..]);
    }
  }

  /** Upper-casing leaves no lower-case ASCII letter behind. */
  lemma {:induction false} UpperHasNoLowerCase(s: string)
    ensures forall i :: 0 <= i < |Upper(s)| ==> !('a' <= Upper(s)[i] <= 'z')
  {
    if s != [] {
      UpperHasNoLowerCase(s[1..]);
      assert Upper(s) == [UpperChar(s[0])] + Upper(s[1..]);
    }
  }

  /** `validate_log_level`: accepted case-insensitively, returned upper-cased. */
  function ValidateLogLevel(v: string): (r: Result<string>)
    ensures r.Ok? <==> Upper(v) in LogLevels
    ensures r.Ok? ==> r.value == Upper(v) && r.value in LogLevels
  {
    if Upper(v) in LogLevels then Ok(Upper(v)) else Err("log_level must be one of " + "DEBUG, INFO, WARNING, ERROR, CRITICAL")
  }

  /** Normalisation is idempotent: validating an accepted level again returns it unchanged. */
  lemma ValidateLogLevelIdempotent(v: string)
    requires ValidateLogLevel(v).Ok?
    ensures ValidateLogLevel(ValidateLogLevel(v).value) == ValidateLogLevel(v)
  {
    UpperIdempotent(v);
  }

  /** Two spellings that differ only in ASCII case are accepted or refused together,
      and normalise to the same level. */
  lemma ValidateLogLevelIgnoresCase(v: string)
    ensures ValidateLogLevel(Upper(v)) == ValidateLogLevel(v)
  {
    UpperIdempotent(v);
  }

  // ---------------------------------------------------------------- field validators

  /** `validate_threshold` (and the ge/le constraints on `distance_threshold`). */
  function ValidateThreshold(v: real): (r: Result<real>)
    ensures r.Ok? <==> 0.0 <= v <= 1.0
    ensures r.Ok? ==> r.value == v
  {
    if 0.0 <= v <= 1.0 then Ok(v) else Err("distance_threshold must be between 0.0 and 1.0")
  }

  /** `validate_provider` on the vectorizer provider. */
  function ValidateProvider(v: string): (r: Result<string>)
    ensures r.Ok? <==> v in VectorizerProviders
    ensures r.Ok? ==> r.value == v
  {
    if v in VectorizerProviders then Ok(v) else Err("Provider must be one of the vectorizer providers")
  }

  /** The names of the fields whose declared constraint fails, in declaration order. */
  function Violations(c: CacheConfig): seq<string>
  {
    (if c.ttl.Some? && c.ttl.value < 0 then ["ttl"] else [])
    + (if ValidateThreshold(c.distanceThreshold).Err? then ["distance_threshold"] else [])
    + (if ValidateProvider(c.vectorizer.provider).Err? then ["vectorizer.provider"] else [])
    + (if c.reranker.provider !in RerankerProviders then ["reranker.provider"] else [])
    + (if c.reranker.limit < 1 then ["reranker.limit"] else [])
    + (if c.l1Cache.evictionStrategy !in EvictionStrategies then ["l1_cache.eviction_strategy"] else [])
    + (if c.observability.tracingExporter !in TracingExporters then ["observability.tracing_exporter"] else [])
    + (if c.staleToleranceSeconds < 0 then ["stale_tolerance_seconds"] else [])
    + (if c.maxStaleAgeSeconds < 0 then ["max_stale_age_seconds"] else [])
    + (if c.maxRetries < 0 then ["max_retries"] else [])
    + (if c.retryDelay < 0.0 then ["retry_delay"] else [])
    + (if c.retryBackoff < 1.0 then ["retry_backoff"] else [])
    + (if c.connectionPoolSize < 1 then ["connection_pool_size"] else [])
    + (if ValidateLogLevel(c.logLevel).Err? then ["log_level"] else [])
  }

  /** Constructing a `CacheConfig`: every constraint holds, or a validation error naming the failures. */
  function Validate(c: CacheConfig): (r: Result<CacheConfig>)
    ensures r.Ok? <==>
      && (c.ttl.None? || c.ttl.value >= 0)
      && 0.0 <= c.distanceThreshold <= 1.0
      && c.vectorizer.provider in VectorizerProviders
      && c.reranker.provider in RerankerProviders
      && c.reranker.limit >= 1
      && c.l1Cache.evictionStrategy in EvictionStrategies
      && c.observability.tracingExporter in TracingExporters
      && c.staleToleranceSeconds >= 0
      && c.maxStaleAgeSeconds >= 0
      && c.maxRetries >= 0
      && c.retryDelay >= 0.0
      && c.retryBackoff >= 1.0
      && c.connectionPoolSize >= 1
      && Upper(c.logLevel) in LogLevels
    ensures r.Ok? ==> r.value == c.(logLevel := Upper(c.logLevel))
  {
    var bad := Violations(c);
    if bad == [] then Ok(c.(logLevel := Upper(c.logLevel))) else Err("validation error")
  }

  /** A value that a constructed `CacheConfig` can hold: what validation accepts and returns unchanged. */
  predicate Valid(c: CacheConfig)
  {
    Validate(c) == Ok(c)
  }

  /** Whatever validation returns is itself valid: constructing from a constructed config is a no-op. */
  lemma ValidateProducesValid(c: CacheConfig)
    requires Validate(c).Ok?
    ensures Valid(Validate(c).value)
  {
    UpperIdempotent(c.logLevel);
  }

  /** The bounds a valid configuration guarantees to the cache manager. */
  lemma ValidBounds(c: CacheConfig)
    requires Valid(c)
    ensures c.ttl.None? || c.ttl.value >= 0
    ensures 0.0 <= c.distanceThreshold <= 1.0
    ensures c.maxRetries >= 0 && c.retryDelay >= 0.0 && c.retryBackoff >= 1.0
    ensures c.reranker.limit >= 1 && c.maxStaleAgeSeconds >= 0
    ensures c.l1Cache.evictionStrategy in EvictionStrategies
    ensures c.vectorizer.provider in VectorizerProviders
    ensures c.logLevel in LogLevels
  {
  }

  /** The field defaults of `CacheConfig` and its nested models. */
  function DefaultConfig(): CacheConfig
  {
    CacheConfig(
      redisUrl := "redis://localhost:6380",
      name := "semantic_cache",
      ttl := Some(3600),
      distanceThreshold := 0.2,
      vectorizer := VectorizerConfig("huggingface", "redis/langcache-embed-v1", "float32", None),
      reranker := RerankerConfig(false, "huggingface", "cross-encoder/ms-marco-MiniLM-L-6-v2", 3, true),
      l1Cache := L1CacheConfig(false, 1000, 300, "lru"),
      enableContextHashing := true,
      contextFields := ["conversation_id", "user_persona", "session_id"],
      enableTags := true,
      maxTagsPerEntry := 10,
      observability := ObservabilityConfig(false, "console", "semantic-cache"),
      enableStaleWhileRevalidate := false,
      staleToleranceSeconds := 300,
      maxStaleAgeSeconds := 3600,
      enableVersionChecking := false,
      cacheVersion := "v1",
      maxRetries := 3,
      retryDelay := 1.0,
      retryBackoff := 2.0,
      connectionPoolSize := 10,
      logLevel := "INFO",
      jsonLogging := false)
  }

  /** `CacheSettings.to_cache_config`: the five settings over the defaults, then validation. */
  function ToCacheConfig(s: CacheSettings): (r: Result<CacheConfig>)
    ensures r.Ok? <==>
      (s.ttl.None? || s.ttl.value >= 0) && 0.0 <= s.distanceThreshold <= 1.0 && Upper(s.logLevel) in LogLevels
    ensures r.Ok? ==>
      && r.value.redisUrl == s.redisUrl
      && r.value.name == s.cacheName
      && r.value.ttl == s.ttl
      && r.value.distanceThreshold == s.distanceThreshold
      && r.value.logLevel == Upper(s.logLevel)
      && Valid(r.value)
  {
    var c := DefaultConfig().(redisUrl := s.redisUrl, name := s.cacheName, ttl := s.ttl,
                              distanceThreshold := s.distanceThreshold, logLevel := s.logLevel);
    var r := Validate(c);
    if r.Ok? then ValidateProducesValid(c); r else r
  }
}
