/** The metrics recorder: plain counters, per-tier counters, two counting maps
    and two bounded windows of recent latencies.  `Stats` is the value of all
    fields at one moment, `Event` one call of a recording method, and `Apply`
    says what each call does to the value; `CacheMetrics` is the object whose
    methods update its fields in place. */
module Metrics {

  /** Number of latency samples kept per tier. */
  const LatencyWindow: nat := 1000

  datatype Stats = Stats(
    totalQueries: int,
    cacheHits: int,
    cacheMisses: int,
    totalLatencySaved: real,
    llmCallsAvoided: int,
    errors: int,
    rerankOperations: int,
    l1Hits: int,
    l1Misses: int,
    l2Hits: int,
    l2Misses: int,
    contextHits: map<string, int>,
    tagInvalidations: map<string, int>,
    l1Latencies: seq<real>,
    l2Latencies: seq<real>)

  /** One call of a recording method, with its argument. */
  datatype Event =
    | Query
    | Hit(latencySaved: real)
    | Miss
    | Error
    | Rerank
    | L1Hit(l1Latency: real)
    | L1Miss
    | L2Hit(l2Latency: real)
    | L2Miss
    | ContextHit(contextType: string)
    | TagInvalidation(tag: string, count: int)

  /** The freshly constructed recorder. */
  function Initial(): Stats
  {
    Stats(0, 0, 0, 0.0, 0, 0, 0, 0, 0, 0, 0, map[], map[], [], [])
  }

  /** A `defaultdict(int)` increment: a missing key counts from 0. */
  function Bump(m: map<string, int>, k: string, n: int): (r: map<string, int>)
    ensures r.Keys == m.Keys + {k}
    ensures r[k] == (if k in m then m[k] else 0) + n
    ensures forall j :: j in m && j != k ==> r[j] == m[j]
  {
    m[k := (if k in m then m[k] else 0) + n]
  }

  /** A latency window after recording `x`: only positive samples are kept, and
      of the samples only the most recent `LatencyWindow`, in order. */
  function Recorded(w: seq<real>, x: real): (r: seq<real>)
    ensures x <= 0.0 ==> r == w
    ensures x > 0.0 ==>
      && 0 < |r| <= LatencyWindow
      && r[|r| - 1] == x
      && |r| <= |w| + 1 && (|r| == |w| + 1 || |r| == LatencyWindow)
      && forall i :: 0 <= i < |r| - 1 ==> r[i] == w[|w| - (|r| - 1) + i]
  {
    if x > 0.0 then
      var a := w + [x];
      if |a| > LatencyWindow then a[|a| - LatencyWindow..] else a
    else
      w
  }

  /** What one recording call does: each event adds to its own counter(s) and leaves every other field alone. */
  function Apply(s: Stats, e: Event): (r: Stats)
    ensures r.totalQueries == s.totalQueries + (if e.Query? then 1 else 0)
    ensures r.cacheHits == s.cacheHits + (if e.Hit? then 1 else 0)
    ensures r.llmCallsAvoided == s.llmCallsAvoided + (if e.Hit? then 1 else 0)
    ensures r.totalLatencySaved == s.totalLatencySaved + (if e.Hit? then e.latencySaved else 0.0)
    ensures r.cacheMisses == s.cacheMisses + (if e.Miss? then 1 else 0)
    ensures r.errors == s.errors + (if e.Error? then 1 else 0)
    ensures r.rerankOperations == s.rerankOperations + (if e.Rerank? then 1 else 0)
    ensures r.l1Hits == s.l1Hits + (if e.L1Hit? then 1 else 0)
    ensures r.l1Misses == s.l1Misses + (if e.L1Miss? then 1 else 0)
    ensures r.l2Hits == s.l2Hits + (if e.L2Hit? then 1 else 0)
    ensures r.l2Misses == s.l2Misses + (if e.L2Miss? then 1 else 0)
    ensures r.l1Latencies == if e.L1Hit? then Recorded(s.l1Latencies, e.l1Latency) else s.l1Latencies
    ensures r.l2Latencies == if e.L2Hit? then Recorded(s.l2Latencies, e.l2Latency) else s.l2Latencies
    ensures r.contextHits == if e.ContextHit? then Bump(s.contextHits, e.contextType, 1) else s.contextHits
    ensures r.tagInvalidations == if e.TagInvalidation? then Bump(s.tagInvalidations, e.tag, e.count) else s.tagInvalidations
  {
    match e
    case Query => s.(totalQueries := s.totalQueries + 1)
    case Hit(lat) => s.(cacheHits := s.cacheHits + 1, llmCallsAvoided := s.llmCallsAvoided + 1,
                        totalLatencySaved := s.totalLatencySaved + lat)
    case Miss => s.(cacheMisses := s.cacheMisses + 1)
    case Error => s.(errors := s.errors + 1)
    case Rerank => s.(rerankOperations := s.rerankOperations + 1)
    case L1Hit(lat) => s.(l1Hits := s.l1Hits + 1, l1Latencies := Recorded(s.l1Latencies, lat))
    case L1Miss => s.(l1Misses := s.l1Misses + 1)
    case L2Hit(lat) => s.(l2Hits := s.l2Hits + 1, l2Latencies := Recorded(s.l2Latencies, lat))
    case L2Miss => s.(l2Misses := s.l2Misses + 1)
    case ContextHit(t) => s.(contextHits := Bump(s.contextHits, t, 1))
    case TagInvalidation(t, n) => s.(tagInvalidations := Bump(s.tagInvalidations, t, n))
  }

  /** The recording calls of `es`, made in order. */
  function ApplyAll(s: Stats, es: seq<Event>): Stats
  {
    if es == [] then s else Apply(ApplyAll(s, es[..|es| - 1]), es[|es| - 1])
  }

  lemma ApplyAllAppend(s: Stats, es: seq<Event>, e: Event)
    ensures ApplyAll(s, es + [e]) == Apply(ApplyAll(s, es), e)
  {
    assert (es + [e])[..|es|] == es;
  }

  /** `reset`: the seven top-level counters are zeroed; the tier counters, the
      latency windows and the counting maps are kept. */
  function ResetStats(s: Stats): (r: Stats)
    ensures r.totalQueries == 0 && r.cacheHits == 0 && r.cacheMisses == 0 && r.totalLatencySaved == 0.0
    ensures r.llmCallsAvoided == 0 && r.errors == 0 && r.rerankOperations == 0
    ensures r.l1Hits == s.l1Hits && r.l1Misses == s.l1Misses && r.l2Hits == s.l2Hits && r.l2Misses == s.l2Misses
    ensures r.l1Latencies == s.l1Latencies && r.l2Latencies == s.l2Latencies
    ensures r.contextHits == s.contextHits && r.tagInvalidations == s.tagInvalidations
  {
    s.(totalQueries := 0, cacheHits := 0, cacheMisses := 0, totalLatencySaved := 0.0,
       llmCallsAvoided := 0, errors := 0, rerankOperations := 0)
  }

  // ---------------------------------------------------------------- counting events

  function CountQueries(es: seq<Event>): nat
  {
    if es == [] then 0 else CountQueries(es[..|es| - 1]) + (if es[|es| - 1].Query? then 1 else 0)
  }

  function CountHits(es: seq<Event>): nat
  {
    if es == [] then 0 else CountHits(es[..|es| - 1]) + (if es[|es| - 1].Hit? then 1 else 0)
  }

  function CountMisses(es: seq<Event>): nat
  {
    if es == [] then 0 else CountMisses(es[..|es| - 1]) + (if es[|es| - 1].Miss? then 1 else 0)
  }

  function CountErrors(es: seq<Event>): nat
  {
    if es == [] then 0 else CountErrors(es[..|es| - 1]) + (if es[|es| - 1].Error? then 1 else 0)
  }

  /** The top-level counters after a run of calls are the counts of the matching calls. */
  lemma {:induction false} ApplyAllCounts(s: Stats, es: seq<Event>)
    ensures ApplyAll(s, es).totalQueries == s.totalQueries + CountQueries(es)
    ensures ApplyAll(s, es).cacheHits == s.cacheHits + CountHits(es)
    ensures ApplyAll(s, es).llmCallsAvoided == s.llmCallsAvoided + CountHits(es)
    ensures ApplyAll(s, es).cacheMisses == s.cacheMisses + CountMisses(es)
    ensures ApplyAll(s, es).errors == s.errors + CountErrors(es)
  {
    if es != [] {
      ApplyAllCounts(s, es[..|es| - 1]);
    }
  }

  lemma {:induction false} CountAppend(es: seq<Event>, fs: seq<Event>)
    ensures CountQueries(es + fs) == CountQueries(es) + CountQueries(fs)
    ensures CountHits(es + fs) == CountHits(es) + CountHits(fs)
    ensures CountMisses(es + fs) == CountMisses(es) + CountMisses(fs)
    ensures CountErrors(es + fs) == CountErrors(es) + CountErrors(fs)
  {
    if fs != [] {
      assert (es + fs)[..|es + fs| - 1] == es + fs[..|fs| - 1];
      CountAppend(es, fs[..|fs| - 1]);
    } else {
      assert es + fs == es;
    }
  }

  lemma {:induction false} ApplyAllConcat(s: Stats, es: seq<Event>, fs: seq<Event>)
    ensures ApplyAll(s, es + fs) == ApplyAll(ApplyAll(s, es), fs)
  {
    if fs == [] {
      assert es + fs == es;
    } else {
      assert (es + fs)[..|es + fs| - 1] == es + fs[..|fs| - 1];
      ApplyAllConcat(s, es, fs[..|fs| - 1]);
    }
  }

  /** The invariant a recorder keeps: `record_hit` bumps both counters together, `reset`
      zeroes both, and no window grows past its bound. */
  predicate Consistent(s: Stats)
  {
    && s.llmCallsAvoided == s.cacheHits
    && |s.l1Latencies| <= LatencyWindow
    && |s.l2Latencies| <= LatencyWindow
  }

  lemma {:induction false} ApplyAllConsistent(s: Stats, es: seq<Event>)
    requires Consistent(s)
    ensures Consistent(ApplyAll(s, es))
  {
    if es != [] {
      ApplyAllConsistent(s, es[..|es| - 1]);
    }
  }

  /** The recorder object; each method updates its fields under the lock in the source. */
  class CacheMetrics {
    var totalQueries: int
    var cacheHits: int
    var cacheMisses: int
    var totalLatencySaved: real
    var llmCallsAvoided: int
    var errors: int
    var rerankOperations: int
    var l1Hits: int
    var l1Misses: int
    var l2Hits: int
    var l2Misses: int
    var contextHits: map<string, int>
    var tagInvalidations: map<string, int>
    var l1Latencies: seq<real>
    var l2Latencies: seq<real>

    function Snapshot(): Stats
      reads this
    {
      Stats(totalQueries, cacheHits, cacheMisses, totalLatencySaved, llmCallsAvoided, errors,
            rerankOperations, l1Hits, l1Misses, l2Hits, l2Misses, contextHits, tagInvalidations,
            l1Latencies, l2Latencies)
    }

    predicate Valid()
      reads this
    {
      Consistent(Snapshot())
    }

    constructor ()
      ensures Valid() && Snapshot() == Initial()
    {
      totalQueries, cacheHits, cacheMisses, totalLatencySaved := 0, 0, 0, 0.0;
      llmCallsAvoided, errors, rerankOperations := 0, 0, 0;
      l1Hits, l1Misses, l2Hits, l2Misses := 0, 0, 0, 0;
      contextHits, tagInvalidations := map[], map[];
      l1Latencies, l2Latencies := [], [];
    }

    method IncrementQuery()
      requires Valid()
      modifies this
      ensures Valid() && Snapshot() == Apply(old(Snapshot()), Query)
    {
      totalQueries := totalQueries + 1;
    }

    method RecordHit(latencySaved: real)
      requires Valid()
      modifies this
      ensures Valid() && Snapshot() == Apply(old(Snapshot()), Hit(latencySaved))
    {
      cacheHits := cacheHits + 1;
      llmCallsAvoided := llmCallsAvoided + 1;
      totalLatencySaved := totalLatencySaved + latencySaved;
    }

    method RecordMiss()
      requires Valid()
      modifies this
      ensures Valid() && Snapshot() == Apply(old(Snapshot()), Miss)
    {
      cacheMisses := cacheMisses + 1;
    }

    method RecordError()
      requires Valid()
      modifies this
      ensures Valid() && Snapshot() == Apply(old(Snapshot()), Error)
    {
      errors := errors + 1;
    }

    method RecordRerank()
      requires Valid()
      modifies this
      ensures Valid() && Snapshot() == Apply(old(Snapshot()), Rerank)
    {
      rerankOperations := rerankOperations + 1;
    }

    method RecordL1Hit(latency: real)
      requires Valid()
      modifies this
      ensures Valid() && Snapshot() == Apply(old(Snapshot()), L1Hit(latency))
    {
      l1Hits := l1Hits + 1;
      if latency > 0.0 {
        l1Latencies := l1Latencies + [latency];
        if |l1Latencies| > LatencyWindow {
          l1Latencies := l1Latencies[|l1Latencies| - LatencyWindow..];
        }
      }
    }

    method RecordL1Miss()
      requires Valid()
      modifies this
      ensures Valid() && Snapshot() == Apply(old(Snapshot()), L1Miss)
    {
      l1Misses := l1Misses + 1;
    }

    method RecordL2Hit(latency: real)
      requires Valid()
      modifies this
      ensures Valid() && Snapshot() == Apply(old(Snapshot()), L2Hit(latency))
    {
      l2Hits := l2Hits + 1;
      if latency > 0.0 {
        l2Latencies := l2Latencies + [latency];
        if |l2Latencies| > LatencyWindow {
          l2Latencies := l2Latencies[|l2Latencies| - LatencyWindow..];
        }
      }
    }

    method RecordL2Miss()
      requires Valid()
      modifies this
      ensures Valid() && Snapshot() == Apply(old(Snapshot()), L2Miss)
    {
      l2Misses := l2Misses + 1;
    }

    method RecordContextHit(contextType: string)
      requires Valid()
      modifies this
      ensures Valid() && Snapshot() == Apply(old(Snapshot()), ContextHit(contextType))
    {
      contextHits := contextHits[contextType := (if contextType in contextHits then contextHits[contextType] else 0) + 1];
    }

    method RecordTagInvalidation(tag: string, count: int)
      requires Valid()
      modifies this
      ensures Valid() && Snapshot() == Apply(old(Snapshot()), TagInvalidation(tag, count))
    {
      tagInvalidations := tagInvalidations[tag := (if tag in tagInvalidations then tagInvalidations[tag] else 0) + count];
    }

    method Reset()
      requires Valid()
      modifies this
      ensures Valid() && Snapshot() == ResetStats(old(Snapshot()))
    {
      totalQueries := 0;
      cacheHits := 0;
      cacheMisses := 0;
      totalLatencySaved := 0.0;
      llmCallsAvoided := 0;
      errors := 0;
      rerankOperations := 0;
    }

    /** `hit_rate`, as a percentage. */
    function HitRate(): (r: real)
      reads this
      ensures totalQueries == 0 ==> r == 0.0
      ensures 0 <= cacheHits <= totalQueries ==> 0.0 <= r <= 100.0
    {
      if totalQueries == 0 then 0.0 else Percent(cacheHits, totalQueries)
    }

    /** `cost_savings_percentage`. */
    function CostSavingsPercentage(): (r: real)
      reads this
      ensures totalQueries == 0 ==> r == 0.0
      ensures Valid() ==> r == HitRate()
    {
      if totalQueries == 0 then 0.0 else Percent(llmCallsAvoided, totalQueries)
    }

    /** `error_rate`, as a percentage. */
    function ErrorRate(): (r: real)
      reads this
      ensures totalQueries == 0 ==> r == 0.0
      ensures totalQueries > 0 && errors >= 0 ==> r >= 0.0
    {
      if totalQueries == 0 then 0.0 else Percent(errors, totalQueries)
    }

    /** `average_latency_saved`, in milliseconds per hit. */
    function AverageLatencySaved(): (r: real)
      reads this
      ensures cacheHits == 0 ==> r == 0.0
      ensures cacheHits > 0 && totalLatencySaved >= 0.0 ==> r >= 0.0
    {
      if cacheHits == 0 then 0.0 else (totalLatencySaved / cacheHits as real) * 1000.0
    }
  }

  /** `part / whole * 100` over the reals. */
  function Percent(part: int, whole: int): (r: real)
    requires whole != 0
    ensures whole > 0 && 0 <= part <= whole ==> 0.0 <= r <= 100.0
    ensures whole > 0 && part >= 0 ==> r >= 0.0
  {
    (part as real / whole as real) * 100.0
  }
}
