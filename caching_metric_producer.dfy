/** A metric producer that memoises its compute function for a fixed duration
    (CachingMetricProducer). The clock reading `System.nanoTime()` is the
    parameter `now`; the compute function is a function of the instant it runs
    at, and a `None` result stands for the `null` collection it may return. */
module MetricCaching {
  import opened Wrappers

  /** Whether `collectAllMetrics` recomputes: nothing cached yet, or the cache
      is older than the duration. */
  predicate MustRecompute<T>(cached: Option<T>, cacheTimestamp: int, cacheDurationNanos: int, now: int)
  {
    cached.None? || now - cacheTimestamp > cacheDurationNanos
  }

  /** The cache after a call at `now` and the value returned: the fresh result
      and the new timestamp when a recomputation is due, the cache as it was
      otherwise. The returned value is the cache's content after the call. */
  function CollectStep<T>(compute: int -> Option<T>, cacheDurationNanos: int, cached: Option<T>, cacheTimestamp: int, now: int)
    : (r: (Option<T>, int))
    ensures MustRecompute(cached, cacheTimestamp, cacheDurationNanos, now) ==> r == (compute(now), now)
    ensures !MustRecompute(cached, cacheTimestamp, cacheDurationNanos, now) ==> r == (cached, cacheTimestamp)
  {
    if cached.None? || now - cacheTimestamp > cacheDurationNanos then (compute(now), now) else (cached, cacheTimestamp)
  }

  /** The results of successive calls at the given instants, and the cache
      they leave behind. */
  function CollectMany<T>(compute: int -> Option<T>, cacheDurationNanos: int, cached: Option<T>, cacheTimestamp: int, times: seq<int>)
    : (Option<T>, int, seq<Option<T>>)
    decreases |times|
  {
    if times == [] then (cached, cacheTimestamp, [])
    else
      var (c1, ts1) := CollectStep(compute, cacheDurationNanos, cached, cacheTimestamp, times[0]);
      var (c2, ts2, rs) := CollectMany(compute, cacheDurationNanos, c1, ts1, times[1..]);
      (c2, ts2, [c1] + rs)
  }

  /** Once something is cached, every call within the duration of its
      timestamp returns it without recomputing, and the timestamp stays. */
  lemma {:induction false} CachedWithinDuration<T>(compute: int -> Option<T>, cacheDurationNanos: int,
                                                  cached: Option<T>, cacheTimestamp: int, times: seq<int>)
    requires cached.Some?
    requires forall i :: 0 <= i < |times| ==> times[i] - cacheTimestamp <= cacheDurationNanos
    ensures var (c, ts, rs) := CollectMany(compute, cacheDurationNanos, cached, cacheTimestamp, times);
            c == cached && ts == cacheTimestamp && |rs| == |times| && forall i :: 0 <= i < |rs| ==> rs[i] == cached
    decreases |times|
  {
    if times != [] {
      assert CollectStep(compute, cacheDurationNanos, cached, cacheTimestamp, times[0]) == (cached, cacheTimestamp);
      CachedWithinDuration(compute, cacheDurationNanos, cached, cacheTimestamp, times[1..]);
    }
  }

  class CachingMetricProducer<T> {
    const computeMetricsFunction: int -> Option<T>
    const cacheDurationNanos: int
    var cacheTimestamp: int
    var cachedMetrics: Option<T>

    constructor (computeMetricsFunction: int -> Option<T>, cacheDurationNanos: int)
      ensures this.computeMetricsFunction == computeMetricsFunction && this.cacheDurationNanos == cacheDurationNanos
      ensures cachedMetrics == None && cacheTimestamp == 0
    {
      this.computeMetricsFunction := computeMetricsFunction;
      this.cacheDurationNanos := cacheDurationNanos;
      cacheTimestamp := 0;
      cachedMetrics := None;
    }

    /** `collectAllMetrics` at `now`; `computed` says whether the compute
        function ran. */
    method CollectAllMetrics(now: int) returns (r: Option<T>, computed: bool)
      modifies this
      ensures computed <==> MustRecompute(old(cachedMetrics), old(cacheTimestamp), cacheDurationNanos, now)
      ensures (cachedMetrics, cacheTimestamp) == CollectStep(computeMetricsFunction, cacheDurationNanos, old(cachedMetrics), old(cacheTimestamp), now)
      ensures r == cachedMetrics
    {
      computed := cachedMetrics.None? || now - cacheTimestamp > cacheDurationNanos;
      if computed {
        cachedMetrics := computeMetricsFunction(now);
        cacheTimestamp := now;
      }
      r := cachedMetrics;
    }
  }
}
