# inspectIT Ocelot core: percentile engine and metric plumbing, in Dafny

This project models the deterministic core of the inspectIT Ocelot agent's
metrics and tracing code. It proves the properties that code promises.

- **Percentile views (`PercentileViews`).** One store per percentile view.
  - It buffers (value, time) points per tag combination under a global point budget.
  - It sweeps stale points, throttled to at most one sweep per second when the budget is full.
  - It computes the minimum and maximum of every buffered series.
- **The asynchronous recorder (`AsyncRecording`).** A bounded queue of 8096 records.
  - Instrumented code offers records to it and never blocks.
  - A worker hands the records to the percentile consumer one by one.
- **The caching metric producer (`MetricCaching`).** It memoises a compute function for a fixed duration.
- **Attribute values (`AttributesUtils`).** Tag values are checked for length and printable characters.
  - An invalid value becomes `<invalid>`.
  - A rate limiter governs the warnings this produces.
- **Common tags (`CommonTags`).** The tags every metric carries.
  - Providers are merged in priority order, and the first provider to supply a key wins.
  - Custom tags override common ones inside a scope.
- **The metrics recorder hook (`MetricsRecording`).** It records every Number-valued metric when an instrumented method exits.
  - The tags are built in three passes: common, then constant, then data.
  - Each later pass overwrites the earlier ones.
- **Measures and views (`MeasuresAndViews`).** The rules by which metric definitions become measures and views.
  - The tag keys of a view.
  - Splitting quantiles into minimum, maximum and percentiles.
  - Renaming `/` to `.`.
  - Choosing how a view is registered.
  - Caching a definition, and re-applying it only when it changed.
- **Placeholder spans (`Autotracing`).** A span whose parent is not known when it starts.
  - It is exported at most once.
  - Once it has been ended at a non-zero time and given its parent, in either order, it has been exported. A span ended at time 0 before it gets its parent is never exported.
- **The context manager (`Contexts`).** The per-thread correlation flag, and the cache that stores a context under a target so it can be attached again.

Several things from the runtime become parameters:
- clocks (`System.nanoTime`, `System.currentTimeMillis`, the span clock) are passed in as `now`, `time` or `clockNow`;
- the compute function of the caching producer;
- whether the percentile consumer throws;
- what the OpenTelemetry controller reports (`Environment`).

A Baggage, a tag context and the inspectit context data are maps from key to string. The iteration order of a Java `HashMap` or `HashSet` is left open: the loops pick their next element with `:|`. Where the result depends on the order, the order is a parameter; `names` in `UpdateMetricDefinitions` is the order in which the definitions are visited.

All paths below are relative to the repository root. The prefix `inspectit-ocelot-core/src/main/java/rocks/inspectit/ocelot/core/` is written out in full in the table.

## Model

| member | source | states |
|---|---|---|
| PercentileViews.ValidateConfiguration | inspectit-ocelot-core/src/main/java/rocks/inspectit/ocelot/core/metrics/percentiles/PercentileView.java:183-205 | A view configuration is accepted iff all of these hold: every percentile lies in (0,1); the name, description and unit are not blank; the time window is positive; there is at least one percentile or min or max is enabled; the buffer limit is ≥ 1. The out-of-range error is reported iff some percentile is ≤ 0 or ≥ 1. |
| PercentileViews.PercentileView.constructor | inspectit-ocelot-core/src/main/java/rocks/inspectit/ocelot/core/metrics/percentiles/PercentileView.java:160-181 | A valid configuration yields an empty view with no points, no sweep yet and no overflow warning. Every tag gets an index. |
| PercentileViews.PercentileView.Create | inspectit-ocelot-core/src/main/java/rocks/inspectit/ocelot/core/metrics/percentiles/PercentileView.java:160-205 | Construction fails iff validation reports an error, and the failure carries the first error found. Otherwise it yields a fresh, valid, empty view over exactly the given tags. |
| PercentileViews.AssignTagIndices | inspectit-ocelot-core/src/main/java/rocks/inspectit/ocelot/core/metrics/percentiles/PercentileView.java:207-214 | Every tag gets an index. Indices lie in 0..n-1 and are pairwise distinct, so they cover 0..n-1 exactly. |
| PercentileViews.TagIndexingInjective | inspectit-ocelot-core/src/main/java/rocks/inspectit/ocelot/core/metrics/percentiles/PercentileView.java:207-214 | An indexing built in iteration order gives in-range, pairwise distinct indices. |
| PercentileViews.TagIndexingInverse | inspectit-ocelot-core/src/main/java/rocks/inspectit/ocelot/core/metrics/percentiles/PercentileView.java:207-214 | The index of every tag names that tag in the iteration order, so the index map can be inverted. |
| PercentileViews.FillTags | inspectit-ocelot-core/src/main/java/rocks/inspectit/ocelot/core/metrics/percentiles/PercentileView.java:388-396 | The array loop over the context's entries yields the series key `TagsFor`. |
| PercentileViews.PercentileView.GetTagsList | inspectit-ocelot-core/src/main/java/rocks/inspectit/ocelot/core/metrics/percentiles/PercentileView.java:387-397 | The series key of a tag context is `TagsFor` over the view's tag order. |
| PercentileViews.TagsForPlacement | inspectit-ocelot-core/src/main/java/rocks/inspectit/ocelot/core/metrics/percentiles/PercentileView.java:387-397 | The series key: has one entry per tag key; holds a known key's value at its index; holds "" for a tag missing from the context; is unaffected by context keys that are not tags of the view. |
| PercentileViews.LeadingStale | inspectit-ocelot-core/src/main/java/rocks/inspectit/ocelot/core/metrics/percentiles/PercentileView.java:231 | The number of leading points older than the window start. The next point, if any, is inside the window. |
| PercentileViews.RemoveStaleValues | inspectit-ocelot-core/src/main/java/rocks/inspectit/ocelot/core/metrics/percentiles/PercentileView.java:231 | Removing stale values keeps a suffix of the queue. It reports as removed exactly the drop in size. |
| PercentileViews.SweepSeries | inspectit-ocelot-core/src/main/java/rocks/inspectit/ocelot/core/metrics/percentiles/PercentileView.java:275-280 | The loop over all series removes each series' stale points. It lowers the count by exactly the number removed and keeps count = total buffered ≤ limit. |
| PercentileViews.PercentileView.RemoveStalePoints | inspectit-ocelot-core/src/main/java/rocks/inspectit/ocelot/core/metrics/percentiles/PercentileView.java:272-281 | A sweep sets `lastCleanupTimeMs` to the time and sweeps every series. It decrements `numberOfPoints` by exactly the points removed and keeps the budget invariant. |
| PercentileViews.PercentileView.RemoveStalePointsIfTimeThresholdExceeded | inspectit-ocelot-core/src/main/java/rocks/inspectit/ocelot/core/metrics/percentiles/PercentileView.java:290-297 | The sweep runs iff more than 1000 ms have passed since the last cleanup and the count has reached the limit. Otherwise the series and the cleanup time are unchanged. |
| PercentileViews.InsertIntoSeries | inspectit-ocelot-core/src/main/java/rocks/inspectit/ocelot/core/metrics/percentiles/PercentileView.java:228-242 | The series of the tags is created if absent and loses its own stale points. The point is appended iff the resulting total is below the limit. Count = total ≤ limit is kept, and a rejection finds the count exactly at the limit. |
| PercentileViews.PercentileView.InsertValue | inspectit-ocelot-core/src/main/java/rocks/inspectit/ocelot/core/metrics/percentiles/PercentileView.java:225-245 | An insert does the throttled sweep, then the series' own eviction. The point is accepted iff the count is then below `bufferLimit`, and only an accepted point is appended. `numberOfPoints` ≤ `bufferLimit` is kept. `overflowWarningPrinted` only goes false→true, and the warning is logged exactly on the first rejection. |
| PercentileViews.PercentileView.SeriesNames | inspectit-ocelot-core/src/main/java/rocks/inspectit/ocelot/core/metrics/percentiles/PercentileView.java:253-265 | The series names are: `viewName` iff there are percentiles; `viewName_min` iff min is enabled; `viewName_max` iff max is enabled; nothing else. |
| PercentileViews.MinMaxOf | inspectit-ocelot-core/src/main/java/rocks/inspectit/ocelot/core/metrics/percentiles/PercentileView.java:358-364 | The min/max fold starts from ±Double.MAX_VALUE. On a non-empty snapshot it yields an element that no element undercuts and an element that no element exceeds. |
| PercentileViews.MinMaxPerSeries | inspectit-ocelot-core/src/main/java/rocks/inspectit/ocelot/core/metrics/percentiles/PercentileView.java:316-328 | Exactly the non-empty series get a result, which is their smallest and largest buffered value. |
| PercentileViews.PercentileView.ComputeMinMax | inspectit-ocelot-core/src/main/java/rocks/inspectit/ocelot/core/metrics/percentiles/PercentileView.java:313-371 | Computing metrics first sweeps all series. With min or max enabled, every non-empty series gets its minimum and maximum. Otherwise nothing is computed. The overflow-warning flag is left as it was. |
| PercentileViews.Values | inspectit-ocelot-core/src/main/java/rocks/inspectit/ocelot/core/metrics/percentiles/PercentileView.java:323 | The snapshot of a queue is its values in order. |
| AsyncRecording.AsyncMetricRecorder.constructor | inspectit-ocelot-core/src/main/java/rocks/inspectit/ocelot/core/metrics/percentiles/AsyncMetricRecorder.java:21-37 | A new recorder has an empty queue, both flags false, and a running worker. |
| AsyncRecording.AsyncMetricRecorder.Record | inspectit-ocelot-core/src/main/java/rocks/inspectit/ocelot/core/metrics/percentiles/AsyncMetricRecorder.java:39-45 | `record` is one `RecordStep`: it appends at the tail iff there is room, and otherwise drops without blocking. The queue never exceeds 8096 records. |
| AsyncRecording.RecordAppendsIffRoom | inspectit-ocelot-core/src/main/java/rocks/inspectit/ocelot/core/metrics/percentiles/AsyncMetricRecorder.java:17-45 | A record is queued at the tail iff fewer than 8096 are waiting, and a full queue is left unchanged. `overflowLogged` afterwards is its old value or-ed with "dropped". |
| AsyncRecording.DropWarningAtMostOnce | inspectit-ocelot-core/src/main/java/rocks/inspectit/ocelot/core/metrics/percentiles/AsyncMetricRecorder.java:21-44 | Over any sequence of events, the drop warning is logged at most once (never, once it has been logged), and `overflowLogged` never goes back to false. |
| AsyncRecording.AsyncMetricRecorder.Destroy | inspectit-ocelot-core/src/main/java/rocks/inspectit/ocelot/core/metrics/percentiles/AsyncMetricRecorder.java:47-50 | `destroy` sets `isDestroyed` and interrupts the worker if it is still running. |
| AsyncRecording.AsyncMetricRecorder.Interrupt | inspectit-ocelot-core/src/main/java/rocks/inspectit/ocelot/core/metrics/percentiles/AsyncMetricRecorder.java:49 | An interrupt of the worker thread is pending iff the worker still runs. |
| AsyncRecording.AsyncMetricRecorder.DoRecordIteration | inspectit-ocelot-core/src/main/java/rocks/inspectit/ocelot/core/metrics/percentiles/AsyncMetricRecorder.java:52-67 | One iteration of the worker loop is a `WorkerStep`. A pending interrupt ends the loop iff the recorder is destroyed, and is otherwise logged. An empty queue blocks. Otherwise the head record goes to the consumer and is gone even if the consumer throws. |
| AsyncRecording.TerminatesOnlyWhenDestroyed | inspectit-ocelot-core/src/main/java/rocks/inspectit/ocelot/core/metrics/percentiles/AsyncMetricRecorder.java:57-62 | The loop returns iff it is interrupted after `destroy`, and a stopped worker does nothing more. |
| AsyncRecording.ApplyKeepsInvariant | inspectit-ocelot-core/src/main/java/rocks/inspectit/ocelot/core/metrics/percentiles/AsyncMetricRecorder.java:39-67 | Every event keeps the queue within its capacity. A stopped worker implies a destroyed recorder. |
| AsyncRecording.ApplyMovesQueue | inspectit-ocelot-core/src/main/java/rocks/inspectit/ocelot/core/metrics/percentiles/AsyncMetricRecorder.java:39-56 | One event takes a record from the head, or adds one at the tail, or leaves the queue alone. |
| AsyncRecording.RunIsFifo | inspectit-ocelot-core/src/main/java/rocks/inspectit/ocelot/core/metrics/percentiles/AsyncMetricRecorder.java:39-67 | FIFO delivery, over any interleaving of records, destroys, interrupts and worker steps. The records handed to the consumer followed by those still queued equal the initial queue followed by every record accepted, in order. |
| MetricCaching.CollectStep | inspectit-ocelot-core/src/main/java/rocks/inspectit/ocelot/core/metrics/percentiles/CachingMetricProducer.java:44-51 | When nothing is cached or the cache is older than the duration, the result is recomputed at `now` and stamped with `now`. Otherwise the cache and its timestamp are returned untouched. |
| MetricCaching.CachingMetricProducer.constructor | inspectit-ocelot-core/src/main/java/rocks/inspectit/ocelot/core/metrics/percentiles/CachingMetricProducer.java:38-41 | The producer keeps the function and duration, with nothing cached. |
| MetricCaching.CachingMetricProducer.CollectAllMetrics | inspectit-ocelot-core/src/main/java/rocks/inspectit/ocelot/core/metrics/percentiles/CachingMetricProducer.java:44-51 | The compute function runs iff nothing is cached or the cache is older than the duration. The cache and timestamp follow `CollectStep`, and the return value is the cache after the call. |
| MetricCaching.CachedWithinDuration | inspectit-ocelot-core/src/main/java/rocks/inspectit/ocelot/core/metrics/percentiles/CachingMetricProducer.java:46-50 | Once something is cached, every later call within the duration returns it unchanged without recomputing, and the timestamp stays. |
| AttributesUtils.IsPrintableString | inspectit-ocelot-core/src/main/java/rocks/inspectit/ocelot/core/tags/AttributesUtils.java:93-107 | The scan returns true iff every character is in ' '..'~', so the empty string is printable. |
| AttributesUtils.AttributeValue | inspectit-ocelot-core/src/main/java/rocks/inspectit/ocelot/core/tags/AttributesUtils.java:55-67 | The value is returned unchanged iff it has at most 255 characters, all printable. Any other value becomes `<invalid>`. The result is always a valid value. |
| AttributesUtils.AttributeValueIdempotent | inspectit-ocelot-core/src/main/java/rocks/inspectit/ocelot/core/tags/AttributesUtils.java:55-67 | Sanitising a sanitised value changes nothing. |
| AttributesUtils.AttributeValueExamples | inspectit-ocelot-core/src/test/java/rocks/inspectit/ocelot/core/tags/TagUtilsTest.java:11-24 | "my-tag-value" is kept. A 256-character value and a value holding U+007F become `<invalid>`. |
| AttributesUtils.WarningLimiter.constructor | inspectit-ocelot-core/src/main/java/rocks/inspectit/ocelot/core/tags/AttributesUtils.java:17-38 | The limiter starts with counter 0, last warning time 0, and the suppression notice armed. |
| AttributesUtils.WarningLimiter.PrintWarning | inspectit-ocelot-core/src/main/java/rocks/inspectit/ocelot/core/tags/AttributesUtils.java:69-82 | `printWarning` is one `PrintWarningStep`. The counter stays in 0..10, and the notice is used up only at 10. |
| AttributesUtils.WarningLimiter.CreateAttributeValue | inspectit-ocelot-core/src/main/java/rocks/inspectit/ocelot/core/tags/AttributesUtils.java:55-61 | The result is `AttributeValue(value)`. A valid value leaves the warning state untouched; an invalid one takes one step of the limiter. |
| AttributesUtils.PrintWarningStepKeepsInvariant | inspectit-ocelot-core/src/main/java/rocks/inspectit/ocelot/core/tags/AttributesUtils.java:69-82 | Each warning keeps 0 ≤ counter ≤ 10, and keeps "notice used ⇒ counter = 10". |
| AttributesUtils.ResetRearmsWarnings | inspectit-ocelot-core/src/main/java/rocks/inspectit/ocelot/core/tags/AttributesUtils.java:70-77 | After more than 600000 ms of silence, the counter is reset, a warning is printed (counter 1), and the notice is re-armed. |
| AttributesUtils.WarningsBoundedWithoutReset | inspectit-ocelot-core/src/main/java/rocks/inspectit/ocelot/core/tags/AttributesUtils.java:70-81 | While no reset happens, at most 10 − counter "Error creating value" warnings and at most one suppression notice are printed. |
| CommonTags.FirstWinsPicksFirst | inspectit-ocelot-core/src/main/java/rocks/inspectit/ocelot/core/tags/CommonTagsManager.java:121-122 | A key is merged iff some provider supplies it, and it takes the value of the first provider in list order that does. |
| CommonTags.MergeProviders | inspectit-ocelot-core/src/main/java/rocks/inspectit/ocelot/core/tags/CommonTagsManager.java:121-122 | The `putIfAbsent` loops over the providers yield the first-wins merge. |
| CommonTags.Sanitized | inspectit-ocelot-core/src/main/java/rocks/inspectit/ocelot/core/tags/CommonTagsManager.java:127-130 | The same keys and every value valid. A value is kept iff it was valid; an invalid value becomes `<invalid>`. |
| CommonTags.KeysAndBaggage | inspectit-ocelot-core/src/main/java/rocks/inspectit/ocelot/core/tags/CommonTagsManager.java:125-130 | The key list holds every merged key exactly once. The baggage holds the sanitised values of the merged map. |
| CommonTags.PutSanitized | inspectit-ocelot-core/src/main/java/rocks/inspectit/ocelot/core/tags/CommonTagsManager.java:104-106 | Putting each tag through `createAttributeValue` over a builder yields the builder's map overridden by the sanitised tags. |
| CommonTags.CommonTagsManager.constructor | inspectit-ocelot-core/src/main/java/rocks/inspectit/ocelot/core/tags/CommonTagsManager.java:48-59 | Empty map, empty baggage, no keys. |
| CommonTags.CommonTagsManager.Update | inspectit-ocelot-core/src/main/java/rocks/inspectit/ocelot/core/tags/CommonTagsManager.java:116-134 | After `update`, the value map is the first-wins merge of the providers. The key list names each of its keys exactly once. The baggage holds the sanitised values while the raw map keeps the originals. |
| CommonTags.CommonTagsManager.CommonTagKeys | inspectit-ocelot-core/src/main/java/rocks/inspectit/ocelot/core/tags/CommonTagsManager.java:66-68 | Every common key, each once. |
| CommonTags.CommonTagsManager.WithCommonTagScope | inspectit-ocelot-core/src/main/java/rocks/inspectit/ocelot/core/tags/CommonTagsManager.java:96-108 | The baggage made current is `ScopeBaggage`: the common baggage when the custom map is null or empty; otherwise the current baggage overridden by the sanitised common-plus-custom map. |
| CommonTags.CustomOverridesCommon | inspectit-ocelot-core/src/main/java/rocks/inspectit/ocelot/core/tags/CommonTagsManager.java:101-107 | With custom tags: custom values win on a clash; every other common key keeps its sanitised value; other keys of the current baggage are kept; no other key appears. |
| CommonTags.NoCustomTagsIsCommonScope | inspectit-ocelot-core/src/main/java/rocks/inspectit/ocelot/core/tags/CommonTagsManager.java:97-99 | A null or empty custom map gives exactly the common scope. |
| MetricsRecording.TagPrecedence | inspectit-ocelot-core/src/main/java/rocks/inspectit/ocelot/core/instrumentation/hook/actions/MetricsRecorder.java:52-74 | A key is tagged iff it is one of: a data tag with a non-null value; a constant tag; a common key with context data. Data tags win over constant tags, which win over common tags. Constant and data values are sanitised, common ones are not. |
| MetricsRecording.PutCommonTags | inspectit-ocelot-core/src/main/java/rocks/inspectit/ocelot/core/instrumentation/hook/actions/MetricsRecorder.java:59-61 | The common keys with non-null context data, with that data. |
| MetricsRecording.PutDataTags | inspectit-ocelot-core/src/main/java/rocks/inspectit/ocelot/core/instrumentation/hook/actions/MetricsRecorder.java:68-70 | Every data tag with a non-null value, sanitised, overwrites what is there. Null values are omitted. |
| MetricsRecording.GetTagContext | inspectit-ocelot-core/src/main/java/rocks/inspectit/ocelot/core/instrumentation/hook/actions/MetricsRecorder.java:52-74 | The three passes yield `TagContext`: common, then constant, then data. |
| MetricsRecording.NumberValued | inspectit-ocelot-core/src/main/java/rocks/inspectit/ocelot/core/instrumentation/hook/actions/MetricsRecorder.java:42-43 | Exactly the metrics whose value is a Number, no more of them than were given. |
| MetricsRecording.Recordings | inspectit-ocelot-core/src/main/java/rocks/inspectit/ocelot/core/instrumentation/hook/actions/MetricsRecorder.java:41-49 | One recording per Number-valued metric, named after it, in list order. |
| MetricsRecording.RecordingsAppend | inspectit-ocelot-core/src/main/java/rocks/inspectit/ocelot/core/instrumentation/hook/actions/MetricsRecorder.java:41-49 | One more metric adds its recording at the end iff its value is a Number. |
| MetricsRecording.NonNumberNotRecorded | inspectit-ocelot-core/src/main/java/rocks/inspectit/ocelot/core/instrumentation/hook/actions/MetricsRecorder.java:42-48 | A null or non-Number value adds no recording. |
| MetricsRecording.RecordMetric | inspectit-ocelot-core/src/main/java/rocks/inspectit/ocelot/core/instrumentation/hook/actions/MetricsRecorder.java:46-47 | The call for one Number-valued metric carries its name, its value and its tag context. |
| MetricsRecording.Execute | inspectit-ocelot-core/src/main/java/rocks/inspectit/ocelot/core/instrumentation/hook/actions/MetricsRecorder.java:39-50 | `execute` makes exactly the recordings `Recordings`: one per Number-valued metric, in list order. |
| MeasuresAndViews.TagKeysForView | inspectit-ocelot-core/src/main/java/rocks/inspectit/ocelot/core/metrics/MeasuresAndViewsManager.java:395-405 | The view's tags are: every tag mapped to true; no tag mapped to false; any other key iff common tags are requested and it is a common key. |
| MeasuresAndViews.OpenInterval | inspectit-ocelot-core/src/main/java/rocks/inspectit/ocelot/core/metrics/MeasuresAndViewsManager.java:337-340 | Exactly the quantiles strictly inside (0,1) are kept. |
| MeasuresAndViews.OpenIntervalAppend | inspectit-ocelot-core/src/main/java/rocks/inspectit/ocelot/core/metrics/MeasuresAndViewsManager.java:337-340 | The filter keeps the original order: it distributes over concatenation. |
| MeasuresAndViews.SplitQuantiles | inspectit-ocelot-core/src/main/java/rocks/inspectit/ocelot/core/metrics/MeasuresAndViewsManager.java:335-340 | Min is enabled iff 0.0 is listed, and max iff 1.0 is listed. The percentiles are the quantiles inside (0,1), in order. |
| MeasuresAndViews.SplitPassesPercentileChecks | inspectit-ocelot-core/src/main/java/rocks/inspectit/ocelot/core/metrics/MeasuresAndViewsManager.java:335-342 | A split's percentiles never fail the percentile-range check of a view. Non-empty quantiles within [0,1] always leave something to compute. |
| MeasuresAndViews.OtelName | inspectit-ocelot-core/src/main/java/rocks/inspectit/ocelot/core/metrics/MeasuresAndViewsManager.java:185 | Every '/' becomes '.', with the same length and every other character kept. |
| MeasuresAndViews.OtelNameIdempotent | inspectit-ocelot-core/src/main/java/rocks/inspectit/ocelot/core/metrics/MeasuresAndViewsManager.java:185 | Renaming a renamed name changes nothing. |
| MeasuresAndViews.DispatchRules | inspectit-ocelot-core/src/main/java/rocks/inspectit/ocelot/core/metrics/MeasuresAndViewsManager.java:314-343 | Dispatch of a view: (1) a registered OpenTelemetry view takes the update path, which fails on QUANTILES; (2) otherwise a known percentile view or a QUANTILES aggregation takes the percentile path, which refuses every other aggregation; (3) only the rest is registered as new, never with QUANTILES. |
| MeasuresAndViews.ViewOutcomes | inspectit-ocelot-core/src/main/java/rocks/inspectit/ocelot/core/metrics/MeasuresAndViewsManager.java:246-257 | There is an outcome for exactly the enabled views of the definition. |
| MeasuresAndViews.CacheDefinition | inspectit-ocelot-core/src/main/java/rocks/inspectit/ocelot/core/metrics/MeasuresAndViewsManager.java:238-261 | The definition and its measure (the registered one, if any) are cached under the measure name. Every other entry is unchanged, and the two caches keep the same keys. |
| MeasuresAndViews.MeasuresAndViewsManager.constructor | inspectit-ocelot-core/src/main/java/rocks/inspectit/ocelot/core/metrics/MeasuresAndViewsManager.java:67-73 | Both caches are empty. |
| MeasuresAndViews.MeasuresAndViewsManager.GetMeasure | inspectit-ocelot-core/src/main/java/rocks/inspectit/ocelot/core/metrics/MeasuresAndViewsManager.java:107-109 | Present iff cached, with the cached measure. |
| MeasuresAndViews.MeasuresAndViewsManager.GetMeasureLong | inspectit-ocelot-core/src/main/java/rocks/inspectit/ocelot/core/metrics/MeasuresAndViewsManager.java:120-126 | Present iff a cached measure of type long exists. |
| MeasuresAndViews.MeasuresAndViewsManager.GetMeasureDouble | inspectit-ocelot-core/src/main/java/rocks/inspectit/ocelot/core/metrics/MeasuresAndViewsManager.java:137-143 | Present iff a cached measure of type double exists. |
| MeasuresAndViews.MeasuresAndViewsManager.AddOrUpdateAndCacheMeasureWithViews | inspectit-ocelot-core/src/main/java/rocks/inspectit/ocelot/core/metrics/MeasuresAndViewsManager.java:236-266 | Every enabled view is dispatched under its renamed name. A failing view is only recorded. Afterwards the definition and measure are cached whatever became of the views. |
| MeasuresAndViews.MeasuresAndViewsManager.UpdateMetricDefinitions | inspectit-ocelot-core/src/main/java/rocks/inspectit/ocelot/core/metrics/MeasuresAndViewsManager.java:177-194 | With metrics enabled, the caches become `ApplyAll`: each definition is renamed and applied iff it is enabled and differs from the cached one. With metrics disabled, nothing changes. |
| MeasuresAndViews.ApplyAllKeepsInvariant | inspectit-ocelot-core/src/main/java/rocks/inspectit/ocelot/core/metrics/MeasuresAndViewsManager.java:182-191 | An update keeps a measure cached exactly where a definition is. |
| MeasuresAndViews.ApplyAllUntouched | inspectit-ocelot-core/src/main/java/rocks/inspectit/ocelot/core/metrics/MeasuresAndViewsManager.java:182-191 | Names that no definition is renamed to keep their cache entries. |
| MeasuresAndViews.ApplyDefinitionAt | inspectit-ocelot-core/src/main/java/rocks/inspectit/ocelot/core/metrics/MeasuresAndViewsManager.java:185-190 | One definition: caches itself under its renamed name if enabled; touches no other name; changes nothing when disabled. |
| MeasuresAndViews.ApplyAllOutcome | inspectit-ocelot-core/src/main/java/rocks/inspectit/ocelot/core/metrics/MeasuresAndViewsManager.java:182-191 | After an update, an enabled definition whose renamed name is its own is cached under that name. A disabled one leaves that name as it was. |
| MeasuresAndViews.ApplyAllStable | inspectit-ocelot-core/src/main/java/rocks/inspectit/ocelot/core/metrics/MeasuresAndViewsManager.java:187-190 | Change detection: when every enabled definition is already cached, an update changes nothing. |
| MeasuresAndViews.UpdateTwiceIsUpdateOnce | inspectit-ocelot-core/src/main/java/rocks/inspectit/ocelot/core/metrics/MeasuresAndViewsManager.java:177-194 | Applying the same definitions a second time is a no-op, provided no two names rename to the same name. |
| Autotracing.Export | inspectit-ocelot-core/src/main/java/rocks/inspectit/ocelot/core/instrumentation/autotracing/PlaceholderSpan.java:92-103 | `export` sets the flag. It hands the span's name, parent, timing, clock and attributes to the builder only the first time; afterwards it changes nothing. Name, parent, timing, clock and attributes are never changed by it. |
| Autotracing.EventExportsIff | inspectit-ocelot-core/src/main/java/rocks/inspectit/ocelot/core/instrumentation/autotracing/PlaceholderSpan.java:83-158 | A call exports iff the span is not exported yet and either it is an `end` with a parent set, or it is an `exportWithParent` with a non-zero end time. Once exported, nothing more is handed over. Start time and attributes never change. |
| Autotracing.ExportedAtMostOnce | inspectit-ocelot-core/src/main/java/rocks/inspectit/ocelot/core/instrumentation/autotracing/PlaceholderSpan.java:92-94 | Over any sequence of calls, at most one span is exported, the flag is one-way, and the start time stays. |
| Autotracing.EndThenParentExports | inspectit-ocelot-core/src/main/java/rocks/inspectit/ocelot/core/instrumentation/autotracing/PlaceholderSpan.java:83-157 | If the span is ended at a non-zero time and then given a parent, the parent call exports it with that parent, clock and end time. |
| Autotracing.ParentThenEndExports | inspectit-ocelot-core/src/main/java/rocks/inspectit/ocelot/core/instrumentation/autotracing/PlaceholderSpan.java:83-158 | If the span is given a parent and then ended, the end exports it, whatever the end time. |
| Autotracing.EndAtZeroNeverExported | inspectit-ocelot-core/src/main/java/rocks/inspectit/ocelot/core/instrumentation/autotracing/PlaceholderSpan.java:83-157 | After `end(0, unit)` without a parent, a later `exportWithParent` does not export. |
| Autotracing.PlaceholderSpan.constructor | inspectit-ocelot-core/src/main/java/rocks/inspectit/ocelot/core/instrumentation/autotracing/PlaceholderSpan.java:56-63 | The start time is the clock's reading. The span is not ended, has no parent and is not exported. |
| Autotracing.PlaceholderSpan.DoExport | inspectit-ocelot-core/src/main/java/rocks/inspectit/ocelot/core/instrumentation/autotracing/PlaceholderSpan.java:92-103 | The guarded export, as `Export`. |
| Autotracing.PlaceholderSpan.ExportWithParent | inspectit-ocelot-core/src/main/java/rocks/inspectit/ocelot/core/instrumentation/autotracing/PlaceholderSpan.java:83-90 | Sets the clock and the parent, and exports iff the end time is non-zero. |
| Autotracing.PlaceholderSpan.End | inspectit-ocelot-core/src/main/java/rocks/inspectit/ocelot/core/instrumentation/autotracing/PlaceholderSpan.java:144-149 | Sets the end time to the clock's reading, and exports iff a parent is set. |
| Autotracing.PlaceholderSpan.EndAt | inspectit-ocelot-core/src/main/java/rocks/inspectit/ocelot/core/instrumentation/autotracing/PlaceholderSpan.java:152-158 | Sets the end time to the timestamp, and exports iff a parent is set. |
| Autotracing.PlaceholderSpan.SetAttribute | inspectit-ocelot-core/src/main/java/rocks/inspectit/ocelot/core/instrumentation/autotracing/PlaceholderSpan.java:72-75 | Returns the span itself and modifies nothing, so the attributes stay as they were. |
| Autotracing.PlaceholderSpan.UpdateName | inspectit-ocelot-core/src/main/java/rocks/inspectit/ocelot/core/instrumentation/autotracing/PlaceholderSpan.java:138-141 | Replaces the name, changes nothing else, and returns the span itself. |
| Autotracing.PlaceholderSpan.IsRecording | inspectit-ocelot-core/src/main/java/rocks/inspectit/ocelot/core/instrumentation/autotracing/PlaceholderSpan.java:161-163 | Always false. |
| Contexts.CorrelationFlagProtocol | inspectit-ocelot-core/src/main/java/rocks/inspectit/ocelot/core/instrumentation/context/ContextManager.java:135-153 | Entering succeeds iff no correlation is in progress, and the flag is set afterwards either way. A second enter fails. After an exit, an enter succeeds. The cache is untouched. |
| Contexts.AttachUnknownIsNoOp | inspectit-ocelot-core/src/main/java/rocks/inspectit/ocelot/core/instrumentation/context/ContextManager.java:101-117 | Attaching an unknown target returns nothing and changes nothing. |
| Contexts.StoreThenAttach | inspectit-ocelot-core/src/main/java/rocks/inspectit/ocelot/core/instrumentation/context/ContextManager.java:95-114 | A stored context is attached by the next attach of its target. The entry survives iff it was stored without invalidate-after-restoring, and other targets' entries are kept. |
| Contexts.AttachDetachRestores | inspectit-ocelot-core/src/main/java/rocks/inspectit/ocelot/core/instrumentation/context/ContextManager.java:101-133 | Detaching what an attach returned restores the context that was current before. |
| Contexts.DetachNothingIsNoOp | inspectit-ocelot-core/src/main/java/rocks/inspectit/ocelot/core/instrumentation/context/ContextManager.java:120-121 | `detachContext(null)` changes nothing. |
| Contexts.ContextManager.constructor | inspectit-ocelot-core/src/main/java/rocks/inspectit/ocelot/core/instrumentation/context/ContextManager.java:46-58 | The cache is empty and no correlation is in progress. |
| Contexts.ContextManager.StoreContext | inspectit-ocelot-core/src/main/java/rocks/inspectit/ocelot/core/instrumentation/context/ContextManager.java:95-98 | The target maps to (invalidate flag, current context), replacing any earlier entry. |
| Contexts.ContextManager.AttachContext | inspectit-ocelot-core/src/main/java/rocks/inspectit/ocelot/core/instrumentation/context/ContextManager.java:101-117 | As `Attach`: an unknown target gives nothing. A known one becomes current, is dropped iff it was stored for one restore only, and the result remembers the previous context. |
| Contexts.ContextManager.DetachContext | inspectit-ocelot-core/src/main/java/rocks/inspectit/ocelot/core/instrumentation/context/ContextManager.java:120-133 | Restores the previous context of the tuple; a null tuple changes nothing. |
| Contexts.ContextManager.EnterCorrelationScope | inspectit-ocelot-core/src/main/java/rocks/inspectit/ocelot/core/instrumentation/context/ContextManager.java:136-143 | Returns true and sets the flag iff it was unset. Otherwise it returns false and leaves the flag set. |
| Contexts.ContextManager.InsideCorrelation | inspectit-ocelot-core/src/main/java/rocks/inspectit/ocelot/core/instrumentation/context/ContextManager.java:146-148 | The current flag, which is true iff an enter would fail. |
| Contexts.ContextManager.ExitCorrelationScope | inspectit-ocelot-core/src/main/java/rocks/inspectit/ocelot/core/instrumentation/context/ContextManager.java:151-153 | Clears the flag unconditionally. |

## Left out

- Percentile evaluation (Apache Commons Math `Percentile`) is not modelled. It is floating point in a foreign library.
- The `quantile` tag formatting (`DecimalFormat`) is not modelled.
- The `MetricData` and `ResultSeriesCollector` output assembly of `computeMetrics` is not modelled. Only the sweep and the min/max per series are.
- `WindowedDoubleQueue` is not part of this model. Its `removeStaleValues` is given only the contract the view relies on: a suffix is kept and the removal count is the drop in size. The body drops the leading points older than `now - timeWindowMillis`, which is an assumption.
- PercentileViews.InsertIntoSeries: `WindowedDoubleQueue.insert` is taken to append at the tail, so timestamps are treated as arriving in non-decreasing order. With out-of-order timestamps the points kept by the eviction of leading stale points may differ from the Java queue's. This also applies to `PercentileViews.PercentileView.InsertValue`.
- Doubles are exact reals limited to ±Double.MAX_VALUE. NaN, the infinities, -0.0 and rounding are not modelled, and neither is `Double.equals` in `contains(0.0)`.
- Java `long` and `int` overflow of timestamps and counters is not modelled.
- Concurrency is not modelled. Every operation runs atomically, in the order of the events given. This covers:
  - `synchronized` blocks, atomics and `ConcurrentHashMap`;
  - the worker thread;
  - the blocking `take` (a step that finds the queue empty);
  - the races between inserts and sweeps in `PercentileView`.
- AsyncRecording.AsyncMetricRecorder.DoRecordIteration: a single iteration of the `while (true)` loop. The loop itself is the caller's sequence of iterations (`Run`), not a Dafny loop.
- The log messages are represented only as the booleans and outcome values that say whether a warning was logged.
- `getCopyWithDefaultsPopulated` is not modelled. Definitions are taken as already populated, and equality of definitions is structural.
- OpenTelemetry plumbing in `MeasuresAndViewsManager` is not modelled:
  - building and comparing measures, views and aggregations (`createNewMeasure`, `updateMeasure` warnings, `registerNewView`, `createAggregation`, histogram reflection, attribute processors);
  - the percentile view manager's `createOrUpdateView`.

  The dispatch outcome records which path a view takes and with which tag keys and quantile split.
- MeasuresAndViews.MeasuresAndViewsManager.AddOrUpdateAndCacheMeasureWithViews: views registered while one definition is applied are not fed back into the `Environment` seen by later definitions of the same update.
- MeasuresAndViews.UpdateTwiceIsUpdateOnce: proved only when no two names rename to the same name. Two definitions such as `a/b` and `a.b` overwrite each other's cache entry.
- MeasuresAndViews.TagKeysForView: the reference comparison `!= Boolean.FALSE` is read as a value comparison.
- `tryRecordingMeasurement` and `fromBaggage` are represented by the `Recording` value they would receive.
- The OpenTelemetry Baggage builder's own validation of keys and values is not modelled.
- AttributesUtils.WarningLimiter.CreateAttributeValue: callers that sanitise a whole map state only that the limiter stays valid. The warnings' order follows the map iteration order, which is left open. This affects `KeysAndBaggage`, `CommonTags.CommonTagsManager.Update`, `PutSanitized`, `PutDataTags`, `GetTagContext`, `Execute` and `WithCommonTagScope`.
- The static warning state of `AttributesUtils` is one shared `WarningLimiter` object. Both clock reads of `printWarning` are the same instant `now`.
- `ContextManager` is modelled with the current context as a field. Targets and contexts are type parameters. Not modelled:
  - `wrap`, `enterNewContext`, the MDC trace injection, and the Guava cache's weak-key eviction;
  - the correlation flag's per-thread storage (one thread's flag is modelled).
- `PlaceholderSpan` does not model the span kind, the span context and id generation, `timeUnit` (stored but never read), or the no-op `addEvent`, `setStatus` and `recordException`. The body of `export` is recorded as the `ExportedSpan` value handed to the span builder.
- `MemoryMetricsRecorder` is not part of this model. It polls JMX, which is I/O.
