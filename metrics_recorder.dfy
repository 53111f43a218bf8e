/** The hook action that records metrics when an instrumented method exits
    (MetricsRecorder). The execution context is given as data: each metric
    accessor's value as already read, the inspectit context's data as the
    `toString()` of each non-null entry, and each data-tag accessor's result
    as the `toString()` of its value (None for null). */
module MetricsRecording {
  import opened Wrappers
  import opened AttributesUtils
  import opened CommonTags

  /** The value a metric accessor reads: null, a Java Number, or anything else. */
  datatype Value = Null | Number(n: real) | Other(text: string)

  datatype MetricAccessor = MetricAccessor(
    name: string,
    value: Value,
    constantTags: map<string, string>,
    dataTags: map<string, Option<string>>)

  /** One call of `tryRecordingMeasurement`. */
  datatype Recording = Recording(name: string, value: real, tags: map<string, string>)

  /** The common tags: each common key the context has data for, with that
      data's string form, not sanitised. */
  function CommonPart(commonTagKeys: seq<string>, contextData: map<string, string>): map<string, string>
  {
    map k | k in commonTagKeys && k in contextData :: contextData[k]
  }

  /** The data tags among `keys` whose accessor gave a non-null value, sanitised. */
  function DataPartOn(dataTags: map<string, Option<string>>, keys: set<string>): map<string, string>
  {
    map k | k in dataTags && k in keys && dataTags[k].Some? :: AttributeValue(dataTags[k].value)
  }

  /** Taking one more key into account adds its sanitised value iff it has one. */
  lemma DataPartOnStep(dataTags: map<string, Option<string>>, done: set<string>, key: string)
    requires key in dataTags
    ensures dataTags[key].Some? ==>
      DataPartOn(dataTags, done + {key}) == DataPartOn(dataTags, done)[key := AttributeValue(dataTags[key].value)]
    ensures dataTags[key].None? ==> DataPartOn(dataTags, done + {key}) == DataPartOn(dataTags, done)
  {
  }

  function DataPart(dataTags: map<string, Option<string>>): map<string, string>
  {
    DataPartOn(dataTags, dataTags.Keys)
  }

  /** The baggage `getTagContext` builds: common tags, then constant tags,
      then data tags, each later put overwriting an earlier one. */
  function TagContext(commonTagKeys: seq<string>, contextData: map<string, string>, metric: MetricAccessor): map<string, string>
  {
    CommonPart(commonTagKeys, contextData) + Sanitized(metric.constantTags) + DataPart(metric.dataTags)
  }

  /** Tag precedence, key by key: a data tag with a value wins, then a
      constant tag, then a common tag the context has data for; no other key
      appears. */
  lemma TagPrecedence(commonTagKeys: seq<string>, contextData: map<string, string>, metric: MetricAccessor, k: string)
    ensures var tags := TagContext(commonTagKeys, contextData, metric);
      && (k in tags <==>
           (k in metric.dataTags && metric.dataTags[k].Some?) || k in metric.constantTags || (k in commonTagKeys && k in contextData))
      && (k in metric.dataTags && metric.dataTags[k].Some? ==> tags[k] == AttributeValue(metric.dataTags[k].value))
      && (!(k in metric.dataTags && metric.dataTags[k].Some?) && k in metric.constantTags ==>
            tags[k] == AttributeValue(metric.constantTags[k]))
      && (!(k in metric.dataTags && metric.dataTags[k].Some?) && k !in metric.constantTags && k in commonTagKeys && k in contextData ==>
            tags[k] == contextData[k])
  {
  }

  /** The metrics that are recorded: those whose value is a Number, in order. */
  function NumberValued(metrics: seq<MetricAccessor>): (r: seq<MetricAccessor>)
    ensures |r| <= |metrics|
    ensures forall m :: m in r <==> m in metrics && m.value.Number?
  {
    if metrics == [] then []
    else (if metrics[0].value.Number? then [metrics[0]] else []) + NumberValued(metrics[1..])
  }

  lemma {:induction false} NumberValuedAppend(a: seq<MetricAccessor>, b: seq<MetricAccessor>)
    ensures NumberValued(a + b) == NumberValued(a) + NumberValued(b)
    decreases |a|
  {
    if a == [] {
      assert a + b == b;
    } else {
      assert (a + b)[0] == a[0] && (a + b)[1..] == a[1..] + b;
      NumberValuedAppend(a[1..], b);
      var head := if a[0].value.Number? then [a[0]] else [];
      assert NumberValued(a + b) == head + (NumberValued(a[1..]) + NumberValued(b));
      assert head + (NumberValued(a[1..]) + NumberValued(b)) == (head + NumberValued(a[1..])) + NumberValued(b);
    }
  }

  function RecordingOf(commonTagKeys: seq<string>, contextData: map<string, string>, metric: MetricAccessor): Recording
    requires metric.value.Number?
  {
    Recording(metric.name, metric.value.n, TagContext(commonTagKeys, contextData, metric))
  }

  /** What `execute` records: one recording per Number-valued metric, in list order. */
  function Recordings(commonTagKeys: seq<string>, contextData: map<string, string>, metrics: seq<MetricAccessor>): (r: seq<Recording>)
    ensures |r| == |NumberValued(metrics)|
    ensures forall i :: 0 <= i < |r| ==> r[i].name == NumberValued(metrics)[i].name
  {
    var recorded := NumberValued(metrics);
    seq(|recorded|, i requires 0 <= i < |recorded| => RecordingOf(commonTagKeys, contextData, recorded[i]))
  }

  /** One more metric adds its recording at the end iff its value is a Number. */
  lemma RecordingsAppend(commonTagKeys: seq<string>, contextData: map<string, string>, metrics: seq<MetricAccessor>, m: MetricAccessor)
    ensures Recordings(commonTagKeys, contextData, metrics + [m]) ==
      Recordings(commonTagKeys, contextData, metrics) + (if m.value.Number? then [RecordingOf(commonTagKeys, contextData, m)] else [])
  {
    var tail := if m.value.Number? then [m] else [];
    NumberValuedAppend(metrics, [m]);
    assert NumberValued([m]) == tail by {
      assert [m][1..] == [];
    }
    var nv := NumberValued(metrics);
    var lhs := Recordings(commonTagKeys, contextData, metrics + [m]);
    var rhs := Recordings(commonTagKeys, contextData, metrics) + (if m.value.Number? then [RecordingOf(commonTagKeys, contextData, m)] else []);
    assert |lhs| == |rhs|;
    forall i | 0 <= i < |lhs|
      ensures lhs[i] == rhs[i]
    {
      assert (nv + tail)[i] == if i < |nv| then nv[i] else m;
    }
  }

  /** The recordings of one more element of a list. */
  lemma RecordingsPrefix(commonTagKeys: seq<string>, contextData: map<string, string>, metrics: seq<MetricAccessor>, i: int)
    requires 0 <= i < |metrics|
    ensures Recordings(commonTagKeys, contextData, metrics[..i + 1]) == Recordings(commonTagKeys, contextData, metrics[..i]) +
      (if metrics[i].value.Number? then [RecordingOf(commonTagKeys, contextData, metrics[i])] else [])
  {
    assert metrics[..i + 1] == metrics[..i] + [metrics[i]];
    RecordingsAppend(commonTagKeys, contextData, metrics[..i], metrics[i]);
  }

  /** A metric whose value is null or not a Number adds no recording. */
  lemma NonNumberNotRecorded(commonTagKeys: seq<string>, contextData: map<string, string>, metrics: seq<MetricAccessor>, m: MetricAccessor)
    requires !m.value.Number?
    ensures Recordings(commonTagKeys, contextData, metrics + [m]) == Recordings(commonTagKeys, contextData, metrics)
  {
    RecordingsAppend(commonTagKeys, contextData, metrics, m);
    assert Recordings(commonTagKeys, contextData, metrics) + [] == Recordings(commonTagKeys, contextData, metrics);
  }

  /** The first pass of `getTagContext`: the common keys with context data. */
  method PutCommonTags(commonTagKeys: seq<string>, contextData: map<string, string>) returns (tags: map<string, string>)
    ensures tags == CommonPart(commonTagKeys, contextData)
  {
    tags := map[];
    for i := 0 to |commonTagKeys|
      invariant tags == map k | k in commonTagKeys[..i] && k in contextData :: contextData[k]
    {
      var key := commonTagKeys[i];
      if key in contextData {
        tags := tags[key := contextData[key]];
      }
    }
    assert commonTagKeys[..|commonTagKeys|] == commonTagKeys;
  }

  /** The third pass: every data tag with a non-null value, sanitised, over what is there. */
  method PutDataTags(tags0: map<string, string>, dataTags: map<string, Option<string>>, limiter: WarningLimiter, now: int)
    returns (tags: map<string, string>)
    requires limiter.Valid()
    modifies limiter
    ensures limiter.Valid()
    ensures tags == tags0 + DataPart(dataTags)
  {
    tags := tags0;
    var remaining := dataTags.Keys;
    while remaining != {}
      invariant remaining <= dataTags.Keys
      invariant limiter.Valid()
      invariant tags == tags0 + DataPartOn(dataTags, dataTags.Keys - remaining)
      decreases remaining
    {
      var key :| key in remaining;
      ghost var done := dataTags.Keys - remaining;
      DataPartOnStep(dataTags, done, key);
      var tagValue := dataTags[key];
      if tagValue.Some? {
        var value, _ := limiter.CreateAttributeValue(key, tagValue.value, now);
        UnionUpdate(tags0, DataPartOn(dataTags, done), key, value);
        tags := tags[key := value];
      }
      remaining := remaining - {key};
      assert dataTags.Keys - remaining == done + {key};
    }
  }

  /** `getTagContext`: the three passes over one builder. */
  method GetTagContext(commonTagKeys: seq<string>, contextData: map<string, string>, metric: MetricAccessor,
                       limiter: WarningLimiter, now: int) returns (tags: map<string, string>)
    requires limiter.Valid()
    modifies limiter
    ensures limiter.Valid()
    ensures tags == TagContext(commonTagKeys, contextData, metric)
  {
    tags := PutCommonTags(commonTagKeys, contextData);
    tags := PutSanitized(tags, metric.constantTags, limiter, now);
    tags := PutDataTags(tags, metric.dataTags, limiter, now);
  }

  /** The `tryRecordingMeasurement` call for one Number-valued metric. */
  method RecordMetric(commonTagKeys: seq<string>, contextData: map<string, string>, metric: MetricAccessor,
                      limiter: WarningLimiter, now: int) returns (recording: Recording)
    requires metric.value.Number? && limiter.Valid()
    modifies limiter
    ensures limiter.Valid()
    ensures recording == RecordingOf(commonTagKeys, contextData, metric)
  {
    var tagContext := GetTagContext(commonTagKeys, contextData, metric, limiter, now);
    recording := Recording(metric.name, metric.value.n, tagContext);
  }

  /** `execute`: the recordings made, in order. */
  method Execute(metrics: seq<MetricAccessor>, commonTagKeys: seq<string>, contextData: map<string, string>,
                 limiter: WarningLimiter, now: int) returns (recordings: seq<Recording>)
    requires limiter.Valid()
    modifies limiter
    ensures limiter.Valid()
    ensures recordings == Recordings(commonTagKeys, contextData, metrics)
  {
    recordings := [];
    for i := 0 to |metrics|
      invariant limiter.Valid()
      invariant recordings == Recordings(commonTagKeys, contextData, metrics[..i])
    {
      var metric := metrics[i];
      RecordingsPrefix(commonTagKeys, contextData, metrics, i);
      if metric.value.Number? {
        var recording := RecordMetric(commonTagKeys, contextData, metric, limiter, now);
        recordings := recordings + [recording];
      }
    }
    assert metrics[..|metrics|] == metrics;
  }
}
