/** The sliding-window store of one percentile view (PercentileView): per tag
    combination a buffer of (value, time) points, a global point budget of
    `bufferLimit`, a throttled stale-point sweep, and min/max over each series.
    Every operation runs sequentially here; the per-series locks and the atomic
    counter of `PercentileView` are not modelled. */
module PercentileViews {
  import opened Wrappers

  /** Minimum time between two full sweeps triggered by inserts (one second). */
  const CleanupIntervalMillis := 1000
  const MinMetricSuffix := "_min"
  const MaxMetricSuffix := "_max"

  /** Double.MAX_VALUE, (2 - 2^-52) * 2^1023, as an exact number. */
  const MaxDouble: real := 179769313486231570814527423731704356798070567525844996598917476803157260780028538760589558632766878171540458953514382464234321326889464182768467546703537516986049910576551282076245490090389328944075868508455133942304583236903222948165808559332123348274797826204144723168738177180919299881250404026184124858368.0

  /** A finite Java double (NaN and the infinities are not modelled). */
  type FiniteDouble = r: real | -MaxDouble <= r <= MaxDouble witness 0.0

  /** One buffered measurement; times are used as given (getInMillis is the identity). */
  datatype Point = Point(value: FiniteDouble, time: int)

  /** The series key: one tag value per tag key of the view, in index order. */
  type TagTuple = seq<string>

  datatype ConfigError =
    | PercentileOutOfRange
    | BlankViewName
    | BlankDescription
    | BlankUnit
    | NonPositiveTimeWindow
    | NothingToCompute
    | BufferLimitTooSmall

  /** Character.isWhitespace: the Unicode space, line and paragraph separators
      except the non-breaking ones, plus the ASCII controls \t \n \u000B \f \r
      and \u001C..\u001F. */
  predicate IsWhitespace(c: char)
  {
    || c == ' ' || ('\t' <= c <= '\r') || ('\U{1C}' <= c <= '\U{1F}')
    || c == '\U{1680}' || ('\U{2000}' <= c <= '\U{200A}' && c != '\U{2007}')
    || c == '\U{2028}' || c == '\U{2029}' || c == '\U{205F}' || c == '\U{3000}'
  }

  /** StringUtils.isBlank: empty or whitespace only. */
  predicate IsBlank(s: string)
  {
    forall i :: 0 <= i < |s| ==> IsWhitespace(s[i])
  }

  /** `validateConfiguration`: the first failing check, in the order
      `PercentileView.validateConfiguration` performs them, or None when the view may be built. */
  function ValidateConfiguration(includeMin: bool, includeMax: bool, percentiles: set<real>, timeWindowMillis: int,
                                 viewName: string, unit: string, description: string, bufferLimit: int): (r: Option<ConfigError>)
    ensures r == None <==>
      && (forall p :: p in percentiles ==> 0.0 < p < 1.0)
      && !IsBlank(viewName) && !IsBlank(description) && !IsBlank(unit)
      && timeWindowMillis > 0
      && (percentiles != {} || includeMin || includeMax)
      && bufferLimit >= 1
    ensures r == Some(PercentileOutOfRange) <==> exists p :: p in percentiles && (p <= 0.0 || p >= 1.0)
  {
    if exists p :: p in percentiles && (p <= 0.0 || p >= 1.0) then Some(PercentileOutOfRange)
    else if IsBlank(viewName) then Some(BlankViewName)
    else if IsBlank(description) then Some(BlankDescription)
    else if IsBlank(unit) then Some(BlankUnit)
    else if timeWindowMillis <= 0 then Some(NonPositiveTimeWindow)
    else if percentiles == {} && !includeMin && !includeMax then Some(NothingToCompute)
    else if bufferLimit < 1 then Some(BufferLimitTooSmall)
    else None
  }

  /** `m` gives the tags in `order` the indices 0..|order|-1, one each. */
  ghost predicate TagIndexing(m: map<string, int>, order: seq<string>)
  {
    && |m| == |order|
    && (forall k :: k in m <==> k in order)
    && (forall i :: 0 <= i < |order| ==> order[i] in m && m[order[i]] == i)
  }

  /** Every key's index is in range and names that key. */
  lemma TagIndexingInverse(m: map<string, int>, order: seq<string>)
    requires TagIndexing(m, order)
    ensures forall k :: k in m ==> 0 <= m[k] < |order| && order[m[k]] == k
  {
    forall k | k in m
      ensures 0 <= m[k] < |order| && order[m[k]] == k
    {
      var i :| 0 <= i < |order| && order[i] == k;
    }
  }

  lemma TagIndexingExtend(m: map<string, int>, order: seq<string>, tag: string)
    requires TagIndexing(m, order) && tag !in m
    ensures TagIndexing(m[tag := |order|], order + [tag])
  {
    var m', order' := m[tag := |order|], order + [tag];
    assert tag !in order;
    forall k
      ensures k in m' <==> k in order'
    {
      assert k in order' <==> k in order || k == tag;
    }
    forall i | 0 <= i < |order'|
      ensures order'[i] in m' && m'[order'[i]] == i
    {
      if i < |order| {
        assert order'[i] == order[i] && order[i] != tag;
      }
    }
  }

  /** An indexing gives each key an index within range, and different keys different indices. */
  lemma TagIndexingInjective(m: map<string, int>, order: seq<string>)
    requires TagIndexing(m, order)
    ensures forall k :: k in m ==> 0 <= m[k] < |order|
    ensures forall k1, k2 :: k1 in m && k2 in m && k1 != k2 ==> m[k1] != m[k2]
  {
    TagIndexingInverse(m, order);
  }

  /** The state of `assignTagIndices` part-way: the tags numbered so far, in order. */
  ghost predicate AssignProgress(tags: set<string>, remaining: set<string>, m: map<string, int>, order: seq<string>)
  {
    && remaining <= tags
    && m.Keys == tags - remaining
    && |remaining| + |order| == |tags|
    && TagIndexing(m, order)
  }

  lemma AssignStep(tags: set<string>, remaining: set<string>, m: map<string, int>, order: seq<string>, tag: string)
    requires AssignProgress(tags, remaining, m, order) && tag in remaining
    ensures AssignProgress(tags, remaining - {tag}, m[tag := |order|], order + [tag])
  {
    TagIndexingExtend(m, order, tag);
  }

  /** `assignTagIndices`: numbers the tags in the (unspecified) iteration order of the set. */
  method AssignTagIndices(tags: set<string>) returns (tagIndices: map<string, int>, ghost order: seq<string>)
    ensures tagIndices.Keys == tags
    ensures forall k :: k in tagIndices ==> 0 <= tagIndices[k] < |tags|
    ensures forall k1, k2 :: k1 in tagIndices && k2 in tagIndices && k1 != k2 ==> tagIndices[k1] != tagIndices[k2]
    ensures TagIndexing(tagIndices, order) && |order| == |tags|
  {
    tagIndices, order := map[], [];
    var remaining := tags;
    var idx := 0;
    while remaining != {}
      invariant AssignProgress(tags, remaining, tagIndices, order) && idx == |order|
      decreases remaining
    {
      var tag :| tag in remaining;
      AssignStep(tags, remaining, tagIndices, order, tag);
      tagIndices := tagIndices[tag := idx];
      order := order + [tag];
      idx := idx + 1;
      remaining := remaining - {tag};
    }
    TagIndexingInjective(tagIndices, order);
  }

  /** The series key `getTagsList` builds: "" everywhere, then the context's value
      at the index of each of the view's tag keys it holds. */
  ghost function TagsFor(order: seq<string>, tagContext: map<string, string>): (r: TagTuple)
  {
    seq(|order|, i requires 0 <= i < |order| => if order[i] in tagContext then tagContext[order[i]] else "")
  }

  /** A known key's value lands at its index, missing keys give "", and keys
      that are not tags of the view do not affect the tuple. */
  lemma TagsForPlacement(m: map<string, int>, order: seq<string>, tagContext: map<string, string>, other: string, v: string)
    requires TagIndexing(m, order)
    ensures |TagsFor(order, tagContext)| == |m|
    ensures forall k :: k in m && k in tagContext ==> TagsFor(order, tagContext)[m[k]] == tagContext[k]
    ensures forall k :: k in m && k !in tagContext ==> TagsFor(order, tagContext)[m[k]] == ""
    ensures other !in m ==> TagsFor(order, tagContext[other := v]) == TagsFor(order, tagContext)
  {
    TagIndexingInverse(m, order);
  }

  /** The tuple part-way through `getTagsList`: the keys in `remaining` are not placed yet. */
  ghost function PartialTags(order: seq<string>, tagContext: map<string, string>, remaining: set<string>): (r: TagTuple)
    ensures |r| == |order|
  {
    seq(|order|, i requires 0 <= i < |order| =>
      if order[i] in tagContext && order[i] !in remaining then tagContext[order[i]] else "")
  }

  /** Placing one more key of the context writes its value at its index, if it is a tag of the view. */
  lemma PartialTagsStep(m: map<string, int>, order: seq<string>, tagContext: map<string, string>, remaining: set<string>, s: string)
    requires TagIndexing(m, order) && s in remaining && s in tagContext
    ensures s in m ==> (0 <= m[s] < |order| &&
      PartialTags(order, tagContext, remaining - {s}) == PartialTags(order, tagContext, remaining)[m[s] := tagContext[s]])
    ensures s !in m ==> PartialTags(order, tagContext, remaining - {s}) == PartialTags(order, tagContext, remaining)
  {
    TagIndexingInverse(m, order);
  }

  /** The loop of `getTagsList` over the context's entries, on a fresh array of "". */
  method FillTags(m: map<string, int>, ghost order: seq<string>, tagContext: map<string, string>) returns (tags: TagTuple)
    requires TagIndexing(m, order)
    ensures tags == TagsFor(order, tagContext)
  {
    var tagValues := new string[|m|](_ => "");
    var remaining := tagContext.Keys;
    assert tagValues[..] == PartialTags(order, tagContext, remaining);
    while remaining != {}
      invariant remaining <= tagContext.Keys
      invariant tagValues[..] == PartialTags(order, tagContext, remaining)
      decreases remaining
    {
      var s :| s in remaining;
      PartialTagsStep(m, order, tagContext, remaining, s);
      if s in m {
        tagValues[m[s]] := tagContext[s];
      }
      remaining := remaining - {s};
    }
    tags := tagValues[..];
    assert PartialTags(order, tagContext, {}) == TagsFor(order, tagContext);
  }

  /** The number of points buffered over all series. */
  ghost function Total(m: map<TagTuple, seq<Point>>): nat
    decreases |m|
  {
    if m == map[] then 0
    else
      assert exists k :: k in m by {
        assert m.Keys != {};
      }
      var k :| k in m;
      |m[k]| + Total(m - {k})
  }

  lemma {:induction false} TotalRemove(m: map<TagTuple, seq<Point>>, k: TagTuple)
    requires k in m
    ensures Total(m) == |m[k]| + Total(m - {k})
    decreases |m|
  {
    var j :| j in m && Total(m) == |m[j]| + Total(m - {j});
    if j != k {
      TotalRemove(m - {j}, k);
      TotalRemove(m - {k}, j);
      assert m - {j} - {k} == m - {k} - {j};
    }
  }

  /** Replacing one series changes the total by the difference in size. */
  lemma TotalUpdate(m: map<TagTuple, seq<Point>>, k: TagTuple, q: seq<Point>)
    ensures Total(m[k := q]) == Total(m) - (if k in m then |m[k]| else 0) + |q|
  {
    TotalRemove(m[k := q], k);
    assert m[k := q] - {k} == m - {k};
    if k in m {
      TotalRemove(m, k);
    } else {
      assert m - {k} == m;
    }
  }

  /** Every series key has one entry per tag key, and `count` is the number of
      buffered points, within the budget `limit`. */
  ghost predicate SeriesInvariant(m: map<TagTuple, seq<Point>>, count: int, width: int, limit: int)
  {
    && (forall k :: k in m ==> |k| == width)
    && count == Total(m)
    && count <= limit
  }

  /** Replacing the series of a well-formed key keeps the keys well-formed and
      moves the total by the change in that series' size. */
  lemma ReplaceSeries(m: map<TagTuple, seq<Point>>, count: int, width: int, limit: int, k: TagTuple, q: seq<Point>, count': int)
    requires SeriesInvariant(m, count, width, limit) && |k| == width
    requires count' == count - (if k in m then |m[k]| else 0) + |q| <= limit
    ensures SeriesInvariant(m[k := q], count', width, limit)
  {
    TotalUpdate(m, k, q);
  }

  /** Number of leading points of `queue` older than `limit`. */
  function LeadingStale(queue: seq<Point>, limit: int): (n: nat)
    ensures n <= |queue|
    ensures forall i :: 0 <= i < n ==> queue[i].time < limit
    ensures n < |queue| ==> queue[n].time >= limit
  {
    if queue == [] || queue[0].time >= limit then 0 else 1 + LeadingStale(queue[1..], limit)
  }

  /** WindowedDoubleQueue.removeStaleValues(now): the points left and how many
      were removed. The view relies only on the contract: a suffix is kept and
      the count is the drop in size. */
  function RemoveStaleValues(queue: seq<Point>, now: int, timeWindowMillis: int): (r: (seq<Point>, nat))
    ensures IsSuffix(r.0, queue) && r.1 == |queue| - |r.0|
  {
    var n := LeadingStale(queue, now - timeWindowMillis);
    (queue[n..], n)
  }

  /** Every series after a full sweep at `now`. */
  ghost function SweepAll(m: map<TagTuple, seq<Point>>, now: int, timeWindowMillis: int): map<TagTuple, seq<Point>>
  {
    map k | k in m :: RemoveStaleValues(m[k], now, timeWindowMillis).0
  }

  /** The sweep part-way through: the series of the keys in `remaining` are untouched. */
  ghost function SweepPartial(m: map<TagTuple, seq<Point>>, remaining: set<TagTuple>, now: int, timeWindowMillis: int)
    : map<TagTuple, seq<Point>>
  {
    map k | k in m :: if k in remaining then m[k] else RemoveStaleValues(m[k], now, timeWindowMillis).0
  }

  lemma SweepPartialEnds(m: map<TagTuple, seq<Point>>, now: int, timeWindowMillis: int)
    ensures SweepPartial(m, m.Keys, now, timeWindowMillis) == m
    ensures SweepPartial(m, {}, now, timeWindowMillis) == SweepAll(m, now, timeWindowMillis)
  {
  }

  /** Sweeping one more key replaces its series. */
  lemma SweepPartialStep(m: map<TagTuple, seq<Point>>, remaining: set<TagTuple>, now: int, timeWindowMillis: int, k: TagTuple)
    requires k in remaining && k in m
    ensures SweepPartial(m, remaining, now, timeWindowMillis)[k] == m[k]
    ensures SweepPartial(m, remaining - {k}, now, timeWindowMillis)
         == SweepPartial(m, remaining, now, timeWindowMillis)[k := RemoveStaleValues(m[k], now, timeWindowMillis).0]
  {
  }

  /** The series map once `tags` is present (computeIfAbsent) and its own stale points are gone. */
  ghost function EvictSeries(m: map<TagTuple, seq<Point>>, tags: TagTuple, now: int, timeWindowMillis: int): map<TagTuple, seq<Point>>
  {
    var q := if tags in m then m[tags] else [];
    m[tags := RemoveStaleValues(q, now, timeWindowMillis).0]
  }

  function Values(q: seq<Point>): (r: seq<FiniteDouble>)
    ensures |r| == |q| && forall i :: 0 <= i < |q| ==> r[i] == q[i].value
  {
    seq(|q|, i requires 0 <= i < |q| => q[i].value)
  }

  /** The min/max loop of `computeSeries`, starting from Double.MAX_VALUE and
      -Double.MAX_VALUE. On a non-empty snapshot the results are its smallest
      and its largest element. */
  method MinMaxOf(data: seq<FiniteDouble>) returns (minValue: real, maxValue: real)
    ensures |data| == 0 ==> minValue == MaxDouble && maxValue == -MaxDouble
    ensures |data| > 0 ==> minValue in data && maxValue in data
    ensures forall i :: 0 <= i < |data| ==> minValue <= data[i] <= maxValue
  {
    minValue, maxValue := MaxDouble, -MaxDouble;
    for i := 0 to |data|
      invariant i == 0 ==> minValue == MaxDouble && maxValue == -MaxDouble
      invariant i > 0 ==> minValue in data[..i] && maxValue in data[..i]
      invariant forall j :: 0 <= j < i ==> minValue <= data[j] <= maxValue
    {
      minValue := if data[i] < minValue then data[i] else minValue;
      maxValue := if data[i] > maxValue then data[i] else maxValue;
    }
    assert data[..|data|] == data;
  }

  /** The loop of `removeStalePoints` over all series: every series loses its
      stale points, the count drops by exactly the number removed, and the
      series invariant is kept. */
  method SweepSeries(m0: map<TagTuple, seq<Point>>, count0: int, ghost width: int, limit: int, time: int, timeWindowMillis: int)
    returns (m: map<TagTuple, seq<Point>>, count: int)
    requires SeriesInvariant(m0, count0, width, limit)
    ensures m == SweepAll(m0, time, timeWindowMillis)
    ensures SeriesInvariant(m, count, width, limit)
    ensures count == count0 - (Total(m0) - Total(m))
  {
    m, count := m0, count0;
    var remaining := m.Keys;
    SweepPartialEnds(m0, time, timeWindowMillis);
    while remaining != {}
      invariant remaining <= m0.Keys
      invariant m == SweepPartial(m0, remaining, time, timeWindowMillis)
      invariant SeriesInvariant(m, count, width, limit) && count <= count0
      decreases remaining
    {
      var k :| k in remaining;
      var swept := RemoveStaleValues(m0[k], time, timeWindowMillis);
      SweepPartialStep(m0, remaining, time, timeWindowMillis, k);
      ReplaceSeries(m, count, width, limit, k, swept.0, count - swept.1);
      m := m[k := swept.0];
      count := count - swept.1;
      remaining := remaining - {k};
    }
  }

  /** The series part of `insertValue`: the series of `tags` is created if
      absent and loses its own stale points, the count drops by what was
      removed, and the point is appended iff the count is then below `limit`.
      A rejection finds the buffer exactly full. */
  method InsertIntoSeries(m0: map<TagTuple, seq<Point>>, count0: int, ghost width: int, limit: int,
                          tags: TagTuple, point: Point, timeWindowMillis: int)
    returns (m: map<TagTuple, seq<Point>>, count: int, accepted: bool)
    requires SeriesInvariant(m0, count0, width, limit) && |tags| == width
    ensures var before := EvictSeries(m0, tags, point.time, timeWindowMillis);
            && accepted == (Total(before) < limit)
            && m == if accepted then before[tags := before[tags] + [point]] else before
    ensures SeriesInvariant(m, count, width, limit)
    ensures !accepted ==> count == limit
  {
    m, count := m0, count0;
    var queue := if tags in m then m[tags] else [];
    var swept := RemoveStaleValues(queue, point.time, timeWindowMillis);
    ReplaceSeries(m, count, width, limit, tags, swept.0, count - swept.1);
    m := m[tags := swept.0];
    count := count - swept.1;
    assert count == Total(m);
    accepted := count < limit;
    if accepted {
      var grown := swept.0 + [point];
      ReplaceSeries(m, count, width, limit, tags, grown, count + 1);
      m := m[tags := grown];
      count := count + 1;
    }
  }

  datatype MinMax = MinMax(min: real, max: real)

  /** `result` holds, for every non-empty series, a value of that series that
      no point undercuts and one that no point exceeds. */
  ghost predicate MinMaxOfSeries(result: map<TagTuple, MinMax>, series: map<TagTuple, seq<Point>>)
  {
    && result.Keys == (set k | k in series && |series[k]| > 0)
    && forall k :: k in result ==>
      result[k].min in Values(series[k]) && result[k].max in Values(series[k]) &&
      forall i :: 0 <= i < |series[k]| ==> result[k].min <= series[k][i].value <= result[k].max
  }

  /** The smallest and largest value of every non-empty series. */
  method MinMaxPerSeries(series: map<TagTuple, seq<Point>>) returns (result: map<TagTuple, MinMax>)
    ensures MinMaxOfSeries(result, series)
  {
    result := map[];
    var remaining := series.Keys;
    while remaining != {}
      invariant remaining <= series.Keys
      invariant result.Keys == set k | k in series && k !in remaining && |series[k]| > 0
      invariant forall k :: k in result ==>
        result[k].min in Values(series[k]) && result[k].max in Values(series[k]) &&
        forall i :: 0 <= i < |series[k]| ==> result[k].min <= series[k][i].value <= result[k].max
      decreases remaining
    {
      var k :| k in remaining;
      var data := series[k];
      if |data| > 0 {
        var minValue, maxValue := MinMaxOf(Values(data));
        result := result[k := MinMax(minValue, maxValue)];
      }
      remaining := remaining - {k};
    }
  }

  class PercentileView {
    /** Whether the minimum / maximum series exist (their descriptors are non-null). */
    const minEnabled: bool
    const maxEnabled: bool
    const percentiles: set<real>
    const tagIndices: map<string, int>
    /** The tag keys in index order. */
    ghost const tagOrder: seq<string>
    const timeWindowMillis: int
    const viewName: string
    const unit: string
    const description: string
    const bufferLimit: int

    var seriesValues: map<TagTuple, seq<Point>>
    var overflowWarningPrinted: bool
    var numberOfPoints: int
    var lastCleanupTimeMs: int

    /** The view's configuration passed `validateConfiguration`; it never changes. */
    ghost predicate ConfigurationValid()
    {
      ValidateConfiguration(minEnabled, maxEnabled, percentiles, timeWindowMillis, viewName, unit, description, bufferLimit) == None
    }

    /** The fixed part of the view's state: the tag numbering and a positive budget. */
    ghost predicate Indexed()
    {
      bufferLimit >= 1 && TagIndexing(tagIndices, tagOrder)
    }

    /** The point count matches the buffers and never exceeds the budget. */
    ghost predicate Valid()
      reads this
    {
      Indexed() && SeriesInvariant(seriesValues, numberOfPoints, |tagOrder|, bufferLimit)
    }

    constructor (includeMin: bool, includeMax: bool, percentiles: set<real>, tags: set<string>, timeWindowMillis: int,
                 viewName: string, unit: string, description: string, bufferLimit: int)
      requires ValidateConfiguration(includeMin, includeMax, percentiles, timeWindowMillis, viewName, unit, description, bufferLimit) == None
      ensures Valid() && ConfigurationValid()
      ensures minEnabled == includeMin && maxEnabled == includeMax && this.percentiles == percentiles
      ensures tagIndices.Keys == tags && this.timeWindowMillis == timeWindowMillis && this.bufferLimit == bufferLimit
      ensures this.viewName == viewName && this.unit == unit && this.description == description
      ensures seriesValues == map[] && numberOfPoints == 0 && lastCleanupTimeMs == 0 && !overflowWarningPrinted
    {
      var indices, order := AssignTagIndices(tags);
      tagIndices, tagOrder := indices, order;
      minEnabled, maxEnabled := includeMin, includeMax;
      this.percentiles := percentiles;
      this.timeWindowMillis, this.bufferLimit := timeWindowMillis, bufferLimit;
      this.viewName, this.unit, this.description := viewName, unit, description;
      seriesValues := map[];
      overflowWarningPrinted := false;
      numberOfPoints, lastCleanupTimeMs := 0, 0;
    }

    /** Building a view either fails with the first configuration error or
        yields a fresh, empty view. */
    static method Create(includeMin: bool, includeMax: bool, percentiles: set<real>, tags: set<string>, timeWindowMillis: int,
                         viewName: string, unit: string, description: string, bufferLimit: int)
      returns (r: Result<PercentileView, ConfigError>)
      ensures var check := ValidateConfiguration(includeMin, includeMax, percentiles, timeWindowMillis, viewName, unit, description, bufferLimit);
        && (r.Failure? <==> check.Some?)
        && (r.Failure? ==> r.error == check.value)
        && (r.Success? ==> fresh(r.value) && r.value.Valid() && r.value.seriesValues == map[] && r.value.tagIndices.Keys == tags)
    {
      var check := ValidateConfiguration(includeMin, includeMax, percentiles, timeWindowMillis, viewName, unit, description, bufferLimit);
      if check.Some? {
        return Failure(check.value);
      }
      var view := new PercentileView(includeMin, includeMax, percentiles, tags, timeWindowMillis, viewName, unit, description, bufferLimit);
      return Success(view);
    }

    /** `getSeriesNames`: the name of every series the view exposes. */
    function SeriesNames(): (r: set<string>)
      reads this
      ensures viewName in r <==> percentiles != {}
      ensures viewName + MinMetricSuffix in r <==> minEnabled
      ensures viewName + MaxMetricSuffix in r <==> maxEnabled
      ensures r <= {viewName, viewName + MinMetricSuffix, viewName + MaxMetricSuffix}
    {
      var name, minName, maxName := viewName, viewName + MinMetricSuffix, viewName + MaxMetricSuffix;
      assert name != minName && name != maxName by {
        assert |name| < |minName| && |name| < |maxName|;
      }
      assert minName != maxName by {
        assert minName[|name| + 2] != maxName[|name| + 2];
      }
      (if minEnabled then {minName} else {}) + (if maxEnabled then {maxName} else {}) + (if percentiles != {} then {name} else {})
    }

    /** `getTagsList`: the series key for a tag context. */
    method GetTagsList(tagContext: map<string, string>) returns (tags: TagTuple)
      requires Valid()
      ensures tags == TagsFor(tagOrder, tagContext)
    {
      tags := FillTags(tagIndices, tagOrder, tagContext);
    }

    /** The full sweep is due on insert only when more than one second has passed
        since the last one and the buffer is at its limit. */
    predicate SweepDue(time: int)
      reads this
    {
      time - lastCleanupTimeMs > CleanupIntervalMillis && numberOfPoints >= bufferLimit
    }

    /** `removeStalePoints`: sweeps every series and takes exactly the removed
        points off the count. */
    method RemoveStalePoints(time: int)
      requires Valid()
      modifies this
      ensures Valid()
      ensures seriesValues == SweepAll(old(seriesValues), time, timeWindowMillis)
      ensures numberOfPoints == old(numberOfPoints) - (Total(old(seriesValues)) - Total(seriesValues))
      ensures lastCleanupTimeMs == time && overflowWarningPrinted == old(overflowWarningPrinted)
    {
      lastCleanupTimeMs := time;
      seriesValues, numberOfPoints := SweepSeries(seriesValues, numberOfPoints, |tagOrder|, bufferLimit, time, timeWindowMillis);
    }

    /** `removeStalePointsIfTimeThresholdExceeded`: the sweep, when it is due. */
    method RemoveStalePointsIfTimeThresholdExceeded(time: int)
      requires Valid()
      modifies this
      ensures Valid()
      ensures old(SweepDue(time)) ==> seriesValues == SweepAll(old(seriesValues), time, timeWindowMillis) && lastCleanupTimeMs == time
      ensures !old(SweepDue(time)) ==> seriesValues == old(seriesValues) && lastCleanupTimeMs == old(lastCleanupTimeMs)
      ensures overflowWarningPrinted == old(overflowWarningPrinted)
    {
      if time - lastCleanupTimeMs > CleanupIntervalMillis && numberOfPoints >= bufferLimit {
        RemoveStalePoints(time);
      }
    }

    /** `insertValue`: after the throttled sweep, the series' own stale points are
        taken off the count; the point is accepted iff the count is then below
        `bufferLimit`. A rejection finds the buffer full, and only the first one
        logs the overflow warning. */
    method InsertValue(value: FiniteDouble, time: int, tagContext: map<string, string>) returns (accepted: bool, warned: bool)
      requires Valid()
      modifies this
      ensures Valid()
      ensures var swept := if old(SweepDue(time)) then SweepAll(old(seriesValues), time, timeWindowMillis) else old(seriesValues);
              var tags := TagsFor(tagOrder, tagContext);
              var before := EvictSeries(swept, tags, time, timeWindowMillis);
              && accepted == (Total(before) < bufferLimit)
              && seriesValues == if accepted then before[tags := before[tags] + [Point(value, time)]] else before
      ensures lastCleanupTimeMs == if old(SweepDue(time)) then time else old(lastCleanupTimeMs)
      ensures !accepted ==> numberOfPoints == bufferLimit
      ensures overflowWarningPrinted == (old(overflowWarningPrinted) || !accepted)
      ensures warned <==> !accepted && !old(overflowWarningPrinted)
    {
      RemoveStalePointsIfTimeThresholdExceeded(time);
      var tags := GetTagsList(tagContext);
      seriesValues, numberOfPoints, accepted :=
        InsertIntoSeries(seriesValues, numberOfPoints, |tagOrder|, bufferLimit, tags, Point(value, time), timeWindowMillis);
      warned := !accepted && !overflowWarningPrinted;
      overflowWarningPrinted := overflowWarningPrinted || !accepted;
    }

    /** The min/max part of `computeMetrics`: a full sweep, then for every
        non-empty series its smallest and largest buffered value. Nothing is
        computed when neither min nor max is enabled. */
    method ComputeMinMax(time: int) returns (result: map<TagTuple, MinMax>)
      requires Valid()
      modifies this
      ensures Valid()
      ensures seriesValues == SweepAll(old(seriesValues), time, timeWindowMillis) && lastCleanupTimeMs == time
      ensures overflowWarningPrinted == old(overflowWarningPrinted)
      ensures !(minEnabled || maxEnabled) ==> result == map[]
      ensures (minEnabled || maxEnabled) ==> MinMaxOfSeries(result, seriesValues)
    {
      RemoveStalePoints(time);
      if minEnabled || maxEnabled {
        result := MinMaxPerSeries(seriesValues);
      } else {
        result := map[];
      }
    }
  }
}
