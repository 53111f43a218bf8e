/** The rules by which metric definitions become measures and views
    (MeasuresAndViewsManager): the tag keys of a view, the split of its
    quantiles, the renaming of OpenCensus names, the choice of how a view is
    registered, and the caches of measures and of the definitions they were
    built from. The OpenTelemetry objects are abstracted to the facts these
    rules read from them. */
module MeasuresAndViews {
  import opened Wrappers
  import PercentileViews

  datatype Aggregation = Count | Sum | Histogram | LastValue | Quantiles

  datatype MeasureType = Long | Double

  datatype ViewDefinition = ViewDefinition(
    enabled: bool,
    aggregation: Aggregation,
    withCommonTags: bool,
    tags: map<string, bool>,
    quantiles: seq<real>,
    description: string,
    timeWindowMillis: int,
    maxBufferedPoints: int)

  /** A metric definition with its defaults already populated. */
  datatype MetricDefinition = MetricDefinition(
    enabled: bool,
    measureType: MeasureType,
    description: string,
    unit: string,
    views: map<string, ViewDefinition>)

  /** A measure known to OpenTelemetry: its name and whether it records longs or doubles. */
  datatype Measure = Measure(name: string, measureType: MeasureType)

  /** What the OpenTelemetry controller and the percentile view manager
      report when a definition is applied. */
  datatype Environment = Environment(
    registeredMeasures: map<string, Measure>,
    registeredViews: set<string>,
    percentileViews: set<(string, string)>,
    commonTagKeys: seq<string>)

  /** `getTagKeysForView`: the common keys, when the view asks for them,
      minus those the view maps to false, plus every tag the view maps to true. */
  function TagKeysForView(withCommonTags: bool, commonTagKeys: seq<string>, tags: map<string, bool>): (r: set<string>)
    ensures forall t :: t in tags && tags[t] ==> t in r
    ensures forall t :: t in tags && !tags[t] ==> t !in r
    ensures forall t :: t !in tags ==> (t in r <==> withCommonTags && t in commonTagKeys)
  {
    var common := if withCommonTags then set t | t in commonTagKeys && (t !in tags || tags[t]) else {};
    common + set t | t in tags && tags[t]
  }

  /** The quantiles strictly between 0 and 1, in their original order. */
  function OpenInterval(quantiles: seq<real>): (r: seq<real>)
    ensures |r| <= |quantiles|
    ensures forall p :: p in r <==> p in quantiles && 0.0 < p < 1.0
  {
    if quantiles == [] then []
    else (if 0.0 < quantiles[0] < 1.0 then [quantiles[0]] else []) + OpenInterval(quantiles[1..])
  }

  /** Filtering keeps the order: the filter of a concatenation is the
      concatenation of the filters. */
  lemma {:induction false} OpenIntervalAppend(a: seq<real>, b: seq<real>)
    ensures OpenInterval(a + b) == OpenInterval(a) + OpenInterval(b)
    decreases |a|
  {
    if a == [] {
      assert a + b == b;
    } else {
      assert (a + b)[0] == a[0] && (a + b)[1..] == a[1..] + b;
      OpenIntervalAppend(a[1..], b);
      var head := if 0.0 < a[0] < 1.0 then [a[0]] else [];
      assert head + (OpenInterval(a[1..]) + OpenInterval(b)) == (head + OpenInterval(a[1..])) + OpenInterval(b);
    }
  }

  datatype QuantileSplit = QuantileSplit(minEnabled: bool, maxEnabled: bool, percentiles: seq<real>)

  /** The split in `addOrUpdatePercentileView`: 0 asks for the minimum, 1 for
      the maximum, and the quantiles strictly inside (0,1) are the percentiles. */
  function SplitQuantiles(quantiles: seq<real>): (r: QuantileSplit)
    ensures r.minEnabled <==> 0.0 in quantiles
    ensures r.maxEnabled <==> 1.0 in quantiles
    ensures r.percentiles == OpenInterval(quantiles)
  {
    QuantileSplit(0.0 in quantiles, 1.0 in quantiles, OpenInterval(quantiles))
  }

  /** The percentiles of a split always pass the percentile check of a view,
      and quantiles within [0,1] never leave a view with nothing to compute. */
  lemma SplitPassesPercentileChecks(quantiles: seq<real>, timeWindowMillis: int, viewName: string, unit: string,
                                    description: string, bufferLimit: int)
    ensures var split := SplitQuantiles(quantiles);
      var percentiles := set p | p in split.percentiles;
      && PercentileViews.ValidateConfiguration(split.minEnabled, split.maxEnabled, percentiles, timeWindowMillis,
                                               viewName, unit, description, bufferLimit) != Some(PercentileViews.PercentileOutOfRange)
      && ((quantiles != [] && forall i :: 0 <= i < |quantiles| ==> 0.0 <= quantiles[i] <= 1.0) ==>
            percentiles != {} || split.minEnabled || split.maxEnabled)
  {
    var split := SplitQuantiles(quantiles);
    var percentiles := set p | p in split.percentiles;
    if quantiles != [] && (forall i :: 0 <= i < |quantiles| ==> 0.0 <= quantiles[i] <= 1.0) {
      var q := quantiles[0];
      assert q in quantiles;
      if 0.0 < q < 1.0 {
        assert q in split.percentiles;
        assert q in percentiles;
      }
    }
  }

  /** `name.replaceAll("\\/", ".")`: every '/' becomes '.', nothing else changes. */
  function OtelName(name: string): (r: string)
    ensures |r| == |name| && '/' !in r
    ensures forall i :: 0 <= i < |name| && name[i] != '/' ==> r[i] == name[i]
    ensures forall i :: 0 <= i < |name| && name[i] == '/' ==> r[i] == '.'
  {
    seq(|name|, i requires 0 <= i < |name| => if name[i] == '/' then '.' else name[i])
  }

  /** Renaming twice is renaming once. */
  lemma OtelNameIdempotent(name: string)
    ensures OtelName(OtelName(name)) == OtelName(name)
  {
  }

  /** What becomes of one enabled view of a measure. */
  datatype ViewOutcome =
    | OtelViewUpdated(tags: set<string>)   // already registered: only warnings about what cannot change
    | OtelViewUpdateFailed                 // already registered and QUANTILES: the aggregation comparison throws
    | PercentileViewRequested(split: QuantileSplit, tags: set<string>)
    | PercentileViewRefused                // a percentile view cannot switch to another aggregation
    | ViewRegistered(tags: set<string>)

  /** `addAndRegisterOrUpdateView`, with the exception of the aggregation
      comparison caught by the caller. */
  function DispatchView(viewName: string, measureName: string, def: ViewDefinition, env: Environment): ViewOutcome
  {
    var tags := TagKeysForView(def.withCommonTags, env.commonTagKeys, def.tags);
    if viewName in env.registeredViews then
      if def.aggregation == Quantiles then OtelViewUpdateFailed else OtelViewUpdated(tags)
    else if (measureName, viewName) in env.percentileViews || def.aggregation == Quantiles then
      if def.aggregation != Quantiles then PercentileViewRefused
      else PercentileViewRequested(SplitQuantiles(def.quantiles), tags)
    else ViewRegistered(tags)
  }

  /** The dispatch rules: a registered OpenTelemetry view takes the update
      path; otherwise a view known to the percentile manager or with QUANTILES
      aggregation takes the percentile path, which refuses every other
      aggregation; only the rest is registered as a new view, never with
      QUANTILES aggregation. */
  lemma DispatchRules(viewName: string, measureName: string, def: ViewDefinition, env: Environment)
    ensures var r := DispatchView(viewName, measureName, def, env);
      && (viewName in env.registeredViews <==> r.OtelViewUpdated? || r.OtelViewUpdateFailed?)
      && (r.OtelViewUpdateFailed? <==> viewName in env.registeredViews && def.aggregation == Quantiles)
      && (r.PercentileViewRequested? || r.PercentileViewRefused? <==>
            viewName !in env.registeredViews && ((measureName, viewName) in env.percentileViews || def.aggregation == Quantiles))
      && (r.PercentileViewRefused? ==> def.aggregation != Quantiles)
      && (r.ViewRegistered? ==> def.aggregation != Quantiles && (measureName, viewName) !in env.percentileViews)
  {
  }

  /** The outcome of every enabled view of a definition, by its name as written. */
  function ViewOutcomes(measureName: string, definition: MetricDefinition, env: Environment): (r: map<string, ViewOutcome>)
    ensures forall v :: v in r <==> v in definition.views && definition.views[v].enabled
  {
    map v | v in definition.views && definition.views[v].enabled :: DispatchView(OtelName(v), measureName, definition.views[v], env)
  }

  /** The two caches: measures and the definitions they were built from. */
  datatype Registry = Registry(measures: map<string, Measure>, definitions: map<string, MetricDefinition>)

  predicate RegistryInvariant(reg: Registry)
  {
    reg.measures.Keys == reg.definitions.Keys
  }

  /** The measure a definition ends up with: the registered one if there is
      one (its description, unit and type cannot change), a new one otherwise. */
  function MeasureFor(measureName: string, definition: MetricDefinition, registeredMeasures: map<string, Measure>): Measure
  {
    if measureName in registeredMeasures then registeredMeasures[measureName] else Measure(measureName, definition.measureType)
  }

  /** `addOrUpdateAndCacheMeasureWithViews`: the definition and the measure are
      cached under the measure name whatever became of the views. */
  function CacheDefinition(reg: Registry, measureName: string, definition: MetricDefinition, registeredMeasures: map<string, Measure>): (r: Registry)
    ensures RegistryInvariant(reg) ==> RegistryInvariant(r)
    ensures measureName in r.definitions && r.definitions[measureName] == definition
    ensures measureName in r.measures && r.measures[measureName] == MeasureFor(measureName, definition, registeredMeasures)
    ensures forall k :: k != measureName ==>
      (k in r.definitions <==> k in reg.definitions) && (k in reg.definitions ==> r.definitions[k] == reg.definitions[k]) &&
      (k in r.measures <==> k in reg.measures) && (k in reg.measures ==> r.measures[k] == reg.measures[k])
  {
    Registry(reg.measures[measureName := MeasureFor(measureName, definition, registeredMeasures)],
             reg.definitions[measureName := definition])
  }

  /** Whether `updateMetricDefinitions` applies a definition: it is enabled
      and differs from the one cached under its renamed name. */
  predicate MustApply(reg: Registry, name: string, definition: MetricDefinition)
  {
    definition.enabled && !(OtelName(name) in reg.definitions && reg.definitions[OtelName(name)] == definition)
  }

  function ApplyDefinition(reg: Registry, name: string, definition: MetricDefinition, registeredMeasures: map<string, Measure>): Registry
  {
    if MustApply(reg, name, definition) then CacheDefinition(reg, OtelName(name), definition, registeredMeasures) else reg
  }

  /** The definitions taken in the order of `names` (the iteration order of the configuration's map). */
  function ApplyAll(reg: Registry, names: seq<string>, definitions: map<string, MetricDefinition>, registeredMeasures: map<string, Measure>): Registry
    requires forall i :: 0 <= i < |names| ==> names[i] in definitions
    decreases |names|
  {
    if names == [] then reg
    else
      var n := |names| - 1;
      ApplyDefinition(ApplyAll(reg, names[..n], definitions, registeredMeasures), names[n], definitions[names[n]], registeredMeasures)
  }

  /** No other name of the list is renamed to the same name as `name`. */
  predicate RenamedUniquely(names: seq<string>, name: string)
  {
    forall i :: 0 <= i < |names| && OtelName(names[i]) == OtelName(name) ==> names[i] == name
  }

  /** An update keeps a measure cached exactly where a definition is. */
  lemma {:induction false} ApplyAllKeepsInvariant(reg: Registry, names: seq<string>, definitions: map<string, MetricDefinition>,
                                                  registeredMeasures: map<string, Measure>)
    requires forall i :: 0 <= i < |names| ==> names[i] in definitions
    requires RegistryInvariant(reg)
    ensures RegistryInvariant(ApplyAll(reg, names, definitions, registeredMeasures))
    decreases |names|
  {
    if names != [] {
      ApplyAllKeepsInvariant(reg, names[..|names| - 1], definitions, registeredMeasures);
    }
  }

  /** Names no definition is renamed to are left alone by an update. */
  lemma {:induction false} ApplyAllUntouched(reg: Registry, names: seq<string>, definitions: map<string, MetricDefinition>,
                                             registeredMeasures: map<string, Measure>, key: string)
    requires forall i :: 0 <= i < |names| ==> names[i] in definitions
    requires forall i :: 0 <= i < |names| ==> OtelName(names[i]) != key
    ensures var r := ApplyAll(reg, names, definitions, registeredMeasures);
      && (key in r.definitions <==> key in reg.definitions) && (key in r.measures <==> key in reg.measures)
      && (key in reg.definitions ==> r.definitions[key] == reg.definitions[key])
      && (key in reg.measures ==> r.measures[key] == reg.measures[key])
    decreases |names|
  {
    if names != [] {
      var n := |names| - 1;
      assert forall i :: 0 <= i < n ==> names[..n][i] == names[i];
      ApplyAllUntouched(reg, names[..n], definitions, registeredMeasures, key);
    }
  }

  /** What one definition does to the cache entry of `key`. */
  lemma ApplyDefinitionAt(reg: Registry, name: string, definition: MetricDefinition, registeredMeasures: map<string, Measure>, key: string)
    ensures var r := ApplyDefinition(reg, name, definition, registeredMeasures);
      && (OtelName(name) != key ==> (key in r.definitions <==> key in reg.definitions) &&
                                    (key in reg.definitions ==> r.definitions[key] == reg.definitions[key]))
      && (OtelName(name) == key && definition.enabled ==> key in r.definitions && r.definitions[key] == definition)
      && (!definition.enabled ==> r == reg)
  {
  }

  /** After an update, every enabled definition whose renamed name is its own
      is cached under that name, and a disabled one leaves its name as it was. */
  lemma {:induction false} ApplyAllOutcome(reg: Registry, names: seq<string>, definitions: map<string, MetricDefinition>,
                                           registeredMeasures: map<string, Measure>, key: string)
    requires forall i :: 0 <= i < |names| ==> names[i] in definitions
    ensures var r := ApplyAll(reg, names, definitions, registeredMeasures);
      forall i :: 0 <= i < |names| && OtelName(names[i]) == key && RenamedUniquely(names, names[i]) ==>
        if definitions[names[i]].enabled then key in r.definitions && r.definitions[key] == definitions[names[i]]
        else (key in r.definitions <==> key in reg.definitions) && (key in reg.definitions ==> r.definitions[key] == reg.definitions[key])
    decreases |names|
  {
    if names != [] {
      var n := |names| - 1;
      var prefix := names[..n];
      var before := ApplyAll(reg, prefix, definitions, registeredMeasures);
      assert forall i :: 0 <= i < n ==> prefix[i] == names[i];
      ApplyAllOutcome(reg, prefix, definitions, registeredMeasures, key);
      ApplyDefinitionAt(before, names[n], definitions[names[n]], registeredMeasures, key);
      forall i | 0 <= i < |names| && OtelName(names[i]) == key && RenamedUniquely(names, names[i])
        ensures var r := ApplyAll(reg, names, definitions, registeredMeasures);
          if definitions[names[i]].enabled then key in r.definitions && r.definitions[key] == definitions[names[i]]
          else (key in r.definitions <==> key in reg.definitions) && (key in reg.definitions ==> r.definitions[key] == reg.definitions[key])
      {
        if OtelName(names[n]) == key {
          assert names[n] == names[i];
          if !definitions[names[i]].enabled {
            if j :| 0 <= j < n && OtelName(prefix[j]) == key {
              assert prefix[j] == names[i] && RenamedUniquely(prefix, prefix[j]);
            } else {
              ApplyAllUntouched(reg, prefix, definitions, registeredMeasures, key);
            }
          }
        } else {
          assert i < n && RenamedUniquely(prefix, prefix[i]);
        }
      }
    }
  }

  /** Change detection: when the names are renamed without clashes, applying
      the same definitions a second time changes nothing. */
  lemma {:induction false} ApplyAllStable(reg: Registry, names: seq<string>, definitions: map<string, MetricDefinition>,
                                          registeredMeasures: map<string, Measure>)
    requires forall i :: 0 <= i < |names| ==> names[i] in definitions
    requires forall i :: 0 <= i < |names| ==> definitions[names[i]].enabled ==>
      OtelName(names[i]) in reg.definitions && reg.definitions[OtelName(names[i])] == definitions[names[i]]
    ensures ApplyAll(reg, names, definitions, registeredMeasures) == reg
    decreases |names|
  {
    if names != [] {
      var n := |names| - 1;
      ApplyAllStable(reg, names[..n], definitions, registeredMeasures);
    }
  }

  /** A second update with the same definitions is a no-op. */
  lemma UpdateTwiceIsUpdateOnce(reg: Registry, names: seq<string>, definitions: map<string, MetricDefinition>,
                                registeredMeasures: map<string, Measure>)
    requires forall i :: 0 <= i < |names| ==> names[i] in definitions
    requires forall i :: 0 <= i < |names| ==> RenamedUniquely(names, names[i])
    ensures var once := ApplyAll(reg, names, definitions, registeredMeasures);
            ApplyAll(once, names, definitions, registeredMeasures) == once
  {
    var once := ApplyAll(reg, names, definitions, registeredMeasures);
    forall i | 0 <= i < |names| && definitions[names[i]].enabled
      ensures OtelName(names[i]) in once.definitions && once.definitions[OtelName(names[i])] == definitions[names[i]]
    {
      ApplyAllOutcome(reg, names, definitions, registeredMeasures, OtelName(names[i]));
    }
    ApplyAllStable(once, names, definitions, registeredMeasures);
  }

  class MeasuresAndViewsManager {
    var cachedMeasures: map<string, Measure>
    var currentMetricDefinitionSettings: map<string, MetricDefinition>

    function Caches(): Registry
      reads this
    {
      Registry(cachedMeasures, currentMetricDefinitionSettings)
    }

    /** A measure is cached exactly when the definition it was built from is. */
    ghost predicate Valid()
      reads this
    {
      RegistryInvariant(Caches())
    }

    constructor ()
      ensures Valid() && cachedMeasures == map[] && currentMetricDefinitionSettings == map[]
    {
      cachedMeasures, currentMetricDefinitionSettings := map[], map[];
    }

    /** `getMeasure`. */
    function GetMeasure(name: string): (r: Option<Measure>)
      reads this
      ensures r.Some? <==> name in cachedMeasures
      ensures r.Some? ==> r.value == cachedMeasures[name]
    {
      if name in cachedMeasures then Some(cachedMeasures[name]) else None
    }

    /** `getMeasureLong`: present only for a cached measure of type long. */
    function GetMeasureLong(name: string): (r: Option<Measure>)
      reads this
      ensures r.Some? <==> name in cachedMeasures && cachedMeasures[name].measureType == Long
      ensures r.Some? ==> r.value == cachedMeasures[name]
    {
      if name in cachedMeasures && cachedMeasures[name].measureType == Long then Some(cachedMeasures[name]) else None
    }

    /** `getMeasureDouble`: present only for a cached measure of type double. */
    function GetMeasureDouble(name: string): (r: Option<Measure>)
      reads this
      ensures r.Some? <==> name in cachedMeasures && cachedMeasures[name].measureType == Double
      ensures r.Some? ==> r.value == cachedMeasures[name]
    {
      if name in cachedMeasures && cachedMeasures[name].measureType == Double then Some(cachedMeasures[name]) else None
    }

    /** `addOrUpdateAndCacheMeasureWithViews`: every enabled view is dispatched
        (a failing one is only logged), then the definition and the measure
        are cached. */
    method AddOrUpdateAndCacheMeasureWithViews(measureName: string, definition: MetricDefinition, env: Environment)
      returns (outcomes: map<string, ViewOutcome>)
      requires Valid()
      modifies this
      ensures Valid()
      ensures Caches() == CacheDefinition(old(Caches()), measureName, definition, env.registeredMeasures)
      ensures outcomes == ViewOutcomes(measureName, definition, env)
    {
      var measure := if measureName in env.registeredMeasures then env.registeredMeasures[measureName]
                     else Measure(measureName, definition.measureType);
      outcomes := map[];
      var remaining := definition.views.Keys;
      while remaining != {}
        invariant remaining <= definition.views.Keys
        invariant outcomes == map v | v in definition.views && v !in remaining && definition.views[v].enabled ::
          DispatchView(OtelName(v), measureName, definition.views[v], env)
        decreases remaining
      {
        var name :| name in remaining;
        var view := definition.views[name];
        if view.enabled {
          outcomes := outcomes[name := DispatchView(OtelName(name), measureName, view, env)];
        }
        remaining := remaining - {name};
      }
      currentMetricDefinitionSettings := currentMetricDefinitionSettings[measureName := definition];
      cachedMeasures := cachedMeasures[measureName := measure];
    }

    /** `updateMetricDefinitions`, with the definitions listed in the order the
        configuration's map yields them. Nothing happens when metrics are
        disabled. */
    method UpdateMetricDefinitions(metricsEnabled: bool, names: seq<string>, definitions: map<string, MetricDefinition>, env: Environment)
      requires Valid()
      requires forall i :: 0 <= i < |names| ==> names[i] in definitions
      modifies this
      ensures Valid()
      ensures metricsEnabled ==> Caches() == ApplyAll(old(Caches()), names, definitions, env.registeredMeasures)
      ensures !metricsEnabled ==> Caches() == old(Caches())
    {
      if !metricsEnabled {
        return;
      }
      for i := 0 to |names|
        invariant Valid()
        invariant Caches() == ApplyAll(old(Caches()), names[..i], definitions, env.registeredMeasures)
      {
        assert names[..i + 1][..i] == names[..i];
        var name := OtelName(names[i]);
        var def := definitions[names[i]];
        if def.enabled && !(name in currentMetricDefinitionSettings && currentMetricDefinitionSettings[name] == def) {
          var _ := AddOrUpdateAndCacheMeasureWithViews(name, def, env);
        }
      }
      assert names[..|names|] == names;
    }
  }
}
