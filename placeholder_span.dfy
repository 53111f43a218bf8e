/** A span that stands in for one whose parent is not known yet
    (PlaceholderSpan). Ending it and giving it its parent may happen in either
    order; the real span is exported once both have happened. The export
    itself (building and ending a span through the span builder) is recorded
    as an `ExportedSpan` value; the clock is read by the caller and passed in. */
module Autotracing {
  import opened Wrappers

  /** The span that becomes the parent, and the clock the export is anchored to. */
  datatype Parent = Parent(spanId: string)
  datatype AnchoredClock = AnchoredClock(id: int)

  /** What the export hands to the span builder. */
  datatype ExportedSpan = ExportedSpan(
    name: string,
    parent: Option<Parent>,
    startTime: int,
    endTime: int,
    clock: Option<AnchoredClock>,
    attributes: map<string, string>)

  datatype SpanState = SpanState(
    spanName: string,
    startTime: int,
    endTime: int,
    newParent: Option<Parent>,
    anchoredClock: Option<AnchoredClock>,
    exported: bool,
    attributes: map<string, string>,
    exports: seq<ExportedSpan>)

  /** A fresh placeholder: started at the clock's reading, not ended (end time 0), no parent. */
  function Started(spanName: string, clockNow: int): SpanState
  {
    SpanState(spanName, clockNow, 0, None, None, false, map[], [])
  }

  /** The one export a span may make, and only the first time it is asked for. */
  function Export(s: SpanState): (r: SpanState)
    ensures r.exported
    ensures s.exported ==> r == s
    ensures r.(exported := s.exported, exports := s.exports) == s
    ensures !s.exported ==> r.exports == s.exports + [ExportedSpan(s.spanName, s.newParent, s.startTime, s.endTime, s.anchoredClock, s.attributes)]
  {
    if s.exported then s
    else s.(exported := true, exports := s.exports + [ExportedSpan(s.spanName, s.newParent, s.startTime, s.endTime, s.anchoredClock, s.attributes)])
  }

  /** `end()` and `end(timestamp, unit)`: the end time is set, and the span
      exported if it already has a parent. */
  function EndStep(s: SpanState, endTime: int): SpanState
  {
    var s1 := s.(endTime := endTime);
    if s1.newParent.Some? then Export(s1) else s1
  }

  /** `exportWithParent`: the parent and clock are set, and the span exported
      if it has already ended with a non-zero end time. */
  function ExportWithParentStep(s: SpanState, newParent: Option<Parent>, clock: Option<AnchoredClock>): SpanState
  {
    var s1 := s.(anchoredClock := clock, newParent := newParent);
    if s1.endTime != 0 then Export(s1) else s1
  }

  function UpdateNameStep(s: SpanState, name: string): SpanState
  {
    s.(spanName := name)
  }

  datatype SpanEvent =
    | End(endTime: int)
    | ExportWithParent(newParent: Option<Parent>, clock: Option<AnchoredClock>)
    | UpdateName(name: string)
    | SetAttribute(key: string, value: string)

  function ApplySpanEvent(s: SpanState, e: SpanEvent): SpanState
  {
    match e
    case End(t) => EndStep(s, t)
    case ExportWithParent(p, c) => ExportWithParentStep(s, p, c)
    case UpdateName(n) => UpdateNameStep(s, n)
    case SetAttribute(_, _) => s
  }

  function RunSpan(s: SpanState, es: seq<SpanEvent>): SpanState
    decreases |es|
  {
    if es == [] then s else RunSpan(ApplySpanEvent(s, es[0]), es[1..])
  }

  /** The exported flag says exactly whether the one export has happened. */
  predicate SpanInvariant(s: SpanState)
  {
    |s.exports| == if s.exported then 1 else 0
  }

  /** One event exports iff the span was not exported yet and either it ends
      the span while a parent is set, or it sets the parent of a span whose
      end time is non-zero. The start time and attributes never change. */
  lemma EventExportsIff(s: SpanState, e: SpanEvent)
    ensures var r := ApplySpanEvent(s, e);
      && (r.exported && !s.exported <==>
            !s.exported && ((e.End? && s.newParent.Some?) || (e.ExportWithParent? && s.endTime != 0)))
      && (s.exported ==> r.exported && r.exports == s.exports)
      && r.startTime == s.startTime && r.attributes == s.attributes
  {
  }

  /** Over any sequence of calls the span is exported at most once, and once
      exported it stays so. */
  lemma {:induction false} ExportedAtMostOnce(s: SpanState, es: seq<SpanEvent>)
    requires SpanInvariant(s)
    ensures SpanInvariant(RunSpan(s, es))
    ensures |RunSpan(s, es).exports| <= 1
    ensures s.exported ==> RunSpan(s, es).exports == s.exports
    ensures RunSpan(s, es).startTime == s.startTime
    decreases |es|
  {
    if es != [] {
      EventExportsIff(s, es[0]);
      ExportedAtMostOnce(ApplySpanEvent(s, es[0]), es[1..]);
    }
  }

  /** Ended first (at a non-zero time), then given a parent: the parent call
      exports the span with that parent and end time. */
  lemma EndThenParentExports(name: string, start: int, endTime: int, p: Parent, c: Option<AnchoredClock>)
    requires endTime != 0
    ensures RunSpan(Started(name, start), [End(endTime), ExportWithParent(Some(p), c)]).exports
         == [ExportedSpan(name, Some(p), start, endTime, c, map[])]
  {
    var s1 := ApplySpanEvent(Started(name, start), End(endTime));
    assert [End(endTime), ExportWithParent(Some(p), c)][1..] == [ExportWithParent(Some(p), c)];
    assert RunSpan(Started(name, start), [End(endTime), ExportWithParent(Some(p), c)])
        == RunSpan(s1, [ExportWithParent(Some(p), c)]);
  }

  /** Given a parent first, then ended: the end exports the span, whatever the end time. */
  lemma ParentThenEndExports(name: string, start: int, endTime: int, p: Parent, c: Option<AnchoredClock>)
    ensures RunSpan(Started(name, start), [ExportWithParent(Some(p), c), End(endTime)]).exports
         == [ExportedSpan(name, Some(p), start, endTime, c, map[])]
  {
    var s1 := ApplySpanEvent(Started(name, start), ExportWithParent(Some(p), c));
    assert [ExportWithParent(Some(p), c), End(endTime)][1..] == [End(endTime)];
    assert RunSpan(Started(name, start), [ExportWithParent(Some(p), c), End(endTime)])
        == RunSpan(s1, [End(endTime)]);
  }

  /** Ended at time 0 without a parent, the span is never exported by a later
      parent call: the end time still reads as "not ended". */
  lemma EndAtZeroNeverExported(name: string, start: int, p: Option<Parent>, c: Option<AnchoredClock>)
    ensures !RunSpan(Started(name, start), [End(0), ExportWithParent(p, c)]).exported
  {
    var s1 := ApplySpanEvent(Started(name, start), End(0));
    assert [End(0), ExportWithParent(p, c)][1..] == [ExportWithParent(p, c)];
    assert RunSpan(Started(name, start), [End(0), ExportWithParent(p, c)]) == RunSpan(s1, [ExportWithParent(p, c)]);
  }

  class PlaceholderSpan {
    var spanName: string
    const startTime: int
    var endTime: int
    var newParent: Option<Parent>
    var anchoredClock: Option<AnchoredClock>
    var exported: bool
    var attributes: map<string, string>
    /** The spans handed to the span builder by `export`. */
    var exports: seq<ExportedSpan>

    function State(): SpanState
      reads this
    {
      SpanState(spanName, startTime, endTime, newParent, anchoredClock, exported, attributes, exports)
    }

    ghost predicate Valid()
      reads this
    {
      SpanInvariant(State())
    }

    /** The start time is the clock's reading at construction. */
    constructor (spanName: string, clockNow: int)
      ensures Valid() && State() == Started(spanName, clockNow)
    {
      this.spanName := spanName;
      startTime := clockNow;
      endTime := 0;
      newParent := None;
      anchoredClock := None;
      exported := false;
      attributes := map[];
      exports := [];
    }

    method DoExport()
      requires Valid()
      modifies this
      ensures Valid()
      ensures State() == Export(old(State()))
    {
      if !exported {
        exported := true;
        exports := exports + [ExportedSpan(spanName, newParent, startTime, endTime, anchoredClock, attributes)];
      }
    }

    /** `exportWithParent`. */
    method ExportWithParent(parent: Option<Parent>, clock: Option<AnchoredClock>)
      requires Valid()
      modifies this
      ensures Valid()
      ensures State() == ExportWithParentStep(old(State()), parent, clock)
    {
      anchoredClock := clock;
      newParent := parent;
      if endTime != 0 {
        DoExport();
      }
    }

    /** `end()`, with the clock's reading passed in. */
    method End(clockNow: int)
      requires Valid()
      modifies this
      ensures Valid()
      ensures State() == EndStep(old(State()), clockNow)
    {
      EndAt(clockNow);
    }

    /** `end(timestamp, unit)`. */
    method EndAt(timestamp: int)
      requires Valid()
      modifies this
      ensures Valid()
      ensures State() == EndStep(old(State()), timestamp)
    {
      endTime := timestamp;
      if newParent.Some? {
        DoExport();
      }
    }

    /** `setAttribute`: the builder it fills is thrown away, so nothing
        changes (the method may modify nothing); the span itself is returned. */
    method SetAttribute(key: string, value: string) returns (r: PlaceholderSpan)
      ensures r == this
    {
      r := this;
    }

    method UpdateName(name: string) returns (r: PlaceholderSpan)
      modifies this
      ensures r == this
      ensures State() == UpdateNameStep(old(State()), name)
    {
      spanName := name;
      r := this;
    }

    /** A placeholder never records. */
    function IsRecording(): (r: bool)
      ensures !r
    {
      false
    }
  }
}
