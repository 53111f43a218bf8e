/** The context bookkeeping of ContextManager: a per-thread flag marking a
    context correlation in progress, and a cache that stores the current
    context under a target object so that it can be attached again later. The
    current context is modelled as a value of the manager; attaching a
    context makes it current, and detaching restores the one it replaced.
    Targets and contexts are type parameters. */
module Contexts {
  import opened Wrappers

  datatype InvalidationContext<C> = InvalidationContext(invalidate: bool, context: C)

  /** What `attachContext` hands back for `detachContext`: the context that was
      current before, and the one attached. */
  datatype ContextTuple<C> = ContextTuple(previous: C, current: C)

  datatype ContextState<T, C> = ContextState(
    contextCache: map<T, InvalidationContext<C>>,
    current: C,
    correlationFlag: bool)

  /** `storeContext`: the current context is stored under the target, replacing any earlier entry. */
  function Store<T, C>(s: ContextState<T, C>, target: T, invalidateAfterRestoring: bool): ContextState<T, C>
  {
    s.(contextCache := s.contextCache[target := InvalidationContext(invalidateAfterRestoring, s.current)])
  }

  /** `attachContext`: nothing for an unknown target; otherwise the entry is
      dropped if it was stored for one restore only, and its context becomes current. */
  function Attach<T, C>(s: ContextState<T, C>, target: T): (ContextState<T, C>, Option<ContextTuple<C>>)
  {
    if target !in s.contextCache then (s, None)
    else
      var entry := s.contextCache[target];
      var cache := if entry.invalidate then s.contextCache - {target} else s.contextCache;
      (s.(contextCache := cache, current := entry.context), Some(ContextTuple(s.current, entry.context)))
  }

  /** `detachContext`: closing the scope restores the previous context; no tuple, no change. */
  function Detach<T, C>(s: ContextState<T, C>, tuple: Option<ContextTuple<C>>): ContextState<T, C>
  {
    if tuple.None? then s else s.(current := tuple.value.previous)
  }

  function EnterCorrelation<T, C>(s: ContextState<T, C>): (ContextState<T, C>, bool)
  {
    if s.correlationFlag then (s, false) else (s.(correlationFlag := true), true)
  }

  function ExitCorrelation<T, C>(s: ContextState<T, C>): ContextState<T, C>
  {
    s.(correlationFlag := false)
  }

  /** Entering succeeds iff no correlation is in progress, and either way one
      is in progress afterwards; exiting always ends it, so the next enter succeeds. */
  lemma CorrelationFlagProtocol<T, C>(s: ContextState<T, C>)
    ensures EnterCorrelation(s).1 <==> !s.correlationFlag
    ensures EnterCorrelation(s).0.correlationFlag
    ensures !EnterCorrelation(EnterCorrelation(s).0).1
    ensures EnterCorrelation(ExitCorrelation(s)).1
    ensures EnterCorrelation(s).0.contextCache == s.contextCache && ExitCorrelation(s).contextCache == s.contextCache
  {
  }

  /** Attaching an unknown target changes nothing and returns nothing. */
  lemma AttachUnknownIsNoOp<T, C>(s: ContextState<T, C>, target: T)
    requires target !in s.contextCache
    ensures Attach(s, target) == (s, None)
  {
  }

  /** A stored context is attached by the next attach for its target; it can be
      attached again iff it was not stored for one restore only. Other targets' entries stay. */
  lemma StoreThenAttach<T, C>(s: ContextState<T, C>, target: T, invalidate: bool)
    ensures var (s1, r) := Attach(Store(s, target, invalidate), target);
      && r == Some(ContextTuple(s.current, s.current))
      && (target in s1.contextCache <==> !invalidate)
      && (forall t :: t != target ==> (t in s1.contextCache <==> t in s.contextCache))
      && (!invalidate ==> Attach(s1, target).1.Some? && Attach(s1, target).1.value.current == s.current)
      && (invalidate ==> Attach(s1, target).1.None?)
  {
  }

  /** Detaching what an attach returned restores the context that was current
      before the attach. */
  lemma AttachDetachRestores<T, C>(s: ContextState<T, C>, target: T)
    ensures var (s1, r) := Attach(s, target);
            Detach(s1, r).current == s.current
  {
  }

  /** `detachContext(null)` is a no-op. */
  lemma DetachNothingIsNoOp<T, C>(s: ContextState<T, C>)
    ensures Detach(s, None) == s
  {
  }

  class ContextManager<T(==), C> {
    var contextCache: map<T, InvalidationContext<C>>
    var current: C
    var correlationFlag: bool

    function State(): ContextState<T, C>
      reads this
    {
      ContextState(contextCache, current, correlationFlag)
    }

    /** A manager with an empty cache and no correlation in progress, in the given context. */
    constructor (root: C)
      ensures State() == ContextState(map[], root, false)
    {
      contextCache := map[];
      current := root;
      correlationFlag := false;
    }

    method StoreContext(target: T, invalidateAfterRestoring: bool)
      modifies this
      ensures State() == Store(old(State()), target, invalidateAfterRestoring)
    {
      contextCache := contextCache[target := InvalidationContext(invalidateAfterRestoring, current)];
    }

    method AttachContext(target: T) returns (r: Option<ContextTuple<C>>)
      modifies this
      ensures (State(), r) == Attach(old(State()), target)
    {
      if target !in contextCache {
        return None;
      }
      var entry := contextCache[target];
      if entry.invalidate {
        contextCache := contextCache - {target};
      }
      r := Some(ContextTuple(current, entry.context));
      current := entry.context;
    }

    method DetachContext(tuple: Option<ContextTuple<C>>)
      modifies this
      ensures State() == Detach(old(State()), tuple)
    {
      if tuple.Some? {
        current := tuple.value.previous;
      }
    }

    method EnterCorrelationScope() returns (entered: bool)
      modifies this
      ensures (State(), entered) == EnterCorrelation(old(State()))
    {
      if correlationFlag {
        return false;
      }
      correlationFlag := true;
      return true;
    }

    /** `insideCorrelation`. */
    function InsideCorrelation(): (r: bool)
      reads this
      ensures r == State().correlationFlag
      ensures r <==> !EnterCorrelation(State()).1
    {
      correlationFlag
    }

    method ExitCorrelationScope()
      modifies this
      ensures State() == ExitCorrelation(old(State()))
    {
      correlationFlag := false;
    }
  }
}
