/** The bounded hand-off between the instrumented threads and the percentile
    worker (AsyncMetricRecorder): producers offer records to a queue of 8096
    places without ever blocking, the worker takes them one at a time and
    passes each to the consumer. The worker thread's `while (true)` loop is
    modelled one iteration at a time (`WorkerStep`); the blocking `take` is a
    step that finds the queue empty and changes nothing. */
module AsyncRecording {

  const QueueCapacity := 8096

  datatype MetricRecord = MetricRecord(value: real, measure: string, time: int, tagContext: map<string, string>)

  /** The recorder's state: the queue, the two flags, the worker's pending
      interrupt and whether its loop is still running. */
  datatype RecorderState = RecorderState(
    queue: seq<MetricRecord>,
    overflowLogged: bool,
    isDestroyed: bool,
    interruptPending: bool,
    running: bool)

  const InitialRecorderState := RecorderState([], false, false, false, true)

  /** What one iteration of the worker loop did. */
  datatype StepOutcome =
    | Stopped                          // the loop has already returned
    | Terminated                       // interrupted after destroy: the loop returns
    | UnexpectedInterrupt              // interrupted otherwise: logged, the loop goes on
    | Waiting                          // blocked in `take` on an empty queue
    | Consumed(record: MetricRecord)
    | ConsumerFailed(record: MetricRecord)  // the consumer threw: logged, the record is gone

  predicate RecorderInvariant(s: RecorderState)
  {
    && |s.queue| <= QueueCapacity
    && (!s.running ==> s.isDestroyed)
  }

  /** `record`: the offer succeeds iff the queue has a free place; only the
      first failed offer logs the warning. Returns the new state, whether the
      record was queued and whether the warning was logged. */
  function RecordStep(s: RecorderState, r: MetricRecord): (RecorderState, bool, bool)
  {
    if |s.queue| < QueueCapacity then (s.(queue := s.queue + [r]), true, false)
    else if !s.overflowLogged then (s.(overflowLogged := true), false, true)
    else (s, false, false)
  }

  /** `destroy`: the flag is set first, then the worker is interrupted (an
      interrupt of a thread that has finished has no effect). */
  function DestroyStep(s: RecorderState): RecorderState
  {
    s.(isDestroyed := true, interruptPending := s.running)
  }

  /** `worker.interrupt()` from anywhere else. */
  function InterruptStep(s: RecorderState): RecorderState
  {
    s.(interruptPending := s.running)
  }

  /** One iteration of `doRecord`. A pending interrupt makes `take` throw even
      when records are waiting; the worker returns only if the recorder has
      been destroyed. Otherwise the head record is taken and handed to the
      consumer; whether the consumer throws is the parameter, and either way
      the record is not queued again. */
  function WorkerStep(s: RecorderState, consumerFails: bool): (RecorderState, StepOutcome)
  {
    if !s.running then (s, Stopped)
    else if s.interruptPending then
      if s.isDestroyed then (s.(interruptPending := false, running := false), Terminated)
      else (s.(interruptPending := false), UnexpectedInterrupt)
    else if s.queue == [] then (s, Waiting)
    else
      var head := s.queue[0];
      (s.(queue := s.queue[1..]), if consumerFails then ConsumerFailed(head) else Consumed(head))
  }

  /** Everything that can happen to a recorder, from any thread, in the order
      it takes effect. */
  datatype Event =
    | Record(r: MetricRecord)
    | Destroy
    | Interrupt
    | Work(consumerFails: bool)

  /** What an event produced that can be observed from outside. */
  datatype Output =
    | Queued(r: MetricRecord)
    | Dropped(r: MetricRecord, warned: bool)
    | DestroyRequested
    | Interrupted
    | Worked(outcome: StepOutcome)

  function Apply(s: RecorderState, e: Event): (RecorderState, Output)
  {
    match e
    case Record(r) =>
      var (s1, queued, warned) := RecordStep(s, r);
      (s1, if queued then Queued(r) else Dropped(r, warned))
    case Destroy => (DestroyStep(s), DestroyRequested)
    case Interrupt => (InterruptStep(s), Interrupted)
    case Work(fails) =>
      var (s1, outcome) := WorkerStep(s, fails);
      (s1, Worked(outcome))
  }

  function Run(s: RecorderState, es: seq<Event>): (RecorderState, seq<Output>)
    decreases |es|
  {
    if es == [] then (s, [])
    else
      var (s1, o) := Apply(s, es[0]);
      var (s2, os) := Run(s1, es[1..]);
      (s2, [o] + os)
  }

  /** The record an output shows entering the queue, if any. */
  function QueuedBy(o: Output): seq<MetricRecord>
  {
    if o.Queued? then [o.r] else []
  }

  /** The record an output shows handed to the consumer, if any. */
  function HandedBy(o: Output): seq<MetricRecord>
  {
    if o.Worked? && (o.outcome.Consumed? || o.outcome.ConsumerFailed?) then [o.outcome.record] else []
  }

  /** The records the queue accepted, in order. */
  function QueuedRecords(os: seq<Output>): seq<MetricRecord>
  {
    if os == [] then [] else QueuedBy(os[0]) + QueuedRecords(os[1..])
  }

  /** The records handed to the consumer, in order, whether or not it threw. */
  function HandedOver(os: seq<Output>): seq<MetricRecord>
  {
    if os == [] then [] else HandedBy(os[0]) + HandedOver(os[1..])
  }

  function WarningCount(os: seq<Output>): nat
  {
    if os == [] then 0 else (if os[0].Dropped? && os[0].warned then 1 else 0) + WarningCount(os[1..])
  }

  /** Each event keeps the queue within its capacity and keeps a stopped
      worker stopped only after destroy. */
  lemma ApplyKeepsInvariant(s: RecorderState, e: Event)
    requires RecorderInvariant(s)
    ensures RecorderInvariant(Apply(s, e).0)
  {
  }

  /** A record is queued iff the queue had room, and a full queue is left as it was. */
  lemma RecordAppendsIffRoom(s: RecorderState, r: MetricRecord)
    ensures RecordStep(s, r).1 <==> |s.queue| < QueueCapacity
    ensures RecordStep(s, r).1 ==> RecordStep(s, r).0.queue == s.queue + [r]
    ensures !RecordStep(s, r).1 ==> RecordStep(s, r).0.queue == s.queue
    ensures RecordStep(s, r).0.overflowLogged == (s.overflowLogged || !RecordStep(s, r).1)
  {
  }

  /** The worker returns only after destroy, and then for good. */
  lemma TerminatesOnlyWhenDestroyed(s: RecorderState, fails: bool)
    ensures WorkerStep(s, fails).1 == Terminated <==> s.running && s.interruptPending && s.isDestroyed
    ensures !s.running ==> WorkerStep(s, fails).0 == s
  {
  }

  /** One event takes a record from the head of the queue or adds one at its
      tail, or leaves the queue alone. */
  lemma ApplyMovesQueue(s: RecorderState, e: Event)
    ensures HandedBy(Apply(s, e).1) + Apply(s, e).0.queue == s.queue + QueuedBy(Apply(s, e).1)
  {
    var (s1, o) := Apply(s, e);
    if HandedBy(o) != [] {
      assert s.queue == [s.queue[0]] + s.queue[1..];
    }
  }

  /** FIFO delivery: over any run, the records handed to the consumer followed
      by those still queued are the records queued before followed by those
      accepted during the run. Nothing is handed over twice or out of order. */
  lemma {:induction false} RunIsFifo(s: RecorderState, es: seq<Event>)
    ensures HandedOver(Run(s, es).1) + Run(s, es).0.queue == s.queue + QueuedRecords(Run(s, es).1)
    decreases |es|
  {
    if es != [] {
      var step := Apply(s, es[0]);
      var rest := Run(step.0, es[1..]);
      ApplyMovesQueue(s, es[0]);
      RunIsFifo(step.0, es[1..]);
      RunUnfold(s, es);
      OutputsCons(step.1, rest.1);
      FifoCompose(s.queue, step.0.queue, rest.0.queue, HandedBy(step.1), QueuedBy(step.1), HandedOver(rest.1), QueuedRecords(rest.1));
    }
  }

  /** Composing two FIFO moves: what left the queue first, then second,
      followed by what is left, is the initial queue followed by everything added. */
  lemma FifoCompose<X>(q0: seq<X>, q1: seq<X>, q2: seq<X>, out1: seq<X>, in1: seq<X>, out2: seq<X>, in2: seq<X>)
    requires out1 + q1 == q0 + in1
    requires out2 + q2 == q1 + in2
    ensures (out1 + out2) + q2 == q0 + (in1 + in2)
  {
    calc {
      (out1 + out2) + q2;
      out1 + (out2 + q2);
      out1 + (q1 + in2);
      (out1 + q1) + in2;
      (q0 + in1) + in2;
    }
  }

  lemma RunUnfold(s: RecorderState, es: seq<Event>)
    requires es != []
    ensures Run(s, es) == (Run(Apply(s, es[0]).0, es[1..]).0, [Apply(s, es[0]).1] + Run(Apply(s, es[0]).0, es[1..]).1)
  {
  }

  lemma OutputsCons(o: Output, os: seq<Output>)
    ensures HandedOver([o] + os) == HandedBy(o) + HandedOver(os)
    ensures QueuedRecords([o] + os) == QueuedBy(o) + QueuedRecords(os)
    ensures WarningCount([o] + os) == (if o.Dropped? && o.warned then 1 else 0) + WarningCount(os)
  {
    assert ([o] + os)[1..] == os;
  }

  /** The drop warning is logged at most once per recorder. */
  lemma {:induction false} DropWarningAtMostOnce(s: RecorderState, es: seq<Event>)
    ensures WarningCount(Run(s, es).1) <= if s.overflowLogged then 0 else 1
    ensures s.overflowLogged ==> Run(s, es).0.overflowLogged
    decreases |es|
  {
    if es != [] {
      var (s1, o) := Apply(s, es[0]);
      DropWarningAtMostOnce(s1, es[1..]);
      var (s2, os) := Run(s1, es[1..]);
      assert Run(s, es) == (s2, [o] + os);
      assert ([o] + os)[1..] == os;
      assert o.Dropped? && o.warned ==> !s.overflowLogged && s1.overflowLogged;
      assert s.overflowLogged ==> s1.overflowLogged;
    }
  }

  /** The recorder object; its worker's loop is driven by `DoRecordIteration`. */
  class AsyncMetricRecorder {
    var recordsQueue: seq<MetricRecord>
    var overflowLogged: bool
    var isDestroyed: bool
    var interruptPending: bool
    var running: bool

    function State(): RecorderState
      reads this
    {
      RecorderState(recordsQueue, overflowLogged, isDestroyed, interruptPending, running)
    }

    ghost predicate Valid()
      reads this
    {
      RecorderInvariant(State())
    }

    /** A new recorder with an empty queue and its worker started. */
    constructor ()
      ensures Valid() && State() == InitialRecorderState
    {
      recordsQueue, overflowLogged, isDestroyed, interruptPending, running := [], false, false, false, true;
    }

    /** `record`: never blocks; `warned` says whether the drop warning was logged. */
    method Record(measureName: string, value: real, time: int, tags: map<string, string>) returns (warned: bool)
      requires Valid()
      modifies this
      ensures Valid()
      ensures var (s, _, w) := RecordStep(old(State()), MetricRecord(value, measureName, time, tags));
              State() == s && warned == w
    {
      var record := MetricRecord(value, measureName, time, tags);
      var success := |recordsQueue| < QueueCapacity;
      if success {
        recordsQueue := recordsQueue + [record];
      }
      warned := false;
      if !success && !overflowLogged {
        overflowLogged := true;
        warned := true;
      }
    }

    method Destroy()
      requires Valid()
      modifies this
      ensures Valid()
      ensures State() == DestroyStep(old(State()))
    {
      isDestroyed := true;
      interruptPending := running;
    }

    /** An interrupt of the worker thread from other code. */
    method Interrupt()
      requires Valid()
      modifies this
      ensures Valid()
      ensures State() == InterruptStep(old(State()))
    {
      interruptPending := running;
    }

    /** One pass of the worker loop of `doRecord`. */
    method DoRecordIteration(consumerFails: bool) returns (outcome: StepOutcome)
      requires Valid()
      modifies this
      ensures Valid()
      ensures (State(), outcome) == WorkerStep(old(State()), consumerFails)
    {
      if !running {
        return Stopped;
      }
      if interruptPending {
        interruptPending := false;
        if isDestroyed {
          running := false;
          return Terminated;
        }
        return UnexpectedInterrupt;
      }
      if recordsQueue == [] {
        return Waiting;
      }
      var record := recordsQueue[0];
      recordsQueue := recordsQueue[1..];
      outcome := if consumerFails then ConsumerFailed(record) else Consumed(record);
    }
  }
}
