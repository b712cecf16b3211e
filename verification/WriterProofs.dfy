/** What every run of the writer keeps: accounting, bounds, wire order, permits. */
module WriterProofs {
  import opened WriteItems
  import opened WriterModel

  /** Resident frames, unfinished tasks and charged bytes all count queue plus active batch. */
  ghost predicate Accounting(s: State) {
    Charged(s.stock, Batch(s)) && s.line.waiters == |s.line.parked|
  }

  ghost predicate Charged(q: Stock, batch: seq<WriteItem>) {
    q.resident == q.unfinished == |q.queue| + |batch| && q.queuedBytes == SizeAll(q.queue) + SizeAll(batch)
  }

  /** The message bound is never exceeded; the byte bound only by one frame that is alone. */
  ghost predicate Bounded(s: State) {
    s.stock.resident <= s.maxMessages && (s.stock.queuedBytes <= s.maxBytes || s.stock.resident <= 1)
  }

  ghost predicate Phases(s: State) {
    1 <= s.maxMessages
    && (s.task.writing <==> s.task.writer.Busy?)
    && (s.eager.bound ==> Alive(s.task) && !s.fence.failed && !s.task.cancelled)
    && (s.task.writer.Busy? ==>
          0 < |s.task.writer.batch| <= BATCH_LIMIT && (s.task.writer.poisoned <==> s.fence.failed))
    && (s.task.writer.Absent? ==> !s.task.cancelled && !s.fence.failed)
  }

  predicate Healthy(s: State) {
    !s.fence.failed && !s.task.writer.Dead?
  }

  /**
    While nothing failed: exposed bytes, then the rest of the active batch,
    then the queue, are exactly the admitted items in admission order. After
    a failure the exposed bytes are still a prefix of them.
   */
  ghost predicate Ordered(s: State) {
    WireOrder(s.log, Rest(s), s.stock.queue, Healthy(s))
  }

  ghost predicate WireOrder(l: Log, rest: seq<Byte>, queue: seq<WriteItem>, healthy: bool) {
    && l.wire <= WireAll(l.admitted)
    && (healthy ==> l.wire + rest + WireAll(queue) == WireAll(l.admitted))
  }

  /**
    One re-arm callback of the current generation is outstanding exactly when
    the flag says so, none is from the future, an armed permit has a transport
    to write to, and each permit was used at most once since it was last armed.
   */
  ghost predicate Permits(e: Eager) {
    CallbackOwned(e.callbacks, e.generation, e.rearmScheduled)
    && (e.armed || e.ackArmed ==> e.bound)
    && (e.armed ==> e.dataSinceArm == 0) && e.dataSinceArm <= 1
    && (e.ackArmed ==> e.ackSinceArm == 0) && e.ackSinceArm <= 1
  }

  ghost predicate CallbackOwned(callbacks: seq<nat>, generation: nat, scheduled: bool) {
    (forall i :: 0 <= i < |callbacks| - 1 ==> callbacks[i] < generation)
    && (callbacks != [] ==> callbacks[|callbacks| - 1] <= generation)
    && (scheduled <==> callbacks != [] && callbacks[|callbacks| - 1] == generation)
  }

  ghost predicate Inv(s: State) {
    Phases(s) && Accounting(s) && Bounded(s) && Ordered(s) && Permits(s.eager)
  }

  // ---- helper facts ----

  /** With the producer-side path open and nothing queued, everything admitted is on the wire. */
  lemma {:induction false} WireDrained(s: State)
    requires Inv(s) && s.eager.bound && !s.task.writing && s.stock.queue == []
    ensures s.log.wire == WireAll(s.log.admitted)
    ensures s.stock.resident == 0 && s.stock.queuedBytes == 0
  {
  }

  // ---- admission ----

  lemma {:induction false} PutCharged(q: Stock, batch: seq<WriteItem>, item: WriteItem)
    requires Charged(q, batch)
    ensures Charged(Put(q, item), batch)
  {
    WireAllSnoc(q.queue, item);
  }

  lemma {:induction false} AdmitWireOrder(
    l: Log, rest: seq<Byte>, queue: seq<WriteItem>, healthy: bool, item: WriteItem)
    requires WireOrder(l, rest, queue, healthy)
    ensures WireOrder(Log(l.admitted + [item], l.wire), rest, queue + [item], healthy)
  {
    WireAllSnoc(l.admitted, item);
    if healthy {
      WireAllSnoc(queue, item);
      Associate(l.wire + rest, WireAll(queue), Wire(item));
    }
  }

  lemma {:induction false} AdmitKeepsInv(s: State, item: WriteItem)
    requires Inv(s) && CanEnqueue(s, Size(item))
    ensures Inv(Admit(s, item))
  {
    AdmitWireOrder(s.log, Rest(s), s.stock.queue, Healthy(s), item);
    PutCharged(s.stock, Batch(s), item);
  }

  /**
    The wait loop admits exactly what the immediate attempt admits: whenever
    its escape hatch is open, the capacity test already passed.
   */
  lemma {:induction false} WaitMatchesImmediate(s: State, size: nat)
    requires Inv(s)
    ensures WaitCapacity(s, size) <==> CanEnqueue(s, size)
    ensures EscapeHatch(s.stock) ==> WaitCapacity(s, size)
    ensures s.stock.resident == 0 <==> s.stock.queuedBytes == 0
  {
  }

  lemma {:induction false} PermitUseKeepsPermits(e: Eager, task: int)
    requires Permits(e)
    ensures e.armed ==> Permits(DataPermitUsed(e))
    ensures e.ackArmed ==> Permits(AckPermitUsed(e, task))
  {
  }

  lemma {:induction false} DropKeepsPermits(e: Eager)
    requires Permits(e)
    ensures Permits(DropBinding(e))
  {
  }

  lemma {:induction false} EagerWireOrder(l: Log, item: WriteItem)
    requires l.wire == WireAll(l.admitted)
    ensures WireOrder(WriteEagerly(l, item), [], [], true)
  {
    WireAllSnoc(l.admitted, item);
  }

  lemma {:induction false} RetainKeepsInv(s: State, item: WriteItem, exposed: nat)
    requires Inv(s) && s.eager.bound && !s.task.writing && s.stock.queue == []
    ensures Inv(RetainFailed(s, item, exposed))
  {
    WireDrained(s);
    DropKeepsPermits(s.eager);
    PutCharged(s.stock, Batch(s), item);
    WireAllSnoc(s.log.admitted, item);
  }

  lemma {:induction false} DataKeepsInv(s: State, item: WriteItem, epoch: int, o: NowaitOutcome)
    requires Inv(s)
    ensures Inv(TryData(s, item, epoch, o).0)
  {
    if Stale(s.fence, epoch) || !CanEnqueue(s, Size(item)) {
    } else if !DataEagerAllowed(s, item) || o.Declined? {
      AdmitKeepsInv(s, item);
    } else if o.Raised? {
      RetainKeepsInv(s, item, o.exposed);
    } else {
      WireDrained(s);
      EagerWireOrder(s.log, item);
      PermitUseKeepsPermits(s.eager, 0);
    }
  }

  lemma {:induction false} SealKeepsInv(s: State)
    requires Inv(s)
    ensures Inv(Seal(s))
  {
  }

  lemma {:induction false} TerminalKeepsInv(s: State, item: WriteItem, epoch: int, o: NowaitOutcome)
    requires Inv(s)
    ensures Inv(TryTerminal(s, item, epoch, o).0)
  {
    DataKeepsInv(s, item, epoch, o);
    SealKeepsInv(TryData(s, item, epoch, o).0);
  }

  lemma {:induction false} AckKeepsInv(s: State, item: WriteItem, epoch: int, task: int, o: NowaitOutcome)
    requires Inv(s)
    ensures Inv(TryAck(s, item, epoch, task, o).0)
  {
    if Stale(s.fence, epoch) || !CanEnqueue(s, Size(item)) {
    } else if !AckEagerAllowed(s) || o.Declined? {
      AdmitKeepsInv(s, item);
    } else if o.Raised? {
      RetainKeepsInv(s, item, o.exposed);
    } else {
      WireDrained(s);
      EagerWireOrder(s.log, item);
      PermitUseKeepsPermits(s.eager, task);
    }
  }

  lemma {:induction false} WaitTurnKeepsInv(s: State, item: WriteItem, epoch: int)
    requires Inv(s)
    ensures Inv(WaitTurn(s, item, epoch))
  {
    WaitMatchesImmediate(s, Size(item));
    if !Stale(s.fence, epoch) && (WaitCapacity(s, Size(item)) || EscapeHatch(s.stock)) {
      AdmitKeepsInv(s, item);
    }
  }

  lemma {:induction false} ResumeKeepsInv(s: State, i: nat)
    requires Inv(s) && i < |s.line.parked|
    ensures Inv(Leave(s, i)) && Inv(Resume(s, i))
  {
    LineKeepsInv(s, Leave(s, i).line);
    WaitTurnKeepsInv(Leave(s, i), s.line.parked[i].item, s.line.parked[i].epoch);
  }

  /** Any consistent change of the line alone keeps the invariant. */
  lemma {:induction false} LineKeepsInv(s: State, l: Line)
    requires Inv(s) && l.waiters == |l.parked|
    ensures Inv(s.(line := l))
  {
  }

  // ---- the latency batch ----

  lemma {:induction false} FlushKeepsInv(s: State, o: NowaitOutcome)
    requires Inv(s)
    ensures Inv(FlushLatency(s, o))
  {
    if LatencyAllowed(s) && !o.Declined? {
      assert s.log.wire + [] + WireAll(s.stock.queue) == s.log.wire + WireAll(s.stock.queue);
      if o.Raised? {
        DropKeepsPermits(s.eager);
      }
    }
  }

  // ---- the writer task ----

  lemma {:induction false} LoopTopKeepsInv(s: State)
    requires Inv(s) && s.task.writer.Booting?
    ensures Inv(LoopTop(s))
  {
  }

  lemma {:induction false} TakeWireOrder(l: Log, queue: seq<WriteItem>, healthy: bool, n: nat)
    requires WireOrder(l, [], queue, healthy) && n <= |queue|
    ensures WireOrder(l, WireAll(queue[..n]), queue[n..], healthy)
  {
    WireAllSplit(queue, n);
    Associate(l.wire, WireAll(queue[..n]), WireAll(queue[n..]));
    assert l.wire + [] == l.wire;
  }

  lemma {:induction false} TakeKeepsInv(s: State)
    requires Inv(s) && s.task.writer.Idle? && s.stock.queue != []
    ensures Inv(Take(s))
  {
    var n := Min(BATCH_LIMIT, |s.stock.queue|);
    WireAllSplit(s.stock.queue, n);
    TakeWireOrder(s.log, s.stock.queue, Healthy(s), n);
  }

  lemma {:induction false} ExposeWire(wire: seq<Byte>, rest: seq<Byte>, queued: seq<Byte>, k: nat)
    requires k <= |rest|
    ensures wire + rest + queued == (wire + rest[..k]) + rest[k..] + queued
  {
    assert rest == rest[..k] + rest[k..];
  }

  lemma {:induction false} ExposeKeepsInv(s: State, k: nat)
    requires Inv(s) && s.task.writer.Busy? && MayExpose(s.task.writer, k)
    ensures Inv(Expose(s, k))
  {
    ExposeWire(s.log.wire, s.task.writer.rest, WireAll(s.stock.queue), k);
    if s.fence.failed {
      assert s.log.wire + s.task.writer.rest[..0] == s.log.wire;
    }
  }

  lemma {:induction false} ReleaseKeepsInv(s: State, completed: bool)
    requires Inv(s) && s.task.writer.Busy?
    ensures var t := Release(s, completed); Accounting(t) && Bounded(t) && Ordered(t)
  {
  }

  lemma {:induction false} DoneKeepsInv(s: State)
    requires Inv(s) && WriterEnabled(s, EvDone)
    ensures Inv(Done(s))
  {
    ReleaseKeepsInv(s, true);
  }

  lemma {:induction false} FailKeepsInv(s: State, k: nat)
    requires Inv(s) && WriterEnabled(s, EvFail(k))
    ensures Inv(Fail(s, k))
  {
    ExposeKeepsInv(s, k);
    ReleaseKeepsInv(Expose(s, k), false);
    DropKeepsPermits(s.eager);
  }

  lemma {:induction false} CancelWriterKeepsInv(s: State, k: nat)
    requires Inv(s) && WriterEnabled(s, EvCancelWriter(k))
    ensures Inv(CancelWriter(s, k))
  {
    if s.task.writer.Busy? {
      ExposeKeepsInv(s, k);
      ReleaseKeepsInv(Expose(s, k), false);
    }
  }

  // ---- permits ----

  /** A callback of an older generation changes nothing but its own outstanding entry. */
  lemma {:induction false} CallbackKeepsPermits(e: Eager, idle: bool)
    requires Permits(e) && e.callbacks != [] && (idle ==> e.bound)
    ensures Permits(CallbackRuns(e, idle))
    ensures e.callbacks[0] != e.generation ==> CallbackRuns(e, idle) == e.(callbacks := e.callbacks[1..])
    ensures e.callbacks[0] == e.generation ==> e.rearmScheduled && |e.callbacks| == 1
  {
  }

  lemma {:induction false} PermitStepKeepsInv(s: State, e: PermitEvent)
    requires Inv(s) && PermitEnabled(s, e)
    ensures Inv(PermitStep(s, e))
  {
    match e
    case EvCallback => CallbackKeepsPermits(s.eager, IdlePath(s));
    case EvRearmAck =>
    case EvOwnAck(owner) =>
  }

  // ---- the connection owner ----

  lemma {:induction false} SetEpochKeepsInv(s: State, epoch: int)
    requires Inv(s)
    ensures Inv(SetEpoch(s, epoch))
  {
  }

  lemma {:induction false} DiscardKeepsInv(s: State)
    requires Inv(s) && OwnerEnabled(s, EvDiscard)
    ensures Inv(Discard(s))
  {
    DropKeepsPermits(s.eager);
  }

  lemma {:induction false} NothingYet(l: Log, rest: seq<Byte>, queue: seq<WriteItem>, healthy: bool)
    requires l.admitted == [] && l.wire == [] && rest == [] && queue == []
    ensures WireOrder(l, rest, queue, healthy)
  {
    assert WireAll([]) == [];
  }

  lemma {:induction false} NothingCharged(q: Stock, batch: seq<WriteItem>)
    requires q == NO_STOCK && batch == []
    ensures Charged(q, batch)
  {
    assert SizeAll([]) == 0;
  }

  /** A pump with nothing admitted and no writer, whatever its callbacks and parked producers. */
  lemma {:induction false} FreshInv(s: State)
    requires 1 <= s.maxMessages && s.stock == NO_STOCK && s.line.waiters == |s.line.parked|
    requires !s.fence.failed && !s.eager.bound && Permits(s.eager)
    requires s.task == Task(Absent, false, false) && s.log.admitted == [] && s.log.wire == []
    ensures Inv(s)
  {
    NothingYet(s.log, Rest(s), s.stock.queue, Healthy(s));
    NothingCharged(s.stock, Batch(s));
    assert Phases(s) && Bounded(s);
    assert Accounting(s) && Ordered(s);
  }

  lemma {:induction false} StartKeepsInv(s: State, nowait: bool)
    requires Inv(s) && s.task.writer.Absent?
    ensures Inv(Start(s, nowait))
  {
  }

  lemma {:induction false} StopKeepsInv(s: State)
    requires Inv(s)
    ensures Inv(Stop(s))
  {
    DropKeepsPermits(s.eager);
  }

  lemma {:induction false} OwnerStepKeepsInv(s: State, e: OwnerEvent)
    requires Inv(s) && OwnerEnabled(s, e)
    ensures Inv(OwnerStep(s, e))
  {
    match e
    case EvSeal => SealKeepsInv(s);
    case EvSetEpoch(epoch) => SetEpochKeepsInv(s, epoch);
    case EvAdvanceEpoch(epoch) =>
      SetEpochKeepsInv(s, epoch);
      LineKeepsInv(SetEpoch(s, epoch), WakeAll(s.line));
    case EvWake => LineKeepsInv(s, WakeAll(s.line));
    case EvDiscard => DiscardKeepsInv(s);
    case EvReset => DropKeepsPermits(s.eager); FreshInv(Reset(s));
    case EvStart(nowait) => StartKeepsInv(s, nowait);
    case EvStop => StopKeepsInv(s);
  }

  lemma {:induction false} ProducerStepKeepsInv(s: State, e: ProducerEvent)
    requires Inv(s) && ProducerEnabled(s, e)
    ensures Inv(ProducerStep(s, e))
  {
    match e
    case EvData(item, epoch, o) => DataKeepsInv(s, item, epoch, o);
    case EvTerminal(item, epoch, o) => TerminalKeepsInv(s, item, epoch, o);
    case EvAck(item, epoch, task, o) => AckKeepsInv(s, item, epoch, task, o);
    case EvWait(item, epoch) => WaitTurnKeepsInv(s, item, epoch);
    case EvResume(i) => ResumeKeepsInv(s, i);
    case EvCancelParked(i) => LineKeepsInv(s, CancelParked(s, i).line);
    case EvFlush(o) => FlushKeepsInv(s, o);
  }

  lemma {:induction false} WriterStepKeepsInv(s: State, e: WriterEvent)
    requires Inv(s) && WriterEnabled(s, e)
    ensures Inv(WriterStep(s, e))
  {
    match e
    case EvBoot => LoopTopKeepsInv(s);
    case EvTake => TakeKeepsInv(s);
    case EvExpose(k) => ExposeKeepsInv(s, k);
    case EvDone => DoneKeepsInv(s);
    case EvFail(k) => FailKeepsInv(s, k);
    case EvCancelWriter(k) => CancelWriterKeepsInv(s, k);
  }

  /** Every enabled step keeps the invariant. */
  lemma {:induction false} StepKeepsInv(s: State, e: Event)
    requires Inv(s) && Enabled(s, e)
    ensures Inv(Step(s, e))
  {
    match e
    case Producer(p) => ProducerStepKeepsInv(s, p);
    case Writer(w) => WriterStepKeepsInv(s, w);
    case Permit(t) => PermitStepKeepsInv(s, t);
    case Owner(o) => OwnerStepKeepsInv(s, o);
  }

  lemma {:induction false} RunKeepsInv(s: State, es: seq<Event>)
    requires Inv(s) && IsRun(s, es)
    ensures Inv(Run(s, es))
    decreases |es|
  {
    if es != [] {
      StepKeepsInv(s, es[0]);
      RunKeepsInv(Step(s, es[0]), es[1..]);
    }
  }

  lemma {:induction false} InitInv(maxBytes: nat, maxMessages: nat)
    requires 1 <= maxMessages
    ensures Inv(Init(maxBytes, maxMessages))
  {
    FreshInv(Init(maxBytes, maxMessages));
  }

  /** The writer theorem: all of it holds in every state of every run. */
  lemma {:induction false} EveryRun(maxBytes: nat, maxMessages: nat, es: seq<Event>)
    requires 1 <= maxMessages && IsRun(Init(maxBytes, maxMessages), es)
    ensures Inv(Run(Init(maxBytes, maxMessages), es))
  {
    InitInv(maxBytes, maxMessages);
    RunKeepsInv(Init(maxBytes, maxMessages), es);
  }
}
