/**
  The bounded ordered transport writer as a state machine over its atomic
  steps. A step is the code between two points where a coroutine can suspend;
  steps are never coarser than that, so every interleaving of the program is a
  run of this machine.
 */
module WriterModel {
  import opened Options
  import opened WriteItems

  /** A producer suspended in `space.wait()`; `notified` once selected to run again. */
  datatype Parked = Parked(item: WriteItem, epoch: int, notified: bool)

  /**
    The writer task: not started since `reset()`, created but not yet run,
    waiting for the queue, writing a batch whose bytes `rest` are not exposed
    yet, or finished. A batch is `poisoned` when the failure latch was set at
    the moment it was taken, the only time the writer looks at the latch.
   */
  datatype WriterTask =
    | Absent | Booting | Idle | Dead
    | Busy(batch: seq<WriteItem>, rest: seq<Byte>, poisoned: bool)

  /** What the transport's non-awaiting write did with the bytes offered to it. */
  datatype NowaitOutcome = Accepted | Declined | Raised(exposed: nat)

  datatype Verdict = Queued | WrittenEagerly | Refused | StaleConnection | TransportRaised

  const BATCH_LIMIT: nat := 256
  const LATENCY_MIN_ITEMS: nat := 4
  const LATENCY_MAX_ITEMS: nat := 16
  const LATENCY_TARGET_BYTES: nat := 48 * 1024

  /** The queue and what is charged for it; `resident` includes the active batch. */
  datatype Stock = Stock(queue: seq<WriteItem>, unfinished: int, queuedBytes: int, resident: int)

  /** The condition variable: producers in arrival order. */
  datatype Line = Line(waiters: int, parked: seq<Parked>)

  datatype Fence = Fence(epoch: int, sealed: bool, failed: bool)

  /**
    The producer-side path: whether the transport offers a non-awaiting write,
    the two permits, the callbacks the event loop still owes, and how often
    each permit was used since it was last armed.
   */
  datatype Eager = Eager(
    bound: bool,
    armed: bool,
    ackArmed: bool,
    generation: nat,
    rearmScheduled: bool,
    ackOwner: Option<int>,
    ackDeferred: bool,
    callbacks: seq<nat>,
    dataSinceArm: nat,
    ackSinceArm: nat)

  datatype Task = Task(writer: WriterTask, writing: bool, cancelled: bool)

  /** History since `reset()`: admitted items and exposed bytes. */
  datatype Log = Log(admitted: seq<WriteItem>, wire: seq<Byte>)

  datatype State = State(
    maxBytes: nat, maxMessages: nat, stock: Stock, line: Line, fence: Fence, eager: Eager, task: Task, log: Log)

  const NO_STOCK := Stock([], 0, 0, 0)

  function Init(maxBytes: nat, maxMessages: nat): State {
    State(maxBytes, maxMessages, NO_STOCK, Line(0, []), Fence(0, false, false),
          Eager(false, false, false, 0, false, None, false, [], 0, 0), Task(Absent, false, false), Log([], []))
  }

  function Batch(s: State): seq<WriteItem> {
    if s.task.writer.Busy? then s.task.writer.batch else []
  }

  function Rest(s: State): seq<Byte> {
    if s.task.writer.Busy? then s.task.writer.rest else []
  }

  predicate Alive(t: Task) {
    t.writer.Booting? || t.writer.Idle? || t.writer.Busy?
  }

  // ---- admission ----

  predicate Stale(f: Fence, epoch: int) {
    f.sealed || f.failed || epoch != f.epoch
  }

  predicate CanEnqueue(s: State, size: nat) {
    s.stock.resident < s.maxMessages
    && (s.stock.queuedBytes + size <= s.maxBytes || (s.stock.resident == 0 && s.stock.queuedBytes == 0))
  }

  function Put(q: Stock, item: WriteItem): Stock {
    Stock(q.queue + [item], q.unfinished + 1, q.queuedBytes + Size(item), q.resident + 1)
  }

  function Admit(s: State, item: WriteItem): State {
    s.(stock := Put(s.stock, item), log := Log(s.log.admitted + [item], s.log.wire))
  }

  function DropBinding(e: Eager): Eager {
    e.(generation := e.generation + 1, armed := false, ackArmed := false, rearmScheduled := false,
       ackOwner := None, ackDeferred := false, bound := false)
  }

  /** A producer-side write raised: nothing of this connection may follow it. */
  function FenceFailure(f: Fence): Fence {
    f.(failed := true, epoch := f.epoch + 1)
  }

  function ScheduleRearm(e: Eager): Eager {
    e.(rearmScheduled := true,
       callbacks := if e.rearmScheduled then e.callbacks else e.callbacks + [e.generation])
  }

  function Min(a: nat, b: nat): nat {
    if a <= b then a else b
  }

  /** The prefix a raising write leaves on the transport. */
  function Exposed(bytes: seq<Byte>, k: nat): seq<Byte> {
    bytes[..Min(k, |bytes|)]
  }

  /** The item of a raising eager write stays queued as an ownership record only. */
  function RetainFailed(s: State, item: WriteItem, exposed: nat): State {
    s.(fence := FenceFailure(s.fence), eager := DropBinding(s.eager), stock := Put(s.stock, item),
       log := Log(s.log.admitted + [item], s.log.wire + Exposed(Wire(item), exposed)))
  }

  predicate DataEagerAllowed(s: State, item: WriteItem) {
    s.eager.armed && s.eager.bound && !s.task.writing && s.line.waiters == 0 && item.Frame? && s.stock.queue == []
  }

  predicate AckEagerAllowed(s: State) {
    s.eager.ackArmed && s.eager.bound && !s.task.writing && s.line.waiters == 0 && s.stock.queue == []
  }

  function WriteEagerly(l: Log, item: WriteItem): Log {
    Log(l.admitted + [item], l.wire + Wire(item))
  }

  function DataPermitUsed(e: Eager): Eager {
    ScheduleRearm(e.(armed := false, dataSinceArm := e.dataSinceArm + 1))
  }

  /** The sole ACK producer restores its permit itself; any other schedules the callback. */
  function AckPermitUsed(e: Eager, task: int): Eager {
    var u := e.(ackArmed := false, ackSinceArm := e.ackSinceArm + 1);
    if e.ackOwner == Some(task) then u.(ackDeferred := true) else ScheduleRearm(u)
  }

  function DataWritten(s: State, item: WriteItem): State {
    s.(log := WriteEagerly(s.log, item), eager := DataPermitUsed(s.eager))
  }

  function AckWritten(s: State, item: WriteItem, task: int): State {
    s.(log := WriteEagerly(s.log, item), eager := AckPermitUsed(s.eager, task))
  }

  function TryData(s: State, item: WriteItem, epoch: int, o: NowaitOutcome): (State, Verdict) {
    if Stale(s.fence, epoch) then (s, StaleConnection)
    else if !CanEnqueue(s, Size(item)) then (s, Refused)
    else if !DataEagerAllowed(s, item) || o.Declined? then (Admit(s, item), Queued)
    else if o.Raised? then (RetainFailed(s, item, o.exposed), TransportRaised)
    else (DataWritten(s, item), WrittenEagerly)
  }

  /** The final packet: whatever its fate, it seals the connection it belongs to. */
  function TryTerminal(s: State, item: WriteItem, epoch: int, o: NowaitOutcome): (State, Verdict) {
    var (t, v) := TryData(s, item, epoch, o);
    (if epoch == t.fence.epoch then Seal(t) else t, v)
  }

  function TryAck(s: State, item: WriteItem, epoch: int, task: int, o: NowaitOutcome): (State, Verdict) {
    if Stale(s.fence, epoch) then (s, StaleConnection)
    else if !CanEnqueue(s, Size(item)) then (s, Refused)
    else if !AckEagerAllowed(s) || o.Declined? then (Admit(s, item), Queued)
    else if o.Raised? then (RetainFailed(s, item, o.exposed), TransportRaised)
    else (AckWritten(s, item, task), WrittenEagerly)
  }

  // ---- waiting for capacity ----

  /** The two exits of the wait loop: its capacity test and its escape hatch. */
  predicate WaitCapacity(s: State, size: nat) {
    var empty := s.stock.resident == 0 && s.stock.queuedBytes == 0 && s.stock.queue == [];
    !(s.stock.resident >= s.maxMessages) && !(s.stock.queuedBytes + size > s.maxBytes && !empty)
  }

  predicate EscapeHatch(q: Stock) {
    q.queue == [] && q.queuedBytes == 0
  }

  /** One turn of the wait loop: fail, admit, or park at the end of the line. */
  function WaitTurn(s: State, item: WriteItem, epoch: int): State {
    if Stale(s.fence, epoch) then s
    else if WaitCapacity(s, Size(item)) || EscapeHatch(s.stock) then Admit(s, item)
    else s.(line := Line(s.line.waiters + 1, s.line.parked + [Parked(item, epoch, false)]))
  }

  /** `notify(n)` selects the first n producers that are not selected yet. */
  function Notify(ps: seq<Parked>, n: nat): (r: seq<Parked>)
    ensures |r| == |ps|
  {
    if n == 0 || ps == [] then ps
    else if ps[0].notified then [ps[0]] + Notify(ps[1..], n)
    else [ps[0].(notified := true)] + Notify(ps[1..], n - 1)
  }

  function Without(ps: seq<Parked>, i: nat): seq<Parked>
    requires i < |ps|
  {
    ps[..i] + ps[i + 1..]
  }

  function Leave(s: State, i: nat): State
    requires i < |s.line.parked|
  {
    s.(line := Line(s.line.waiters - 1, Without(s.line.parked, i)))
  }

  function Resume(s: State, i: nat): State
    requires i < |s.line.parked|
  {
    WaitTurn(Leave(s, i), s.line.parked[i].item, s.line.parked[i].epoch)
  }

  /** A cancelled producer hands a wakeup on when others still wait. */
  function CancelParked(s: State, i: nat): State
    requires i < |s.line.parked|
  {
    var left := Without(s.line.parked, i);
    s.(line := Line(s.line.waiters - 1, if s.line.waiters > 1 then Notify(left, 1) else left))
  }

  function WakeAll(l: Line): Line {
    l.(parked := Notify(l.parked, |l.parked|))
  }

  // ---- the producer-side latency batch ----

  predicate LatencyAllowed(s: State) {
    LATENCY_MIN_ITEMS <= |s.stock.queue| <= LATENCY_MAX_ITEMS
    && (|s.stock.queue| == LATENCY_MAX_ITEMS || s.stock.queuedBytes >= LATENCY_TARGET_BYTES)
    && s.eager.bound && !s.task.writing && s.line.waiters == 0
    && forall i :: 0 <= i < |s.stock.queue| ==> s.stock.queue[i].Frame?
  }

  function FlushWritten(s: State): State {
    var n := |s.stock.queue|;
    s.(log := Log(s.log.admitted, s.log.wire + WireAll(s.stock.queue)),
       stock := Stock([], s.stock.unfinished - n, s.stock.queuedBytes - SizeAll(s.stock.queue), s.stock.resident - n))
  }

  function FlushRaised(s: State, exposed: nat): State {
    s.(fence := FenceFailure(s.fence), eager := DropBinding(s.eager),
       log := Log(s.log.admitted, s.log.wire + Exposed(WireAll(s.stock.queue), exposed)))
  }

  function FlushLatency(s: State, o: NowaitOutcome): State {
    if !LatencyAllowed(s) || o.Declined? then s
    else if o.Raised? then FlushRaised(s, o.exposed)
    else FlushWritten(s)
  }

  // ---- the writer task ----

  function ArmBoth(e: Eager): Eager {
    e.(armed := true, ackArmed := true, dataSinceArm := 0, ackSinceArm := 0)
  }

  /** Reaching the queue wait re-arms both permits when nothing is queued. */
  function LoopTop(s: State): State {
    s.(task := s.task.(writer := Idle),
       eager := if s.stock.queue == [] && s.eager.bound then ArmBoth(s.eager) else s.eager)
  }

  function Take(s: State): State {
    var n := Min(BATCH_LIMIT, |s.stock.queue|);
    var batch := s.stock.queue[..n];
    s.(eager := s.eager.(armed := false), stock := s.stock.(queue := s.stock.queue[n..]),
       task := s.task.(writing := true, writer := Busy(batch, WireAll(batch), s.fence.failed)))
  }

  /** The next k bytes of the active batch reach the transport. */
  function Expose(s: State, k: nat): State
    requires s.task.writer.Busy? && k <= |s.task.writer.rest|
  {
    s.(log := s.log.(wire := s.log.wire + s.task.writer.rest[..k]),
       task := s.task.(writer := Busy(s.task.writer.batch, s.task.writer.rest[k..], s.task.writer.poisoned)))
  }

  function Max0(a: int): nat {
    if a < 0 then 0 else a
  }

  /** Accounting is released however a batch ended. */
  function ReleaseStock(q: Stock, batch: seq<WriteItem>): Stock {
    Stock(q.queue, q.unfinished - |batch|, Max0(q.queuedBytes - SizeAll(batch)), q.resident - |batch|)
  }

  /** Only a completed batch of a writer nobody cancelled frees capacity for waiting producers. */
  function Release(s: State, completed: bool): State
    requires s.task.writer.Busy?
  {
    var batch := s.task.writer.batch;
    s.(task := s.task.(writing := false, writer := Dead), stock := ReleaseStock(s.stock, batch),
       line := if completed && s.line.waiters > 0 && !s.task.cancelled
               then s.line.(parked := Notify(s.line.parked, Min(Max0(s.line.waiters), |batch|))) else s.line)
  }

  function Done(s: State): State
    requires s.task.writer.Busy?
  {
    LoopTop(Release(s, true))
  }

  /** A failed batch retires the generation and wakes every parked producer. */
  function Fail(s: State, k: nat): State
    requires s.task.writer.Busy? && k <= |s.task.writer.rest|
  {
    var t := Release(Expose(s, k), false);
    t.(eager := DropBinding(t.eager), line := WakeAll(t.line),
       fence := t.fence.(epoch := if t.fence.failed then t.fence.epoch else t.fence.epoch + 1))
  }

  function CancelWriter(s: State, k: nat): State
    requires s.task.writer.Busy? ==> k <= |s.task.writer.rest|
  {
    if s.task.writer.Busy? then Release(Expose(s, k), false) else s.(task := s.task.(writer := Dead))
  }

  // ---- permits and lifecycle ----

  function Seal(s: State): State {
    s.(fence := s.fence.(sealed := true))
  }

  function SetEpoch(s: State, epoch: int): State {
    s.(fence := s.fence.(epoch := epoch))
  }

  function AdvanceEpoch(s: State, epoch: int): State {
    s.(fence := s.fence.(epoch := epoch), line := WakeAll(s.line))
  }

  function Wake(s: State): State {
    s.(line := WakeAll(s.line))
  }

  function OwnAck(s: State, owner: Option<int>): State {
    s.(eager := s.eager.(ackOwner := owner, ackDeferred := false))
  }

  predicate IdlePath(s: State) {
    s.eager.bound && !s.task.writing && s.stock.queue == []
  }

  /** The event loop runs the oldest scheduled callback; one of an older generation has no effect. */
  function CallbackRuns(e: Eager, idle: bool): Eager
    requires e.callbacks != []
  {
    var u := e.(callbacks := e.callbacks[1..]);
    if e.callbacks[0] != e.generation then u
    else if idle then ArmBoth(u.(rearmScheduled := false)) else u.(rearmScheduled := false)
  }

  function RunCallback(s: State): State
    requires s.eager.callbacks != []
  {
    s.(eager := CallbackRuns(s.eager, IdlePath(s)))
  }

  function RearmDeferredAck(s: State): State {
    var e := s.eager;
    s.(eager := if !e.ackDeferred then e
                else if IdlePath(s) then e.(ackDeferred := false, ackArmed := true, ackSinceArm := 0)
                else e.(ackDeferred := false))
  }

  function Discard(s: State): State {
    var n := |s.stock.queue|;
    s.(eager := DropBinding(s.eager), task := s.task.(writing := false),
       stock := Stock([], s.stock.unfinished - n, 0, s.stock.resident - n))
  }

  function Reset(s: State): State {
    s.(stock := NO_STOCK, fence := Fence(s.fence.epoch, false, false), eager := DropBinding(s.eager),
       task := Task(Absent, false, false), log := Log([], []))
  }

  function StartEager(e: Eager, nowait: bool): Eager {
    e.(generation := e.generation + 1, bound := nowait, armed := nowait, ackArmed := nowait, rearmScheduled := false,
       dataSinceArm := if nowait then 0 else e.dataSinceArm, ackSinceArm := if nowait then 0 else e.ackSinceArm)
  }

  function Start(s: State, nowait: bool): State {
    s.(eager := StartEager(s.eager, nowait), task := Task(Booting, false, false))
  }

  function Stop(s: State): State {
    s.(eager := DropBinding(s.eager),
       task := if Alive(s.task) then s.task.(cancelled := true) else s.task.(writing := false))
  }

  // ---- events ----

  datatype ProducerEvent =
    | EvData(item: WriteItem, epoch: int, outcome: NowaitOutcome)
    | EvTerminal(item: WriteItem, epoch: int, outcome: NowaitOutcome)
    | EvAck(item: WriteItem, epoch: int, task: int, outcome: NowaitOutcome)
    | EvWait(item: WriteItem, epoch: int)
    | EvResume(i: nat)
    | EvCancelParked(i: nat)
    | EvFlush(outcome: NowaitOutcome)

  datatype WriterEvent =
    | EvBoot
    | EvTake
    | EvExpose(k: nat)
    | EvDone
    | EvFail(k: nat)
    | EvCancelWriter(k: nat)

  datatype PermitEvent =
    | EvCallback
    | EvRearmAck
    | EvOwnAck(owner: Option<int>)

  datatype OwnerEvent =
    | EvSeal
    | EvSetEpoch(epoch: int)
    | EvAdvanceEpoch(epoch: int)
    | EvWake
    | EvDiscard
    | EvReset
    | EvStart(nowait: bool)
    | EvStop

  datatype Event = Producer(p: ProducerEvent) | Writer(w: WriterEvent) | Permit(t: PermitEvent) | Owner(o: OwnerEvent)

  predicate ProducerEnabled(s: State, e: ProducerEvent) {
    match e
    case EvAck(item, _, _, _) => item.Frame?
    case EvResume(i) => i < |s.line.parked| && s.line.parked[i].notified
    case EvCancelParked(i) => i < |s.line.parked|
    case _ => true
  }

  function ProducerStep(s: State, e: ProducerEvent): State
    requires ProducerEnabled(s, e)
  {
    match e
    case EvData(item, epoch, o) => TryData(s, item, epoch, o).0
    case EvTerminal(item, epoch, o) => TryTerminal(s, item, epoch, o).0
    case EvAck(item, epoch, task, o) => TryAck(s, item, epoch, task, o).0
    case EvWait(item, epoch) => WaitTurn(s, item, epoch)
    case EvResume(i) => Resume(s, i)
    case EvCancelParked(i) => CancelParked(s, i)
    case EvFlush(o) => FlushLatency(s, o)
  }

  /** A poisoned batch raises before its first write; only `stop()` cancels the writer. */
  predicate WriterEnabled(s: State, e: WriterEvent) {
    match e
    case EvBoot => s.task.writer.Booting?
    case EvTake => s.task.writer.Idle? && s.stock.queue != []
    case EvExpose(k) => s.task.writer.Busy? && MayExpose(s.task.writer, k)
    case EvDone => s.task.writer.Busy? && !s.task.writer.poisoned && s.task.writer.rest == []
    case EvFail(k) => s.task.writer.Busy? && MayExpose(s.task.writer, k)
    case EvCancelWriter(k) =>
      Alive(s.task) && s.task.cancelled && (s.task.writer.Busy? ==> MayExpose(s.task.writer, k))
  }

  predicate MayExpose(w: WriterTask, k: nat)
    requires w.Busy?
  {
    k <= |w.rest| && (w.poisoned ==> k == 0)
  }

  function WriterStep(s: State, e: WriterEvent): State
    requires WriterEnabled(s, e)
  {
    match e
    case EvBoot => LoopTop(s)
    case EvTake => Take(s)
    case EvExpose(k) => Expose(s, k)
    case EvDone => Done(s)
    case EvFail(k) => Fail(s, k)
    case EvCancelWriter(k) => CancelWriter(s, k)
  }

  predicate PermitEnabled(s: State, e: PermitEvent) {
    e.EvCallback? ==> s.eager.callbacks != []
  }

  function PermitStep(s: State, e: PermitEvent): State
    requires PermitEnabled(s, e)
  {
    match e
    case EvCallback => RunCallback(s)
    case EvRearmAck => RearmDeferredAck(s)
    case EvOwnAck(owner) => OwnAck(s, owner)
  }

  /**
    `start()` follows `reset()`, which follows the end of the writer;
    `discard()` follows `stop()` or finds nothing queued.
   */
  predicate OwnerEnabled(s: State, e: OwnerEvent) {
    match e
    case EvDiscard => s.task.writer.Dead? || (!s.task.writer.Busy? && s.stock.queue == [])
    case EvReset => s.task.writer.Absent? || s.task.writer.Dead?
    case EvStart(_) => s.task.writer.Absent?
    case _ => true
  }

  function OwnerStep(s: State, e: OwnerEvent): State
    requires OwnerEnabled(s, e)
  {
    match e
    case EvSeal => Seal(s)
    case EvSetEpoch(epoch) => SetEpoch(s, epoch)
    case EvAdvanceEpoch(epoch) => AdvanceEpoch(s, epoch)
    case EvWake => Wake(s)
    case EvDiscard => Discard(s)
    case EvReset => Reset(s)
    case EvStart(nowait) => Start(s, nowait)
    case EvStop => Stop(s)
  }

  predicate Enabled(s: State, e: Event) {
    match e
    case Producer(p) => ProducerEnabled(s, p)
    case Writer(w) => WriterEnabled(s, w)
    case Permit(t) => PermitEnabled(s, t)
    case Owner(o) => OwnerEnabled(s, o)
  }

  function Step(s: State, e: Event): State
    requires Enabled(s, e)
  {
    match e
    case Producer(p) => ProducerStep(s, p)
    case Writer(w) => WriterStep(s, w)
    case Permit(t) => PermitStep(s, t)
    case Owner(o) => OwnerStep(s, o)
  }

  /** `es` can happen one after the other from `s`. */
  predicate IsRun(s: State, es: seq<Event>)
    decreases |es|
  {
    es == [] || (Enabled(s, es[0]) && IsRun(Step(s, es[0]), es[1..]))
  }

  function Run(s: State, es: seq<Event>): State
    requires IsRun(s, es)
    decreases |es|
  {
    if es == [] then s else Run(Step(s, es[0]), es[1..])
  }
}
