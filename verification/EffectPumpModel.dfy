/**
  The protocol lane as a state machine over its atomic steps: collection from
  the engine, the inline fast path, the scheduled flusher, drain fences,
  failure routing and connection retirement.
 */
module EffectPumpModel {
  import opened Options
  import opened Effects

  /**
    The flusher task: none, created or between two effects, suspended in the
    application of `effect`, suspended in the close after a failure, or done
    with its completion callback still to run.
   */
  datatype Flusher = NoTask | Ready | Applying(effect: Effect) | Closing | Finished

  /** A `drain()` call suspended until `target` effects have left the lane. */
  datatype Waiter = Waiter(id: nat, target: nat, woken: bool)

  /** The deque and its progress counters; `ordered` is every effect that ever entered it. */
  datatype Queue = Queue(pending: seq<Effect>, pendingEpoch: int, enqueued: nat, applied: nat, ordered: seq<Effect>)

  datatype Drains = Drains(waiters: seq<Waiter>, errorWaiters: set<nat>, error: bool, nextId: nat)

  datatype Flush = Flush(task: Flusher, requested: bool)

  /** How an effect left: taken by the applier, refused as belonging to a dead connection, or by an error. */
  datatype Outcome = Taken | Stale | Raised

  datatype Fate = Fate(effect: Effect, outcome: Outcome)

  /**
    History: output collected and how each left (with the positions of the
    last discard), publish results collected and how each ended.
   */
  datatype Ledger = Ledger(
    collected: seq<Effect>, sends: seq<Fate>, collectedBase: nat, sendsBase: nat,
    publishes: seq<Effect>, results: seq<Fate>)

  datatype PumpState = PumpState(epoch: int, queue: Queue, drains: Drains, flush: Flush, ledger: Ledger)

  /** How the client's synchronous applier answers. */
  datatype Inline = Applies | Defers | RaisesInline

  function InitPump(epoch: int): PumpState {
    PumpState(epoch, Queue([], epoch, 0, 0, []), Drains([], {}, false, 0), Flush(NoTask, false),
              Ledger([], [], 0, 0, [], []))
  }

  predicate Live(f: Flusher) {
    f.Ready? || f.Applying? || f.Closing?
  }

  /** The flusher holds the pump lock while it is suspended. */
  predicate Locked(f: Flusher) {
    f.Applying? || f.Closing?
  }

  // ---- fates ----

  function FatesOf(es: seq<Effect>, outcome: Outcome): (fs: seq<Fate>)
    ensures |fs| == |es|
  {
    if es == [] then [] else [Fate(es[0], outcome)] + FatesOf(es[1..], outcome)
  }

  /** The effects that left, however they did. */
  function Departed(fs: seq<Fate>): (es: seq<Effect>)
    ensures |es| == |fs|
  {
    if fs == [] then [] else [fs[0].effect] + Departed(fs[1..])
  }

  /** Effects leave with one outcome: sends and publish results are noted, in order. */
  function Leaves(l: Ledger, es: seq<Effect>, outcome: Outcome): Ledger {
    l.(sends := l.sends + FatesOf(Sends(es), outcome), results := l.results + FatesOf(PublishResults(es), outcome))
  }

  // ---- waking drain() calls ----

  function WakeAll(ws: seq<Waiter>): (r: seq<Waiter>)
    ensures |r| == |ws|
    ensures forall i :: 0 <= i < |ws| ==> r[i] == ws[i].(woken := true)
  {
    if ws == [] then [] else [ws[0].(woken := true)] + WakeAll(ws[1..])
  }

  function Progress(d: Drains): Drains {
    d.(waiters := WakeAll(d.waiters))
  }

  function Schedule(f: Flush): Flush {
    Flush(if Live(f.task) then f.task else Ready, true)
  }

  // ---- leaving the lane ----

  /** The first k pending effects left in order. */
  function Advance(s: PumpState, k: nat, outcome: Outcome): PumpState
    requires k <= |s.queue.pending|
  {
    s.(queue := s.queue.(pending := s.queue.pending[k..], applied := s.queue.applied + k),
       drains := if k == 0 then s.drains else Progress(s.drains),
       ledger := Leaves(s.ledger, s.queue.pending[..k], outcome))
  }

  /** Connection effects are dropped; publish results are kept, or settled now. */
  function Drop(s: PumpState, settle: bool): PumpState {
    var results := PublishResults(s.queue.pending);
    var kept := if settle then [] else results;
    s.(queue := s.queue.(pending := kept, pendingEpoch := if kept == [] then s.queue.pendingEpoch else s.epoch,
                         applied := s.queue.applied + |s.queue.pending| - |kept|),
       drains := Progress(s.drains),
       ledger := s.ledger.(results := if settle then s.ledger.results + FatesOf(results, Taken) else s.ledger.results,
                           collectedBase := |s.ledger.collected|, sendsBase := |s.ledger.sends|))
  }

  // ---- collection ----

  function Append(q: Queue, effects: seq<Effect>, epoch: int): Queue {
    q.(pendingEpoch := if q.pending == [] then epoch else q.pendingEpoch, pending := q.pending + effects,
       enqueued := q.enqueued + |effects|, ordered := q.ordered + effects)
  }

  function Noted(l: Ledger, effects: seq<Effect>): Ledger {
    l.(collected := l.collected + Sends(effects), publishes := l.publishes + PublishResults(effects))
  }

  /** While a failing flush closes the connection, its effects are settled or dropped at once. */
  function CollectFailing(s: PumpState, effects: seq<Effect>): PumpState {
    Drop(s.(queue := Append(s.queue, effects, s.epoch), ledger := Noted(s.ledger, effects)), true)
  }

  /** A single effect is offered to the applier at once; an error there loses it. */
  function CollectSingle(s: PumpState, e: Effect, inline: Inline): PumpState {
    var l := Noted(s.ledger, [e]);
    if IsDelivery(e) then s
    else if s.queue.pending == [] && inline.RaisesInline? then s.(ledger := Leaves(l, [e], Raised))
    else if s.queue.pending == [] && inline.Applies? then s.(ledger := Leaves(l, [e], Taken))
    else if IsImmediate(e) then s.(ledger := l.(results := l.results + FatesOf(PublishResults([e]), Taken)))
    else s.(queue := Append(s.queue, [e], s.epoch), ledger := l)
  }

  function CollectMany(s: PumpState, effects: seq<Effect>): PumpState {
    var l := Noted(s.ledger, effects);
    var t := s.(ledger := l.(results := l.results + FatesOf(PublishResults(Observed(effects)), Taken)));
    if Observed(effects) != [] && Lane(effects) == [] && Deliveries(effects) == [] then t
    else t.(queue := Append(s.queue, Lane(effects), s.epoch))
  }

  function RetireStale(s: PumpState): PumpState {
    if s.queue.pending != [] && s.queue.pendingEpoch != s.epoch then Drop(s, false) else s
  }

  function Collect(s: PumpState, effects: seq<Effect>, inline: Inline): PumpState {
    if effects == [] then s
    else if s.flush.task.Closing? then CollectFailing(RetireStale(s), effects)
    else if |effects| == 1 then CollectSingle(RetireStale(s), effects[0], inline)
    else CollectMany(RetireStale(s), effects)
  }

  // ---- the inline drain ----

  function Least(a: nat, b: nat): nat {
    if a <= b then a else b
  }

  /** How many more effects a target allows. */
  function Room(q: Queue, target: Option<nat>): nat {
    if target.None? then |q.pending|
    else if target.value <= q.applied then 0 else target.value - q.applied
  }

  /** How many effects the inline loop applies when the applier accepts `budget` in a row. */
  function InlineCount(q: Queue, target: Option<nat>, budget: nat): nat {
    Least(Least(budget, |q.pending|), Room(q, target))
  }

  /** The applier raised inside the loop: the effect stays, and nothing is scheduled. */
  predicate InlineRaises(q: Queue, target: Option<nat>, budget: nat, raises: bool) {
    raises && budget < |q.pending| && budget < Room(q, target)
  }

  /** Whether the inline drain gets past its early returns. */
  predicate InlineRuns(s: PumpState) {
    !Locked(s.flush.task) && s.queue.pending != []
  }

  function DrainInline(s: PumpState, target: Option<nat>, budget: nat, raises: bool): PumpState {
    if !InlineRuns(s) then s
    else
      var t := RetireStale(s);
      var u := Advance(t, InlineCount(t.queue, target, budget), Taken);
      if u.queue.pending == [] || InlineRaises(t.queue, target, budget, raises) then u
      else u.(flush := Schedule(u.flush))
  }

  // ---- the flusher ----

  /** The flusher runs until it suspends in an application or finds nothing left. */
  function FlushTurn(s: PumpState): PumpState {
    var t := RetireStale(s);
    t.(flush := if t.queue.pending == [] then Flush(Finished, false)
                else Flush(Applying(t.queue.pending[0]), t.flush.requested))
  }

  function FlushBegins(s: PumpState): PumpState {
    FlushTurn(s.(flush := s.flush.(requested := false)))
  }

  /** The applied effect leaves, unless a discard has removed it meanwhile. */
  function PopIfHead(s: PumpState, e: Effect, outcome: Outcome): PumpState {
    if s.queue.pending != [] && s.queue.pending[0] == e then Advance(s, 1, outcome) else s
  }

  function Owners(ws: seq<Waiter>, failureAt: nat): set<nat> {
    set i | 0 <= i < |ws| && ws[i].target >= failureAt :: ws[i].id
  }

  /** Drains waiting at or beyond the failed effect receive its error. */
  function RouteFailure(d: Drains, failureAt: nat): Drains {
    var owners := Owners(d.waiters, failureAt);
    if owners == {} then d else Progress(d).(error := true, errorWaiters := owners)
  }

  function FailConnection(s: PumpState): PumpState {
    Drop(s.(drains := RouteFailure(s.drains, s.queue.applied), flush := s.flush.(task := Closing)), true)
  }

  /** A stale connection is no error; any other exception fails the connection. */
  function ApplyReturns(s: PumpState, outcome: Outcome): PumpState
    requires s.flush.task.Applying?
  {
    var t := PopIfHead(s, s.flush.task.effect, outcome);
    if outcome.Raised? then FailConnection(t) else FlushTurn(t)
  }

  function CloseReturns(s: PumpState): PumpState {
    var t := if s.queue.pending == [] then s else Drop(s, true);
    t.(flush := t.flush.(task := Finished))
  }

  function DoneCallback(s: PumpState, raised: bool): PumpState {
    var t := s.(flush := s.flush.(task := NoTask),
                drains := s.drains.(error := s.drains.error
                                             && !(raised && s.queue.pending == [] && s.drains.errorWaiters == {})));
    if t.flush.requested && t.queue.pending != [] then t.(flush := Schedule(t.flush)) else t
  }

  // ---- drain() ----

  /** One turn of the drain loop of waiter `w`: park again behind a live flusher. */
  function Park(s: PumpState, w: Waiter): PumpState {
    s.(flush := Schedule(s.flush), drains := s.drains.(waiters := s.drains.waiters + [w.(woken := false)]))
  }

  function Register(s: PumpState, target: nat): PumpState {
    var id := s.drains.nextId;
    Park(s.(drains := s.drains.(nextId := id + 1)), Waiter(id, target, false))
  }

  function Goal(q: Queue, target: Option<nat>): nat {
    if target.Some? then target.value else q.enqueued
  }

  /** After the inline attempt: an error leaves, a met target returns, otherwise the call registers and parks. */
  function AfterInline(s: PumpState, goal: nat, raised: bool): (PumpState, bool) {
    if raised then (s, false)
    else if s.queue.applied >= goal then (s, true)
    else (Register(s, goal), false)
  }

  predicate RaisedInline(s: PumpState, target: Option<nat>, budget: nat, raises: bool) {
    InlineRuns(s) && InlineRaises(RetireStale(s).queue, target, budget, raises)
  }

  function DrainCall(s: PumpState, target: Option<nat>, budget: nat, raises: bool): (PumpState, bool) {
    var t := DrainInline(s, target, budget, raises);
    AfterInline(t, Goal(t.queue, target), RaisedInline(s, target, budget, raises))
  }

  function Leave(d: Drains, i: nat): Drains
    requires i < |d.waiters|
  {
    var left := d.errorWaiters - {d.waiters[i].id};
    d.(waiters := d.waiters[..i] + d.waiters[i + 1..], errorWaiters := left, error := d.error && left != {})
  }

  datatype Exit = Returns | RaisesError | ParksAgain

  function ExitOf(s: PumpState, w: Waiter): Exit {
    if w.id in s.drains.errorWaiters then RaisesError
    else if s.queue.applied >= w.target then Returns
    else ParksAgain
  }

  function WaiterTurn(s: PumpState, i: nat): PumpState
    requires i < |s.drains.waiters|
  {
    var w := s.drains.waiters[i];
    if ExitOf(s, w).ParksAgain? then
      Park(s.(drains := s.drains.(waiters := s.drains.waiters[..i] + s.drains.waiters[i + 1..])), w)
    else s.(drains := Leave(s.drains, i))
  }

  // ---- events ----

  datatype PumpEvent =
    | EvCollect(effects: seq<Effect>, inline: Inline)
    | EvDrainInline(target: Option<nat>, budget: nat, raises: bool)
    | EvSchedule
    | EvDrop(settle: bool)
    | EvRetire(epoch: int)
    | Flusher(f: FlushEvent)
    | Drainer(d: DrainEvent)

  datatype FlushEvent =
    | EvBegins
    | EvApplyReturns(outcome: Outcome)
    | EvCloseReturns
    | EvDone(raised: bool)

  datatype DrainEvent =
    | EvDrain(target: Option<nat>, budget: nat, raises: bool)
    | EvTurn(i: nat)
    | EvCancel(i: nat)

  predicate FlushEnabled(s: PumpState, e: FlushEvent) {
    match e
    case EvBegins => s.flush.task.Ready?
    case EvApplyReturns(_) => s.flush.task.Applying?
    case EvCloseReturns => s.flush.task.Closing?
    case EvDone(_) => s.flush.task.Finished?
  }

  function FlushStep(s: PumpState, e: FlushEvent): PumpState
    requires FlushEnabled(s, e)
  {
    match e
    case EvBegins => FlushBegins(s)
    case EvApplyReturns(outcome) => ApplyReturns(s, outcome)
    case EvCloseReturns => CloseReturns(s)
    case EvDone(raised) => DoneCallback(s, raised)
  }

  /** Callers name a position the lane has reached; only a woken drain runs. */
  predicate DrainEnabled(s: PumpState, e: DrainEvent) {
    match e
    case EvDrain(target, _, _) => target.Some? ==> target.value <= s.queue.enqueued
    case EvTurn(i) => i < |s.drains.waiters| && s.drains.waiters[i].woken
    case EvCancel(i) => i < |s.drains.waiters|
  }

  function DrainStep(s: PumpState, e: DrainEvent): PumpState
    requires DrainEnabled(s, e)
  {
    match e
    case EvDrain(target, budget, raises) => DrainCall(s, target, budget, raises).0
    case EvTurn(i) => WaiterTurn(s, i)
    case EvCancel(i) => s.(drains := Leave(s.drains, i))
  }

  predicate PumpEnabled(s: PumpState, e: PumpEvent) {
    match e
    case Flusher(f) => FlushEnabled(s, f)
    case Drainer(d) => DrainEnabled(s, d)
    case _ => true
  }

  function PumpStep(s: PumpState, e: PumpEvent): PumpState
    requires PumpEnabled(s, e)
  {
    match e
    case EvCollect(effects, inline) => Collect(s, effects, inline)
    case EvDrainInline(target, budget, raises) => DrainInline(s, target, budget, raises)
    case EvSchedule => s.(flush := Schedule(s.flush))
    case EvDrop(settle) => Drop(s, settle)
    case EvRetire(epoch) => s.(epoch := epoch)
    case Flusher(f) => FlushStep(s, f)
    case Drainer(d) => DrainStep(s, d)
  }

  predicate IsPumpRun(s: PumpState, es: seq<PumpEvent>)
    decreases |es|
  {
    es == [] || (PumpEnabled(s, es[0]) && IsPumpRun(PumpStep(s, es[0]), es[1..]))
  }

  function PumpRun(s: PumpState, es: seq<PumpEvent>): PumpState
    requires IsPumpRun(s, es)
    decreases |es|
  {
    if es == [] then s else PumpRun(PumpStep(s, es[0]), es[1..])
  }
}
