/**
  Lifecycle notifications: one pending slot, one worker that starts one hook at
  a time, and the gate that automatic reconnect waits at. A step is a stretch of
  code between two suspensions of the worker, of the hook, or of a caller.
 */
module LifecycleModel {
  import opened Options

  /** `serial` numbers the notifications in the order they were posted. */
  datatype Note = Note(token: int, connected: bool, hasCallback: bool, serial: nat)

  /** Where a task stands before it may act: not yet run, waiting for the holds, waiting for the owner's lock. */
  datatype Barrier = Starting | Parked(woken: bool) | Locking

  datatype Worker = Absent | AtBarrier(b: Barrier) | Hooking(event: Note)

  datatype Stage = Pre(b: Barrier) | Calling | Ended

  datatype Hook = NoHook | Hook(event: Note, stage: Stage, cancelled: bool)

  /** `retiring` is open from a connection's retirement to the next transition that settles it. */
  datatype Gate = Gate(ready: bool, retiring: bool)

  /** The holds, the event that says there are none, and the owner's lock. */
  datatype Hold = Hold(holds: nat, released: bool, locked: bool)

  /** A user callback that began, with the token and the holds at that moment. */
  datatype Start = Start(event: Note, token: int, held: bool)

  datatype Tally = Tally(posted: nat, starts: seq<Start>, workers: int, hooks: int)

  datatype LifeState = LifeState(token: int, pending: Option<Note>, gate: Gate, hold: Hold,
                                 worker: Worker, hook: Hook, tally: Tally)

  function InitLife(): LifeState {
    LifeState(0, None, Gate(true, false), Hold(0, true, false), Absent, NoHook, Tally(0, [], 0, 0))
  }

  // ---- transitions of the owner ----

  function CancelObsolete(h: Hook, spare: bool): Hook {
    if h.Hook? && !spare && !h.stage.Ended? then Hook(h.event, h.stage, true) else h
  }

  function BeginOperation(s: LifeState, replace: bool, preserve: bool, direct: bool): LifeState {
    s.(token := if replace then s.token + 1 else s.token,
       pending := None,
       gate := Gate(true, false),
       hook := CancelObsolete(s.hook, preserve || direct))
  }

  function TakeHold(h: Hold): Hold {
    Hold(h.holds + 1, false, h.locked)
  }

  function WakeBarrier(b: Barrier): Barrier {
    if b.Parked? then Parked(true) else b
  }

  function WakeWorker(w: Worker): Worker {
    if w.AtBarrier? then AtBarrier(WakeBarrier(w.b)) else w
  }

  function WakeHook(h: Hook): Hook {
    if h.Hook? && h.stage.Pre? then Hook(h.event, Pre(WakeBarrier(h.stage.b)), h.cancelled) else h
  }

  function ReleaseHold(s: LifeState): LifeState
    requires s.hold.holds > 0
  {
    if s.hold.holds == 1 then
      s.(hold := Hold(0, true, s.hold.locked), worker := WakeWorker(s.worker), hook := WakeHook(s.hook))
    else s.(hold := Hold(s.hold.holds - 1, s.hold.released, s.hold.locked))
  }

  function Post(s: LifeState, connected: bool, hasCallback: bool): LifeState {
    s.(pending := Some(Note(s.token, connected, hasCallback, s.tally.posted)),
       worker := if s.worker.Absent? then AtBarrier(Starting) else s.worker,
       tally := s.tally.(posted := s.tally.posted + 1,
                         workers := if s.worker.Absent? then s.tally.workers + 1 else s.tally.workers))
  }

  function Connected(s: LifeState, token: int, success: bool, hasCallback: bool): LifeState {
    if token != s.token || !success then s
    else Post(s.(gate := Gate(true, false)), true, hasCallback)
  }

  function Disconnected(s: LifeState, token: int, hasCallback: bool, spare: bool): LifeState {
    if token != s.token then s
    else Post(s.(hook := CancelObsolete(s.hook, spare), gate := Gate(false, false)), false, hasCallback)
  }

  function Retire(s: LifeState, token: int, spare: bool): LifeState {
    if token != s.token then s
    else s.(pending := None, gate := Gate(false, true), hook := CancelObsolete(s.hook, spare))
  }

  // ---- the worker and its hook ----

  /** A wait on the released event: at once when it is set. */
  function EnterBarrier(released: bool): Barrier {
    if released then Locking else Parked(false)
  }

  /** The loop head: leave without a notification, otherwise approach the barrier. */
  function LoopHead(s: LifeState): LifeState {
    if s.pending.None? then s.(worker := Absent, tally := s.tally.(workers := s.tally.workers - 1))
    else s.(worker := AtBarrier(EnterBarrier(s.hold.released)))
  }

  /** The notification is processed: a disconnect that is still current opens the gate. */
  function Finish(s: LifeState, event: Note): LifeState {
    var last := !event.connected && event.token == s.token && s.pending.None?;
    LoopHead(if last then s.(gate := s.gate.(ready := true)) else s)
  }

  function Dispatch(s: LifeState): LifeState {
    if s.hold.holds > 0 || s.pending.None? then LoopHead(s)
    else
      var event := s.pending.value;
      var t := s.(pending := None);
      if event.token != s.token then LoopHead(t)
      else if event.hasCallback then
        t.(worker := Hooking(event), hook := Hook(event, Pre(Starting), false),
           tally := t.tally.(hooks := t.tally.hooks + 1))
      else Finish(t, event)
  }

  /** A task sleeps until it is woken, and waits for the lock until it is free. */
  predicate MayPass(b: Barrier, locked: bool) {
    b != Parked(false) && (b.Locking? ==> !locked)
  }

  predicate WorkerEnabled(s: LifeState) {
    match s.worker
    case Absent => false
    case AtBarrier(b) => MayPass(b, s.hold.locked)
    case Hooking(_) => s.hook.Hook? && s.hook.stage.Ended?
  }

  function WorkerTurn(s: LifeState): LifeState
    requires WorkerEnabled(s)
  {
    match s.worker
    case AtBarrier(Starting) => LoopHead(s)
    case AtBarrier(Parked(_)) => s.(worker := AtBarrier(Locking))
    case AtBarrier(Locking) => Dispatch(s)
    case Hooking(event) => Finish(s.(hook := NoHook, tally := s.tally.(hooks := s.tally.hooks - 1)), event)
  }

  /** The hook passed its barrier: call the user only under the current token. */
  function Invoke(s: LifeState): LifeState
    requires s.hook.Hook?
  {
    var h := s.hook;
    if h.event.token != s.token then s.(hook := Hook(h.event, Ended, h.cancelled))
    else
      s.(hook := Hook(h.event, Calling, h.cancelled),
         gate := if h.event.connected then s.gate else s.gate.(ready := true),
         tally := s.tally.(starts := s.tally.starts + [Start(h.event, s.token, s.hold.holds > 0)]))
  }

  predicate HookEnabled(s: LifeState) {
    s.hook.Hook?
    && match s.hook.stage
       case Pre(b) => s.hook.cancelled || MayPass(b, s.hold.locked)
       case Calling => true
       case Ended => false
  }

  /** A requested cancellation ends a hook that has not called the user yet. */
  function HookTurn(s: LifeState): LifeState
    requires HookEnabled(s)
  {
    var h := s.hook;
    match h.stage
    case Pre(b) =>
      if h.cancelled then s.(hook := Hook(h.event, Ended, true))
      else (match b
            case Starting => s.(hook := Hook(h.event, Pre(EnterBarrier(s.hold.released)), false))
            case Parked(_) => s.(hook := Hook(h.event, Pre(Locking), false))
            case Locking => Invoke(s))
    case Calling => s.(hook := Hook(h.event, Ended, h.cancelled))
  }

  // ---- events and runs ----

  datatype OwnerEvent =
    | EvBegin(replace: bool, preserve: bool, direct: bool)
    | EvHold
    | EvRelease
    | EvLock
    | EvUnlock
    | EvConnected(token: int, success: bool, hasCallback: bool)
    | EvDisconnected(token: int, hasCallback: bool, spare: bool)
    | EvRetire(token: int, spare: bool)

  datatype TaskEvent = EvWorker | EvHook

  datatype LifeEvent = Owner(o: OwnerEvent) | Own(t: TaskEvent)

  predicate OwnerEnabled(s: LifeState, e: OwnerEvent) {
    match e
    case EvBegin(_, _, direct) => direct ==> s.hook.Hook? && s.hook.stage.Calling?
    case EvRelease => s.hold.holds > 0
    case EvLock => !s.hold.locked
    case EvUnlock => s.hold.locked
    case _ => true
  }

  function OwnerStep(s: LifeState, e: OwnerEvent): LifeState
    requires OwnerEnabled(s, e)
  {
    match e
    case EvBegin(replace, preserve, direct) => BeginOperation(s, replace, preserve, direct)
    case EvHold => s.(hold := TakeHold(s.hold))
    case EvRelease => ReleaseHold(s)
    case EvLock => s.(hold := s.hold.(locked := true))
    case EvUnlock => s.(hold := s.hold.(locked := false))
    case EvConnected(token, success, hasCallback) => Connected(s, token, success, hasCallback)
    case EvDisconnected(token, hasCallback, spare) => Disconnected(s, token, hasCallback, spare)
    case EvRetire(token, spare) => Retire(s, token, spare)
  }

  predicate TaskEnabled(s: LifeState, e: TaskEvent) {
    match e
    case EvWorker => WorkerEnabled(s)
    case EvHook => HookEnabled(s)
  }

  function TaskStep(s: LifeState, e: TaskEvent): LifeState
    requires TaskEnabled(s, e)
  {
    match e
    case EvWorker => WorkerTurn(s)
    case EvHook => HookTurn(s)
  }

  predicate LifeEnabled(s: LifeState, e: LifeEvent) {
    match e
    case Owner(o) => OwnerEnabled(s, o)
    case Own(t) => TaskEnabled(s, t)
  }

  function LifeStep(s: LifeState, e: LifeEvent): LifeState
    requires LifeEnabled(s, e)
  {
    match e
    case Owner(o) => OwnerStep(s, o)
    case Own(t) => TaskStep(s, t)
  }

  predicate IsLifeRun(s: LifeState, es: seq<LifeEvent>)
    decreases |es|
  {
    es == [] || (LifeEnabled(s, es[0]) && IsLifeRun(LifeStep(s, es[0]), es[1..]))
  }

  function LifeRun(s: LifeState, es: seq<LifeEvent>): LifeState
    requires IsLifeRun(s, es)
    decreases |es|
  {
    if es == [] then s else LifeRun(LifeStep(s, es[0]), es[1..])
  }
}
