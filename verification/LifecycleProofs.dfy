/** What every run of the lifecycle worker keeps, and how the reconnect gate opens again. */
module LifecycleProofs {
  import opened Options
  import opened LifecycleModel

  predicate HandlingDisconnect(w: Worker, token: int) {
    w.Hooking? && !w.event.connected && w.event.token == token
  }

  /** A closed gate has somebody who will open it. */
  ghost predicate GateOwned(s: LifeState) {
    !s.gate.ready ==> s.gate.retiring || (s.pending.Some? && !s.pending.value.connected)
                      || HandlingDisconnect(s.worker, s.token)
  }

  /** A pending notification is current, newer than the one in hand, and has a live worker. */
  ghost predicate PendingOk(s: LifeState) {
    s.pending.Some? ==>
      && !s.worker.Absent?
      && s.pending.value.token == s.token
      && (s.pending.value.connected ==> s.gate.ready)
      && s.pending.value.serial < s.tally.posted
      && (s.worker.Hooking? ==> s.worker.event.serial < s.pending.value.serial)
  }

  /** One worker and one hook at most, and the hook is the one the worker awaits. */
  ghost predicate TasksOk(s: LifeState) {
    && s.tally.workers == (if s.worker.Absent? then 0 else 1)
    && s.tally.hooks == (if s.hook.NoHook? then 0 else 1)
    && (s.worker.Hooking? <==> s.hook.Hook?)
    && (s.worker.Hooking? ==>
          s.hook.event == s.worker.event && s.worker.event.hasCallback && s.worker.event.token <= s.token
          && s.worker.event.serial < s.tally.posted)
  }

  /** Nobody sleeps at the barrier unless a hold is in force. */
  ghost predicate BarrierOk(s: LifeState) {
    && (s.hold.released <==> s.hold.holds == 0)
    && (s.worker == AtBarrier(Parked(false)) ==> s.hold.holds > 0)
    && (s.hook.Hook? && s.hook.stage == Pre(Parked(false)) ==> s.hold.holds > 0)
  }

  /** Callbacks begin under their own token, in posting order and once per notification. */
  ghost predicate StartsOk(starts: seq<Start>) {
    && (forall i :: 0 <= i < |starts| ==> starts[i].event.token == starts[i].token)
    && (forall i, j :: 0 <= i < j < |starts| ==> starts[i].event.serial < starts[j].event.serial)
  }

  ghost predicate Below(starts: seq<Start>, serial: int) {
    forall i :: 0 <= i < |starts| ==> starts[i].event.serial < serial
  }

  ghost predicate StartsBehind(s: LifeState) {
    && StartsOk(s.tally.starts)
    && Below(s.tally.starts, s.tally.posted)
    && (s.pending.Some? ==> Below(s.tally.starts, s.pending.value.serial))
    && (s.hook.Hook? && s.hook.stage.Pre? ==> Below(s.tally.starts, s.hook.event.serial))
  }

  ghost predicate LifeInv(s: LifeState) {
    GateOwned(s) && PendingOk(s) && TasksOk(s) && BarrierOk(s) && StartsBehind(s)
  }

  lemma {:induction false} BelowRaised(starts: seq<Start>, low: int, high: int)
    requires Below(starts, low) && low <= high
    ensures Below(starts, high)
  {
  }

  lemma {:induction false} PostKeepsInv(s: LifeState, connected: bool, hasCallback: bool)
    requires PendingOk(s.(pending := None)) && TasksOk(s) && BarrierOk(s) && StartsBehind(s.(pending := None))
    requires connected ==> s.gate.ready
    ensures LifeInv(Post(s, connected, hasCallback))
  {
    BelowRaised(s.tally.starts, s.tally.posted, s.tally.posted + 1);
  }

  lemma {:induction false} OwnerStepKeepsInv(s: LifeState, e: OwnerEvent)
    requires LifeInv(s) && OwnerEnabled(s, e)
    ensures LifeInv(OwnerStep(s, e))
  {
    match e
    case EvBegin(replace, preserve, direct) =>
    case EvHold =>
    case EvRelease =>
    case EvLock =>
    case EvUnlock =>
    case EvConnected(token, success, hasCallback) =>
      if token == s.token && success {
        PostKeepsInv(s.(gate := Gate(true, false)), true, hasCallback);
      }
    case EvDisconnected(token, hasCallback, spare) =>
      if token == s.token {
        PostKeepsInv(s.(hook := CancelObsolete(s.hook, spare), gate := Gate(false, false)), false, hasCallback);
      }
    case EvRetire(token, spare) =>
  }

  /** At the loop head no hook is left and whoever closed the gate is still pending or retiring. */
  lemma {:induction false} LoopHeadKeepsInv(s: LifeState)
    requires PendingOk(s) && BarrierOk(s) && StartsBehind(s)
    requires s.hook.NoHook? && s.tally.hooks == 0 && s.tally.workers == 1
    requires !s.gate.ready ==> s.gate.retiring || (s.pending.Some? && !s.pending.value.connected)
    ensures LifeInv(LoopHead(s))
  {
  }

  lemma {:induction false} FinishKeepsInv(s: LifeState, event: Note)
    requires PendingOk(s) && BarrierOk(s) && StartsBehind(s)
    requires s.hook.NoHook? && s.tally.hooks == 0 && s.tally.workers == 1
    requires !s.gate.ready ==> s.gate.retiring || (s.pending.Some? && !s.pending.value.connected)
                               || (!event.connected && event.token == s.token)
    ensures LifeInv(Finish(s, event))
  {
    if !event.connected && event.token == s.token && s.pending.None? {
      LoopHeadKeepsInv(s.(gate := s.gate.(ready := true)));
    } else {
      LoopHeadKeepsInv(s);
    }
  }

  lemma {:induction false} DispatchKeepsInv(s: LifeState)
    requires LifeInv(s) && s.worker == AtBarrier(Locking)
    ensures LifeInv(Dispatch(s))
  {
    if s.hold.holds > 0 || s.pending.None? {
      LoopHeadKeepsInv(s);
    } else if !s.pending.value.hasCallback {
      FinishKeepsInv(s.(pending := None), s.pending.value);
    }
  }

  lemma {:induction false} WorkerTurnKeepsInv(s: LifeState)
    requires LifeInv(s) && WorkerEnabled(s)
    ensures LifeInv(WorkerTurn(s))
  {
    match s.worker
    case AtBarrier(Starting) => LoopHeadKeepsInv(s);
    case AtBarrier(Parked(_)) =>
    case AtBarrier(Locking) => DispatchKeepsInv(s);
    case Hooking(event) => FinishKeepsInv(s.(hook := NoHook, tally := s.tally.(hooks := s.tally.hooks - 1)), event);
  }

  lemma {:induction false} HookTurnKeepsInv(s: LifeState)
    requires LifeInv(s) && HookEnabled(s)
    ensures LifeInv(HookTurn(s))
  {
  }

  lemma {:induction false} TaskStepKeepsInv(s: LifeState, e: TaskEvent)
    requires LifeInv(s) && TaskEnabled(s, e)
    ensures LifeInv(TaskStep(s, e))
  {
    match e
    case EvWorker => WorkerTurnKeepsInv(s);
    case EvHook => HookTurnKeepsInv(s);
  }

  lemma {:induction false} LifeStepKeepsInv(s: LifeState, e: LifeEvent)
    requires LifeInv(s) && LifeEnabled(s, e)
    ensures LifeInv(LifeStep(s, e))
  {
    match e
    case Owner(o) => OwnerStepKeepsInv(s, o);
    case Own(t) => TaskStepKeepsInv(s, t);
  }

  lemma {:induction false} LifeRunKeepsInv(s: LifeState, es: seq<LifeEvent>)
    requires LifeInv(s) && IsLifeRun(s, es)
    ensures LifeInv(LifeRun(s, es))
    decreases |es|
  {
    if es != [] {
      LifeStepKeepsInv(s, es[0]);
      LifeRunKeepsInv(LifeStep(s, es[0]), es[1..]);
    }
  }

  /**
    In every state of every run: the gate is closed only while somebody is
    responsible for opening it, a pending notification has a live worker, at
    most one worker and one hook exist, and every user callback began under the
    token current at that moment, in posting order, never twice.
   */
  lemma {:induction false} EveryLifeRun(es: seq<LifeEvent>)
    requires IsLifeRun(InitLife(), es)
    ensures LifeInv(LifeRun(InitLife(), es))
  {
    assert LifeInv(InitLife());
    LifeRunKeepsInv(InitLife(), es);
  }

  // ---- the gate opens again ----

  function BarrierRank(b: Barrier): nat {
    match b
    case Parked(woken) => if woken then 2 else 0
    case Locking => 1
    case Starting => 3
  }

  function StageRank(st: Stage): nat {
    match st
    case Ended => 0
    case Calling => 1
    case Pre(b) => 2 + BarrierRank(b)
  }

  /** How many turns the worker and its hook have left without a new transition. */
  function TurnsLeft(s: LifeState): nat {
    (if s.pending.Some? then 10 else 0)
    + (match s.worker
       case Absent => 0
       case AtBarrier(b) => 1 + BarrierRank(b)
       case Hooking(_) => 5 + (if s.hook.Hook? then StageRank(s.hook.stage) else 0))
  }

  lemma {:induction false} TurnsRunOut(s: LifeState, e: TaskEvent)
    requires LifeInv(s) && TaskEnabled(s, e)
    ensures TurnsLeft(TaskStep(s, e)) < TurnsLeft(s)
  {
  }

  /** Whoever holds no turn any more has nothing to do: unheld, the worker is gone and the gate is open or retiring. */
  lemma {:induction false} QuietMeansOpen(s: LifeState)
    requires LifeInv(s) && s.hold.holds == 0 && !s.hold.locked
    requires !WorkerEnabled(s) && !HookEnabled(s)
    ensures s.pending.None? && s.worker.Absent? && s.hook.NoHook?
    ensures s.gate.ready || s.gate.retiring
  {
  }

  predicate OnlyTasks(es: seq<LifeEvent>) {
    forall i :: 0 <= i < |es| ==> es[i].Own?
  }

  /** Between two outside transitions the tasks take finitely many turns, however they are scheduled. */
  lemma {:induction false} TaskRunsAreFinite(s: LifeState, es: seq<LifeEvent>)
    requires LifeInv(s) && IsLifeRun(s, es) && OnlyTasks(es)
    ensures |es| + TurnsLeft(LifeRun(s, es)) <= TurnsLeft(s)
    decreases |es|
  {
    if es != [] {
      assert es[0].Own?;
      LifeStepKeepsInv(s, es[0]);
      TurnsRunOut(s, es[0].t);
      TaskRunsAreFinite(LifeStep(s, es[0]), es[1..]);
    }
  }

  /** With no hold and no retirement open, undisturbed tasks that have run out of turns leave the gate open. */
  lemma {:induction false} GateNeverSticks(s: LifeState, es: seq<LifeEvent>)
    requires LifeInv(s) && s.hold.holds == 0 && !s.hold.locked && !s.gate.retiring
    requires IsLifeRun(s, es) && OnlyTasks(es)
    requires !WorkerEnabled(LifeRun(s, es)) && !HookEnabled(LifeRun(s, es))
    ensures LifeRun(s, es).gate.ready && LifeRun(s, es).pending.None?
  {
    LifeRunKeepsInv(s, es);
    TasksLeaveHolds(s, es);
    QuietMeansOpen(LifeRun(s, es));
  }

  lemma {:induction false} TasksLeaveHolds(s: LifeState, es: seq<LifeEvent>)
    requires IsLifeRun(s, es) && OnlyTasks(es)
    ensures LifeRun(s, es).hold == s.hold && LifeRun(s, es).gate.retiring == s.gate.retiring
    ensures LifeRun(s, es).token == s.token
    decreases |es|
  {
    if es != [] {
      assert es[0].Own?;
      TasksLeaveHolds(LifeStep(s, es[0]), es[1..]);
    }
  }

  // ---- superseded notifications ----

  ghost predicate NotStarted(starts: seq<Start>, serial: nat) {
    forall i :: 0 <= i < |starts| ==> starts[i].event.serial != serial
  }

  /** Notification `serial` was posted, has not reached the user, and has no way left to. */
  ghost predicate Withdrawn(s: LifeState, serial: nat) {
    && serial < s.tally.posted && NotStarted(s.tally.starts, serial)
    && (s.pending.Some? ==> s.pending.value.serial != serial)
    && (s.hook.Hook? && s.hook.stage.Pre? && s.hook.event.serial == serial ==>
          s.hook.cancelled || s.hook.event.token < s.token)
  }

  lemma {:induction false} OwnerKeepsWithdrawn(s: LifeState, e: OwnerEvent, serial: nat)
    requires LifeInv(s) && OwnerEnabled(s, e) && Withdrawn(s, serial)
    ensures Withdrawn(OwnerStep(s, e), serial)
  {
    match e
    case EvBegin(replace, preserve, direct) =>
    case EvHold =>
    case EvRelease =>
    case EvLock =>
    case EvUnlock =>
    case EvConnected(token, success, hasCallback) =>
    case EvDisconnected(token, hasCallback, spare) =>
    case EvRetire(token, spare) =>
  }

  lemma {:induction false} TaskKeepsWithdrawn(s: LifeState, e: TaskEvent, serial: nat)
    requires LifeInv(s) && TaskEnabled(s, e) && Withdrawn(s, serial)
    ensures Withdrawn(TaskStep(s, e), serial)
  {
  }

  /** What is withdrawn never reaches the user, in any continuation. */
  lemma {:induction false} WithdrawnForGood(s: LifeState, es: seq<LifeEvent>, serial: nat)
    requires LifeInv(s) && IsLifeRun(s, es) && Withdrawn(s, serial)
    ensures NotStarted(LifeRun(s, es).tally.starts, serial)
    decreases |es|
  {
    if es != [] {
      match es[0] {
        case Owner(o) => OwnerKeepsWithdrawn(s, o, serial);
        case Own(t) => TaskKeepsWithdrawn(s, t, serial);
      }
      LifeStepKeepsInv(s, es[0]);
      WithdrawnForGood(LifeStep(s, es[0]), es[1..], serial);
    }
  }

  /** The transitions that make everything posted before them obsolete. */
  predicate Supersedes(s: LifeState, e: OwnerEvent) {
    match e
    case EvBegin(replace, preserve, _) => replace || !preserve
    case EvDisconnected(token, _, spare) => token == s.token && !spare
    case EvRetire(token, spare) => token == s.token && !spare
    case _ => false
  }

  /**
    A new operation, an external loss or a retirement supersedes every earlier
    notification: none whose callback has not begun by then ever begins.
   */
  lemma {:induction false} SupersededNeverStarts(s: LifeState, e: OwnerEvent, es: seq<LifeEvent>, serial: nat)
    requires LifeInv(s) && OwnerEnabled(s, e) && Supersedes(s, e)
    requires serial < s.tally.posted && NotStarted(s.tally.starts, serial)
    requires IsLifeRun(OwnerStep(s, e), es)
    ensures NotStarted(LifeRun(OwnerStep(s, e), es).tally.starts, serial)
  {
    OwnerStepKeepsInv(s, e);
    assert Withdrawn(OwnerStep(s, e), serial);
    WithdrawnForGood(OwnerStep(s, e), es, serial);
  }

  // ---- the latest notification ----

  /** The notification waits in the slot, sits in a hook that will call, or has been delivered. */
  ghost predicate OnItsWay(s: LifeState, note: Note) {
    && note.hasCallback && note.token == s.token
    && (s.pending == Some(note)
        || (s.hook.Hook? && s.hook.event == note && s.hook.stage.Pre? && !s.hook.cancelled)
        || !NotStarted(s.tally.starts, note.serial))
  }

  lemma {:induction false} TaskKeepsOnItsWay(s: LifeState, e: TaskEvent, note: Note)
    requires LifeInv(s) && TaskEnabled(s, e) && OnItsWay(s, note)
    ensures OnItsWay(TaskStep(s, e), note)
  {
    var t := TaskStep(s, e);
    if !NotStarted(s.tally.starts, note.serial) {
      var i :| 0 <= i < |s.tally.starts| && s.tally.starts[i].event.serial == note.serial;
      assert t.tally.starts[i] == s.tally.starts[i];
    } else if |t.tally.starts| > |s.tally.starts| && s.pending != Some(note) {
      assert t.tally.starts[|s.tally.starts|].event == s.hook.event;
    }
  }

  lemma {:induction false} TasksKeepOnItsWay(s: LifeState, es: seq<LifeEvent>, note: Note)
    requires LifeInv(s) && IsLifeRun(s, es) && OnlyTasks(es) && OnItsWay(s, note)
    ensures OnItsWay(LifeRun(s, es), note)
    decreases |es|
  {
    if es != [] {
      assert es[0].Own?;
      TaskKeepsOnItsWay(s, es[0].t, note);
      LifeStepKeepsInv(s, es[0]);
      TasksKeepOnItsWay(LifeStep(s, es[0]), es[1..], note);
    }
  }

  /** A pending notification with a callback reaches the user, once the tasks are left to themselves without a hold. */
  lemma {:induction false} LatestReachesUser(s: LifeState, es: seq<LifeEvent>, note: Note)
    requires LifeInv(s) && s.hold.holds == 0 && !s.hold.locked && s.pending == Some(note) && note.hasCallback
    requires IsLifeRun(s, es) && OnlyTasks(es)
    requires !WorkerEnabled(LifeRun(s, es)) && !HookEnabled(LifeRun(s, es))
    ensures !NotStarted(LifeRun(s, es).tally.starts, note.serial)
  {
    LifeRunKeepsInv(s, es);
    TasksLeaveHolds(s, es);
    TasksKeepOnItsWay(s, es, note);
    QuietMeansOpen(LifeRun(s, es));
  }
}
