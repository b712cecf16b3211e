/** Exactly when a retirement keeps the gate closed, and exactly when a hold keeps callbacks out. */
module LifecycleWindows {
  import opened LifecycleModel
  import opened LifecycleProofs

  // ---- runs ----

  lemma {:induction false} RunConcat(s: LifeState, a: seq<LifeEvent>, b: seq<LifeEvent>)
    requires IsLifeRun(s, a) && IsLifeRun(LifeRun(s, a), b)
    ensures IsLifeRun(s, a + b) && LifeRun(s, a + b) == LifeRun(LifeRun(s, a), b)
    decreases |a|
  {
    if a == [] {
      assert a + b == b;
    } else {
      assert (a + b)[1..] == a[1..] + b;
      RunConcat(LifeStep(s, a[0]), a[1..], b);
    }
  }

  lemma {:induction false} RunOne(s: LifeState, e: LifeEvent)
    requires LifeEnabled(s, e)
    ensures IsLifeRun(s, [e]) && LifeRun(s, [e]) == LifeStep(s, e)
  {
    var es := [e];
    assert es[1..] == [];
    assert LifeRun(s, es) == LifeRun(LifeStep(s, e), es[1..]);
  }

  lemma {:induction false} RunSnoc(s: LifeState, es: seq<LifeEvent>, e: LifeEvent)
    requires IsLifeRun(s, es) && LifeEnabled(LifeRun(s, es), e)
    ensures IsLifeRun(s, es + [e]) && LifeRun(s, es + [e]) == LifeStep(LifeRun(s, es), e)
  {
    RunOne(LifeRun(s, es), e);
    RunConcat(s, es, [e]);
  }

  /** Turns of the tasks, releases and unlocks: nothing of this retires a token or takes a hold. */
  predicate Quiet(es: seq<LifeEvent>) {
    forall i :: 0 <= i < |es| ==> es[i].Own? || es[i] == Owner(EvRelease) || es[i] == Owner(EvUnlock)
  }

  /** All holds are released, one by one. */
  lemma {:induction false} ReleaseAll(s: LifeState) returns (es: seq<LifeEvent>)
    requires LifeInv(s)
    ensures IsLifeRun(s, es) && Quiet(es) && LifeInv(LifeRun(s, es))
    ensures var t := LifeRun(s, es);
            && t.hold == Hold(0, true, s.hold.locked) && t.gate == s.gate && t.token == s.token && t.tally == s.tally
            && (t.hook == s.hook || t.hook == WakeHook(s.hook))
    decreases s.hold.holds
  {
    if s.hold.holds == 0 {
      es := [];
    } else {
      LifeStepKeepsInv(s, Owner(EvRelease));
      var rest := ReleaseAll(ReleaseHold(s));
      es := [Owner(EvRelease)] + rest;
      assert es[1..] == rest;
    }
  }

  lemma {:induction false} FreeLock(s: LifeState) returns (es: seq<LifeEvent>)
    requires LifeInv(s)
    ensures IsLifeRun(s, es) && Quiet(es) && LifeInv(LifeRun(s, es))
    ensures LifeRun(s, es) == s.(hold := s.hold.(locked := false))
  {
    if s.hold.locked {
      LifeStepKeepsInv(s, Owner(EvUnlock));
      RunOne(s, Owner(EvUnlock));
      es := [Owner(EvUnlock)];
    } else {
      es := [];
    }
  }

  /** The hook waits for nobody but the lock. */
  predicate Clear(h: Hook, released: bool) {
    && h.Hook? && h.stage.Pre? && !h.cancelled
    && match h.stage.b
       case Starting => released
       case Parked(woken) => woken
       case Locking => true
  }

  lemma {:induction false} CallNow(s: LifeState)
    requires s.hook.Hook? && s.hook.stage == Pre(Locking) && !s.hook.cancelled && s.hook.event.token == s.token
    requires !s.hold.locked
    ensures var t := HookTurn(s);
            && HookEnabled(s) && t.hold == s.hold && t.gate.retiring == s.gate.retiring
            && t.tally.starts == s.tally.starts + [Start(s.hook.event, s.token, s.hold.holds > 0)]
            && (!s.hook.event.connected ==> t.gate.ready)
  {
  }

  /** With the lock free it calls the user, whatever the holds are by then. */
  lemma {:induction false} HookCalls(s: LifeState) returns (es: seq<LifeEvent>)
    requires Clear(s.hook, s.hold.released) && s.hook.event.token == s.token && !s.hold.locked
    ensures IsLifeRun(s, es) && Quiet(es)
    ensures var t := LifeRun(s, es);
            && t.gate.retiring == s.gate.retiring
            && t.tally.starts == s.tally.starts + [Start(s.hook.event, s.token, s.hold.holds > 0)]
            && (!s.hook.event.connected ==> t.gate.ready)
  {
    if s.hook.stage.b.Locking? {
      CallNow(s);
      RunOne(s, Own(EvHook));
      es := [Own(EvHook)];
    } else {
      var t := HookTurn(s);
      RunOne(s, Own(EvHook));
      CallNow(t);
      RunSnoc(s, [Own(EvHook)], Own(EvHook));
      es := [Own(EvHook)] + [Own(EvHook)];
    }
  }

  // ---- the gate during a retirement ----

  /** The promise: while a connection retires, its gate is closed. */
  predicate GateShut(g: Gate) {
    g.retiring ==> !g.ready
  }

  /** What keeps it: no disconnect of the retiring token is being handled or pending. */
  ghost predicate WindowClosed(s: LifeState) {
    s.gate.retiring ==> !s.gate.ready && !HandlingDisconnect(s.worker, s.token) && s.pending.None?
  }

  /** The one call that can hurt: retiring a token whose disconnect the worker is still handling. */
  predicate RetireEarly(s: LifeState, e: LifeEvent) {
    e.Owner? && e.o.EvRetire? && e.o.token == s.token && HandlingDisconnect(s.worker, s.token)
  }

  lemma {:induction false} WindowStep(s: LifeState, e: LifeEvent)
    requires LifeInv(s) && LifeEnabled(s, e) && WindowClosed(s) && !RetireEarly(s, e)
    ensures WindowClosed(LifeStep(s, e))
  {
  }

  predicate RetiresInTurn(s: LifeState, es: seq<LifeEvent>)
    requires IsLifeRun(s, es)
    decreases |es|
  {
    es == [] || (!RetireEarly(s, es[0]) && RetiresInTurn(LifeStep(s, es[0]), es[1..]))
  }

  lemma {:induction false} QuietInTurn(s: LifeState, es: seq<LifeEvent>)
    requires IsLifeRun(s, es) && Quiet(es)
    ensures RetiresInTurn(s, es) && HoldsInTime(s, es)
    decreases |es|
  {
    if es != [] {
      assert es[0].Own? || es[0] == Owner(EvRelease) || es[0] == Owner(EvUnlock);
      QuietInTurn(LifeStep(s, es[0]), es[1..]);
    }
  }

  /** In a run that never retires a token whose disconnect is being handled, the gate is closed in every retirement. */
  lemma {:induction false} WindowHolds(s: LifeState, es: seq<LifeEvent>)
    requires LifeInv(s) && WindowClosed(s) && IsLifeRun(s, es) && RetiresInTurn(s, es)
    ensures GateShut(LifeRun(s, es).gate)
    decreases |es|
  {
    if es != [] {
      WindowStep(s, es[0]);
      LifeStepKeepsInv(s, es[0]);
      WindowHolds(LifeStep(s, es[0]), es[1..]);
    }
  }

  /** The worker finishes the disconnect in hand: nothing is pending, so it opens the gate. */
  lemma {:induction false} WorkerOpens(s: LifeState)
    requires LifeInv(s) && HandlingDisconnect(s.worker, s.token) && s.hook.stage.Ended? && s.pending.None?
    ensures WorkerEnabled(s) && WorkerTurn(s).gate == Gate(true, s.gate.retiring)
  {
  }

  /** A disconnect in hand whose hook has called, or will not call, any more. */
  lemma {:induction false} EndedOpens(s: LifeState) returns (es: seq<LifeEvent>)
    requires LifeInv(s) && HandlingDisconnect(s.worker, s.token) && s.pending.None?
    requires s.hook.stage.Pre? ==> s.hook.cancelled
    ensures IsLifeRun(s, es) && Quiet(es) && LifeRun(s, es).gate == Gate(true, s.gate.retiring)
  {
    if s.hook.stage.Ended? {
      WorkerOpens(s);
      RunOne(s, Own(EvWorker));
      es := [Own(EvWorker)];
    } else {
      var t := HookTurn(s);
      LifeStepKeepsInv(s, Own(EvHook));
      RunOne(s, Own(EvHook));
      WorkerOpens(t);
      RunSnoc(s, [Own(EvHook)], Own(EvWorker));
      es := [Own(EvHook)] + [Own(EvWorker)];
    }
  }

  /** And one whose hook is still to call: it opens the gate itself when it does. */
  lemma {:induction false} WaitingOpens(s: LifeState) returns (es: seq<LifeEvent>)
    requires LifeInv(s) && HandlingDisconnect(s.worker, s.token) && s.hook.stage.Pre? && !s.hook.cancelled
    ensures IsLifeRun(s, es) && Quiet(es)
    ensures LifeRun(s, es).gate.ready && LifeRun(s, es).gate.retiring == s.gate.retiring
  {
    var a := ReleaseAll(s);
    var t := LifeRun(s, a);
    var b := FreeLock(t);
    var u := LifeRun(t, b);
    var c := HookCalls(u);
    RunConcat(s, a, b);
    RunConcat(s, a + b, c);
    es := a + b + c;
  }

  /** Every early retirement reopens the gate inside its window in some quiet continuation. */
  lemma {:induction false} EarlyRetireOpensGate(s: LifeState, spare: bool) returns (es: seq<LifeEvent>)
    requires LifeInv(s) && HandlingDisconnect(s.worker, s.token)
    ensures var t := Retire(s, s.token, spare); IsLifeRun(t, es) && Quiet(es) && !GateShut(LifeRun(t, es).gate)
  {
    var t := Retire(s, s.token, spare);
    OwnerStepKeepsInv(s, EvRetire(s.token, spare));
    if t.hook.stage.Pre? && !t.hook.cancelled {
      es := WaitingOpens(t);
    } else {
      es := EndedOpens(t);
    }
  }

  /** The gate is shut in every retirement, in every continuation that retires in turn. */
  ghost predicate ShutFrom(s: LifeState) {
    forall es :: IsLifeRun(s, es) && RetiresInTurn(s, es) ==> GateShut(LifeRun(s, es).gate)
  }

  /** A step keeps that promise for good exactly when it is no early retirement. */
  lemma {:induction false} WindowExact(s: LifeState, e: LifeEvent)
    requires LifeInv(s) && LifeEnabled(s, e) && WindowClosed(s)
    ensures ShutFrom(LifeStep(s, e)) <==> !RetireEarly(s, e)
  {
    var t := LifeStep(s, e);
    if RetireEarly(s, e) {
      var es := EarlyRetireOpensGate(s, e.o.spare);
      QuietInTurn(t, es);
    } else {
      WindowStep(s, e);
      LifeStepKeepsInv(s, e);
      forall es | IsLifeRun(t, es) && RetiresInTurn(t, es)
        ensures GateShut(LifeRun(t, es).gate)
      {
        WindowHolds(t, es);
      }
    }
  }

  // ---- holds and callbacks ----

  /** The worker itself takes nothing while a hold is in force. */
  lemma {:induction false} HeldWorkerTakesNothing(s: LifeState)
    requires LifeInv(s) && WorkerEnabled(s) && s.hold.holds > 0
    ensures WorkerTurn(s).pending == s.pending && (WorkerTurn(s).hook == s.hook || WorkerTurn(s).hook.NoHook?)
  {
  }

  /** The promise: no callback begins while a hold is in force. */
  ghost predicate NoHeldStart(starts: seq<Start>) {
    forall i :: 0 <= i < |starts| ==> !starts[i].held
  }

  /** The hook no longer waits for the holds and will call the user unless somebody cancels or replaces it. */
  predicate HookThrough(h: Hook, token: int) {
    h.Hook? && !h.cancelled && h.event.token == token && (h.stage == Pre(Parked(true)) || h.stage == Pre(Locking))
  }

  ghost predicate HoldSafe(s: LifeState) {
    NoHeldStart(s.tally.starts) && (s.hold.holds > 0 ==> !HookThrough(s.hook, s.token))
  }

  predicate HoldsLate(s: LifeState, e: LifeEvent) {
    e.Owner? && e.o.EvHold? && HookThrough(s.hook, s.token)
  }

  lemma {:induction false} HoldStep(s: LifeState, e: LifeEvent)
    requires LifeInv(s) && LifeEnabled(s, e) && HoldSafe(s) && !HoldsLate(s, e)
    ensures HoldSafe(LifeStep(s, e))
  {
  }

  predicate HoldsInTime(s: LifeState, es: seq<LifeEvent>)
    requires IsLifeRun(s, es)
    decreases |es|
  {
    es == [] || (!HoldsLate(s, es[0]) && HoldsInTime(LifeStep(s, es[0]), es[1..]))
  }

  /** No callback begins under a hold in a run that takes no hold while a hook is already through its barrier. */
  lemma {:induction false} HoldsKeepCallbacksOut(s: LifeState, es: seq<LifeEvent>)
    requires LifeInv(s) && HoldSafe(s) && IsLifeRun(s, es) && HoldsInTime(s, es)
    ensures NoHeldStart(LifeRun(s, es).tally.starts)
    decreases |es|
  {
    if es != [] {
      HoldStep(s, es[0]);
      LifeStepKeepsInv(s, es[0]);
      HoldsKeepCallbacksOut(LifeStep(s, es[0]), es[1..]);
    }
  }

  /** Every late hold lets a callback begin under it in some quiet continuation. */
  lemma {:induction false} LateHoldLetsCallbackStart(s: LifeState) returns (es: seq<LifeEvent>)
    requires LifeInv(s) && HookThrough(s.hook, s.token)
    ensures var t := OwnerStep(s, EvHold);
            IsLifeRun(t, es) && Quiet(es) && !NoHeldStart(LifeRun(t, es).tally.starts)
  {
    var t := OwnerStep(s, EvHold);
    OwnerStepKeepsInv(s, EvHold);
    var a := FreeLock(t);
    var u := LifeRun(t, a);
    var b := HookCalls(u);
    RunConcat(t, a, b);
    es := a + b;
    assert LifeRun(t, es).tally.starts[|s.tally.starts|].held;
  }

  ghost predicate UnheldFrom(s: LifeState) {
    forall es :: IsLifeRun(s, es) && HoldsInTime(s, es) ==> NoHeldStart(LifeRun(s, es).tally.starts)
  }

  /** A step keeps callbacks and holds apart for good exactly when it is no late hold. */
  lemma {:induction false} HoldExact(s: LifeState, e: LifeEvent)
    requires LifeInv(s) && LifeEnabled(s, e) && HoldSafe(s)
    ensures UnheldFrom(LifeStep(s, e)) <==> !HoldsLate(s, e)
  {
    var t := LifeStep(s, e);
    if HoldsLate(s, e) {
      var es := LateHoldLetsCallbackStart(s);
      QuietInTurn(t, es);
    } else {
      HoldStep(s, e);
      LifeStepKeepsInv(s, e);
      forall es | IsLifeRun(t, es) && HoldsInTime(t, es)
        ensures NoHeldStart(LifeRun(t, es).tally.starts)
      {
        HoldsKeepCallbacksOut(t, es);
      }
    }
  }

  // ---- both, from the start ----

  /** A disconnect is posted and its hook is created. */
  lemma {:induction false} WitnessHook() returns (es: seq<LifeEvent>)
    ensures IsLifeRun(InitLife(), es)
    ensures var s := LifeRun(InitLife(), es); var note := Note(0, false, true, 0);
            && s.worker == Hooking(note) && s.hook == Hook(note, Pre(Starting), false)
            && s.token == 0 && s.hold == Hold(0, true, false) && s.tally.starts == []
  {
    es := [Owner(EvDisconnected(0, true, false))];
    RunOne(InitLife(), es[0]);
    RunSnoc(InitLife(), es, Own(EvWorker));
    es := es + [Own(EvWorker)];
    RunSnoc(InitLife(), es, Own(EvWorker));
    es := es + [Own(EvWorker)];
  }

  /** From the start: a token is retired while its disconnect is handled, and the gate opens in the window. */
  lemma {:induction false} GateOpensInWindow() returns (es: seq<LifeEvent>)
    ensures IsLifeRun(InitLife(), es) && !GateShut(LifeRun(InitLife(), es).gate)
  {
    var a := WitnessHook();
    var s := LifeRun(InitLife(), a);
    EveryLifeRun(a);
    RunSnoc(InitLife(), a, Owner(EvRetire(0, false)));
    var b := EarlyRetireOpensGate(s, false);
    RunConcat(InitLife(), a + [Owner(EvRetire(0, false))], b);
    es := a + [Owner(EvRetire(0, false))] + b;
  }

  /** From the start: a hold is taken while the hook queues for the owner's lock, and the callback begins under it. */
  lemma {:induction false} CallbackStartsHeld() returns (es: seq<LifeEvent>)
    ensures IsLifeRun(InitLife(), es) && !NoHeldStart(LifeRun(InitLife(), es).tally.starts)
  {
    var a := WitnessHook();
    RunSnoc(InitLife(), a, Owner(EvLock));
    a := a + [Owner(EvLock)];
    RunSnoc(InitLife(), a, Own(EvHook));
    a := a + [Own(EvHook)];
    var s := LifeRun(InitLife(), a);
    EveryLifeRun(a);
    RunSnoc(InitLife(), a, Owner(EvHold));
    var b := LateHoldLetsCallbackStart(s);
    RunConcat(InitLife(), a + [Owner(EvHold)], b);
    es := a + [Owner(EvHold)] + b;
  }
}
