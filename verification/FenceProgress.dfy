/** The reader that waits at its fence is never stranded there. */
module FenceProgress {
  import opened Options
  import opened DrainRegistry
  import opened ProtocolFence

  /** While a lot waits for the protocol lane, the drain it waits in is registered. */
  ghost predicate Held(s: Sys) {
    s.lane.active.Fencing? ==> s.fence.Some? && Registered(s.pump.drains.waiters, s.fence.value)
  }

  // ---- the joint steps ----

  lemma {:induction false} BeginHeld(s: Sys, budget: nat, raises: bool)
    requires SysEnabled(s, EvBeginLot(budget, raises))
    ensures Held(BeginLot(s, budget, raises))
  {
    var lot := s.lane.lots[0];
    if lot.epoch == s.pump.epoch {
      var t := P.DrainInline(s.pump, Some(lot.target), budget, raises);
      InlineSame(s.pump, Some(lot.target), budget, raises);
      AppendRegistered(t.drains.waiters, P.Waiter(t.drains.nextId, lot.target, false), t.drains.nextId);
    }
  }

  lemma {:induction false} FenceTurnHeld(s: Sys, i: nat)
    requires Held(s) && SysEnabled(s, EvFenceTurn(i))
    ensures Held(FenceTurn(s, i))
  {
    var ws := s.pump.drains.waiters;
    if P.ExitOf(s.pump, ws[i]).ParksAgain? {
      AppendRegistered(ws[..i] + ws[i + 1..], P.Waiter(ws[i].id, ws[i].target, false), ws[i].id);
    }
  }

  lemma {:induction false} SysStepKeepsHeld(s: Sys, e: SysEvent)
    requires Held(s) && SysEnabled(s, e)
    ensures Held(SysStep(s, e))
  {
    match e
    case EvBatch(effects, inline) =>
      if s.lane.active.Fencing? {
        StepKeepsRegistered(s.pump, P.EvCollect(effects, inline), s.fence.value);
      }
    case EvRetire(epoch) =>
    case EvTakeCarryover =>
    case EvBeginLot(budget, raises) => BeginHeld(s, budget, raises);
    case EvFenceTurn(i) => FenceTurnHeld(s, i);
    case EvFenceCancelled(i) =>
    case EvPump(p) =>
      if s.lane.active.Fencing? {
        StepKeepsRegistered(s.pump, p, s.fence.value);
      }
    case EvReader(r) =>
  }

  lemma {:induction false} SysRunKeepsHeld(s: Sys, es: seq<SysEvent>)
    requires Held(s) && IsSysRun(s, es)
    ensures Held(SysRun(s, es))
    decreases |es|
  {
    if es != [] {
      SysStepKeepsHeld(s, es[0]);
      SysRunKeepsHeld(SysStep(s, es[0]), es[1..]);
    }
  }

  /** Exactly one drain is the reader's, it is for the reader's lot, and somebody works for it or has woken it. */
  ghost predicate ReaderServed(s: Sys) {
    s.lane.active.Fencing? ==>
      exists i ::
        && 0 <= i < |s.pump.drains.waiters| && IsFenceWaiter(s, i)
        && s.pump.drains.waiters[i].target == s.lane.active.lot.target
        && (s.pump.drains.waiters[i].woken || P.Live(s.pump.flush.task))
        && forall j :: 0 <= j < |s.pump.drains.waiters| && IsFenceWaiter(s, j) ==> j == i
  }

  lemma {:induction false} HeldIsServed(s: Sys)
    requires SysInv(s) && Held(s)
    ensures ReaderServed(s)
  {
    if s.lane.active.Fencing? {
      var ws := s.pump.drains.waiters;
      var i :| 0 <= i < |ws| && ws[i].id == s.fence.value;
      assert IsFenceWaiter(s, i);
      assert Q.WaiterOk(ws[i], s.pump.drains, s.pump.queue, P.Live(s.pump.flush.task));
      forall j | 0 <= j < |ws| && IsFenceWaiter(s, j)
        ensures j == i
      {
      }
    }
  }

  /** In every run of both lanes, a reader at its fence is served by exactly one drain. */
  lemma {:induction false} ReaderNeverStranded(epoch: int, iteratorMode: bool, es: seq<SysEvent>)
    requires IsSysRun(InitSys(epoch, iteratorMode), es)
    ensures ReaderServed(SysRun(InitSys(epoch, iteratorMode), es))
  {
    InitSysInv(epoch, iteratorMode);
    SysRunKeepsInv(InitSys(epoch, iteratorMode), es);
    SysRunKeepsHeld(InitSys(epoch, iteratorMode), es);
    HeldIsServed(SysRun(InitSys(epoch, iteratorMode), es));
  }
}
