/**
  The lifecycle object. Every public method is a transition of `LifecycleModel`
  and keeps `Valid()`, the invariant of `LifecycleProofs`.
 */
module LifecycleHooksObject {
  import opened Options
  import opened LifecycleModel
  import opened LifecycleProofs

  class LifecycleHooks {
    var token: int
    var pending: Option<Note>
    var gate: Gate
    var hold: Hold
    var worker: Worker
    var hook: Hook
    ghost var tally: Tally

    ghost function View(): LifeState
      reads this
    {
      LifeState(token, pending, gate, hold, worker, hook, tally)
    }

    ghost predicate Valid()
      reads this
    {
      LifeInv(View())
    }

    constructor ()
      ensures Valid() && View() == InitLife()
    {
      token, pending := 0, None;
      gate, hold := Gate(true, false), Hold(0, true, false);
      worker, hook := Absent, NoHook;
      tally := Tally(0, [], 0, 0);
    }

    method CancelObsoleteHook(spare: bool)
      modifies this`hook
      ensures hook == CancelObsolete(old(hook), spare)
    {
      if hook.Hook? && !spare && !hook.stage.Ended? && !hook.cancelled {
        hook := Hook(hook.event, hook.stage, true);
      }
    }

    /**
      A new operation. `direct`: the caller is the running hook itself, which is
      then spared. Unless a hook is preserved on the same connection, nothing
      posted before that has not begun can ever reach the user.
     */
    method Begin(replace: bool, preserve: bool, direct: bool)
      requires Valid() && (direct ==> hook.Hook? && hook.stage.Calling?)
      modifies this`token, this`pending, this`gate, this`hook
      ensures Valid() && View() == BeginOperation(old(View()), replace, preserve, direct)
      ensures gate.ready && pending.None?
      ensures replace || !preserve ==>
                forall n: nat | n < tally.posted && NotStarted(tally.starts, n) :: Withdrawn(View(), n)
    {
      OwnerStepKeepsInv(View(), EvBegin(replace, preserve, direct));
      SupersedesEarlier(View(), EvBegin(replace, preserve, direct));
      Supersede(replace, preserve, direct);
    }

    method Supersede(replace: bool, preserve: bool, direct: bool)
      modifies this`token, this`pending, this`gate, this`hook
      ensures View() == BeginOperation(old(View()), replace, preserve, direct)
    {
      if replace {
        token := token + 1;
      }
      pending := None;
      gate := Gate(true, false);
      if !preserve {
        CancelObsoleteHook(direct);
      }
    }

    method AddHold()
      requires Valid()
      modifies this`hold
      ensures Valid() && hold == TakeHold(old(hold)) && !hold.released
    {
      OwnerStepKeepsInv(View(), EvHold);
      hold := hold.(holds := hold.holds + 1);
      hold := hold.(released := false);
    }

    /** After the last release nobody sleeps at the barrier. */
    method DropHold()
      requires Valid() && hold.holds > 0
      modifies this`hold, this`worker, this`hook
      ensures Valid() && View() == ReleaseHold(old(View()))
      ensures hold.holds == 0 ==>
                worker != AtBarrier(Parked(false)) && (hook.Hook? ==> hook.stage != Pre(Parked(false)))
    {
      OwnerStepKeepsInv(View(), EvRelease);
      hold := hold.(holds := hold.holds - 1);
      if hold.holds == 0 {
        hold := hold.(released := true);
        worker := WakeWorker(worker);
        hook := WakeHook(hook);
      }
    }

    /** The owner's lock is taken or given back. */
    method SetLocked(locked: bool)
      requires Valid() && hold.locked != locked
      modifies this`hold
      ensures Valid() && hold == old(hold).(locked := locked)
    {
      OwnerStepKeepsInv(View(), if locked then EvLock else EvUnlock);
      hold := hold.(locked := locked);
    }

    method EnsureWorker()
      modifies this`worker, this`tally
      ensures worker == (if old(worker).Absent? then AtBarrier(Starting) else old(worker))
      ensures tally == (if old(worker).Absent? then old(tally).(workers := old(tally).workers + 1) else old(tally))
    {
      if worker.Absent? {
        worker := AtBarrier(Starting);
        tally := tally.(workers := tally.workers + 1);
      }
    }

    /**
      A connection was made; `serial` stands for the packet it carries. A current
      success opens the gate and is on its way to the user, anything else is
      ignored.
     */
    method NotifyConnected(now: int, success: bool, hasCallback: bool, serial: nat)
      requires Valid() && serial == tally.posted
      modifies this`pending, this`gate, this`worker, this`tally
      ensures Valid() && View() == Connected(old(View()), now, success, hasCallback)
      ensures now == token && success && hasCallback ==> OnItsWay(View(), Note(now, true, hasCallback, serial))
      ensures now == token && success ==> gate == Gate(true, false) && !worker.Absent?
      ensures now != token || !success ==> View() == old(View())
    {
      OwnerStepKeepsInv(View(), EvConnected(now, success, hasCallback));
      PostConnected(now, success, hasCallback, serial);
    }

    method PostConnected(now: int, success: bool, hasCallback: bool, serial: nat)
      requires serial == tally.posted
      modifies this`pending, this`gate, this`worker, this`tally
      ensures View() == Connected(old(View()), now, success, hasCallback)
    {
      if now != token || !success {
        return;
      }
      gate := Gate(true, false);
      pending := Some(Note(now, true, hasCallback, serial));
      tally := tally.(posted := tally.posted + 1);
      EnsureWorker();
    }

    /** A current loss closes the gate until it is handled; unless it spares the hook, it supersedes all before. */
    method NotifyDisconnected(now: int, hasCallback: bool, spare: bool, serial: nat)
      requires Valid() && serial == tally.posted
      modifies this`pending, this`gate, this`worker, this`hook, this`tally
      ensures Valid() && View() == Disconnected(old(View()), now, hasCallback, spare)
      ensures now == token ==> !gate.ready && !worker.Absent? && pending == Some(Note(now, false, hasCallback, serial))
      ensures now == token && !spare ==>
                forall n: nat | n < serial && NotStarted(tally.starts, n) :: Withdrawn(View(), n)
      ensures now != token ==> View() == old(View())
    {
      OwnerStepKeepsInv(View(), EvDisconnected(now, hasCallback, spare));
      SupersedesEarlier(View(), EvDisconnected(now, hasCallback, spare));
      PostDisconnected(now, hasCallback, spare, serial);
    }

    method PostDisconnected(now: int, hasCallback: bool, spare: bool, serial: nat)
      requires serial == tally.posted
      modifies this`pending, this`gate, this`worker, this`hook, this`tally
      ensures View() == Disconnected(old(View()), now, hasCallback, spare)
    {
      if now != token {
        return;
      }
      CancelObsoleteHook(spare);
      gate := Gate(false, false);
      pending := Some(Note(now, false, hasCallback, serial));
      tally := tally.(posted := tally.posted + 1);
      EnsureWorker();
    }

    /** The current connection retires: retries wait, and unless it spares the hook all before is superseded. */
    method Retiring(now: int, spare: bool)
      requires Valid()
      modifies this`pending, this`gate, this`hook
      ensures Valid() && View() == Retire(old(View()), now, spare)
      ensures now == token ==> !gate.ready && pending.None?
      ensures now == token && !spare ==>
                forall n: nat | n < tally.posted && NotStarted(tally.starts, n) :: Withdrawn(View(), n)
    {
      OwnerStepKeepsInv(View(), EvRetire(now, spare));
      SupersedesEarlier(View(), EvRetire(now, spare));
      CloseGate(now, spare);
    }

    method CloseGate(now: int, spare: bool)
      modifies this`pending, this`gate, this`hook
      ensures View() == Retire(old(View()), now, spare)
    {
      if now == token {
        pending := None;
        gate := Gate(false, true);
        CancelObsoleteHook(spare);
      }
    }

    /** The worker's loop condition, up to its next suspension. */
    method NextRound()
      modifies this`worker, this`tally
      ensures View() == LoopHead(old(View()))
    {
      if pending.Some? {
        worker := AtBarrier(if hold.released then Locking else Parked(false));
      } else {
        worker := Absent;
        tally := tally.(workers := tally.workers - 1);
      }
    }

    method FinishEvent(event: Note)
      modifies this`gate, this`worker, this`tally
      ensures View() == Finish(old(View()), event)
    {
      if !event.connected && event.token == token && pending.None? {
        gate := Gate(true, gate.retiring);
      }
      NextRound();
    }

    /** One turn of the worker: it calls nobody itself, starts at most one hook, and comes closer to being idle. */
    method RunWorker()
      requires Valid() && WorkerEnabled(View())
      modifies this`pending, this`gate, this`worker, this`hook, this`tally
      ensures Valid() && View() == WorkerTurn(old(View()))
      ensures tally.starts == old(tally).starts && TurnsLeft(View()) < TurnsLeft(old(View()))
    {
      WorkerTurnKeepsInv(View());
      TurnsRunOut(View(), EvWorker);
      TakeWorkerTurn();
    }

    method TakeWorkerTurn()
      requires WorkerEnabled(View())
      modifies this`pending, this`gate, this`worker, this`hook, this`tally
      ensures View() == WorkerTurn(old(View()))
      ensures tally.starts == old(tally).starts
    {
      match worker {
        case AtBarrier(Starting) => NextRound();
        case AtBarrier(Parked(_)) => worker := AtBarrier(Locking);
        case AtBarrier(Locking) =>
          if hold.holds > 0 || pending.None? {
            NextRound();
            return;
          }
          var event := pending.value;
          pending := None;
          if event.token != token {
            NextRound();
            return;
          }
          if !event.hasCallback {
            FinishEvent(event);
            return;
          }
          worker := Hooking(event);
          hook := Hook(event, Pre(Starting), false);
          tally := tally.(hooks := tally.hooks + 1);
        case Hooking(event) =>
          hook := NoHook;
          tally := tally.(hooks := tally.hooks - 1);
          FinishEvent(event);
      }
    }

    /** One turn of the hook: it calls the user only for a current event that was not cancelled, once, and in order. */
    method RunHook()
      requires Valid() && HookEnabled(View())
      modifies this`gate, this`hook, this`tally
      ensures Valid() && View() == HookTurn(old(View())) && TurnsLeft(View()) < TurnsLeft(old(View()))
      ensures tally.starts == old(tally).starts
              || (&& tally.starts == old(tally).starts + [Start(old(hook).event, token, hold.holds > 0)]
                  && old(hook).event.token == token && !old(hook).cancelled
                  && NotStarted(old(tally).starts, old(hook).event.serial))
    {
      HookTurnKeepsInv(View());
      TurnsRunOut(View(), EvHook);
      TakeHookTurn();
    }

    method TakeHookTurn()
      requires HookEnabled(View())
      modifies this`gate, this`hook, this`tally
      ensures View() == HookTurn(old(View()))
    {
      var event, stage, cancelled := hook.event, hook.stage, hook.cancelled;
      if stage.Calling? || cancelled {
        hook := Hook(event, Ended, cancelled);
        return;
      }
      match stage.b {
        case Starting => hook := Hook(event, Pre(if hold.released then Locking else Parked(false)), false);
        case Parked(_) => hook := Hook(event, Pre(Locking), false);
        case Locking =>
          if event.token != token {
            hook := Hook(event, Ended, false);
            return;
          }
          if !event.connected {
            gate := Gate(true, gate.retiring);
          }
          hook := Hook(event, Calling, false);
          tally := tally.(starts := tally.starts + [Start(event, token, hold.holds > 0)]);
      }
    }
  }
  lemma {:induction false} SupersedesEarlier(s: LifeState, e: OwnerEvent)
    requires LifeInv(s) && OwnerEnabled(s, e)
    ensures Supersedes(s, e) ==>
              forall n: nat | n < s.tally.posted && NotStarted(s.tally.starts, n) :: Withdrawn(OwnerStep(s, e), n)
  {
  }
}
