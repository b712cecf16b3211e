/**
  The effect pump object. Every public method is a step of `EffectPumpModel`
  and keeps `Valid()`, the invariant of `EffectPumpProofs`.
 */
module EffectPumpObject {
  import opened Options
  import opened Effects
  import opened EffectPumpModel
  import opened EffectPumpProofs

  class EffectPump {
    /** The owner's connection epoch. */
    var epoch: int
    var queue: Queue
    var drains: Drains
    var flush: Flush
    ghost var ledger: Ledger

    ghost function View(): PumpState
      reads this
    {
      PumpState(epoch, queue, drains, flush, ledger)
    }

    ghost predicate Valid()
      reads this
    {
      PumpInv(View())
    }

    constructor (epoch: int)
      ensures Valid() && View() == InitPump(epoch)
    {
      this.epoch := epoch;
      queue := Queue([], epoch, 0, 0, []);
      drains := Drains([], {}, false, 0);
      flush := Flush(NoTask, false);
      ledger := Ledger([], [], 0, 0, [], []);
      new;
      InitPumpInv(epoch);
    }

    // ---- the lane ----

    method SetProgress()
      modifies this`drains
      ensures drains == Progress(old(drains))
    {
      var ws := drains.waiters;
      var i := 0;
      while i < |ws|
        invariant 0 <= i <= |ws| == |old(drains).waiters|
        invariant forall j :: 0 <= j < i ==> ws[j] == old(drains).waiters[j].(woken := true)
        invariant forall j :: i <= j < |ws| ==> ws[j] == old(drains).waiters[j]
      {
        ws := ws[i := ws[i].(woken := true)];
        i := i + 1;
      }
      assert ws == WakeAll(old(drains).waiters);
      drains := drains.(waiters := ws);
    }

    method ScheduleFlush()
      modifies this`flush
      ensures flush == Schedule(old(flush))
    {
      flush := flush.(requested := true);
      if !Live(flush.task) {
        flush := flush.(task := Ready);
      }
    }

    /** Drops connection effects, keeping or settling publish results. */
    method DropConnectionEffects(settle: bool)
      modifies this`queue, this`drains, this`ledger
      ensures View() == Drop(old(View()), settle)
    {
      var retained: seq<Effect> := [];
      var discarded := 0;
      var i := 0;
      ghost var results: seq<Effect> := [];
      while i < |queue.pending|
        invariant 0 <= i <= |queue.pending|
        invariant results == PublishResults(queue.pending[..i])
        invariant retained == if settle then [] else results
        invariant discarded == i - |retained|
        invariant View() == old(View())
      {
        var effect := queue.pending[i];
        assert queue.pending[..i + 1] == queue.pending[..i] + [effect];
        SelectSnoc(queue.pending[..i], effect, IsPublishResult);
        if !IsPublishResult(effect) {
          discarded := discarded + 1;
        } else {
          results := results + [effect];
          if !settle {
            retained := retained + [effect];
          } else {
            discarded := discarded + 1;
          }
        }
        i := i + 1;
      }
      assert queue.pending[..i] == queue.pending;
      if settle {
        ledger := ledger.(results := ledger.results + FatesOf(results, Taken));
      }
      ledger := ledger.(collectedBase := |ledger.collected|, sendsBase := |ledger.sends|);
      queue := queue.(pending := retained);
      if retained != [] {
        queue := queue.(pendingEpoch := epoch);
      }
      queue := queue.(applied := queue.applied + discarded);
      SetProgress();
    }

    method RetireStaleEffects()
      modifies this`queue, this`drains, this`ledger
      ensures View() == RetireStale(old(View()))
    {
      if queue.pending != [] && queue.pendingEpoch != epoch {
        DropConnectionEffects(false);
      }
    }

    method ExtendPending(effects: seq<Effect>)
      modifies this`queue
      ensures queue == Append(old(queue), effects, epoch)
    {
      if queue.pending == [] {
        queue := queue.(pendingEpoch := epoch);
      }
      queue := queue.(pending := queue.pending + effects, ordered := queue.ordered + effects);
      queue := queue.(enqueued := queue.enqueued + |effects|);
    }

    /**
      Takes one engine batch. The deliveries of the batch go to the delivery
      lane, fenced at the current end of this one; nothing that was ordered
      before is reordered.
     */
    method CollectFromEngine(effects: seq<Effect>, inline: Inline) returns (deliveries: seq<Effect>, target: nat)
      requires Valid()
      modifies this`queue, this`drains, this`ledger
      ensures Valid() && View() == Collect(old(View()), effects, inline)
      ensures deliveries == if flush.task.Closing? then [] else Deliveries(effects)
      ensures target == queue.enqueued == |queue.ordered| && old(queue).ordered <= queue.ordered
    {
      PumpStepKeepsInv(View(), EvCollect(effects, inline));
      CollectLater(View(), effects, inline);
      deliveries, target := TakeEngineBatch(effects, inline);
    }

    method TakeEngineBatch(effects: seq<Effect>, inline: Inline) returns (deliveries: seq<Effect>, target: nat)
      modifies this`queue, this`drains, this`ledger
      ensures View() == Collect(old(View()), effects, inline)
      ensures deliveries == if flush.task.Closing? then [] else Deliveries(effects)
      ensures target == queue.enqueued
    {
      deliveries, target := [], queue.enqueued;
      if effects == [] {
        return;
      }
      RetireStaleEffects();
      if flush.task.Closing? {
        ledger := Noted(ledger, effects);
        ExtendPending(effects);
        DropConnectionEffects(true);
        return [], queue.enqueued;
      }
      if |effects| == 1 {
        deliveries := CollectOne(effects[0], inline);
        assert effects == [effects[0]];
        SelectOne(effects[0], IsDelivery);
        return deliveries, queue.enqueued;
      }
      var lane, observed, reordered;
      lane, deliveries, observed, reordered := PartitionEffects(effects);
      ledger := Noted(ledger, effects);
      ledger := ledger.(results := ledger.results + FatesOf(PublishResults(observed), Taken));
      if observed != [] && lane == [] && deliveries == [] {
        return deliveries, queue.enqueued;
      }
      ExtendPending(lane);
      return deliveries, queue.enqueued;
    }

    /** A one-effect batch, without queueing it when possible. */
    method CollectOne(effect: Effect, inline: Inline) returns (deliveries: seq<Effect>)
      modifies this`queue, this`ledger
      ensures View() == CollectSingle(old(View()), effect, inline)
      ensures deliveries == if IsDelivery(effect) then [effect] else []
    {
      deliveries := [];
      if IsDelivery(effect) {
        return [effect];
      }
      if queue.pending == [] {
        if inline.RaisesInline? {
          ledger := Leaves(Noted(ledger, [effect]), [effect], Raised);
          return;
        }
        if inline.Applies? {
          ledger := Leaves(Noted(ledger, [effect]), [effect], Taken);
          return;
        }
      }
      ledger := Noted(ledger, [effect]);
      if IsImmediate(effect) {
        ledger := ledger.(results := ledger.results + FatesOf(PublishResults([effect]), Taken));
        return;
      }
      ExtendPending([effect]);
    }

    /** Removes the applied head and tells waiting drains. */
    method Complete(outcome: Outcome)
      requires queue.pending != []
      modifies this`queue, this`drains, this`ledger
      ensures View() == Advance(old(View()), 1, outcome)
    {
      ledger := Leaves(ledger, queue.pending[..1], outcome);
      queue := queue.(pending := queue.pending[1..], applied := queue.applied + 1);
      SetProgress();
    }

    /** Applies pending effects in order while the applier accepts them; `budget` is how many it accepts. */
    method DrainInlineNow(target: Option<nat>, budget: nat, raises: bool) returns (raised: bool)
      requires Valid()
      modifies this`queue, this`drains, this`ledger, this`flush
      ensures Valid() && View() == DrainInline(old(View()), target, budget, raises)
      ensures Later(old(queue), queue) && queue.ordered == old(queue).ordered
    {
      PumpStepKeepsInv(View(), EvDrainInline(target, budget, raises));
      InlineLater(View(), target, budget, raises);
      raised := ApplyInline(target, budget, raises);
    }

    method ApplyInline(target: Option<nat>, budget: nat, raises: bool) returns (raised: bool)
      modifies this`queue, this`drains, this`ledger, this`flush
      ensures View() == DrainInline(old(View()), target, budget, raises)
      ensures raised <==> && InlineRuns(old(View()))
                          && InlineRaises(RetireStale(old(View())).queue, target, budget, raises)
    {
      if Locked(flush.task) || queue.pending == [] {
        return false;
      }
      RetireStaleEffects();
      ApplyAccepted(target, budget);
      if queue.pending == [] {
        return false;
      }
      if raises && (target.None? || queue.applied < target.value) {
        return true;
      }
      ScheduleFlush();
      return false;
    }

    /** The inline loop: applies the head while one is pending, the target is not reached and the applier accepts. */
    method ApplyAccepted(target: Option<nat>, budget: nat)
      modifies this`queue, this`drains, this`ledger
      ensures View() == Advance(old(View()), InlineCount(old(queue), target, budget), Taken)
    {
      ghost var start, k := View(), InlineCount(queue, target, budget);
      var applied := 0;
      AdvanceZero(start);
      InlineMore(start, target, budget, 0);
      while queue.pending != [] && (target.None? || queue.applied < target.value) && applied < budget
        invariant 0 <= applied <= k <= |start.queue.pending|
        invariant View() == Advance(start, applied, Taken)
        invariant More(queue, target, budget - applied) <==> applied < k
        decreases k - applied
      {
        AdvanceTwice(start, applied);
        InlineMore(start, target, budget, applied + 1);
        Complete(Taken);
        applied := applied + 1;
      }
    }

    /** The flusher runs up to its next suspension. */
    method FlushUntilSuspended()
      modifies this`queue, this`drains, this`ledger, this`flush
      ensures View() == FlushTurn(old(View()))
    {
      RetireStaleEffects();
      if queue.pending == [] {
        flush := Flush(Finished, false);
      } else {
        flush := flush.(task := Applying(queue.pending[0]));
      }
    }

    method ScheduleNow()
      requires Valid()
      modifies this`flush
      ensures Valid() && flush == Schedule(old(flush)) && Live(flush.task)
    {
      PumpStepKeepsInv(View(), EvSchedule);
      ScheduleFlush();
    }

    /** The owner moves to another connection; what is pending becomes stale. */
    method ChangeEpoch(next: int)
      requires Valid()
      modifies this`epoch
      ensures Valid() && epoch == next
    {
      PumpStepKeepsInv(View(), EvRetire(next));
      epoch := next;
    }

    /** Empties the lane; every drain is satisfied. */
    method DiscardConnectionEffects(settle: bool)
      requires Valid()
      modifies this`queue, this`drains, this`ledger
      ensures Valid() && View() == Drop(old(View()), settle)
      ensures queue.pending == [] && queue.applied == queue.enqueued == old(queue).enqueued
    {
      DropKeepsInv(View(), settle);
      DropEmpties(View(), settle);
      DropConnectionEffects(settle);
    }

    /** The flusher starts: it ends with an empty lane or suspends in the oldest effect. */
    method BeginFlush()
      requires Valid() && flush.task.Ready?
      modifies this`queue, this`drains, this`ledger, this`flush
      ensures Valid() && View() == FlushBegins(old(View()))
      ensures if queue.pending == [] then flush.task.Finished? else flush.task == Applying(queue.pending[0])
    {
      PumpStepKeepsInv(View(), Flusher(EvBegins));
      StartRound();
    }

    method StartRound()
      modifies this`queue, this`drains, this`ledger, this`flush
      ensures View() == FlushBegins(old(View()))
    {
      flush := flush.(requested := false);
      FlushUntilSuspended();
    }

    /** After an error the lane is empty and every drain is woken and satisfied; otherwise progress goes on. */
    method ApplicationReturned(outcome: Outcome)
      requires Valid() && flush.task.Applying?
      modifies this`queue, this`drains, this`ledger, this`flush
      ensures Valid() && View() == ApplyReturns(old(View()), outcome) && Later(old(queue), queue)
      ensures outcome.Raised? ==> flush.task.Closing? && queue.pending == [] && queue.applied == queue.enqueued
    {
      PumpStepKeepsInv(View(), Flusher(EvApplyReturns(outcome)));
      FlushLater(View(), EvApplyReturns(outcome));
      FinishApplication(outcome);
    }

    method FinishApplication(outcome: Outcome)
      requires flush.task.Applying?
      modifies this`queue, this`drains, this`ledger, this`flush
      ensures View() == ApplyReturns(old(View()), outcome)
    {
      var effect := flush.task.effect;
      if queue.pending != [] && queue.pending[0] == effect {
        Complete(outcome);
      }
      if outcome.Raised? {
        FailTheConnection();
      } else {
        FlushUntilSuspended();
      }
    }

    method FailTheConnection()
      modifies this`queue, this`drains, this`ledger, this`flush
      ensures View() == FailConnection(old(View()))
    {
      var failureAt := queue.applied;
      var owners: set<nat> := {};
      var i := 0;
      while i < |drains.waiters|
        invariant 0 <= i <= |drains.waiters|
        invariant owners == Owners(drains.waiters[..i], failureAt)
        invariant View() == old(View())
      {
        OwnersSnoc(drains.waiters, i, failureAt);
        if drains.waiters[i].target >= failureAt {
          owners := owners + {drains.waiters[i].id};
        }
        i := i + 1;
      }
      assert drains.waiters[..i] == drains.waiters;
      if owners != {} {
        drains := drains.(error := true, errorWaiters := owners);
        SetProgress();
      }
      flush := flush.(task := Closing);
      DropConnectionEffects(true);
    }

    method CloseReturned()
      requires Valid() && flush.task.Closing?
      modifies this`queue, this`drains, this`ledger, this`flush
      ensures Valid() && View() == CloseReturns(old(View())) && queue.pending == []
    {
      PumpStepKeepsInv(View(), Flusher(EvCloseReturns));
      EndClose();
    }

    method EndClose()
      modifies this`queue, this`drains, this`ledger, this`flush
      ensures View() == CloseReturns(old(View()))
    {
      if queue.pending != [] {
        DropConnectionEffects(true);
      }
      flush := flush.(task := Finished);
    }

    /** The flusher is over; a drain that still sleeps has a new one. */
    method FlusherDone(raised: bool)
      requires Valid() && flush.task.Finished?
      modifies this`drains, this`flush
      ensures Valid() && View() == DoneCallback(old(View()), raised)
      ensures forall i :: 0 <= i < |drains.waiters| && !drains.waiters[i].woken ==> Live(flush.task)
    {
      PumpStepKeepsInv(View(), Flusher(EvDone(raised)));
      Retired(View(), raised);
      flush := flush.(task := NoTask);
      if raised && queue.pending == [] && drains.errorWaiters == {} {
        drains := drains.(error := false);
      }
      if flush.requested && queue.pending != [] {
        ScheduleFlush();
      }
    }

    /** The synchronous part of `drain()`: true when it returns at once, with the target reached. */
    method Drain(target: Option<nat>, budget: nat, raises: bool) returns (returned: bool)
      requires Valid() && (target.Some? ==> target.value <= queue.enqueued)
      modifies this`queue, this`drains, this`ledger, this`flush
      ensures Valid() && (View(), returned) == DrainCall(old(View()), target, budget, raises)
      ensures returned ==> queue.applied >= if target.Some? then target.value else queue.enqueued
    {
      PumpStepKeepsInv(View(), Drainer(EvDrain(target, budget, raises)));
      returned := EnterDrain(target, budget, raises);
    }

    method EnterDrain(target: Option<nat>, budget: nat, raises: bool) returns (returned: bool)
      modifies this`queue, this`drains, this`ledger, this`flush
      ensures (View(), returned) == DrainCall(old(View()), target, budget, raises)
      ensures returned ==> queue.applied >= if target.Some? then target.value else queue.enqueued
    {
      var raised := ApplyInline(target, budget, raises);
      if raised {
        return false;
      }
      var goal := if target.Some? then target.value else queue.enqueued;
      if queue.applied >= goal {
        return true;
      }
      var id := drains.nextId;
      drains := drains.(nextId := id + 1);
      ScheduleFlush();
      drains := drains.(waiters := drains.waiters + [Waiter(id, goal, false)]);
      return false;
    }

    /**
      A woken drain: it raises its error, returns when none of its effects is
      pending any more, or sleeps again behind a live flusher.
     */
    method DrainTurn(i: nat) returns (exit: Exit)
      requires Valid() && i < |drains.waiters| && drains.waiters[i].woken
      modifies this`drains, this`flush
      ensures Valid() && View() == WaiterTurn(old(View()), i)
      ensures var w := old(drains).waiters[i];
              && (exit.RaisesError? <==> w.id in old(drains).errorWaiters)
              && (exit.Returns? ==> |queue.pending| <= queue.enqueued - w.target)
              && (exit.ParksAgain? ==> |queue.pending| > queue.enqueued - w.target && Live(flush.task))
    {
      PumpStepKeepsInv(View(), Drainer(EvTurn(i)));
      exit := WakeUp(i);
    }

    method WakeUp(i: nat) returns (exit: Exit)
      requires i < |drains.waiters|
      modifies this`drains, this`flush
      ensures View() == WaiterTurn(old(View()), i)
      ensures exit == ExitOf(old(View()), old(drains).waiters[i])
      ensures exit.ParksAgain? ==> Live(flush.task)
    {
      var w := drains.waiters[i];
      if w.id in drains.errorWaiters {
        LeaveDrain(i);
        return RaisesError;
      }
      if queue.applied >= w.target {
        LeaveDrain(i);
        return Returns;
      }
      ScheduleFlush();
      drains := drains.(waiters := drains.waiters[..i] + drains.waiters[i + 1..] + [w.(woken := false)]);
      return ParksAgain;
    }

    method CancelDrain(i: nat)
      requires Valid() && i < |drains.waiters|
      modifies this`drains
      ensures Valid() && drains == Leave(old(drains), i)
    {
      PumpStepKeepsInv(View(), Drainer(EvCancel(i)));
      LeaveDrain(i);
    }

    method LeaveDrain(i: nat)
      requires i < |drains.waiters|
      modifies this`drains
      ensures drains == Leave(old(drains), i)
    {
      var id := drains.waiters[i].id;
      drains := drains.(waiters := drains.waiters[..i] + drains.waiters[i + 1..]);
      drains := drains.(errorWaiters := drains.errorWaiters - {id});
      if drains.error && drains.errorWaiters == {} {
        drains := drains.(error := false);
      }
    }
  }

  lemma {:induction false} OwnersSnoc(ws: seq<Waiter>, i: nat, failureAt: nat)
    requires i < |ws|
    ensures Owners(ws[..i + 1], failureAt)
         == Owners(ws[..i], failureAt) + (if ws[i].target >= failureAt then {ws[i].id} else {})
  {
    var a, b := ws[..i], ws[..i + 1];
    assert b == a + [ws[i]];
    forall id | id in Owners(b, failureAt)
      ensures id in Owners(a, failureAt) || (ws[i].target >= failureAt && id == ws[i].id)
    {
      var j :| 0 <= j < |b| && b[j].target >= failureAt && b[j].id == id;
      if j < i {
        assert a[j] == b[j];
      }
    }
    forall id | id in Owners(a, failureAt)
      ensures id in Owners(b, failureAt)
    {
      var j :| 0 <= j < |a| && a[j].target >= failureAt && a[j].id == id;
      assert a[j] == b[j];
    }
    if ws[i].target >= failureAt {
      assert b[i] == ws[i];
    }
  }

  /** The condition of the inline loop. */
  predicate More(q: Queue, target: Option<nat>, budget: int) {
    q.pending != [] && (target.None? || q.applied < target.value) && budget > 0
  }

  lemma {:induction false} InlineMore(s: PumpState, target: Option<nat>, budget: nat, n: nat)
    requires n <= InlineCount(s.queue, target, budget)
    ensures n <= InlineCount(s.queue, target, budget) <= |s.queue.pending|
    ensures More(Advance(s, n, Taken).queue, target, budget - n) <==> n < InlineCount(s.queue, target, budget)
  {
  }

  /** No drain sleeps behind a flusher that has ended. */
  lemma {:induction false} Retired(s: PumpState, raised: bool)
    requires PumpInv(s) && s.flush.task.Finished?
    ensures var t := DoneCallback(s, raised);
            forall i :: 0 <= i < |t.drains.waiters| && !t.drains.waiters[i].woken ==> Live(t.flush.task)
  {
    PumpStepKeepsInv(s, Flusher(EvDone(raised)));
    var t := DoneCallback(s, raised);
    assert forall i :: 0 <= i < |t.drains.waiters| ==>
                         WaiterOk(t.drains.waiters[i], t.drains, t.queue, Live(t.flush.task));
  }

  lemma {:induction false} AdvanceZero(s: PumpState)
    ensures Advance(s, 0, Taken) == s
  {
    assert s.queue.pending[..0] == [] && s.queue.pending[0..] == s.queue.pending;
    assert s.ledger.sends + [] == s.ledger.sends && s.ledger.results + [] == s.ledger.results;
  }

  lemma {:induction false} FatesConcat(a: seq<Effect>, b: seq<Effect>, outcome: Outcome)
    ensures FatesOf(a + b, outcome) == FatesOf(a, outcome) + FatesOf(b, outcome)
  {
    if a == [] {
      assert a + b == b;
    } else {
      assert (a + b)[1..] == a[1..] + b;
      FatesConcat(a[1..], b, outcome);
    }
  }

  lemma {:induction false} LeavesTwice(l: Ledger, a: seq<Effect>, b: seq<Effect>, outcome: Outcome)
    ensures Leaves(Leaves(l, a, outcome), b, outcome) == Leaves(l, a + b, outcome)
  {
    SendsConcat(a, b);
    FatesTwice(l.sends, Sends(a), Sends(b), outcome);
    FatesTwice(l.results, PublishResults(a), PublishResults(b), outcome);
  }

  lemma {:induction false} FatesTwice(fs: seq<Fate>, a: seq<Effect>, b: seq<Effect>, outcome: Outcome)
    ensures fs + FatesOf(a, outcome) + FatesOf(b, outcome) == fs + FatesOf(a + b, outcome)
  {
    FatesConcat(a, b, outcome);
  }

  lemma {:induction false} AdvanceTwice(s: PumpState, k: nat)
    requires k < |s.queue.pending|
    ensures Advance(Advance(s, k, Taken), 1, Taken) == Advance(s, k + 1, Taken)
  {
    var p := s.queue.pending;
    assert p[..k + 1] == p[..k] + p[k..][..1];
    assert p[k..][1..] == p[k + 1..];
    LeavesTwice(s.ledger, p[..k], p[k..][..1], Taken);
    WakeTwice(s.drains.waiters);
  }

  lemma {:induction false} WakeTwice(ws: seq<Waiter>)
    ensures WakeAll(WakeAll(ws)) == WakeAll(ws)
  {
  }
}
