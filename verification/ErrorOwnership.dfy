/** Who still gets the error of a failed flush when another flush fails before its owner has had a turn. */
module ErrorOwnership {
  import opened Options
  import opened Effects
  import opened EffectPumpModel
  import opened EffectPumpProofs
  import opened DrainRegistry

  /** A registered drain that will raise the error it was given. */
  ghost predicate Owning(s: PumpState, id: nat) {
    Registered(s.drains.waiters, id) && id in s.drains.errorWaiters
  }

  /** A registered drain that has no error and that no failure will give one: its effects have all left. */
  ghost predicate Passed(s: PumpState, id: nat) {
    && Registered(s.drains.waiters, id) && id < s.drains.nextId && id !in s.drains.errorWaiters
    && TargetsBelow(s.drains.waiters, id, s.queue.applied)
  }

  ghost predicate TargetsBelow(ws: seq<Waiter>, id: nat, applied: nat) {
    forall i :: 0 <= i < |ws| && ws[i].id == id ==> ws[i].target < applied
  }

  /** The drains a failing step gives its error to. */
  function NewOwners(s: PumpState, e: PumpEvent): set<nat> {
    if e.Flusher? && e.f.EvApplyReturns? && e.f.outcome.Raised? && s.flush.task.Applying? then
      var t := PopIfHead(s, s.flush.task.effect, Raised);
      Owners(t.drains.waiters, t.queue.applied)
    else {}
  }

  /** A failure that has owners and leaves this drain out. */
  predicate Supplants(s: PumpState, e: PumpEvent, id: nat) {
    NewOwners(s, e) != {} && id !in NewOwners(s, e)
  }

  // ---- the error waiters of a step ----

  lemma {:induction false} DropErrors(s: PumpState, settle: bool)
    ensures Drop(s, settle).drains.errorWaiters == s.drains.errorWaiters
    ensures RetireStale(s).drains.errorWaiters == s.drains.errorWaiters
  {
  }

  lemma {:induction false} CollectErrors(s: PumpState, effects: seq<Effect>, inline: Inline)
    ensures Collect(s, effects, inline).drains.errorWaiters == s.drains.errorWaiters
  {
    DropErrors(s, false);
    var t := RetireStale(s);
    if effects == [] {
    } else if s.flush.task.Closing? {
      DropErrors(t.(queue := Append(t.queue, effects, t.epoch), ledger := Noted(t.ledger, effects)), true);
    } else if |effects| == 1 {
      assert CollectSingle(t, effects[0], inline).drains == t.drains;
    } else {
      assert CollectMany(t, effects).drains == t.drains;
    }
  }

  lemma {:induction false} AdvanceErrors(s: PumpState, k: nat, outcome: Outcome)
    requires k <= |s.queue.pending|
    ensures Advance(s, k, outcome).drains.errorWaiters == s.drains.errorWaiters
  {
  }

  lemma {:induction false} InlineErrors(s: PumpState, target: Option<nat>, budget: nat, raises: bool)
    ensures DrainInline(s, target, budget, raises).drains.errorWaiters == s.drains.errorWaiters
  {
    if InlineRuns(s) {
      DropErrors(s, false);
      var t := RetireStale(s);
      AdvanceErrors(t, InlineCount(t.queue, target, budget), Taken);
    }
  }

  lemma {:induction false} ApplyErrors(s: PumpState, outcome: Outcome)
    requires s.flush.task.Applying?
    ensures var o := NewOwners(s, Flusher(EvApplyReturns(outcome)));
            ApplyReturns(s, outcome).drains.errorWaiters == if o == {} then s.drains.errorWaiters else o
  {
    var t := PopIfHead(s, s.flush.task.effect, outcome);
    if t != s {
      AdvanceErrors(s, 1, outcome);
    }
    DropErrors(t, false);
    DropErrors(t.(drains := RouteFailure(t.drains, t.queue.applied), flush := t.flush.(task := Closing)), true);
  }

  lemma {:induction false} FlushErrors(s: PumpState, f: FlushEvent)
    requires FlushEnabled(s, f)
    ensures var o := NewOwners(s, Flusher(f));
            FlushStep(s, f).drains.errorWaiters == if o == {} then s.drains.errorWaiters else o
  {
    match f
    case EvBegins => DropErrors(s.(flush := s.flush.(requested := false)), false);
    case EvApplyReturns(outcome) => ApplyErrors(s, outcome);
    case EvCloseReturns => DropErrors(s, true);
    case EvDone(raised) =>
  }

  lemma {:induction false} DrainErrors(s: PumpState, d: DrainEvent, id: nat)
    requires DrainEnabled(s, d) && !TurnOf(s, Drainer(d), id)
    ensures id in DrainStep(s, d).drains.errorWaiters <==> id in s.drains.errorWaiters
  {
    match d
    case EvDrain(target, budget, raises) => InlineErrors(s, target, budget, raises);
    case EvTurn(i) =>
    case EvCancel(i) =>
  }

  /** Apart from a drain's own turn, only a failure with owners changes who has an error. */
  lemma {:induction false} StepErrors(s: PumpState, e: PumpEvent, id: nat)
    requires PumpEnabled(s, e) && !TurnOf(s, e, id)
    ensures id in PumpStep(s, e).drains.errorWaiters
       <==> if NewOwners(s, e) == {} then id in s.drains.errorWaiters else id in NewOwners(s, e)
  {
    match e
    case EvCollect(effects, inline) => CollectErrors(s, effects, inline);
    case EvDrainInline(target, budget, raises) => InlineErrors(s, target, budget, raises);
    case EvSchedule =>
    case EvDrop(settle) => DropErrors(s, settle);
    case EvRetire(epoch) =>
    case Flusher(f) => FlushErrors(s, f);
    case Drainer(d) => DrainErrors(s, d, id);
  }

  // ---- targets ----

  lemma {:induction false} SameBelow(d: Drains, e: Drains, id: nat, low: nat, high: nat)
    requires SameDrains(d, e) && TargetsBelow(d.waiters, id, low) && low <= high
    ensures TargetsBelow(e.waiters, id, high)
  {
    forall i | 0 <= i < |e.waiters| && e.waiters[i].id == id
      ensures e.waiters[i].target < high
    {
      assert d.waiters[i].id == id;
    }
  }

  lemma {:induction false} AfterInlineBelow(s: PumpState, goal: nat, raised: bool, id: nat, applied: nat)
    requires TargetsBelow(s.drains.waiters, id, applied) && id < s.drains.nextId
    ensures TargetsBelow(AfterInline(s, goal, raised).0.drains.waiters, id, applied)
  {
  }

  lemma {:induction false} DrainBelow(s: PumpState, d: DrainEvent, id: nat)
    requires PumpInv(s) && DrainEnabled(s, d) && id < s.drains.nextId
    requires TargetsBelow(s.drains.waiters, id, s.queue.applied)
    ensures TargetsBelow(DrainStep(s, d).drains.waiters, id, DrainStep(s, d).queue.applied)
  {
    match d
    case EvDrain(target, budget, raises) =>
      var t := DrainInline(s, target, budget, raises);
      InlineSame(s, target, budget, raises);
      InlineLater(s, target, budget, raises);
      SameBelow(s.drains, t.drains, id, s.queue.applied, t.queue.applied);
      AfterInlineBelow(t, Goal(t.queue, target), RaisedInline(s, target, budget, raises), id, t.queue.applied);
    case EvTurn(i) =>
    case EvCancel(i) =>
  }

  /** A drain whose effects have all left is below every position that a later failure can have. */
  lemma {:induction false} StepBelow(s: PumpState, e: PumpEvent, id: nat)
    requires PumpInv(s) && PumpEnabled(s, e) && id < s.drains.nextId
    requires TargetsBelow(s.drains.waiters, id, s.queue.applied)
    ensures TargetsBelow(PumpStep(s, e).drains.waiters, id, PumpStep(s, e).queue.applied)
  {
    if e.Drainer? {
      DrainBelow(s, e.d, id);
    } else {
      StepSame(s, e);
      PumpStepLater(s, e);
      SameBelow(s.drains, PumpStep(s, e).drains, id, s.queue.applied, PumpStep(s, e).queue.applied);
    }
  }

  lemma {:induction false} NextIdGrows(s: PumpState, e: PumpEvent)
    requires PumpEnabled(s, e)
    ensures s.drains.nextId <= PumpStep(s, e).drains.nextId
  {
    if e.Drainer? {
      if e.d.EvDrain? {
        InlineSame(s, e.d.target, e.d.budget, e.d.raises);
      }
    } else {
      StepSame(s, e);
    }
  }

  /** The position of a failure, and the drains that are not its owners. */
  lemma {:induction false} NotOwner(s: PumpState, outcome: Outcome, id: nat)
    requires PumpInv(s) && s.flush.task.Applying?
    requires id !in NewOwners(s, Flusher(EvApplyReturns(outcome))) && outcome.Raised?
    ensures TargetsBelow(ApplyReturns(s, outcome).drains.waiters, id, ApplyReturns(s, outcome).queue.applied)
  {
    var t := PopIfHead(s, s.flush.task.effect, outcome);
    PopKeepsInv(s, s.flush.task.effect, outcome);
    assert TargetsBelow(t.drains.waiters, id, t.queue.applied) by {
      forall i | 0 <= i < |t.drains.waiters| && t.drains.waiters[i].id == id
        ensures t.drains.waiters[i].target < t.queue.applied
      {
        OwnersExact(t.drains.waiters, i, t.queue.applied);
      }
    }
    var u := t.(drains := RouteFailure(t.drains, t.queue.applied), flush := t.flush.(task := Closing));
    RouteSame(t.drains, t.queue.applied);
    DropSame(u, true);
    SameTwice(t.drains, u.drains, Drop(u, true).drains);
    DropEmpties(u, true);
    SameBelow(t.drains, Drop(u, true).drains, id, t.queue.applied, Drop(u, true).queue.applied);
  }

  lemma {:induction false} PassedOwnsNothing(s: PumpState, e: PumpEvent, id: nat)
    requires PumpInv(s) && PumpEnabled(s, e) && Passed(s, id)
    ensures id !in NewOwners(s, e)
  {
    if e.Flusher? && e.f.EvApplyReturns? && e.f.outcome.Raised? {
      var t := PopIfHead(s, s.flush.task.effect, Raised);
      PopKeepsInv(s, s.flush.task.effect, Raised);
      if t != s {
        AdvanceSame(s, 1, Raised);
        SameBelow(s.drains, t.drains, id, s.queue.applied, t.queue.applied);
      }
      assert TargetsBelow(t.drains.waiters, id, t.queue.applied);
    }
  }

  // ---- the steps of everybody else ----

  lemma {:induction false} OwningStep(s: PumpState, e: PumpEvent, id: nat)
    requires PumpInv(s) && PumpEnabled(s, e) && Owning(s, id) && !TurnOf(s, e, id)
    ensures if Supplants(s, e, id) then Passed(PumpStep(s, e), id) else Owning(PumpStep(s, e), id)
  {
    StepKeepsRegistered(s, e, id);
    StepErrors(s, e, id);
    NextIdGrows(s, e);
    if Supplants(s, e, id) {
      NotOwner(s, e.f.outcome, id);
    }
  }

  lemma {:induction false} PassedStep(s: PumpState, e: PumpEvent, id: nat)
    requires PumpInv(s) && PumpEnabled(s, e) && Passed(s, id) && !TurnOf(s, e, id)
    ensures Passed(PumpStep(s, e), id)
  {
    StepKeepsRegistered(s, e, id);
    StepErrors(s, e, id);
    NextIdGrows(s, e);
    StepBelow(s, e, id);
    PassedOwnsNothing(s, e, id);
  }

  /** The drain has no turn of its own in this run. */
  predicate NoTurn(s: PumpState, es: seq<PumpEvent>, id: nat)
    requires IsPumpRun(s, es)
    decreases |es|
  {
    es == [] || (!TurnOf(s, es[0], id) && NoTurn(PumpStep(s, es[0]), es[1..], id))
  }

  predicate NeverSupplanted(s: PumpState, es: seq<PumpEvent>, id: nat)
    requires IsPumpRun(s, es)
    decreases |es|
  {
    es == [] || (!Supplants(s, es[0], id) && NeverSupplanted(PumpStep(s, es[0]), es[1..], id))
  }

  lemma {:induction false} PassedRun(s: PumpState, es: seq<PumpEvent>, id: nat)
    requires PumpInv(s) && IsPumpRun(s, es) && Passed(s, id) && NoTurn(s, es, id)
    ensures Passed(PumpRun(s, es), id)
    decreases |es|
  {
    if es != [] {
      PassedStep(s, es[0], id);
      PumpStepKeepsInv(s, es[0]);
      PassedRun(PumpStep(s, es[0]), es[1..], id);
    }
  }

  lemma {:induction false} OwningRun(s: PumpState, es: seq<PumpEvent>, id: nat)
    requires PumpInv(s) && IsPumpRun(s, es) && Owning(s, id) && NoTurn(s, es, id)
    ensures if NeverSupplanted(s, es, id) then Owning(PumpRun(s, es), id) else Passed(PumpRun(s, es), id)
    decreases |es|
  {
    if es != [] {
      OwningStep(s, es[0], id);
      PumpStepKeepsInv(s, es[0]);
      if Supplants(s, es[0], id) {
        PassedRun(PumpStep(s, es[0]), es[1..], id);
      } else {
        OwningRun(PumpStep(s, es[0]), es[1..], id);
      }
    }
  }

  /**
    A drain that was given an error, whenever its turn comes: it raises if and
    only if no failure with owners has left it out since, and otherwise it
    returns as if its effects had been applied.
   */
  lemma {:induction false} ErrorReceivedExactly(s: PumpState, es: seq<PumpEvent>, id: nat, i: nat)
    requires PumpInv(s) && IsPumpRun(s, es) && Owning(s, id) && NoTurn(s, es, id)
    requires i < |PumpRun(s, es).drains.waiters| && PumpRun(s, es).drains.waiters[i].id == id
    ensures var t := PumpRun(s, es);
            ExitOf(t, t.drains.waiters[i]) == if NeverSupplanted(s, es, id) then RaisesError else Returns
  {
    OwningRun(s, es, id);
  }

  // ---- one run from the start ----

  lemma {:induction false} PumpSnoc(s: PumpState, es: seq<PumpEvent>, e: PumpEvent)
    requires IsPumpRun(s, es) && PumpEnabled(PumpRun(s, es), e)
    ensures IsPumpRun(s, es + [e]) && PumpRun(s, es + [e]) == PumpStep(PumpRun(s, es), e)
    decreases |es|
  {
    if es == [] {
      assert IsPumpRun(PumpStep(s, e), []);
      assert es + [e] == [e];
    } else {
      assert (es + [e])[1..] == es[1..] + [e];
      PumpSnoc(PumpStep(s, es[0]), es[1..], e);
    }
  }

  const FIRST: Effect := Effect(SEND, 0, false)
  const SECOND: Effect := Effect(SEND, 1, false)

  /** An idle lane collects a frame that the applier defers. */
  lemma {:induction false} DeferredSend(s: PumpState, e: Effect)
    requires IsSend(e) && s.queue.pending == [] && !s.flush.task.Closing?
    ensures var t := Collect(s, [e], Defers);
            && t.queue == Append(s.queue, [e], s.epoch) && t.drains == s.drains && t.flush == s.flush
            && t.epoch == s.epoch
  {
  }

  /** A drain behind it parks, and the flusher suspends in it. */
  lemma {:induction false} DrainParks(s: PumpState, target: nat)
    requires s.queue.pending != [] && s.queue.pendingEpoch == s.epoch && s.queue.applied < target <= s.queue.enqueued
    requires !Locked(s.flush.task) && !Live(s.flush.task)
    ensures var t := DrainCall(s, Some(target), 0, false).0;
            && t.queue == s.queue && t.flush == Flush(Ready, true) && t.epoch == s.epoch
            && t.drains == s.drains.(nextId := s.drains.nextId + 1,
                                     waiters := s.drains.waiters + [Waiter(s.drains.nextId, target, false)])
  {
    var u := Advance(s, 0, Taken);
    assert s.queue.pending[0..] == s.queue.pending;
    assert u.queue == s.queue && u.drains == s.drains;
  }

  lemma {:induction false} FlushSuspends(s: PumpState)
    requires s.queue.pending != [] && s.queue.pendingEpoch == s.epoch
    ensures var t := FlushBegins(s);
            && t.queue == s.queue && t.drains == s.drains && t.epoch == s.epoch
            && t.flush == Flush(Applying(s.queue.pending[0]), false)
  {
  }

  /** Only the last drain of the line has not reached its target. */
  lemma {:induction false} OwnersLast(ws: seq<Waiter>, w: Waiter)
    requires forall i :: 0 <= i < |ws| ==> ws[i].target < w.target
    ensures Owners(WakeAll(ws + [w]), w.target) == {w.id}
  {
    var vs := WakeAll(ws + [w]);
    assert vs[|ws|].id == w.id && vs[|ws|].target == w.target;
    forall i | 0 <= i < |vs| && vs[i].target >= w.target
      ensures vs[i].id == w.id
    {
    }
  }

  /** A failure empties the lane. */
  lemma {:induction false} FailureEmpties(s: PumpState)
    requires PumpInv(s)
    ensures var t := FailConnection(s);
            && t.queue.pending == [] && t.queue.applied == t.queue.enqueued == s.queue.enqueued
            && t.flush.task.Closing?
  {
    DropEmpties(s.(drains := RouteFailure(s.drains, s.queue.applied), flush := s.flush.(task := Closing)), true);
  }

  lemma {:induction false} HeadLeaves(s: PumpState)
    requires PumpInv(s) && |s.queue.pending| == 1
    ensures var t := PopIfHead(s, s.queue.pending[0], Raised);
            && PumpInv(t) && t.queue.applied == t.queue.enqueued == s.queue.enqueued
            && t.drains.waiters == WakeAll(s.drains.waiters)
  {
    PopKeepsInv(s, s.queue.pending[0], Raised);
  }

  /** The application of the only pending effect raises: its drain owns the error, and the lane is empty. */
  lemma {:induction false} ApplicationFails(s: PumpState, ws: seq<Waiter>, w: Waiter)
    requires PumpInv(s) && |s.queue.pending| == 1 && s.flush.task == Applying(s.queue.pending[0])
    requires s.drains.waiters == ws + [w] && w.target == s.queue.enqueued
    requires forall i :: 0 <= i < |ws| ==> ws[i].target < w.target
    ensures var t := ApplyReturns(s, Raised);
            && t.queue.pending == [] && t.queue.applied == t.queue.enqueued == s.queue.enqueued
            && t.flush.task.Closing? && SameDrains(s.drains, t.drains) && t.drains.errorWaiters == {w.id}
  {
    HeadLeaves(s);
    OwnersLast(ws, w);
    ApplyErrors(s, Raised);
    ApplySame(s, Raised);
    FailureEmpties(PopIfHead(s, s.queue.pending[0], Raised));
  }

  /** An idle pump, and what one failing round makes of it. */
  ghost predicate Idle(s: PumpState) {
    PumpInv(s) && s.queue.pending == [] && !Live(s.flush.task)
  }

  ghost predicate Failed(s: PumpState, t: PumpState) {
    var w := Waiter(s.drains.nextId, s.queue.enqueued + 1, false);
    && Idle(t) && t.queue.enqueued == s.queue.enqueued + 1
    && SameDrains(s.drains.(nextId := w.id + 1, waiters := s.drains.waiters + [w]), t.drains)
    && t.drains.errorWaiters == {w.id}
  }

  /** A frame is collected, a drain waits for it, and the flusher suspends in its application. */
  lemma {:induction false} RoundBegins(s: PumpState, e: Effect) returns (es: seq<PumpEvent>)
    requires Idle(s) && IsSend(e)
    ensures IsPumpRun(s, es)
    ensures var t, w := PumpRun(s, es), Waiter(s.drains.nextId, s.queue.enqueued + 1, false);
            && t.queue == Append(s.queue, [e], s.epoch) && t.flush == Flush(Applying(e), false)
            && t.drains == s.drains.(nextId := w.id + 1, waiters := s.drains.waiters + [w])
  {
    var goal := s.queue.enqueued + 1;
    DeferredSend(s, e);
    PumpSnoc(s, [], EvCollect([e], Defers));
    es := [] + [EvCollect([e], Defers)];
    DrainParks(PumpRun(s, es), goal);
    PumpSnoc(s, es, Drainer(EvDrain(Some(goal), 0, false)));
    es := es + [Drainer(EvDrain(Some(goal), 0, false))];
    FlushSuspends(PumpRun(s, es));
    PumpSnoc(s, es, Flusher(EvBegins));
    es := es + [Flusher(EvBegins)];
  }

  /** The application raises, and the close returns at once. */
  lemma {:induction false} FailingRound(s: PumpState, e: Effect) returns (es: seq<PumpEvent>)
    requires Idle(s) && IsSend(e)
    ensures IsPumpRun(s, es) && Failed(s, PumpRun(s, es))
  {
    es := RoundBegins(s, e);
    var t := PumpRun(s, es);
    PumpRunKeepsInv(s, es);
    TargetsReached(s);
    ApplicationFails(t, s.drains.waiters, Waiter(s.drains.nextId, s.queue.enqueued + 1, false));
    PumpSnoc(s, es, Flusher(EvApplyReturns(Raised)));
    es := es + [Flusher(EvApplyReturns(Raised))];
    PumpSnoc(s, es, Flusher(EvCloseReturns));
    es := es + [Flusher(EvCloseReturns)];
    PumpRunKeepsInv(s, es);
  }

  lemma {:induction false} TargetsReached(s: PumpState)
    requires PumpInv(s)
    ensures forall i :: 0 <= i < |s.drains.waiters| ==> s.drains.waiters[i].target < s.queue.enqueued + 1
  {
    assert forall i :: 0 <= i < |s.drains.waiters| ==>
                         WaiterOk(s.drains.waiters[i], s.drains, s.queue, Live(s.flush.task));
  }

  lemma {:induction false} RunThen(s: PumpState, a: seq<PumpEvent>, b: seq<PumpEvent>)
    requires IsPumpRun(s, a) && IsPumpRun(PumpRun(s, a), b)
    ensures IsPumpRun(s, a + b) && PumpRun(s, a + b) == PumpRun(PumpRun(s, a), b)
    decreases |a|
  {
    if a == [] {
      assert a + b == b;
    } else {
      assert (a + b)[1..] == a[1..] + b;
      RunThen(PumpStep(s, a[0]), a[1..], b);
    }
  }

  /** What a second failing round makes of the first one's owner. */
  lemma {:induction false} SecondFailure(s: PumpState, t: PumpState, u: PumpState)
    requires PumpInv(s) && s.drains.waiters == [] && Failed(s, t) && Failed(t, u)
    ensures |t.drains.waiters| == 1 && ExitOf(t, t.drains.waiters[0]).RaisesError?
    ensures |u.drains.waiters| == 2 && u.drains.waiters[0].id == t.drains.waiters[0].id
    ensures ExitOf(u, u.drains.waiters[0]).Returns?
  {
  }

  /**
    From the start: a drain owns the error of its own effect, and a second
    failure before its turn takes the error away, so that it returns.
   */
  lemma {:induction false} OwnedErrorIsLost() returns (es: seq<PumpEvent>, fs: seq<PumpEvent>)
    ensures IsPumpRun(InitPump(0), es) && IsPumpRun(InitPump(0), es + fs)
    ensures var t, u := PumpRun(InitPump(0), es), PumpRun(InitPump(0), es + fs);
            && |t.drains.waiters| == 1 && ExitOf(t, t.drains.waiters[0]).RaisesError?
            && |u.drains.waiters| == 2 && u.drains.waiters[0].id == t.drains.waiters[0].id
            && ExitOf(u, u.drains.waiters[0]).Returns?
  {
    InitPumpInv(0);
    es := FailingRound(InitPump(0), FIRST);
    var t := PumpRun(InitPump(0), es);
    fs := FailingRound(t, SECOND);
    RunThen(InitPump(0), es, fs);
    SecondFailure(InitPump(0), t, PumpRun(t, fs));
  }
}
