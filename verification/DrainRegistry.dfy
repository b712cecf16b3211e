/** Which drains are registered, and which steps of the pump leave them alone. */
module DrainRegistry {
  import opened Options
  import opened Effects
  import opened EffectPumpModel

  ghost predicate Registered(ws: seq<Waiter>, id: nat) {
    exists i :: 0 <= i < |ws| && ws[i].id == id
  }

  lemma {:induction false} AppendRegistered(ws: seq<Waiter>, w: Waiter, id: nat)
    requires Registered(ws, id) || w.id == id
    ensures Registered(ws + [w], id)
  {
    if w.id == id {
      assert (ws + [w])[|ws|].id == id;
    } else {
      var i :| 0 <= i < |ws| && ws[i].id == id;
      assert (ws + [w])[i].id == id;
    }
  }

  lemma {:induction false} RemoveRegistered(ws: seq<Waiter>, j: nat, id: nat)
    requires Registered(ws, id) && j < |ws| && ws[j].id != id
    ensures Registered(ws[..j] + ws[j + 1..], id)
  {
    var left := ws[..j] + ws[j + 1..];
    var i :| 0 <= i < |ws| && ws[i].id == id;
    if i < j {
      assert left[i].id == id;
    } else {
      assert left[i - 1].id == id;
    }
  }

  // ---- steps that at most wake the drains ----

  ghost predicate Woken(ws: seq<Waiter>, vs: seq<Waiter>) {
    |vs| == |ws| && forall i :: 0 <= i < |ws| ==> vs[i].id == ws[i].id && vs[i].target == ws[i].target
  }

  /** The same drains are registered, for the same targets. */
  ghost predicate SameDrains(d: Drains, e: Drains) {
    e.nextId == d.nextId && Woken(d.waiters, e.waiters)
  }

  lemma {:induction false} SameTwice(d: Drains, e: Drains, f: Drains)
    requires SameDrains(d, e) && SameDrains(e, f)
    ensures SameDrains(d, f)
  {
  }

  lemma {:induction false} SameRegistered(d: Drains, e: Drains, id: nat)
    requires SameDrains(d, e) && Registered(d.waiters, id)
    ensures Registered(e.waiters, id)
  {
    var i :| 0 <= i < |d.waiters| && d.waiters[i].id == id;
    assert e.waiters[i].id == id;
  }

  lemma {:induction false} DropSame(p: PumpState, settle: bool)
    ensures SameDrains(p.drains, Drop(p, settle).drains)
  {
  }

  lemma {:induction false} StaleSame(p: PumpState)
    ensures SameDrains(p.drains, RetireStale(p).drains)
  {
    DropSame(p, false);
  }

  lemma {:induction false} AdvanceSame(p: PumpState, k: nat, outcome: Outcome)
    requires k <= |p.queue.pending|
    ensures SameDrains(p.drains, Advance(p, k, outcome).drains)
  {
  }

  lemma {:induction false} CollectSame(p: PumpState, effects: seq<Effect>, inline: Inline)
    ensures SameDrains(p.drains, Collect(p, effects, inline).drains)
  {
    StaleSame(p);
    var t := RetireStale(p);
    if effects == [] {
    } else if p.flush.task.Closing? {
      var u := t.(queue := Append(t.queue, effects, t.epoch), ledger := Noted(t.ledger, effects));
      DropSame(u, true);
      SameTwice(p.drains, t.drains, Drop(u, true).drains);
    } else if |effects| == 1 {
      assert CollectSingle(t, effects[0], inline).drains == t.drains;
    } else {
      assert CollectMany(t, effects).drains == t.drains;
    }
  }

  lemma {:induction false} InlineSame(p: PumpState, target: Option<nat>, budget: nat, raises: bool)
    ensures SameDrains(p.drains, DrainInline(p, target, budget, raises).drains)
  {
    if InlineRuns(p) {
      StaleSame(p);
      var t := RetireStale(p);
      var k := InlineCount(t.queue, target, budget);
      AdvanceSame(t, k, Taken);
      SameTwice(p.drains, t.drains, Advance(t, k, Taken).drains);
    }
  }

  lemma {:induction false} RouteSame(d: Drains, failureAt: nat)
    ensures SameDrains(d, RouteFailure(d, failureAt))
  {
  }

  lemma {:induction false} ApplySame(p: PumpState, outcome: Outcome)
    requires p.flush.task.Applying?
    ensures SameDrains(p.drains, ApplyReturns(p, outcome).drains)
  {
    var t := PopIfHead(p, p.flush.task.effect, outcome);
    if t != p {
      AdvanceSame(p, 1, outcome);
    }
    if outcome.Raised? {
      var d := RouteFailure(t.drains, t.queue.applied);
      RouteSame(t.drains, t.queue.applied);
      DropSame(t.(drains := d, flush := t.flush.(task := Closing)), true);
      SameTwice(p.drains, t.drains, d);
      SameTwice(p.drains, d, ApplyReturns(p, outcome).drains);
    } else {
      StaleSame(t);
      SameTwice(p.drains, t.drains, ApplyReturns(p, outcome).drains);
    }
  }

  lemma {:induction false} FlushSame(p: PumpState, f: FlushEvent)
    requires FlushEnabled(p, f)
    ensures SameDrains(p.drains, FlushStep(p, f).drains)
  {
    match f
    case EvBegins => StaleSame(p.(flush := p.flush.(requested := false)));
    case EvApplyReturns(outcome) => ApplySame(p, outcome);
    case EvCloseReturns => DropSame(p, true);
    case EvDone(raised) =>
  }

  /** Every step of the pump but a drain's own leaves the registered drains alone. */
  lemma {:induction false} StepSame(p: PumpState, e: PumpEvent)
    requires PumpEnabled(p, e) && !e.Drainer?
    ensures SameDrains(p.drains, PumpStep(p, e).drains)
  {
    match e
    case EvCollect(effects, inline) => CollectSame(p, effects, inline);
    case EvDrainInline(target, budget, raises) => InlineSame(p, target, budget, raises);
    case EvSchedule =>
    case EvDrop(settle) => DropSame(p, settle);
    case EvRetire(epoch) =>
    case Flusher(f) => FlushSame(p, f);
  }

  predicate TurnOf(p: PumpState, e: PumpEvent, id: nat) {
    e.Drainer? && (e.d.EvTurn? || e.d.EvCancel?) && e.d.i < |p.drains.waiters| && p.drains.waiters[e.d.i].id == id
  }

  lemma {:induction false} AfterInlineRegistered(p: PumpState, goal: nat, raised: bool, id: nat)
    requires Registered(p.drains.waiters, id)
    ensures Registered(AfterInline(p, goal, raised).0.drains.waiters, id)
  {
    AppendRegistered(p.drains.waiters, Waiter(p.drains.nextId, goal, false), id);
  }

  lemma {:induction false} DrainKeepsRegistered(p: PumpState, d: DrainEvent, id: nat)
    requires DrainEnabled(p, d) && Registered(p.drains.waiters, id) && !TurnOf(p, Drainer(d), id)
    ensures Registered(DrainStep(p, d).drains.waiters, id)
  {
    match d
    case EvDrain(target, budget, raises) =>
      var t := DrainInline(p, target, budget, raises);
      InlineSame(p, target, budget, raises);
      SameRegistered(p.drains, t.drains, id);
      AfterInlineRegistered(t, Goal(t.queue, target), RaisedInline(p, target, budget, raises), id);
    case EvTurn(i) =>
      var ws := p.drains.waiters;
      RemoveRegistered(ws, i, id);
      AppendRegistered(ws[..i] + ws[i + 1..], Waiter(ws[i].id, ws[i].target, false), id);
    case EvCancel(i) => RemoveRegistered(p.drains.waiters, i, id);
  }

  lemma {:induction false} StepKeepsRegistered(p: PumpState, e: PumpEvent, id: nat)
    requires PumpEnabled(p, e) && Registered(p.drains.waiters, id) && !TurnOf(p, e, id)
    ensures Registered(PumpStep(p, e).drains.waiters, id)
  {
    if e.Drainer? {
      DrainKeepsRegistered(p, e.d, id);
    } else {
      StepSame(p, e);
      SameRegistered(p.drains, PumpStep(p, e).drains, id);
    }
  }
}
