/**
  Both lanes together: deliveries of a lot wait for the ordered effects of
  their own batch and of every earlier one, and for nothing collected later.
 */
module ProtocolFence {
  import opened Options
  import opened Effects
  import opened DrainRegistry
  import P = EffectPumpModel
  import Q = EffectPumpProofs
  import L = DeliveryLaneModel

  /** `fence` names the drain the reader sleeps in while its lot waits for the protocol lane. */
  datatype Sys = Sys(pump: P.PumpState, lane: L.LaneState, fence: Option<nat>)

  function InitSys(epoch: int, iteratorMode: bool): Sys {
    Sys(P.InitPump(epoch), L.InitLane(iteratorMode), None)
  }

  // ---- steps ----

  /** The deliveries of a batch become one lot, fenced at the lane position after that batch. */
  function CollectBatch(s: Sys, effects: seq<Effect>, inline: P.Inline): Sys {
    var p := P.Collect(s.pump, effects, inline);
    var deliveries := Deliveries(effects);
    if deliveries == [] || s.pump.flush.task.Closing? then s.(pump := p)
    else s.(pump := p, lane := L.Collect(s.lane, deliveries, s.pump.epoch, p.queue.enqueued))
  }

  function Retire(s: Sys, epoch: int): Sys {
    s.(pump := s.pump.(epoch := epoch), lane := L.Discard(s.lane))
  }

  /** The reader starts the oldest lot; a current one first drains the protocol lane to its target. */
  function BeginLot(s: Sys, budget: nat, raises: bool): Sys
    requires s.lane.lots != []
  {
    var lot := s.lane.lots[0];
    var lane := L.Begin(s.lane, lot.epoch == s.pump.epoch);
    if lot.epoch != s.pump.epoch then s.(lane := lane)
    else
      var (p, returned) := P.DrainCall(s.pump, Some(lot.target), budget, raises);
      if returned then s.(pump := p, lane := L.PassFence(lane))
      else if p.drains.nextId == s.pump.drains.nextId then s.(pump := p, lane := L.Interrupt(lane, lot.effects))
      else s.(pump := p, lane := lane, fence := Some(s.pump.drains.nextId))
  }

  function FenceTurn(s: Sys, i: nat): Sys
    requires i < |s.pump.drains.waiters| && s.lane.active.Fencing?
  {
    var p := P.WaiterTurn(s.pump, i);
    match P.ExitOf(s.pump, s.pump.drains.waiters[i])
    case Returns => s.(pump := p, lane := L.PassFence(s.lane), fence := None)
    case RaisesError => s.(pump := p, lane := L.Interrupt(s.lane, s.lane.active.lot.effects), fence := None)
    case ParksAgain => s.(pump := p)
  }

  function FenceCancelled(s: Sys, i: nat): Sys
    requires i < |s.pump.drains.waiters| && s.lane.active.Fencing?
  {
    s.(pump := s.pump.(drains := P.Leave(s.pump.drains, i)),
       lane := L.Interrupt(s.lane, s.lane.active.lot.effects), fence := None)
  }

  datatype SysEvent =
    | EvBatch(effects: seq<Effect>, inline: P.Inline)
    | EvRetire(epoch: int)
    | EvTakeCarryover
    | EvBeginLot(budget: nat, raises: bool)
    | EvFenceTurn(i: nat)
    | EvFenceCancelled(i: nat)
    | EvPump(e: P.PumpEvent)
    | EvReader(r: L.ReaderEvent)

  predicate IsFenceWaiter(s: Sys, i: nat) {
    s.fence.Some? && i < |s.pump.drains.waiters| && s.pump.drains.waiters[i].id == s.fence.value
    && s.lane.active.Fencing?
  }

  /** A delivery of a dead connection that nobody acknowledged is skipped, every other is handed over. */
  predicate HandOffAllowed(s: Sys, r: L.ReaderEvent) {
    if !(s.lane.active.Delivering? && s.lane.active.rest != []) then true
    else
      var skip := s.lane.active.lot.epoch != s.pump.epoch && !SurvivesConnection(s.lane.active.rest[0]);
      (r.EvSkip? ==> skip) && (r.EvHandNow? || r.EvHandLater? || r.EvHandRaises? ==> !skip)
  }

  predicate SysEnabled(s: Sys, e: SysEvent) {
    match e
    case EvBatch(_, _) => true
    case EvRetire(_) => true
    case EvTakeCarryover => s.lane.active.NoLot?
    case EvBeginLot(_, _) => s.lane.active.NoLot? && s.lane.lots != [] && s.lane.carryover == []
    case EvFenceTurn(i) => IsFenceWaiter(s, i) && s.pump.drains.waiters[i].woken
    case EvFenceCancelled(i) => IsFenceWaiter(s, i)
    case EvPump(p) => P.PumpEnabled(s.pump, p) && !p.EvCollect? && !p.EvRetire?
                      && (p.Drainer? && p.d.EvTurn? ==> !IsFenceWaiter(s, p.d.i))
                      && (p.Drainer? && p.d.EvCancel? ==> !IsFenceWaiter(s, p.d.i))
    case EvReader(r) => L.ReaderEnabled(s.lane, r) && !r.EvBegin? && !r.EvPassFence? && !r.EvFenceFails?
                        && HandOffAllowed(s, r)
  }

  function SysStep(s: Sys, e: SysEvent): Sys
    requires SysEnabled(s, e)
  {
    match e
    case EvBatch(effects, inline) => CollectBatch(s, effects, inline)
    case EvRetire(epoch) => Retire(s, epoch)
    case EvTakeCarryover => s.(lane := L.TakeCarryover(s.lane))
    case EvBeginLot(budget, raises) => BeginLot(s, budget, raises)
    case EvFenceTurn(i) => FenceTurn(s, i)
    case EvFenceCancelled(i) => FenceCancelled(s, i)
    case EvPump(p) => s.(pump := P.PumpStep(s.pump, p))
    case EvReader(r) => s.(lane := L.ReaderStep(s.lane, r))
  }

  predicate IsSysRun(s: Sys, es: seq<SysEvent>)
    decreases |es|
  {
    es == [] || (SysEnabled(s, es[0]) && IsSysRun(SysStep(s, es[0]), es[1..]))
  }

  function SysRun(s: Sys, es: seq<SysEvent>): Sys
    requires IsSysRun(s, es)
    decreases |es|
  {
    if es == [] then s else SysRun(SysStep(s, es[0]), es[1..])
  }

  // ---- the invariant ----

  /** Every fence lies within what the protocol lane has been given. */
  ghost predicate TargetsReached(lots: seq<L.Lot>, enqueued: nat) {
    forall i :: 0 <= i < |lots| ==> lots[i].target <= enqueued
  }

  /** A lot started on its own connection is being handed over only behind its fence. */
  ghost predicate Fenced(a: L.Active, q: P.Queue) {
    (a.Delivering? || a.Handing? ==> a.fenced ==> a.lot.target <= q.applied)
    && (!a.NoLot? ==> a.lot.target <= q.enqueued)
  }

  /** The drain the reader sleeps in is the one for its lot. */
  ghost predicate FenceBound(s: Sys) {
    (s.lane.active.Fencing? ==> s.fence.Some? && DrainBound(s.pump.drains, s.fence.value, s.lane.active.lot.target))
  }

  ghost predicate DrainBound(d: P.Drains, id: nat, target: nat) {
    id < d.nextId && forall i :: 0 <= i < |d.waiters| && d.waiters[i].id == id ==> d.waiters[i].target == target
  }

  ghost predicate SysInv(s: Sys) {
    Q.PumpInv(s.pump) && L.LaneInv(s.lane) && TargetsReached(s.lane.lots, s.pump.queue.enqueued)
    && Fenced(s.lane.active, s.pump.queue) && FenceBound(s)
  }

  // ---- a drain keeps its target ----

  lemma {:induction false} SameKeepsBound(d: P.Drains, e: P.Drains, id: nat, target: nat)
    requires SameDrains(d, e) && DrainBound(d, id, target)
    ensures DrainBound(e, id, target)
  {
  }

  lemma {:induction false} ParkKeepsBound(d: P.Drains, w: P.Waiter, nextId: nat, id: nat, target: nat)
    requires DrainBound(d, id, target) && d.nextId <= nextId && (w.id == id ==> w.target == target)
    ensures DrainBound(d.(nextId := nextId, waiters := d.waiters + [w]), id, target)
  {
  }

  lemma {:induction false} LeaveKeepsBound(d: P.Drains, i: nat, id: nat, target: nat)
    requires DrainBound(d, id, target) && i < |d.waiters|
    ensures DrainBound(d.(waiters := d.waiters[..i] + d.waiters[i + 1..]), id, target)
    ensures DrainBound(P.Leave(d, i), id, target)
  {
  }

  lemma {:induction false} AfterInlineKeepsBound(p: P.PumpState, goal: nat, raised: bool, id: nat, target: nat)
    requires DrainBound(p.drains, id, target)
    ensures DrainBound(P.AfterInline(p, goal, raised).0.drains, id, target)
  {
    var next := p.drains.nextId;
    ParkKeepsBound(p.drains, P.Waiter(next, goal, false), next + 1, id, target);
  }

  lemma {:induction false} DrainStepKeepsBound(p: P.PumpState, d: P.DrainEvent, id: nat, target: nat)
    requires DrainBound(p.drains, id, target) && P.DrainEnabled(p, d)
    ensures DrainBound(P.DrainStep(p, d).drains, id, target)
  {
    match d
    case EvDrain(t, budget, raises) =>
      var u := P.DrainInline(p, t, budget, raises);
      InlineSame(p, t, budget, raises);
      SameKeepsBound(p.drains, u.drains, id, target);
      AfterInlineKeepsBound(u, P.Goal(u.queue, t), P.RaisedInline(p, t, budget, raises), id, target);
    case EvTurn(i) =>
      var w := p.drains.waiters[i];
      LeaveKeepsBound(p.drains, i, id, target);
      ParkKeepsBound(p.drains.(waiters := p.drains.waiters[..i] + p.drains.waiters[i + 1..]),
                     P.Waiter(w.id, w.target, false), p.drains.nextId, id, target);
    case EvCancel(i) => LeaveKeepsBound(p.drains, i, id, target);
  }

  lemma {:induction false} StepKeepsBound(p: P.PumpState, e: P.PumpEvent, id: nat, target: nat)
    requires P.PumpEnabled(p, e) && DrainBound(p.drains, id, target)
    ensures DrainBound(P.PumpStep(p, e).drains, id, target)
  {
    if e.Drainer? {
      DrainStepKeepsBound(p, e.d, id, target);
    } else {
      StepSame(p, e);
      SameKeepsBound(p.drains, P.PumpStep(p, e).drains, id, target);
    }
  }

  // ---- every step keeps the invariant ----

  lemma {:induction false} LaterKeepsTargets(s: Sys, q: P.Queue)
    requires SysInv(s) && Q.Later(s.pump.queue, q)
    ensures TargetsReached(s.lane.lots, q.enqueued) && Fenced(s.lane.active, q)
  {
  }

  lemma {:induction false} BatchKeepsInv(s: Sys, effects: seq<Effect>, inline: P.Inline)
    requires SysInv(s)
    ensures SysInv(CollectBatch(s, effects, inline))
  {
    var p := P.Collect(s.pump, effects, inline);
    CollectedPumpKeepsInv(s, effects, inline);
    LotKeepsInv(s.(pump := p), Deliveries(effects), s.pump.epoch);
  }

  lemma {:induction false} CollectedPumpKeepsInv(s: Sys, effects: seq<Effect>, inline: P.Inline)
    requires SysInv(s)
    ensures SysInv(s.(pump := P.Collect(s.pump, effects, inline)))
  {
    Q.CollectKeepsInv(s.pump, effects, inline);
    Q.CollectLater(s.pump, effects, inline);
    LaterKeepsTargets(s, P.Collect(s.pump, effects, inline).queue);
    if s.lane.active.Fencing? {
      CollectSame(s.pump, effects, inline);
    }
  }

  lemma {:induction false} LotKeepsInv(s: Sys, deliveries: seq<Effect>, epoch: int)
    requires SysInv(s)
    ensures SysInv(s.(lane := L.Collect(s.lane, deliveries, epoch, s.pump.queue.enqueued)))
  {
    L.CollectKeepsInv(s.lane, deliveries, epoch, s.pump.queue.enqueued);
  }

  lemma {:induction false} RetireKeepsInv(s: Sys, epoch: int)
    requires SysInv(s)
    ensures SysInv(Retire(s, epoch))
  {
    Q.PumpStepKeepsInv(s.pump, P.EvRetire(epoch));
    L.DiscardKeepsInv(s.lane);
  }

  lemma {:induction false} PumpKeepsInv(s: Sys, e: P.PumpEvent)
    requires SysInv(s) && P.PumpEnabled(s.pump, e)
    ensures SysInv(s.(pump := P.PumpStep(s.pump, e)))
  {
    Q.PumpStepKeepsInv(s.pump, e);
    Q.PumpStepLater(s.pump, e);
    LaterKeepsTargets(s, P.PumpStep(s.pump, e).queue);
    if s.lane.active.Fencing? {
      StepKeepsBound(s.pump, e, s.fence.value, s.lane.active.lot.target);
    }
  }

  lemma {:induction false} ReaderKeepsInv(s: Sys, r: L.ReaderEvent)
    requires SysInv(s) && SysEnabled(s, EvReader(r))
    ensures SysInv(s.(lane := L.ReaderStep(s.lane, r)))
  {
    L.ReaderStepKeepsInv(s.lane, r);
  }

  lemma {:induction false} InterruptedKeepsInv(s: Sys)
    requires SysInv(s) && s.lane.active.Fencing?
    ensures SysInv(s.(lane := L.Interrupt(s.lane, s.lane.active.lot.effects), fence := None))
  {
    L.ReaderStepKeepsInv(s.lane, L.EvFenceFails);
  }

  lemma {:induction false} PassedKeepsInv(s: Sys)
    requires SysInv(s) && s.lane.active.Fencing? && s.lane.active.lot.target <= s.pump.queue.applied
    ensures SysInv(s.(lane := L.PassFence(s.lane), fence := None))
  {
    L.ReaderStepKeepsInv(s.lane, L.EvPassFence);
  }

  /** The reader passes its fence only when its drain returned, so the target was reached. */
  lemma {:induction false} FenceTurnKeepsInv(s: Sys, i: nat)
    requires SysInv(s) && SysEnabled(s, EvFenceTurn(i))
    ensures SysInv(FenceTurn(s, i))
  {
    PumpKeepsInv(s, P.Drainer(P.EvTurn(i)));
    var t := s.(pump := P.WaiterTurn(s.pump, i));
    match P.ExitOf(s.pump, s.pump.drains.waiters[i])
    case Returns => PassedKeepsInv(t);
    case RaisesError => InterruptedKeepsInv(t);
    case ParksAgain =>
  }

  lemma {:induction false} FenceCancelledKeepsInv(s: Sys, i: nat)
    requires SysInv(s) && SysEnabled(s, EvFenceCancelled(i))
    ensures SysInv(FenceCancelled(s, i))
  {
    PumpKeepsInv(s, P.Drainer(P.EvCancel(i)));
    InterruptedKeepsInv(s.(pump := s.pump.(drains := P.Leave(s.pump.drains, i))));
  }

  /** A drain that parks registers the fresh identifier with the target it was given. */
  lemma {:induction false} DrainCallBinds(p: P.PumpState, target: nat, budget: nat, raises: bool)
    requires Q.PumpInv(p)
    ensures var (t, returned) := P.DrainCall(p, Some(target), budget, raises);
            && (returned ==> target <= t.queue.applied)
            && (t.drains.nextId != p.drains.nextId ==> DrainBound(t.drains, p.drains.nextId, target))
  {
    var t := P.DrainInline(p, Some(target), budget, raises);
    InlineSame(p, Some(target), budget, raises);
    Q.DrainInlineKeepsInv(p, Some(target), budget, raises);
    AfterInlineBinds(t, target, P.RaisedInline(p, Some(target), budget, raises));
  }

  lemma {:induction false} AfterInlineBinds(p: P.PumpState, target: nat, raised: bool)
    requires Q.WaitersOk(p.drains, p.queue, P.Live(p.flush.task))
    ensures var (t, returned) := P.AfterInline(p, target, raised);
            && (returned ==> target <= t.queue.applied)
            && (t.drains.nextId != p.drains.nextId ==> DrainBound(t.drains, p.drains.nextId, target))
  {
    RegisterBinds(p.drains, p.queue, P.Live(p.flush.task), target);
  }

  lemma {:induction false} RegisterBinds(d: P.Drains, q: P.Queue, live: bool, target: nat)
    requires Q.WaitersOk(d, q, live)
    ensures DrainBound(d.(nextId := d.nextId + 1, waiters := d.waiters + [P.Waiter(d.nextId, target, false)]),
                       d.nextId, target)
  {
    assert forall i :: 0 <= i < |d.waiters| ==> Q.WaiterOk(d.waiters[i], d, q, live);
  }

  lemma {:induction false} BeginStaleKeepsInv(s: Sys)
    requires SysInv(s) && s.lane.active.NoLot? && s.lane.lots != [] && s.lane.carryover == []
    ensures SysInv(s.(lane := L.Begin(s.lane, false)))
  {
    L.BeginKeepsInv(s.lane, false);
  }

  lemma {:induction false} BeginCurrentLane(s: Sys, q: P.Queue)
    requires SysInv(s) && s.lane.active.NoLot? && s.lane.lots != [] && s.lane.carryover == []
    requires Q.Later(s.pump.queue, q)
    ensures var lane := L.Begin(s.lane, true); var lot := s.lane.lots[0];
            && L.LaneInv(lane) && TargetsReached(lane.lots, q.enqueued) && lot.target <= q.enqueued
            && L.LaneInv(L.PassFence(lane)) && L.LaneInv(L.Interrupt(lane, lot.effects))
  {
    L.BeginKeepsInv(s.lane, true);
    L.ReaderStepKeepsInv(L.Begin(s.lane, true), L.EvPassFence);
    L.ReaderStepKeepsInv(L.Begin(s.lane, true), L.EvFenceFails);
  }

  lemma {:induction false} BeginKeepsInv(s: Sys, budget: nat, raises: bool)
    requires SysInv(s) && SysEnabled(s, EvBeginLot(budget, raises))
    ensures SysInv(BeginLot(s, budget, raises))
  {
    var lot := s.lane.lots[0];
    if lot.epoch != s.pump.epoch {
      BeginStaleKeepsInv(s);
    } else {
      var e := P.EvDrain(Some(lot.target), budget, raises);
      var (p, returned) := P.DrainCall(s.pump, Some(lot.target), budget, raises);
      assert P.DrainEnabled(s.pump, e);
      Q.DrainStepKeepsInv(s.pump, e);
      Q.PumpStepLater(s.pump, P.Drainer(e));
      DrainCallBinds(s.pump, lot.target, budget, raises);
      BeginCurrentLane(s, p.queue);
    }
  }

  lemma {:induction false} SysStepKeepsInv(s: Sys, e: SysEvent)
    requires SysInv(s) && SysEnabled(s, e)
    ensures SysInv(SysStep(s, e))
  {
    match e
    case EvBatch(effects, inline) => BatchKeepsInv(s, effects, inline);
    case EvRetire(epoch) => RetireKeepsInv(s, epoch);
    case EvTakeCarryover => L.TakeKeepsInv(s.lane);
    case EvBeginLot(budget, raises) => BeginKeepsInv(s, budget, raises);
    case EvFenceTurn(i) => FenceTurnKeepsInv(s, i);
    case EvFenceCancelled(i) => FenceCancelledKeepsInv(s, i);
    case EvPump(p) => PumpKeepsInv(s, p);
    case EvReader(r) => ReaderKeepsInv(s, r);
  }

  lemma {:induction false} SysRunKeepsInv(s: Sys, es: seq<SysEvent>)
    requires SysInv(s) && IsSysRun(s, es)
    ensures SysInv(SysRun(s, es))
    decreases |es|
  {
    if es != [] {
      SysStepKeepsInv(s, es[0]);
      SysRunKeepsInv(SysStep(s, es[0]), es[1..]);
    }
  }

  lemma {:induction false} InitSysInv(epoch: int, iteratorMode: bool)
    ensures SysInv(InitSys(epoch, iteratorMode))
  {
    Q.InitPumpInv(epoch);
  }

  /** What is still pending of the protocol lane was collected after the batch of the lot being handed over. */
  ghost predicate BehindFence(a: L.Active, q: P.Queue) {
    (a.Delivering? || a.Handing?) && a.fenced ==>
      && a.lot.target <= q.applied <= |q.ordered|
      && q.pending == q.ordered[a.lot.target..][q.applied - a.lot.target..]
  }

  lemma {:induction false} FencedBehind(s: Sys)
    requires SysInv(s)
    ensures BehindFence(s.lane.active, s.pump.queue)
  {
    var a, q := s.lane.active, s.pump.queue;
    if (a.Delivering? || a.Handing?) && a.fenced {
      assert q.ordered[a.lot.target..][q.applied - a.lot.target..] == q.ordered[q.applied..];
    }
  }

  /**
    The fence: whenever a lot that was started on its own connection is being
    handed over, every ordered effect up to its target has left the protocol
    lane; what is still pending was collected after the lot's batch.
   */
  lemma {:induction false} FenceHolds(epoch: int, iteratorMode: bool, es: seq<SysEvent>)
    requires IsSysRun(InitSys(epoch, iteratorMode), es)
    ensures var s := SysRun(InitSys(epoch, iteratorMode), es); BehindFence(s.lane.active, s.pump.queue)
  {
    InitSysInv(epoch, iteratorMode);
    SysRunKeepsInv(InitSys(epoch, iteratorMode), es);
    FencedBehind(SysRun(InitSys(epoch, iteratorMode), es));
  }

  /** A lot's target is the lane position right after its own batch, and no step ever changes it. */
  lemma {:induction false} FenceIsOwnBatch(s: Sys, effects: seq<Effect>, inline: P.Inline)
    requires SysInv(s) && Deliveries(effects) != [] && !s.pump.flush.task.Closing?
    ensures var t := CollectBatch(s, effects, inline);
            && t.lane.lots == s.lane.lots + [L.Lot(s.pump.epoch, |t.pump.queue.ordered|, Deliveries(effects))]
            && t.pump.queue.ordered == s.pump.queue.ordered + (if |effects| == 1 then [] else Lane(effects))
  {
    Q.CollectKeepsInv(s.pump, effects, inline);
    Q.RetireStaleKeepsInv(s.pump);
    assert P.RetireStale(s.pump).queue.ordered == s.pump.queue.ordered;
    if |effects| == 1 {
      SelectHolds(effects, IsDelivery);
      assert Deliveries(effects)[0] in effects;
      assert IsDelivery(effects[0]);
    }
  }

  lemma {:induction false} SurvivorsAreDeliveries(es: seq<Effect>)
    ensures Survivors(Deliveries(es)) == Survivors(es)
  {
    if es != [] {
      SurvivorsAreDeliveries(es[1..]);
      if IsDelivery(es[0]) {
        assert Deliveries(es) == [es[0]] + Deliveries(es[1..]);
        SelectConcat([es[0]], Deliveries(es[1..]), SurvivesConnection);
        SelectOne(es[0], SurvivesConnection);
      } else {
        assert Deliveries(es) == Deliveries(es[1..]);
      }
    }
  }

  /**
    The acknowledged messages of a batch all enter the delivery lane, unless the
    batch arrives while a failing flush closes the connection: then none does.
   */
  lemma {:induction false} SurvivorsEnterUnlessClosing(s: Sys, effects: seq<Effect>, inline: P.Inline)
    ensures CollectBatch(s, effects, inline).lane.collected == s.lane.collected + Survivors(effects)
            <==> !s.pump.flush.task.Closing? || Survivors(effects) == []
    ensures s.pump.flush.task.Closing? ==> CollectBatch(s, effects, inline).lane == s.lane
  {
    SurvivorsAreDeliveries(effects);
  }

  // ---- every message that arrived, over whole runs ----

  /** The messages received in a run that no broker will send again, in arrival order. */
  function Received(es: seq<SysEvent>): seq<Effect> {
    if es == [] then []
    else (if es[0].EvBatch? then Survivors(es[0].effects) else []) + Received(es[1..])
  }

  /** A batch with such messages arrives while a failing flush closes the connection. */
  predicate Drops(s: Sys, e: SysEvent) {
    e.EvBatch? && s.pump.flush.task.Closing? && Survivors(e.effects) != []
  }

  predicate NeverDrops(s: Sys, es: seq<SysEvent>)
    requires IsSysRun(s, es)
    decreases |es|
  {
    es == [] || (!Drops(s, es[0]) && NeverDrops(SysStep(s, es[0]), es[1..]))
  }

  lemma {:induction false} StepCollects(s: Sys, e: SysEvent)
    requires SysEnabled(s, e)
    ensures SysStep(s, e).lane.collected
         == s.lane.collected + if e.EvBatch? && !Drops(s, e) then Survivors(e.effects) else []
  {
    if e.EvBatch? {
      SurvivorsEnterUnlessClosing(s, e.effects, e.inline);
    }
  }

  lemma {:induction false} RunCollects(s: Sys, es: seq<SysEvent>)
    requires IsSysRun(s, es)
    ensures |SysRun(s, es).lane.collected| <= |s.lane.collected| + |Received(es)|
    ensures |SysRun(s, es).lane.collected| == |s.lane.collected| + |Received(es)| <==> NeverDrops(s, es)
    ensures NeverDrops(s, es) ==> SysRun(s, es).lane.collected == s.lane.collected + Received(es)
    decreases |es|
  {
    if es != [] {
      StepCollects(s, es[0]);
      RunCollects(SysStep(s, es[0]), es[1..]);
      Associate(s.lane.collected, if es[0].EvBatch? then Survivors(es[0].effects) else [], Received(es[1..]));
    }
  }

  /**
    The delivery lane has collected every message that survives its connection,
    in arrival order, if and only if none arrived in the failing close.
   */
  lemma {:induction false} LaneGetsEverything(epoch: int, iteratorMode: bool, es: seq<SysEvent>)
    requires IsSysRun(InitSys(epoch, iteratorMode), es)
    ensures SysRun(InitSys(epoch, iteratorMode), es).lane.collected == Received(es)
       <==> NeverDrops(InitSys(epoch, iteratorMode), es)
  {
    RunCollects(InitSys(epoch, iteratorMode), es);
  }

  // ---- one run that drops a message ----

  lemma {:induction false} SysSnoc(s: Sys, es: seq<SysEvent>, e: SysEvent)
    requires IsSysRun(s, es) && SysEnabled(SysRun(s, es), e)
    ensures IsSysRun(s, es + [e]) && SysRun(s, es + [e]) == SysStep(SysRun(s, es), e)
    decreases |es|
  {
    if es == [] {
      assert IsSysRun(SysStep(s, e), []);
      assert es + [e] == [e];
    } else {
      assert (es + [e])[1..] == es[1..] + [e];
      SysSnoc(SysStep(s, es[0]), es[1..], e);
    }
  }

  const OUTPUT: Effect := Effect(SEND, 0, false)
  const MESSAGE_AFTER: Effect := Effect(MESSAGE, 1, false)

  /** One frame waits for the flusher, which suspends in its application. */
  lemma {:induction false} WitnessApplies() returns (es: seq<SysEvent>)
    ensures IsSysRun(InitSys(0, true), es)
    ensures var s := SysRun(InitSys(0, true), es);
            s.pump.flush.task == P.Applying(OUTPUT) && s.lane == InitSys(0, true).lane
  {
    var s0 := InitSys(0, true);
    SysSnoc(s0, [], EvBatch([OUTPUT], P.Defers));
    es := [] + [EvBatch([OUTPUT], P.Defers)];
    SelectOne(OUTPUT, IsDelivery);
    var s := SysRun(s0, es);
    assert s.pump.queue.pending == [OUTPUT] && s.lane == s0.lane;
    SysSnoc(s0, es, EvPump(P.EvSchedule));
    es := es + [EvPump(P.EvSchedule)];
    SysSnoc(s0, es, EvPump(P.Flusher(P.EvBegins)));
    es := es + [EvPump(P.Flusher(P.EvBegins))];
  }

  /** That application raises: the connection is being closed. */
  lemma {:induction false} WitnessCloses() returns (es: seq<SysEvent>)
    ensures IsSysRun(InitSys(0, true), es)
    ensures var s := SysRun(InitSys(0, true), es); s.pump.flush.task.Closing? && s.lane == InitSys(0, true).lane
  {
    var fs := WitnessApplies();
    var e := EvPump(P.Flusher(P.EvApplyReturns(P.Raised)));
    SysSnoc(InitSys(0, true), fs, e);
    es := fs + [e];
  }

  /** A message that no broker will send again arrives in that moment and reaches neither a lot nor the carryover. */
  lemma {:induction false} ClosingDropsMessage() returns (es: seq<SysEvent>)
    ensures IsSysRun(InitSys(0, true), es) && EvBatch([MESSAGE_AFTER], P.Applies) in es
    ensures SurvivesConnection(MESSAGE_AFTER) && SysRun(InitSys(0, true), es).lane == InitSys(0, true).lane
  {
    var fs := WitnessCloses();
    var e := EvBatch([MESSAGE_AFTER], P.Applies);
    SysSnoc(InitSys(0, true), fs, e);
    es := fs + [e];
    SurvivorsEnterUnlessClosing(SysRun(InitSys(0, true), fs), [MESSAGE_AFTER], P.Applies);
  }
}
