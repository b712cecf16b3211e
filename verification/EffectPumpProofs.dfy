/** What every run of the protocol lane keeps. */
module EffectPumpProofs {
  import opened Options
  import opened Effects
  import opened EffectPumpModel

  /** The pending effects are exactly the ordered effects that have not left yet. */
  ghost predicate QueueOk(q: Queue) {
    |q.ordered| == q.enqueued && q.applied <= q.enqueued && q.pending == q.ordered[q.applied..]
  }

  /** Observed facts and deliveries never wait in this lane. */
  ghost predicate OrderedOnly(es: seq<Effect>) {
    forall i :: 0 <= i < |es| ==> IsSend(es[i]) || IsOther(es[i])
  }

  /** A sleeping drain is unsatisfied, owns no error, and a live flusher works for it. */
  ghost predicate WaitersOk(d: Drains, q: Queue, live: bool) {
    forall i :: 0 <= i < |d.waiters| ==> WaiterOk(d.waiters[i], d, q, live)
  }

  ghost predicate WaiterOk(w: Waiter, d: Drains, q: Queue, live: bool) {
    w.target <= q.enqueued && w.id < d.nextId
    && (w.woken || (q.applied < w.target && w.id !in d.errorWaiters && live))
  }

  ghost predicate ErrorOk(d: Drains) {
    (d.errorWaiters != {} ==> d.error) && forall id :: id in d.errorWaiters ==> id < d.nextId
  }

  /** No two drains share an identifier. */
  ghost predicate DistinctIds(ws: seq<Waiter>) {
    forall i, j :: 0 <= i < j < |ws| ==> ws[i].id != ws[j].id
  }

  /** Since the last discard, the output that left and the output pending are the output collected. */
  ghost predicate SendsOk(l: Ledger, pending: seq<Effect>) {
    l.collectedBase <= |l.collected| && l.sendsBase <= |l.sends|
    && l.collected[l.collectedBase..] == Departed(l.sends)[l.sendsBase..] + Sends(pending)
  }

  ghost predicate PumpInv(s: PumpState) {
    && QueueOk(s.queue)
    && OrderedOnly(s.queue.pending)
    && (s.flush.task.Closing? ==> s.queue.pending == [])
    && WaitersOk(s.drains, s.queue, Live(s.flush.task))
    && DistinctIds(s.drains.waiters)
    && ErrorOk(s.drains)
    && SendsOk(s.ledger, s.queue.pending)
    && Departed(s.ledger.results) == s.ledger.publishes
  }

  // ---- helper facts ----

  lemma {:induction false} NoResultsPending(es: seq<Effect>)
    requires OrderedOnly(es)
    ensures PublishResults(es) == []
  {
    SelectNone(es, IsPublishResult);
  }

  lemma {:induction false} LaneIsOrdered(es: seq<Effect>)
    ensures OrderedOnly(Lane(es))
    ensures Sends(Lane(es)) == Sends(es)
  {
    SelectHolds(es, IsSend);
    SelectHolds(es, IsOther);
    SelectConcat(Sends(es), Others(es), IsSend);
    SelectAll(Sends(es), IsSend);
    SelectNone(Others(es), IsSend);
    var l := Lane(es);
    forall i | 0 <= i < |l|
      ensures IsSend(l[i]) || IsOther(l[i])
    {
      assert l[i] in Sends(es) || l[i] in Others(es);
    }
  }

  /** Every publish result of a batch is observed at collection, in batch order. */
  lemma {:induction false} ResultsObserved(es: seq<Effect>)
    ensures PublishResults(Observed(es)) == PublishResults(es)
  {
    if es != [] {
      ResultsObserved(es[1..]);
      var h := if IsObserved(es[0]) then [es[0]] else [];
      SelectConcat(h, Observed(es[1..]), IsPublishResult);
      SelectOne(es[0], IsPublishResult);
    }
  }

  lemma {:induction false} SendsConcat(a: seq<Effect>, b: seq<Effect>)
    ensures Sends(a + b) == Sends(a) + Sends(b)
    ensures PublishResults(a + b) == PublishResults(a) + PublishResults(b)
  {
    SelectConcat(a, b, IsSend);
    SelectConcat(a, b, IsPublishResult);
  }

  // ---- leaving the lane ----

  lemma {:induction false} DepartedMore(fs: seq<Fate>, es: seq<Effect>, outcome: Outcome)
    ensures Departed(fs + FatesOf(es, outcome)) == Departed(fs) + es
  {
    if fs != [] {
      assert (fs + FatesOf(es, outcome))[1..] == fs[1..] + FatesOf(es, outcome);
      DepartedMore(fs[1..], es, outcome);
    } else {
      assert fs + FatesOf(es, outcome) == FatesOf(es, outcome);
      DepartedAll(es, outcome);
    }
  }

  lemma {:induction false} DepartedAll(es: seq<Effect>, outcome: Outcome)
    ensures Departed(FatesOf(es, outcome)) == es
  {
    if es != [] {
      DepartedAll(es[1..], outcome);
      assert FatesOf(es, outcome)[1..] == FatesOf(es[1..], outcome);
    }
  }

  lemma {:induction false} SendsAdvance(l: Ledger, pending: seq<Effect>, k: nat, outcome: Outcome)
    requires SendsOk(l, pending) && k <= |pending|
    ensures SendsOk(Leaves(l, pending[..k], outcome), pending[k..])
  {
    assert pending == pending[..k] + pending[k..];
    SendsConcat(pending[..k], pending[k..]);
    DepartedMore(l.sends, Sends(pending[..k]), outcome);
    var d := Departed(l.sends);
    assert (d + Sends(pending[..k]))[l.sendsBase..] == d[l.sendsBase..] + Sends(pending[..k]);
    Associate(d[l.sendsBase..], Sends(pending[..k]), Sends(pending[k..]));
  }

  lemma {:induction false} AdvanceKeepsInv(s: PumpState, k: nat, outcome: Outcome)
    requires PumpInv(s) && k <= |s.queue.pending|
    ensures PumpInv(Advance(s, k, outcome))
  {
    SendsAdvance(s.ledger, s.queue.pending, k, outcome);
    NoResultsPending(s.queue.pending[..k]);
    assert s.ledger.results + [] == s.ledger.results;
    if k == 0 {
      assert s.queue.pending[0..] == s.queue.pending;
    }
  }

  /** A discard empties the lane, counts everything as applied, and wakes every drain. */
  lemma {:induction false} DropEmpties(s: PumpState, settle: bool)
    requires QueueOk(s.queue) && (settle || OrderedOnly(s.queue.pending))
    ensures var t := Drop(s, settle);
            t.queue.pending == [] && t.queue.applied == t.queue.enqueued == s.queue.enqueued && QueueOk(t.queue)
            && SendsOk(t.ledger, [])
            && Departed(t.ledger.results) == Departed(s.ledger.results) + PublishResults(s.queue.pending)
  {
    DepartedMore(s.ledger.results, PublishResults(s.queue.pending), Taken);
    if !settle {
      NoResultsPending(s.queue.pending);
    }
    var t := Drop(s, settle);
    assert t.queue.ordered[t.queue.enqueued..] == [];
    assert t.ledger.collected[t.ledger.collectedBase..] == [];
    assert Departed(t.ledger.sends)[t.ledger.sendsBase..] == [];
  }

  lemma {:induction false} DropKeepsInv(s: PumpState, settle: bool)
    requires PumpInv(s)
    ensures PumpInv(Drop(s, settle)) && Drop(s, settle).queue.pending == []
  {
    DropEmpties(s, settle);
    NoResultsPending(s.queue.pending);
  }

  lemma {:induction false} RetireStaleKeepsInv(s: PumpState)
    requires PumpInv(s)
    ensures PumpInv(RetireStale(s)) && RetireStale(s).flush == s.flush
  {
    DropKeepsInv(s, false);
  }

  // ---- collection ----

  lemma {:induction false} SendsNoted(l: Ledger, pending: seq<Effect>, effects: seq<Effect>, lane: seq<Effect>)
    requires SendsOk(l, pending) && Sends(lane) == Sends(effects)
    ensures SendsOk(Noted(l, effects), pending + lane)
  {
    SendsConcat(pending, lane);
    var c := l.collected + Sends(effects);
    assert c[l.collectedBase..] == l.collected[l.collectedBase..] + Sends(effects);
    Associate(Departed(l.sends)[l.sendsBase..], Sends(pending), Sends(effects));
  }

  lemma {:induction false} AppendKeepsQueue(q: Queue, effects: seq<Effect>, epoch: int)
    requires QueueOk(q)
    ensures QueueOk(Append(q, effects, epoch)) && Append(q, effects, epoch).pending == q.pending + effects
    ensures Append(q, effects, epoch).applied == q.applied && Append(q, effects, epoch).enqueued >= q.enqueued
  {
  }

  lemma {:induction false} CollectFailingKeepsInv(s: PumpState, effects: seq<Effect>)
    requires PumpInv(s) && s.flush.task.Closing?
    ensures PumpInv(CollectFailing(s, effects))
  {
    AppendKeepsQueue(s.queue, effects, s.epoch);
    DropEmpties(s.(queue := Append(s.queue, effects, s.epoch), ledger := Noted(s.ledger, effects)), true);
    assert s.queue.pending + effects == effects;
  }

  /** The ledger after one effect was applied, or raised, at collection. */
  lemma {:induction false} SingleLeaves(l: Ledger, e: Effect, outcome: Outcome)
    requires SendsOk(l, []) && Departed(l.results) == l.publishes
    ensures var n := Leaves(Noted(l, [e]), [e], outcome); SendsOk(n, []) && Departed(n.results) == n.publishes
  {
    SendsNoted(l, [], [e], [e]);
    assert [] + [e] == [e];
    SendsAdvance(Noted(l, [e]), [e], 1, outcome);
    assert [e][..1] == [e] && [e][1..] == [];
    DepartedMore(l.results, PublishResults([e]), outcome);
  }

  lemma {:induction false} CollectSingleKeepsInv(s: PumpState, e: Effect, inline: Inline)
    requires PumpInv(s) && !s.flush.task.Closing?
    ensures PumpInv(CollectSingle(s, e, inline))
  {
    SelectOne(e, IsSend);
    SelectOne(e, IsPublishResult);
    if IsDelivery(e) {
    } else if s.queue.pending == [] && !inline.Defers? {
      SingleLeaves(s.ledger, e, if inline.Applies? then Taken else Raised);
    } else if IsImmediate(e) {
      assert Noted(s.ledger, [e]).collected == s.ledger.collected;
      DepartedMore(s.ledger.results, PublishResults([e]), Taken);
    } else {
      AppendKeepsQueue(s.queue, [e], s.epoch);
      SendsNoted(s.ledger, s.queue.pending, [e], [e]);
      assert Noted(s.ledger, [e]).publishes == s.ledger.publishes;
    }
  }

  lemma {:induction false} CollectManyKeepsInv(s: PumpState, effects: seq<Effect>)
    requires PumpInv(s) && !s.flush.task.Closing?
    ensures PumpInv(CollectMany(s, effects))
  {
    LaneIsOrdered(effects);
    ResultsObserved(effects);
    DepartedMore(s.ledger.results, PublishResults(Observed(effects)), Taken);
    AppendKeepsQueue(s.queue, Lane(effects), s.epoch);
    SendsNoted(s.ledger, s.queue.pending, effects, Lane(effects));
    if Lane(effects) == [] {
      assert s.queue.pending + [] == s.queue.pending;
    }
  }

  lemma {:induction false} CollectKeepsInv(s: PumpState, effects: seq<Effect>, inline: Inline)
    requires PumpInv(s)
    ensures PumpInv(Collect(s, effects, inline))
  {
    RetireStaleKeepsInv(s);
    if effects == [] {
    } else if s.flush.task.Closing? {
      CollectFailingKeepsInv(RetireStale(s), effects);
    } else if |effects| == 1 {
      CollectSingleKeepsInv(RetireStale(s), effects[0], inline);
    } else {
      CollectManyKeepsInv(RetireStale(s), effects);
    }
  }

  // ---- the inline drain, the flusher, drain() ----

  lemma {:induction false} ScheduleKeepsInv(s: PumpState)
    requires PumpInv(s)
    ensures PumpInv(s.(flush := Schedule(s.flush)))
  {
  }

  lemma {:induction false} DrainInlineKeepsInv(s: PumpState, target: Option<nat>, budget: nat, raises: bool)
    requires PumpInv(s)
    ensures PumpInv(DrainInline(s, target, budget, raises))
    ensures DrainInline(s, target, budget, raises).queue.enqueued == s.queue.enqueued
  {
    if InlineRuns(s) {
      RetireStaleKeepsInv(s);
      var t := RetireStale(s);
      var k := InlineCount(t.queue, target, budget);
      AdvanceKeepsInv(t, k, Taken);
      ScheduleKeepsInv(Advance(t, k, Taken));
    }
  }

  /** A flusher ends only with an empty lane, so no drain is left behind unsatisfied. */
  lemma {:induction false} EndingKeepsInv(s: PumpState, f: Flush)
    requires PumpInv(s) && s.queue.pending == []
    ensures PumpInv(s.(flush := f))
  {
    assert s.queue.applied == s.queue.enqueued;
  }

  lemma {:induction false} FlushTurnKeepsInv(s: PumpState)
    requires PumpInv(s) && Live(s.flush.task) && !s.flush.task.Closing?
    ensures PumpInv(FlushTurn(s))
  {
    RetireStaleKeepsInv(s);
    var t := RetireStale(s);
    if t.queue.pending == [] {
      EndingKeepsInv(t, Flush(Finished, false));
    }
  }

  lemma {:induction false} PopKeepsInv(s: PumpState, e: Effect, outcome: Outcome)
    requires PumpInv(s)
    ensures PumpInv(PopIfHead(s, e, outcome)) && PopIfHead(s, e, outcome).flush == s.flush
  {
    if s.queue.pending != [] {
      AdvanceKeepsInv(s, 1, outcome);
    }
  }

  lemma {:induction false} RouteKeepsOk(d: Drains, q: Queue, live: bool)
    requires WaitersOk(d, q, live) && ErrorOk(d)
    ensures WaitersOk(RouteFailure(d, q.applied), q, live) && ErrorOk(RouteFailure(d, q.applied))
  {
  }

  /** After a failing flush the lane is empty and no drain is below its target. */
  lemma {:induction false} FailConnectionKeepsInv(s: PumpState)
    requires PumpInv(s) && Live(s.flush.task)
    ensures PumpInv(FailConnection(s))
  {
    RouteKeepsOk(s.drains, s.queue, true);
    var t := s.(drains := RouteFailure(s.drains, s.queue.applied), flush := s.flush.(task := Closing));
    DropEmpties(t, true);
    NoResultsPending(s.queue.pending);
  }

  lemma {:induction false} FlushStepKeepsInv(s: PumpState, e: FlushEvent)
    requires PumpInv(s) && FlushEnabled(s, e)
    ensures PumpInv(FlushStep(s, e))
  {
    match e
    case EvBegins => FlushTurnKeepsInv(s.(flush := s.flush.(requested := false)));
    case EvApplyReturns(outcome) =>
      PopKeepsInv(s, s.flush.task.effect, outcome);
      var t := PopIfHead(s, s.flush.task.effect, outcome);
      if outcome.Raised? {
        FailConnectionKeepsInv(t);
      } else {
        FlushTurnKeepsInv(t);
      }
    case EvCloseReturns => EndingKeepsInv(s, s.flush.(task := Finished));
    case EvDone(raised) => DoneKeepsInv(s, raised);
  }

  lemma {:induction false} DoneKeepsInv(s: PumpState, raised: bool)
    requires PumpInv(s) && s.flush.task.Finished?
    ensures PumpInv(DoneCallback(s, raised))
  {
    var t := s.(flush := s.flush.(task := NoTask),
                drains := s.drains.(error := s.drains.error
                                             && !(raised && s.queue.pending == [] && s.drains.errorWaiters == {})));
    assert PumpInv(t);
    ScheduleKeepsInv(t);
  }

  lemma {:induction false} ParkKeepsInv(s: PumpState, w: Waiter)
    requires PumpInv(s)
    requires s.queue.applied < w.target <= s.queue.enqueued && w.id < s.drains.nextId && w.id !in s.drains.errorWaiters
    requires forall i :: 0 <= i < |s.drains.waiters| ==> s.drains.waiters[i].id != w.id
    ensures PumpInv(Park(s, w))
  {
  }

  lemma {:induction false} DrainCallKeepsInv(s: PumpState, target: Option<nat>, budget: nat, raises: bool)
    requires PumpInv(s) && DrainEnabled(s, EvDrain(target, budget, raises))
    ensures PumpInv(DrainCall(s, target, budget, raises).0)
  {
    DrainInlineKeepsInv(s, target, budget, raises);
    var t := DrainInline(s, target, budget, raises);
    AfterInlineKeepsInv(t, Goal(t.queue, target), RaisedInline(s, target, budget, raises));
  }

  lemma {:induction false} AfterInlineKeepsInv(s: PumpState, goal: nat, raised: bool)
    requires PumpInv(s) && goal <= s.queue.enqueued
    ensures PumpInv(AfterInline(s, goal, raised).0)
  {
    if s.queue.applied < goal {
      RegisterKeepsInv(s, goal);
    }
  }

  lemma {:induction false} RegisterKeepsInv(s: PumpState, target: nat)
    requires PumpInv(s) && s.queue.applied < target <= s.queue.enqueued
    ensures PumpInv(Register(s, target))
  {
    var id := s.drains.nextId;
    var u := s.(drains := s.drains.(nextId := id + 1));
    assert PumpInv(u);
    ParkKeepsInv(u, Waiter(id, target, false));
  }

  lemma {:induction false} RemovalKeepsInv(s: PumpState, i: nat)
    requires PumpInv(s) && i < |s.drains.waiters|
    ensures PumpInv(s.(drains := s.drains.(waiters := s.drains.waiters[..i] + s.drains.waiters[i + 1..])))
    ensures PumpInv(s.(drains := Leave(s.drains, i)))
  {
  }

  lemma {:induction false} DrainStepKeepsInv(s: PumpState, e: DrainEvent)
    requires PumpInv(s) && DrainEnabled(s, e)
    ensures PumpInv(DrainStep(s, e))
  {
    match e
    case EvDrain(target, budget, raises) => DrainCallKeepsInv(s, target, budget, raises);
    case EvTurn(i) =>
      RemovalKeepsInv(s, i);
      var w := s.drains.waiters[i];
      if ExitOf(s, w).ParksAgain? {
        ParkKeepsInv(s.(drains := s.drains.(waiters := s.drains.waiters[..i] + s.drains.waiters[i + 1..])), w);
      }
    case EvCancel(i) => RemovalKeepsInv(s, i);
  }

  lemma {:induction false} PumpStepKeepsInv(s: PumpState, e: PumpEvent)
    requires PumpInv(s) && PumpEnabled(s, e)
    ensures PumpInv(PumpStep(s, e))
  {
    match e
    case EvCollect(effects, inline) => CollectKeepsInv(s, effects, inline);
    case EvDrainInline(target, budget, raises) => DrainInlineKeepsInv(s, target, budget, raises);
    case EvSchedule => ScheduleKeepsInv(s);
    case EvDrop(settle) => DropKeepsInv(s, settle);
    case EvRetire(epoch) =>
    case Flusher(f) => FlushStepKeepsInv(s, f);
    case Drainer(d) => DrainStepKeepsInv(s, d);
  }

  lemma {:induction false} PumpRunKeepsInv(s: PumpState, es: seq<PumpEvent>)
    requires PumpInv(s) && IsPumpRun(s, es)
    ensures PumpInv(PumpRun(s, es))
    decreases |es|
  {
    if es != [] {
      PumpStepKeepsInv(s, es[0]);
      PumpRunKeepsInv(PumpStep(s, es[0]), es[1..]);
    }
  }

  // ---- what the runs promise ----

  /**
    In every reachable state: progress counts the pending effects; every
    publish result collected ended exactly once, in order; output left in
    engine order since the last discard; and a drain that sleeps has a live
    flusher working for it.
   */
  lemma {:induction false} EveryPumpRun(epoch: int, es: seq<PumpEvent>)
    requires IsPumpRun(InitPump(epoch), es)
    ensures var s := PumpRun(InitPump(epoch), es);
            && s.queue.enqueued - s.queue.applied == |s.queue.pending|
            && Departed(s.ledger.results) == s.ledger.publishes
            && SendsOk(s.ledger, s.queue.pending)
            && (forall i :: 0 <= i < |s.drains.waiters| && !s.drains.waiters[i].woken ==>
                  s.queue.applied < s.drains.waiters[i].target && Live(s.flush.task))
  {
    InitPumpInv(epoch);
    PumpRunKeepsInv(InitPump(epoch), es);
    var s := PumpRun(InitPump(epoch), es);
    assert forall i :: 0 <= i < |s.drains.waiters| ==>
                         WaiterOk(s.drains.waiters[i], s.drains, s.queue, Live(s.flush.task));
  }

  lemma {:induction false} InitPumpInv(epoch: int)
    ensures PumpInv(InitPump(epoch))
  {
    assert InitPump(epoch).queue.ordered[0..] == [];
  }

  // ---- which publish results are settled ----

  /** The publish results that their callers were told about. */
  function Settled(fs: seq<Fate>): seq<Effect> {
    if fs == [] then [] else (if fs[0].outcome.Taken? then [fs[0].effect] else []) + Settled(fs[1..])
  }

  ghost predicate AllTaken(fs: seq<Fate>) {
    forall i :: 0 <= i < |fs| ==> fs[i].outcome.Taken?
  }

  lemma {:induction false} SettledAtMost(fs: seq<Fate>)
    ensures |Settled(fs)| <= |fs|
    ensures |Settled(fs)| == |fs| <==> AllTaken(fs)
    ensures AllTaken(fs) ==> Settled(fs) == Departed(fs)
  {
    if fs != [] {
      SettledAtMost(fs[1..]);
      assert fs == [fs[0]] + fs[1..];
      assert AllTaken(fs) <==> fs[0].outcome.Taken? && AllTaken(fs[1..]);
    }
  }

  /** The one way to lose a publish result: it comes alone, nothing is pending, and applying it raises. */
  predicate Loses(s: PumpState, e: PumpEvent) {
    && e.EvCollect? && e.inline.RaisesInline? && |e.effects| == 1 && IsPublishResult(e.effects[0])
    && !s.flush.task.Closing? && RetireStale(s).queue.pending == []
  }

  lemma {:induction false} TakenMore(fs: seq<Fate>, es: seq<Effect>, outcome: Outcome)
    ensures AllTaken(fs + FatesOf(es, outcome)) <==> AllTaken(fs) && (outcome.Taken? || es == [])
  {
    var gs := fs + FatesOf(es, outcome);
    FatesOutcome(es, outcome);
    assert forall i :: 0 <= i < |fs| ==> gs[i] == fs[i];
    assert forall i :: |fs| <= i < |gs| ==> gs[i] == FatesOf(es, outcome)[i - |fs|];
    assert es != [] ==> gs[|fs|].outcome == outcome;
  }

  lemma {:induction false} FatesOutcome(es: seq<Effect>, outcome: Outcome)
    ensures forall i :: 0 <= i < |es| ==> FatesOf(es, outcome)[i].outcome == outcome
  {
    if es != [] {
      FatesOutcome(es[1..], outcome);
    }
  }

  lemma {:induction false} DropTaken(s: PumpState, settle: bool)
    ensures AllTaken(Drop(s, settle).ledger.results) <==> AllTaken(s.ledger.results)
  {
    TakenMore(s.ledger.results, PublishResults(s.queue.pending), Taken);
  }

  lemma {:induction false} AdvanceTaken(s: PumpState, k: nat, outcome: Outcome)
    requires OrderedOnly(s.queue.pending) && k <= |s.queue.pending|
    ensures Advance(s, k, outcome).ledger.results == s.ledger.results
  {
    NoResultsPending(s.queue.pending[..k]);
    assert s.ledger.results + [] == s.ledger.results;
  }

  lemma {:induction false} CollectTaken(s: PumpState, effects: seq<Effect>, inline: Inline)
    requires PumpInv(s)
    ensures AllTaken(Collect(s, effects, inline).ledger.results)
       <==> AllTaken(s.ledger.results) && !Loses(s, EvCollect(effects, inline))
  {
    DropTaken(s, false);
    var t := RetireStale(s);
    if effects == [] {
    } else if s.flush.task.Closing? {
      DropTaken(t.(queue := Append(t.queue, effects, t.epoch), ledger := Noted(t.ledger, effects)), true);
    } else if |effects| == 1 {
      SingleTaken(t, effects[0], inline);
    } else {
      TakenMore(t.ledger.results, PublishResults(Observed(effects)), Taken);
    }
  }

  lemma {:induction false} SingleTaken(s: PumpState, e: Effect, inline: Inline)
    ensures AllTaken(CollectSingle(s, e, inline).ledger.results)
       <==> AllTaken(s.ledger.results) && !(IsPublishResult(e) && s.queue.pending == [] && inline.RaisesInline?)
  {
    SelectOne(e, IsPublishResult);
    TakenMore(s.ledger.results, PublishResults([e]), Taken);
    TakenMore(s.ledger.results, PublishResults([e]), Raised);
  }

  lemma {:induction false} FlushTaken(s: PumpState, e: FlushEvent)
    requires PumpInv(s) && FlushEnabled(s, e)
    ensures AllTaken(FlushStep(s, e).ledger.results) <==> AllTaken(s.ledger.results)
  {
    match e
    case EvBegins => DropTaken(s.(flush := s.flush.(requested := false)), false);
    case EvApplyReturns(outcome) =>
      var t := PopIfHead(s, s.flush.task.effect, outcome);
      if t != s {
        AdvanceTaken(s, 1, outcome);
      }
      DropTaken(t, false);
      DropTaken(t.(drains := RouteFailure(t.drains, t.queue.applied), flush := t.flush.(task := Closing)), true);
    case EvCloseReturns => DropTaken(s, true);
    case EvDone(raised) =>
  }

  lemma {:induction false} InlineTaken(s: PumpState, target: Option<nat>, budget: nat, raises: bool)
    requires PumpInv(s)
    ensures AllTaken(DrainInline(s, target, budget, raises).ledger.results) <==> AllTaken(s.ledger.results)
  {
    if InlineRuns(s) {
      DropTaken(s, false);
      RetireStaleKeepsInv(s);
      var t := RetireStale(s);
      AdvanceTaken(t, InlineCount(t.queue, target, budget), Taken);
    }
  }

  lemma {:induction false} AfterInlineTaken(s: PumpState, goal: nat, raised: bool)
    ensures AfterInline(s, goal, raised).0.ledger == s.ledger
  {
  }

  lemma {:induction false} TurnTaken(s: PumpState, i: nat)
    requires i < |s.drains.waiters|
    ensures WaiterTurn(s, i).ledger == s.ledger
  {
  }

  lemma {:induction false} DrainTaken(s: PumpState, d: DrainEvent)
    requires PumpInv(s) && DrainEnabled(s, d)
    ensures AllTaken(DrainStep(s, d).ledger.results) <==> AllTaken(s.ledger.results)
  {
    match d
    case EvDrain(target, budget, raises) =>
      var t := DrainInline(s, target, budget, raises);
      InlineTaken(s, target, budget, raises);
      AfterInlineTaken(t, Goal(t.queue, target), RaisedInline(s, target, budget, raises));
    case EvTurn(i) => TurnTaken(s, i);
    case EvCancel(i) =>
  }

  lemma {:induction false} StepTaken(s: PumpState, e: PumpEvent)
    requires PumpInv(s) && PumpEnabled(s, e)
    ensures AllTaken(PumpStep(s, e).ledger.results) <==> AllTaken(s.ledger.results) && !Loses(s, e)
  {
    match e
    case EvCollect(effects, inline) => CollectTaken(s, effects, inline);
    case EvDrainInline(target, budget, raises) => InlineTaken(s, target, budget, raises);
    case EvSchedule =>
    case EvDrop(settle) => DropTaken(s, settle);
    case EvRetire(epoch) =>
    case Flusher(f) => FlushTaken(s, f);
    case Drainer(d) => DrainTaken(s, d);
  }

  predicate NeverLoses(s: PumpState, es: seq<PumpEvent>)
    requires IsPumpRun(s, es)
    decreases |es|
  {
    es == [] || (!Loses(s, es[0]) && NeverLoses(PumpStep(s, es[0]), es[1..]))
  }

  lemma {:induction false} RunTaken(s: PumpState, es: seq<PumpEvent>)
    requires PumpInv(s) && IsPumpRun(s, es)
    ensures AllTaken(PumpRun(s, es).ledger.results) <==> AllTaken(s.ledger.results) && NeverLoses(s, es)
    decreases |es|
  {
    if es != [] {
      StepTaken(s, es[0]);
      PumpStepKeepsInv(s, es[0]);
      RunTaken(PumpStep(s, es[0]), es[1..]);
    }
  }

  /** Every publish result of a run is settled, once each and in order, if and only if none was lost to a raise. */
  lemma {:induction false} PublishesSettledExactly(epoch: int, es: seq<PumpEvent>)
    requires IsPumpRun(InitPump(epoch), es)
    ensures var l := PumpRun(InitPump(epoch), es).ledger;
            Settled(l.results) == l.publishes <==> NeverLoses(InitPump(epoch), es)
  {
    InitPumpInv(epoch);
    PumpRunKeepsInv(InitPump(epoch), es);
    RunTaken(InitPump(epoch), es);
    SettledAtMost(PumpRun(InitPump(epoch), es).ledger.results);
  }

  lemma {:induction false} RaisedAlone(e: Effect)
    ensures FatesOf([e], Raised) == [Fate(e, Raised)] && Settled([Fate(e, Raised)]) == []
  {
    assert [e][1..] == [] && [Fate(e, Raised)][1..] == [];
  }

  /**
    What the pump does with any single effect whose applier raises: it keeps
    nothing of it. It is in no lane, and a publish result is not settled.
   */
  lemma {:induction false} RaiseKeepsNothing(s: PumpState, e: Effect)
    requires PumpInv(s) && !IsDelivery(e) && !s.flush.task.Closing? && s.queue.pending == []
    ensures var t := Collect(s, [e], RaisesInline);
            && t.queue == s.queue
            && t.ledger.sends == s.ledger.sends + (if IsSend(e) then [Fate(e, Raised)] else [])
            && t.ledger.results == s.ledger.results + (if IsPublishResult(e) then [Fate(e, Raised)] else [])
  {
    SelectOne(e, IsSend);
    SelectOne(e, IsPublishResult);
    RaisedAlone(e);
  }

  /** A run that loses a publish result, were its applier to raise: the engine's only effect is that result. */
  lemma {:induction false} RaiseLosesResult(e: Effect)
    requires IsPublishResult(e)
    ensures var es := [EvCollect([e], RaisesInline)];
            && IsPumpRun(InitPump(0), es)
            && PumpRun(InitPump(0), es).ledger.publishes == [e]
            && Settled(PumpRun(InitPump(0), es).ledger.results) == []
  {
    var es, s := [EvCollect([e], RaisesInline)], Collect(InitPump(0), [e], RaisesInline);
    assert es[1..] == [] && PumpStep(InitPump(0), es[0]) == s;
    assert IsPumpRun(s, es[1..]) && PumpRun(s, es[1..]) == s;
    InitPumpInv(0);
    RaiseKeepsNothing(InitPump(0), e);
    RaisedAlone(e);
    SelectOne(e, IsPublishResult);
  }

  // ---- drains ----

  /** A drain returns normally exactly when no ordered effect before its target is still pending. */
  lemma {:induction false} DrainReturnsMeansLeft(s: PumpState, w: Waiter)
    requires PumpInv(s) && w.target <= s.queue.enqueued && w.id !in s.drains.errorWaiters
    ensures ExitOf(s, w).Returns? <==> |s.queue.pending| <= s.queue.enqueued - w.target
    ensures ExitOf(s, w).Returns? ==> s.queue.pending == s.queue.ordered[w.target..][s.queue.applied - w.target..]
  {
    if ExitOf(s, w).Returns? {
      var k := s.queue.applied - w.target;
      assert s.queue.ordered[w.target..][k..] == s.queue.ordered[s.queue.applied..];
    }
  }

  /** While a failing flush closes, nothing is pending and every drain is satisfied. */
  lemma {:induction false} FailingCloseIsSettled(s: PumpState)
    requires PumpInv(s) && s.flush.task.Closing?
    ensures s.queue.pending == [] && s.queue.applied == s.queue.enqueued
    ensures forall i :: 0 <= i < |s.drains.waiters| ==> s.drains.waiters[i].target <= s.queue.applied
    ensures forall i :: 0 <= i < |s.drains.waiters| ==> s.drains.waiters[i].woken
  {
    forall i | 0 <= i < |s.drains.waiters|
      ensures s.drains.waiters[i].target <= s.queue.applied && s.drains.waiters[i].woken
    {
      assert WaiterOk(s.drains.waiters[i], s.drains, s.queue, Live(s.flush.task));
    }
  }

  /** Who gets the error of a failure that nobody else has caused. */
  lemma {:induction false} OwnersExact(ws: seq<Waiter>, i: nat, failureAt: nat)
    requires DistinctIds(ws) && i < |ws|
    ensures ws[i].id in Owners(ws, failureAt) <==> ws[i].target >= failureAt
  {
  }

  /**
    How each drain ends after a failure: the drains at or beyond the failed
    effect raise its error, and the others return, unless an earlier failure
    that nobody has received yet is still theirs.
   */
  lemma {:induction false} FailureRouting(s: PumpState, i: nat)
    requires PumpInv(s) && i < |s.drains.waiters|
    ensures var w := s.drains.waiters[i];
            var t := FailConnection(s);
            && (s.drains.errorWaiters == {} ==>
                  ExitOf(t, w) == if w.target >= s.queue.applied then RaisesError else Returns)
            && (ExitOf(t, w).RaisesError? <==>
                  w.target >= s.queue.applied
                  || (w.id in s.drains.errorWaiters && Owners(s.drains.waiters, s.queue.applied) == {}))
            && !ExitOf(t, w).ParksAgain?
  {
    var w := s.drains.waiters[i];
    OwnersExact(s.drains.waiters, i, s.queue.applied);
    assert WaiterOk(w, s.drains, s.queue, Live(s.flush.task));
    DropEmpties(s.(drains := RouteFailure(s.drains, s.queue.applied), flush := s.flush.(task := Closing)), true);
  }

  /** Progress never goes back, and the history of the lane is never rewritten. */
  ghost predicate Later(q: Queue, r: Queue) {
    q.applied <= r.applied && q.enqueued <= r.enqueued && q.ordered <= r.ordered
  }

  lemma {:induction false} StaleLater(s: PumpState)
    requires PumpInv(s)
    ensures Later(s.queue, RetireStale(s).queue)
  {
    if s.queue.pending != [] && s.queue.pendingEpoch != s.epoch {
      DropEmpties(s, false);
    }
  }

  lemma {:induction false} CollectLater(s: PumpState, effects: seq<Effect>, inline: Inline)
    requires PumpInv(s)
    ensures Later(s.queue, Collect(s, effects, inline).queue)
  {
    StaleLater(s);
    RetireStaleKeepsInv(s);
    var t := RetireStale(s);
    if effects == [] {
    } else if s.flush.task.Closing? {
      FailingLater(t, effects);
    } else if |effects| == 1 {
      SingleLater(t, effects[0], inline);
    } else {
      assert Later(t.queue, CollectMany(t, effects).queue);
    }
  }

  lemma {:induction false} FailingLater(s: PumpState, effects: seq<Effect>)
    requires QueueOk(s.queue)
    ensures Later(s.queue, CollectFailing(s, effects).queue)
  {
    AppendKeepsQueue(s.queue, effects, s.epoch);
    DropEmpties(s.(queue := Append(s.queue, effects, s.epoch), ledger := Noted(s.ledger, effects)), true);
  }

  lemma {:induction false} SingleLater(s: PumpState, e: Effect, inline: Inline)
    ensures Later(s.queue, CollectSingle(s, e, inline).queue)
  {
  }

  lemma {:induction false} InlineLater(s: PumpState, target: Option<nat>, budget: nat, raises: bool)
    requires PumpInv(s)
    ensures Later(s.queue, DrainInline(s, target, budget, raises).queue)
  {
    StaleLater(s);
  }

  lemma {:induction false} FlushLater(s: PumpState, e: FlushEvent)
    requires PumpInv(s) && FlushEnabled(s, e)
    ensures Later(s.queue, FlushStep(s, e).queue)
  {
    match e
    case EvBegins => StaleLater(s.(flush := s.flush.(requested := false)));
    case EvApplyReturns(outcome) =>
      PopKeepsInv(s, s.flush.task.effect, outcome);
      var t := PopIfHead(s, s.flush.task.effect, outcome);
      if outcome.Raised? {
        DropEmpties(t.(drains := RouteFailure(t.drains, t.queue.applied), flush := t.flush.(task := Closing)), true);
      } else {
        StaleLater(t);
      }
    case EvCloseReturns =>
    case EvDone(raised) =>
  }

  lemma {:induction false} PumpStepLater(s: PumpState, e: PumpEvent)
    requires PumpInv(s) && PumpEnabled(s, e)
    ensures Later(s.queue, PumpStep(s, e).queue)
  {
    match e
    case EvCollect(effects, inline) => CollectLater(s, effects, inline);
    case EvDrainInline(target, budget, raises) => InlineLater(s, target, budget, raises);
    case EvSchedule =>
    case EvDrop(settle) => DropEmpties(s, settle);
    case EvRetire(epoch) =>
    case Flusher(f) => FlushLater(s, f);
    case Drainer(d) =>
      if d.EvDrain? {
        InlineLater(s, d.target, d.budget, d.raises);
      }
  }
}
