/** The reader-owned delivery lane: lots behind a protocol fence, and what outlives a connection. */
module DeliveryLaneModel {
  import opened Effects

  /** One collected batch of deliveries with the protocol position it waits for. */
  datatype Lot = Lot(epoch: int, target: nat, effects: seq<Effect>)

  /**
    The lot its reader is working on: waiting for the fence, ready for the next
    effect, or suspended in the hand-off of `current`. `fenced` records that
    the lot was started while its connection was current.
   */
  datatype Active =
    | NoLot
    | Fencing(lot: Lot)
    | Delivering(lot: Lot, fenced: bool, rest: seq<Effect>)
    | Handing(lot: Lot, fenced: bool, current: Effect, rest: seq<Effect>)

  datatype Counters = Counters(pending: int, active: int, enqueued: int, applied: int)

  /** What became of an acknowledged message: handed over, or its own hand-off raised. */
  datatype Fate = Fate(effect: Effect, raised: bool)

  /**
    `iteratorMode` is the delivery mode: an iterator admission delivers when it
    returns, a callback has already run when its yield is awaited.
   */
  datatype LaneState = LaneState(
    iteratorMode: bool, lots: seq<Lot>, carryover: seq<Effect>, active: Active, counters: Counters,
    collected: seq<Effect>, fates: seq<Fate>)

  function InitLane(iteratorMode: bool): LaneState {
    LaneState(iteratorMode, [], [], NoLot, Counters(0, 0, 0, 0), [], [])
  }

  function Delivered(e: Effect): seq<Fate> {
    if SurvivesConnection(e) then [Fate(e, false)] else []
  }

  function Raises(e: Effect): seq<Fate> {
    if SurvivesConnection(e) then [Fate(e, true)] else []
  }

  function AllDelivered(es: seq<Effect>): seq<Fate> {
    if es == [] then [] else [Fate(es[0], false)] + AllDelivered(es[1..])
  }

  // ---- steps ----

  function Collect(s: LaneState, effects: seq<Effect>, epoch: int, target: nat): LaneState {
    s.(lots := s.lots + [Lot(epoch, target, effects)],
       counters := s.counters.(pending := s.counters.pending + |effects|, enqueued := s.counters.enqueued + |effects|),
       collected := s.collected + Survivors(effects))
  }

  /** The reader takes the oldest lot; only a current connection has a fence to wait for. */
  function Begin(s: LaneState, current: bool): LaneState
    requires s.lots != []
  {
    var lot := s.lots[0];
    s.(lots := s.lots[1..], active := if current then Fencing(lot) else Delivering(lot, false, lot.effects),
       counters := s.counters.(pending := s.counters.pending - |lot.effects|, active := |lot.effects|))
  }

  function PassFence(s: LaneState): LaneState
    requires s.active.Fencing?
  {
    s.(active := Delivering(s.active.lot, true, s.active.lot.effects))
  }

  /** The `finally` of an interrupted lot: its acknowledged remainder goes ahead of any carryover. */
  function Interrupt(s: LaneState, rest: seq<Effect>): LaneState {
    var kept := Survivors(rest);
    s.(active := NoLot, carryover := kept + s.carryover,
       counters := s.counters.(pending := s.counters.pending + |kept|, active := 0,
                               applied := s.counters.applied + s.counters.active - |kept|))
  }

  function CountOne(c: Counters): Counters {
    c.(active := c.active - 1, applied := c.applied + 1)
  }

  /** A marked delivery of a dead connection belongs to session state and is skipped. */
  function Skip(s: LaneState): LaneState
    requires s.active.Delivering? && s.active.rest != []
  {
    s.(active := Delivering(s.active.lot, s.active.fenced, s.active.rest[1..]), counters := CountOne(s.counters))
  }

  function HandNow(s: LaneState): LaneState
    requires s.active.Delivering? && s.active.rest != []
  {
    s.(active := Delivering(s.active.lot, s.active.fenced, s.active.rest[1..]), counters := CountOne(s.counters),
       fates := s.fates + Delivered(s.active.rest[0]))
  }

  /** The hand-off returned something to await; a callback has delivered already. */
  function HandLater(s: LaneState): LaneState
    requires s.active.Delivering? && s.active.rest != []
  {
    var e := s.active.rest[0];
    s.(active := Handing(s.active.lot, s.active.fenced, e, s.active.rest[1..]),
       fates := if s.iteratorMode then s.fates else s.fates + Delivered(e))
  }

  function HandRaises(s: LaneState): LaneState
    requires s.active.Delivering? && s.active.rest != []
  {
    Interrupt(s.(fates := s.fates + Raises(s.active.rest[0])), s.active.rest[1..])
  }

  function AwaitReturns(s: LaneState): LaneState
    requires s.active.Handing?
  {
    s.(active := Delivering(s.active.lot, s.active.fenced, s.active.rest), counters := CountOne(s.counters),
       fates := if s.iteratorMode then s.fates + Delivered(s.active.current) else s.fates)
  }

  /** An admission cancelled before its commit delivered nothing, so it is put back. */
  function AwaitCancelled(s: LaneState): LaneState
    requires s.active.Handing?
  {
    var e := s.active.current;
    Interrupt(s, if s.iteratorMode && SurvivesConnection(e) then [e] + s.active.rest else s.active.rest)
  }

  function AwaitRaises(s: LaneState): LaneState
    requires s.active.Handing?
  {
    Interrupt(if s.iteratorMode then s.(fates := s.fates + Raises(s.active.current)) else s, s.active.rest)
  }

  function Finish(s: LaneState): LaneState
    requires s.active.Delivering? && s.active.rest == []
  {
    s.(active := NoLot, counters := s.counters.(applied := s.counters.applied + s.counters.active, active := 0))
  }

  function LotsSurvivors(lots: seq<Lot>): seq<Effect> {
    if lots == [] then [] else Survivors(lots[0].effects) + LotsSurvivors(lots[1..])
  }

  function LotsSize(lots: seq<Lot>): nat {
    if lots == [] then 0 else |lots[0].effects| + LotsSize(lots[1..])
  }

  /** The connection is retired: queued lots keep only their acknowledged messages. */
  function Discard(s: LaneState): LaneState {
    var kept := LotsSurvivors(s.lots);
    var dropped := LotsSize(s.lots) - |kept|;
    s.(lots := [], carryover := s.carryover + kept,
       counters := s.counters.(applied := s.counters.applied + dropped, pending := s.counters.pending - dropped))
  }

  /** The client hands the carried messages over itself. */
  function TakeCarryover(s: LaneState): LaneState {
    var n := |s.carryover|;
    s.(carryover := [], fates := s.fates + AllDelivered(s.carryover),
       counters := s.counters.(pending := s.counters.pending - n, applied := s.counters.applied + n))
  }

  // ---- events ----

  datatype ReaderEvent =
    | EvBegin(current: bool)
    | EvPassFence
    | EvFenceFails
    | EvSkip
    | EvHandNow
    | EvHandLater
    | EvHandRaises
    | EvAwaitReturns
    | EvAwaitCancelled
    | EvAwaitRaises
    | EvFinish

  datatype LaneEvent =
    | EvCollect(effects: seq<Effect>, epoch: int, target: nat)
    | EvDiscard
    | EvTake
    | Reader(r: ReaderEvent)

  /**
    One reader drains the lane; carryover is handed over between readers, that
    is with no lot active and before the next lot is begun. Only deliveries of
    a dead connection that nobody acknowledged are skipped.
   */
  predicate ReaderEnabled(s: LaneState, e: ReaderEvent) {
    match e
    case EvBegin(_) => s.active.NoLot? && s.lots != [] && s.carryover == []
    case EvPassFence => s.active.Fencing?
    case EvFenceFails => s.active.Fencing?
    case EvSkip => s.active.Delivering? && s.active.rest != [] && !SurvivesConnection(s.active.rest[0])
    case EvHandNow => s.active.Delivering? && s.active.rest != []
    case EvHandLater => s.active.Delivering? && s.active.rest != []
    case EvHandRaises => s.active.Delivering? && s.active.rest != []
    case EvAwaitReturns => s.active.Handing?
    case EvAwaitCancelled => s.active.Handing?
    case EvAwaitRaises => s.active.Handing?
    case EvFinish => s.active.Delivering? && s.active.rest == []
  }

  function ReaderStep(s: LaneState, e: ReaderEvent): LaneState
    requires ReaderEnabled(s, e)
  {
    match e
    case EvBegin(current) => Begin(s, current)
    case EvPassFence => PassFence(s)
    case EvFenceFails => Interrupt(s, s.active.lot.effects)
    case EvSkip => Skip(s)
    case EvHandNow => HandNow(s)
    case EvHandLater => HandLater(s)
    case EvHandRaises => HandRaises(s)
    case EvAwaitReturns => AwaitReturns(s)
    case EvAwaitCancelled => AwaitCancelled(s)
    case EvAwaitRaises => AwaitRaises(s)
    case EvFinish => Finish(s)
  }

  predicate LaneEnabled(s: LaneState, e: LaneEvent) {
    match e
    case EvTake => s.active.NoLot?
    case Reader(r) => ReaderEnabled(s, r)
    case _ => true
  }

  function LaneStep(s: LaneState, e: LaneEvent): LaneState
    requires LaneEnabled(s, e)
  {
    match e
    case EvCollect(effects, epoch, target) => Collect(s, effects, epoch, target)
    case EvDiscard => Discard(s)
    case EvTake => TakeCarryover(s)
    case Reader(r) => ReaderStep(s, r)
  }

  predicate IsLaneRun(s: LaneState, es: seq<LaneEvent>)
    decreases |es|
  {
    es == [] || (LaneEnabled(s, es[0]) && IsLaneRun(LaneStep(s, es[0]), es[1..]))
  }

  function LaneRun(s: LaneState, es: seq<LaneEvent>): LaneState
    requires IsLaneRun(s, es)
    decreases |es|
  {
    if es == [] then s else LaneRun(LaneStep(s, es[0]), es[1..])
  }

  // ---- the invariant ----

  /** Acknowledged messages of the active lot whose fate is still open. */
  function Undecided(s: LaneState): seq<Effect> {
    match s.active
    case NoLot => []
    case Fencing(lot) => Survivors(lot.effects)
    case Delivering(_, _, rest) => Survivors(rest)
    case Handing(_, _, e, rest) =>
      (if s.iteratorMode && SurvivesConnection(e) then [e] else []) + Survivors(rest)
  }

  function ActiveSize(a: Active): nat {
    match a
    case NoLot => 0
    case Fencing(lot) => |lot.effects|
    case Delivering(_, _, rest) => |rest|
    case Handing(_, _, _, rest) => 1 + |rest|
  }

  function Decided(fs: seq<Fate>): seq<Effect> {
    if fs == [] then [] else [fs[0].effect] + Decided(fs[1..])
  }

  /** Every acknowledged message has exactly one place, and the places are in arrival order. */
  ghost predicate InOrder(s: LaneState) {
    Placed(Decided(s.fates), Undecided(s), s.carryover, LotsSurvivors(s.lots), s.collected)
  }

  ghost predicate Placed(
    decided: seq<Effect>, undecided: seq<Effect>, carried: seq<Effect>, queued: seq<Effect>, all: seq<Effect>)
  {
    decided + undecided + carried + queued == all
  }

  ghost predicate Counted(s: LaneState) {
    s.counters.pending == LotsSize(s.lots) + |s.carryover|
    && s.counters.active == ActiveSize(s.active)
    && s.counters.enqueued == s.counters.applied + s.counters.pending + s.counters.active
  }

  ghost predicate LaneInv(s: LaneState) {
    InOrder(s) && Counted(s)
  }

  // ---- helper facts ----

  lemma {:induction false} DecidedConcat(a: seq<Fate>, b: seq<Fate>)
    ensures Decided(a + b) == Decided(a) + Decided(b)
  {
    if a == [] {
      assert a + b == b;
    } else {
      assert (a + b)[1..] == a[1..] + b;
      DecidedConcat(a[1..], b);
    }
  }

  lemma {:induction false} DecidedOne(fs: seq<Fate>, e: Effect)
    ensures Decided(fs + Delivered(e)) == Decided(fs) + Survivors([e])
    ensures Decided(fs + Raises(e)) == Decided(fs) + Survivors([e])
    ensures Survivors([e]) == if SurvivesConnection(e) then [e] else []
  {
    DecidedConcat(fs, Delivered(e));
    DecidedConcat(fs, Raises(e));
    SelectOne(e, SurvivesConnection);
    if SurvivesConnection(e) {
      assert Decided([Fate(e, false)]) == [e] + Decided([]);
      assert Decided([Fate(e, true)]) == [e] + Decided([]);
    } else {
      assert Survivors([e]) == [] && Decided(fs) + [] == Decided(fs);
      assert Delivered(e) == [] && Raises(e) == [] && fs + [] == fs;
    }
  }

  lemma {:induction false} DecidedAll(es: seq<Effect>)
    ensures Decided(AllDelivered(es)) == es
  {
    if es != [] {
      DecidedAll(es[1..]);
    }
  }

  lemma {:induction false} LotsConcat(a: seq<Lot>, b: seq<Lot>)
    ensures LotsSurvivors(a + b) == LotsSurvivors(a) + LotsSurvivors(b)
    ensures LotsSize(a + b) == LotsSize(a) + LotsSize(b)
  {
    if a == [] {
      assert a + b == b;
    } else {
      assert (a + b)[1..] == a[1..] + b;
      LotsConcat(a[1..], b);
    }
  }

  lemma {:induction false} LotsSnoc(a: seq<Lot>, lot: Lot)
    ensures LotsSurvivors(a + [lot]) == LotsSurvivors(a) + Survivors(lot.effects)
    ensures LotsSize(a + [lot]) == LotsSize(a) + |lot.effects|
  {
    LotsConcat(a, [lot]);
    assert LotsSurvivors([lot]) == Survivors(lot.effects) + LotsSurvivors([]);
    assert LotsSize([lot]) == |lot.effects| + LotsSize([]);
  }

  lemma {:induction false} HeadSurvivors(es: seq<Effect>)
    requires es != []
    ensures Survivors(es) == Survivors([es[0]]) + Survivors(es[1..])
  {
    assert es == [es[0]] + es[1..];
    SelectConcat([es[0]], es[1..], SurvivesConnection);
  }

  /** Moving the acknowledged remainder of the active lot to the front of the carryover. */
  lemma {:induction false} InterruptKeepsInv(s: LaneState, rest: seq<Effect>)
    requires Placed(Decided(s.fates), Survivors(rest), s.carryover, LotsSurvivors(s.lots), s.collected)
    requires s.counters.pending == LotsSize(s.lots) + |s.carryover|
    requires s.counters.enqueued == s.counters.applied + s.counters.pending + s.counters.active
    ensures LaneInv(Interrupt(s, rest))
  {
    var d, k, c, l := Decided(s.fates), Survivors(rest), s.carryover, LotsSurvivors(s.lots);
    assert d + [] + (k + c) + l == d + k + c + l;
  }

  // ---- every step keeps it ----

  lemma {:induction false} CollectKeepsInv(s: LaneState, effects: seq<Effect>, epoch: int, target: nat)
    requires LaneInv(s)
    ensures LaneInv(Collect(s, effects, epoch, target))
  {
    LotsSnoc(s.lots, Lot(epoch, target, effects));
    var d, u, c, l := Decided(s.fates), Undecided(s), s.carryover, LotsSurvivors(s.lots);
    assert d + u + c + (l + Survivors(effects)) == d + u + c + l + Survivors(effects);
  }

  lemma {:induction false} BeginKeepsInv(s: LaneState, current: bool)
    requires LaneInv(s) && ReaderEnabled(s, EvBegin(current))
    ensures LaneInv(Begin(s, current))
  {
    var d, k, l := Decided(s.fates), Survivors(s.lots[0].effects), LotsSurvivors(s.lots[1..]);
    assert d + [] + [] + (k + l) == d + k + [] + l;
  }

  /** Deciding one message moves it from open to decided and keeps every place. */
  lemma {:induction false} DecideOne(
    d: seq<Effect>, e: Effect, t: seq<Effect>, c: seq<Effect>, l: seq<Effect>, all: seq<Effect>)
    requires Placed(d, Survivors([e]) + t, c, l, all)
    ensures Placed(d + Survivors([e]), t, c, l, all)
  {
    assert d + (Survivors([e]) + t) == d + Survivors([e]) + t;
  }

  lemma {:induction false} HandNowKeepsInv(s: LaneState)
    requires LaneInv(s) && ReaderEnabled(s, EvHandNow)
    ensures LaneInv(HandNow(s)) && LaneInv(HandRaises(s))
  {
    var e, t := s.active.rest[0], s.active.rest[1..];
    HeadSurvivors(s.active.rest);
    DecideOne(Decided(s.fates), e, Survivors(t), s.carryover, LotsSurvivors(s.lots), s.collected);
    DecidedOne(s.fates, e);
    InterruptKeepsInv(s.(fates := s.fates + Raises(e)), t);
  }

  lemma {:induction false} SkipKeepsInv(s: LaneState)
    requires LaneInv(s) && ReaderEnabled(s, EvSkip)
    ensures LaneInv(Skip(s))
  {
    HeadSurvivors(s.active.rest);
    DecidedOne(s.fates, s.active.rest[0]);
    assert Survivors(s.active.rest) == Survivors(s.active.rest[1..]);
  }

  lemma {:induction false} HandLaterKeepsInv(s: LaneState)
    requires LaneInv(s) && ReaderEnabled(s, EvHandLater)
    ensures LaneInv(HandLater(s))
  {
    var e, t := s.active.rest[0], s.active.rest[1..];
    HeadSurvivors(s.active.rest);
    DecidedOne(s.fates, e);
    if s.iteratorMode {
      assert Undecided(HandLater(s)) == Undecided(s);
    } else {
      DecideOne(Decided(s.fates), e, Survivors(t), s.carryover, LotsSurvivors(s.lots), s.collected);
      assert Undecided(HandLater(s)) == Survivors(t);
    }
  }

  lemma {:induction false} AwaitReturnsKeepsInv(s: LaneState)
    requires LaneInv(s) && s.active.Handing?
    ensures LaneInv(AwaitReturns(s))
  {
    var e, t := s.active.current, s.active.rest;
    DecidedOne(s.fates, e);
    if s.iteratorMode {
      assert Undecided(s) == Survivors([e]) + Survivors(t);
      DecideOne(Decided(s.fates), e, Survivors(t), s.carryover, LotsSurvivors(s.lots), s.collected);
    } else {
      assert Undecided(s) == Survivors(t);
    }
  }

  lemma {:induction false} AwaitRaisesKeepsInv(s: LaneState)
    requires LaneInv(s) && s.active.Handing?
    ensures LaneInv(AwaitRaises(s))
  {
    var e, t := s.active.current, s.active.rest;
    DecidedOne(s.fates, e);
    if s.iteratorMode {
      assert Undecided(s) == Survivors([e]) + Survivors(t);
      DecideOne(Decided(s.fates), e, Survivors(t), s.carryover, LotsSurvivors(s.lots), s.collected);
      InterruptKeepsInv(s.(fates := s.fates + Raises(e)), t);
    } else {
      assert Undecided(s) == Survivors(t);
      InterruptKeepsInv(s, t);
    }
  }

  lemma {:induction false} AwaitCancelledKeepsInv(s: LaneState)
    requires LaneInv(s) && s.active.Handing?
    ensures LaneInv(AwaitCancelled(s))
  {
    var e, t := s.active.current, s.active.rest;
    if s.iteratorMode && SurvivesConnection(e) {
      DecidedOne(s.fates, e);
      HeadSurvivors([e] + t);
      assert ([e] + t)[1..] == t;
      assert Undecided(s) == Survivors([e] + t);
      InterruptKeepsInv(s, [e] + t);
    } else {
      assert Undecided(s) == Survivors(t);
      InterruptKeepsInv(s, t);
    }
  }

  lemma {:induction false} DiscardKeepsInv(s: LaneState)
    requires LaneInv(s)
    ensures LaneInv(Discard(s))
  {
    var d, u, c, l := Decided(s.fates), Undecided(s), s.carryover, LotsSurvivors(s.lots);
    assert d + u + (c + l) + [] == d + u + c + l;
  }

  lemma {:induction false} TakeKeepsInv(s: LaneState)
    requires LaneInv(s) && s.active.NoLot?
    ensures LaneInv(TakeCarryover(s))
  {
    DecidedConcat(s.fates, AllDelivered(s.carryover));
    DecidedAll(s.carryover);
    var d, c, l := Decided(s.fates), s.carryover, LotsSurvivors(s.lots);
    assert (d + c) + [] + [] + l == d + [] + c + l;
  }

  lemma {:induction false} ReaderStepKeepsInv(s: LaneState, e: ReaderEvent)
    requires LaneInv(s) && ReaderEnabled(s, e)
    ensures LaneInv(ReaderStep(s, e))
  {
    match e
    case EvBegin(current) => BeginKeepsInv(s, current);
    case EvPassFence =>
    case EvFenceFails => InterruptKeepsInv(s, s.active.lot.effects);
    case EvSkip => SkipKeepsInv(s);
    case EvHandNow => HandNowKeepsInv(s);
    case EvHandLater => HandLaterKeepsInv(s);
    case EvHandRaises => HandNowKeepsInv(s);
    case EvAwaitReturns => AwaitReturnsKeepsInv(s);
    case EvAwaitCancelled => AwaitCancelledKeepsInv(s);
    case EvAwaitRaises => AwaitRaisesKeepsInv(s);
    case EvFinish =>
  }

  lemma {:induction false} LaneStepKeepsInv(s: LaneState, e: LaneEvent)
    requires LaneInv(s) && LaneEnabled(s, e)
    ensures LaneInv(LaneStep(s, e))
  {
    match e
    case EvCollect(effects, epoch, target) => CollectKeepsInv(s, effects, epoch, target);
    case EvDiscard => DiscardKeepsInv(s);
    case EvTake => TakeKeepsInv(s);
    case Reader(r) => ReaderStepKeepsInv(s, r);
  }

  lemma {:induction false} LaneRunKeepsInv(s: LaneState, es: seq<LaneEvent>)
    requires LaneInv(s) && IsLaneRun(s, es)
    ensures LaneInv(LaneRun(s, es))
    decreases |es|
  {
    if es != [] {
      LaneStepKeepsInv(s, es[0]);
      LaneRunKeepsInv(LaneStep(s, es[0]), es[1..]);
    }
  }

  /**
    Exactly once, in arrival order, over every run: the messages decided so
    far are a prefix of the acknowledged messages collected, and once nothing
    is outstanding they are all of them.
   */
  lemma {:induction false} ExactlyOnceInOrder(iteratorMode: bool, es: seq<LaneEvent>)
    requires IsLaneRun(InitLane(iteratorMode), es)
    ensures var s := LaneRun(InitLane(iteratorMode), es);
            LaneInv(s) && Decided(s.fates) <= s.collected
            && (s.counters.pending + s.counters.active == 0 ==> Decided(s.fates) == s.collected)
  {
    assert LaneInv(InitLane(iteratorMode));
    LaneRunKeepsInv(InitLane(iteratorMode), es);
    DecidedIsPrefix(LaneRun(InitLane(iteratorMode), es));
  }

  lemma {:induction false} DecidedIsPrefix(s: LaneState)
    requires LaneInv(s)
    ensures Decided(s.fates) <= s.collected
    ensures s.counters.pending + s.counters.active == 0 ==> Decided(s.fates) == s.collected
  {
    if s.counters.pending + s.counters.active == 0 {
      LotsWithin(s.lots);
      SelectHolds(if s.active.Fencing? then s.active.lot.effects else [], SurvivesConnection);
      SelectHolds(if s.active.Delivering? then s.active.rest else [], SurvivesConnection);
    }
  }

  lemma {:induction false} LotsWithin(lots: seq<Lot>)
    ensures |LotsSurvivors(lots)| <= LotsSize(lots)
  {
    if lots != [] {
      LotsWithin(lots[1..]);
      SelectHolds(lots[0].effects, SurvivesConnection);
    }
  }
}
