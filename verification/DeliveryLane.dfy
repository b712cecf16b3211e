/**
  The delivery lane object. Every public method is a step of
  `DeliveryLaneModel` and keeps `Valid()`: every acknowledged message is in
  exactly one place, in arrival order, and the counters agree.
 */
module DeliveryLaneObject {
  import opened Effects
  import opened DeliveryLaneModel

  /** How a hand-off ends before the reader would suspend. */
  datatype Handoff = Immediate | ReturnsAwaitable | RaisesNow

  /** How the awaited part of a hand-off ends. */
  datatype AwaitEnd = AwaitOk | AwaitCancel | AwaitError

  class DeliveryLane {
    const iteratorMode: bool
    var lots: seq<Lot>
    var carryover: seq<Effect>
    var active: Active
    var counters: Counters
    ghost var collected: seq<Effect>
    ghost var fates: seq<Fate>

    ghost function View(): LaneState
      reads this
    {
      LaneState(iteratorMode, lots, carryover, active, counters, collected, fates)
    }

    ghost predicate Valid()
      reads this
    {
      LaneInv(View())
    }

    constructor (iteratorMode: bool)
      ensures Valid() && View() == InitLane(iteratorMode)
    {
      this.iteratorMode := iteratorMode;
      lots, carryover, active := [], [], NoLot;
      counters := Counters(0, 0, 0, 0);
      collected, fates := [], [];
    }

    method CollectLot(effects: seq<Effect>, epoch: int, target: nat)
      requires Valid()
      modifies this`lots, this`counters, this`collected
      ensures Valid() && View() == Collect(old(View()), effects, epoch, target)
    {
      LaneStepKeepsInv(View(), EvCollect(effects, epoch, target));
      lots := lots + [Lot(epoch, target, effects)];
      counters := counters.(pending := counters.pending + |effects|);
      counters := counters.(enqueued := counters.enqueued + |effects|);
      collected := collected + Survivors(effects);
    }

    /** The reader takes ownership of the oldest lot before it may suspend. */
    method BeginLot(currentEpoch: int)
      requires Valid() && active.NoLot? && lots != [] && carryover == []
      modifies this`lots, this`counters, this`active
      ensures Valid() && View() == Begin(old(View()), old(lots)[0].epoch == currentEpoch)
    {
      LaneStepKeepsInv(View(), Reader(EvBegin(lots[0].epoch == currentEpoch)));
      var lot := lots[0];
      lots := lots[1..];
      counters := counters.(pending := counters.pending - |lot.effects|);
      counters := counters.(active := |lot.effects|);
      active := if lot.epoch == currentEpoch then Fencing(lot) else Delivering(lot, false, lot.effects);
    }

    method FencePassed()
      requires Valid() && active.Fencing?
      modifies this`active
      ensures Valid() && View() == PassFence(old(View()))
    {
      LaneStepKeepsInv(View(), Reader(EvPassFence));
      active := Delivering(active.lot, true, active.lot.effects);
    }

    /** The wait at the fence was cancelled or failed: the whole lot is kept for the next connection. */
    method FenceFailed()
      requires Valid() && active.Fencing?
      modifies this`active, this`counters, this`carryover
      ensures Valid() && View() == Interrupt(old(View()), old(active).lot.effects)
      ensures carryover == Survivors(old(active).lot.effects) + old(carryover)
    {
      LaneStepKeepsInv(View(), Reader(EvFenceFails));
      EndInterrupted(active.lot.effects);
    }

    /**
      The next effect of the lot: skipped, handed over, suspended, or failed.
      An acknowledged one is the oldest whose fate was still open, and handing
      it over at once decides it and no other.
     */
    method DeliverNext(currentEpoch: int, handoff: Handoff)
      requires Valid() && active.Delivering? && active.rest != []
      modifies this`active, this`counters, this`fates, this`carryover
      ensures Valid()
      ensures var e, d := old(active).rest[0], Decided(old(fates));
              && (SurvivesConnection(e) ==> |d| < |collected| && collected[|d|] == e)
              && (!handoff.ReturnsAwaitable? ==> Decided(fates) == d + if SurvivesConnection(e) then [e] else [])
    {
      var e, skipped := active.rest[0], active.lot.epoch != currentEpoch && !SurvivesConnection(active.rest[0]);
      LaneStepKeepsInv(View(), Reader(if skipped then EvSkip else HandoffEvent(handoff)));
      NextUndecided(View());
      DecidedOne(fates, e);
      HandOver(currentEpoch, handoff);
    }

    method HandOver(currentEpoch: int, handoff: Handoff)
      requires active.Delivering? && active.rest != []
      modifies this`active, this`counters, this`fates, this`carryover
      ensures var s := old(View());
              View() == if s.active.lot.epoch != currentEpoch && !SurvivesConnection(s.active.rest[0]) then Skip(s)
                        else if handoff.Immediate? then HandNow(s)
                        else if handoff.ReturnsAwaitable? then HandLater(s)
                        else HandRaises(s)
    {
      var lot, fenced, effect, rest := active.lot, active.fenced, active.rest[0], active.rest[1..];
      if lot.epoch != currentEpoch && !SurvivesConnection(effect) {
        active := Delivering(lot, fenced, rest);
        counters := counters.(active := counters.active - 1, applied := counters.applied + 1);
        return;
      }
      match handoff {
        case Immediate =>
          fates := fates + Delivered(effect);
          active := Delivering(lot, fenced, rest);
          counters := counters.(active := counters.active - 1, applied := counters.applied + 1);
        case ReturnsAwaitable =>
          if !iteratorMode {
            fates := fates + Delivered(effect);
          }
          active := Handing(lot, fenced, effect, rest);
        case RaisesNow =>
          fates := fates + Raises(effect);
          EndInterrupted(rest);
      }
    }

    /** A cancelled admission that had not committed is the first message of the next connection. */
    method AwaitEnded(end: AwaitEnd)
      requires Valid() && active.Handing?
      modifies this`active, this`counters, this`fates, this`carryover
      ensures Valid()
      ensures var e := old(active).current;
              end.AwaitCancel? ==>
                && fates == old(fates)
                && (iteratorMode && SurvivesConnection(e) ==> carryover != [] && carryover[0] == e)
    {
      var e := active.current;
      LaneStepKeepsInv(View(), Reader(AwaitEvent(end)));
      HeadSurvivors([e] + active.rest);
      ResumeAfterAwait(end);
    }

    method ResumeAfterAwait(end: AwaitEnd)
      requires active.Handing?
      modifies this`active, this`counters, this`fates, this`carryover
      ensures var s := old(View());
              View() == match end
                        case AwaitOk => AwaitReturns(s)
                        case AwaitCancel => AwaitCancelled(s)
                        case AwaitError => AwaitRaises(s)
    {
      var effect, rest := active.current, active.rest;
      match end {
        case AwaitOk =>
          if iteratorMode {
            fates := fates + Delivered(effect);
          }
          active := Delivering(active.lot, active.fenced, rest);
          counters := counters.(active := counters.active - 1, applied := counters.applied + 1);
        case AwaitCancel =>
          if iteratorMode && SurvivesConnection(effect) {
            rest := [effect] + rest;
          }
          EndInterrupted(rest);
        case AwaitError =>
          if iteratorMode {
            fates := fates + Raises(effect);
          }
          EndInterrupted(rest);
      }
    }

    /** The acknowledged effects of a list, in list order. */
    static method Acknowledged(effects: seq<Effect>) returns (kept: seq<Effect>)
      ensures kept == Survivors(effects)
    {
      kept := [];
      var i := 0;
      while i < |effects|
        invariant 0 <= i <= |effects|
        invariant kept == Survivors(effects[..i])
      {
        assert effects[..i + 1] == effects[..i] + [effects[i]];
        SelectSnoc(effects[..i], effects[i], SurvivesConnection);
        if SurvivesConnection(effects[i]) {
          kept := kept + [effects[i]];
        }
        i := i + 1;
      }
      assert effects[..i] == effects;
    }

    /** The `finally` of a lot that still holds effects. */
    method EndInterrupted(rest: seq<Effect>)
      modifies this`active, this`counters, this`carryover
      ensures View() == Interrupt(old(View()), rest)
    {
      var kept := Acknowledged(rest);
      carryover := kept + carryover;
      counters := counters.(pending := counters.pending + |kept|);
      counters := counters.(applied := counters.applied + counters.active - |kept|);
      counters := counters.(active := 0);
      active := NoLot;
    }

    method FinishLot()
      requires Valid() && active.Delivering? && active.rest == []
      modifies this`active, this`counters
      ensures Valid() && View() == Finish(old(View()))
    {
      LaneStepKeepsInv(View(), Reader(EvFinish));
      counters := counters.(applied := counters.applied + counters.active);
      counters := counters.(active := 0);
      active := NoLot;
    }

    /** Retires every queued lot, keeping its acknowledged messages in arrival order. */
    method DiscardLots()
      requires Valid()
      modifies this`lots, this`counters, this`carryover
      ensures Valid() && View() == Discard(old(View()))
      ensures lots == [] && carryover == old(carryover) + LotsSurvivors(old(lots))
    {
      LaneStepKeepsInv(View(), EvDiscard);
      KeepSurvivors();
    }

    method KeepSurvivors()
      modifies this`lots, this`counters, this`carryover
      ensures View() == Discard(old(View()))
    {
      var kept, queued, i := 0, 0, 0;
      while i < |lots|
        invariant 0 <= i <= |lots|
        invariant carryover == old(carryover) + LotsSurvivors(lots[..i])
        invariant kept == |LotsSurvivors(lots[..i])| && queued == LotsSize(lots[..i])
        invariant lots == old(lots) && counters == old(counters)
      {
        assert lots[..i + 1] == lots[..i] + [lots[i]];
        LotsSnoc(lots[..i], lots[i]);
        var survivors := Acknowledged(lots[i].effects);
        carryover := carryover + survivors;
        kept := kept + |survivors|;
        queued := queued + |lots[i].effects|;
        i := i + 1;
      }
      assert lots[..i] == lots;
      counters := counters.(applied := counters.applied + queued - kept);
      counters := counters.(pending := counters.pending - (queued - kept));
      lots := [];
    }

    /**
      Gives the carried messages to the client, which hands every one of them
      over: the oldest messages whose fate was open, in arrival order, once.
     */
    method TakeCarried() returns (carried: seq<Effect>)
      requires Valid() && active.NoLot?
      modifies this`counters, this`carryover, this`fates
      ensures Valid() && carried == old(carryover) && carryover == []
      ensures Decided(fates) == Decided(old(fates)) + carried
      ensures Decided(fates) <= collected
    {
      LaneStepKeepsInv(View(), EvTake);
      CarriedIsNext(View());
      carried := EmptyCarryover();
    }

    method EmptyCarryover() returns (carried: seq<Effect>)
      modifies this`counters, this`carryover, this`fates
      ensures View() == TakeCarryover(old(View())) && carried == old(carryover)
    {
      carried := carryover;
      carryover := [];
      counters := counters.(pending := counters.pending - |carried|);
      counters := counters.(applied := counters.applied + |carried|);
      fates := fates + AllDelivered(carried);
    }
  }
  function HandoffEvent(handoff: Handoff): ReaderEvent {
    match handoff
    case Immediate => EvHandNow
    case ReturnsAwaitable => EvHandLater
    case RaisesNow => EvHandRaises
  }

  function AwaitEvent(end: AwaitEnd): ReaderEvent {
    match end
    case AwaitOk => EvAwaitReturns
    case AwaitCancel => EvAwaitCancelled
    case AwaitError => EvAwaitRaises
  }

  /** The acknowledged head of the active lot is the oldest message whose fate is open. */
  lemma {:induction false} NextUndecided(s: LaneState)
    requires LaneInv(s) && s.active.Delivering? && s.active.rest != []
    ensures SurvivesConnection(s.active.rest[0]) ==>
              |Decided(s.fates)| < |s.collected| && s.collected[|Decided(s.fates)|] == s.active.rest[0]
  {
    var e, d, u := s.active.rest[0], Decided(s.fates), Undecided(s);
    HeadSurvivors(s.active.rest);
    if SurvivesConnection(e) {
      assert s.collected == d + (u + s.carryover + LotsSurvivors(s.lots));
      assert u[0] == e;
    }
  }

  lemma {:induction false} CarriedIsNext(s: LaneState)
    requires LaneInv(s) && s.active.NoLot?
    ensures var d := Decided(TakeCarryover(s).fates); d == Decided(s.fates) + s.carryover && d <= s.collected
  {
    DecidedConcat(s.fates, AllDelivered(s.carryover));
    DecidedAll(s.carryover);
    var d := Decided(s.fates);
    assert d + Undecided(s) + s.carryover == d + s.carryover;
  }
}
