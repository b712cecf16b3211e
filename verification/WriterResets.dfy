/** Exactly when a reset is harmless to parked producers. */
module WriterResets {
  import opened WriteItems
  import opened WriterModel
  import opened WriterProofs
  import opened WriterWakeups
  import opened WriterEpochs

  // ---- the line ----

  /** How many unselected producers of this epoch stand before the first one of another. */
  function Lead(ps: seq<Parked>, epoch: int): nat {
    if ps == [] then 0
    else if ps[0].notified then Lead(ps[1..], epoch)
    else if ps[0].epoch != epoch then 0
    else 1 + Lead(ps[1..], epoch)
  }

  lemma {:induction false} LeadWithout(ps: seq<Parked>, i: nat, epoch: int)
    requires i < |ps| && ps[i].notified
    ensures Lead(Without(ps, i), epoch) == Lead(ps, epoch)
  {
    if i == 0 {
      assert Without(ps, 0) == ps[1..];
    } else {
      LeadWithout(ps[1..], i - 1, epoch);
      assert Without(ps, i) == [ps[0]] + Without(ps[1..], i - 1);
    }
  }

  lemma {:induction false} LeadAppend(ps: seq<Parked>, p: Parked, epoch: int)
    requires Foreign(ps, epoch) > 0
    ensures Lead(ps + [p], epoch) == Lead(ps, epoch)
  {
    assert (ps + [p])[1..] == ps[1..] + [p];
    if ps[0].notified || ps[0].epoch == epoch {
      LeadAppend(ps[1..], p, epoch);
    }
  }

  /** One selection goes to the front: to a leftover of another epoch, or to a producer of this one. */
  lemma {:induction false} NotifyFront(ps: seq<Parked>, epoch: int)
    requires Foreign(ps, epoch) > 0
    ensures Waiting(Notify(ps, 1)) == Waiting(ps) - 1
    ensures Lead(ps, epoch) == 0 ==> Ready(Notify(ps, 1), epoch) == Ready(ps, epoch)
    ensures Lead(ps, epoch) > 0 ==>
              && Foreign(Notify(ps, 1), epoch) == Foreign(ps, epoch)
              && Lead(Notify(ps, 1), epoch) == Lead(ps, epoch) - 1
  {
    var m := if ps[0].notified then 1 else 0;
    assert Notify(ps, 1)[1..] == Notify(ps[1..], m);
    if ps[0].notified {
      NotifyFront(ps[1..], epoch);
    } else {
      assert Notify(ps[1..], 0) == ps[1..];
    }
  }

  lemma {:induction false} ReadyIndex(ps: seq<Parked>, epoch: int) returns (i: nat)
    requires Ready(ps, epoch) > 0
    ensures i < |ps| && ps[i].notified && ps[i].epoch == epoch
  {
    if ps[0].notified && ps[0].epoch == epoch {
      i := 0;
    } else {
      var j := ReadyIndex(ps[1..], epoch);
      i := j + 1;
    }
  }

  // ---- runs ----

  lemma {:induction false} RunThen(s: State, a: seq<Event>, b: seq<Event>)
    requires IsRun(s, a) && DisciplinedRun(s, a) && IsRun(Run(s, a), b) && DisciplinedRun(Run(s, a), b)
    ensures IsRun(s, a + b) && DisciplinedRun(s, a + b) && Run(s, a + b) == Run(Run(s, a), b)
    decreases |a|
  {
    if a == [] {
      assert a + b == b;
    } else {
      assert (a + b)[1..] == a[1..] + b;
      RunThen(Step(s, a[0]), a[1..], b);
    }
  }

  lemma {:induction false} RunFirst(s: State, e: Event, es: seq<Event>)
    requires Enabled(s, e) && Disciplined(s, e) && IsRun(Step(s, e), es) && DisciplinedRun(Step(s, e), es)
    ensures IsRun(s, [e] + es) && DisciplinedRun(s, [e] + es) && Run(s, [e] + es) == Run(Step(s, e), es)
  {
    assert ([e] + es)[1..] == es;
  }

  // ---- how a wakeup gets lost after a reset ----

  /** A frame that leaves no room beside itself is queued. */
  predicate Stuffed(s: State) {
    s.stock.queue != [] && s.stock.queuedBytes > s.maxBytes
  }

  /** What stays as it is while selected producers find no room. */
  ghost predicate SamePump(s: State, t: State) {
    t.stock == s.stock && t.fence == s.fence && t.maxBytes == s.maxBytes && Active(t)
  }

  /** A selected producer of this epoch finds no room and goes to the end of the line. */
  lemma {:induction false} Repark(s: State, i: nat)
    requires Inv(s) && Active(s) && Stuffed(s) && Foreign(s.line.parked, s.fence.epoch) > 0
    requires i < |s.line.parked| && s.line.parked[i].notified && s.line.parked[i].epoch == s.fence.epoch
    ensures var t, e := Resume(s, i), s.fence.epoch; var ps, qs := s.line.parked, t.line.parked;
            && Inv(t) && SamePump(s, t)
            && Foreign(qs, e) == Foreign(ps, e) && Waiting(qs) == Waiting(ps) + 1
            && Ready(qs, e) == Ready(ps, e) - 1 && Lead(qs, e) == Lead(ps, e)
  {
    var ps, p, e := s.line.parked, s.line.parked[i], s.fence.epoch;
    ResumeKeepsInv(s, i);
    CountsWithout(ps, i, e);
    LeadWithout(ps, i, e);
    CountsConcat(Without(ps, i), [Parked(p.item, e, false)], e);
    LeadAppend(Without(ps, i), Parked(p.item, e, false), e);
    assert Resume(s, i).line.parked == Without(ps, i) + [Parked(p.item, e, false)];
  }

  /** All of them do. */
  lemma {:induction false} ReparkAll(s: State) returns (es: seq<Event>)
    requires Inv(s) && Active(s) && Stuffed(s) && Foreign(s.line.parked, s.fence.epoch) > 0
    ensures IsRun(s, es) && DisciplinedRun(s, es)
    ensures var t, e := Run(s, es), s.fence.epoch; var ps, qs := s.line.parked, t.line.parked;
            && Inv(t) && SamePump(s, t)
            && Foreign(qs, e) == Foreign(ps, e) && Waiting(qs) == Waiting(ps) + Ready(ps, e)
            && Ready(qs, e) == 0 && Lead(qs, e) == Lead(ps, e)
    decreases Ready(s.line.parked, s.fence.epoch)
  {
    if Ready(s.line.parked, s.fence.epoch) == 0 {
      es := [];
    } else {
      var i := ReadyIndex(s.line.parked, s.fence.epoch);
      Repark(s, i);
      var rest := ReparkAll(Resume(s, i));
      RunFirst(s, Producer(EvResume(i)), rest);
      es := [Producer(EvResume(i))] + rest;
    }
  }

  /** A newcomer takes all the room of an idle pump. */
  lemma {:induction false} NewcomerStuffs(s: State)
    requires Inv(s) && Active(s) && s.stock.resident == 0
    ensures var t := TryData(s, Oversized(s.maxBytes), s.fence.epoch, Declined).0;
            && Inv(t) && Active(t) && Stuffed(t) && t.stock.resident == 1
            && t.line == s.line && t.fence == s.fence && t.maxBytes == s.maxBytes
  {
    var item := Oversized(s.maxBytes);
    WaitMatchesImmediate(s, Size(item));
    DataKeepsInv(s, item, s.fence.epoch, Declined);
  }

  /** The newcomer is admitted, and every selected producer finds no room. */
  lemma {:induction false} CrowdOut(s: State) returns (es: seq<Event>)
    requires Inv(s) && Active(s) && s.stock.resident == 0 && Foreign(s.line.parked, s.fence.epoch) > 0
    ensures IsRun(s, es) && DisciplinedRun(s, es)
    ensures var t, e := Run(s, es), s.fence.epoch; var ps, qs := s.line.parked, t.line.parked;
            && Inv(t) && Active(t) && t.fence == s.fence && t.stock.resident == 1
            && Foreign(qs, e) == Foreign(ps, e) && Waiting(qs) == Waiting(ps) + Ready(ps, e)
            && Ready(qs, e) == 0 && Lead(qs, e) == Lead(ps, e)
  {
    var e := EvData(Oversized(s.maxBytes), s.fence.epoch, Declined);
    NewcomerStuffs(s);
    var rest := ReparkAll(ProducerStep(s, e));
    RunFirst(s, Producer(e), rest);
    es := [Producer(e)] + rest;
  }

  /** The one frame is finished, and its selection goes to the front of the line. */
  lemma {:induction false} OneSelection(s: State) returns (es: seq<Event>)
    requires Inv(s) && Active(s) && s.stock.resident == 1
    ensures IsRun(s, es) && DisciplinedRun(s, es)
    ensures var t := Run(s, es);
            && Inv(t) && Active(t) && t.fence == s.fence && t.stock.queue == [] && Batch(t) == []
            && t.stock.resident == 0 && t.line.parked == Notify(s.line.parked, 1)
  {
    es := DrainAll(s);
    RunKeepsInv(s, es);
  }

  /**
    With a leftover of another epoch in the line and nothing resident, the
    selections of newcomers' frames reach it, however many producers of this
    epoch stand before it; then nobody is left to wake the others.
   */
  lemma {:induction false} LeftoverStrands(s: State) returns (es: seq<Event>)
    requires Inv(s) && Active(s) && s.stock.resident == 0 && Foreign(s.line.parked, s.fence.epoch) > 0
    ensures IsRun(s, es) && DisciplinedRun(s, es) && Lost(Run(s, es))
    decreases Lead(s.line.parked, s.fence.epoch)
  {
    ForeignAtMostWaiting(s.line.parked, s.fence.epoch);
    if Ready(s.line.parked, s.fence.epoch) == 0 {
      es := [];
    } else {
      var a := CrowdOut(s);
      var t := Run(s, a);
      var b := OneSelection(t);
      var u := Run(t, b);
      NotifyFront(t.line.parked, s.fence.epoch);
      RunThen(s, a, b);
      es := a + b;
      if Lead(t.line.parked, s.fence.epoch) > 0 {
        var c := LeftoverStrands(u);
        RunThen(s, a + b, c);
        es := a + b + c;
      }
    }
  }

  lemma {:induction false} UnsafeResetLoses(s: State) returns (es: seq<Event>)
    requires Inv(s) && OwnerEnabled(s, EvReset) && !ResetSafe(s.line.parked, s.fence.epoch)
    ensures IsRun(Reset(s), es) && DisciplinedRun(Reset(s), es) && Lost(Run(Reset(s), es))
  {
    OwnerStepKeepsInv(s, EvReset);
    if Foreign(s.line.parked, s.fence.epoch) > 0 {
      es := LeftoverStrands(Reset(s));
    } else {
      es := [];
    }
  }

  /**
    A reset loses no wakeup, in any continuation, exactly when nobody waits, or
    no waiting producer is a leftover of another epoch and a selected one of
    this epoch has yet to run.
   */
  lemma {:induction false} ResetExact(s: State)
    requires Inv(s) && OwnerEnabled(s, EvReset)
    ensures SafeFrom(Reset(s)) <==> ResetSafe(s.line.parked, s.fence.epoch)
  {
    if ResetSafe(s.line.parked, s.fence.epoch) {
      ResetCovers(s);
      OwnerStepKeepsInv(s, EvReset);
      forall es | IsRun(Reset(s), es) && DisciplinedRun(Reset(s), es)
        ensures !Lost(Run(Reset(s), es))
      {
        RunKeepsWakeups(Reset(s), es);
        NothingLost(Run(Reset(s), es));
      }
    } else {
      var es := UnsafeResetLoses(s);
      assert Lost(Run(Reset(s), es));
    }
  }

  /** From the start: the writer is stopped with a producer parked, and a reset without a wake strands it. */
  lemma {:induction false} BareResetLosesWakeup() returns (es: seq<Event>)
    ensures IsRun(Init(8, 1), es) && Lost(Run(Init(8, 1), es))
  {
    var s0, s := Init(8, 1), Init(8, 1);
    es, s := WitnessParks();
    RunSnoc(s0, es, Owner(EvStop));
    es := es + [Owner(EvStop)];
    RunSnoc(s0, es, Writer(EvCancelWriter(0)));
    es := es + [Writer(EvCancelWriter(0))];
    RunSnoc(s0, es, Owner(EvReset));
    es := es + [Owner(EvReset)];
    var t := Run(s0, es);
    assert t.line.parked == [Parked(PROBE, 0, false)];
    assert t.line.parked[1..] == [];
  }
}
