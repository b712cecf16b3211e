/** Exactly when a change of epoch without a wake is harmless to parked producers. */
module WriterEpochs {
  import opened WriteItems
  import opened WriterModel
  import opened WriterProofs
  import opened WriterWakeups

  // ---- the writer left to itself ----

  lemma {:induction false} NotifyTwice(ps: seq<Parked>, a: nat, b: nat)
    ensures Notify(Notify(ps, a), b) == Notify(ps, a + b)
  {
    if ps != [] && a != 0 {
      var m := if ps[0].notified then a else a - 1;
      NotifyTwice(ps[1..], m, b);
      assert Notify(ps, a)[1..] == Notify(ps[1..], m);
    }
  }

  lemma {:induction false} NotifyEnough(ps: seq<Parked>, a: nat, b: nat)
    requires Waiting(ps) <= a && Waiting(ps) <= b
    ensures Notify(ps, a) == Notify(ps, b)
  {
    if ps != [] {
      if ps[0].notified {
        NotifyEnough(ps[1..], a, b);
        NotifyHead(ps, a);
        NotifyHead(ps, b);
      } else {
        NotifyEnough(ps[1..], a - 1, b - 1);
      }
    }
  }

  lemma {:induction false} NotifyHead(ps: seq<Parked>, n: nat)
    requires ps != [] && ps[0].notified
    ensures Notify(ps, n) == [ps[0]] + Notify(ps[1..], n)
  {
    assert ps == [ps[0]] + ps[1..];
  }

  /** What one completed batch of b frames selects, and what the remaining frames will. */
  lemma {:induction false} NotifyBatch(ps: seq<Parked>, b: nat, later: nat)
    ensures Notify(Notify(ps, Min(|ps|, b)), later) == Notify(ps, b + later)
  {
    WaitingAtMost(ps);
    if |ps| < b {
      NotifyEnough(ps, |ps|, b);
    }
    NotifyTwice(ps, b, later);
  }

  function Stage(w: WriterTask): nat {
    match w
    case Absent => 5
    case Booting => 4
    case Idle => 3
    case Busy(_, rest, _) => if rest == [] then 1 else 2
    case Dead => 0
  }

  /** What the writer does next when it is left to itself. */
  function NextMove(s: State): Event {
    match s.task.writer
    case Absent => Owner(EvStart(false))
    case Booting => Writer(EvBoot)
    case Idle => Writer(EvTake)
    case Busy(_, rest, _) => if rest == [] then Writer(EvDone) else Writer(EvExpose(|rest|))
    case Dead => Owner(EvWake)
  }

  /** Everybody the resident frames will select, counted from here. */
  function Selected(s: State): seq<Parked> {
    Notify(s.line.parked, Max0(s.stock.resident))
  }

  ghost predicate Drained(s: State, t: State) {
    Active(t) && t.fence == s.fence && t.stock.queue == [] && Batch(t) == [] && t.line.parked == Selected(s)
  }

  ghost predicate Closer(s: State, t: State) {
    && Active(t) && t.fence == s.fence && Selected(t) == Selected(s)
    && 0 <= t.stock.resident <= s.stock.resident
    && (t.stock.resident == s.stock.resident ==> Stage(t.task.writer) < Stage(s.task.writer))
  }

  lemma {:induction false} DoneIsCloser(s: State)
    requires Inv(s) && Active(s) && s.task.writer.Busy? && s.task.writer.rest == []
    ensures Closer(s, Done(s))
  {
    var b := |s.task.writer.batch|;
    NotifyBatch(s.line.parked, b, s.stock.resident - b);
    assert s.line.waiters == |s.line.parked|;
  }

  lemma {:induction false} MoveIsProgress(s: State)
    requires Inv(s) && Active(s) && s.stock.resident > 0
    ensures Enabled(s, NextMove(s)) && Disciplined(s, NextMove(s)) && Closer(s, Step(s, NextMove(s)))
  {
    match s.task.writer
    case Absent => assert Closer(s, Start(s, false));
    case Booting => assert Closer(s, LoopTop(s));
    case Idle => assert Closer(s, Take(s));
    case Busy(_, rest, _) =>
      if rest == [] {
        DoneIsCloser(s);
      } else {
        assert Closer(s, Expose(s, |rest|));
      }
  }

  /** The writer can always finish every resident frame, and then has selected one producer for each. */
  lemma {:induction false} DrainAll(s: State) returns (es: seq<Event>)
    requires Inv(s) && Active(s)
    ensures IsRun(s, es) && DisciplinedRun(s, es) && Drained(s, Run(s, es))
    decreases s.stock.resident, Stage(s.task.writer)
  {
    if s.stock.resident == 0 {
      es := [];
    } else {
      MoveIsProgress(s);
      var e := NextMove(s);
      StepKeepsInv(s, e);
      var rest := DrainAll(Step(s, e));
      es := [e] + rest;
      assert es[1..] == rest;
    }
  }

  // ---- an unsafe change of epoch ----

  lemma {:induction false} ReadyAfterNotify(ps: seq<Parked>, n: nat, epoch: int)
    requires OldFirst(ps, epoch) && Ready(ps, epoch) == 0 && n <= Foreign(ps, epoch)
    ensures Ready(Notify(ps, n), epoch) == 0 && Waiting(Notify(ps, n)) == Waiting(ps) - n
  {
    NotifyCounts(ps, n, epoch);
    ForeignAtMostWaiting(ps, epoch);
  }

  /** A frame that does not fit beside any other. */
  function Oversized(maxBytes: nat): (item: WriteItem)
    ensures Size(item) > maxBytes
  {
    Frame(seq(maxBytes + 1, _ => 0))
  }

  /** A producer of the new epoch joins the line behind the stale ones. */
  lemma {:induction false} NewcomerParks(s: State)
    requires Inv(s) && Active(s) && s.stock.resident > 0
    ensures var t := WaitTurn(s, Oversized(s.maxBytes), s.fence.epoch);
            && Inv(t) && Active(t) && t.fence == s.fence && t.stock == s.stock
            && t.line.parked == s.line.parked + [Parked(Oversized(s.maxBytes), s.fence.epoch, false)]
  {
    WaitMatchesImmediate(s, Size(Oversized(s.maxBytes)));
    WaitTurnKeepsInv(s, Oversized(s.maxBytes), s.fence.epoch);
  }

  /** With more stale producers than frames, finishing the frames strands the rest. */
  lemma {:induction false} FramesRunOut(s: State) returns (es: seq<Event>)
    requires Inv(s) && Active(s)
    requires OldFirst(s.line.parked, s.fence.epoch) && Ready(s.line.parked, s.fence.epoch) == 0
    requires s.stock.resident <= Foreign(s.line.parked, s.fence.epoch) && s.stock.resident < Waiting(s.line.parked)
    ensures IsRun(s, es) && DisciplinedRun(s, es) && Lost(Run(s, es))
  {
    es := DrainAll(s);
    ReadyAfterNotify(s.line.parked, s.stock.resident, s.fence.epoch);
  }

  /** Every unsafe change of epoch can end in a lost wakeup, however the owner behaves afterwards. */
  lemma {:induction false} UnsafeEpochLoses(s: State, epoch: int) returns (es: seq<Event>)
    requires Inv(s) && Active(s) && Unused(s.line.parked, epoch) && !EpochSafe(s, epoch)
    ensures IsRun(SetEpoch(s, epoch), es) && DisciplinedRun(SetEpoch(s, epoch), es)
    ensures Lost(Run(SetEpoch(s, epoch), es))
  {
    var t := SetEpoch(s, epoch);
    SetEpochKeepsInv(s, epoch);
    AllForeign(s.line.parked, epoch);
    if s.stock.resident < Waiting(s.line.parked) {
      es := FramesRunOut(t);
    } else {
      var item := Oversized(s.maxBytes);
      var u := WaitTurn(t, item, epoch);
      var newcomer := Parked(item, epoch, false);
      NewcomerParks(t);
      CountsConcat(t.line.parked, [newcomer], epoch);
      ForeignConcat(t.line.parked, newcomer, epoch);
      var rest := FramesRunOut(u);
      es := [Producer(EvWait(item, epoch))] + rest;
      assert es[1..] == rest;
    }
  }

  /** No continuation in which the owner keeps its rules loses a wakeup. */
  ghost predicate SafeFrom(s: State) {
    forall es :: IsRun(s, es) && DisciplinedRun(s, es) ==> !Lost(Run(s, es))
  }

  /**
    A bare change to an epoch nobody parked under is harmless, in every
    continuation, exactly when nobody waits or more frames than waiting
    producers are resident.
   */
  lemma {:induction false} SetEpochExact(s: State, epoch: int)
    requires Inv(s) && WakeInv(s) && Active(s) && (epoch == s.fence.epoch || Unused(s.line.parked, epoch))
    ensures SafeFrom(SetEpoch(s, epoch)) <==> EpochSafe(s, epoch)
  {
    if EpochSafe(s, epoch) {
      SetEpochCovers(s, epoch);
      SetEpochKeepsInv(s, epoch);
      forall es | IsRun(SetEpoch(s, epoch), es) && DisciplinedRun(SetEpoch(s, epoch), es)
        ensures !Lost(Run(SetEpoch(s, epoch), es))
      {
        RunKeepsWakeups(SetEpoch(s, epoch), es);
        NothingLost(Run(SetEpoch(s, epoch), es));
      }
    } else {
      var es := UnsafeEpochLoses(s, epoch);
      assert Lost(Run(SetEpoch(s, epoch), es));
    }
  }

  // ---- one run from the start ----

  lemma {:induction false} RunSnoc(s: State, es: seq<Event>, e: Event)
    requires IsRun(s, es) && Enabled(Run(s, es), e)
    ensures IsRun(s, es + [e]) && Run(s, es + [e]) == Step(Run(s, es), e)
    decreases |es|
  {
    if es == [] {
      assert IsRun(Step(s, e), []);
      assert es + [e] == [e];
    } else {
      assert (es + [e])[1..] == es[1..] + [e];
      RunSnoc(Step(s, es[0]), es[1..], e);
    }
  }

  /** Both producers of the witness send this one-byte frame. */
  const PROBE: WriteItem := Frame([1])

  /** The first frame fills the writer, and a producer of epoch 0 parks behind it. */
  lemma {:induction false} WitnessParks() returns (es: seq<Event>, s: State)
    ensures IsRun(Init(8, 1), es) && s == Run(Init(8, 1), es)
    ensures s == Init(8, 1).(eager := StartEager(Init(8, 1).eager, false), task := Task(Idle, false, false),
                             stock := Stock([PROBE], 1, 1, 1), log := Log([PROBE], []),
                             line := Line(1, [Parked(PROBE, 0, false)]))
  {
    var s0 := Init(8, 1);
    RunSnoc(s0, [], Owner(EvStart(false)));
    es := [] + [Owner(EvStart(false))];
    RunSnoc(s0, es, Writer(EvBoot));
    es := es + [Writer(EvBoot)];
    RunSnoc(s0, es, Producer(EvData(PROBE, 0, Declined)));
    es := es + [Producer(EvData(PROBE, 0, Declined))];
    RunSnoc(s0, es, Producer(EvWait(PROBE, 0)));
    es := es + [Producer(EvWait(PROBE, 0))];
    s := Run(s0, es);
  }

  /** A bare `set_epoch` later, a producer of epoch 1 parks too, and the writer finishes. */
  lemma {:induction false} WitnessFinishes() returns (es: seq<Event>, s: State)
    ensures IsRun(Init(8, 1), es) && s == Run(Init(8, 1), es)
    ensures Active(s) && s.fence.epoch == 1 && s.stock.queue == [] && Batch(s) == []
    ensures s.line.parked == [Parked(PROBE, 0, true), Parked(PROBE, 1, false)]
  {
    var s0 := Init(8, 1);
    es, s := WitnessParks();
    RunSnoc(s0, es, Owner(EvSetEpoch(1)));
    es := es + [Owner(EvSetEpoch(1))];
    RunSnoc(s0, es, Producer(EvWait(PROBE, 1)));
    es := es + [Producer(EvWait(PROBE, 1))];
    s := Run(s0, es);
    assert s.line.parked == [Parked(PROBE, 0, false), Parked(PROBE, 1, false)];
    RunSnoc(s0, es, Writer(EvTake));
    es := es + [Writer(EvTake)];
    s := Run(s0, es);
    assert s.task.writer == Busy([PROBE], [1], false);
    RunSnoc(s0, es, Writer(EvExpose(1)));
    es := es + [Writer(EvExpose(1))];
    RunSnoc(s0, es, Writer(EvDone));
    es := es + [Writer(EvDone)];
    s := Run(s0, es);
    assert Notify([Parked(PROBE, 0, false), Parked(PROBE, 1, false)], 1)
        == [Parked(PROBE, 0, true)] + Notify([Parked(PROBE, 0, false), Parked(PROBE, 1, false)][1..], 0);
  }

  /**
    Without the discipline a wakeup is lost: the only selection goes to the
    stale producer, which fails, and the current one waits for nobody.
   */
  lemma {:induction false} BareSetEpochLosesWakeup() returns (es: seq<Event>)
    ensures IsRun(Init(8, 1), es) && Lost(Run(Init(8, 1), es))
  {
    var fs, s := WitnessFinishes();
    RunSnoc(Init(8, 1), fs, Producer(EvResume(0)));
    es := fs + [Producer(EvResume(0))];
    var t := Run(Init(8, 1), es);
    assert t.line.parked == [Parked(PROBE, 1, false)];
    assert t.line.parked[1..] == [];
  }
}
