/** Parked producers are never forgotten, and a failed producer-side write freezes the wire. */
module WriterWakeups {
  import opened WriteItems
  import opened WriterModel
  import opened WriterProofs

  // ---- no lost wakeup ----

  /** Parked producers not selected to run again yet. */
  function Waiting(ps: seq<Parked>): nat {
    if ps == [] then 0 else (if ps[0].notified then 0 else 1) + Waiting(ps[1..])
  }

  /** Selected producers of this epoch that have yet to run. */
  function Ready(ps: seq<Parked>, epoch: int): nat {
    if ps == [] then 0 else (if ps[0].notified && ps[0].epoch == epoch then 1 else 0) + Ready(ps[1..], epoch)
  }

  /** Unselected producers of any other epoch. */
  function Foreign(ps: seq<Parked>, epoch: int): nat {
    if ps == [] then 0 else (if !ps[0].notified && ps[0].epoch != epoch then 1 else 0) + Foreign(ps[1..], epoch)
  }

  /** One unsealed, unfailed connection whose writer was not cancelled. */
  predicate Active(s: State) {
    !s.fence.sealed && !s.fence.failed && !s.task.cancelled && !s.task.writer.Dead?
  }

  /** Unselected producers of another epoch stand before those of this one. */
  ghost predicate OldFirst(ps: seq<Parked>, epoch: int) {
    ps == [] || ((!ps[0].notified && ps[0].epoch == epoch ==> Foreign(ps[1..], epoch) == 0) && OldFirst(ps[1..], epoch))
  }

  /**
    Whoever still waits is covered by a resident frame or by a selected
    producer of its epoch. Producers left over from another epoch waste the
    selections they get, so there must be more frames than such producers.
   */
  ghost predicate WakeInv(s: State) {
    Active(s) ==> Covered(s.line.parked, s.fence.epoch, s.stock.resident)
  }

  ghost predicate Covered(ps: seq<Parked>, epoch: int, resident: int) {
    && OldFirst(ps, epoch)
    && (Foreign(ps, epoch) > 0 ==> resident > Foreign(ps, epoch))
    && (Waiting(ps) > 0 ==> resident > 0 || Ready(ps, epoch) > 0)
  }

  lemma {:induction false} CountsConcat(a: seq<Parked>, b: seq<Parked>, epoch: int)
    ensures Waiting(a + b) == Waiting(a) + Waiting(b)
    ensures Ready(a + b, epoch) == Ready(a, epoch) + Ready(b, epoch)
    ensures Foreign(a + b, epoch) == Foreign(a, epoch) + Foreign(b, epoch)
  {
    if a == [] {
      assert a + b == b;
    } else {
      assert (a + b)[1..] == a[1..] + b;
      CountsConcat(a[1..], b, epoch);
    }
  }

  lemma {:induction false} CountsWithout(ps: seq<Parked>, i: nat, epoch: int)
    requires i < |ps|
    ensures Waiting(ps) == Waiting(Without(ps, i)) + Waiting([ps[i]])
    ensures Ready(ps, epoch) == Ready(Without(ps, i), epoch) + Ready([ps[i]], epoch)
    ensures Foreign(ps, epoch) == Foreign(Without(ps, i), epoch) + Foreign([ps[i]], epoch)
  {
    assert ps == ps[..i] + ([ps[i]] + ps[i + 1..]);
    CountsConcat(ps[..i], [ps[i]] + ps[i + 1..], epoch);
    CountsConcat([ps[i]], ps[i + 1..], epoch);
    CountsConcat(ps[..i], ps[i + 1..], epoch);
  }

  lemma {:induction false} ForeignConcat(a: seq<Parked>, p: Parked, epoch: int)
    requires OldFirst(a, epoch) && (p.notified || p.epoch == epoch)
    ensures OldFirst(a + [p], epoch)
  {
    if a == [] {
      assert a + [p] == [p];
    } else {
      assert (a + [p])[1..] == a[1..] + [p];
      CountsConcat(a[1..], [p], epoch);
      ForeignConcat(a[1..], p, epoch);
    }
  }

  lemma {:induction false} OldFirstWithout(ps: seq<Parked>, i: nat, epoch: int)
    requires i < |ps| && OldFirst(ps, epoch)
    ensures OldFirst(Without(ps, i), epoch)
  {
    if i == 0 {
      assert Without(ps, 0) == ps[1..];
    } else {
      OldFirstWithout(ps[1..], i - 1, epoch);
      CountsWithout(ps[1..], i - 1, epoch);
      assert Without(ps, i) == [ps[0]] + Without(ps[1..], i - 1);
      assert Without(ps, i)[1..] == Without(ps[1..], i - 1);
    }
  }

  /** `notify(n)` selects n waiting producers, or all of them, those of another epoch first. */
  lemma {:induction false} NotifyCounts(ps: seq<Parked>, n: nat, epoch: int)
    requires OldFirst(ps, epoch)
    ensures Waiting(Notify(ps, n)) == Max0(Waiting(ps) - n)
    ensures Foreign(Notify(ps, n), epoch) == Max0(Foreign(ps, epoch) - n)
    ensures Ready(Notify(ps, n), epoch)
         == Ready(ps, epoch) + Min(Max0(n - Foreign(ps, epoch)), Max0(Waiting(ps) - Foreign(ps, epoch)))
    ensures OldFirst(Notify(ps, n), epoch)
  {
    ForeignAtMostWaiting(ps, epoch);
    if n != 0 && ps != [] {
      var m := if ps[0].notified then n else n - 1;
      NotifyCounts(ps[1..], m, epoch);
      ForeignAtMostWaiting(ps[1..], epoch);
      assert Notify(ps, n)[1..] == Notify(ps[1..], m);
    }
  }

  lemma {:induction false} WaitingAtMost(ps: seq<Parked>)
    ensures Waiting(ps) <= |ps|
  {
    if ps != [] {
      WaitingAtMost(ps[1..]);
    }
  }

  lemma {:induction false} ForeignAtMostWaiting(ps: seq<Parked>, epoch: int)
    ensures Foreign(ps, epoch) <= Waiting(ps)
  {
    if ps != [] {
      ForeignAtMostWaiting(ps[1..], epoch);
    }
  }

  lemma {:induction false} WakeAllCovers(ps: seq<Parked>, epoch: int, resident: int)
    ensures Waiting(Notify(ps, |ps|)) == 0 && Covered(Notify(ps, |ps|), epoch, resident)
  {
    NotifyAll(ps);
    NobodyWaits(Notify(ps, |ps|), epoch);
  }

  lemma {:induction false} NotifyAll(ps: seq<Parked>)
    ensures Waiting(Notify(ps, |ps|)) == 0
  {
    NotifyWaiting(ps, |ps|);
    WaitingAtMost(ps);
  }

  lemma {:induction false} NotifyWaiting(ps: seq<Parked>, n: nat)
    ensures Waiting(Notify(ps, n)) == Max0(Waiting(ps) - n)
  {
    if n != 0 && ps != [] {
      var m := if ps[0].notified then n else n - 1;
      NotifyWaiting(ps[1..], m);
      assert Notify(ps, n)[1..] == Notify(ps[1..], m);
    }
  }

  lemma {:induction false} NobodyWaits(ps: seq<Parked>, epoch: int)
    requires Waiting(ps) == 0
    ensures OldFirst(ps, epoch) && Foreign(ps, epoch) == 0
  {
    if ps != [] {
      NobodyWaits(ps[1..], epoch);
    }
  }

  /** A producer parks only behind a resident frame. */
  lemma {:induction false} WaitTurnCovers(s: State, item: WriteItem, epoch: int)
    requires Inv(s) && Active(s) && OldFirst(s.line.parked, s.fence.epoch)
    requires var f := Foreign(s.line.parked, s.fence.epoch); f > 0 ==> s.stock.resident > f
    requires epoch == s.fence.epoch || Covered(s.line.parked, s.fence.epoch, s.stock.resident)
    ensures WakeInv(WaitTurn(s, item, epoch))
  {
    WaitMatchesImmediate(s, Size(item));
    if epoch == s.fence.epoch {
      CountsConcat(s.line.parked, [Parked(item, epoch, false)], s.fence.epoch);
      ForeignConcat(s.line.parked, Parked(item, epoch, false), s.fence.epoch);
    }
  }

  /** A step that leaves the line alone and releases nothing keeps everybody covered. */
  lemma {:induction false} LineUntouched(s: State, t: State)
    requires WakeInv(s) && t.line.parked == s.line.parked
    requires Active(t) ==> && Active(s) && t.fence.epoch == s.fence.epoch
                           && (t.stock.resident >= s.stock.resident || s.line.parked == [])
    ensures WakeInv(t)
  {
  }

  lemma {:induction false} ResumeKeepsWakeups(s: State, i: nat)
    requires Inv(s) && WakeInv(s) && i < |s.line.parked| && s.line.parked[i].notified
    ensures WakeInv(Resume(s, i))
  {
    if Active(s) {
      ResumeKeepsInv(s, i);
      CountsWithout(s.line.parked, i, s.fence.epoch);
      OldFirstWithout(s.line.parked, i, s.fence.epoch);
      WaitTurnCovers(Leave(s, i), s.line.parked[i].item, s.line.parked[i].epoch);
    }
  }

  lemma {:induction false} CancelKeepsWakeups(s: State, i: nat)
    requires Inv(s) && WakeInv(s) && i < |s.line.parked|
    ensures WakeInv(CancelParked(s, i))
  {
    if Active(s) {
      var ps := Without(s.line.parked, i);
      CountsWithout(s.line.parked, i, s.fence.epoch);
      OldFirstWithout(s.line.parked, i, s.fence.epoch);
      ForeignAtMostWaiting(ps, s.fence.epoch);
      NotifyCounts(ps, 1, s.fence.epoch);
      if s.line.waiters > 1 {
        assert Covered(Notify(ps, 1), s.fence.epoch, s.stock.resident);
      } else {
        assert ps == [];
      }
    }
  }

  lemma {:induction false} DataLeavesLine(s: State, item: WriteItem, epoch: int, o: NowaitOutcome)
    requires WakeInv(s)
    ensures WakeInv(TryData(s, item, epoch, o).0)
  {
    if Stale(s.fence, epoch) || !CanEnqueue(s, Size(item)) {
    } else if !DataEagerAllowed(s, item) || o.Declined? {
      LineUntouched(s, Admit(s, item));
    } else if o.Raised? {
      LineUntouched(s, RetainFailed(s, item, o.exposed));
    } else {
      LineUntouched(s, DataWritten(s, item));
    }
  }

  lemma {:induction false} TerminalLeavesLine(s: State, item: WriteItem, epoch: int, o: NowaitOutcome)
    requires WakeInv(s)
    ensures WakeInv(TryTerminal(s, item, epoch, o).0)
  {
    DataLeavesLine(s, item, epoch, o);
    LineUntouched(TryData(s, item, epoch, o).0, Seal(TryData(s, item, epoch, o).0));
  }

  lemma {:induction false} AckLeavesLine(s: State, item: WriteItem, epoch: int, task: int, o: NowaitOutcome)
    requires WakeInv(s)
    ensures WakeInv(TryAck(s, item, epoch, task, o).0)
  {
    if Stale(s.fence, epoch) || !CanEnqueue(s, Size(item)) {
    } else if !AckEagerAllowed(s) || o.Declined? {
      LineUntouched(s, Admit(s, item));
    } else if o.Raised? {
      LineUntouched(s, RetainFailed(s, item, o.exposed));
    } else {
      LineUntouched(s, AckWritten(s, item, task));
    }
  }

  lemma {:induction false} ProducerKeepsWakeups(s: State, e: ProducerEvent)
    requires Inv(s) && WakeInv(s) && ProducerEnabled(s, e)
    ensures WakeInv(ProducerStep(s, e))
  {
    match e
    case EvData(item, epoch, o) => DataLeavesLine(s, item, epoch, o);
    case EvTerminal(item, epoch, o) => TerminalLeavesLine(s, item, epoch, o);
    case EvAck(item, epoch, task, o) => AckLeavesLine(s, item, epoch, task, o);
    case EvWait(item, epoch) => if Active(s) { WaitTurnCovers(s, item, epoch); }
    case EvResume(i) => ResumeKeepsWakeups(s, i);
    case EvCancelParked(i) => CancelKeepsWakeups(s, i);
    case EvFlush(o) => LineUntouched(s, FlushLatency(s, o));
  }

  lemma {:induction false} DoneKeepsWakeups(s: State)
    requires Inv(s) && WakeInv(s) && WriterEnabled(s, EvDone)
    ensures WakeInv(Done(s))
  {
    if Active(s) {
      DoneCovers(s.line.parked, s.fence.epoch, s.stock.resident, |s.task.writer.batch|);
    }
  }

  /** A completed batch of b frames selects as many producers, or all of them. */
  lemma {:induction false} DoneCovers(ps: seq<Parked>, epoch: int, resident: int, b: nat)
    requires Covered(ps, epoch, resident) && 0 < b <= resident
    ensures Covered(Notify(ps, Min(|ps|, b)), epoch, resident - b)
  {
    NotifyCounts(ps, Min(|ps|, b), epoch);
    WaitingAtMost(ps);
    ForeignAtMostWaiting(ps, epoch);
  }

  lemma {:induction false} WriterKeepsWakeups(s: State, e: WriterEvent)
    requires Inv(s) && WakeInv(s) && WriterEnabled(s, e)
    ensures WakeInv(WriterStep(s, e))
  {
    match e
    case EvBoot => LineUntouched(s, LoopTop(s));
    case EvTake => LineUntouched(s, Take(s));
    case EvExpose(k) => LineUntouched(s, Expose(s, k));
    case EvDone => DoneKeepsWakeups(s);
    case EvFail(k) =>
    case EvCancelWriter(k) =>
  }

  lemma {:induction false} PermitKeepsWakeups(s: State, e: PermitEvent)
    requires WakeInv(s) && PermitEnabled(s, e)
    ensures WakeInv(PermitStep(s, e))
  {
    match e
    case EvCallback => LineUntouched(s, RunCallback(s));
    case EvRearmAck => LineUntouched(s, RearmDeferredAck(s));
    case EvOwnAck(owner) => LineUntouched(s, OwnAck(s, owner));
  }

  /** No parked producer carries this epoch. */
  ghost predicate Unused(ps: seq<Parked>, epoch: int) {
    forall i :: 0 <= i < |ps| ==> ps[i].epoch != epoch
  }

  /**
    A bare change of epoch turns every waiting producer into one that wastes
    its selection. That is harmless when nobody waits, as when the owner wakes
    everybody in the same turn, or when more frames than waiting producers are
    resident.
   */
  ghost predicate EpochSafe(s: State, epoch: int) {
    epoch == s.fence.epoch || Waiting(s.line.parked) == 0
    || (Unused(s.line.parked, epoch) && s.stock.resident > Waiting(s.line.parked))
  }

  /**
    A reset forgets every frame, so whoever waits depends on a selected producer
    that has yet to run. That one may find the room taken and wait again, and
    then a leftover of another epoch would waste the next selection.
   */
  ghost predicate ResetSafe(ps: seq<Parked>, epoch: int) {
    Waiting(ps) == 0 || (Foreign(ps, epoch) == 0 && Ready(ps, epoch) > 0)
  }

  /** What the connection owner has to respect: a safe change of epoch and a safe reset. */
  ghost predicate Disciplined(s: State, e: Event) {
    e.Owner? ==> match e.o
                 case EvSetEpoch(epoch) => EpochSafe(s, epoch)
                 case EvReset => ResetSafe(s.line.parked, s.fence.epoch)
                 case _ => true
  }

  lemma {:induction false} OwnerKeepsWakeups(s: State, e: OwnerEvent)
    requires Inv(s) && WakeInv(s) && OwnerEnabled(s, e) && Disciplined(s, Owner(e))
    ensures WakeInv(OwnerStep(s, e))
  {
    match e
    case EvSetEpoch(epoch) => SetEpochCovers(s, epoch);
    case EvAdvanceEpoch(epoch) => WakeAllCovers(s.line.parked, epoch, s.stock.resident);
    case EvWake => WakeAllCovers(s.line.parked, s.fence.epoch, s.stock.resident);
    case EvReset => ResetCovers(s);
    case EvSeal =>
    case EvDiscard =>
    case EvStart(nowait) =>
    case EvStop =>
  }

  lemma {:induction false} NoForeign(ps: seq<Parked>, epoch: int)
    requires Foreign(ps, epoch) == 0
    ensures OldFirst(ps, epoch)
  {
    if ps != [] {
      NoForeign(ps[1..], epoch);
    }
  }

  lemma {:induction false} ResetCovers(s: State)
    requires ResetSafe(s.line.parked, s.fence.epoch)
    ensures WakeInv(Reset(s))
  {
    ForeignAtMostWaiting(s.line.parked, s.fence.epoch);
    NoForeign(s.line.parked, s.fence.epoch);
  }

  lemma {:induction false} AllForeign(ps: seq<Parked>, epoch: int)
    requires Unused(ps, epoch)
    ensures OldFirst(ps, epoch) && Foreign(ps, epoch) == Waiting(ps) && Ready(ps, epoch) == 0
  {
    if ps != [] {
      AllForeign(ps[1..], epoch);
    }
  }

  lemma {:induction false} SetEpochCovers(s: State, epoch: int)
    requires WakeInv(s) && EpochSafe(s, epoch)
    ensures WakeInv(SetEpoch(s, epoch))
  {
    if Waiting(s.line.parked) == 0 {
      NobodyWaits(s.line.parked, epoch);
    } else if epoch != s.fence.epoch {
      AllForeign(s.line.parked, epoch);
    }
  }

  lemma {:induction false} StepKeepsWakeups(s: State, e: Event)
    requires Inv(s) && WakeInv(s) && Enabled(s, e) && Disciplined(s, e)
    ensures WakeInv(Step(s, e))
  {
    match e
    case Producer(p) => ProducerKeepsWakeups(s, p);
    case Writer(w) => WriterKeepsWakeups(s, w);
    case Permit(t) => PermitKeepsWakeups(s, t);
    case Owner(o) => OwnerKeepsWakeups(s, o);
  }

  lemma {:induction false} InitSound(maxBytes: nat, maxMessages: nat)
    requires 1 <= maxMessages
    ensures Sound(Init(maxBytes, maxMessages))
  {
    InitInv(maxBytes, maxMessages);
    InitWakeups(maxBytes, maxMessages);
  }

  /** Order, accounting, bounds, permits and covered waiters together. */
  ghost predicate Sound(s: State) {
    Inv(s) && WakeInv(s)
  }

  lemma {:induction false} StepKeepsSound(s: State, e: Event)
    requires Sound(s) && Enabled(s, e) && Disciplined(s, e)
    ensures Sound(Step(s, e))
  {
    StepKeepsInv(s, e);
    StepKeepsWakeups(s, e);
  }

  ghost predicate DisciplinedRun(s: State, es: seq<Event>)
    requires IsRun(s, es)
    decreases |es|
  {
    es == [] || (Disciplined(s, es[0]) && DisciplinedRun(Step(s, es[0]), es[1..]))
  }

  lemma {:induction false} RunKeepsWakeups(s: State, es: seq<Event>)
    requires Inv(s) && WakeInv(s) && IsRun(s, es) && DisciplinedRun(s, es)
    ensures Inv(Run(s, es)) && WakeInv(Run(s, es))
    decreases |es|
  {
    if es != [] {
      StepKeepsInv(s, es[0]);
      StepKeepsWakeups(s, es[0]);
      RunKeepsWakeups(Step(s, es[0]), es[1..]);
    }
  }

  /** A producer waits on a live connection, and no frame and no selected producer of its epoch will wake it. */
  ghost predicate Lost(s: State) {
    && Active(s) && Waiting(s.line.parked) > 0
    && |s.stock.queue| + |Batch(s)| == 0 && Ready(s.line.parked, s.fence.epoch) == 0
  }

  /**
    No lost wakeup, over every interleaving: capacity stealing by newcomers
    and cancellation of a selected producer included.
   */
  lemma {:induction false} NoLostWakeup(maxBytes: nat, maxMessages: nat, es: seq<Event>)
    requires 1 <= maxMessages && IsRun(Init(maxBytes, maxMessages), es)
    requires DisciplinedRun(Init(maxBytes, maxMessages), es)
    ensures !Lost(Run(Init(maxBytes, maxMessages), es))
  {
    InitInv(maxBytes, maxMessages);
    InitWakeups(maxBytes, maxMessages);
    RunKeepsWakeups(Init(maxBytes, maxMessages), es);
    NothingLost(Run(Init(maxBytes, maxMessages), es));
  }

  lemma {:induction false} NothingLost(s: State)
    requires Inv(s) && WakeInv(s)
    ensures !Lost(s)
  {
  }

  lemma {:induction false} InitWakeups(maxBytes: nat, maxMessages: nat)
    ensures WakeInv(Init(maxBytes, maxMessages))
  {
  }
}
