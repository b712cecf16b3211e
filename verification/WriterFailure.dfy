/** After a producer-side write raised nothing leaves the pump until it is reset. */
module WriterFailure {
  import opened WriteItems
  import opened WriterModel
  import opened WriterProofs

  // ---- after a raising producer-side write ----

  ghost predicate SameOutput(s: State, t: State) {
    t.fence.failed && t.log == s.log
  }

  lemma {:induction false} ProducerFrozen(s: State, e: ProducerEvent)
    requires Inv(s) && s.fence.failed && ProducerEnabled(s, e)
    ensures SameOutput(s, ProducerStep(s, e))
  {
    match e
    case EvData(item, epoch, o) => assert Stale(s.fence, epoch);
    case EvTerminal(item, epoch, o) => assert Stale(s.fence, epoch);
    case EvAck(item, epoch, task, o) => assert Stale(s.fence, epoch);
    case EvWait(item, epoch) => assert Stale(s.fence, epoch);
    case EvResume(i) => assert Resume(s, i) == Leave(s, i);
    case EvCancelParked(i) =>
    case EvFlush(o) => assert !s.eager.bound;
  }

  lemma {:induction false} WriterFrozen(s: State, e: WriterEvent)
    requires Inv(s) && s.fence.failed && WriterEnabled(s, e)
    ensures SameOutput(s, WriterStep(s, e))
  {
    if s.task.writer.Busy? {
      assert s.log.wire + s.task.writer.rest[..0] == s.log.wire;
    }
  }

  lemma {:induction false} OwnerFrozen(s: State, e: OwnerEvent)
    requires Inv(s) && s.fence.failed && OwnerEnabled(s, e) && !e.EvReset?
    ensures SameOutput(s, OwnerStep(s, e))
  {
  }

  lemma {:induction false} FailedStepFrozen(s: State, e: Event)
    requires Inv(s) && s.fence.failed && Enabled(s, e) && e != Owner(EvReset)
    ensures SameOutput(s, Step(s, e))
  {
    match e
    case Producer(p) => ProducerFrozen(s, p);
    case Writer(w) => WriterFrozen(s, w);
    case Permit(t) => assert SameOutput(s, PermitStep(s, t));
    case Owner(o) => OwnerFrozen(s, o);
  }

  /** Once a producer-side write raised, nothing is admitted and no byte is exposed until reset. */
  lemma {:induction false} FailureFreezesRun(s: State, es: seq<Event>)
    requires Inv(s) && s.fence.failed && IsRun(s, es) && Owner(EvReset) !in es
    ensures Inv(Run(s, es)) && SameOutput(s, Run(s, es))
    decreases |es|
  {
    if es != [] {
      FailedStepFrozen(s, es[0]);
      StepKeepsInv(s, es[0]);
      FailureFreezesRun(Step(s, es[0]), es[1..]);
    }
  }

  /** The latch is only ever set with no batch in flight, so a batch under way was taken without it. */
  lemma {:induction false} LatchFindsNoBatch(s: State, e: Event)
    requires Inv(s) && Enabled(s, e) && !s.fence.failed && Step(s, e).fence.failed
    ensures !s.task.writer.Busy? && !Step(s, e).task.writer.Busy?
  {
  }

  /** Every raising outcome that reaches the transport sets that latch, with at most a prefix exposed. */
  lemma {:induction false} RaisingLatches(s: State, item: WriteItem, epoch: int, task: int, exposed: nat)
    requires Inv(s)
    ensures var (t, v) := TryData(s, item, epoch, Raised(exposed));
            t.fence.failed <==> s.fence.failed || v.TransportRaised?
    ensures var (t, v) := TryAck(s, item, epoch, task, Raised(exposed));
            t.fence.failed <==> s.fence.failed || v.TransportRaised?
    ensures FlushLatency(s, Raised(exposed)).fence.failed <==> s.fence.failed || LatencyAllowed(s)
  {
  }

  /** An eager write happens only with no batch in flight and everything admitted already exposed. */
  lemma {:induction false} EagerFindsWireDrained(s: State, item: WriteItem, epoch: int, task: int, o: NowaitOutcome)
    requires Inv(s)
    requires TryData(s, item, epoch, o).1.WrittenEagerly? || TryAck(s, item, epoch, task, o).1.WrittenEagerly?
    ensures !s.task.writer.Busy? && s.stock.queue == [] && s.log.wire == WireAll(s.log.admitted)
  {
    WireDrained(s);
  }

  // ---- discard with a batch in flight ----

  /** `discard()` keeps the byte accounting exactly when no batch is in flight. */
  lemma {:induction false} DiscardAccountingExact(s: State)
    requires Inv(s)
    ensures Accounting(Discard(s)) <==> !s.task.writer.Busy?
  {
  }
}
