/** Who gets into the writer: one rule for every route, none after a seal, and a history that only grows. */
module WriterAdmission {
  import opened WriteItems
  import opened WriterModel
  import opened WriterProofs

  datatype Offer = NoOffer | Offer(item: WriteItem, epoch: int)

  /** The frame a producer's step tries to get admitted, and the connection it belongs to. */
  function Offered(s: State, e: ProducerEvent): Offer
    requires ProducerEnabled(s, e)
  {
    match e
    case EvData(item, epoch, _) => Offer(item, epoch)
    case EvTerminal(item, epoch, _) => Offer(item, epoch)
    case EvAck(item, epoch, _, _) => Offer(item, epoch)
    case EvWait(item, epoch) => Offer(item, epoch)
    case EvResume(i) => Offer(s.line.parked[i].item, s.line.parked[i].epoch)
    case EvCancelParked(_) => NoOffer
    case EvFlush(_) => NoOffer
  }

  predicate Admissible(s: State, o: Offer) {
    o.Offer? && !Stale(s.fence, o.epoch) && CanEnqueue(s, Size(o.item))
  }

  /**
    Immediate, acknowledgement, terminal, waiting and resumed admissions obey
    one rule: the frame is admitted, behind everything admitted before, exactly
    when its connection is current, unsealed and unfailed and there is room.
   */
  lemma {:induction false} AdmissionExact(s: State, e: ProducerEvent)
    requires Inv(s) && ProducerEnabled(s, e)
    ensures var o := Offered(s, e);
            ProducerStep(s, e).log.admitted == s.log.admitted + if Admissible(s, o) then [o.item] else []
  {
    match e
    case EvData(item, epoch, o) =>
    case EvTerminal(item, epoch, o) =>
    case EvAck(item, epoch, task, o) =>
    case EvWait(item, epoch) => WaitMatchesImmediate(s, Size(item));
    case EvResume(i) =>
      LineKeepsInv(s, Leave(s, i).line);
      WaitMatchesImmediate(Leave(s, i), Size(s.line.parked[i].item));
    case EvCancelParked(i) =>
    case EvFlush(o) =>
  }

  /** The answer tells the producer whether its frame was admitted, and a raise counts as admitted. */
  lemma {:induction false} VerdictTells(s: State, item: WriteItem, epoch: int, task: int, o: NowaitOutcome)
    ensures var (t, v) := TryData(s, item, epoch, o);
            (v.Queued? || v.WrittenEagerly? || v.TransportRaised? <==> Admissible(s, Offer(item, epoch)))
            && (v.StaleConnection? <==> Stale(s.fence, epoch))
            && (v.Refused? ==> t == s)
    ensures var (t, v) := TryAck(s, item, epoch, task, o);
            (v.Queued? || v.WrittenEagerly? || v.TransportRaised? <==> Admissible(s, Offer(item, epoch)))
            && (v.StaleConnection? <==> Stale(s.fence, epoch))
            && (v.Refused? ==> t == s)
  {
  }

  // ---- history ----

  ghost predicate Grows(l: Log, m: Log) {
    l.admitted <= m.admitted && l.wire <= m.wire
  }

  lemma {:induction false} StepGrows(s: State, e: Event)
    requires Enabled(s, e) && e != Owner(EvReset)
    ensures Grows(s.log, Step(s, e).log)
  {
  }

  /** Until the next reset no admission is undone and no exposed byte is rewritten. */
  lemma {:induction false} HistoryGrows(s: State, es: seq<Event>)
    requires IsRun(s, es) && Owner(EvReset) !in es
    ensures Grows(s.log, Run(s, es).log)
    decreases |es|
  {
    if es != [] {
      StepGrows(s, es[0]);
      HistoryGrows(Step(s, es[0]), es[1..]);
    }
  }

  // ---- the seal ----

  lemma {:induction false} ProducerSealed(s: State, e: ProducerEvent)
    requires Inv(s) && s.fence.sealed && ProducerEnabled(s, e)
    ensures ProducerStep(s, e).fence.sealed && ProducerStep(s, e).log.admitted == s.log.admitted
  {
    AdmissionExact(s, e);
    match e
    case EvData(item, epoch, o) =>
    case EvTerminal(item, epoch, o) =>
    case EvAck(item, epoch, task, o) =>
    case EvWait(item, epoch) =>
    case EvResume(i) =>
    case EvCancelParked(i) =>
    case EvFlush(o) =>
  }

  lemma {:induction false} SealedStep(s: State, e: Event)
    requires Inv(s) && s.fence.sealed && Enabled(s, e) && e != Owner(EvReset)
    ensures Step(s, e).fence.sealed && Step(s, e).log.admitted == s.log.admitted
  {
    if e.Producer? {
      ProducerSealed(s, e.p);
    }
  }

  /** After the terminal packet nothing else is admitted until the next reset, whatever the epoch becomes. */
  lemma {:induction false} SealHolds(s: State, es: seq<Event>)
    requires Inv(s) && s.fence.sealed && IsRun(s, es) && Owner(EvReset) !in es
    ensures Run(s, es).fence.sealed && Run(s, es).log.admitted == s.log.admitted
    decreases |es|
  {
    if es != [] {
      SealedStep(s, es[0]);
      StepKeepsInv(s, es[0]);
      SealHolds(Step(s, es[0]), es[1..]);
    }
  }

  /** The terminal packet seals its own connection and no other. */
  lemma {:induction false} TerminalSealsItsOwn(s: State, item: WriteItem, epoch: int, o: NowaitOutcome)
    requires Inv(s)
    ensures var (t, v) := TryTerminal(s, item, epoch, o);
            t.fence.sealed <==> s.fence.sealed || (epoch == s.fence.epoch && !v.TransportRaised?)
  {
  }
}
