/** What every run of the message stream keeps: order, bytes, limits, and who may sleep. */
module DeliveryProofs {
  import opened Options
  import opened DeliveryModel

  function Messages(q: seq<Entry>): seq<nat> {
    if q == [] then [] else [q[0].message] + Messages(q[1..])
  }

  function Bytes(q: seq<Entry>): nat {
    if q == [] then 0 else q[0].size + Bytes(q[1..])
  }

  function BoundedBytes(q: seq<Entry>): nat {
    if q == [] then 0 else (if q[0].bounded then q[0].size else 0) + BoundedBytes(q[1..])
  }

  function BoundedCount(q: seq<Entry>): nat {
    if q == [] then 0 else (if q[0].bounded then 1 else 0) + BoundedCount(q[1..])
  }

  /** Charged bytes are the queued bytes, and nothing committed is lost, reordered or repeated. */
  ghost predicate Conserved(s: DeliveryState) {
    s.store.pendingBytes == Bytes(s.store.queue)
    && s.log.consumed + Messages(s.store.queue) == s.log.committed
  }

  /** Normal admissions still queued respect both limits, whatever was committed past them. */
  ghost predicate WithinLimits(s: DeliveryState) {
    (s.limits.maxBytes.Some? ==> BoundedBytes(s.store.queue) <= s.limits.maxBytes.value)
    && (s.limits.maxMessages > 0 ==> BoundedCount(s.store.queue) <= s.limits.maxMessages)
  }

  /** An admission that sleeps is neither retired nor admissible. */
  ghost predicate SleepersBlocked(s: DeliveryState) {
    forall i :: 0 <= i < |s.line.waiting| && Asleep(s.line, i) ==>
                  s.line.waiting[i].generation == s.line.generation && Blocked(s, s.line.waiting[i].size)
  }

  /** Nobody fell asleep after the event was last counted. */
  ghost predicate SinceOk(l: Line, st: Stream) {
    && (forall i :: 0 <= i < |l.waiting| ==> l.waiting[i].since <= l.spaceSet)
    && (forall i :: 0 <= i < |st.consumers| ==> st.consumers[i].since <= st.readySet)
  }

  /** Whoever waits would fit into an empty queue. */
  ghost predicate FitAlone(s: DeliveryState) {
    forall i :: 0 <= i < |s.line.waiting| ==> !NeverFits(s.limits, s.line.waiting[i].size)
  }

  /** An iterator that sleeps belongs to the open current stream and nothing is queued for it. */
  ghost predicate ConsumersIdle(s: DeliveryState) {
    forall i :: 0 <= i < |s.stream.consumers| && Dozing(s.stream, i) ==>
                  s.stream.consumers[i].generation == s.stream.generation && s.store.queue == [] && !s.stream.closed
  }

  /** The current stream has at most one suspended iterator, and the guard knows it. */
  ghost predicate OneConsumer(st: Stream) {
    (forall i :: 0 <= i < |st.consumers| ==> st.consumers[i].generation <= st.generation)
    && (forall i :: 0 <= i < |st.consumers| && st.consumers[i].generation == st.generation ==>
                      st.waitingGeneration == Some(st.generation))
    && (forall i, j :: 0 <= i < j < |st.consumers| ==>
                         !(st.consumers[i].generation == st.generation && st.consumers[j].generation == st.generation))
    && (st.waitingGeneration.Some? ==> st.waitingGeneration.value <= st.generation)
  }

  ghost predicate DeliveryInv(s: DeliveryState) {
    && Conserved(s) && WithinLimits(s) && SleepersBlocked(s) && SinceOk(s.line, s.stream)
    && FitAlone(s) && ConsumersIdle(s) && OneConsumer(s.stream)
  }

  lemma {:induction false} QueueSnoc(q: seq<Entry>, e: Entry)
    ensures Messages(q + [e]) == Messages(q) + [e.message]
    ensures Bytes(q + [e]) == Bytes(q) + e.size
    ensures BoundedBytes(q + [e]) == BoundedBytes(q) + (if e.bounded then e.size else 0)
    ensures BoundedCount(q + [e]) == BoundedCount(q) + (if e.bounded then 1 else 0)
  {
    if q == [] {
      assert q + [e] == [e];
      assert [e][1..] == [];
    } else {
      assert (q + [e])[1..] == q[1..] + [e];
      QueueSnoc(q[1..], e);
    }
  }

  lemma {:induction false} BoundedIsPart(q: seq<Entry>)
    ensures BoundedBytes(q) <= Bytes(q) && BoundedCount(q) <= |q|
  {
    if q != [] {
      BoundedIsPart(q[1..]);
    }
  }

  lemma {:induction false} CommitKeepsInv(s: DeliveryState, message: nat, size: nat, bounded: bool)
    requires DeliveryInv(s) && (bounded ==> !Blocked(s, size))
    ensures DeliveryInv(Commit(s, message, size, bounded))
  {
    QueueSnoc(s.store.queue, Entry(message, Charge(s.limits, size), bounded));
    BoundedIsPart(s.store.queue);
    var c, m := s.log.consumed, Messages(s.store.queue);
    assert c + (m + [message]) == c + m + [message];
  }

  /** The history of the calls is not looked at by the invariant. */
  lemma {:induction false} TicketsUnseen(s: DeliveryState, t: Tickets, nextId: nat)
    requires DeliveryInv(s)
    ensures DeliveryInv(WithTickets(s.(line := s.line.(nextId := nextId)), t))
  {
  }

  lemma {:induction false} UnparkKeepsInv(s: DeliveryState, i: nat)
    requires DeliveryInv(s) && i < |s.line.waiting|
    ensures DeliveryInv(Unpark(s, i))
  {
  }

  lemma {:induction false} ParkKeepsInv(s: DeliveryState, id: nat, message: nat, size: nat)
    requires DeliveryInv(s) && Blocked(s, size) && !NeverFits(s.limits, size)
    ensures DeliveryInv(s.(line := Park(s.line, id, message, size, s.line.generation)))
  {
  }

  lemma {:induction false} CommitCallKeepsInv(s: DeliveryState, id: nat, message: nat, size: nat)
    requires DeliveryInv(s) && !Blocked(s, size)
    ensures DeliveryInv(CommitCall(s, id, message, size))
  {
    CommitKeepsInv(s, message, size, true);
    var t := Commit(s, message, size, true);
    TicketsUnseen(t, CommitTicket(s.log.tickets, id, Stamp(message, s.line.generation)), t.line.nextId);
  }

  lemma {:induction false} AcceptKeepsInv(s: DeliveryState, message: nat, size: nat)
    requires DeliveryInv(s)
    ensures DeliveryInv(Accept(s, message, size).0)
  {
    if !NeverFits(s.limits, size) {
      var id, t := s.line.nextId, Begin(s, message);
      TicketsUnseen(s, t.log.tickets, id + 1);
      if Blocked(s, size) {
        ParkKeepsInv(t, id, message, size);
      } else {
        CommitCallKeepsInv(t, id, message, size);
      }
    }
  }

  lemma {:induction false} GiveUpKeepsInv(s: DeliveryState, i: nat)
    requires DeliveryInv(s) && i < |s.line.waiting|
    ensures DeliveryInv(GiveUp(s, i))
  {
    UnparkKeepsInv(s, i);
    TicketsUnseen(Unpark(s, i), LeaveTicket(s.log.tickets, s.line.waiting[i].id), s.line.nextId);
  }

  lemma {:induction false} TurnKeepsInv(s: DeliveryState, i: nat)
    requires DeliveryInv(s) && i < |s.line.waiting|
    ensures DeliveryInv(AdmissionTurn(s, i).0)
  {
    var a := s.line.waiting[i];
    GiveUpKeepsInv(s, i);
    UnparkKeepsInv(s, i);
    if a.generation == s.line.generation {
      if Blocked(s, a.size) {
        ParkKeepsInv(Unpark(s, i), a.id, a.message, a.size);
      } else {
        CommitCallKeepsInv(Unpark(s, i), a.id, a.message, a.size);
      }
    }
  }

  lemma {:induction false} ReaderStepKeepsInv(s: DeliveryState, e: ReaderEvent)
    requires DeliveryInv(s) && ReaderEnabled(s, e)
    ensures DeliveryInv(ReaderStep(s, e))
  {
    match e
    case EvAccept(message, size) => AcceptKeepsInv(s, message, size);
    case EvTurn(i) => TurnKeepsInv(s, i);
    case EvGiveUp(i) => GiveUpKeepsInv(s, i);
    case EvInvalidate =>
    case EvAcknowledged(message, size) => CommitKeepsInv(s, message, size, false);
  }

  lemma {:induction false} ConsumeKeepsInv(s: DeliveryState)
    requires DeliveryInv(s) && s.store.queue != []
    ensures DeliveryInv(Consume(s))
  {
    var e := s.store.queue[0];
    assert s.log.consumed + ([e.message] + Messages(s.store.queue[1..]))
        == s.log.consumed + [e.message] + Messages(s.store.queue[1..]);
  }

  lemma {:induction false} WaitKeepsInv(s: DeliveryState)
    requires DeliveryInv(s) && AppEnabled(s, EvWait)
    ensures DeliveryInv(s.(stream := WaitForMessage(s.stream).0))
  {
  }

  lemma {:induction false} LeaveKeepsInv(s: DeliveryState, i: nat)
    requires DeliveryInv(s) && i < |s.stream.consumers|
    ensures DeliveryInv(s.(stream := ConsumerLeaves(s.stream, i)))
  {
    var cs := s.stream.consumers;
    var left := cs[..i] + cs[i + 1..];
    assert forall j :: 0 <= j < i ==> left[j] == cs[j];
    assert forall j :: i <= j < |left| ==> left[j] == cs[j + 1];
  }

  lemma {:induction false} AppStepKeepsInv(s: DeliveryState, e: AppEvent)
    requires DeliveryInv(s) && AppEnabled(s, e)
    ensures DeliveryInv(AppStep(s, e))
  {
    match e
    case EvConsume => ConsumeKeepsInv(s);
    case EvWait => WaitKeepsInv(s);
    case EvConsumerRuns(i) => LeaveKeepsInv(s, i);
    case EvClose =>
    case EvReopen =>
    case EvReset =>
  }

  lemma {:induction false} DeliveryStepKeepsInv(s: DeliveryState, e: DeliveryEvent)
    requires DeliveryInv(s) && DeliveryEnabled(s, e)
    ensures DeliveryInv(DeliveryStep(s, e))
  {
    match e
    case Reader(r) => ReaderStepKeepsInv(s, r);
    case App(a) => AppStepKeepsInv(s, a);
  }

  lemma {:induction false} DeliveryRunKeepsInv(s: DeliveryState, es: seq<DeliveryEvent>)
    requires DeliveryInv(s) && IsDeliveryRun(s, es)
    ensures DeliveryInv(DeliveryRun(s, es))
    decreases |es|
  {
    if es != [] {
      DeliveryStepKeepsInv(s, es[0]);
      DeliveryRunKeepsInv(DeliveryStep(s, es[0]), es[1..]);
    }
  }

  /** All of it holds in every state of every run, for every choice of limits. */
  lemma {:induction false} EveryDeliveryRun(limits: Limits, es: seq<DeliveryEvent>)
    requires IsDeliveryRun(InitDelivery(limits), es)
    ensures DeliveryInv(DeliveryRun(InitDelivery(limits), es))
  {
    assert DeliveryInv(InitDelivery(limits));
    DeliveryRunKeepsInv(InitDelivery(limits), es);
  }

  /** A sleeping admission waits behind queued messages, and consuming one wakes it. */
  lemma {:induction false} SleeperHasPredecessor(s: DeliveryState, i: nat)
    requires DeliveryInv(s) && i < |s.line.waiting| && Asleep(s.line, i)
    ensures s.store.queue != [] && !Asleep(Consume(s).line, i)
  {
  }
}
