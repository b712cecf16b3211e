/**
  The bounded queue between the delivering reader and the application's
  message stream: byte and count bounds, waiting admissions, stream
  generations, and commits of acknowledged messages past the bounds.
 */
module DeliveryModel {
  import opened Options

  /** A message is identified by a number; `bounded` tells a normal admission from a commit past the bounds. */
  datatype Entry = Entry(message: nat, size: nat, bounded: bool)

  /**
    A normal admission call that found no capacity: `generation` is the one it
    started under, and `since` how often the space event had been set when it
    last went to sleep. Setting the event again wakes it.
   */
  datatype Admission = Admission(id: nat, message: nat, size: nat, generation: int, since: nat)

  /** An iterator of stream `generation` that went to sleep on the message event. */
  datatype Consumer = Consumer(generation: int, since: nat)

  /** No byte limit selects the unaccounted path, which charges nothing. */
  datatype Limits = Limits(maxMessages: int, maxBytes: Option<nat>)

  datatype Store = Store(queue: seq<Entry>, pendingBytes: int)

  /** `spaceSet` and `readySet` count how often the two events were set. */
  datatype Line = Line(waiting: seq<Admission>, generation: int, nextId: nat, spaceSet: nat)

  datatype Stream = Stream(
    generation: int, closed: bool, consumers: seq<Consumer>, waitingGeneration: Option<int>, readySet: nat)

  /** An admission call or its commit: the message, and the line's generation at that moment. */
  datatype Stamp = Stamp(message: nat, generation: int)

  datatype CommitOf = CommitOf(id: nat, stamp: Stamp)

  /** Call `id` began with `begun[id]`; it ends in `commits`, or in `left` when it is retired or gives up. */
  datatype Tickets = Tickets(begun: seq<Stamp>, commits: seq<CommitOf>, left: seq<nat>)

  datatype Log = Log(committed: seq<nat>, consumed: seq<nat>, tickets: Tickets)

  datatype DeliveryState = DeliveryState(limits: Limits, store: Store, line: Line, stream: Stream, log: Log)

  function InitDelivery(limits: Limits): DeliveryState {
    DeliveryState(limits, Store([], 0), Line([], 0, 0, 0), Stream(0, false, [], None, 0),
                  Log([], [], Tickets([], [], [])))
  }

  /** What a message of logical size `size` is charged. */
  function Charge(l: Limits, size: nat): nat {
    if l.maxBytes.None? then 0 else size
  }

  predicate Full(s: DeliveryState) {
    s.limits.maxMessages > 0 && |s.store.queue| >= s.limits.maxMessages
  }

  predicate Blocked(s: DeliveryState, size: nat) {
    (s.limits.maxBytes.Some? && s.store.pendingBytes + size > s.limits.maxBytes.value) || Full(s)
  }

  /** A message that would not even fit into an empty queue. */
  predicate NeverFits(l: Limits, size: nat) {
    l.maxBytes.Some? && size > l.maxBytes.value
  }

  /** Setting an event wakes whoever sleeps on it. */
  function SetSpace(l: Line): Line {
    l.(spaceSet := l.spaceSet + 1)
  }

  function SetReady(st: Stream): Stream {
    st.(readySet := st.readySet + 1)
  }

  predicate Asleep(l: Line, i: nat)
    requires i < |l.waiting|
  {
    l.waiting[i].since == l.spaceSet
  }

  predicate Dozing(st: Stream, i: nat)
    requires i < |st.consumers|
  {
    st.consumers[i].since == st.readySet
  }

  /** The message belongs to the application from here on. */
  function Commit(s: DeliveryState, message: nat, size: nat, bounded: bool): DeliveryState {
    var charge := Charge(s.limits, size);
    s.(store := Store(s.store.queue + [Entry(message, charge, bounded)], s.store.pendingBytes + charge),
       stream := SetReady(s.stream),
       log := s.log.(committed := s.log.committed + [message]))
  }

  function OpenTicket(t: Tickets, stamp: Stamp): Tickets {
    t.(begun := t.begun + [stamp])
  }

  function CommitTicket(t: Tickets, id: nat, stamp: Stamp): Tickets {
    t.(commits := t.commits + [CommitOf(id, stamp)])
  }

  function LeaveTicket(t: Tickets, id: nat): Tickets {
    t.(left := t.left + [id])
  }

  function WithTickets(s: DeliveryState, t: Tickets): DeliveryState {
    s.(log := s.log.(tickets := t))
  }

  /** An admission call commits its message. */
  function CommitCall(s: DeliveryState, id: nat, message: nat, size: nat): DeliveryState {
    WithTickets(Commit(s, message, size, true),
                CommitTicket(s.log.tickets, id, Stamp(message, s.line.generation)))
  }

  /** A call goes to sleep at the end of the line. */
  function Park(l: Line, id: nat, message: nat, size: nat, generation: int): Line {
    l.(waiting := l.waiting + [Admission(id, message, size, generation, l.spaceSet)])
  }

  datatype Acceptance = Committed | Waits | TooLarge | Retired

  /** Begin an admission call. */
  function Begin(s: DeliveryState, message: nat): DeliveryState {
    WithTickets(s.(line := s.line.(nextId := s.line.nextId + 1)),
                OpenTicket(s.log.tickets, Stamp(message, s.line.generation)))
  }

  /** Hand one message over now, wait for capacity, or refuse what could never fit. */
  function Accept(s: DeliveryState, message: nat, size: nat): (DeliveryState, Acceptance) {
    var id, t := s.line.nextId, Begin(s, message);
    if NeverFits(s.limits, size) then (s, TooLarge)
    else if Blocked(s, size) then (t.(line := Park(t.line, id, message, size, s.line.generation)), Waits)
    else (CommitCall(t, id, message, size), Committed)
  }

  /** Call `i` of the line no longer waits there. */
  function Unpark(s: DeliveryState, i: nat): DeliveryState
    requires i < |s.line.waiting|
  {
    s.(line := s.line.(waiting := s.line.waiting[..i] + s.line.waiting[i + 1..]))
  }

  /** Call `i` ends without having committed. */
  function GiveUp(s: DeliveryState, i: nat): DeliveryState
    requires i < |s.line.waiting|
  {
    WithTickets(Unpark(s, i), LeaveTicket(s.log.tickets, s.line.waiting[i].id))
  }

  /** One turn of a woken admission. */
  function AdmissionTurn(s: DeliveryState, i: nat): (DeliveryState, Acceptance)
    requires i < |s.line.waiting|
  {
    var a, t := s.line.waiting[i], Unpark(s, i);
    if a.generation != s.line.generation then (GiveUp(s, i), Retired)
    else if Blocked(s, a.size) then (t.(line := Park(t.line, a.id, a.message, a.size, a.generation)), Waits)
    else (CommitCall(t, a.id, a.message, a.size), Committed)
  }

  /** An acknowledged message of a retired connection never waits. */
  function DeliverAcknowledged(s: DeliveryState, message: nat, size: nat): DeliveryState {
    Commit(s, message, size, false)
  }

  function Invalidate(l: Line): Line {
    SetSpace(l.(generation := l.generation + 1))
  }

  /** The iterator of the current stream takes the oldest message. */
  function Consume(s: DeliveryState): DeliveryState
    requires s.store.queue != []
  {
    var e := s.store.queue[0];
    s.(store := Store(s.store.queue[1..], s.store.pendingBytes - e.size),
       line := SetSpace(s.line),
       log := s.log.(consumed := s.log.consumed + [e.message]))
  }

  /** An iterator of the current generation waits; a second one is refused. */
  function WaitForMessage(st: Stream): (Stream, bool) {
    var g := st.generation;
    if st.waitingGeneration == Some(g) then (st, false)
    else (st.(waitingGeneration := Some(g), consumers := st.consumers + [Consumer(g, st.readySet)]), true)
  }

  function ConsumerLeaves(st: Stream, i: nat): Stream
    requires i < |st.consumers|
  {
    var g := st.consumers[i].generation;
    st.(consumers := st.consumers[..i] + st.consumers[i + 1..],
        waitingGeneration := if st.waitingGeneration == Some(g) then None else st.waitingGeneration)
  }

  function Close(st: Stream): Stream {
    SetReady(st.(closed := true))
  }

  /** A closed stream starts a new generation that inherits every unread message. */
  function ResetStream(s: DeliveryState): DeliveryState {
    if !s.stream.closed then s
    else s.(line := Invalidate(s.line),
            stream := SetReady(s.stream.(generation := s.stream.generation + 1, closed := false)))
  }

  // ---- events ----

  datatype ReaderEvent =
    | EvAccept(message: nat, size: nat)
    | EvTurn(i: nat)
    | EvGiveUp(i: nat)
    | EvInvalidate
    | EvAcknowledged(message: nat, size: nat)

  datatype AppEvent =
    | EvConsume
    | EvWait
    | EvConsumerRuns(i: nat)
    | EvClose
    | EvReopen
    | EvReset

  datatype DeliveryEvent = Reader(r: ReaderEvent) | App(a: AppEvent)

  predicate ReaderEnabled(s: DeliveryState, e: ReaderEvent) {
    match e
    case EvTurn(i) => i < |s.line.waiting| && !Asleep(s.line, i)
    case EvGiveUp(i) => i < |s.line.waiting|
    case _ => true
  }

  function ReaderStep(s: DeliveryState, e: ReaderEvent): DeliveryState
    requires ReaderEnabled(s, e)
  {
    match e
    case EvAccept(message, size) => Accept(s, message, size).0
    case EvTurn(i) => AdmissionTurn(s, i).0
    case EvGiveUp(i) => GiveUp(s, i)
    case EvInvalidate => s.(line := Invalidate(s.line))
    case EvAcknowledged(message, size) => DeliverAcknowledged(s, message, size)
  }

  predicate AppEnabled(s: DeliveryState, e: AppEvent) {
    match e
    case EvConsume => s.store.queue != []
    case EvWait => s.store.queue == [] && !s.stream.closed
    case EvConsumerRuns(i) => i < |s.stream.consumers|
    case _ => true
  }

  function AppStep(s: DeliveryState, e: AppEvent): DeliveryState
    requires AppEnabled(s, e)
  {
    match e
    case EvConsume => Consume(s)
    case EvWait => s.(stream := WaitForMessage(s.stream).0)
    case EvConsumerRuns(i) => s.(stream := ConsumerLeaves(s.stream, i))
    case EvClose => s.(stream := Close(s.stream))
    case EvReopen => s.(stream := s.stream.(closed := false))
    case EvReset => ResetStream(s)
  }

  predicate DeliveryEnabled(s: DeliveryState, e: DeliveryEvent) {
    match e
    case Reader(r) => ReaderEnabled(s, r)
    case App(a) => AppEnabled(s, a)
  }

  function DeliveryStep(s: DeliveryState, e: DeliveryEvent): DeliveryState
    requires DeliveryEnabled(s, e)
  {
    match e
    case Reader(r) => ReaderStep(s, r)
    case App(a) => AppStep(s, a)
  }

  predicate IsDeliveryRun(s: DeliveryState, es: seq<DeliveryEvent>)
    decreases |es|
  {
    es == [] || (DeliveryEnabled(s, es[0]) && IsDeliveryRun(DeliveryStep(s, es[0]), es[1..]))
  }

  function DeliveryRun(s: DeliveryState, es: seq<DeliveryEvent>): DeliveryState
    requires IsDeliveryRun(s, es)
    decreases |es|
  {
    if es == [] then s else DeliveryRun(DeliveryStep(s, es[0]), es[1..])
  }
}
