/** Every admission call over whole runs: it commits at most once, under the generation it began with, or not at all. */
module DeliveryTickets {
  import opened DeliveryModel

  // ---- where a call can be ----

  function InLine(ws: seq<Admission>, id: nat): nat {
    if ws == [] then 0 else (if ws[0].id == id then 1 else 0) + InLine(ws[1..], id)
  }

  function InCommits(cs: seq<CommitOf>, id: nat): nat {
    if cs == [] then 0 else (if cs[0].id == id then 1 else 0) + InCommits(cs[1..], id)
  }

  function InLeft(ids: seq<nat>, id: nat): nat {
    if ids == [] then 0 else (if ids[0] == id then 1 else 0) + InLeft(ids[1..], id)
  }

  /** How often a call is found anywhere. */
  function Places(ws: seq<Admission>, t: Tickets, id: nat): nat {
    InLine(ws, id) + InCommits(t.commits, id) + InLeft(t.left, id)
  }

  /** Every call that began is in exactly one place, once; calls that have not begun are nowhere. */
  ghost predicate OnePlace(ws: seq<Admission>, t: Tickets) {
    forall id: nat :: Places(ws, t, id) == if id < |t.begun| then 1 else 0
  }

  /** Who waits or committed carries the message and the generation it began with. */
  ghost predicate Stamped(ws: seq<Admission>, t: Tickets) {
    && (forall i :: 0 <= i < |ws| ==> StampedAs(t.begun, ws[i].id, Stamp(ws[i].message, ws[i].generation)))
    && (forall i :: 0 <= i < |t.commits| ==> StampedAs(t.begun, t.commits[i].id, t.commits[i].stamp))
  }

  predicate StampedAs(begun: seq<Stamp>, id: nat, stamp: Stamp) {
    id < |begun| && begun[id] == stamp
  }

  /** No call began under a generation that is still to come. */
  ghost predicate Past(begun: seq<Stamp>, generation: int) {
    forall i :: 0 <= i < |begun| ==> begun[i].generation <= generation
  }

  ghost predicate TicketInv(l: Line, t: Tickets) {
    l.nextId == |t.begun| && OnePlace(l.waiting, t) && Stamped(l.waiting, t) && Past(t.begun, l.generation)
  }

  // ---- counting ----

  lemma {:induction false} LineConcat(a: seq<Admission>, b: seq<Admission>, id: nat)
    ensures InLine(a + b, id) == InLine(a, id) + InLine(b, id)
  {
    if a == [] {
      assert a + b == b;
    } else {
      assert (a + b)[1..] == a[1..] + b;
      LineConcat(a[1..], b, id);
    }
  }

  lemma {:induction false} LineOne(w: Admission, id: nat)
    ensures InLine([w], id) == if w.id == id then 1 else 0
  {
    assert [w][1..] == [];
  }

  lemma {:induction false} LineWithout(ws: seq<Admission>, i: nat, id: nat)
    requires i < |ws|
    ensures InLine(ws, id) == InLine(ws[..i] + ws[i + 1..], id) + if ws[i].id == id then 1 else 0
  {
    assert ws == ws[..i] + ([ws[i]] + ws[i + 1..]);
    LineConcat(ws[..i], [ws[i]] + ws[i + 1..], id);
    LineConcat([ws[i]], ws[i + 1..], id);
    LineConcat(ws[..i], ws[i + 1..], id);
    LineOne(ws[i], id);
  }

  lemma {:induction false} CommitsSnoc(cs: seq<CommitOf>, c: CommitOf, id: nat)
    ensures InCommits(cs + [c], id) == InCommits(cs, id) + if c.id == id then 1 else 0
  {
    if cs == [] {
      assert cs + [c] == [c] && [c][1..] == [];
    } else {
      assert (cs + [c])[1..] == cs[1..] + [c];
      CommitsSnoc(cs[1..], c, id);
    }
  }

  lemma {:induction false} LeftSnoc(ids: seq<nat>, x: nat, id: nat)
    ensures InLeft(ids + [x], id) == InLeft(ids, id) + if x == id then 1 else 0
  {
    if ids == [] {
      assert ids + [x] == [x] && [x][1..] == [];
    } else {
      assert (ids + [x])[1..] == ids[1..] + [x];
      LeftSnoc(ids[1..], x, id);
    }
  }

  // ---- the moves of a call ----

  /** A fresh call that is put nowhere yet. */
  ghost predicate Missing(l: Line, t: Tickets, id: nat) {
    && l.nextId == |t.begun| && id < |t.begun| && Stamped(l.waiting, t) && Past(t.begun, l.generation)
    && forall x: nat :: Places(l.waiting, t, x) == if x < |t.begun| && x != id then 1 else 0
  }

  lemma {:induction false} BeginOpens(l: Line, t: Tickets, stamp: Stamp)
    requires TicketInv(l, t) && stamp.generation == l.generation
    ensures Missing(l.(nextId := l.nextId + 1), OpenTicket(t, stamp), l.nextId)
    ensures StampedAs(OpenTicket(t, stamp).begun, l.nextId, stamp)
  {
    forall x: nat
      ensures Places(l.waiting, OpenTicket(t, stamp), x) == if x < |t.begun| + 1 && x != l.nextId then 1 else 0
    {
      assert Places(l.waiting, t, x) == if x < |t.begun| then 1 else 0;
    }
  }

  lemma {:induction false} UnparkMisses(l: Line, t: Tickets, i: nat)
    requires TicketInv(l, t) && i < |l.waiting|
    ensures Missing(l.(waiting := l.waiting[..i] + l.waiting[i + 1..]), t, l.waiting[i].id)
  {
    var id := l.waiting[i].id;
    assert StampedAs(t.begun, id, Stamp(l.waiting[i].message, l.waiting[i].generation));
    var left := l.waiting[..i] + l.waiting[i + 1..];
    forall x: nat
      ensures Places(left, t, x) == if x < |t.begun| && x != id then 1 else 0
    {
      LineWithout(l.waiting, i, x);
      assert Places(l.waiting, t, x) == if x < |t.begun| then 1 else 0;
    }
  }

  lemma {:induction false} ParkPlaces(l: Line, t: Tickets, id: nat, message: nat, size: nat, generation: int)
    requires Missing(l, t, id) && StampedAs(t.begun, id, Stamp(message, generation))
    ensures TicketInv(Park(l, id, message, size, generation), t)
  {
    var a := Admission(id, message, size, generation, l.spaceSet);
    forall x: nat
      ensures Places(l.waiting + [a], t, x) == if x < |t.begun| then 1 else 0
    {
      LineConcat(l.waiting, [a], x);
      LineOne(a, x);
      assert Places(l.waiting, t, x) == if x < |t.begun| && x != id then 1 else 0;
    }
  }

  lemma {:induction false} CommitPlaces(l: Line, t: Tickets, id: nat, stamp: Stamp)
    requires Missing(l, t, id) && StampedAs(t.begun, id, stamp)
    ensures TicketInv(l, CommitTicket(t, id, stamp))
  {
    forall x: nat
      ensures Places(l.waiting, CommitTicket(t, id, stamp), x) == if x < |t.begun| then 1 else 0
    {
      CommitsSnoc(t.commits, CommitOf(id, stamp), x);
      assert Places(l.waiting, t, x) == if x < |t.begun| && x != id then 1 else 0;
    }
  }

  lemma {:induction false} LeavePlaces(l: Line, t: Tickets, id: nat)
    requires Missing(l, t, id)
    ensures TicketInv(l, LeaveTicket(t, id))
  {
    forall x: nat
      ensures Places(l.waiting, LeaveTicket(t, id), x) == if x < |t.begun| then 1 else 0
    {
      LeftSnoc(t.left, id, x);
      assert Places(l.waiting, t, x) == if x < |t.begun| && x != id then 1 else 0;
    }
  }

  /** Setting the event and moving to a later generation leave every call where it is. */
  lemma {:induction false} WakePlaces(l: Line, t: Tickets, generation: int)
    requires TicketInv(l, t) && l.generation <= generation
    ensures TicketInv(SetSpace(l.(generation := generation)), t)
  {
  }

  // ---- the steps ----

  lemma {:induction false} AcceptKeepsTickets(s: DeliveryState, message: nat, size: nat)
    requires TicketInv(s.line, s.log.tickets)
    ensures var t := Accept(s, message, size).0; TicketInv(t.line, t.log.tickets)
  {
    var id, stamp := s.line.nextId, Stamp(message, s.line.generation);
    var t := Begin(s, message);
    BeginOpens(s.line, s.log.tickets, stamp);
    if NeverFits(s.limits, size) {
    } else if Blocked(s, size) {
      ParkPlaces(t.line, t.log.tickets, id, message, size, s.line.generation);
    } else {
      CommitPlaces(t.line, t.log.tickets, id, stamp);
    }
  }

  lemma {:induction false} TurnKeepsTickets(s: DeliveryState, i: nat)
    requires TicketInv(s.line, s.log.tickets) && i < |s.line.waiting|
    ensures var t := AdmissionTurn(s, i).0; TicketInv(t.line, t.log.tickets)
    ensures var t := GiveUp(s, i); TicketInv(t.line, t.log.tickets)
  {
    var a, t := s.line.waiting[i], Unpark(s, i);
    UnparkMisses(s.line, s.log.tickets, i);
    LeavePlaces(t.line, s.log.tickets, a.id);
    assert StampedAs(s.log.tickets.begun, a.id, Stamp(a.message, a.generation));
    if a.generation == s.line.generation {
      if Blocked(s, a.size) {
        ParkPlaces(t.line, s.log.tickets, a.id, a.message, a.size, a.generation);
      } else {
        CommitPlaces(t.line, s.log.tickets, a.id, Stamp(a.message, a.generation));
      }
    }
  }

  lemma {:induction false} StepKeepsTickets(s: DeliveryState, e: DeliveryEvent)
    requires TicketInv(s.line, s.log.tickets) && DeliveryEnabled(s, e)
    ensures var t := DeliveryStep(s, e); TicketInv(t.line, t.log.tickets)
  {
    match e
    case Reader(EvAccept(message, size)) => AcceptKeepsTickets(s, message, size);
    case Reader(EvTurn(i)) => TurnKeepsTickets(s, i);
    case Reader(EvGiveUp(i)) => TurnKeepsTickets(s, i);
    case Reader(EvInvalidate) => WakePlaces(s.line, s.log.tickets, s.line.generation + 1);
    case Reader(EvAcknowledged(message, size)) =>
    case App(EvConsume) => WakePlaces(s.line, s.log.tickets, s.line.generation);
    case App(EvReset) => WakePlaces(s.line, s.log.tickets, s.line.generation + 1);
    case App(_) =>
  }

  lemma {:induction false} RunKeepsTickets(s: DeliveryState, es: seq<DeliveryEvent>)
    requires TicketInv(s.line, s.log.tickets) && IsDeliveryRun(s, es)
    ensures var t := DeliveryRun(s, es); TicketInv(t.line, t.log.tickets)
    decreases |es|
  {
    if es != [] {
      StepKeepsTickets(s, es[0]);
      RunKeepsTickets(DeliveryStep(s, es[0]), es[1..]);
    }
  }

  lemma {:induction false} InitTickets(limits: Limits)
    ensures var s := InitDelivery(limits); TicketInv(s.line, s.log.tickets)
  {
  }

  // ---- what the runs promise ----

  lemma {:induction false} CommitCounted(cs: seq<CommitOf>, i: nat)
    requires i < |cs|
    ensures InCommits(cs, cs[i].id) >= 1
  {
    if i > 0 {
      CommitCounted(cs[1..], i - 1);
    }
  }

  lemma {:induction false} TwiceCounted(cs: seq<CommitOf>, i: nat, j: nat)
    requires i < j < |cs| && cs[i].id == cs[j].id
    ensures InCommits(cs, cs[i].id) >= 2
  {
    if i > 0 {
      TwiceCounted(cs[1..], i - 1, j - 1);
    } else {
      CommitCounted(cs[1..], j - 1);
    }
  }

  /** No two commits are of the same call, and each is of the message and generation its call began with. */
  ghost predicate CommitsOnce(t: Tickets) {
    && (forall i, j :: 0 <= i < j < |t.commits| ==> t.commits[i].id != t.commits[j].id)
    && (forall i :: 0 <= i < |t.commits| ==> StampedAs(t.begun, t.commits[i].id, t.commits[i].stamp))
  }

  lemma {:induction false} TicketsCommitOnce(l: Line, t: Tickets)
    requires TicketInv(l, t)
    ensures CommitsOnce(t)
  {
    forall i, j | 0 <= i < j < |t.commits|
      ensures t.commits[i].id != t.commits[j].id
    {
      assert Places(l.waiting, t, t.commits[i].id) <= 1;
      if t.commits[i].id == t.commits[j].id {
        TwiceCounted(t.commits, i, j);
      }
    }
  }

  /**
    In every run an admission call commits at most once, and only under the
    generation it began with; a call that began is waiting, committed or ended,
    and never two of these.
   */
  lemma {:induction false} AdmissionsCommitOnce(limits: Limits, es: seq<DeliveryEvent>)
    requires IsDeliveryRun(InitDelivery(limits), es)
    ensures var s := DeliveryRun(InitDelivery(limits), es);
            CommitsOnce(s.log.tickets) && OnePlace(s.line.waiting, s.log.tickets)
  {
    InitTickets(limits);
    RunKeepsTickets(InitDelivery(limits), es);
    var s := DeliveryRun(InitDelivery(limits), es);
    TicketsCommitOnce(s.line, s.log.tickets);
  }

  /** Whoever ended without a commit stays ended. */
  lemma {:induction false} LeftStays(s: DeliveryState, es: seq<DeliveryEvent>, id: nat)
    requires IsDeliveryRun(s, es)
    ensures InLeft(DeliveryRun(s, es).log.tickets.left, id) >= InLeft(s.log.tickets.left, id)
    decreases |es|
  {
    if es != [] {
      StepKeepsLeft(s, es[0], id);
      LeftStays(DeliveryStep(s, es[0]), es[1..], id);
    }
  }

  lemma {:induction false} StepKeepsLeft(s: DeliveryState, e: DeliveryEvent, id: nat)
    requires DeliveryEnabled(s, e)
    ensures InLeft(DeliveryStep(s, e).log.tickets.left, id) >= InLeft(s.log.tickets.left, id)
  {
    if e.Reader? && (e.r.EvTurn? || e.r.EvGiveUp?) {
      LeftSnoc(s.log.tickets.left, s.line.waiting[e.r.i].id, id);
    }
  }

  /** A call that was retired or gave up never commits, in any continuation. */
  lemma {:induction false} EndedNeverCommits(s: DeliveryState, es: seq<DeliveryEvent>, id: nat)
    requires TicketInv(s.line, s.log.tickets) && IsDeliveryRun(s, es) && InLeft(s.log.tickets.left, id) >= 1
    ensures InCommits(DeliveryRun(s, es).log.tickets.commits, id) == 0
  {
    RunKeepsTickets(s, es);
    LeftStays(s, es, id);
    var t := DeliveryRun(s, es);
    assert Places(t.line.waiting, t.log.tickets, id) <= 1;
  }

  /** Nor does one that waits when the line is invalidated. */
  lemma {:induction false} InvalidatedNeverCommits(s: DeliveryState, es: seq<DeliveryEvent>, i: nat)
    requires TicketInv(s.line, s.log.tickets) && i < |s.line.waiting|
    requires IsDeliveryRun(s.(line := Invalidate(s.line)), es)
    ensures var t := DeliveryRun(s.(line := Invalidate(s.line)), es);
            InCommits(t.log.tickets.commits, s.line.waiting[i].id) == 0
  {
    var a, t := s.line.waiting[i], s.(line := Invalidate(s.line));
    assert StampedAs(s.log.tickets.begun, a.id, Stamp(a.message, a.generation));
    LineWithout(s.line.waiting, i, a.id);
    assert Places(s.line.waiting, s.log.tickets, a.id) <= 1;
    WakePlaces(s.line, s.log.tickets, s.line.generation + 1);
    OldStaysUncommitted(t, es, a.id);
  }

  /** Call `id` began under a generation that is over, and has not committed. */
  ghost predicate Expired(s: DeliveryState, id: nat) {
    && id < |s.log.tickets.begun| && s.log.tickets.begun[id].generation < s.line.generation
    && InCommits(s.log.tickets.commits, id) == 0
  }

  lemma {:induction false} StepKeepsExpired(s: DeliveryState, e: DeliveryEvent, id: nat)
    requires TicketInv(s.line, s.log.tickets) && DeliveryEnabled(s, e) && Expired(s, id)
    ensures Expired(DeliveryStep(s, e), id)
  {
    match e
    case Reader(EvAccept(message, size)) =>
      CommitsSnoc(s.log.tickets.commits, CommitOf(s.line.nextId, Stamp(message, s.line.generation)), id);
    case Reader(EvTurn(i)) =>
      var a := s.line.waiting[i];
      assert StampedAs(s.log.tickets.begun, a.id, Stamp(a.message, a.generation));
      CommitsSnoc(s.log.tickets.commits, CommitOf(a.id, Stamp(a.message, s.line.generation)), id);
    case _ =>
  }

  lemma {:induction false} OldStaysUncommitted(s: DeliveryState, es: seq<DeliveryEvent>, id: nat)
    requires TicketInv(s.line, s.log.tickets) && IsDeliveryRun(s, es) && Expired(s, id)
    ensures InCommits(DeliveryRun(s, es).log.tickets.commits, id) == 0
    decreases |es|
  {
    if es != [] {
      StepKeepsExpired(s, es[0], id);
      StepKeepsTickets(s, es[0]);
      OldStaysUncommitted(DeliveryStep(s, es[0]), es[1..], id);
    }
  }
}
