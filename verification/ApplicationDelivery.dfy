/**
  The delivery object in its streaming mode. Every public method is a step of
  `DeliveryModel` and keeps `Valid()`: the invariants of `DeliveryProofs` and
  `DeliveryTickets`.
 */
module ApplicationDeliveryObject {
  import opened Options
  import opened DeliveryModel
  import opened DeliveryProofs
  import opened DeliveryTickets

  ghost predicate Sound(s: DeliveryState) {
    DeliveryInv(s) && TicketInv(s.line, s.log.tickets)
  }

  lemma {:induction false} StepKeepsSound(s: DeliveryState, e: DeliveryEvent)
    requires Sound(s) && DeliveryEnabled(s, e)
    ensures Sound(DeliveryStep(s, e))
  {
    DeliveryStepKeepsInv(s, e);
    StepKeepsTickets(s, e);
  }

  /** The oldest queued message is the oldest committed one that was not consumed. */
  lemma {:induction false} OldestFirst(s: DeliveryState)
    requires Conserved(s) && s.store.queue != []
    ensures |s.log.consumed| < |s.log.committed|
    ensures s.store.queue[0].message == s.log.committed[|s.log.consumed|]
  {
    assert s.log.committed[|s.log.consumed|] == Messages(s.store.queue)[0];
  }

  class ApplicationDelivery {
    const limits: Limits
    var store: Store
    var line: Line
    var stream: Stream
    ghost var log: Log

    ghost function View(): DeliveryState
      reads this
    {
      DeliveryState(limits, store, line, stream, log)
    }

    ghost predicate Valid()
      reads this
    {
      Sound(View())
    }

    constructor (limits: Limits)
      ensures Valid() && View() == InitDelivery(limits)
    {
      this.limits := limits;
      store, line := Store([], 0), Line([], 0, 0, 0);
      stream := Stream(0, false, [], None, 0);
      log := Log([], [], Tickets([], [], []));
      new;
      InitTickets(limits);
    }

    // ---- events and the queue ----

    method WakeAdmissions()
      modifies this`line
      ensures line == SetSpace(old(line))
    {
      line := line.(spaceSet := line.spaceSet + 1);
    }

    method WakeIterators()
      modifies this`stream
      ensures stream == SetReady(old(stream))
    {
      stream := stream.(readySet := stream.readySet + 1);
    }

    method PutMessage(message: nat, size: nat, bounded: bool)
      modifies this`store, this`stream, this`log
      ensures View() == Commit(old(View()), message, size, bounded)
    {
      var charge := if limits.maxBytes.None? then 0 else size;
      store := store.(pendingBytes := store.pendingBytes + charge);
      store := store.(queue := store.queue + [Entry(message, charge, bounded)]);
      log := log.(committed := log.committed + [message]);
      WakeIterators();
    }

    method HasNoRoom(size: nat) returns (blocked: bool)
      ensures blocked <==> Blocked(View(), size)
    {
      var full := limits.maxMessages > 0 && |store.queue| >= limits.maxMessages;
      if limits.maxBytes.None? {
        return full;
      }
      return store.pendingBytes + size > limits.maxBytes.value || full;
    }

    // ---- admission ----

    /** Refuses exactly what can never fit, and takes over the message exactly when there is room for it now. */
    method AcceptMessage(message: nat, size: nat) returns (a: Acceptance)
      requires Valid()
      modifies this`store, this`stream, this`log, this`line
      ensures Valid() && (View(), a) == Accept(old(View()), message, size)
      ensures a.TooLarge? <==> NeverFits(limits, size)
      ensures a.Committed? <==> !NeverFits(limits, size) && !Blocked(old(View()), size)
      ensures log.committed == old(log).committed + if a.Committed? then [message] else []
      ensures !a.TooLarge? ==>
                InCommits(log.tickets.commits, old(line).nextId) == if a.Committed? then 1 else 0
    {
      StepKeepsSound(View(), Reader(EvAccept(message, size)));
      FreshCall(line, log.tickets, Stamp(message, line.generation));
      a := BeginCall(message, size);
    }

    method BeginCall(message: nat, size: nat) returns (a: Acceptance)
      modifies this`store, this`stream, this`log, this`line
      ensures (View(), a) == Accept(old(View()), message, size)
    {
      if limits.maxBytes.Some? && size > limits.maxBytes.value {
        return TooLarge;
      }
      var id := line.nextId;
      var blocked := HasNoRoom(size);
      line := line.(nextId := id + 1);
      log := log.(tickets := OpenTicket(log.tickets, Stamp(message, line.generation)));
      if blocked {
        line := line.(waiting := line.waiting + [Admission(id, message, size, line.generation, line.spaceSet)]);
        return Waits;
      }
      log := log.(tickets := CommitTicket(log.tickets, id, Stamp(message, line.generation)));
      PutMessage(message, size, true);
      return Committed;
    }

    /** A woken call commits exactly when its generation is current and there is room; it never committed before. */
    method WaitingTurn(i: nat) returns (a: Acceptance)
      requires Valid() && i < |line.waiting| && !Asleep(line, i)
      modifies this`store, this`stream, this`log, this`line
      ensures Valid() && (View(), a) == AdmissionTurn(old(View()), i)
      ensures var c := old(line).waiting[i];
              && (a.Committed? <==> c.generation == old(line).generation && !Blocked(old(View()), c.size))
              && log.committed == old(log).committed + (if a.Committed? then [c.message] else [])
              && InCommits(old(log).tickets.commits, c.id) == 0
    {
      StepKeepsSound(View(), Reader(EvTurn(i)));
      WaitingUncommitted(line, log.tickets, i);
      a := TakeTurn(i);
    }

    method TakeTurn(i: nat) returns (a: Acceptance)
      requires i < |line.waiting|
      modifies this`store, this`stream, this`log, this`line
      ensures (View(), a) == AdmissionTurn(old(View()), i)
    {
      var w := line.waiting[i];
      line := line.(waiting := line.waiting[..i] + line.waiting[i + 1..]);
      if w.generation != line.generation {
        log := log.(tickets := LeaveTicket(log.tickets, w.id));
        return Retired;
      }
      var blocked := HasNoRoom(w.size);
      if blocked {
        line := line.(waiting := line.waiting + [w.(since := line.spaceSet)]);
        return Waits;
      }
      log := log.(tickets := CommitTicket(log.tickets, w.id, Stamp(w.message, line.generation)));
      PutMessage(w.message, w.size, true);
      return Committed;
    }

    /** A timeout or a cancellation ends a waiting call. */
    method AbandonCall(i: nat)
      requires Valid() && i < |line.waiting|
      modifies this`log, this`line
      ensures Valid() && View() == GiveUp(old(View()), i) && log.committed == old(log).committed
    {
      StepKeepsSound(View(), Reader(EvGiveUp(i)));
      log := log.(tickets := LeaveTicket(log.tickets, line.waiting[i].id));
      line := line.(waiting := line.waiting[..i] + line.waiting[i + 1..]);
    }

    /** From here on no call that waits now can commit. */
    method InvalidateWaitingAdmissions()
      requires Valid()
      modifies this`line
      ensures Valid() && line == Invalidate(old(line))
      ensures forall i :: 0 <= i < |line.waiting| ==> !Asleep(line, i)
    {
      StepKeepsSound(View(), Reader(EvInvalidate));
      line := line.(generation := line.generation + 1);
      WakeAdmissions();
    }

    /** Past the bounds, yet charged; what was admitted normally stays within the limits. */
    method DeliverAcknowledgedNow(message: nat, size: nat)
      requires Valid()
      modifies this`store, this`stream, this`log
      ensures Valid() && View() == DeliverAcknowledged(old(View()), message, size)
      ensures log.committed == old(log).committed + [message] && WithinLimits(View())
    {
      StepKeepsSound(View(), Reader(EvAcknowledged(message, size)));
      PutMessage(message, size, false);
    }

    // ---- the stream ----

    /** The oldest message the application has not seen; every sleeping admission is woken. */
    method NextMessage() returns (message: nat)
      requires Valid() && store.queue != []
      modifies this`store, this`line, this`log
      ensures Valid() && View() == Consume(old(View()))
      ensures |old(log).consumed| < |log.committed| && message == log.committed[|old(log).consumed|]
      ensures log.consumed == old(log).consumed + [message] && log.committed == old(log).committed
    {
      StepKeepsSound(View(), App(EvConsume));
      OldestFirst(View());
      message := TakeOldest();
    }

    method TakeOldest() returns (message: nat)
      requires store.queue != []
      modifies this`store, this`line, this`log
      ensures View() == Consume(old(View())) && message == old(store).queue[0].message
    {
      var entry := store.queue[0];
      store := store.(queue := store.queue[1..]);
      store := store.(pendingBytes := store.pendingBytes - entry.size);
      log := log.(consumed := log.consumed + [entry.message]);
      WakeAdmissions();
      return entry.message;
    }

    /** Refused while another iterator of the same stream waits; otherwise this is the only one. */
    method BeginWait() returns (ok: bool)
      requires Valid() && AppEnabled(View(), EvWait)
      modifies this`stream
      ensures Valid() && (stream, ok) == WaitForMessage(old(stream))
      ensures ok ==> forall i :: 0 <= i < |old(stream).consumers| ==>
                                   old(stream).consumers[i].generation != stream.generation
    {
      StepKeepsSound(View(), App(EvWait));
      var generation := stream.generation;
      if stream.waitingGeneration == Some(generation) {
        return false;
      }
      stream := stream.(waitingGeneration := Some(generation));
      stream := stream.(consumers := stream.consumers + [Consumer(generation, stream.readySet)]);
      return true;
    }

    method EndWait(i: nat)
      requires Valid() && i < |stream.consumers|
      modifies this`stream
      ensures Valid() && stream == ConsumerLeaves(old(stream), i)
    {
      StepKeepsSound(View(), App(EvConsumerRuns(i)));
      var generation := stream.consumers[i].generation;
      stream := stream.(consumers := stream.consumers[..i] + stream.consumers[i + 1..]);
      if stream.waitingGeneration == Some(generation) {
        stream := stream.(waitingGeneration := None);
      }
    }

    method CloseStream()
      requires Valid()
      modifies this`stream
      ensures Valid() && stream == Close(old(stream))
    {
      StepKeepsSound(View(), App(EvClose));
      stream := stream.(closed := true);
      WakeIterators();
    }

    method ReopenStream()
      requires Valid()
      modifies this`stream
      ensures Valid() && stream == old(stream).(closed := false)
    {
      StepKeepsSound(View(), App(EvReopen));
      stream := stream.(closed := false);
    }

    /** Moves every unread message into the queue of the next generation, in order. */
    method ResetTheStream()
      requires Valid()
      modifies this`line, this`store, this`stream
      ensures Valid() && View() == ResetStream(old(View()))
      ensures store == old(store)
    {
      StepKeepsSound(View(), App(EvReset));
      NextGeneration();
    }

    method NextGeneration()
      modifies this`line, this`store, this`stream
      ensures View() == ResetStream(old(View()))
    {
      if !stream.closed {
        return;
      }
      line := line.(generation := line.generation + 1);
      WakeAdmissions();
      stream := stream.(generation := stream.generation + 1);
      var replacement: seq<Entry> := [];
      var rest := store.queue;
      while rest != []
        invariant replacement + rest == store.queue
        invariant line == Invalidate(old(line)) && store == old(store)
        invariant stream == old(stream).(generation := old(stream).generation + 1)
        decreases |rest|
      {
        replacement := replacement + [rest[0]];
        rest := rest[1..];
      }
      WakeIterators();
      store := store.(queue := replacement);
      stream := stream.(closed := false);
    }
  }

  /** A call about to begin is nowhere yet, and its commit will be its first. */
  lemma {:induction false} FreshCall(l: Line, t: Tickets, stamp: Stamp)
    requires TicketInv(l, t)
    ensures InCommits(t.commits, l.nextId) == 0
    ensures InCommits(CommitTicket(OpenTicket(t, stamp), l.nextId, stamp).commits, l.nextId) == 1
  {
    assert Places(l.waiting, t, l.nextId) == 0;
    CommitsSnoc(t.commits, CommitOf(l.nextId, stamp), l.nextId);
  }

  lemma {:induction false} WaitingUncommitted(l: Line, t: Tickets, i: nat)
    requires TicketInv(l, t) && i < |l.waiting|
    ensures InCommits(t.commits, l.waiting[i].id) == 0
  {
    LineWithout(l.waiting, i, l.waiting[i].id);
    assert Places(l.waiting, t, l.waiting[i].id) <= 1;
  }
}
