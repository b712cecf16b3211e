/**
  The writer object itself. Every public method is one atomic step of the
  program: it is the corresponding step of `WriterModel` and keeps `Valid()`,
  which is the order, accounting, bounds and permits of `WriterProofs` and the
  covered waiters of `WriterWakeups`.
 */
module WritePumpObject {
  import opened Options
  import opened WriteItems
  import opened WriterModel
  import opened WriterProofs
  import opened WriterWakeups
  import opened WriterAdmission

  class WritePump {
    const maxBytes: nat
    const maxMessages: nat

    var stock: Stock
    var line: Line
    var fence: Fence
    var eager: Eager
    var task: Task
    ghost var log: Log
    /** How often the last unfinished frame was marked done, which is when `join()` returns. */
    ghost var joins: nat

    ghost function View(): State
      reads this
    {
      State(maxBytes, maxMessages, stock, line, fence, eager, task, log)
    }

    ghost predicate Valid()
      reads this
    {
      Sound(View())
    }

    constructor (maxBytes: nat, maxMessages: nat)
      requires 1 <= maxMessages
      ensures Valid() && View() == Init(maxBytes, maxMessages) && joins == 0
    {
      var s := NewState(maxBytes, maxMessages);
      this.maxBytes, this.maxMessages := maxBytes, maxMessages;
      stock, line, fence, eager, task := s.stock, s.line, s.fence, s.eager, s.task;
      log, joins := s.log, 0;
    }

    // ---- the asyncio queue ----

    method TaskDone()
      modifies this`stock, this`joins
      ensures stock == old(stock).(unfinished := old(stock).unfinished - 1)
      ensures joins == old(joins) + (if stock.unfinished == 0 then 1 else 0)
    {
      stock := stock.(unfinished := stock.unfinished - 1);
      if stock.unfinished == 0 {
        joins := joins + 1;
      }
    }

    method MarkDone(n: nat)
      requires stock.unfinished >= n
      modifies this`stock, this`joins
      ensures stock == old(stock).(unfinished := old(stock).unfinished - n)
      ensures joins == old(joins) + (if n > 0 && stock.unfinished == 0 then 1 else 0)
    {
      var i := 0;
      while i < n
        invariant 0 <= i <= n && stock == old(stock).(unfinished := old(stock).unfinished - i)
        invariant joins == old(joins) + (if i > 0 && stock.unfinished == 0 then 1 else 0)
      {
        TaskDone();
        i := i + 1;
      }
    }

    method PutAdmitted(item: WriteItem)
      modifies this`stock, this`log
      ensures View() == Admit(old(View()), item)
    {
      stock := stock.(queue := stock.queue + [item], unfinished := stock.unfinished + 1);
      stock := stock.(queuedBytes := stock.queuedBytes + Size(item));
      stock := stock.(resident := stock.resident + 1);
      log := log.(admitted := log.admitted + [item]);
    }

    method ReleaseResident(n: int)
      requires 0 <= n <= stock.resident
      modifies this`stock
      ensures stock == old(stock).(resident := old(stock).resident - n)
    {
      stock := stock.(resident := stock.resident - n);
    }

    // ---- permits and fences ----

    method DropEagerBinding()
      modifies this`eager
      ensures eager == DropBinding(old(eager))
    {
      eager := eager.(generation := eager.generation + 1);
      eager := eager.(armed := false, ackArmed := false, rearmScheduled := false);
      eager := eager.(ackOwner := None, ackDeferred := false, bound := false);
    }

    method ScheduleEagerRearm()
      modifies this`eager
      ensures eager == ScheduleRearm(old(eager))
    {
      if eager.rearmScheduled {
        return;
      }
      eager := eager.(rearmScheduled := true, callbacks := eager.callbacks + [eager.generation]);
    }

    method RunRearmCallback()
      requires Valid() && eager.callbacks != []
      modifies this`eager
      ensures Valid() && View() == RunCallback(old(View()))
      ensures old(eager).callbacks[0] != old(eager).generation ==>
                eager == old(eager).(callbacks := old(eager).callbacks[1..])
      ensures old(eager).callbacks[0] == old(eager).generation ==> old(eager).rearmScheduled && eager.callbacks == []
    {
      StepKeepsSound(View(), Permit(EvCallback));
      CallbackKeepsPermits(eager, IdlePath(View()));
      var generation := eager.callbacks[0];
      eager := eager.(callbacks := eager.callbacks[1..]);
      if generation != eager.generation {
        return;
      }
      eager := eager.(rearmScheduled := false);
      if eager.bound && !task.writing && stock.queue == [] {
        eager := eager.(armed := true, ackArmed := true, dataSinceArm := 0, ackSinceArm := 0);
      }
    }

    method OwnAckRearm(owner: Option<int>)
      requires Valid()
      modifies this`eager
      ensures Valid() && View() == OwnAck(old(View()), owner)
    {
      StepKeepsSound(View(), Permit(EvOwnAck(owner)));
      eager := eager.(ackOwner := owner, ackDeferred := false);
    }

    method RearmAck()
      requires Valid()
      modifies this`eager
      ensures Valid() && View() == RearmDeferredAck(old(View()))
    {
      StepKeepsSound(View(), Permit(EvRearmAck));
      if eager.ackDeferred {
        eager := eager.(ackDeferred := false);
        if eager.bound && !task.writing && stock.queue == [] {
          eager := eager.(ackArmed := true, ackSinceArm := 0);
        }
      }
    }

    method FenceEagerFailure()
      modifies this`eager, this`fence
      ensures eager == DropBinding(old(eager)) && fence == FenceFailure(old(fence))
    {
      fence := fence.(failed := true);
      DropEagerBinding();
      fence := fence.(epoch := fence.epoch + 1);
    }

    // ---- admission ----

    method CanEnqueueSize(size: nat) returns (ok: bool)
      ensures ok <==> CanEnqueue(View(), size)
    {
      if stock.resident >= maxMessages {
        return false;
      }
      return stock.queuedBytes + size <= maxBytes || (stock.resident == 0 && stock.queuedBytes == 0);
    }

    method RetainFailedEager(item: WriteItem, exposed: nat)
      modifies this`stock, this`log, this`eager, this`fence
      ensures View() == RetainFailed(old(View()), item, exposed)
    {
      log := log.(wire := log.wire + Exposed(Wire(item), exposed));
      FenceEagerFailure();
      PutAdmitted(item);
    }

    /** `None` leaves the item to the queue. */
    method TryWriteDataEager(item: WriteItem, o: NowaitOutcome) returns (v: Option<Verdict>)
      modifies this`stock, this`log, this`eager, this`fence
      ensures v.None? <==> !DataEagerAllowed(old(View()), item) || o.Declined?
      ensures v.None? ==> View() == old(View())
      ensures v.Some? && o.Accepted? ==> v.value.WrittenEagerly? && View() == DataWritten(old(View()), item)
      ensures v.Some? && o.Raised? ==> v.value.TransportRaised? && View() == RetainFailed(old(View()), item, o.exposed)
    {
      if !eager.armed || !eager.bound || task.writing || line.waiters != 0 || item.Segmented? || stock.queue != [] {
        return None;
      }
      match o {
        case Declined =>
          return None;
        case Raised(exposed) =>
          RetainFailedEager(item, exposed);
          return Some(TransportRaised);
        case Accepted =>
          log := Log(log.admitted + [item], log.wire + Wire(item));
          eager := eager.(armed := false, dataSinceArm := eager.dataSinceArm + 1);
          ScheduleEagerRearm();
          return Some(WrittenEagerly);
      }
    }

    method TryWriteAckEager(item: WriteItem, task: int, o: NowaitOutcome) returns (v: Option<Verdict>)
      modifies this`stock, this`log, this`eager, this`fence
      ensures v.None? <==> !AckEagerAllowed(old(View())) || o.Declined?
      ensures v.None? ==> View() == old(View())
      ensures v.Some? && o.Accepted? ==> v.value.WrittenEagerly? && View() == AckWritten(old(View()), item, task)
      ensures v.Some? && o.Raised? ==> v.value.TransportRaised? && View() == RetainFailed(old(View()), item, o.exposed)
    {
      if !eager.ackArmed || !eager.bound || this.task.writing || line.waiters != 0 || stock.queue != [] {
        return None;
      }
      match o {
        case Declined =>
          return None;
        case Raised(exposed) =>
          RetainFailedEager(item, exposed);
          return Some(TransportRaised);
        case Accepted =>
          log := Log(log.admitted + [item], log.wire + Wire(item));
          eager := eager.(ackArmed := false, ackSinceArm := eager.ackSinceArm + 1);
          if eager.ackOwner == Some(task) {
            eager := eager.(ackDeferred := true);
          } else {
            ScheduleEagerRearm();
          }
          return Some(WrittenEagerly);
      }
    }

    method TryEnqueue(item: WriteItem, epoch: int, o: NowaitOutcome) returns (v: Verdict)
      requires Valid()
      modifies this`stock, this`log, this`eager, this`fence
      ensures Valid() && (View(), v) == TryData(old(View()), item, epoch, o)
      ensures log.admitted == old(log).admitted + if Admissible(old(View()), Offer(item, epoch)) then [item] else []
      ensures v.WrittenEagerly? ==> log.wire == WireAll(log.admitted)
    {
      StepKeepsSound(View(), Producer(EvData(item, epoch, o)));
      AdmissionExact(View(), EvData(item, epoch, o));
      if fence.sealed || fence.failed || epoch != fence.epoch {
        return StaleConnection;
      }
      var fits := CanEnqueueSize(Size(item));
      if !fits {
        return Refused;
      }
      var written := TryWriteDataEager(item, o);
      if written.Some? {
        return written.value;
      }
      PutAdmitted(item);
      return Queued;
    }

    method TryEnqueueTerminal(item: WriteItem, epoch: int, o: NowaitOutcome) returns (v: Verdict)
      requires Valid()
      modifies this`stock, this`log, this`eager, this`fence
      ensures Valid() && (View(), v) == TryTerminal(old(View()), item, epoch, o)
      ensures log.admitted == old(log).admitted + if Admissible(old(View()), Offer(item, epoch)) then [item] else []
      ensures fence.sealed <==> old(fence).sealed || (epoch == old(fence).epoch && !v.TransportRaised?)
    {
      StepKeepsSound(View(), Producer(EvTerminal(item, epoch, o)));
      TerminalSealsItsOwn(View(), item, epoch, o);
      v := TryEnqueue(item, epoch, o);
      if epoch == fence.epoch {
        fence := fence.(sealed := true);
      }
    }

    method TryEnqueueAck(item: WriteItem, epoch: int, task: int, o: NowaitOutcome) returns (v: Verdict)
      requires Valid() && item.Frame?
      modifies this`stock, this`log, this`eager, this`fence
      ensures Valid() && (View(), v) == TryAck(old(View()), item, epoch, task, o)
      ensures log.admitted == old(log).admitted + if Admissible(old(View()), Offer(item, epoch)) then [item] else []
      ensures v.WrittenEagerly? ==> log.wire == WireAll(log.admitted)
    {
      StepKeepsSound(View(), Producer(EvAck(item, epoch, task, o)));
      AdmissionExact(View(), EvAck(item, epoch, task, o));
      if fence.sealed || fence.failed || epoch != fence.epoch {
        return StaleConnection;
      }
      var fits := CanEnqueueSize(Size(item));
      if !fits {
        return Refused;
      }
      var written := TryWriteAckEager(item, task, o);
      if written.Some? {
        return written.value;
      }
      PutAdmitted(item);
      return Queued;
    }

    // ---- waiting for capacity ----

    /** One turn of the wait loop, up to its suspension. */
    method WaitLoopTurn(item: WriteItem, epoch: int)
      modifies this`stock, this`log, this`line
      ensures View() == WaitTurn(old(View()), item, epoch)
    {
      if fence.sealed || fence.failed || epoch != fence.epoch {
        return;
      }
      var size := Size(item);
      var messagesFull := stock.resident >= maxMessages;
      var empty := stock.resident == 0 && stock.queuedBytes == 0 && stock.queue == [];
      var bytesBlocked := stock.queuedBytes + size > maxBytes && !empty;
      if (!messagesFull && !bytesBlocked) || (stock.queue == [] && stock.queuedBytes == 0) {
        PutAdmitted(item);
        return;
      }
      line := Line(line.waiters + 1, line.parked + [Parked(item, epoch, false)]);
    }

    /** The first turn of a producer that found no room. */
    method EnqueueAfterWait(item: WriteItem, epoch: int)
      requires Valid()
      modifies this`stock, this`log, this`line
      ensures Valid() && View() == WaitTurn(old(View()), item, epoch)
      ensures log.admitted == old(log).admitted + if Admissible(old(View()), Offer(item, epoch)) then [item] else []
      ensures line.parked == old(line).parked
              + if Stale(fence, epoch) || CanEnqueue(old(View()), Size(item)) then [] else [Parked(item, epoch, false)]
    {
      StepKeepsSound(View(), Producer(EvWait(item, epoch)));
      AdmissionExact(View(), EvWait(item, epoch));
      WaitMatchesImmediate(View(), Size(item));
      WaitLoopTurn(item, epoch);
    }

    /** An immediate attempt, then either a refusal or the first wait turn. */
    method Enqueue(item: WriteItem, nowait: bool, epoch: int, o: NowaitOutcome) returns (v: Verdict)
      requires Valid()
      modifies this`stock, this`log, this`eager, this`fence, this`line
      ensures Valid()
      ensures var (t, u) := TryData(old(View()), item, epoch, o);
              v == u && View() == if u.Refused? && !nowait then WaitTurn(t, item, epoch) else t
    {
      v := TryEnqueue(item, epoch, o);
      if v.Refused? && !nowait {
        EnqueueAfterWait(item, epoch);
      }
    }

    /** A selected producer runs again; a frame is admitted by the same rule as an immediate one. */
    method ResumeParked(i: nat)
      requires Valid() && i < |line.parked| && line.parked[i].notified
      modifies this`stock, this`log, this`line
      ensures Valid() && View() == Resume(old(View()), i)
      ensures var o := Offer(old(line).parked[i].item, old(line).parked[i].epoch);
              log.admitted == old(log).admitted + if Admissible(old(View()), o) then [o.item] else []
    {
      StepKeepsSound(View(), Producer(EvResume(i)));
      AdmissionExact(View(), EvResume(i));
      RunAgain(i);
    }

    method RunAgain(i: nat)
      requires i < |line.parked|
      modifies this`stock, this`log, this`line
      ensures View() == Resume(old(View()), i)
    {
      var p := line.parked[i];
      line := Line(line.waiters - 1, line.parked[..i] + line.parked[i + 1..]);
      WaitLoopTurn(p.item, p.epoch);
    }

    method CancelParkedProducer(i: nat)
      requires Valid() && i < |line.parked|
      modifies this`line
      ensures Valid() && View() == CancelParked(old(View()), i)
    {
      StepKeepsSound(View(), Producer(EvCancelParked(i)));
      line := line.(parked := line.parked[..i] + line.parked[i + 1..]);
      if line.waiters > 1 {
        NotifyProducers(1);
      }
      line := line.(waiters := line.waiters - 1);
    }

    /** Selects waiting producers front to back, as the condition variable does. */
    method NotifyProducers(n: nat)
      modifies this`line
      ensures line == old(line).(parked := Notify(old(line).parked, n))
    {
      var done: seq<Parked>, rest, left := [], line.parked, n;
      while rest != [] && left > 0
        invariant done + Notify(rest, left) == Notify(old(line).parked, n) && line == old(line)
        decreases |rest|
      {
        NotifyStep(done, rest, left);
        var p := rest[0];
        if !p.notified {
          p := p.(notified := true);
          left := left - 1;
        }
        done, rest := done + [p], rest[1..];
      }
      assert Notify(rest, left) == rest;
      line := line.(parked := done + rest);
    }

    // ---- the producer-side latency batch ----

    /** Puts an extracted batch back without ever letting `join()` return. */
    method RestoreLatencyItems(items: seq<WriteItem>)
      requires stock.unfinished >= |items|
      modifies this`stock, this`joins
      ensures stock == old(stock).(queue := old(stock).queue + items) && joins == old(joins)
    {
      var i := 0;
      while i < |items|
        invariant 0 <= i <= |items| && joins == old(joins)
        invariant stock == old(stock).(queue := old(stock).queue + items[..i], unfinished := old(stock).unfinished + i)
      {
        stock := stock.(queue := stock.queue + [items[i]], unfinished := stock.unfinished + 1);
        i := i + 1;
      }
      assert items[..i] == items;
      i := 0;
      while i < |items|
        invariant 0 <= i <= |items| && joins == old(joins)
        invariant stock == old(stock).(queue := old(stock).queue + items,
                                       unfinished := old(stock).unfinished + |items| - i)
      {
        TaskDone();
        i := i + 1;
      }
    }

    /** The whole queue in one write, or the queue as it was. */
    method TryFlushLatencyBatch(o: NowaitOutcome) returns (flushed: bool)
      requires Valid()
      modifies this`stock, this`joins, this`log, this`eager, this`fence
      ensures Valid() && View() == FlushLatency(old(View()), o)
      ensures flushed <==> LatencyAllowed(old(View())) && o.Accepted?
      ensures flushed ==> stock.queue == [] && log.wire == WireAll(log.admitted)
      ensures joins == old(joins) + (if flushed then 1 else 0)
    {
      StepKeepsSound(View(), Producer(EvFlush(o)));
      flushed := FlushLatencyItems(o);
    }

    method FlushLatencyItems(o: NowaitOutcome) returns (flushed: bool)
      requires Charged(stock, Batch(View())) && (task.writing <==> task.writer.Busy?)
      modifies this`stock, this`joins, this`log, this`eager, this`fence
      ensures View() == FlushLatency(old(View()), o)
      ensures flushed <==> LatencyAllowed(old(View())) && o.Accepted?
      ensures joins == old(joins) + (if flushed then 1 else 0)
      ensures joins > old(joins) ==> stock.resident == 0
    {
      var queued := |stock.queue|;
      if queued < LATENCY_MIN_ITEMS || queued > LATENCY_MAX_ITEMS
         || (queued < LATENCY_MAX_ITEMS && stock.queuedBytes < LATENCY_TARGET_BYTES) {
        return false;
      }
      if !eager.bound || task.writing || line.waiters != 0 {
        return false;
      }
      var items := stock.queue;
      stock := stock.(queue := []);
      if exists i :: 0 <= i < |items| && items[i].Segmented? {
        RestoreLatencyItems(items);
        return false;
      }
      match o {
        case Declined =>
          RestoreLatencyItems(items);
          return false;
        case Raised(exposed) =>
          log := log.(wire := log.wire + Exposed(WireAll(items), exposed));
          FenceEagerFailure();
          RestoreLatencyItems(items);
          return false;
        case Accepted =>
          log := log.(wire := log.wire + WireAll(items));
          MarkDone(queued);
          stock := stock.(queuedBytes := stock.queuedBytes - SizeAll(items));
          ReleaseResident(queued);
          assert stock.queuedBytes == 0;
          return true;
      }
    }

    // ---- the writer task ----

    method ReachQueueWait()
      modifies this`task, this`eager
      ensures View() == LoopTop(old(View()))
    {
      task := task.(writer := Idle);
      if stock.queue == [] && eager.bound {
        eager := eager.(armed := true, ackArmed := true, dataSinceArm := 0, ackSinceArm := 0);
      }
    }

    /** `queue.get()`, the `get_nowait()` loop, and the transport calls the batch becomes. */
    method TakeBatch(many: bool) returns (calls: seq<Call>)
      requires Valid() && task.writer.Idle? && stock.queue != []
      modifies this`stock, this`task, this`eager
      ensures Valid() && View() == Take(old(View()))
      ensures task.writer.Busy? && calls == Plan(task.writer.batch, many) && CallsBytes(calls) == task.writer.rest
    {
      StepKeepsSound(View(), Writer(EvTake));
      calls := GatherBatch(many);
      PlanBytes(task.writer.batch, many);
    }

    method GatherBatch(many: bool) returns (calls: seq<Call>)
      requires stock.queue != []
      modifies this`stock, this`task, this`eager
      ensures View() == Take(old(View()))
      ensures task.writer.Busy? && calls == Plan(task.writer.batch, many)
    {
      var queue := stock.queue;
      eager := eager.(armed := false);
      var batch := [queue[0]];
      queue := queue[1..];
      while |batch| < BATCH_LIMIT && queue != []
        invariant 1 <= |batch| <= BATCH_LIMIT && batch + queue == old(stock).queue
        decreases |queue|
      {
        batch := batch + [queue[0]];
        queue := queue[1..];
      }
      assert batch == old(stock).queue[..|batch|] && queue == old(stock).queue[|batch|..];
      stock := stock.(queue := queue);
      calls := PlanBatch(batch, many);
      task := task.(writing := true, writer := Busy(batch, WireAll(batch), fence.failed));
    }

    method ExposeBytes(k: nat)
      requires Valid() && task.writer.Busy? && MayExpose(task.writer, k)
      modifies this`task, this`log
      ensures Valid() && View() == Expose(old(View()), k)
    {
      StepKeepsSound(View(), Writer(EvExpose(k)));
      WriteOut(k);
    }

    method WriteOut(k: nat)
      requires task.writer.Busy? && k <= |task.writer.rest|
      modifies this`task, this`log
      ensures View() == Expose(old(View()), k)
    {
      log := log.(wire := log.wire + task.writer.rest[..k]);
      task := task.(writer := Busy(task.writer.batch, task.writer.rest[k..], task.writer.poisoned));
    }

    /** Sums the batch while marking its frames done. */
    method RetireFrames(batch: seq<WriteItem>) returns (released: nat)
      requires stock.unfinished >= |batch|
      modifies this`stock, this`joins
      ensures released == SizeAll(batch)
      ensures stock == old(stock).(unfinished := old(stock).unfinished - |batch|)
      ensures joins > old(joins) ==> stock.unfinished == 0
    {
      released := 0;
      var i := 0;
      assert batch[0..] == batch;
      while i < |batch|
        invariant 0 <= i <= |batch|
        invariant released + SizeAll(batch[i..]) == SizeAll(batch)
        invariant stock == old(stock).(unfinished := old(stock).unfinished - i)
        invariant joins == old(joins) + (if i > 0 && stock.unfinished == 0 then 1 else 0)
      {
        assert batch[i..][1..] == batch[i + 1..];
        released := released + Size(batch[i]);
        TaskDone();
        i := i + 1;
      }
    }

    /** The `finally` block of a batch. */
    method ReleaseBatch(completed: bool)
      requires Accounting(View()) && task.writer.Busy?
      modifies this`stock, this`joins, this`task, this`line
      ensures View() == Release(old(View()), completed)
      ensures joins > old(joins) ==> stock.resident == 0
    {
      var batch := task.writer.batch;
      task := task.(writing := false, writer := Dead);
      var released := RetireFrames(batch);
      stock := stock.(queuedBytes := Max0(stock.queuedBytes - released));
      ReleaseResident(|batch|);
      if completed && line.waiters > 0 && !task.cancelled {
        NotifyProducers(Min(Max0(line.waiters), |batch|));
      }
    }

    method Boot()
      requires Valid() && task.writer.Booting?
      modifies this`task, this`eager
      ensures Valid() && View() == LoopTop(old(View()))
    {
      StepKeepsSound(View(), Writer(EvBoot));
      ReachQueueWait();
    }

    /** All of the batch is on the transport; `join()` returns here only if nothing is left. */
    method FinishBatch()
      requires Valid() && WriterEnabled(View(), EvDone)
      modifies this
      ensures Valid() && View() == Done(old(View()))
      ensures joins > old(joins) ==> stock.resident == 0
    {
      StepKeepsSound(View(), Writer(EvDone));
      ReleaseBatch(true);
      ReachQueueWait();
    }

    method FailBatch(k: nat)
      requires Valid() && task.writer.Busy? && MayExpose(task.writer, k)
      modifies this
      ensures Valid() && View() == Fail(old(View()), k)
    {
      StepKeepsSound(View(), Writer(EvFail(k)));
      GiveUp(k);
    }

    method GiveUp(k: nat)
      requires Accounting(View()) && task.writer.Busy? && k <= |task.writer.rest|
      modifies this
      ensures View() == Fail(old(View()), k)
    {
      WriteOut(k);
      ReleaseBatch(false);
      DropEagerBinding();
      fence := fence.(epoch := fence.epoch + (if fence.failed then 0 else 1));
      NotifyProducers(|line.parked|);
    }

    method CancelWriterTask(k: nat)
      requires Valid() && WriterEnabled(View(), EvCancelWriter(k))
      modifies this
      ensures Valid() && View() == CancelWriter(old(View()), k)
    {
      StepKeepsSound(View(), Writer(EvCancelWriter(k)));
      if task.writer.Busy? {
        WriteOut(k);
        ReleaseBatch(false);
      } else {
        task := task.(writer := Dead);
      }
    }

    // ---- the connection owner ----

    method SealPump()
      requires Valid()
      modifies this`fence
      ensures Valid() && View() == Seal(old(View()))
    {
      StepKeepsSound(View(), Owner(EvSeal));
      fence := fence.(sealed := true);
    }

    /** Without a wake this keeps the waiters covered only when it is safe to. */
    method SetPumpEpoch(epoch: int)
      requires Valid()
      modifies this`fence
      ensures View() == SetEpoch(old(View()), epoch)
      ensures old(EpochSafe(View(), epoch)) ==> Valid()
    {
      if EpochSafe(View(), epoch) {
        StepKeepsSound(View(), Owner(EvSetEpoch(epoch)));
      }
      fence := fence.(epoch := epoch);
    }

    method WakeWaiters()
      requires Valid()
      modifies this`line
      ensures Valid() && View() == Wake(old(View())) && Waiting(line.parked) == 0
    {
      StepKeepsSound(View(), Owner(EvWake));
      NotifyAll(line.parked);
      NotifyProducers(|line.parked|);
    }

    method AdvanceToEpoch(epoch: int)
      requires Valid()
      modifies this`fence, this`line
      ensures Valid() && View() == AdvanceEpoch(old(View()), epoch) && Waiting(line.parked) == 0
    {
      StepKeepsSound(View(), Owner(EvAdvanceEpoch(epoch)));
      NotifyAll(line.parked);
      fence := fence.(epoch := epoch);
      NotifyProducers(|line.parked|);
    }

    method DiscardQueued()
      requires Valid()
      modifies this`eager, this`task, this`stock, this`joins
      ensures View() == Discard(old(View()))
      ensures old(OwnerEnabled(View(), EvDiscard)) ==> Valid()
    {
      if OwnerEnabled(View(), EvDiscard) {
        StepKeepsSound(View(), Owner(EvDiscard));
      }
      EmptyQueue();
    }

    method EmptyQueue()
      requires Accounting(View())
      modifies this`eager, this`task, this`stock, this`joins
      ensures View() == Discard(old(View()))
    {
      DropEagerBinding();
      task := task.(writing := false);
      var remaining := 0;
      while stock.queue != []
        invariant eager == DropBinding(old(eager)) && task == old(task).(writing := false)
        invariant remaining + |stock.queue| == |old(stock).queue|
        invariant stock == old(stock).(queue := stock.queue, unfinished := old(stock).unfinished - remaining)
        decreases |stock.queue|
      {
        stock := stock.(queue := stock.queue[1..]);
        remaining := remaining + 1;
        TaskDone();
      }
      stock := stock.(queuedBytes := 0);
      ReleaseResident(remaining);
    }

    method ResetPump()
      requires Valid()
      modifies this`stock, this`fence, this`eager, this`task, this`log
      ensures View() == Reset(old(View()))
      ensures old(!Alive(task) && ResetSafe(line.parked, fence.epoch)) ==> Valid()
    {
      if !Alive(task) && ResetSafe(line.parked, fence.epoch) {
        StepKeepsSound(View(), Owner(EvReset));
      }
      stock := NO_STOCK;
      fence := fence.(failed := false, sealed := false);
      DropEagerBinding();
      task := Task(Absent, false, false);
      log := Log([], []);
    }

    /** Refused while a writer task is running; otherwise a new one is created. */
    method StartPump(nowait: bool) returns (started: bool)
      requires Valid()
      modifies this`eager, this`task
      ensures started <==> !Alive(old(task))
      ensures View() == if started then Start(old(View()), nowait) else old(View())
      ensures !old(task).writer.Dead? ==> Valid()
    {
      if task.writer.Absent? {
        StepKeepsSound(View(), Owner(EvStart(nowait)));
      }
      if task.writer.Booting? || task.writer.Idle? || task.writer.Busy? {
        return false;
      }
      task := Task(Booting, false, false);
      eager := eager.(generation := eager.generation + 1, rearmScheduled := false);
      eager := eager.(bound := nowait, armed := nowait, ackArmed := nowait);
      if nowait {
        eager := eager.(dataSinceArm := 0, ackSinceArm := 0);
      }
      return true;
    }

    method StopPump()
      requires Valid()
      modifies this`eager, this`task
      ensures Valid() && View() == Stop(old(View()))
    {
      StepKeepsSound(View(), Owner(EvStop));
      DropEagerBinding();
      if task.writer.Booting? || task.writer.Idle? || task.writer.Busy? {
        task := task.(cancelled := true);
      } else {
        task := task.(writing := false);
      }
    }
  }
  /** Looking at the first producer of the remaining line. */
  lemma {:induction false} NotifyStep(done: seq<Parked>, rest: seq<Parked>, left: nat)
    requires rest != [] && left > 0
    ensures done + Notify(rest, left)
         == done + [rest[0].(notified := true)] + Notify(rest[1..], if rest[0].notified then left else left - 1)
  {
    assert rest[0].notified ==> rest[0].(notified := true) == rest[0];
  }

  /** The fields of a pump that has never been started. */
  method NewState(maxBytes: nat, maxMessages: nat) returns (s: State)
    requires 1 <= maxMessages
    ensures s == Init(maxBytes, maxMessages) && Sound(s)
  {
    InitSound(maxBytes, maxMessages);
    return State(maxBytes, maxMessages, NO_STOCK, Line(0, []), Fence(0, false, false),
                 Eager(false, false, false, 0, false, None, false, [], 0, 0), Task(Absent, false, false), Log([], []));
  }
}
