# mqttium: verified models of the connection core

A Dafny model of the parts of the asyncio MQTT client that share one connection
between many producers, one writer task, one reader and the application:

* the bounded, ordered transport writer (`WritePump`);
* the two lanes that protocol effects and messages leave the engine by
  (`EffectPump`, `DeliveryLane`), and the fence between them;
* the bounded message stream (`ApplicationDelivery`) and the lifecycle
  notifications that gate reconnecting (`LifecycleHooks`);
* the packet identifier pools, the Variable Byte Integer codec and the
  subscription filter validator.

Each of the five scheduling components comes in layers. A `...Model` module
defines its state and its atomic steps as functions; a step is a stretch of code
between two points at which a coroutine can really suspend, and any interleaving
of enabled steps is a run. The proof modules show what every run keeps. A
`...Object` module holds the class in the form of the program: fields updated in
place and loops with invariants. Its public methods take and keep `Valid()`,
which is the run invariant of the object's state, each is equated with one step
of the model, and each says what its caller may rely on; the loops and branches
themselves sit in helper methods that are proved equal to the steps for every
state. Fields that the program keeps flat on one object are grouped into small
records. Some steps are finer than the program's own suspension points, so the
runs include all of the program's interleavings and a few more.
`dafny verify dfyconfig.toml` checks everything.

## Assumptions about the surroundings

* A frame has positive size, `max_messages` is at least 1, and no holder of the
  writer's condition suspends except in its `wait()`.
* Transport calls accept, decline, or expose some prefix and raise.
* The client stops the writer before `reset()`, calls `start()` only after
  `reset()`, cancels the writer task only through `stop()`, and calls
  `discard()` after the writer is gone or with nothing queued and no batch in
  flight. `WriterFailure.DiscardAccountingExact` shows what the last one is for.
* Changing the epoch and waking the parked producers happen in one synchronous
  turn, and `reset()` finds no producer that was not yet woken. The results use
  weaker conditions, and `WriterEpochs.SetEpochExact` and
  `WriterResets.ResetExact` show that those are exact.
* `_apply_observation` accepts the immediate kinds, and neither it nor
  `_apply_effect_inline` re-enters the pump. A drain target is a position that
  was already enqueued.
* One reader drains the delivery lane; carryover is taken while no lot is
  active and before the next lot is started.
* The flusher and the lifecycle worker are not cancelled by their owner, and a
  user callback returns eventually.
* A timeout is a nondeterministic exit; sizes and message identities are numbers.

## Findings

* `LegacyPacketIdPool.reserve` has no range check. A reservation outside
  1..65535 is handed out later as a packet identifier. The pool is a correct
  allocator in every run exactly when all reservations are in range
  (`ListPoolProofs.SafeExactlyInRange`). Its fallback scan is dead code.
* `decode_vbi` reports four continuation bytes with nothing behind them as
  incomplete, although no further byte can complete them; in every other case
  "incomplete" is completable (`Vbi.IncompleteCanBeCompleted`).
* The contract between the pump and its applier is narrow at one place: a single
  effect whose inline application raises at collection has left the engine and
  enters no lane (`EffectPumpProofs.RaiseKeepsNothing`). With the client's applier
  this concerns SEND, whose frame the writer then keeps as its ownership record,
  and PROTOCOL_ERROR, whose raise is intended. The applier has no raising path for
  a publish result; were it to get one, such a result would never be settled, and
  every publish result of a run is settled exactly when that does not happen
  (`EffectPumpProofs.PublishesSettledExactly`, `EffectPumpProofs.RaiseLosesResult`).
* A batch that the engine hands over while a failing flush closes the connection
  is dropped whole. That includes messages for which `survives_connection`
  holds: a QoS 0 message is gone, and for a QoS 1 message its own SEND_ACK may
  be dropped with it. The delivery lane gets every such message of a run exactly
  when none arrives in that window (`ProtocolFence.LaneGetsEverything`,
  `ProtocolFence.ClosingDropsMessage`).
* A drain can lose an error it owns. When a second flush fails before the drain
  has had its turn, the new owners replace the old ones, and a drain that is not
  among them returns as if its effects had been applied. It raises if and only if
  no failure with owners has left it out in the meantime
  (`ErrorOwnership.ErrorReceivedExactly`, `ErrorOwnership.OwnedErrorIsLost`).
* A hold taken while a lifecycle hook is already past its barrier does not keep
  the hook's callback from starting, since the hook does not look at the holds
  again; a hold taken at any other time does (`LifecycleWindows.HoldExact`,
  `LifecycleWindows.CallbackStartsHeld`).
* The reconnect gate stays closed throughout a retirement exactly as long as no
  token is retired while its own disconnect is still being handled
  (`LifecycleWindows.WindowExact`, `LifecycleWindows.GateOpensInWindow`). The
  client retires each token once, before its disconnect.
* A bare `set_epoch` without a wake is harmless exactly when no unselected
  producer waits or more frames are resident than producers wait; otherwise a
  continuation leaves a producer waiting for nobody (`WriterEpochs.SetEpochExact`).
* A `reset` without a wake is harmless exactly when no unselected producer waits,
  or all who wait belong to the current epoch and a selected one of them has yet
  to run (`WriterResets.ResetExact`). A single leftover of another epoch is enough
  for a loss, however many selected producers there are.
* The escape hatch of the writer's wait loop is never the reason for an
  admission (`WriterProofs.WaitMatchesImmediate`).

## Model

| member | source | states |
|---|---|---|
| `WriteItems.PlanBatch` | src/mqttium/api/_writer.py:609-673 | The accumulating loop gives exactly the plan read off the batch: every maximal run of frames is one vectored call (or one write each), every segmented item its header then its payload |
| `WriteItems.PlanBytes` | src/mqttium/api/_writer.py:659-673 | The plan of a batch exposes exactly its bytes, in order |
| `WriteItems.PlanAround` | src/mqttium/api/_writer.py:665-671 | A segmented item's two writes stand together between the calls for what is around it |
| `WriteItems.WireAllConcat` | src/mqttium/transport/writes.py:13-21 | Bytes and sizes of items add up in order |
| `WriterProofs.EveryRun` | src/mqttium/api/_writer.py:360-528 | In every state of every run: resident == unfinished == queue + active batch with their bytes charged; both bounds with the lone oversized item; exposed ++ rest of the batch ++ queue equals everything admitted in order while nothing failed, a prefix afterwards; one live re-arm callback exactly when flagged, and each permit used at most once since it was armed |
| `WriterProofs.StepKeepsInv` | src/mqttium/api/_writer.py:609-713 | Each step of a producer, the writer, a callback or the owner keeps all of it |
| `WriterProofs.ProducerStepKeepsInv` | src/mqttium/api/_writer.py:422-574 | Eager writes, queueing, parking, resuming, cancellation and the latency batch keep order, accounting and bounds |
| `WriterProofs.WriterStepKeepsInv` | src/mqttium/api/_writer.py:624-713 | Taking a batch, exposing any part of it, completing, failing and being cancelled keep them too; a batch is poisoned exactly when the failure latch is set, though the writer looks at it only when it takes the batch |
| `WriterProofs.PermitStepKeepsInv` | src/mqttium/api/_writer.py:194-228 | Callbacks, the deferred acknowledgement re-arm and its ownership keep the permits |
| `WriterProofs.CallbackKeepsPermits` | src/mqttium/api/_writer.py:216-222 | A callback of an older generation only uses itself up; one of the current generation was flagged and is the only one outstanding; both keep the permits |
| `WriterProofs.OwnerStepKeepsInv` | src/mqttium/api/_writer.py:230-318 | Seal, epochs, discard, reset, start and stop keep the invariant |
| `WriterProofs.WaitMatchesImmediate` | src/mqttium/api/_writer.py:538-574 | The wait loop admits exactly what the immediate attempt admits; whenever the escape hatch is open, the capacity test passed already |
| `WriterProofs.WireDrained` | src/mqttium/api/_writer.py:360-391 | With the producer-side path open and nothing queued, everything admitted is on the wire and nothing is charged |
| `WriterWakeups.NoLostWakeup` | src/mqttium/api/_writer.py:530-574 | In every run whose owner keeps its rules, a producer that waits unselected on a live connection has a resident frame or a selected producer of its epoch ahead of it |
| `WriterWakeups.StepKeepsWakeups` | src/mqttium/api/_writer.py:676-691 | Every step keeps parked producers covered, with capacity stealing, cancelled waiters and leftovers of an older epoch |
| `WriterWakeups.NotifyCounts` | src/mqttium/api/_writer.py:687-691 | Notifying n selects exactly min(n, waiting) producers, leftovers of an older epoch first, and forgets none |
| `WriterEpochs.SetEpochExact` | src/mqttium/api/_writer.py:292-298 | After a bare change to an epoch nobody parked under, no continuation loses a wakeup if and only if nobody waits or more frames than waiting producers are resident |
| `WriterEpochs.UnsafeEpochLoses` | src/mqttium/api/_writer.py:292-302 | Every other bare change has a continuation, with an owner that keeps its rules, that leaves a producer waiting for nobody |
| `WriterEpochs.DrainAll` | src/mqttium/api/_writer.py:636-691 | The writer can always finish every resident frame, and has then selected one waiting producer for each |
| `WriterEpochs.BareSetEpochLosesWakeup` | src/mqttium/api/_writer.py:292-302 | A run from the start in which a bare change of epoch leaves a producer waiting for nobody |
| `WriterResets.ResetExact` | src/mqttium/api/_writer.py:230-241 | After a reset, no continuation loses a wakeup if and only if nobody waits, or no waiting producer is a leftover of another epoch and a selected one of this epoch has yet to run |
| `WriterResets.UnsafeResetLoses` | src/mqttium/api/_writer.py:230-241 | Every other reset has a continuation, with an owner that keeps its rules, that leaves a producer waiting for nobody |
| `WriterResets.LeftoverStrands` | src/mqttium/api/_writer.py:538-574 | With nothing resident, one leftover of another epoch is eventually selected in vain while the selected producers find the room taken by newcomers |
| `WriterResets.BareResetLosesWakeup` | src/mqttium/api/_writer.py:230-275 | A run from the start in which a stop and a reset without a wake strand a producer |
| `WriterFailure.FailureFreezesRun` | src/mqttium/api/_writer.py:341-358 | After a raising producer-side write nothing is admitted and no byte exposed until reset, while accounting stays intact |
| `WriterFailure.LatchFindsNoBatch` | src/mqttium/api/_writer.py:360-420 | The failure latch is only ever set with no batch in flight, so testing it once per batch is enough |
| `WriterFailure.RaisingLatches` | src/mqttium/api/_writer.py:377-420 | The failure latch is set exactly by a raise that reached the transport, on all three producer-side routes |
| `WriterFailure.EagerFindsWireDrained` | src/mqttium/api/_writer.py:360-420 | An eager write happens only with no batch in flight and everything admitted already exposed, so never inside a segmented item |
| `WriterFailure.DiscardAccountingExact` | src/mqttium/api/_writer.py:304-318 | Discarding keeps the accounting if and only if no batch is in flight |
| `WriterAdmission.AdmissionExact` | src/mqttium/api/_writer.py:422-574 | On every route (immediate, acknowledgement, terminal, waiting, resumed) a frame is admitted, behind all earlier ones, exactly when its connection is current, unsealed and unfailed and there is room |
| `WriterAdmission.VerdictTells` | src/mqttium/api/_writer.py:422-460 | The answer given to the producer says exactly whether the frame was admitted, and a refusal changes nothing |
| `WriterAdmission.SealHolds` | src/mqttium/api/_writer.py:284-290 | After a seal no run admits anything until the next reset, whatever the epoch becomes |
| `WriterAdmission.TerminalSealsItsOwn` | src/mqttium/api/_writer.py:437-444 | The terminal packet seals its own connection and no other; one whose write raised leaves the failure latch instead |
| `WriterAdmission.HistoryGrows` | src/mqttium/api/_writer.py:341-691 | Until reset, no admission is undone and no exposed byte rewritten |
| `WritePumpObject.WritePump.TryEnqueue` | src/mqttium/api/_writer.py:422-435 | Keeps order, accounting, bounds, permits and covered waiters; admits the frame, last, exactly when it is admissible; after an eager write the wire holds everything admitted |
| `WritePumpObject.WritePump.TryEnqueueTerminal` | src/mqttium/api/_writer.py:437-444 | The same, and the connection is sealed afterwards exactly when it was or the packet was its own and did not raise |
| `WritePumpObject.WritePump.TryEnqueueAck` | src/mqttium/api/_writer.py:446-460 | The same admission rule and wire guarantee under the acknowledgement permit |
| `WritePumpObject.WritePump.EnqueueAfterWait` | src/mqttium/api/_writer.py:530-574 | A producer that found no room is admitted by the immediate rule, fails when stale, and otherwise parks last, covered |
| `WritePumpObject.WritePump.ResumeParked` | src/mqttium/api/_writer.py:539-574 | A selected producer is admitted by the immediate rule, and whoever still waits stays covered |
| `WritePumpObject.WritePump.CancelParkedProducer` | src/mqttium/api/_writer.py:559-569 | A cancelled waiter passes its wakeup on, so the others stay covered |
| `WritePumpObject.WritePump.NotifyProducers` | src/mqttium/api/_writer.py:687-691 | The front-to-back loop selects the first n unselected producers and leaves the others |
| `WritePumpObject.WritePump.RestoreLatencyItems` | src/mqttium/api/_writer.py:462-469 | The queue is back as it was and `join()` never completed on the way |
| `WritePumpObject.WritePump.TryFlushLatencyBatch` | src/mqttium/api/_writer.py:471-528 | Writes the whole queue, after which the wire holds everything admitted and `join()` completes once, or leaves it as it was; the invariant is kept |
| `WritePumpObject.WritePump.FlushLatencyItems` | src/mqttium/api/_writer.py:485-528 | The extraction, write and restoration loops give that step, and the closing byte check cannot fail |
| `WritePumpObject.WritePump.TakeBatch` | src/mqttium/api/_writer.py:640-657 | At most 256 frames in order; the planned calls are those of the batch and expose its bytes |
| `WritePumpObject.WritePump.FinishBatch` | src/mqttium/api/_writer.py:674-691 | Keeps the invariant, and `join()` completes only when nothing is resident |
| `WritePumpObject.WritePump.ReleaseBatch` | src/mqttium/api/_writer.py:676-691 | The loop releases bytes and frames of the batch and selects producers only for a completed, uncancelled batch |
| `WritePumpObject.WritePump.WakeWaiters` | src/mqttium/api/_writer.py:300-302 | Nobody waits unselected afterwards |
| `WritePumpObject.WritePump.EmptyQueue` | src/mqttium/api/_writer.py:304-318 | The loop empties the queue with its tasks |
| `WritePumpObject.WritePump.RunRearmCallback` | src/mqttium/api/_writer.py:216-222 | A callback of an older generation only uses itself up; the current one was the flagged and only one |
| `Effects.PartitionEffects` | src/mqttium/api/_effects.py:46-75 | Always the stable split: sends then others, deliveries and observed facts taken out in order; `reordered` exactly when a send overtakes |
| `Effects.ShortcutExact` | src/mqttium/api/_effects.py:73-75 | Returning the input unchanged is the same split |
| `Effects.PartitionConserves` | src/mqttium/api/_effects.py:46-75 | No effect is lost or duplicated by the partition |
| `EffectPumpProofs.EveryPumpRun` | src/mqttium/api/_effects.py:149-310 | In every run: enqueued - applied == pending; every publish result collected ended exactly once, in order, taken or raised; since the last discard the sends that left, with how they left, followed by those pending are the sends collected; a sleeping drain has a live flusher |
| `EffectPumpProofs.PumpStepKeepsInv` | src/mqttium/api/_effects.py:240-360 | Every collection, inline drain, flusher step, failure, discard and drain step keeps the invariant |
| `EffectPumpProofs.PublishesSettledExactly` | src/mqttium/api/_effects.py:198-216 | Every publish result of a run is settled, once and in order, if and only if none was applied alone, with nothing pending, and raised |
| `EffectPumpProofs.RaiseKeepsNothing` | src/mqttium/api/_effects.py:209-211 | The pump keeps nothing of a single effect whose applier raises, of whatever kind; its departure is recorded as raised |
| `EffectPumpProofs.RaiseLosesResult` | src/mqttium/api/_effects.py:209-211 | About the pump's contract: if applying a lone publish result raised, that one-step run would not settle it |
| `EffectPumpProofs.DrainReturnsMeansLeft` | src/mqttium/api/_effects.py:370-410 | A drain returns normally if and only if none of its first `target` effects is pending |
| `EffectPumpProofs.FailingCloseIsSettled` | src/mqttium/api/_effects.py:312-337 | While a failing flush closes, and after effects collected meanwhile, the lane is empty, applied == enqueued, and every drain is woken and satisfied |
| `EffectPumpProofs.FailureRouting` | src/mqttium/api/_effects.py:312-337 | Drain by drain: after a failure it raises if and only if its target is at or beyond the failed effect, or an earlier error is still its own and the new one has no owner; otherwise it returns |
| `ErrorOwnership.ErrorReceivedExactly` | src/mqttium/api/_effects.py:312-320 | Over every run without a turn of its own, a drain that was given an error raises it if and only if no failure with owners has left it out since; otherwise it returns |
| `ErrorOwnership.OwningStep` | src/mqttium/api/_effects.py:312-337 | Step by step, a drain keeps its error unless such a failure takes it, and then all its effects have left |
| `ErrorOwnership.PassedStep` | src/mqttium/api/_effects.py:312-320 | A drain that lost its error never gets another one |
| `ErrorOwnership.OwnedErrorIsLost` | src/mqttium/api/_effects.py:387-410 | A run from the start in which a drain owns the error of its own effect and, after a second failure, returns |
| `EffectPumpProofs.PumpStepLater` | src/mqttium/api/_effects.py:240-310 | Progress is monotone and the order of the lane is never rewritten |
| `EffectPumpObject.EffectPump.CollectFromEngine` | src/mqttium/api/_effects.py:149-197 | Keeps the invariant, returns exactly the deliveries (none in a failing close) and the lane position behind the batch, and reorders nothing collected before |
| `EffectPumpObject.EffectPump.TakeEngineBatch` | src/mqttium/api/_effects.py:149-197 | The partition, the observation and the queueing of a batch are the collection step |
| `EffectPumpObject.EffectPump.ApplyAccepted` | src/mqttium/api/_effects.py:256-264 | The inline loop removes exactly the prefix that the target, the queue and the applier allow |
| `EffectPumpObject.EffectPump.DrainInlineNow` | src/mqttium/api/_effects.py:245-268 | Keeps the invariant; progress only grows and the order of the lane stays |
| `EffectPumpObject.EffectPump.ApplicationReturned` | src/mqttium/api/_effects.py:291-308 | Keeps the invariant; after an error the lane is empty and counted as applied, otherwise progress only grows |
| `EffectPumpObject.EffectPump.FailTheConnection` | src/mqttium/api/_effects.py:312-333 | The loop gathers the owners of the error; then everything is settled and dropped |
| `EffectPumpObject.EffectPump.FlusherDone` | src/mqttium/api/_effects.py:339-360 | Whoever still sleeps in a drain has a live flusher again |
| `EffectPumpObject.EffectPump.Drain` | src/mqttium/api/_effects.py:370-387 | Keeps the invariant; returning at once means that the target is reached |
| `EffectPumpObject.EffectPump.DrainTurn` | src/mqttium/api/_effects.py:387-410 | Raises exactly for an owner of the error, returns only with none of its effects pending, and sleeps again only unsatisfied and behind a live flusher |
| `EffectPumpObject.EffectPump.DropConnectionEffects` | src/mqttium/api/_effects.py:412-434 | The loop drops connection effects, keeping or settling publish results, and counts what it dropped as applied |
| `DeliveryLaneModel.ExactlyOnceInOrder` | src/mqttium/api/_delivery_lane.py:66-146 | In every run the acknowledged messages decided are a prefix of those collected, in arrival order, and all of them once nothing is outstanding |
| `DeliveryLaneModel.LaneStepKeepsInv` | src/mqttium/api/_delivery_lane.py:66-146 | decided ++ active ++ carryover ++ pending == collected, and the counters agree, after every step including cancellation mid-lot |
| `DeliveryLaneModel.DiscardKeepsInv` | src/mqttium/api/_delivery_lane.py:127-138 | Discarding moves exactly the acknowledged messages to the carryover, in order |
| `DeliveryLaneModel.AwaitCancelledKeepsInv` | src/mqttium/api/_delivery_lane.py:92-122 | A cancelled hand-off keeps its own message and the rest of the lot for the next connection |
| `DeliveryLaneObject.DeliveryLane.DeliverNext` | src/mqttium/api/_delivery_lane.py:83-102 | An acknowledged message handed over is the oldest one still undecided, and handing it over at once decides it and no other |
| `DeliveryLaneObject.DeliveryLane.AwaitEnded` | src/mqttium/api/_delivery_lane.py:92-102 | A cancelled admission decides nothing, and its message comes first in the carryover |
| `DeliveryLaneObject.DeliveryLane.EndInterrupted` | src/mqttium/api/_delivery_lane.py:108-122 | The filtering loop puts the survivors of an interrupted lot ahead of the carryover |
| `DeliveryLaneObject.DeliveryLane.DiscardLots` | src/mqttium/api/_delivery_lane.py:127-138 | The carryover is extended by the survivors of all pending lots, in order, with every acknowledged message still in one place |
| `DeliveryLaneObject.DeliveryLane.TakeCarried` | src/mqttium/api/_delivery_lane.py:140-146 | Hands out the oldest undecided messages, in arrival order, and decides them once |
| `ProtocolFence.FenceHolds` | src/mqttium/api/_delivery_lane.py:72-91 | In every run of both lanes together, a lot started on its own connection is handed over only when every ordered effect up to its target has left; what is pending was collected later |
| `ProtocolFence.FenceIsOwnBatch` | src/mqttium/api/_effects.py:187-197 | A lot's target is the lane position right behind its own batch |
| `ProtocolFence.SysStepKeepsInv` | src/mqttium/api/_delivery_lane.py:66-122 | Every joint step keeps both invariants and the target of the drain the reader sleeps in |
| `ProtocolFence.LaneGetsEverything` | src/mqttium/api/_effects.py:149-197 | Over a whole run the delivery lane has collected every message received that survives its connection, in order, if and only if none arrived during a failing close |
| `ProtocolFence.ClosingDropsMessage` | src/mqttium/api/_effects.py:159-170 | A run from the start that drops such a message |
| `ProtocolFence.SurvivorsEnterUnlessClosing` | src/mqttium/api/_effects.py:159-197 | For one batch: its surviving messages enter the lane if and only if no failing close is under way or there are none |
| `FenceProgress.ReaderNeverStranded` | src/mqttium/api/_delivery_lane.py:80-82 | In every run, a reader at its fence has exactly one registered drain, for its lot's target, which is woken or has a live flusher |
| `DeliveryProofs.EveryDeliveryRun` | src/mqttium/api/_delivery.py:149-397 | In every run: charged bytes are the queued bytes; consumed ++ queued == committed in order across resets; normal admissions stay within both limits; a sleeping admission is current and really blocked; a sleeping iterator has nothing to read |
| `DeliveryProofs.SleeperHasPredecessor` | src/mqttium/api/_delivery.py:289-316 | A sleeping admission waits behind queued messages, and consuming one wakes it |
| `DeliveryProofs.ReaderStepKeepsInv` | src/mqttium/api/_delivery.py:140-281 | Admission, waiting, invalidation and commits past the bounds keep the invariant |
| `DeliveryProofs.AppStepKeepsInv` | src/mqttium/api/_delivery.py:289-364 | Consuming, waiting, closing, reopening and resetting keep it |
| `DeliveryTickets.AdmissionsCommitOnce` | src/mqttium/api/_delivery.py:198-281 | In every run an admission call commits at most once, with the message and under the generation it began with; every call that began is waiting, committed or ended, and only one of these |
| `DeliveryTickets.EndedNeverCommits` | src/mqttium/api/_delivery.py:249-254 | A call that was retired, timed out or was cancelled never commits, in any continuation |
| `DeliveryTickets.InvalidatedNeverCommits` | src/mqttium/api/_delivery.py:144-147 | No call that waits when the line is invalidated ever commits |
| `ApplicationDeliveryObject.ApplicationDelivery.AcceptMessage` | src/mqttium/api/_delivery.py:198-232 | Refuses exactly what can never fit, commits exactly when there is room, and a call's commit is its first |
| `ApplicationDeliveryObject.ApplicationDelivery.WaitingTurn` | src/mqttium/api/_delivery.py:234-281 | A woken call that has never committed does so exactly when its generation is current and there is room |
| `ApplicationDeliveryObject.ApplicationDelivery.NextMessage` | src/mqttium/api/_delivery.py:303-316 | Gives the oldest committed message that was not consumed yet |
| `ApplicationDeliveryObject.ApplicationDelivery.BeginWait` | src/mqttium/api/_delivery.py:318-340 | An iterator that may wait is the only one of its stream |
| `ApplicationDeliveryObject.ApplicationDelivery.ResetTheStream` | src/mqttium/api/_delivery.py:342-364 | The loop carries every unread message over in order; nothing stored changes |
| `ApplicationDeliveryObject.ApplicationDelivery.DeliverAcknowledgedNow` | src/mqttium/api/_delivery.py:366-397 | Commits past the bounds, while what was admitted normally stays within the limits |
| `LifecycleProofs.EveryLifeRun` | src/mqttium/api/_lifecycle.py:52-182 | In every run: a closed gate has a retirement, a pending disconnect or one in hand; a pending notification has a live worker; one worker and one hook at most; callbacks begin under the current token, in posting order, never twice; nobody sleeps at the barrier without a hold |
| `LifecycleProofs.OwnerStepKeepsInv` | src/mqttium/api/_lifecycle.py:52-126 | Operations, holds, the lock, notifications and retirement keep it |
| `LifecycleProofs.WorkerTurnKeepsInv` | src/mqttium/api/_lifecycle.py:150-182 | The worker loop keeps it |
| `LifecycleProofs.HookTurnKeepsInv` | src/mqttium/api/_lifecycle.py:128-148 | The hook, cancelled or not, keeps it |
| `LifecycleProofs.GateNeverSticks` | src/mqttium/api/_lifecycle.py:121-182 | With no hold, the lock free and no retirement, tasks that have run out of turns have opened the gate |
| `LifecycleProofs.TaskRunsAreFinite` | src/mqttium/api/_lifecycle.py:128-182 | Between two outside transitions the tasks take a bounded number of turns under every schedule |
| `LifecycleProofs.QuietMeansOpen` | src/mqttium/api/_lifecycle.py:150-182 | No turn left, no hold and the lock free: nothing pending, no task, gate open or retiring |
| `LifecycleProofs.SupersededNeverStarts` | src/mqttium/api/_lifecycle.py:52-119 | After a new operation, an external loss or a retirement, no earlier notification whose callback had not begun ever reaches the user |
| `LifecycleProofs.LatestReachesUser` | src/mqttium/api/_lifecycle.py:128-182 | A pending notification with a callback reaches the user when the tasks are left to themselves without a hold |
| `LifecycleWindows.WindowExact` | src/mqttium/api/_lifecycle.py:114-119 | After a step, the gate is closed in every retirement of every continuation that retires in turn, if and only if the step does not retire a token whose disconnect is being handled |
| `LifecycleWindows.WindowHolds` | src/mqttium/api/_lifecycle.py:114-119 | The gate is closed in every retirement of a run without such a step |
| `LifecycleWindows.EarlyRetireOpensGate` | src/mqttium/api/_lifecycle.py:136-180 | Every such step has a continuation of task turns, releases and an unlock that opens the gate inside the window |
| `LifecycleWindows.GateOpensInWindow` | src/mqttium/api/_lifecycle.py:114-180 | A run from the start in which that happens |
| `LifecycleWindows.HoldExact` | src/mqttium/api/_lifecycle.py:82-91 | After a step, no callback begins under a hold in any continuation that holds in time, if and only if the step is not a hold taken while a current hook is past its barrier |
| `LifecycleWindows.HoldsKeepCallbacksOut` | src/mqttium/api/_lifecycle.py:128-142 | No callback begins under a hold in a run without such a step |
| `LifecycleWindows.LateHoldLetsCallbackStart` | src/mqttium/api/_lifecycle.py:130-142 | Every such hold has a continuation of task turns and an unlock in which the callback begins under it |
| `LifecycleWindows.CallbackStartsHeld` | src/mqttium/api/_lifecycle.py:128-142 | A run from the start in which that happens: the hold is taken while the hook queues for the lock its owner has |
| `LifecycleWindows.HeldWorkerTakesNothing` | src/mqttium/api/_lifecycle.py:154-164 | The worker takes no notification while a hold is in force |
| `LifecycleHooksObject.LifecycleHooks.Begin` | src/mqttium/api/_lifecycle.py:52-80 | Keeps the invariant, opens the gate, and withdraws for good every earlier notification that has not begun, unless a hook is preserved on the same connection |
| `LifecycleHooksObject.LifecycleHooks.DropHold` | src/mqttium/api/_lifecycle.py:87-91 | After the last release nobody sleeps at the barrier |
| `LifecycleHooksObject.LifecycleHooks.NotifyConnected` | src/mqttium/api/_lifecycle.py:93-98 | A current success opens the gate and is on its way to the user with a live worker; anything else changes nothing |
| `LifecycleHooksObject.LifecycleHooks.NotifyDisconnected` | src/mqttium/api/_lifecycle.py:100-112 | A current loss closes the gate with a live worker to open it, and withdraws everything earlier unless it spares the hook |
| `LifecycleHooksObject.LifecycleHooks.Retiring` | src/mqttium/api/_lifecycle.py:114-119 | The gate is closed, and everything earlier is withdrawn unless the hook is spared |
| `LifecycleHooksObject.LifecycleHooks.RunWorker` | src/mqttium/api/_lifecycle.py:150-182 | Keeps the invariant, calls no user, and comes closer to being idle |
| `LifecycleHooksObject.LifecycleHooks.RunHook` | src/mqttium/api/_lifecycle.py:128-148 | Calls the user at most once, only for a current, uncancelled event that never began before |
| `ListPoolProofs.SafeExactlyInRange` | benchmarks/packet_id_pool_ab.py:36-70 | Every allocation of every run is correct if and only if everything that may be reserved is in 1..65535 |
| `ListPoolProofs.StrayReservationHandedOut` | benchmarks/packet_id_pool_ab.py:56-70 | Every out-of-range number can be handed out after being reserved |
| `ListPoolProofs.FallbackUnreachable` | benchmarks/packet_id_pool_ab.py:43-54 | The linear scan is never reached, whatever is reserved |
| `ListPoolProofs.ListAllocateExact` | benchmarks/packet_id_pool_ab.py:36-54 | With reservations in range: a fresh identifier in 1..65535, or failure exactly when all are in use |
| `ListPoolProofs.ListRunKeepsInv` | benchmarks/packet_id_pool_ab.py:25-70 | Free list without duplicates, disjoint from the used set; everything below `_next` is in one of them |
| `FrontierProofs.EveryFrontierRun` | src/mqttium/protocol/packet_ids.py:12-71 | In every run the constant-space count is the number in use, and allocation gives an unused identifier in range or fails exactly when 65535 are in use |
| `FrontierProofs.FrontierAllocateExact` | src/mqttium/protocol/packet_ids.py:43-71 | Allocation refines the abstract live set, whichever element the free set gives up |
| `FrontierProofs.FrontierReserveExact` | src/mqttium/protocol/packet_ids.py:73-114 | Adds exactly the identifier; refuses exactly what is out of range |
| `FrontierProofs.FrontierReleaseExact` | src/mqttium/protocol/packet_ids.py:116-147 | Removes exactly the identifier; ignores what is not in use |
| `FrontierProofs.LenExact` | src/mqttium/protocol/packet_ids.py:35-41 | The count is the size of the live set |
| `FrontierProofs.NothingLive` | src/mqttium/protocol/packet_ids.py:135-165 | Nothing is in use if and only if the pool is in its initial state |
| `PacketIdPools.PoolsExhaustTogether` | benchmarks/packet_id_pool_ab.py:25-70 | With the same identifiers in use, both pools fail together |
| `PacketIdPools.LegacyPacketIdPool.Allocate` | benchmarks/packet_id_pool_ab.py:36-54 | Never an identifier in use; a correct allocation as long as the pool knows nothing out of range |
| `PacketIdPools.LegacyPacketIdPool.AllocateAny` | benchmarks/packet_id_pool_ab.py:36-54 | The skip loop and the scan loop compute the model's step in every state |
| `PacketIdPools.LegacyPacketIdPool.Reserve` | benchmarks/packet_id_pool_ab.py:56-59 | Adds the number, and keeps the pool in range exactly for a number in range |
| `PacketIdPools.LegacyPacketIdPool.Release` | benchmarks/packet_id_pool_ab.py:61-70 | Removes the number and keeps the invariant |
| `PacketIdPools.PacketIdPool.Allocate` | src/mqttium/protocol/packet_ids.py:43-71 | An unused identifier in range, in use from then on; none exactly when all are in use |
| `PacketIdPools.PacketIdPool.Reserve` | src/mqttium/protocol/packet_ids.py:73-114 | Refuses exactly what is out of range and otherwise adds exactly the identifier |
| `PacketIdPools.PacketIdPool.Release` | src/mqttium/protocol/packet_ids.py:116-147 | Removes exactly the identifier; empty if and only if initial again |
| `PacketIdPools.PacketIdPool.Size` | src/mqttium/protocol/packet_ids.py:35-37 | The number of identifiers in use |
| `PacketIdPools.PacketIdPool.Available` | src/mqttium/protocol/packet_ids.py:39-41 | The number of identifiers not in use |
| `PacketIdPools.PacketIdPool.IsInUse` | src/mqttium/protocol/packet_ids.py:149-158 | Membership of the live set |
| `Vbi.RoundTrip` | src/mqttium/codec/vbi.py:13-84 | Decoding an encoding followed by anything gives the value and consumes exactly the encoding |
| `Vbi.DecodeIsCanonical` | src/mqttium/codec/vbi.py:46-84 | Whatever decodes was the canonical encoding of its result |
| `Vbi.DecodesExactly` | src/mqttium/codec/vbi.py:46-84 | Decoding succeeds if and only if the input begins with an encoding of a value in range |
| `Vbi.StrictPrefixIncomplete` | src/mqttium/codec/vbi.py:59-72 | Every strict prefix of an encoding is incomplete |
| `Vbi.IncompleteCanBeCompleted` | src/mqttium/codec/vbi.py:70-75 | Incomplete input can be completed if and only if it is not four bytes long |
| `Vbi.LengthIsVbiLen` | src/mqttium/codec/vbi.py:87-96 | `vbi_len` is the length of the encoding |
| `Vbi.ShortestByLastDigit` | src/mqttium/codec/vbi.py:82-84 | The length comparison rejects exactly a padding zero at the end |
| `Vbi.EncodeVbi` | src/mqttium/codec/vbi.py:13-29 | Base-128 digits of the value; out of range exactly outside 0..268435455 |
| `Vbi.AppendVbi` | src/mqttium/codec/vbi.py:32-43 | Appends the same bytes, or nothing |
| `Vbi.DecodeVbi` | src/mqttium/codec/vbi.py:46-84 | For any offset and end: the outcome of the bytes between them alone, with an index error exactly when a byte is needed that the buffer lacks |
| `Vbi.WindowIsSlice` | src/mqttium/codec/vbi.py:59-62 | For an offset and an end inside the buffer those bytes are the slice between them |
| `Topics.AcceptsGrammar` | src/mqttium/topics.py:64-97 | A filter is accepted if and only if it is valid text and follows the character-level grammar, shared or not |
| `Topics.LevelsMeetWildcards` | src/mqttium/topics.py:85-97 | For every string, checking level by level equals: each `#` last and first in its level, each `+` alone in its level |
| `Topics.AcceptsSharedForm` | src/mqttium/topics.py:70-80 | A `$share/` filter is accepted if and only if it is a non-empty wildcard-free group, a separator and a non-empty filter of the same grammar |
| `Topics.FirstRefusalDecides` | src/mqttium/topics.py:85-97 | The first refused level gives the reason |
| `Topics.SharingNarrows` | src/mqttium/topics.py:70-80 | Every accepted shared filter also follows the plain grammar |

## Left out

- Sockets, TLS, WebSocket, the transports and asyncio itself: transport calls and suspensions are steps.
- The protocol engine, the stores, the topic matcher, the incremental decoder and the client facade: only what they pass to the modelled objects appears.
- Statistics, high-water marks, timestamps, batching counters and refusal texts: bookkeeping without an invariant.
- `AuthExchange` and the cancellation helpers: behaviour is that of user handlers and of asyncio.
- Callback mode of `ApplicationDelivery` (calling, error reporting, detection of async callbacks): user code.
- Logical message sizes and the UTF-8 check: a number and a flag given from outside.
- Real time: a timeout is a nondeterministic exit from a wait.
- Cancellation of the flusher and of the lifecycle worker by their owner.
- The publish-topic validators of `topics.py`: single membership tests.
- Bit masks of the Variable Byte Integer codec are written as arithmetic on numbers below 256.
- WriterWakeups.NoLostWakeup: holds for runs in which the owner changes the epoch and resets safely, because every unsafe change or reset can lose a wakeup.
