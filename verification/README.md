# Model hub, routing memory and skill cores: a Dafny model

Run `dafny verify dfyconfig.toml` in this directory.

The project models the parts of the repository whose correctness is not visible from one function
body, and proves what they promise over all inputs, all runs and all interleavings.

**The model hub** (`hub_*.dfy`). Workers, HTTP handlers, lease requests and sweeps share one state
store. `HubStore` and `HubScheduler` say what each operation and each stretch of code between two
awaits does to the store; `HubMachine.Step` is the protocol: one step takes one task from one await
to the next, and any task may go next. `HubStoreClass` and `HubSchedulerClass` are the store and the
reclaim loop as objects updated in place, with loops, proved against those functions. On top:

- slot safety and lease coupling in every reachable state (`HubSafety`), with the guard of the one kind
  of step that can overbook a device, and a run in which it does (`HubOverbooked`);
- sessions: results exactly for FINISHED sessions, statuses that only move forward off the
  single-slot devices, expiry exactly when outlived (`HubSessionRuns`); for every device the exact
  condition under which a step takes a status back (`HubBackwards`) and a run in which one does
  (`HubRevived`);
- memory admission over whole runs (`HubMemory`); for any step whatever, the exact condition under
  which it overcommits a device (`HubAdmission`), and overlapping starts that do (`HubOvercommitted`);
- greedy reclaim (`HubReclaim`), the protocol's own steps that come to it (`HubReclaimRuns`) and the
  restore that undoes it (`HubRestore`);
- a reservation that was ready cannot fail (`HubLeases`);
- the way of a request told by the records alone, event by event: up to its upstream call
  (`HubStarts`), to the end of its session and what is stopped and restored then (`HubEnds`), the
  other requests to the interface (`HubHandlers`), and first in, first out over any run (`HubQueue`).

**The routing memory** (`memory_*.dfy`): items and vectors stay in step through every operation, and
the windowed nearest-neighbour search is compared with the exhaustive one, exactly, with tables on
which it misses a row (`memory_missed.dfy`).

**The Markdown chunker** (`sections.dfy`, `greedy.dfy`, `packing.dfy`): the section parser covers the
document, there is only one way to cut it as the parser does (`section_cuts.dfy`), and greedy packing
uses the least number of chunks.

**Smaller cores**: the chunked-transfer reader (`chunked.dfy`), the keyword watcher (`watcher.dfy`),
the JSON brace scanner (`braces.dfy`), the camera reminders (`reminder.dfy`), the dashboard turns
(`turns.dfy`, `turns_usage.dfy`, `turns_hooks.dfy`, `turns_class.dfy`) and the 10-bit planes (`planes.dfy`).

## What the code turned out to do

Each of these is a lemma; the model keeps the code as it is.

- The second busy check looks only at QUEUED sessions, so a session started cold is dispatched without
  a slot check. A full device goes over `max_concurrency` exactly if a worker takes a session that is
  not QUEUED off the queue, or gets the lock for it, while its service is up and unlocked, or has just
  started its service (`HubSafety.StepKeepsUsed`); twice `max_concurrency` is never exceeded.
- A lease that fails a queued session on a single-slot device does not take it off the queue. When the
  worker comes to it, its status goes back from FAILED, or by then EXPIRED: exactly if the start goes
  on, or if an EXPIRED session's start fails (`HubBackwards.StatusBackExactly`). Two steps from start-up
  are enough to come to such a step (`HubRevived.StatusGoesBack`).
- A step overcommits a device's memory exactly if it reports as started a service that needs more than
  what is free at that moment (`HubAdmission.StepOvercommitsExactly`). Two overlapping starts, each
  admitted on its own account, do so exactly if the two together need more than there is
  (`HubOvercommitted.OverlappingStartsOvercommit`, with a fresh hub in `FreshOvercommitted`), and a
  health check that finds a stopped service up exactly if the service does not fit
  (`HubAdmission.HealthCheckOvercommits`).
- A touch of a service that is stopped reports it as EXTERNAL, and as IDLE once the lease has run out,
  although nothing was started (`HubHandlers.TouchStep`).
- The filtered search agrees with the exhaustive one exactly if its window holds k matches or no match
  lies behind it (`MemorySearch.SearchAgreesExactly`); among nine rows it can miss the one asked for
  (`MemoryMissed.SearchMisses`).
- An update of an item with a null model stores the empty model, not null
  (`MemoryTables.UpdatedModelEmpty`).
- A negative chunk size is accepted, and then the payloads do depend on how the socket splits the
  bytes, whenever enough bytes follow it (`Chunked.NegativeSizeMatters`); for such streams they depend
  on the pieces exactly if a successful header's body comes to a negative size
  (`Chunked.PiecesMatterExactly`), and without one they never do (`Chunked.PiecesDoNotMatter`).
- The monitor marks a target as present at the first hit, before it is confirmed
  (`Reminder.PresentBeforeConfirmed`). When more than one hit is asked for, the first reminder of a run
  comes with a confirmed hit exactly if the time since zero is long enough
  (`Reminder.FirstReminderSinceZero`).

## Model

| member | source | states |
|---|---|---|
| HubSlots.StepKeepsInvariant | model_hub_py/src/model_hub_py/scheduler/device_scheduler.py:275-393 | every step of every task, in any order, keeps the whole hub invariant: slots coupled to leases, tasks and queues referring to what exists, counters covered by forwarding workers |
| HubSafety.InvariantReached | model_hub_py/src/model_hub_py/scheduler/device_scheduler.py:56-62 | the invariant holds in every state reachable from start-up |
| HubSafety.SlotSafety | model_hub_py/src/model_hub_py/scheduler/device_scheduler.py:301-352 | in every reachable state 0 <= active <= forwarding workers <= max_concurrency, reserved slots <= max_concurrency, used <= 2 * max_concurrency; on a single-slot device active equals the number of forwarding workers |
| HubSafety.StepKeepsUsed | model_hub_py/src/model_hub_py/state_store.py:365-396 | a device within its concurrency leaves it by a step if and only if it is full and the step takes a session that is not QUEUED off the queue, or grants it the lock, with its service up and unlocked, or has just started the service of one |
| HubSafety.GuardIsExact | model_hub_py/src/model_hub_py/scheduler/device_scheduler.py:293-301 | a step dispatches without a slot check if and only if that guard, on the state before and the event, holds |
| HubOverbooked.SingleSlotOverbooked | model_hub_py/src/model_hub_py/state_store.py:376-378 | a run from a fresh hub at whose end the one slot of a device is used twice |
| HubSafety.LeaseSafety | model_hub_py/src/model_hub_py/state_store.py:153-203 | in every reachable state each reserved slot sits on its service's device with the expiry of its lease, EXTERNAL implies a lease, and no stopped service is in a running set |
| HubSteps.StepKind | model_hub_py/src/model_hub_py/scheduler/device_scheduler.py:204-393 | every step is of one of four kinds: it changes no task, a task runs on without making any device busier, a forwarded request ends, or one request is dispatched |
| HubQueue.SubmitStep | model_hub_py/src/model_hub_py/dispatcher.py:47-78 | a request is accepted if and only if a slot is left: then its session is QUEUED and the queue of its service one longer, else no session changes |
| HubQueue.QueueIsFifo | model_hub_py/src/model_hub_py/scheduler/device_scheduler.py:50-62 | over any run what was queued and accepted for a device is what its workers took, in that order, followed by what still waits |
| HubStarts.DequeueIs | model_hub_py/src/model_hub_py/scheduler/device_scheduler.py:275-294 | a worker takes the head of the queue: without a free slot the session fails and the worker is back, else it comes to the start |
| HubStarts.GrantIs | model_hub_py/src/model_hub_py/scheduler/device_scheduler.py:64-85 | with the lock: a service that is up gets the request (counted once) or turns it away; one that is down is launched, at once where memory is not tracked, else when it fits; without time to wait the start fails; else the stoppable services are stopped in order or the task pauses |
| HubStarts.HttpStartIs | model_hub_py/src/model_hub_py/api.py:457-493 | an explicit start goes the same way, without a session |
| HubStarts.WakeIs | model_hub_py/src/model_hub_py/scheduler/device_scheduler.py:186-202 | behind a pause: the deadline fails the start, room launches it, else the stoppable services are looked up anew |
| HubStarts.ReclaimStoppedIs | model_hub_py/src/model_hub_py/scheduler/device_scheduler.py:154-176 | behind a stop command: the candidate is down and remembers the session; with enough freed the stopped names are noted and the service is launched, else the next one is stopped, or the task pauses; a run-time error pauses, any other exception fails the start |
| HubStarts.LaunchedIs | model_hub_py/src/model_hub_py/scheduler/device_scheduler.py:81-85 | behind a start: the lock is free, the service is up and idle and the request goes on; a failing start fails the session |
| HubEnds.SessionEnds | model_hub_py/src/model_hub_py/scheduler/device_scheduler.py:317-390 | however a session ends: its status and time, its service and the counts are settled, no service stops, and the worker is back at its queue if the mode is ALWAYS; in mode ONCE the stop begins if no lease is live, and the restore of what the session reclaimed if one is |
| HubEnds.OnceStopRestores | model_hub_py/src/model_hub_py/scheduler/device_scheduler.py:391-393 | behind the stop of a ONCE service: it is down, no other is, and the restore begins with the first restorable service that is noted, in order, if it fits; a failing stop kills the worker |
| HubEnds.RestartGoesOn | model_hub_py/src/model_hub_py/scheduler/device_scheduler.py:262-273 | behind a restart: the service is up, and the next one follows if it fits; the first that does not ends the restore; a failing start kills the worker |
| HubDispatch.DispatchDispatches | model_hub_py/src/model_hub_py/scheduler/device_scheduler.py:299-315 | a dispatch whose session passed the busy check counts exactly one request more, on its own device, keeps the invariants and leaves the worker forwarding that session |
| HubDispatch.AbortChecks | model_hub_py/src/model_hub_py/state_store.py:365-396 | a busy check that lets a session through guarantees a free slot if the session is QUEUED, and otherwise looks at nothing |
| HubRequests.SubmittedHolds | model_hub_py/src/model_hub_py/dispatcher.py:47-78 | accepting, creating and enqueueing a session keeps the store's invariants and every device's load |
| HubRequests.ReservedHolds | model_hub_py/src/model_hub_py/api.py:32-84 | one turn of the reserving wait loop keeps the store's invariants and never takes a slot that is not free |
| HubMoves.MarkStoppedMoves | model_hub_py/src/model_hub_py/state_store.py:138-151 | stopping a service keeps all store invariants: it leaves the running set as its status becomes STOPPED |
| HubMoves.FinallyMoves | model_hub_py/src/model_hub_py/scheduler/device_scheduler.py:348-368 | the finally clause, whoever raised the counters, keeps the invariants and makes no device busier |
| HubRuns.ReclaimedRuns | model_hub_py/src/model_hub_py/scheduler/device_scheduler.py:154-176 | a turn of the reclaim loop over a candidate list that may have gone stale keeps the invariants and touches no other task |
| HubLeases.TouchKeeps | model_hub_py/src/model_hub_py/state_store.py:270-348 | a touch keeps slots coupled to leases, statuses honest and slots bounded, whatever it answers |
| HubLeases.TouchRecords | model_hub_py/src/model_hub_py/state_store.py:313-348 | a failed touch changes no service and no session; a successful one records this lease with its expiry, no other lease, and holds a slot for it when asked to reserve |
| HubLeases.ReadyImpliesSuccess | model_hub_py/src/model_hub_py/api.py:53-76 | if the readiness question answered yes, the device is within its concurrency and the clock moved forward, the reserving touch returns no error |
| HubLeases.ReleaseKeeps | model_hub_py/src/model_hub_py/state_store.py:398-407 | releasing a lease keeps the store's invariants |
| HubLeases.ReleaseReleases | model_hub_py/src/model_hub_py/state_store.py:191-203 | afterwards neither the lease nor its slot is anywhere, and every other slot is as before |
| HubHandlers.TouchStep | model_hub_py/src/model_hub_py/state_store.py:270-348 | a touch records the lease, drops what has run out, refreshes a slot the lease holds, syncs the status, and on a single-slot device whose slot it holds fails what is queued |
| HubHandlers.ReserveStep | model_hub_py/src/model_hub_py/api.py:32-84 | a turn of the reserving wait: with a slot held or left the lease is recorded and holds a slot with its expiry, else slots are pruned and nothing else happens |
| HubHandlers.ReleaseStep | model_hub_py/src/model_hub_py/api.py:423-444 | a release: the lease and its slot are gone, with what has run out of the service, and every other slot stays |
| HubHandlers.CleanupStep | model_hub_py/src/model_hub_py/state_store.py:437-452 | a cleanup drops exactly the leases and slots that have run out and expires exactly the sessions that ended long enough ago, with their results |
| HubHandlers.LookAtStep | model_hub_py/src/model_hub_py/state_store.py:409-452 | looking at a service does what a cleanup does |
| HubHandlers.HttpStopStep | model_hub_py/src/model_hub_py/api.py:496-514 | a stop is refused while a lease is live or a session is served, needless when stopped, and else begins |
| HubHandlers.HttpStoppedStep | model_hub_py/src/model_hub_py/api.py:515-518 | behind it the service is down and no other is; a failing stop changes nothing |
| HubHandlers.HttpProbedStep | model_hub_py/src/model_hub_py/api.py:521-533 | a health check reports a stopped service as started, and any other as EXTERNAL or IDLE by its live leases |
| HubStoreLaws.SweepKeeps | model_hub_py/src/model_hub_py/state_store.py:409-426 | dropping expired leases with their slots keeps the invariants |
| HubStoreLaws.SweepLeavesOnlyLive | model_hub_py/src/model_hub_py/state_store.py:409-426 | after a sweep every lease and every coupled slot of the swept services expires later |
| HubStoreLaws.CleanupLeavesOnlyLive | model_hub_py/src/model_hub_py/state_store.py:437-452 | after cleanup_expired(now) every lease and slot expires after now, no outlived session is left, no other session changed, the invariants hold |
| HubSessionRuns.ResultsTrackSessions | model_hub_py/src/model_hub_py/scheduler/device_scheduler.py:317-347 | at every await point of every run a result is stored if and only if its session is FINISHED, and no session is in two hands |
| HubSessionRuns.StepKeepsSessions | model_hub_py/src/model_hub_py/scheduler/device_scheduler.py:275-393 | every step keeps: results match sessions, each session held once, held sessions in the phase of their task |
| HubSessionRuns.StepStatusForward | model_hub_py/src/model_hub_py/scheduler/device_scheduler.py:290-334 | off the single-slot devices a step leaves a session's status or moves it to a later one, and never from one way to end to the other |
| HubSessionRuns.StatusOnlyForward | model_hub_py/src/model_hub_py/scheduler/device_scheduler.py:290-334 | the same over whole runs |
| HubSessionRuns.ExpiresExactlyWhenOutlived | model_hub_py/src/model_hub_py/state_store.py:437-452 | a step makes a session EXPIRED if and only if it cleans up and the session was terminal for at least its time to live |
| HubSessionRuns.FailedSessionRevived | model_hub_py/src/model_hub_py/state_store.py:350-363 | on a single-slot device a session failed by a lease in the queue, and possibly expired since, is set to PROCESSING when a worker comes to it and the service is up and unlocked |
| HubBackwards.StatusBackExactly | model_hub_py/src/model_hub_py/scheduler/device_scheduler.py:290-334 | on every device a step takes a session's status back if and only if the acting worker holds or dequeues it FAILED or EXPIRED and its start goes on, or EXPIRED and its start fails |
| HubRevived.StatusGoesBack | model_hub_py/src/model_hub_py/state_store.py:350-363 | a run of two steps from a fresh hub, behind which the next step takes a session from FAILED back to PROCESSING |
| HubMemory.MemoryNeverOvercommitted | model_hub_py/src/model_hub_py/scheduler/device_scheduler.py:64-85 | over any run whose starts are serialised per device, the running services of a tracked device never need more memory than it has |
| HubMemory.StepKeepsMemory | model_hub_py/src/model_hub_py/scheduler/device_scheduler.py:178-273 | each step keeps every device within its memory and every start's claim good |
| HubMemory.ClaimStays | model_hub_py/src/model_hub_py/scheduler/device_scheduler.py:131-176 | a claim of memory, projected or real, survives what others stop |
| HubAdmission.StepOvercommitsExactly | model_hub_py/src/model_hub_py/scheduler/device_scheduler.py:64-85 | any step, serialised or not, brings a tracked device over its memory if and only if it reports as started a service not running there that needs more than is free |
| HubAdmission.HealthCheckOvercommits | model_hub_py/src/model_hub_py/api.py:520-533 | a health check of a stopped service that is found up overcommits its device if and only if the service does not fit |
| HubClaims.StopMovesMemory | model_hub_py/src/model_hub_py/scheduler/device_scheduler.py:154-162 | stopping a candidate moves its memory from what is still to be freed to what is projected, never beyond what is really free |
| HubOvercommitted.OverlappingStartsOvercommit | model_hub_py/src/model_hub_py/scheduler/device_scheduler.py:204-233 | two overlapping explicit starts of services that fit singly overcommit the device if and only if both together need more than is free |
| HubOvercommitted.FreshOvercommitted | model_hub_py/src/model_hub_py/scheduler/device_scheduler.py:204-233 | from a fresh hub such a run puts two services on a device with memory for one |
| HubReclaim.ReclaimedGreedily | model_hub_py/src/model_hub_py/scheduler/device_scheduler.py:131-176 | without interference the shortest sufficient prefix of the candidates is stopped; if none suffices all are, and the answer is False if a peer has work in flight, else an error |
| HubReclaim.NeededIsShortest | model_hub_py/src/model_hub_py/scheduler/device_scheduler.py:154-168 | the number of stops is the least that frees enough, or all |
| HubReclaim.CandidatesSorted | model_hub_py/src/model_hub_py/scheduler/device_scheduler.py:99-121 | the candidates are exactly the running services but the target with nothing in flight, no lease and status IDLE or ERROR, each once; no ALWAYS service before a ONCE one, and within a mode never used ones first and then by last use |
| HubReclaim.SelectedAreStoppable | model_hub_py/src/model_hub_py/scheduler/device_scheduler.py:99-121 | seen before the sweep, a service is selected if and only if it runs, is not the target, has nothing in flight, no lease that is live, and is idle or failed (or EXTERNAL) |
| HubReclaim.ProjectedIsReal | model_hub_py/src/model_hub_py/scheduler/device_scheduler.py:154-162 | after every stop the projected memory is exactly what the device has free |
| HubReclaim.ReclaimedStops | model_hub_py/src/model_hub_py/scheduler/device_scheduler.py:154-176 | the stopped services are down, no other is, and pending_restore records exactly them on tracked success |
| HubReclaimRuns.ReclaimRunIsGreedy | model_hub_py/src/model_hub_py/scheduler/device_scheduler.py:131-199 | an uninterrupted run of the protocol's successful stop commands ends in the store of greedy reclaim, admitted if there is room and back in the pause if not |
| HubRestore.RestoreUndoesReclaim | model_hub_py/src/model_hub_py/scheduler/device_scheduler.py:235-273 | stopping a ONCE service and restoring leaves the device running exactly what ran before the reclaim, but for noted services the restore rule shuts out |
| HubRestore.RestoreOrderSorted | model_hub_py/src/model_hub_py/scheduler/device_scheduler.py:243-261 | the restore list is exactly the noted services that are STOPPED and were last used at most the resume window ago; by last use, latest first, and at the same time no ONCE service before an ALWAYS one |
| HubRestore.AllBack | model_hub_py/src/model_hub_py/scheduler/device_scheduler.py:262-273 | a restore whose services fit together starts all of them and ends with the worker at its queue |
| HubStoreClass.InMemoryStateStore.constructor | model_hub_py/src/model_hub_py/state_store.py:66-83 | the empty tables of a new store |
| HubStoreClass.InMemoryStateStore.CreateSession | model_hub_py/src/model_hub_py/state_store.py:111-121 | the store with the session queued and its service's queue one longer |
| HubStoreClass.InMemoryStateStore.MarkServiceStarted | model_hub_py/src/model_hub_py/state_store.py:126-136 | the new store, as the protocol's MarkStarted |
| HubStoreClass.InMemoryStateStore.MarkServiceStopped | model_hub_py/src/model_hub_py/state_store.py:138-151 | the new store, as the protocol's MarkStopped |
| HubStoreClass.InMemoryStateStore.SyncStatusFromExternalLeases | model_hub_py/src/model_hub_py/state_store.py:153-168 | the status follows the leases |
| HubStoreClass.InMemoryStateStore.PruneDeviceReservedSlots | model_hub_py/src/model_hub_py/state_store.py:170-189 | the loop leaves exactly the slots that expire later |
| HubStoreClass.InMemoryStateStore.ReleaseDeviceSlotForLease | model_hub_py/src/model_hub_py/state_store.py:191-203 | the slot of this lease is gone, all else as before |
| HubStoreClass.InMemoryStateStore.DeviceSlotUsage | model_hub_py/src/model_hub_py/state_store.py:205-217 | the slots in use after pruning, and how many there are |
| HubStoreClass.InMemoryStateStore.CanAcceptProxyWork | model_hub_py/src/model_hub_py/state_store.py:235-248 | yes if and only if a slot is free after pruning |
| HubStoreClass.InMemoryStateStore.ExternalReserveSlotReady | model_hub_py/src/model_hub_py/state_store.py:250-268 | the readiness answer of the protocol |
| HubStoreClass.InMemoryStateStore.TouchExternalLease | model_hub_py/src/model_hub_py/state_store.py:270-348 | the new store and the error of the protocol's Touch, on every path |
| HubStoreClass.InMemoryStateStore.FailQueuedSessionsOnDevice | model_hub_py/src/model_hub_py/state_store.py:350-363 | the loop over all sessions fails every queued one of the device and lowers the queues, in whatever order it visits them |
| HubStoreClass.InMemoryStateStore.AbortProxySessionDeviceBusy | model_hub_py/src/model_hub_py/state_store.py:365-396 | the new store and the answer of the busy check |
| HubStoreClass.InMemoryStateStore.ReleaseExternalLease | model_hub_py/src/model_hub_py/state_store.py:398-407 | the new store, as the protocol's Release |
| HubStoreClass.InMemoryStateStore.ServiceHasExternalActivity | model_hub_py/src/model_hub_py/state_store.py:409-426 | the loop drops every expired lease of the service with its slot, and answers whether a live one is left |
| HubStoreClass.InMemoryStateStore.CleanupExpired | model_hub_py/src/model_hub_py/state_store.py:437-452 | both loops together leave the store of the protocol's Cleanup |
| HubStoreClass.SweepOneLease | model_hub_py/src/model_hub_py/state_store.py:417-424 | dropping one expired lease and releasing its slot is one step of the sweep, in any order |
| HubStoreClass.FailOne | model_hub_py/src/model_hub_py/state_store.py:353-363 | failing one queued session is one step of failing them all: the queue counter floors at zero the same way |
| HubSchedulerClass.DeviceScheduler.SelectReclaimCandidates | model_hub_py/src/model_hub_py/scheduler/device_scheduler.py:99-121 | the loop with its lease sweeps yields the swept store and the candidates, ONCE services first and within a mode by last use |
| HubSchedulerClass.DeviceScheduler.HasBusyReclaimBlocker | model_hub_py/src/model_hub_py/scheduler/device_scheduler.py:123-129 | yes if and only if another service of the device has a request in flight |
| HubSchedulerClass.DeviceScheduler.EnsureMemoryCapacity | model_hub_py/src/model_hub_py/scheduler/device_scheduler.py:131-176 | the loop comes to the store and answer of greedy reclaim |
| MemoryTables.AddedInStep | clawchips-plugin/src/localrouter/memory.ts:502-555 | adding keeps items and vectors in step, or on a wrong width leaves the tables as they were |
| MemoryTables.UpdatedInStep | clawchips-plugin/src/localrouter/memory.ts:558-635 | updating keeps them in step and rows mirrored |
| MemoryTables.UpdatedModelEmpty | clawchips-plugin/src/localrouter/memory.ts:567-582 | a null model in an update is stored as the empty text |
| MemoryTables.WithoutInStep | clawchips-plugin/src/localrouter/memory.ts:705-768 | deleting any set of ids keeps items and vectors in step |
| MemoryTables.ClearedInStep | clawchips-plugin/src/localrouter/memory.ts:771-780 | clearing everything keeps them in step |
| MemoryTables.AlwaysInStep | clawchips-plugin/src/localrouter/memory.ts:502-780 | from the empty store, after any adds, updates, deletes and clears in any order, items and vectors are in step |
| MemoryTables.AddThenDelete | clawchips-plugin/src/localrouter/memory.ts:705-716 | deleting what was just added restores items and vectors; only the id counter and the recorded width stay raised |
| MemoryBankClass.MemoryBank.EnsureVectorTable | clawchips-plugin/src/localrouter/memory.ts:321-367 | creates the index, accepts the recorded width, or refuses another one and changes no table |
| MemoryBankClass.MemoryBank.Add | clawchips-plugin/src/localrouter/memory.ts:502-555 | the new tables, or on a mismatch the rolled-back old ones; the new row holds one bit of the tier, the trimmed texts, and NULL for empty ones |
| MemoryBankClass.MemoryBank.UpdateItem | clawchips-plugin/src/localrouter/memory.ts:558-635 | the new tables and the answer; of the row exactly the given columns are set |
| MemoryBankClass.MemoryBank.Delete | clawchips-plugin/src/localrouter/memory.ts:705-716 | the row is gone from both tables, and whether it was there |
| MemoryBankClass.MemoryBank.ForgetByModel | clawchips-plugin/src/localrouter/memory.ts:719-737 | exactly the rows of the model are gone, and how many there were |
| MemoryBankClass.MemoryBank.DeleteByRoutingFilter | clawchips-plugin/src/localrouter/memory.ts:740-768 | exactly the rows of the filter are gone, and how many there were |
| MemoryBankClass.MemoryBank.ClearAll | clawchips-plugin/src/localrouter/memory.ts:771-780 | all rows are gone |
| MemoryBankClass.MemoryBank.Search | clawchips-plugin/src/localrouter/memory.ts:785-933 | at most k results, nearest first; each with its item's columns and similarity, of the tier, model, strategy and user asked for and within the threshold; without model, strategy and user filter a row of that kind is only missing if k rows at least as near were returned |
| MemoryBankClass.NearRowsFound | clawchips-plugin/src/localrouter/memory.ts:811-856 | with filters: a row that qualifies and is among the nearest 8 k of its tier is only missing if k rows at least as near were returned |
| MemorySearch.SearchIsPrefix | clawchips-plugin/src/localrouter/memory.ts:811-931 | whatever the filters, the answer is a prefix of the exhaustive one, equal to it when k rows were found or the window covers the table |
| MemorySearch.SearchAgreesExactly | clawchips-plugin/src/localrouter/memory.ts:811-931 | with filters the two agree if and only if at least k rows of the window join and score, or no row behind the window does |
| MemoryMissed.SearchMisses | clawchips-plugin/src/localrouter/memory.ts:811-931 | nine rows and k = 1: the one row of the wanted model lies behind the window and is not found |
| MemorySearch.SearchIsExhaustive | clawchips-plugin/src/localrouter/memory.ts:811-931 | without model, strategy and user filter they always agree |
| MemorySearch.ExhaustiveIsNearest | clawchips-plugin/src/localrouter/memory.ts:811-931 | the exhaustive answer: at most k passing rows, nearest first, and no passing row left out for a farther one; what passing means is said at MemoryBank.Search |
| Sections.LinesAreText | skills/rk-rag/scripts/rk_rag.py:126-133 | the lines put together are the text |
| Sections.LineOffsets | skills/rk-rag/scripts/rk_rag.py:126-133 | the offset of every line |
| SectionCuts.LinesAreLines | skills/rk-rag/scripts/rk_rag.py:126-133 | each line ends at a line end, the last perhaps at the end of the text; no line end stands inside a line and no carriage return is parted from its newline |
| Sections.SpansCover | skills/rk-rag/scripts/rk_rag.py:157-232 | every line is in exactly one block, or a heading or blank line in none; blocks are in order and disjoint |
| SectionCuts.EndIsBlock | skills/rk-rag/scripts/rk_rag.py:189-218 | a block that opens with a fence runs to the next line that begins with it, one that starts a table to the last line with a bar, any other up to a blank line, a heading, a fence or a table start |
| SectionCuts.CutIsUnique | skills/rk-rag/scripts/rk_rag.py:157-232 | there is exactly one cutting of the lines into such blocks in order, with headings and blank lines outside, and it is the one the parser finds |
| SectionCuts.SectionsAreCut | skills/rk-rag/scripts/rk_rag.py:157-232 | the sections hold exactly the blocks of that cutting, in order, each stripped between its offsets and under the headings in force; two blocks in a row share a section if and only if no heading stands between |
| Sections.BlockIsDocument | skills/rk-rag/scripts/rk_rag.py:157-232 | a block's text is the document between its offsets, stripped, and not empty |
| Texts.StripCuts | skills/rk-rag/scripts/rk_rag.py:222-232 | stripping cuts blanks off both ends, and nothing else, until there is none |
| Sections.StackIsInForce | skills/rk-rag/scripts/rk_rag.py:175-183 | the heading stack is exactly the headings with no later one of equal or lower level, levels strictly increasing |
| Sections.ParseKeepsBlocks | skills/rk-rag/scripts/rk_rag.py:157-232 | the sections hold every block once and in order, none is empty |
| Sections.ParseKeepsPaths | skills/rk-rag/scripts/rk_rag.py:157-232 | each block stands under exactly the headings in force at it |
| Sections.BlocksOrdered | skills/rk-rag/scripts/rk_rag.py:157-232 | the blocks are disjoint, increasing pieces of the document |
| Sections.ScanBlock | skills/rk-rag/scripts/rk_rag.py:189-218 | the fence, table and paragraph loops end at the end of the block, which SectionCuts.EndIsBlock tells by the lines |
| Sections.PopHeadings | skills/rk-rag/scripts/rk_rag.py:179-180 | the pop loop removes exactly the headings of the same or a higher level number from the end |
| Sections.ParseMarkdownSections | skills/rk-rag/scripts/rk_rag.py:157-232 | the line loop yields the parse of the document (for which see SectionCuts.SectionsAreCut), its blocks ordered |
| Greedy.PackedIsGrouping | skills/rk-rag/scripts/rk_rag.py:241-280 | greedy grouping puts every element in one group, in order, each group of several within the limit |
| Greedy.GreedyIsOptimal | skills/rk-rag/scripts/rk_rag.py:241-280 | no order-preserving grouping by the same rule has fewer groups |
| Packing.BigMonotone | skills/rk-rag/scripts/rk_rag.py:235-268 | with the heading prefix a chunk that is too big stays so with another block at either end |
| Packing.PackSection | skills/rk-rag/scripts/rk_rag.py:249-279 | the packing loop yields the chunks of the greedy groups, with their offsets |
| Packing.MarkdownStructuredChunks | skills/rk-rag/scripts/rk_rag.py:241-280 | refuses a limit that is not positive; otherwise the chunks of all sections in order |
| Packing.SectionChunksOptimal | skills/rk-rag/scripts/rk_rag.py:241-280 | per section of any document: each block in one chunk, in order, multi-block chunks within the limit with their prefix, and the least number of chunks |
| Packing.FewestChunks | skills/rk-rag/scripts/rk_rag.py:241-280 | no grouping of the blocks, in order and with every group of several within the limit as it would read, has fewer groups than the section has chunks |
| Packing.ChunksRead | skills/rk-rag/scripts/rk_rag.py:235-280 | a chunk reads: the heading lines, an empty line, its blocks with empty lines between; it begins and ends where its first and last block do; with several blocks it is within the limit |
| Packing.HeadingLinesAre | skills/rk-rag/scripts/rk_rag.py:235-238 | one line for each heading of the path that has a title: as many hash marks as its level, a blank, the title |
| Packing.JoinFirst | skills/rk-rag/scripts/rk_rag.py:256-274 | parts joined by a gap, from the front |
| Packing.AllChunksAppend | skills/rk-rag/scripts/rk_rag.py:241-280 | the chunks of a document are those of its sections, in order |
| Chunked.ReadChunkedStream | skills/rk-meeting-watcher/scripts/asr_meeting_watcher.py:329-368 | the reading loops over socket pieces yield the payloads and the end of the reading |
| Chunked.PiecesDoNotMatter | skills/rk-meeting-watcher/scripts/asr_meeting_watcher.py:329-368 | unless a body behind a successful header comes to a negative size, payloads and end depend on the bytes alone |
| Chunked.SplitsAgree | skills/rk-meeting-watcher/scripts/asr_meeting_watcher.py:329-368 | any two ways to split the same bytes read the same |
| Chunked.DecodeEncode | skills/rk-meeting-watcher/scripts/asr_meeting_watcher.py:344-368 | decoding an encoded chunk list (section 7.1 of RFC 9112) returns exactly its chunks that are not blank |
| Chunked.ReadEncoded | skills/rk-meeting-watcher/scripts/asr_meeting_watcher.py:329-368 | the same off any pieces, behind a successful header |
| Chunked.ReadEnds | skills/rk-meeting-watcher/scripts/asr_meeting_watcher.py:339-368 | behind a successful header, off any pieces: the chunks that come whole are handed on if not blank, and the reading runs out at a missing size line or payload, fails at a size that is no number and ends at zero |
| Chunked.ReadRefused | skills/rk-meeting-watcher/scripts/asr_meeting_watcher.py:329-341 | without a successful header nothing is handed on |
| Chunked.DigitsMean | skills/rk-meeting-watcher/scripts/asr_meeting_watcher.py:350-352 | a hex digit has the value of its place among the digits, in either case |
| Chunked.NegativeSizeMatters | skills/rk-meeting-watcher/scripts/asr_meeting_watcher.py:352-366 | whenever a body behind a successful header comes to a negative size with enough bytes behind it, the last byte in a piece of its own changes that payload |
| Chunked.PiecesMatterExactly | skills/rk-meeting-watcher/scripts/asr_meeting_watcher.py:329-368 | for streams with bytes enough behind their first negative size, the reading depends on the pieces if and only if there is one |
| Chunked.MinusFiveMatters | skills/rk-meeting-watcher/scripts/asr_meeting_watcher.py:344-366 | such a stream behind any successful header: the size -5 and eight bytes |
| Watcher.KeywordWatcherState.AppendResultBuffer | skills/rk-meeting-watcher/scripts/asr_meeting_watcher.py:72-100 | a result triggers if and only if it is not empty, no cooldown is on and the keyword is in the last 1024 characters with it, or in those and the suffix; a trigger clears the buffer and begins the cooldown, else the buffer becomes those characters |
| Watcher.KeywordWatcherState.ShouldDropAudioInput | skills/rk-meeting-watcher/scripts/asr_meeting_watcher.py:87-104 | audio is dropped exactly in the cooldown; the first check behind it clears trigger time and buffer |
| Watcher.KeywordWatcherState.ConsumeStreamState | skills/rk-meeting-watcher/scripts/asr_meeting_watcher.py:148-153 | hands out the next stream state once and resets it |
| Watcher.KeywordWatcherState.HandleAsrResult | skills/rk-meeting-watcher/scripts/asr_meeting_watcher.py:310-326 | whether a result triggers, and the watcher's new state |
| Watcher.BufferIsTranscript | skills/rk-meeting-watcher/scripts/asr_meeting_watcher.py:72-100 | the buffer is always the last 1024 characters of the text since the last clear |
| Watcher.TriggersApart | skills/rk-meeting-watcher/scripts/asr_meeting_watcher.py:102-146 | any two triggers are at least the cooldown apart |
| Watcher.TriggersOnCompletion | skills/rk-meeting-watcher/scripts/asr_meeting_watcher.py:310-326 | if result and keyword fit in 1024 characters, a result triggers if and only if it completes the keyword, with the suffix that came with it |
| Watcher.FirstCompletionTriggers | skills/rk-meeting-watcher/scripts/asr_meeting_watcher.py:310-326 | over a run of results with their suffixes, each at its own time, there is no trigger before the first completion in the unbounded transcript, and exactly then one |
| Braces.ScanFrom | skills/rk-vl/scripts/detect_target.py:306-330 | the inner loop finds the closing brace of the scan, or none |
| Braces.ExtractFirstJsonObject | skills/rk-vl/scripts/detect_target.py:289-331 | the first candidate that parses, else the brace search; the search ends on every input |
| Braces.ScanFindsClosing | skills/rk-vl/scripts/detect_target.py:306-330 | from an object's opening brace the scan stops exactly at its closing brace, whatever follows |
| Braces.SearchFindsObject | skills/rk-vl/scripts/detect_target.py:304-331 | an object behind text without an opening brace is found |
| Braces.SearchFindsJson | skills/rk-vl/scripts/detect_target.py:304-331 | every printed JSON object, with the string escapes of section 7 of RFC 8259, is found exactly |
| Braces.SearchIsFirst | skills/rk-vl/scripts/detect_target.py:304-331 | whatever the text: the search yields what the first opening brace gives that gives anything, and nothing if none does |
| Reminder.Monitor.Update | skills/rk-vl/scripts/detect_target.py:648-745 | the new state and whether a reminder is queued |
| Reminder.RemindersConfirmed | skills/rk-vl/scripts/detect_target.py:682-692 | every reminder ends a run of at least hit_confirmations hits |
| Reminder.RemindersSpaced | skills/rk-vl/scripts/detect_target.py:648-745 | consecutive reminders are max(cooldown, max silence) apart, or enough misses in a row lie between |
| Reminder.ConfirmedHitReminds | skills/rk-vl/scripts/detect_target.py:682-722 | a confirmed hit reminds if and only if the target was not present or the remembered reminder is old enough |
| Reminder.PresentBeforeConfirmed | skills/rk-vl/scripts/detect_target.py:722-722 | a first unconfirmed hit makes the target present without a reminder |
| Reminder.FirstReminderSinceZero | skills/rk-vl/scripts/detect_target.py:682-722 | with more than one hit asked for, before any reminder of the run a confirmed hit reminds if and only if the time since zero is max(cooldown, max silence) |
| Reminder.PresentSince | skills/rk-vl/scripts/detect_target.py:722-734 | the target is present if and only if fewer misses than the limit came since the last hit |
| Reminder.ClearedReminds | skills/rk-vl/scripts/detect_target.py:726-731 | enough misses in a row forget the reminder too: if one hit is enough, the next one reminds whatever the time |
| Turns.StepKeeps | clawchips-plugin/src/hooks.ts:284-424 | every hook, up to its next await, keeps the invariant on rows, stashes and usage |
| Turns.CompletedAtMostOnce | clawchips-plugin/src/hooks.ts:284-316 | under any interleaving each recorded row is completed at most once |
| TurnsUsage.UsageIsOwn | clawchips-plugin/src/hooks.ts:780-913 | each row is completed with the sum of the outputs that reached its stash between the event that opened it and the one that completes it; with the last output's own if they sum to nothing, with none if that says nothing or the row is flushed |
| TurnsHooks.OutputCompletes | clawchips-plugin/src/hooks.ts:829-911 | an open row is done after an output of its session if and only if the output is terminal or brings a count; else it stays open |
| TurnsHooks.OutputStep | clawchips-plugin/src/hooks.ts:780-913 | an output adds its counts and its error to the stash of its session, and touches no other |
| TurnsHooks.ResolveStep | clawchips-plugin/src/hooks.ts:447-609 | before_model_resolve up to its await: the open row is completed with the totals so far; a known route opens a new one on a stash that begins anew; an unknown one waits with the stash |
| TurnsHooks.ResumeStep | clawchips-plugin/src/hooks.ts:625-666 | behind the await, with the stash it held: a route completes what is open there and opens a new row; no route puts the stash back; a failure does nothing |
| TurnsHooks.EndStep | clawchips-plugin/src/hooks.ts:916-928 | the open row is completed and the session has no stash any more |
| TurnsHooks.EvictStep | clawchips-plugin/src/hooks.ts:84-98 | exactly the sessions stamped more than half an hour ago are forgotten, and nothing is completed |
| Turns.SessionEndCompletesAll | clawchips-plugin/src/hooks.ts:916-928 | when a session's hooks do not overlap and it is not evicted, its end leaves each of its recorded rows with exactly one completing call |
| TurnsClass.DashboardHooks.FlushIncompleteDashboardTurn | clawchips-plugin/src/hooks.ts:284-316 | the new tables |
| TurnsClass.DashboardHooks.BeginDashboardTurn | clawchips-plugin/src/hooks.ts:319-424 | the new tables, whether or not the row could be recorded |
| TurnsClass.DashboardHooks.BeforeModelResolve | clawchips-plugin/src/hooks.ts:447-667 | the tables at the first await of the handler |
| TurnsClass.DashboardHooks.AfterPipeline | clawchips-plugin/src/hooks.ts:625-666 | the held stash gets its new row, is put back, or is left, by the outcome |
| TurnsClass.DashboardHooks.LlmOutput | clawchips-plugin/src/hooks.ts:780-913 | the counts and the error join the stash; the open row is completed if and only if the output is terminal or brings a count |
| TurnsClass.DashboardHooks.SessionEnd | clawchips-plugin/src/hooks.ts:916-928 | an open turn flushed and the stash forgotten |
| TurnsClass.DashboardHooks.EvictStale | clawchips-plugin/src/hooks.ts:84-98 | the loop deletes exactly the entries stamped more than half an hour ago |
| Planes.UnpackReadsBits | skills/rk-binary-image-decoder/scripts/CVT_NV15.py:15-43 | the masks and shifts take bits 10k to 10k+9 of the little-endian bit stream |
| Planes.ReadLuma | skills/rk-binary-image-decoder/scripts/CVT_NV15.py:72-88 | the luma loops fill the plane with the packed samples of each row |
| Planes.ReadChroma | skills/rk-binary-image-decoder/scripts/CVT_NV15.py:90-119 | the chroma loops fill U and V from the interleaved rows, swapped or not |
| Planes.LumaGuardHolds | skills/rk-binary-image-decoder/scripts/CVT_NV15.py:81-82 | behind the padding the luma bounds guard never fails |
| Planes.ChromaGuardHolds | skills/rk-binary-image-decoder/scripts/CVT_NV20.py:94-99 | nor does the chroma bounds guard, for either format |
| Planes.Upsample | skills/rk-binary-image-decoder/scripts/CVT_NV15.py:122-144 | each sample is its chroma sample, or zero where there is none |
| Planes.ToYuvPlanes | skills/rk-binary-image-decoder/scripts/CVT_NV15.py:147-186 | for all widths, heights, strides and file lengths the planes are the fields of the padded bit stream |
| Planes.LumaDecodeEncode | skills/rk-binary-image-decoder/scripts/CVT_NV15.py:147-186 | luma samples packed into a file come back, the last width mod 4 columns being zero |
| Planes.ChromaDecodeEncode | skills/rk-binary-image-decoder/scripts/CVT_NV20.py:141-179 | chroma samples packed into a file come back at every pixel that has one |
| Planes.FileDecodeEncode | skills/rk-binary-image-decoder/scripts/CVT_NV15.py:147-186 | a file that begins with an encoded image decodes to its samples, whatever bytes follow |

## Left out

- Run-time records of the hub are values in the store's maps: aliasing of records, error and occupant texts, request payloads, logging and the flag stop_after_request are not modelled.
- One clock stands for the wall clock and the monotonic one, read once a stretch, but twice in a reserving touch; clock readings that go back are only excluded where a lemma says so.
- Locks of asyncio are granted to any waiting task, not in order; handlers cancelled by a client, shutdown and the HTTP routes are not modelled.
- Process manager, health checks and upstream calls succeed or fail freely; device memory is capacity minus the sizes of running services.
- HubMemory.MemoryNeverOvercommitted: holds of runs in which starts on a device do not overlap and no health check reports a stopped service running; for every other step HubAdmission gives the exact condition under which the bound fails, and HubOvercommitted overlapping starts that make it fail.
- Turns.SessionEndCompletesAll: counts the calls that complete a row; a call that throws is caught by the source, is not repeated and leaves the row open in the dashboard's own store, which is not part of this model (hooks.ts:304-315, 901-911).
- HubRestore.RestoreUndoesReclaim: is about a restore during which no other task of the hub takes a step and whose commands succeed; a failing command ends the worker, which the protocol models.
- The reserving wait loop, `_wait_for_capacity` and `_run_one` are steps of the protocol, not methods, because other tasks run at each of their awaits.
- SQLite: transactions are atomic, the nearest-neighbour index is exact with ties by row id, its limit on k and the legacy schema branches are not modelled, and neither is runSerialized, whose depth flag all callers share.
- Embeddings, normalisation and the similarity measure: distances are an arbitrary function into the reals.
- recordFeedback, list and get of the routing memory read or change one column and would add easy members only.
- build_chunks numbers the chunks of each document and adds nothing else.
- Regular expressions, JSON parsing, hexadecimal conversion of anything but plain hexadecimal digits and character classes are library functions, given as parameters.
- The stop event between chunks and the threads of the watcher: its critical sections are atomic operations in any order.
- Completion status and error text, request text and routing decisions of the dashboard hooks.
- A stride that is not an integer, the 8-bit readers, channel swaps and the conversion from YUV to RGB.
