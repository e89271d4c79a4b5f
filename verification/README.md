# Verification of hataori

Hataori runs callbacks and actions across the ranks and localities of a distributed program. This project
models its state machines and codecs in Dafny and proves what they promise over every run and every input.

`dafny verify dfyconfig.toml` checks everything.

How the files go together:

- **Collective `pmap`** — `Scheduler`, `SchedulerProofs`, `SchedulerEffects`, `SchedulerAnswers` (the coordinator), `Coordinator` (the same as an object
  updated in place), `SerialMap` (sequential `map` and the local modes), `ErrorKeys`, `Pmap` (the global step
  system: root, workers and one first-in first-out channel per direction), `PmapInvariant`, `PmapSafety`,
  `PmapSteps`, `PmapRootSteps` (every step keeps the invariant), `PmapProgress` (no deadlock, bounded runs),
  `RootLoop` (the blocking root's control), `PmapErrors`, `PmapMessages`, `PmapKeys`, `PmapFirstError` (which error is
  recorded, and with which message), `PmapTheorems` (the results), `PmapMixedRun` (an example run).
- **At-most-once remote calls** — `Dedup`, `DedupRuns`, `DedupAnswers`, `DedupObject` (the request table),
  `RemoteCalls`, `RemoteCallsProofs`, `RemoteExecutions` (callers, callees and a network that loses, duplicates,
  delays and reorders), `RemoteOutcomes`, `RemoteCancels`, `RemoteProgress` (what completes a call, what a
  cancellation does, and what is achieved when nothing is in the way).
- **Objects** — `Objects`, `ObjectRuns` (accounts), `Leases`, `Admission` (readers and the writer), `Lifetimes`,
  `ObjectService`.
- **The initiator-side controller** — `Controller`, `NestedCodec`, `BatchCodec`, `CodecErrors`, `Texts`, `Replies`.
- **Transports and frames** — `Bytes`, `Protocol`, `ProtocolProofs`, `ProtocolErrors`, `ProtocolReader` (parcels),
  `Chunks`, `ChunkOrigins` (MPI chunks), `Streams`, `StreamOrigins` (TCP framing), `Transport`, `TransportAnswers`
  (send permits), `Memory`, `MemoryProofs`, `MemoryRuns`, `MemoryOrder`, `MemoryObject` (the in-memory network).
- **Placement collectives** — `Wire`, `Placement`, `Collectives`, `CollectiveErrors`.
- **Shared** — `Wrappers`, `Sums`.

Components that update state in place appear twice: as functions on a state value, about which the theorems
are proved, and as classes or loops whose contracts equate them with those functions. Values, callbacks,
handlers and payload codecs are parameters; when a codec has to round-trip, the lemma says so.

Places where the code does not keep a property one would expect, each with its exact condition:

- The root keeps the least error key but always the newest message. In every run they are those of one error
  exactly unless the root handled an undecodable reply after a callback error of its own
  (`PmapMessages.MessagesFollowKeys`, `PmapTheorems.ReportsOneError`); `PmapMixedRun` is such a run.
- Releasing a redirect leaves its bytes counted, so the byte counter is the live bytes plus exactly that leak
  (`DedupRuns.BytesAreAccounted`).
- Retrying waiting calls can run a writer beside readers (`Leases.WriterBesideReaders`, reached by `Leases.WriterBesideReaderRun`);
  every other operation keeps them apart (`Admission.ReadersAndWriterApart`).
- Reply texts longer than 4096 bytes are cut (`BatchCodec.ReplyRoundTrip`).

## Model

| member | source | states |
|---|---|---|
| Scheduler.ValidateAccepts | src/scheduler.rs:601-632 | a completion passes validation exactly when its results name the batch's indices one by one in order, all in range and none filled before |
| Scheduler.CollectIsComplete | src/scheduler.rs:523-534 | taking the results succeeds exactly when every slot is filled, and then gives them in input order |
| SchedulerProofs.InitialWellFormed | src/scheduler.rs:220-261 | a new coordinator is well formed: every index pending, once, in order |
| SchedulerProofs.BatchFacts | src/scheduler.rs:578-588 | a batch is the front of the pending suffix, nonempty and at most the batch size, and its metadata are its own indices |
| SchedulerProofs.DispatchKeeps | src/scheduler.rs:263-335 | moving a batch from pending to a lane moves each index from one place to exactly one other |
| SchedulerProofs.ReadyKeeps | src/scheduler.rs:263-313 | a ready request, accepted or refused, leaves the coordinator well formed, and batch ids cannot overflow |
| SchedulerProofs.NextRootKeeps | src/scheduler.rs:315-335 | the root's own dispatch leaves the coordinator well formed, and batch ids cannot overflow |
| SchedulerProofs.AdvanceMoves | src/scheduler.rs:450-494 | advancing a lane removes its current batch, promotes its prefetched batch and touches nothing else |
| SchedulerProofs.StoreFills | src/scheduler.rs:337-385 | storing results fills exactly the indices of the completed batch |
| SchedulerProofs.RootSuccessKeeps | src/scheduler.rs:337-363 | a root success, whatever its arguments, leaves the coordinator well formed |
| SchedulerProofs.RemoteSuccessKeeps | src/scheduler.rs:365-385 | a remote success, whatever its arguments, leaves the coordinator well formed |
| SchedulerProofs.RootErrorKeeps | src/scheduler.rs:387-409 | a root error leaves the coordinator well formed |
| SchedulerProofs.RemoteErrorKeeps | src/scheduler.rs:411-440 | a remote error or protocol error leaves the coordinator well formed |
| SchedulerProofs.DrainKeeps | src/scheduler.rs:501-508 | draining leaves the coordinator well formed |
| SchedulerProofs.CallKeeps | src/scheduler.rs:263-508 | each of the eight calls, with any arguments, keeps the coordinator well formed |
| SchedulerProofs.EveryCallSequenceKeeps | src/scheduler.rs:263-493 | after every sequence of calls each index is in exactly one of pending, a current batch, a prefetched batch and the results; pending is a contiguous suffix; a stopping lane has no prefetch |
| SchedulerProofs.FailureIsFinal | src/scheduler.rs:496-499 | once failed, always failed, and the results never change again |
| SchedulerProofs.FilledStaysFilled | src/scheduler.rs:337-385 | a filled result is never overwritten by any sequence of calls |
| SchedulerProofs.FinishedIsComplete | src/scheduler.rs:514-534 | a finished unfailed coordinator never yields MissingResult: every index has its result |
| CoordinatorObject.RankErrorExact | src/scheduler.rs:220-261 | the constructor accepts exactly a nonnegative root with pairwise different nonnegative worker ranks, none of them the root |
| CoordinatorObject.New | src/scheduler.rs:220-261 | the constructor gives the initial state, or the error of the first offending rank |
| CoordinatorObject.Coordinator.RemoteReady | src/scheduler.rs:263-313 | updates the fields in place exactly as the specification function does: answers a ready worker with a task or a stop, with every error branch |
| CoordinatorObject.Coordinator.RootBatch | src/scheduler.rs:315-335 | updates the fields in place exactly as the specification function does: takes the root's next batch, or stops the root lane, with every error branch |
| CoordinatorObject.Coordinator.RootSuccess | src/scheduler.rs:337-363 | updates the fields in place exactly as the specification function does: stores the root's results, with every error branch |
| CoordinatorObject.Coordinator.RemoteSuccess | src/scheduler.rs:365-385 | updates the fields in place exactly as the specification function does: stores a worker's results and advances its lane, with every error branch |
| CoordinatorObject.Coordinator.RootError | src/scheduler.rs:387-409 | updates the fields in place exactly as the specification function does: records the root's callback error, with every error branch |
| CoordinatorObject.Coordinator.RemoteError | src/scheduler.rs:411-426 | updates the fields in place exactly as the specification function does: records a worker's error for its current batch, with every error branch |
| CoordinatorObject.Coordinator.RemoteProtocolError | src/scheduler.rs:428-440 | updates the fields in place exactly as the specification function does: fails a worker's pinned current batch, with every error branch |
| CoordinatorObject.Coordinator.RemoteDrain | src/scheduler.rs:501-508 | updates the fields in place exactly as the specification function does: drains a stopped lane, with every error branch |
| CoordinatorObject.Coordinator.TakeResults | src/scheduler.rs:523-534 | updates the fields in place exactly as the specification function does: hands out the ordered results, with every error branch |
| CoordinatorObject.Coordinator.Check | src/scheduler.rs:601-632 | the two validation loops in place, equal to the specified check |
| SchedulerEffects.RootSuccessMoves | src/scheduler.rs:337-363 | a root success moves exactly the root's batch to the results, each value at its index; a failed run stores nothing |
| SchedulerEffects.RemoteSuccessMoves | src/scheduler.rs:365-385 | a remote success moves exactly the current batch to the results and the prefetched batch up |
| SchedulerEffects.RefusedCallsDoNotMatter | src/scheduler.rs:263-508 | a sequence of calls leads where its accepted calls alone lead |
| SchedulerEffects.GivenStep | src/scheduler.rs:263-335 | one call takes what it hands out off the front of the queue under the next batch id; an error empties the queue for good |
| SchedulerEffects.WorkIsHandedOutInOrder | src/scheduler.rs:263-440 | over any sequence of calls the batches handed out are the front of the queue, in order and without gaps, under consecutive ids; unless the run has failed the rest is still pending |
| SchedulerAnswers.ReadyIsAnswered | src/scheduler.rs:263-313 | a ready worker is told to stop exactly when nothing is left to hand out and otherwise gets work; only an unknown rank, or one whose lane takes no work, is refused |
| SchedulerAnswers.RootIsAnswered | src/scheduler.rs:315-335 | the root gets work exactly while something is left to hand out, and is refused exactly while it runs a batch |
| SchedulerAnswers.ScanNamesTheFirst | src/scheduler.rs:601-632 | validation names the first result that is out of range, repeated, out of sequence or already stored |
| SchedulerAnswers.SuccessIsAnswered | src/scheduler.rs:337-385 | results are accepted exactly when they are those of the lane's current batch in order, none stored before; otherwise the answer is the first thing that is wrong |
| SchedulerAnswers.ErrorsAndDrainsAreAnswered | src/scheduler.rs:387-508 | a callback error is accepted exactly for the lane's current batch, an undecodable reply for whatever batch runs, a drain exactly from a stopped lane; each refusal has its own error |
| SchedulerAnswers.ResultsAreAnswered | src/scheduler.rs:514-534 | the results are handed out exactly when the run has not failed and every lane has left its work |
| SerialMap.MapLoop | src/map.rs:73-86 | the loop with early return computes the sequential specification |
| SerialMap.MapExact | src/map.rs:73-86 | map succeeds exactly when every call does, in input order, and otherwise names the lowest failing index |
| SerialMap.ModesAgree | src/local.rs:56-74 | every local mode returns what sequential map returns; the mode only decides which callbacks run |
| ErrorKeys.KeyNamesRank | src/wire.rs:293-322 | a key is below the no-error key and gives its rank back by modulo |
| ErrorKeys.KeyOrder | src/wire.rs:293-307 | keys compare as (task, class, rank) lexicographically, so they are injective |
| ErrorKeys.KeyIsMade | src/wire.rs:293-307 | a key is made exactly for a rank of a nonempty world whose value stays below the no-error key, and each refusal has its own error |
| ErrorKeys.MinKeyIsLeast | src/pmap.rs:559-563 | the reduction gives the least key of all ranks, and some rank has it |
| ErrorKeys.RanksAgree | src/pmap.rs:559-586 | all ranks get the same answer; an error is reported exactly when some rank has one; it is the lowest, read from the rank that owns it; no rank aborts |
| ErrorKeys.ForeignKeyAborts | src/pmap.rs:565-617 | when the lowest key does not belong to the rank it names, every rank aborts |
| PmapSafety.SendMoves | src/pmap.rs:480-523 | a worker's send moves a batch along its pipeline and changes nothing the coordinator tracks |
| PmapSafety.ReceiveMoves | src/pmap.rs:441-478 | a worker's receive moves the answer into its loop state |
| PmapSteps.WorkerEvalKeeps | src/pmap.rs:677-782 | evaluating a batch keeps the global invariant; none of its callbacks ran before |
| PmapRootSteps.ReadyAccepted | src/pmap.rs:1106-1128 | the coordinator accepts every Ready that reaches the root, and its new lane is the worker's state with the answer |
| PmapRootSteps.SuccessKeeps | src/pmap.rs:1143-1152 | handling any Values reply keeps the invariant, so it matches its lane and batch |
| PmapRootSteps.FailedReplyKeeps | src/pmap.rs:1130-1172 | handling any error reply, or any reply that does not decode, keeps the invariant, so it matches its lane and some rank holds a key |
| PmapRootSteps.DrainKeeps | src/pmap.rs:1174-1174 | handling any Drain keeps the invariant, so its lane is stopped |
| PmapRootSteps.StepKeeps | src/pmap.rs:677-1315 | every step of every rank keeps the global invariant |
| PmapProgress.UndrainedMoves | src/pmap.rs:911-1004 | an undrained worker always has a step that completes without buffering |
| PmapProgress.NoDeadlock | src/pmap.rs:1220-1306 | every unfinished state has an enabled step that needs no buffering |
| PmapProgress.MeasureFalls | src/pmap.rs:677-1306 | every step lowers a natural-number measure over pending items, lanes, jobs and messages |
| RootLoop.MoveKeeps | src/pmap.rs:1191-1315 | every move of the blocking root loop keeps its invariant; it blocks only while some worker is undrained |
| RootLoop.LoopNeverHangs | src/pmap.rs:1220-1306 | in every run the root has left its loop with every rank done, or some move can complete without buffering |
| RootLoop.LoopRunsEnd | src/pmap.rs:1220-1306 | every run of the root loop, with every probe outcome, has a bounded length |
| PmapErrors.StepReported | src/pmap.rs:480-523 | the error of every callback that ran is in some rank's key or about to be |
| PmapErrors.StepClean | src/pmap.rs:480-523 | while every payload decodes, only callback errors are recorded |
| PmapMessages.FinishHolds | src/pmap.rs:1062-1079 | the root records its own callback error whole, and no undecodable reply outranks its key |
| PmapMessages.UndecodableHolds | src/pmap.rs:1131-1144 | an undecodable reply at the root splits key and message exactly when the root already holds a callback key of its own |
| PmapMessages.StepWhole | src/pmap.rs:480-523 | every step keeps each worker's key and message those of one error, with and without prefetch |
| PmapMessages.MessagesFollowKeys | src/pmap.rs:694-1187 | in every run a worker's key and message are those of one error, and the root's are exactly unless an undecodable reply was handled after a callback error of its own |
| PmapKeys.WorkerHoldsLeastKey | src/pmap.rs:441-523 | in every run a worker's key is the least of those of the errors it has sent: the index of a callback error, or the item count of a batch that did not decode |
| PmapKeys.CallbackErrorIsFirst | src/pmap.rs:441-523 | what a worker sends as a callback error in any run is its batch's first failing input |
| PmapKeys.RootHoldsLeastKey | src/pmap.rs:1062-1144 | in every run the root's key is the least of those of its own callback errors, each its batch's first failing input, and of the undecodable replies it handled, which count behind the whole input |
| PmapMixedRun.KeyAndMessageOfTwoErrors | src/pmap.rs:1137-1139 | a complete run of two ranks whose root returns the key of its callback error with the message of an undecodable reply |
| PmapFirstError.EvaluateReaches | src/local.rs:56-74 | every local mode runs the callback of the first failing input of a batch |
| PmapFirstError.ErrorsComeLater | src/scheduler.rs:578-588 | when some input has failed outside the queue, the first failing input has left the queue too |
| PmapFirstError.StepReaches | src/pmap.rs:677-1315 | while payloads decode, every step leaves the first failing input waiting somewhere or its callback run |
| PmapFirstError.RunReaches | src/pmap.rs:677-1315 | in a run in which every payload decodes, the first failing input is waiting until its callback has run |
| PmapTheorems.CoordinatorNeverFails | src/pmap.rs:1088-1187 | in every run no coordinator call by the root fails: no WrongLaneState, BatchMismatch or UnknownRank |
| PmapTheorems.AnswersAreAwaited | src/pmap.rs:694-780 | each channel to a worker holds at most one message, only while that worker is at its receive and has sent nothing unread |
| PmapTheorems.CalledAtMostOnce | src/pmap.rs:1031-1086 | in every run each item's callback runs at most once over all ranks |
| PmapTheorems.NeverDeadlocks | src/pmap.rs:1220-1306 | every reachable state is over or has an action that completes with rendezvous sends |
| PmapTheorems.RunsAreBounded | src/pmap.rs:911-1004 | no run is longer than 7 items + 6 ranks + 1 actions |
| PmapTheorems.OverIsMap | src/pmap.rs:1191-1314 | a finished run has failed exactly when some rank holds a key; otherwise its results are those of map and every callback ran |
| PmapTheorems.LocalsOwn | src/pmap.rs:548-617 | every key a rank holds was made for that rank, so the rank read off the selected key owns it |
| PmapTheorems.PmapRefinesMap | src/pmap.rs:1191-1436 | all ranks return together: the root the result of map and the others nothing, or every rank the lowest key of all ranks with the error held by the rank that made it; no rank aborts |
| PmapTheorems.ReportsOneError | src/pmap.rs:565-617 | the error every rank returns has key and message of one error, exactly unless the root won and handled an undecodable reply after a callback error of its own |
| PmapTheorems.CleanRunsAgreeWithMap | src/pmap.rs:1191-1436 | if every payload decodes, pmap does what map does: the same results, or on every rank the error of the index map stops at, key and message |
| PmapTheorems.LoopRunIsRun | src/pmap.rs:1220-1306 | every run of the blocking root loop is a run of the global system |
| Dedup.ExpireKeeps | crates/hataori-runtime/src/dedup.rs:266-287 | expiry removes exactly the expired records and gives back exactly their bytes |
| Dedup.BeginKeeps | crates/hataori-runtime/src/dedup.rs:63-142 | begin keeps the entry and byte limits, and the gap between counted and live bytes |
| Dedup.CancelKeeps | crates/hataori-runtime/src/dedup.rs:174-207 | cancel keeps the limits and the byte gap |
| Dedup.CompleteKeeps | crates/hataori-runtime/src/dedup.rs:209-264 | complete keeps the limits and the byte gap, whether or not the response fits |
| Dedup.ReleaseLeaks | crates/hataori-runtime/src/dedup.rs:144-172 | releasing a redirect keeps the limits but leaves the record's bytes counted |
| DedupRuns.BytesAreAccounted | crates/hataori-runtime/src/dedup.rs:63-292 | in every call sequence entries and bytes stay within limits, and the retained counter is exactly the live bytes plus what redirect releases leaked |
| DedupRuns.Fate | crates/hataori-runtime/src/dedup.rs:63-292 | what any call can do to a record: keep it, mark it cancelled, complete it, or remove it for one of three reasons |
| DedupRuns.NewTwiceIsSeparated | crates/hataori-runtime/src/dedup.rs:63-292 | two New answers for one request are separated by a clear, by the release of a Moved record, or by a completion at least the time to live ago |
| DedupRuns.RetainedIsReplayed | crates/hataori-runtime/src/dedup.rs:101-118 | a retained response that is not Moved is replayed unchanged to every duplicate within its time to live |
| DedupRuns.TombstoneRefuses | crates/hataori-runtime/src/dedup.rs:174-207 | a cancel that overtakes its request makes the request not new for the time to live |
| DedupAnswers.RunningUntilCompleted | crates/hataori-runtime/src/dedup.rs:63-264 | in every run a request is running from its New answer to its completion, and marked as cancelled exactly when a cancellation of it has come since |
| DedupAnswers.CancelMarks | crates/hataori-runtime/src/dedup.rs:174-196 | in every run a cancel that finds its request running marks it at every later position until it is completed or the table is cleared |
| DedupAnswers.WhileRunning | crates/hataori-runtime/src/dedup.rs:63-264 | what begin, cancel, complete and release are told about a running request, changed metadata and oversized replies included |
| DedupAnswers.WhileCompleted | crates/hataori-runtime/src/dedup.rs:87-264 | within the time to live of a completion a duplicate is told the recorded reply, or that it is gone, or after a redirect to wait; a second completion is refused; a release forgets exactly a redirect |
| DedupAnswers.TombstoneAnswers | crates/hataori-runtime/src/dedup.rs:120-206 | until its time to live is over a tombstone answers every request of its metadata as cancelled |
| DedupAnswers.FirstCall | crates/hataori-runtime/src/dedup.rs:63-264 | a request that nothing has named is new exactly when there is room, its cancel leaves a record exactly when there is room, its completion is refused |
| DedupAnswers.AgedIsNew | crates/hataori-runtime/src/dedup.rs:63-287 | after the time to live a completed request is new again exactly when there is room |
| DedupObject.DedupTable.Sweep | crates/hataori-runtime/src/dedup.rs:266-287 | updates the records and the byte counter in place exactly as specified, with every error branch |
| DedupObject.DedupTable.TryBegin | crates/hataori-runtime/src/dedup.rs:63-142 | updates the records and the byte counter in place exactly as specified, with every error branch |
| DedupObject.DedupTable.TryCancel | crates/hataori-runtime/src/dedup.rs:174-207 | updates the records and the byte counter in place exactly as specified, with every error branch |
| DedupObject.DedupTable.TryComplete | crates/hataori-runtime/src/dedup.rs:209-264 | updates the records and the byte counter in place exactly as specified, with every error branch |
| DedupObject.DedupTable.TryRelease | crates/hataori-runtime/src/dedup.rs:144-172 | updates the records and the byte counter in place exactly as specified, with every error branch |
| DedupObject.DedupTable.Clear | crates/hataori-runtime/src/dedup.rs:289-292 | updates the records and the byte counter in place exactly as specified, with every error branch |
| RemoteCallsProofs.SpawnStep | crates/hataori-runtime/src/runtime.rs:825-935 | issuing a call keeps the invariant: its id is fresh and its packet is proper |
| RemoteCallsProofs.RequestStep | crates/hataori-runtime/src/runtime.rs:2126-2226 | handling any copy of any request keeps the invariant, so the table reports no metadata error |
| RemoteCallsProofs.CancelStep | crates/hataori-runtime/src/runtime.rs:2059-2064 | handling any copy of a cancellation keeps the invariant, so the table reports no metadata error |
| RemoteCallsProofs.RunJobStep | crates/hataori-runtime/src/runtime.rs:2228-2301 | running a job keeps the invariant: the reply it queues is the handler's own output on the request's payload, or a cancellation |
| RemoteCallsProofs.DrainOneStep | crates/hataori-runtime/src/runtime.rs:2447-2484 | draining a response keeps the invariant, so recording it finds its request started and not completed |
| RemoteCallsProofs.ResolveStep | crates/hataori-runtime/src/runtime.rs:2303-2335 | handling any response keeps the invariant, so it matches the pending entry it resolves |
| RemoteCallsProofs.StepKeeps | crates/hataori-runtime/src/runtime.rs:2126-2334 | every step over the faulty network keeps the system invariant |
| RemoteCallsProofs.ResolvesAtMostOnce | crates/hataori-runtime/src/pending.rs:40-144 | in every run each call resolves at most once, and a success carries the handler's output on that call's own payload |
| RemoteCallsProofs.NoProtocolError | crates/hataori-runtime/src/runtime.rs:2447-2484 | in every run completion bookkeeping never reports a missing, double or changed request |
| RemoteCallsProofs.NeverRunsTwiceAtOnce | crates/hataori-runtime/src/runtime.rs:2126-2226 | a request has at most one job or unrecorded reply at any time |
| RemoteExecutions.StepMoves | crates/hataori-runtime/src/runtime.rs:2055-2334 | a step touches only its own locality, makes at most one call on the request table, and queues a job only after that call answered New |
| RemoteExecutions.KnownStays | crates/hataori-runtime/src/runtime.rs:2126-2301 | until its record expires or the node stops, a known request without a job gets none; an open record stays open or is completed, and a completed one stays as it is |
| RemoteExecutions.ExecutedAtMostOnce | crates/hataori-runtime/src/runtime.rs:2126-2334 | over the faulty network, with clocks that never go back, a callee runs a request a second time only after it recorded the completion of the first run at least the time to live ago |
| RemoteExecutions.ExecutedAtItsCallee | crates/hataori-runtime/src/runtime.rs:2126-2226 | a request runs only at the locality it was sent to |
| RemoteOutcomes.ReplyCompletes | crates/hataori-runtime/src/runtime.rs:2065-2334 | in every run a Success that finds its call pending completes it, once, with the handler's output on the call's own payload; each other reply completes it with its own error; a late reply changes nothing |
| RemoteOutcomes.StepExplained | crates/hataori-runtime/src/runtime.rs:2303-2530 | whatever one step completes is one call with the cause its outcome names, or a call its caller gave up, or every pending call at the runtime's end |
| RemoteOutcomes.EveryResultHasItsCause | crates/hataori-runtime/src/runtime.rs:2303-2530 | in every run each logged result was logged by the delivery of that success or error, by a timeout, or by the runtime's end |
| RemoteOutcomes.EveryCallIsAccountedFor | crates/hataori-runtime/src/pending.rs:40-180 | in every run each issued call is pending, or has a result, or was given up by its caller |
| RemoteCancels.NeverCompletedAsCancelled | crates/hataori-runtime/src/runtime.rs:593-617 | in every run a Cancelled reply finds its call no longer pending, and no promise is completed as cancelled |
| RemoteCancels.JobAnswers | crates/hataori-runtime/src/runtime.rs:2228-2301 | a job whose call was never cancelled queues the handler's own Success or Failure on the call's payload |
| RemoteCancels.CancelledJobReplies | crates/hataori-runtime/src/domain.rs:242-277 | in every run a job that waits from the delivery of its cancel to its own execution queues a Cancelled reply, never a Success or a handler Failure |
| RemoteProgress.RequestIsHandled | crates/hataori-runtime/src/runtime.rs:2126-2226 | what every copy of a request does in every run, by the record it finds: job, recorded refusal, nothing, or the recorded answer |
| RemoteProgress.CallCompletes | crates/hataori-runtime/src/runtime.rs:825-2484 | from any state of any run with two idle nodes, five more steps complete a call with exactly what the handler says about its payload |
| RemoteProgress.RefusedCallLeavesNothing | crates/hataori-runtime/src/runtime.rs:825-928 | a call that finds the pending table full, or that cannot be sent, leaves no trace but its number |
| RemoteProgress.ReplyIsSent | crates/hataori-runtime/src/runtime.rs:2447-2484 | the oldest reply is sent and, if it is the request's own, recorded with its payload if there is room; a send that fails for good stops the node |
| RemoteProgress.WithdrawalIsTold | crates/hataori-runtime/src/runtime.rs:593-617 | a withdrawn call is no longer pending, its callee is told with its own metadata, and a result is logged only for a timeout |
| RemoteProgress.OvertakenRequestIsRefused | crates/hataori-runtime/src/runtime.rs:2059-2064 | a cancel that overtakes its request and finds room keeps it from running for the time to live: the request is answered as cancelled |
| Controller.Cut | crates/hataori-algorithms/src/batch.rs:385-395 | the input is cut into batches in order that cover it exactly |
| Controller.StoreItemSettles | crates/hataori-algorithms/src/batch.rs:330-354 | storing one item settles its index and no other |
| Controller.SettledIsMap | crates/hataori-algorithms/src/batch.rs:357-371 | when every index is settled, the outputs are those of map, or the first error is the lowest failing index of all inputs with its text as a reply carries it |
| Controller.SwapRemoved | crates/hataori-algorithms/src/batch.rs:329-329 | swapping a ready slot out leaves exactly the other batches in flight |
| Controller.PmapFuture.Submit | crates/hataori-algorithms/src/batch.rs:300-317 | fills the window up to the in-flight limit, one submission per batch |
| Controller.PmapFuture.Store | crates/hataori-algorithms/src/batch.rs:327-354 | stores a reply, with texts cut or not; the invalid-index protocol error is never reached |
| Controller.PmapFuture.Scan | crates/hataori-algorithms/src/batch.rs:318-356 | polls every slot once, in whatever order the futures are ready |
| Controller.PmapFuture.Settle | crates/hataori-algorithms/src/batch.rs:327-354 | a ready batch leaves its slot and its reply is stored |
| Controller.PmapFuture.Advance | crates/hataori-algorithms/src/batch.rs:297-377 | a poll ends with the runtime's error exactly when the runtime refuses a batch or fails a future in it; otherwise it is pending exactly when a batch is still out, with a full window, after a turn in which no polled future was ready, and else ends with the result of map; it is not pending when every batch is accepted and every future ready |
| NestedCodec.EncodeNested | crates/hataori-algorithms/src/batch.rs:63-81 | the growing header and segment list are the frame of the encoded values |
| NestedCodec.DecodeNested | crates/hataori-algorithms/src/batch.rs:82-129 | the cursor, the length loops and the segment iterator compute the specified decoding, with each error |
| NestedCodec.FramesAreAccepted | crates/hataori-algorithms/src/batch.rs:82-129 | every frame of decodable groups is accepted with their values |
| NestedCodec.OnlyFramesAreAccepted | crates/hataori-algorithms/src/batch.rs:82-129 | nothing else is accepted: no missing, extra or mismatched length passes |
| NestedCodec.ListRoundTrip | crates/hataori-algorithms/src/batch.rs:63-129 | lists of values whose own codec round-trips round-trip, prefix and segment boundaries included |
| NestedCodec.ListsAreCanonical | crates/hataori-algorithms/src/batch.rs:63-129 | what decodes is the encoding of the decoded values, when the values' codec is canonical |
| BatchCodec.ActionRoundTrip | crates/hataori-algorithms/src/batch.rs:130-158 | a batch round-trips with start, mode and items |
| BatchCodec.ActionsAreCanonical | crates/hataori-algorithms/src/batch.rs:130-158 | a batch that decodes is the encoding of what it decodes to |
| BatchCodec.ReplyRoundTrip | crates/hataori-algorithms/src/batch.rs:159-201 | a reply arrives with its texts cut, and round-trips exactly when every error text fits 4096 bytes |
| BatchCodec.RepliesAreCanonical | crates/hataori-algorithms/src/batch.rs:159-231 | a reply that decodes is the encoding of what it decodes to |
| CodecErrors.EncodingIsAnswered | crates/hataori-algorithms/src/batch.rs:63-81 | a list is encoded exactly when it is not too long and all its values encode; otherwise the error is its length or that of the first value that does not |
| CodecErrors.CutHeaderIsTruncated | crates/hataori-algorithms/src/batch.rs:82-129 | an accepted header cut short anywhere is refused as truncated |
| CodecErrors.ExtraPartsAreRefused | crates/hataori-algorithms/src/batch.rs:82-129 | a header that goes on, and a frame with a segment too few or too many, are refused as such |
| CodecErrors.WrongGroupsAreRefused | crates/hataori-algorithms/src/batch.rs:82-129 | the first group whose lengths are not those announced, or that does not decode, gives the error |
| CodecErrors.TooManyValuesAreRefused | crates/hataori-algorithms/src/batch.rs:82-129 | a header that announces too many values is refused before its shapes are read |
| CodecErrors.ActionHeaderIsChecked | crates/hataori-algorithms/src/batch.rs:136-158 | each fault in the fixed part of a batch has its error |
| CodecErrors.ItemIsChecked | crates/hataori-algorithms/src/batch.rs:205-231 | an item of a reply is a tag with a value or a bounded text, and each fault has its error |
| Replies.RepliesSayWhatTheHandlerSaid | crates/hataori-algorithms/src/batch.rs:159-277 | the registered handler's reply, sent through the codec, is what the controller expects of a batch run elsewhere |
| Texts.ShortenedIsLongestFit | crates/hataori-algorithms/src/batch.rs:168-173 | the bounded text is the first prefix that fits when counting down, and the text itself exactly when it fits |
| ObjectRuns.CollectKeeps | crates/hataori-runtime/src/object.rs:1856-1915 | collection keeps all accounts: no removed object has a job outstanding |
| ObjectRuns.ExpireOneKeeps | crates/hataori-runtime/src/object.rs:1791-1854 | expiry keeps all accounts, transfers included |
| ObjectRuns.AdmitKeeps | crates/hataori-runtime/src/object.rs:1171-1310 | admission counts a job exactly when it hands it out |
| ObjectRuns.CompleteKeeps | crates/hataori-runtime/src/object.rs:1312-1329 | completion finds its object and its count; no subtraction saturates |
| ObjectRuns.RetryKeeps | crates/hataori-runtime/src/object.rs:1335-1379 | restarted waiting calls are counted once each |
| ObjectRuns.StepKeeps | crates/hataori-runtime/src/object.rs:1567-1930 | every operation keeps the accounts: in_flight = readers + writer + tickets = jobs handed out; roots, tickets and transfers counted exactly and within limits |
| Leases.EveryRunKeepsAccounts | crates/hataori-runtime/src/object.rs:1567-1930 | the accounts are exact in every run |
| Leases.DroppedExactly | crates/hataori-runtime/src/object.rs:1830-1840 | a lease is dropped exactly when it has been suspect for the whole grace period |
| Leases.RenewedLeaseProtects | crates/hataori-runtime/src/object.rs:1680-1915 | an object with a lease renewed less than lease_ttl + lease_grace apart, and never released, is never collected by any run of the other operations |
| Leases.UnrenewedIsCollected | crates/hataori-runtime/src/object.rs:1791-1915 | the bound is sharp: two expiry calls, at the end of the lease and one grace later, collect an idle unheld object |
| Leases.WriterBesideReaders | crates/hataori-runtime/src/object.rs:1346-1376 | retry_ready runs a writer beside readers exactly when the writer waits right behind the readers it starts |
| Leases.WriterBesideReaderRun | crates/hataori-runtime/src/object.rs:1346-1376 | a run from the empty service that ends with the writer running beside the reader |
| Admission.StepKeepsApart | crates/hataori-runtime/src/object.rs:1171-1427 | every operation but a retry keeps readers and the writer of each object apart |
| Admission.RetryKeepsApart | crates/hataori-runtime/src/object.rs:1335-1379 | a retry keeps them apart unless the writer it starts waits right behind readers it starts |
| Admission.ReadersAndWriterApart | crates/hataori-runtime/src/object.rs:1171-1427 | in every run without retries no object has a writer and a reader, or two writers, out at once |
| Admission.OneWriter | crates/hataori-runtime/src/object.rs:1171-1427 | in every run, retries included, no object has two writers out at once |
| Admission.CallIsAnswered | crates/hataori-runtime/src/object.rs:1171-1310 | in every run a call runs exactly when its domain is free, nothing waits and nothing it conflicts with is out; otherwise it waits last while there is room |
| Admission.LocalCallIsAnswered | crates/hataori-runtime/src/object.rs:1381-1426 | a local call runs exactly when nothing waits and nothing it conflicts with is out, and never waits |
| Admission.FreezeIsAnswered | crates/hataori-runtime/src/object.rs:1207-1309 | a freeze marks its object even when it waits or is refused, and runs exactly when nothing waits and no job of the object is out |
| Admission.PlacementIsAnswered | crates/hataori-runtime/src/object.rs:1248-1277 | a placement never waits: it runs exactly when its object is here, its domain is free and there are tickets left |
| Admission.RetryStartsTheFront | crates/hataori-runtime/src/object.rs:1335-1379 | in every run a retry starts the front of the queue in order, or nothing while a reader or a writer of the object is out |
| Lifetimes.GrantsAndRenewals | crates/hataori-runtime/src/object.rs:1735-1779 | when a lease is granted or renewed, and that it then runs for the whole time to live |
| Lifetimes.InsertionIsHeld | crates/hataori-runtime/src/object.rs:1567-1631 | an object is inserted exactly when there is room for it and its root and its name is new, and is then held by its creator |
| Lifetimes.ReleaseUndoesInsertion | crates/hataori-runtime/src/object.rs:1781-1789 | the release of the creator's lease leaves the service as it was before the insertion of an unrooted object |
| Lifetimes.RootOutlivesRelease | crates/hataori-runtime/src/object.rs:1753-1766 | a rooted object outlives that release and goes with its root |
| Lifetimes.TransferIsSettled | crates/hataori-runtime/src/object.rs:1680-1733 | when a transfer begins, that its acknowledgement leaves the lease alone, and that a release undoes it |
| Lifetimes.CollectedExactly | crates/hataori-runtime/src/object.rs:1856-1915 | in every run, when an object is removed, when it is retired, and that collection changes nothing else |
| Lifetimes.FreezeWearsOff | crates/hataori-runtime/src/object.rs:1796-1810 | a freeze mark lasts exactly for the forwarding time to live |
| Lifetimes.PreparedWearsOff | crates/hataori-runtime/src/object.rs:1804-1829 | a prepared copy whose migration does not commit stays until its time is over and goes with the first expiry call from then on |
| Lifetimes.AddressWearsOff | crates/hataori-runtime/src/object.rs:1804-1829 | away from the authority an unused forwarding address goes when its time is over; the authority keeps its own |
| Lifetimes.PreparedCopyLapses | crates/hataori-runtime/src/object.rs:1811-1829 | a prepared copy beside an object lapses exactly when its time is over |
| Lifetimes.StrangersChangeNothing | crates/hataori-runtime/src/object.rs:1721-1789 | an acknowledgement without transfer, a release by a stranger and a release of no root change nothing by themselves |
| Lifetimes.TransfersLapseWithLeases | crates/hataori-runtime/src/object.rs:1840-1853 | expiry ends exactly the transfers to localities whose lease has lapsed |
| ObjectTables.ObjectService.TryCollect | crates/hataori-runtime/src/object.rs:1856-1915 | updates the tables and counters in place exactly as specified |
| ObjectTables.ObjectService.TryInsert | crates/hataori-runtime/src/object.rs:1567-1634 | updates the tables and counters in place exactly as specified |
| ObjectTables.ObjectService.TryAcquire | crates/hataori-runtime/src/object.rs:1735-1751 | updates the tables and counters in place exactly as specified |
| ObjectTables.ObjectService.TryRenew | crates/hataori-runtime/src/object.rs:1768-1779 | updates the tables and counters in place exactly as specified |
| ObjectTables.ObjectService.TryAckTransfer | crates/hataori-runtime/src/object.rs:1721-1733 | updates the tables and counters in place exactly as specified |
| ObjectTables.ObjectService.TryRelease | crates/hataori-runtime/src/object.rs:1781-1789 | updates the tables and counters in place exactly as specified |
| ObjectTables.ObjectService.TryReleaseRoot | crates/hataori-runtime/src/object.rs:1753-1766 | updates the tables and counters in place exactly as specified |
| ObjectTables.ObjectService.TryBeginTransfer | crates/hataori-runtime/src/object.rs:1680-1719 | updates the tables and counters in place exactly as specified |
| ObjectTables.ObjectService.ExpireObject | crates/hataori-runtime/src/object.rs:1796-1853 | updates the tables and counters in place exactly as specified |
| ObjectTables.ObjectService.ExpireAll | crates/hataori-runtime/src/object.rs:1791-1854 | updates the tables and counters in place exactly as specified |
| ObjectTables.ObjectService.TryAdmit | crates/hataori-runtime/src/object.rs:1171-1310 | updates the tables and counters in place exactly as specified |
| ObjectTables.ObjectService.TryComplete | crates/hataori-runtime/src/object.rs:1312-1329 | updates the tables and counters in place exactly as specified |
| ObjectTables.ObjectService.TryRetry | crates/hataori-runtime/src/object.rs:1335-1379 | updates the tables and counters in place exactly as specified |
| ProtocolProofs.ParcelRoundTrip | crates/hataori-runtime-foundation/src/protocol.rs:504-628 | every parcel that encodes decodes back, from a frame of exactly encoded_len bytes within the frame limit |
| ProtocolProofs.FramesAreCanonical | crates/hataori-runtime-foundation/src/protocol.rs:547-628 | every byte string that decodes re-encodes to itself |
| ProtocolProofs.DecodedIsValid | crates/hataori-runtime-foundation/src/protocol.rs:626-627 | the decoder's last validation never fails |
| ProtocolProofs.NegotiatedSuitsBoth | crates/hataori-runtime-foundation/src/protocol.rs:231-262 | two valid sides always agree, symmetrically, and the agreed limits admit exactly the parcels both sides admit |
| ProtocolProofs.NegotiatedIsSmallest | crates/hataori-runtime-foundation/src/protocol.rs:231-262 | limits are agreed exactly when both sides are valid, and are the smaller of each |
| ProtocolErrors.CutFramesAreRefused | crates/hataori-runtime-foundation/src/protocol.rs:547-671 | a frame cut short anywhere is refused for its length, so no frame is the front of another |
| ProtocolErrors.TrailingBytesAreRefused | crates/hataori-runtime-foundation/src/protocol.rs:547-628 | what goes on behind a frame is refused |
| ProtocolErrors.HeaderIsChecked | crates/hataori-runtime-foundation/src/protocol.rs:547-600 | the decoder refuses the first field at its fixed offset that cannot be, and otherwise reads the body under the envelope found there |
| ProtocolErrors.LimitsComeFirst | crates/hataori-runtime-foundation/src/protocol.rs:504-560 | wrong limits and overlong frames are refused whatever the bytes are, and each encoding error has its reason |
| ProtocolErrors.BodyIsChecked | crates/hataori-runtime-foundation/src/protocol.rs:600-628 | the declared lengths are checked against the limits before any segment is read |
| ProtocolReader.EncodeParcel | crates/hataori-runtime-foundation/src/protocol.rs:504-545 | the appended buffer is the specified frame |
| ProtocolReader.DecodeParcel | crates/hataori-runtime-foundation/src/protocol.rs:547-628 | the advancing reader computes the specified decoding, with each error |
| ProtocolReader.Reader.TakeBytes | crates/hataori-runtime-foundation/src/protocol.rs:656-671 | take moves the offset past the bytes it returns, or fails without moving |
| Chunks.AcceptKeeps | crates/hataori-runtime-foundation/src/mpi.rs:552-643 | whatever chunk arrives: retained bytes are whole chunks, fewer than the frame and within the frame limit; both length checks after the append are unreachable; a refused chunk leaves the slot unchanged |
| Chunks.AcceptNext | crates/hataori-runtime-foundation/src/mpi.rs:503-530 | the next chunk of a frame advances the slot by one chunk, or completes the parcel and empties it |
| Chunks.FeedFrame | crates/hataori-runtime-foundation/src/mpi.rs:503-643 | the remaining chunks of a frame deliver its parcel before anything that follows |
| Chunks.ReassemblyReturnsWhatWasSent | crates/hataori-runtime-foundation/src/mpi.rs:474-643 | the chunks of any list of parcels, in order, give back exactly those parcels and leave the slot empty |
| ChunkOrigins.OnlyFramesAreReassembled | crates/hataori-runtime-foundation/src/mpi.rs:552-643 | whatever chunks are fed without an error are exactly the chunks of whole frames that decode to the parcels handed out, followed by those still held |
| ChunkOrigins.ChunkIsAnswered | crates/hataori-runtime-foundation/src/mpi.rs:552-643 | each chunk is refused for its own reason, and every other chunk is accepted |
| Chunks.Outbound.NextChunk | crates/hataori-runtime-foundation/src/mpi.rs:503-530 | the sender emits the chunks of its frame in order |
| Chunks.Outbound.Complete | crates/hataori-runtime-foundation/src/mpi.rs:532-535 | the sender is complete exactly when every chunk has left |
| Chunks.Inbound.AcceptChunk | crates/hataori-runtime-foundation/src/mpi.rs:552-643 | updates the slot in place exactly as specified, with each error |
| Streams.DrainSplits | crates/hataori-runtime-foundation/src/tcp.rs:612-655 | draining a buffer that holds the front of a stream emits the next parcels and stops only without room or without a whole frame |
| Streams.ParseReturnsWhatWasSent | crates/hataori-runtime-foundation/src/tcp.rs:516-655 | the parse of a whole stream is the parcels it was made from |
| Streams.WriteMoves | crates/hataori-runtime-foundation/src/tcp.rs:545-571 | a partial write moves bytes to the wire without changing their sequence |
| Streams.ReadKeeps | crates/hataori-runtime-foundation/src/tcp.rs:580-657 | a read within the retained bound emits the next parcels in order and never fails |
| Streams.EveryRunDelivers | crates/hataori-runtime-foundation/src/tcp.rs:516-657 | for every split of writes and reads and every event limit, emitted parcels followed by the parse of all bytes still held are what was sent |
| Streams.LastDrainEmitsAll | crates/hataori-runtime-foundation/src/tcp.rs:612-655 | once all bytes have arrived, one drain with room emits everything |
| StreamOrigins.OnlyFramesAreEmitted | crates/hataori-runtime-foundation/src/tcp.rs:612-655 | whatever the buffer holds, what is drained are the frames at its front, each decoding to the parcel emitted for it, up to the reason given for stopping |
| StreamOrigins.OverrunIsRefused | crates/hataori-runtime-foundation/src/tcp.rs:580-611 | a read fails for its size exactly when the buffer would hold more than one longest frame, and the buffer then stays as it was |
| Streams.ParcelsAreGood | crates/hataori-runtime-foundation/src/tcp.rs:516-544 | the frames of valid parcels decode at a side with the same limits |
| Streams.StreamIo.ServiceWrite | crates/hataori-runtime-foundation/src/tcp.rs:545-571 | advances the front frame in place and pops it when it is written |
| Streams.StreamIo.DrainLoop | crates/hataori-runtime-foundation/src/tcp.rs:612-655 | drains the buffer in place exactly as specified, with each error |
| Transport.ReserveKeeps | crates/hataori-runtime-foundation/src/transport.rs:178-225 | reserve keeps bytes per peer and counts per slot equal to the sums over what is outstanding, within limits |
| Transport.StepKeeps | crates/hataori-runtime-foundation/src/transport.rs:178-312 | reserve, commit, permit drop, release and close keep the accounts exact |
| Transport.EveryRunKeepsAccounts | crates/hataori-runtime-foundation/src/transport.rs:178-312 | the accounts are exact in every run, and non-control bytes never use the control reserve |
| Transport.EveryStepIsHeld | crates/hataori-runtime-foundation/src/transport.rs:233-313 | no commit, drop or release in a run refers to a grant that is not held |
| Transport.ControlIsAccepted | crates/hataori-runtime-foundation/src/transport.rs:189-209 | an open peer with a free control slot accepts every control parcel that keeps control bytes within the reserve |
| Transport.IdleIsZero | crates/hataori-runtime-foundation/src/transport.rs:233-237 | with nothing outstanding every counter is back at zero |
| TransportAnswers.ReservationIsAnswered | crates/hataori-runtime-foundation/src/transport.rs:178-225 | in every run a reservation is refused exactly when the transport is closed, the slot is full, the peer's bytes leave no room or the tickets have run out, in this order; a refusal changes nothing |
| TransportAnswers.DropUndoesReserve | crates/hataori-runtime-foundation/src/transport.rs:307-313 | a dropped permit leaves the transport as before its reservation, but for the ticket |
| TransportAnswers.ReleaseUndoesCommit | crates/hataori-runtime-foundation/src/transport.rs:233-304 | a committed and released submission leaves the counters as before and is counted as submitted |
| TransportAnswers.SubmissionsAreCommits | crates/hataori-runtime-foundation/src/transport.rs:297-304 | in every run the statistics count exactly the committed permits and their bytes |
| TransportAnswers.ClosedForGood | crates/hataori-runtime-foundation/src/transport.rs:178-188 | once closed, a transport stays closed and grants nothing |
| Transport.SubmissionState.TryReserve | crates/hataori-runtime-foundation/src/transport.rs:178-225 | raises the counters and takes them back on each refusal, as specified |
| Transport.SubmissionState.Commit | crates/hataori-runtime-foundation/src/transport.rs:297-304 | commits: the reservation stays |
| Transport.SubmissionState.DropPermit | crates/hataori-runtime-foundation/src/transport.rs:307-313 | drops: the reservation is given back |
| Transport.SubmissionState.Return | crates/hataori-runtime-foundation/src/transport.rs:233-237 | release gives back bytes and slot |
| MemoryRuns.SendKeeps | crates/hataori-runtime-foundation/src/memory.rs:88-172 | every fault case of try_send keeps bytes, counts, limits and the fate of every copy exact |
| MemoryProofs.ReleaseKeeps | crates/hataori-runtime-foundation/src/memory.rs:404-421 | releasing due copies keeps all accounts; no subtraction goes below zero |
| MemoryRuns.CancelKeeps | crates/hataori-runtime-foundation/src/memory.rs:387-402 | cancelling a locality gives back exactly what the others hold for it, and leaves nothing from or to it |
| MemoryProofs.PopManyOk | crates/hataori-runtime-foundation/src/memory.rs:207-241 | progress delivers exactly the copies it hands out, at most the room given |
| MemoryRuns.ShutdownKeeps | crates/hataori-runtime-foundation/src/memory.rs:264-279 | after a shutdown everything the node had accepted was delivered or dropped |
| MemoryRuns.StepKeeps | crates/hataori-runtime-foundation/src/memory.rs:88-279 | every operation keeps the network's accounts |
| MemoryRuns.After | crates/hataori-runtime-foundation/src/memory.rs:88-476 | in every reachable state queued_bytes equals incoming plus delayed bytes, delayed counts match the delayed list, the limits hold, and each accepted copy is in exactly one place |
| MemoryRuns.EveryReachableState | crates/hataori-runtime-foundation/src/memory.rs:88-476 | the same for every state a new network reaches, whatever faults are injected |
| MemoryRuns.DeliveredAtMostTwice | crates/hataori-runtime-foundation/src/memory.rs:117-164 | a parcel is delivered only at its destination, and at most twice |
| MemoryRuns.DeliveredWasAccepted | crates/hataori-runtime-foundation/src/memory.rs:207-241 | no copy is delivered that was not accepted, or more often |
| MemoryOrder.SendIsAnswered | crates/hataori-runtime-foundation/src/memory.rs:88-172 | a parcel is accepted exactly when its sender is active with room for the notice, its destination exists, no saturation is drawn for it, and its copies fit what is really queued and delayed; when tickets and faults are used up |
| MemoryOrder.TakesInOrder | crates/hataori-runtime-foundation/src/memory.rs:207-241 | one call hands out as much as it has room for: system events, then control, action and bulk parcels, each queue from its front |
| MemoryOrder.HandedOutLeavesTheLines | crates/hataori-runtime-foundation/src/memory.rs:207-241 | what one call hands out is what leaves the three lines of its node |
| MemoryOrder.StepMovesLine | crates/hataori-runtime-foundation/src/memory.rs:88-421 | whatever the faults, what is handed out leaves the front of its line and joining copies its end; a reordered parcel alone goes before what is queued |
| MemoryOrder.FirstInFirstOut | crates/hataori-runtime-foundation/src/memory.rs:88-421 | in every run without reordered parcels, what a node is handed on a channel, followed by what is queued, is what joined the line, in that order |
| MemoryOrder.DeliveredInOrder | crates/hataori-runtime-foundation/src/memory.rs:88-421 | in every run that reorders and delays nothing, the copies handed out and then those queued, for each node and channel, have nondecreasing tickets |
| MemoryOrder.DeliveredAsSent | crates/hataori-runtime-foundation/src/memory.rs:88-421 | when moreover nothing is duplicated, they are exactly the accepted parcels that were not lost, in the order of sending |
| MemoryOrder.StepDelays | crates/hataori-runtime-foundation/src/memory.rs:134-147 | a delayed parcel waits for at least one tick and for as many as its fault says |
| MemoryOrder.DeactivationStopsTraffic | crates/hataori-runtime-foundation/src/memory.rs:264-279 | from the start of its shutdown a node sends nothing, and what is sent to it is refused unless it is lost anyway |
| MemoryOrder.ShutDownStaysEmpty | crates/hataori-runtime-foundation/src/memory.rs:264-279 | a node that is shut down holds nothing and is handed nothing in every run that follows |
| MemoryObject.ReleaseDue | crates/hataori-runtime-foundation/src/memory.rs:404-421 | the loop computes the specified release, keeping order |
| MemoryObject.CancelDelayed | crates/hataori-runtime-foundation/src/memory.rs:387-402 | the loop computes the specified cancellation |
| MemoryObject.TakeEvents | crates/hataori-runtime-foundation/src/memory.rs:220-235 | the loop hands out system events first, then channels in order |
| MemoryObject.Network.TrySend | crates/hataori-runtime-foundation/src/memory.rs:88-172 | updates the shared state in place exactly as specified |
| MemoryObject.Network.Deliver | crates/hataori-runtime-foundation/src/memory.rs:207-241 | one progress call in place |
| MemoryObject.Network.FinishShutdown | crates/hataori-runtime-foundation/src/memory.rs:264-279 | the last part of shutdown in place |
| Wire.HeaderRoundTrip | src/wire.rs:118-175 | a header made by new decodes back from its 28 bytes |
| Wire.HeadersAreCanonical | src/wire.rs:148-175 | the only bytes that decode to a header are its encoding |
| Placement.ConvergeExact | src/placement.rs:130-181 | every rank gets the failure of the lowest failing rank, or nothing when nobody failed; no abort branch is taken |
| Placement.WinnerIsLowest | src/placement.rs:130-137 | the reduction picks the lowest failing rank |
| Placement.ThenExact | src/placement.rs:130-181 | convergence is a common decision: no rank goes on while another returns |
| Placement.FramesArrive | src/placement.rs:239-299 | a sent frame fails at the receiver only when its payload does not decode there |
| Placement.PreflightExact | src/placement.rs:183-233 | preflight passes exactly when all ranks call the same operation and root, in range, with inputs of the right shape on the main thread |
| Collectives.PreencodeScatter | src/placement.rs:301-324 | the loop encodes every shard but the root's and records the first failure |
| Collectives.CollectAtRoot | src/placement.rs:507-521 | the loop gathers in rank order and records the first failure |
| Collectives.FromRootExact | src/placement.rs:331-466 | broadcast and scatter give every rank what the reference says |
| Collectives.ToRootExact | src/placement.rs:473-547 | gather gives every rank what the reference says |
| Collectives.RunExact | src/placement.rs:183-547 | for all calls of all ranks: mismatched calls fail everywhere with the lowest offending rank's error, matching calls give the reference result |
| Collectives.RanksNeverDisagree | src/placement.rs:301-547 | on any mix of failures no rank hangs or aborts, and all succeed or all return the same error |
| Collectives.ScatterGivesShards | src/placement.rs:404-466 | on success rank r gets shard r |
| Collectives.BroadcastGivesValue | src/placement.rs:331-397 | on success every rank gets the root's value |
| Collectives.GatherUndoesScatter | src/placement.rs:404-547 | gathering what was scattered gives back the root's list |
| CollectiveErrors.OnlySentFramesArrive | src/placement.rs:239-299 | only a frame sent for the same operation is received, and each refusal has its kind |
| CollectiveErrors.MismatchIsNamed | src/placement.rs:183-233 | calls that do not match: everybody is told what is wrong with the call of the lowest rank that makes a wrong one |
| CollectiveErrors.ScatterComes | src/placement.rs:404-466 | a scatter succeeds exactly when every payload encodes and decodes; otherwise whose failure everybody is told |
| CollectiveErrors.BroadcastComes | src/placement.rs:331-397 | the same for a broadcast |
| CollectiveErrors.GatherComes | src/placement.rs:473-547 | a gather succeeds exactly when every payload encodes and then decodes at the root; otherwise whose failure everybody is told |

## Left out

- Real MPI, sockets, rendezvous, thread pools and CPU pinning: only ordered channels, byte sequences and free choices of readiness remain.
- Panics, aborts inside callbacks, and allocation failure, for instance of the capacity a batch header asks for.
- In `Pmap` a frame's header and payload are one message, encoding succeeds, batch ids do not overflow, and error keys are assumed to fit; the last is what `Config.Valid` says.
- In `Pmap` callbacks count as run when their outcome is collected, so the order in which a thread pool runs them is not captured.
- The polling root loop with a thread pool is covered as the unconstrained step system; only the blocking loop has its control flow modelled.
- The texts of wire errors in collective `pmap`: an error is its kind with the callback or the payload it comes from.
- In `RemoteCalls` the clock of each step (in `RemoteExecutions` no locality's clock goes back), the room in the response queue and the outcome of every send are free choices; calls to the own locality, object calls and redirects are not modelled; a node whose runtime has failed stays stopped, where the source can still shut it down in order.
- The category that the caller gives to the text of a Failure reply: the outcome carries the text itself.
- PendingTable's limit and the waker of a promise.
- Object migration: it appears as a free change of lifecycle, location, state and prepared copy; a migration that starts while its object is being retired is not modelled.
- Object admission leaves out the checks of type and epoch, which appear as one flag, and the payload of a job.
- The resolver cache and its bound.
- The deadline and the placement of `PmapFuture` batches; what the runtime says to each submission and each polled future is an arbitrary function, fixed before the run.
- Hello records: their fixed 142 bytes add no construction that parcels do not have.
- UTF-8 itself: a text and its bytes are related by a parameter that round-trips.
- NewFailure: bounds its text by popping characters, where the source cuts back to a character boundary; the two keep the same prefix because every character adds bytes.
- Saturation of the tick counter and the overflow of tickets of the in-memory network.
- Checks of run id and source on each parcel of the in-memory network and of an MPI peer; in `Streams` they are a parameter.
- Memory-order effects of atomics: every locked operation is one step.
- A TCP peer whose local limits differ from the other side's.
- Statistics counters, except those of committed submissions, and all Debug and Display text.
- Registry fingerprints, the tenferro adapter, examples, benchmarks and scripts.
