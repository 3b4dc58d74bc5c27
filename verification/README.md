# The pipelined producer, verified

A Dafny model of the buffer producer: callers append messages, a rotator seals them into
numbered batches, encoders and uploaders finish the batches in any order, one committer puts the
numbers back in order and appends them in groups to a manifest shared with other producers by
compare-and-swap, and a resolver settles the callers' watchers and returns the budget.

`dafny verify dfyconfig.toml` checks the whole project.

## How it is built

Three layers that meet in the same functions.

1. **Bytes.** The batch format and the manifest format as functions on byte sequences (`Batch.dfy`,
   `Manifest.dfy`), the code's loops as methods proved equal to them, and the in-memory manifest as
   a class that refines a list of entries (`ManifestLog.dfy`). `Formats.dfy` writes both formats out
   byte by byte.
2. **Store and compare-and-swap.** The versioned store as a class (`Store.dfy`) and the read,
   append, conditional-write loop against rival writers (`Enqueue.dfy`).
3. **The pipeline.** The accumulator, the budget and the committer as classes with the code's loops
   (`Accumulator.dfy`, `Budget.dfy`, `Committer.dfy`), and one producer as a state machine with one
   action per atomic step of one goroutine (`Pipeline.dfy`). It uses the same functions the classes
   are proved against. Store faults, timers, cancellation and scheduling are free choices of the
   action. `System.dfy` puts any number of producers on one store.

The invariant is proved part by part (`JobsInv`, `FlowInv`, `GatesInv`, `MessagesInv`, `LedgerInv`,
`FlushInv`, `WorldInv`, `BlocksInv`), joined in `ProducerInv.dfy` for what is local to a producer and
in `SharedInv.dfy` for what it may say of the shared store, where a step of one producer is shown to
keep what every other relies on. `Fates.dfy` follows one batch through every step and `FlushRuns.dfy`
one Flush; `Turns.dfy` shows that the machine's committer takes the turns of the committer class, and
`Wakeups.dfy` runs the machine together with the goroutines asleep in its budget. The theorems about
whole runs are in `Durability.dfy`, `Verdicts.dfy`, `Flushes.dfy`, `History.dfy`, `EveryRun.dfy`,
`Closing.dfy`, `Measure.dfy`, `Quiescence.dfy`, `Attempts.dfy` (what is tried how often),
`Admission.dfy` (who waits for what) and `Order.dfy` (who is told first); four runs are written out in `Examples.dfy` and
`FlushExamples.dfy`. A run is a list of events, each one step of one producer, from a start in which the
store may already hold a manifest.

State that no step reads is kept for stating properties: the messages accepted so far (a message's
position is the number of its watcher), the batch each went into, the batches sealed and released, the
largest reservation, and the list of manifest writes that took effect.

## Assumptions

- `int` is 64 bits wide.
- An encoded manifest entry and the record count and start indices of a batch fit 32 bits. The code does
  not check this; it is the guard `Representable` of sealing a batch. `BatchRoundTrip` and
  `EntryRoundTripIff` show that the formats need exactly this.
- Callers have stopped appending when Close closes the append channel.
- Only producers write the manifest path, and nobody deletes it (`DeleteRestartsVersions` shows why).
- Runs have different IDs, a run and an ordinal name one data object, and no data object is the manifest.
- zstd decompresses what it compressed.

## Where comments and code differ

The model follows the code.

- A batch that cannot be encoded is reported through the committer (buffer/producer.go:651-681); the comment
  at buffer/producer.go:616-621 says the encoder resolves it.
- When the committer halts, the failed uploads of the group in hand keep their own errors
  (buffer/producer.go:1024-1026); the comment at buffer/producer.go:1012-1018 promises the halt error.
  `HaltedGroupInEveryRun` states which batch of the group is told what.
- The comment at buffer/producer.go:1110-1113 speaks of holes left in `ready` when the channel is closed;
  `NoHoles` shows that there are none.
- A batch dropped on shutdown has its watchers resolved by the rotator, which goes on (buffer/producer.go:456-470); the
  comment at buffer/producer.go:449-455 says the resolver does it and the rotator exits.

## Model

| member | source | states |
|---|---|---|
| `Durability.DurableForever` | buffer/producer.go:863-1150 | In every run of any number of producers with any store faults: once a watcher is nil it stays nil in every continuation, and its message can be read back from the stored bytes alone: a decoded manifest entry names the data object of the message's own batch, that object is the batch's entries in the configured compression and decodes to them, and the message's entries, metadata payload and time are at its own range there |
| `Durability.NilIsReadable` | buffer/producer.go:1127-1150 | In a state of the invariant, a nil watcher's message is readable at its own place in its own batch |
| `Durability.OwnPlace` | buffer/producer.go:691 | No two messages, of one producer or of two, are readable at the same data object and range |
| `Durability.RunRemembers` | buffer/producer.go:50-59 | Over every run, watchers keep their first outcome and accepted messages their numbers |
| `EveryRun.ExactlyOnce` | buffer/producer.go:1127-1150 | In every run a watcher is settled at most once, and exactly once for each accepted message by the time the committer has exited and the resolver is idle |
| `Verdicts.OutcomeInEveryRun` | buffer/producer.go:622-1150 | Every outcome and its cause, in every run: a resolved message was told nil exactly when a reported manifest write of a group carrying its batch took effect; the halt error exactly when its group failed the last attempt or a halted committer turned the batch away; a storage, encoding or shutdown error exactly when that ended its upload, or shutdown cancelled its group; the encoding error is the one the configured compression gives for its entries, and an uploaded batch could be encoded |
| `Verdicts.DroppedInEveryRun` | buffer/producer.go:456-470 | A message ends without a batch exactly when a rotator parked for a slot saw the shutdown with the message in its accumulator, and is then told of the shutdown |
| `Verdicts.HaltedGroupInEveryRun` | buffer/producer.go:1019-1032 | When a producer halts with a group in hand, in every continuation the messages of a batch of that group are told of the halt exactly if its upload had succeeded, and of its own error otherwise |
| `Verdicts.NoHaltBelowCommit` | buffer/producer.go:956-1045 | Once a batch was told nil, no message of an earlier batch is told of a halt |
| `Order.NilInOrder` | buffer/producer.go:1033-1150 | In every run nil outcomes are handed out in ordinal order: when a message is about to be told nil, every message told nil before is in the same batch or an earlier one |
| `Fates.StepTracks` | buffer/producer.go:622-1150 | Every step keeps every batch's work, its verdict and its watchers in agreement with the steps that ended its upload and its commit |
| `Fates.CommitClearsBelow` | buffer/producer.go:966-1043 | The step that commits a batch leaves every smaller ordinal decided, none by a halt |
| `Flushes.FlushCovers` | buffer/producer.go:1266-1293 | A Flush past both waits: every message accepted before the call is resolved; its batch, if any, was sealed for it, each such message was dropped or is in that batch or an earlier one, and the answer is what the messages of that batch were told |
| `Flushes.FlushCoversTheCall` | buffer/producer.go:1266-1293 | For a call of Flush in any reachable state and whatever follows: when it has returned, every message accepted before the call is resolved and lies in its batch or an earlier one or was dropped |
| `Flushes.NilFlush` | buffer/producer.go:1266-1293 | After a nil result for a batch no message before the call was told of a halt, and each was told nil exactly when it was not dropped and its batch did not fail for a reason of its own |
| `Flushes.NilFlushIffNothingFailed` | buffer/producer.go:1266-1293 | After a nil result for a batch, all messages before the call were told nil exactly when none was dropped and no batch up to it holding one of them could not be encoded or uploaded or was cut short by shutdown |
| `Flushes.NilFlushOfNothing` | buffer/producer.go:439-448 | A Flush without a batch answers with the shutdown exactly when its messages were dropped, and otherwise nil whatever happened: each message before the call was told nil exactly when it was not dropped and nothing failed for its batch, a halt included |
| `Flushes.FlushInEveryRun` | buffer/producer.go:1266-1293 | In every continuation the messages before the call keep their outcomes, and those of a batch answered nil are readable in the store |
| `FlushRuns.AckedAtMostOnce` | buffer/producer.go:1139-1141 | In every run each Flush is acknowledged at most once, so its result channel of capacity one never blocks rotator or resolver |
| `FlushRuns.AnswerWithoutBatch` | buffer/producer.go:439-470 | In every run: the answer of a Flush is the shutdown, without a batch, if the rotator gave up the batch it was collecting for it; any other answer without a batch is nil |
| `FlushRuns.SealTies` | buffer/producer.go:551-562 | The batch sealed for a Flush reaches past everything accepted before its call |
| `EveryRun.BudgetInEveryRun` | buffer/budget.go:73-207 | In every run bytes used are exactly the reservations handed over, queued and accumulated plus the framed costs of batches in flight; slots used are exactly the batches in flight; both are bounded; no step gives back more than was taken; both are zero at the end |
| `Examples.AMessageBecomesDurable` | buffer/producer.go:1194-1232 | A run from an empty store in which an appended message's watcher is resolved with nil: what the theorems about runs require does happen |
| `Examples.NilFlushAfterFailure` | buffer/producer.go:439-448 | A run in which a batch cannot be encoded and a later Flush with nothing to seal returns nil |
| `FlushExamples.NilFlushWithCommittedBatch` | buffer/producer.go:551-562 | A run in which an upload fails and a later Flush whose own batch is committed returns nil |
| `FlushExamples.NilFlushOfHaltedProducer` | buffer/producer.go:439-448 | A run in which the producer halts and a later Flush returns nil |
| `ManifestHistory.ManifestIsChain` | buffer/manifest.go:317-371 | In every run the manifest decodes to the first log extended by all writes that took effect, in order; every later manifest begins with the same entries; the epoch never changes |
| `ManifestHistory.BlockIsContiguous` | buffer/manifest.go:329-345 | The items of one write lie in the manifest in one piece, behind those of the writes before it |
| `ManifestHistory.SequencesInEveryRun` | buffer/manifest.go:98-109 | Starting from an empty manifest the sequence numbers are 0, 1, 2, … in every run, the next number is the count, and it stays below 2^32 |
| `ManifestHistory.WritesAreWholeGroups` | buffer/producer.go:933-1045 | Even when a write takes effect and is reported as failed: each write is one whole commit group in ordinal order, of stored and decodable batches; all copies of a group precede later groups; no batch is carried by more than `manifestAttempts` writes |
| `ManifestHistory.CommittedOnceOrAgain` | buffer/producer.go:998-1043 | A batch resolved as committed is carried by at least one and at most `manifestAttempts` manifest writes |
| `Verdicts.CarriedExactly` | buffer/producer.go:933-1045 | In every run the manifest carries a batch once per write that took effect and was reported as failed, plus once if a write was reported as done; so at most once without ambiguous answers |
| `Measure.ConflictsAreCharged` | buffer/manifest.go:323-355 | In every run, the manifest writes since the `enqueueBatch` call in progress began are all by others, and the call has counted at most one conflict for each |
| `ManifestHistory.VersionCountsBlocks` | objstore/memory.go:61-90 | Over every run, the manifest's version moves by exactly the number of writes that took effect |
| `Measure.WorkEnds` | buffer/producer.go:591-1150 | From every reachable state, while no new batch is sealed, the stages take at most `Potential` steps plus two per rival manifest write; when no stage can move, no batch is in flight |
| `Measure.StepDrops` | buffer/producer.go:591-1150 | Every step of encoders, uploaders, committer and resolver lowers the potential, conflicts included |
| `Measure.RivalAdds` | buffer/manifest.go:345-353 | A step of another producer raises the potential by at most two, and only if it writes the manifest |
| `Quiescence.ComesToRest` | buffer/producer.go:433-1150 | From every reachable state, while callers bring no further message and no Flush, rotator and stages together take at most `Outstanding` steps plus two per rival manifest write; when they can take no more, every accepted message has its outcome, queue and accumulator are empty, every Flush taken is answered, and after Close all goroutines have returned |
| `Quiescence.OwnStepDrains` | buffer/producer.go:433-1150 | Every step of rotator and stages lowers the outstanding work, sealing a batch included, and a caller raises it only with a message or a Flush |
| `Quiescence.RestSettles` | buffer/producer.go:1334-1377 | A producer that can take no step has settled everything it accepted |
| `Progress.NeverStuck` | buffer/producer.go:591-1150 | While a batch is in flight some stage has an enabled step |
| `Progress.NoMessageIsStuck` | buffer/producer.go:433-1150 | While any accepted message is unresolved, queued and accumulated ones included, the rotator or some stage has an enabled step; the one exception is a batch outside the 32-bit formats, alone in the producer |
| `Progress.CompletionsFit` | buffer/producer.go:380-393 | Completions in the channel and in `ready` are at most the batches in flight, which are at most `maxBatches`; the channel has room for every batch a worker still holds |
| `Closing.NoSendAfterClose` | buffer/producer.go:591-732 | For any number of workers, in every run: after a channel was closed no goroutine of the producer sends on it |
| `Closing.LastReceive` | buffer/producer.go:1059-1116 | In every run: once a gather or a receive has ended on the closed completion channel, that committer never receives again |
| `Closing.HaltIsFinal` | buffer/producer.go:1019-1088 | Once halted, in every continuation the producer stays halted, never reads or writes the manifest, and settles every batch its committer had not taken with the halt error; the batches in its hand are in `HaltedGroupInEveryRun` |
| `Closing.WhatHalts` | buffer/producer.go:933-954 | A step that halts ends a manifest call in an error other than a conflict, on the last attempt the committer has; failed encodes and uploads and conflicts do not halt. `Attempts.HaltsExactly` counts the attempts over events |
| `Attempts.HaltsExactly` | buffer/producer.go:933-954 | In every run, whatever a producer that has not halted does next: it halts, and the batches of its group are told so, exactly if the step ends an `enqueueBatch` call in an error and that is the `manifestAttempts`-th such call since it took the group, counted over events; an earlier one is followed by a backoff, and a group is cancelled only between two calls |
| `Attempts.PutsInEveryRun` | buffer/producer.go:787-821 | In every run, counted over events: the upload of a batch is exhausted exactly at its `uploadAttempts`-th failed put, it is uploaded exactly if one put succeeded, no batch is put more often than `uploadAttempts` times, and it is given up at shutdown only between two puts |
| `Attempts.StorageInEveryRun` | buffer/producer.go:798-821 | A message was told of a storage error exactly when its batch failed `uploadAttempts` puts and no halted committer turned the batch away |
| `Attempts.CutsExactly` | buffer/producer.go:812-817 | In every run a parked rotator can drop, an upload with a failed put be given up and a group in backoff be cancelled exactly if the shutdown has been fired |
| `Attempts.ShutdownInEveryRun` | buffer/producer.go:1358-1371 | In every run such a step comes behind the event that fires the shutdown |
| `Attempts.NoEarlyShutdown` | buffer/producer.go:456-470 | In every run no message is told of a shutdown that was not fired |
| `Attempts.LostAnswerWritesTwice` | buffer/producer.go:938-952 | From every state before a matching write: if the write takes effect and its answer is lost, the retry writes the same group a second time |
| `Attempts.FailedPutMayStore` | buffer/producer.go:798-821 | A put reported as failed may have stored the object, and the uploader goes on as if it had not |
| `Attempts.AnyFaultCanHappen` | buffer/producer.go:798-821 | The runs hold every store fault at every put, manifest read and conditional write |
| `Promises.NoHoles` | buffer/producer.go:1073-1116 | When the committer exits, `ready` is empty and nothing is left upstream, halted or not; if not halted, the cursor has passed every ordinal |
| `Promises.CursorIsUpstream` | buffer/producer.go:966-982 | With nothing upstream of a waiting committer, its cursor is past every ordinal: the ordinal it waits for is always still upstream |
| `Promises.DrainedSettlesAll` | buffer/producer.go:1127-1150 | With the committer exited and the resolver idle, exactly the accepted messages have outcomes, every batch is released and the budget is zero |
| `Promises.SettledOnce` | buffer/producer.go:50-59 | A step that settles watchers finds each of them unsettled, so the guard in `resolve` never acts |
| `Promises.FirstOutcomeWins` | buffer/producer.go:50-59 | A second outcome leaves a watcher and all others as they are |
| `Promises.OnePlaceEach` | buffer/producer.go:439-567 | An accepted message is in the queue, in the accumulator, in exactly one batch, or was dropped with the shutdown error; the order of acceptance is kept |
| `Promises.OneStageEach` | buffer/producer.go:591-1150 | Ordinals are 0, 1, 2, …; each sealed and unreleased batch is held by exactly one stage, unaltered, and no other ordinal is held |
| `Promises.BudgetIsExact` | buffer/budget.go:73-207 | The budget equals what is in flight; bytes are at most the larger of the limit and the largest message, plus the framing of the batches in flight |
| `Promises.ClampsNeverFire` | buffer/budget.go:127-136 | No enabled step gives back more bytes or slots than are in use |
| `Admission.AppendWaitsExactly` | buffer/budget.go:73-87 | In every run an Append waits for bytes exactly when something is in flight and its message would not fit beside it within `maxBytes` |
| `Admission.SlotWaitsExactly` | buffer/budget.go:102-163 | In every run the rotator waits for a slot exactly while `maxBatches` batches are in flight, and a Flush for the drain exactly while one is or is about to be |
| `Admission.QueueWaitsExactly` | buffer/producer.go:1224-1244 | An Append with its bytes waits exactly while the queue is full and no rotator takes the message |
| `Admission.PoolsWaitExactly` | buffer/producer.go:591-779 | A sealed batch waits exactly while all encoders are busy, an encoded one while all uploaders are, a finished one never |
| `Admission.SelectsExactly` | buffer/producer.go:534-565 | A selecting rotator may take any message, Flush, timer or close that is there, whatever else is |
| `Admission.SizeInEveryRun` | buffer/producer.go:545-550 | In every run: while the rotator selects, what it has collected is below `FlushSizeBytes`; a batch sealed by size has reached it, and had not before its last message; the queue stays within its capacity |
| `Admission.DoorsInEveryRun` | buffer/producer.go:1194-1206 | In every run a message is let in exactly if it has entries, the producer has not halted and Close has not closed the append channel; the rotator drops only after it found every slot taken |
| `System.RunIsGood` | buffer/producer.go:404-417 | Every run of every number of producers keeps the joint invariant |
| `System.StepIsGood` | buffer/producer.go:404-417 | Every step of one producer keeps the invariants of all |
| `System.WriteChains` | buffer/manifest.go:323-348 | A conditional write that takes effect, reported or not, extends the log the store holds by exactly its group |
| `ProducerInv.StepKeepsLocal` | buffer/producer.go:433-1377 | Every action of a producer keeps its local invariant: conservation, cursor, closing, order, homes, watchers, budget and flushes |
| `SharedInv.StepKeepsShared` | buffer/producer.go:751-1045 | Every action keeps what the producer may say of the store: stored uploads, durable nil outcomes, its own blocks, its version |
| `SharedInv.OtherKeepsShared` | buffer/manifest.go:317-356 | A step of any other producer keeps it too |
| `SharedInv.StepTouches` | buffer/producer.go:787-820 | A step changes nothing in the store but the producer's own data objects, or writes the manifest once, by one version, recording one block |
| `JobsInv.CommitConserves` | buffer/producer.go:956-1116 | Every committer step keeps each batch in flight in exactly one stage |
| `JobsInv.WorkConserves` | buffer/producer.go:622-779 | So does every encoder and uploader step |
| `FlowInv.CommitKeepsCursor` | buffer/producer.go:956-1116 | Until a halt, the ordinals below the cursor are exactly those released or on their way to release |
| `GatesInv.WorkerKeepsGates` | buffer/producer.go:591-609 | Pool exits keep the closing order: a channel is closed only after its last possible sender has exited |
| `MessagesInv.ResolveIsFirst` | buffer/producer.go:1136-1138 | The watcher the resolver is about to resolve belongs to the batch in hand and is unresolved |
| `MessagesInv.SealKeepsHomes` | buffer/producer.go:475-500 | Sealing puts a stretch of the accepted messages into one new batch and no message into two |
| `LedgerInv.BytesAreBounded` | buffer/budget.go:187-207 | Bytes in flight exceed the larger of the limit and the largest message by at most the framing of at most `maxBatches` batches |
| `LedgerInv.ReleaseBalances` | buffer/producer.go:1147 | Releasing a batch keeps the account exact and does not reach the clamp |
| `FlushInv.NoSlotsMeansResolved` | buffer/budget.go:152-177 | With no batch slot in use, every message sealed or dropped so far is resolved |
| `FlushInv.AcknowledgeKeepsFlushing` | buffer/producer.go:1139-1141 | A Flush is acknowledged with the outcome its batch's watchers got |
| `WorldInv.CommitKeepsBacked` | buffer/producer.go:956-1045 | A job delivered with nil has its data object stored and its ordinal recorded by a manifest write of this run |
| `WorldInv.WorkerKeepsBacked` | buffer/producer.go:751-820 | An upload reported without error is stored, is the batch in the configured compression and decodes to it; no upload damages another batch's object |
| `BlocksInv.WriteIsCurrent` | buffer/manifest.go:324-345 | A conditional write goes through only over the manifest bytes it was computed from |
| `BlocksInv.WriteKeepsOrder` | buffer/producer.go:956-1045 | A write of the group in hand keeps the order of the run's blocks |
| `Coalescing.CoalescingCommitsInOrder` | buffer/producer.go:956-1116 | For every arrival order, every split into gather rounds and every group size, if the CAS calls succeed: the manifest gets the locations of the successful uploads in ordinal order, once each, every batch its own outcome, and nothing is left |
| `Coalescing.CoalescingRefinesSerial` | buffer/producer.go:1047-1071 | The coalescing committer appends and settles the same as the committer that takes one completion at a time in order |
| `Turns.MachineTurnIsTurned` | buffer/producer.go:956-1045 | In every run, all steps from taking a group to having delivered it, however interleaved, leave cursor, waiting batches, halt flag, appended locations, results and call count as one turn of the committer class does |
| `Turns.SameSplit` | buffer/producer.go:973-981 | The machine's split of a group into stored and failed uploads is the class's |
| `Turns.DeliveryOrder` | buffer/producer.go:1033-1043 | The batches of a group reach the resolver uploaded ones first with the group's outcome, then failed ones with their own errors, each in ordinal order |
| `Committer.ManifestCommitter.TakeGroup` | buffer/producer.go:963-982 | The loop takes the contiguous ready ordinals from the cursor on, up to the group size, split by upload outcome |
| `Committer.ManifestCommitter.Turn` | buffer/producer.go:962-1044 | One turn of the drain loop, with all three ways it can end |
| `Committer.ManifestCommitter.Drain` | buffer/producer.go:956-1045 | The whole drain |
| `Committer.ManifestCommitter.Gather` | buffer/producer.go:1059-1071 | Everything the channel holds goes into `ready`, the channel is left empty, and the result says whether it is closed |
| `Committer.CompletionChannel.TryReceive` | buffer/producer.go:1061-1069 | The oldest completion, also from a closed channel; when there is none, whether the channel is closed |
| `Committer.TakeCount` | buffer/producer.go:966-972 | The number taken is the longest ready stretch from the cursor on, cut at the group size |
| `Budget.NoWakeupIsLost` | buffer/budget.go:73-216 | In every interleaving: a byte, slot or drain waiter parked on an open channel waits for something not available at that moment; a drain channel exists only while a batch is in flight |
| `Budget.StepKeepsWakeups` | buffer/budget.go:127-207 | Every critical section and every wakeup keeps this |
| `Wakeups.NoGuardIsSleptThrough` | buffer/budget.go:73-216 | In every run of the pipeline machine together with the sleepers of its budget: the two accounts agree; whoever is asleep is the rotator, an Append or a Flush that waits for exactly that in the machine; and whatever step the machine allows can be taken, if need be after waking its goroutine, whose channel is then closed |
| `Wakeups.NoMessageSleeps` | buffer/producer.go:433-1150 | In every such run, while an accepted message is unresolved, the rotator or a stage can take a step or the rotator can be woken |
| `Wakeups.StepKeepsJoint` | buffer/budget.go:73-216 | Every joint step, of the machine, into sleep or out of it, keeps the accounts equal and every sleeper in its place |
| `Budget.ProducerBudget.TryReserveBytes` | buffer/budget.go:73-87 | One pass of the reservation loop: taken exactly if nothing is used or the sum stays within the limit |
| `Budget.ProducerBudget.TryAcquireSlot` | buffer/budget.go:102-111 | One pass of the slot loop |
| `Budget.ProducerBudget.TryDrained` | buffer/budget.go:152-163 | One pass of the drain wait |
| `Budget.ProducerBudget.Release` | buffer/budget.go:127-146 | Lowers both counters, not below zero, closes the waiters' channel, and closes the drain channel when no batch is left |
| `Budget.ProducerBudget.AddReservation` | buffer/budget.go:196-207 | Charges framing without blocking, not below zero, and closes the waiters' channel |
| `Budget.ProducerBudget.EnsureWaiter` | buffer/budget.go:211-216 | The current waiter channel, allocated if absent |
| `Budget.ProducerBudget.constructor` | buffer/budget.go:55-66 | An empty budget with both limits at least 1 |
| `Enqueuer.EnqueueBatch` | buffer/manifest.go:317-356 | Against any rival writes and store errors: on success the manifest is that of all rivals so far with the items behind it in one block; on an error the items are absent, unless the write took effect and its answer was lost; conflicts are at most the rival writes, puts at most one more |
| `Enqueuer.EnqueuesChain` | buffer/manifest.go:317-356 | After any sequence of calls by any callers the store holds the first log extended by the items of the calls that went through |
| `Enqueuer.EnqueueExtends` | buffer/manifest.go:329-345 | One rewrite of the stored manifest holds the stored log extended by the items |
| `Enqueuer.ReadManifest` | buffer/manifest.go:358-371 | The stored manifest and its version, the empty manifest if there is none, the decoding error, or the storage error |
| `Enqueuer.AppendItems` | buffer/manifest.go:329-337 | Appends every item or stops at the first error |
| `Enqueuer.RoundFacts` | buffer/manifest.go:345-353 | The conditional write goes through exactly when no rival wrote since the read |
| `ObjStore.InMemory.constructor` | objstore/memory.go:21-23 | An empty store |
| `ObjStore.InMemory.Get` | objstore/memory.go:26-40 | The data and version stored at the path, or not found |
| `ObjStore.InMemory.Put` | objstore/memory.go:43-58 | Overwrites and moves the version by one |
| `ObjStore.InMemory.PutIfMatch` | objstore/memory.go:61-90 | Writes exactly when the version matches, or the object is absent in create mode; otherwise changes nothing |
| `ObjStore.InMemory.Delete` | objstore/memory.go:93-98 | Removes the object |
| `ObjStore.VersionMatchesIffUntouched` | objstore/objstore.go:39-43 | After any operations that do not delete the object, a version read earlier matches exactly when nothing wrote it, and then the bytes are the ones read |
| `ObjStore.VersionMatchesIff` | objstore/objstore.go:39-43 | After any operations at all, a version read before them matches exactly when nothing wrote the object, or, if it was deleted, when as many writes took effect since the last delete as the version counts |
| `ObjStore.VersionMatchesAfterDelete` | objstore/memory.go:61-98 | The case with a delete, for any version |
| `ObjStore.VersionCountsWrites` | objstore/memory.go:43-90 | Without deletes, the version counts the writes that took effect |
| `ObjStore.DeleteRestartsVersions` | objstore/memory.go:75-97 | An instance: after a delete and one write, version 1 matches over different bytes |
| `ManifestLog.AppendRefinesList` | buffer/manifest.go:98-137 | For every manifest whose entries tile its area and any items: rewriting succeeds exactly when the items can be encoded and the count fits 32 bits, and the result tiles and holds the old entries followed by the new, numbered on |
| `ManifestLog.Manifest.Append` | buffer/manifest.go:98-109 | Encodes the item with the next number behind those appended, or reports the error |
| `ManifestLog.Manifest.ToBytes` | buffer/manifest.go:111-137 | The base without its footer, the appended entries, and as footer the new count, next sequence, epoch and version 1, given in bytes; the base itself if nothing was appended; an error if the count exceeds 32 bits |
| `ManifestLog.Manifest.FromBytes` | buffer/manifest.go:63-88 | Loads exactly the byte strings of 22 bytes or more that end in 1, 0, with next sequence and epoch read from the 16 bytes before |
| `ManifestLog.Manifest.Empty` | buffer/manifest.go:52-61 | Twenty zero bytes and 1, 0; what its own bytes load to |
| `ManifestLog.EmptyHolds` | buffer/manifest.go:52-61 | The empty manifest's bytes hold the empty log |
| `ManifestLog.EmptyManifestBytes` | buffer/manifest.go:52-61 | The empty manifest, byte by byte |
| `ManifestLog.ManifestBytes` | buffer/manifest.go:111-137 | Every manifest rewritten with new entries, footer byte by byte, low byte first |
| `ManifestLog.LoadedBytes` | buffer/manifest.go:63-88 | Which byte strings load, and where sequence and epoch are read |
| `Formats.EntryBytes` | buffer/manifest.go:139-167 | Every entry in bytes: body length, sequence, location length, location, number of ranges, and per range start index, time in two's complement, payload length and payload, low byte first |
| `Formats.EntryParsesIff` | buffer/manifest.go:190-258 | For all bytes: they read as a given entry exactly when they hold a four-byte length and as many bytes, and these start with the entry's own |
| `Formats.DecodedManifestBytes` | buffer/manifest.go:170-188 | What the reader of a manifest looks at, for all bytes and any version |
| `Formats.SmallEntry` | buffer/manifest.go:139-167 | One entry in full |
| `Formats.SmallManifestBytes` | buffer/manifest.go:111-137 | A manifest of one entry in full |
| `Formats.BatchBytes` | buffer/batch.go:44-89 | Every batch in bytes: records of length and entry, plain or compressed, then compression, count modulo 2^32 and version 1; and each error |
| `Formats.SmallBatchBytes` | buffer/batch.go:44-89 | One batch in full |
| `Formats.DecodedBytes` | buffer/batch.go:92-148 | What the decoder reads behind the records of any bytes, and what it refuses |
| `ManifestLog.NumberedAt` | buffer/manifest.go:98-109 | Item `i` gets the first number plus `i`, wrapping at 2^64 |
| `ManifestLog.ExtendedTwice` | buffer/manifest.go:98-109 | Two appends are one append of both |
| `ManifestCodec.EncodeQueueEntry` | buffer/manifest.go:139-167 | Encodes exactly the entries with a location of at most 65535 bytes and payloads of at most 2^32 - 1 |
| `ManifestCodec.DecodeQueueEntry` | buffer/manifest.go:190-258 | Reads one entry without leaving the bytes, whatever they are; a successful read ends at least 18 bytes further on |
| `ManifestCodec.DecodeManifestEntries` | buffer/manifest.go:170-188 | Total on all byte strings; success means as many entries as the footer counts, and 18 bytes for each in front of the footer |
| `ManifestCodec.ReadRanges` | buffer/manifest.go:219-251 | Reads the metadata ranges within the entry or reports it as corrupt |
| `ManifestCodec.EntryRoundTripIff` | buffer/manifest.go:139-258 | An encoded entry reads back exactly when its body length fits the 32-bit prefix |
| `ManifestCodec.EntriesRoundTrip` | buffer/manifest.go:139-188 | A list of fitting entries reads back, leaving what follows untouched |
| `ManifestCodec.ParsedEntriesExtend` | buffer/manifest.go:170-188 | Reading entries does not depend on what follows them, so appended entries are read behind the old ones |
| `BatchCodec.BatchRoundTrip` | buffer/batch.go:44-148 | A batch that encodes decodes to itself exactly when it has fewer than 2^32 entries |
| `BatchCodec.RecordCountWraps` | buffer/batch.go:62 | 2^32 empty entries come back as none |
| `BatchCodec.PlainDecodesIff` | buffer/batch.go:92-148 | An uncompressed batch decodes to given entries exactly when its block starts with their records and its footer counts them |
| `BatchCodec.ParsedIffPrefix` | buffer/batch.go:130-147 | The record loop returns given entries exactly when the bytes start with their records |
| `BatchCodec.EncodeBatch` | buffer/batch.go:44-89 | The code's encoder, with its errors |
| `BatchCodec.DecodeBatch` | buffer/batch.go:92-148 | The code's decoder, in bounds on all byte strings |
| `BatchCodec.ReadRecords` | buffer/batch.go:130-147 | The record loop, in bounds for all bytes and counts |
| `Accumulator.FramedCostIsEncodedSize` | buffer/producer.go:486-498 | What the budget charges for a batch is the length of its uncompressed data object plus its metadata payloads |
| `Accumulator.MessageInBatch` | buffer/producer.go:101-123 | In a batch within 32-bit indices, each message's entries lie at its range's start index, with its payload and time |
| `Accumulator.BatchAccumulator.Add` | buffer/producer.go:101-123 | The accumulator holds one message more, at the end; reports the first |
| `Accumulator.BatchAccumulator.Reset` | buffer/producer.go:129-142 | Hands out everything added and is empty again |
| `Accumulator.BatchAccumulator.IsEmpty` | buffer/producer.go:125-127 | Says whether every message added was without entries |
| `Accumulator.DrainInto` | buffer/producer.go:571-583 | The queued messages follow the accumulated ones, in order |
| `Accumulator.AppendByteCost` | buffer/budget.go:221-228 | The entry bytes plus the metadata bytes |

## Left out

- Real time: timers, backoff durations and deadlines are free choices of when an action happens; `backoffFor` is not modelled.
- The retry loops of `putWithRetry` and `casWithRetry` are steps of the state machine with an attempt counter, not methods with loops; AppendContext, Flush and Close are steps as well.
- DurabilityWatcher: its mutex and channel are not modelled; a watcher is its first outcome.
- A store write that takes effect only after its call has returned an error; a write takes effect during its call or not at all.
- ETags are numbers, not decimal text, and the 64-bit version counter does not wrap.
- Batch ordinals and byte counters do not wrap at 64 bits.
- A starting manifest whose entries do not tile the bytes in front of its footer.
- Which error of several a caller sees: store errors are one kind, and the message text is not modelled.
- Observer hooks, gauges, `FlushStats`, the conflict rate and the age of the oldest batch.
- objstore/s3.go, the zstd implementation, ULIDs and path formatting, the exporter, the collector and the benchmark.
- Progress.NoMessageIsStuck: sealing a batch outside the 32-bit formats is not modelled, so such a batch is an exception here, in Quiescence.ComesToRest and in Wakeups.NoMessageSleeps.
- Quiescence.ComesToRest: a Flush the rotator has not taken when it stops is not among those answered; it ends with the shutdown error or its context's, which is one step of giving up.
- Coalescing.CoalescingCommitsInOrder: assumes that the CAS calls succeed; what happens when they fail is in ManifestHistory.WritesAreWholeGroups and Closing.HaltIsFinal.
