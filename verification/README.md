# Kody: durable state under failure

Kody is an agent server. It runs turns of conversations (threads), starts and supervises shell
processes for them, and keeps everything in one JSON file and one output log per process. This
project models the parts of it that must stay right across interleavings, failed writes and restarts,
and proves what those parts promise.

| files | what they model |
|---|---|
| `OutputLog`, `LogCodec`, `LogPaging`, `BoundedLog` | the bounded output log of a process: coalescing append, eviction, binary format, cursor paging |
| `Domain`, `Store`, `StoreOps`, `StoreProofs`, `StoreExceptions`, `StoreValidator`, `InMemoryStore` | the relational store: its 28 mutations with their local checks, and the validator of the whole |
| `Snapshot`, `SnapshotProofs`, `SnapshotRoundTrip`, `SnapshotLoader` | the saved form of the store, loading, and migration of old versions |
| `CommitProtocol`, `JsonFile` | fork, validate, write, rename, sync, publish, with failures and crashes anywhere |
| `Supervision`, `SupervisionProofs`, `SupervisionOrder`, `SupervisionNumbers`, `SupervisionStore` | one managed process over its whole life: actor, output logger, crash, recovery |
| `Guardian`, `Descriptors` | the parent-death guardian and the closing of inherited descriptors |
| `Admission` | concurrent starts, quotas, reused origins, shutdown |
| `TurnRuntime`, `TurnStory`, `TurnFaults`, `TurnStore`, `TurnEvents`, `TurnRecovery`, `Transcript`, `BudgetHistory` | turn ownership, turn events, recovery of turns, the agent loop, the cut history |
| `VersionPreference` | ranking of discovered binaries by semantic version |
| `StepMachine` | runs of a machine: what all step machines share |
| `RequestCache` | the idempotency window for thread creation |

Three styles are used. Code that updates an object or runs a loop is a class or a method, proved
against a specification function (`BoundedLog`, `InMemoryStores`, `StoreValidator`, `SnapshotLoader`,
`TurnRecovery`, `TurnEvents`, `Transcripts`, `BudgetHistories`, `RequestCaches`, `Descriptors`,
`VersionPreference`). Concurrent protocols are step machines: a `World`, an `Action` for each step any
participant or the environment can take, and theorems about `Run` over every sequence of actions. Pure
checks are functions.

The commit protocol is proved once for any states, files and mutations that satisfy three laws
(`CommitProtocol.Lawful`); `JsonFiles` shows that the store satisfies them.

Assumptions made throughout: identifiers are fresh where the program creates them; JSON text, SHA-256
and file contents survive their round trip, so a snapshot is a record and equal fingerprints mean equal
parameters; the clock of process supervision never goes back; cursors and sequence numbers stay below
their 64-bit maximum, as stated in the preconditions. A write either succeeds, fails before the new file
is in place, or fails after (only the directory sync failed). A crash may happen between any two steps.

Where a property fails, the exact condition is proved, and a lemma shows that the failing case occurs:

- the four mutations that the local checks alone let through (`StoreProofs.LocalChecksSuffice`, an
  if-and-only-if; `StoreExceptions` has states in which they are accepted);
- the event number that Lost repeats when the log cannot be loaded and output was the last event
  (`SupervisionNumbers.UnloadableLogRepeats`, `NumberRepeats`);
- the second turn beside one whose final status could not be written
  (`TurnFaults.SecondTurnIffIdle`, `NoSecondTurnWithoutGivingUp`, `SecondTurnAfterStart`);
- the project a failed creation leaves behind (`RequestCaches.FailedCreationLeavesNothingIff`,
  `FirstFailureStrandsProject`) and the creation a retry repeats (`RequestCaches.ReadBackFailureForgets`);
- the group that nothing guards (`Guardians.NeverUnguarded` and `OwnerDeathKillsTheGroup`, both
  if-and-only-if; `FailedLookUnguards`, `FailedWaitUnguards` and `FailedKillUnguards` for every state in
  which one of the three failures can come; `UnguardedAfterFailedLook`).

## Model

| member | source | states |
|---|---|---|
| `OutputLogs.TrimmedIsTightest` | crates/kody-core/src/process.rs:2047-2075 | the two eviction loops leave a contiguous log within both limits, and no earlier start would do |
| `OutputLogs.AppendTracks` | crates/kody-core/src/process.rs:2024-2075 | if the log holds, byte and stream tag, the longest suffix of the never-evicted output that fits both limits, with one record per run of a stream, it still does after an append |
| `OutputLogs.LogAfter` | crates/kody-core/src/process.rs:1921-2068 | the same after any sequence of writes from the empty log |
| `OutputLogs.ChunkingIsIrrelevant` | crates/kody-core/src/process.rs:2024-2045 | two ways of cutting the same output into reads leave the same records |
| `OutputLogs.TracksIsFunctional` | crates/kody-core/src/process.rs:2047-2075 | the output history and the limits determine records, start cursor and retained bytes |
| `OutputLogs.AppendOnlyAdvances` | crates/kody-core/src/process.rs:2024-2075 | an append adds exactly its bytes at the end and never moves the start back |
| `BoundedLog.OutputLog.EnforceLimits` | crates/kody-core/src/process.rs:2047-2068 | the in-place loops compute the trimmed log |
| `BoundedLog.OutputLog.Append` | crates/kody-core/src/process.rs:2024-2045 | the in-place append, coalescing with the last record, computes the appended log |
| `BoundedLog.OutputLog.Encode` | crates/kody-core/src/process.rs:2108-2137 | writes exactly the bytes of the format, or fails exactly when a length does not fit its field |
| `BoundedLog.OutputLog.Decode` | crates/kody-core/src/process.rs:1949-2022 | total on any bytes: gives the parsed and trimmed log or the error of the first check that fails |
| `BoundedLog.OutputLog.Read` | crates/kody-core/src/process.rs:2139-2190 | the paging loop gives the specified page and changes nothing |
| `BoundedLog.ReadNumber` | crates/kody-core/src/process.rs:2192-2216 | reads a little-endian number at the offset or reports truncation |
| `LogCodec.ParseThenEncode` | crates/kody-core/src/process.rs:1949-2022 | whatever parses is a well-formed log whose encoding is exactly those bytes |
| `LogCodec.EncodeThenParse` | crates/kody-core/src/process.rs:2108-2137 | an encoded log parses to itself under the limits of the reader |
| `LogCodec.DecodeInvertsEncode` | crates/kody-core/src/process.rs:1949-2022 | bytes decode if and only if they are the encoding of some log, and then to that log trimmed to the limits |
| `LogCodec.RoundTrip` | crates/kody-core/src/process.rs:2108-2137 | within its own limits a log survives encoding and decoding unchanged |
| `LogCodec.ReencodeIsIdentity` | crates/kody-core/src/process.rs:1949-2022 | bytes that decode without trimming are reproduced by encoding the result |
| `LogPaging.PageExact` | crates/kody-core/src/process.rs:2139-2190 | a page carries exactly the history at its positions, is no longer than the limit, reports skipping and remaining bytes exactly, advances while there is more, and fails only past the end |
| `LogPaging.FollowIsFaithful` | crates/kody-core/src/process.rs:463-495 | in every interleaving of output, eviction, writing out and polls, with the file any number of writes behind the log in memory, only polls with a wrong limit are refused; the pages of the others continue one another, show only true bytes, and are full while there is more |
| `LogPaging.ReadToEndIsComplete` | crates/kody-core/src/process.rs:2139-2190 | reading until there is no more collects every retained byte from the cursor on exactly once |
| `LogPaging.ReadToEndIsShort` | crates/kody-core/src/process.rs:2155-2171 | all but the last page are full, which bounds the number of reads |
| `Stores.ChecksMeaning` | crates/kody-core/src/store.rs:2072-2389 | the step-by-step checks of messages, turns and processes accept exactly the records whose links are right |
| `StoreValidator.ValidateStoreState` | crates/kody-core/src/store.rs:478-610 | the validator, which compares sizes and looks one way only, accepts exactly the states in which every index, order list and link is right |
| `StoreValidator.ValidateOrder` | crates/kody-core/src/store.rs:525-553 | one pass with a set of seen entries decides that each thread lists its own entries once each and none is missing |
| `StoreValidator.ValidateRoots` | crates/kody-core/src/store.rs:478-487 | decides that no project root is imported twice |
| `StoreValidator.CountedIndexIsExact` | crates/kody-core/src/store.rs:488-499 | an index of the same size that knows every record has no other entries |
| `StoreProofs.LocalChecksSuffice` | crates/kody-core/src/store.rs:673-1657 | from a consistent state, any of the 28 mutations that its local checks accept leads to a consistent state if and only if it is not one of four named exceptions |
| `StoreProofs.InsertThreadBreaks` | crates/kody-core/src/store.rs:775-787 | a thread inserted alone always leaves the state without its workspace |
| `StoreProofs.InsertWorkspaceBreaks` | crates/kody-core/src/store.rs:1015-1043 | a workspace inserted alone always leaves it without its thread |
| `StoreProofs.UpdateMessageKeepsUnlessMisassigned` | crates/kody-core/src/store.rs:1162-1178 | a message update keeps integrity exactly unless it moves the input message of a turn to another turn |
| `StoreProofs.DeleteArtifactKeepsUnlessNamed` | crates/kody-core/src/store.rs:1272-1288 | an artifact deletion keeps integrity exactly unless a tool result still names the artifact |
| `StoreExceptions.InputCanBeMoved` | crates/kody-core/src/store.rs:1162-1178 | in every consistent state, moving the input message of a turn to another turn of its thread is accepted and loses integrity |
| `StoreExceptions.NamedArtifactCanBeDeleted` | crates/kody-core/src/store.rs:1272-1288 | in every consistent state, deleting an artifact that only tool results name is accepted and loses integrity |
| `StoreExceptions.LoneRecordsAreAccepted` | crates/kody-core/src/store.rs:1015-1043 | an empty store accepts any lone workspace, and any lone thread without references, and is then not consistent |
| `StoreExceptions.ExceptionsHappen` | crates/kody-core/src/store.rs:1162-1288 | there are consistent states in which such an update and such a deletion are accepted |
| `StoreProofs.DeleteThreadRemovesExactlyItsOwn` | crates/kody-core/src/store.rs:955-1013 | the cascade, which follows order lists and indexes, removes exactly what the thread owns |
| `StoreProofs.DeleteThreadKeeps` | crates/kody-core/src/store.rs:955-1013 | and leaves no dangling reference |
| `StoreProofs.DeleteMessageKeeps` | crates/kody-core/src/store.rs:1180-1217 | a deleted message leaves lists, artifacts and references consistent |
| `StoreProofs.DeleteProjectKeeps` | crates/kody-core/src/store.rs:731-773 | a deleted project leaves no reference, and ended processes lose their association |
| `StoreProofs.InsertThreadWithWorkspaceKeeps` | crates/kody-core/src/store.rs:788-821 | thread and workspace inserted together keep the ownership index one to one |
| `StoreProofs.DeleteWorkspaceRefuses` | crates/kody-core/src/store.rs:1103-1120 | in a consistent state no workspace can be deleted on its own |
| `StoreProofs.DeleteTurnKeeps` | crates/kody-core/src/store.rs:1504-1533 | a deleted turn leaves messages, processes and order lists consistent |
| `StoreProofs.TransitionProcessKeeps` | crates/kody-core/src/store.rs:1605-1640 | a status transition keeps the origin index and all links |
| `InMemoryStores.InMemoryStore.DeleteProject` | crates/kody-core/src/store.rs:731-773 | the loop over processes commits exactly the specified outcome, or nothing |
| `InMemoryStores.InMemoryStore.DeleteThread` | crates/kody-core/src/store.rs:955-1013 | the removal loops commit exactly the specified cascade, or nothing |
| `InMemoryStores.InMemoryStore.DeleteMessage` | crates/kody-core/src/store.rs:1180-1217 | commits exactly the specified outcome, or nothing |
| `InMemoryStores.InMemoryStore.InsertArtifacts` | crates/kody-core/src/store.rs:1224-1241 | all artifacts are filed and validated together, or none |
| `InMemoryStores.InMemoryStore.InsertTurnInput` | crates/kody-core/src/store.rs:1346-1405 | message, turn and artifacts are filed and validated together, or none |
| `InMemoryStores.InMemoryStore.AppendImageGeneration` | crates/kody-core/src/store.rs:1290-1344 | both messages and all images are filed and validated together, or none |
| `InMemoryStores.InMemoryStore.Mutate` | crates/kody-core/src/store.rs:673-1657 | every mutation commits its outcome or nothing; integrity is lost exactly by the four exceptions |
| `Snapshots.SortingIsUnique` | crates/kody-core/src/store.rs:269-348 | sorting by creation time and identifier gives one list, however the values were enumerated |
| `Snapshots.SortedIdsIsSorting` | crates/kody-core/src/store.rs:273-290 | and that list has every entry once, in order |
| `SnapshotRoundTrip.LoadInvertsSave` | crates/kody-core/src/store.rs:352-476 | loading what was saved gives the state back with both ownership indexes and all order lists, except empty ones |
| `SnapshotRoundTrip.RebuiltExactly` | crates/kody-core/src/store.rs:372-470 | the lists of a snapshot can be filed exactly when no identifier, workspace owner or process origin occurs twice |
| `SnapshotRoundTrip.LoadedIsConsistent` | crates/kody-core/src/store.rs:352-476 | only consistent states without empty lists are ever loaded |
| `SnapshotRoundTrip.MigrationHappensOnce` | crates/kody-core/src/store.rs:372-400 | whatever version a state was loaded from, after one save it loads unchanged |
| `SnapshotRoundTrip.MigrationMeaning` | crates/kody-core/src/store.rs:378-386 | before version 5 archived threads become handled and idle, all others deferred, and nothing else changes |
| `SnapshotRoundTrip.NoThreadIsLost` | crates/kody-core/src/store.rs:372-400 | every thread of an old file is loaded, changed only by the migration |
| `SnapshotRoundTrip.SavedIsCanonical` | crates/kody-core/src/store.rs:269-348 | two states have the same file exactly when they differ at most in empty lists |
| `SnapshotLoader.Load` | crates/kody-core/src/store.rs:352-476 | the loading loops and the final validation compute the loaded state, or refuse |
| `JsonFiles.StoreIsLawful` | crates/kody-core/src/store.rs:212-267 | round trip and sound loading, which is all the commit protocol needs of its states |
| `JsonFiles.CommitRefusesTheExceptions` | crates/kody-core/src/store.rs:249-254 | validation at commit refuses exactly the four exceptions |
| `JsonFiles.EveryRunIsSafe` | crates/kody-core/src/store.rs:212-267 | in every run with failed writes, crashes and power losses, the file loads to a consistent state that came from the last acknowledged one by accepted mutations, readers see consistent states only, and the file holds what they see or is one mutation ahead |
| `JsonFiles.MutationReachesDiskOrNothing` | crates/kody-core/src/store.rs:257-267 | a mutation is refused and changes nothing, or with its writes succeeding ends with memory, file and all a power loss can leave equal to its outcome |
| `CommitProtocol.FailureIsInvisible` | crates/kody-core/src/store.rs:625-656 | a failed write leaves the published state alone; the file is ahead only if the rename had happened |
| `CommitProtocol.PublishedWasOnDisk` | crates/kody-core/src/store.rs:249-254 | what readers get to see was in the file before |
| `CommitProtocol.InStepUnlessSyncFails` | crates/kody-core/src/store.rs:625-656 | file and memory drift apart only through a failed directory sync, however often the program stops |
| `CommitProtocol.UnloadableIsUntouched` | crates/kody-core/src/store.rs:213-242 | a file that cannot be loaded is never written to |
| `SupervisionNumbers.PublishedNumbersIncrease` | crates/kody-core/src/process.rs:1716-1737 | event numbers strictly increase over the life of a process, through failed writes, crashes and recoveries, unless a recovery cannot load the log when the last event published was output |
| `SupervisionNumbers.UnloadableLogRepeats` | crates/kody-core/src/process.rs:593-634 | and exactly then: if output was the last event and the log cannot be loaded, the Lost event repeats a number if and only if the restart finds a record that was written before that output |
| `SupervisionNumbers.NumberRepeats` | crates/kody-core/src/process.rs:1840-1895 | every process has a run whose published numbers are 1, 2, 2 |
| `SupervisionOrder.RecoveredIsNumbered` | crates/kody-core/src/process.rs:602-626 | recovery numbers the Lost event after everything the store or the log knows of |
| `SupervisionOrder.EveryWriteIsAccepted` | crates/kody-core/src/process.rs:1413-1459 | whatever failed before, the store never refuses a record of the actor or of a recovery |
| `SupervisionOrder.TerminalEventIsLast` | crates/kody-core/src/process.rs:1626-1651 | at most one terminal event is ever published and it is the last |
| `SupervisionOrder.SmoothRunsCount` | crates/kody-core/src/process.rs:1840-1895 | while no store write fails and the server stays up, even if log writes fail and the logger is aborted on a timeout, events are numbered 1, 2, 3 without gaps |
| `SupervisionProofs.ActorWritesAreAccepted` | crates/kody-core/src/process.rs:1554-1584 | after a failed Stopping write only Failed can follow, so no illegal transition is attempted |
| `SupervisionProofs.RecoveredIsOk` | crates/kody-core/src/process.rs:593-643 | the merge of store and log is a well-formed record the store takes |
| `SupervisionStore.ReplacementTaken` | crates/kody-core/src/store.rs:1987-2050 | in a consistent store a replacement is taken exactly when nothing moves back, the status step is legal and the record is well formed |
| `Guardians.RecordedOnlyWhenGuarded` | crates/kody-core/src/process.rs:1395-1419 | Running is written only while an armed guardian holds exactly this group |
| `Guardians.GuardedUntilDisarmed` | crates/kody-core/src/process.rs:1395-1458 | once Running is written the guardian ends only by reading the disarm byte or killing the group; after a start that went well or failed at any point, the byte is sent only when the leader has exited, unless a wait for it failed, and only when the group is gone, unless the look for the leader, the last look at the group or the kill failed |
| `Guardians.NeverUnguarded` | crates/kody-core/src/process.rs:837-876 | while a member of a group that ran the command lives, the guardian has its id or is about to, if and only if it has not read a disarm byte; to have read it then takes one of those three failures |
| `Guardians.OwnerDeathKillsTheGroup` | crates/kody-core/src/process.rs:1000-1056 | once the owner has died anywhere, or is done, the guardian ends by itself, and a member of the group survives if and only if an armed guardian was disarmed while the group lived |
| `Guardians.FailedLookUnguards` | crates/kody-core/src/process.rs:1514-1528 | wherever the leader of a living group has been reaped, a failed look at the group leaves it unguarded |
| `Guardians.FailedWaitUnguards` | crates/kody-core/src/process.rs:1503-1512 | wherever a living group is supervised, a failed look for the leader leaves it unguarded if and only if the leader has exited or the last wait for it fails too |
| `Guardians.FailedKillUnguards` | crates/kody-core/src/process.rs:1396-1405 | wherever a start has failed, after a failed kill and a failed wait the group survives if and only if the guardian was armed |
| `Guardians.UnguardedAfterFailedLook` | crates/kody-core/src/process.rs:1514-1528 | there is a run in which one failed look at the group leaves members of a recorded process unguarded |
| `Descriptors.Table.CloseInherited` | crates/kody-core/src/process.rs:1118-1177 | exactly the descriptors from 3 to the limit that are not retained are closed, by intervals, one by one, or by falling back half-way |
| `Descriptors.Table.CloseIntervals` | crates/kody-core/src/process.rs:1125-1165 | the interval path closes nothing it must keep, and everything else if no call fails |
| `Admission.LimitsHold` | crates/kody-core/src/process.rs:323-433 | in every interleaving of starts, ends, deletions and shutdown, active processes stay within both limits and no origin has two records |
| `Admission.OneSpawnPerOrigin` | crates/kody-core/src/process.rs:323-433 | in every run, between two spawns of one origin the record of the first was deleted |
| `Admission.StartedTwice` | crates/kody-core/src/process.rs:428-433 | two starts of one origin are told of different new processes only if the record of one of them was deleted |
| `Admission.ReusedOriginIsIdempotent` | crates/kody-core/src/process.rs:334-357 | in every run, a start decided while its origin has a record is answered for good with that very process, or refused if the parameters differ, the process belongs to an earlier runtime or shutdown has begun; nothing is inserted or spawned |
| `Admission.ShutdownListIsComplete` | crates/kody-core/src/process.rs:533-571 | once shutdown has taken its list, the list covers every process active then or later |
| `TurnRuntime.OneUnfinishedTurnPerThread` | crates/kody-core/src/runtime.rs:228-289 | in every run with any writes failing, a queued or running turn keeps its thread reserved, and of two such turns of one thread at least one was given up: released while its final status could not be written |
| `TurnRuntime.AbandonedIsGivenUp` | crates/kody-core/src/runtime.rs:391-402 | the given-up turns are exactly those for which the run has such a release |
| `TurnRuntime.OnlyTheHolderReleases` | crates/kody-core/src/runtime.rs:364-424 | a reservation is ended only by its holder, and only when nothing of the thread is unfinished except given-up turns |
| `TurnStories.OneExecutorPerTurn` | crates/kody-core/src/runtime.rs:364-376 | of all callers racing for a turn one ever works on it |
| `TurnStories.TerminalEventFollowsIdle` | crates/kody-core/src/runtime.rs:395-424 | in every run with any writes failing, what can be observed of a turn is its final status, then the idle thread, then one terminal event; the event comes only after both, and with the status the store has |
| `TurnFaults.SecondTurnIffIdle` | crates/kody-core/src/runtime.rs:391-402 | a turn that is given up stays running until a restart, and a later turn can be queued beside it if and only if its thread was made idle and not archived since |
| `TurnFaults.NoSecondTurnWithoutGivingUp` | crates/kody-core/src/runtime.rs:521-578 | two unfinished turns of one thread mean that some step of the run gave one of them up |
| `TurnFaults.SecondTurnAfterStart` | crates/kody-core/src/runtime.rs:521-578 | it happens: after any start every idle thread can come to have two unfinished turns |
| `TurnStores.MarkIsTransition` | crates/kody-core/src/runtime.rs:270-278 | marking a thread goes on exactly if the store takes its transition from Idle to Running, and shows what the store then holds |
| `TurnStores.ClaimIsTransition` | crates/kody-core/src/runtime.rs:371-376 | a caller works on a turn exactly if the store takes its transition from Queued to Running |
| `TurnStores.FinishIsTransition` | crates/kody-core/src/runtime.rs:521-578 | the store always takes the final status of the turn its executor works on |
| `TurnStores.EnqueueIsInsertion` | crates/kody-core/src/runtime.rs:351-360 | inserting the input of a turn queues it and changes no other status |
| `TurnStores.GoIdleIsMarkIdle` | crates/kody-core/src/runtime.rs:961-970 | the clean-up rests a thread by the transition of the store, and only a running one |
| `TurnStores.UnmarkIsMarkIdle` | crates/kody-core/src/runtime.rs:284-287 | and so does the clean-up of a turn that could not be queued |
| `TurnStores.ErrorTextIsInvisible` | crates/kody-core/src/runtime.rs:561-570 | the error text written after the final status is always taken and changes no status |
| `TurnStores.RestartClosesTheLoop` | crates/kody-core/src/engine.rs:451-487 | wherever a run stops, recovery leads to a state in which runs start, and every turn that was unfinished or given up has failed |
| `TurnRecovery.RecoverInterruptedTurns` | crates/kody-core/src/engine.rs:451-487 | on a consistent store no step of the recovery can fail, and it fails all unfinished turns and rests all running threads |
| `TurnRecovery.NothingIsLeftRunning` | crates/kody-core/src/engine.rs:451-487 | afterwards nothing is unfinished or running, and everything else is as it was |
| `TurnEvents.TurnEventEmitter.Emit` | crates/kody-core/src/runtime.rs:1346-1355 | an ordinary event is published with the next number unless a terminal event is out or the event belongs to the runtime |
| `TurnEvents.TurnEventEmitter.EmitTerminal` | crates/kody-core/src/runtime.rs:1361-1369 | the first terminal event is published, every later one is not |
| `TurnEvents.TurnEventEmitter.EmitThreadUpdated` | crates/kody-core/src/runtime.rs:1371-1377 | a title update is published only after the terminal event |
| `TurnEvents.AttemptsKeepOrder` | crates/kody-core/src/runtime.rs:1385-1400 | whatever is attempted, events are numbered from one and only title updates follow the one terminal event |
| `Transcripts.ExecuteLoop` | crates/kody-core/src/runtime.rs:618-752 | at every model request each assistant message of the turn is followed by one answer per call in call order; requests never exceed the step limit; only the last message can be left without all its answers |
| `Transcripts.ValidateModelResponse` | crates/kody-core/src/runtime.rs:1183-1225 | accepts exactly the responses of text and named calls with different ids whose finish reason says whether there are calls |
| `Transcripts.AnswerCalls` | crates/kody-core/src/runtime.rs:671-748 | calls are answered in order up to the first that ends the turn |
| `Transcripts.CollectActivities` | crates/kody-core/src/runtime.rs:835-883 | for any event sequence there is one activity per id in first-seen order, with the last name, arguments and completion |
| `Transcripts.PersistExternalToolActivity` | crates/kody-core/src/runtime.rs:830-939 | the persisted calls have distinct ids in first-seen order and each gets exactly one answer with its content and metadata; an append that fails leaves a beginning of that, with calls answered in order as far as it goes |
| `Transcripts.PersistsIsUnique` | crates/kody-core/src/runtime.rs:830-939 | the promise leaves no choice of what is written |
| `BudgetHistories.BudgetHistory` | crates/kody-core/src/context.rs:329-369 | the longest suffix of whole turn groups within the budget, or the newest group if even that exceeds it |
| `BudgetHistories.Group` | crates/kody-core/src/context.rs:334-350 | the grouping loop joins adjacent messages of one turn and nothing else |
| `BudgetHistories.GroupsStartAtBoundaries` | crates/kody-core/src/context.rs:334-350 | groups start exactly where a message does not continue the turn before it |
| `BudgetHistories.WithinBudgetIsUnique` | crates/kody-core/src/context.rs:352-368 | the promise leaves no choice |
| `BudgetHistories.KeptResultsHaveCalls` | crates/kody-core/src/context.rs:333-334 | if turns are contiguous, no retained tool result loses its call |
| `VersionPreference.PrecedenceIsStandard` | crates/kody-app-server/src/codex/discovery.rs:314-361 | the comparison is exactly the precedence of item 11 of Semantic Versioning 2.0.0, and equal only on equal versions |
| `VersionPreference.VersionsAreTotal` | crates/kody-app-server/src/codex/discovery.rs:314-361 | a total order, through mixed prerelease lists of any lengths |
| `VersionPreference.ComparePrereleaseFields` | crates/kody-app-server/src/codex/discovery.rs:330-361 | the field-by-field loop computes that order |
| `VersionPreference.ParsingIsInjective` | crates/kody-app-server/src/codex/discovery.rs:296-312 | different spellings of an identifier are different identifiers |
| `VersionPreference.PreferenceMeaning` | crates/kody-app-server/src/codex/discovery.rs:224-247 | recognised versions come first, newer before older, and binaries tie only with the same version, source and path |
| `VersionPreference.PreferenceTransitive` | crates/kody-app-server/src/codex/discovery.rs:224-239 | preference is transitive |
| `VersionPreference.RankingIgnoresEnumeration` | crates/kody-app-server/src/codex/discovery.rs:220-222 | any two enumerations of binaries with different paths are ranked the same |
| `VersionPreference.SortByVersionPreference` | crates/kody-app-server/src/codex/discovery.rs:220-222 | the slice is sorted in place to the stable ranking |
| `RequestCaches.CreateRequestCache.constructor` | crates/kody-app-server/src/server.rs:61-67 | an empty window with room for at least one entry |
| `RequestCaches.CreateRequestCache.Get` | crates/kody-app-server/src/server.rs:69-71 | looks up the window |
| `RequestCaches.CreateRequestCache.Insert` | crates/kody-app-server/src/server.rs:73-86 | table and queue behave like one list: overwriting keeps the place, a new entry pushes out the oldest, table keys and queue stay equal |
| `RequestCaches.InsertionKeepsPlaces` | crates/kody-app-server/src/server.rs:73-86 | entries leave oldest first and only when the window is full |
| `RequestCaches.EntryStays` | crates/kody-app-server/src/server.rs:73-86 | an entry stays until as many new ones have entered as there were free places and older entries |
| `RequestCaches.OldestLeaves` | crates/kody-app-server/src/server.rs:78-83 | and leaves with the next new one |
| `RequestCaches.RetryCreatesNothing` | crates/kody-app-server/src/rpc.rs:713-795 | while an answered request is in the window, every retry gets the same thread and turn or a conflict and creates nothing |
| `RequestCaches.FailedCreationLeavesNothingIff` | crates/kody-app-server/src/rpc.rs:745-784 | a failed creation leaves its thread when the deletion of the thread failed, and a project if and only if that is new and the failure came between import and thread or one of the two deletions failed, as the store refuses to delete a project the thread still refers to; it never removes a project that was there before |
| `RequestCaches.StrandsExactly` | crates/kody-app-server/src/rpc.rs:745-784 | one request leaves a project with no thread referring to it if and only if it imported the project anew and failed before its thread existed, or rolled back the thread and not the project |
| `RequestCaches.OrphansWereStranded` | crates/kody-core/src/engine.rs:319-380 | in any sequence of requests, a project ends up with no thread referring to it only through a failure after its import, or a rollback that deleted the thread and not the project |
| `RequestCaches.FirstFailureStrandsProject` | crates/kody-core/src/engine.rs:333-346 | it happens: the first request imports a project, fails before its thread exists, and leaves the project |
| `RequestCaches.ReadBackFailureForgets` | crates/kody-app-server/src/rpc.rs:785-794 | a creation whose result cannot be read back is not remembered, so a retry, and only then, creates a second thread |

## Left out

- BoundedLog.OutputLog.Append: requires the total output to stay below the 64-bit maximum; saturation of cursors is not modelled.
- BoundedLog.OutputLog.Read: a chunk has its bytes but not the lossy text rendering beside them.
- LogPaging.FollowIsFaithful: nobody else removes or changes the log file.
- BudgetHistories.BudgetHistory: requires the total cost to fit the machine word, beyond which the source sums with overflow; a message is its turn, its cost and the calls it makes and answers.
- InMemoryStores.InMemoryStore.Mutate: mutations that are one check and one assignment are computed by the specification functions; only those with several steps or loops have their own method.
- SnapshotLoader.Load: lists of one snapshot are filed one after another where the source fills a map and its index in the same loop; the outcome does not depend on it.
- JsonFiles.EveryRunIsSafe: a store opened on a file whose content is not JSON or of an unknown version is covered only by `CommitProtocol.UnloadableIsUntouched`.
- SupervisionNumbers.PublishedNumbersIncrease: which signal was sent and whether it was forced, and the text of errors, are not part of the records; the output log appears by its start, end and sequence number, and output may advance them in any way that `OutputLogs.AppendOnlyAdvances` allows.
- Guardians.OwnerDeathKillsTheGroup: a spawned command always has a process id, the guardian itself is not killed, its new session cannot fail in a fresh fork, and signals to a group reach all members.
- Admission.LimitsHold: the checks of command and directory before the lock are not modelled, nor is the wait for the actor to end inside a stop.
- TurnRuntime.OneUnfinishedTurnPerThread: steps that fail without any effect, such as a claim whose write fails, are not steps; the crash of the server is the business of `TurnRecovery`.
- TurnRecovery.RecoverInterruptedTurns: all times of one recovery are one reading of the clock.
- Transcripts.ExecuteLoop: a tool is assumed to echo the id and name of its call; the content of requests beyond the turn's own messages is not modelled.
- RequestCaches.FailedCreationLeavesNothingIff: requests of other kinds that import the same project or refer to the new thread while a creation is under way are not modelled.
- VersionPreference.SortByVersionPreference: the library sort is written out as an insertion sort; recognising a version in program output by regular expression is not modelled, and paths are lists of components.
- Artifact paths are lists of components, and character classes are Unicode White_Space and ASCII case folding.
- HTTP, WebSocket and JSON-RPC dispatch, authentication, provider clients, image generation and the Codex transport: input and output.
- The desktop application: user interface.
- Title generation, prompt text, redaction, approvals and user questions: single-branch code.
- Process output readers, signals, `fork` and real files appear as steps that may succeed or fail.
