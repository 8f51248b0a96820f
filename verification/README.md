# Codrik: protocols and codecs, modelled and proved

Codrik is a durable agent runtime. This project models the protocols it depends on and proves what they keep, in
Dafny 4.11. `dafny verify dfyconfig.toml` checks all of it.

| file | what it models |
|---|---|
| `Common.dfy` | shared value types; runs of a guarded transition system |
| `ArtifactProtocol.dfy` | artifact staging against garbage collection, with crashes and power loss |
| `PathLocks.dfy` | the registry of weakly referenced path locks |
| `ArtifactCopy.dfy` | the counting and hashing copy loop |
| `Base64.dfy` | strict Base64, section 4 of RFC 4648 |
| `BundleVerifier.dfy` | the stream verifier of final bundles and the canonical event sequence |
| `JsonString.dfy` | the slice-emitting JSON string decoder, section 7 of RFC 8259, and UTF-8, sections 3 and 4 of RFC 3629 |
| `Calendar.dfy` | days to civil date, and the fixed-width text of sections 5.6 and 5.7 of RFC 3339 |
| `Quantum.dfy` | the actor quantum over its durable store, interrupted anywhere |
| `QuantumRunner.dfy` | the recovery loop and the model loop with its tool loop as code over that store |
| `OutboxClaims.dfy` | delivery of result bundles under renewed and fenced claims |
| `OutboxDelivery.dfy` | the waiting loops of one delivery task as code |
| `OutboxBudget.dfy` | the two nested semaphores and the memory counter |
| `RequestMetadata.dfy` | the cross-process monotone state file |
| `Messages.dfy`, `FileMemory.dfy` | messages, closed transcripts, and the append by rename with its legacy migration, under crashes and power losses |
| `Agent.dfy` | one agent run and the transcript it leaves |
| `Dispatcher.dfy` | reconciling dispatcher tasks with the actor directory |

## How things are modelled

Where interleaving is the point (artifacts, quanta, claims, semaphores, the state file, loads beside appends), a
component is a transition system on values: one action is one await point of the source, that is one file operation,
one transaction, one lock operation or one atomic counter operation. Timers, crashes, cancellation, lease expiry and
other tasks are actions that may happen at any time. The clock of the claims never runs backwards, but every task
reads it in one step and uses the reading in a later one. A main result speaks about every sequence of actions.

Where the source updates an object in place and nobody interferes, the model is a class or a loop: the path-lock
registry, the copy loop, the bundle verifier, the string decoder, the runner's loops, the waiting loops of a delivery,
the budget object, one metadata call, one append stopped after any number of steps, the agent and the dispatcher
manager. Each is proved against a specification function, and properties are proved about that function.

Uninterpreted functions stand for SHA-256 (an incremental digest is the sequence of bytes fed to it), for manifest and
payload serialisation and for the JSON texts of tool observations. Language model replies, tool outcomes, directory
readings, which dispatcher tasks end by themselves and when, file reads, writes and their failures are inputs. A power
loss leaves of every unsynced rename the old or the new file; of file memory, whose contents are not synced either, it
may also leave a torn file.

## Where the code does not do what one might expect

* Artifact sizes come from an earlier look at the source than the copy, so a row could be written with a wrong size;
  the commit transaction of the store looks at the file again, and that is what makes the size of committed rows right
  (`ArtifactProtocol.CommittedRowsHaveTheirFile`, `src/runtime/sqlite/artifacts.rs:90-96`).
* A load of file memory that runs beside the first append over a legacy file can return no messages at all
  (`FileMemory.LoadMayMissTheMigration`). `FileMemory.LoadsReturnTheContents` says that this is the only exception: the
  load began while only a readable legacy file with messages was there and then found neither file.
* After a power loss a load of request metadata may no longer find what an earlier load saw
  (`RequestMetadata.LoadsMayGoBackAfterPowerLoss`). `RequestMetadata.SeenIsKeptExactlyWhenSynced` gives the exact
  condition: the directory had been synced. For the same reason `create` on an existing record can acknowledge a record
  that a power loss takes away (`RequestMetadata.AcknowledgedRecordMayVanish`); it is kept exactly when its name had
  been synced (`RequestMetadata.AcknowledgedIsKeptExactlyWhenSynced`).
* File memory never syncs. A power loss keeps the contents exactly when the system has written the main file back by
  itself (`FileMemory.PowerLossKeepsExactlyWhenFlushed`), and the first append over a legacy file can cost all messages
  (`FileMemory.MigrationMayLoseEverything`).
* An agent run that fails between two tool results leaves a transcript that no later run repairs: every later request
  contains an assistant message with unanswered calls (`Agent.InterruptionIsNeverHealed`). Such runs exist for every
  reply with calls (`Agent.AFailedAppendInterrupts`).
* In the verifier a chunk can still be refused for its decoded size, but the offset overflow, the buffered total and
  the two size checks at the end can never fire (`BundleVerifier.ReachableAccounting`, `BundleVerifier.EndChecks`).
* A final dispatcher stop or a reconcile in which a task ends badly drops the tasks that were not awaited yet; they
  have been told to stop but may still be living (`Dispatcher.FailedReconcileLeavesAStray`).
* If the directory cannot be read again after the stale dispatchers were stopped, the reconcile fails with nothing
  started in their place (`Dispatcher.ActorDispatcherManager.ReconcileDispatchers`).

## Model

| member | source | states |
|---|---|---|
| ArtifactProtocol.CommittedRowsHaveTheirFile | src/runtime/artifacts.rs:154-273 | in every interleaving of stagers, collectors and crashes each committed row names the canonical path of a file with its digest and size, and a power loss at that moment leaves it |
| ArtifactProtocol.LocksCoverCheckToCommit | src/runtime/artifacts.rs:211-266 | a stager holds the lock of every path it will commit from its first check to the commit; a collector that is about to remove an orphan holds its lock and no committed row names it |
| ArtifactProtocol.NoDeadlock | src/runtime/artifacts.rs:211-218 | while any task waits for a path lock, some task that holds one does not wait |
| ArtifactProtocol.SomeHolderRuns | src/runtime/artifacts.rs:402-402 | following holders from any waiter climbs in the path order and ends at a holder that is not waiting |
| ArtifactProtocol.CommitItemsRows | src/runtime/sqlite/artifacts.rs:114-161 | after a commit every row is an old one or names the canonical path of an item of the execution; no other row appears |
| ArtifactProtocol.CommitCoversEveryItem | src/runtime/sqlite/artifacts.rs:119-161 | the loop of the commit transaction commits every item of the list and touches nothing else |
| ArtifactProtocol.CommitsAreWhole | src/runtime/sqlite/artifacts.rs:114-161 | in every run, an execution that has looked at its files again can commit exactly when each of its items is still staged and no row stands in its way; then every item, not only the first, is committed at its canonical path, none of them is staged any more, and every other row is as before |
| ArtifactProtocol.NextKeeps | src/runtime/artifacts.rs:154-408 | every action of staging, collecting, failing and crashing keeps the invariant behind the three results |
| ArtifactProtocol.StagingCanCommit | src/runtime/artifacts.rs:154-273 | from any state any content can be staged to the end while nobody is in its way: a content without a committed row gets one at its canonical path, written or found there; a content with a row gets no second one and its copy is discarded; locks, staging row and partial file are gone |
| ArtifactProtocol.PowerLossMayLoseUnsynced | src/runtime/artifacts.rs:250-254 | a power loss may happen at any time and may undo every rename that was not synced, or none |
| ArtifactProtocol.OrphanCanBeCollected | src/runtime/artifacts.rs:380-403 | from any state a file that no row names and whose path is free can be removed by a collector, and nothing else changes |
| ArtifactProtocol.ExpiredCanBeCollected | src/runtime/artifacts.rs:352-381 | from any state in which a staging lease has ended and its path is free a collector can remove the row and the file, and nothing else changes |
| PathLocks.StepRefinesMutexes | src/runtime/artifacts.rs:410-423 | each lookup, acquisition or drop on the weak registry is enabled exactly when it is on one mutex per path, with the same effect |
| PathLocks.RegistryRefinesMutexes | src/runtime/artifacts.rs:410-423 | the runs of the registry are exactly the runs of one mutex per path |
| PathLocks.GuardsExclude | src/runtime/artifacts.rs:410-423 | two guards on one path never coexist although dead entries are purged and replaced |
| PathLocks.ArtifactLocks.LockPath | src/runtime/artifacts.rs:411-421 | the code under the registry mutex takes the lookup step |
| ArtifactCopy.CopyAndHash | src/runtime/artifacts.rs:282-348 | succeeds exactly when no read, write, sync or renewal of the lease fails and the source still has the length found before, at most 256 MiB; then all of it is written and the digest is the digest of what was written; a failed copy has written a beginning of it |
| Base64.DecodeUndoesEncode | src/interfaces/local_renderer.rs:1085-1088 | the strict decoder reads every encoding back |
| Base64.EncodeUndoesDecode | src/interfaces/local_renderer.rs:1085-1088 | every accepted text is the encoding of its bytes, so padding and trailing bits are canonical |
| Base64.EncodeIsStandard | src/interfaces/local_renderer.rs:582-625 | the encoder writes the text of section 4 of RFC 4648, stated apart by symbol values and padding |
| BundleVerifier.EntriesRejectionExact | src/interfaces/local_renderer.rs:1007-1037 | the manifest loop accepts exactly the manifests with distinct deliveries, known kinds, right chunk counts and at most 16 MiB |
| BundleVerifier.HandleKeepsInv | src/interfaces/local_renderer.rs:933-970 | every event, accepted or refused, keeps the buffer accounting |
| BundleVerifier.CompletionIsCanonical | src/interfaces/local_renderer.rs:1111-1171 | whenever an end succeeds, the accepted events since the last accepted begin are the canonical encoding of the returned bytes, in manifest order |
| BundleVerifier.EncodingIsAccepted | src/interfaces/local_renderer.rs:582-625 | every canonical encoding of a legal payload list is accepted and its end returns that list |
| BundleVerifier.ChunkProgress | src/interfaces/local_renderer.rs:1048-1109 | a refused chunk changes nothing; an accepted one leaves one chunk less to come |
| BundleVerifier.EndChecks | src/interfaces/local_renderer.rs:1117-1144 | an end is early exactly when a chunk is still to come; its size checks never fire; it always takes the bundle |
| BundleVerifier.BeginAcceptedExactly | src/interfaces/local_renderer.rs:989-1046 | a begin is accepted exactly when no bundle is in progress or complete, it is for the expected request and its manifest is legal; a refused one changes nothing, so the bundle in progress is kept |
| BundleVerifier.ChunkAcceptedExactly | src/interfaces/local_renderer.rs:1048-1109 | a chunk is accepted exactly when it is the next one of the current delivery of the bundle in progress and its text is the Base64 text of as many bytes as remain, at most one full chunk; the bytes go behind those of its delivery and nowhere else |
| BundleVerifier.EndCompletesExactly | src/interfaces/local_renderer.rs:1111-1171 | an end completes exactly when the bundle in progress has its request, identifier and manifest hash, no chunk is left to come and every delivery has its digest and a payload of its kind; every end that is refused after the request check leaves no bundle, whatever was wrong with it |
| BundleVerifier.CompletionIsLast | src/interfaces/local_renderer.rs:933-970 | after a completion every event of every continuation is refused and the verifier stays as it is |
| BundleVerifier.ReachableAccounting | src/interfaces/local_renderer.rs:1069-1108 | buffered bytes are the sum of the buffers; deliveries are full before the cursor, empty after it, and the offset of the next chunk lies inside its delivery |
| BundleVerifier.FinalBundleVerifier.Handle | src/interfaces/local_renderer.rs:933-970 | the method changes the verifier as the specification does and returns its outcome |
| BundleVerifier.FinalBundleVerifier.Begin | src/interfaces/local_renderer.rs:989-1046 | accepts and refuses exactly as the step described by `BeginAcceptedExactly`, also while a bundle is in progress; a refusal changes nothing |
| BundleVerifier.FinalBundleVerifier.Chunk | src/interfaces/local_renderer.rs:1048-1109 | accepts and refuses as specified, without overflow; a refusal changes nothing |
| BundleVerifier.FinalBundleVerifier.End | src/interfaces/local_renderer.rs:1111-1171 | completes and refuses as specified |
| JsonString.VisitJsonString | src/interfaces/local_renderer.rs:1358-1409 | the loop hands exactly the slices of the value to the visitor in order, and refuses exactly when the text is refused or the visitor refuses a slice |
| JsonString.SlicesAreTheDecodedText | src/interfaces/local_renderer.rs:1358-1409 | there are slices exactly when the recursive decoder accepts, and they concatenate to what it returns |
| JsonString.ReadEscape | src/interfaces/local_renderer.rs:1375-1404 | one escape is read as the decoder reads it, which is as section 7 of RFC 8259 spells it (`SpellsExactlyWhatIsRead`): surrogate pairs joined, lone surrogates and unknown escapes refused |
| JsonString.ParseHexEscape | src/interfaces/local_renderer.rs:1411-1426 | the digit loop computes the positional value of four hexadecimal digits of either case |
| JsonString.UnicodeEscapesAreRead | src/interfaces/local_renderer.rs:1411-1426 | four hexadecimal digits written for a number in either case are read as that number, and no others are |
| JsonString.SurrogatesCombine | src/interfaces/local_renderer.rs:1387-1397 | the two surrogates of UTF-16 for a character combine to it, and no other pair does |
| JsonString.SpellsExactlyWhatIsRead | src/interfaces/local_renderer.rs:1375-1404 | what the decoder reads as one character is exactly what section 7 of RFC 8259 writes for it: the character itself, its short escape, its four digits in either case, or its surrogate pair |
| JsonString.DecodeUndoesEscaping | src/interfaces/local_renderer.rs:1358-1409 | decoding any legal spelling of any characters, stated by letters, digits and surrogates and not by the decoder, gives their UTF-8 |
| JsonString.StringsAreQuotedSpellings | src/interfaces/local_renderer.rs:1358-1409 | a UTF-8 value decodes exactly when it is a spelled text between quotation marks, and then to the UTF-8 of that text |
| JsonString.DecodedBodyIsSpelled | src/interfaces/local_renderer.rs:1358-1409 | conversely every UTF-8 body that decodes is a legal spelling of what it decodes to |
| JsonString.DecodedIsUtf8 | src/interfaces/local_renderer.rs:1358-1409 | a quoted value that is valid UTF-8 decodes to valid UTF-8 |
| JsonString.EncodedCharacterReads | src/interfaces/local_renderer.rs:1399-1401 | the encoded bytes of a scalar form one character of the RFC 3629 syntax and stand for that scalar |
| JsonString.FirstCharacterEncodes | src/interfaces/local_renderer.rs:1399-1401 | conversely a character of that syntax is the encoding of its scalar, never a surrogate |
| JsonString.CollectSmallJsonString | src/interfaces/local_renderer.rs:1346-1356 | returns the decoded text exactly when it decodes to at most the limit |
| JsonString.ValidateJsonString | src/interfaces/local_renderer.rs:1330-1332 | accepts exactly the values that decode |
| JsonString.RequireNonemptyJsonString | src/interfaces/local_renderer.rs:1334-1344 | accepts exactly the values that decode to a nonempty text |
| JsonString.ManagedPathIsAbsolute | src/interfaces/local_renderer.rs:1302-1314 | accepts exactly the values that decode to a text that starts with a slash and has no NUL |
| Calendar.CivilDateIsTheDay | src/runtime/model.rs:133-146 | for every day since the epoch the nested divisions give a valid date whose day number, counted by years and months, is that day |
| Calendar.DateOfDayNumber | src/runtime/model.rs:133-146 | every valid date from 1970 on is found again from its day number |
| Calendar.NextDayIsNextDate | src/runtime/model.rs:133-146 | the next day gets the calendar successor of the date |
| Calendar.DayNumberOrdersDates | src/runtime/model.rs:133-146 | day numbers order dates and tell them apart |
| Calendar.TextExistsExactlyInRange | src/runtime/model.rs:113-122 | a timestamp has a text exactly from the epoch to the end of the year 9999 |
| Calendar.TextParsesBack | src/runtime/model.rs:113-131 | the text read by the RFC 3339 grammar is the same millisecond |
| Calendar.ParsedTextIsTheText | src/runtime/model.rs:113-131 | every text of that shape that reads as a timestamp is the text of that timestamp |
| Calendar.TextsAreOrderedAsTimestamps | src/runtime/model.rs:113-131 | lexicographic order of texts is numeric order of timestamps |
| Quantum.AttemptsRunAtMostOnce | src/runtime/runner.rs:567-761 | over any quanta interrupted anywhere no attempt is executed twice, and its executor committed the step from prepared to running before |
| Quantum.CallsRunAtMostOnce | src/runtime/sqlite/checkpoint.rs:253-281 | over any quanta interrupted anywhere no call of a run is executed twice, because a run never has two attempts for one call |
| Quantum.SucceededAttemptsRan | src/runtime/runner.rs:947-1043 | an attempt recorded as succeeded was executed |
| Quantum.OutcomesAreTrue | src/runtime/runner.rs:947-1043 | in every run a recorded success was executed, a cancelled attempt was never started, a known failure was executed unless it was never started, and an attempt started and not executed has no known outcome |
| Quantum.ResultsFollowTheirCalls | src/runtime/runner.rs:728-761 | every tool result of the durable transcript follows an assistant message that names its call |
| Quantum.ResultsAppendedOnce | src/runtime/runner.rs:1046-1063 | the result of an attempt is in the transcript once if it is checkpointed and not at all otherwise |
| Quantum.RecoveredResultsAreNamedOnce | src/runtime/runner.rs:728-761 | the checkpoint of a recovered attempt appends its result, after a message that names the call exactly if the quantum has not seen one |
| Quantum.NeverRestarted | src/runtime/sqlite/checkpoint.rs:444-478 | from any state, an attempt that has left prepared is never started again in any run |
| Quantum.ExecutedLaterExactlyByItsExecutor | src/runtime/sqlite/checkpoint.rs:349-387 | from any state, an attempt that has left prepared is executed in some continuation exactly by a quantum that is alive and about to execute it; recovery adds no executor |
| Quantum.LeftRunningStaysUnexecuted | src/runtime/runner.rs:567-761 | once the quantum that left an attempt running is gone, no continuation starts or executes it or records a success that it did not have |
| Quantum.EndedRunsRest | src/runtime/sqlite/failures.rs:153-169 | once a run was cancelled or has failed, no continuation has a running attempt of it or starts one, after a failure none is prepared either, and what was running then has an unknown outcome |
| Quantum.StartupLosesOutcomes | src/runtime/sqlite/recovery.rs:62-76 | while nobody holds the lease a startup recovery can make exactly the running attempts that it names unknown |
| Quantum.AQuantumCanAnswer | src/runtime/runner.rs:507-566 | from any state a fresh quantum can take up any messages and answer them; the transcript gets exactly those and the answer, and the quantum, its run and its lease are over |
| Quantum.ACrashedQuantumIsReplaced | src/runtime/runner.rs:507-566 | wherever a quantum crashes, once its lease has run out another one can take up the run and finds attempts and transcript as they were |
| Quantum.APreemptedQuantumGoesOn | src/runtime/runner.rs:855-885 | a preempted quantum can go on in another run with the messages that came meanwhile, which are appended |
| Quantum.NextKeepsInv | src/runtime/runner.rs:507-1077 | every action of quanta, lease expiry, crash, cancellation and startup recovery keeps the invariant |
| Quantum.CheckpointRecoveredKeeps | src/runtime/runner.rs:728-761 | appending one recovered result with its attempt keeps transcript and checkpoints in step |
| Quantum.CheckpointResultsKeeps | src/runtime/runner.rs:1046-1063 | appending all results of a tool loop with their attempts keeps them in step |
| QuantumRunner.RuntimeStore.RecoverAttempts | src/runtime/runner.rs:567-761 | the undisturbed recovery loop is a run of the transition system; it executes exactly the prepared attempts that the policy allows, once each, in order and no more than the budget; if it gets through, every unresolved attempt is resolved and recorded as policy and outcome say, else it stops at the first that waits or exceeds the budget |
| QuantumRunner.RuntimeStore.RecoverOne | src/runtime/runner.rs:567-761 | one round appends exactly the recovered entries, or stops; it executes the attempt exactly when it was prepared, the policy allows it and the budget is not used up, and a prepared attempt is recorded as succeeded exactly if it was allowed and its execution succeeded, else as failed |
| QuantumRunner.RuntimeStore.RunPrepared | src/runtime/runner.rs:661-712 | a prepared attempt is started, executed and finished in this order, with exactly these entries in the log |
| QuantumRunner.RuntimeStore.SettlePrepared | src/runtime/runner.rs:570-592 | a prepared attempt found by recovery is refused by policy without running, or run; its state and the log say which |
| QuantumRunner.RuntimeStore.RunTools | src/runtime/runner.rs:944-1067 | the undisturbed tool loop executes and answers the calls in order, appends their results together and counts one step for each; no more attempts are executed than the budget leaves, and beyond it a call stays unanswered |
| QuantumRunner.RuntimeStore.AnswerTurn | src/runtime/runner.rs:902-1067 | one undisturbed model step appends the assistant message and then the results of its calls in order, and executes exactly the allowed calls among them, up to the budget; if all are answered the next step can begin |
| QuantumRunner.RuntimeStore.RunModelSteps | src/runtime/runner.rs:763-1067 | the undisturbed model loop is a run of the transition system: the transcript gets exactly the calls and results of its turns and then the plain answer, exactly the attempts of the answered calls are executed, in order and within the budget over all turns, and the loop ends at a plain answer, which ends the run, at the budget, at an attempt that is not prepared, or when the steps are used up |
| QuantumRunner.RuntimeStore.PrepareCalls | src/runtime/runner.rs:904-930 | one slot per call, with an attempt of this run and call exactly where the policy allows it; nothing is started |
| OutboxClaims.AtMostOneActiveClaim | src/runtime/outbox_worker.rs:228-474 | in every run at most one living task holds the active claim of a bundle |
| OutboxClaims.DeliveredIsFinal | src/runtime/sqlite/bundles.rs:292-418 | delivered is never left, from any state and in any run |
| OutboxClaims.RetryNeedsActiveClaim | src/runtime/outbox_worker.rs:453-473 | a retry changes its bundle exactly when the attempt is under way, the last claim ever granted or renewed on the bundle was granted to this very task and is the one it has, and it read the clock before the end of that claim; the next attempt is due 1, 2, 4, 8 or from the fifth failure on 30 seconds later |
| OutboxClaims.AttemptsAreAccountedFor | src/runtime/sqlite/bundles.rs:24-108 | the attempt counter equals retries, expiries, terminal failures and acknowledged attempts, plus one while delivering |
| OutboxClaims.ClaimsAreRespected | src/runtime/sqlite/bundles.rs:137-171 | a bundle under an active claim changes only by its holder, an acknowledgement, the shutdown of its owner, or a transaction whose reading is past its end |
| OutboxClaims.ClaimTakesWhatIsDue | src/runtime/sqlite/bundles.rs:24-108 | a worker gets a bundle exactly when it is new, due for its next attempt or under an ended claim at its reading; the claim is for thirty seconds and counts as one more attempt |
| OutboxClaims.RenewalKeepsStandingClaims | src/runtime/sqlite/bundles.rs:137-171 | a renewal is granted exactly while the claim stands and is then for thirty seconds from the reading; otherwise no bundle changes and the task is gone, unless it was sending and looks first |
| OutboxClaims.BadBundlesFailForGood | src/runtime/sqlite/bundles.rs:173-267 | a bundle that cannot be loaded or does not fit fails terminally exactly while the claim of its task stands; a good one goes on exactly then |
| OutboxClaims.ABundleCanBeDelivered | src/runtime/outbox_worker.rs:172-474 | a run in which a bundle is created, claimed, renewed, loaded, sent and acknowledged, and after which no task is left |
| OutboxClaims.EveryTaskCanEnd | src/runtime/outbox_worker.rs:228-474 | no task is ever stuck: from any state, whatever became of its claim, it can come to its end without being dropped or shut down |
| OutboxClaims.ClaimsComeBack | src/runtime/sqlite/bundles.rs:46-92 | a claim whose end has passed is not lost: a later claim takes the bundle over with a new task, a startup recovery gives it back, and so does the shutdown of its owner at any time, which leaves that owner no task |
| OutboxClaims.AcknowledgementDelivers | src/runtime/sqlite/bundles.rs:381-395 | an acknowledgement delivers exactly a bundle that is on its way or waits for its next attempt |
| OutboxClaims.NextKeepsInv | src/runtime/outbox_worker.rs:172-474 | every clock, claim, renew, load, send, deadline, retry, acknowledge, recovery and shutdown step keeps the invariant |
| OutboxDelivery.Transmit | src/runtime/outbox_worker.rs:329-405 | the first wake that decides fixes the verdict and the task waits exactly as long as none does: it retries exactly on failed sends, a passed deadline or lost recipients, is done exactly on a wake after a successful send that shows the bundle delivered, aborts exactly on a refused renewal of an undelivered bundle, and a retry carries the latest renewed claim |
| OutboxDelivery.AwaitSlot | src/runtime/outbox_worker.rs:228-273 | the first grant or refused renewal decides and nothing before it does, with the claim as renewed by then |
| OutboxDelivery.AwaitSends | src/runtime/outbox_worker.rs:357-381 | the end of the sends decides, or a refused renewal unless the bundle is delivered; nothing before it does |
| OutboxDelivery.WaitForAck | src/runtime/outbox_worker.rs:407-451 | deadline, poll or refused renewal decide, whichever comes first, with an exact condition for each verdict and the claim as renewed by then |
| OutboxDelivery.CurrentTogether | src/runtime/outbox_worker.rs:228-451 | the claim carried through two waits is the claim after all their renewals |
| OutboxDelivery.TasksFollowTheCode | src/runtime/outbox_worker.rs:329-451 | in every run of the transition system a delivering task is retrying, or still sends or waits, exactly as the code decides on the wakes it has had, with the claim the code carries |
| OutboxDelivery.LeavingIsDecided | src/runtime/outbox_worker.rs:329-451 | in the transition system a transmitting task leaves only when it is dropped or shut down, with its retry, or on a wake that shows the bundle delivered or the claim lost |
| OutboxDelivery.CurrentIsTheLatest | src/runtime/outbox_worker.rs:228-451 | the claim a wait ends with has the expiry of the last renewal that was granted, and is the one at the start if none was |
| OutboxBudget.BudgetHolds | src/runtime/outbox_worker.rs:32-77 | counter and peak stay within 64 MiB, at most four slots and two reservations are held, and whoever holds memory holds a slot |
| OutboxBudget.PeakCoversReservations | src/runtime/outbox_worker.rs:57-61 | once raised counters are recorded, the peak covers all that is reserved |
| OutboxBudget.SomeTaskCanGoOn | src/runtime/outbox_worker.rs:204-226 | while a task is unfinished some task can take its next step |
| OutboxBudget.ATransmissionCanFinish | src/runtime/outbox_worker.rs:49-77 | from any state with a free slot and free memory a transmission can go through; it gives everything back and leaves only its trace in the peak |
| OutboxBudget.GivingUpReturnsTheSlot | src/runtime/outbox_worker.rs:228-327 | a task that gives up waiting gives back the slot that it holds, if any |
| OutboxBudget.TransmissionMemoryBudget.ReserveMaxBundle | src/runtime/outbox_worker.rs:49-65 | a reservation is granted exactly while at most one is held, raises the counter by 32 MiB and keeps the peak a maximum |
| RequestMetadata.FileRefinesOperations | src/interfaces/request_metadata.rs:350-409 | but for a power loss the file changes only by a rename, which stores what the operation makes of the current file |
| RequestMetadata.OperationsMeanWhatTheySay | src/interfaces/request_metadata.rs:350-409 | create writes a new record exactly when there is none and refuses exactly another prompt; a state change stores exactly that state and keeps the rest, and is refused exactly without a record or for a step back |
| RequestMetadata.ACallCanFinish | src/interfaces/request_metadata.rs:350-409 | from any state with a free lock a call can finish; what it writes is then in the file and on disk, and no lock, no temporary file and no other change is left |
| RequestMetadata.AFailedWriteLeavesNothing | src/interfaces/request_metadata.rs:447-488 | a write that fails before its rename removes its temporary file and leaves everything as it was |
| RequestMetadata.LoadsNeverGoBack | src/interfaces/request_metadata.rs:350-441 | whichever processes die wherever, loads never see the state go back, nor the creation time or prompt hash change |
| RequestMetadata.SeenIsKeptExactlyWhenSynced | src/interfaces/request_metadata.rs:447-488 | what a load sees survives every continuation, power losses included, exactly when it is already on disk |
| RequestMetadata.WrittenIsKept | src/interfaces/request_metadata.rs:443-488 | what a call has written and synced stays or moves forward, through power losses too |
| RequestMetadata.LoadsMayGoBackAfterPowerLoss | src/interfaces/request_metadata.rs:447-488 | a run in which a power loss undoes what a load saw |
| RequestMetadata.AcknowledgedIsKeptExactlyWhenSynced | src/interfaces/request_metadata.rs:350-366 | a record that a call of create finds and acknowledges is there in every continuation, power losses included, exactly when its name had been synced before |
| RequestMetadata.AcknowledgedRecordMayVanish | src/interfaces/request_metadata.rs:350-366 | for every record a run in which a writer dies before the sync, a second create acknowledges the record and a power loss takes it away |
| FileMemory.StoredMessageReadsBack | src/memory/file.rs:142-180 | the stored form converts back to the same message |
| FileMemory.OnlyLegacyTextIsRewritten | src/memory/file.rs:142-180 | a stored message is written back unchanged exactly when it is in the form with parts |
| FileMemory.MemoryIsAppendOnly | src/memory/file.rs:48-122 | through appends, loads, crashes and power losses that find the main file written back, the memory holds the initial messages followed by exactly the appends whose rename happened, in order |
| FileMemory.LoadsReturnTheContents | src/memory/file.rs:48-73 | in the same runs a load returns what the memory held when it began or ended, or fails; the one exception is a load that began while only a readable legacy file with messages was there and that finds no file |
| FileMemory.LoadMayMissTheMigration | src/memory/file.rs:48-110 | from every state with only a legacy file with messages there is a run in which a load returns nothing |
| FileMemory.PowerLossKeepsExactlyWhenFlushed | src/memory/file.rs:75-109 | whatever a power loss leaves of the unsynced files, the contents survive it exactly when the system has written the main file back by itself |
| FileMemory.MigrationMayLoseEverything | src/memory/file.rs:90-107 | for every legacy file a run in which the first append finishes and a power loss then leaves an empty memory |
| FileMemory.FileMemoryStore.WriteMessages | src/memory/file.rs:75-109 | stopped after any step it leaves the old contents before the rename and the new ones from it on |
| FileMemory.FileMemoryStore.Append | src/memory/file.rs:113-118 | stopped anywhere it leaves the old messages, or the old messages and the new one |
| Messages.ClosedBeforeUser | src/agent.rs:188-260 | a transcript with a user message in it is closed exactly when both parts around it are |
| Messages.TextIsCarried | src/agent/message.rs:25-61 | every constructed message carries the text it was given |
| Messages.InterruptedIsNotClosed | src/agent.rs:188-260 | a transcript that stops among the results of its last calls is not closed, and no user message closes it |
| Agent.RequestsClosedIff | src/agent.rs:175-186 | each request of a run, answered or not, is closed exactly when the transcript was closed before the run |
| Agent.InterruptionIsNeverHealed | src/agent.rs:188-260 | after an interruption no request of any later run is closed |
| Agent.AFailedAppendInterrupts | src/agent.rs:188-260 | for every reply with tool calls and every number of its results a run that a failed append stops after so many results |
| Agent.Agent.Execute | src/agent.rs:46-69 | every request that is sent, also the last one that gets no reply, is the prompt and the transcript so far and is closed exactly when the old transcript was, whatever tools fail; success ends with the plain answer; a failure stops at a failed append, before a request or without a reply, and leaves a closed or an interrupted transcript accordingly |
| Agent.Agent.ExecuteStreaming | src/agent.rs:119-154 | the same with streaming; text of turns with tool calls never reaches the sink, and on success the sink got exactly the delivered files of all calls in order and then every event of the last turn |
| Agent.Agent.RecordResponse | src/agent.rs:188-260 | records the reply and exactly one result per call with its observation, or a beginning of that |
| Agent.RecordedIsTheReply | src/agent.rs:188-260 | a reply leaves its text and calls, then for each call in order the observation of its own outcome under its identifier |
| Agent.Agent.Deliver | src/agent.rs:217-240 | the files reach the sink in order up to the first that is refused, all others do not, and the observation says whether all of them did |
| Agent.SuccessMeansDelivered | src/agent.rs:217-240 | the observation is the success of the tool if each of its files reached the sink, and a failure if one did not or the tool failed |
| Dispatcher.ActorDispatcherManager.ReconcileDispatchers | src/runtime/dispatcher.rs:82-137 | it succeeds exactly when the readings it needs succeed and the stale tasks end well; then wanted children keep their tasks, which nobody touched, stale tasks were told and have ended, and exactly the missing actors got a new task with the wanted snapshot; if the first reading fails nothing has changed, if a stale task ends badly or the second reading fails only the stale children are gone, and after a failed reading their tasks have all ended |
| Dispatcher.StableDirectoryIsMatched | src/runtime/dispatcher.rs:82-137 | with a stable directory the running dispatchers are the enabled actors with identical snapshots, and each of their tasks is untold and lives unless it has ended by itself |
| Dispatcher.ActorDispatcherManager.StopAllDispatchers | src/runtime/dispatcher.rs:149-160 | afterwards nothing is running and, unless a task ended badly, no task lives |
| Dispatcher.FailedReconcileLeavesAStray | src/runtime/dispatcher.rs:112-118 | a failed reconcile after which a task that was told to stop lives on and is nobody's child |
| Dispatcher.ActorDispatcherManager.RunWith | src/runtime/dispatcher.rs:31-79 | at every step, inside a reconcile too and while tasks end by themselves, no actor has two living tasks; after a round with a stable directory the enabled actors are running; told to stop it leaves no living task; if it fails, whatever still lives was told to stop or aborted; it succeeds only if no round it comes to is interrupted, and fails only for that, for a round without a second reading or for a task that ended badly |
| Dispatcher.EnabledByIdentifier | src/runtime/dispatcher.rs:139-147 | the collected map holds exactly enabled listed actors, under their own identifiers |
| Dispatcher.EnabledExactly | src/runtime/dispatcher.rs:139-147 | from a listing with one entry for each actor exactly the enabled entries are collected |
| Dispatcher.KeptExactly | src/runtime/dispatcher.rs:90-104 | exactly the children stay that live and whose snapshot is still listed as enabled, as it is |

## Left out

* `remove_deleted_artifacts` and the deletion of actors with their rows: they bypass the path locks and happen to disabled actors only.
* Symlink, permission, mode and owner checks, `InstanceLock`: operating-system calls; one process is taken to own the artifact root.
* SHA-256, identifiers, serde: uninterpreted; two contents with one digest are not excluded, every property is stated on digests.
* Timers: heartbeats, polls, deadlines and `select!` are steps that may happen at any time; wall-clock durations are not proved, nor that a renewal comes in time.
* The quantum as a state machine: `Quantum` is on values because quanta interleave; `QuantumRunner` gives the recovery loop and the model loop as code without interference. Control events, preemption, streaming and activity events have no code form.
* Store guards that only make fewer runs possible (the generation stored with a run, leases of other owners that have not expired, failure counts) are left out, so the theorems cover more runs than the store allows.
* `ActorDispatcher` itself, the loop that runs quanta until it is told to stop: `Dispatcher` knows of a task only its actor, whether it was told to stop and whether it lives.
* `TextDelta` batching, spinner output, request subscription, and the frame size limits of `prepare_bundle`: the outcome of preparing a bundle is an input of `OutboxClaims`.
* Queue order of the semaphores: any waiter may be served; fairness is not proved.
* Saturation of timestamps near the end of the 64-bit range in `plus_millis`.
* Parsing of payload objects: `parse_payload`, UUID checks and serde are one uninterpreted partial function in `BundleVerifier`; the string checks they are built from are in `JsonString`.
* Attachments as files: `FileMemory` and `Agent` carry attachment descriptions only.
* ArtifactProtocol.CommitsAreWhole: the retained quota of 2 GiB for an actor and ended leases are not modelled; both only refuse commits.
* FileMemory.LoadsReturnTheContents: says nothing about a load whose file vanishes between the check and the read beyond that it fails.
* Agent.Agent.Execute: an append that fails after its rename counts as not done, so the message it left is not in the modelled transcript.
* Telegram, Reticulum and webhook gateways, the model client, the command line, the updater, configuration, skills, and reply truncation.
