# Wordflow runtime protocols in Dafny

This project models the protocols and algorithms at the core of the Wordflow backend and proves
what they guarantee: fair bounded dispatch, the race between launching and cancelling a process,
storage admission over two ledgers, per-user gates that are reclaimed and created anew, the
lifecycle of User File Imports, bounded event delivery, and a handful of text, table and tree
algorithms. It stands alone: `dafny verify dfyconfig.toml` checks everything.

## How the model is built

Most components come in two layers.

- A value layer: a `State`, a set of steps, a `Next` (or `Step`, `Act`) function, and a `Run` over any
  finite sequence of steps. One step is one region that the program runs under a lock, or without
  giving up control; everything between two such regions can interleave with anything else. Main
  results are statements about every run. A step that cannot happen in a state is skipped, so a
  run may ask for anything.
- An object layer: a class with the program's fields, whose methods are written the way the
  program works and are proved to move its `View()` exactly as the value layer says.

Beside the two layers stand laws that pin the answers from outside: what a whole run makes true, what
comes and goes without a trace, and exact conditions written out in the program's own data rather
than in the functions that compute them.

Algorithms without shared state (replacement with offsets, the SQL scan, the histogram, the walks
over trees) are methods with loops, proved against a function or a declarative predicate that does
not mention the loop.

| file | module | component |
|---|---|---|
| FairQueue.dfy | FairQueue | the rotating per-user queue |
| AnalysisScheduler.dfy | AnalysisScheduling | dispatch loop, capacity, wake and idle events |
| ImportScheduler.dfy | ImportScheduling | the same loop with cancel scopes |
| AnalysisExecutor.dfy | AnalysisExecution | launch entries and processes |
| AnalysisCancellation.dfy | AnalysisCancellation | records, scheduler and executor together |
| AnalysisRuntime.dfy | AnalysisRuntime | scheduler, records and processes in one run |
| Quota.dfy | Quota | estimate, reservation ledger, end-to-end bound |
| QuotaLeaks.dfy | QuotaLeaks | what stays in the ledger after late rechecks and lost callers |
| QuotaService.dfy | QuotaAdmission | whole quota operations and their object |
| StorageAdmission.dfy | StorageLedger | quota plus disk headroom plus snapshot slots |
| StorageBounds.dfy | StorageBounds | quota and disk bounds over one run |
| KeyedGate.dfy | KeyedGates | the reclaimed per-user lock |
| ImportRecord.dfy | ImportRecord | the validated import record |
| ImportLifecycle.dfy | ImportLifecycle | the import service under its gate |
| EventHub.dfy | EventDelivery | bounded event streams |
| OffsetMapping.dfy | OffsetMapping | replacements that remember offsets |
| Concordance.dfy | Concordance | the document filter |
| ConcordanceDensity.dfy | ConcordanceDensity | the histogram, and its agreement with the filter |
| SqlScanner.dfy | SqlScanner | the scan for external reader calls |
| AnalysisForest.dfy | AnalysisForest | lineage, removal and supersession |
| UserFileTree.dfy | UserFileTree | the budgeted file listing |
| Common.dfy, StableSorting.dfy, Sums.dfy, Arithmetic.dfy | | shared vocabulary |

## What the model assumes

- Identities that the program draws at random (UUIDs, event objects, processes) are numbers that
  have not been used before. Users and Workspaces are strings or numbers.
- A lock is exclusive, and a cancelled task leaves it. A gated region is one step where the gate is
  all that other steps could observe it through; the quota operations are split at their scan,
  because writers do not take the gate.
- Time is an integer that never runs backwards where a result says so. Progress fractions are real
  numbers; the program only compares them.
- What the outside decides is a parameter of the step or method: the policy read from the database,
  the size found by a scan, the free disk space, whether a file could be saved or published, and
  the order in which the file system lists a directory.

## What the proofs turned up

- The document filter is not in general the simple filter it looks like. It agrees with it exactly
  when nulls do no harm (`Concordance.NullSafe`): without excluded texts a document with no matches
  comes back with one match whose columns are all null, and with excluded texts a match without a
  text is dropped. `Concordance.FilterIsSimple` gives the condition in both directions. The only
  producer of such Results drops matches without a text and groups the others
  (src/ldaca_wordflow/workers/concordance.py:269 and 524-536), so what it writes always filters
  simply (`Concordance.ResultsFilterSimply`).
- The histogram counts null texts under the empty label, and the filter treats them differently.
  `ConcordanceDensity.FilterCountsExactly` says by how much the two are apart, for every label and bin.
- The last of the six length-changing replacements never does anything
  (`OffsetMapping.LastRuleIsIdle`). Two of the accent rules rewrite a pair of characters to one, so
  the substitutions change the length of exactly the texts with such a pair
  (`OffsetMapping.LengthChangesOnlyByPairs`), and those are refused.
- An import can be published and still end FAILED, if its record cannot be saved after publication
  (`ImportLifecycle.PublishedMayStillFail`). Whether it could be saved decides for good:
  `ImportLifecycle.PublicationSucceedsIffSaved`. Before shutdown it can never be published and CANCELLED.
- A canceller that is itself cancelled after its commit loses the signal, and a second request does
  not send it again: the Analysis stays RUNNING with its process
  (`AnalysisCancellation.LostSignalIsNotResent`). Clearing or deleting its Tab does send again.
  `AnalysisCancellation.CancelReachesExecution` says exactly when a committed request has arrived:
  unless every signal for it was lost while the executor is open and the execution goes on.
- A recheck looks at the released flag before it waits for the gate, an empty reservation is released
  without the gate, and the flag is set after the gate has been left. A recheck that is accepted
  after the reservation was given back leaves it with bytes, exactly then
  (`QuotaLeaks.LeaksExactlyByLateRecheck`), and they can stay for good
  (`QuotaLeaks.LateRecheckLeaks`). The ledger stays a sum throughout.
- A caller that is cancelled after its booking, while it deregisters from the gate, leaves the booked
  bytes in the ledger for good (`QuotaLeaks.DroppedStaysBooked`).
- A recheck can grow a reservation beyond what was admitted on the disk, which is never rechecked. Both
  bounds hold of one run for writers that keep within their reservation as long as no recheck does
  (`StorageBounds.QuotaAndDiskHold`).
- Adding an Analysis to a missing Tab is refused only after the record has been added
  (`AnalysisForest.Workspace.AddAnalysis`).
- A deregistration that is cancelled leaves a gate's counter one too high for good. Mutual exclusion
  does not suffer; only the gate is then never reclaimed (`KeyedGates.LostIsForGood`; it happens in
  `KeyedGates.UnusedGateMayStay`).
- A quota refusal and a physical refusal both leave the ledgers exactly as they were, entry by entry
  (`StorageLedger.StorageAdmissionService.Acquire`).

## Model

| member | source | states |
|---|---|---|
| FairQueue.FairUserQueue.IsWaiting | src/ldaca_wordflow/services/fair_queue.py:20-21 | the queue is true exactly when some user has queued work |
| FairQueue.FairUserQueue.Enqueue | src/ldaca_wordflow/services/fair_queue.py:23-34 | the new queue is the old one with the item sorted into its user's list, ties in arrival order, and the user appended to the rotation only if new |
| FairQueue.FairUserQueue.Select | src/ldaca_wordflow/services/fair_queue.py:36-47 | takes the first item of the user who is next after the last-served rule, and the queue moves on by exactly that; with the two laws on runs, the oldest |
| FairQueue.FairUserQueue.Discard | src/ldaca_wordflow/services/fair_queue.py:49-66 | returns exactly one user's matching items in order and takes out exactly those; a user left without items leaves the rotation |
| FairQueue.FairUserQueue.Drain | src/ldaca_wordflow/services/fair_queue.py:75-79 | empties the queue and returns every item once, each user's items together and in order |
| FairQueue.BypassedAtMostOnce | src/ldaca_wordflow/services/fair_queue.py:23-79 | over every run of additions, removals, clears and selections during which a user stays queued unserved, every other user is selected at most once |
| FairQueue.ServedWithinPosition | src/ldaca_wordflow/services/fair_queue.py:36-47 | a waiting user who was not served last sees at most as many selections as users were ahead when the wait began |
| FairQueue.PopMovesForward | src/ldaca_wordflow/services/fair_queue.py:36-47 | a selection that passes over a waiting, not last-served user shortens the list of users ahead and puts nobody new in front |
| FairQueue.OthersStayBehind | src/ldaca_wordflow/services/fair_queue.py:23-66 | no addition or removal puts anybody in front of a user who stays queued |
| FairQueue.NeverTwiceInARow | src/ldaca_wordflow/services/fair_queue.py:36-47 | whoever a run served last is not next while another user waits |
| FairQueue.WorkIsConserved | src/ldaca_wordflow/services/fair_queue.py:23-79 | per user and over every run: queued before plus added equals queued after plus selected plus removed, as multisets |
| FairQueue.SmallestIsNext | src/ldaca_wordflow/services/fair_queue.py:32-41 | over every run the item selected next is no larger than any that its user has queued |
| FairQueue.EarliestOfEquals | src/ldaca_wordflow/services/fair_queue.py:32-41 | over every run, among equal items of a user the one selected next is the earliest to arrive |
| StableSorting.StableSortSorted | src/ldaca_wordflow/services/fair_queue.py:32 | the list sort leaves items in key order |
| StableSorting.StableSortKeepsTies | src/ldaca_wordflow/services/fair_queue.py:32 | the list sort never reorders items with equal keys |
| AnalysisScheduling.AnalysisScheduler.Start | src/ldaca_wordflow/services/analysis_scheduler.py:62-68 | dispatch starts once; a second start is refused and changes nothing |
| AnalysisScheduling.AnalysisScheduler.Submit | src/ldaca_wordflow/services/analysis_scheduler.py:70-98 | accepts a key exactly when dispatch accepts work and the key is neither queued nor running, and then sets the current wake event |
| AnalysisScheduling.AnalysisScheduler.CancelQueued | src/ldaca_wordflow/services/analysis_scheduler.py:100-119 | removes the key if it is queued, otherwise says whether it runs; never both |
| AnalysisScheduling.AnalysisScheduler.HasWorkspaceWork | src/ldaca_wordflow/services/analysis_scheduler.py:121-133 | true exactly when some key of that user and Workspace is queued or running |
| AnalysisScheduling.AnalysisScheduler.DiscardWorkspace | src/ldaca_wordflow/services/analysis_scheduler.py:135-157 | removing a Workspace's items one by one equals removing them at once; the keys to signal are exactly its running ones |
| AnalysisScheduling.AnalysisScheduler.StopDispatching | src/ldaca_wordflow/services/analysis_scheduler.py:159-169 | hands back everything queued once, and nothing the second time |
| AnalysisScheduling.AnalysisScheduler.CheckIdle | src/ldaca_wordflow/services/analysis_scheduler.py:175-183 | one turn of the idle wait: done exactly when nothing runs, otherwise asleep on the idle event captured under the lock, with nothing else changed |
| AnalysisScheduling.AnalysisScheduler.TakeNext | src/ldaca_wordflow/services/analysis_scheduler.py:190-197 | selects the fair next item into the free slot, behind a fresh idle event if nothing ran |
| AnalysisScheduling.AnalysisScheduler.TakeOrSleep | src/ldaca_wordflow/services/analysis_scheduler.py:186-199 | the top of the loop starts exactly the fair next item if there is one and a slot is free; otherwise it captures the wake event or stops |
| AnalysisScheduling.AnalysisScheduler.NoticeWake | src/ldaca_wordflow/services/analysis_scheduler.py:199 | the sleeping loop goes on only when the event it captured is set |
| AnalysisScheduling.AnalysisScheduler.ReplaceWake | src/ldaca_wordflow/services/analysis_scheduler.py:200-202 | the seen event is replaced only if it is still the current one |
| AnalysisScheduling.AnalysisScheduler.Exit | src/ldaca_wordflow/services/analysis_scheduler.py:212-218 | a leaving runner frees its slot, sets the idle event if it was the last, and wakes the loop |
| AnalysisScheduling.NoLostWakeup | src/ldaca_wordflow/services/analysis_scheduler.py:70-119 | in every interleaving, a loop asleep on an unset event sleeps on the current one, dispatch is not stopping, and nothing is queued or all slots are taken |
| AnalysisScheduling.StartsWithinThreeTurns | src/ldaca_wordflow/services/analysis_scheduler.py:185-202 | while work is queued and a slot is free throughout, the loop starts something within three of its own turns |
| AnalysisScheduling.ExactlyOneFate | src/ldaca_wordflow/services/analysis_scheduler.py:70-219 | every acceptance of a key is matched by exactly one of queued, running, finished, cancelled while queued, or handed back; never more than capacity run |
| AnalysisScheduling.NothingStartsAfterStop | src/ldaca_wordflow/services/analysis_scheduler.py:159-169 | once stopping, the queue stays empty and nothing starts in any continuation |
| AnalysisScheduling.IdleIsNeverStale | src/ldaca_wordflow/services/analysis_scheduler.py:175-218 | the idle event is set exactly when nothing runs, and an unfinished idle wait is on the current event |
| AnalysisScheduling.FairDispatch | src/ldaca_wordflow/services/analysis_scheduler.py:185-202 | in every run of scheduler steps, while one user's work stays queued each other user has at most one item started |
| AnalysisScheduling.OldestStartsFirst | src/ldaca_wordflow/services/analysis_scheduler.py:185-199 | in every run a turn with work queued, a free slot and no stop starts exactly one item, the one of its user with the smallest creation time and then identifier |
| AnalysisScheduling.EnqueueTakesEffect | src/ldaca_wordflow/services/analysis_scheduler.py:70-98 | in every run an attempt to enqueue leaves the key queued exactly if it was, or dispatch has been started, not been stopped, and the key does not run; no other key is touched |
| ImportScheduling.UserFileImportScheduler.CancelKey | src/ldaca_wordflow/services/user_file_import_scheduler.py:89-104 | answers queued, running or missing exactly as the key is found, removing or flagging it accordingly |
| ImportScheduling.UserFileImportScheduler.CancelAll | src/ldaca_wordflow/services/user_file_import_scheduler.py:116-123 | flags every running import and returns exactly the running keys |
| ImportScheduling.UserFileImportScheduler.TakeOrSleep | src/ldaca_wordflow/services/user_file_import_scheduler.py:133-147 | the shared loop top; an import that starts gets a handle without a scope |
| ImportScheduling.UserFileImportScheduler.Enter | src/ldaca_wordflow/services/user_file_import_scheduler.py:152-159 | the runner installs its scope, interrupted at once if cancellation came first |
| ImportScheduling.UserFileImportScheduler.Leave | src/ldaca_wordflow/services/user_file_import_scheduler.py:166-172 | the leaving runner drops its handle and frees its slot |
| ImportScheduling.ImportRunRefines | src/ldaca_wordflow/services/user_file_import_scheduler.py:39-172 | every run of the import scheduler is, underneath, a run of the shared dispatcher |
| ImportScheduling.ImportDispatchIsSafe | src/ldaca_wordflow/services/user_file_import_scheduler.py:63-172 | so no lost wake-up, no stale idle event, capacity and exactly one fate hold for imports |
| ImportScheduling.CancellationReachesRunner | src/ldaca_wordflow/services/user_file_import_scheduler.py:89-159 | after the answer "running", until that runner leaves, its scope is interrupted or will be when installed |
| ImportScheduling.OnlyCancelledAreInterrupted | src/ldaca_wordflow/services/user_file_import_scheduler.py:89-159 | an import that no request names is never flagged or interrupted, in any run without a cancellation of all |
| AnalysisExecution.AnalysisProcessExecutor.ReserveEntry | src/ldaca_wordflow/services/analysis_executor.py:106-114 | creates the launch entry unless the executor is closed or the key has one |
| AnalysisExecution.AnalysisProcessExecutor.DiscardEntry | src/ldaca_wordflow/services/analysis_executor.py:116-122 | removes an entry that has no process, and no other |
| AnalysisExecution.AnalysisProcessExecutor.TryLaunch | src/ldaca_wordflow/services/analysis_executor.py:147-164 | starts a process if and only if the entry exists, is not cancelled and the executor is open; otherwise nothing changes but the call that is noted |
| AnalysisExecution.AnalysisProcessExecutor.CancelEntry | src/ldaca_wordflow/services/analysis_executor.py:185-195 | flags the entry and hands out exactly the process the executing call started, if any |
| AnalysisExecution.AnalysisProcessExecutor.CloseAll | src/ldaca_wordflow/services/analysis_executor.py:197-212 | the first close flags every entry and hands out all running processes |
| AnalysisExecution.AnalysisProcessExecutor.Leave | src/ldaca_wordflow/services/analysis_executor.py:177-179 | the executing call drops its entry after its process has ended |
| AnalysisExecution.CancelledProcessesAreTerminated | src/ldaca_wordflow/services/analysis_executor.py:106-212 | in every run each running process has an owner, and one under a cancelled entry is committed to termination |
| AnalysisExecution.NoStartAfterCancel | src/ldaca_wordflow/services/analysis_executor.py:147-164 | from a cancelled entry, or a closed executor, no continuation starts a process before a new reservation |
| AnalysisExecution.CancelPreventsStart | src/ldaca_wordflow/services/analysis_executor.py:185-195 | whatever ran before, after a cancel nothing starts from that entry |
| AnalysisExecution.ClosedStaysEmpty | src/ldaca_wordflow/services/analysis_executor.py:197-212 | once closed with the committed terminations done, no process runs in any continuation |
| AnalysisExecution.LaunchStarts | src/ldaca_wordflow/services/analysis_executor.py:147-164 | in every run a launch under an entry leaves a new process alive for that key if and only if the executor is open and the entry is not cancelled |
| AnalysisExecution.ExecutionComesAndGoes | src/ldaca_wordflow/services/analysis_executor.py:106-179 | from every reachable open executor, reserving and launching get a process running beside all others, and after its end and its call's everything is as before |
| AnalysisExecution.CancelledCanBeTerminated | src/ldaca_wordflow/services/analysis_executor.py:185-212 | from every reachable state a cancelled key's process, or on closing any process, can be terminated at once |
| AnalysisCancellation.CancelReachesExecution | src/ldaca_wordflow/services/analyses.py:586-648 | a committed request on a RUNNING Analysis, with no signal on its way, has flagged its launch entry and doomed its process, or its execution has ended, if and only if some signal for it was not lost, or the executor was closed, or the execution is over anyway |
| AnalysisCancellation.LostSignalIsNotResent | src/ldaca_wordflow/services/analyses.py:609-648 | with its only signal lost an Analysis can stay RUNNING with a live process, and asking again changes nothing |
| AnalysisCancellation.CancelledHasNoProcess | src/ldaca_wordflow/services/analyses.py:1150-1176 | once CANCELLED is committed no process of that Analysis runs, and its runner never comes to start one, then or later |
| AnalysisCancellation.TerminalIsFinal | src/ldaca_wordflow/services/analyses.py:1052-1054 | in any continuation a terminal record stays as it is until it is removed, and a removed one never comes back |
| AnalysisCancellation.StartsOnlyWhileRunning | src/ldaca_wordflow/services/analyses.py:804-808 | a process starts only for a record committed RUNNING whose entry is not cancelled |
| AnalysisCancellation.StartsExactlyUncancelled | src/ldaca_wordflow/services/analysis_executor.py:147-164 | in every run an admitted Analysis gets a process by its launch exactly if no signal for it has arrived and the executor has not been closed |
| AnalysisCancellation.UndisturbedSucceeds | src/ldaca_wordflow/services/analyses.py:434-1113 | from every reachable state with an open executor, an Analysis just submitted can be enqueued, admitted, executed and settled, and ends SUCCEEDED with nothing else changed |
| AnalysisCancellation.QueuedIsCancelled | src/ldaca_wordflow/services/analyses.py:586-648 | in every reachable state a command against a queued Analysis makes it CANCELLED at once, and its signal takes it out of the queue |
| AnalysisCancellation.RunningIsCancelled | src/ldaca_wordflow/services/analyses.py:586-648 | in every reachable state a command against a process that runs, once delivered, lets exactly that process be terminated and its record be CANCELLED |
| AnalysisCancellation.RunsByAdmission | src/ldaca_wordflow/services/analyses.py:804-808 | RUNNING is written exactly by the commit of an admission, and marked as requested exactly by a command |
| AnalysisCancellation.SucceedsByResult | src/ldaca_wordflow/services/analyses.py:1039-1113 | SUCCEEDED is written exactly when a RUNNING execution delivered a valid result and its Tab was not detached with its end asked for |
| AnalysisCancellation.CancelledByRequest | src/ldaca_wordflow/services/analyses.py:586-648 | CANCELLED is written exactly when a command meets a QUEUED record, or a RUNNING one whose end was asked for ends by cancellation, detached, or by shutdown |
| AnalysisCancellation.FailsByError | src/ldaca_wordflow/services/analyses.py:1039-1241 | FAILED is written exactly for a refused admission, an error, an invalid result, invalid progress, or by shutdown |
| AnalysisCancellation.RemovedAfterEnd | src/ldaca_wordflow/services/analyses.py:458-475 | a record is removed exactly after its end, or when it could never be scheduled |
| AnalysisRuntime.RunRefines | src/ldaca_wordflow/services/analysis_execution.py:35-93 | every run of the whole runtime is a run of the scheduler and a run of records, runners and processes at once |
| AnalysisRuntime.StagesFollowScheduler | src/ldaca_wordflow/services/analysis_scheduler.py:100-119 | in every run what the scheduler has queued is exactly what waits, and what has a slot exactly what has a runner, so its answer to a cancellation is the right one |
| AnalysisRuntime.QueuedIsInGoodHands | src/ldaca_wordflow/services/analyses.py:434-475 | a QUEUED record is still with its submitter, queued, or with a runner, unless dispatch stopped or the commit that was to end it failed |
| AnalysisRuntime.TurnGivesRunner | src/ldaca_wordflow/services/analysis_scheduler.py:185-199 | in every run a turn of the loop with work waiting, a free slot and no stop gives exactly one more waiting Analysis a runner |
| AnalysisRuntime.OfferedIsQueued | src/ldaca_wordflow/services/analysis_scheduler.py:70-98 | in every run what is offered to a started scheduler that still accepts work waits afterwards, in the queue and in its stage |
| AnalysisRuntime.ProcessesWithinCapacity | src/ldaca_wordflow/services/analysis_scheduler.py:185-219 | in every run at most capacity processes are alive, each for an Analysis that has a slot, and none when the scheduler is idle |
| Quota.EstimateCovers | src/ldaca_wordflow/services/quota.py:381-383 | the estimate bounds the block-rounded size, at least one block each, of every collection of at most so many files with at most so many bytes in all |
| Quota.AllocatedAtMost | src/ldaca_wordflow/services/quota.py:413-417 | one file takes at most its full blocks and one block more |
| Quota.EstimateIsPositive | src/ldaca_wordflow/services/quota.py:174-177 | the estimate is at least the requested bytes, and zero only for an empty request |
| Quota.EstimateIsExact | src/ldaca_wordflow/services/quota.py:381-383 | the estimate is exactly the fewest blocks that hold the bytes and one block for each entry |
| Quota.AllocatedIsExact | src/ldaca_wordflow/services/quota.py:413-417 | a file takes the fewest blocks that hold it, and one if it is empty |
| Quota.LedgerIsConserved | src/ldaca_wordflow/services/quota.py:161-328 | in every interleaving a user's ledger entry is the sum of that user's reservations, and is absent exactly when that is zero |
| QuotaLeaks.LeaksExactlyByLateRecheck | src/ldaca_wordflow/services/quota.py:285-322 | over every run: a reservation that was given back comes to hold bytes somewhere exactly if the run accepts a recheck of it after it was given back |
| QuotaLeaks.LateRecheckLeaks | src/ldaca_wordflow/services/quota.py:102-107 | this happens for an empty reservation, and the bytes then stay reserved in every continuation |
| QuotaLeaks.ReleasedHoldNothing | src/ldaca_wordflow/services/quota.py:102-107 | what was given back holds nothing in every run that empties nothing while a recheck of it is pending and asks for none after that |
| QuotaLeaks.DroppedStaysBooked | src/ldaca_wordflow/services/quota.py:172-188 | a caller cancelled between the booking and its return never gets its reservation, and what was booked stays in the ledger in every continuation |
| QuotaLeaks.BookingCanBeDropped | src/ldaca_wordflow/services/quota.py:368-371 | and any number of bytes within the limit can be at stake: the booking is complete before the gate is deregistered from |
| Quota.UsageStaysWithinQuota | src/ldaca_wordflow/services/quota.py:161-322 | for writers that write at most what they hold and never recheck below it, real usage never exceeds the largest limit read, or what it was at the start, however scans, writes, deletions and gated operations interleave |
| QuotaAdmission.ReserveOutcome | src/ldaca_wordflow/services/quota.py:172-188 | a reserve fits and adds exactly one reservation of the estimated size, or changes nothing at all |
| QuotaAdmission.RecheckOutcome | src/ldaca_wordflow/services/quota.py:203-218 | a recheck fits and resizes exactly this reservation, or changes nothing at all |
| QuotaAdmission.QuotaService.GetStatus | src/ldaca_wordflow/services/quota.py:145-159 | reports the scan and the sum of live reservations; available is what the limit leaves, and never negative |
| QuotaAdmission.QuotaService.PutReserved | src/ldaca_wordflow/services/quota.py:324-328 | writes one ledger entry and drops it when zero |
| QuotaAdmission.QuotaService.Reserve | src/ldaca_wordflow/services/quota.py:161-188 | succeeds exactly when the estimate fits a finite limit next to usage and live reservations, with a reservation of that size; otherwise reports limit, usage and reservations and changes nothing |
| QuotaAdmission.QuotaService.Recheck | src/ldaca_wordflow/services/quota.py:285-311 | resizes exactly when the new size fits next to usage and the other reservations; released handles are refused |
| QuotaAdmission.QuotaService.Release | src/ldaca_wordflow/services/quota.py:313-322 | returns exactly what is held; a second release changes nothing |
| StorageLedger.LedgersAreConserved | src/ldaca_wordflow/services/storage_admission.py:30-147 | in every interleaving of requests and rechecks, quota entries, the physical total and the free slots are exactly what live requests hold, and a finished request holds nothing |
| StorageLedger.DiskReserveIsKept | src/ldaca_wordflow/services/storage_admission.py:135-147 | writers that stay within what they were admitted for never take the disk below its reserve, or below what was free to begin with |
| StorageBounds.QuotaAndDiskHold | src/ldaca_wordflow/services/storage_admission.py:102-147 | in one run in which writers write at most what their reservation holds and no recheck grows beyond what was admitted on the disk, a user's usage stays within the limit and the disk keeps its reserve, both at once |
| StorageBounds.RunProjects | src/ldaca_wordflow/services/storage_admission.py:102-125 | every joint run is a run of the quota service and a run of the disk ledger at once |
| StorageLedger.StorageAdmissionService.ReservePhysical | src/ldaca_wordflow/services/storage_admission.py:135-143 | takes headroom exactly when the reserve stays free after everything outstanding |
| StorageLedger.StorageAdmissionService.Acquire | src/ldaca_wordflow/services/storage_admission.py:102-125 | succeeds exactly when the estimate fits the quota and the larger of request and estimate fits the disk; a refusal says which of the two, and leaves both ledgers exactly as they were |
| StorageLedger.StorageAdmissionService.AcquireTransient | src/ldaca_wordflow/services/storage_admission.py:127-133 | refuses exactly for lack of headroom, and then changes nothing |
| StorageLedger.StorageAdmissionService.Release | src/ldaca_wordflow/services/storage_admission.py:71-79 | gives back quota, then physical bytes, once; a second release changes nothing |
| StorageLedger.ReserveThenRelease | src/ldaca_wordflow/services/storage_admission.py:118-124 | releasing what was just reserved restores the quota ledger exactly |
| StorageLedger.AdmitsExactly | src/ldaca_wordflow/services/storage_admission.py:135-143 | a request that scans and then decides is admitted if and only if the disk keeps its reserve after everything promised and this request |
| StorageLedger.SnapshotComesAndGoes | src/ldaca_wordflow/services/response_snapshots.py:34-134 | with a free slot and headroom a snapshot is admitted, and leaves ledger and slots exactly as they were |
| StorageLedger.DurableComesAndGoes | src/ldaca_wordflow/services/storage_admission.py:71-147 | with headroom a durable request is admitted for the larger of request and grant, and leaves both ledgers exactly as they were |
| StorageLedger.ResponseSnapshotService.Create | src/ldaca_wordflow/services/response_snapshots.py:71-100 | succeeds exactly for a file within the limit, with a free slot, headroom and a copy that works; whatever fails, slots and headroom are as before |
| StorageLedger.ResponseSnapshotService.Produce | src/ldaca_wordflow/services/response_snapshots.py:102-134 | succeeds exactly with a free slot, enough headroom and a producer that succeeds |
| StorageLedger.ResponseSnapshotService.Cleanup | src/ldaca_wordflow/services/response_snapshots.py:34-48 | returns slot and headroom once |
| KeyedGates.MutualExclusion | src/ldaca_wordflow/services/quota.py:356-371 | in every interleaving, cancelled waits and lost deregistrations included, at most one task is inside a user's gate |
| KeyedGates.WaitsOnlyForItsUser | src/ldaca_wordflow/services/quota.py:365-366 | in every run a waiting task can enter exactly if no task of its own user is inside, whatever other users do |
| KeyedGates.VisitComesAndGoes | src/ldaca_wordflow/services/quota.py:356-371 | a task without competition registers, enters, leaves and deregisters one after the other, and the registry is as before |
| KeyedGates.CurrentGateIsShared | src/ldaca_wordflow/services/user_files.py:504-521 | everyone registered for a user has the current gate, whose counter is the number of such tasks plus lost deregistrations; it is registered exactly when that is not zero |
| KeyedGates.RegistryIsReclaimed | src/ldaca_wordflow/services/workspace_lifecycle.py:88-103 | without lost deregistrations the counter is exact and an unused registry is empty |
| KeyedGates.LostIsForGood | src/ldaca_wordflow/services/quota.py:368-371 | a gate with a lost deregistration stays in the registry in every continuation |
| KeyedGates.UnusedGateMayStay | src/ldaca_wordflow/services/quota.py:356-371 | a single task that gives up and loses its deregistration leaves an unused gate behind for good |
| KeyedGates.GateRegistry.Register | src/ldaca_wordflow/services/quota.py:358-363 | hands out the current gate, or creates it, with one more user |
| KeyedGates.GateRegistry.Acquire | src/ldaca_wordflow/services/quota.py:365-366 | a free gate is held by the task that enters |
| KeyedGates.GateRegistry.Exit | src/ldaca_wordflow/services/quota.py:365-367 | the gate is free again |
| KeyedGates.GateRegistry.Deregister | src/ldaca_wordflow/services/quota.py:368-371 | one user less; the last one takes the gate out of the registry |
| ImportRecord.TransitionsSucceed | src/ldaca_wordflow/domain/user_file_import.py:169-245 | on a valid record and a clock that is not behind it, each transition is accepted in its own states and in no others, and the wrong state is the error exactly then |
| ImportRecord.TransitionsFollow | src/ldaca_wordflow/domain/user_file_import.py:125-245 | an accepted transition yields a valid record one revision later, times written once, and never leaves a terminal state |
| ImportLifecycle.CancelExcludesPublication | src/ldaca_wordflow/services/user_file_imports.py:259-312 | in every run an import whose running cancellation was accepted never succeeds, a cancelled one was never published, and none is published twice |
| ImportLifecycle.PublishesOnlyUncancelled | src/ldaca_wordflow/services/user_file_imports.py:588-614 | publication happens only while running, with no cancellation requested, and with a result of the right kind |
| ImportLifecycle.SavedPublicationSucceeds | src/ldaca_wordflow/services/user_file_imports.py:616-624 | a publication is SUCCEEDED at once if and only if its record can be saved |
| ImportLifecycle.PublicationSucceedsIffSaved | src/ldaca_wordflow/services/user_file_imports.py:600-674 | whatever led to a publication and whatever follows, the import is SUCCEEDED for as long as its record exists if the record was saved right after publishing, and never otherwise |
| ImportLifecycle.PublishedMayStillFail | src/ldaca_wordflow/services/user_file_imports.py:616-624 | a published import can still end FAILED, when saving its record fails |
| ImportLifecycle.RecordChangesByAttempt | src/ldaca_wordflow/services/user_file_imports.py:259-700 | the record after a step is the outcome of the transition the step asks for if that is accepted and saved, and the old record otherwise |
| ImportLifecycle.NoTransitionIsRefused | src/ldaca_wordflow/services/user_file_imports.py:422-700 | in every run with a monotone clock, no transition the service asks for is refused by validation |
| ImportLifecycle.RecordsMoveOn | src/ldaca_wordflow/services/user_file_imports.py:259-700 | over every run revisions only grow, terminal records stay until deleted, deleted ones never return, times stay as written |
| ImportLifecycle.ProgressIsProper | src/ldaca_wordflow/services/user_file_imports.py:515-579 | accepted progress is indeterminate values followed by non-decreasing fractions in [0,1); only successful records are complete |
| ImportLifecycle.EndedRecordsKeepLastProgress | src/ldaca_wordflow/services/user_file_imports.py:515-674 | in every run a FAILED or CANCELLED record carries the progress that was accepted last, or zero if none was |
| ImportLifecycle.AcceptedIsInterrupted | src/ldaca_wordflow/services/user_file_imports.py:281-312 | in every run the scope of an import whose running cancellation was accepted, or whose progress was refused, has been interrupted |
| ImportLifecycle.AcceptedEndsCancelled | src/ldaca_wordflow/services/user_file_imports.py:627-653 | whatever happened, an import that still runs after its cancellation was accepted can be interrupted and then ends CANCELLED |
| ImportLifecycle.PublishesExactly | src/ldaca_wordflow/services/user_file_imports.py:588-614 | publication happens if and only if the import is RUNNING with no cancellation requested, the checks pass, the kind is right and the file can be published |
| ImportLifecycle.BeginsExactly | src/ldaca_wordflow/services/user_file_imports.py:436-454 | a runner starts exactly for a QUEUED record that still has its reservation and whose change is saved, and the record is RUNNING from now on |
| ImportLifecycle.AcceptsExactly | src/ldaca_wordflow/services/user_file_imports.py:515-579 | a report on a live import is accepted exactly if the reports so far with it are proper |
| ImportLifecycle.RecordsTell | src/ldaca_wordflow/services/user_file_imports.py:259-700 | a changed record tells which step started, stopped or ended the import, when, with which result or error |
| ImportLifecycle.RunnersEndRecords | src/ldaca_wordflow/services/user_file_imports.py:627-700 | an interrupted or failed runner leaves an ended record, CANCELLED exactly if that had been asked for |
| ImportLifecycle.UndisturbedSucceeds | src/ldaca_wordflow/services/user_file_imports.py:436-625 | an import that nobody disturbs is handed out, runs, is published once and ends SUCCEEDED with its result |
| ImportLifecycle.UserFileImportService.Submit | src/ldaca_wordflow/services/user_file_imports.py:385-412 | a new import is queued with its execution and reservation waiting, or nothing of it is kept when the scheduler takes no more |
| ImportLifecycle.UserFileImportService.Cancel | src/ldaca_wordflow/services/user_file_imports.py:259-312 | cancels queued work now, interrupts running work and records the request, and leaves ended imports alone, each answer exactly in its case |
| ImportLifecycle.UserFileImportService.CancelWaiting | src/ldaca_wordflow/services/user_file_imports.py:281-299 | queued work loses its execution and reservation and becomes CANCELLED if that can be saved |
| ImportLifecycle.UserFileImportService.RequestCancellation | src/ldaca_wordflow/services/user_file_imports.py:301-312 | afterwards the scope is interrupted, and then the request is recorded if that can be saved; asking again changes nothing |
| ImportLifecycle.UserFileImportService.Begin | src/ldaca_wordflow/services/user_file_imports.py:436-454 | only a durable RUNNING record takes execution and reservation over |
| ImportLifecycle.UserFileImportService.ReportProgress | src/ldaca_wordflow/services/user_file_imports.py:515-579 | acceptable progress becomes the live value; anything else fails this import and interrupts its scope |
| ImportLifecycle.UserFileImportService.Complete | src/ldaca_wordflow/services/user_file_imports.py:581-625 | publishes at most once, never after a recorded cancellation, and succeeds only when also saved |
| ImportLifecycle.UserFileImportService.FinishInterruption | src/ldaca_wordflow/services/user_file_imports.py:627-653 | an interrupted run is CANCELLED if that was asked for and FAILED otherwise |
| ImportLifecycle.UserFileImportService.FinishFailure | src/ldaca_wordflow/services/user_file_imports.py:655-674 | a failed run ends FAILED unless the import has already ended |
| ImportLifecycle.UserFileImportService.Delete | src/ldaca_wordflow/services/user_file_imports.py:314-339 | exactly the ended imports can be deleted |
| EventDelivery.GapFreeOrResync | src/ldaca_wordflow/services/events.py:61-234 | in every run an open subscription has received and queued stream_ready and then exactly its user's updates since registration; an ended one sees a prefix and one final sentinel or resync; numbers increase and the queue keeps its bound |
| EventDelivery.OnlyFullQueuesOverflow | src/ldaca_wordflow/services/events.py:198-215 | publishing ends exactly the user's subscriptions whose queue is full, and queues the update for the others |
| EventDelivery.EndsExactly | src/ldaca_wordflow/services/events.py:87-230 | in every run an open subscription is ended by an update of its user that finds its queue full, its own end, its session's or the hub's, and by nothing else, with one element left to read |
| EventDelivery.EndIsFinal | src/ldaca_wordflow/services/events.py:198-230 | after the end no step changes what a subscription has seen and will see |
| EventDelivery.EventSubscription.Receive | src/ldaca_wordflow/services/events.py:35-38 | takes the first element; the end of the stream is sticky |
| EventDelivery.EventSubscription.Close | src/ldaca_wordflow/services/events.py:222-230 | empties the queue and leaves one sentinel, once |
| EventDelivery.EventHub.Subscribe | src/ldaca_wordflow/services/events.py:61-85 | registers and queues stream_ready with the next number; a closed hub refuses |
| EventDelivery.EventHub.Publish | src/ldaca_wordflow/services/events.py:103-215 | numbers the update and offers it to the subscribers in order of registration |
| EventDelivery.EventHub.OfferTo | src/ldaca_wordflow/services/events.py:198-215 | a full queue becomes one resync_required and its subscriber leaves |
| EventDelivery.EventHub.Unsubscribe | src/ldaca_wordflow/services/events.py:87-90 | removes and ends one subscription, registered or not |
| EventDelivery.EventHub.RemoveSubscription | src/ldaca_wordflow/services/events.py:217-220 | takes out exactly the registrations of that subscription |
| EventDelivery.EventHub.CloseSessionStreams | src/ldaca_wordflow/services/events.py:92-101 | ends exactly the session's registered subscriptions |
| EventDelivery.EventHub.Close | src/ldaca_wordflow/services/events.py:186-196 | ends every registered subscription, once |
| OffsetMapping.ApplyReplaceWithMapping | src/ldaca_wordflow/analysis/quotation_extractor.py:258-293 | the loop yields the characters and positions of the leftmost non-overlapping replacement |
| OffsetMapping.LeftmostIsReplaced | src/ldaca_wordflow/analysis/quotation_extractor.py:258-293 | the leftmost occurrence is replaced, and then the same is done behind it |
| OffsetMapping.NothingIsReplaced | src/ldaca_wordflow/analysis/quotation_extractor.py:258-293 | a text without the pattern stays as it is |
| OffsetMapping.LengthChangesOnlyByPairs | src/ldaca_wordflow/analysis/quotation_extractor.py:154-176 | the accent, blank and quote substitutions keep the length of a text exactly when it has neither of the two pairs, and then act on each character by itself |
| OffsetMapping.SubstitutionsKeepLength | src/ldaca_wordflow/analysis/quotation_extractor.py:154-176 | any sequence of substitutions that keeps pairs and single characters apart shortens a text exactly when it contains one of the pairs |
| OffsetMapping.SimplifiedByTable | src/ldaca_wordflow/analysis/quotation_extractor.py:154-177 | each character becomes what the first substitution that covers it says, and stays itself otherwise |
| OffsetMapping.PreprocessWithMapping | src/ldaca_wordflow/analysis/quotation_extractor.py:296-320 | the text of the plain replacements in sequence, one position more than characters, from 0 to the end of the original, never decreasing; refused for a changed length, which is exactly for texts with a shrinking pair |
| OffsetMapping.OffsetsAreSound | src/ldaca_wordflow/analysis/quotation_extractor.py:258-293 | any chain of non-empty rules gives the text of the plain replacements, and positions that start at 0, never decrease, end at the original length and hit the same character wherever nothing was replaced |
| OffsetMapping.UntouchedSpansAreVerbatim | src/ldaca_wordflow/analysis/quotation_extractor.py:189-207 | slicing the original by translated offsets returns a span no rule touched, character by character |
| OffsetMapping.PreprocessedSpansAreVerbatim | src/ldaca_wordflow/analysis/quotation_extractor.py:296-320 | the same for the whole preprocessing, up to its in-place simplification |
| OffsetMapping.SpansStayNested | src/ldaca_wordflow/analysis/quotation_extractor.py:189-207 | translated spans are ordered and in range, and nested spans stay nested |
| OffsetMapping.TranslatedSpansAreVerbatim | src/ldaca_wordflow/analysis/quotation_extractor.py:189-320 | a span that no rule touched, translated, cuts itself out of the text that was passed in, up to the in-place simplification |
| OffsetMapping.SpansAreTranslated | src/ldaca_wordflow/analysis/quotation_extractor.py:189-207 | offsets outside the text are moved to its ends, all others to their positions, and a missing end is passed on |
| OffsetMapping.LastRuleIsIdle | src/ldaca_wordflow/analysis/quotation_extractor.py:248-255 | the sixth rule never finds anything: the fifth has taken every occurrence |
| Concordance.PipelineAssembles | src/ldaca_wordflow/analysis/concordance_projection.py:34-78 | with unique source rows, explode, filter, sort and regroup works on each document by itself, in source-row order |
| Concordance.BinIsPosition | src/ldaca_wordflow/analysis/concordance_projection.py:52-64 | a text is cut into equal parts and a match is in the bin of the part it starts in; earlier starts are in the first bin, later ones in the last, a null start is 0, and a null or empty text has length 1 |
| Concordance.FilterIsSimple | src/ldaca_wordflow/analysis/concordance_projection.py:34-78 | the pipeline equals the simple filter (documents by source row, passing matches in order, empty documents dropped) if and only if nulls do no harm in any document |
| Concordance.ResultsFilterSimply | src/ldaca_wordflow/workers/concordance.py:524-536 | documents with at least one match and no nulls, which is what a run writes, always filter simply |
| Concordance.NoFilterKeepsAll | src/ldaca_wordflow/analysis/concordance_projection.py:36-80 | without excluded texts and bins everything that a run wrote comes back, by source row |
| Concordance.EmptyDocumentGrowsNullMatch | src/ldaca_wordflow/analysis/concordance_projection.py:34-43 | without a filter a document without matches comes back with one all-null match |
| ConcordanceDensity.ConcordanceDensity | src/ldaca_wordflow/services/analysis_results.py:890-921 | lists exactly the labels that occur, each with 100 cells that count its matches; match_count counts all non-null matches |
| ConcordanceDensity.BlockIsCoarseBin | src/ldaca_wordflow/services/analysis_results.py:910 | for every count dividing 100, a block of adjacent cells adds up to the matches of the coarse bin, clipped ends included |
| ConcordanceDensity.CellsSumToMatchCount | src/ldaca_wordflow/services/analysis_results.py:911-921 | all cells of all listed labels add up to match_count |
| ConcordanceDensity.FilterCountsExactly | src/ldaca_wordflow/services/analysis_results.py:890-921 | the documents the filter returns hold, per label and selected coarse bin, the matches of the block of cells, plus the null rows (empty label, first bin, no excluded texts) or minus the matches without a text (empty label, some excluded) |
| ConcordanceDensity.FilterAgreesWithHistogram | src/ldaca_wordflow/services/analysis_results.py:890-921 | filter and block of cells agree if and only if no such null touches a selected bin |
| ConcordanceDensity.ResultsAgreeWithHistogram | src/ldaca_wordflow/workers/concordance.py:524-536 | without nulls they agree for every label and bin: all the matches if selected, none otherwise |
| ConcordanceDensity.ExclusionIsExact | src/ldaca_wordflow/analysis/concordance_projection.py:45-48 | excluding texts takes away exactly the matches with these texts from what a run wrote |
| SqlScanner.TokenizationIsUnique | src/ldaca_wordflow/services/workspace_sql.py:175-244 | every text has exactly one declarative tokenization, open strings and comments included |
| SqlScanner.ContainsExternalReader | src/ldaca_wordflow/services/workspace_sql.py:175-212 | true exactly when that tokenization has a reader-named identifier whose next token, trivia aside, is an opening parenthesis |
| SqlScanner.SkipQuoted | src/ldaca_wordflow/services/workspace_sql.py:215-225 | ends right after the closing quote, doubled quotes skipped, or at the end of the text |
| SqlScanner.SkipSqlTrivia | src/ldaca_wordflow/services/workspace_sql.py:228-244 | skips exactly the blanks and comments: what is left are the tokens without their leading trivia |
| SqlScanner.FindNewline | src/ldaca_wordflow/services/workspace_sql.py:190-191 | the first newline at or after a position, or none |
| SqlScanner.FindClose | src/ldaca_wordflow/services/workspace_sql.py:194-195 | the first end of a block comment at or after a position, or none |
| SqlScanner.CommentIsABlank | src/ldaca_wordflow/services/workspace_sql.py:189-196 | replacing any comment by one blank never changes the answer |
| SqlScanner.QuotedIsSilent | src/ldaca_wordflow/services/workspace_sql.py:183-188 | no text between quotes changes the answer, with its own quotes doubled, closed or not |
| SqlScanner.LineCommentIsSilent | src/ldaca_wordflow/services/workspace_sql.py:189-192 | no text after two dashes changes the answer, up to the end of the line |
| SqlScanner.BlockCommentIsSilent | src/ldaca_wordflow/services/workspace_sql.py:193-196 | no text up to the first end of a block comment changes the answer, and none in an open one |
| SqlScanner.PlainIsSilent | src/ldaca_wordflow/services/workspace_sql.py:211-211 | no other single character changes the answer |
| SqlScanner.ReaderDecides | src/ldaca_wordflow/services/workspace_sql.py:197-210 | a word, blanks and a parenthesis call a reader if and only if the word is read_ or scan_ in any case with letters, digits and underscores behind it, or the rest does |
| SqlScanner.UncalledIsSilent | src/ldaca_wordflow/services/workspace_sql.py:197-212 | a word with another character behind it calls nothing, whatever its name |
| AnalysisForest.ForestStaysAcyclic | src/ldaca_wordflow/services/analyses.py:288-310 | in every run no parent link dangles or leaves its Tab, and a chain of parent links never comes back to its start |
| AnalysisForest.LineageIsAncestry | src/ldaca_wordflow/services/analyses.py:297-310 | in every run a lineage is exactly what chains of parent links lead to, and one chain ends at a root |
| AnalysisForest.SupersessionSparesLineage | src/ldaca_wordflow/services/analyses.py:147-157 | a success removes exactly the Analyses with a superseded one in their lineage, and so never itself or an ancestor |
| AnalysisForest.WithoutAllIs | src/ldaca_wordflow/domain/workspace/graph.py:148-163 | several removals take exactly the records that have one of the removed in their lineage |
| AnalysisForest.OneRunPerTab | src/ldaca_wordflow/services/analyses.py:282-287 | in every run two Analyses of one Tab that are not supporting and are QUEUED or RUNNING are the same |
| AnalysisForest.Workspace.Submit | src/ldaca_wordflow/services/analyses.py:219-415 | accepts exactly the submissions that pass every check, and then adds the record, its Tab link and its group members; otherwise changes nothing |
| AnalysisForest.RefusedIffNotSubmittable | src/ldaca_wordflow/services/analyses.py:262-368 | the first failing check, in the order of the source, refuses a submission exactly when it is inadmissible |
| AnalysisForest.AcceptedExactly | src/ldaca_wordflow/services/analyses.py:262-368 | in every run the full condition of being accepted, with the states of the Tab's runs, the parent, the superseded and their ancestry written out |
| AnalysisForest.RefusalIs | src/ldaca_wordflow/services/analyses.py:262-368 | which error each refusal gives, for a missing Tab, a kind, a busy Tab, a missing Analysis and missing inputs |
| AnalysisForest.AcceptedIsRecorded | src/ldaca_wordflow/services/analyses.py:369-415 | an accepted submission is recorded under the next identity, with its group members, all linked to the Tab; an annotation Tab loses what it owned with everything below, and every other record is as it was |
| AnalysisForest.Workspace.CheckSubmission | src/ldaca_wordflow/services/analyses.py:262-368 | reports the error of the first check that fails, in the order Tab, kind, linear lifecycle, busy Tab, parent, creation, supersessions, inputs |
| AnalysisForest.Workspace.CheckSupersessions | src/ldaca_wordflow/services/analyses.py:342-356 | every superseded Analysis is live, finished, of the same Tab and outside the parent's lineage; otherwise the first that is not decides the error |
| AnalysisForest.Workspace.CollectLineage | src/ldaca_wordflow/services/analyses.py:298-310 | the walk up terminates and collects exactly the lineage |
| AnalysisForest.Workspace.AddGroup | src/ldaca_wordflow/services/analyses.py:383-409 | adds the members of a group run as its children |
| AnalysisForest.Workspace.StartOver | src/ldaca_wordflow/services/analyses.py:369-371 | a linear Tab removes everything it owned |
| AnalysisForest.Workspace.CompleteWithSuccess | src/ldaca_wordflow/services/analyses.py:147-157 | the record succeeds, what it supersedes goes, its lineage stays |
| AnalysisForest.Workspace.AddAnalysis | src/ldaca_wordflow/domain/workspace/graph.py:106-128 | refuses a duplicate and a missing or foreign parent without a change, and a missing Tab after the record was added; otherwise records the Analysis and links it once |
| AnalysisForest.Workspace.Children | src/ldaca_wordflow/domain/workspace/graph.py:185-190 | exactly the children, each once |
| AnalysisForest.Workspace.Descendants | src/ldaca_wordflow/domain/workspace/graph.py:192-199 | the worklist terminates with exactly the descendants, each once and after its parent |
| AnalysisForest.Workspace.RemoveAnalysis | src/ldaca_wordflow/domain/workspace/graph.py:148-163 | removes an Analysis with its descendants, and their links; a missing one is ignored |
| UserFileTree.ListTree | src/ldaca_wordflow/services/user_files.py:784-819 | the same listing for every order in which directories are read; refused exactly when the JSON array to be sent exceeds the limit, an empty one never |
| UserFileTree.Visit | src/ldaca_wordflow/services/user_files.py:790-816 | appends one directory's listing with an exact byte count, or stops because the whole would exceed the limit |
| UserFileTree.ReadDirectory | src/ldaca_wordflow/services/user_files.py:792-801 | the entries that show, in the fixed order, whatever order the file system uses |
| UserFileTree.OrderIndependent | src/ldaca_wordflow/services/user_files.py:822-829 | with distinct paths the order key leaves no ties, so any reading order gives the same arrangement |
| UserFileTree.ShownAppearOnce | src/ldaca_wordflow/services/user_files.py:793-800 | exactly the files and directories whose names do not start with a dot appear, as often as they exist |
| UserFileTree.EntriesRise | src/ldaca_wordflow/services/user_files.py:822-829 | directories stand before files, and within either case-folded names rise, then paths |
| UserFileTree.FirstDifferenceDecides | src/ldaca_wordflow/services/user_files.py:822-829 | strings are compared by the first position at which they differ, and a prefix comes first |
| UserFileTree.ListingIsDepthFirst | src/ldaca_wordflow/services/user_files.py:802-816 | the listing is the shown entries in order, each directory directly followed by its own listing |
| UserFileTree.ResponseLength | src/ldaca_wordflow/services/user_files.py:788-808 | the sent array is as long as its encodings, a comma between any two, and the brackets |

## Left out

- FairQueue.FairUserQueue.Drain: the order of the users in the returned list, which is the insertion order of a dictionary, is left open.
- AnalysisScheduling.AnalysisScheduler.StopDispatching: leaves the same order of users open.
- AnalysisExecution.AnalysisProcessExecutor.CloseAll: shutdown deadlines and the escalation from terminate to kill; a committed termination is a step that may happen.
- AnalysisCancellation.CancelReachesExecution: covers one record at a time; cancelling the descendants of an Analysis is one request for each.
- AnalysisRuntime.RunRefines: deleting a Workspace, which takes its queued work out of the scheduler and signals what runs, is not a move.
- OffsetMapping.PreprocessWithMapping: the parsing of the extractor's index strings, and the extractor itself.
- SqlScanner.ContainsExternalReader: the Unicode tables behind isalpha, isalnum and isspace are parameters; the proof uses only that letters are alphanumeric, and that blanks, quotes, dashes, slashes and the parenthesis are not.
- Concordance.FilterIsSimple: the column types and expression engine of Polars; the model takes its row operations as they are documented, with null matches and null columns spelled out, and a document with a null list of matches as one with an empty list.
- ConcordanceDensity.ConcordanceDensity: the alphabetical order of the returned series; a series is looked up by its label.
- ImportLifecycle.CancelExcludesPublication: runs up to shutdown; a scope cancelled by shutdown in the middle of a publication is not modelled, and neither is what the runner executes before it reports or completes.
- ImportLifecycle.UserFileImportService.Cancel: the release of the queued reservation is part of the step; a failing cleanup is not modelled.
- ImportLifecycle.UserFileImportService.Submit: registering and enqueueing are one step; a request that reaches the import between the two is not modelled.
- StorageLedger.LedgersAreConserved: two releases of one storage reservation that overlap in time; a recheck and the emptying of a reservation are one step each, and a request whose caller was lost after its booking is one that takes no further step; QuotaLeaks follows these in detail.
- StorageBounds.QuotaAndDiskHold: the disk ledger's own copy of the quota is not tied to the quota service's; each is conserved by itself.
- Quota.UsageStaysWithinQuota: a scan sees one moment; a scan that overlaps with writes while it walks the tree is not modelled, nor are writers under an unlimited policy.
- QuotaAdmission.QuotaService.Recheck: the measuring of a staged tree and the estimate of its allocation are the growth that is passed in.
- KeyedGates.MutualExclusion: who of several waiting tasks enters first.
- EventDelivery.GapFreeOrResync: an event is reduced to its number, its user and one number for what it is about; times are left out.
- AnalysisForest.ForestStaysAcyclic: clearing or deleting a Tab is an unlinking step followed by removals, in any order; runs start from an empty Workspace.
- AnalysisForest.Workspace.Submit: whether the kind fits the Tab, the parent's kind fits a creation, and the input nodes exist are flags; corrupt records and scheduling after the commit are left out.
- AnalysisForest.Workspace.CompleteWithSuccess: the Tab's revision and modification time.
- UserFileTree.ListTree: the JSON encoding of one resource and the case folding are parameters.
- Workspace files, SQLite, sessions, OAuth, settings, HTTP routes, the launcher and the web client.
- Annotation, topic and token analyses, previews, exports, archives and credential storage.
- Pagination, sorting and projection of result tables.
- Operating-system processes, pipes and signals beyond started, running and ended.
- Finalising a Concordance group when its children end.
