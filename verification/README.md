# Verified models of the dashboard's core

This project models, in Dafny, the parts of the dashboard whose correctness is hardest to see from one function, and
proves what they promise.

- **Engine work.** Notices and deadlines pass through a queue, an extension boundary that can hold work back, and a
  running batch. `WorkQueue.dfy`, `Engine.dfy` and `EngineWorker.dfy` show that no work is lost between them, and
  `ChangeSignal.dfy` that no change notice is lost between writers and readers.
- **Extension runtimes.** `Retirement.dfy` is the release of one removed runtime. `Manager.dfy` is the runtime manager
  as a state machine over its critical sections, its background tasks, the registry and a thread inside `close`;
  `ManagerLaws.dfy` has ownership, lease safety and what a failed close means, `ManagerSteps.dfy` what each step leaves in
  the manager's fields, `ManagerProgress.dfy` what a publication attempt answers, `ManagerClose.dfy` one whole close, and
  `ManagedExtensions.dfy` the manager's methods over shared owner objects.
- **Durable jobs.** `Jobs.dfy` is the optimistic-revision protocol with restarts, `JobSelection.dfy` the selection of the
  oldest jobs, `JobStore.dfy` the job operations, `JobOutcomes.dfy` what they leave in a row, and `JobExecutor.dfy` the
  scheduling on the pool.
- **Terminal mirror.** `TextWidth.dfy`, `Spans.dfy`, `Wrap.dfy`, `WrapWords.dfy`, `WrapLaws.dfy`, `WrapOptimal.dfy` and
  `Rows.dfy` are the word wrap with zero-width and double-width characters; `Scrollback.dfy`, `Blocks.dfy`,
  `LineEnds.dfy`, `LongLines.dfy` and `Feed.dfy` the lazy paint, and `FeedRepaint.dfy` the paint after the session forgets.
- **Pane session.** `ShellFolds.dfy`, `Session.dfy`, `SessionModel.dfy`, `SessionLaws.dfy`, `ArrivalOrder.dfy`,
  `ShellOutput.dfy` and `FeedOrder.dfy` are the replicated read model of one session.
- **Graph, diff and folds.** `Manifest.dfy`, `ModuleOrder.dfy` (search over a cyclic import graph), `DiffRanges.dfy`,
  `DiffRows.dfy`, `DiffLines.dfy`, `DiffMarks.dfy` (diff rows and their marking), `Attention.dfy` (pending questions and plans).
- **Command line.** `LaunchOptions.dfy` (parsed and forwarded options).

How to read it: what the program changes step by step is a class, whose methods are proved equal to functions of the
old state (`ensures View() == ...(old(View()))`); what several threads do is a state machine over the steps between
locks (`Enabled`, `Next`, `IsRun`, `After`); the laws are lemmas about those functions and runs. Beside the laws over whole runs
stand lemmas that fix each function by the fields, the positions and the character codes that it is about. What a foreign call
answers (a worker, the store, a clock, the file system) is a parameter, so a law about all parameters is a law about all
answers. Every lemma carries `{:induction false}`: its body is its proof.

`dafny verify dfyconfig.toml` checks the whole project.

Where the code and its comments disagree, the model follows the code:

- A comment in `client/_render_blocks.py:114-115` says that the last scrollback-rows-times-width characters of a line
  fill the scrollback. White space and zero-width characters can fill less (`LongLines.LongLineCanLoseText`);
  `LongLines.NarrowLineFillsIff` and `LongLines.UniformLineFillsIff` say when a line fills it. A full scrollback can
  still differ from the paint of the whole line, because the rows are broken from the cut (`LongLines.CutIsHiddenIff`,
  `LongLines.CutCanBeSeen`).
- `domain/entries.py:125` promises the oldest attention first. An attention that is asked again keeps its first place
  (`Attention.OldestFirstIff`, `Attention.AskedAgainStaysFirst`).
- `client/_model_session.py:24-26` calls entry application idempotent. A shell part that arrives before its start is not
  remembered, so a replay can add it (`SessionLaws.ReplayChangesNothingIff`).

Where the code does less than its name or its callers suggest, the exact condition is proved:

- `client/_render_diff_parse.py:49-73` does not read the line counts of a hunk header. It takes a removed line whose text
  starts with two dashes and a space for a file name, and a line behind the hunk for content (`DiffRows.RowsAreExactIff`).
- `extensions/manager_retirement.py:52-61` never repeats a failed resource close, so one failure keeps the lease and
  blocks every later operation (`ManagerLaws.FailedCloseHoldsTheLease`, `ManagerClose.CloseState`).
- `extensions/job_executor.py:48-49` leaves a key in the queued set when the pool, which is then closed, refuses its task
  (`JobExecutors.StuckIffRefused`, `JobExecutors.OpenPoolRefusesNothing`).

## Model

| member | source | states |
|---|---|---|
| `WorkQueues.WorkQueue.PutWork` | core/work_queue.py:30-34 | the stage is pending and nothing else changes |
| `WorkQueues.WorkQueue.ScheduleWork` | core/work_queue.py:36-42 | the deadline of this stage and producer is the earlier of the known and the new one; a negative delay counts as none |
| `WorkQueues.WorkQueue.SetOwnedDeadline` | core/work_queue.py:63-79 | one owned deadline is replaced or cleared, and no other producer's |
| `WorkQueues.WorkQueue.MakeReady` | core/work_queue.py:87-91 | the loop over a snapshot moves exactly the due deadlines to the pending stages |
| `WorkQueues.WorkQueue.TakePass` | core/work_queue.py:51-61 | a pass answers closed, all pending and due stages, or a positive wait that ends at the earliest deadline |
| `WorkQueues.DeadlinesNeverMoveLater` | core/work_queue.py:36-42 | no operation moves a wake later, except by the producer that owns it |
| `WorkQueues.TakeHandsOutDueStages` | core/work_queue.py:51-61 | a take at or after a deadline hands out its stage and takes the deadline away; before it, the deadline stays as it is |
| `WorkQueues.ScheduledWorkComesBack` | core/work_queue.py:36-61 | after any later operations of other producers, a scheduled stage is handed out by the first take at or after its time |
| `WorkQueues.ScheduledStageIsDue` | core/work_queue.py:36-42 | scheduling makes a stage due exactly from the clock plus the delay on, a past delay at once, and leaves every other stage due when it was |
| `WorkQueues.OwnedDeadlineIsDue` | core/work_queue.py:63-79 | after an owned deadline is replaced or cleared its stage is due for the other wakes and from the new time on, and every other deadline stays |
| `Engine.EngineExtensionBoundary.Prepare` | engine/extensions_boundary.py:26-41 | the boundary publishes only on a notice or while not ready, keeps the work until it is ready, and never keeps the notice itself |
| `Engine.EngineExtensionBoundary.Advance` | engine/extensions_boundary.py:43-56 | a raising or busy publication is scheduled again; a published one adds a source scan |
| `Engine.ReadyStages` | engine/work_batch.py:11-25 | the imperative closure of the pending stages gives the specified set |
| `Engine.RunsExactlyTheNeeded` | engine/work_batch.py:11-25 | a stage runs exactly when a pending one leads to it; only the extension scan is left out beside a full scan |
| `Engine.StagesRunInOrder` | engine/work_batch.py:35-46 | for all pending stages a batch runs exactly the needed ones, each once, the runtime's changes first, each scan before the raw events and these before the canonical ones |
| `Engine.NoStageRunsTooEarly` | engine/work_batch.py:35-46 | over every run, when a stage is next, no stage that leads to it is still to come |
| `Engine.PreparationDecides` | engine/extensions_boundary.py:26-56 | an asked runtime decides whether the engine may work; a ready boundary lets exactly the taken, the kept and, after a switch, a scan through, and another one keeps them |
| `Engine.BusySwitchIsTriedAgain` | engine/extensions_boundary.py:43-56 | a switch that raised or was busy is due again a tenth of a second later, and nothing else asks the queue |
| `Engine.FailedWorkIsDueAgain` | engine/work_batch.py:41-52 | a failed stage, or each stage of a failed capture, is due again one second later, and no other stage |
| `Engine.StepHolds` | engine/worker.py:71-80 | no step of the worker, a producer or the runtime loses a held stage, unless a stage that covers it returned |
| `Engine.NoWorkIsLost` | engine/worker.py:55-80 | in every run, from the moment a stage is owed until a stage that covers it returns, some holder has it, whatever stages, captures and publications fail |
| `Engine.IdleWorkWaitsInTheQueue` | engine/worker.py:55-66 | between batches, work that a ready boundary lets through is pending or has a deadline in the queue |
| `Engine.BoundaryRests` | engine/extensions_boundary.py:26-41 | over every run the boundary never keeps a lifecycle notice, and a ready boundary keeps nothing |
| `Engine.NothingRunsBeforeItIsAllowed` | engine/extensions_boundary.py:17-24 | over every run of an engine with extensions no stage runs before the runtime allowed it, and without extensions the boundary is always ready |
| `Engine.ClearedRetryLosesWork` | engine/work_batch.py:48-52 | the retry deadlines must not be cleared by another producer: after a run whose capture raises, clearing one loses the failed stage |
| `EngineWorkers.EngineWorkBatch.Run` | engine/work_batch.py:35-46 | the stages run in their order (`Engine.StagesRunInOrder`), a failed one is scheduled again, and the rest go on |
| `EngineWorkers.EngineWorkBatch.Retry` | engine/work_batch.py:48-52 | every affected stage is scheduled again |
| `EngineWorkers.EngineWorker.PutAll` | engine/worker.py:55-59 | at startup every stage is pending |
| `EngineWorkers.EngineWorker.Process` | engine/worker.py:71-80 | one pass of the worker is a run of the engine state machine, also when the capture is refused or fails on leaving |
| `EngineWorkers.BatchRuns` | engine/work_batch.py:35-46 | a batch with any stage failures and any queue operations in between is a run, and the queue ends as the batch computes it |
| `ChangeSignals.ChangeSignal.LeaveBatch` | core/change_signal.py:46-50 | only the end of the outermost batch takes the pending notice and asks for a publication |
| `ChangeSignals.ChangeSignal.Notify` | core/change_signal.py:88-101 | inside a batch the notice waits; outside, every subscribed reader is set or its loop is asked, except closed loops |
| `ChangeSignals.ChangeSignal.ExitBatch` | core/change_signal.py:45-52 | ending the last batch notifies the readers exactly when something was published in it |
| `ChangeSignals.PromiseStays` | core/change_signal.py:88-101 | a notice on its way to a reader is taken away only by its delivery |
| `ChangeSignals.NoNoticeIsLost` | core/change_signal.py:33-101 | in every interleaving of batches, publishers and subscribers: at a quiet moment nothing is pending, and each reader subscribed since before a publication was notified after it |
| `ChangeSignals.ToldUntilCleared` | core/change_signal.py:96-101 | a delivered notice stays with its reader until the reader clears it |
| `ChangeSignals.BatchSendsNothing` | core/change_signal.py:33-52 | while a batch is open, publications send nothing |
| `ChangeSignals.BatchesAreCounted` | core/change_signal.py:33-52 | over every run the open batches are those that were opened and not ended |
| `ChangeSignals.EveryThreadGoesOn` | core/change_signal.py:33-101 | in every run no thread is stuck: it can publish, open or end a batch, or tell each reader that it still has to tell |
| `ChangeSignals.NoticeWaitsForTheBatch` | core/change_signal.py:33-93 | a notice waits exactly while a batch is open in which something was published, and the end of the last batch takes it and makes its thread publish |
| `ChangeSignals.PublicationReachesReaders` | core/change_signal.py:54-101 | outside a batch a publication takes the subscribed readers and reaches each: a worker's event, or the loop of a connection that is still open |
| `ChangeSignals.DeliveriesRun` | core/change_signal.py:96-101 | an uninterrupted publication is one run of the state machine, in any order of the snapshot |
| `Retirement.RetirementOwner.constructor` | extensions/manager_retirement.py:77-87 | a new owner has the packages in removal order and no outcome |
| `Retirement.RetirementOwner.Retire` | extensions/manager_retirement.py:26-39 | one attempt asks the unacknowledged workers, closes when none is left, and returns the remaining issues |
| `Retirement.RetirementOwner.Deactivate` | extensions/manager_retirement.py:41-50 | the loop keeps exactly the workers that need another attempt and replaces the issues by those of this attempt |
| `Retirement.RetirementOwner.CloseResources` | extensions/manager_retirement.py:52-61 | the close is attempted unless it succeeded or failed before |
| `Retirement.EmptyAnswerMeansClosed` | extensions/manager_retirement.py:26-39 | an empty answer means that the resources are closed; an unfinished owner answers empty exactly when every worker acknowledges and the close succeeds, and is closed also when a transport is dead |
| `Retirement.AnswerDecides` | extensions/manager_retirement.py:110-138 | a worker is asked again unless it settled, and leaves an issue of this revision and extension unless it acknowledged, with its jobs when it answered for this revision |
| `Retirement.FailedCloseIsEvidence` | extensions/manager_retirement.py:52-74 | a raising close leaves its issue behind those of the workers, and no later attempt changes the evidence |
| `Retirement.RemovesDependentsFirst` | extensions/manager_retirement.py:77-87 | the removal order has exactly the active packages, dependents before their providers |
| `Retirement.ClosesAtMostOnce` | extensions/manager_retirement.py:41-61 | over any sequence of attempts the resources are closed at most once, and a finished owner never changes again |
| `Retirement.PendingOnlyShrinks` | extensions/manager_retirement.py:41-50 | over any sequence of attempts the unacknowledged packages are a subsequence of those before |
| `Retirement.RetriesKeepDependentsFirst` | extensions/manager_retirement.py:41-50 | every retry asks dependents before their providers |
| `Retirement.ReplacementClosesOnlySettled` | extensions/manager_retirement.py:26-39 | a replacement closes a runtime only after each package had no worker, a dead transport, or acknowledged with its revision and no job |
| `ManagerLaws.StepKeeps` | extensions/manager.py:30-87 | every step of requests, preparation, cleanup, publication, readers and close keeps the manager invariant |
| `ManagerLaws.EachOpenRuntimeHasOneOwner` | extensions/manager_admission.py:24-44 | in every run an open runtime has exactly one owner among the candidate, the active slot and the retired owners, the first two are never closed, and a pending operation in running mode means that nothing waits for cleanup |
| `ManagerLaws.LeaseIsReleasedLast` | extensions/manager.py:70-87 | the lease is released only with the registry drained, the executor stopped, nothing pending or active, every prepared runtime closed and the last evidence stored |
| `ManagerLaws.LeaseIsHeldWhenUsed` | extensions/manager_shutdown.py:80-95 | in every run, each call that needs the lease finds it held |
| `ManagerLaws.ClosedForGood` | extensions/manager.py:72-75 | a closed manager stays closed and uses the lease no more, also when close is called again |
| `ManagerLaws.ClosesEachRuntimeOnce` | extensions/manager_retirement.py:52-61 | over a whole run with cleanup retries and repeated closes, each runtime's close is called at most once |
| `ManagerLaws.OwnersHaveOneUser` | extensions/manager_publication.py:38-53 | the cleanup task and the closing thread never work on the owners at the same time |
| `ManagerLaws.OnlyRefusedCommitsFence` | extensions/manager_publication.py:56-82 | the expected registry revision of a pending operation is always current, so only a refused commit fences the manager |
| `ManagerLaws.FailingCloseIsStuck` | extensions/manager_retirement.py:52-61 | a cleanup or closing step whose resource close raises leaves the runtime retired with a final close issue |
| `ManagerLaws.FailedCloseHoldsTheLease` | extensions/manager_retirement.py:52-61 | after a step whose resource close raised, in every later run the runtime stays retired and open, no operation is accepted, and the lease stays held |
| `ManagerSteps.CollectionDecides` | extensions/manager_state.py:23-29 | collecting a finished cleanup lets exactly the closed owners go, in order, and changes nothing else |
| `ManagerSteps.SubmitDecides` | extensions/manager_admission.py:14-44 | a request is the pending operation for the registry's current revision exactly when the manager runs, the store accepts it, nothing is pending and no older runtime is left; any other request leaves it as it was |
| `ManagerSteps.FirstRequestIsPrepared` | extensions/manager_admission.py:39-43 | a new manager prepares the first request that the store accepts, for its revision |
| `ManagerSteps.RetryDecides` | extensions/manager.py:73-78 | a retry starts a cleanup of all owners that are left when no task works on them; a read of the state only collects |
| `ManagerSteps.PreparationDecides` | extensions/manager_admission.py:51-63 | a preparation ends with a failure, or with a new candidate and its own resources |
| `ManagerSteps.CandidateDecides` | extensions/manager_publication.py:56-92 | with a candidate an attempt switches exactly when no reader holds the registry and the store takes the commit, and fences exactly when the store refuses it and the operation can be finished; else nothing changes |
| `ManagerSteps.AttemptDecides` | extensions/manager_publication.py:16-35 | without a candidate an attempt finishes a failed preparation, or collects a finished cleanup at most |
| `ManagerSteps.CollectionOwnsAll` | extensions/manager_shutdown.py:32-45 | a close moves the candidate and then the active runtime behind the retired ones, each with its own owner, unless the store raises |
| `ManagerSteps.OwnersTakeTurns` | extensions/manager_shutdown.py:48-62 | one turn changes exactly one owner, and its runtime is no longer open exactly when its resources are closed |
| `ManagerSteps.EvidenceIsComplete` | extensions/manager_shutdown.py:80-95 | what a close stores before and after the release: for each retired owner in order its revision, its closure, the issues of its workers and then that of its close |
| `ManagerSteps.FinishDecides` | extensions/manager_shutdown.py:68-77 | the lease goes exactly when every owner is closed and the release succeeds |
| `ManagerClose.CloseState` | extensions/manager.py:70-87 | an uninterrupted close is a run from any state; it ends closed exactly when it was, or the drain, the store and the lease release succeed and no open runtime, nor the candidate still in preparation, has a close that fails or has failed |
| `ManagedExtension.ManagedExtensions.constructor` | extensions/manager_factory.py:55-68 | a new manager is the start state |
| `ManagedExtension.ManagedExtensions.CollectDone` | extensions/manager_state.py:23-29 | a finished cleanup task is collected, and exactly the closed owners are dropped |
| `ManagedExtension.ManagedExtensions.SubmitOperation` | extensions/manager_admission.py:14-47 | an operation is accepted only while nothing is pending and nothing waits for cleanup |
| `ManagedExtension.ManagedExtensions.RetryRetired` | extensions/manager.py:63-68 | a retry collects, and starts cleanup only when owners are left and no task runs |
| `ManagerProgress.ProgressIsTrue` | extensions/manager_publication.py:16-35 | each answer of a publication attempt is true of the manager before and after it: its status, the registry revision, and whether the engine may process; an attempt that raises changes nothing but collected cleanup |
| `ManagerProgress.AnswerDecides` | extensions/manager_publication.py:16-101 | which answer an attempt gives for every state, reader count and answer of the store, and when it raises |
| `ManagerProgress.ProcessingStaysAllowed` | extensions/manager_publication.py:95-101 | once a runtime is active, the engine may process in every later running state, whatever is prepared |
| `ManagedExtension.ManagedExtensions.Publish` | extensions/manager_publication.py:16-35 | one publication attempt is one step of the state machine, and its answer is the specified progress |
| `ManagedExtension.ManagedExtensions.PublishPrepared` | extensions/manager_publication.py:56-82 | the candidate is published, kept for a later attempt or fenced, in the order of the registry's checks |
| `ManagedExtension.ManagedExtensions.FencePrepared` | extensions/manager_publication.py:85-92 | a fenced candidate is retired once its operation is finished; a store that raises changes nothing |
| `ManagedExtension.ManagedExtensions.DrainRegistry` | extensions/manager_shutdown.py:19-29 | a drain that times out leaves everything owned |
| `ManagedExtension.ManagedExtensions.CollectOwnedWork` | extensions/manager_shutdown.py:32-45 | the candidate and the active runtime move to new retired owners; a store that raises leaves the operation |
| `ManagedExtension.ManagedExtensions.AskAll` | extensions/manager_shutdown.py:55-57 | each retired owner is deactivated once |
| `ManagedExtension.ManagedExtensions.ReleaseAll` | extensions/manager_shutdown.py:59-60 | each retired owner's resources are closed, whatever happens to the others |
| `ManagedExtension.ManagedExtensions.Record` | extensions/manager_shutdown.py:80-95 | the stored evidence is the observation of every retired owner at that moment; an unstored record stops the close |
| `ManagedExtension.ManagedExtensions.FinishClose` | extensions/manager_shutdown.py:68-77 | the lease is released exactly when every retired owner is closed and the release succeeds |
| `ManagedExtension.ManagedExtensions.Close` | extensions/manager.py:70-87 | the whole close computes the specified state and returns normally exactly when the manager is closed |
| `Jobs.StepKeeps` | repository/impl/sqlite/extension_jobs.py:29-38 | every step of every thread keeps: accepted exactly at the first revision, running only at the second, and each claim alone |
| `Jobs.AtMostOneCall` | extensions/command_execution.py:32-47 | over any interleaving of executors, cancels, reconciles and restarts a job's capability is called at most once, and an accepted job has had no call |
| `Jobs.AtMostOneJobPerRequest` | repository/impl/sqlite/extension_jobs.py:129-178 | a repeated request key or cause keeps its one job in every run |
| `Jobs.CallsFollowClaims` | extensions/observer_execution.py:72-78 | each call holds the running job of the second revision, which was not called before |
| `Jobs.RevisionsOnlyGrow` | repository/impl/sqlite/extension_jobs.py:34-38 | over every run revisions only grow, no job becomes accepted again, and no settled job runs again |
| `Jobs.LoserWritesNothing` | extensions/job_states.py:44-59 | a thread that lost the revision race stores nothing, however long it waits and whether it claims, refuses, settles or rejects, and a lost claim calls nothing |
| `Jobs.RunningJobIsNeverCalledAgain` | extensions/job_control.py:89-113 | after a restart the original call of a job that left the accepted state is never repeated |
| `JobStores.JobStore.AcceptJob` | repository/impl/sqlite/extension_jobs.py:129-178 | a new request is inserted as accepted, a repeated one returns its stored job, and a taken key raises |
| `JobStores.JobStore.UpdateState` | repository/impl/sqlite/extension_jobs.py:181-210 | a change is stored exactly when its revision matches |
| `JobStores.JobStore.SettleJob` | extensions/job_states.py:44-59 | the returned job is the stored one, also after a lost race |
| `JobStores.JobStore.Execute` | extensions/command_execution.py:32-47 | claim, one call, and settlement are a run of the state machine; a lost claim calls nothing |
| `JobStores.ExecutionKeeps` | extensions/command_execution.py:32-47 | a whole execution keeps what every run keeps |
| `JobStores.JobStore.RunJob` | extensions/command_dispatch.py:99-128 | a job that is not accepted is left alone, one of an inactive package waits, a removed or refused one fails without a call |
| `JobStores.JobStore.StoreReply` | extensions/observer_settlement.py:27-41 | a checked reply is stored from the exact revision; rejected observations fail the job from the same revision |
| `JobStores.JobStore.CancelJob` | extensions/command_recovery.py:25-40 | only a proven stop is stored |
| `JobStores.JobStore.ReconcileJob` | extensions/command_recovery.py:43-66 | an inspected outcome is stored without a second call |
| `JobStores.JobStore.JobsInState` | repository/impl/sqlite/extension_jobs.py:88-106 | the stored jobs in that state and of those owners, oldest first, up to the limit |
| `JobSelection.OldestAreUnique` | repository/impl/sqlite/extension_jobs.py:88-106 | no other list has the oldest selected jobs in their order |
| `JobSelection.OthersHoldNothingBack` | repository/impl/sqlite/extension_jobs.py:88-98 | a selected job that is left out stands behind a full list of older selected ones, never behind a job of another owner |
| `JobStores.JobStore.RecoverJobs` | extensions/job_control.py:89-113 | the recovery is a run of reads and settlements of the oldest running jobs, up to the limit |
| `JobStores.RecoverySettlesThePicked` | extensions/job_control.py:89-113 | it changes exactly the picked jobs, each once, to outcome unknown from its running revision |
| `JobStores.FullRecoveryLeavesNoneRunning` | extensions/job_control.py:89-113 | below its limit it leaves no running job |
| `JobStores.RecoveryKeeps` | extensions/job_control.py:89-113 | it calls no capability and keeps what every run keeps |
| `JobStores.ExecutionCallsIffClaimed` | extensions/command_execution.py:39-43 | one execution calls the capability exactly when the job was still at its first revision and its package ready |
| `JobStores.ExecutionSettlesIffFirst` | extensions/command_dispatch.py:99-128 | an execution leaves the job final exactly when it was at its first revision and its package active; otherwise the store is unchanged |
| `JobStores.AnswerSettlesIffCurrent` | extensions/job_states.py:44-59 | an answer makes the job final exactly when it comes from the current revision |
| `JobOutcomes.AnswerIsStored` | extensions/command_execution.py:44-47 | an answer from the current revision leaves exactly its state, result and code in the row: the lost code for a lost reply, the result alone for a checked one, both for rejected observations; what was asked, and every other row, stays |
| `JobOutcomes.SettlementIsStored` | repository/impl/sqlite/extension_jobs.py:181-210 | a final state, as after a proven stop, is stored with exactly its result and code from the current revision, and not at all from an older one |
| `JobOutcomes.ExecutionIsStored` | extensions/command_dispatch.py:99-128 | what a whole execution leaves in the row in each case, with the binding and the request that the claim names |
| `JobOutcomes.ClaimIsStored` | extensions/observer_execution.py:94-100 | a claim stores a running job without an outcome, and the thread holds that row |
| `JobOutcomes.RecoveryIsStored` | extensions/job_control.py:101-113 | a recovered job has an unknown outcome and the code of the restart, and keeps what it was asked |
| `JobOutcomes.AcceptanceIsStored` | repository/impl/sqlite/extension_jobs.py:129-178 | a new request is one row more, as it was accepted; a known request and a taken key change nothing |
| `JobOutcomes.ThreadsHoldTheirRows` | extensions/job_states.py:31-59 | a thread works on the row as it was when it picked or read it, one call is counted for each call, and nothing but a restart changes what another thread holds |
| `JobOutcomes.RequestIsFixedAtTheClaim` | repository/impl/sqlite/extension_jobs.py:34-38 | over every run with restarts a claimed job keeps its binding and its request |
| `JobOutcomes.RestartRepeatsNothing` | extensions/job_control.py:89-100 | a restart ends every thread and keeps the table, and no job that had left the accepted state is called again |
| `JobExecutors.JobExecutor.SubmitJob` | extensions/job_executor.py:43-49 | a queued job is not scheduled again; a closed pool raises |
| `JobExecutors.JobExecutor.SubmitAccepted` | extensions/job_executor.py:51-69 | without a pending switch, the oldest accepted jobs of the active packages are scheduled up to the limit, until the pool raises |
| `JobExecutors.SubmissionsAreARun` | extensions/job_executor.py:66-69 | these submissions are a run of the moves of one thread |
| `JobExecutors.OpenPoolTakesAll` | extensions/job_executor.py:66-69 | an open pool takes exactly the listed jobs that were not queued, and nothing raises |
| `JobExecutors.JobExecutor.RunNext` | extensions/job_executor.py:75-82 | a finished or failed task leaves the queued set |
| `JobExecutors.JobExecutor.CloseExecutor` | extensions/job_executor.py:71-73 | closing lets the pool finish the tasks that it has |
| `JobExecutors.NoJobHasTwoTasks` | extensions/job_executor.py:43-49 | in every interleaving of submitting threads and the pool, no job has two tasks |
| `JobExecutors.TasksBeginInOrder` | extensions/job_executor.py:42-69 | over every interleaving the pool begins its tasks in the order in which it took them, and loses none |
| `JobExecutors.QueuedUntilTheEnd` | extensions/job_executor.py:42-69 | a key is queued from its submission until its own task ends |
| `JobExecutors.StuckIffRefused` | extensions/job_executor.py:43-82 | in every interleaving a key is queued without a task exactly when the pool refused it in some move; otherwise the queued keys are exactly the keys in flight |
| `JobExecutors.OpenPoolRefusesNothing` | extensions/job_executor.py:71-73 | a run with a refusal ends with a closed pool |
| `JobExecutors.CloseCanRefuse` | extensions/job_executor.py:48-49 | a run in which the pool closes between the two steps of a submission leaves its key queued without a task |
| `TextWidth.FastWidthIsWidth` | client/_render_width.py:24-34 | the ASCII shortcut gives the sum of the character widths |
| `TextWidth.WidthCounts` | client/_render_width.py:12-34 | the columns of a text are its characters that take any, and one more for each wide one |
| `TextWidth.Cut` | client/_render_width.py:37-51 | the result is the length of the longest prefix within the columns, for negative columns too |
| `TextWidth.LongestFitIsLongest` | client/_render_width.py:37-43 | the specified length fits, and every longer prefix is too wide |
| `TextWidth.LongestFitUnique` | client/_render_width.py:37-51 | only one length is the longest fit |
| `Spans.Merged` | client/_render_span_operations.py:10-28 | no character or style changes, and no two neighbours of the result look the same |
| `Spans.BackgroundFillsTheRow` | client/_render_span_operations.py:31-48 | a background row is exactly as wide as the pane unless its text is wider; the text comes first, in its styles and on its own backgrounds or the row's, and then blanks on the row's |
| `Spans.Take` | client/_render_span_operations.py:51-74 | the loop with its work list gives the specified split, for a negative width too |
| `Spans.TakeSplitsWithoutLoss` | client/_render_span_operations.py:51-60 | taken and remaining together are the input with its styles, and the taken part is within the columns |
| `Spans.TakeFillsTheColumns` | client/_render_span_operations.py:61-74 | the taking stops only when the columns are used or the next character does not fit |
| `Wrap.ContentAtoms` | client/_render_wrap.py:102-109 | the atoms are collected span by span |
| `Wrap.AtomsKeepTheText` | client/_render_wrap.py:102-109 | splitting into atoms loses no character and no style |
| `WrapWords.AtomsAreTheRuns` | client/_render_wrap.py:25-109 | exactly the runs of spaces and tabs and of other characters are atoms, neighbours of a span are of different kinds, and no atom joins two spans |
| `WrapWords.WordsStayWhole` | client/_render_wrap.py:52-93 | for every content and width a row ends inside a word only when the word is wider than the row; then the row has it alone and as much of it as fits |
| `WrapWords.RowsHaveNoOuterSpace` | client/_render_wrap.py:52-76 | no row but the last ends with white space of its own, and no row but the first begins with any |
| `Wrap.WrapState.constructor` | client/_render_wrap.py:28-50 | a new wrap has its atoms and prefixes, and no row yet |
| `Wrap.WrapState.Paint` | client/_render_wrap.py:52-63 | for every width and content the loop ends, with the specified rows and no atom left |
| `Wrap.WrapState.FillRow` | client/_render_wrap.py:65-73 | one row takes the atoms that the specification gives it |
| `Wrap.WrapState.AppendAtom` | client/_render_wrap.py:78-93 | placing one atom keeps the used columns equal to the measured width, and cuts a word that is wider than its row |
| `Wrap.WrapState.TrimRow` | client/_render_wrap.py:55-56 | the white space before a break is dropped |
| `Wrap.FillLine` | client/_render_wrap.py:65-99 | each row makes the remaining characters and atoms fewer, also when an empty atom is pushed back |
| `Wrap.Lines` | client/_render_wrap.py:52-63 | there is at least one row |
| `WrapLaws.WrapConserves` | client/_render_wrap.py:52-99 | the rows hold all characters once, in order and with their styles, except white space dropped beside a row break |
| `WrapLaws.WrapKeepsVisible` | client/_render_wrap.py:52-99 | all characters that are not white space come out once, in order and with their styles |
| `WrapLaws.WrapFits` | client/_render_wrap.py:65-99 | every row fits the columns left by its prefix, unless it is one single wider character |
| `WrapOptimal.StaysAhead` | client/_render_wrap.py:65-93 | the greedy wrap is never behind another layout |
| `WrapOptimal.GreedyIsOptimal` | client/_render_wrap.py:52-93 | when no atom has to be cut, no other choice of breaks uses fewer rows |
| `WrapOptimal.GreedyBeatsLooseLayouts` | client/_render_wrap.py:52-93 | for content that neither starts nor ends with white space, leaving out outer white space wins nothing |
| `WrapOptimal.TrailingSpaceCostsARow` | client/_render_wrap.py:52-63 | white space at the end that does not fit makes an extra blank row, so the condition is needed |
| `Rows.SplitLines` | client/_render_wrap.py:112-121 | the logical lines are collected span by span |
| `Rows.SplitLinesJoinBack` | client/_render_wrap.py:112-121 | splitting at newlines and joining again gives back every character with its style |
| `Rows.LinesHaveNoNewline` | client/_render_wrap.py:112-121 | no logical line holds a newline |
| `Rows.PaintRows` | client/_render_rows.py:40-72 | the layout is chosen after the text is split at its newlines |
| `Rows.MultilineRows` | client/_render_rows.py:75-96 | the rows of the lines follow each other, the first with the prefix and the others with the continuation |
| `Rows.WrappedTextKeepsVisible` | client/_render_rows.py:40-96 | at every width, prefix and background each row of a wrapped text is its prefix and its part, and the parts show all visible characters once, in order and with their styles |
| `Rows.WrappedRowsFit` | client/_render_rows.py:40-96 | every row of a wrapped text fits the width together with its prefix, unless the prefix leaves no column or the part is one wider character |
| `Rows.VerbatimIsOneRow` | client/_render_rows.py:67-68 | text in columns is one row, whatever it holds |
| `Rows.TruncatedRowsFit` | client/_render_rows.py:69-96 | a truncated text has one row for each logical line: as much of the start of its prefix and its line as the width has room for, and with a background exactly the width, filled with blanks |
| `Scrollback.PaintNewest` | client/_render_feed.py:132-140 | the newest-first loop stops as soon as the scrollback is full, and puts the painted parts in order |
| `Scrollback.StopUnique` | client/_render_feed.py:134-138 | only one number of shown items is possible |
| `Scrollback.EarlyStopRefines` | client/_render_feed.py:123-140 | the early stop leaves the same screen as painting every item |
| `Blocks.Tail` | client/_render_blocks.py:127-142 | the backward search for line feeds gives the specified tail |
| `LineEnds.EndsSplitLines` | client/_render_blocks.py:114-124 | a line, any of the line ends, and more text give the line and then the lines of the text; a carriage return and a line feed are one end |
| `LineEnds.OneLine` | client/_render_blocks.py:114-124 | text without a line end is one line, and no text is none |
| `LineEnds.StrippedIsExact` | client/_render_blocks.py:114-124 | exactly the white space at the end of a line is left out |
| `Blocks.TailHasTheNewestLines` | client/_render_blocks.py:127-142 | the tail has the same newest lines as the whole text |
| `Blocks.StreamRows` | client/_render_blocks.py:85-124 | the newest lines of the output and then the status are painted until the scrollback is full |
| `Blocks.StreamRefinesAllLines` | client/_render_blocks.py:85-142 | when no line is longer than the limit, the painted rows leave the screen of all lines |
| `LongLines.LineIsItsChunks` | client/_render_blocks.py:100-111 | a line without white space, of any character widths, takes the rows of its chunks: what fits and at least one character each, with an empty last row after a character wider than its row |
| `LongLines.NarrowLineFillsIff` | client/_render_blocks.py:114-124 | a line without white space and wide characters fills the scrollback exactly when it is wider than all rows of the scrollback but one |
| `LongLines.UniformLineFillsIff` | client/_render_blocks.py:114-124 | a line in which each character takes one column, or each takes two, fills the scrollback exactly from a number of characters on |
| `LongLines.CutIsHiddenIff` | client/_render_blocks.py:114-124 | of a line in which each character takes one column, or each takes two, the cut is hidden exactly when the characters that it leaves out fill whole rows |
| `LongLines.CutCanBeSeen` | client/_render_blocks.py:114-124 | at a width of 80 the cut of 384001 letters is seen, narrow or wide |
| `LongLines.SolidLineFillsScrollback` | client/_render_blocks.py:114-124 | also with characters of different widths, a line of as many characters as the paint reads fills the scrollback when none of them is white space or takes no column |
| `LongLines.LongLineCanLoseText` | client/_render_blocks.py:114-124 | with zero-width characters the cut loses text that the full paint shows |
| `Feed.BlockRows` | client/_render_blocks.py:36-63 | the heading, the newest output behind its rail and the end of a block; the screen of the block with every line when no line is longer than the limit |
| `Feed.RecordRefines` | client/_render_blocks.py:36-63 | a block painted from its newest lines, with its heading and its end, leaves the screen of the whole block when no line is longer than the limit |
| `Feed.BlockStandsInOrder` | client/_render_blocks.py:36-63 | from top to bottom: an empty row, a line, the heading, the summary, a line, the status, the output, and between two lines the end |
| `Feed.OutputStandsBehindTheRail` | client/_render_blocks.py:100-111 | every row of a block's output starts with a bar and a blank in the colour of the block |
| `Feed.RecordsDraw` | client/_render_feed.py:114-120 | every record draws its own rows in the order of the feed, and a hidden entry none |
| `Feed.PaneStandsInOrder` | client/_render_compose.py:61-106 | the pane is the header and the newest 4800 rows of the feed, the tasks and the sections, in this order |
| `Feed.ScrollbackFeed` | client/_render_feed.py:123-140 | the feed is painted from the newest item until the scrollback is full |
| `Feed.Mirror` | client/_render_compose.py:36-106 | the pane is the screen that painting every record and every line makes, when no output line is longer than the limit |
| `Feed.LazyFeedRefinesFullFeed` | client/_render_feed.py:123-140 | the newest-first walk over lazily painted records leaves the screen of all rows of all records |
| `FeedRepaint.KeepNewestIsNewest` | client/_model_session_feed.py:54-71 | the feed after forgetting is exactly the newest records, unchanged and in their order |
| `FeedRepaint.RepaintIsStable` | client/_pane_rendering.py:74-85 | after the pane forgets what its paint did not show, the next paint at the same width shows the same screen and forgets nothing more |
| `ShellFolds.ShellFold.FromEntry` | client/_model_shell.py:38-53 | a fold starts with its start entry only |
| `ShellFolds.ShellFold.Apply` | client/_model_shell.py:55-84 | each entry is folded once |
| `ShellOutput.RepeatsChangeNothing` | client/_model_shell.py:55-60 | folding parts with repeats is folding the first occurrences of the new ones |
| `ShellOutput.ShellsAreTheirParts` | client/_model_session_state.py:82-91 | after every run the model has exactly the started shells, each the fold of its first start and of every part after it |
| `ShellOutput.ShellsStandAtTheirStart` | client/_model_session_state.py:82-113 | after every run a shell stands in the feed at the place of its first start, whatever came later, and a shell without a start has no place |
| `ShellOutput.OutputInEveryRun` | client/_model_shell.py:55-84 | in every run, with repeats, other shells and early parts: a shell shows its last replacing text and what was appended later, or all that was appended, each part once; the same for its status |
| `SessionModels.SessionModel.constructor` | client/_model_session.py:29-54 | a new model is empty |
| `SessionModels.SessionModel.ApplyEntries` | client/_model_session_state.py:51-65 | a page or a frame applies its entries in order |
| `SessionModels.SessionModel.ApplyOne` | client/_model_session_state.py:67-80 | an entry that the model has or has dropped changes nothing; a new one is folded or placed |
| `SessionModels.SessionModel.FoldShellEntry` | client/_model_session_state.py:82-91 | a part of an unknown shell is ignored, a start opens a fold, and other parts are folded in place |
| `SessionModels.SessionModel.DropSuperseded` | client/_model_session_state.py:93-102 | the walk over a copy of the order drops each other prompt that the entry replaces |
| `SessionModels.SessionModel.DropEntry` | client/_model_session_state.py:104-108 | a dropped entry leaves the order and the maps and is remembered |
| `SessionModels.SessionModel.PlaceKey` | client/_model_session_state.py:111-113 | the key is inserted after the keys that do not come later |
| `FeedOrder.FeedIsInCursorOrder` | client/_model_session_state.py:111-113 | over every run of pages, frames and forgetting, of two items the earlier one belongs to an earlier fact, or to the same one and to no later row; a shell belongs where the entry that opened it does |
| `FeedOrder.ShellsAreInStartOrder` | client/_model_session_state.py:82-91 | without forgetting, shells stand in the order of their first starts |
| `FeedOrder.NewItemGoesBehindEquals` | client/_model_session_state.py:111-113 | a new item goes behind all items that are not later and before all later ones |
| `FeedOrder.NewPromptTakesThePlace` | client/_model_session_state.py:93-121 | a new entry is held, and takes away exactly the other user prompts in the place of the same prompt |
| `FeedOrder.PartsAreFolded` | client/_model_session_state.py:67-91 | a new start, chunk, background notice or end is folded into its shell, a start opens one, other parts of a shell that is not held are ignored, and every other new entry is held itself |
| `FeedOrder.RowIsTheHighest` | client/_model_session_state.py:67-72 | after every run the row that the stream continues from is the highest of all entries |
| `FeedOrder.PartChangesTheShell` | client/_model_shell.py:55-84 | a new part changes exactly its stream, or the end and the whole output, behind it or in its place |
| `FeedOrder.StartShowsNothing` | client/_model_shell.py:39-53 | a shell starts with its command and nothing shown, in the foreground unless its start says otherwise |
| `SessionModels.SessionModel.Forget` | client/_model_session_feed.py:54-71 | everything but the newest items is forgotten |
| `SessionModels.DropRunDropsAll` | client/_model_session_state.py:98-108 | dropping one by one over the order drops all superseded prompts |
| `SessionModels.ForgetRunKeepsNewest` | client/_model_session_feed.py:62-71 | forgetting the oldest items one by one leaves the newest ones |
| `Session.ApplyEntryKeeps` | client/_model_session_state.py:67-121 | one entry keeps the feed invariant |
| `Session.KeepNewestKeeps` | client/_model_session_feed.py:54-71 | forgetting keeps the feed invariant and the newest items in their order |
| `Session.FeedInvariantOverRuns` | client/_model_session_state.py:67-121 | over every run of pages, frames and forgetting: the order is sorted, has each held item once and no dropped one, and at most one user prompt answers a prompt |
| `SessionLaws.ReplayChangesNothingIff` | client/_model_session_state.py:67-91 | applying each entry of a run again changes nothing exactly when no shell part came only before the start of its shell |
| `SessionLaws.ReplayHasNoEffect` | client/_model_session_state.py:67-91 | any later replay of applied entries, in any order and any number of times, leaves the model unchanged |
| `SessionLaws.LatePartChangesTheModel` | client/_model_session_state.py:82-91 | a part that only came before its shell's start was ignored, so a replay adds it |
| `ArrivalOrder.ArrivalOrderDoesNotMatter` | client/_model_session_state.py:67-113 | in every order of arrival of the same entries, among shell parts and replacing prompts: each other entry is held and never dropped, and with distinct places they stand in the same order |
| `SessionLaws.PlainRunsBuildTheSameModel` | client/_model_session_state.py:67-80 | entries of which none is a shell part or replaces a prompt build the same whole model in every order |
| `Manifest.AssetName` | dashboard/frontend_manifest.py:28-48 | a name is accepted exactly when it is a relative path below assets without a parent step |
| `ModuleOrder.SafeIff` | dashboard/frontend_manifest.py:28-48 | between its slashes an accepted name has no part of two dots, and its first part that counts is assets; it does not begin with a slash, and every such name is accepted |
| `Manifest.EntrySearch.EntryStyles` | dashboard/frontend_manifest.py:114-124 | the styles of one entry are returned exactly when all are safe |
| `Manifest.EntrySearch.Search` | dashboard/frontend_manifest.py:72-94 | the recursive search over the shared visited set ends on cyclic graphs, visits only reachable sound keys in depth-first order, and fails only for a broken reachable key |
| `Manifest.EntrySearch.SearchImports` | dashboard/frontend_manifest.py:87-93 | the imports in their order: each adds the modules that its search finds and then its own file, and the visited keys are those of the imports one after the other |
| `Manifest.VisitsTheReachable` | dashboard/frontend_manifest.py:72-94 | a search from nothing visits exactly the reachable keys |
| `Manifest.PreorderFollowsImports` | dashboard/frontend_manifest.py:72-94 | the order of first visit starts with the entry itself, and every later key is imported by an earlier one |
| `Manifest.EntryAssets` | dashboard/frontend_manifest.py:72-94 | it succeeds exactly when everything reachable is there and safe; each reachable entry's styles come once in the order of first visit, and the modules are the files that one or more import steps reach, in the order in which the search returns to them |
| `ModuleOrder.ModulesStandBehindTheirImports` | dashboard/frontend_manifest.py:72-94 | for every graph a module stands behind all modules that it imports, unless it is in a cycle of imports |
| `Manifest.Unique` | dashboard/frontend_tags.py:48-61 | the first occurrences of the names |
| `Manifest.FirstOccurrences` | dashboard/frontend_tags.py:48-61 | no name twice, and no name lost |
| `Manifest.UniqueKeepsOrder` | dashboard/frontend_tags.py:48-61 | removing repetitions keeps the order of the first occurrences |
| `Manifest.ManifestTags` | dashboard/frontend_tags.py:17-45 | the page's links exist exactly for a complete and safe build: each reachable style and module once, in the order in which the search finds it first |
| `DiffRanges.FindRanges` | client/_render_diff_models.py:33-47 | the two counting loops give the common prefix and suffix |
| `DiffRanges.RangesAreTight` | client/_render_diff_models.py:33-47 | the text outside the ranges is equal, and two ranges that are not empty differ at both ends |
| `DiffRanges.NothingChangedIffEqual` | client/_render_diff_models.py:33-47 | nothing is marked exactly when the lines are equal |
| `DiffRanges.NoShorterRanges` | client/_render_diff_models.py:33-47 | no other agreeing prefix and suffix leave a shorter changed part |
| `DiffRows.DiffParser.ParseInputLine` | client/_render_diff_parse.py:34-46 | one line moves the numbers and adds at most one row, or a separator before a later hunk |
| `DiffRows.ParsedRows` | client/_render_diff_parse.py:26-31 | the rows of all lines in order |
| `DiffRows.RowsAreNumbered` | client/_render_diff_parse.py:34-73 | every row's number is its hunk's start plus the earlier rows on that side |
| `DiffLines.HeaderIsRead` | client/_render_diff_parse.py:17-42 | every header in decimal numbers is read with its old and its new start and length, and a missing length is one |
| `DiffLines.MarkedLineIsARow` | client/_render_diff_parse.py:58-73 | a removed line takes the next old number, an added one the next new number, a context line both; the row has the text behind the mark |
| `DiffLines.OtherLinesAreNoRows` | client/_render_diff_parse.py:34-55 | a header sets the numbers and, from the second one on, puts an ellipsis between the hunks; no other line is a row |
| `DiffRows.CountsAreKept` | client/_render_diff_parse.py:17-17 | the reading by the header's counts gives each hunk exactly the lines that its header promises, and those still to come |
| `DiffRows.HiddenLessExtraMore` | client/_render_diff_parse.py:34-73 | against that reading the parser loses exactly the content lines that start like file names and adds exactly the uncounted lines that start like content |
| `DiffRows.RowsAreExactIff` | client/_render_diff_parse.py:34-73 | the rows are the diff's own exactly when no counted line starts like a file name, and every uncounted line behind the first header that starts like content is a file line |
| `DiffRows.RemovedCommentIsLost` | client/_render_diff_parse.py:49-55 | a removed comment that starts with two dashes and a space is lost |
| `DiffRows.SignatureIsARow` | client/_render_diff_parse.py:58-65 | the line that ends a mailed patch becomes a row |
| `DiffMarks.MarkChangedRanges` | client/_render_diff_parse.py:76-94 | the loop over the rows in place marks exactly the rows with a partner, and keeps every kind, number and text |
| `DiffMarks.PartnersAreMutual` | client/_render_diff_parse.py:76-94 | partners are mutual, the removed one first; they are the k-th rows of a removed run and the added run directly after it |
| `DiffMarks.BlockIsMarked` | client/_render_diff_parse.py:82-87 | as many rows of each run are marked as the shorter run has |
| `DiffMarks.PairsShowTheirDifference` | client/_render_diff_parse.py:76-94 | the k-th rows of a removed run and of the added run directly behind it get ranges outside which their texts are equal and at whose ends they differ; kind, number and text stay |
| `DiffMarks.OthersAreNotMarked` | client/_render_diff_parse.py:76-94 | the rest of the longer run, an added run that is not directly behind a removed one, and every other row stay as they are |
| `DiffMarks.MarkPair` | client/_render_diff_models.py:50-60 | two rows get the ranges in which they differ |
| `DiffMarks.FindDiffRows` | client/_render_diff_parse.py:20-23 | parsing and then marking |
| `Attention.FindPending` | domain/entries.py:124-154 | the fold over an ordered dictionary gives the specified attentions |
| `Attention.PendingIffWaiting` | domain/entries.py:124-169 | an opening entry is pending exactly when no later entry asks or answers it and no later end of its actor's turn closes it |
| `Attention.PendingIffStillAsked` | domain/entries.py:124-169 | a question or plan is in the result exactly when nothing later asks, answers or resolves it, and no turn end of its actor ends it: any for a question, an aborted one for a plan |
| `Attention.SlotsAreOpenSinceTheirStart` | domain/entries.py:135-142 | each attention stands where an entry opened it while no entry of it was waiting, and some entry of it waits ever since |
| `Attention.OldestFirstIff` | domain/entries.py:124-133 | the result is from oldest to newest exactly when no two waiting entries are such that the newer one's attention was opened first |
| `Attention.AskedAgainStaysFirst` | domain/entries.py:142-142 | an attention that is asked again keeps its old place before a newer one |
| `LaunchOptions.ParsedOptions.Apply` | dashboard/cli_option_parser.py:21-49 | one option fills its field or raises |
| `LaunchOptions.ParseOptions` | dashboard/cli_option_parser.py:12-18 | the popping loop parses the whole command line |
| `LaunchOptions.NextOption` | dashboard/cli_option_parser.py:52-71 | a taken option is known, has a value and leaves fewer arguments |
| `LaunchOptions.VariablesAreSet` | dashboard/cli_option_parser.py:32-38 | in both written forms a port of digits and a resolved data directory go to the dashboard's environment, and another port is refused |
| `LaunchOptions.LogAndRootsAreSet` | dashboard/cli_option_parser.py:21-49 | in both written forms the log file is set and one more root is added behind a separator, unless its path has one |
| `LaunchOptions.HarnessIsSet` | dashboard/cli_option_parser.py:74-85 | in both written forms a harness setting is added with an absolute path, and refused without a name or a path |
| `LaunchOptions.OtherwiseItFails` | dashboard/cli_option_parser.py:52-71 | an option without a value and a name that is no option end the parse with their error |
| `LaunchOptions.HarnessIsGood` | dashboard/cli_option_parser.py:74-85 | a harness setting parses back to itself |
| `LaunchOptions.ForwardedFlags` | dashboard/cli_forwarding.py:11-36 | the loops build the specified flags |
| `LaunchOptions.ParsedIsGood` | dashboard/cli_option_parser.py:12-85 | every parsed option is a fixed point of parsing, and each extension root has no path separator |
| `LaunchOptions.ForwardedParses` | dashboard/cli_forwarding.py:11-36 | options that are fixed points come back from their flags |
| `LaunchOptions.ChildGetsTheSameOptions` | dashboard/cli_forwarding.py:11-25 | for every command line that parses, the child that gets the forwarded flags has the same options |
| `LaunchOptions.ForwardingSplitsRoots` | dashboard/cli_forwarding.py:29-36 | a root with a separator would reach the child as two, so the rule on roots is needed |

## Left out

- Real threads, conditions and clocks: each critical section is one atomic step, and a clock reading is a parameter. A
  retry of several stages reads the clock once here and once for each stage in the program.
- Stop requests of the engine: the engine laws are about runs in which no stage is skipped because of a stop.
- What a stage does, the failure records, and a failure record that itself raises.
- A deadline that is not finite: the program rejects it, and a deadline is a real number here.
- Which notice wakes the engine after a preparation or a cleanup, and the request context of deactivation calls.
- The lifecycle rows behind the manager: the store answers stored, refused or raised. Catalog and proposal checks are one
  answer, accepted or not.
- The registry's checks of a candidate's contents (new revision, catalog order): they are the answer that raises.
- How a runtime is prepared, and the closing of a candidate whose preparation failed.
- SQLite: a job table is a map, and each statement is atomic. The times of the rows are not stored: where a job stands by
  its last update and its id is a parameter, with a different value for each job.
- JobExecutors.JobExecutor.SubmitAccepted: the pending switch and the active packages are parameters, read once.
- The checks of command and observer requests and replies: a reply is checked, lost, or rejected by the host. The
  observations that are stored together with an observer's result are not part of the model.
- Threads that hold a snapshot across a restart: a restart ends every thread.
- Terminal escape text, colours by name, the scoreboard and the contents of panels: a row is a sequence of characters with styles.
- What a single feed entry draws, and the links of the pane (`copy_targets`): an entry has its rows at each width.
- The Unicode tables: width classes and white space are attributes of a character.
- LongLines.SolidLineFillsScrollback: the other direction, and when the cut is seen, are proved for lines whose characters
  all take the same columns. In a line that mixes widths a row can end one column early before a wide character, so no
  number of characters decides; `LongLines.LineIsItsChunks` gives its rows.
- A pane that is resized after it forgot items.
- Actors, the live flag and the frame clock of the session model.
- Shared fold objects that a renderer reads while they change.
- JSON and file reading of the build manifest, HTML escaping of the tags, and `build_asset_path`.
- Digits of other scripts in a hunk header: `\d` is a decimal digit here.
- `str.splitlines` before a diff is parsed: the parser gets the lines.
- Entries other than questions, plans and turn ends in the attention fold have no content here.
- Path resolution, the home directory, and which texts are digits on the command line: they are functions of the host
  with the law that a resolved path resolves to itself.
- The harness configuration that is computed from the harness flags.
- `inventory_digest`: nothing is claimed about a digest.
