# Verification of the legal workbench

A Dafny model of the parts of the workbench where order, crashes and bounds matter, with proofs about every input and every run:

- **Leased execution and recovery** (`AgentRuns`, `AgentLeases`, `WorkerOutcomes`, `MessagePreparation`, `PreparationOutcomes`, `AnalysisRecovery`, `RecoveryTheorems`, `RecoveryOutcomes`, `RecoveryTrail`, `AgentOperations`, `AgentProtocol`): runs and attempts under leases, the workers' transactions with their messages, plans and steps, the preparation that interrupts and retries message runs, the recovery sweep with its five loops, operator cancellation, and all of them together as a transition system with crashes and arbitrary clocks.
- **The extraction barrier** (`ExtractionBarrier`, `AttachmentWork`, `AnalysisWakeups`, `WakeupEvents`, `WakeupExamples`): the workers that finish a message's attachments, the jobs that download them, overlapping ones included, their transactions and the lock, the gate that asks for analysis, and when its requests come early, get lost or come twice.
- **Plans** (`PlanDag`, `PlanDependencies`, `PlanWaves`, `PlanOutcomes`): the plan validator for any number of steps, the context of a step, and the execution of a plan in concurrent waves.
- **Context snapshots** (`ContextSnapshots`, `SnapshotSegments`, `SnapshotAssembly`, `SnapshotContents`): the choice of messages and three allocators that share one budget.
- **Grounding** (`Grounding`, `GroundingAnswers`, `ButlerGrounding`, `ButlerAnswers`): the two validators that walk outputs, check sources and rebuild citations.
- **Feishu** (`MarkdownSegments`, `FolderSync`, `FeishuIngest`, `FeishuHistory`): exact offsets, folder traversal, and merging of events over several channels.
- **Routes** (`PercentEncoding`, `Urls`, `Navigation`): the web app's route parser and printer, and between them what a browser makes of a path (section 4.4, "URL parsing", of the URL Standard).

`Prelude`, `Text` and `Sorting` hold what these share.

Objects that the services update in place are classes (`Store`, `UnitOfWork`, `FeishuStore`, `Content`, `Metrics`); their methods are proved against functions on plain values, and the theorems are about those functions. The modules named `Outcomes`, `Trail`, `History`, `Contents` and `Answers` say what each operation leaves behind in plain statuses, columns and texts, without naming the function that computes it. `dafny verify dfyconfig.toml` checks everything.

Trusted, because it is the database's or the queue's part: a unit of work commits all of its changes or none; `lock_idempotency` is held until commit; a query sees what is committed when it is asked (PostgreSQL's READ COMMITTED), so a read after the lock sees the rows of whoever held it before; the row locks of the recovery queries skip rows locked by others; `updated_at` of a message is stamped by the database. Times are integers, hashes are the hashed text itself, and ids, tokens and clocks are parameters of each step.

Where the code falls short of a wider promise, the model follows the code and says exactly when the promise holds: `AgentProtocol.PrepareKeepsExactly` and `AgentProtocol.LivePreparationBreaks` (a delivery that recovers a message run whose worker is alive lets the old worker store its result over the new attempt), `WakeupEvents.OneWakeupExactly` (a download job that asks after the first request was delivered wakes the analysis twice: `WakeupExamples.TwoWakeups`), `AnalysisWakeups.LostExactly` (a download job that dies before its question loses the wakeup: `WakeupExamples.LostWakeup`), `AnalysisWakeups.SaveKeepsExactly` and `AnalysisWakeups.NoEarlyWakeup` (of two download jobs that read the same pending row, one reopens it after the other has asked: `WakeupExamples.EarlyWakeup`), `SnapshotAssembly.CountFlagMissed` (a dropped message that no reason reports), `ButlerGrounding.ValidatedAgain` (a result its own validator refuses), `FeishuIngest.LowersExactly` (an edit that lowers the source), `FeishuIngest.UndecidedOrderMatters` (creates over two unknown channels), `Navigation.RouteRoundTrip` (identifiers "." and ".."), `Navigation.NotFoundRoundTrip` and `Navigation.ParseBuildParse` (paths with two leading slashes). The last check of a formal legal basis can never fail (`Grounding.FormalCheckNeverFails`); the branch is kept.

## Model

| member | source | states |
|---|---|---|
| `AgentLeases.Store.HeartbeatAttempt` | apps/backend/src/legal_workbench/infrastructure/repositories.py:1013-1030 | The attempt row moves exactly when lease token, run, attempt number, running status and both clocks still hold; otherwise no row changes. |
| `AgentLeases.Store.FinishAttempt` | apps/backend/src/legal_workbench/infrastructure/repositories.py:1032-1076 | Completing or failing is the same compare-and-set: one row gets the terminal status and has its expiry set to the finish time, or nothing changes. |
| `AgentLeases.Store.ExpireAttempt` | apps/backend/src/legal_workbench/infrastructure/repositories.py:1078-1102 | Expiry succeeds exactly on a running attempt of that run and number whose lease has passed. |
| `AgentLeases.Store.Start` | apps/backend/src/legal_workbench/application/agent_attempts.py:114-128 | A worker's claim: the queued run and its new attempt row become running together, and a message run's message is being analysed, or an error leaves every row alone. |
| `AgentLeases.Store.Heartbeat` | apps/backend/src/legal_workbench/application/legal_agent_orchestrator.py:1706-1716 | A heartbeat renews run and attempt together or, for a lease that no longer holds, changes nothing. |
| `AgentLeases.Store.Complete` | apps/backend/src/legal_workbench/application/legal_agent_orchestrator.py:1444-1474 | The result, the final run status, the completed attempt and the message, plan or step row commit together, only under a lease that holds and only for a run that still owns its phase. |
| `AgentLeases.Store.Fail` | apps/backend/src/legal_workbench/application/legal_agent_orchestrator.py:1476-1626 | A failure settles the attempt and either requeues the plan run under its next attempt with a pending event, or gives it up and fails its plan or step; a superseded run is refused; a message run fails with its message. |
| `WorkerOutcomes.StartLeaves` | apps/backend/src/legal_workbench/application/agent_attempts.py:26-43 | A claim leaves the run and its attempt running until the end of the lease, started after the preparation, and the message under analysis. |
| `WorkerOutcomes.HeartbeatRenews` | apps/backend/src/legal_workbench/application/agent_attempts.py:45-53 | A heartbeat succeeds exactly under a good lease of a started run; then the lease is good until leaseSeconds after it, on both clocks, and no other row is touched. |
| `WorkerOutcomes.CompletedExactly` | apps/backend/src/legal_workbench/application/legal_agent_orchestrator.py:1444-1474 | A completion succeeds exactly for a running run under a good lease that still owns its phase and whose message is under analysis. |
| `WorkerOutcomes.CompleteLeaves` | apps/backend/src/legal_workbench/application/legal_agent_orchestrator.py:1444-1474 | The run ends completed, or short of information, with its output; its message becomes a candidate or is ignored; its plan is planned, completed, partial or short of information; its step is completed or short of information. |
| `WorkerOutcomes.FailLeavesRun` | apps/backend/src/legal_workbench/application/legal_agent_orchestrator.py:1591-1626 | After a failure a plan run with attempts to spare is queued under its next number, a message run ends as its attempt did, and any run that may not be repeated is dead-lettered, unless it was cancelled. |
| `WorkerOutcomes.FailLeavesPhase` | apps/backend/src/legal_workbench/application/legal_agent_orchestrator.py:1510-1550 | The message fails or is given up with its run; the step goes on or fails; the plan stays, or is partial or failed. |
| `WorkerOutcomes.RequeuedIsAnnounced` | apps/backend/src/legal_workbench/application/legal_agent_orchestrator.py:1591-1626 | A plan run that goes back to the queue leaves a pending recovery request of its plan, one more event, naming plan, run, role and reason, exactly if none was pending; every other failure leaves the outbox alone. |
| `WorkerOutcomes.WorkerRefused` | apps/backend/src/legal_workbench/application/legal_agent_orchestrator.py:116-145 | A worker is told not-found exactly if its rows are missing, and stale exactly if they are there and it lost its phase or its lease. |
| `WorkerOutcomes.ClaimedWorkCompletes` | apps/backend/src/legal_workbench/application/agent_attempts.py:114-136 | What was claimed can be completed until the lease ends on either clock, exactly if the run owns its phase. |
| `WorkerOutcomes.FailedPlanRunIsRepeated` | apps/backend/src/legal_workbench/application/legal_agent_orchestrator.py:1591-1626 | A plan run requeued by its failure can be claimed again, under its next number, with any fresh token. |
| `WorkerOutcomes.FailedMessageRunIsRepeated` | apps/backend/src/legal_workbench/application/message_analysis.py:1064-1154 | After a message run failed the next delivery requeues it exactly if the failure may pass, attempts are left and it was not cancelled. |
| `MessagePreparation.Prepare` | apps/backend/src/legal_workbench/application/message_analysis.py:350-629 | One delivery of a message's analysis: suppressed, answered, reused, interrupted, given up, retried or created, with run, attempt, message and audit rows, or an error that changes nothing. |
| `MessagePreparation.Interrupt` | apps/backend/src/legal_workbench/application/message_analysis.py:431-460 | An interrupted run fails with its message; its attempt expires only if its lease is over, and the run fails either way. |
| `MessagePreparation.Retry` | apps/backend/src/legal_workbench/application/message_analysis.py:491-532 | A failed run with attempts to spare is queued under its next number and its message handed to the agent again. |
| `MessagePreparation.SuppressRun` | apps/backend/src/legal_workbench/application/message_analysis.py:737-772 | A worker that finds its message recalled before the start cancels the queued run. |
| `PreparationOutcomes.AnsweredExactly` | apps/backend/src/legal_workbench/application/message_analysis.py:350-629 | Which answer a delivery gets, in plain statuses: suppressed, created, reused, given up, requeued or answered, each exactly if it earns it. A newest run that failed or timed out with attempts to spare is requeued if its message may be queued, an interrupted one if its message awaits analysis; whoever earns nothing is refused. |
| `PreparationOutcomes.AnswerLeaves` | apps/backend/src/legal_workbench/application/message_analysis.py:431-629 | What each answer leaves in run, attempt, message and audit: a requeued run is queued under its next number with its message handed to the agent, a run given up is dead-lettered with its message, an answered or reused one changes nothing. |
| `PreparationOutcomes.SuppressedExactly` | apps/backend/src/legal_workbench/application/message_analysis.py:737-772 | A recalled message stops exactly active runs; the run is cancelled and its message, if still under way, fails as recalled. |
| `AgentOperations.CancelRun` | apps/backend/src/legal_workbench/application/agent_operations.py:39-116 | Cancelling an active run, its message and the replay record is one step; a finished or unknown run is refused and nothing changes. |
| `WorkerOutcomes.CancelledExactly` | apps/backend/src/legal_workbench/application/agent_operations.py:57-116 | An operator stops exactly active runs; a message still under way fails with its run, any other message stays. |
| `WorkerOutcomes.CancelledIsOver` | apps/backend/src/legal_workbench/application/agent_operations.py:57-116 | After a cancellation no worker renews, delivers or fails on the run. |
| `AgentProtocol.EveryReachableStateIsSound` | apps/backend/src/legal_workbench/application/agent_attempts.py:91-162 | From the empty database, over every interleaving of deliveries, workers, operators, sweeps and clocks: attempt numbers stay within their maximum and never repeat, tokens differ, and a result is there exactly on finished runs. |
| `AgentProtocol.PrepareKeepsExactly` | apps/backend/src/legal_workbench/application/message_analysis.py:431-460 | A delivery keeps its run consistent with its attempts exactly if, where it interrupts the run, the current attempt's lease is over at its clock or no attempt is left. |
| `AgentProtocol.LivePreparationBreaks` | apps/backend/src/legal_workbench/application/message_analysis.py:431-532 | One run of the system from the empty database in which a delivery recovers a run whose lease is alive: two attempts run, and the old worker's result is stored over the new attempt. |
| `AgentProtocol.StepKeeps` | apps/backend/src/legal_workbench/application/agent_attempts.py:26-162 | Every step of every actor keeps a run consistent: the run agrees with its current attempt and earlier attempts are over without a result; a preparation does if it is safe. |
| `AgentProtocol.EveryReachableRunIsConsistent` | apps/backend/src/legal_workbench/application/agent_attempts.py:91-162 | From the empty database, over every interleaving with any clocks and crashes, a run whose own preparations were all safe is consistent. |
| `AgentProtocol.PlanRunsAreConsistent` | apps/backend/src/legal_workbench/application/legal_agent_orchestrator.py:1444-1626 | Runs of plans, which no delivery prepares, are consistent in every reachable state without any condition. |
| `AgentProtocol.ClaimSucceeds` | apps/backend/src/legal_workbench/application/agent_attempts.py:26-43 | In every sound state a claim is accepted exactly for a queued run whose message may be analysed, a named worker and an unused token: the uniqueness constraint never blocks a requeued run. |
| `AgentProtocol.OverForever` | apps/backend/src/legal_workbench/infrastructure/repositories.py:1013-1102 | From any state, an attempt that is no longer running never changes again, over any further steps. |
| `AgentProtocol.FencedForever` | apps/backend/src/legal_workbench/application/agent_attempts.py:45-89 | From any state, once an attempt is over, no heartbeat, completion or failure with its lease takes effect in any later state. |
| `AgentProtocol.OldLeasesAreFenced` | apps/backend/src/legal_workbench/application/agent_attempts.py:45-76 | A lease of any attempt of a consistent run other than its current one is refused. |
| `AgentProtocol.ResultsAreFinal` | apps/backend/src/legal_workbench/application/message_analysis.py:834-851 | In every sound state a result appears only by a worker's completion under a lease that holds, on a run that is running and had none; once written it is never replaced. |
| `AgentProtocol.ResultsNeedCompletion` | apps/backend/src/legal_workbench/application/legal_agent_orchestrator.py:1444-1474 | The result of a consistent run appears only in the transaction that completes its current attempt. |
| `AgentProtocol.RetriesAreBounded` | apps/backend/src/legal_workbench/application/message_analysis.py:491-501 | Over any run of the system, with safe preparations or not, a message run or plan run goes back to the queue exactly as often as its attempt number grew, at most max_attempts - 1 times. |
| `AgentProtocol.ExpiryConsumesAnAttempt` | apps/backend/src/legal_workbench/application/analysis_recovery.py:224-248 | A sweep that expires the lease of a current plan run raises its attempt number by one or, on the last attempt, dead-letters it. |
| `AgentProtocol.SupersededIsInert` | apps/backend/src/legal_workbench/application/legal_agent_orchestrator.py:1476-1550 | No step stores a result on a plan run that lost its phase or puts it back in the queue: not its worker, whose guard refuses it, and not a sweep. |
| `AgentProtocol.WorkersKeepForeignPhases` | apps/backend/src/legal_workbench/application/legal_agent_orchestrator.py:1510-1550 | A worker's success or failure changes a plan or step row only if its run owns that phase, and only that row. |
| `AnalysisRecovery.ListStale` | apps/backend/src/legal_workbench/infrastructure/repositories.py:918-942 | The oldest unlocked runs with one of the statuses and no sign of life since the cutoff, up to the limit, in order of age. |
| `AnalysisRecovery.ListQueuedWithoutActiveRun` | apps/backend/src/legal_workbench/infrastructure/repositories.py:2484-2511 | The unlocked messages queued for analysis without an active run, those least recently updated first, up to the limit. |
| `AnalysisRecovery.EnsureRecoveryEvent` | apps/backend/src/legal_workbench/application/analysis_recovery.py:390-479 | An event is added exactly when none of its type and aggregate is pending, with its audit record. |
| `AnalysisRecovery.IsCurrentLegalRun` | apps/backend/src/legal_workbench/application/analysis_recovery.py:277-302 | A run is current exactly when its plan, or its step's row, names it for its role. |
| `AnalysisRecovery.CancelSupersededLegalRun` | apps/backend/src/legal_workbench/application/analysis_recovery.py:304-333 | A superseded run is cancelled and audited; nothing else changes. |
| `AnalysisRecovery.MarkLegalPhaseTerminal` | apps/backend/src/legal_workbench/application/analysis_recovery.py:335-388 | Dead-lettering a run fails the plan, and for a specialist its step, only where their status still allows it. |
| `AnalysisRecovery.RecoverOneMessageLease` | apps/backend/src/legal_workbench/application/analysis_recovery.py:111-190 | What recovery does about one run with a lapsed message lease, in every branch. |
| `AnalysisRecovery.RecoverOnePlanLease` | apps/backend/src/legal_workbench/application/analysis_recovery.py:191-275 | What recovery does about one run with a lapsed plan lease: cancelled, dead-lettered or requeued. |
| `AnalysisRecovery.Recover` | apps/backend/src/legal_workbench/application/analysis_recovery.py:50-275 | The five loops with their in-place changes compute exactly the fold of single recoveries over the selected rows. |
| `AnalysisRecovery.PerformKeepsOtherRuns` | apps/backend/src/legal_workbench/application/analysis_recovery.py:90-109 | Recovering one run leaves every other run's row alone, so later rows of a batch are still what was selected. |
| `RecoveryTheorems.SweepFrame` | apps/backend/src/legal_workbench/application/analysis_recovery.py:50-275 | A sweep changes no owner, no plan's or step's link to its runs, and adds or removes no run, attempt, message, plan or step. |
| `RecoveryTheorems.SweepOutcome` | apps/backend/src/legal_workbench/application/analysis_recovery.py:50-275 | Each run and each attempt ends as one function of the database before the sweep says, although the loops see each other's changes. |
| `RecoveryTheorems.QueuedWorkKept` | apps/backend/src/legal_workbench/application/analysis_recovery.py:61-109 | Every listed message and every listed stale queued run ends with a pending event for its aggregate or cancelled as superseded. |
| `RecoveryTheorems.ExpiredWorkKept` | apps/backend/src/legal_workbench/application/analysis_recovery.py:111-275 | Every run whose attempt the sweep expired is dead-lettered, cancelled as superseded, or waits for another attempt under a pending event. |
| `RecoveryTheorems.SecondSweepIsIdle` | apps/backend/src/legal_workbench/application/analysis_recovery.py:50-275 | A second sweep with the same clock, after one whose batches were not full, changes nothing and counts nothing. |
| `RecoveryTheorems.CountersBalance` | apps/backend/src/legal_workbench/application/analysis_recovery.py:390-479 | The three requeue counters add up to the outbox events added, each pending, each for an aggregate that had none, each with one audit record in order. |
| `RecoveryTheorems.DeadCounters` | apps/backend/src/legal_workbench/application/analysis_recovery.py:151-160 | The two dead-letter counters are the numbers of message and plan runs the sweep moved to dead letter. |
| `RecoveryTheorems.EventsNameCurrentRuns` | apps/backend/src/legal_workbench/application/analysis_recovery.py:390-434 | Every plan event a sweep adds names a run that is current for its phase. |
| `RecoveryTheorems.SupersededNeverRequeued` | apps/backend/src/legal_workbench/application/analysis_recovery.py:219-223 | A superseded planning, specialist or synthesis run is left alone or cancelled, never requeued. |
| `RecoveryTheorems.OnlyCurrentRunsFailPhases` | apps/backend/src/legal_workbench/application/analysis_recovery.py:335-388 | A plan or step changes only because a run current for that phase was dead-lettered, and whenever one was, the phase has failed. |
| `RecoveryOutcomes.MessagesAfterSweep` | apps/backend/src/legal_workbench/application/analysis_recovery.py:136-160 | Over a whole sweep each message ends as its expired runs say: one queued, prepared, handed over or under analysis fails with the lease code, and is dead-lettered if some expired run was on its last attempt, as is one that had failed; every other message is unchanged. |
| `RecoveryOutcomes.CrashedRunIsRetried` | apps/backend/src/legal_workbench/application/message_analysis.py:491-532 | The delivery that a sweep asks for takes an expired message run with attempts to spare up again, under its next number and with its message handed over, exactly unless the message cannot be analysed at all. |
| `RecoveryOutcomes.RunsAfterSweep` | apps/backend/src/legal_workbench/application/analysis_recovery.py:50-275 | Every column of each run after a whole sweep: cancelled if it lost its phase, dead-lettered on its last attempt, failed as a message run, queued under the next number as a plan run, else unchanged. |
| `RecoveryOutcomes.AttemptsAfterSweep` | apps/backend/src/legal_workbench/infrastructure/repositories.py:1078-1102 | Every column of each attempt after a whole sweep: the current attempt of an expired run ends at the clock of its own expiry, all others are unchanged. |
| `RecoveryOutcomes.ExpiresExactly` | apps/backend/src/legal_workbench/application/analysis_recovery.py:111-135 | A sweep expires exactly the listed runs whose own lease and whose running attempt are both over and that have a message or a phase. |
| `RecoveryOutcomes.AbandonedIsRecovered` | apps/backend/src/legal_workbench/application/analysis_recovery.py:111-215 | No crashed worker is missed: with room in the batches every started, silent run whose lease and attempt are over is expired. |
| `RecoveryOutcomes.LiveRunIsLeft` | apps/backend/src/legal_workbench/infrastructure/repositories.py:918-942 | A run that is locked or gave a sign of life since the cutoff is not touched. |
| `RecoveryOutcomes.QueuedMessageIsAskedFor` | apps/backend/src/legal_workbench/application/analysis_recovery.py:61-75 | With room in the batches every unlocked queued message without an active run ends with a pending request. |
| `RecoveryOutcomes.QueuedRunIsAskedFor` | apps/backend/src/legal_workbench/application/analysis_recovery.py:76-109 | With room in the batches every silent queued run ends with a pending request of its message or plan, or cancelled if it lost its phase. |
| `RecoveryOutcomes.PlansAfterSweep` | apps/backend/src/legal_workbench/application/analysis_recovery.py:335-388 | A plan changes only for a run that lost its phase: partial only for a specialist or synthesis run with something delivered before, failed only for a planning run or with nothing delivered after; steps only ever fail as exhausted. |
| `RecoveryTrail.SweepIsExplained` | apps/backend/src/legal_workbench/application/analysis_recovery.py:390-479 | Every event of a whole sweep has the cause its reason names, every audit record is founded with the right number and action, and every expired run is reported. |
| `ExtractionBarrier.UnitOfWork.RequestIfAllowed` | apps/backend/src/legal_workbench/application/automatic_analysis_gate.py:24-72 | The gate's decision and reason, and the one event it adds when it allows the request. |
| `ExtractionBarrier.UnitOfWork.RequestAnalysisIfReady` | apps/backend/src/legal_workbench/application/document_extraction.py:218-240 | Analysis is asked for exactly when the message has attachments and all of them are terminal. |
| `ExtractionBarrier.UnitOfWork.RequestAfterDownloads` | apps/backend/src/legal_workbench/application/feishu_operations.py:545-575 | The download job's question, with the conditions negated, has the same answer and effect as the extraction worker's. |
| `ExtractionBarrier.UnitOfWork.FinishExtraction` | apps/backend/src/legal_workbench/application/document_extraction.py:166-216 | Completing or failing one extraction that is extracting: both rows, the question whether it was the last, and errors that change nothing. |
| `ExtractionBarrier.GateAsksOnce` | apps/backend/src/legal_workbench/application/automatic_analysis_gate.py:52-57 | Asking the gate twice adds one event. |
| `ExtractionBarrier.GateDecides` | apps/backend/src/legal_workbench/application/automatic_analysis_gate.py:24-72 | The gate opens exactly for a known, unrecalled message to be analysed without a waiting event; the first obstacle is the reason; one forced or plain event follows. |
| `ExtractionBarrier.ReadyExactly` | apps/backend/src/legal_workbench/application/document_extraction.py:218-260 | The question is answered yes exactly if there are attachments and each failed to download, has metadata only, or was extracted with, without, or in vain for a body. |
| `ExtractionBarrier.FinishedRow` | apps/backend/src/legal_workbench/application/document_extraction.py:166-216 | The extraction ends succeeded, without body, or failed, as its outcome says, with its error, and finishes a downloaded attachment. |
| `AnalysisWakeups.SaveKeepsExactly` | apps/backend/src/legal_workbench/application/feishu_operations.py:333-447 | A download job writes back the whole row it read earlier. The write keeps everybody right exactly if nobody has asked or is about to, or it leaves the attachment finished; what was asked stays right exactly if nobody had asked or the attachment stays finished. |
| `AnalysisWakeups.NoEarlyWakeup` | apps/backend/src/legal_workbench/application/document_extraction.py:218-240 | Over any interleaving of extraction workers and download jobs, overlapping jobs included, nobody ever asks or is about to ask with an attachment unfinished, exactly if each of those writes is of the kind above where it is made. |
| `AnalysisWakeups.NoLostWakeup` | apps/backend/src/legal_workbench/application/feishu_operations.py:545-575 | Once all attachments are finished somebody has asked, unless a download job still will or died before it could. |
| `AnalysisWakeups.LostExactly` | apps/backend/src/legal_workbench/application/feishu_operations.py:545-575 | Over any run, with aborts, deaths and overlaps, nobody has asked exactly if nobody committed after looking, under the lock, at rows that were all finished. |
| `AnalysisWakeups.NewJobRepairs` | apps/backend/src/legal_workbench/application/feishu_operations.py:330-448 | With everything finished and the lock free, a further download job can always run to its end, finds nothing left, and asks. |
| `AnalysisWakeups.LaterJobRepairs` | apps/backend/src/legal_workbench/application/feishu_operations.py:545-575 | Whatever else runs meanwhile: with everything finished and no row reopened, every download job that looks and commits asks, so a lost wakeup is made good. |
| `AnalysisWakeups.WorkersAskOnce` | apps/backend/src/legal_workbench/application/document_extraction.py:166-240 | Over any run in which no download job writes over a row that another one has finished, all writes are safe and the extraction workers ask once at most. |
| `AnalysisWakeups.ExactlyOneWakeup` | apps/backend/src/legal_workbench/application/document_extraction.py:166-240 | Without download jobs, for any number of attachments and any interleaving of claim, write, lock, read, commit, abort and repeated delivery: no commit asks while an attachment is open, and exactly one, the last, asks once all are terminal. |
| `AnalysisWakeups.SomeoneCanMove` | apps/backend/src/legal_workbench/application/document_extraction.py:218-240 | While an extraction is open some worker or download job can go on, so the lock cannot deadlock the barrier. |
| `WakeupEvents.EventsAreGateOpenings` | apps/backend/src/legal_workbench/application/automatic_analysis_gate.py:24-72 | Over any run the outbox gains as many events of the message as there were answers yes that met an open gate, and no others. |
| `WakeupEvents.OneWakeupExactly` | apps/backend/src/legal_workbench/application/automatic_analysis_gate.py:52-72 | From at most one event, over any run: the message ends with at most one exactly if nobody's yes met an open gate when an event of it, then delivered, was there already. |
| `WakeupEvents.OneEvent` | apps/backend/src/legal_workbench/application/automatic_analysis_gate.py:52-72 | As long as no event is delivered, however many ask, the outbox ends as if the gate had been asked once. |
| `WakeupEvents.NeverTwoPending` | apps/backend/src/legal_workbench/application/automatic_analysis_gate.py:52-57 | With deliveries in between, at most one event of the message waits at any time. |
| `WakeupExamples.TwoWakeups` | apps/backend/src/legal_workbench/integrations/feishu_connector.py:80-81 | A download job asks, its event is delivered, and the job of a later event of the message, with nothing left to download, asks again: two events. |
| `WakeupExamples.LostWakeup` | apps/backend/src/legal_workbench/application/feishu_operations.py:434-448 | The only download job saves its last row and dies: everything is finished, nobody asked, nobody holds the lock. |
| `WakeupExamples.EarlyWakeup` | apps/backend/src/legal_workbench/infrastructure/repositories.py:2626-2633 | Two download jobs read the same pending row without a lock; one fails and asks, the other sets the row back to downloading. |
| `PlanDag.ValidateDag` | apps/backend/src/legal_workbench/agents/legal_butler.py:54-74 | Accepts exactly plans with unique ids, known dependencies and no cycle, names the right error, and visits in a topological order that takes the least ready step each time. |
| `PlanDag.OrderedIsAcyclic` | apps/backend/src/legal_workbench/agents/legal_butler.py:66-74 | A plan with a topological order has no cycle. |
| `PlanDag.StuckHasCycle` | apps/backend/src/legal_workbench/agents/legal_butler.py:66-74 | Steps that only wait for each other contain a cycle, so a rejected plan really is cyclic. |
| `PlanDag.PickDoesNotMatter` | apps/backend/src/legal_workbench/agents/legal_butler.py:68-72 | Whichever ready step is picked, the visited set, and with it the verdict, is the same. |
| `PlanDependencies.Build` | apps/backend/src/legal_workbench/application/legal_dependencies.py:39-74 | Succeeds exactly when every direct dependency has a usable result, with the union over the dependencies; otherwise reports the first that has none. |
| `PlanDependencies.DedupKeeps` | apps/backend/src/legal_workbench/application/legal_dependencies.py:49 | Removing repeated dependencies keeps the set and the first-mention order. |
| `PlanDependencies.SourceMembers` | apps/backend/src/legal_workbench/application/legal_dependencies.py:63-67 | A source reference is in the context exactly when some dependency brings it. |
| `PlanDependencies.RunsOneForOne` | apps/backend/src/legal_workbench/application/legal_dependencies.py:63-67 | The upstream runs are those of the dependencies, one for one and in order. |
| `PlanDependencies.LastRecordWins` | apps/backend/src/legal_workbench/application/legal_dependencies.py:63-67 | Of several authority records for one reference the context holds the last dependency's. |
| `PlanWaves.ReadyWaves` | apps/backend/src/legal_workbench/domain/agents.py:512-535 | A plan splits into waves exactly if its dependencies are steps of the plan and have no cycle; each wave is all that is ready after the waves before it. |
| `PlanWaves.WavesAreEarliest` | apps/backend/src/legal_workbench/domain/agents.py:515-535 | A step's dependencies lie in earlier waves and, unless it is in the first wave, one of them in the wave just before: no step could start earlier. |
| `PlanWaves.ExecutePlanWaves` | apps/backend/src/legal_workbench/application/legal_agent_orchestrator.py:153-196 | Concurrent execution from any given results computes the one set of results in which every step's outcome follows from its dependencies, whatever order tasks end in, and fails exactly if there is none; with whole results it never fails. |
| `PlanWaves.ResumeGivesTheSame` | apps/backend/src/legal_workbench/application/legal_agent_orchestrator.py:351-397 | Resuming from any results of an execution that a crash left behind can only give the same results again. |
| `PlanWaves.ValidAncestors` | apps/backend/src/legal_workbench/application/legal_agent_orchestrator.py:166-183 | A step that was executed and reached a valid status has only valid ancestors, at any distance. |
| `PlanOutcomes.StepReadsItsDependencies` | apps/backend/src/legal_workbench/application/legal_dependencies.py:39-74 | Every executed step was skipped, with nothing to show, exactly if a dependency did not answer; otherwise its result is what its agent said to all outputs, references, precedents, latest authority records and runs of its dependencies, and nothing else. |
| `ContextSnapshots.SelectMessages` | apps/backend/src/legal_workbench/application/context_snapshots.py:295-304 | The chosen messages are the current one and the newest others within the count, in time order, without duplicates. |
| `ContextSnapshots.BuildContent` | apps/backend/src/legal_workbench/application/context_snapshots.py:462-554 | The character budget runs down the priority order as a waterfall; the reasons name exactly the limits that cut something. |
| `ContextSnapshots.PrioritizedOrder` | apps/backend/src/legal_workbench/application/context_snapshots.py:476-487 | Priority is the current message, then the others from newest to oldest. |
| `ContextSnapshots.CurrentServedFirst` | apps/backend/src/legal_workbench/application/context_snapshots.py:473-487 | The current message's part depends only on its own text and the limits. |
| `ContextSnapshots.StarvedThenNothing` | apps/backend/src/legal_workbench/application/context_snapshots.py:488-503 | Once a message gets less than its cap, every later one gets nothing. |
| `ContextSnapshots.SharesBounded` | apps/backend/src/legal_workbench/application/context_snapshots.py:488-503 | Included characters never exceed the original ones and equal them exactly when no message was cut. |
| `SnapshotSegments.EachCandidateOnce` | apps/backend/src/legal_workbench/application/context_snapshots.py:345-389 | Every segment is either included or excluded with its reason, once, and both lists keep the reading order. |
| `SnapshotSegments.GreedyMaximal` | apps/backend/src/legal_workbench/application/context_snapshots.py:366-379 | A segment is left out only for its own length, because all slots are taken in the end, or because it would not fit the final room. |
| `SnapshotSegments.KeptFits` | apps/backend/src/legal_workbench/application/context_snapshots.py:366-389 | Included segments fit their own cap, the segment count and the room together. |
| `SnapshotSegments.FillFollowsVerdicts` | apps/backend/src/legal_workbench/application/context_snapshots.py:345-389 | The loop that updates remaining room and lists gives each segment exactly its verdict. |
| `SnapshotAssembly.SegmentsInOrder` | apps/backend/src/legal_workbench/application/context_snapshots.py:345-352 | Attachment segments are processed by attachment, page and paragraph, none lost. |
| `SnapshotAssembly.LinkedInOrder` | apps/backend/src/legal_workbench/application/context_snapshots.py:413-419 | Document segments are processed by document and paragraph, none lost. |
| `SnapshotAssembly.AddAttachmentSegments` | apps/backend/src/legal_workbench/application/context_snapshots.py:306-398 | Attachment segments and unusable attachments, and what both dictionaries hold afterwards. |
| `SnapshotAssembly.AddDocumentSegments` | apps/backend/src/legal_workbench/application/context_snapshots.py:400-460 | Document segments fill the slots and the room attachments left; the earlier reasons stay. |
| `SnapshotAssembly.Build` | apps/backend/src/legal_workbench/application/context_snapshots.py:95-293 | The whole snapshot: selection, three allocators one after the other, and all reasons. |
| `SnapshotAssembly.SnapshotWithinBounds` | apps/backend/src/legal_workbench/application/context_snapshots.py:306-554 | Every snapshot: included at most original and at most the budget, segments of both kinds at most the limit, each message and segment within its cap. |
| `SnapshotAssembly.TruncatedExactly` | apps/backend/src/legal_workbench/application/context_snapshots.py:165-174 | A snapshot is marked truncated exactly when something was cut, excluded or counted out. |
| `SnapshotAssembly.UntruncatedIsComplete` | apps/backend/src/legal_workbench/application/context_snapshots.py:141-174 | An unmarked snapshot includes all of its original size and excludes nothing. |
| `SnapshotAssembly.NothingMoreFits` | apps/backend/src/legal_workbench/application/context_snapshots.py:376-379 | An attachment segment left out for lack of characters would not fit the finished snapshot. |
| `SnapshotAssembly.NoMoreDocumentsFit` | apps/backend/src/legal_workbench/application/context_snapshots.py:429-434 | The same for document segments; one left out for the count found every slot taken. |
| `SnapshotAssembly.CountFlagMissed` | apps/backend/src/legal_workbench/application/context_snapshots.py:165-170 | message_count_limit is missed exactly when the current message is not among the available ones and those are as many as the limit. |
| `SnapshotAssembly.CountFlagMissedExample` | apps/backend/src/legal_workbench/application/context_snapshots.py:165-170 | One concrete request that drops a message and is not marked truncated. |
| `SnapshotContents.AttachmentsReported` | apps/backend/src/legal_workbench/application/context_snapshots.py:321-344 | A snapshot reports exactly the attachments that are unauthorised, without body, failed, or extracted without segments, in order and under the first reason that applies, before any segment. |
| `SnapshotContents.UnmarkedIsUsable` | apps/backend/src/legal_workbench/application/context_snapshots.py:165-174 | An unmarked snapshot has only usable attachments. |
| `SnapshotContents.ExclusionsAreTrue` | apps/backend/src/legal_workbench/application/context_snapshots.py:366-389 | The reason given for each excluded segment is true of the finished snapshot. |
| `SnapshotContents.CandidatesAreSegments` | apps/backend/src/legal_workbench/application/context_snapshots.py:345-365 | What is offered are exactly the segments of listed attachments and of linked documents, each cited with its own place and hash and the name of the last attachment of that id. |
| `SnapshotContents.MessagesByTime` | apps/backend/src/legal_workbench/application/context_snapshots.py:295-304 | Messages are in order of time, those without a time first, and a dropped one is no later than any other that was kept. |
| `SnapshotContents.MessagesAreLatest` | apps/backend/src/legal_workbench/application/context_snapshots.py:295-304 | Of several copies of a message the last counts, of the current one what was asked about. |
| `SnapshotContents.ReadingOrder` | apps/backend/src/legal_workbench/application/context_snapshots.py:345-352 | Segments are read attachment by attachment, page by page, paragraph by paragraph. |
| `Grounding.Collect` | apps/backend/src/legal_workbench/agents/legal_contracts.py:241-255 | The recursive walk adds exactly the references the specification of the walk names. |
| `Grounding.CollectFindsAll` | apps/backend/src/legal_workbench/agents/legal_contracts.py:241-257 | A reference is collected exactly when some path through the output cites it under a reference key, at any depth. |
| `Grounding.Validate` | apps/backend/src/legal_workbench/agents/legal_contracts.py:228-378 | The validator with its loops and early errors computes the checked result. |
| `Grounding.AcceptsExactly` | apps/backend/src/legal_workbench/agents/legal_contracts.py:257-333 | Accepts exactly products whose references are authorised, whose bases meet metadata, role, jurisdiction, date and status rules, which hedge unknown status, and whose citations have complete metadata. |
| `Grounding.CitationsFromMetadata` | apps/backend/src/legal_workbench/agents/legal_contracts.py:334-378 | An accepted product changes only its citations: order and references stay, all other fields come from metadata. |
| `Grounding.LabelsAreIgnored` | apps/backend/src/legal_workbench/agents/legal_contracts.py:334-378 | What the model wrote into a citation besides its reference cannot change the outcome. |
| `Grounding.ValidatedStaysValid` | apps/backend/src/legal_workbench/agents/legal_contracts.py:228-378 | Validating an accepted product again returns it unchanged. |
| `GroundingAnswers.AcceptedIsAuthorized` | apps/backend/src/legal_workbench/agents/legal_contracts.py:241-262 | No reference of an accepted product is unauthorised: not of a basis, not of a citation, not under a reference key anywhere in its other fields. |
| `GroundingAnswers.RefusalIsTrue` | apps/backend/src/legal_workbench/agents/legal_contracts.py:257-378 | Whatever a product is refused for, in each of fourteen ways, is true of it and its context; the fifteenth way never occurs. |
| `ButlerGrounding.Validate` | apps/backend/src/legal_workbench/agents/legal_butler.py:133-274 | One validation of a synthesis; where several sources fail, any one of them is reported, since the source walks a set. |
| `ButlerGrounding.AcceptsExactly` | apps/backend/src/legal_workbench/agents/legal_butler.py:142-243 | Accepts exactly syntheses whose supports are authorised and cited, whose citations are authorised, original and rightly labelled, and whose sources meet jurisdiction, status and date rules. |
| `ButlerGrounding.ValidatedAgain` | apps/backend/src/legal_workbench/agents/legal_butler.py:161-162 | Validating an accepted synthesis again returns it unchanged exactly when no cited source's metadata is of type upstream_agent; otherwise it is refused for that. |
| `ButlerGrounding.RelabelledExample` | apps/backend/src/legal_workbench/agents/legal_butler.py:250-272 | One synthesis that is accepted and whose own result is refused. |
| `ButlerAnswers.CitationsFromMetadata` | apps/backend/src/legal_workbench/agents/legal_butler.py:233-274 | An accepted synthesis changes only its citations: order and references stay, every other field comes from metadata, a missing title from the reference. |
| `ButlerAnswers.RefusalIsTrue` | apps/backend/src/legal_workbench/agents/legal_butler.py:142-274 | Whatever a synthesis is refused for is true of it, whichever of several faulty sources is named. |
| `MarkdownSegments.Segments` | apps/backend/src/legal_workbench/application/feishu_documents.py:86-107 | One segment per line that is not blank, at its exact offsets, numbered from one; the fallback position is never used. |
| `MarkdownSegments.Ordered` | apps/backend/src/legal_workbench/application/feishu_documents.py:86-107 | Segments are disjoint and in order. |
| `MarkdownSegments.CoveredOnce` | apps/backend/src/legal_workbench/application/feishu_documents.py:86-107 | Every character that is not whitespace lies in exactly one segment. |
| `MarkdownSegments.SegmentationIsUnique` | apps/backend/src/legal_workbench/application/feishu_documents.py:86-107 | The description determines the segments of a text. |
| `FolderSync.SyncFolder` | apps/backend/src/legal_workbench/application/feishu_documents.py:344-395 | On any finite folder graph with cycles the loop ends, succeeds exactly when every wanted folder and document can be read, visits each wanted folder once and synchronises each of their documents once. |
| `FolderSync.SyncPages` | apps/backend/src/legal_workbench/application/feishu_documents.py:358-390 | All pages of one folder: documents once, subfolders queued only if wanted and not visited. |
| `FolderSync.KindsDecide` | apps/backend/src/legal_workbench/application/feishu_documents.py:366-390 | An entry is a document or a folder by its token and its kind, in letters of either case with blanks around them. |
| `FeishuIngest.FeishuStore.Ingest` | apps/backend/src/legal_workbench/application/feishu_handlers.py:123-366 | One event: replay, conflict, duplicate create, new message, upgrade or edit, recall, or nothing, with rows, revision, audit, and the request for attachments or, if the gate allows it, for analysis. |
| `FeishuIngest.RecalledNeverAsks` | apps/backend/src/legal_workbench/application/automatic_analysis_gate.py:34-44 | Once a message is recalled no later event makes ingestion request its analysis. |
| `FeishuIngest.FeishuStore.Revise` | apps/backend/src/legal_workbench/application/feishu_handlers.py:193-262 | Which events store a message and what they overwrite. |
| `FeishuIngest.VersionCountsRevisions` | apps/backend/src/legal_workbench/application/feishu_handlers.py:264-285 | Over any run a message's version is the number of its stored revisions, numbered 1 to n; channels are listed once and the source is among them. |
| `FeishuHistory.StoredAsTold` | apps/backend/src/legal_workbench/application/feishu_handlers.py:193-285 | Over any run a message holds the content and the channel of the last event that brought content and was not merely noted as a channel; its event, recall and version are those of its last revision; each revision holds what its event brought or, for a recall, the content before it. |
| `FeishuHistory.BringsLeaves` | apps/backend/src/legal_workbench/application/feishu_handlers.py:193-285 | An event with content overwrites all of it, keeps an earlier recall, adds its channel, its revision and one row per file. |
| `FeishuHistory.BringsAsks` | apps/backend/src/legal_workbench/application/feishu_handlers.py:286-358 | It asks for its files if it has any, and otherwise, unless the gate is shut, for the analysis. |
| `FeishuHistory.AnswersTell` | apps/backend/src/legal_workbench/application/feishu_handlers.py:129-192 | A conflict is reported exactly for a known event with another payload, a duplicate exactly for a known event or a create whose channel is merely noted; a known event changes nothing. |
| `FeishuIngest.EveryEventIsAccountedFor` | apps/backend/src/legal_workbench/application/feishu_handlers.py:263-358 | Over any run each accepted event is recorded and audited once, and each processed one has its revision under the audited number. |
| `FeishuIngest.RecallIsForever` | apps/backend/src/legal_workbench/application/feishu_handlers.py:252-262 | A recalled message stays recalled whatever arrives later. |
| `FeishuIngest.EditLowersExample` | apps/backend/src/legal_workbench/application/feishu_handlers.py:247 | One edit that replaces a higher channel by a lower one. |
| `FeishuIngest.CreatesMerge` | apps/backend/src/legal_workbench/application/feishu_handlers.py:178-192 | After any creates of one message its channels are those of the creates, once each, and its source is the first of the highest priority. |
| `FeishuIngest.CreatesAreConfluent` | apps/backend/src/legal_workbench/application/feishu_handlers.py:109-114 | Any two orders, with redeliveries, of creates over the same channels end with the same source and channels, if some channel has a priority or there is one channel only. |
| `FeishuIngest.UndecidedOrderMatters` | apps/backend/src/legal_workbench/application/feishu_handlers.py:109-114 | Otherwise some other order of the same creates ends with another source. |
| `PercentEncoding.EncodeRoundTrip` | apps/web/src/navigation.ts:22-29 | Decoding an encoded identifier gives it back, for every Unicode text. |
| `Navigation.RouteRoundTrip` | apps/web/src/navigation.ts:36-75 | Visiting a built path, as the browser resolves it, shows the same route for every route but not-found and every identifier that is not empty, exactly if the identifier is not "." or "..". |
| `Navigation.NotFoundRoundTrip` | apps/web/src/navigation.ts:58-73 | A not-found route survives exactly when the browser leaves its path as it is and on this host, the path has no trailing slash, and no route claims it. |
| `Navigation.ParseBuildParse` | apps/web/src/navigation.ts:22-75 | Printing what any location of the browser parses to, and visiting that, shows the same route, malformed escapes, doubled and trailing slashes included, exactly unless no route claims a path that begins with two slashes. |
| `Navigation.LostNotFoundExample` | apps/web/src/navigation.ts:58-73 | The not-found page of the path //cases cannot be visited by its own route. |
| `Navigation.LostMatterExample` | apps/web/src/navigation.ts:61-65 | The page of a matter with the identifier ".." is the start page. |

## Left out

- Steps of other services: changes of messages, plans and steps by anyone but a worker, a delivery, an operator or the sweep are arbitrary steps of the protocol.
- Prepare: which run of a message is the newest is a parameter, as runs carry no creation time here; looking up agent definitions and its errors, sources, snapshots, candidates and timeouts are left out.
- Complete: the plan steps created when planning is accepted, artifacts, review packages and candidates, and the outbox and audit rows beside them.
- Rows that a worker reads before its transaction without a lock: each transaction is atomic and reads what it decides on.
- The gate and the recovery sweep take different locks. The model makes each transaction atomic, and nothing is claimed about a gate request and a sweep that overlap on one message.
- Runs of a message in the status validating are not swept by the message loop; the protocol shows that no worker leaves a run there, and the model says nothing about rows written otherwise.
- NoEarlyWakeup: an attachment has one extraction here (a file attached by hand starts a second one), a download job saves its rows in any order, and each save is one step that reads and writes its row. Recall and disposition of the message stay as they are while its attachments are worked on.
- Titles and links of documents found in folders, and storing their versions: synchronising one document is a function that succeeds, with or without a new version, or fails.
- Payload and delivery details of outbox events beyond type, aggregate and pending status; text of audit events and error messages.
- ExecutePlanWaves: an agent's answer is a function of step and context; where several tasks of a wave fail, one of their errors is reported. Steps of a wave are a set, and the list of results sorted by sequence is a map.
- Build: of a snapshot, walking message JSON for attachment keys, the hash, permissions and thread metadata, and the reuse of an existing snapshot; chosen keys, attachments and segments are its inputs.
- Truncation reasons are a set; sorting and joining their names with commas, and splitting them again, is left out. Canonical JSON is a given text.
- A message without a time counts as older than every message with one; a message stamped with the smallest representable time would compare equal to it in the original.
- Confidence is a real number, so 0.6 is exact; schema generation and the remaining field constraints of the output models are left out.
- Metadata values are text, missing, or some other value with its truth value and its text; parsing dates from text is left out.
- Ingest: whether a request of the message still waits in the outbox is a parameter of each event, since others deliver it; rows of the message repository that it does not write back on update (chat, thread, root, parent, sender); hashing of payloads.
- Normalising Feishu events: the normalised event is the input of `Ingest`.
- Lone surrogates in identifiers, on which `encodeURIComponent` throws: text is a sequence of Unicode scalar values.
- Visit: a path that is relative to the current page, or names another host, leads nowhere; `navigate` and `useAppLocation` touch the browser.
- HTTP routes, Celery, Redis, SQL, React pages, Codex processes, prompts and dashboards.
