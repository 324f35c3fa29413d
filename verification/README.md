# Verified model of the orchestration engine

The platform turns a GitHub issue into a reviewed pull request. A planner produces tasks with
dependencies; workers claim tasks, generate patches, run the required tests in a sandbox and repair
failures within a budget; a review and a mechanical evidence gate stand before publication; a
workflow row with leases and checkpoints drives the stages. All state lives in database rows that
change in short row-locked transactions, while several workers, duplicate deliveries, users and
sweepers act at the same time.

This project models those rows and transactions in Dafny and proves what they promise over every
interleaving. `dafny verify dfyconfig.toml` checks it.

## How it is built

* **Rows and transactions.** An execution is one value (`Records.Execution`): the frozen plan, the
  run status, a task per plan key, and the agent records in creation order. Each transaction is a
  specification function from rows to an `Outcome`, which is either the committed rows and a value
  or the error that rolls everything back. The services are classes whose methods change the rows
  step by step and are proved against those functions.
* **Concurrency.** Each transaction is one `Protocol.Step`; a concurrent history is any sequence of
  steps, `RunInvariant.After`. Services that span several transactions (recovery, review,
  publication, a workflow stage) yield between them to steps of others. `Transactions.Perform` shows
  that the class methods carry out exactly these steps.
* **Recovery** yields before each of its transactions to any steps at all, stops and claims on its
  own task included, and handles every refusal as the original does. What its report says about the
  rows holds in any case (`Recovery.Accounted`). `RecoveryOwnership.DisturbsExactly` says which steps
  of others touch its task; without one of those the report also counts exactly its own attempts, the
  end is never refused, and repairs and tests take the course that `RecoveryPlay` reads off the world
  (`Recovery.Undivided`). One such step needs no ill will: a coding claim
  does not ask whether the task is in recovery, and takes a queued one over
  (`RecoveryProgress.OutsideClaim`).
* **Publication** looks before it creates, so it creates again what others take away: the branch once
  for each deletion, a pull request once for each one that is given another base. `InvMeans` has the
  bounds, `PushedAgain` and `CreatedAgain` attain them.
* **The workflow** is a row and an optional execution beside it; `WorkflowRuns.Fire` gives the
  effect of every event (claim, report, resume, cancel, lease sweep, execution work), and
  `WorkflowLaws` holds for every state that any sequence of events reaches.
* **The outside world** (models, sandbox, Git, GitHub, databases that go away) is a parameter: a
  record of outcomes by turn, including calls that take effect although their answer is lost and
  processes that die in between.
* **Facts.** Specification functions share predicates with the methods they specify. The modules
  `ExecutionFacts`, `GateFacts`, `PublicationFacts`, `PatchFacts` and `WorkflowOutcomes` state what
  they decide in fields, statuses and times alone.
* Predicates marked as folded hide their bodies behind a dummy quantifier so that proofs that only
  pass them on stay small.

| module | part of the system |
|---|---|
| `Ordering`, `PlanDependencies`, `SchedulerState` | string order, execution order of a plan, the one-pass scheduler |
| `Records`, `Transitions`, `Executions`, `ExecutionFacts` | rows, edge tables, run and task transactions |
| `CodingRecords`, `TestRecords`, `RecoveryRecords`, `TestCommands`, `Testing` | claims and completions of coding, tests and repairs |
| `Protocol`, `RunInvariant`, `AgentRows`, `RowsAppended`, `Runs`, `Transactions`, `Fencing` | all steps, their invariants, what runs keep |
| `TaskPhases`, `GateCompleteness`, `ReviewGate`, `GateFacts` | the evidence gate, what its verdict says of the records, and why honest runs pass it |
| `RecoveryOwnership`, `RecoverySteps`, `RecoveryProgress`, `RecoveryLog`, `RecoveryStanding`, `RecoveryPlay`, `Recovery` | the repair loop against the persisted protocol and everybody else |
| `ReviewRecords`, `ReviewOwnership`, `Review`, `PublicationRecords`, `PublicationFacts`, `EvidenceChain`, `GitHub`, `Publishing` | review, publication and their evidence |
| `Workflow`, `WorkflowRuns`, `WorkflowLaws`, `WorkflowOutcomes`, `WorkflowStages`, `WorkflowEngine` | the durable workflow |
| `PatchFormat`, `PatchStructure`, `PatchFacts` | the patch parser and its language |
| `Chunking`, `Indexing`, `IndexPipeline`, `Embeddings`, `RankFusion` | the index pipeline and hybrid retrieval |
| `Folding` | the dummy predicates of folded definitions |

## Model

| member | source | states |
|---|---|---|
| `PlanDependencies.ExecutionOrder` | app/services/plan_dependencies.py:7-27 | succeeds exactly when the validated plan is acyclic, with the keys by longest-path depth and then name; each refusal is the first failing check of the first bad item |
| `PlanDependencies.SortedWaves` | app/services/plan_dependencies.py:18-27 | the wave loop of the sorter yields that order, or reports a cycle |
| `PlanDependencies.OrderUnique` | app/services/plan_dependencies.py:18-27 | the order is determined by the graph alone, whatever the order of the input |
| `PlanDependencies.OrderedByName` | app/services/plan_dependencies.py:18-27 | tasks come in the order of their depths, and within one depth by name, character by character |
| `PlanDependencies.OrderHasParentsFirst` | app/services/plan_dependencies.py:18-27 | every task comes after all its parents |
| `PlanDependencies.StalledHasCycle` | app/services/plan_dependencies.py:19-24 | if no further wave is ready, there is a cycle |
| `PlanDependencies.CompleteIsAcyclic` | app/services/plan_dependencies.py:19-24 | if the waves cover the graph, there is none |
| `SchedulerState.AdvanceTasks` | app/orchestration/state.py:14-26 | the pass over a valid plan computes the one settled outcome |
| `SchedulerState.AdvanceAlong` | app/orchestration/state.py:17-26 | every visiting order with parents first gives the same outcome |
| `SchedulerState.SettlesUnique` | app/orchestration/state.py:17-26 | the settled outcome is unique |
| `SchedulerState.BlockedIffPath` | app/orchestration/state.py:22-23 | a pending task ends blocked exactly if a path of pending tasks leads to a failed or blocked one |
| `SchedulerState.QueuedIffParentsComplete` | app/orchestration/state.py:24-25 | a pending task ends queued exactly if all its parents are completed |
| `SchedulerState.OthersKeep` | app/orchestration/state.py:18-20 | no other task changes, and a pending one ends pending, queued or blocked |
| `SchedulerState.AdvanceIdempotent` | app/orchestration/state.py:14-26 | a second pass changes nothing |
| `SchedulerState.Progress` | app/orchestration/state.py:14-26 | with no cancelled task, either everything is terminal or some task is queued or running |
| `Executions.Create` | app/services/executions.py:27-77 | a run is stored exactly for a valid plan, with all its tasks pending |
| `Executions.ExecutionStore.Advance` | app/services/executions.py:103-123 | scheduling pass and run status in place, refused exactly when an edge is missing |
| `Executions.ExecutionStore.Reconcile` | app/services/executions.py:125-129 | the pass as a transaction of its own |
| `Executions.ExecutionStore.Transition` | app/services/executions.py:131-157 | one task transition: no-op, refusal or checked move with rescheduling |
| `Executions.ExecutionStore.Stop` | app/services/executions.py:159-192 | fails running agents and closes unfinished tasks, refused for a cancellation while anything runs |
| `Executions.ExecutionStore.Recover` | app/services/executions.py:199-247 | the stale sweep of one run stops it exactly when something is stale and nothing is recent |
| `ExecutionFacts.StoppedExactly` | app/services/executions.py:159-192 | record by record and task by task what a stop leaves, and that a cancellation is refused exactly while something runs |
| `ExecutionFacts.SweptExactly` | app/services/executions.py:199-247 | the sweep stops a run exactly if every running record started before the cutoff and there is one, or an idle unfinished run has a task at work |
| `CodingRecords.CodingRecords.Start` | app/services/coding_records.py:24-80 | claims a queued task for coding, or refuses |
| `CodingRecords.CodingRecords.Finish` | app/services/coding_records.py:82-115 | completes or fails exactly the running claim of the task |
| `TestRecords.TestRecords.Start` | app/services/test_records.py:25-110 | records a test of the latest applied patch under the rights of its recovery, or refuses |
| `TestRecords.TestRecords.Finish` | app/services/test_records.py:112-155 | stores the report and moves the task as its owner requires |
| `RecoveryRecords.RecoveryRecords.Open` | app/services/recovery_records.py:37-81 | opens the one recovery of a task and says whether coding is needed |
| `RecoveryRecords.RecoveryRecords.ClaimDebug` | app/services/recovery_records.py:106-141 | charges one attempt to the persisted budget, or refuses |
| `RecoveryRecords.RecoveryRecords.ReservePatch` | app/services/recovery_records.py:143-163 | stores the fingerprint and says whether it is new |
| `RecoveryRecords.RecoveryRecords.FinishDebug` | app/services/recovery_records.py:165-185 | ends an attempt, with or without a patch in place |
| `RecoveryRecords.RecoveryRecords.Finish` | app/services/recovery_records.py:187-207 | ends the recovery and decides the task |
| `TestCommands.CommandsInjective` | app/agents/testing.py:8-19 | different command names have different argument lists |
| `TestCommands.TestAgent.Select` | app/agents/testing.py:38-43 | each required command once, in order, or refusal of the policy |
| `Testing.TestService.Measure` | app/services/testing.py:36-96 | a report tells, command by command, what the sandbox did; one that passes ran exactly the required commands, all successfully, and carries the digest of its diff |
| `Testing.ReportRunsExactly` | app/services/testing.py:53-80 | a report over the deduplicated names covers exactly the expected argument lists |
| `Transactions.Perform` | app/services/executions.py:125-247 | running any step through the record services gives exactly the rows of the protocol |
| `RunInvariant.RunInvMeans` | app/services/executions.py:103-123 | the run is completed exactly if all tasks are; a finished run has no open task; parents of started tasks are completed |
| `RunInvariant.AdvanceCommits` | app/services/executions.py:103-123 | on a reachable run the pass is never refused, although no edge leads from pending to completed |
| `RunInvariant.MoveKeeps` | app/services/executions.py:131-157 | neither is a task move with its rescheduling |
| `RunInvariant.StopKeeps` | app/services/executions.py:159-192 | a stop keeps the invariant |
| `RunInvariant.NextKeeps` | app/services/executions.py:103-192 | every step keeps the invariant |
| `RunInvariant.EveryRun` | app/services/executions.py:27-192 | the invariant holds after every sequence of steps on a new run |
| `RunInvariant.AdvanceNeverRaises` | app/orchestration/transitions.py:46-66 | on such a run neither the pass nor any allowed move raises |
| `AgentRows.NextRows` | app/orchestration/transitions.py:87-94 | agent records only grow, closed ones are final, each task has at most one active recovery, each run one journal |
| `AgentRows.AfterRows` | app/services/recovery_records.py:22-30 | the same over every sequence of steps |
| `RowsAppended.AppendedKinds` | app/services/review_records.py:80-110 | a review record is added only while no review runs, a publication record only by the journal |
| `Runs.CompletedStays` | app/orchestration/transitions.py:46-50 | a completed task stays completed through every run |
| `Fencing.LateStepsDoNothing` | app/services/executions.py:159-192 | once a run is over and quiet, every late implementation step changes nothing |
| `Fencing.StopQuiesces` | app/services/executions.py:159-192 | a stop that goes through leaves the run over, with no running task or agent |
| `Fencing.StoppedForGood` | app/services/recovery_records.py:83-92 | whatever runs after a stop, in any order, tasks and implementation records stay as it left them |
| `Fencing.EvidenceFrozen` | app/services/review_records.py:37-78 | a finished quiet run keeps its evidence hash through every later run |
| `ReviewGate.TestEvidenceFor` | app/orchestration/review_gate.py:13-72 | the gate's loops compute its verdict |
| `ReviewGate.CheckTask` | app/orchestration/review_gate.py:22-60 | what one task adds to errors, evidence and latest tests |
| `ReviewGate.NoObjectionIffProved` | app/orchestration/review_gate.py:22-60 | no objection exactly if every task is proved by its latest test on its latest patch |
| `ReviewGate.AcceptedMeans` | app/orchestration/review_gate.py:61-72 | acceptance is that, with nothing running and the fingerprint of the chronologically last test, one entry per task |
| `GateFacts.ErrorsAre` | app/orchestration/review_gate.py:16-72 | each error of the gate, in fields of the records: policy, incomplete task, missing records, failed status, exit codes and timeouts, missing commands, stale patch, running records |
| `GateFacts.AcceptedRows` | app/orchestration/review_gate.py:22-60 | without errors the last test record of every task is completed, on its last completed patch, and has a good run of each required command |
| `GateCompleteness.NextPhases` | app/services/test_records.py:25-155 | every honest step keeps each task in a phase that accounts for its patches and tests |
| `GateCompleteness.HonestRunKeeps` | app/services/recovery_records.py:106-207 | the same over every honest run |
| `GateCompleteness.CompletedIsClean` | app/orchestration/review_gate.py:13-72 | the gate finds no error in a completed run whose tasks are in such phases |
| `GateCompleteness.GateAcceptsHonestRuns` | app/orchestration/review_gate.py:13-72 | every completed run driven by coding, test and recovery steps under one required list is accepted, with exactly one entry per task |
| `RecoveryOwnership.DisturbsExactly` | app/services/coding_records.py:40-58 | a step leaves a task in recovery and all its records alone if and only if the guards of the step, as the rows stand before it, do not let it through to that task |
| `RecoveryOwnership.UndisturbedKeeps` | app/services/recovery_records.py:83-92 | every other step leaves the recovery with its task, its budget and its count of attempts |
| `RecoveryProgress.SafeNext` | app/services/recovery_records.py:106-141 | no step of anybody charges a recovery with more attempts than its limit, or takes its record away |
| `RecoveryProgress.SteadyKept` | app/services/test_records.py:40-68 | a recovery that is not disturbed stays where it is: its claim, the patch it may test, the fingerprint it reserved |
| `RecoveryProgress.OutsideClaim` | app/services/coding_records.py:48-51 | a coding claim from outside takes over a queued task in recovery; the recovery then fails the task, and the late result of the claim is refused |
| `RecoveryProgress.EndRefused` | app/services/recovery_records.py:187-207 | a failing end is refused exactly if somebody closed the recovery or finished its task |
| `RecoverySteps.ClaimSucceeds` | app/services/recovery_records.py:106-141 | within the budget the claim of an attempt is never refused |
| `RecoverySteps.EndStep` | app/services/recovery_records.py:187-207 | the owner's end is never refused and leaves the attempts counted and the applied patches distinct |
| `RecoveryPlay.CourseVerdict` | app/services/recovery.py:52-61 | the tests pass exactly if one of the test turns that the landed patches reach within the limit succeeds |
| `RecoveryPlay.FreshVerdict` | app/services/recovery.py:52-61 | if every repair lands, the number of the first successful turn is the number of attempts |
| `RecoveryPlay.DifferentLand` | app/services/recovery_records.py:143-163 | repairs that apply and differ from each other and from the coding patches all land |
| `RecoveryStanding.StandingNext` | app/services/recovery_records.py:22-30 | the recovery stands through any step of others: budget and stored reports are safe, and only a disturbing step costs it its place |
| `Recovery.RecoveryService.RunCoding` | app/services/coding.py:46-111 | coding succeeds exactly if a patch is proposed, unless others disturb the task, and the patch is stored with its diff; a refused completion is recorded once more as a failure |
| `Recovery.RecoveryService.RunTests` | app/services/testing.py:36-96 | a report tells what the sandbox did with every required command, passes exactly if all ended with exit code 0, and is stored; undisturbed it raises only if policy or sandbox do |
| `Recovery.RecoveryService.Repair` | app/services/recovery.py:71-168 | one repair costs one attempt; undisturbed, the patch is in place exactly if it is new and applies, and it raises exactly for the failures that stop a recovery |
| `Recovery.RecoveryService.Rounds` | app/services/recovery.py:52-69 | the loop ends within the budget, its reports are those of the sandbox turn by turn, and undisturbed it takes exactly the course the world gives it |
| `Recovery.RecoveryService.Run` | app/services/recovery.py:39-69 | under arbitrary steps of others: a report passes exactly if the task is completed, its tests are those of the sandbox and stored, an unsuccessful one used up the limit, the attempts charged lie between those made and the limit, and the end is refused only to a superseded recovery; undisturbed the attempts are exactly counted, no patch is repeated, no end is refused, and it passes exactly if a test turn within reach succeeds; the whole is a run of the protocol |
| `ReviewRecords.ReviewRecords.Load` | app/services/review_records.py:37-78 | the evidence a review rests on |
| `ReviewRecords.ReviewRecords.Start` | app/services/review_records.py:80-110 | one review at a time, with the digest of its evidence |
| `ReviewRecords.ReviewRecords.Finish` | app/services/review_records.py:112-145 | the decision is stored only after the evidence was rechecked |
| `Review.ReviewService.Examine` | app/services/review.py:66-103 | approval exactly if every mechanical gate passes and the model approves without a blocking finding on an unchanged workspace; the review and the objections are exactly those that apply |
| `Review.ReviewService.Objections` | app/services/review.py:74-89 | exactly the mechanical errors that apply |
| `Review.ReviewService.Run` | app/services/review.py:45-127 | whatever others do, the decision returned is the one that model and workspace call for on the evidence found at the start, an approval clears publication and any other decision does not; it is returned unless the operation breaks or somebody closes the review |
| `Review.SoleReviewKept` | app/services/review_records.py:80-110 | while a review runs, no step starts a later one |
| `ReviewOwnership.ClosesExactly` | app/services/review_records.py:112-145 | only an interruption, a stopping sweep or its own completion closes a running review |
| `ReviewOwnership.FrozenNext` | app/services/review_records.py:37-78 | clean evidence is not changed by any step |
| `PublicationRecords.PublicationRecords.CheckEvidence` | app/pull_requests/records.py:38-80 | publication is cleared by the latest review on the current evidence, or refused |
| `PublicationRecords.PublicationRecords.WriteJournal` | app/pull_requests/records.py:82-110 | the journal is written once and then accepts only the same publication |
| `PublicationRecords.PublicationRecords.Finish` | app/pull_requests/records.py:112-145 | the pull request is recorded, or refused if another one is recorded already |
| `PublicationRecords.PublicationRecords.Failed` | app/pull_requests/records.py:147-158 | a failure is appended and does not undo a published record |
| `EvidenceChain.ClearedIsChained` | app/pull_requests/records.py:51-64 | clearance rests on one diff hash, shared by an approved review and the chronologically last test of a finished run |
| `PublicationFacts.ClearedExactly` | app/pull_requests/records.py:38-80 | publication is cleared exactly if the evidence, taken again, has no error and the last review is an approval of that very evidence without a blocking finding |
| `PublicationFacts.ClearedRows` | app/pull_requests/records.py:38-80 | and then every task is completed with its last test record good on its last patch |
| `EvidenceChain.ChainForever` | app/pull_requests/records.py:51-64 | and keeps resting on it through every later run |
| `EvidenceChain.ReleasedNext` | app/pull_requests/records.py:112-158 | a closed journal keeps its pull request and its evidence under every step |
| `GitHub.GitHub.Push` | app/pull_requests/git.py:88-109 | a push can only create the branch, whatever becomes of its answer |
| `GitHub.GitHub.Create` | app/pull_requests/service.py:150-158 | a pull request is created if the call arrives, even if its answer is lost |
| `Publishing.PullRequestService.CheckPull` | app/pull_requests/service.py:36-57 | only the pull request of this publication, unchanged and on its own page, is accepted |
| `Publishing.ContainsBetween` | app/pull_requests/service.py:36-57 | the marker is contained exactly if the body is something, the marker and something |
| `Publishing.PullRequestService.Plan` | app/pull_requests/service.py:62-125 | what is to be published is drafted from the approved diff and looked at again, workspace and evidence, before anything is written |
| `Publishing.PullRequestService.EnsureBranch` | app/pull_requests/service.py:127-139 | the branch exists afterwards; an undisturbed attempt pushes exactly if it was not there, and another commit on it is a collision |
| `Publishing.PullRequestService.EnsurePull` | app/pull_requests/service.py:140-158 | one pull request is found or created, undisturbed exactly if none was found; several are a collision |
| `Publishing.PullRequestService.Reconcile` | app/pull_requests/service.py:127-160 | the remote protocol succeeds from everything an earlier attempt may have left behind |
| `Publishing.PullRequestService.NoteFailure` | app/pull_requests/service.py:161-174 | a failed attempt ends the journal with its code, unless the database cannot be reached |
| `Publishing.PullRequestService.Run` | app/pull_requests/service.py:59-174 | each attempt, however it is interrupted, keeps the invariant, reports only the recorded pull request and then leaves the journal closed with its evidence; an undisturbed one completes what others began, pushing and creating exactly what is not there |
| `Publishing.PullRequestService.InvMeans` | app/pull_requests/service.py:126-174 | over any sequence of attempts and anything others do: at most one push and one more for each deletion of the branch, at most one pull request and one more for each that was retargeted, all at the journalled commit and for the journalled publication, and all reports agree with the record |
| `Publishing.PullRequestService.PushedAgain` | app/pull_requests/service.py:127-139 | a branch that is deleted is pushed again: two pushes after one deletion |
| `Publishing.PullRequestService.CreatedAgain` | app/pull_requests/service.py:140-158 | for a pull request that is retargeted another one is created: two after one retargeting |
| `Workflow.FollowingIsNext` | app/orchestration/workflow_records.py:20-34 | the stage after each stage is the next of `STAGES` |
| `Workflow.WorkflowTable.Start` | app/orchestration/workflow_records.py:54-78 | a request starts one workflow under its id, however often it is repeated; another request under the same id is a conflict |
| `Workflow.WorkflowRecords.ClaimStage` | app/orchestration/workflow_records.py:112-146 | a claim is handed out exactly for a matching pending row that is due |
| `Workflow.WorkflowRecords.FinishStage` | app/orchestration/workflow_records.py:148-191 | a report is accepted exactly from the live claim and decides checkpoint, status and retry |
| `Workflow.WorkflowRecords.Resume` | app/orchestration/workflow_records.py:193-209 | a failed row with attempts left becomes pending again |
| `Workflow.WorkflowRecords.Cancel` | app/orchestration/workflow_records.py:211-239 | cancels the row and its execution together, or neither |
| `Workflow.WorkflowRecords.Recover` | app/orchestration/workflow_records.py:241-273 | an expired lease is fenced; stages that change sources are blocked and their execution stopped |
| `WorkflowRuns.EventAdvances` | app/orchestration/workflow_records.py:112-273 | only an honest report of the live claim moves the checkpoint, and only a claim costs an attempt |
| `WorkflowRuns.FireMoves` | app/orchestration/workflow_records.py:211-273 | no event undoes a completed task, a complete run, a backed review, a closed journal or a quiet run |
| `WorkflowRuns.EveryWorkflow` | app/orchestration/workflow_records.py:54-273 | the invariant of row, claims, history and execution holds after every sequence of events |
| `WorkflowRuns.LateReportIsHonest` | app/orchestration/workflow_records.py:148-191 | a report that was honest when its stage ended is honest after any events, whenever it is delivered |
| `WorkflowLaws.OneClaimPerGeneration` | app/orchestration/workflow_records.py:112-146 | at most one successful claim for each generation; running, token and lease go together |
| `WorkflowLaws.OnlyTheLiveClaimReports` | app/orchestration/workflow_records.py:158-163 | a report is accepted only from the last claim while it is live, once for each claim |
| `WorkflowOutcomes.ClaimedExactly` | app/orchestration/workflow_records.py:112-146 | by status, stage, generation and time, which deliveries get a claim |
| `WorkflowOutcomes.DuplicateDelivery` | app/orchestration/workflow_records.py:118-130 | a delivery of a generation that was claimed before changes nothing |
| `WorkflowOutcomes.BlockedForGood` | app/orchestration/workflow_records.py:164-185 | after a failure that needs inspection the row is blocked and nothing is ever claimed again |
| `WorkflowOutcomes.FailedIsResumable` | app/orchestration/workflow_records.py:164-209 | any other failure without a retry leaves the row failed, and a resume makes it pending exactly while attempts are left |
| `WorkflowOutcomes.RetriedInTime` | app/orchestration/workflow_records.py:164-185 | with a retry and attempts left the row is pending, and claimed from the report time plus the delay on, not before |
| `WorkflowOutcomes.SuccessMovesOn` | app/orchestration/workflow_records.py:184-191 | after a success the next stage can be claimed at once with all its attempts |
| `WorkflowOutcomes.LeaseEnds` | app/orchestration/workflow_records.py:241-273 | a claim accepted at time t is safe from the sweep up to t + 1800 and taken away after it; then an implementation or a review is blocked with its execution quiet, any other stage failed |
| `WorkflowOutcomes.LostForGood` | app/orchestration/workflow_records.py:158-163 | a claim that is not out is never out again and its reports change nothing |
| `WorkflowOutcomes.CancelledExactly` | app/orchestration/workflow_records.py:211-239 | a workflow is cancelled exactly if it is pending, failed or blocked and nothing works on its execution |
| `WorkflowLaws.HistoryForm` | app/orchestration/workflow_records.py:136-272 | pairs of a running and one closing entry for the same stage, then at most an open or cancelled one |
| `WorkflowLaws.StagesInOrder` | app/orchestration/workflow_records.py:184-191 | completed entries follow `STAGES`, none skipped, none repeated but the implementation, publication only on consent |
| `WorkflowLaws.CompletedWorkflow` | app/orchestration/workflow_records.py:184-191 | a completed workflow has completed entries for every stage up to the review |
| `WorkflowLaws.CompletedEvidence` | app/orchestration/workflow_stages.py:192-227 | a complete execution, an approved review of the diff of its last test and, with consent, a closed journal for such a diff |
| `WorkflowLaws.KeysAreThere` | app/orchestration/workflow_stages.py:78-162 | the checkpoint holds every key that a claimed stage reads |
| `WorkflowLaws.GlobalBound` | app/orchestration/workflow_records.py:131-206 | at most limit * (12 + n) claims for n plan tasks; a pending row has attempts left |
| `WorkflowLaws.InterruptedForGood` | app/orchestration/workflow_records.py:211-273 | a cancellation, or the sweep of a stage that changes sources, leaves the linked execution finished and quiet for good |
| `WorkflowStages.Reconciled` | app/orchestration/workflow_stages.py:164-173 | after reconciling, nothing is queued or running exactly if the run is finished |
| `WorkflowStages.WorkflowStages.NextTask` | app/orchestration/workflow_stages.py:171-171 | the first queued task in execution order |
| `WorkflowStages.WorkflowStages.RunTask` | app/orchestration/workflow_stages.py:174-191 | the stage repeats only with the task completed; if nobody disturbs the recovery and every operation comes to a result, exactly if a test turn within reach succeeds |
| `WorkflowStages.WorkflowStages.ImplementNext` | app/orchestration/workflow_stages.py:163-191 | the stage ends with the run or with the work on the first queued task; each repeat completes one more task, the end means a complete run, and only a cancelled run has no ready task |
| `WorkflowStages.WorkflowStages.ReviewRun` | app/orchestration/workflow_stages.py:192-219 | the review is checkpointed only when publication is cleared, a cleared review is used again, and a new one is done exactly if model and workspace approve |
| `WorkflowStages.WorkflowStages.Prepare` | app/orchestration/workflow_stages.py:80-137 | the early stages succeed exactly on the checkpointed revision without a fault |
| `WorkflowStages.WorkflowStages.SetUp` | app/orchestration/workflow_stages.py:138-147 | the execution is created once, from the stored plan |
| `WorkflowStages.WorkflowStages.Perform` | app/orchestration/workflow_stages.py:78-219 | every stage ends as its world has it, reports exactly what it did and misses no key |
| `WorkflowStages.WorkflowStages.PerformPublish` | app/orchestration/workflow_stages.py:220-227 | the publication stage reports only with the journal closed and its pull request recorded, and always when an attempt can finish what earlier ones began |
| `WorkflowEngine.BackoffBounds` | app/orchestration/workflow.py:43-49 | retries wait between a second and an hour, at least what the provider asked, and never less than before |
| `WorkflowEngine.BackoffDoubles` | app/orchestration/workflow.py:43-49 | the wait doubles with every attempt, up to an hour |
| `WorkflowEngine.WorkflowEngine.Describe` | app/orchestration/workflow.py:36-50 | which outcomes are blocked, failed or retried, by stage and error |
| `WorkflowEngine.WorkflowEngine.Interfere` | app/orchestration/workflow_records.py:158-163 | other workers, users and the sweep can take a claimed row away but not change it under the claim |
| `WorkflowEngine.WorkflowEngine.Advance` | app/orchestration/workflow.py:22-54 | one claim, its stage and one honest report that tells how the stage ended, which is accepted on the row as it was claimed or, if others took the claim away, not at all; stages that change sources are never retried without a user |
| `PatchFormat.PatchParser.ReadBody` | app/services/patch_format.py:100-115 | the counting loop over one hunk body |
| `PatchFormat.PatchParser.ReadSection` | app/services/patch_format.py:79-122 | one file section, or the first thing wrong with it |
| `PatchFormat.PatchParser.ParsePatch` | app/services/patch_format.py:70-125 | the parser's verdict with its errors in their order |
| `PatchStructure.RoundTrip` | app/services/patch_format.py:70-125 | the printed form of any well-formed structured patch parses to exactly its files, header-like body lines included |
| `PatchStructure.ParsesExactlyPrinted` | app/services/patch_format.py:70-125 | what parses is exactly what prints: sections with hunk bodies that match their declared counts |
| `PatchStructure.AcceptedPatch` | app/services/patch_format.py:70-125 | an accepted patch has such sections, with the declared paths, each once |
| `PatchFacts.AcceptedExactly` | app/services/patch_format.py:70-125 | a patch is accepted exactly if the lines spell, header by header and count by count, sections of the declared valid paths, each once |
| `PatchFacts.RefusedInOrder` | app/services/patch_format.py:70-125 | which refusal comes first |
| `Chunking.ChunkSource` | app/indexing/chunking.py:20-67 | chunks tile the lines, contents add up to the source, each is a greedy window cut where the rule says |
| `Chunking.ChunkSize` | app/indexing/chunking.py:40-52 | each chunk respects both limits and keeps at least half of what would have fitted |
| `Chunking.CutMeans` | app/indexing/chunking.py:53-66 | a chunk ends at the last definition in the second half of its window, else after the last blank line there, else with the window |
| `Chunking.TilesAreApart` | app/indexing/chunking.py:53-66 | chunks of one file never overlap, so their keys differ |
| `Indexing.ChunkTable.Persist` | app/indexing/service.py:78-130 | the three loops leave the reconciled table |
| `Indexing.IndexAgrees` | app/indexing/service.py:78-130 | stored keys and chunk keys are equal as multisets |
| `Indexing.FirstsAre` | app/indexing/service.py:91-106 | a stored record survives unchanged exactly if its key is still there and no earlier record has it |
| `Indexing.AddedAreNew` | app/indexing/service.py:106-122 | records that are added have yet to be embedded |
| `IndexPipeline.IndexingService.Index` | app/indexing/service.py:53-76 | the stored chunks are exactly the tiles of all files, each key once, or the table is as before |
| `IndexPipeline.KeysDiffer` | app/indexing/service.py:59-63 | no two chunks of a repository have the same key |
| `Embeddings.EmbeddingService.Select` | app/indexing/embeddings.py:43-63 | the first stale rows in id order, none only if all are current |
| `Embeddings.EmbeddingService.EmbedBatch` | app/indexing/embeddings.py:64-104 | one batch is saved whole, exactly if the vectors fit and no chunk of it changed meanwhile, or marked as failed |
| `Embeddings.EmbeddingService.Generate` | app/indexing/embeddings.py:30-125 | terminates; exactly the rows saved become current, success leaves each row with a vector of its content for the profile, and rows that had one are untouched |
| `Embeddings.EachOnce` | app/indexing/embeddings.py:41-125 | a run that succeeds has saved each stale row once and nothing else |
| `Embeddings.RunsAddUp` | app/indexing/embeddings.py:41-125 | a failed run and the one that takes up after it add up to one |
| `RankFusion.HybridRetrievalService.Search` | app/retrieval/hybrid.py:25-74 | the results are cut from the one complete ranking of what both sources found |
| `RankFusion.HybridRetrievalService.Collect` | app/retrieval/hybrid.py:34-39 | one hit for each document, its best by rank and then position |
| `RankFusion.ResultsAre` | app/retrieval/hybrid.py:61-74 | results are free of duplicates, consecutively ranked and strictly ordered |
| `RankFusion.ResultsSorted` | app/retrieval/hybrid.py:61-69 | higher scores first; equal ones by path, first line, last line and id |
| `RankFusion.ResultCarries` | app/retrieval/hybrid.py:34-46 | each result carries the hit of least rank from each source and the sum of 1 / (k + rank) |
| `RankFusion.RankedUnique` | app/retrieval/hybrid.py:61-69 | the sort key determines the order completely |
| `RankFusion.RawScoresDoNotMatter` | app/retrieval/hybrid.py:40-46 | the retrievers' own scores have no influence |
| `RankFusion.SmallerIsPrefix` | app/retrieval/hybrid.py:27-31 | within the candidate limit a smaller request gets a prefix |
| `RankFusion.BothFirst` | app/retrieval/hybrid.py:42-46 | with ranks within 1..k+1, documents of both sources come before all documents of one |
| `RankFusion.AdvantageEnds` | app/retrieval/hybrid.py:42-46 | at rank k+2 that advantage is gone: the scores are equal |

## Left out

- HTTP routes, settings, logging, timing, Celery and Redis: an environment that may call any transaction at any time, with duplicates and losses.
- SQL: the tables are in memory; `limit(100)` and `skip_locked` become a free choice of the row that is swept.
- Timestamps and identifiers: times are a counter that each transaction raises, agent ids are positions and claim tokens are numbers; run timestamps and `branch_name` are not kept.
- SHA-256 is taken to be free of collisions.
- Corrupt rows: `_load` cannot meet a snapshot that no longer validates, or a task row that is missing; equality of the issue context is one truth value.
- Models, sandbox, Git subprocesses, file systems and link checks: outcomes of the outside world; a workspace is its diff text.
- Prompts, redaction and secret scanning appear as truth values that say whether a secret was found.
- The text of patch lines: the parser works on lines already classified by its patterns; `validate_path` and case folding are parameters.
- Python's `ast`: the starts of top-level definitions are a parameter of the chunker; `content_hash` is determined by the content.
- `splitlines`, `strip` and UTF-8: lines are given, and a blank line has only spaces, tabs and line ends.
- RankFusion.HybridRetrievalService.Search: fused scores are exact reals; the original adds floating-point numbers, which may order near-equal sums differently.
- Reading the best hit of a document takes one pass over the hits instead of a sort followed by a first-occurrence filter.
- Repository names are compared as they are; the original ignores their case.
- The list of a hundred pull requests a page: all pull requests of the branch are found.
- Embeddings.EmbeddingService.Generate: others may rewrite the chunks of the batch that is being embedded, but not those of other rows.
- Publishing.PullRequestService.Run: attempts of one execution exclude each other, as the workspace lock makes them do.
- WorkflowEngine.WorkflowEngine.Advance: others work on the row between the end of the stage and its report, not at every point of the stage; a stage never looks at the row.
- WorkflowStages.WorkflowStages.Prepare: the stages before the execution are one outcome of the outside world each; index, embedding and retrieval are modelled on their own.
- Workflow.WorkflowTable.Start: the correlation id is not kept.
- `app/orchestration/deliveries.py`, issue-context budgets and query derivation: they would add easier versions of what is here.
