/** Persisted rows of one execution: the run, its tasks and its agent records (app/models/execution.py). */
module Records {
  import opened Ordering
  import opened PlanDependencies
  import opened SchedulerState

  datatype Option<+T> = None | Some(value: T)

  // SHA-256, taken to be free of collisions: the digest determines the text.
  datatype Digest = Sha256(text: string)

  datatype RunStatus = RunPending | RunRunning | RunCompleted | RunFailed | RunCancelled

  predicate Finished(s: RunStatus) {
    s == RunCompleted || s == RunFailed || s == RunCancelled
  }

  // `output_summary`: the protocol's own markers, or any other text.
  datatype Summary =
    | NoSummary
    | CodingInProgress
    | PatchApplied
    | TestsRunning
    | RecoveryPending
    | DebugRunning
    | RecoveryTestsPassed
    | RequiredTestsPassed
    | RequiredTestsFailed
    | CodingFailed
    | WorkerInterrupted
    | ExecutionCancelled
    | RecoveryEnded(error: Option<Code>)
    | Text(text: string)

  datatype Task = Task(status: TaskStatus, summary: Summary)

  datatype AgentKind = Coding | Debug | Test | Recovery | Review | PullRequest

  datatype AgentStatus = AgentRunning | AgentCompleted | AgentFailed

  datatype TestResult = TestResult(command: seq<string>, exitCode: Option<int>, timeout: bool, passed: bool)

  datatype Report = Report(results: seq<TestResult>, passed: bool)

  datatype Code =
    | CodingCancelled | CodingError | WorkerInterruptedCode | ExecutionCancelledCode
    | TestExecutionFailed | TestPolicyFailed
    | DebugCancelled | DebugOperationFailed | LlmFailure | UnsafeDebugInput | SecretInProposal | IdenticalDebugPatch
    | PatchCheckFailed | PatchApplyFailed | PatchGitTimeout | PatchGitUnavailable | PatchDiffFailed | PatchDiffTooLarge
    | PatchRejected
    | DebugAttemptsExhausted | RecoveryCancelled | RecoveryOperationFailed
    | ReviewCancelled | ReviewOperationFailed

  // Everything a mechanical check can object to.
  datatype Objection =
    | InvalidRequiredTestPolicy
    | TaskIncomplete(key: Key)
    | MissingTestEvidence(key: Key)
    | InvalidTestReport(key: Key)
    | RequiredTestsFailedFor(key: Key)
    | RequiredTestsMissing(key: Key)
    | StaleTaskTests(key: Key)
    | MissingFingerprint
    | ImplementationAgentRunning
    | ExecutionIncomplete
    | WorkspaceChangedSinceTests
    | NoChangesToReview
    | RequiredCommandDisabled
    | ReviewInputTooLarge
    | SecretInReviewInput
    | WorkspaceChangedDuringReview
    | ExecutionChangedDuringReview

  datatype TestEvidence = TestEvidence(task: Key, agent: nat, report: Report)

  // The serialized review snapshot whose digest is the evidence hash.
  datatype Evidence = Evidence(
    outcomes: map<Key, Task>,
    tests: seq<TestEvidence>,
    errors: seq<Objection>,
    fingerprint: Option<Digest>,
    required: seq<string>)

  datatype EvidenceHash = HashOf(evidence: Evidence)

  datatype Severity = Info | Warning | Blocking

  datatype ReviewResult = ReviewResult(approved: bool, findings: seq<Severity>)

  datatype Decision = Decision(
    review: Option<ReviewResult>, objections: seq<Objection>, approved: bool, diffHash: Option<Digest>)

  datatype Publication = Publication(
    review: nat, owner: string, repository: string, base: string, branch: string, parent: string, commit: string,
    diffHash: Digest, title: string, body: string)

  datatype PublishedPR = PublishedPR(number: nat, url: string, open: bool)

  datatype PublicationError =
    | RequirementsNotMet | ReviewNotApproved | PublicationWorkspaceChanged | CommandDisabled
    | DefaultBranchForbidden | GitFailed | SnapshotChanged | RemoteBranchCollision | PullRequestCollision
    | JournalMissing | RetryRequired | JournalUnavailable
    | ContainsSecret | InvalidRepository | InvalidPullRequest | StoreUnavailable

  // JSON metadata of an agent record; a missing key is None (or an empty list).
  datatype Input = Input(
    limit: Option<nat>, commands: seq<string>, patch: Option<nat>, recovery: Option<nat>, attempt: nat,
    evidence: Option<EvidenceHash>, publication: Option<Publication>)

  const NO_INPUT := Input(None, [], None, None, 0, None, None)

  datatype Output = Output(
    proposal: Option<string>, gitDiff: Option<string>, patchHash: Option<Digest>,
    report: Option<Report>, error: Option<Code>, diffHash: Option<Digest>, attempts: nat,
    decision: Option<Decision>, pullRequest: Option<PublishedPR>, failures: seq<PublicationError>)

  const NO_OUTPUT := Output(None, None, None, None, None, None, 0, None, None, [])

  datatype Agent = Agent(
    id: nat, kind: AgentKind, task: Option<Key>, status: AgentStatus,
    started: nat, completed: Option<nat>, input: Input, output: Output)

  // One execution: the frozen plan, the run row, one row per task and the agent rows in creation
  // order. `clock` is the time of the next transaction.
  datatype Execution = Execution(
    plan: seq<Entry>, status: RunStatus, tasks: map<Key, Task>, agents: seq<Agent>, clock: nat)

  function PlanGraph(s: Execution): Graph {
    GraphOf(s.plan)
  }

  ghost predicate IsPlan(plan: seq<Entry>) {
    IsDict(plan) && SoundPlan(GraphOf(plan))
  }

  function Statuses(tasks: map<Key, Task>): States {
    map k | k in tasks :: tasks[k].status
  }

  datatype Error =
    | RecordNotFound
    | InvalidExecutionPlan
    | ExecutionTasksMismatch
    | InvalidStateTransition
    | UnsupportedTransition
    | InvalidTaskTransition
    | ExecutionBusy
    | ContextMismatch
    | CodingTaskNotReady
    | CodingTaskStateChanged
    | RecoveryOwnsTests
    | RecoveryTestPolicyChanged
    | TaskNotAwaitingTests
    | CodingResultRequired
    | InvalidCodingResult
    | TestStateChanged
    | RecoveryUnavailable
    | TaskNotReadyForRecovery
    | RecoveryMissing
    | RecoveryFinished
    | DebugAttemptUnavailable
    | DebugAttemptUnknown
    | DebugNotRunning
    | TestsNotPassed
    | ReviewAlreadyRunning
    | ReviewStateChanged

  // The effect of one transaction: the committed rows and the value returned, or the error that
  // rolled everything back.
  datatype Outcome<+T> = Done(state: Execution, value: T) | Refused(error: Error)

  // ---- agent rows ----

  predicate Implements(kind: AgentKind) {
    kind == Coding || kind == Debug || kind == Test || kind == Recovery
  }

  predicate IsRunning(a: Agent) {
    a.status == AgentRunning
  }

  predicate AnyRunning(agents: seq<Agent>) {
    exists a | a in agents :: IsRunning(a)
  }

  function AddAgent(s: Execution, kind: AgentKind, task: Option<Key>, input: Input): Execution {
    s.(agents := s.agents + [Agent(|s.agents|, kind, task, AgentRunning, s.clock, None, input, NO_OUTPUT)],
       clock := s.clock + 1)
  }

  function EndAgent(s: Execution, id: nat, status: AgentStatus, output: Output): Execution
    requires id < |s.agents|
  {
    s.(agents := s.agents[id := s.agents[id].(status := status, completed := Some(s.clock), output := output)],
       clock := s.clock + 1)
  }

  function SetTask(s: Execution, k: Key, status: TaskStatus, summary: Summary): Execution {
    s.(tasks := s.tasks[k := Task(status, summary)])
  }

  predicate IsActiveRecovery(a: Agent, k: Key) {
    a.kind == Recovery && a.task == Some(k) && a.status == AgentRunning
  }

  // The running recovery of a task, if there is one.
  function ActiveRecovery(agents: seq<Agent>, k: Key): (r: Option<nat>)
    ensures r.Some? ==> r.value < |agents| && IsActiveRecovery(agents[r.value], k)
    ensures r.None? ==> forall i :: 0 <= i < |agents| ==> !IsActiveRecovery(agents[i], k)
  {
    if agents == [] then None
    else if IsActiveRecovery(agents[|agents| - 1], k) then Some(|agents| - 1)
    else ActiveRecovery(agents[..|agents| - 1], k)
  }

  predicate IsPatch(a: Agent, k: Key, withDebug: bool) {
    a.task == Some(k) && (a.kind == Coding || (withDebug && a.kind == Debug)) && a.status == AgentCompleted
  }

  // The completed patch of a task that started last.
  function LatestPatch(agents: seq<Agent>, k: Key, withDebug: bool): (r: Option<nat>)
    ensures r.Some? ==> r.value < |agents| && IsPatch(agents[r.value], k, withDebug)
    ensures r.Some? ==> forall j :: r.value < j < |agents| ==> !IsPatch(agents[j], k, withDebug)
    ensures r.None? ==> forall i :: 0 <= i < |agents| ==> !IsPatch(agents[i], k, withDebug)
  {
    if agents == [] then None
    else if IsPatch(agents[|agents| - 1], k, withDebug) then Some(|agents| - 1)
    else LatestPatch(agents[..|agents| - 1], k, withDebug)
  }

  predicate IsAttempt(a: Agent, recovery: nat) {
    a.kind == Debug && a.input.recovery == Some(recovery)
  }

  // The debug attempts charged to a recovery, oldest first.
  function Attempts(agents: seq<Agent>, recovery: nat): (r: seq<nat>)
    ensures forall i :: i in r <==> 0 <= i < |agents| && IsAttempt(agents[i], recovery)
    ensures forall i, j :: 0 <= i < j < |r| ==> r[i] < r[j]
  {
    if agents == [] then []
    else
      var front := Attempts(agents[..|agents| - 1], recovery);
      assert forall i :: 0 <= i < |front| ==> front[i] in front && front[i] < |agents| - 1;
      if IsAttempt(agents[|agents| - 1], recovery) then front + [|agents| - 1] else front
  }

  // Appending a row, or rewriting one without changing its kind and attempt ownership.
  lemma AttemptsAppend(agents: seq<Agent>, a: Agent, recovery: nat)
    ensures Attempts(agents + [a], recovery) ==
      if IsAttempt(a, recovery) then Attempts(agents, recovery) + [|agents|] else Attempts(agents, recovery)
  {
    assert (agents + [a])[..|agents|] == agents;
  }

  lemma {:induction false} AttemptsStable(before: seq<Agent>, after: seq<Agent>, recovery: nat)
    requires |before| == |after|
    requires forall i :: 0 <= i < |before| ==> (IsAttempt(before[i], recovery) <==> IsAttempt(after[i], recovery))
    ensures Attempts(before, recovery) == Attempts(after, recovery)
  {
    if before != [] {
      AttemptsStable(before[..|before| - 1], after[..|after| - 1], recovery);
    }
  }
}
