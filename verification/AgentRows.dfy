/** Agent rows over every run: append-only, one owner per recovery, closed rows final. */
module AgentRows {
  import opened Ordering
  import opened PlanDependencies
  import opened SchedulerState
  import opened Records
  import opened Transitions
  import opened Executions
  import opened CodingRecords
  import opened TestRecords
  import opened RecoveryRecords
  import opened ReviewRecords
  import opened PublicationRecords
  import opened Protocol
  import opened RunInvariant

  // A row keeps its identity and its input, and once it is closed it is final; only the publication
  // journal is written again.
  ghost predicate Evolves(a: Agent, b: Agent) {
    b.id == a.id && b.kind == a.kind && b.task == a.task && b.started == a.started && b.input == a.input
    && (!IsRunning(a) && a.kind != PullRequest ==> b == a)
    && (IsRunning(b) ==> IsRunning(a))
    && (a.completed.Some? && a.kind != PullRequest ==> b.completed == a.completed)
  }

  ghost predicate RowsKept(before: seq<Agent>, after: seq<Agent>) {
    |before| <= |after| && forall i :: 0 <= i < |before| ==> Evolves(before[i], after[i])
  }

  // One row, on its own.
  ghost predicate RowFits(s: Execution, i: nat)
    requires i < |s.agents|
  {
    var a := s.agents[i];
    a.id == i && a.started < s.clock
    && (Implements(a.kind) <==> a.task.Some?)
    && (a.task.Some? ==> a.task.value in s.tasks)
    && (a.completed.Some? ==> a.started < a.completed.value < s.clock)
    && (IsRunning(a) ==> a.completed.None?)
    && (a.status == AgentCompleted ==> a.completed.Some?)
  }

  // Rows start in creation order, so ordering by (started_at, id) is the order of the rows.
  ghost predicate InOrder(agents: seq<Agent>) {
    forall i, j :: 0 <= i < j < |agents| ==> agents[i].started < agents[j].started
  }

  ghost predicate OneRecovery(agents: seq<Agent>) {
    forall i, j, k :: 0 <= i < j < |agents| && IsActiveRecovery(agents[i], k) ==> !IsActiveRecovery(agents[j], k)
  }

  ghost predicate OneJournal(agents: seq<Agent>) {
    forall i, j :: 0 <= i < j < |agents| && agents[i].kind == PullRequest ==> agents[j].kind != PullRequest
  }

  // A debug attempt belongs to an earlier recovery of the same task.
  ghost predicate AttemptsOwned(agents: seq<Agent>) {
    forall i :: 0 <= i < |agents| && agents[i].kind == Debug ==> OwnedAttempt(agents, i)
  }

  ghost predicate OwnedAttempt(agents: seq<Agent>, i: nat)
    requires i < |agents|
  {
    agents[i].input.recovery.Some? && agents[i].input.recovery.value < i
    && agents[agents[i].input.recovery.value].task == agents[i].task
  }

  ghost predicate RowsInv(s: Execution) {
    (forall i :: 0 <= i < |s.agents| ==> RowFits(s, i))
    && InOrder(s.agents) && OneRecovery(s.agents) && OneJournal(s.agents) && AttemptsOwned(s.agents)
  }

  lemma AttemptsStayOwned(before: seq<Agent>, after: seq<Agent>)
    requires AttemptsOwned(before) && RowsKept(before, after)
    requires forall i :: |before| <= i < |after| && after[i].kind == Debug ==> OwnedAttempt(after, i)
    ensures AttemptsOwned(after)
  {
    forall i | 0 <= i < |after| && after[i].kind == Debug ensures OwnedAttempt(after, i) {
      if i < |before| {
        assert Evolves(before[i], after[i]) && OwnedAttempt(before, i);
        assert Evolves(before[before[i].input.recovery.value], after[before[i].input.recovery.value]);
      }
    }
  }

  // ---- the four ways a step touches the rows ----

  lemma SameRows(s: Execution, t: Execution)
    requires RowsInv(s) && t.agents == s.agents && t.clock >= s.clock && t.tasks.Keys == s.tasks.Keys
    ensures RowsInv(t) && RowsKept(s.agents, t.agents)
  {
    forall i | 0 <= i < |t.agents| ensures RowFits(t, i) { assert RowFits(s, i); }
  }

  lemma AppendedRow(s: Execution, t: Execution, kind: AgentKind, task: Option<Key>, input: Input)
    requires RowsInv(s) && t.tasks.Keys == s.tasks.Keys
    requires t.agents == AddAgent(s, kind, task, input).agents && t.clock == s.clock + 1
    requires Implements(kind) <==> task.Some?
    requires task.Some? ==> task.value in s.tasks
    requires kind == Recovery ==> ActiveRecovery(s.agents, task.value).None?
    requires kind == PullRequest ==> JournalOf(s.agents).None?
    requires kind == Debug ==> input.recovery.Some? && input.recovery.value < |s.agents|
    requires kind == Debug ==> s.agents[input.recovery.value].task == task
    ensures RowsInv(t) && RowsKept(s.agents, t.agents)
  {
    forall i | 0 <= i < |t.agents| ensures RowFits(t, i) {
      if i < |s.agents| { assert RowFits(s, i); }
    }
    forall i, j | 0 <= i < j < |t.agents| ensures t.agents[i].started < t.agents[j].started {
      assert RowFits(s, i);
    }
    AttemptsStayOwned(s.agents, t.agents);
  }

  lemma ChangedRow(s: Execution, t: Execution, id: nat, b: Agent)
    requires RowsInv(s) && t.tasks.Keys == s.tasks.Keys && t.clock >= s.clock && id < |s.agents|
    requires t.agents == s.agents[id := b] && Evolves(s.agents[id], b)
    requires b.completed.Some? ==> b.started < b.completed.value < t.clock
    requires IsRunning(b) ==> b.completed.None?
    requires b.status == AgentCompleted ==> b.completed.Some?
    ensures RowsInv(t) && RowsKept(s.agents, t.agents)
  {
    forall i | 0 <= i < |t.agents| ensures RowFits(t, i) { assert RowFits(s, i); }
    forall i, j, k | 0 <= i < j < |t.agents| && IsActiveRecovery(t.agents[i], k) ensures !IsActiveRecovery(t.agents[j], k) {
      assert IsActiveRecovery(s.agents[i], k);
    }
    forall i | 0 <= i < |s.agents| ensures Evolves(s.agents[i], t.agents[i]) {
    }
    AttemptsStayOwned(s.agents, t.agents);
  }

  lemma ClosedRow(s: Execution, t: Execution, id: nat, status: AgentStatus, output: Output)
    requires RowsInv(s) && t.tasks.Keys == s.tasks.Keys && id < |s.agents| && status != AgentRunning
    requires IsRunning(s.agents[id]) || s.agents[id].kind == PullRequest
    requires t.agents == EndAgent(s, id, status, output).agents && t.clock == s.clock + 1
    ensures RowsInv(t) && RowsKept(s.agents, t.agents)
  {
    assert RowFits(s, id);
    ChangedRow(s, t, id, t.agents[id]);
  }

  lemma InterruptedRows(s: Execution, cancelled: bool)
    requires RowsInv(s) && StopLocked(s, cancelled).Done?
    ensures var t := StopLocked(s, cancelled).state;
      RowsInv(t) && RowsKept(s.agents, t.agents)
  {
    var t := StopLocked(s, cancelled).state;
    forall i | 0 <= i < |t.agents| ensures RowFits(t, i) && Evolves(s.agents[i], t.agents[i]) {
      assert RowFits(s, i);
    }
    forall i, j, k | 0 <= i < j < |t.agents| && IsActiveRecovery(t.agents[i], k) ensures !IsActiveRecovery(t.agents[j], k) {
      assert IsActiveRecovery(s.agents[i], k);
    }
    AttemptsStayOwned(s.agents, t.agents);
  }

  // ---- every step ----

  lemma MoveRows(s: Execution, k: Key, target: TaskStatus, summary: Summary)
    requires WellFormed(s) && k in s.tasks && MoveTask(s, k, target, summary).Done?
    ensures var t := MoveTask(s, k, target, summary).state;
      t.agents == s.agents && t.clock == s.clock && t.tasks.Keys == s.tasks.Keys && t.plan == s.plan
  {
    AdvanceFrame(SetTask(s, k, target, summary));
  }

  // The rows of t continue those of s.
  ghost predicate Continues(s: Execution, t: Execution) {
    RowsInv(t) && RowsKept(s.agents, t.agents)
  }

  lemma CodingStartRows(s: Execution, k: Key, matches: bool)
    requires WellFormed(s) && RowsInv(s) && CodingStarted(s, k, matches).Done?
    ensures Continues(s, CodingStarted(s, k, matches).state)
  {
    MoveRows(s, k, SchedulerState.Running, CodingInProgress);
    AppendedRow(s, CodingStarted(s, k, matches).state, Coding, Some(k), NO_INPUT);
  }

  lemma CodingEndRows(s: Execution, k: Key, id: nat, success: bool, output: Output)
    requires WellFormed(s) && RowsInv(s) && CodingFinished(s, k, id, success, output).Done?
    ensures Continues(s, CodingFinished(s, k, id, success, output).state)
  {
    var u := EndAgent(s, id, if success then AgentCompleted else AgentFailed, output);
    MoveRows(u, k, if success then SchedulerState.Running else Failed, if success then PatchApplied else CodingFailed);
    ClosedRow(s, CodingFinished(s, k, id, success, output).state, id, u.agents[id].status, output);
  }

  lemma TestStartRows(s: Execution, k: Key, commands: seq<string>, recovery: Option<nat>)
    requires RowsInv(s) && TestStarted(s, k, commands, recovery).Done?
    ensures Continues(s, TestStarted(s, k, commands, recovery).state)
  {
    var t := TestStarted(s, k, commands, recovery).state;
    AppendedRow(s, t, Test, Some(k), t.agents[|s.agents|].input);
  }

  lemma TestEndRows(
    s: Execution, k: Key, id: nat, report: Report, error: Option<Code>, recovery: Option<nat>, diffHash: Option<Digest>)
    requires WellFormed(s) && RowsInv(s) && TestFinished(s, k, id, report, error, recovery, diffHash).Done?
    ensures Continues(s, TestFinished(s, k, id, report, error, recovery, diffHash).state)
  {
    var passed := Passed(report, error);
    var u := EndAgent(s, id, if passed then AgentCompleted else AgentFailed,
                      NO_OUTPUT.(report := Some(report), error := error, diffHash := diffHash));
    if ActiveRecovery(s.agents, k).Some? {
      MoveRows(u, k, SchedulerState.Running, if passed then RecoveryTestsPassed else RecoveryPending);
    } else {
      MoveRows(u, k, if passed then Completed else Failed, if passed then RequiredTestsPassed else RequiredTestsFailed);
    }
    ClosedRow(s, TestFinished(s, k, id, report, error, recovery, diffHash).state, id, u.agents[id].status, u.agents[id].output);
  }

  lemma OpenRows(s: Execution, k: Key, matches: bool, commands: seq<string>, limit: nat)
    requires RowsInv(s) && Opened(s, k, matches, commands, limit).Done?
    ensures Continues(s, Opened(s, k, matches, commands, limit).state)
  {
    var t := Opened(s, k, matches, commands, limit).state;
    AppendedRow(s, t, Recovery, Some(k), t.agents[|s.agents|].input);
  }

  lemma ClaimRows(s: Execution, owner: nat)
    requires RowsInv(s) && DebugClaimed(s, owner).Done?
    ensures Continues(s, DebugClaimed(s, owner).state)
  {
    var t := DebugClaimed(s, owner).state;
    AppendedRow(s, t, Debug, s.agents[owner].task, t.agents[|s.agents|].input);
  }

  lemma ReserveRows(s: Execution, owner: nat, id: nat, fingerprint: Digest)
    requires RowsInv(s) && PatchReserved(s, owner, id, fingerprint).Done?
    ensures Continues(s, PatchReserved(s, owner, id, fingerprint).state)
  {
    var t := PatchReserved(s, owner, id, fingerprint).state;
    assert RowFits(s, id);
    ChangedRow(s, t, id, t.agents[id]);
  }

  lemma DebugEndRows(s: Execution, owner: nat, id: nat, metadata: DebugMetadata)
    requires RowsInv(s) && DebugFinished(s, owner, id, metadata).Done?
    ensures Continues(s, DebugFinished(s, owner, id, metadata).state)
  {
    var t := DebugFinished(s, owner, id, metadata).state;
    ClosedRow(s, t, id, t.agents[id].status, t.agents[id].output);
  }

  lemma RecoveryEndRows(s: Execution, owner: nat, passed: bool, error: Option<Code>)
    requires WellFormed(s) && RowsInv(s) && RecoveryEnd(s, owner, passed, error).Done?
    ensures Continues(s, RecoveryEnd(s, owner, passed, error).state)
  {
    var k := s.agents[owner].task.value;
    var u := EndAgent(s, owner, if passed then AgentCompleted else AgentFailed,
                      NO_OUTPUT.(error := error, attempts := |Attempts(s.agents, owner)|));
    MoveRows(u, k, if passed then Completed else Failed, if passed then RequiredTestsPassed else RecoveryEnded(error));
    ClosedRow(s, RecoveryEnd(s, owner, passed, error).state, owner, u.agents[owner].status, u.agents[owner].output);
  }

  lemma ReviewStartRows(s: Execution, matches: bool, commands: seq<string>)
    requires WellFormed(s) && RowsInv(s) && ReviewStarted(s, matches, commands).Done?
    ensures Continues(s, ReviewStarted(s, matches, commands).state)
  {
    var t := ReviewStarted(s, matches, commands).state;
    AppendedRow(s, t, Review, None, t.agents[|s.agents|].input);
  }

  lemma ReviewEndRows(
    s: Execution, matches: bool, commands: seq<string>, id: nat, seen: Evidence, decision: Decision, error: Option<Code>)
    requires WellFormed(s) && RowsInv(s) && ReviewFinished(s, matches, commands, id, seen, decision, error).Done?
    ensures Continues(s, ReviewFinished(s, matches, commands, id, seen, decision, error).state)
  {
    var t := ReviewFinished(s, matches, commands, id, seen, decision, error).state;
    ClosedRow(s, t, id, t.agents[id].status, t.agents[id].output);
  }

  lemma JournalRows(s: Execution, publication: Publication)
    requires RowsInv(s) && Journal(s, publication).Journaled?
    ensures Continues(s, Journal(s, publication).state)
  {
    var t := Journal(s, publication).state;
    if JournalOf(s.agents).None? {
      AppendedRow(s, t, PullRequest, None, t.agents[|s.agents|].input);
    } else {
      SameRows(s, t);
    }
  }

  lemma PublishedRows(s: Execution, record: Option<PublishedPR>, journal: nat, remote: PublishedPR)
    requires RowsInv(s) && JournalOf(s.agents) == Some(journal)
    ensures Continues(s, RecordPublished(s, record, journal, remote).state)
  {
    var o := RecordPublished(s, record, journal, remote);
    if o.result.Published? {
      ClosedRow(s, o.state, journal, AgentCompleted, o.state.agents[journal].output);
    } else {
      SameRows(s, o.state);
    }
  }

  lemma FailureRows(s: Execution, journal: nat, code: PublicationError)
    requires RowsInv(s) && JournalOf(s.agents) == Some(journal)
    ensures Continues(s, RecordFailure(s, journal, code))
  {
    var t := RecordFailure(s, journal, code);
    assert RowFits(s, journal);
    ChangedRow(s, t, journal, t.agents[journal]);
  }

  lemma SchedulingRows(s: Execution, step: Step)
    requires WellFormed(s) && RowsInv(s) && SchedulingStep(step)
    ensures Continues(s, NextSchedule(s, step))
  {
    var t := NextSchedule(s, step);
    SameRows(s, s);
    match step
    case Reconcile =>
      if AdvanceRun(s).Done? { AdvanceFrame(s); SameRows(s, t); }
    case Transition(k, target, summary) =>
      var o := Transitioned(s, k, target, summary);
      if o.Done? && o.value { MoveRows(s, k, target, summary); SameRows(s, t); }
    case Stop(cancelled) =>
      if StopLocked(s, cancelled).Done? { InterruptedRows(s, cancelled); }
    case Sweep(cutoff, idle) =>
      InterruptedRows(s, false);
  }

  lemma WorkRows(s: Execution, step: Step)
    requires WellFormed(s) && RowsInv(s) && (CodingStep(step) || TestStep(step))
    ensures Continues(s, if CodingStep(step) then NextCoding(s, step) else NextTest(s, step))
  {
    SameRows(s, s);
    match step
    case StartCoding(k, matches) =>
      if CodingStarted(s, k, matches).Done? { CodingStartRows(s, k, matches); }
    case FinishCoding(k, id, success, output) =>
      if CodingFinished(s, k, id, success, output).Done? { CodingEndRows(s, k, id, success, output); }
    case StartTest(k, commands, recovery) =>
      if TestStarted(s, k, commands, recovery).Done? { TestStartRows(s, k, commands, recovery); }
    case FinishTest(k, id, report, error, recovery, diffHash) =>
      if TestFinished(s, k, id, report, error, recovery, diffHash).Done? {
        TestEndRows(s, k, id, report, error, recovery, diffHash);
      }
  }

  lemma RepairRows(s: Execution, step: Step)
    requires WellFormed(s) && RowsInv(s) && RepairStep(step)
    ensures Continues(s, NextRepair(s, step))
  {
    SameRows(s, s);
    match step
    case OpenRecovery(k, matches, commands, limit) =>
      if Opened(s, k, matches, commands, limit).Done? { OpenRows(s, k, matches, commands, limit); }
    case ClaimDebug(owner) =>
      if DebugClaimed(s, owner).Done? { ClaimRows(s, owner); }
    case ReservePatch(owner, id, fingerprint) =>
      if PatchReserved(s, owner, id, fingerprint).Done? { ReserveRows(s, owner, id, fingerprint); }
    case FinishDebug(owner, id, metadata) =>
      if DebugFinished(s, owner, id, metadata).Done? { DebugEndRows(s, owner, id, metadata); }
    case EndRecovery(owner, passed, error) =>
      if RecoveryEnd(s, owner, passed, error).Done? { RecoveryEndRows(s, owner, passed, error); }
  }

  lemma ReviewRows(s: Execution, step: Step)
    requires WellFormed(s) && RowsInv(s) && ReviewStep(step)
    ensures Continues(s, NextReview(s, step))
  {
    SameRows(s, s);
    match step
    case StartReview(matches, commands) =>
      if ReviewStarted(s, matches, commands).Done? { ReviewStartRows(s, matches, commands); }
    case FinishReview(matches, commands, id, seen, decision, error) =>
      if ReviewFinished(s, matches, commands, id, seen, decision, error).Done? {
        ReviewEndRows(s, matches, commands, id, seen, decision, error);
      }
    case WriteJournal(publication) =>
      if Journal(s, publication).Journaled? { JournalRows(s, publication); }
    case ClosePublication(record, remote) =>
      if JournalOf(s.agents).Some? { PublishedRows(s, record, JournalOf(s.agents).value, remote); }
    case FailPublication(code) =>
      if JournalOf(s.agents).Some? { FailureRows(s, JournalOf(s.agents).value, code); }
  }

  lemma NextRows(s: Execution, step: Step)
    requires RunInv(s) && RowsInv(s)
    ensures RowsInv(Next(s, step)) && RowsKept(s.agents, Next(s, step).agents)
  {
    if SchedulingStep(step) { SchedulingRows(s, step); }
    else if CodingStep(step) || TestStep(step) { WorkRows(s, step); }
    else if RepairStep(step) { RepairRows(s, step); }
    else { ReviewRows(s, step); }
  }

  lemma {:induction false} AfterRows(s: Execution, steps: seq<Step>)
    requires RunInv(s) && RowsInv(s)
    ensures RowsInv(After(s, steps)) && RowsKept(s.agents, After(s, steps).agents)
  {
    if steps == [] {
      SameRows(s, s);
    } else {
      var front := steps[..|steps| - 1];
      AfterRows(s, front);
      var u := After(s, front);
      NextRows(u, steps[|steps| - 1]);
      RowsKeptTransitive(s.agents, u.agents, After(s, steps).agents);
    }
  }

  lemma RowsKeptTransitive(a: seq<Agent>, b: seq<Agent>, c: seq<Agent>)
    requires RowsKept(a, b) && RowsKept(b, c)
    ensures RowsKept(a, c)
  {
    forall i | 0 <= i < |a| ensures Evolves(a[i], c[i]) {
      assert Evolves(a[i], b[i]) && Evolves(b[i], c[i]);
    }
  }
}
