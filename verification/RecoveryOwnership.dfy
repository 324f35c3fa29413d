/** A running recovery owns its task: what its own calls achieve and what other workers leave alone. */
module RecoveryOwnership {
  import opened Ordering
  import opened PlanDependencies
  import opened SchedulerState
  import opened Records
  import opened Transitions
  import opened Executions
  import opened CodingRecords
  import opened TestRecords
  import opened RecoveryRecords
  import opened ReviewRecords
  import opened PublicationRecords
  import opened Protocol
  import opened RunInvariant
  import opened AgentRows
  import opened TaskPhases

  // A test record that the recovery has closed with this report.
  datatype Filing = Filing(row: nat, report: Report, diffHash: Digest)

  // Policy, limit and number of attempts of a recovery, the fingerprints that count as repeated, and
  // the test records it has closed with a report.
  datatype Budget = Budget(required: seq<string>, limit: nat, used: nat, known: set<Digest>, tests: seq<Filing>)

  ghost predicate Holds(agents: seq<Agent>, k: Key, r: nat, b: Budget) {
    r < |agents| && IsActiveRecovery(agents[r], k)
    && agents[r].input.limit == Some(b.limit) && agents[r].input.commands == b.required
    && |Attempts(agents, r)| == b.used
  }

  ghost predicate Owned(s: Execution, k: Key, r: nat, b: Budget) {
    RunInv(s) && RowsInv(s) && k in s.tasks && Holds(s.agents, k, r, b)
  }

  // The latest applied patch of the task recorded its diff.
  predicate PatchReady(agents: seq<Agent>, k: Key) {
    LatestPatch(agents, k, true).Some? && agents[LatestPatch(agents, k, true).value].output.gitDiff.Some?
  }

  // Row w is running work of task k and no later row belongs to k.
  ghost predicate Working(agents: seq<Agent>, k: Key, w: nat, kind: AgentKind) {
    w < |agents| && agents[w].kind == kind && agents[w].task == Some(k) && IsRunning(agents[w])
    && forall j :: w < j < |agents| ==> agents[j].task != Some(k)
  }

  // ---- fingerprints ----

  predicate Repaired(a: Agent, r: nat) {
    IsAttempt(a, r) && a.status == AgentCompleted
  }

  predicate ProposedBy(a: Agent, k: Key, fingerprint: Digest) {
    a.kind == Coding && a.task == Some(k) && a.output.proposal.Some? && Sha256(a.output.proposal.value) == fingerprint
  }

  // Fingerprint f is neither a coding patch of the task nor an applied attempt other than d.
  ghost predicate FreshFor(agents: seq<Agent>, k: Key, r: nat, d: nat, f: Digest) {
    (forall i :: 0 <= i < |agents| && i != d && Repaired(agents[i], r) ==> agents[i].output.patchHash != Some(f))
    && forall i :: 0 <= i < |agents| ==> !ProposedBy(agents[i], k, f)
  }

  // Applied repairs have fingerprints, all different, and none of them is a coding patch.
  ghost predicate DistinctPatches(agents: seq<Agent>, k: Key, r: nat) {
    forall d :: 0 <= d < |agents| && Repaired(agents[d], r) ==>
      agents[d].output.patchHash.Some? && FreshFor(agents, k, r, d, agents[d].output.patchHash.value)
  }

  // ---- other workers ----

  // Row id is running work of task k.
  predicate AtWork(s: Execution, id: nat, k: Key) {
    id < |s.agents| && s.agents[id].task == Some(k) && IsRunning(s.agents[id])
  }

  // The sweep finds an old running row, or an idle run with a task at work, and no recent running row.
  predicate Stale(s: Execution, cutoff: nat, idle: bool) {
    (StartedBefore(s.agents, cutoff) || (!Finished(s.status) && idle && AnyTaskRunning(s.tasks)))
    && !StartedSince(s.agents, cutoff)
  }

  // What a worker sees in the rows before its step when the step will touch task k, or a row of k,
  // while recovery r of k is running.
  predicate Disturbs(s: Execution, k: Key, r: nat, step: Step) {
    k in s.tasks && r < |s.agents| &&
    match step
    case Transition(j, target, _) => j == k && Accepts(s.tasks[k].status, target)
    case Stop(cancelled) => !cancelled
    case Sweep(cutoff, idle) => Stale(s, cutoff, idle)
    case StartCoding(j, matches) => j == k && matches && s.tasks[k].status == Queued
    case FinishCoding(j, id, _, _) => j == k && s.tasks[k].status == SchedulerState.Running && AtWork(s, id, k)
    case StartTest(j, commands, recovery) =>
      j == k && recovery == Some(r) && commands == s.agents[r].input.commands
      && s.tasks[k] == Task(SchedulerState.Running, PatchApplied) && PatchReady(s.agents, k)
    case FinishTest(j, id, _, _, recovery, _) =>
      j == k && recovery == Some(r) && s.tasks[k] == Task(SchedulerState.Running, TestsRunning) && AtWork(s, id, k)
    case ClaimDebug(owner) =>
      AtWork(s, owner, k) && s.tasks[k] == Task(SchedulerState.Running, RecoveryPending)
      && s.agents[owner].input.limit.Some? && |Attempts(s.agents, owner)| < s.agents[owner].input.limit.value
    case ReservePatch(owner, id, fingerprint) =>
      AtWork(s, owner, k) && AtWork(s, id, k) && IsAttempt(s.agents[id], owner)
      && s.agents[id].output.patchHash != Some(fingerprint)
    case FinishDebug(owner, id, _) => AtWork(s, owner, k) && AtWork(s, id, k)
    case EndRecovery(owner, passed, _) =>
      AtWork(s, owner, k)
      && (if passed then s.tasks[k] == Task(SchedulerState.Running, RecoveryTestsPassed) else TaskMove(s.tasks[k].status, Failed))
    case FinishReview(matches, _, id, _, _, _) => matches && AtWork(s, id, k)
    case _ => false
  }

  // The changes of status that a worker may ask for.
  predicate Accepts(current: TaskStatus, target: TaskStatus) {
    (current == Queued && target == SchedulerState.Running)
    || (current == SchedulerState.Running && target in {Completed, Failed})
  }

  // What the owner can rely on across a step of others.
  ghost predicate Undisturbed(s: Execution, t: Execution, k: Key, r: nat) {
    k in s.tasks && k in t.tasks && (s.tasks[k].status != Pending ==> t.tasks[k] == s.tasks[k])
    && SameTaskRows(s.agents, t.agents, k) && Attempts(t.agents, r) == Attempts(s.agents, r)
  }

  lemma ActiveIs(agents: seq<Agent>, k: Key, r: nat)
    requires OneRecovery(agents) && r < |agents| && IsActiveRecovery(agents[r], k)
    ensures ActiveRecovery(agents, k) == Some(r)
  {
    var q := ActiveRecovery(agents, k).value;
    assert q < r || r < q || q == r;
  }

  // Rows of task k are as they were and no row of k is added.
  ghost predicate RowsTouched(before: seq<Agent>, after: seq<Agent>, k: Key) {
    |before| <= |after|
    && (forall i :: 0 <= i < |before| && before[i].task == Some(k) ==> after[i] == before[i])
    && forall i :: |before| <= i < |after| ==> after[i].task != Some(k)
  }

  // Task k and its rows are left alone; only a pending task may drift.
  ghost predicate LeftAlone(s: Execution, t: Execution, k: Key) {
    k in s.tasks && k in t.tasks && (s.tasks[k].status != Pending ==> t.tasks[k] == s.tasks[k])
    && RowsTouched(s.agents, t.agents, k)
  }

  // A released task in recovery.
  ghost predicate InRecovery(s: Execution, k: Key, r: nat) {
    RunInv(s) && RowsInv(s) && k in s.tasks && s.tasks[k].status != Pending && ActiveRecovery(s.agents, k) == Some(r)
  }

  // Disturbs is exact: a step leaves the task alone if and only if its guards do not let it through.
  lemma DisturbsExactly(s: Execution, k: Key, r: nat, step: Step)
    requires InRecovery(s, k, r)
    ensures LeftAlone(s, Next(s, step), k) <==> !Disturbs(s, k, r, step)
  {
    if SchedulingStep(step) {
      SchedulingExactly(s, k, r, step);
      assert Next(s, step) == NextSchedule(s, step);
    } else if CodingStep(step) {
      CodingExactly(s, k, r, step);
      assert Next(s, step) == NextCoding(s, step);
    } else if TestStep(step) {
      TestExactly(s, k, r, step);
      assert Next(s, step) == NextTest(s, step);
    } else if RepairStep(step) {
      RepairExactly(s, k, r, step);
      assert Next(s, step) == NextRepair(s, step);
    } else {
      ReviewExactly(s, k, r, step);
      assert Next(s, step) == NextReview(s, step);
    }
  }

  lemma SchedulingExactly(s: Execution, k: Key, r: nat, step: Step)
    requires InRecovery(s, k, r) && SchedulingStep(step)
    ensures LeftAlone(s, NextSchedule(s, step), k) <==> !Disturbs(s, k, r, step)
  {
    match step
    case Reconcile =>
      if AdvanceRun(s).Done? { AdvanceFrame(s); }
    case Transition(j, target, summary) => TransitionExactly(s, k, r, j, target, summary);
    case Stop(cancelled) => StopTouches(s, k, r, cancelled);
    case Sweep(cutoff, idle) => SweepExactly(s, k, r, cutoff, idle);
  }

  lemma TransitionExactly(s: Execution, k: Key, r: nat, j: Key, target: TaskStatus, summary: Summary)
    requires InRecovery(s, k, r)
    ensures var t := Committed(s, Transitioned(s, j, target, summary));
      LeftAlone(s, t, k) <==> !Disturbs(s, k, r, Transition(j, target, summary))
  {
    TransitionMoves(s, j, target, summary);
    if j in s.tasks && Accepts(s.tasks[j].status, target) {
      MoveKeeps(s, j, target, summary);
      MoveFrame(s, j, target, summary);
    }
  }

  lemma TransitionMoves(s: Execution, j: Key, target: TaskStatus, summary: Summary)
    requires WellFormed(s)
    ensures Committed(s, Transitioned(s, j, target, summary)) ==
      if j in s.tasks && Accepts(s.tasks[j].status, target) then Committed(s, MoveTask(s, j, target, summary)) else s
  {
  }

  // The recovery is running: a cancellation is refused and an interruption closes its row.
  lemma StopTouches(s: Execution, k: Key, r: nat, cancelled: bool)
    requires InRecovery(s, k, r)
    ensures StopLocked(s, cancelled).Done? <==> !cancelled
    ensures !cancelled ==> !LeftAlone(s, StopLocked(s, cancelled).state, k)
  {
    assert s.agents[r] in s.agents;
    if !cancelled {
      assert StopLocked(s, cancelled).state.agents[r] != s.agents[r];
    }
  }

  lemma SweepExactly(s: Execution, k: Key, r: nat, cutoff: nat, idle: bool)
    requires InRecovery(s, k, r)
    ensures LeftAlone(s, Committed(s, RecoverStale(s, cutoff, idle)), k) <==> !Stale(s, cutoff, idle)
  {
    StopTouches(s, k, r, false);
  }

  lemma MoveFrame(s: Execution, j: Key, target: TaskStatus, summary: Summary)
    requires WellFormed(s) && j in s.tasks && target != Pending && MoveTask(s, j, target, summary).Done?
    ensures var t := MoveTask(s, j, target, summary).state;
      t.agents == s.agents && MovesOnly(s.tasks, t.tasks, j) && t.tasks[j] == Task(target, summary)
  {
    AdvanceFrame(SetTask(s, j, target, summary));
  }

  ghost predicate MovesOnly(before: map<Key, Task>, after: map<Key, Task>, j: Key) {
    after.Keys == before.Keys && j in after
    && forall k :: k in before && k != j && before[k].status != Pending ==> after[k] == before[k]
  }

  // Closing a running row of task j and moving j touches j and nothing else.
  lemma WorkEnds(s: Execution, k: Key, j: Key, id: nat, status: AgentStatus, output: Output, target: TaskStatus, summary: Summary)
    requires RunInv(s) && k in s.tasks && s.tasks[k].status != Pending && j in s.tasks && AtWork(s, id, j)
    requires status != AgentRunning && target in {SchedulerState.Running, Completed, Failed} && TaskMove(s.tasks[j].status, target)
    ensures var o := MoveTask(EndAgent(s, id, status, output), j, target, summary);
      o.Done? && (LeftAlone(s, o.state, k) <==> j != k)
  {
    var u := EndAgent(s, id, status, output);
    SameStatuses(s, u);
    MoveKeeps(u, j, target, summary);
    MoveFrame(u, j, target, summary);
    WorkTouches(s, MoveTask(u, j, target, summary).state, k, j, id, u.agents[id]);
  }

  lemma WorkTouches(s: Execution, t: Execution, k: Key, j: Key, id: nat, a: Agent)
    requires k in s.tasks && s.tasks[k].status != Pending && AtWork(s, id, j) && !IsRunning(a)
    requires MovesOnly(s.tasks, t.tasks, j) && t.agents == s.agents[id := a]
    ensures LeftAlone(s, t, k) <==> j != k
  {
    assert t.agents[id] != s.agents[id];
  }

  lemma CodingExactly(s: Execution, k: Key, r: nat, step: Step)
    requires InRecovery(s, k, r) && CodingStep(step)
    ensures LeftAlone(s, NextCoding(s, step), k) <==> !Disturbs(s, k, r, step)
  {
    match step
    case StartCoding(j, matches) => CodingStartExactly(s, k, r, j, matches);
    case FinishCoding(j, id, success, output) => CodingEndExactly(s, k, r, j, id, success, output);
  }

  lemma CodingStartExactly(s: Execution, k: Key, r: nat, j: Key, matches: bool)
    requires InRecovery(s, k, r)
    ensures var t := Committed(s, CodingStarted(s, j, matches));
      LeftAlone(s, t, k) <==> !Disturbs(s, k, r, StartCoding(j, matches))
  {
    if j in s.tasks && matches && s.tasks[j].status == Queued {
      ClaimMoves(s, j);
      var t := CodingStarted(s, j, true).state;
      assert j == k ==> t.tasks[k] != s.tasks[k];
    }
  }

  lemma ClaimMoves(s: Execution, j: Key)
    requires RunInv(s) && j in s.tasks && s.tasks[j].status == Queued
    ensures var o := CodingStarted(s, j, true);
      o.Done? && MovesOnly(s.tasks, o.state.tasks, j) && o.state.tasks[j].status == SchedulerState.Running
      && o.state.agents == s.agents + [o.state.agents[|s.agents|]] && o.state.agents[|s.agents|].task == Some(j)
  {
    ParentsDone(s, j);
    MoveKeeps(s, j, SchedulerState.Running, CodingInProgress);
    MoveFrame(s, j, SchedulerState.Running, CodingInProgress);
  }

  lemma ParentsDone(s: Execution, j: Key)
    requires RunInv(s) && j in s.tasks && s.tasks[j].status == Queued
    ensures j in PlanGraph(s) && forall p :: p in PlanGraph(s)[j] ==> p in s.tasks && s.tasks[p].status == Completed
  {
    RunInvMeans(s);
    ParentsAreTasks(s, j);
  }

  lemma CodingEndExactly(s: Execution, k: Key, r: nat, j: Key, id: nat, success: bool, output: Output)
    requires InRecovery(s, k, r)
    ensures var t := Committed(s, CodingFinished(s, j, id, success, output));
      LeftAlone(s, t, k) <==> !Disturbs(s, k, r, FinishCoding(j, id, success, output))
  {
    if j in s.tasks && s.tasks[j].status == SchedulerState.Running && AtWork(s, id, j) {
      WorkEnds(s, k, j, id, if success then AgentCompleted else AgentFailed, output,
               if success then SchedulerState.Running else Failed, if success then PatchApplied else CodingFailed);
    }
  }

  lemma TestExactly(s: Execution, k: Key, r: nat, step: Step)
    requires InRecovery(s, k, r) && TestStep(step)
    ensures LeftAlone(s, NextTest(s, step), k) <==> !Disturbs(s, k, r, step)
  {
    match step
    case StartTest(j, commands, recovery) => TestStartExactly(s, k, r, j, commands, recovery);
    case FinishTest(j, id, report, error, recovery, diffHash) =>
      TestEndExactly(s, k, r, j, id, report, error, recovery, diffHash);
  }

  lemma TestStartExactly(s: Execution, k: Key, r: nat, j: Key, commands: seq<string>, recovery: Option<nat>)
    requires InRecovery(s, k, r)
    ensures var t := Committed(s, TestStarted(s, j, commands, recovery));
      LeftAlone(s, t, k) <==> !Disturbs(s, k, r, StartTest(j, commands, recovery))
  {
    var t := Committed(s, TestStarted(s, j, commands, recovery));
    if Disturbs(s, k, r, StartTest(j, commands, recovery)) {
      assert t.agents[|s.agents|].task == Some(k);
    }
  }

  lemma TestEndExactly(
    s: Execution, k: Key, r: nat, j: Key, id: nat, report: Report, error: Option<Code>, recovery: Option<nat>,
    diffHash: Option<Digest>)
    requires InRecovery(s, k, r)
    ensures var t := Committed(s, TestFinished(s, j, id, report, error, recovery, diffHash));
      LeftAlone(s, t, k) <==> !Disturbs(s, k, r, FinishTest(j, id, report, error, recovery, diffHash))
  {
    var active, passed := ActiveRecovery(s.agents, j), Passed(report, error);
    if j in s.tasks && s.tasks[j] == Task(SchedulerState.Running, TestsRunning) && AtWork(s, id, j) && Owns(active, recovery) {
      var status := if passed then AgentCompleted else AgentFailed;
      var output := NO_OUTPUT.(report := Some(report), error := error, diffHash := diffHash);
      if active.Some? {
        WorkEnds(s, k, j, id, status, output, SchedulerState.Running, if passed then RecoveryTestsPassed else RecoveryPending);
      } else {
        WorkEnds(s, k, j, id, status, output, if passed then Completed else Failed,
                 if passed then RequiredTestsPassed else RequiredTestsFailed);
      }
    }
  }

  lemma RepairExactly(s: Execution, k: Key, r: nat, step: Step)
    requires InRecovery(s, k, r) && RepairStep(step)
    ensures LeftAlone(s, NextRepair(s, step), k) <==> !Disturbs(s, k, r, step)
  {
    match step
    case OpenRecovery(j, matches, commands, limit) =>
    case ClaimDebug(owner) => ClaimExactly(s, k, r, owner);
    case ReservePatch(owner, id, fingerprint) => ReserveExactly(s, k, r, owner, id, fingerprint);
    case FinishDebug(owner, id, metadata) => DebugEndExactly(s, k, r, owner, id, metadata);
    case EndRecovery(owner, passed, error) => EndExactly(s, k, r, owner, passed, error);
  }

  lemma ClaimExactly(s: Execution, k: Key, r: nat, owner: nat)
    requires InRecovery(s, k, r)
    ensures LeftAlone(s, Committed(s, DebugClaimed(s, owner)), k) <==> !Disturbs(s, k, r, ClaimDebug(owner))
  {
    var t := Committed(s, DebugClaimed(s, owner));
    if Disturbs(s, k, r, ClaimDebug(owner)) {
      assert t.agents[|s.agents|].task == Some(k);
    }
  }

  lemma ReserveExactly(s: Execution, k: Key, r: nat, owner: nat, id: nat, f: Digest)
    requires InRecovery(s, k, r)
    ensures LeftAlone(s, Committed(s, PatchReserved(s, owner, id, f)), k) <==> !Disturbs(s, k, r, ReservePatch(owner, id, f))
  {
    if id < |s.agents| && IsAttempt(s.agents[id], owner) {
      assert OwnedAttempt(s.agents, id);
    }
    var t := Committed(s, PatchReserved(s, owner, id, f));
    if Disturbs(s, k, r, ReservePatch(owner, id, f)) {
      assert t.agents[id].output.patchHash == Some(f);
    }
  }

  lemma DebugEndExactly(s: Execution, k: Key, r: nat, owner: nat, id: nat, metadata: DebugMetadata)
    requires InRecovery(s, k, r)
    ensures var t := Committed(s, DebugFinished(s, owner, id, metadata));
      LeftAlone(s, t, k) <==> !Disturbs(s, k, r, FinishDebug(owner, id, metadata))
  {
    var t := Committed(s, DebugFinished(s, owner, id, metadata));
    if Disturbs(s, k, r, FinishDebug(owner, id, metadata)) {
      assert t.agents[id].status != s.agents[id].status;
    }
  }

  lemma EndExactly(s: Execution, k: Key, r: nat, owner: nat, passed: bool, error: Option<Code>)
    requires InRecovery(s, k, r)
    ensures var t := Committed(s, RecoveryEnd(s, owner, passed, error));
      LeftAlone(s, t, k) <==> !Disturbs(s, k, r, EndRecovery(owner, passed, error))
  {
    if LockFault(s, owner).None? {
      var j := s.agents[owner].task.value;
      var target := if passed then Completed else Failed;
      if TaskMove(s.tasks[j].status, target) {
        WorkEnds(s, k, j, owner, if passed then AgentCompleted else AgentFailed,
                 NO_OUTPUT.(error := error, attempts := |Attempts(s.agents, owner)|), target,
                 if passed then RequiredTestsPassed else RecoveryEnded(error));
      }
    }
  }

  lemma ReviewExactly(s: Execution, k: Key, r: nat, step: Step)
    requires InRecovery(s, k, r) && ReviewStep(step)
    ensures LeftAlone(s, NextReview(s, step), k) <==> !Disturbs(s, k, r, step)
  {
    match step
    case StartReview(matches, commands) => ReviewStartExactly(s, k, matches, commands);
    case FinishReview(matches, commands, id, seen, decision, error) =>
      ReviewEndExactly(s, k, matches, commands, id, seen, decision, error);
    case WriteJournal(publication) => JournalExactly(s, k, publication);
    case ClosePublication(record, remote) => PublicationExactly(s, k, record, remote);
    case FailPublication(code) => FailureExactly(s, k, code);
  }

  lemma ReviewStartExactly(s: Execution, k: Key, matches: bool, commands: seq<string>)
    requires WellFormed(s) && k in s.tasks
    ensures LeftAlone(s, Committed(s, ReviewStarted(s, matches, commands)), k)
  {
  }

  // The journal is no row of a task.
  lemma PublicationExactly(s: Execution, k: Key, record: Option<PublishedPR>, remote: PublishedPR)
    requires RowsInv(s) && k in s.tasks
    ensures var j := JournalOf(s.agents);
      j.Some? ==> LeftAlone(s, RecordPublished(s, record, j.value, remote).state, k)
  {
    JournalHasNoTask(s);
  }

  lemma FailureExactly(s: Execution, k: Key, code: PublicationError)
    requires RowsInv(s) && k in s.tasks
    ensures var j := JournalOf(s.agents);
      j.Some? ==> LeftAlone(s, RecordFailure(s, j.value, code), k)
  {
    JournalHasNoTask(s);
  }

  lemma ReviewEndExactly(
    s: Execution, k: Key, matches: bool, commands: seq<string>, id: nat, seen: Evidence, decision: Decision,
    error: Option<Code>)
    requires WellFormed(s) && k in s.tasks
    ensures var t := Committed(s, ReviewFinished(s, matches, commands, id, seen, decision, error));
      LeftAlone(s, t, k) <==> !(matches && AtWork(s, id, k))
  {
    var o := ReviewFinished(s, matches, commands, id, seen, decision, error);
    if o.Done? {
      assert o.state.agents[id].status != s.agents[id].status;
    }
  }

  lemma JournalExactly(s: Execution, k: Key, publication: Publication)
    requires k in s.tasks
    ensures var j := Journal(s, publication);
      LeftAlone(s, if j.Journaled? then j.state else s, k)
  {
  }

  lemma JournalHasNoTask(s: Execution)
    requires RowsInv(s)
    ensures JournalOf(s.agents).Some? ==> s.agents[JournalOf(s.agents).value].task == None
  {
    if JournalOf(s.agents).Some? {
      assert RowFits(s, JournalOf(s.agents).value);
    }
  }

  lemma {:induction false} AttemptsKept(before: seq<Agent>, after: seq<Agent>, r: nat)
    requires RowsKept(before, after) && forall i :: |before| <= i < |after| ==> !IsAttempt(after[i], r)
    ensures Attempts(after, r) == Attempts(before, r)
  {
    if |after| > |before| {
      AttemptsKept(before, after[..|after| - 1], r);
    } else {
      forall i | 0 <= i < |before| ensures IsAttempt(before[i], r) <==> IsAttempt(after[i], r) {
        assert Evolves(before[i], after[i]);
      }
      AttemptsStable(before, after, r);
    }
  }

  // Attempts of r are rows of task k, so leaving those alone leaves the count alone.
  lemma SameAttempts(before: seq<Agent>, after: seq<Agent>, k: Key, r: nat)
    requires RowsKept(before, after) && RowsTouched(before, after, k) && AttemptsOwned(after)
    requires r < |before| && before[r].task == Some(k)
    ensures Attempts(after, r) == Attempts(before, r)
  {
    assert Evolves(before[r], after[r]);
    forall i | |before| <= i < |after| ensures !IsAttempt(after[i], r) {
      assert after[i].kind == Debug ==> OwnedAttempt(after, i);
    }
    AttemptsKept(before, after, r);
  }

  // Any other step leaves the owner's rows, phase and budget as they are.
  lemma UndisturbedKeeps(s: Execution, k: Key, r: nat, b: Budget, step: Step)
    requires Owned(s, k, r, b) && s.tasks[k].status != Pending && !Disturbs(s, k, r, step)
    ensures Owned(Next(s, step), k, r, b) && Undisturbed(s, Next(s, step), k, r)
  {
    var t := Next(s, step);
    NextKeeps(s, step);
    NextRows(s, step);
    ActiveIs(s.agents, k, r);
    DisturbsExactly(s, k, r, step);
    SameAttempts(s.agents, t.agents, k, r);
    SameRowsOf(s.agents, t.agents, k);
  }

  lemma SameRowsOf(before: seq<Agent>, after: seq<Agent>, k: Key)
    requires RowsKept(before, after) && RowsTouched(before, after, k)
    ensures SameTaskRows(before, after, k)
  {
    forall i | 0 <= i < |before| ensures before[i].task == Some(k) <==> after[i].task == Some(k) {
      assert Evolves(before[i], after[i]);
    }
  }

  // ---- what the owner knows about its rows survives ----

  lemma SameAttemptRows(a: seq<Agent>, c: seq<Agent>, k: Key, r: nat)
    requires SameTaskRows(a, c, k) && AttemptsOwned(c) && r < |a| && a[r].task == Some(k)
    ensures forall i :: 0 <= i < |c| && IsAttempt(c[i], r) ==> i < |a| && c[i] == a[i]
    ensures forall i :: 0 <= i < |c| && c[i].task == Some(k) ==> i < |a| && c[i] == a[i]
  {
    forall i | 0 <= i < |c| && IsAttempt(c[i], r) ensures i < |a| && c[i] == a[i] {
      assert OwnedAttempt(c, i);
      assert c[r].task == Some(k);
    }
  }

  lemma FreshSurvives(a: seq<Agent>, c: seq<Agent>, k: Key, r: nat, d: nat, f: Digest)
    requires SameTaskRows(a, c, k) && AttemptsOwned(c) && r < |a| && a[r].task == Some(k)
    requires FreshFor(a, k, r, d, f)
    ensures FreshFor(c, k, r, d, f)
  {
    SameAttemptRows(a, c, k, r);
  }

  lemma DistinctSurvives(a: seq<Agent>, c: seq<Agent>, k: Key, r: nat)
    requires SameTaskRows(a, c, k) && AttemptsOwned(c) && r < |a| && a[r].task == Some(k)
    requires DistinctPatches(a, k, r)
    ensures DistinctPatches(c, k, r)
  {
    SameAttemptRows(a, c, k, r);
    forall d: nat | d < |c| && Repaired(c[d], r)
      ensures c[d].output.patchHash.Some? && FreshFor(c, k, r, d, c[d].output.patchHash.value)
    {
      FreshSurvives(a, c, k, r, d, a[d].output.patchHash.value);
    }
  }

  lemma ReadySurvives(a: seq<Agent>, c: seq<Agent>, k: Key)
    requires SameTaskRows(a, c, k) && PatchReady(a, k)
    ensures PatchReady(c, k)
  {
    var p := LatestPatch(a, k, true).value;
    assert IsPatch(c[p], k, true);
    var q := LatestPatch(c, k, true).value;
    assert IsPatch(a[q], k, true);
  }

  lemma WorkingSurvives(a: seq<Agent>, c: seq<Agent>, k: Key, w: nat, kind: AgentKind)
    requires SameTaskRows(a, c, k) && Working(a, k, w, kind)
    ensures Working(c, k, w, kind) && c[w] == a[w]
  {
  }
}
