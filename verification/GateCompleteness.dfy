/** What the coding, testing and repair protocol leaves behind satisfies the independent gate. */
module GateCompleteness {
  import opened Ordering
  import opened PlanDependencies
  import opened SchedulerState
  import opened Records
  import opened Transitions
  import opened Executions
  import opened TestCommands
  import opened CodingRecords
  import opened TestRecords
  import opened RecoveryRecords
  import opened ReviewGate
  import opened ReviewRecords
  import opened PublicationRecords
  import opened Protocol
  import opened RunInvariant
  import opened AgentRows
  import opened TaskPhases

  // ---- what each step does to the rows of its task, and only to them ----

  lemma MoveFrame(s: Execution, k: Key, target: TaskStatus, summary: Summary)
    requires WellFormed(s) && k in s.tasks && target != Pending && MoveTask(s, k, target, summary).Done?
    ensures var t := MoveTask(s, k, target, summary).state;
      t.agents == s.agents && OthersDrift(s.tasks, t.tasks, k) && k in t.tasks && t.tasks[k] == Task(target, summary)
  {
    AdvanceFrame(SetTask(s, k, target, summary));
  }

  lemma StartCodingPhases(s: Execution, expected: Argvs, k: Key, matches: bool)
    requires WellFormed(s) && AllPhases(s.tasks, s.agents, expected) && CodingStarted(s, k, matches).Done?
    ensures var t := CodingStarted(s, k, matches).state; AllPhases(t.tasks, t.agents, expected)
  {
    var t := CodingStarted(s, k, matches).state;
    MoveFrame(s, k, SchedulerState.Running, CodingInProgress);
    var a := t.agents[|s.agents|];
    assert t.agents == s.agents + [a];
    assert Phase(s.tasks[k], s.agents, k, expected);
    StartedCoding(s.agents, a, k, expected);
    AppendPhases(s.tasks, t.tasks, s.agents, a, k, expected);
  }

  lemma FinishCodingPhases(s: Execution, expected: Argvs, k: Key, id: nat, success: bool, output: Output)
    requires WellFormed(s) && AllPhases(s.tasks, s.agents, expected) && HasKind(s, id, Coding)
    requires CodingFinished(s, k, id, success, output).Done?
    ensures var t := CodingFinished(s, k, id, success, output).state; AllPhases(t.tasks, t.agents, expected)
  {
    var t := CodingFinished(s, k, id, success, output).state;
    var u := EndAgent(s, id, if success then AgentCompleted else AgentFailed, output);
    MoveFrame(u, k, if success then SchedulerState.Running else Failed, if success then PatchApplied else CodingFailed);
    assert Phase(s.tasks[k], s.agents, k, expected);
    RunningWorker(s.tasks[k], s.agents, k, id, expected);
    EndedWorker(s.agents, k, id, Coding, u.agents[id]);
    ChangePhases(s.tasks, t.tasks, s.agents, id, u.agents[id], k, expected);
  }

  lemma StartTestPhases(s: Execution, expected: Argvs, k: Key, commands: seq<string>, recovery: Option<nat>)
    requires RowsInv(s) && AllPhases(s.tasks, s.agents, expected) && TestStarted(s, k, commands, recovery).Done?
    ensures var t := TestStarted(s, k, commands, recovery).state; AllPhases(t.tasks, t.agents, expected)
  {
    var t := TestStarted(s, k, commands, recovery).state;
    var a := t.agents[|s.agents|];
    assert t.agents == s.agents + [a];
    assert Phase(s.tasks[k], s.agents, k, expected);
    var p :| LastPatch(s.agents, k, p);
    ChargedPatch(s.agents, k, p);
    assert RowFits(s, p);
    StartedTest(s.agents, a, k, p, expected);
    AppendPhases(s.tasks, t.tasks, s.agents, a, k, expected);
  }

  lemma FinishTestPhases(
    s: Execution, expected: Argvs, k: Key, id: nat, report: Report, error: Option<Code>, recovery: Option<nat>,
    diffHash: Option<Digest>)
    requires WellFormed(s) && RowsInv(s) && AllPhases(s.tasks, s.agents, expected) && HasKind(s, id, Test)
    requires Passed(report, error) ==> PassesAll(report, expected) && diffHash.Some?
    requires TestFinished(s, k, id, report, error, recovery, diffHash).Done?
    ensures var t := TestFinished(s, k, id, report, error, recovery, diffHash).state;
      AllPhases(t.tasks, t.agents, expected)
  {
    var t := TestFinished(s, k, id, report, error, recovery, diffHash).state;
    var passed := Passed(report, error);
    var u := EndAgent(s, id, if passed then AgentCompleted else AgentFailed,
                      NO_OUTPUT.(report := Some(report), error := error, diffHash := diffHash));
    if ActiveRecovery(s.agents, k).Some? {
      MoveFrame(u, k, SchedulerState.Running, if passed then RecoveryTestsPassed else RecoveryPending);
    } else {
      MoveFrame(u, k, if passed then Completed else Failed, if passed then RequiredTestsPassed else RequiredTestsFailed);
    }
    assert Phase(s.tasks[k], s.agents, k, expected);
    assert RowFits(s, id);
    FinishedTest(s.agents, k, id, u.agents[id], passed, expected);
    ChangePhases(s.tasks, t.tasks, s.agents, id, u.agents[id], k, expected);
  }

  lemma OpenPhases(s: Execution, expected: Argvs, k: Key, matches: bool, commands: seq<string>, limit: nat)
    requires AllPhases(s.tasks, s.agents, expected) && Opened(s, k, matches, commands, limit).Done?
    ensures var t := Opened(s, k, matches, commands, limit).state; AllPhases(t.tasks, t.agents, expected)
  {
    var t := Opened(s, k, matches, commands, limit).state;
    var a := t.agents[|s.agents|];
    assert t.agents == s.agents + [a];
    assert Phase(s.tasks[k], s.agents, k, expected);
    OpenedRecovery(s.tasks[k], s.agents, a, k, expected);
    AppendPhases(s.tasks, t.tasks, s.agents, a, k, expected);
  }

  lemma ClaimPhases(s: Execution, expected: Argvs, owner: nat)
    requires AllPhases(s.tasks, s.agents, expected) && HasKind(s, owner, Recovery) && DebugClaimed(s, owner).Done?
    ensures var t := DebugClaimed(s, owner).state; AllPhases(t.tasks, t.agents, expected)
  {
    var t := DebugClaimed(s, owner).state;
    var k, a := s.agents[owner].task.value, t.agents[|s.agents|];
    assert t.agents == s.agents + [a];
    assert Phase(s.tasks[k], s.agents, k, expected);
    assert IsActiveRecovery(s.agents[owner], k);
    StartedDebug(s.agents, a, k, expected);
    AppendPhases(s.tasks, t.tasks, s.agents, a, k, expected);
  }

  lemma ReservePhases(s: Execution, expected: Argvs, owner: nat, id: nat, fingerprint: Digest)
    requires AllPhases(s.tasks, s.agents, expected) && PatchReserved(s, owner, id, fingerprint).Done?
    ensures var t := PatchReserved(s, owner, id, fingerprint).state; AllPhases(t.tasks, t.agents, expected)
  {
    var t := PatchReserved(s, owner, id, fingerprint).state;
    forall j | j in t.tasks ensures Phase(t.tasks[j], t.agents, j, expected) {
      assert Phase(s.tasks[j], s.agents, j, expected);
      AnnotatedPhase(s.tasks[j], s.agents, j, id, t.agents[id], expected);
    }
  }

  lemma FinishDebugPhases(s: Execution, expected: Argvs, owner: nat, id: nat, metadata: DebugMetadata)
    requires AllPhases(s.tasks, s.agents, expected) && HasKind(s, id, Debug)
    requires RowsInv(s) && DebugFinished(s, owner, id, metadata).Done?
    ensures var t := DebugFinished(s, owner, id, metadata).state; AllPhases(t.tasks, t.agents, expected)
  {
    var t := DebugFinished(s, owner, id, metadata).state;
    var k := s.agents[owner].task.value;
    assert Phase(s.tasks[k], s.agents, k, expected);
    assert RowFits(s, id);
    EndedDebug(s.tasks[k], s.agents, k, id, t.agents[id], metadata.Applied?, expected);
    ChangePhases(s.tasks, t.tasks, s.agents, id, t.agents[id], k, expected);
  }

  lemma EndRecoveryPhases(s: Execution, expected: Argvs, owner: nat, passed: bool, error: Option<Code>)
    requires WellFormed(s) && RowsInv(s) && AllPhases(s.tasks, s.agents, expected) && HasKind(s, owner, Recovery)
    requires RecoveryEnd(s, owner, passed, error).Done?
    ensures var t := RecoveryEnd(s, owner, passed, error).state; AllPhases(t.tasks, t.agents, expected)
  {
    var t := RecoveryEnd(s, owner, passed, error).state;
    var k := s.agents[owner].task.value;
    var u := EndAgent(s, owner, if passed then AgentCompleted else AgentFailed,
                      NO_OUTPUT.(error := error, attempts := |Attempts(s.agents, owner)|));
    MoveFrame(u, k, if passed then Completed else Failed, if passed then RequiredTestsPassed else RecoveryEnded(error));
    assert Phase(s.tasks[k], s.agents, k, expected);
    assert RowFits(s, owner);
    if passed {
      ReleasedRecovery(s.agents, k, owner, u.agents[owner], expected);
    }
    ChangePhases(s.tasks, t.tasks, s.agents, owner, u.agents[owner], k, expected);
  }

  // A stop leaves no task in the middle, and does not touch the rows of a completed one.
  lemma StoppedPhase(s: Execution, expected: Argvs, cancelled: bool, k: Key)
    requires RowsInv(s) && StopLocked(s, cancelled).Done? && k in s.tasks && s.tasks[k].status == Completed
    requires Phase(s.tasks[k], s.agents, k, expected)
    ensures var t := StopLocked(s, cancelled).state; k in t.tasks && Phase(t.tasks[k], t.agents, k, expected)
  {
    var t := StopLocked(s, cancelled).state;
    forall i | 0 <= i < |s.agents| && s.agents[i].task == Some(k) ensures t.agents[i] == s.agents[i] {
      assert RowFits(s, i);
      assert !IsActiveRecovery(s.agents[i], k);
    }
    Elsewhere(s.tasks[k], t.tasks[k], s.agents, t.agents, k, expected);
  }

  predicate Closed(t: Task) {
    t.status != Pending && t.status != Queued && t.status != SchedulerState.Running
  }

  lemma StopPhases(s: Execution, expected: Argvs, cancelled: bool)
    requires RowsInv(s) && AllPhases(s.tasks, s.agents, expected) && StopLocked(s, cancelled).Done?
    requires Finished(s.status) ==> forall k :: k in s.tasks ==> Closed(s.tasks[k])
    ensures var t := StopLocked(s, cancelled).state; AllPhases(t.tasks, t.agents, expected)
  {
    var t := StopLocked(s, cancelled).state;
    forall k | k in t.tasks ensures Phase(t.tasks[k], t.agents, k, expected) {
      assert Closed(t.tasks[k]) && (t.tasks[k].status == Completed ==> s.tasks[k].status == Completed);
      if t.tasks[k].status == Completed {
        assert Phase(s.tasks[k], s.agents, k, expected);
        StoppedPhase(s, expected, cancelled, k);
      }
    }
  }

  lemma StopKeepsPhases(s: Execution, expected: Argvs, cancelled: bool)
    requires PhasesInv(s, expected) && StopLocked(s, cancelled).Done?
    ensures var t := StopLocked(s, cancelled).state; AllPhases(t.tasks, t.agents, expected)
  {
    RunInvMeans(s);
    StopPhases(s, expected, cancelled);
  }

  // Reviews and publication have no task.
  lemma ReviewPhases(s: Execution, expected: Argvs, step: Step)
    requires WellFormed(s) && RowsInv(s) && AllPhases(s.tasks, s.agents, expected)
    requires Honest(s, expected, step) && ReviewStep(step)
    ensures var t := Next(s, step); AllPhases(t.tasks, t.agents, expected)
  {
    var t := Next(s, step);
    ReviewFrame(s, expected, step);
    forall k | k in t.tasks ensures Phase(t.tasks[k], t.agents, k, expected) {
      assert Phase(s.tasks[k], s.agents, k, expected);
      TasklessChange(s, t.agents, k);
      Elsewhere(s.tasks[k], t.tasks[k], s.agents, t.agents, k, expected);
    }
  }

  // Only rows of reviews and the journal differ.
  ghost predicate TasklessOnly(before: seq<Agent>, after: seq<Agent>) {
    |before| <= |after|
    && (forall i :: 0 <= i < |before| ==>
          after[i] == before[i] || (after[i].task == before[i].task && !Implements(before[i].kind)))
    && forall i :: |before| <= i < |after| ==> after[i].task == None
  }

  lemma TasklessChange(s: Execution, after: seq<Agent>, k: Key)
    requires RowsInv(s) && TasklessOnly(s.agents, after)
    ensures SameTaskRows(s.agents, after, k)
  {
    forall i | 0 <= i < |s.agents| ensures !Implements(s.agents[i].kind) ==> s.agents[i].task == None {
      assert RowFits(s, i);
    }
  }

  lemma ReviewFrame(s: Execution, expected: Argvs, step: Step)
    requires WellFormed(s) && Honest(s, expected, step) && ReviewStep(step)
    ensures Next(s, step).tasks == s.tasks && TasklessOnly(s.agents, Next(s, step).agents)
  {
  }

  lemma ReconcilePhases(s: Execution, expected: Argvs)
    requires WellFormed(s) && AllPhases(s.tasks, s.agents, expected) && AdvanceRun(s).Done?
    ensures var t := AdvanceRun(s).state; AllPhases(t.tasks, t.agents, expected)
  {
    AdvanceFrame(s);
    var t := AdvanceRun(s).state;
    forall k | k in t.tasks ensures Phase(t.tasks[k], t.agents, k, expected) {
      assert Phase(s.tasks[k], s.agents, k, expected);
      UnchangedRows(s.agents, k);
      Elsewhere(s.tasks[k], t.tasks[k], s.agents, t.agents, k, expected);
    }
  }

  lemma NextPhases(s: Execution, expected: Argvs, step: Step)
    requires PhasesInv(s, expected) && Honest(s, expected, step)
    ensures PhasesInv(Next(s, step), expected)
  {
    NextKeeps(s, step);
    NextRows(s, step);
    if ReviewStep(step) {
      ReviewPhases(s, expected, step);
    } else {
      WorkPhases(s, expected, step);
    }
  }

  lemma WorkPhases(s: Execution, expected: Argvs, step: Step)
    requires RunInv(s) && RowsInv(s) && AllPhases(s.tasks, s.agents, expected)
    requires Honest(s, expected, step) && !ReviewStep(step)
    ensures AllPhases(Next(s, step).tasks, Next(s, step).agents, expected)
  {
    match step
    case Reconcile =>
      if AdvanceRun(s).Done? { ReconcilePhases(s, expected); }
    case Stop(cancelled) =>
      if StopLocked(s, cancelled).Done? { StopKeepsPhases(s, expected, cancelled); }
    case Sweep(cutoff, idle) =>
      StopKeepsPhases(s, expected, false);
    case StartCoding(k, matches) =>
      if CodingStarted(s, k, matches).Done? { StartCodingPhases(s, expected, k, matches); }
    case FinishCoding(k, id, success, output) =>
      if CodingFinished(s, k, id, success, output).Done? { FinishCodingPhases(s, expected, k, id, success, output); }
    case StartTest(k, commands, recovery) =>
      if TestStarted(s, k, commands, recovery).Done? { StartTestPhases(s, expected, k, commands, recovery); }
    case FinishTest(k, id, report, error, recovery, diffHash) =>
      if TestFinished(s, k, id, report, error, recovery, diffHash).Done? {
        FinishTestPhases(s, expected, k, id, report, error, recovery, diffHash);
      }
    case OpenRecovery(k, matches, commands, limit) =>
      if Opened(s, k, matches, commands, limit).Done? { OpenPhases(s, expected, k, matches, commands, limit); }
    case ClaimDebug(owner) =>
      if DebugClaimed(s, owner).Done? { ClaimPhases(s, expected, owner); }
    case ReservePatch(owner, id, fingerprint) =>
      if PatchReserved(s, owner, id, fingerprint).Done? { ReservePhases(s, expected, owner, id, fingerprint); }
    case FinishDebug(owner, id, metadata) =>
      if DebugFinished(s, owner, id, metadata).Done? { FinishDebugPhases(s, expected, owner, id, metadata); }
    case EndRecovery(owner, passed, error) =>
      if RecoveryEnd(s, owner, passed, error).Done? { EndRecoveryPhases(s, expected, owner, passed, error); }
  }

  // ---- runs of honest workers ----

  ghost predicate HonestRun(s: Execution, expected: Argvs, steps: seq<Step>)
    requires RunInv(s)
  {
    steps == []
    || (HonestRun(s, expected, steps[..|steps| - 1])
        && Honest(After(s, steps[..|steps| - 1]), expected, steps[|steps| - 1]))
  }

  lemma {:induction false} HonestRunKeeps(s: Execution, expected: Argvs, steps: seq<Step>)
    requires PhasesInv(s, expected) && HonestRun(s, expected, steps)
    ensures PhasesInv(After(s, steps), expected)
  {
    if steps != [] {
      HonestRunKeeps(s, expected, steps[..|steps| - 1]);
      NextPhases(After(s, steps[..|steps| - 1]), expected, steps[|steps| - 1]);
    }
  }

  lemma CreatedPhases(plan: seq<Entry>, expected: Argvs)
    requires IsPlan(plan)
    ensures PhasesInv(Created(plan), expected)
  {
    CreatedKeeps(plan);
  }

  // ---- from phases to the verdict ----

  lemma {:induction false} FilteredCheck(agents: seq<Agent>, k: Key, t: nat)
    requires LastCheck(agents, k, t)
    ensures LatestCheck(ImplementationAgents(agents), k) == Some(agents[t])
  {
    var front := agents[..|agents| - 1];
    if t < |front| {
      assert LastCheck(front, k, t);
      FilteredCheck(front, k, t);
      var impl := ImplementationAgents(agents);
      if impl != ImplementationAgents(front) {
        assert impl[..|impl| - 1] == ImplementationAgents(front);
      }
    }
  }

  lemma {:induction false} FilteredPatch(agents: seq<Agent>, k: Key, p: nat)
    requires LastPatch(agents, k, p)
    ensures LatestApplied(ImplementationAgents(agents), k) == Some(agents[p])
  {
    var front := agents[..|agents| - 1];
    if p < |front| {
      assert LastPatch(front, k, p);
      FilteredPatch(front, k, p);
      var impl := ImplementationAgents(agents);
      if impl != ImplementationAgents(front) {
        assert impl[..|impl| - 1] == ImplementationAgents(front);
      }
    }
  }

  lemma {:induction false} FilteredMembers(agents: seq<Agent>)
    ensures forall a :: a in ImplementationAgents(agents) <==> a in agents && Implements(a.kind)
  {
    if agents != [] {
      FilteredMembers(agents[..|agents| - 1]);
      assert agents == agents[..|agents| - 1] + [agents[|agents| - 1]];
    }
  }

  lemma PhaseProves(s: Execution, k: Key, expected: Argvs)
    requires PhasesInv(s, expected) && k in s.tasks && s.tasks[k].status == Completed
    ensures TaskProved(k, s.tasks[k], ImplementationAgents(s.agents), expected)
    ensures LatestCheck(ImplementationAgents(s.agents), k).value.output.diffHash.Some?
  {
    assert Phase(s.tasks[k], s.agents, k, expected);
    var t: nat, p: nat :| LastCheck(s.agents, k, t) && LastPatch(s.agents, k, p) && Covers(s.agents, t, p) && GoodCheck(s.agents[t], expected);
    FilteredCheck(s.agents, k, t);
    FilteredPatch(s.agents, k, p);
  }

  lemma NothingRunning(s: Execution, expected: Argvs)
    requires PhasesInv(s, expected) && s.status == RunCompleted
    ensures !AnyRunning(ImplementationAgents(s.agents))
  {
    RunInvMeans(s);
    FilteredMembers(s.agents);
    forall a | a in ImplementationAgents(s.agents) ensures !IsRunning(a) {
      var i :| 0 <= i < |s.agents| && s.agents[i] == a;
      assert RowFits(s, i);
      var k := a.task.value;
      assert Phase(s.tasks[k], s.agents, k, expected);
      assert !IsActiveRecovery(a, k);
    }
  }

  lemma {:induction false} LastTestExists(agents: seq<Agent>, keys: seq<Key>) returns (i: nat)
    requires exists a, k :: a in agents && k in keys && IsCheck(a, k)
    ensures IsLastTest(agents, keys, i)
  {
    var last := agents[|agents| - 1];
    if exists k :: k in keys && IsCheck(last, k) {
      i := |agents| - 1;
    } else {
      var front := agents[..|agents| - 1];
      var a, k :| a in agents && k in keys && IsCheck(a, k);
      assert agents == front + [last] && a in front;
      i := LastTestExists(front, keys);
    }
  }

  lemma CompletedIsProved(s: Execution, expected: Argvs)
    requires PhasesInv(s, expected) && s.status == RunCompleted
    ensures PlanKeys(s.plan) != []
    ensures forall k :: k in PlanKeys(s.plan) ==> k in s.tasks
    ensures AllProved(PlanKeys(s.plan), s.tasks, ImplementationAgents(s.agents), expected)
    ensures forall k :: k in PlanKeys(s.plan) ==>
      var check := LatestCheck(ImplementationAgents(s.agents), k); check.Some? && check.value.output.diffHash.Some?
  {
    var keys, impl := PlanKeys(s.plan), ImplementationAgents(s.agents);
    KeysLoaded(s);
    RunInvMeans(s);
    GraphOfItems(s.plan);
    forall k | k in keys
      ensures TaskProved(k, s.tasks[k], impl, expected) && LatestCheck(impl, k).value.output.diffHash.Some?
    {
      PhaseProves(s, k, expected);
    }
    assert forall j :: 0 <= j < |keys| ==> keys[j] in keys;
  }

  // The verdict on a completed execution that honest workers produced: no objection, one piece of
  // evidence for each task in plan order, and the fingerprint of the chronologically last test.
  lemma CompletedIsClean(s: Execution, required: seq<string>) returns (i: nat)
    requires Approved(required) && PhasesInv(s, ExpectedCommands(required)) && s.status == RunCompleted
    ensures forall k :: k in PlanKeys(s.plan) ==> k in s.tasks
    ensures IsLastTest(ImplementationAgents(s.agents), PlanKeys(s.plan), i)
    ensures var v := Verdict(PlanKeys(s.plan), s.tasks, ImplementationAgents(s.agents), required);
      v.errors == [] && v.fingerprint.Some?
      && v.fingerprint == ImplementationAgents(s.agents)[i].output.diffHash
      && |v.evidence| == |s.plan|
      && forall j :: 0 <= j < |s.plan| ==> v.evidence[j].task == s.plan[j].key
  {
    var expected := ExpectedCommands(required);
    CompletedIsProved(s, expected);
    NothingRunning(s, expected);
    i := ProvedIsClean(PlanKeys(s.plan), s.tasks, ImplementationAgents(s.agents), required);
  }

  lemma ProvedIsClean(keys: seq<Key>, tasks: map<Key, Task>, impl: seq<Agent>, required: seq<string>) returns (i: nat)
    requires Approved(required) && keys != [] && (forall k :: k in keys ==> k in tasks) && !AnyRunning(impl)
    requires AllProved(keys, tasks, impl, ExpectedCommands(required))
    requires forall k :: k in keys ==> LatestCheck(impl, k).Some? && LatestCheck(impl, k).value.output.diffHash.Some?
    ensures IsLastTest(impl, keys, i)
    ensures var v := Verdict(keys, tasks, impl, required);
      v.errors == [] && v.fingerprint.Some? && v.fingerprint == impl[i].output.diffHash && |v.evidence| == |keys|
      && forall j :: 0 <= j < |keys| ==> v.evidence[j].task == keys[j]
  {
    var expected := ExpectedCommands(required);
    assert keys[0] in keys;
    var first := LatestCheck(impl, keys[0]).value;
    assert first in impl && IsCheck(first, keys[0]);
    i := LastTestExists(impl, keys);
    var k :| k in keys && IsCheck(impl[i], k);
    LatestCheckIs(impl, k, i);
    ProvedHasEvidence(keys, tasks, impl, expected);
    AcceptedMeans(keys, tasks, impl, required, i);
  }

  // Gate completeness, from the creation of the execution on.
  lemma GateAcceptsHonestRuns(plan: seq<Entry>, required: seq<string>, steps: seq<Step>) returns (i: nat)
    requires IsPlan(plan) && Approved(required)
    requires RunInv(Created(plan)) && HonestRun(Created(plan), ExpectedCommands(required), steps)
    requires After(Created(plan), steps).status == RunCompleted
    ensures var s := After(Created(plan), steps);
      && IsLastTest(ImplementationAgents(s.agents), PlanKeys(plan), i)
      && ReviewEvidence(s, required).errors == []
      && ReviewEvidence(s, required).fingerprint == ImplementationAgents(s.agents)[i].output.diffHash
      && ReviewEvidence(s, required).fingerprint.Some?
      && |ReviewEvidence(s, required).tests| == |plan|
      && forall j :: 0 <= j < |plan| ==> ReviewEvidence(s, required).tests[j].task == plan[j].key
  {
    var expected := ExpectedCommands(required);
    CreatedPhases(plan, expected);
    HonestRunKeeps(Created(plan), expected, steps);
    i := CompletedIsClean(After(Created(plan), steps), required);
  }
}
