/** The coding, testing and repair protocol of one task, read off its rows. */
module TaskPhases {
  import opened Ordering
  import opened PlanDependencies
  import opened SchedulerState
  import opened Records
  import opened Transitions
  import opened Executions
  import opened CodingRecords
  import opened TestRecords
  import opened RecoveryRecords
  import opened ReviewGate
  import opened ReviewRecords
  import opened PublicationRecords
  import opened Protocol
  import opened RunInvariant
  import opened AgentRows

  type Argvs = set<seq<string>>

  predicate Works(a: Agent, k: Key) {
    a.task == Some(k) && (a.kind == Coding || a.kind == Debug || a.kind == Test)
  }

  ghost predicate Untouched(agents: seq<Agent>, k: Key) {
    forall i :: 0 <= i < |agents| ==> !Works(agents[i], k)
  }

  ghost predicate Idle(agents: seq<Agent>, k: Key) {
    forall i :: 0 <= i < |agents| && Works(agents[i], k) ==> !IsRunning(agents[i])
  }

  // The one running worker of the task is also the last that started.
  ghost predicate SoleWorker(agents: seq<Agent>, k: Key, w: nat, kind: AgentKind) {
    w < |agents| && Works(agents[w], k) && IsRunning(agents[w]) && agents[w].kind == kind
    && (forall i :: 0 <= i < |agents| && i != w && Works(agents[i], k) ==> !IsRunning(agents[i]))
    && forall i :: w < i < |agents| ==> !Works(agents[i], k)
  }

  ghost predicate LastPatch(agents: seq<Agent>, k: Key, p: nat) {
    p < |agents| && IsPatch(agents[p], k, true) && agents[p].completed.Some?
    && forall j :: p < j < |agents| ==> !IsPatch(agents[j], k, true)
  }

  ghost predicate LastCheck(agents: seq<Agent>, k: Key, t: nat) {
    t < |agents| && IsCheck(agents[t], k) && forall j :: t < j < |agents| ==> !IsCheck(agents[j], k)
  }

  // Test t was charged to patch p and started after it was applied.
  ghost predicate Covers(agents: seq<Agent>, t: nat, p: nat) {
    t < |agents| && p < |agents| && agents[t].input.patch == Some(p) && agents[p].id == p
    && agents[p].completed.Some? && agents[t].started >= agents[p].completed.value
  }

  predicate PassesAll(report: Report, expected: Argvs) {
    report.passed && report.results != [] && RunsExactly(report, expected)
    && forall r | r in report.results :: r.exitCode == Some(0) && !r.timeout && r.passed
  }

  predicate GoodCheck(a: Agent, expected: Argvs) {
    a.status == AgentCompleted && a.output.error.None? && a.output.diffHash.Some?
    && a.output.report.Some? && PassesAll(a.output.report.value, expected)
  }

  ghost predicate Proved(agents: seq<Agent>, k: Key, expected: Argvs) {
    exists t: nat, p: nat :: LastCheck(agents, k, t) && LastPatch(agents, k, p) && Covers(agents, t, p) && GoodCheck(agents[t], expected)
  }

  ghost predicate DebugOwned(agents: seq<Agent>, k: Key) {
    (exists i :: 0 <= i < |agents| && agents[i].task == Some(k) && agents[i].kind == Debug)
      ==> ActiveRecovery(agents, k).Some?
  }

  // What the rows of task k look like in each state of the task.
  ghost predicate Phase(task: Task, agents: seq<Agent>, k: Key, expected: Argvs) {
    match task.status
    case Pending => Untouched(agents, k)
    case Queued => Untouched(agents, k)
    case Running =>
      DebugOwned(agents, k)
      && (match task.summary
          case CodingInProgress => exists w :: SoleWorker(agents, k, w, Coding)
          case PatchApplied => Idle(agents, k) && exists p :: LastPatch(agents, k, p)
          case TestsRunning =>
            exists t, p :: SoleWorker(agents, k, t, Test) && LastPatch(agents, k, p) && Covers(agents, t, p)
          case RecoveryPending => Idle(agents, k)
          case DebugRunning => exists w :: SoleWorker(agents, k, w, Debug)
          case RecoveryTestsPassed => Idle(agents, k) && Proved(agents, k, expected)
          case _ => false)
    case Completed => Idle(agents, k) && ActiveRecovery(agents, k).None? && Proved(agents, k, expected)
    case _ => true
  }

  ghost predicate AllPhases(tasks: map<Key, Task>, agents: seq<Agent>, expected: Argvs) {
    forall k {:trigger Phase(tasks[k], agents, k, expected)} :: k in tasks ==> Phase(tasks[k], agents, k, expected)
  }

  ghost predicate PhasesInv(s: Execution, expected: Argvs) {
    RunInv(s) && RowsInv(s) && AllPhases(s.tasks, s.agents, expected)
  }

  // What workers are trusted with: they pass back the ids they were given, a passing test report is
  // one that ran exactly the expected commands successfully on a fingerprinted workspace, and nobody
  // forces a task state from outside the protocol.
  ghost predicate Honest(s: Execution, expected: Argvs, step: Step) {
    match step
    case Transition(_, _, _) => false
    case FinishCoding(_, id, _, _) => HasKind(s, id, Coding)
    case FinishTest(_, id, report, error, _, diffHash) =>
      HasKind(s, id, Test) && (Passed(report, error) ==> PassesAll(report, expected) && diffHash.Some?)
    case ClaimDebug(owner) => HasKind(s, owner, Recovery)
    case ReservePatch(owner, _, _) => HasKind(s, owner, Recovery)
    case FinishDebug(owner, id, _) => HasKind(s, owner, Recovery) && HasKind(s, id, Debug)
    case EndRecovery(owner, _, _) => HasKind(s, owner, Recovery)
    case FinishReview(_, _, id, _, _, _) => HasKind(s, id, Review)
    case _ => true
  }

  predicate HasKind(s: Execution, id: nat, kind: AgentKind) {
    id < |s.agents| ==> s.agents[id].kind == kind
  }

  // ---- tasks that a step does not work on ----

  // The rows of task k are the same, at the same places.
  ghost predicate SameTaskRows(before: seq<Agent>, after: seq<Agent>, k: Key) {
    |before| <= |after|
    && (forall i :: 0 <= i < |before| ==> (before[i].task == Some(k) <==> after[i].task == Some(k)))
    && (forall i :: 0 <= i < |before| && before[i].task == Some(k) ==> after[i] == before[i])
    && forall i :: |before| <= i < |after| ==> after[i].task != Some(k)
  }

  lemma SameActive(before: seq<Agent>, after: seq<Agent>, k: Key)
    requires SameTaskRows(before, after, k)
    ensures ActiveRecovery(before, k).Some? <==> ActiveRecovery(after, k).Some?
  {
    if ActiveRecovery(before, k).Some? {
      var r := ActiveRecovery(before, k).value;
      assert IsActiveRecovery(after[r], k);
    }
    if ActiveRecovery(after, k).Some? {
      var r := ActiveRecovery(after, k).value;
      assert IsActiveRecovery(before[r], k);
    }
  }

  lemma SameSoleWorker(before: seq<Agent>, after: seq<Agent>, k: Key, w: nat, kind: AgentKind)
    requires SameTaskRows(before, after, k) && SoleWorker(before, k, w, kind)
    ensures SoleWorker(after, k, w, kind)
  {
  }

  lemma SameLasts(before: seq<Agent>, after: seq<Agent>, k: Key)
    requires SameTaskRows(before, after, k)
    ensures forall p :: LastPatch(before, k, p) ==> LastPatch(after, k, p)
    ensures forall t :: LastCheck(before, k, t) ==> LastCheck(after, k, t)
  {
  }

  lemma SameCovers(before: seq<Agent>, after: seq<Agent>, k: Key, t: nat, p: nat)
    requires SameTaskRows(before, after, k) && Covers(before, t, p)
    requires before[t].task == Some(k) && before[p].task == Some(k)
    ensures Covers(after, t, p)
  {
  }

  lemma SameProved(before: seq<Agent>, after: seq<Agent>, k: Key, expected: Argvs)
    requires SameTaskRows(before, after, k) && Proved(before, k, expected)
    ensures Proved(after, k, expected)
  {
    var t: nat, p: nat :| LastCheck(before, k, t) && LastPatch(before, k, p) && Covers(before, t, p) && GoodCheck(before[t], expected);
    SameLasts(before, after, k);
    SameCovers(before, after, k, t, p);
  }

  lemma ElsewhereRunning(task: Task, before: seq<Agent>, after: seq<Agent>, k: Key, expected: Argvs)
    requires Phase(task, before, k, expected) && SameTaskRows(before, after, k) && task.status == SchedulerState.Running
    ensures Phase(task, after, k, expected)
  {
    SameActive(before, after, k);
    SameLasts(before, after, k);
    match task.summary {
      case CodingInProgress =>
        var w :| SoleWorker(before, k, w, Coding);
        SameSoleWorker(before, after, k, w, Coding);
      case PatchApplied =>
        var p :| LastPatch(before, k, p);
        assert LastPatch(after, k, p);
      case TestsRunning =>
        var t, p :| SoleWorker(before, k, t, Test) && LastPatch(before, k, p) && Covers(before, t, p);
        SameSoleWorker(before, after, k, t, Test);
        SameCovers(before, after, k, t, p);
      case RecoveryPending =>
      case DebugRunning =>
        var w :| SoleWorker(before, k, w, Debug);
        SameSoleWorker(before, after, k, w, Debug);
      case RecoveryTestsPassed =>
        SameProved(before, after, k, expected);
    }
  }

  // A task with the same rows keeps its phase, also when the pass releases or blocks it.
  lemma Elsewhere(task: Task, next: Task, before: seq<Agent>, after: seq<Agent>, k: Key, expected: Argvs)
    requires Phase(task, before, k, expected) && SameTaskRows(before, after, k)
    requires next == task || (task.status == Pending && next.status in {Pending, Queued, Blocked})
    ensures Phase(next, after, k, expected)
  {
    if task.status == SchedulerState.Running {
      ElsewhereRunning(task, before, after, k, expected);
    } else if task.status == Completed {
      SameActive(before, after, k);
      SameProved(before, after, k, expected);
    }
  }

  lemma UnchangedRows(agents: seq<Agent>, k: Key)
    ensures SameTaskRows(agents, agents, k)
  {
  }

  // ---- the phases a worker moves its task through ----

  lemma StartedCoding(agents: seq<Agent>, a: Agent, k: Key, expected: Argvs)
    requires Untouched(agents, k) && a.task == Some(k) && a.kind == Coding && IsRunning(a)
    ensures Phase(Task(SchedulerState.Running, CodingInProgress), agents + [a], k, expected)
  {
    assert SoleWorker(agents + [a], k, |agents|, Coding);
  }

  // The sole worker ends; nothing else of the task changes.
  lemma EndedWorker(agents: seq<Agent>, k: Key, w: nat, kind: AgentKind, b: Agent)
    requires SoleWorker(agents, k, w, kind)
    requires b.task == agents[w].task && b.kind == kind && b.status != AgentRunning && b.id == agents[w].id
    requires kind != Recovery
    ensures Idle(agents[w := b], k)
    ensures ActiveRecovery(agents[w := b], k).Some? <==> ActiveRecovery(agents, k).Some?
    ensures DebugOwned(agents, k) ==> DebugOwned(agents[w := b], k)
    ensures kind != Test && b.status == AgentCompleted && b.completed.Some? ==> LastPatch(agents[w := b], k, w)
    ensures kind == Test ==> LastCheck(agents[w := b], k, w)
    ensures forall p :: kind == Test && LastPatch(agents, k, p) ==> LastPatch(agents[w := b], k, p)
  {
    var after := agents[w := b];
    if ActiveRecovery(agents, k).Some? {
      assert IsActiveRecovery(after[ActiveRecovery(agents, k).value], k);
    }
    if ActiveRecovery(after, k).Some? {
      assert IsActiveRecovery(agents[ActiveRecovery(after, k).value], k);
    }
    if DebugOwned(agents, k) && exists i :: 0 <= i < |after| && after[i].task == Some(k) && after[i].kind == Debug {
      var i :| 0 <= i < |after| && after[i].task == Some(k) && after[i].kind == Debug;
      assert agents[i].task == Some(k) && agents[i].kind == Debug;
    }
  }

  // The only running worker is the one with that id.
  lemma SoleIs(agents: seq<Agent>, k: Key, w: nat, kind: AgentKind, id: nat)
    requires SoleWorker(agents, k, w, kind) && id < |agents| && Works(agents[id], k) && IsRunning(agents[id])
    ensures id == w
  {
  }

  // The patch the test is charged to is the latest one applied, with or without a recovery.
  lemma ChargedPatch(agents: seq<Agent>, k: Key, p: nat)
    requires LastPatch(agents, k, p) && DebugOwned(agents, k)
    ensures LatestPatch(agents, k, ActiveRecovery(agents, k).Some?) == Some(p)
  {
    var withDebug := ActiveRecovery(agents, k).Some?;
    if agents[p].kind == Debug {
      assert withDebug;
    }
    assert IsPatch(agents[p], k, withDebug);
    var r := LatestPatch(agents, k, withDebug);
    assert IsPatch(agents[r.value], k, true);
  }

  lemma StartedTest(agents: seq<Agent>, a: Agent, k: Key, p: nat, expected: Argvs)
    requires Idle(agents, k) && LastPatch(agents, k, p) && DebugOwned(agents, k) && agents[p].id == p
    requires a.task == Some(k) && a.kind == Test && IsRunning(a) && a.input.patch == Some(p)
    requires a.started >= agents[p].completed.value
    ensures Phase(Task(SchedulerState.Running, TestsRunning), agents + [a], k, expected)
  {
    var after := agents + [a];
    assert SoleWorker(after, k, |agents|, Test) && LastPatch(after, k, p) && Covers(after, |agents|, p);
    OwnedAppend(agents, a, k);
  }

  lemma OwnedAppend(agents: seq<Agent>, a: Agent, k: Key)
    requires DebugOwned(agents, k)
    requires a.task == Some(k) && a.kind == Debug ==> ActiveRecovery(agents, k).Some?
    ensures DebugOwned(agents + [a], k)
  {
    var after := agents + [a];
    if ActiveRecovery(agents, k).Some? {
      assert IsActiveRecovery(after[ActiveRecovery(agents, k).value], k);
    }
    if exists i :: 0 <= i < |after| && after[i].task == Some(k) && after[i].kind == Debug {
      var i :| 0 <= i < |after| && after[i].task == Some(k) && after[i].kind == Debug;
      assert i < |agents| ==> agents[i].task == Some(k) && agents[i].kind == Debug;
    }
  }

  lemma StartedDebug(agents: seq<Agent>, a: Agent, k: Key, expected: Argvs)
    requires Idle(agents, k) && DebugOwned(agents, k) && ActiveRecovery(agents, k).Some?
    requires a.task == Some(k) && a.kind == Debug && IsRunning(a)
    ensures Phase(Task(SchedulerState.Running, DebugRunning), agents + [a], k, expected)
  {
    assert SoleWorker(agents + [a], k, |agents|, Debug);
    OwnedAppend(agents, a, k);
  }

  lemma EndedTest(agents: seq<Agent>, k: Key, w: nat, p: nat, b: Agent, expected: Argvs)
    requires SoleWorker(agents, k, w, Test) && LastPatch(agents, k, p) && Covers(agents, w, p)
    requires b.task == agents[w].task && b.kind == Test && b.id == agents[w].id && b.input == agents[w].input
    requires b.started == agents[w].started && GoodCheck(b, expected)
    ensures Proved(agents[w := b], k, expected)
  {
    EndedWorker(agents, k, w, Test, b);
    var after := agents[w := b];
    assert LastCheck(after, k, w) && LastPatch(after, k, p) && Covers(after, w, p) && GoodCheck(after[w], expected);
  }

  // ---- one step on one task ----

  // What a scheduling pass may do to a task that the step is not about.
  predicate Drifts(a: Task, b: Task) {
    b == a || (a.status == Pending && b.status in {Pending, Queued, Blocked})
  }

  ghost predicate OthersDrift(before: map<Key, Task>, after: map<Key, Task>, k: Key) {
    after.Keys == before.Keys && forall j :: j in before && j != k ==> Drifts(before[j], after[j])
  }

  lemma AppendPhases(
    before: map<Key, Task>, after: map<Key, Task>, agents: seq<Agent>, a: Agent, k: Key, expected: Argvs)
    requires AllPhases(before, agents, expected) && OthersDrift(before, after, k) && a.task == Some(k)
    requires k in after && Phase(after[k], agents + [a], k, expected)
    ensures AllPhases(after, agents + [a], expected)
  {
    forall j | j in after ensures Phase(after[j], agents + [a], j, expected) {
      if j != k {
        assert Phase(before[j], agents, j, expected);
        Elsewhere(before[j], after[j], agents, agents + [a], j, expected);
      }
    }
  }

  lemma ChangePhases(
    before: map<Key, Task>, after: map<Key, Task>, agents: seq<Agent>, id: nat, b: Agent, k: Key, expected: Argvs)
    requires AllPhases(before, agents, expected) && OthersDrift(before, after, k)
    requires id < |agents| && b.task == agents[id].task == Some(k)
    requires k in after && Phase(after[k], agents[id := b], k, expected)
    ensures AllPhases(after, agents[id := b], expected)
  {
    forall j | j in after ensures Phase(after[j], agents[id := b], j, expected) {
      if j != k {
        assert Phase(before[j], agents, j, expected);
        Elsewhere(before[j], after[j], agents, agents[id := b], j, expected);
      }
    }
  }

  // A running worker of a running task is the sole one, and the phase is the one of its kind.
  lemma RunningWorker(task: Task, agents: seq<Agent>, k: Key, id: nat, expected: Argvs)
    requires Phase(task, agents, k, expected) && task.status == SchedulerState.Running
    requires id < |agents| && Works(agents[id], k) && IsRunning(agents[id])
    ensures SoleWorker(agents, k, id, agents[id].kind)
    ensures agents[id].kind == Coding ==> task.summary == CodingInProgress
    ensures agents[id].kind == Test ==> task.summary == TestsRunning
    ensures agents[id].kind == Debug ==> task.summary == DebugRunning
  {
    match task.summary {
      case CodingInProgress =>
        var w :| SoleWorker(agents, k, w, Coding);
      case TestsRunning =>
        var t: nat, p: nat :| SoleWorker(agents, k, t, Test) && LastPatch(agents, k, p) && Covers(agents, t, p);
      case DebugRunning =>
        var w :| SoleWorker(agents, k, w, Debug);
      case _ =>
    }
  }

  lemma FinishedTest(agents: seq<Agent>, k: Key, id: nat, b: Agent, passed: bool, expected: Argvs)
    requires Phase(Task(SchedulerState.Running, TestsRunning), agents, k, expected)
    requires id < |agents| && agents[id].kind == Test && agents[id].task == Some(k) && IsRunning(agents[id])
    requires Evolves(agents[id], b) && !IsRunning(b) && (passed ==> GoodCheck(b, expected))
    ensures ActiveRecovery(agents, k).Some? ==>
      Phase(Task(SchedulerState.Running, if passed then RecoveryTestsPassed else RecoveryPending),
            agents[id := b], k, expected)
    ensures ActiveRecovery(agents, k).None? ==>
      Phase(Task(if passed then Completed else Failed, if passed then RequiredTestsPassed else RequiredTestsFailed),
            agents[id := b], k, expected)
  {
    var task := Task(SchedulerState.Running, TestsRunning);
    RunningWorker(task, agents, k, id, expected);
    EndedWorker(agents, k, id, Test, b);
    if passed {
      var t: nat, p: nat :| SoleWorker(agents, k, t, Test) && LastPatch(agents, k, p) && Covers(agents, t, p);
      SoleIs(agents, k, t, Test, id);
      EndedTest(agents, k, t, p, b, expected);
    }
  }

  lemma OpenedRecovery(task: Task, agents: seq<Agent>, a: Agent, k: Key, expected: Argvs)
    requires Phase(task, agents, k, expected) && IsActiveRecovery(a, k)
    requires task.status == Queued || task == Task(SchedulerState.Running, PatchApplied)
    ensures Phase(task, agents + [a], k, expected)
  {
    var after := agents + [a];
    assert IsActiveRecovery(after[|agents|], k);
    if task.status == SchedulerState.Running {
      var p :| LastPatch(agents, k, p);
      assert LastPatch(after, k, p);
    }
  }

  lemma EndedDebug(task: Task, agents: seq<Agent>, k: Key, id: nat, b: Agent, applied: bool, expected: Argvs)
    requires Phase(task, agents, k, expected)
    requires id < |agents| && agents[id].kind == Debug && agents[id].task == Some(k) && IsRunning(agents[id])
    requires Evolves(agents[id], b) && b.status == (if applied then AgentCompleted else AgentFailed) && b.completed.Some?
    ensures Phase(Task(task.status, if applied then PatchApplied else RecoveryPending), agents[id := b], k, expected)
  {
    if task.status == SchedulerState.Running {
      RunningWorker(task, agents, k, id, expected);
      EndedWorker(agents, k, id, Debug, b);
    }
  }

  lemma ReleasedRecovery(agents: seq<Agent>, k: Key, owner: nat, b: Agent, expected: Argvs)
    requires Phase(Task(SchedulerState.Running, RecoveryTestsPassed), agents, k, expected) && OneRecovery(agents)
    requires owner < |agents| && IsActiveRecovery(agents[owner], k) && Evolves(agents[owner], b) && !IsRunning(b)
    ensures Phase(Task(Completed, RequiredTestsPassed), agents[owner := b], k, expected)
  {
    var after := agents[owner := b];
    forall i | 0 <= i < |after| ensures !IsActiveRecovery(after[i], k) {
      assert i != owner ==> !IsActiveRecovery(agents[i], k);
    }
    KeepsProof(agents, k, owner, b, expected);
  }

  // Rewriting a recovery row, or the output of a running worker, leaves the proof in place.
  lemma KeepsProof(agents: seq<Agent>, k: Key, id: nat, b: Agent, expected: Argvs)
    requires Proved(agents, k, expected) && id < |agents| && b.kind == agents[id].kind && b.task == agents[id].task
    requires b.kind == Recovery || (b.kind == Debug && IsRunning(agents[id]) && IsRunning(b))
    ensures Proved(agents[id := b], k, expected)
  {
    var after := agents[id := b];
    var t: nat, p: nat :| LastCheck(agents, k, t) && LastPatch(agents, k, p) && Covers(agents, t, p) && GoodCheck(agents[t], expected);
    assert LastCheck(after, k, t) && LastPatch(after, k, p) && Covers(after, t, p) && GoodCheck(after[t], expected);
  }

  // Writing a fingerprint on a running attempt moves nothing.
  lemma AnnotatedPhase(task: Task, agents: seq<Agent>, k: Key, id: nat, b: Agent, expected: Argvs)
    requires Phase(task, agents, k, expected) && id < |agents| && agents[id].kind == Debug && IsRunning(agents[id])
    requires b == agents[id].(output := b.output)
    ensures Phase(task, agents[id := b], k, expected)
  {
    var after := agents[id := b];
    if task.status == SchedulerState.Running && agents[id].task == Some(k) {
      AnnotatedOwned(agents, k, id, b);
      RunningWorker(task, agents, k, id, expected);
      assert SoleWorker(after, k, id, Debug);
    } else {
      ChangedElsewhere(task, agents, k, id, b, expected);
    }
  }

  lemma ChangedElsewhere(task: Task, agents: seq<Agent>, k: Key, id: nat, b: Agent, expected: Argvs)
    requires Phase(task, agents, k, expected) && id < |agents| && agents[id].kind == Debug && IsRunning(agents[id])
    requires b == agents[id].(output := b.output)
    requires task.status != SchedulerState.Running || agents[id].task != Some(k)
    ensures Phase(task, agents[id := b], k, expected)
  {
    if agents[id].task != Some(k) {
      Elsewhere(task, task, agents, agents[id := b], k, expected);
    }
  }

  lemma AnnotatedOwned(agents: seq<Agent>, k: Key, id: nat, b: Agent)
    requires DebugOwned(agents, k) && id < |agents| && b == agents[id].(output := b.output)
    ensures DebugOwned(agents[id := b], k)
  {
    var after := agents[id := b];
    if exists i :: 0 <= i < |after| && after[i].task == Some(k) && after[i].kind == Debug {
      var i :| 0 <= i < |after| && after[i].task == Some(k) && after[i].kind == Debug;
      assert agents[i].task == Some(k) && agents[i].kind == Debug;
      assert IsActiveRecovery(after[ActiveRecovery(agents, k).value], k);
    }
  }
}
