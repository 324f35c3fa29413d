/** Which rows can be reached from which, and what stays true along the way. */
module Runs {
  import opened Folding
  import opened Ordering
  import opened SchedulerState
  import opened Records
  import opened Transitions
  import opened Executions
  import opened CodingRecords
  import opened TestRecords
  import opened RecoveryRecords
  import opened Protocol
  import opened RunInvariant

  // ---- the calls are steps of the protocol ----

  // A step of others, and the rows it met.
  datatype Moment = Moment(rows: Execution, step: Step)

  // Some sequence of steps leads from s to t.
  ghost predicate Reaches(s: Execution, t: Execution) {
    forall u {:trigger UnfoldRun(u)} :: UnfoldRun(u) ==> s == t || (RunInv(s) && exists steps :: After(s, steps) == t)
  }

  lemma {:induction false} AfterConcat(s: Execution, a: seq<Step>, b: seq<Step>)
    requires RunInv(s)
    ensures After(s, a + b) == After(After(s, a), b)
  {
    if b == [] {
      assert a + b == a;
    } else {
      AfterConcat(s, a, b[..|b| - 1]);
      assert (a + b)[..|a + b| - 1] == a + b[..|b| - 1];
    }
  }

  lemma JoinRuns(s: Execution, a: seq<Step>, b: seq<Step>)
    requires RunInv(s)
    ensures Reaches(s, After(After(s, a), b))
  {
    assert UnfoldRun(true);
    AfterConcat(s, a, b);
  }

  lemma ReachesTransitive(s: Execution, t: Execution, u: Execution)
    requires Reaches(s, t) && Reaches(t, u)
    ensures Reaches(s, u)
  {
    assert UnfoldRun(true);
    if s != t && t != u {
      var a :| After(s, a) == t;
      var b :| After(t, b) == u;
      JoinRuns(s, a, b);
    }
  }

  lemma ReachesItself(s: Execution)
    ensures Reaches(s, s)
  {
  }

  lemma ReachesNext(s: Execution, step: Step)
    requires RunInv(s)
    ensures Reaches(s, Next(s, step))
  {
    assert [step][..0] == [];
    assert After(s, [step]) == Next(s, step);
  }

  // Completed tasks stay completed, whatever is done.
  lemma {:induction false} CompletedStays(s: Execution, steps: seq<Step>, k: Key)
    requires RunInv(s) && k in s.tasks && s.tasks[k].status == Completed
    ensures k in After(s, steps).tasks && After(s, steps).tasks[k].status == Completed
  {
    if steps != [] {
      CompletedStays(s, steps[..|steps| - 1], k);
      NextKeepsCompleted(After(s, steps[..|steps| - 1]), steps[|steps| - 1], k);
    }
  }

  lemma MoveKeepsCompleted(s: Execution, j: Key, target: TaskStatus, summary: Summary, k: Key)
    requires WellFormed(s) && j in s.tasks && k in s.tasks && s.tasks[k].status == Completed
    requires MoveTask(s, j, target, summary).Done?
    ensures k in MoveTask(s, j, target, summary).state.tasks
    ensures MoveTask(s, j, target, summary).state.tasks[k].status == Completed
  {
    AdvanceFrame(SetTask(s, j, target, summary));
  }

  lemma NextKeepsCompleted(s: Execution, step: Step, k: Key)
    requires WellFormed(s) && k in s.tasks && s.tasks[k].status == Completed
    ensures k in Next(s, step).tasks && Next(s, step).tasks[k].status == Completed
  {
    if Bookkeeping(step) {
      BookkeepingFrame(s, step);
    } else {
      SchedulingKeepsCompleted(s, step, k);
    }
  }

  lemma SchedulingKeepsCompleted(s: Execution, step: Step, k: Key)
    requires WellFormed(s) && k in s.tasks && s.tasks[k].status == Completed && !Bookkeeping(step)
    ensures k in Next(s, step).tasks && Next(s, step).tasks[k].status == Completed
  {
    match step
    case Reconcile =>
      if AdvanceRun(s).Done? { AdvanceFrame(s); }
    case Transition(j, target, summary) =>
      var o := Transitioned(s, j, target, summary);
      if o.Done? && o.value { MoveKeepsCompleted(s, j, target, summary, k); }
    case Stop(_) =>
    case Sweep(_, _) =>
    case StartCoding(j, matches) =>
      if CodingStarted(s, j, matches).Done? {
        MoveKeepsCompleted(s, j, SchedulerState.Running, CodingInProgress, k);
      }
    case FinishCoding(j, id, success, output) =>
      if CodingFinished(s, j, id, success, output).Done? {
        MoveKeepsCompleted(EndAgent(s, id, if success then AgentCompleted else AgentFailed, output), j,
                           if success then SchedulerState.Running else Failed,
                           if success then PatchApplied else CodingFailed, k);
      }
    case FinishTest(j, id, report, error, recovery, diffHash) =>
      FinishTestKeepsCompleted(s, j, id, report, error, recovery, diffHash, k);
    case EndRecovery(owner, passed, error) =>
      EndRecoveryKeepsCompleted(s, owner, passed, error, k);
  }

  lemma FinishTestKeepsCompleted(
    s: Execution, j: Key, id: nat, report: Report, error: Option<Code>, recovery: Option<nat>, diffHash: Option<Digest>, k: Key)
    requires WellFormed(s) && k in s.tasks && s.tasks[k].status == Completed
    ensures var t := Committed(s, TestFinished(s, j, id, report, error, recovery, diffHash));
      k in t.tasks && t.tasks[k].status == Completed
  {
    if TestFinished(s, j, id, report, error, recovery, diffHash).Done? {
      var passed := Passed(report, error);
      var u := EndAgent(s, id, if passed then AgentCompleted else AgentFailed,
                        NO_OUTPUT.(report := Some(report), error := error, diffHash := diffHash));
      if ActiveRecovery(s.agents, j).Some? {
        MoveKeepsCompleted(u, j, SchedulerState.Running, if passed then RecoveryTestsPassed else RecoveryPending, k);
      } else {
        MoveKeepsCompleted(u, j, if passed then Completed else Failed,
                           if passed then RequiredTestsPassed else RequiredTestsFailed, k);
      }
    }
  }

  lemma EndRecoveryKeepsCompleted(s: Execution, owner: nat, passed: bool, error: Option<Code>, k: Key)
    requires WellFormed(s) && k in s.tasks && s.tasks[k].status == Completed
    ensures var t := Committed(s, RecoveryEnd(s, owner, passed, error));
      k in t.tasks && t.tasks[k].status == Completed
  {
    if RecoveryEnd(s, owner, passed, error).Done? {
      var u := EndAgent(s, owner, if passed then AgentCompleted else AgentFailed,
                        NO_OUTPUT.(error := error, attempts := |Attempts(s.agents, owner)|));
      MoveKeepsCompleted(u, s.agents[owner].task.value, if passed then Completed else Failed,
                         if passed then RequiredTestsPassed else RecoveryEnded(error), k);
    }
  }

  // One lemma for each call, so that nobody else needs to look at the table of steps.
  lemma OpenReaches(s: Execution, k: Key, matches: bool, required: seq<string>, limit: nat)
    requires RunInv(s) && Opened(s, k, matches, required, limit).Done?
    ensures Reaches(s, Opened(s, k, matches, required, limit).state)
  {
    ReachesNext(s, OpenRecovery(k, matches, required, limit));
  }

  lemma TestStartReaches(s: Execution, k: Key, required: seq<string>, owner: Option<nat>)
    requires RunInv(s) && TestStarted(s, k, required, owner).Done?
    ensures Reaches(s, TestStarted(s, k, required, owner).state)
  {
    ReachesNext(s, StartTest(k, required, owner));
  }

  lemma ClaimReaches(s: Execution, r: nat)
    requires RunInv(s) && DebugClaimed(s, r).Done?
    ensures Reaches(s, DebugClaimed(s, r).state)
  {
    ReachesNext(s, ClaimDebug(r));
  }

  lemma ReserveReaches(s: Execution, r: nat, d: nat, f: Digest)
    requires RunInv(s) && PatchReserved(s, r, d, f).Done?
    ensures Reaches(s, PatchReserved(s, r, d, f).state)
  {
    ReachesNext(s, ReservePatch(r, d, f));
  }

  lemma DebugEndReaches(s: Execution, r: nat, d: nat, metadata: DebugMetadata)
    requires RunInv(s) && DebugFinished(s, r, d, metadata).Done?
    ensures Reaches(s, DebugFinished(s, r, d, metadata).state)
  {
    ReachesNext(s, FinishDebug(r, d, metadata));
  }

  lemma EndReaches(s: Execution, r: nat, passed: bool, error: Option<Code>)
    requires RunInv(s) && RecoveryEnd(s, r, passed, error).Done?
    ensures Reaches(s, RecoveryEnd(s, r, passed, error).state)
  {
    ReachesNext(s, EndRecovery(r, passed, error));
  }
}
