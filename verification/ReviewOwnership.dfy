/** A running review among others: which of their steps close its record, and what no step changes. */
module ReviewOwnership {
  import opened Ordering
  import opened PlanDependencies
  import opened SchedulerState
  import opened Records
  import opened Transitions
  import opened Executions
  import opened CodingRecords
  import opened TestRecords
  import opened RecoveryRecords
  import opened ReviewGate
  import opened ReviewRecords
  import opened PublicationRecords
  import opened Protocol
  import opened RunInvariant
  import opened AgentRows
  import opened Fencing
  import opened EvidenceChain
  import opened RecoveryOwnership

  ghost predicate RunningReview(s: Execution, id: nat) {
    RunInv(s) && RowsInv(s) && id < |s.agents| && s.agents[id].kind == Review && IsRunning(s.agents[id])
  }

  // What a worker sees in the rows before its step when the step will close review `id`: an
  // interruption, a sweep that stops the run, or a completion of that very review.
  predicate ClosesReview(s: Execution, id: nat, step: Step) {
    match step
    case Stop(cancelled) => !cancelled
    case Sweep(cutoff, idle) => Stale(s, cutoff, idle)
    case FinishReview(matches, _, other, _, _, _) => matches && other == id
    case _ => false
  }

  ghost predicate RowLeft(s: Execution, t: Execution, id: nat) {
    id < |s.agents| <= |t.agents| && t.agents[id] == s.agents[id]
  }

  // That is exact: any other step leaves the record as it is.
  lemma ClosesExactly(s: Execution, id: nat, step: Step)
    requires RunningReview(s, id)
    ensures RowLeft(s, Next(s, step), id) <==> !ClosesReview(s, id, step)
  {
    assert RowFits(s, id);
    if SchedulingStep(step) {
      SchedulingCloses(s, id, step);
      assert Next(s, step) == NextSchedule(s, step);
    } else if CodingStep(step) {
      CodingCloses(s, id, step);
      assert Next(s, step) == NextCoding(s, step);
    } else if TestStep(step) {
      TestCloses(s, id, step);
      assert Next(s, step) == NextTest(s, step);
    } else if RepairStep(step) {
      RepairCloses(s, id, step);
      assert Next(s, step) == NextRepair(s, step);
    } else {
      ReviewCloses(s, id, step);
      assert Next(s, step) == NextReview(s, step);
    }
  }

  lemma SchedulingCloses(s: Execution, id: nat, step: Step)
    requires RunningReview(s, id) && SchedulingStep(step)
    ensures RowLeft(s, NextSchedule(s, step), id) <==> !ClosesReview(s, id, step)
  {
    match step
    case Reconcile => if AdvanceRun(s).Done? { AdvanceFrame(s); }
    case Transition(k, target, summary) =>
      var o := Transitioned(s, k, target, summary);
      if o.Done? && o.value { AdvanceFrame(SetTask(s, k, target, summary)); }
    case Stop(cancelled) => InterruptCloses(s, id, cancelled);
    case Sweep(cutoff, idle) => InterruptCloses(s, id, false);
  }

  lemma InterruptCloses(s: Execution, id: nat, cancelled: bool)
    requires RunningReview(s, id)
    ensures StopLocked(s, cancelled).Done? <==> !cancelled
    ensures !cancelled ==> !RowLeft(s, StopLocked(s, cancelled).state, id)
  {
    assert s.agents[id] in s.agents;
    if !cancelled {
      assert StopLocked(s, cancelled).state.agents[id] != s.agents[id];
    }
  }

  lemma CodingCloses(s: Execution, id: nat, step: Step)
    requires RunningReview(s, id) && CodingStep(step) && s.agents[id].task.None?
    ensures RowLeft(s, NextCoding(s, step), id)
  {
    match step
    case StartCoding(k, matches) =>
      if CodingStarted(s, k, matches).Done? { AdvanceFrame(SetTask(s, k, SchedulerState.Running, CodingInProgress)); }
    case FinishCoding(k, c, success, output) =>
      if CodingFinished(s, k, c, success, output).Done? {
        var u := EndAgent(s, c, if success then AgentCompleted else AgentFailed, output);
        AdvanceFrame(SetTask(u, k, if success then SchedulerState.Running else Failed, if success then PatchApplied else CodingFailed));
      }
  }

  lemma TestCloses(s: Execution, id: nat, step: Step)
    requires RunningReview(s, id) && TestStep(step) && s.agents[id].task.None?
    ensures RowLeft(s, NextTest(s, step), id)
  {
    match step
    case StartTest(k, commands, recovery) =>
    case FinishTest(k, t, report, error, recovery, diffHash) =>
      TestEndLeaves(s, id, k, t, report, error, recovery, diffHash);
  }

  lemma TestEndLeaves(
    s: Execution, id: nat, k: Key, t: nat, report: Report, error: Option<Code>, recovery: Option<nat>, diffHash: Option<Digest>)
    requires RunningReview(s, id) && s.agents[id].task.None?
    ensures RowLeft(s, Committed(s, TestFinished(s, k, t, report, error, recovery, diffHash)), id)
  {
    if TestFinished(s, k, t, report, error, recovery, diffHash).Done? {
      var passed := Passed(report, error);
      var u := EndAgent(s, t, if passed then AgentCompleted else AgentFailed,
                        NO_OUTPUT.(report := Some(report), error := error, diffHash := diffHash));
      if ActiveRecovery(s.agents, k).Some? {
        AdvanceFrame(SetTask(u, k, SchedulerState.Running, if passed then RecoveryTestsPassed else RecoveryPending));
      } else {
        AdvanceFrame(SetTask(u, k, if passed then Completed else Failed, if passed then RequiredTestsPassed else RequiredTestsFailed));
      }
    }
  }

  lemma RepairCloses(s: Execution, id: nat, step: Step)
    requires RunningReview(s, id) && RepairStep(step) && s.agents[id].task.None?
    ensures RowLeft(s, NextRepair(s, step), id)
  {
    if step.EndRecovery? && RecoveryEnd(s, step.owner, step.passed, step.error).Done? {
      var u := EndAgent(s, step.owner, if step.passed then AgentCompleted else AgentFailed,
                        NO_OUTPUT.(error := step.error, attempts := |Attempts(s.agents, step.owner)|));
      AdvanceFrame(SetTask(u, s.agents[step.owner].task.value, if step.passed then Completed else Failed,
                           if step.passed then RequiredTestsPassed else RecoveryEnded(step.error)));
    }
  }

  lemma ReviewCloses(s: Execution, id: nat, step: Step)
    requires RunningReview(s, id) && ReviewStep(step)
    ensures RowLeft(s, NextReview(s, step), id) <==> !ClosesReview(s, id, step)
  {
  }

  // ---- clean evidence ----

  // The evidence was clean when it was taken, and is what it was.
  ghost predicate Frozen(s: Execution, required: seq<string>, seen: Evidence) {
    Quiescent(s) && ReviewEvidence(s, required) == seen
  }

  lemma CleanIsFrozen(s: Execution, required: seq<string>)
    requires RunInv(s) && RowsInv(s) && ReviewEvidence(s, required).errors == []
    ensures Frozen(s, required, ReviewEvidence(s, required))
  {
    CleanEvidence(s, required);
  }

  // Whatever anybody does.
  lemma FrozenNext(s: Execution, step: Step, required: seq<string>, seen: Evidence)
    requires Frozen(s, required, seen)
    ensures Frozen(Next(s, step), required, seen)
  {
    NextQuiescent(s, step);
  }
}
