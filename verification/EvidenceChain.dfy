/** From a publication back to its evidence: the approved review, the last test, and the finished run. */
module EvidenceChain {
  import opened Ordering
  import opened PlanDependencies
  import opened SchedulerState
  import opened Records
  import opened Executions
  import opened CodingRecords
  import opened TestRecords
  import opened RecoveryRecords
  import opened ReviewGate
  import opened ReviewRecords
  import opened PublicationRecords
  import opened Protocol
  import opened RunInvariant
  import opened AgentRows
  import opened Fencing
  import opened GateCompleteness

  ghost predicate ApprovedFor(agents: seq<Agent>, review: nat, diffHash: Digest) {
    review < |agents| && agents[review].kind == Review && agents[review].status == AgentCompleted
    && agents[review].output.decision.Some?
    && var d := agents[review].output.decision.value;
       d.approved && d.objections == [] && d.diffHash == Some(diffHash)
       && d.review.Some? && d.review.value.approved && Blocking !in d.review.value.findings
  }

  // The chronologically last test of the run left this fingerprint.
  ghost predicate LastTested(s: Execution, diffHash: Digest) {
    exists i: nat :: IsLastTest(ImplementationAgents(s.agents), PlanKeys(s.plan), i)
      && ImplementationAgents(s.agents)[i].output.diffHash == Some(diffHash)
  }

  // The run is over with every task completed; the diff is the one its last test and the approved
  // review have seen.
  ghost predicate Chained(s: Execution, review: nat, diffHash: Digest) {
    Quiescent(s) && s.status == RunCompleted && ApprovedFor(s.agents, review, diffHash) && LastTested(s, diffHash)
  }

  lemma LastTestOfProved(keys: seq<Key>, tasks: map<Key, Task>, impl: seq<Agent>, required: seq<string>) returns (i: nat)
    requires keys != [] && (forall k :: k in keys ==> k in tasks)
    requires AllObjections(keys, tasks, impl, ExpectedCommands(required)) == []
    ensures IsLastTest(impl, keys, i)
  {
    NoObjectionIffProved(keys, tasks, impl, ExpectedCommands(required));
    assert TaskProved(keys[0], tasks[keys[0]], impl, ExpectedCommands(required));
    assert LatestCheck(impl, keys[0]).value in impl && IsCheck(LatestCheck(impl, keys[0]).value, keys[0]);
    i := LastTestExists(impl, keys);
  }

  lemma ImplementationQuiet(s: Execution)
    requires RunInv(s) && RowsInv(s) && s.status == RunCompleted && !AnyRunning(ImplementationAgents(s.agents))
    ensures Quiescent(s)
  {
    FilteredMembers(s.agents);
    forall i | 0 <= i < |s.agents| && Implements(s.agents[i].kind) ensures !IsRunning(s.agents[i]) {
      assert s.agents[i] in s.agents;
    }
  }

  // What a clean verdict on the loaded tasks means for the rows.
  lemma CleanEvidence(s: Execution, required: seq<string>)
    requires RunInv(s) && RowsInv(s) && ReviewEvidence(s, required).errors == []
    ensures Quiescent(s) && s.status == RunCompleted
    ensures ReviewEvidence(s, required).fingerprint.Some?
    ensures LastTested(s, ReviewEvidence(s, required).fingerprint.value)
  {
    KeysLoaded(s);
    var keys, impl := PlanKeys(s.plan), ImplementationAgents(s.agents);
    PlanKeysAreTasks(s.plan);
    RunInvMeans(s);
    assert keys != [] by {
      var k :| k in s.tasks;
      assert k in Elements(keys);
    }
    var i := LastTestOfProved(keys, s.tasks, impl, required);
    AcceptedMeans(keys, s.tasks, impl, required, i);
    ImplementationQuiet(s);
  }

  // Clearance rests on the chain: one diff hash, shared by an approved review and the last test.
  lemma ClearedIsChained(s: Execution, required: seq<string>)
    requires RunInv(s) && RowsInv(s) && Check(s, required).Cleared?
    ensures var c := Check(s, required);
      c.decision.diffHash.Some? && Chained(s, c.review, c.decision.diffHash.value)
  {
    CleanEvidence(s, required);
  }

  lemma ChainKept(s: Execution, t: Execution, review: nat, diffHash: Digest)
    requires Chained(s, review, diffHash) && Quiescent(t) && SameWork(s, t) && RowsKept(s.agents, t.agents)
    ensures Chained(t, review, diffHash)
  {
    assert Evolves(s.agents[review], t.agents[review]);
  }

  lemma ChainNext(s: Execution, step: Step, review: nat, diffHash: Digest)
    requires Chained(s, review, diffHash)
    ensures Chained(Next(s, step), review, diffHash)
  {
    NextQuiescent(s, step);
    NextRows(s, step);
    ChainKept(s, Next(s, step), review, diffHash);
  }

  // And it holds ever after: what was cleared once keeps its evidence through every later run.
  lemma {:induction false} ChainForever(s: Execution, later: seq<Step>, review: nat, diffHash: Digest)
    requires Chained(s, review, diffHash)
    ensures Chained(After(s, later), review, diffHash)
  {
    if later != [] {
      ChainForever(s, later[..|later| - 1], review, diffHash);
      ChainNext(After(s, later[..|later| - 1]), later[|later| - 1], review, diffHash);
    }
  }

  // ---- up to the published pull request ----

  // Journal j is closed with its pull request, and publishes a diff with its evidence.
  ghost predicate ReleasedAt(s: Execution, j: nat) {
    j < |s.agents| && s.agents[j].kind == PullRequest && s.agents[j].status == AgentCompleted
    && s.agents[j].output.pullRequest.Some? && s.agents[j].input.publication.Some?
    && Chained(s, s.agents[j].input.publication.value.review, s.agents[j].input.publication.value.diffHash)
  }

  // A closed row with its pull request: written again only by the publication itself.
  ghost predicate ClosedJournal(agents: seq<Agent>, j: nat) {
    j < |agents| && agents[j].kind == PullRequest && agents[j].status == AgentCompleted
    && agents[j].output.pullRequest.Some?
  }

  lemma SchedulingKeepsJournal(s: Execution, step: Step, j: nat)
    requires RunInv(s) && SchedulingStep(step) && ClosedJournal(s.agents, j)
    ensures ClosedJournal(NextSchedule(s, step).agents, j)
  {
    match step
    case Reconcile => if AdvanceRun(s).Done? { AdvanceFrame(s); }
    case Transition(k, target, summary) =>
      var o := Transitioned(s, k, target, summary);
      if o.Done? && o.value { AdvanceFrame(SetTask(s, k, target, summary)); }
    case _ =>
  }

  lemma WorkKeepsJournal(s: Execution, step: Step, j: nat)
    requires WellFormed(s) && (CodingStep(step) || TestStep(step)) && ClosedJournal(s.agents, j)
    ensures ClosedJournal((if CodingStep(step) then NextCoding(s, step) else NextTest(s, step)).agents, j)
  {
    match step
    case StartCoding(k, matches) =>
      if CodingStarted(s, k, matches).Done? { AdvanceFrame(SetTask(s, k, SchedulerState.Running, CodingInProgress)); }
    case FinishCoding(k, id, success, output) =>
      if CodingFinished(s, k, id, success, output).Done? {
        var u := EndAgent(s, id, if success then AgentCompleted else AgentFailed, output);
        AdvanceFrame(SetTask(u, k, if success then SchedulerState.Running else Failed, if success then PatchApplied else CodingFailed));
      }
    case StartTest(k, commands, recovery) =>
    case FinishTest(k, id, report, error, recovery, diffHash) =>
      TestEndKeepsJournal(s, k, id, report, error, recovery, diffHash, j);
  }

  lemma TestEndKeepsJournal(
    s: Execution, k: Key, id: nat, report: Report, error: Option<Code>, recovery: Option<nat>, diffHash: Option<Digest>, j: nat)
    requires WellFormed(s) && ClosedJournal(s.agents, j)
    ensures ClosedJournal(Committed(s, TestFinished(s, k, id, report, error, recovery, diffHash)).agents, j)
  {
    if TestFinished(s, k, id, report, error, recovery, diffHash).Done? {
      var passed := Passed(report, error);
      var u := EndAgent(s, id, if passed then AgentCompleted else AgentFailed,
                        NO_OUTPUT.(report := Some(report), error := error, diffHash := diffHash));
      if ActiveRecovery(s.agents, k).Some? {
        AdvanceFrame(SetTask(u, k, SchedulerState.Running, if passed then RecoveryTestsPassed else RecoveryPending));
      } else {
        AdvanceFrame(SetTask(u, k, if passed then Completed else Failed, if passed then RequiredTestsPassed else RequiredTestsFailed));
      }
    }
  }

  lemma RepairKeepsJournal(s: Execution, step: Step, j: nat)
    requires WellFormed(s) && RepairStep(step) && ClosedJournal(s.agents, j)
    ensures ClosedJournal(NextRepair(s, step).agents, j)
  {
    if step.EndRecovery? && RecoveryEnd(s, step.owner, step.passed, step.error).Done? {
      var u := EndAgent(s, step.owner, if step.passed then AgentCompleted else AgentFailed,
                        NO_OUTPUT.(error := step.error, attempts := |Attempts(s.agents, step.owner)|));
      AdvanceFrame(SetTask(u, s.agents[step.owner].task.value, if step.passed then Completed else Failed,
                           if step.passed then RequiredTestsPassed else RecoveryEnded(step.error)));
    }
  }

  lemma ReviewKeepsJournal(s: Execution, step: Step, j: nat)
    requires WellFormed(s) && ReviewStep(step) && ClosedJournal(s.agents, j)
    ensures ClosedJournal(NextReview(s, step).agents, j)
  {
  }

  lemma NextKeepsJournal(s: Execution, step: Step, j: nat)
    requires RunInv(s) && ClosedJournal(s.agents, j)
    ensures ClosedJournal(Next(s, step).agents, j)
  {
    if SchedulingStep(step) { SchedulingKeepsJournal(s, step, j); }
    else if CodingStep(step) || TestStep(step) { WorkKeepsJournal(s, step, j); }
    else if RepairStep(step) { RepairKeepsJournal(s, step, j); }
    else { ReviewKeepsJournal(s, step, j); }
  }

  // Once released, always released: no step reopens the journal or takes its evidence away.
  lemma ReleasedNext(s: Execution, step: Step, j: nat)
    requires ReleasedAt(s, j)
    ensures ReleasedAt(Next(s, step), j)
  {
    var p := s.agents[j].input.publication.value;
    NextKeepsJournal(s, step, j);
    NextRows(s, step);
    ChainNext(s, step, p.review, p.diffHash);
    assert Evolves(s.agents[j], Next(s, step).agents[j]);
  }
}
