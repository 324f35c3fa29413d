/** What a clearance for publication has seen, in the fields of the records (app/pull_requests/records.py). */
module PublicationFacts {
  import opened Ordering
  import opened PlanDependencies
  import opened SchedulerState
  import opened Records
  import opened Executions
  import opened TestCommands
  import opened ReviewGate
  import opened ReviewRecords
  import opened PublicationRecords
  import opened RunInvariant
  import opened AgentRows
  import opened GateFacts

  // Record i is the review that started last.
  ghost predicate LastReviewRow(agents: seq<Agent>, i: nat) {
    i < |agents| && agents[i].kind == Review && forall j :: i < j < |agents| ==> agents[j].kind != Review
  }

  // A completed review without error, approved by the model and by the mechanical gate, without a
  // blocking finding, of this evidence and its fingerprint.
  ghost predicate ApprovesEvidence(a: Agent, evidence: Evidence) {
    a.status == AgentCompleted && a.output.error.None? && a.input.evidence == Some(HashOf(evidence))
    && a.output.decision.Some?
    && var d := a.output.decision.value;
       d.approved && d.objections == [] && d.diffHash == evidence.fingerprint
       && d.review.Some? && d.review.value.approved
       && forall i :: 0 <= i < |d.review.value.findings| ==> d.review.value.findings[i] in {Info, Warning}
  }

  lemma {:induction false} LastReviewIs(agents: seq<Agent>, i: nat)
    requires LastReviewRow(agents, i)
    ensures LatestReview(agents) == Some(i)
  {
    if i < |agents| - 1 { LastReviewIs(agents[..|agents| - 1], i); }
  }

  // Publication is cleared exactly if the evidence, taken again from the rows, has no error, and the
  // last review is such an approval of it.
  lemma ClearedExactly(s: Execution, required: seq<string>)
    requires WellFormed(s)
    ensures Check(s, required).Cleared? <==>
      ReviewEvidence(s, required).errors == []
      && exists i: nat :: LastReviewRow(s.agents, i) && ApprovesEvidence(s.agents[i], ReviewEvidence(s, required))
  {
    var evidence := ReviewEvidence(s, required);
    var last := LatestReview(s.agents);
    if last.Some? {
      assert LastReviewRow(s.agents, last.value);
      var decision := s.agents[last.value].output.decision;
      if decision.Some? && decision.value.review.Some? { MildFindings(decision.value.review.value.findings); }
      assert Check(s, required).Cleared? ==> ApprovesEvidence(s.agents[last.value], evidence);
    }
    forall i: nat | LastReviewRow(s.agents, i) ensures last == Some(i) {
      LastReviewIs(s.agents, i);
    }
  }

  // And then every task is completed, and its last test record passes the required commands on its
  // last patch.
  lemma ClearedRows(s: Execution, required: seq<string>, k: Key)
    requires RunInv(s) && Check(s, required).Cleared? && k in s.tasks
    ensures s.tasks[k].status == Completed
    ensures PassedRows(ImplementationAgents(s.agents), k, required)
  {
    CleanRows(s, required, k);
  }

  lemma CleanRows(s: Execution, required: seq<string>, k: Key)
    requires WellFormed(s) && ReviewEvidence(s, required).errors == [] && k in s.tasks
    ensures s.tasks[k].status == Completed && PassedRows(ImplementationAgents(s.agents), k, required)
  {
    KeysLoaded(s);
    PlanKeysAreTasks(s.plan);
    assert k in Elements(PlanKeys(s.plan));
    AcceptedRows(PlanKeys(s.plan), s.tasks, ImplementationAgents(s.agents), required, k);
  }
}
