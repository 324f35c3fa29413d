/** Review snapshots and their recheck at completion (app/services/review_records.py). */
module ReviewRecords {
  import opened Ordering
  import opened PlanDependencies
  import opened SchedulerState
  import opened Records
  import opened Transitions
  import opened Executions
  import opened ReviewGate

  function PlanKeys(plan: seq<Entry>): seq<Key> {
    seq(|plan|, i requires 0 <= i < |plan| => plan[i].key)
  }

  // The records the gate reads: coding, debug, test and recovery, in order of their start.
  function ImplementationAgents(agents: seq<Agent>): seq<Agent> {
    if agents == [] then []
    else
      var front, last := ImplementationAgents(agents[..|agents| - 1]), agents[|agents| - 1];
      if Implements(last.kind) then front + [last] else front
  }

  lemma {:induction false} PlanKeysAreTasks(plan: seq<Entry>)
    requires IsDict(plan)
    ensures Distinct(PlanKeys(plan)) && Elements(PlanKeys(plan)) == GraphOf(plan).Keys
  {
    GraphOfItems(plan);
    assert forall i :: 0 <= i < |plan| ==> plan[i] in plan;
    forall k | k in GraphOf(plan) ensures k in PlanKeys(plan) {
      var i :| 0 <= i < |plan| && plan[i] == Entry(k, GraphOf(plan)[k]);
      assert PlanKeys(plan)[i] == k;
    }
  }

  // `_load`: what a review of this execution rests on.
  function EvidenceFor(s: Execution, required: seq<string>): Evidence
    requires forall k :: k in PlanKeys(s.plan) ==> k in s.tasks
  {
    var v := Verdict(PlanKeys(s.plan), s.tasks, ImplementationAgents(s.agents), required);
    Evidence(s.tasks, v.evidence, v.errors + (if s.status != RunCompleted then [ExecutionIncomplete] else []),
             v.fingerprint, required)
  }

  lemma KeysLoaded(s: Execution)
    requires WellFormed(s)
    ensures forall k :: k in PlanKeys(s.plan) ==> k in s.tasks
  {
    PlanKeysAreTasks(s.plan);
    assert forall k :: k in PlanKeys(s.plan) ==> k in Elements(PlanKeys(s.plan));
  }

  ghost function ReviewEvidence(s: Execution, required: seq<string>): Evidence
    requires WellFormed(s)
  {
    KeysLoaded(s);
    EvidenceFor(s, required)
  }

  lemma MildFindings(findings: seq<Severity>)
    ensures Blocking !in findings <==> forall i :: 0 <= i < |findings| ==> findings[i] in {Info, Warning}
  {
    forall i | 0 <= i < |findings| ensures findings[i] in findings && findings[i] in {Info, Warning, Blocking} {
      assert findings[i].Info? || findings[i].Warning? || findings[i].Blocking?;
    }
  }

  predicate AnyReviewRunning(agents: seq<Agent>) {
    exists a | a in agents :: a.kind == Review && IsRunning(a)
  }

  ghost function ReviewStarted(s: Execution, matches: bool, required: seq<string>): Outcome<(nat, Evidence)>
    requires WellFormed(s)
  {
    if !matches then Refused(ContextMismatch)
    else if AnyReviewRunning(s.agents) then Refused(ReviewAlreadyRunning)
    else
      var evidence := ReviewEvidence(s, required);
      Done(AddAgent(s, Review, None, NO_INPUT.(evidence := Some(HashOf(evidence)), commands := required)),
           (|s.agents|, evidence))
  }

  // The decision that is stored: objections from the recheck are added, and any of them, or an
  // operational error, withdraws the approval.
  function Rechecked(decision: Decision, same: bool, error: Option<Code>): Decision {
    var objections := decision.objections + (if same then [] else [ExecutionChangedDuringReview]);
    decision.(objections := Dedup(objections), approved := decision.approved && objections == [] && error.None?)
  }

  ghost function ReviewFinished(
    s: Execution, matches: bool, required: seq<string>, id: nat, seen: Evidence, decision: Decision, error: Option<Code>
  ): Outcome<Decision>
    requires WellFormed(s)
  {
    if !matches then Refused(ContextMismatch)
    else if id >= |s.agents| || !IsRunning(s.agents[id]) then Refused(ReviewStateChanged)
    else
      var final := Rechecked(decision, HashOf(ReviewEvidence(s, required)) == HashOf(seen), error);
      Done(EndAgent(s, id, if error.Some? then AgentFailed else AgentCompleted,
                    NO_OUTPUT.(decision := Some(final), error := error)), final)
  }

  class ReviewRecords {
    const store: ExecutionStore

    constructor (store: ExecutionStore)
      ensures this.store == store
    {
      this.store := store;
    }

    method Load(required: seq<string>) returns (evidence: Evidence)
      requires store.Valid()
      ensures evidence == ReviewEvidence(store.View(), required)
    {
      KeysLoaded(store.View());
      var v := TestEvidenceFor(PlanKeys(store.plan), store.tasks, ImplementationAgents(store.agents), required);
      var errors := v.errors;
      if store.status != RunCompleted {
        errors := errors + [ExecutionIncomplete];
      }
      assert errors == v.errors + (if store.status != RunCompleted then [ExecutionIncomplete] else []);
      evidence := Evidence(store.tasks, v.evidence, errors, v.fingerprint, required);
    }

    method Start(matches: bool, required: seq<string>) returns (r: Result<(nat, Evidence)>)
      requires store.Valid()
      modifies store
      ensures store.Valid()
      ensures Commits(r, ReviewStarted(old(store.View()), matches, required), old(store.View()), store.View())
    {
      if !matches {
        return Err(ContextMismatch);
      }
      var evidence := Load(required);
      if AnyReviewRunning(store.agents) {
        return Err(ReviewAlreadyRunning);
      }
      r := Ok((|store.agents|, evidence));
      store.Insert(Review, None, NO_INPUT.(evidence := Some(HashOf(evidence)), commands := required));
    }

    method Finish(
      matches: bool, required: seq<string>, id: nat, seen: Evidence, decision: Decision, error: Option<Code>
    ) returns (r: Result<Decision>)
      requires store.Valid()
      modifies store
      ensures store.Valid()
      ensures Commits(r, ReviewFinished(old(store.View()), matches, required, id, seen, decision, error),
                      old(store.View()), store.View())
    {
      if !matches {
        return Err(ContextMismatch);
      }
      var current := Load(required);
      if id >= |store.agents| || !IsRunning(store.agents[id]) {
        return Err(ReviewStateChanged);
      }
      var objections := decision.objections;
      if HashOf(current) != HashOf(seen) {
        objections := objections + [ExecutionChangedDuringReview];
      }
      var final := decision.(objections := Dedup(objections),
        approved := decision.approved && objections == [] && error.None?);
      assert final == Rechecked(decision, HashOf(current) == HashOf(seen), error) by {
        assert decision.objections + [] == decision.objections;
      }
      store.Close(id, if error.Some? then AgentFailed else AgentCompleted,
                  NO_OUTPUT.(decision := Some(final), error := error));
      r := Ok(final);
    }
  }
}
