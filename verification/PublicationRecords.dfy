/** Revalidation of review evidence and the publication journal (app/pull_requests/records.py). */
module PublicationRecords {
  import opened Ordering
  import opened SchedulerState
  import opened Records
  import opened Transitions
  import opened Executions
  import opened ReviewGate
  import opened ReviewRecords

  // The review that started last.
  function LatestReview(agents: seq<Agent>): (r: Option<nat>)
    ensures r.Some? ==> r.value < |agents| && agents[r.value].kind == Review
    ensures r.Some? ==> forall j :: r.value < j < |agents| ==> agents[j].kind != Review
    ensures r.None? ==> forall j :: 0 <= j < |agents| ==> agents[j].kind != Review
  {
    if agents == [] then None
    else if agents[|agents| - 1].kind == Review then Some(|agents| - 1)
    else LatestReview(agents[..|agents| - 1])
  }

  // A stored decision that clears publication: approved by the model and mechanically, on the
  // evidence and the diff that the execution still shows.
  predicate Clears(review: Agent, evidence: Evidence) {
    review.output.decision.Some?
    && var d := review.output.decision.value;
       d.approved && d.objections == [] && d.review.Some? && d.review.value.approved
       && Blocking !in d.review.value.findings
       && review.input.evidence == Some(HashOf(evidence))
       && d.diffHash == evidence.fingerprint
       && review.output.error.None?
  }

  datatype Checked = Cleared(review: nat, decision: Decision) | NotCleared(error: PublicationError)

  ghost function Check(s: Execution, required: seq<string>): Checked
    requires WellFormed(s)
  {
    var evidence := ReviewEvidence(s, required);
    var review := LatestReview(s.agents);
    if evidence.errors != [] || review.None? || s.agents[review.value].status != AgentCompleted then
      NotCleared(RequirementsNotMet)
    else if !Clears(s.agents[review.value], evidence) then NotCleared(ReviewNotApproved)
    else Cleared(review.value, s.agents[review.value].output.decision.value)
  }

  // The journal: the execution's one pull_request record.
  function JournalOf(agents: seq<Agent>): (r: Option<nat>)
    ensures r.Some? ==> r.value < |agents| && agents[r.value].kind == PullRequest
    ensures r.None? ==> forall j :: 0 <= j < |agents| ==> agents[j].kind != PullRequest
  {
    if agents == [] then None
    else if agents[|agents| - 1].kind == PullRequest then Some(|agents| - 1)
    else JournalOf(agents[..|agents| - 1])
  }

  datatype Journaling = Journaled(state: Execution, journal: nat) | Unjournaled(error: PublicationError)

  function Journal(s: Execution, publication: Publication): Journaling {
    var journal := JournalOf(s.agents);
    if journal.None? then
      Journaled(AddAgent(s, PullRequest, None, NO_INPUT.(publication := Some(publication))), |s.agents|)
    else if s.agents[journal.value].input.publication != Some(publication) then Unjournaled(SnapshotChanged)
    else Journaled(s, journal.value)
  }

  datatype PublicationResult = Published(pr: PublishedPR) | NotPublished(error: PublicationError)

  // `record` is the execution's row of the pull_requests table.
  datatype Recording = Recording(state: Execution, record: Option<PublishedPR>, result: PublicationResult)

  function RecordPublished(s: Execution, record: Option<PublishedPR>, journal: nat, remote: PublishedPR): Recording {
    if record.Some? && (record.value.number != remote.number || record.value.url != remote.url) then
      Recording(s, record, NotPublished(PullRequestCollision))
    else if journal >= |s.agents| || !AgentMove(s.agents[journal].kind, s.agents[journal].status, AgentCompleted) then
      Recording(s, record, NotPublished(JournalMissing))
    else
      Recording(EndAgent(s, journal, AgentCompleted, s.agents[journal].output.(pullRequest := Some(remote))),
                Some(remote), Published(remote))
  }

  function RecordFailure(s: Execution, journal: nat, code: PublicationError): Execution
    requires journal < |s.agents|
  {
    var a := s.agents[journal];
    s.(agents := s.agents[journal := a.(
      status := if a.status != AgentCompleted then AgentFailed else a.status,
      output := a.output.(failures := a.output.failures + [code]))])
  }

  class PublicationRecords {
    const store: ExecutionStore
    const reviews: ReviewRecords
    var record: Option<PublishedPR>

    ghost predicate Valid()
      reads this, store
    {
      store.Valid() && reviews.store == store
    }

    constructor (store: ExecutionStore)
      requires store.Valid()
      ensures this.store == store && record == None && Valid()
    {
      this.store := store;
      reviews := new ReviewRecords(store);
      record := None;
    }

    method CheckEvidence(required: seq<string>) returns (r: Checked)
      requires Valid()
      ensures r == Check(store.View(), required)
    {
      var evidence := reviews.Load(required);
      var review := LatestReview(store.agents);
      if evidence.errors != [] || review.None? || store.agents[review.value].status != AgentCompleted {
        return NotCleared(RequirementsNotMet);
      }
      if !Clears(store.agents[review.value], evidence) {
        return NotCleared(ReviewNotApproved);
      }
      r := Cleared(review.value, store.agents[review.value].output.decision.value);
    }

    method WriteJournal(publication: Publication) returns (r: Option<nat>)
      requires Valid()
      modifies store
      ensures Valid()
      ensures match Journal(old(store.View()), publication)
              case Journaled(state, journal) => r == Some(journal) && store.View() == state
              case Unjournaled(_) => r == None && store.View() == old(store.View())
    {
      var journal := JournalOf(store.agents);
      if journal.None? {
        r := Some(|store.agents|);
        store.Insert(PullRequest, None, NO_INPUT.(publication := Some(publication)));
      } else if store.agents[journal.value].input.publication != Some(publication) {
        r := None;
      } else {
        r := journal;
      }
    }

    method Finish(journal: nat, remote: PublishedPR) returns (r: PublicationResult)
      requires Valid()
      modifies this`record, store
      ensures Valid()
      ensures Recording(store.View(), record, r)
        == RecordPublished(old(store.View()), old(record), journal, remote)
    {
      if record.Some? && (record.value.number != remote.number || record.value.url != remote.url) {
        return NotPublished(PullRequestCollision);
      }
      if journal >= |store.agents|
         || !AgentMove(store.agents[journal].kind, store.agents[journal].status, AgentCompleted) {
        return NotPublished(JournalMissing);
      }
      record := Some(remote);
      store.Close(journal, AgentCompleted, store.agents[journal].output.(pullRequest := Some(remote)));
      r := Published(remote);
    }

    method Failed(journal: nat, code: PublicationError) returns (ok: bool)
      requires Valid()
      modifies store
      ensures Valid()
      ensures ok <==> journal < |old(store.agents)|
      ensures store.View() == if ok then RecordFailure(old(store.View()), journal, code) else old(store.View())
    {
      if journal >= |store.agents| {
        return false;
      }
      var output := store.agents[journal].output;
      if store.agents[journal].status != AgentCompleted {
        store.SetAgentStatus(journal, AgentFailed);
      }
      store.Annotate(journal, output.(failures := output.failures + [code]));
      ok := true;
    }
  }
}
