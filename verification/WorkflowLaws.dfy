/** What holds after every run of one workflow, whoever calls its record service and in whatever order. */
module WorkflowLaws {
  import opened Ordering
  import PlanDependencies
  import opened SchedulerState
  import opened Records
  import opened Executions
  import opened Protocol
  import opened RunInvariant
  import opened Fencing
  import opened Workflow
  import opened WorkflowRuns

  // At most one successful claim per generation, and a token set exactly while a claim is out.
  lemma OneClaimPerGeneration(limit: nat, publish: bool, s: System)
    requires Reachable(limit, publish, s)
    ensures var l := s.ledger;
      (l.row.status == WRunning <==> l.row.token.Some?) && (l.row.token.Some? <==> l.row.lease.Some?)
      && (forall i, j :: 0 <= i < j < |l.issued| ==>
            l.issued[i].claim.generation < l.issued[j].claim.generation && l.issued[i].claim.token != l.issued[j].claim.token)
  {
    ReachableInv(limit, publish, s);
  }

  // The report e of the last claim, live and at its stage, is what has been accepted.
  ghost predicate ReportsLive(l: Ledger, e: Event) {
    e.Reporting? && e.holder < |l.issued| && e.holder == |l.issued| - 1
    && l.row.token == Some(l.issued[e.holder].claim.token) && l.row.stage == l.issued[e.holder].claim.stage
  }

  lemma AcceptedIsLive(limit: nat, s: System, e: Event)
    requires ClaimsInv(s.ledger, limit) && IssuedInv(s.ledger)
    ensures var next := FireLedger(limit, s, e);
      next.closed == s.ledger.closed
      || (ReportsLive(s.ledger, e) && next.closed == s.ledger.closed + [s.ledger.issued[e.holder].claim.token])
  {
  }

  // A report is accepted only from the claim handed out last, while it is live, and once for each claim.
  lemma OnlyTheLiveClaimReports(limit: nat, publish: bool, s: System, e: Event)
    requires Reachable(limit, publish, s)
    ensures var next := FireLedger(limit, s, e);
      Distinct(s.ledger.closed)
      && (next.closed == s.ledger.closed
          || (ReportsLive(s.ledger, e) && next.closed == s.ledger.closed + [s.ledger.issued[e.holder].claim.token]))
  {
    ReachableClaims(limit, publish, s);
    AcceptedIsLive(limit, s, e);
  }

  // The history: a running entry and its one closing entry, again and again, then at most one open
  // running entry or the final cancellation.
  lemma HistoryForm(limit: nat, publish: bool, s: System)
    requires Reachable(limit, publish, s)
    ensures var r := s.ledger.row;
      Pairs(r.history)
      || (r.history != [] && Pairs(r.history[..|r.history| - 1])
          && r.history[|r.history| - 1] in {HistoryEntry(r.stage, WRunning), HistoryEntry(r.stage, WCancelled)})
    ensures var r := s.ledger.row;
      r.status == WRunning || r.status == WCancelled <==> !Pairs(r.history)
  {
    ReachableInv(limit, publish, s);
    var h := s.ledger.row.history;
    if h != [] && Pairs(h[..|h| - 1]) { PairsOdd(h); }
  }

  lemma {:induction false} PairsOdd(h: seq<HistoryEntry>)
    requires h != [] && Pairs(h[..|h| - 1])
    ensures !Pairs(h)
  {
    PairsEven(h[..|h| - 1]);
    if Pairs(h) { PairsEven(h); }
  }

  lemma {:induction false} PairsEven(h: seq<HistoryEntry>)
    requires Pairs(h)
    ensures |h| % 2 == 0
  {
    if h != [] { PairsEven(h[..|h| - 2]); }
  }

  // The completed entries follow STAGES: none skipped, none done again but the implementation,
  // publication only on consent.
  lemma StagesInOrder(limit: nat, publish: bool, s: System)
    requires Reachable(limit, publish, s)
    ensures var r := s.ledger.row;
      var done := CompletedStages(r.history);
      (forall i :: 0 <= i < |done| ==>
         Rank(done[i]) <= Rank(r.stage) && (done[i] == r.stage ==> r.stage == Implement) && (done[i] == Publish ==> publish))
      && (forall i, j :: 0 <= i < j < |done| ==> Rank(done[i]) < Rank(done[j]) || done[i] == done[j] == Implement)
      && (forall t :: Rank(t) < Rank(r.stage) && (t == Publish ==> publish) ==> t in done)
  {
    ReachableRow(limit, publish, s);
    var r := s.ledger.row;
    var done := CompletedStages(r.history);
    forall i | 0 <= i < |done|
      ensures Rank(done[i]) <= Rank(r.stage) && (done[i] == r.stage ==> r.stage == Implement) && (done[i] == Publish ==> publish)
    {
      WalkAscends(done, publish, r.stage, i);
    }
    forall i, j | 0 <= i < j < |done| ensures Rank(done[i]) < Rank(done[j]) || done[i] == done[j] == Implement {
      WalkOrdered(done, publish, r.stage, i, j);
    }
    forall t | Rank(t) < Rank(r.stage) && (t == Publish ==> publish) ensures t in done {
      WalkPasses(done, publish, r.stage, t);
    }
  }

  lemma {:induction false} WalkOrdered(done: seq<Stage>, publish: bool, target: Stage, i: nat, j: nat)
    requires WalksTo(done, publish, target) && i < j < |done|
    ensures Rank(done[i]) < Rank(done[j]) || done[i] == done[j] == Implement
  {
    if j == |done| - 1 {
      WalkAscends(done[..j], publish, done[j], i);
    } else {
      WalkOrdered(done[..|done| - 1], publish, done[|done| - 1], i, j);
    }
  }

  // A completed workflow has done every stage up to the review, and published on consent only.
  lemma CompletedWorkflow(limit: nat, publish: bool, s: System)
    requires Reachable(limit, publish, s) && s.ledger.row.status == WCompleted
    ensures forall t :: Rank(t) <= Rank(ReviewStage) ==> t in CompletedStages(s.ledger.row.history)
    ensures Publish in CompletedStages(s.ledger.row.history) <==> publish
  {
    CompletedIsDone(limit, publish, s);
    StagesInOrder(limit, publish, s);
  }

  // Its execution is complete, an approved review has seen the diff of the last test, and with consent
  // the journal is closed with a pull request for such a diff.
  lemma CompletedEvidence(limit: nat, publish: bool, s: System)
    requires Reachable(limit, publish, s) && s.ledger.row.status == WCompleted
    ensures RunComplete(s.run) && ReviewBacked(s.run) && (publish ==> PublicationBacked(s.run))
  {
    CompletedIsDone(limit, publish, s);
    ReachableLink(limit, publish, s);
  }

  lemma CompletedIsDone(limit: nat, publish: bool, s: System)
    requires Reachable(limit, publish, s) && s.ledger.row.status == WCompleted
    ensures s.ledger.row.stage == StagesDone
  {
    ReachableRow(limit, publish, s);
  }

  // The checkpoint keys that a stage reads (app/orchestration/workflow_stages.py).
  function Reads(s: Stage): set<Checkpoint> {
    match s
    case Repository => {}
    case Sync => {RepositoryId}
    case Index => {RepositoryId, SourceCommit}
    case Embed => {RepositoryId, SourceCommit}
    case IssueImport => {RepositoryId}
    case Context => {RepositoryId, SourceCommit, IssueId}
    case Plan => {RepositoryId, IssueId, IssueContext}
    case ExecutionSetup => {RepositoryId, IssueId, IssueContext, PlanId}
    case Workspace => {RepositoryId, SourceCommit, IssueId, IssueContext, ExecutionId}
    case _ => {RepositoryId, IssueId, IssueContext, ExecutionId, RequiredCommands}
  }

  // Whatever a claimed stage reads from the checkpoint is there.
  lemma KeysAreThere(limit: nat, publish: bool, s: System)
    requires Reachable(limit, publish, s)
    ensures Reads(s.ledger.row.stage) <= s.ledger.row.data && (ExecutionId in s.ledger.row.data ==> s.run.Some?)
  {
    ReachableRow(limit, publish, s);
    ReachableRun(limit, publish, s);
    ReadsEarlierKeys(s.ledger.row.stage);
  }

  lemma ReadsEarlierKeys(s: Stage)
    ensures forall key :: key in Reads(s) && key != RequiredCommands ==>
      Producer(key).Some? && Rank(Producer(key).value) < Rank(s) && key != PullRequestUrl
  {
  }

  ghost function PlanSize(run: Option<Execution>): nat {
    if run.None? then 0 else |run.value.tasks|
  }

  lemma CompletedAtMost(run: Option<Execution>)
    ensures |CompletedTasks(run)| <= PlanSize(run)
  {
    if run.Some? {
      SubsetSize(CompletedTasks(run), run.value.tasks.Keys);
      assert |run.value.tasks.Keys| == |run.value.tasks|;
    }
  }

  // With `limit` attempts for each stage and n plan tasks, a workflow is claimed at most
  // limit * (12 + n) times, and while it waits it has attempts left.
  lemma GlobalBound(limit: nat, publish: bool, s: System)
    requires Reachable(limit, publish, s)
    ensures |s.ledger.issued| <= limit * (12 + PlanSize(s.run))
      && (s.ledger.row.status == WPending ==> s.ledger.row.attempts < limit)
  {
    ReachableRow(limit, publish, s);
    ReachableRun(limit, publish, s);
    var r := s.ledger.row;
    var done := CompletedStages(r.history);
    WalkLength(done, r.publish, r.stage);
    CompletedAtMost(s.run);
    Spent(limit, |done|, r.attempts, 12 + PlanSize(s.run));
  }

  lemma {:induction false} Scale(a: nat, x: nat, y: nat)
    requires x <= y
    ensures a * x <= a * y
  {
    if x < y {
      Scale(a, x, y - 1);
      assert a * y == a * (y - 1) + a;
    }
  }

  lemma Spent(limit: nat, done: nat, attempts: nat, total: nat)
    requires attempts <= limit && (done < total || (done == total && attempts == 0))
    ensures limit * done + attempts <= limit * total
  {
    if done < total {
      Scale(limit, done + 1, total);
      assert limit * (done + 1) == limit * done + limit;
    }
  }

  // ---- interrupted workflows ----

  lemma {:induction false} QuietForever(limit: nat, publish: bool, s: System, later: seq<Event>)
    requires Reachable(limit, publish, s) && s.run.Some? && Quiescent(s.run.value)
    ensures var t := FiredFrom(limit, s, later);
      Reachable(limit, publish, t) && t.run.Some? && Quiescent(t.run.value) && SameWork(s.run.value, t.run.value)
  {
    if later != [] {
      var u := FiredFrom(limit, s, later[..|later| - 1]);
      QuietForever(limit, publish, s, later[..|later| - 1]);
      ReachableInv(limit, publish, u);
      FireKeeps(limit, u, later[|later| - 1]);
      ReachableNext(limit, publish, u, later[|later| - 1]);
    }
  }

  // The cancellation of a workflow, or the sweep of an expired lease on a stage that changes sources.
  ghost predicate Interrupts(s: System, e: Event) {
    ExecutionId in s.ledger.row.data
    && ((e.Cancelling? && Cancellable(s.ledger.row) && !StopRefused(s))
        || (e.Sweeping? && Expired(s.ledger.row, e.now) && ChangesSource(s.ledger.row.stage)))
  }

  lemma StoppedQuiet(s: System, cancelled: bool)
    requires RunOk(s.run) && ExecutionId in s.ledger.row.data && s.run.Some?
    requires StopLocked(s.run.value, cancelled).Done?
    ensures Stopped(s, cancelled).Some? && Quiescent(Stopped(s, cancelled).value)
  {
    StopQuiesces(s.run.value, cancelled);
  }

  lemma InterruptQuiesces(s: System, e: Event)
    requires RunOk(s.run) && s.run.Some? && Interrupts(s, e)
    ensures FireOther(s, e).Some? && Quiescent(FireOther(s, e).value)
  {
    StoppedQuiet(s, e.Cancelling?);
  }

  // Either leaves the linked execution finished, with nothing at work on it, and whatever happens
  // later its tasks and implementation records stay as the interruption left them.
  lemma InterruptedForGood(limit: nat, publish: bool, s: System, e: Event, later: seq<Event>)
    requires Reachable(limit, publish, s) && Interrupts(s, e)
    ensures var halted := Fire(limit, s, e);
      var t := FiredFrom(limit, halted, later);
      halted.run.Some? && t.run.Some? && Quiescent(t.run.value) && SameWork(halted.run.value, t.run.value)
      && !AnyTaskRunning(t.run.value.tasks)
  {
    ReachableRun(limit, publish, s);
    InterruptQuiesces(s, e);
    ReachableNext(limit, publish, s, e);
    QuietForever(limit, publish, Fire(limit, s, e), later);
    RunInvMeans(FiredFrom(limit, Fire(limit, s, e), later).run.value);
  }
}
