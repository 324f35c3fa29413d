/** All runs of one workflow: any interleaving of workers, duplicate deliveries, users and the lease sweep. */
module WorkflowRuns {
  import opened Folding
  import opened Ordering
  import PlanDependencies
  import opened SchedulerState
  import opened Records
  import opened Executions
  import opened Protocol
  import opened RunInvariant
  import opened AgentRows
  import opened Fencing
  import opened EvidenceChain
  import opened Runs
  import opened Workflow

  // ---- what the stages produce (app/orchestration/workflow_stages.py) ----

  // The stage that checkpoints a key; the required commands are there from the start.
  function Producer(key: Checkpoint): Option<Stage> {
    match key
    case RequiredCommands => None
    case RepositoryId => Some(Repository)
    case SourceCommit => Some(Sync)
    case IssueId => Some(IssueImport)
    case IssueContext => Some(Context)
    case PlanId => Some(Plan)
    case ExecutionId => Some(ExecutionSetup)
    case PullRequestUrl => Some(Publish)
  }

  function Produces(s: Stage): set<Checkpoint> {
    match s
    case Repository => {RepositoryId}
    case Sync => {SourceCommit}
    case IssueImport => {IssueId}
    case Context => {IssueContext}
    case Plan => {PlanId}
    case ExecutionSetup => {ExecutionId}
    case Publish => {PullRequestUrl}
    case _ => {}
  }

  ghost function CompletedTasks(run: Option<Execution>): set<Key> {
    if run.None? then {} else set k | k in run.value.tasks && run.value.tasks[k].status == Completed
  }

  ghost predicate RunComplete(run: Option<Execution>) {
    run.Some? && run.value.status == RunCompleted
  }

  // An approved review of the diff that the last test of the finished run has seen. Kept folded.
  ghost predicate ReviewBacked(run: Option<Execution>) {
    forall u {:trigger UnfoldLink(u)} :: UnfoldLink(u) ==>
      run.Some? && exists review, diffHash :: Chained(run.value, review, diffHash)
  }

  lemma BackingMeans(run: Option<Execution>)
    ensures ReviewBacked(run) <==> run.Some? && exists review, diffHash :: Chained(run.value, review, diffHash)
  {
    assert UnfoldLink(true);
  }

  // The journal of the run is closed with a pull request for an approved and tested diff. Kept folded.
  ghost predicate PublicationBacked(run: Option<Execution>) {
    forall u {:trigger UnfoldRelease(u)} :: UnfoldRelease(u) ==> run.Some? && exists j :: ReleasedAt(run.value, j)
  }

  lemma ReleaseMeans(run: Option<Execution>)
    ensures PublicationBacked(run) <==> run.Some? && exists j :: ReleasedAt(run.value, j)
  {
    assert UnfoldRelease(true);
  }

  // ---- the system ----

  // A claim as handed out, with the tasks completed at that time.
  datatype Issue = Issue(claim: WorkflowClaim, done: set<Key>)

  // The row, and beside it the claims handed out and the tokens of accepted reports, oldest first.
  datatype Ledger = Ledger(row: WorkflowRow, issued: seq<Issue>, closed: seq<nat>)

  datatype System = System(ledger: Ledger, run: Option<Execution>)

  datatype Event =
    | Claiming(stage: Option<Stage>, generation: Option<nat>, now: nat)
    | Reporting(holder: nat, report: StageReport, now: nat)
    | Resuming
    | Cancelling
    | Sweeping(now: nat)
    | Creating(plan: seq<PlanDependencies.Entry>)
    | Working(step: Step)

  // What a stage may report: exactly its checkpoint keys; a repeat only of the implementation and only
  // after completing one more task since the claim; the end of the implementation only when the run
  // is complete; the review only with an approval that is backed; the publication only with a closed
  // journal.
  ghost predicate Honest(run: Option<Execution>, issue: Issue, report: StageReport) {
    var stage := issue.claim.stage;
    report.Success? ==>
      report.data == Produces(stage)
      && (stage == ExecutionSetup ==> run.Some?)
      && (report.repeat ==> stage == Implement && issue.done < CompletedTasks(run))
      && (stage == Implement && !report.repeat ==> RunComplete(run))
      && (stage == ReviewStage ==> ReviewBacked(run))
      && (stage == Publish ==> PublicationBacked(run))
  }

  ghost function Stopped(s: System, cancelled: bool): Option<Execution> {
    if ExecutionId !in s.ledger.row.data || s.run.None? then s.run
    else Some(Committed(s.run.value, StopLocked(s.run.value, cancelled)))
  }

  ghost predicate StopRefused(s: System) {
    ExecutionId in s.ledger.row.data && s.run.Some? && StopLocked(s.run.value, true).Refused?
  }

  ghost function FireLedger(limit: nat, s: System, e: Event): Ledger {
    var l, r := s.ledger, s.ledger.row;
    match e
    case Claiming(stage, generation, now) =>
      if !Claimable(r, stage, generation, now) then l
      else l.(row := Claimed(r, now),
              issued := l.issued + [Issue(WorkflowClaim(r.claims, r.stage, r.generation), CompletedTasks(s.run))])
    case Reporting(holder, report, now) =>
      if holder >= |l.issued| || !Honest(s.run, l.issued[holder], report) then l
      else
        var c := l.issued[holder].claim;
        if !Live(r, c) || c.stage == StagesDone then l
        else l.(row := Finish(r, c, report, limit, now), closed := l.closed + [c.token])
    case Resuming => if Resumable(r, limit) then l.(row := Resumed(r)) else l
    case Cancelling => if Cancellable(r) && !StopRefused(s) then l.(row := CancelledRow(r)) else l
    case Sweeping(now) => if Expired(r, now) then l.(row := Swept(r)) else l
    case _ => l
  }

  ghost function FireOther(s: System, e: Event): Option<Execution> {
    match e
    case Cancelling => if Cancellable(s.ledger.row) && !StopRefused(s) then Stopped(s, true) else s.run
    case Sweeping(now) =>
      if Expired(s.ledger.row, now) && ChangesSource(s.ledger.row.stage) then Stopped(s, false) else s.run
    case Creating(plan) => if s.run.None? && IsPlan(plan) then Some(Created(plan)) else s.run
    case _ => s.run
  }

  ghost function Worked(run: Option<Execution>, step: Step): Option<Execution> {
    if run.Some? && RunInv(run.value) then Some(Next(run.value, step)) else run
  }

  ghost function FireRun(s: System, e: Event): Option<Execution> {
    if e.Working? then Worked(s.run, e.step) else FireOther(s, e)
  }

  ghost function Fire(limit: nat, s: System, e: Event): System {
    System(FireLedger(limit, s, e), FireRun(s, e))
  }

  ghost function Fired(limit: nat, publish: bool, events: seq<Event>): System {
    if events == [] then System(Ledger(Started(publish), [], []), None)
    else Fire(limit, Fired(limit, publish, events[..|events| - 1]), events[|events| - 1])
  }

  ghost function FiredFrom(limit: nat, s: System, events: seq<Event>): System {
    if events == [] then s else Fire(limit, FiredFrom(limit, s, events[..|events| - 1]), events[|events| - 1])
  }

  // ---- claims, tokens and generations ----

  ghost predicate ClaimsInv(s: Ledger, limit: nat) {
    var r := s.row;
    (r.status == WRunning <==> r.token.Some?) && (r.token.Some? <==> r.lease.Some?)
    && (r.status == WPending ==> r.attempts < limit) && r.attempts <= limit && (r.status == WRunning ==> r.attempts > 0)
    && (r.stage == StagesDone <==> r.status == WCompleted) && (r.stage == StagesDone ==> r.attempts == 0) && (r.stage == Publish ==> r.publish)
    && r.claims == |s.issued| && (r.status == WRunning ==> r.claims > 0 && r.token == Some(r.claims - 1))
    && (r.status == WRunning ==> s.issued[r.claims - 1].claim.stage == r.stage && r.retryAt.None?)
  }

  // Claims are numbered, and generations grow from claim to claim, below `bound`.
  ghost predicate Numbered(issued: seq<Issue>, bound: nat) {
    (forall i :: 0 <= i < |issued| ==>
       issued[i].claim.token == i && issued[i].claim.stage != StagesDone && issued[i].claim.generation < bound)
    && (forall i, j :: 0 <= i < j < |issued| ==> issued[i].claim.generation < issued[j].claim.generation)
  }

  // The generation of the next claim is new: every close of a claim raises it.
  function NextGeneration(r: WorkflowRow): nat {
    if r.status == WRunning then r.generation + 1 else r.generation
  }

  ghost predicate IssuedInv(s: Ledger) {
    Numbered(s.issued, NextGeneration(s.row))
  }

  ghost predicate ClosedInv(s: Ledger) {
    Distinct(s.closed) && (forall t :: t in s.closed ==> t < s.row.claims)
    && (s.row.token.Some? ==> s.row.token.value !in s.closed)
  }

  lemma ClaimsKept(limit: nat, s: System, e: Event)
    requires limit > 0 && ClaimsInv(s.ledger, limit) && IssuedInv(s.ledger)
    ensures ClaimsInv(FireLedger(limit, s, e), limit)
  {
  }

  lemma GenerationsGrow(limit: nat, s: System, e: Event)
    requires ClaimsInv(s.ledger, limit)
    ensures var l := FireLedger(limit, s, e);
      (l.issued == s.ledger.issued && NextGeneration(l.row) >= NextGeneration(s.ledger.row))
      || (e.Claiming? && Claimable(s.ledger.row, e.stage, e.generation, e.now) && NextGeneration(l.row) == NextGeneration(s.ledger.row) + 1
          && l.issued == s.ledger.issued + [Issue(WorkflowClaim(s.ledger.row.claims, s.ledger.row.stage, s.ledger.row.generation), CompletedTasks(s.run))])
  {
  }

  lemma IssuedKept(limit: nat, s: System, e: Event)
    requires ClaimsInv(s.ledger, limit) && IssuedInv(s.ledger)
    ensures IssuedInv(FireLedger(limit, s, e))
  {
    GenerationsGrow(limit, s, e);
  }

  lemma ClosedKept(limit: nat, s: System, e: Event)
    requires ClaimsInv(s.ledger, limit) && ClosedInv(s.ledger)
    ensures ClosedInv(FireLedger(limit, s, e))
  {
  }

  // ---- history ----

  predicate Closes(e: HistoryEntry, start: HistoryEntry) {
    start.status == WRunning && e.stage == start.stage && e.status in {WCompleted, WFailed, WBlocked}
  }

  // A running entry, then its one closing entry, and so on.
  ghost predicate Pairs(h: seq<HistoryEntry>) {
    h == [] || (|h| >= 2 && Pairs(h[..|h| - 2]) && Closes(h[|h| - 1], h[|h| - 2]))
  }

  ghost predicate HistoryInv(r: WorkflowRow) {
    if r.status == WRunning || r.status == WCancelled then
      r.history != [] && Pairs(r.history[..|r.history| - 1]) && r.history[|r.history| - 1] == HistoryEntry(r.stage, r.status)
    else Pairs(r.history)
  }

  lemma PairsClose(h: seq<HistoryEntry>, e: HistoryEntry)
    requires h != [] && Pairs(h[..|h| - 1]) && Closes(e, h[|h| - 1])
    ensures Pairs(h + [e])
  {
    assert (h + [e])[..|h + [e]| - 2] == h[..|h| - 1];
  }

  // The four ways in which an event touches the history.
  ghost predicate Logs(r: WorkflowRow, q: WorkflowRow) {
    (q.history == r.history && q.stage == r.stage
     && (q.status == r.status || (r.status == WFailed && q.status == WPending)))
    || (r.status == WPending && q.status == WRunning && q.stage == r.stage
        && q.history == r.history + [HistoryEntry(r.stage, WRunning)])
    || (r.status == WRunning && q.status != WRunning && q.status != WCancelled
        && exists w :: w in {WCompleted, WFailed, WBlocked} && q.history == r.history + [HistoryEntry(r.stage, w)])
    || (Cancellable(r) && q.status == WCancelled && q.stage == r.stage
        && q.history == r.history + [HistoryEntry(r.stage, WCancelled)])
  }

  lemma EventLogs(limit: nat, s: System, e: Event)
    requires ClaimsInv(s.ledger, limit) && IssuedInv(s.ledger)
    ensures Logs(s.ledger.row, FireLedger(limit, s, e).row)
  {
    var q := FireLedger(limit, s, e).row;
    if s.ledger.row.status == WRunning && q.status != WRunning {
      assert q.history[|q.history| - 1].status in {WCompleted, WFailed, WBlocked};
    }
  }

  lemma HistoryKept(r: WorkflowRow, q: WorkflowRow)
    requires Logs(r, q) && HistoryInv(r)
    ensures HistoryInv(q)
  {
    var h := r.history;
    if q.history != h {
      assert q.history[..|q.history| - 1] == h;
      if r.status == WRunning {
        PairsClose(h, q.history[|h|]);
      }
    }
  }

  // ---- stages ----

  // The stages of the completed entries, oldest first.
  ghost function CompletedStages(h: seq<HistoryEntry>): seq<Stage> {
    if h == [] then []
    else
      var front, last := CompletedStages(h[..|h| - 1]), h[|h| - 1];
      if last.status == WCompleted then front + [last.stage] else front
  }

  // From the first stage to `target`: each stage is followed by the next, or is the implementation
  // and is followed by itself.
  ghost predicate WalksTo(done: seq<Stage>, publish: bool, target: Stage) {
    if done == [] then target == Repository
    else
      var last := done[|done| - 1];
      last != StagesDone && (target == Checkpointed(last, false, publish) || (target == last && last == Implement))
      && WalksTo(done[..|done| - 1], publish, last)
  }

  ghost function Loops(done: seq<Stage>, target: Stage): nat {
    if done == [] then 0
    else
      var last := done[|done| - 1];
      Loops(done[..|done| - 1], last) + if target == last then 1 else 0
  }

  ghost predicate WalkInv(r: WorkflowRow) {
    WalksTo(CompletedStages(r.history), r.publish, r.stage)
  }

  lemma CompletedAppend(h: seq<HistoryEntry>, e: HistoryEntry)
    ensures CompletedStages(h + [e]) == CompletedStages(h) + if e.status == WCompleted then [e.stage] else []
  {
    assert (h + [e])[..|h|] == h;
  }

  ghost predicate Stays(r: WorkflowRow, q: WorkflowRow) {
    CompletedStages(q.history) == CompletedStages(r.history) && q.stage == r.stage && q.data == r.data
    && q.publish == r.publish && q.claims - r.claims == q.attempts - r.attempts
  }

  // The live claim reports success: one more completed stage, its keys, and the checkpoint moves on.
  ghost predicate Advances(run: Option<Execution>, issue: Issue, report: StageReport, r: WorkflowRow, q: WorkflowRow) {
    r.status == WRunning && report.Success? && issue.claim.stage == r.stage && r.stage != StagesDone
    && Honest(run, issue, report)
    && CompletedStages(q.history) == CompletedStages(r.history) + [r.stage]
    && q.stage == Checkpointed(r.stage, report.repeat, r.publish) && q.data == r.data + report.data
    && q.publish == r.publish && q.claims == r.claims && q.attempts == 0 && q.status in {WPending, WCompleted}
  }

  ghost predicate AdvancesBy(s: System, q: WorkflowRow, e: Event) {
    s.ledger.issued != [] && e.Reporting?
    && Advances(s.run, s.ledger.issued[|s.ledger.issued| - 1], e.report, s.ledger.row, q)
  }

  lemma ReportAdvances(limit: nat, s: System, holder: nat, report: StageReport, now: nat)
    requires ClaimsInv(s.ledger, limit) && IssuedInv(s.ledger)
    requires holder < |s.ledger.issued| && Honest(s.run, s.ledger.issued[holder], report)
    requires Live(s.ledger.row, s.ledger.issued[holder].claim)
    ensures var q := Finish(s.ledger.row, s.ledger.issued[holder].claim, report, limit, now);
      Stays(s.ledger.row, q) || AdvancesBy(s, q, Reporting(holder, report, now))
  {
    var c := s.ledger.issued[holder].claim;
    CompletedAppend(s.ledger.row.history, HistoryEntry(c.stage, if report.Failure? then WFailed else WCompleted));
  }

  lemma OthersStay(limit: nat, s: System, e: Event)
    requires ClaimsInv(s.ledger, limit) && !e.Reporting?
    ensures Stays(s.ledger.row, FireLedger(limit, s, e).row)
  {
    var h, q := s.ledger.row.history, FireLedger(limit, s, e).row;
    if |q.history| > |h| {
      CompletedAppend(h, q.history[|h|]);
    }
  }

  // Only an honest report of the live claim moves the checkpoint; only a claim costs an attempt.
  lemma EventAdvances(limit: nat, s: System, e: Event)
    requires ClaimsInv(s.ledger, limit) && IssuedInv(s.ledger)
    ensures var q := FireLedger(limit, s, e).row;
      Stays(s.ledger.row, q) || AdvancesBy(s, q, e)
  {
    if !e.Reporting? {
      OthersStay(limit, s, e);
    } else if FireLedger(limit, s, e) != s.ledger {
      ReportAdvances(limit, s, e.holder, e.report, e.now);
    }
  }

  // ---- the checkpoint ----

  ghost predicate DataInv(r: WorkflowRow) {
    RequiredCommands in r.data
    && forall key :: Producer(key).Some? && Rank(Producer(key).value) < Rank(r.stage) && (key == PullRequestUrl ==> r.publish)
         ==> key in r.data
  }

  lemma WalkKept(s: System, q: WorkflowRow, e: Event)
    requires Stays(s.ledger.row, q) || AdvancesBy(s, q, e)
    requires WalkInv(s.ledger.row)
    ensures WalkInv(q)
  {
    var done := CompletedStages(s.ledger.row.history);
    if !Stays(s.ledger.row, q) {
      assert (done + [s.ledger.row.stage])[..|done|] == done;
    }
  }

  lemma DataKept(s: System, q: WorkflowRow, e: Event)
    requires Stays(s.ledger.row, q) || AdvancesBy(s, q, e)
    requires DataInv(s.ledger.row)
    ensures DataInv(q)
  {
    if !Stays(s.ledger.row, q) {
      ProducedKeys(s.ledger.row.stage);
      FollowingIsNext(s.ledger.row.stage);
    }
  }

  lemma ProducedKeys(s: Stage)
    ensures forall key :: key in Produces(s) <==> Producer(key) == Some(s)
    ensures forall t :: Rank(t) == Rank(s) ==> t == s
  {
  }

  // Every completed walk has passed all earlier stages, except a publication without consent.
  lemma {:induction false} WalkPasses(done: seq<Stage>, publish: bool, target: Stage, s: Stage)
    requires WalksTo(done, publish, target) && Rank(s) < Rank(target) && (s == Publish ==> publish)
    ensures s in done
  {
    var last := done[|done| - 1];
    if s != last {
      FollowingIsNext(last);
      WalkPasses(done[..|done| - 1], publish, last, s);
    }
  }

  // No stage is left behind or done again, other than the implementation.
  lemma {:induction false} WalkAscends(done: seq<Stage>, publish: bool, target: Stage, i: nat)
    requires WalksTo(done, publish, target) && i < |done|
    ensures Rank(done[i]) <= Rank(target) && (Rank(done[i]) == Rank(target) ==> done[i] == Implement)
    ensures done[i] == Publish ==> publish
  {
    var last := done[|done| - 1];
    if i < |done| - 1 {
      WalkAscends(done[..|done| - 1], publish, last, i);
    } else {
      WalkConsents(done[..i], publish, last);
    }
  }

  lemma {:induction false} WalkConsents(done: seq<Stage>, publish: bool, target: Stage)
    requires WalksTo(done, publish, target)
    ensures target == Publish ==> publish
  {
  }

  // ---- the budget ----

  lemma {:induction false} WalkLength(done: seq<Stage>, publish: bool, target: Stage)
    requires WalksTo(done, publish, target)
    ensures |done| <= Rank(target) + Loops(done, target)
  {
    if done != [] {
      WalkLength(done[..|done| - 1], publish, done[|done| - 1]);
    }
  }

  ghost predicate BudgetInv(r: WorkflowRow, limit: nat) {
    r.claims <= limit * |CompletedStages(r.history)| + r.attempts
  }

  lemma BudgetKept(limit: nat, s: System, q: WorkflowRow, e: Event)
    requires Stays(s.ledger.row, q) || AdvancesBy(s, q, e)
    requires BudgetInv(s.ledger.row, limit) && s.ledger.row.attempts <= limit
    ensures BudgetInv(q, limit)
  {
    if !Stays(s.ledger.row, q) {
      var n := |CompletedStages(s.ledger.row.history)|;
      assert limit * (n + 1) == limit * n + limit;
    }
  }

  // The loops taken so far, counted against the tasks that were completed for them.
  ghost predicate LoopsInv(s: System) {
    var r := s.ledger.row;
    var loops := Loops(CompletedStages(r.history), r.stage);
    loops <= |CompletedTasks(s.run)|
    && (r.status == WRunning && s.ledger.issued != [] ==> loops <= |s.ledger.issued[|s.ledger.issued| - 1].done|)
  }

  // A row that starts to run does so under a new claim, which notes the tasks completed by then.
  ghost predicate Hands(s: System, next: System) {
    next.ledger.row.status == WRunning ==>
      next.ledger.issued != []
      && (if s.ledger.row.status == WRunning then next.ledger.issued == s.ledger.issued
          else next.ledger.issued[|next.ledger.issued| - 1].done == CompletedTasks(s.run))
  }

  lemma EventHands(limit: nat, s: System, e: Event, now: Option<Execution>)
    requires ClaimsInv(s.ledger, limit) && IssuedInv(s.ledger)
    ensures Hands(s, System(FireLedger(limit, s, e), now))
  {
  }

  lemma LoopsKept(s: System, e: Event, next: System)
    requires LoopsInv(s) && Hands(s, next)
    requires Stays(s.ledger.row, next.ledger.row) || AdvancesBy(s, next.ledger.row, e)
    requires Moves(s.run, next.run) && (e.Reporting? ==> next.run == s.run)
    ensures LoopsInv(next)
  {
    var r, q := s.ledger.row, next.ledger.row;
    SubsetSize(CompletedTasks(s.run), CompletedTasks(next.run));
    if !Stays(r, q) {
      var done := CompletedStages(r.history);
      assert (done + [r.stage])[..|done|] == done;
      FollowingIsNext(r.stage);
      if e.report.repeat {
        SubsetSize(s.ledger.issued[|s.ledger.issued| - 1].done, CompletedTasks(s.run));
      }
    }
  }

  lemma SubsetSize<T>(a: set<T>, b: set<T>)
    requires a <= b
    ensures |a| <= |b| && (a < b ==> |a| < |b|)
  {
    assert b == a + (b - a);
    if a < b {
      var x :| x in b && x !in a;
      assert x in b - a;
    }
  }

  // ---- the execution beside it ----

  ghost predicate RunOk(run: Option<Execution>) {
    run.Some? ==> RunInv(run.value) && RowsInv(run.value)
  }

  // What no event undoes.
  ghost predicate Moves(was: Option<Execution>, now: Option<Execution>) {
    (was.Some? ==> now.Some? && now.value.plan == was.value.plan)
    && CompletedTasks(was) <= CompletedTasks(now)
    && (RunComplete(was) ==> RunComplete(now)) && (ReviewBacked(was) ==> ReviewBacked(now))
    && (PublicationBacked(was) ==> PublicationBacked(now))
    && (was.Some? && Quiescent(was.value) ==> Quiescent(now.value) && SameWork(was.value, now.value))
  }

  lemma StepMoves(s: Execution, step: Step)
    requires RunInv(s) && RowsInv(s)
    ensures RunOk(Some(Next(s, step))) && Moves(Some(s), Some(Next(s, step)))
  {
    NextKeeps(s, step);
    NextRows(s, step);
    var t := Next(s, step);
    forall k | k in CompletedTasks(Some(s)) ensures k in CompletedTasks(Some(t)) {
      NextKeepsCompleted(s, step, k);
    }
    RunInvMeans(s);
    RunInvMeans(t);
    if s.status == RunCompleted {
      forall k | k in t.tasks ensures t.tasks[k].status == Completed {
        NextKeepsCompleted(s, step, k);
      }
    }
    if Quiescent(s) { NextQuiescent(s, step); }
    BackingKept(s, step);
    ReleaseKept(s, step);
  }

  lemma BackingKept(s: Execution, step: Step)
    requires RunInv(s)
    ensures ReviewBacked(Some(s)) ==> ReviewBacked(Some(Next(s, step)))
  {
    assert UnfoldLink(true);
    if ReviewBacked(Some(s)) {
      var review, diffHash :| Chained(s, review, diffHash);
      ChainNext(s, step, review, diffHash);
    }
  }

  lemma ReleaseKept(s: Execution, step: Step)
    requires RunInv(s)
    ensures PublicationBacked(Some(s)) ==> PublicationBacked(Some(Next(s, step)))
  {
    assert UnfoldRelease(true);
    if PublicationBacked(Some(s)) {
      var j :| ReleasedAt(s, j);
      ReleasedNext(s, step, j);
    }
  }

  lemma StopMoves(s: Execution, cancelled: bool)
    requires RunInv(s) && RowsInv(s)
    ensures RunOk(Some(Committed(s, StopLocked(s, cancelled))))
    ensures Moves(Some(s), Some(Committed(s, StopLocked(s, cancelled))))
  {
    StepMoves(s, Stop(cancelled));
  }

  // What an event does to the execution: nothing, its creation, one step of its protocol or a stop.
  ghost predicate RunMoves(s: System, e: Event, now: Option<Execution>) {
    RunOk(now) && Moves(s.run, now) && (e.Reporting? ==> now == s.run)
    && (e.Cancelling? && Cancellable(s.ledger.row) && !StopRefused(s) && ExecutionId in s.ledger.row.data && s.run.Some? ==>
          now.Some? && Quiescent(now.value))
  }

  lemma WorkMoves(s: System, step: Step)
    requires RunOk(s.run)
    ensures RunMoves(s, Working(step), Worked(s.run, step))
  {
    if s.run.Some? { StepMoves(s.run.value, step); }
  }

  lemma OtherMoves(s: System, e: Event)
    requires RunOk(s.run) && !e.Working?
    ensures RunMoves(s, e, FireOther(s, e))
  {
    if s.run.None? {
      if e.Creating? && IsPlan(e.plan) { CreatedKeeps(e.plan); }
    } else if e.Cancelling? {
      StopMoves(s.run.value, true);
      if ExecutionId in s.ledger.row.data && !StopRefused(s) { StopQuiesces(s.run.value, true); }
    } else if e.Sweeping? {
      StopMoves(s.run.value, false);
    }
  }

  lemma FireMoves(s: System, e: Event)
    requires RunOk(s.run)
    ensures RunMoves(s, e, FireRun(s, e))
  {
    if e.Working? { WorkMoves(s, e.step); } else { OtherMoves(s, e); }
  }

  ghost predicate LinkInv(s: System) {
    (ExecutionId in s.ledger.row.data ==> s.run.Some?)
    && (Rank(s.ledger.row.stage) > Rank(Implement) ==> RunComplete(s.run))
    && (Rank(s.ledger.row.stage) > Rank(ReviewStage) ==> ReviewBacked(s.run))
    && (Rank(s.ledger.row.stage) > Rank(Publish) && s.ledger.row.publish ==> PublicationBacked(s.run))
    && (s.ledger.row.status == WCancelled && ExecutionId in s.ledger.row.data ==> s.run.Some? && Quiescent(s.run.value))
  }

  lemma CancelledBy(limit: nat, s: System, e: Event)
    requires ClaimsInv(s.ledger, limit) && IssuedInv(s.ledger)
    requires s.ledger.row.status != WCancelled && FireLedger(limit, s, e).row.status == WCancelled
    ensures e.Cancelling? && Cancellable(s.ledger.row) && !StopRefused(s)
  {
  }

  lemma LinkKept(s: System, e: Event, next: System)
    requires LinkInv(s) && RunMoves(s, e, next.run)
    requires Stays(s.ledger.row, next.ledger.row) || AdvancesBy(s, next.ledger.row, e)
    requires next.ledger.row.status == WCancelled && s.ledger.row.status != WCancelled ==>
      e.Cancelling? && Cancellable(s.ledger.row) && !StopRefused(s)
    ensures LinkInv(next)
  {
  }

  // ---- every run ----

  ghost predicate WorkflowInv(limit: nat, s: System) {
    var r := s.ledger.row;
    ClaimsInv(s.ledger, limit) && IssuedInv(s.ledger) && ClosedInv(s.ledger) && HistoryInv(r) && WalkInv(r) && DataInv(r)
    && BudgetInv(r, limit) && LoopsInv(s) && RunOk(s.run) && LinkInv(s)
  }

  lemma StartKeeps(limit: nat, publish: bool)
    requires limit > 0
    ensures WorkflowInv(limit, Fired(limit, publish, []))
  {
    var s := System(Ledger(Started(publish), [], []), None);
    assert Fired(limit, publish, []) == s;
    assert CompletedStages(s.ledger.row.history) == [];
  }

  lemma LedgerKept(limit: nat, s: System, e: Event, now: Option<Execution>)
    requires limit > 0 && WorkflowInv(limit, s) && RunMoves(s, e, now)
    ensures WorkflowInv(limit, System(FireLedger(limit, s, e), now))
  {
    var l := FireLedger(limit, s, e);
    var next := System(l, now);
    ClaimsKept(limit, s, e);
    IssuedKept(limit, s, e);
    ClosedKept(limit, s, e);
    EventLogs(limit, s, e);
    EventAdvances(limit, s, e);
    HistoryKept(s.ledger.row, l.row);
    WalkKept(s, l.row, e);
    DataKept(s, l.row, e);
    BudgetKept(limit, s, l.row, e);
    EventHands(limit, s, e, now);
    LoopsKept(s, e, next);
    if s.ledger.row.status != WCancelled && l.row.status == WCancelled { CancelledBy(limit, s, e); }
    LinkKept(s, e, next);
  }

  lemma FireKeeps(limit: nat, s: System, e: Event)
    requires limit > 0 && WorkflowInv(limit, s)
    ensures WorkflowInv(limit, Fire(limit, s, e)) && Moves(s.run, Fire(limit, s, e).run)
  {
    FireMoves(s, e);
    LedgerKept(limit, s, e, FireRun(s, e));
  }

  // A report that was honest when the stage ended is honest whenever it is delivered.
  lemma HonestStays(was: Option<Execution>, now: Option<Execution>, issue: Issue, report: StageReport)
    requires Honest(was, issue, report) && Moves(was, now)
    ensures Honest(now, issue, report)
  {
  }

  lemma MovesTransitive(a: Option<Execution>, b: Option<Execution>, c: Option<Execution>)
    requires Moves(a, b) && Moves(b, c)
    ensures Moves(a, c)
  {
  }

  // So between the end of a stage and the delivery of its report, any events may happen.
  lemma {:induction false} LateReportIsHonest(limit: nat, s: System, events: seq<Event>, issue: Issue, report: StageReport)
    requires limit > 0 && WorkflowInv(limit, s) && Honest(s.run, issue, report)
    ensures var t := FiredFrom(limit, s, events);
      WorkflowInv(limit, t) && Moves(s.run, t.run) && Honest(t.run, issue, report)
  {
    if events == [] {
      StaysPut(s.run);
    } else {
      LateReportIsHonest(limit, s, events[..|events| - 1], issue, report);
      var u := FiredFrom(limit, s, events[..|events| - 1]);
      FireKeeps(limit, u, events[|events| - 1]);
      MovesTransitive(s.run, u.run, Fire(limit, u, events[|events| - 1]).run);
      HonestStays(s.run, Fire(limit, u, events[|events| - 1]).run, issue, report);
    }
  }

  lemma StaysPut(run: Option<Execution>)
    ensures Moves(run, run)
  {
  }

  lemma {:induction false} EveryWorkflow(limit: nat, publish: bool, events: seq<Event>)
    requires limit > 0
    ensures WorkflowInv(limit, Fired(limit, publish, events)) && Fired(limit, publish, events).ledger.row.publish == publish
  {
    if events == [] {
      StartKeeps(limit, publish);
    } else {
      var s := Fired(limit, publish, events[..|events| - 1]);
      EveryWorkflow(limit, publish, events[..|events| - 1]);
      FireKeeps(limit, s, events[|events| - 1]);
      EventAdvances(limit, s, events[|events| - 1]);
    }
  }

  // Some sequence of events leads from the start of the workflow to s. Kept folded.
  ghost predicate Reachable(limit: nat, publish: bool, s: System) {
    limit > 0 && forall u {:trigger UnfoldRow(u)} :: UnfoldRow(u) ==> exists events :: Fired(limit, publish, events) == s
  }

  lemma ReachableInv(limit: nat, publish: bool, s: System)
    requires Reachable(limit, publish, s)
    ensures WorkflowInv(limit, s) && s.ledger.row.publish == publish
  {
    assert UnfoldRow(true);
    var events :| Fired(limit, publish, events) == s;
    EveryWorkflow(limit, publish, events);
  }

  // Its parts, for those who need no more.
  lemma ReachableRow(limit: nat, publish: bool, s: System)
    requires Reachable(limit, publish, s)
    ensures ClaimsInv(s.ledger, limit) && WalkInv(s.ledger.row) && DataInv(s.ledger.row) && BudgetInv(s.ledger.row, limit)
    ensures s.ledger.row.publish == publish
  {
    ReachableInv(limit, publish, s);
  }

  lemma ReachableClaims(limit: nat, publish: bool, s: System)
    requires Reachable(limit, publish, s)
    ensures ClaimsInv(s.ledger, limit) && IssuedInv(s.ledger) && ClosedInv(s.ledger)
  {
    ReachableInv(limit, publish, s);
  }

  lemma ReachableRun(limit: nat, publish: bool, s: System)
    requires Reachable(limit, publish, s)
    ensures RunOk(s.run) && LoopsInv(s) && LinkInv(s)
  {
    ReachableInv(limit, publish, s);
  }

  lemma ReachableLink(limit: nat, publish: bool, s: System)
    requires Reachable(limit, publish, s)
    ensures LinkInv(s) && s.ledger.row.publish == publish
  {
    ReachableInv(limit, publish, s);
  }

  lemma ReachableNext(limit: nat, publish: bool, s: System, e: Event)
    requires Reachable(limit, publish, s)
    ensures Reachable(limit, publish, Fire(limit, s, e))
  {
    assert UnfoldRow(true);
    var events :| Fired(limit, publish, events) == s;
    assert (events + [e])[..|events|] == events;
    assert Fired(limit, publish, events + [e]) == Fire(limit, s, e);
  }
}
