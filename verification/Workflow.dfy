/** The durable workflow row: claims, leases, checkpoints, cancellation (app/orchestration/workflow_records.py). */
module Workflow {
  import opened Folding
  import opened Records
  import opened SchedulerState
  import opened Executions

  datatype Stage =
    | Repository | Sync | Index | Embed | IssueImport | Context | Plan | ExecutionSetup | Workspace
    | Implement | ReviewStage | Publish | StagesDone

  const STAGES: seq<Stage> :=
    [Repository, Sync, Index, Embed, IssueImport, Context, Plan, ExecutionSetup, Workspace,
     Implement, ReviewStage, Publish, StagesDone]

  // Position in STAGES.
  function Rank(s: Stage): nat {
    match s
    case Repository => 0
    case Sync => 1
    case Index => 2
    case Embed => 3
    case IssueImport => 4
    case Context => 5
    case Plan => 6
    case ExecutionSetup => 7
    case Workspace => 8
    case Implement => 9
    case ReviewStage => 10
    case Publish => 11
    case StagesDone => 12
  }

  // The stage after a completed one.
  function Following(s: Stage): Stage
    requires s != StagesDone
  {
    match s
    case Repository => Sync
    case Sync => Index
    case Index => Embed
    case Embed => IssueImport
    case IssueImport => Context
    case Context => Plan
    case Plan => ExecutionSetup
    case ExecutionSetup => Workspace
    case Workspace => Implement
    case Implement => ReviewStage
    case ReviewStage => Publish
    case Publish => StagesDone
  }

  lemma FollowingIsNext(s: Stage)
    ensures Rank(s) < |STAGES| && STAGES[Rank(s)] == s
    ensures s != StagesDone ==> Rank(s) + 1 < |STAGES| && Following(s) == STAGES[Rank(s) + 1]
  {
    match s
    case Repository =>
    case _ =>
  }

  datatype WorkflowStatus = WPending | WRunning | WFailed | WBlocked | WCompleted | WCancelled

  predicate WorkflowEdge(current: WorkflowStatus, target: WorkflowStatus) {
    match current
    case WPending => target == WRunning || target == WCancelled
    case WRunning => target == WPending || target == WFailed || target == WBlocked || target == WCompleted
    case WFailed => target == WPending || target == WCancelled
    case WBlocked => target == WCancelled
    case _ => false
  }

  datatype HistoryEntry = HistoryEntry(stage: Stage, status: WorkflowStatus)

  datatype Checkpoint =
    | RequiredCommands | RepositoryId | SourceCommit | IssueId | IssueContext | PlanId | ExecutionId | PullRequestUrl

  // `failed` says that an error code is set; `claims` counts the tokens handed out, so that the next
  // one is new.
  datatype WorkflowRow = WorkflowRow(
    publish: bool, stage: Stage, status: WorkflowStatus, token: Option<nat>, lease: Option<nat>, generation: nat,
    retryAt: Option<nat>, attempts: nat, failed: bool, history: seq<HistoryEntry>, data: set<Checkpoint>, claims: nat)

  // What `claim` hands to the worker.
  datatype WorkflowClaim = WorkflowClaim(token: nat, stage: Stage, generation: nat)

  const LEASE: nat := 1800

  function Started(publish: bool): WorkflowRow {
    WorkflowRow(publish, Repository, WPending, None, None, 0, None, 0, false, [], {RequiredCommands}, 0)
  }

  // ---- the transactions ----

  predicate Claimable(r: WorkflowRow, stage: Option<Stage>, generation: Option<nat>, now: nat) {
    r.status == WPending && (stage.None? || r.stage == stage.value)
    && (generation.None? || r.generation == generation.value)
    && (r.retryAt.None? || r.retryAt.value <= now)
  }

  function Claimed(r: WorkflowRow, now: nat): WorkflowRow {
    r.(status := WRunning, token := Some(r.claims), retryAt := None, attempts := r.attempts + 1,
       lease := Some(now + LEASE), history := r.history + [HistoryEntry(r.stage, WRunning)], claims := r.claims + 1)
  }

  // How a worker reports its stage: done, to be repeated, or failed.
  datatype StageReport = Success(data: set<Checkpoint>, repeat: bool) | Failure(blocked: bool, retry: Option<nat>)

  predicate Live(r: WorkflowRow, c: WorkflowClaim) {
    r.token == Some(c.token) && r.status == WRunning
  }

  // The claim is given back and its outcome recorded.
  function Released(r: WorkflowRow, c: WorkflowClaim, failed: bool): WorkflowRow {
    r.(token := None, lease := None, generation := r.generation + 1, failed := failed,
       history := r.history + [HistoryEntry(c.stage, if failed then WFailed else WCompleted)])
  }

  function AfterFailure(r: WorkflowRow, blocked: bool, retry: Option<nat>, limit: nat, now: nat): WorkflowRow {
    if !blocked && retry.Some? && r.attempts < limit then r.(status := WPending, retryAt := Some(now + retry.value))
    else r.(status := if blocked then WBlocked else WFailed)
  }

  // The stage checkpointed after a success; publication only on consent.
  function Checkpointed(done: Stage, repeat: bool, publish: bool): Stage
    requires done != StagesDone
  {
    var next := if repeat then done else Following(done);
    if next == Publish && !publish then StagesDone else next
  }

  function AfterSuccess(r: WorkflowRow, done: Stage, data: set<Checkpoint>, repeat: bool): WorkflowRow
    requires done != StagesDone
  {
    var target := Checkpointed(done, repeat, r.publish);
    r.(data := r.data + data, stage := target, status := if target == StagesDone then WCompleted else WPending,
       attempts := 0)
  }

  function Finish(r: WorkflowRow, c: WorkflowClaim, report: StageReport, limit: nat, now: nat): WorkflowRow
    requires c.stage != StagesDone
  {
    var released := Released(r, c, report.Failure?);
    match report
    case Failure(blocked, retry) => AfterFailure(released, blocked, retry, limit, now)
    case Success(data, repeat) => AfterSuccess(released, c.stage, data, repeat)
  }

  predicate Resumable(r: WorkflowRow, limit: nat) {
    r.status == WFailed && r.attempts < limit
  }

  function Resumed(r: WorkflowRow): WorkflowRow {
    r.(status := WPending, failed := false, retryAt := None, generation := r.generation + 1)
  }

  predicate Cancellable(r: WorkflowRow) {
    r.status == WPending || r.status == WFailed || r.status == WBlocked
  }

  function CancelledRow(r: WorkflowRow): WorkflowRow {
    r.(status := WCancelled, generation := r.generation + 1, retryAt := None, failed := true,
       history := r.history + [HistoryEntry(r.stage, WCancelled)])
  }

  predicate Expired(r: WorkflowRow, now: nat) {
    r.status == WRunning && r.lease.Some? && r.lease.value < now
  }

  predicate ChangesSource(s: Stage) {
    s == Implement || s == ReviewStage
  }

  function Swept(r: WorkflowRow): WorkflowRow {
    var status := if ChangesSource(r.stage) then WBlocked else WFailed;
    r.(status := status, generation := r.generation + 1, failed := true, token := None, lease := None,
       history := r.history + [HistoryEntry(r.stage, status)])
  }

  // ---- the record service ----

  datatype WorkflowError = ClaimLost | ResumeNotAllowed | CancelNotAllowed | WorkflowExecutionBusy

  datatype WResult<+T> = WOk(value: T) | WErr(error: WorkflowError)

  class WorkflowRecords {
    const limit: nat
    const publish: bool
    var stage: Stage
    var status: WorkflowStatus
    var token: Option<nat>
    var lease: Option<nat>
    var generation: nat
    var retryAt: Option<nat>
    var attempts: nat
    var failed: bool
    var history: seq<HistoryEntry>
    var data: set<Checkpoint>
    var claims: nat
    // the execution named by the `execution_id` checkpoint
    var execution: ExecutionStore?

    function Row(): WorkflowRow
      reads this
    {
      WorkflowRow(publish, stage, status, token, lease, generation, retryAt, attempts, failed, history, data, claims)
    }

    // The checkpoint names an execution, whose rows are well formed. Kept folded: only the two
    // methods that stop the execution look inside.
    ghost predicate Valid()
      reads this, execution
    {
      (ExecutionId in data ==> execution != null)
      && (execution != null ==> forall u {:trigger UnfoldRow(u)} :: UnfoldRow(u) ==> execution.Valid())
    }

    constructor Start(publish: bool, limit: nat)
      ensures Row() == Started(publish) && this.limit == limit && this.publish == publish && execution == null && Valid()
    {
      this.publish, this.limit := publish, limit;
      stage, status, token, lease, generation, retryAt := Repository, WPending, None, None, 0, None;
      attempts, failed, history, data, claims, execution := 0, false, [], {RequiredCommands}, 0, null;
    }

    method ClaimStage(expectedStage: Option<Stage>, expectedGeneration: Option<nat>, now: nat) returns (c: Option<WorkflowClaim>)
      requires Valid()
      modifies this`status, this`token, this`claims, this`retryAt, this`attempts, this`lease, this`history
      ensures Valid() && execution == old(execution)
      ensures c.Some? <==> Claimable(old(Row()), expectedStage, expectedGeneration, now)
      ensures c.Some? ==> Row() == Claimed(old(Row()), now)
      ensures c.Some? ==> c.value == WorkflowClaim(old(claims), old(stage), old(generation)) && Live(Row(), c.value)
      ensures c.None? ==> Row() == old(Row())
    {
      if !Claimable(Row(), expectedStage, expectedGeneration, now) {
        return None;
      }
      assert WorkflowEdge(status, WRunning);
      c := Some(WorkflowClaim(claims, stage, generation));
      status, token, claims, retryAt := WRunning, Some(claims), claims + 1, None;
      attempts, lease, history := attempts + 1, Some(now + LEASE), history + [HistoryEntry(stage, WRunning)];
    }

    method FinishStage(c: WorkflowClaim, report: StageReport, now: nat) returns (r: WResult<()>)
      requires Valid() && c.stage != StagesDone
      requires report.Success? && ExecutionId in report.data ==> execution != null
      modifies this
      ensures Valid() && execution == old(execution)
      ensures r.WOk? <==> Live(old(Row()), c)
      ensures Row() == if r.WOk? then Finish(old(Row()), c, report, limit, now) else old(Row())
    {
      if token != Some(c.token) || status != WRunning {
        return WErr(ClaimLost);
      }
      Release(c, report.Failure?);
      match report {
        case Failure(blocked, retry) => Fail(blocked, retry, now);
        case Success(more, repeat) => Proceed(c.stage, more, repeat);
      }
      r := WOk(());
    }

    method Release(c: WorkflowClaim, failure: bool)
      modifies this`history, this`failed, this`token, this`lease, this`generation
      ensures Row() == Released(old(Row()), c, failure)
    {
      history := history + [HistoryEntry(c.stage, if failure then WFailed else WCompleted)];
      failed, token, lease := failure, None, None;
      generation := generation + 1;
    }

    method Fail(blocked: bool, retry: Option<nat>, now: nat)
      requires status == WRunning
      modifies this`status, this`retryAt
      ensures Row() == AfterFailure(old(Row()), blocked, retry, limit, now)
    {
      if !blocked && retry.Some? && attempts < limit {
        assert WorkflowEdge(status, WPending);
        status := WPending;
        retryAt := Some(now + retry.value);
      } else {
        assert WorkflowEdge(status, if blocked then WBlocked else WFailed);
        status := if blocked then WBlocked else WFailed;
      }
    }

    method Proceed(done: Stage, more: set<Checkpoint>, repeat: bool)
      requires status == WRunning && done != StagesDone
      modifies this`data, this`stage, this`status, this`attempts
      ensures Row() == AfterSuccess(old(Row()), done, more, repeat)
    {
      data := data + more;
      stage := Checkpointed(done, repeat, publish);
      assert WorkflowEdge(status, if stage == StagesDone then WCompleted else WPending);
      status := if stage == StagesDone then WCompleted else WPending;
      attempts := 0;
    }

    method Resume() returns (r: WResult<()>)
      requires Valid()
      modifies this`status, this`failed, this`retryAt, this`generation
      ensures Valid() && execution == old(execution)
      ensures r.WOk? <==> Resumable(old(Row()), limit) || old(status) == WPending
      ensures Row() == if Resumable(old(Row()), limit) then Resumed(old(Row())) else old(Row())
    {
      if status == WFailed && attempts < limit {
        assert WorkflowEdge(status, WPending);
        status := WPending;
        failed, retryAt := false, None;
        generation := generation + 1;
      } else if status != WPending {
        return WErr(ResumeNotAllowed);
      }
      r := WOk(());
    }

    method Cancel() returns (r: WResult<()>)
      requires Valid()
      modifies this`status, this`generation, this`retryAt, this`failed, this`history, execution
      ensures Valid() && execution == old(execution)
      ensures old(status) == WCancelled ==> r.WOk? && Row() == old(Row())
      ensures !Cancellable(old(Row())) && old(status) != WCancelled ==> r == WErr(CancelNotAllowed)
      ensures r.WErr? ==> Row() == old(Row())
      ensures Cancellable(old(Row())) && ExecutionId !in data ==> r.WOk? && Row() == CancelledRow(old(Row()))
      ensures Cancellable(old(Row())) && ExecutionId in data ==>
        (match StopLocked(old(execution.View()), true)
         case Done(t, _) => r.WOk? && Row() == CancelledRow(old(Row())) && execution.View() == t
         case Refused(_) => r == WErr(WorkflowExecutionBusy) && execution.View() == old(execution.View()))
      ensures execution != null && (!Cancellable(old(Row())) || ExecutionId !in data) ==> execution.View() == old(execution.View())
    {
      if status == WCancelled {
        return WOk(());
      }
      if status != WPending && status != WFailed && status != WBlocked {
        return WErr(CancelNotAllowed);
      }
      if ExecutionId in data {
        assert UnfoldRow(true);
        var stopped := execution.Stop(true);
        if stopped.Err? {
          return WErr(WorkflowExecutionBusy);
        }
      }
      assert WorkflowEdge(status, WCancelled);
      status := WCancelled;
      generation := generation + 1;
      retryAt, failed := None, true;
      history := history + [HistoryEntry(stage, WCancelled)];
      r := WOk(());
    }

    // One row of the lease sweep.
    method Recover(now: nat) returns (swept: bool)
      requires Valid()
      modifies this`status, this`generation, this`failed, this`token, this`lease, this`history, execution
      ensures Valid() && execution == old(execution)
      ensures swept <==> Expired(old(Row()), now)
      ensures Row() == if swept then Swept(old(Row())) else old(Row())
      ensures execution != null ==>
        execution.View() ==
          if swept && ChangesSource(old(stage)) && ExecutionId in old(data) then
            StopLocked(old(execution.View()), false).state
          else old(execution.View())
    {
      if status != WRunning || lease.None? || lease.value >= now {
        return false;
      }
      assert WorkflowEdge(status, if ChangesSource(stage) then WBlocked else WFailed);
      status := if ChangesSource(stage) then WBlocked else WFailed;
      if ChangesSource(stage) && ExecutionId in data {
        assert UnfoldRow(true);
        var _ := execution.Stop(false);
      }
      generation := generation + 1;
      failed, token, lease := true, None, None;
      history := history + [HistoryEntry(stage, status)];
      swept := true;
    }
  }

  // What a workflow is started with, under an id that the client chooses.
  datatype WorkflowRequest = WorkflowRequest(content: string, publish: bool)

  // The rows by their ids, each with its request.
  class WorkflowTable {
    var requests: map<string, WorkflowRequest>
    var rows: map<string, WorkflowRecords>
    const limit: nat

    ghost predicate Valid()
      reads this
    {
      requests.Keys == rows.Keys && forall id :: id in rows ==> rows[id].publish == requests[id].publish
    }

    constructor (limit: nat)
      ensures Valid() && requests == map[] && this.limit == limit
    {
      requests, rows, this.limit := map[], map[], limit;
    }

    // `start`: a new workflow, the one that the same request started before, or a conflict.
    method Start(id: string, request: WorkflowRequest) returns (row: Option<WorkflowRecords>)
      requires Valid()
      modifies this
      ensures Valid()
      ensures row.None? <==> id in old(requests) && old(requests)[id] != request
      ensures row.None? || id in old(requests) ==> requests == old(requests) && rows == old(rows)
      ensures row.Some? ==> id in rows && row.value == rows[id] && requests[id] == request
      ensures id !in old(requests) ==>
        requests == old(requests)[id := request] && rows == old(rows)[id := row.value]
        && fresh(row.value) && row.value.Row() == Started(request.publish)
    {
      if id !in requests {
        var created := new WorkflowRecords.Start(request.publish, limit);
        requests, rows := requests[id := request], rows[id := created];
      }
      row := if requests[id] == request then Some(rows[id]) else None;
    }
  }
}
