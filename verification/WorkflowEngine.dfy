/** One claimed stage from claim to report (app/orchestration/workflow.py, app/orchestration/failures.py). */
module WorkflowEngine {
  import opened Folding
  import opened Ordering
  import opened SchedulerState
  import opened Records
  import opened Executions
  import opened RunInvariant
  import opened AgentRows
  import opened Publishing
  import opened Protocol
  import opened Transactions
  import opened TestCommands
  import opened Workflow
  import opened WorkflowRuns
  import opened WorkflowLaws
  import opened WorkflowStages

  const MAX_DELAY: nat := 3600

  // `provider_failure`: whether the error is worth a retry, and after how many seconds at the earliest.
  function Classify(f: Fault): (bool, nat) {
    match f
    case LlmFault(transient, _) => (transient, 0)
    case GitHubFault(transient, retryAfter) =>
      var delay := if retryAfter > 0 then retryAfter else 0;
      (transient && delay <= MAX_DELAY, delay)
    case TimedOut => (true, 0)
    case _ => (false, 0)
  }

  predicate SafeToRetry(s: Stage) {
    s == Repository || s == IssueImport || s == Context || s == Plan
  }

  predicate Unconfigured(f: Fault) {
    f == Declared(EmbeddingsUnconfigured) || (f.LlmFault? && f.unconfigured)
  }

  // A missing checkpoint key is like any other unexpected error.
  function FaultOf(outcome: StageOutcome): Fault {
    if outcome.StageFails? then outcome.fault else OtherFault
  }

  function Power(n: nat): (p: nat)
    ensures p >= 1
  {
    if n == 0 then 1 else 2 * Power(n - 1)
  }

  function Backoff(minimum: nat, base: nat, attempts: nat): nat {
    var grown := base * Power(if attempts == 0 then 0 else attempts - 1);
    var capped := if grown < MAX_DELAY then grown else MAX_DELAY;
    if capped < minimum then minimum else capped
  }

  lemma {:induction false} PowerGrows(m: nat, n: nat)
    requires m <= n
    ensures Power(m) <= Power(n)
  {
    if m < n { PowerGrows(m, n - 1); }
  }

  // A retry waits at least a second and at most an hour, never less than the provider asked for, and
  // later attempts never wait less than earlier ones.
  lemma BackoffBounds(minimum: nat, base: nat, earlier: nat, later: nat)
    requires 1 <= base && minimum <= MAX_DELAY && earlier <= later
    ensures 1 <= Backoff(minimum, base, earlier) <= Backoff(minimum, base, later) <= MAX_DELAY
    ensures minimum <= Backoff(minimum, base, earlier)
  {
    var m, n := if earlier == 0 then 0 else earlier - 1, if later == 0 then 0 else later - 1;
    PowerGrows(m, n);
    Scale(base, Power(m), Power(n));
    Scale(base, 1, Power(m));
  }

  // Only stages whose effects are idempotent are retried without a user; a stage that changes sources never is.
  ghost predicate Cautious(stage: Stage, report: StageReport) {
    report.Failure? && report.retry.Some? ==>
      SafeToRetry(stage) && !ChangesSource(stage) && !report.blocked && 1 <= report.retry.value <= MAX_DELAY
  }

  // Doubling, up to an hour, and at least the minimum.
  lemma BackoffDoubles(minimum: nat, base: nat, attempts: nat)
    requires attempts >= 1
    ensures Backoff(0, base, 1) == if base < 3600 then base else 3600
    ensures Backoff(0, base, attempts + 1) ==
      if 2 * Backoff(0, base, attempts) < 3600 then 2 * Backoff(0, base, attempts) else 3600
    ensures Backoff(minimum, base, attempts) ==
      if Backoff(0, base, attempts) < minimum then minimum else Backoff(0, base, attempts)
  {
    assert Power(0) == 1 && Power(attempts) == 2 * Power(attempts - 1);
    assert base * (2 * Power(attempts - 1)) == 2 * (base * Power(attempts - 1));
  }

  // The errors that may go away: a timeout, and what a provider calls transient, unless it asks for more
  // than an hour.
  ghost predicate Transient(f: Fault) {
    match f
    case TimedOut => true
    case LlmFault(transient, _) => transient
    case GitHubFault(transient, retryAfter) => transient && retryAfter <= 3600
    case _ => false
  }

  // How an outcome is reported, on the attempts made so far.
  ghost predicate Tells(report: StageReport, outcome: StageOutcome, stage: Stage) {
    if outcome.StageDone? then report == StageReport.Success(outcome.data, outcome.repeat)
    else
      report.Failure?
      && (report.blocked <==>
            (stage == Implement || stage == ReviewStage || (outcome.StageFails? && outcome.fault.Declared?))
            && outcome != StageFails(Declared(EmbeddingsUnconfigured))
            && !(outcome.StageFails? && outcome.fault.LlmFault? && outcome.fault.unconfigured))
      && (report.retry.Some? <==>
            stage in {Repository, IssueImport, Context, Plan} && outcome.StageFails? && Transient(outcome.fault)
            && !(report.blocked))
  }

  // The wait that the provider asked for.
  function Asked(outcome: StageOutcome): nat {
    if outcome.StageFails? && outcome.fault.GitHubFault? && outcome.fault.retryAfter > 0 then outcome.fault.retryAfter else 0
  }

  ghost predicate Spaced(report: StageReport, outcome: StageOutcome, base: nat, attempts: nat) {
    report.Failure? && report.retry.Some? ==> report.retry.value == Backoff(Asked(outcome), base, attempts)
  }

  // What others may do to the row and its execution while a stage runs: other workers, users, the
  // lease sweep.
  datatype Rival =
    | Claims(stage: Option<Stage>, generation: Option<nat>, now: nat)
    | Reports(claim: WorkflowClaim, report: StageReport, now: nat)
    | Resumes
    | Cancels
    | Sweeps(now: nat)
    | Works(step: Step)

  // The claim was swept: its token is gone and will not be handed out again.
  predicate Lost(r: WorkflowRow, c: WorkflowClaim) {
    r.token != Some(c.token) && c.token < r.claims
  }

  // Nobody but the holder moves a claimed row, other than by taking the claim away.
  ghost predicate InHand(was: WorkflowRow, now: WorkflowRow, c: WorkflowClaim) {
    Live(was, c) && c.token < was.claims && (now == was || Lost(now, c))
  }

  class WorkflowEngine {
    const records: WorkflowRecords
    const stages: WorkflowStages
    const retrySeconds: nat

    constructor (records: WorkflowRecords, stages: WorkflowStages, retrySeconds: nat)
      ensures this.records == records && this.stages == stages && this.retrySeconds == retrySeconds
    {
      this.records, this.stages, this.retrySeconds := records, stages, retrySeconds;
    }

    // How a failed stage is reported.
    method Describe(stage: Stage, outcome: StageOutcome, attempts: nat) returns (report: StageReport)
      requires 1 <= retrySeconds && !outcome.StageDone?
      ensures report.Failure? && Cautious(stage, report) && Tells(report, outcome, stage)
      ensures Spaced(report, outcome, retrySeconds, attempts)
      ensures report.blocked <==> (ChangesSource(stage) || FaultOf(outcome).Declared?) && !Unconfigured(FaultOf(outcome))
      ensures report.retry.Some? <==> Classify(FaultOf(outcome)).0 && SafeToRetry(stage) && !report.blocked
      ensures report.retry.Some? ==> report.retry.value == Backoff(Classify(FaultOf(outcome)).1, retrySeconds, attempts)
    {
      var fault := FaultOf(outcome);
      var classified := Classify(fault);
      var blocked := ChangesSource(stage) || fault.Declared?;
      if Unconfigured(fault) {
        blocked := false;
      }
      var delay: Option<nat> := None;
      if classified.0 && SafeToRetry(stage) && !blocked {
        BackoffBounds(classified.1, retrySeconds, attempts, attempts);
        delay := Some(Backoff(classified.1, retrySeconds, attempts));
      }
      report := Failure(blocked, delay);
    }

    ghost predicate Ready()
      reads records, records.execution, stages, stages.execution
    {
      records.Valid() && stages.Ready() && records.execution == stages.execution && 1 <= retrySeconds
    }

    // What a publication may touch.
    static ghost function Footprint(publisher: PullRequestService?): set<object> {
      if publisher == null then {} else {publisher, publisher.records, publisher.github}
    }

    // The publication stage has what it reads, and an attempt can finish what earlier ones began.
    ghost predicate CanPublish(stage: Stage, data: set<Checkpoint>, publisher: PullRequestService?, again: Publication)
      reads publisher, if publisher == null then {} else {publisher.store, publisher.records, publisher.github}
    {
      stage == Publish && Reads(Publish) <= data && publisher != null
      && forall u {:trigger UnfoldStage(u)} :: UnfoldStage(u) ==> publisher.CanFinish(stages.required, again)
    }

    // The claimed stage is run; the rows it leaves behind are in order.
    method RunStage(
      claim: WorkflowClaim, data: set<Checkpoint>, world: StageWorld, publisher: PullRequestService?, ghost again: Publication)
      returns (o: StageOutcome)
      requires stages.Ready()
      requires claim.stage == Publish ==> publisher != null && publisher.Inv() && publisher.store == stages.execution
      modifies stages`execution, stages.execution, Footprint(publisher)
      ensures stages.Ready()
      ensures old(stages.execution) != null ==> stages.execution == old(stages.execution)
      ensures stages.execution != old(stages.execution) ==> fresh(stages.execution)
      ensures Reads(claim.stage) <= data ==> !o.KeyMissing?
      ensures stages.StageCourse(claim.stage, data, world, old(stages.Run()), o)
      ensures old(CanPublish(claim.stage, data, publisher, again)) ==> o.StageDone?
      ensures o.StageDone? ==> claim.stage != StagesDone
      ensures o.StageDone? ==>
        Honest(stages.Run(), Issue(claim, CompletedTasks(old(stages.Run()))), StageReport.Success(o.data, o.repeat))
    {
      if claim.stage == Publish {
        assert UnfoldStage(true);
        o := stages.PerformPublish(claim, data, world, publisher, again);
        publisher.InvSane();
      } else {
        o := stages.Perform(claim, data, world);
      }
    }

    // ---- others, while the stage runs ----

    method Interfere(rivals: seq<Rival>, c: WorkflowClaim, ghost was: WorkflowRow)
      requires Ready() && InHand(was, records.Row(), c)
      modifies records, stages.execution
      ensures Ready() && stages.execution == old(stages.execution) && InHand(was, records.Row(), c)
      ensures Moves(old(stages.Run()), stages.Run())
      ensures rivals == [] ==> records.Row() == old(records.Row())
    {
      StaysPut(stages.Run());
      var i := 0;
      while i < |rivals|
        invariant Ready() && stages.execution == old(stages.execution) && InHand(was, records.Row(), c)
        invariant Moves(old(stages.Run()), stages.Run())
        invariant rivals == [] ==> records.Row() == old(records.Row())
      {
        ghost var run := stages.Run();
        if rivals[i].Works? {
          Work(rivals[i].step);
        } else if rivals[i].Cancels? {
          Cancel(c, was);
        } else if rivals[i].Sweeps? {
          Sweep(rivals[i].now, c, was);
        } else {
          Compete(rivals[i], c, was);
        }
        MovesTransitive(old(stages.Run()), run, stages.Run());
        i := i + 1;
      }
    }

    method Work(step: Step)
      requires Ready()
      modifies stages.execution
      ensures Ready() && Moves(old(stages.Run()), stages.Run()) && records.Row() == old(records.Row())
    {
      StaysPut(stages.Run());
      if stages.execution != null {
        StepMoves(stages.execution.View(), step);
        Perform(stages.execution, step);
        assert stages.execution.Valid();
      }
    }

    // Only the row is concerned.
    method Compete(rival: Rival, c: WorkflowClaim, ghost was: WorkflowRow)
      requires Ready() && InHand(was, records.Row(), c)
      requires rival.Claims? || rival.Reports? || rival.Resumes?
      modifies records
      ensures Ready() && records.execution == old(records.execution) && InHand(was, records.Row(), c)
      ensures Moves(old(stages.Run()), stages.Run())
    {
      StaysPut(stages.Run());
      match rival {
        case Claims(stage, generation, now) => var _ := records.ClaimStage(stage, generation, now);
        case Reports(other, report, now) =>
          // a worker reports its own claims, and an execution only if there is one
          if other.token != c.token && other.stage != StagesDone
             && (report.Success? && ExecutionId in report.data ==> records.execution != null) {
            var _ := records.FinishStage(other, report, now);
          }
        case Resumes => var _ := records.Resume();
      }
    }

    // A cancellation or a sweep may stop the execution as well.
    method Cancel(c: WorkflowClaim, ghost was: WorkflowRow)
      requires Ready() && InHand(was, records.Row(), c)
      modifies records, stages.execution
      ensures Ready() && stages.execution == old(stages.execution) && InHand(was, records.Row(), c)
      ensures Moves(old(stages.Run()), stages.Run())
    {
      StaysPut(stages.Run());
      if stages.execution != null { StopMoves(stages.execution.View(), true); }
      var _ := records.Cancel();
    }

    method Sweep(now: nat, c: WorkflowClaim, ghost was: WorkflowRow)
      requires Ready() && InHand(was, records.Row(), c)
      modifies records, stages.execution
      ensures Ready() && stages.execution == old(stages.execution) && InHand(was, records.Row(), c)
      ensures Moves(old(stages.Run()), stages.Run())
    {
      StaysPut(stages.Run());
      if stages.execution != null { StopMoves(stages.execution.View(), false); }
      var _ := records.Recover(now);
    }

    // ---- the report ----

    // The one report of a claim.
    method Conclude(claim: WorkflowClaim, outcome: StageOutcome, later: nat) returns (accepted: bool, report: StageReport)
      requires records.Valid() && claim.stage != StagesDone && 1 <= retrySeconds
      requires outcome.StageDone? && ExecutionId in outcome.data ==> records.execution != null
      modifies records
      ensures records.Valid() && records.execution == old(records.execution)
      ensures accepted <==> Live(old(records.Row()), claim)
      ensures records.Row() ==
        if accepted then Finish(old(records.Row()), claim, report, records.limit, later) else old(records.Row())
      ensures Cautious(claim.stage, report) && Tells(report, outcome, claim.stage)
      ensures Spaced(report, outcome, retrySeconds, old(records.attempts))
    {
      if outcome.StageDone? {
        report := StageReport.Success(outcome.data, outcome.repeat);
      } else {
        report := Describe(claim.stage, outcome, records.attempts);
      }
      var done := records.FinishStage(claim, report, later);
      accepted := done.WOk?;
    }

    method Attempt(claim: WorkflowClaim, world: StageWorld, publisher: PullRequestService?, ghost again: Publication)
      returns (outcome: StageOutcome)
      requires Ready()
      requires claim.stage == Publish ==> publisher != null && publisher.Inv() && publisher.store == stages.execution
      modifies records`execution, stages`execution, stages.execution, Footprint(publisher)
      ensures Ready() && records.Row() == old(records.Row())
      ensures old(stages.execution) != null ==> stages.execution == old(stages.execution)
      ensures stages.execution != old(stages.execution) ==> fresh(stages.execution)
      ensures stages.StageCourse(claim.stage, old(records.data), world, old(stages.Run()), outcome)
      ensures old(CanPublish(claim.stage, records.data, publisher, again)) ==> outcome.StageDone?
      ensures outcome.StageDone? ==>
        Honest(stages.Run(), Issue(claim, CompletedTasks(old(stages.Run()))), StageReport.Success(outcome.data, outcome.repeat))
      ensures outcome.StageDone? && ExecutionId in outcome.data ==> records.execution != null
    {
      outcome := RunStage(claim, records.data, world, publisher, again);
      records.execution := stages.execution;
      assert UnfoldRow(true);
    }

    // The report tells how the stage ended in its world, and a retry waits as the attempts say, if they are known.
    ghost predicate Faithful(
      stage: Stage, data: set<Checkpoint>, world: StageWorld, before: Option<Execution>, report: StageReport, attempts: Option<nat>) {
      exists outcome :: stages.StageCourse(stage, data, world, before, outcome) && Tells(report, outcome, stage)
        && (attempts.Some? ==> Spaced(report, outcome, retrySeconds, attempts.value))
    }

    // The stage and its report, with others at work on the row in between.
    method Serve(
      claim: WorkflowClaim, later: nat, world: StageWorld, rivals: seq<Rival>, publisher: PullRequestService?,
      ghost again: Publication) returns (accepted: bool, report: StageReport)
      requires Ready() && Live(records.Row(), claim) && claim.token < records.claims && claim.stage != StagesDone
      requires claim.stage == Publish ==> publisher != null && publisher.Inv() && publisher.store == stages.execution
      modifies records, stages`execution, stages.execution, Footprint(publisher)
      ensures Ready()
      ensures accepted ==> records.Row() == Finish(old(records.Row()), claim, report, records.limit, later)
      ensures !accepted ==> Lost(records.Row(), claim)
      ensures rivals == [] ==> accepted
      ensures Faithful(claim.stage, old(records.data), world, old(stages.Run()), report,
                       if accepted then Some(old(records.attempts)) else None)
      ensures old(CanPublish(claim.stage, records.data, publisher, again)) ==> report.Success?
      ensures Honest(stages.Run(), Issue(claim, CompletedTasks(old(stages.Run()))), report) && Cautious(claim.stage, report)
    {
      ghost var was := records.Row();
      var outcome := Attempt(claim, world, publisher, again);
      accepted, report := Deliver(claim, outcome, later, rivals, was, CompletedTasks(old(stages.Run())));
    }

    // Others get their turn, and the report finds what they left.
    method Deliver(
      claim: WorkflowClaim, outcome: StageOutcome, later: nat, rivals: seq<Rival>, ghost was: WorkflowRow, ghost done: set<Key>)
      returns (accepted: bool, report: StageReport)
      requires Ready() && Live(was, claim) && claim.token < was.claims && claim.stage != StagesDone && records.Row() == was
      requires outcome.StageDone? ==>
        Honest(stages.Run(), Issue(claim, done), StageReport.Success(outcome.data, outcome.repeat))
      requires outcome.StageDone? && ExecutionId in outcome.data ==> records.execution != null
      modifies records, stages.execution
      ensures Ready() && stages.execution == old(stages.execution)
      ensures accepted ==> records.Row() == Finish(was, claim, report, records.limit, later)
      ensures !accepted ==> Lost(records.Row(), claim)
      ensures rivals == [] ==> accepted
      ensures Tells(report, outcome, claim.stage) && (accepted ==> Spaced(report, outcome, retrySeconds, was.attempts))
      ensures Honest(stages.Run(), Issue(claim, done), report) && Cautious(claim.stage, report)
    {
      ghost var run := stages.Run();
      Interfere(rivals, claim, was);
      if outcome.StageDone? {
        HonestStays(run, stages.Run(), Issue(claim, done), StageReport.Success(outcome.data, outcome.repeat));
      }
      accepted, report := Conclude(claim, outcome, later);
    }

    // `advance`: a claim, its stage and the one report of it, which is honest and cautious. Whatever
    // others do meanwhile, the report either finds the row exactly as it was claimed or is not accepted
    // at all.
    method Advance(
      expectedStage: Option<Stage>, expectedGeneration: Option<nat>, now: nat, later: nat, world: StageWorld,
      rivals: seq<Rival>, publisher: PullRequestService?, ghost again: Publication)
      returns (advanced: bool, accepted: bool, report: StageReport)
      requires Ready() && (records.status == WPending ==> records.stage != StagesDone)
      requires records.stage == Publish ==> publisher != null && publisher.Inv() && publisher.store == stages.execution
      modifies records, stages`execution, stages.execution, Footprint(publisher)
      ensures Ready()
      ensures advanced <==> Claimable(old(records.Row()), expectedStage, expectedGeneration, now)
      ensures !advanced ==> records.Row() == old(records.Row()) && !accepted
      ensures advanced && rivals == [] ==> accepted
      ensures advanced ==> Faithful(old(records.stage), old(records.data), world, old(stages.Run()), report,
                                    if accepted then Some(old(records.attempts) + 1) else None)
      ensures advanced && old(CanPublish(records.stage, records.data, publisher, again)) ==> report.Success?
      ensures advanced ==>
        var claim := WorkflowClaim(old(records.claims), old(records.stage), old(records.generation));
        (if accepted then records.Row() == Finish(Claimed(old(records.Row()), now), claim, report, records.limit, later)
         else Lost(records.Row(), claim))
        && Honest(stages.Run(), Issue(claim, CompletedTasks(old(stages.Run()))), report) && Cautious(claim.stage, report)
    {
      var claim := records.ClaimStage(expectedStage, expectedGeneration, now);
      if claim.None? {
        return false, false, Failure(false, None);
      }
      accepted, report := Serve(claim.value, later, world, rivals, publisher, again);
      advanced := true;
    }
  }
}
