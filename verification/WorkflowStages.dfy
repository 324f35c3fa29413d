/** The stages of a workflow, dispatched on the claimed checkpoint (app/orchestration/workflow_stages.py). */
module WorkflowStages {
  import opened Folding
  import opened Ordering
  import opened PlanDependencies
  import opened SchedulerState
  import opened Records
  import opened Executions
  import opened ReviewRecords
  import opened PublicationRecords
  import opened Protocol
  import opened RunInvariant
  import opened AgentRows
  import opened RecoverySteps
  import opened Runs
  import opened TestCommands
  import opened EvidenceChain
  import opened Workflow
  import opened WorkflowRuns
  import opened WorkflowLaws
  import Recovery
  import RecoveryStanding
  import opened RecoveryLog
  import RecoveryPlay
  import opened Testing
  import Review
  import opened Publishing

  datatype WorkflowCode =
    | RepositoryRevisionChanged | WorkspaceNotClean | ExecutionRequiresInspection | NoReadyTask | TestsFailed
    | ReviewRejected | UnknownStage | EmbeddingsUnconfigured

  // What a stage raises: a declared workflow error, a provider's error or anything else.
  datatype Fault =
    | Declared(code: WorkflowCode)
    | LlmFault(transient: bool, unconfigured: bool)
    | GitHubFault(transient: bool, retryAfter: int)
    | TimedOut
    | OtherFault

  // What opening a model session raises.
  datatype SessionError = SessionError(transient: bool, unconfigured: bool)

  datatype StageOutcome = StageDone(data: set<Checkpoint>, repeat: bool) | KeyMissing(key: Checkpoint) | StageFails(fault: Fault)

  // What the outside world does during one stage: whether the checked-out revision is the checkpointed
  // one before and after the work, whether the workspace is clean, how the work itself ends, the stored
  // plan, whether the issue context matches, whether a model session opens, and what happens during
  // recovery and review.
  datatype StageWorld = StageWorld(
    revision: bool, revisionAfter: bool, clean: bool, fault: Option<Fault>, plan: seq<Entry>, matches: bool,
    session: Option<SessionError>, recovery: RecoveryStanding.World, review: Review.ReviewWorld)

  // ---- the implementation stage ----

  ghost predicate NoneIn(s: Execution, status: TaskStatus) {
    forall k :: k in s.tasks ==> s.tasks[k].status != status
  }

  // Reconciled, the run has failed or a task is at work.
  ghost predicate NeedsInspection(s: Execution)
    requires WellFormed(s)
  {
    var o := AdvanceRun(s);
    o.Done? && o.state.status != RunCompleted && (o.state.status == RunFailed || AnyTaskRunning(o.state.tasks))
  }

  // After reconciling, a run with nothing queued and nothing running is over, or was cancelled before.
  lemma Reconciled(s: Execution)
    requires RunInv(s)
    ensures var o := AdvanceRun(s);
      o.Done? && RunInv(o.state) && (o.state.status == RunCancelled <==> s.status == RunCancelled)
      && (NoneIn(o.state, Queued) && NoneIn(o.state, SchedulerState.Running) <==> Finished(o.state.status))
  {
    ReconcileKeeps(s);
    RunInvMeans(AdvanceRun(s).state);
  }

  lemma ReconcileReaches(s: Execution)
    requires RunInv(s) && AdvanceRun(s).Done?
    ensures Reaches(s, AdvanceRun(s).state)
  {
    ReachesNext(s, Reconcile);
  }

  lemma ReachesKeeps(s: Execution, t: Execution)
    requires RunInv(s) && RowsInv(s) && Reaches(s, t)
    ensures RunInv(t) && RowsInv(t) && CompletedTasks(Some(s)) <= CompletedTasks(Some(t))
  {
    assert UnfoldRun(true);
    if s != t {
      var steps :| After(s, steps) == t;
      AfterKeeps(s, steps);
    }
  }

  lemma AfterKeeps(s: Execution, steps: seq<Step>)
    requires RunInv(s) && RowsInv(s)
    ensures RunInv(After(s, steps)) && RowsInv(After(s, steps))
    ensures CompletedTasks(Some(s)) <= CompletedTasks(Some(After(s, steps)))
  {
    AfterRows(s, steps);
    var t := After(s, steps);
    forall k | k in CompletedTasks(Some(s)) ensures k in CompletedTasks(Some(t)) {
      CompletedStays(s, steps, k);
    }
  }

  // A task that was not completed before and is now makes one more.
  lemma OneMore(s: Execution, u: Execution, t: Execution, k: Key)
    requires RunInv(s) && RowsInv(s) && Reaches(s, u) && Reaches(u, t)
    requires k in u.tasks && u.tasks[k].status != Completed && k in t.tasks && t.tasks[k].status == Completed
    ensures CompletedTasks(Some(s)) < CompletedTasks(Some(t))
  {
    ReachesKeeps(s, u);
    ReachesKeeps(u, t);
    assert k in CompletedTasks(Some(t)) && k !in CompletedTasks(Some(u));
  }

  // The first queued task of the order.
  ghost predicate FirstIn(order: seq<Key>, tasks: map<Key, Task>, k: Key) {
    exists i :: 0 <= i < |order| && order[i] == k
      && forall j :: 0 <= j < i ==> order[j] in tasks && tasks[order[j]].status != Queued
  }

  // ---- how the stages end ----

  function SessionFault(e: SessionError): Fault {
    LlmFault(e.transient, e.unconfigured)
  }

  // Coding, tests and repairs of task k come to a result.
  ghost predicate PlaysOut(
    s: Execution, k: Key, world: RecoveryStanding.World, required: seq<string>, allowed: set<string>, images: set<string>,
    limit: nat)
    requires allowed <= COMMANDS.Keys
  {
    world.coding.Proposes? && (forall i: nat :: Answering(allowed, images, required, world.tests(i)))
    && forall i: nat :: i < limit ==> !RecoveryPlay.HaltsAt(world, Recovery.KnownAtStart(s, k, world), i)
  }

  // One of the test turns within the limit succeeds.
  ghost predicate ComesThrough(s: Execution, k: Key, world: RecoveryStanding.World, required: seq<string>, limit: nat) {
    exists j: nat ::
      j <= RecoveryPlay.Landings(world, Recovery.KnownAtStart(s, k, world), limit)
      && RecoveryPlay.Wins(required, world.tests(j))
  }

  // How the work on the queued task k ends, in the rows s it was started on. `heard` is what others did
  // during the recovery.
  ghost predicate TaskCourse(
    s: Execution, k: Key, world: StageWorld, required: seq<string>, allowed: set<string>, images: set<string>, limit: nat,
    heard: seq<Moment>, o: StageOutcome)
    requires allowed <= COMMANDS.Keys
  {
    RecoveryStanding.Interleaved(heard, world.recovery, s)
    && if world.session.Some? then o == StageFails(SessionFault(world.session.value))
       else if ActiveRecovery(s.agents, k).Some? || !world.matches then o == StageFails(OtherFault)
       else if RecoveryStanding.Calm(heard, k, |s.agents|) && PlaysOut(s, k, world.recovery, required, allowed, images, limit) then
         o == if ComesThrough(s, k, world.recovery, required, limit) then StageDone({}, true) else StageFails(Declared(TestsFailed))
       else true
  }

  predicate Reviewed(agents: seq<Agent>) {
    var review := LatestReview(agents);
    review.Some? && agents[review.value].status == AgentCompleted
  }

  // How a review ends, in the rows s it was started on.
  ghost predicate ReviewCourse(
    s: Execution, world: StageWorld, required: seq<string>, allowed: set<string>, heard: seq<Moment>, o: StageOutcome)
    requires WellFormed(s)
  {
    (forall m :: m in heard ==> exists i: nat :: m.step in world.review.others(i))
    && if Reviewed(s.agents) then o.StageDone? <==> Check(s, required).Cleared?
       else if world.session.Some? then o == StageFails(SessionFault(world.session.value))
       else if !world.matches || AnyReviewRunning(s.agents) then o == StageFails(OtherFault)
       else if Review.Unclosed(heard, |s.agents|) then
         o == if Review.Breaks(world.review, allowed, ReviewEvidence(s, required), required) then StageFails(OtherFault)
              else if Review.Approves(world.review, allowed, ReviewEvidence(s, required), required) then StageDone({}, false)
              else StageFails(Declared(ReviewRejected))
       else true
  }

  class WorkflowStages {
    const required: seq<string>
    const allowed: set<string>
    const images: set<string>
    const debugLimit: nat
    // the execution stored under the workflow's derived id
    var execution: ExecutionStore?

    constructor (
      required: seq<string>, allowed: set<string>, images: set<string>, debugLimit: nat, execution: ExecutionStore?)
      requires allowed <= COMMANDS.Keys
      ensures this.required == required && this.allowed == allowed && this.images == images
      ensures this.debugLimit == debugLimit && this.execution == execution
    {
      this.required, this.allowed, this.images, this.debugLimit := required, allowed, images, debugLimit;
      this.execution := execution;
    }

    ghost predicate Ready()
      reads this, execution
    {
      allowed <= COMMANDS.Keys
      && (execution != null ==> execution.Valid() && RunInv(execution.View()) && RowsInv(execution.View()))
    }

    ghost function Run(): Option<Execution>
      reads this, execution
    {
      if execution == null then None else Some(execution.View())
    }

    // The first queued task, in execution order.
    method NextTask(store: ExecutionStore) returns (k: Option<Key>)
      requires store.Valid()
      ensures k.Some? ==> k.value in store.tasks && store.tasks[k.value].status == Queued
      ensures k.None? ==> NoneIn(store.View(), Queued)
      ensures k.Some? ==> exists order :: IsExecutionOrder(GraphOf(store.plan), order) && FirstIn(order, store.tasks, k.value)
    {
      var r := ExecutionOrder(store.plan);
      assert Elements(r.order) == store.tasks.Keys;
      assert forall j :: j in r.order <==> j in Elements(r.order);
      k := FirstQueued(r.order, store.tasks);
    }

    method FirstQueued(order: seq<Key>, tasks: map<Key, Task>) returns (k: Option<Key>)
      requires forall j :: j in order ==> j in tasks
      ensures k.Some? ==> k.value in order && tasks[k.value].status == Queued && FirstIn(order, tasks, k.value)
      ensures k.None? ==> forall j :: j in order ==> tasks[j].status != Queued
    {
      var i := 0;
      while i < |order|
        invariant 0 <= i <= |order| && forall j :: j in order[..i] ==> tasks[j].status != Queued
      {
        if tasks[order[i]].status == Queued {
          return Some(order[i]);
        }
        i := i + 1;
      }
      k := None;
    }

    // How the implementation stage ends, in the rows s it was started on: with the run, or with the work
    // on the first task that reconciling leaves queued.
    ghost predicate ImplementCourse(s: Execution, world: StageWorld, o: StageOutcome)
      requires RunInv(s) && allowed <= COMMANDS.Keys
    {
      var r := AdvanceRun(s);
      r.Done?
      && if r.state.status == RunCompleted then o == StageDone({}, false)
         else if r.state.status == RunFailed || AnyTaskRunning(r.state.tasks) then o == StageFails(Declared(ExecutionRequiresInspection))
         else if r.state.status == RunCancelled then o == StageFails(Declared(NoReadyTask))
         else exists k, heard :: FirstQueuedTask(r.state, k) && TaskCourse(r.state, k, world, required, allowed, images, debugLimit, heard, o)
    }

    ghost predicate FirstQueuedTask(s: Execution, k: Key) {
      k in s.tasks && s.tasks[k].status == Queued
      && exists order :: IsExecutionOrder(GraphOf(s.plan), order) && FirstIn(order, s.tasks, k)
    }

    // One task of the execution, or the end of the implementation.
    method ImplementNext(store: ExecutionStore, world: StageWorld) returns (o: StageOutcome)
      requires store.Valid() && RunInv(store.View()) && RowsInv(store.View()) && allowed <= COMMANDS.Keys
      modifies store
      ensures store.Valid() && Reaches(old(store.View()), store.View()) && !o.KeyMissing?
      ensures ImplementCourse(old(store.View()), world, o)
      ensures o.StageDone? ==> o.data == {}
      ensures o.StageDone? && o.repeat ==> CompletedTasks(Some(old(store.View()))) < CompletedTasks(Some(store.View()))
      ensures o.StageDone? && !o.repeat ==> store.status == RunCompleted
      ensures o == StageFails(Declared(ExecutionRequiresInspection)) <==> NeedsInspection(old(store.View()))
      // with the scheduler's progress: only a cancelled execution has nothing to do
      ensures o == StageFails(Declared(NoReadyTask)) <==> old(store.status) == RunCancelled
    {
      ghost var s := store.View();
      Reconciled(s);
      ReconcileReaches(s);
      var _ := store.Reconcile();
      if store.status == RunCompleted {
        return StageDone({}, false);
      }
      if store.status == RunFailed || AnyTaskRunning(store.tasks) {
        return StageFails(Declared(ExecutionRequiresInspection));
      }
      var ready := NextTask(store);
      if ready.None? {
        return StageFails(Declared(NoReadyTask));
      }
      ghost var u := store.View();
      ReachesKeeps(s, u);
      ghost var heard;
      o, heard := RunTask(store, ready.value, world);
      ReachesTransitive(s, u, store.View());
      if o.StageDone? { OneMore(s, u, store.View(), ready.value); }
    }

    // `heard` is what others did during the recovery.
    method RunTask(store: ExecutionStore, k: Key, world: StageWorld) returns (o: StageOutcome, ghost heard: seq<Moment>)
      requires store.Valid() && RunInv(store.View()) && RowsInv(store.View()) && allowed <= COMMANDS.Keys
      requires k in store.tasks && store.tasks[k].status == Queued
      modifies store
      ensures store.Valid() && Reaches(old(store.View()), store.View()) && !o.KeyMissing?
      ensures TaskCourse(old(store.View()), k, world, required, allowed, images, debugLimit, heard, o)
      ensures o.StageDone? ==> o == StageDone({}, true) && k in store.tasks && store.tasks[k].status == Completed
      ensures o == StageFails(Declared(TestsFailed)) ==> k in store.tasks && store.tasks[k].status == Failed
      ensures world.session.Some? <==> o.StageFails? && o.fault.LlmFault?
      ensures world.session.Some? ==> store.View() == old(store.View())
      ensures o.StageFails? && !o.fault.LlmFault? ==> o.fault == OtherFault || o.fault == Declared(TestsFailed)
      // if nobody disturbed the recovery, the stage is done exactly if the task is
      ensures RecoveryStanding.Calm(heard, k, |old(store.agents)|) && k in store.tasks ==>
        (o.StageDone? <==> store.tasks[k].status == Completed)
    {
      heard := [];
      ReachesItself(store.View());
      if world.session.Some? {
        return StageFails(SessionFault(world.session.value)), heard;
      }
      var recovery := new Recovery.RecoveryService(store, allowed, images, debugLimit, world.recovery);
      assert PlaysOut(store.View(), k, world.recovery, required, allowed, images, debugLimit) ==> recovery.Benign(k, required);
      var outcome := recovery.Run(k, world.matches, required);
      heard := recovery.heard;
      if !outcome.Returned? {
        return StageFails(OtherFault), heard;
      }
      if !outcome.report.passed {
        return StageFails(Declared(TestsFailed)), heard;
      }
      o := StageDone({}, true);
    }

    // The review of a completed run; a completed review is used again.
    method ReviewRun(store: ExecutionStore, world: StageWorld) returns (o: StageOutcome, ghost heard: seq<Moment>)
      requires store.Valid() && RunInv(store.View()) && RowsInv(store.View())
      modifies store
      ensures store.Valid() && RunInv(store.View()) && RowsInv(store.View()) && !o.KeyMissing?
      ensures o.StageDone? ==> o == StageDone({}, false) && ReviewBacked(Some(store.View()))
      ensures o.StageDone? ==> Check(store.View(), required).Cleared?
      ensures Check(old(store.View()), required).Cleared? ==> o.StageDone?
      ensures o == StageFails(Declared(ReviewRejected)) ==> Check(store.View(), required).NotCleared?
      ensures ReviewCourse(old(store.View()), world, required, allowed, heard, o)
      // without a completed review a model session is needed
      ensures o.StageFails? && o.fault.LlmFault? <==> world.session.Some? && !Reviewed(old(store.agents))
      ensures o.StageFails? && o.fault.LlmFault? ==> o.fault == SessionFault(world.session.value)
    {
      heard := [];
      var review := LatestReview(store.agents);
      var decision: Option<Decision>;
      if review.Some? && store.agents[review.value].status == AgentCompleted {
        decision := store.agents[review.value].output.decision;
      } else if world.session.Some? {
        return StageFails(SessionFault(world.session.value)), heard;
      } else {
        var service := new Review.ReviewService(store, allowed, world.review);
        var outcome := service.Run(world.matches, required);
        heard := service.heard;
        decision := if outcome.Decided? then Some(outcome.decision) else None;
      }
      if decision.None? {
        return StageFails(OtherFault), heard;
      }
      if !decision.value.approved {
        return StageFails(Declared(ReviewRejected)), heard;
      }
      o := Cleared(store);
    }

    method Cleared(store: ExecutionStore) returns (o: StageOutcome)
      requires store.Valid() && RunInv(store.View()) && RowsInv(store.View())
      ensures !o.KeyMissing? && (o.StageDone? ==> o == StageDone({}, false) && ReviewBacked(Some(store.View())))
      ensures o.StageDone? <==> Check(store.View(), required).Cleared?
      ensures o.StageFails? ==> o.fault == OtherFault
    {
      var records := new PublicationRecords(store);
      var checked := records.CheckEvidence(required);
      if checked.NotCleared? {
        return StageFails(OtherFault);
      }
      ClearedIsChained(store.View(), required);
      BackingMeans(Some(store.View()));
      o := StageDone({}, false);
    }

    // The work succeeds, on the checked-out revision where that matters.
    predicate Undisturbed(stage: Stage, world: StageWorld) {
      world.fault.None? && (stage == Index || stage == Embed || stage == Context ==> world.revision)
      && (stage == Index ==> world.revisionAfter)
    }

    // The stages before the execution exists: one call to the outside world each, on the checked-out
    // revision that the checkpoint names.
    method Prepare(stage: Stage, data: set<Checkpoint>, world: StageWorld) returns (o: StageOutcome)
      requires Rank(stage) < Rank(ExecutionSetup)
      ensures o.StageDone? ==> o == StageDone(Produces(stage), false)
      ensures o.KeyMissing? ==> o.key in Reads(stage) && o.key !in data
      ensures Reads(stage) <= data ==> (o.StageDone? <==> Undisturbed(stage, world))
      ensures !(Reads(stage) <= data) ==> !o.StageDone?
      // a fault of the work comes through as it is; otherwise the revision was not the checkpointed one
      ensures o.StageFails? ==> o.fault == Declared(RepositoryRevisionChanged) || world.fault == Some(o.fault)
      ensures o.StageFails? && (world.revision || !(stage == Index || stage == Embed || stage == Context)) && world.fault.Some? ==>
        o.fault == world.fault.value
    {
      if stage != Repository && RepositoryId !in data {
        return KeyMissing(RepositoryId);
      }
      if stage == Index || stage == Embed || stage == Context {
        if SourceCommit !in data {
          return KeyMissing(SourceCommit);
        }
        if !world.revision {
          return StageFails(Declared(RepositoryRevisionChanged));
        }
      }
      if Rank(stage) > Rank(IssueImport) && IssueId !in data {
        return KeyMissing(IssueId);
      }
      if Rank(stage) > Rank(Context) && IssueContext !in data {
        return KeyMissing(IssueContext);
      }
      if world.fault.Some? {
        return StageFails(world.fault.value);
      }
      if stage == Index && !world.revisionAfter {
        return StageFails(Declared(RepositoryRevisionChanged));
      }
      o := StageDone(Produces(stage), false);
    }

    // The keys that every later stage reads first.
    method Common(stage: Stage, data: set<Checkpoint>, world: StageWorld) returns (o: Option<StageOutcome>)
      requires Rank(stage) >= Rank(ExecutionSetup)
      ensures o.Some? ==> !o.value.StageDone?
      ensures o.Some? && o.value.KeyMissing? ==> o.value.key in Reads(stage) && o.value.key !in data
      ensures o.None? ==> RepositoryId in data && IssueId in data && IssueContext in data
      ensures o.None? && stage == Workspace ==> SourceCommit in data && world.revision
      ensures o.Some? && o.value.StageFails? ==>
        stage == Workspace && !world.revision && o.value.fault == Declared(RepositoryRevisionChanged)
    {
      if RepositoryId !in data {
        return Some(KeyMissing(RepositoryId));
      }
      if stage == Workspace {
        if SourceCommit !in data {
          return Some(KeyMissing(SourceCommit));
        }
        if !world.revision {
          return Some(StageFails(Declared(RepositoryRevisionChanged)));
        }
      }
      if IssueId !in data {
        return Some(KeyMissing(IssueId));
      }
      if IssueContext !in data {
        return Some(KeyMissing(IssueContext));
      }
      o := None;
    }

    // The execution is created once, under an id derived from the workflow.
    method SetUp(data: set<Checkpoint>, world: StageWorld) returns (o: StageOutcome)
      requires Ready()
      modifies this`execution
      ensures Ready() && (old(execution) != null ==> execution == old(execution)) && (execution != old(execution) ==> fresh(execution))
      ensures o.StageDone? ==> o == StageDone(Produces(ExecutionSetup), false) && execution != null
      ensures o.StageDone? <==> old(execution) != null || (PlanId in data && IsPlan(world.plan))
      ensures execution != old(execution) ==> execution != null && execution.View() == Created(world.plan)
      ensures o.KeyMissing? ==> o.key in Reads(ExecutionSetup) && o.key !in data
    {
      if execution == null {
        if PlanId !in data {
          return KeyMissing(PlanId);
        }
        var created := Create(world.plan);
        if created.Err? {
          return StageFails(OtherFault);
        }
        CreatedKeeps(world.plan);
        execution := created.value;
      }
      o := StageDone({ExecutionId}, false);
    }

    method PrepareWorkspace(world: StageWorld) returns (o: StageOutcome)
      ensures !o.KeyMissing? && (o.StageDone? <==> world.clean && world.fault.None? && world.revisionAfter)
      ensures o.StageDone? ==> o == StageDone({}, false)
      ensures !world.clean ==> o == StageFails(Declared(WorkspaceNotClean))
      ensures world.clean && world.fault.Some? ==> o == StageFails(world.fault.value)
      ensures world.clean && world.fault.None? && o.StageFails? ==> o.fault == Declared(RepositoryRevisionChanged)
    {
      if !world.clean {
        return StageFails(Declared(WorkspaceNotClean));
      }
      if world.fault.Some? {
        return StageFails(world.fault.value);
      }
      if !world.revisionAfter {
        return StageFails(Declared(RepositoryRevisionChanged));
      }
      o := StageDone({}, false);
    }

    method OnImplement(world: StageWorld) returns (o: StageOutcome)
      requires Ready() && execution != null
      modifies execution
      ensures Ready() && !o.KeyMissing?
      ensures ImplementCourse(old(execution.View()), world, o)
      ensures o.StageDone? ==> o.data == {}
      ensures o.StageDone? && o.repeat ==> CompletedTasks(old(Run())) < CompletedTasks(Run())
      ensures o.StageDone? && !o.repeat ==> RunComplete(Run())
    {
      ghost var s := execution.View();
      o := ImplementNext(execution, world);
      ReachesKeeps(s, execution.View());
    }

    // How the stages on an execution end, once the checkpoint has what they read.
    ghost predicate ExecutionCourse(stage: Stage, data: set<Checkpoint>, world: StageWorld, before: Option<Execution>, o: StageOutcome)
      requires allowed <= COMMANDS.Keys && (before.Some? ==> RunInv(before.value))
    {
      ExecutionId in data && RequiredCommands in data ==>
        if stage == Workspace then o.StageDone? <==> world.clean && world.fault.None? && world.revisionAfter
        else if before.None? then o == StageFails(OtherFault)
        else if stage == Implement then ImplementCourse(before.value, world, o)
        else stage == ReviewStage ==> exists heard :: ReviewCourse(before.value, world, required, allowed, heard, o)
    }

    // How a stage ends, once the checkpoint has what it reads. Kept folded.
    ghost predicate StageCourse(stage: Stage, data: set<Checkpoint>, world: StageWorld, before: Option<Execution>, o: StageOutcome) {
      stage == Publish || forall u {:trigger UnfoldStage(u)} :: UnfoldStage(u) ==>
        allowed <= COMMANDS.Keys && (before.Some? ==> RunInv(before.value)) && StageEnds(stage, data, world, before, o)
    }

    ghost predicate StageEnds(stage: Stage, data: set<Checkpoint>, world: StageWorld, before: Option<Execution>, o: StageOutcome)
      requires allowed <= COMMANDS.Keys && (before.Some? ==> RunInv(before.value))
    {
      Reads(stage) + {RequiredCommands} <= data ==>
        if Rank(stage) < Rank(ExecutionSetup) then o.StageDone? <==> Undisturbed(stage, world)
        else if stage == ExecutionSetup then o.StageDone? <==> before.Some? || IsPlan(world.plan)
        else if stage == Workspace && !world.revision then o == StageFails(Declared(RepositoryRevisionChanged))
        else if Rank(stage) <= Rank(ReviewStage) then ExecutionCourse(stage, data, world, before, o)
        else stage == StagesDone ==> o == StageFails(Declared(UnknownStage))
    }

    // The stages that work on the execution.
    method OnExecution(stage: Stage, data: set<Checkpoint>, world: StageWorld) returns (o: StageOutcome)
      requires Ready() && Rank(Workspace) <= Rank(stage) <= Rank(ReviewStage)
      modifies execution
      ensures Ready()
      ensures o.KeyMissing? ==> o.key in Reads(stage) && o.key !in data
      ensures ExecutionCourse(stage, data, world, old(Run()), o)
      ensures o.StageDone? ==> o.data == {} && (o.repeat ==> stage == Implement)
      ensures o.StageDone? && o.repeat ==> CompletedTasks(old(Run())) < CompletedTasks(Run())
      ensures o.StageDone? && !o.repeat && stage == Implement ==> RunComplete(Run())
      ensures o.StageDone? && stage == ReviewStage ==> ReviewBacked(Run())
    {
      if ExecutionId !in data {
        return KeyMissing(ExecutionId);
      }
      if stage == Workspace {
        o := PrepareWorkspace(world);
        return;
      }
      if RequiredCommands !in data {
        return KeyMissing(RequiredCommands);
      }
      if execution == null {
        return StageFails(OtherFault);
      }
      if stage == Implement {
        o := OnImplement(world);
      } else {
        ghost var heard;
        o, heard := ReviewRun(execution, world);
      }
    }

    // `run` on the last stage, with the publication service on the same execution.
    method PerformPublish(
      claim: WorkflowClaim, data: set<Checkpoint>, world: StageWorld, publisher: PullRequestService, ghost again: Publication)
      returns (o: StageOutcome)
      requires claim.stage == Publish && publisher.Inv() && (execution != null ==> execution == publisher.store)
      modifies publisher, publisher.store, publisher.records, publisher.github
      ensures publisher.Inv() && (Reads(Publish) <= data ==> !o.KeyMissing?)
      ensures Reads(Publish) <= data && execution != null && old(publisher.CanFinish(required, again)) ==> o.StageDone?
      ensures o.StageDone? ==> publisher.reported != [] && Honest(Run(), Issue(claim, {}), StageReport.Success(o.data, o.repeat))
    {
      var early := Common(Publish, data, world);
      if early.Some? {
        return early.value;
      }
      if ExecutionId !in data {
        return KeyMissing(ExecutionId);
      }
      if RequiredCommands !in data {
        return KeyMissing(RequiredCommands);
      }
      if execution == null {
        return StageFails(OtherFault);
      }
      o := PublishRun(publisher, again);
    }

    method PublishRun(publisher: PullRequestService, ghost again: Publication) returns (o: StageOutcome)
      requires publisher.Inv()
      modifies publisher, publisher.store, publisher.records, publisher.github
      ensures publisher.Inv() && !o.KeyMissing?
      ensures o.StageDone? ==> o == StageDone({PullRequestUrl}, false)
      ensures old(publisher.CanFinish(required, again)) ==> o.StageDone?
      ensures o.StageDone? ==> publisher.reported != [] && PublicationBacked(Some(publisher.store.View()))
    {
      var outcome := publisher.Run(required, again);
      ReleaseMeans(Some(publisher.store.View()));
      o := if outcome.PublishedAs? then StageDone({PullRequestUrl}, false) else StageFails(OtherFault);
    }

    // `run` on every other stage. Nothing is missing that the checkpoint should hold, and what is reported is what was done.
    method Perform(claim: WorkflowClaim, data: set<Checkpoint>, world: StageWorld) returns (o: StageOutcome)
      requires Ready() && claim.stage != Publish
      modifies this`execution, execution
      ensures Ready() && (old(execution) != null ==> execution == old(execution)) && (execution != old(execution) ==> fresh(execution))
      ensures Reads(claim.stage) <= data ==> !o.KeyMissing?
      ensures StageCourse(claim.stage, data, world, old(Run()), o)
      ensures o.StageDone? ==> claim.stage != StagesDone
      ensures o.StageDone? ==> Honest(Run(), Issue(claim, CompletedTasks(old(Run()))), StageReport.Success(o.data, o.repeat))
    {
      if Rank(claim.stage) < Rank(ExecutionSetup) {
        o := Prepare(claim.stage, data, world);
        return;
      }
      var early := Common(claim.stage, data, world);
      if early.Some? {
        return early.value;
      }
      if claim.stage == ExecutionSetup {
        o := SetUp(data, world);
      } else if claim.stage == StagesDone {
        o := StageFails(Declared(UnknownStage));
      } else {
        o := OnExecution(claim.stage, data, world);
      }
    }
  }
}
