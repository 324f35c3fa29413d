/** What every transaction keeps about a run and its tasks, over every interleaving. */
module RunInvariant {
  import opened Ordering
  import opened PlanDependencies
  import opened SchedulerState
  import opened Records
  import opened Transitions
  import opened Executions
  import opened CodingRecords
  import opened TestRecords
  import opened RecoveryRecords
  import opened ReviewRecords
  import opened PublicationRecords
  import opened Protocol

  // A released task has all its parents completed.
  ghost predicate ReleasedInOrder(g: Graph, states: States) {
    forall k, p :: k in g && k in states && states[k] in {Queued, SchedulerState.Running, Completed} && p in g[k] ==>
      p in states && states[p] == Completed
  }

  ghost predicate AllAre(states: States, status: TaskStatus) {
    forall k :: k in states ==> states[k] == status
  }

  ghost predicate SomeIn(states: States, kinds: set<TaskStatus>) {
    exists k :: k in states && states[k] in kinds
  }

  ghost predicate StatusFits(g: Graph, status: RunStatus, states: States)
    requires SoundPlan(g) && states.Keys == g.Keys
  {
    match status
    case RunPending => AllAre(states, Pending)
    // unfinished, nothing left to release, and something to work on
    case RunRunning =>
      Advanced(g, states) == states && SomeIn(states, {Queued, SchedulerState.Running})
      && !SomeIn(states, {Cancelled})
    case RunCompleted => AllAre(states, Completed)
    case RunFailed =>
      !SomeIn(states, {Pending, Queued, SchedulerState.Running, Cancelled}) && SomeIn(states, {Failed, Blocked})
    case RunCancelled =>
      !SomeIn(states, {Pending, Queued, SchedulerState.Running}) && SomeIn(states, {Cancelled})
  }

  ghost predicate RunInv(s: Execution) {
    WellFormed(s) && ReleasedInOrder(PlanGraph(s), Statuses(s.tasks))
    && StatusFits(PlanGraph(s), s.status, Statuses(s.tasks))
  }

  ghost predicate ParentsCompleted(s: Execution) {
    forall k, p :: k in s.tasks && k in PlanGraph(s) && s.tasks[k].status in {Queued, SchedulerState.Running, Completed} ==>
      p in PlanGraph(s)[k] ==> p in s.tasks && s.tasks[p].status == Completed
  }

  // The invariant in the words of the status fields.
  lemma RunInvMeans(s: Execution)
    requires RunInv(s)
    ensures s.status == RunCompleted <==> forall k :: k in s.tasks ==> s.tasks[k].status == Completed
    ensures Finished(s.status) ==>
      forall k :: k in s.tasks ==> s.tasks[k].status !in {Pending, Queued, SchedulerState.Running}
    ensures s.status != RunCancelled ==> forall k :: k in s.tasks ==> s.tasks[k].status != Cancelled
    ensures s.status == RunPending ==> forall k :: k in s.tasks ==> s.tasks[k].status == Pending
    ensures s.tasks != map[]
    ensures s.status == RunRunning ==> exists k :: k in s.tasks && s.tasks[k].status in {Queued, SchedulerState.Running}
    ensures ParentsCompleted(s)
  {
    var states := Statuses(s.tasks);
    assert forall k :: k in s.tasks ==> k in states && states[k] == s.tasks[k].status;
    var root := Root(PlanGraph(s));
    assert root in s.tasks;
    if s.status != RunCancelled {
      forall k | k in s.tasks ensures states[k] != Cancelled {
        assert states[k] in {Cancelled} ==> SomeIn(states, {Cancelled});
      }
    }
  }

  lemma Root(g: Graph) returns (k: Key)
    requires SoundPlan(g)
    ensures k in g && forall p :: p !in g[k]
  {
    if Wave(g, 1) == Wave(g, 0) {
      StalledHasCycle(g, 0);
    }
    assert Wave(g, 1) != {};
    k :| k in Wave(g, 1);
  }

  lemma CreatedKeeps(plan: seq<Entry>)
    requires IsPlan(plan)
    ensures RunInv(Created(plan))
  {
  }

  // ---- the scheduling pass ----

  ghost predicate Schedulable(s: Execution) {
    WellFormed(s) && ReleasedInOrder(PlanGraph(s), Statuses(s.tasks))
    && !SomeIn(Statuses(s.tasks), {Cancelled})
    && match s.status
       case RunPending => AllAre(Statuses(s.tasks), Pending)
       case RunRunning => true
       case RunCompleted => AllAre(Statuses(s.tasks), Completed)
       case _ => false
  }

  lemma PassMovesPending(g: Graph, before: States)
    requires SoundPlan(g) && before.Keys == g.Keys
    ensures forall k :: k in g && before[k] != Pending ==> Advanced(g, before)[k] == before[k]
    ensures forall k :: k in g && before[k] == Pending ==> Advanced(g, before)[k] in {Pending, Queued, Blocked}
    ensures forall k :: k in g ==> TaskMove(before[k], Advanced(g, before)[k])
  {
    OthersKeep(g, before);
    forall k | k in g && before[k] == Pending ensures Advanced(g, before)[k] in {Pending, Queued, Blocked} {
      QueuedIffParentsComplete(g, before, k);
    }
  }

  lemma PassReleasesInOrder(g: Graph, before: States)
    requires SoundPlan(g) && before.Keys == g.Keys && ReleasedInOrder(g, before)
    ensures ReleasedInOrder(g, Advanced(g, before))
  {
    var after := Advanced(g, before);
    PassMovesPending(g, before);
    forall k, p | k in g && k in after && after[k] in {Queued, SchedulerState.Running, Completed} && p in g[k]
      ensures p in after && after[p] == Completed
    {
      if before[k] == Pending {
        QueuedIffParentsComplete(g, before, k);
      }
      assert before[p] == Completed;
    }
  }

  lemma RootReleased(g: Graph, before: States)
    requires SoundPlan(g) && before.Keys == g.Keys && AllAre(before, Pending)
    ensures SomeIn(Advanced(g, before), {Queued})
  {
    var k := Root(g);
    QueuedIffParentsComplete(g, before, k);
    assert Advanced(g, before)[k] == Queued;
  }

  lemma CompletedPassIsIdle(g: Graph, before: States)
    requires SoundPlan(g) && before.Keys == g.Keys && AllAre(before, Completed)
    ensures Advanced(g, before) == before && AllTerminal(before) && AllCompleted(before)
  {
    OthersKeep(g, before);
  }

  lemma PassFits(g: Graph, before: States)
    requires SoundPlan(g) && before.Keys == g.Keys && !SomeIn(before, {Cancelled})
    ensures var after := Advanced(g, before);
      StatusFits(g, if !AllTerminal(after) then RunRunning else if AllCompleted(after) then RunCompleted else RunFailed, after)
  {
    var after := Advanced(g, before);
    PassMovesPending(g, before);
    AdvanceIdempotent(g, before);
    assert !SomeIn(after, {Cancelled}) by {
      forall k | k in after ensures after[k] !in {Cancelled} {
        assert before[k] !in {Cancelled};
      }
    }
    if !AllTerminal(after) {
      assert forall k :: k in g ==> before[k] != Cancelled by {
        forall k | k in g ensures before[k] != Cancelled { assert k in before; }
      }
      Progress(g, before);
    } else if !AllCompleted(after) {
      var k :| k in after && after[k] != Completed;
      assert after[k] in {Failed, Blocked};
    }
  }

  // From any schedulable state the pass commits: no edge table ever refuses it.
  lemma AdvanceCommits(s: Execution)
    requires Schedulable(s)
    ensures AdvanceRun(s).Done? && RunInv(AdvanceRun(s).state)
  {
    var g, before := PlanGraph(s), Statuses(s.tasks);
    var after := Advanced(g, before);
    PassMovesPending(g, before);
    PassReleasesInOrder(g, before);
    PassFits(g, before);
    if s.status == RunPending {
      RootReleased(g, before);
      assert !AllTerminal(after);
    } else if s.status == RunCompleted {
      CompletedPassIsIdle(g, before);
    }
    var t := AdvanceRun(s).state;
    assert Statuses(t.tasks) == after;
  }

  // What the pass leaves alone.
  lemma AdvanceFrame(s: Execution)
    requires WellFormed(s) && AdvanceRun(s).Done?
    ensures var t := AdvanceRun(s).state;
      t.plan == s.plan && t.agents == s.agents && t.clock == s.clock && t.tasks.Keys == s.tasks.Keys
    ensures forall k :: k in s.tasks ==>
      var t := AdvanceRun(s).state;
      t.tasks[k].summary == s.tasks[k].summary
      && (t.tasks[k].status == s.tasks[k].status
          || (s.tasks[k].status == Pending && t.tasks[k].status in {Queued, Blocked}))
  {
    PassMovesPending(PlanGraph(s), Statuses(s.tasks));
  }

  lemma ReconcileKeeps(s: Execution)
    requires RunInv(s)
    ensures AdvanceRun(s).Done? && RunInv(AdvanceRun(s).state)
  {
    if s.status != RunFailed && s.status != RunCancelled {
      var states := Statuses(s.tasks);
      assert !SomeIn(states, {Cancelled});
      AdvanceCommits(s);
    }
  }

  // A task move that the edge table allows is never refused by the pass behind it.
  lemma MoveKeeps(s: Execution, k: Key, target: TaskStatus, summary: Summary)
    requires RunInv(s) && k in s.tasks && target in {SchedulerState.Running, Completed, Failed}
    requires TaskMove(s.tasks[k].status, target)
    ensures MoveTask(s, k, target, summary).Done? && RunInv(MoveTask(s, k, target, summary).state)
  {
    var t := SetTask(s, k, target, summary);
    if s.tasks[k].status == target {
      SameStatuses(s, t);
      ReconcileKeeps(t);
    } else {
      RunInvMeans(s);
      assert s.status == RunRunning;
      MovedReleasesInOrder(PlanGraph(s), Statuses(s.tasks), k, target);
      MovedIsSchedulable(s, k, target, summary);
      AdvanceCommits(t);
    }
  }

  lemma MovedIsSchedulable(s: Execution, k: Key, target: TaskStatus, summary: Summary)
    requires WellFormed(s) && s.status == RunRunning && k in s.tasks && target != Cancelled
    requires ReleasedInOrder(PlanGraph(s), Statuses(s.tasks)[k := target])
    requires forall j :: j in s.tasks ==> s.tasks[j].status != Cancelled
    ensures Schedulable(SetTask(s, k, target, summary))
  {
    var t := SetTask(s, k, target, summary);
    assert Statuses(t.tasks) == Statuses(s.tasks)[k := target];
    NoneCancelled(t.tasks);
  }

  lemma NoneCancelled(tasks: map<Key, Task>)
    requires forall k :: k in tasks ==> tasks[k].status != Cancelled
    ensures !SomeIn(Statuses(tasks), {Cancelled})
  {
  }

  lemma MovedReleasesInOrder(g: Graph, was: States, k: Key, target: TaskStatus)
    requires was.Keys == g.Keys && ReleasedInOrder(g, was) && k in g
    requires was[k] in {Queued, SchedulerState.Running}
    ensures ReleasedInOrder(g, was[k := target])
  {
    var now := was[k := target];
    forall j, p | j in g && j in now && now[j] in {Queued, SchedulerState.Running, Completed} && p in g[j]
      ensures p in now && now[p] == Completed
    {
      assert was[p] == Completed;
    }
  }

  // ---- stops ----

  lemma StopKeeps(s: Execution, cancelled: bool)
    requires RunInv(s) && StopLocked(s, cancelled).Done?
    ensures RunInv(StopLocked(s, cancelled).state)
  {
    RunInvMeans(s);
    if Finished(s.status) {
      SameStatuses(s, StopLocked(s, cancelled).state);
    } else {
      var u :| u in s.tasks && s.tasks[u].status in {Pending, Queued, SchedulerState.Running};
      StopUnfinished(s, cancelled, u);
    }
  }

  lemma StopUnfinished(s: Execution, cancelled: bool, u: Key)
    requires WellFormed(s) && ReleasedInOrder(PlanGraph(s), Statuses(s.tasks)) && !Finished(s.status)
    requires u in s.tasks && s.tasks[u].status in {Pending, Queued, SchedulerState.Running}
    requires StopLocked(s, cancelled).Done?
    requires forall k :: k in s.tasks ==> s.tasks[k].status != Cancelled
    ensures RunInv(StopLocked(s, cancelled).state)
  {
    StopClosesAll(PlanGraph(s), s.tasks, cancelled, u);
  }

  // Stopping an unfinished run closes every task, completes none, and leaves a mark.
  lemma StopClosesAll(g: Graph, tasks: map<Key, Task>, cancelled: bool, u: Key)
    requires SoundPlan(g) && tasks.Keys == g.Keys && ReleasedInOrder(g, Statuses(tasks))
    requires u in tasks && tasks[u].status in {Pending, Queued, SchedulerState.Running}
    requires cancelled ==> !AnyTaskRunning(tasks)
    requires forall k :: k in tasks ==> tasks[k].status != Cancelled
    ensures ReleasedInOrder(g, Statuses(AllStopped(tasks, cancelled)))
    ensures StatusFits(g, if cancelled then RunCancelled else RunFailed, Statuses(AllStopped(tasks, cancelled)))
  {
    var was, now := Statuses(tasks), Statuses(AllStopped(tasks, cancelled));
    StoppedStatuses(tasks, cancelled, u);
    CompletedOnlyReleased(g, was, now);
  }

  lemma StoppedStatuses(tasks: map<Key, Task>, cancelled: bool, u: Key)
    requires u in tasks && tasks[u].status in {Pending, Queued, SchedulerState.Running}
    requires cancelled ==> !AnyTaskRunning(tasks)
    requires forall k :: k in tasks ==> tasks[k].status != Cancelled
    ensures var was, now := Statuses(tasks), Statuses(AllStopped(tasks, cancelled));
      now.Keys == was.Keys
      && (forall k :: k in now ==> (now[k] == Completed <==> was[k] == Completed))
      && !SomeIn(now, {Pending, Queued, SchedulerState.Running})
      && (if cancelled then SomeIn(now, {Cancelled}) else SomeIn(now, {Failed, Blocked}) && !SomeIn(now, {Cancelled}))
  {
    var now := Statuses(AllStopped(tasks, cancelled));
    assert forall k :: k in tasks ==> now[k] == StoppedTask(tasks[k], cancelled).status;
    assert now[u] in (if cancelled then {Cancelled} else {Failed, Blocked});
  }

  lemma CompletedOnlyReleased(g: Graph, was: States, now: States)
    requires was.Keys == now.Keys && ReleasedInOrder(g, was)
    requires forall k :: k in now ==> (now[k] == Completed <==> was[k] == Completed)
    requires !SomeIn(now, {Pending, Queued, SchedulerState.Running})
    ensures ReleasedInOrder(g, now)
  {
    forall k, p | k in g && k in now && now[k] in {Queued, SchedulerState.Running, Completed} && p in g[k]
      ensures p in now && now[p] == Completed
    {
      assert now[k] !in {Pending, Queued, SchedulerState.Running};
      assert was[k] == Completed;
      assert was[p] == Completed;
    }
  }

  // ---- every step ----

  // Rows other than tasks and run status do not matter here, nor do summaries.
  lemma SameStatuses(s: Execution, t: Execution)
    requires RunInv(s) && t.plan == s.plan && t.status == s.status && t.tasks.Keys == s.tasks.Keys
    requires forall k :: k in s.tasks ==> t.tasks[k].status == s.tasks[k].status
    ensures RunInv(t)
  {
    assert Statuses(t.tasks) == Statuses(s.tasks);
  }

  // Steps that write no task or run status.
  predicate Bookkeeping(step: Step) {
    step.StartTest? || step.OpenRecovery? || step.ClaimDebug? || step.ReservePatch? || step.FinishDebug?
    || step.StartReview? || step.FinishReview? || step.WriteJournal? || step.ClosePublication? || step.FailPublication?
  }

  ghost predicate SameFrame(s: Execution, t: Execution) {
    t.plan == s.plan && t.status == s.status && t.tasks.Keys == s.tasks.Keys
    && forall k :: k in s.tasks ==> t.tasks[k].status == s.tasks[k].status
  }

  lemma TestFrame(s: Execution, step: Step)
    requires WellFormed(s) && TestStep(step) && Bookkeeping(step)
    ensures SameFrame(s, NextTest(s, step))
  {
  }

  lemma RepairFrame(s: Execution, step: Step)
    requires WellFormed(s) && RepairStep(step) && Bookkeeping(step)
    ensures SameFrame(s, NextRepair(s, step))
  {
  }

  lemma ReviewFrame(s: Execution, step: Step)
    requires WellFormed(s) && ReviewStep(step)
    ensures SameFrame(s, NextReview(s, step))
  {
  }

  lemma BookkeepingFrame(s: Execution, step: Step)
    requires WellFormed(s) && Bookkeeping(step)
    ensures SameFrame(s, Next(s, step))
  {
    if TestStep(step) {
      TestFrame(s, step);
      assert Next(s, step) == NextTest(s, step);
    } else if RepairStep(step) {
      RepairFrame(s, step);
      assert Next(s, step) == NextRepair(s, step);
    } else {
      ReviewFrame(s, step);
      assert Next(s, step) == NextReview(s, step);
    }
  }

  lemma NextKeeps(s: Execution, step: Step)
    requires RunInv(s)
    ensures RunInv(Next(s, step)) && Next(s, step).plan == s.plan
  {
    if Bookkeeping(step) {
      BookkeepingFrame(s, step);
      SameStatuses(s, Next(s, step));
    } else {
      SchedulingKeeps(s, step);
    }
  }

  lemma SchedulingKeeps(s: Execution, step: Step)
    requires RunInv(s) && !Bookkeeping(step)
    ensures RunInv(Next(s, step)) && Next(s, step).plan == s.plan
  {
    if SchedulingStep(step) { ScheduleKeeps(s, step); } else { WorkKeeps(s, step); }
  }

  lemma ScheduleKeeps(s: Execution, step: Step)
    requires RunInv(s) && SchedulingStep(step)
    ensures RunInv(NextSchedule(s, step)) && NextSchedule(s, step).plan == s.plan
  {
    match step
    case Reconcile =>
      ReconcileKeeps(s);
    case Transition(k, target, summary) =>
      var o := Transitioned(s, k, target, summary);
      if o.Done? && o.value { MoveKeeps(s, k, target, summary); }
    case Stop(cancelled) =>
      if StopLocked(s, cancelled).Done? { StopKeeps(s, cancelled); }
    case Sweep(cutoff, idle) =>
      StopKeeps(s, false);
  }

  lemma WorkKeeps(s: Execution, step: Step)
    requires RunInv(s) && !Bookkeeping(step) && !SchedulingStep(step)
    ensures RunInv(Next(s, step)) && Next(s, step).plan == s.plan
  {
    match step
    case StartCoding(k, matches) =>
      StartCodingKeeps(s, k, matches);
    case FinishCoding(k, id, success, output) =>
      FinishCodingKeeps(s, k, id, success, output);
    case FinishTest(k, id, report, error, recovery, diffHash) =>
      FinishTestKeeps(s, k, id, report, error, recovery, diffHash);
    case EndRecovery(owner, passed, error) =>
      EndRecoveryKeeps(s, owner, passed, error);
  }

  lemma StartCodingKeeps(s: Execution, k: Key, matches: bool)
    requires RunInv(s)
    ensures var o := CodingStarted(s, k, matches);
      o.Done? ==> RunInv(o.state) && o.state.plan == s.plan
  {
    if CodingStarted(s, k, matches).Done? {
      MoveKeeps(s, k, SchedulerState.Running, CodingInProgress);
      SameStatuses(MoveTask(s, k, SchedulerState.Running, CodingInProgress).state, CodingStarted(s, k, matches).state);
    }
  }

  lemma FinishCodingKeeps(s: Execution, k: Key, id: nat, success: bool, output: Output)
    requires RunInv(s)
    ensures var o := CodingFinished(s, k, id, success, output);
      o.Done? ==> RunInv(o.state) && o.state.plan == s.plan
  {
    if CodingFinished(s, k, id, success, output).Done? {
      var t := EndAgent(s, id, if success then AgentCompleted else AgentFailed, output);
      SameStatuses(s, t);
      MoveKeeps(t, k, if success then SchedulerState.Running else Failed, if success then PatchApplied else CodingFailed);
    }
  }

  lemma FinishTestKeeps(
    s: Execution, k: Key, id: nat, report: Report, error: Option<Code>, recovery: Option<nat>, diffHash: Option<Digest>)
    requires RunInv(s)
    ensures var o := TestFinished(s, k, id, report, error, recovery, diffHash);
      o.Done? ==> RunInv(o.state) && o.state.plan == s.plan
  {
    if TestFinished(s, k, id, report, error, recovery, diffHash).Done? {
      var passed := Passed(report, error);
      var t := EndAgent(s, id, if passed then AgentCompleted else AgentFailed,
                        NO_OUTPUT.(report := Some(report), error := error, diffHash := diffHash));
      SameStatuses(s, t);
      if ActiveRecovery(s.agents, k).Some? {
        MoveKeeps(t, k, SchedulerState.Running, if passed then RecoveryTestsPassed else RecoveryPending);
      } else {
        MoveKeeps(t, k, if passed then Completed else Failed, if passed then RequiredTestsPassed else RequiredTestsFailed);
      }
    }
  }

  lemma EndRecoveryKeeps(s: Execution, owner: nat, passed: bool, error: Option<Code>)
    requires RunInv(s)
    ensures var o := RecoveryEnd(s, owner, passed, error);
      o.Done? ==> RunInv(o.state) && o.state.plan == s.plan
  {
    if RecoveryEnd(s, owner, passed, error).Done? {
      var k := s.agents[owner].task.value;
      var t := EndAgent(s, owner, if passed then AgentCompleted else AgentFailed,
                        NO_OUTPUT.(error := error, attempts := |Attempts(s.agents, owner)|));
      SameStatuses(s, t);
      MoveKeeps(t, k, if passed then Completed else Failed, if passed then RequiredTestsPassed else RecoveryEnded(error));
    }
  }

  // ---- runs ----

  // The rows after a sequence of transactions, in any interleaving of any number of workers.
  ghost function After(s: Execution, steps: seq<Step>): (t: Execution)
    requires RunInv(s)
    ensures RunInv(t) && t.plan == s.plan
  {
    if steps == [] then s
    else
      var u := After(s, steps[..|steps| - 1]);
      NextKeeps(u, steps[|steps| - 1]);
      Next(u, steps[|steps| - 1])
  }

  // Over every run of every plan: released tasks have completed parents, the run is completed
  // exactly when all tasks are, and a finished run has no task left to schedule or running.
  lemma EveryRun(plan: seq<Entry>, steps: seq<Step>)
    requires IsPlan(plan)
    ensures RunInv(Created(plan))
    ensures var s := After(Created(plan), steps);
      && s.tasks.Keys == GraphOf(plan).Keys
      && (s.status == RunCompleted <==> forall k :: k in s.tasks ==> s.tasks[k].status == Completed)
      && (Finished(s.status) ==> forall k :: k in s.tasks ==> s.tasks[k].status !in {Pending, Queued, SchedulerState.Running})
      && ParentsCompleted(s)
  {
    CreatedKeeps(plan);
    RunInvMeans(After(Created(plan), steps));
  }

  // `_advance` never raises on a reachable state, alone or behind an allowed task move.
  lemma AdvanceNeverRaises(plan: seq<Entry>, steps: seq<Step>)
    requires IsPlan(plan)
    ensures RunInv(Created(plan))
    ensures AdvanceRun(After(Created(plan), steps)).Done?
    ensures var s := After(Created(plan), steps);
      forall k, target, summary :: MayMove(s, k, target) ==> MoveTask(s, k, target, summary).Done?
  {
    CreatedKeeps(plan);
    var s := After(Created(plan), steps);
    ReconcileKeeps(s);
    forall k, target, summary | MayMove(s, k, target) ensures MoveTask(s, k, target, summary).Done? {
      MoveKeeps(s, k, target, summary);
    }
  }

  ghost predicate MayMove(s: Execution, k: Key, target: TaskStatus) {
    k in s.tasks && target in {SchedulerState.Running, Completed, Failed} && TaskMove(s.tasks[k].status, target)
  }
}
