/** The run and its tasks: creation, scheduling, claims, stops (app/services/executions.py). */
module Executions {
  import opened Ordering
  import opened PlanDependencies
  import opened SchedulerState
  import opened Records
  import opened Transitions

  ghost predicate WellFormed(s: Execution) {
    IsPlan(s.plan) && s.tasks.Keys == PlanGraph(s).Keys
  }

  lemma ParentsAreTasks(s: Execution, k: Key)
    requires WellFormed(s) && k in s.tasks
    ensures k in PlanGraph(s) && forall p :: p in PlanGraph(s)[k] ==> p in s.tasks
  {
  }

  predicate AllTerminal(states: States) {
    forall k | k in states :: Terminal(states[k])
  }

  predicate AllCompleted(states: States) {
    forall k | k in states :: states[k] == Completed
  }

  predicate AnyTaskRunning(tasks: map<Key, Task>) {
    exists k | k in tasks :: tasks[k].status == SchedulerState.Running
  }

  function WithStatuses(tasks: map<Key, Task>, states: States): map<Key, Task>
    requires tasks.Keys == states.Keys
  {
    map k | k in tasks :: tasks[k].(status := states[k])
  }

  // ---- what each transaction does to the rows ----

  // `_advance`: one scheduling pass, then the run status that the tasks imply. Every status is
  // checked against the edge tables; a refused edge rolls the transaction back.
  ghost function AdvanceRun(s: Execution): Outcome<()>
    requires WellFormed(s)
  {
    if s.status == RunFailed || s.status == RunCancelled then Done(s, ())
    else
      var before := Statuses(s.tasks);
      var after := Advanced(PlanGraph(s), before);
      var target := if !AllTerminal(after) then RunRunning else if AllCompleted(after) then RunCompleted else RunFailed;
      if (exists k :: k in before && !TaskMove(before[k], after[k])) || !RunMove(s.status, target) then
        Refused(InvalidStateTransition)
      else
        Done(s.(tasks := WithStatuses(s.tasks, after), status := target), ())
  }

  // A checked task status, its new summary, and the scheduling pass that follows in the transaction.
  ghost function MoveTask(s: Execution, k: Key, target: TaskStatus, summary: Summary): Outcome<()>
    requires WellFormed(s) && k in s.tasks
  {
    if !TaskMove(s.tasks[k].status, target) then Refused(InvalidStateTransition)
    else AdvanceRun(SetTask(s, k, target, summary))
  }

  ghost function Transitioned(s: Execution, k: Key, target: TaskStatus, summary: Summary): Outcome<bool>
    requires WellFormed(s)
  {
    if target !in {SchedulerState.Running, Completed, Failed} then Refused(UnsupportedTransition)
    else if k !in s.tasks then Refused(RecordNotFound)
    else
      var current := s.tasks[k].status;
      if current == target then Done(s, false)
      else if target == SchedulerState.Running && current in {Completed, Failed, Blocked} then Done(s, false)
      else if current != (if target == SchedulerState.Running then Queued else SchedulerState.Running) then
        Refused(InvalidTaskTransition)
      else
        match MoveTask(s, k, target, summary)
        case Refused(error) => Refused(error)
        case Done(t, _) => Done(t, true)
  }

  function Interrupted(a: Agent, now: nat, reason: Code): Agent {
    if IsRunning(a) then a.(status := AgentFailed, completed := Some(now), output := a.output.(error := Some(reason)))
    else a
  }

  function StoppedTask(t: Task, cancelled: bool): Task {
    if Terminal(t.status) || t.status == Cancelled then t
    else Task(
      if t.status == SchedulerState.Running then Failed else if cancelled then Cancelled else Blocked,
      if cancelled then ExecutionCancelled else WorkerInterrupted)
  }

  function AllInterrupted(agents: seq<Agent>, now: nat, reason: Code): seq<Agent> {
    seq(|agents|, i requires 0 <= i < |agents| => Interrupted(agents[i], now, reason))
  }

  function AllStopped(tasks: map<Key, Task>, cancelled: bool): map<Key, Task> {
    map k | k in tasks :: StoppedTask(tasks[k], cancelled)
  }

  // `stop_locked`: fail the running agents and close every unfinished task.
  function StopLocked(s: Execution, cancelled: bool): Outcome<()> {
    if cancelled && (AnyRunning(s.agents) || AnyTaskRunning(s.tasks)) then Refused(ExecutionBusy)
    else if Finished(s.status) && (cancelled || !AnyRunning(s.agents)) then Done(s, ())
    else
      var reason := if cancelled then ExecutionCancelledCode else WorkerInterruptedCode;
      Done(s.(
        agents := AllInterrupted(s.agents, s.clock, reason),
        tasks := AllStopped(s.tasks, cancelled),
        status := if Finished(s.status) then s.status else if cancelled then RunCancelled else RunFailed,
        clock := s.clock + 1), ())
  }

  predicate StartedBefore(agents: seq<Agent>, cutoff: nat) {
    exists a | a in agents :: IsRunning(a) && a.started < cutoff
  }

  predicate StartedSince(agents: seq<Agent>, cutoff: nat) {
    exists a | a in agents :: IsRunning(a) && a.started >= cutoff
  }

  // One row of the stale sweep; `idle` says whether the run row itself is older than the cutoff.
  function RecoverStale(s: Execution, cutoff: nat, idle: bool): Outcome<bool> {
    if !((!Finished(s.status) && idle) || StartedBefore(s.agents, cutoff)) then Done(s, false)
    else if !AnyTaskRunning(s.tasks) && !StartedBefore(s.agents, cutoff) then Done(s, false)
    else if StartedSince(s.agents, cutoff) then Done(s, false)
    else
      match StopLocked(s, false)
      case Refused(error) => Refused(error)
      case Done(t, _) => Done(t, true)
  }

  function Created(plan: seq<Entry>): Execution {
    Execution(plan, RunPending, map k | k in GraphOf(plan) :: Task(Pending, NoSummary), [], 0)
  }

  // ---- the rows themselves ----

  datatype Result<+T> = Ok(value: T) | Err(error: Error)

  class ExecutionStore {
    const plan: seq<Entry>
    var status: RunStatus
    var tasks: map<Key, Task>
    var agents: seq<Agent>
    var clock: nat

    ghost predicate Valid()
      reads this
    {
      WellFormed(View())
    }

    function View(): (s: Execution)
      reads this
      ensures s == Execution(plan, status, tasks, agents, clock)
    {
      Execution(plan, status, tasks, agents, clock)
    }

    constructor (plan: seq<Entry>)
      requires IsPlan(plan)
      ensures View() == Created(plan) && Valid()
    {
      this.plan := plan;
      status, agents, clock := RunPending, [], 0;
      tasks := map k | k in GraphOf(plan) :: Task(Pending, NoSummary);
    }

    // A raised error rolls the session back to the rows it started from.
    method Rollback(saved: Execution)
      requires saved.plan == plan
      modifies this
      ensures View() == saved
    {
      status, tasks, agents, clock := saved.status, saved.tasks, saved.agents, saved.clock;
    }

    // `task_state` on every task in turn.
    method SetStatuses(states: States) returns (ok: bool)
      requires states.Keys == tasks.Keys
      modifies this`tasks
      ensures tasks.Keys == old(tasks).Keys
      ensures ok <==> forall k :: k in states ==> TaskMove(old(tasks)[k].status, states[k])
      ensures ok ==> tasks == WithStatuses(old(tasks), states)
    {
      ghost var was := tasks;
      var rest := states.Keys;
      while rest != {}
        invariant rest <= states.Keys == tasks.Keys == was.Keys
        invariant forall k :: k in was && k !in rest ==> TaskMove(was[k].status, states[k])
        invariant forall k :: k in was ==> tasks[k] == if k in rest then was[k] else was[k].(status := states[k])
        decreases |rest|
      {
        var key :| key in rest;
        if !TaskMove(tasks[key].status, states[key]) {
          return false;
        }
        tasks := tasks[key := tasks[key].(status := states[key])];
        rest := rest - {key};
      }
      ok := true;
    }

    // `_advance`; on failure the caller rolls back.
    method Advance() returns (ok: bool)
      requires Valid()
      modifies this
      ensures Valid()
      ensures ok <==> AdvanceRun(old(View())).Done?
      ensures ok ==> View() == AdvanceRun(old(View())).state
    {
      if status == RunFailed || status == RunCancelled {
        return true;
      }
      var outcome := AdvanceTasks(plan, Statuses(tasks));
      var states := outcome.states;
      ok := SetStatuses(states);
      if !ok {
        return;
      }
      var target :=
        if !AllTerminal(states) then RunRunning else if AllCompleted(states) then RunCompleted else RunFailed;
      if !RunMove(status, target) {
        return false;
      }
      status := target;
    }

    method Insert(kind: AgentKind, key: Option<Key>, input: Input)
      modifies this`agents, this`clock
      ensures View() == AddAgent(old(View()), kind, key, input)
    {
      agents := agents + [Agent(|agents|, kind, key, AgentRunning, clock, None, input, NO_OUTPUT)];
      clock := clock + 1;
    }

    method Close(id: nat, target: AgentStatus, output: Output)
      requires id < |agents|
      modifies this`agents, this`clock
      ensures View() == EndAgent(old(View()), id, target, output)
    {
      agents := agents[id := agents[id].(status := target, completed := Some(clock), output := output)];
      clock := clock + 1;
    }

    method Annotate(id: nat, output: Output)
      requires id < |agents|
      modifies this`agents
      ensures agents == old(agents)[id := old(agents)[id].(output := output)]
    {
      agents := agents[id := agents[id].(output := output)];
    }

    method SetAgentStatus(id: nat, target: AgentStatus)
      requires id < |agents|
      modifies this`agents
      ensures agents == old(agents)[id := old(agents)[id].(status := target)]
    {
      agents := agents[id := agents[id].(status := target)];
    }

    method Summarize(key: Key, summary: Summary)
      requires key in tasks
      modifies this`tasks
      ensures View() == SetTask(old(View()), key, old(tasks)[key].status, summary)
    {
      tasks := tasks[key := tasks[key].(summary := summary)];
    }

    method Reconcile() returns (r: Result<()>)
      requires Valid()
      modifies this
      ensures Valid()
      ensures Commits(r, AdvanceRun(old(View())), old(View()), View())
    {
      var saved := View();
      var ok := Advance();
      if !ok {
        Rollback(saved);
        return Err(InvalidStateTransition);
      }
      r := Ok(());
    }

    // task_state, output_summary and _advance in one transaction; on failure the caller rolls back.
    method Move(key: Key, target: TaskStatus, summary: Summary) returns (ok: bool)
      requires Valid() && key in tasks
      modifies this
      ensures Valid()
      ensures ok <==> MoveTask(old(View()), key, target, summary).Done?
      ensures ok ==> View() == MoveTask(old(View()), key, target, summary).state
    {
      if !TaskMove(tasks[key].status, target) {
        return false;
      }
      tasks := tasks[key := Task(target, summary)];
      ok := Advance();
    }

    method Transition(key: Key, target: TaskStatus, summary: Summary) returns (r: Result<bool>)
      requires Valid()
      modifies this
      ensures Valid()
      ensures Commits(r, Transitioned(old(View()), key, target, summary), old(View()), View())
    {
      if target !in {SchedulerState.Running, Completed, Failed} {
        return Err(UnsupportedTransition);
      }
      if key !in tasks {
        return Err(RecordNotFound);
      }
      var current := tasks[key].status;
      // Duplicate worker claims are no-ops, including late delivery after completion.
      if current == target || (target == SchedulerState.Running && current in {Completed, Failed, Blocked}) {
        return Ok(false);
      }
      if current != (if target == SchedulerState.Running then Queued else SchedulerState.Running) {
        return Err(InvalidTaskTransition);
      }
      var saved := View();
      var ok := Move(key, target, summary);
      if !ok {
        Rollback(saved);
        return Err(InvalidStateTransition);
      }
      r := Ok(true);
    }

    method FailAgents(now: nat, reason: Code)
      modifies this`agents
      ensures agents == AllInterrupted(old(agents), now, reason)
    {
      ghost var was := agents;
      var i := 0;
      while i < |agents|
        invariant 0 <= i <= |agents| == |was|
        invariant forall j :: 0 <= j < |was| ==>
          agents[j] == if j < i then Interrupted(was[j], now, reason) else was[j]
      {
        if IsRunning(agents[i]) {
          assert AgentMove(agents[i].kind, agents[i].status, AgentFailed);
          agents := agents[i := agents[i].(status := AgentFailed, completed := Some(now),
            output := agents[i].output.(error := Some(reason)))];
        }
        i := i + 1;
      }
    }

    // Every change is one that the edge table allows.
    method CloseTasks(cancelled: bool)
      requires cancelled ==> !AnyTaskRunning(tasks)
      modifies this`tasks
      ensures tasks == AllStopped(old(tasks), cancelled)
    {
      ghost var was := tasks;
      var rest := tasks.Keys;
      while rest != {}
        invariant rest <= tasks.Keys == was.Keys
        invariant forall k :: k in was ==>
          tasks[k] == if k in rest then was[k] else StoppedTask(was[k], cancelled)
        decreases |rest|
      {
        var key :| key in rest;
        var current := tasks[key].status;
        if !Terminal(current) && current != Cancelled {
          var target := if current == SchedulerState.Running then Failed else if cancelled then Cancelled else Blocked;
          assert TaskMove(current, target);
          tasks := tasks[key := Task(target, if cancelled then ExecutionCancelled else WorkerInterrupted)];
        }
        rest := rest - {key};
      }
    }

    method Stop(cancelled: bool) returns (r: Result<()>)
      requires Valid()
      modifies this
      ensures Valid()
      ensures Commits(r, StopLocked(old(View()), cancelled), old(View()), View())
    {
      if cancelled && (AnyRunning(agents) || AnyTaskRunning(tasks)) {
        return Err(ExecutionBusy);
      }
      if Finished(status) && (cancelled || !AnyRunning(agents)) {
        return Ok(());
      }
      FailAgents(clock, if cancelled then ExecutionCancelledCode else WorkerInterruptedCode);
      CloseTasks(cancelled);
      if !Finished(status) {
        status := if cancelled then RunCancelled else RunFailed;
      }
      clock := clock + 1;
      r := Ok(());
    }

    method Recover(cutoff: nat, idle: bool) returns (r: Result<bool>)
      requires Valid()
      modifies this
      ensures Valid()
      ensures Commits(r, RecoverStale(old(View()), cutoff, idle), old(View()), View())
    {
      var stale := StartedBefore(agents, cutoff);
      if !((!Finished(status) && idle) || stale) || (!AnyTaskRunning(tasks) && !stale) {
        return Ok(false);
      }
      if StartedSince(agents, cutoff) {
        return Ok(false);
      }
      var stopped := Stop(false);
      r := if stopped.Ok? then Ok(true) else Err(stopped.error);
    }
  }

  // The transaction did what its outcome says: committed rows and value, or an error and the old rows.
  ghost predicate Commits<T(!new)>(r: Result<T>, outcome: Outcome<T>, before: Execution, after: Execution) {
    match outcome
    case Done(state, value) => r == Ok(value) && after == state
    case Refused(error) => r == Err(error) && after == before
  }

  // `create`: the plan is validated again before a run and its pending tasks are stored.
  method Create(plan: seq<Entry>) returns (r: Result<ExecutionStore>)
    ensures r.Ok? <==> IsPlan(plan)
    ensures r.Ok? ==> fresh(r.value) && r.value.Valid() && r.value.View() == Created(plan)
    ensures r.Err? ==> r.error == InvalidExecutionPlan
  {
    if exists i, j | 0 <= i < j < |plan| :: plan[i].key == plan[j].key {
      return Err(InvalidExecutionPlan);
    }
    var order := ExecutionOrder(plan);
    if order.Rejected? {
      return Err(InvalidExecutionPlan);
    }
    ValidatedIsClosed(GraphOf(plan));
    var store := new ExecutionStore(plan);
    r := Ok(store);
  }
}
