/** What a stop and the stale sweep do, in the fields of the rows (app/services/executions.py). */
module ExecutionFacts {
  import opened Ordering
  import opened SchedulerState
  import opened Records
  import opened Executions
  import opened Protocol
  import opened RunInvariant
  import opened AgentRows
  import opened Fencing

  ghost predicate RunningRow(s: Execution, i: nat) {
    i < |s.agents| && s.agents[i].status == AgentRunning
  }

  ghost predicate SomethingRuns(s: Execution) {
    (exists i: nat :: RunningRow(s, i)) || SomeTaskRuns(s)
  }

  ghost predicate SomeTaskRuns(s: Execution) {
    exists k :: k in s.tasks && s.tasks[k].status == SchedulerState.Running
  }

  lemma RunningMeans(s: Execution)
    ensures AnyRunning(s.agents) <==> exists i: nat :: RunningRow(s, i)
    ensures AnyTaskRunning(s.tasks) <==> SomeTaskRuns(s)
  {
    if AnyRunning(s.agents) {
      var a :| a in s.agents && IsRunning(a);
      var i :| 0 <= i < |s.agents| && s.agents[i] == a;
      assert RunningRow(s, i);
    }
    forall i: nat | RunningRow(s, i) ensures s.agents[i] in s.agents {
    }
  }

  // Every running record fails with the reason, every running task fails, and every task that waits is
  // cancelled or blocked; what was over stays as it was.
  ghost predicate StoppedRows(s: Execution, t: Execution, cancelled: bool) {
    |t.agents| == |s.agents| && t.tasks.Keys == s.tasks.Keys
    && (forall i :: 0 <= i < |s.agents| ==> StoppedRow(s.agents[i], t.agents[i], cancelled))
    && (forall k :: k in s.tasks ==> StoppedAs(s.tasks[k], t.tasks[k], cancelled))
    && t.status == (match s.status
                    case RunPending => if cancelled then RunCancelled else RunFailed
                    case RunRunning => if cancelled then RunCancelled else RunFailed
                    case over => over)
  }

  ghost predicate StoppedRow(a: Agent, b: Agent, cancelled: bool) {
    if a.status == AgentRunning
    then b.status == AgentFailed && b.completed.Some? && b.kind == a.kind && b.task == a.task
         && b.output.error == Some(if cancelled then ExecutionCancelledCode else WorkerInterruptedCode)
    else b == a
  }

  ghost predicate StoppedAs(a: Task, b: Task, cancelled: bool) {
    if a.status == SchedulerState.Running then b.status == Failed && b.summary == WorkerInterrupted
    else if a.status == Pending || a.status == Queued then
      b == if cancelled then Task(Cancelled, ExecutionCancelled) else Task(Blocked, WorkerInterrupted)
    else b == a
  }

  // A cancellation is refused exactly while something runs; any other stop goes through.
  lemma StoppedExactly(s: Execution, cancelled: bool)
    requires RunInv(s)
    ensures var o := StopLocked(s, cancelled);
      (o.Refused? <==> cancelled && SomethingRuns(s)) && (o.Done? ==> StoppedRows(s, o.state, cancelled))
  {
    RunningMeans(s);
    var o := StopLocked(s, cancelled);
    if o.Done? {
      RowsStop(s, cancelled);
      TasksStop(s, cancelled);
    }
  }

  lemma RowsStop(s: Execution, cancelled: bool)
    requires StopLocked(s, cancelled).Done?
    ensures var t := StopLocked(s, cancelled).state;
      |t.agents| == |s.agents| && forall i :: 0 <= i < |s.agents| ==> StoppedRow(s.agents[i], t.agents[i], cancelled)
  {
    forall i | 0 <= i < |s.agents| ensures StoppedRow(s.agents[i], StopLocked(s, cancelled).state.agents[i], cancelled) {
      assert s.agents[i] in s.agents;
    }
  }

  lemma TasksStop(s: Execution, cancelled: bool)
    requires RunInv(s) && StopLocked(s, cancelled).Done?
    ensures var t := StopLocked(s, cancelled).state;
      t.tasks.Keys == s.tasks.Keys && forall k :: k in s.tasks ==> StoppedAs(s.tasks[k], t.tasks[k], cancelled)
  {
    RunInvMeans(s);
    RunningMeans(s);
  }

  // The sweep stops a run exactly if every running record started before the cutoff and either there is
  // one or the run is unfinished, idle and has a task at work; otherwise it changes nothing.
  lemma SweptExactly(s: Execution, cutoff: nat, idle: bool)
    requires RunInv(s) && RowsInv(s)
    ensures var t := Next(s, Sweep(cutoff, idle));
      if (forall i: nat :: RunningRow(s, i) ==> s.agents[i].started < cutoff)
         && ((exists i: nat :: RunningRow(s, i)) || (s.status in {RunPending, RunRunning} && idle && SomeTaskRuns(s)))
      then StoppedRows(s, t, false) && Quiescent(t)
      else t == s
  {
    RunningMeans(s);
    StaleMeans(s, cutoff);
    if !StartedSince(s.agents, cutoff)
       && (StartedBefore(s.agents, cutoff) || (!Finished(s.status) && idle && AnyTaskRunning(s.tasks))) {
      StoppedExactly(s, false);
      StopQuiesces(s, false);
    }
    assert Next(s, Sweep(cutoff, idle)) == NextSchedule(s, Sweep(cutoff, idle));
  }

  lemma StaleMeans(s: Execution, cutoff: nat)
    ensures StartedBefore(s.agents, cutoff) <==> exists i: nat :: RunningRow(s, i) && s.agents[i].started < cutoff
    ensures StartedSince(s.agents, cutoff) <==> exists i: nat :: RunningRow(s, i) && s.agents[i].started >= cutoff
  {
    forall i: nat | RunningRow(s, i) ensures s.agents[i] in s.agents {
    }
    if StartedBefore(s.agents, cutoff) {
      var a :| a in s.agents && IsRunning(a) && a.started < cutoff;
      var i :| 0 <= i < |s.agents| && s.agents[i] == a;
      assert RunningRow(s, i);
    }
    if StartedSince(s.agents, cutoff) {
      var a :| a in s.agents && IsRunning(a) && a.started >= cutoff;
      var i :| 0 <= i < |s.agents| && s.agents[i] == a;
      assert RunningRow(s, i);
    }
  }
}
