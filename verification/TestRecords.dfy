/** Test claims, the patch they are charged to, and their completion (app/services/test_records.py). */
module TestRecords {
  import opened Ordering
  import opened PlanDependencies
  import opened SchedulerState
  import opened Records
  import opened Transitions
  import opened Executions

  // Tests of a task in recovery belong to that recovery, and only to it.
  predicate Owns(active: Option<nat>, recovery: Option<nat>) {
    active == recovery || (active.None? && recovery.None?)
  }

  function TestStarted(s: Execution, k: Key, commands: seq<string>, recovery: Option<nat>): Outcome<nat> {
    if k !in s.tasks then Refused(RecordNotFound)
    else
      var active := ActiveRecovery(s.agents, k);
      if !Owns(active, recovery) then Refused(RecoveryOwnsTests)
      else if active.Some? && s.agents[active.value].input.commands != commands then Refused(RecoveryTestPolicyChanged)
      else if s.tasks[k] != Task(SchedulerState.Running, PatchApplied) then Refused(TaskNotAwaitingTests)
      else
        var patch := LatestPatch(s.agents, k, active.Some?);
        if patch.None? then Refused(CodingResultRequired)
        else if s.agents[patch.value].output.gitDiff.None? then Refused(InvalidCodingResult)
        else
          Done(AddAgent(SetTask(s, k, SchedulerState.Running, TestsRunning), Test, Some(k),
                        NO_INPUT.(commands := commands, patch := patch, recovery := recovery)),
               |s.agents|)
  }

  predicate Passed(report: Report, error: Option<Code>) {
    error.None? && report.passed && report.results != []
  }

  ghost function TestFinished(
    s: Execution, k: Key, id: nat, report: Report, error: Option<Code>, recovery: Option<nat>, diffHash: Option<Digest>
  ): Outcome<()>
    requires WellFormed(s)
  {
    if k !in s.tasks || id >= |s.agents| || s.tasks[k] != Task(SchedulerState.Running, TestsRunning)
       || !IsRunning(s.agents[id]) || s.agents[id].task != Some(k) then Refused(TestStateChanged)
    else
      var active := ActiveRecovery(s.agents, k);
      var passed := Passed(report, error);
      if !Owns(active, recovery) then Refused(RecoveryOwnsTests)
      else
        var t := EndAgent(s, id, if passed then AgentCompleted else AgentFailed,
                          NO_OUTPUT.(report := Some(report), error := error, diffHash := diffHash));
        if active.Some? then
          MoveTask(t, k, SchedulerState.Running, if passed then RecoveryTestsPassed else RecoveryPending)
        else
          MoveTask(t, k, if passed then Completed else Failed, if passed then RequiredTestsPassed else RequiredTestsFailed)
  }

  class TestRecords {
    const store: ExecutionStore

    constructor (store: ExecutionStore)
      ensures this.store == store
    {
      this.store := store;
    }

    method Start(key: Key, commands: seq<string>, recovery: Option<nat>) returns (r: Result<nat>)
      requires store.Valid()
      modifies store
      ensures store.Valid()
      ensures Commits(r, TestStarted(old(store.View()), key, commands, recovery), old(store.View()), store.View())
    {
      if key !in store.tasks {
        return Err(RecordNotFound);
      }
      var active := ActiveRecovery(store.agents, key);
      if (active.Some? && active != recovery) || (recovery.Some? && active.None?) {
        return Err(RecoveryOwnsTests);
      }
      if active.Some? && store.agents[active.value].input.commands != commands {
        return Err(RecoveryTestPolicyChanged);
      }
      if store.tasks[key].status != SchedulerState.Running || store.tasks[key].summary != PatchApplied {
        return Err(TaskNotAwaitingTests);
      }
      var patch := LatestPatch(store.agents, key, active.Some?);
      if patch.None? {
        return Err(CodingResultRequired);
      }
      if store.agents[patch.value].output.gitDiff.None? {
        return Err(InvalidCodingResult);
      }
      store.Summarize(key, TestsRunning);
      r := Ok(|store.agents|);
      store.Insert(Test, Some(key), NO_INPUT.(commands := commands, patch := patch, recovery := recovery));
    }

    // The task after its tests: the recovery that owns them decides, or else their result.
    method MoveOn(key: Key, owned: bool, passed: bool) returns (ok: bool)
      requires store.Valid() && key in store.tasks
      modifies store
      ensures store.Valid()
      ensures var o :=
          if owned then
            MoveTask(old(store.View()), key, SchedulerState.Running, if passed then RecoveryTestsPassed else RecoveryPending)
          else
            MoveTask(old(store.View()), key, if passed then Completed else Failed,
                     if passed then RequiredTestsPassed else RequiredTestsFailed);
        (ok <==> o.Done?) && (ok ==> store.View() == o.state)
    {
      if owned {
        ok := store.Move(key, SchedulerState.Running, if passed then RecoveryTestsPassed else RecoveryPending);
      } else {
        ok := store.Move(key, if passed then Completed else Failed, if passed then RequiredTestsPassed else RequiredTestsFailed);
      }
    }

    method Finish(
      key: Key, id: nat, report: Report, error: Option<Code>, recovery: Option<nat>, diffHash: Option<Digest>
    ) returns (r: Result<()>)
      requires store.Valid()
      modifies store
      ensures store.Valid()
      ensures Commits(r, TestFinished(old(store.View()), key, id, report, error, recovery, diffHash),
                      old(store.View()), store.View())
    {
      if key !in store.tasks || id >= |store.agents| || store.tasks[key].status != SchedulerState.Running
         || store.tasks[key].summary != TestsRunning || !IsRunning(store.agents[id])
         || store.agents[id].task != Some(key) {
        return Err(TestStateChanged);
      }
      var passed := error.None? && report.passed && report.results != [];
      var active := ActiveRecovery(store.agents, key);
      if (active.Some? && active != recovery) || (recovery.Some? && active.None?) {
        return Err(RecoveryOwnsTests);
      }
      var saved := store.View();
      store.Close(id, if passed then AgentCompleted else AgentFailed,
                  NO_OUTPUT.(report := Some(report), error := error, diffHash := diffHash));
      var ok := MoveOn(key, active.Some?, passed);
      if !ok {
        store.Rollback(saved);
        return Err(InvalidStateTransition);
      }
      r := Ok(());
    }
  }
}
