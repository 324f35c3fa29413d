/** Coding claims and their completion (app/services/coding_records.py). */
module CodingRecords {
  import opened Ordering
  import opened PlanDependencies
  import opened SchedulerState
  import opened Records
  import opened Transitions
  import opened Executions

  // `matches` says whether the issue context handed in belongs to the plan of this execution.
  ghost function CodingStarted(s: Execution, k: Key, matches: bool): Outcome<nat>
    requires WellFormed(s)
  {
    if k !in s.tasks then Refused(RecordNotFound)
    else if !matches then Refused(ContextMismatch)
    else if s.tasks[k].status != Queued || exists p :: p in PlanGraph(s)[k] && s.tasks[p].status != Completed then
      Refused(CodingTaskNotReady)
    else
      match MoveTask(s, k, SchedulerState.Running, CodingInProgress)
      case Refused(error) => Refused(error)
      case Done(t, _) => Done(AddAgent(t, Coding, Some(k), NO_INPUT), |t.agents|)
  }

  ghost function CodingFinished(s: Execution, k: Key, id: nat, success: bool, output: Output): Outcome<()>
    requires WellFormed(s)
  {
    if k !in s.tasks || id >= |s.agents| then Refused(RecordNotFound)
    else if s.tasks[k].status != SchedulerState.Running || !IsRunning(s.agents[id]) || s.agents[id].task != Some(k) then
      Refused(CodingTaskStateChanged)
    else
      var t := EndAgent(s, id, if success then AgentCompleted else AgentFailed, output);
      MoveTask(t, k, if success then SchedulerState.Running else Failed, if success then PatchApplied else CodingFailed)
  }

  class CodingRecords {
    const store: ExecutionStore

    constructor (store: ExecutionStore)
      ensures this.store == store
    {
      this.store := store;
    }

    method Start(key: Key, matches: bool) returns (r: Result<nat>)
      requires store.Valid()
      modifies store
      ensures store.Valid()
      ensures Commits(r, CodingStarted(old(store.View()), key, matches), old(store.View()), store.View())
    {
      if key !in store.tasks {
        return Err(RecordNotFound);
      }
      if !matches {
        return Err(ContextMismatch);
      }
      if store.tasks[key].status != Queued {
        return Err(CodingTaskNotReady);
      }
      ParentsAreTasks(store.View(), key);
      if exists p | p in GraphOf(store.plan)[key] :: store.tasks[p].status != Completed {
        return Err(CodingTaskNotReady);
      }
      var saved := store.View();
      var ok := store.Move(key, SchedulerState.Running, CodingInProgress);
      if !ok {
        store.Rollback(saved);
        return Err(InvalidStateTransition);
      }
      r := Ok(|store.agents|);
      store.Insert(Coding, Some(key), NO_INPUT);
    }

    method Finish(key: Key, id: nat, success: bool, output: Output) returns (r: Result<()>)
      requires store.Valid()
      modifies store
      ensures store.Valid()
      ensures Commits(r, CodingFinished(old(store.View()), key, id, success, output), old(store.View()), store.View())
    {
      if key !in store.tasks || id >= |store.agents| {
        return Err(RecordNotFound);
      }
      if store.tasks[key].status != SchedulerState.Running || !IsRunning(store.agents[id])
         || store.agents[id].task != Some(key) {
        return Err(CodingTaskStateChanged);
      }
      var saved := store.View();
      store.Close(id, if success then AgentCompleted else AgentFailed, output);
      var ok := store.Move(key, if success then SchedulerState.Running else Failed,
                           if success then PatchApplied else CodingFailed);
      if !ok {
        store.Rollback(saved);
        return Err(InvalidStateTransition);
      }
      r := Ok(());
    }
  }
}
