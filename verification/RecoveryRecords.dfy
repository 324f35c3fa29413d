/** Recovery ownership, its persisted attempt budget and patch fingerprints (app/services/recovery_records.py). */
module RecoveryRecords {
  import opened Ordering
  import opened PlanDependencies
  import opened SchedulerState
  import opened Records
  import opened Transitions
  import opened Executions

  function Opened(s: Execution, k: Key, matches: bool, commands: seq<string>, limit: nat): Outcome<(nat, bool)> {
    if k !in s.tasks || ActiveRecovery(s.agents, k).Some? then Refused(RecoveryUnavailable)
    else if s.tasks[k].status != Queued && s.tasks[k] != Task(SchedulerState.Running, PatchApplied) then
      Refused(TaskNotReadyForRecovery)
    else if !matches then Refused(ContextMismatch)
    else
      Done(AddAgent(s, Recovery, Some(k), NO_INPUT.(limit := Some(limit), commands := commands)),
           (|s.agents|, s.tasks[k].status == Queued))
  }

  // Why the recovery cannot be locked, if it cannot.
  function LockFault(s: Execution, recovery: nat): Option<Error> {
    if recovery >= |s.agents| || s.agents[recovery].task.None? || s.agents[recovery].task.value !in s.tasks then
      Some(RecoveryMissing)
    else if !IsRunning(s.agents[recovery]) then Some(RecoveryFinished)
    else None
  }

  function DebugClaimed(s: Execution, recovery: nat): Outcome<nat> {
    var fault := LockFault(s, recovery);
    if fault.Some? then Refused(fault.value)
    else
      var parent := s.agents[recovery];
      var k := parent.task.value;
      var previous := |Attempts(s.agents, recovery)|;
      if parent.input.limit.None? || previous >= parent.input.limit.value
         || s.tasks[k] != Task(SchedulerState.Running, RecoveryPending) then Refused(DebugAttemptUnavailable)
      else
        Done(AddAgent(SetTask(s, k, s.tasks[k].status, DebugRunning), Debug, Some(k),
                      NO_INPUT.(recovery := Some(recovery), attempt := previous + 1)),
             |s.agents|)
  }

  // The patch was already tried by this recovery, or is the coding patch of the task.
  predicate Repeated(agents: seq<Agent>, recovery: nat, k: Key, fingerprint: Digest) {
    (exists a | a in agents :: IsAttempt(a, recovery) && a.output.patchHash == Some(fingerprint))
    || exists a | a in agents :: a.kind == Coding && a.task == Some(k) && a.output.proposal.Some?
         && Sha256(a.output.proposal.value) == fingerprint
  }

  function PatchReserved(s: Execution, recovery: nat, id: nat, fingerprint: Digest): Outcome<bool> {
    var fault := LockFault(s, recovery);
    if fault.Some? then Refused(fault.value)
    else if id >= |s.agents| || !IsAttempt(s.agents[id], recovery) then Refused(DebugAttemptUnknown)
    else if !IsRunning(s.agents[id]) then Refused(DebugNotRunning)
    else
      var a := s.agents[id];
      Done(s.(agents := s.agents[id := a.(output := a.output.(patchHash := Some(fingerprint)))]),
           !Repeated(s.agents, recovery, s.agents[recovery].task.value, fingerprint))
  }

  // The metadata merged into a debug record when it ends.
  datatype DebugMetadata = Applied(proposal: string, gitDiff: string) | NotApplied(error: Code)

  function Merge(output: Output, metadata: DebugMetadata): Output {
    match metadata
    case Applied(proposal, gitDiff) => output.(proposal := Some(proposal), gitDiff := Some(gitDiff))
    case NotApplied(error) => output.(error := Some(error))
  }

  function DebugFinished(s: Execution, recovery: nat, id: nat, metadata: DebugMetadata): Outcome<()> {
    var fault := LockFault(s, recovery);
    if fault.Some? then Refused(fault.value)
    else
      var k := s.agents[recovery].task.value;
      if id >= |s.agents| || !IsRunning(s.agents[id]) || s.agents[id].task != Some(k) then Refused(DebugNotRunning)
      else
        Done(SetTask(EndAgent(s, id, if metadata.Applied? then AgentCompleted else AgentFailed,
                              Merge(s.agents[id].output, metadata)),
                     k, s.tasks[k].status, if metadata.Applied? then PatchApplied else RecoveryPending), ())
  }

  ghost function RecoveryEnd(s: Execution, recovery: nat, passed: bool, error: Option<Code>): Outcome<()>
    requires WellFormed(s)
  {
    var fault := LockFault(s, recovery);
    if fault.Some? then Refused(fault.value)
    else
      var k := s.agents[recovery].task.value;
      if passed && s.tasks[k] != Task(SchedulerState.Running, RecoveryTestsPassed) then Refused(TestsNotPassed)
      else
        var t := EndAgent(s, recovery, if passed then AgentCompleted else AgentFailed,
                          NO_OUTPUT.(error := error, attempts := |Attempts(s.agents, recovery)|));
        MoveTask(t, k, if passed then Completed else Failed, if passed then RequiredTestsPassed else RecoveryEnded(error))
  }

  class RecoveryRecords {
    const store: ExecutionStore

    constructor (store: ExecutionStore)
      ensures this.store == store
    {
      this.store := store;
    }

    method Open(key: Key, matches: bool, commands: seq<string>, limit: nat) returns (r: Result<(nat, bool)>)
      requires store.Valid()
      modifies store
      ensures store.Valid()
      ensures Commits(r, Opened(old(store.View()), key, matches, commands, limit), old(store.View()), store.View())
    {
      if key !in store.tasks || ActiveRecovery(store.agents, key).Some? {
        return Err(RecoveryUnavailable);
      }
      var target := store.tasks[key];
      if target.status != Queued
         && !(target.status == SchedulerState.Running && target.summary == PatchApplied) {
        return Err(TaskNotReadyForRecovery);
      }
      if !matches {
        return Err(ContextMismatch);
      }
      r := Ok((|store.agents|, target.status == Queued));
      store.Insert(Recovery, Some(key), NO_INPUT.(limit := Some(limit), commands := commands));
    }

    method ClaimDebug(recovery: nat) returns (r: Result<nat>)
      requires store.Valid()
      modifies store
      ensures store.Valid()
      ensures Commits(r, DebugClaimed(old(store.View()), recovery), old(store.View()), store.View())
    {
      var fault := LockFault(store.View(), recovery);
      if fault.Some? {
        return Err(fault.value);
      }
      var parent := store.agents[recovery];
      var key, previous := parent.task.value, Attempts(store.agents, recovery);
      if parent.input.limit.None? || |previous| >= parent.input.limit.value
         || store.tasks[key].status != SchedulerState.Running || store.tasks[key].summary != RecoveryPending {
        return Err(DebugAttemptUnavailable);
      }
      store.Summarize(key, DebugRunning);
      r := Ok(|store.agents|);
      store.Insert(Debug, Some(key), NO_INPUT.(recovery := Some(recovery), attempt := |previous| + 1));
    }

    method ReservePatch(recovery: nat, id: nat, fingerprint: Digest) returns (r: Result<bool>)
      requires store.Valid()
      modifies store
      ensures store.Valid()
      ensures Commits(r, PatchReserved(old(store.View()), recovery, id, fingerprint), old(store.View()), store.View())
    {
      var fault := LockFault(store.View(), recovery);
      if fault.Some? {
        return Err(fault.value);
      }
      if id >= |store.agents| || !IsAttempt(store.agents[id], recovery) {
        return Err(DebugAttemptUnknown);
      }
      var repeated := Repeated(store.agents, recovery, store.agents[recovery].task.value, fingerprint);
      if !IsRunning(store.agents[id]) {
        return Err(DebugNotRunning);
      }
      store.Annotate(id, store.agents[id].output.(patchHash := Some(fingerprint)));
      r := Ok(!repeated);
    }

    method FinishDebug(recovery: nat, id: nat, metadata: DebugMetadata) returns (r: Result<()>)
      requires store.Valid()
      modifies store
      ensures store.Valid()
      ensures Commits(r, DebugFinished(old(store.View()), recovery, id, metadata), old(store.View()), store.View())
    {
      var fault := LockFault(store.View(), recovery);
      if fault.Some? {
        return Err(fault.value);
      }
      var key := store.agents[recovery].task.value;
      if id >= |store.agents| || !IsRunning(store.agents[id]) || store.agents[id].task != Some(key) {
        return Err(DebugNotRunning);
      }
      store.Close(id, if metadata.Applied? then AgentCompleted else AgentFailed,
                  Merge(store.agents[id].output, metadata));
      store.Summarize(key, if metadata.Applied? then PatchApplied else RecoveryPending);
      r := Ok(());
    }

    method Finish(recovery: nat, passed: bool, error: Option<Code>) returns (r: Result<()>)
      requires store.Valid()
      modifies store
      ensures store.Valid()
      ensures Commits(r, RecoveryEnd(old(store.View()), recovery, passed, error), old(store.View()), store.View())
    {
      var fault := LockFault(store.View(), recovery);
      if fault.Some? {
        return Err(fault.value);
      }
      var key := store.agents[recovery].task.value;
      if passed && (store.tasks[key].status != SchedulerState.Running || store.tasks[key].summary != RecoveryTestsPassed) {
        return Err(TestsNotPassed);
      }
      var saved := store.View();
      store.Close(recovery, if passed then AgentCompleted else AgentFailed,
                  NO_OUTPUT.(error := error, attempts := |Attempts(store.agents, recovery)|));
      var ok := store.Move(key, if passed then Completed else Failed,
                           if passed then RequiredTestsPassed else RecoveryEnded(error));
      if !ok {
        store.Rollback(saved);
        return Err(InvalidStateTransition);
      }
      r := Ok(());
    }
  }
}
