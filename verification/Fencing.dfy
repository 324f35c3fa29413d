/** After a stop, or once the work is complete, no late worker can change the implementation. */
module Fencing {
  import opened Ordering
  import opened PlanDependencies
  import opened SchedulerState
  import opened Records
  import opened Transitions
  import opened Executions
  import opened CodingRecords
  import opened TestRecords
  import opened RecoveryRecords
  import opened ReviewGate
  import opened ReviewRecords
  import opened PublicationRecords
  import opened Protocol
  import opened RunInvariant
  import opened AgentRows

  // The run is over and no coding, test, debug or recovery record is running.
  ghost predicate Quiescent(s: Execution) {
    RunInv(s) && RowsInv(s) && Finished(s.status)
    && forall i :: 0 <= i < |s.agents| && Implements(s.agents[i].kind) ==> !IsRunning(s.agents[i])
  }

  // The steps of workers that implement the plan, and of schedulers.
  predicate ImplementationStep(step: Step) {
    step.Reconcile? || step.Transition? || step.StartCoding? || step.FinishCoding? || step.StartTest? || step.FinishTest?
    || step.OpenRecovery? || step.ClaimDebug? || step.ReservePatch? || step.FinishDebug? || step.EndRecovery?
  }

  lemma LateTaskSteps(s: Execution, step: Step)
    requires Quiescent(s)
    requires step.Transition? || step.StartCoding? || step.FinishCoding? || step.StartTest? || step.FinishTest?
    ensures Next(s, step) == s
  {
    RunInvMeans(s);
  }

  lemma NothingToLock(s: Execution, owner: nat)
    requires Quiescent(s)
    ensures LockFault(s, owner).Some?
  {
    if owner < |s.agents| {
      assert RowFits(s, owner);
    }
  }

  lemma LateRecoverySteps(s: Execution, step: Step)
    requires Quiescent(s)
    requires step.ClaimDebug? || step.ReservePatch? || step.FinishDebug? || step.EndRecovery?
    ensures Next(s, step) == s
  {
    NothingToLock(s, step.owner);
  }

  lemma LateOpening(s: Execution, k: Key, matches: bool, commands: seq<string>, limit: nat)
    requires Quiescent(s)
    ensures Opened(s, k, matches, commands, limit).Refused?
  {
    RunInvMeans(s);
  }

  lemma LateReconcile(s: Execution)
    requires RunInv(s) && Finished(s.status)
    ensures AdvanceRun(s) == Done(s, ())
  {
    if s.status == RunCompleted {
      var states := Statuses(s.tasks);
      CompletedPassIsIdle(PlanGraph(s), states);
      assert WithStatuses(s.tasks, states) == s.tasks;
    }
  }

  // Every step of an interrupted worker leaves every row as it is.
  lemma LateStepsDoNothing(s: Execution, step: Step)
    requires Quiescent(s) && ImplementationStep(step)
    ensures Next(s, step) == s
  {
    if step.Reconcile? {
      LateReconcile(s);
    } else if step.OpenRecovery? {
      LateOpening(s, step.key, step.matches, step.commands, step.limit);
    } else if step.ClaimDebug? || step.ReservePatch? || step.FinishDebug? || step.EndRecovery? {
      LateRecoverySteps(s, step);
    } else {
      LateTaskSteps(s, step);
    }
  }

  // ---- the implementation rows as the gate reads them ----

  lemma {:induction false} SameImplementation(a: seq<Agent>, b: seq<Agent>)
    requires |a| <= |b|
    requires forall i :: 0 <= i < |a| ==> b[i].kind == a[i].kind && (Implements(a[i].kind) ==> b[i] == a[i])
    requires forall i :: |a| <= i < |b| ==> !Implements(b[i].kind)
    ensures ImplementationAgents(a) == ImplementationAgents(b)
  {
    if |b| > |a| {
      SameImplementation(a, b[..|b| - 1]);
    } else if b != [] {
      SameImplementation(a[..|a| - 1], b[..|b| - 1]);
    }
  }

  ghost predicate SameWork(s: Execution, t: Execution) {
    t.plan == s.plan && t.status == s.status && t.tasks == s.tasks
    && ImplementationAgents(t.agents) == ImplementationAgents(s.agents)
  }

  // Same run, same tasks, and no new implementation record.
  ghost predicate OnlyOthers(s: Execution, t: Execution) {
    t.plan == s.plan && t.status == s.status && t.tasks == s.tasks
    && forall i :: |s.agents| <= i < |t.agents| ==> !Implements(t.agents[i].kind)
  }

  lemma LateStop(s: Execution, cancelled: bool)
    requires Quiescent(s)
    ensures OnlyOthers(s, Committed(s, StopLocked(s, cancelled)))
  {
    RunInvMeans(s);
    assert AllStopped(s.tasks, cancelled) == s.tasks;
  }

  lemma ReviewStepsKeepWork(s: Execution, step: Step)
    requires WellFormed(s) && ReviewStep(step)
    ensures OnlyOthers(s, NextReview(s, step))
  {
  }

  lemma NextQuiescent(s: Execution, step: Step)
    requires Quiescent(s)
    ensures Quiescent(Next(s, step)) && SameWork(s, Next(s, step))
  {
    if ImplementationStep(step) {
      LateStepsDoNothing(s, step);
    } else {
      var t := Next(s, step);
      NextKeeps(s, step);
      NextRows(s, step);
      if step.Stop? {
        LateStop(s, step.cancelled);
      } else if step.Sweep? {
        LateStop(s, false);
      } else {
        ReviewStepsKeepWork(s, step);
      }
      forall i | 0 <= i < |s.agents| ensures t.agents[i].kind == s.agents[i].kind
        && (Implements(s.agents[i].kind) ==> t.agents[i] == s.agents[i])
      {
        assert Evolves(s.agents[i], t.agents[i]);
      }
      SameImplementation(s.agents, t.agents);
    }
  }

  lemma {:induction false} StaysQuiescent(s: Execution, steps: seq<Step>)
    requires Quiescent(s)
    ensures Quiescent(After(s, steps)) && SameWork(s, After(s, steps))
  {
    if steps != [] {
      StaysQuiescent(s, steps[..|steps| - 1]);
      NextQuiescent(After(s, steps[..|steps| - 1]), steps[|steps| - 1]);
    }
  }

  // ---- the two ways to get there ----

  // Every successful stop, cancelling or not, leaves the execution over with nothing running.
  lemma StopQuiesces(s: Execution, cancelled: bool)
    requires RunInv(s) && RowsInv(s) && StopLocked(s, cancelled).Done?
    ensures var t := StopLocked(s, cancelled).state;
      Quiescent(t) && !AnyTaskRunning(t.tasks) && !AnyRunning(t.agents)
  {
    StopKeeps(s, cancelled);
    InterruptedRows(s, cancelled);
    var t := StopLocked(s, cancelled).state;
    RunInvMeans(t);
    forall a | a in t.agents ensures !IsRunning(a) {
      var i :| 0 <= i < |t.agents| && t.agents[i] == a;
      assert i < |s.agents| && s.agents[i] in s.agents;
    }
  }

  // Fencing: once a stop has gone through, whatever runs afterwards in any order and however often,
  // the tasks, the run and the implementation records are those the stop left behind, and each
  // further implementation step changes nothing at all.
  lemma StoppedForGood(s: Execution, cancelled: bool, later: seq<Step>, step: Step)
    requires RunInv(s) && RowsInv(s) && StopLocked(s, cancelled).Done?
    ensures RunInv(StopLocked(s, cancelled).state)
    ensures SameWork(StopLocked(s, cancelled).state, After(StopLocked(s, cancelled).state, later))
    ensures var u := After(StopLocked(s, cancelled).state, later);
      ImplementationStep(step) ==> Next(u, step) == u
  {
    StopQuiesces(s, cancelled);
    var t := StopLocked(s, cancelled).state;
    StaysQuiescent(t, later);
    if ImplementationStep(step) {
      LateStepsDoNothing(After(t, later), step);
    }
  }

  // Evidence freeze: a finished run without running implementation records keeps its evidence hash
  // for every list of required commands.
  lemma EvidenceFrozen(s: Execution, later: seq<Step>, required: seq<string>)
    requires Quiescent(s)
    ensures HashOf(ReviewEvidence(After(s, later), required)) == HashOf(ReviewEvidence(s, required))
  {
    StaysQuiescent(s, later);
  }
}
