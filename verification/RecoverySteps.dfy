/** The calls a recovery makes on its own task are never refused while it owns the task. */
module RecoverySteps {
  import opened Ordering
  import opened PlanDependencies
  import opened SchedulerState
  import opened Records
  import opened Transitions
  import opened Executions
  import opened CodingRecords
  import opened TestRecords
  import opened RecoveryRecords
  import opened Protocol
  import opened RunInvariant
  import opened AgentRows
  import opened TaskPhases
  import opened RecoveryOwnership

  // The task of the recovery is running with this marker.
  ghost predicate At(s: Execution, k: Key, r: nat, b: Budget, summary: Summary) {
    Owned(s, k, r, b) && s.tasks[k] == Task(SchedulerState.Running, summary)
  }

  lemma MoveEffect(s: Execution, k: Key, target: TaskStatus, summary: Summary)
    requires RunInv(s) && k in s.tasks && target in {SchedulerState.Running, Completed, Failed}
    requires TaskMove(s.tasks[k].status, target)
    ensures var o := MoveTask(s, k, target, summary);
      o.Done? && k in o.state.tasks && o.state.tasks[k] == Task(target, summary) && o.state.agents == s.agents
      && o.state.clock == s.clock
  {
    MoveKeeps(s, k, target, summary);
    AdvanceFrame(SetTask(s, k, target, summary));
  }

  lemma AppendedHolds(agents: seq<Agent>, a: Agent, k: Key, r: nat, b: Budget)
    requires Holds(agents, k, r, b)
    ensures Holds(agents + [a], k, r, if IsAttempt(a, r) then b.(used := b.used + 1) else b)
  {
    AttemptsAppend(agents, a, r);
  }

  lemma ChangedHolds(agents: seq<Agent>, id: nat, a: Agent, k: Key, r: nat, b: Budget)
    requires Holds(agents, k, r, b) && id < |agents| && id != r && a.kind == agents[id].kind && a.input == agents[id].input
    ensures Holds(agents[id := a], k, r, b)
  {
    AttemptsStable(agents, agents[id := a], r);
  }

  // ---- the invariants after each call ----

  ghost predicate Kept(t: Execution) {
    RunInv(t) && RowsInv(t)
  }

  lemma SameTasksKept(s: Execution, t: Execution)
    requires Kept(s) && Continues(s, t) && t.plan == s.plan && t.status == s.status && t.tasks.Keys == s.tasks.Keys
    requires forall k :: k in s.tasks ==> t.tasks[k].status == s.tasks[k].status
    ensures Kept(t)
  {
    SameStatuses(s, t);
  }

  lemma CodingStartKept(s: Execution, k: Key)
    requires Kept(s) && CodingStarted(s, k, true).Done?
    ensures Kept(CodingStarted(s, k, true).state)
  {
    StartCodingKeeps(s, k, true);
    CodingStartRows(s, k, true);
  }

  lemma CodingEndKept(s: Execution, k: Key, c: nat, success: bool, output: Output)
    requires Kept(s) && CodingFinished(s, k, c, success, output).Done?
    ensures Kept(CodingFinished(s, k, c, success, output).state)
  {
    FinishCodingKeeps(s, k, c, success, output);
    CodingEndRows(s, k, c, success, output);
  }

  lemma TestStartKept(s: Execution, k: Key, required: seq<string>, owner: Option<nat>)
    requires Kept(s) && TestStarted(s, k, required, owner).Done?
    ensures Kept(TestStarted(s, k, required, owner).state)
  {
    TestStartRows(s, k, required, owner);
    SameTasksKept(s, TestStarted(s, k, required, owner).state);
  }

  lemma TestEndKept(
    s: Execution, k: Key, t: nat, report: Report, error: Option<Code>, owner: Option<nat>, diffHash: Option<Digest>)
    requires Kept(s) && TestFinished(s, k, t, report, error, owner, diffHash).Done?
    ensures Kept(TestFinished(s, k, t, report, error, owner, diffHash).state)
  {
    FinishTestKeeps(s, k, t, report, error, owner, diffHash);
    TestEndRows(s, k, t, report, error, owner, diffHash);
  }

  lemma ClaimKept(s: Execution, r: nat)
    requires Kept(s) && DebugClaimed(s, r).Done?
    ensures Kept(DebugClaimed(s, r).state)
  {
    ClaimRows(s, r);
    SameTasksKept(s, DebugClaimed(s, r).state);
  }

  lemma ReserveKept(s: Execution, r: nat, d: nat, f: Digest)
    requires Kept(s) && PatchReserved(s, r, d, f).Done?
    ensures Kept(PatchReserved(s, r, d, f).state)
  {
    ReserveRows(s, r, d, f);
    SameTasksKept(s, PatchReserved(s, r, d, f).state);
  }

  lemma DebugEndKept(s: Execution, r: nat, d: nat, metadata: DebugMetadata)
    requires Kept(s) && DebugFinished(s, r, d, metadata).Done?
    ensures Kept(DebugFinished(s, r, d, metadata).state)
  {
    DebugEndRows(s, r, d, metadata);
    SameTasksKept(s, DebugFinished(s, r, d, metadata).state);
  }

  // ---- opening ----

  lemma OpenOwns(s: Execution, k: Key, required: seq<string>, limit: nat, known: set<Digest>)
    requires RunInv(s) && RowsInv(s) && Opened(s, k, true, required, limit).Done?
    ensures var o := Opened(s, k, true, required, limit);
      o.value.0 == |s.agents| && Owned(o.state, k, |s.agents|, Budget(required, limit, 0, known, []))
      && o.state.tasks == s.tasks && (o.value.1 <==> s.tasks[k].status == Queued)
      && (o.value.1 || s.tasks[k] == Task(SchedulerState.Running, PatchApplied))
      && DistinctPatches(o.state.agents, k, |s.agents|)
  {
    OpenRows(s, k, true, required, limit);
    SameTasksKept(s, Opened(s, k, true, required, limit).state);
    NoAttemptsYet(s.agents, Opened(s, k, true, required, limit).state.agents[|s.agents|]);
  }

  lemma NoAttemptsYet(agents: seq<Agent>, a: Agent)
    requires AttemptsOwned(agents) && a.kind == Recovery
    ensures Attempts(agents + [a], |agents|) == []
    ensures forall i :: 0 <= i <= |agents| ==> !IsAttempt((agents + [a])[i], |agents|)
  {
    var all := agents + [a];
    forall i | 0 <= i < |all| ensures !IsAttempt(all[i], |agents|) {
      if i < |agents| && agents[i].kind == Debug {
        assert OwnedAttempt(agents, i);
      }
    }
    if Attempts(all, |agents|) != [] {
      assert Attempts(all, |agents|)[0] in Attempts(all, |agents|);
    }
  }

  // ---- coding ----

  lemma CodingStarts(s: Execution, k: Key, r: nat, b: Budget)
    requires Owned(s, k, r, b) && s.tasks[k].status == Queued
    ensures var o := CodingStarted(s, k, true);
      o.Done? && o.value == |s.agents| && At(o.state, k, r, b, CodingInProgress)
      && Working(o.state.agents, k, |s.agents|, Coding)
      && o.state.agents == s.agents + [o.state.agents[|s.agents|]]
  {
    RunInvMeans(s);
    ParentsAreTasks(s, k);
    MoveEffect(s, k, SchedulerState.Running, CodingInProgress);
    CodingStartKept(s, k);
    AppendedHolds(s.agents, CodingStarted(s, k, true).state.agents[|s.agents|], k, r, b);
  }

  lemma CodingEnds(s: Execution, k: Key, r: nat, b: Budget, c: nat, success: bool, output: Output)
    requires At(s, k, r, b, CodingInProgress) && Working(s.agents, k, c, Coding)
    ensures var o := CodingFinished(s, k, c, success, output);
      o.Done? && Owned(o.state, k, r, b)
      && o.state.tasks[k] == (if success then Task(SchedulerState.Running, PatchApplied) else Task(Failed, CodingFailed))
      && o.state.agents == s.agents[c := o.state.agents[c]]
      && (success && output.gitDiff.Some? ==> PatchReady(o.state.agents, k))
  {
    var u := EndAgent(s, c, if success then AgentCompleted else AgentFailed, output);
    SameStatuses(s, u);
    MoveEffect(u, k, if success then SchedulerState.Running else Failed, if success then PatchApplied else CodingFailed);
    CodingEndKept(s, k, c, success, output);
    ChangedHolds(s.agents, c, u.agents[c], k, r, b);
    if success && output.gitDiff.Some? {
      LastIsReady(u.agents, k, c);
    }
  }

  // The last row of the task is a completed patch with a diff.
  lemma LastIsReady(agents: seq<Agent>, k: Key, w: nat)
    requires w < |agents| && IsPatch(agents[w], k, true) && agents[w].output.gitDiff.Some?
    requires forall j :: w < j < |agents| ==> agents[j].task != Some(k)
    ensures PatchReady(agents, k)
  {
    var p := LatestPatch(agents, k, true).value;
    assert IsPatch(agents[p], k, true);
  }

  // ---- tests ----

  lemma TestStarts(s: Execution, k: Key, r: nat, b: Budget)
    requires At(s, k, r, b, PatchApplied) && PatchReady(s.agents, k)
    ensures TestStarted(s, k, b.required, Some(r)).Done?
  {
    ActiveIs(s.agents, k, r);
  }

  lemma TestStartOwned(s: Execution, k: Key, r: nat, b: Budget)
    requires Owned(s, k, r, b) && TestStarted(s, k, b.required, Some(r)).Done?
    ensures var o := TestStarted(s, k, b.required, Some(r));
      o.value == |s.agents| && At(o.state, k, r, b, TestsRunning)
      && Working(o.state.agents, k, |s.agents|, Test)
      && o.state.agents == s.agents + [o.state.agents[|s.agents|]]
  {
    TestStartKept(s, k, b.required, Some(r));
    AppendedHolds(s.agents, TestStarted(s, k, b.required, Some(r)).state.agents[|s.agents|], k, r, b);
  }

  lemma TestEnds(s: Execution, k: Key, r: nat, b: Budget, t: nat, report: Report, error: Option<Code>, diffHash: Option<Digest>)
    requires At(s, k, r, b, TestsRunning) && Working(s.agents, k, t, Test)
    ensures var o := TestFinished(s, k, t, report, error, Some(r), diffHash);
      o.Done? && At(o.state, k, r, b, if Passed(report, error) then RecoveryTestsPassed else RecoveryPending)
      && o.state.agents == s.agents[t := o.state.agents[t]]
  {
    ActiveIs(s.agents, k, r);
    var passed := Passed(report, error);
    var u := EndAgent(s, t, if passed then AgentCompleted else AgentFailed,
                      NO_OUTPUT.(report := Some(report), error := error, diffHash := diffHash));
    SameStatuses(s, u);
    MoveEffect(u, k, SchedulerState.Running, if passed then RecoveryTestsPassed else RecoveryPending);
    TestEndKept(s, k, t, report, error, Some(r), diffHash);
    ChangedHolds(s.agents, t, u.agents[t], k, r, b);
  }

  // ---- repairs ----

  lemma ClaimSucceeds(s: Execution, k: Key, r: nat, b: Budget)
    requires At(s, k, r, b, RecoveryPending) && b.used < b.limit
    ensures var o := DebugClaimed(s, r);
      o.Done? && o.value == |s.agents| && At(o.state, k, r, b.(used := b.used + 1), DebugRunning)
      && Working(o.state.agents, k, |s.agents|, Debug) && IsAttempt(o.state.agents[|s.agents|], r)
      && o.state.agents == s.agents + [o.state.agents[|s.agents|]]
  {
    ClaimKept(s, r);
    AppendedHolds(s.agents, DebugClaimed(s, r).state.agents[|s.agents|], k, r, b);
  }

  lemma ReserveSucceeds(s: Execution, k: Key, r: nat, b: Budget, d: nat, f: Digest)
    requires At(s, k, r, b, DebugRunning) && Working(s.agents, k, d, Debug) && IsAttempt(s.agents[d], r)
    ensures var o := PatchReserved(s, r, d, f);
      o.Done? && At(o.state, k, r, b, DebugRunning) && Working(o.state.agents, k, d, Debug)
      && IsAttempt(o.state.agents[d], r)
      && o.state.agents == s.agents[d := o.state.agents[d]] && o.state.agents[d].output.patchHash == Some(f)
      && (o.value ==> FreshFor(o.state.agents, k, r, d, f))
  {
    ReserveKept(s, r, d, f);
    ChangedHolds(s.agents, d, PatchReserved(s, r, d, f).state.agents[d], k, r, b);
    if PatchReserved(s, r, d, f).value {
      NotRepeated(s.agents, PatchReserved(s, r, d, f).state.agents, k, r, d, f);
    }
  }

  lemma NotRepeated(before: seq<Agent>, after: seq<Agent>, k: Key, r: nat, d: nat, f: Digest)
    requires !Repeated(before, r, k, f) && d < |before| && |after| == |before|
    requires after == before[d := after[d]] && after[d].kind == Debug
    ensures FreshFor(after, k, r, d, f)
  {
    forall i: nat | i < |after| && i != d ensures Repaired(after[i], r) ==> after[i].output.patchHash != Some(f) {
      assert before[i] in before;
    }
    forall i: nat | i < |after| ensures !ProposedBy(after[i], k, f) {
      assert before[i] in before;
    }
  }

  lemma DebugEnds(s: Execution, k: Key, r: nat, b: Budget, d: nat, metadata: DebugMetadata)
    requires At(s, k, r, b, DebugRunning) && Working(s.agents, k, d, Debug) && IsAttempt(s.agents[d], r)
    ensures var o := DebugFinished(s, r, d, metadata);
      o.Done? && At(o.state, k, r, b, if metadata.Applied? then PatchApplied else RecoveryPending)
      && o.state.agents == s.agents[d := o.state.agents[d]]
      && o.state.agents[d].output.patchHash == s.agents[d].output.patchHash
      && (o.state.agents[d].status == AgentCompleted <==> metadata.Applied?)
      && (metadata.Applied? ==> PatchReady(o.state.agents, k))
  {
    DebugEndKept(s, r, d, metadata);
    var t := DebugFinished(s, r, d, metadata).state;
    ChangedHolds(s.agents, d, t.agents[d], k, r, b);
    if metadata.Applied? {
      LastIsReady(t.agents, k, d);
    }
  }

  // ---- the end ----

  lemma EndsWith(s: Execution, k: Key, r: nat, b: Budget, passed: bool, error: Option<Code>)
    requires Owned(s, k, r, b) && TaskMove(s.tasks[k].status, if passed then Completed else Failed)
    requires passed ==> s.tasks[k] == Task(SchedulerState.Running, RecoveryTestsPassed)
    ensures var o := RecoveryEnd(s, r, passed, error);
      o.Done? && k in o.state.tasks && o.state.tasks[k].status == (if passed then Completed else Failed)
      && o.state.agents == s.agents[r := o.state.agents[r]]
      && o.state.agents[r].output.attempts == b.used && |Attempts(o.state.agents, r)| == b.used
  {
    var u := EndAgent(s, r, if passed then AgentCompleted else AgentFailed,
                      NO_OUTPUT.(error := error, attempts := |Attempts(s.agents, r)|));
    SameStatuses(s, u);
    MoveEffect(u, k, if passed then Completed else Failed, if passed then RequiredTestsPassed else RecoveryEnded(error));
    AttemptsStable(s.agents, u.agents, r);
  }

  // ---- fingerprints across the owner's own calls ----

  // A row that is no applied attempt of r, and proposes nothing, may be added or rewritten.
  lemma HarmlessAppend(agents: seq<Agent>, a: Agent, k: Key, r: nat)
    requires DistinctPatches(agents, k, r) && !Repaired(a, r) && a.output.proposal.None?
    ensures DistinctPatches(agents + [a], k, r)
  {
    var after := agents + [a];
    forall d: nat | d < |after| && Repaired(after[d], r)
      ensures after[d].output.patchHash.Some? && FreshFor(after, k, r, d, after[d].output.patchHash.value)
    {
      assert FreshFor(agents, k, r, d, agents[d].output.patchHash.value);
    }
  }

  lemma HarmlessChange(agents: seq<Agent>, id: nat, a: Agent, k: Key, r: nat)
    requires DistinctPatches(agents, k, r) && id < |agents| && !Repaired(a, r) && !Repaired(agents[id], r)
    requires a.kind != Coding
    ensures DistinctPatches(agents[id := a], k, r)
  {
    var after := agents[id := a];
    forall d: nat | d < |after| && Repaired(after[d], r)
      ensures after[d].output.patchHash.Some? && FreshFor(after, k, r, d, after[d].output.patchHash.value)
    {
      assert FreshFor(agents, k, r, d, agents[d].output.patchHash.value);
    }
  }

  // Before the first attempt there is nothing to compare.
  lemma NothingApplied(agents: seq<Agent>, k: Key, r: nat, b: Budget)
    requires Holds(agents, k, r, b) && b.used == 0
    ensures DistinctPatches(agents, k, r)
  {
    assert Attempts(agents, r) == [];
    assert forall d :: 0 <= d < |agents| ==> d !in Attempts(agents, r);
  }

  // Attempt d ends applied, under a fingerprint that was fresh when it was reserved.
  lemma AppliedFresh(agents: seq<Agent>, d: nat, a: Agent, k: Key, r: nat, f: Digest)
    requires DistinctPatches(agents, k, r) && FreshFor(agents, k, r, d, f)
    requires d < |agents| && !Repaired(agents[d], r) && Repaired(a, r) && a.output.patchHash == Some(f)
    ensures DistinctPatches(agents[d := a], k, r)
  {
    var after := agents[d := a];
    forall e: nat | e < |after| && Repaired(after[e], r)
      ensures after[e].output.patchHash.Some? && FreshFor(after, k, r, e, after[e].output.patchHash.value)
    {
      if e != d {
        assert FreshFor(agents, k, r, e, agents[e].output.patchHash.value);
        assert agents[e].output.patchHash != Some(f);
      }
    }
  }

  // ---- calls and fingerprints together ----

  ghost predicate OwnsAt(s: Execution, k: Key, r: nat, b: Budget, summary: Summary) {
    At(s, k, r, b, summary) && DistinctPatches(s.agents, k, r)
  }

  lemma TestStartStep(s: Execution, k: Key, r: nat, b: Budget)
    requires Owned(s, k, r, b) && DistinctPatches(s.agents, k, r) && TestStarted(s, k, b.required, Some(r)).Done?
    ensures var o := TestStarted(s, k, b.required, Some(r));
      OwnsAt(o.state, k, r, b, TestsRunning) && Working(o.state.agents, k, o.value, Test)
  {
    TestStartOwned(s, k, r, b);
    var t := TestStarted(s, k, b.required, Some(r)).state;
    HarmlessAppend(s.agents, t.agents[|s.agents|], k, r);
  }

  lemma TestEndStep(s: Execution, k: Key, r: nat, b: Budget, t: nat, report: Report, error: Option<Code>, diffHash: Option<Digest>)
    requires OwnsAt(s, k, r, b, TestsRunning) && Working(s.agents, k, t, Test)
    ensures var o := TestFinished(s, k, t, report, error, Some(r), diffHash);
      o.Done? && OwnsAt(o.state, k, r, b, if Passed(report, error) then RecoveryTestsPassed else RecoveryPending)
  {
    TestEnds(s, k, r, b, t, report, error, diffHash);
    var u := TestFinished(s, k, t, report, error, Some(r), diffHash).state;
    HarmlessChange(s.agents, t, u.agents[t], k, r);
  }

  lemma ReserveStep(s: Execution, k: Key, r: nat, b: Budget, d: nat, f: Digest)
    requires OwnsAt(s, k, r, b, DebugRunning) && Working(s.agents, k, d, Debug) && IsAttempt(s.agents[d], r)
    ensures var o := PatchReserved(s, r, d, f);
      o.Done? && OwnsAt(o.state, k, r, b, DebugRunning) && Working(o.state.agents, k, d, Debug)
      && IsAttempt(o.state.agents[d], r) && o.state.agents[d].output.patchHash == Some(f)
      && (o.value ==> FreshFor(o.state.agents, k, r, d, f))
  {
    ReserveSucceeds(s, k, r, b, d, f);
    var u := PatchReserved(s, r, d, f).state;
    HarmlessChange(s.agents, d, u.agents[d], k, r);
  }

  // The attempt ends with its patch applied under a fresh fingerprint, or without a patch.
  lemma DebugEndStep(s: Execution, k: Key, r: nat, b: Budget, d: nat, metadata: DebugMetadata)
    requires OwnsAt(s, k, r, b, DebugRunning) && Working(s.agents, k, d, Debug) && IsAttempt(s.agents[d], r)
    requires metadata.Applied? ==> s.agents[d].output.patchHash.Some?
    requires metadata.Applied? ==> FreshFor(s.agents, k, r, d, s.agents[d].output.patchHash.value)
    ensures var o := DebugFinished(s, r, d, metadata);
      o.Done? && OwnsAt(o.state, k, r, b, if metadata.Applied? then PatchApplied else RecoveryPending)
      && (metadata.Applied? ==> PatchReady(o.state.agents, k))
  {
    DebugEnds(s, k, r, b, d, metadata);
    var u := DebugFinished(s, r, d, metadata).state;
    if metadata.Applied? {
      AppliedFresh(s.agents, d, u.agents[d], k, r, s.agents[d].output.patchHash.value);
    } else {
      HarmlessChange(s.agents, d, u.agents[d], k, r);
    }
  }

  // How a recovery leaves its task, its own row and the attempts charged to it.
  ghost predicate Ended(t: Execution, k: Key, r: nat, used: nat, passed: bool) {
    k in t.tasks && t.tasks[k].status == (if passed then Completed else Failed)
    && r < |t.agents| && !IsRunning(t.agents[r]) && t.agents[r].output.attempts == used
    && |Attempts(t.agents, r)| == used && DistinctPatches(t.agents, k, r)
  }

  lemma EndStep(s: Execution, k: Key, r: nat, b: Budget, passed: bool, error: Option<Code>)
    requires Owned(s, k, r, b) && DistinctPatches(s.agents, k, r)
    requires TaskMove(s.tasks[k].status, if passed then Completed else Failed)
    requires passed ==> s.tasks[k] == Task(SchedulerState.Running, RecoveryTestsPassed)
    ensures var o := RecoveryEnd(s, r, passed, error);
      o.Done? && Ended(o.state, k, r, b.used, passed)
  {
    EndsWith(s, k, r, b, passed, error);
    var u := RecoveryEnd(s, r, passed, error).state;
    HarmlessChange(s.agents, r, u.agents[r], k, r);
  }
}
