/** How far a recovery has come, what others can do to it, and what is left when they did. */
module RecoveryProgress {
  import opened Ordering
  import opened PlanDependencies
  import opened SchedulerState
  import opened Records
  import opened Transitions
  import opened Executions
  import opened CodingRecords
  import opened TestRecords
  import opened RecoveryRecords
  import opened Protocol
  import opened RunInvariant
  import opened AgentRows
  import opened RowsAppended
  import opened TaskPhases
  import opened RecoveryOwnership
  import opened RecoverySteps
  import opened Runs

  // What the recovery is about to do or waiting for; `Anywhere` says nothing about the marker.
  datatype Progress =
    | ToCode
    | InCoding(claim: nat)
    | Patched(ready: bool)
    | InTests(claim: nat)
    | ToRepair
    | InRepair(attempt: nat)
    | Reserved(attempt: nat, fingerprint: Digest, unused: bool)
    | Proven
    | Anywhere

  ghost predicate AtProgress(s: Execution, k: Key, r: nat, p: Progress)
    requires k in s.tasks
  {
    var task := s.tasks[k];
    match p
    case ToCode => task.status == Queued && Attempts(s.agents, r) == []
    case InCoding(c) =>
      task == Task(SchedulerState.Running, CodingInProgress) && Working(s.agents, k, c, Coding) && Attempts(s.agents, r) == []
      && s.agents[c].output == NO_OUTPUT
    case Patched(ready) => task == Task(SchedulerState.Running, PatchApplied) && (ready ==> PatchReady(s.agents, k))
    case InTests(t) => task == Task(SchedulerState.Running, TestsRunning) && Working(s.agents, k, t, Test)
    case ToRepair => task == Task(SchedulerState.Running, RecoveryPending)
    case InRepair(d) => OnRepair(s, k, r, d) && s.agents[d].output.patchHash.None?
    case Reserved(d, f, unused) =>
      OnRepair(s, k, r, d) && s.agents[d].output.patchHash == Some(f) && (unused ==> FreshFor(s.agents, k, r, d, f))
    case Proven => task == Task(SchedulerState.Running, RecoveryTestsPassed)
    case Anywhere => TaskMove(task.status, Failed)
  }

  ghost predicate OnRepair(s: Execution, k: Key, r: nat, d: nat)
    requires k in s.tasks
  {
    s.tasks[k] == Task(SchedulerState.Running, DebugRunning) && Working(s.agents, k, d, Debug) && IsAttempt(s.agents[d], r)
  }

  // The recovery owns its task, all its applied patches differ, and it is where it believes to be.
  ghost predicate Steady(s: Execution, k: Key, r: nat, b: Budget, p: Progress) {
    Owned(s, k, r, b) && DistinctPatches(s.agents, k, r) && AtProgress(s, k, r, p)
  }

  lemma SteadyAnywhere(s: Execution, k: Key, r: nat, b: Budget, p: Progress)
    requires Steady(s, k, r, b, p)
    ensures Steady(s, k, r, b, Anywhere)
  {
  }

  // Steps of others that do not disturb the task leave the recovery where it is.
  lemma SteadyKept(s: Execution, k: Key, r: nat, b: Budget, p: Progress, step: Step)
    requires Steady(s, k, r, b, p) && !Disturbs(s, k, r, step)
    ensures Steady(Next(s, step), k, r, b, p)
  {
    UndisturbedKeeps(s, k, r, b, step);
    SteadySurvives(s, Next(s, step), k, r, b, p);
  }

  lemma SteadySurvives(s: Execution, t: Execution, k: Key, r: nat, b: Budget, p: Progress)
    requires Steady(s, k, r, b, p) && Owned(t, k, r, b) && Undisturbed(s, t, k, r)
    ensures Steady(t, k, r, b, p)
  {
    DistinctSurvives(s.agents, t.agents, k, r);
    match p
    case InCoding(c) => WorkingSurvives(s.agents, t.agents, k, c, Coding);
    case Patched(ready) => if ready { ReadySurvives(s.agents, t.agents, k); }
    case InTests(c) => WorkingSurvives(s.agents, t.agents, k, c, Test);
    case InRepair(d) => WorkingSurvives(s.agents, t.agents, k, d, Debug);
    case Reserved(d, f, unused) =>
      WorkingSurvives(s.agents, t.agents, k, d, Debug);
      if unused { FreshSurvives(s.agents, t.agents, k, r, d, f); }
    case _ =>
  }

  // ---- what no step of anybody can take away ----

  // The row of the recovery and its budget: the attempts charged to it never exceed the limit.
  ghost predicate Safe(s: Execution, k: Key, r: nat, b: Budget) {
    RunInv(s) && RowsInv(s) && k in s.tasks && r < |s.agents| && s.agents[r].kind == Recovery
    && s.agents[r].task == Some(k) && s.agents[r].input.limit == Some(b.limit)
    && b.used <= |Attempts(s.agents, r)| <= b.limit
  }

  lemma SafeNext(s: Execution, k: Key, r: nat, b: Budget, step: Step)
    requires Safe(s, k, r, b)
    ensures Safe(Next(s, step), k, r, b)
  {
    var t := Next(s, step);
    NextKeeps(s, step);
    NextRows(s, step);
    assert Evolves(s.agents[r], t.agents[r]);
    if step == ClaimDebug(r) {
      ClaimCounts(s, r);
      assert t == NextRepair(s, step);
    } else {
      OnlyClaimsAddAttempts(s, step, r);
      AttemptsKept(s.agents, t.agents, r);
    }
  }

  lemma ClaimCounts(s: Execution, r: nat)
    ensures var o := DebugClaimed(s, r);
      o.Done? ==>
        |Attempts(o.state.agents, r)| == |Attempts(s.agents, r)| + 1
        && s.agents[r].input.limit.Some? && |Attempts(o.state.agents, r)| <= s.agents[r].input.limit.value
  {
    var o := DebugClaimed(s, r);
    if o.Done? {
      AttemptsAppend(s.agents, o.state.agents[|s.agents|], r);
    }
  }

  // ---- the calls of the recovery ----

  ghost predicate Goes(s: Execution, t: Execution, k: Key, r: nat, b: Budget) {
    Safe(t, k, r, b) && Reaches(s, t)
  }

  lemma NextGoes(s: Execution, k: Key, r: nat, b: Budget, step: Step)
    requires Safe(s, k, r, b)
    ensures Goes(s, Next(s, step), k, r, b)
  {
    SafeNext(s, k, r, b, step);
    ReachesNext(s, step);
  }

  lemma CodingCall(s: Execution, k: Key, r: nat, b: Budget, step: Step)
    requires Safe(s, k, r, b) && CodingStep(step)
    ensures Goes(s, NextCoding(s, step), k, r, b)
  {
    NextGoes(s, k, r, b, step);
  }

  lemma TestCall(s: Execution, k: Key, r: nat, b: Budget, step: Step)
    requires Safe(s, k, r, b) && TestStep(step)
    ensures Goes(s, NextTest(s, step), k, r, b)
  {
    NextGoes(s, k, r, b, step);
  }

  lemma SafeStays(s: Execution, t: Execution, k: Key, r: nat, b: Budget)
    requires Safe(s, k, r, b) && Kept(t) && RowsKept(s.agents, t.agents) && k in t.tasks && !AddsAttempt(s, t, r)
    ensures Safe(t, k, r, b)
  {
    assert Evolves(s.agents[r], t.agents[r]);
    AttemptsKept(s.agents, t.agents, r);
  }

  lemma TestStartCall(s: Execution, k: Key, r: nat, b: Budget, required: seq<string>)
    requires Safe(s, k, r, b) && TestStarted(s, k, required, Some(r)).Done?
    ensures Goes(s, TestStarted(s, k, required, Some(r)).state, k, r, b)
  {
    TestStartKept(s, k, required, Some(r));
    TestStartRows(s, k, required, Some(r));
    TestStartReaches(s, k, required, Some(r));
    var t := TestStarted(s, k, required, Some(r)).state;
    SafeStays(s, t, k, r, b);
  }

  lemma ReserveCall(s: Execution, k: Key, r: nat, b: Budget, d: nat, f: Digest)
    requires Safe(s, k, r, b) && PatchReserved(s, r, d, f).Done?
    ensures Goes(s, PatchReserved(s, r, d, f).state, k, r, b)
  {
    ReserveKept(s, r, d, f);
    ReserveRows(s, r, d, f);
    ReserveReaches(s, r, d, f);
    var t := PatchReserved(s, r, d, f).state;
    SafeStays(s, t, k, r, b);
  }

  lemma DebugEndCall(s: Execution, k: Key, r: nat, b: Budget, d: nat, metadata: DebugMetadata)
    requires Safe(s, k, r, b) && DebugFinished(s, r, d, metadata).Done?
    ensures Goes(s, DebugFinished(s, r, d, metadata).state, k, r, b)
  {
    DebugEndKept(s, r, d, metadata);
    DebugEndRows(s, r, d, metadata);
    DebugEndReaches(s, r, d, metadata);
    var t := DebugFinished(s, r, d, metadata).state;
    SafeStays(s, t, k, r, b);
  }

  // An accepted claim is one more attempt, whoever else has made one.
  lemma ClaimCall(s: Execution, k: Key, r: nat, b: Budget)
    requires Safe(s, k, r, b) && DebugClaimed(s, r).Done?
    ensures Goes(s, DebugClaimed(s, r).state, k, r, b.(used := b.used + 1))
  {
    ClaimKept(s, r);
    ClaimRows(s, r);
    ClaimReaches(s, r);
    ClaimCounts(s, r);
    assert Evolves(s.agents[r], DebugClaimed(s, r).state.agents[r]);
  }

  lemma OpenSafe(s: Execution, k: Key, matches: bool, required: seq<string>, limit: nat, known: set<Digest>)
    requires RunInv(s) && RowsInv(s) && Opened(s, k, matches, required, limit).Done?
    ensures var o := Opened(s, k, matches, required, limit);
      Goes(s, o.state, k, |s.agents|, Budget(required, limit, 0, known, []))
      && Steady(o.state, k, |s.agents|, Budget(required, limit, 0, known, []),
                if o.value.1 then ToCode else Patched(PatchReady(s.agents, k)))
      && o.value.0 == |s.agents|
  {
    var t := Opened(s, k, matches, required, limit).state;
    OpenOwns(s, k, required, limit, known);
    OpenReaches(s, k, matches, required, limit);
    if PatchReady(s.agents, k) {
      var p := LatestPatch(s.agents, k, true).value;
      assert IsPatch(t.agents[p], k, true);
    }
  }

  // Undisturbed, none of them is refused.
  lemma CodingStartSteady(s: Execution, k: Key, r: nat, b: Budget)
    requires Steady(s, k, r, b, ToCode)
    ensures var o := CodingStarted(s, k, true);
      o.Done? && Steady(o.state, k, r, b, InCoding(o.value))
  {
    CodingStarts(s, k, r, b);
    NothingApplied(CodingStarted(s, k, true).state.agents, k, r, b);
  }

  lemma CodingEndSteady(s: Execution, k: Key, r: nat, b: Budget, c: nat, success: bool, output: Output)
    requires Steady(s, k, r, b, InCoding(c)) && (success ==> output.gitDiff.Some?)
    ensures var o := CodingFinished(s, k, c, success, output);
      o.Done? && Steady(o.state, k, r, b, if success then Patched(true) else Anywhere)
  {
    CodingEnds(s, k, r, b, c, success, output);
    NothingApplied(CodingFinished(s, k, c, success, output).state.agents, k, r, b);
  }

  lemma TestStartSteady(s: Execution, k: Key, r: nat, b: Budget, ready: bool)
    requires Steady(s, k, r, b, Patched(ready))
    ensures var o := TestStarted(s, k, b.required, Some(r));
      (ready ==> o.Done?) && (o.Done? ==> Steady(o.state, k, r, b, InTests(o.value)))
  {
    if ready { TestStarts(s, k, r, b); }
    if TestStarted(s, k, b.required, Some(r)).Done? { TestStartStep(s, k, r, b); }
  }

  lemma TestEndSteady(
    s: Execution, k: Key, r: nat, b: Budget, t: nat, report: Report, error: Option<Code>, diffHash: Option<Digest>)
    requires Steady(s, k, r, b, InTests(t))
    ensures var o := TestFinished(s, k, t, report, error, Some(r), diffHash);
      o.Done? && Steady(o.state, k, r, b, if Passed(report, error) then Proven else ToRepair)
  {
    TestEndStep(s, k, r, b, t, report, error, diffHash);
  }

  lemma ClaimSteady(s: Execution, k: Key, r: nat, b: Budget)
    requires Steady(s, k, r, b, ToRepair) && b.used < b.limit
    ensures var o := DebugClaimed(s, r);
      o.Done? && Steady(o.state, k, r, b.(used := b.used + 1), InRepair(o.value))
  {
    ClaimSucceeds(s, k, r, b);
    var t := DebugClaimed(s, r).state;
    HarmlessAppend(s.agents, t.agents[|s.agents|], k, r);
  }

  lemma ReserveSteady(s: Execution, k: Key, r: nat, b: Budget, d: nat, f: Digest)
    requires Steady(s, k, r, b, InRepair(d))
    ensures var o := PatchReserved(s, r, d, f);
      o.Done? && Steady(o.state, k, r, b, Reserved(d, f, o.value))
  {
    ReserveStep(s, k, r, b, d, f);
  }

  lemma DebugEndSteady(s: Execution, k: Key, r: nat, b: Budget, d: nat, p: Progress, metadata: DebugMetadata)
    requires Steady(s, k, r, b, p) && (p == InRepair(d) || (p.Reserved? && p.attempt == d))
    requires metadata.Applied? ==> p.Reserved? && p.unused
    ensures var o := DebugFinished(s, r, d, metadata);
      o.Done? && Steady(o.state, k, r, b, if metadata.Applied? then Patched(true) else ToRepair)
  {
    DebugEndStep(s, k, r, b, d, metadata);
  }

  // ---- the end ----

  // The recovery is closed with its attempts counted, and its word on the task stands.
  ghost predicate Concluded(t: Execution, k: Key, r: nat, limit: nat, used: nat, passed: bool) {
    k in t.tasks && t.tasks[k].status == (if passed then Completed else Failed)
    && r < |t.agents| && t.agents[r].status == (if passed then AgentCompleted else AgentFailed)
    && t.agents[r].output.attempts == |Attempts(t.agents, r)| && used <= |Attempts(t.agents, r)| <= limit
  }

  lemma EndCloses(s: Execution, k: Key, r: nat, b: Budget, passed: bool, error: Option<Code>)
    requires Safe(s, k, r, b)
    ensures var o := RecoveryEnd(s, r, passed, error);
      o.Done? ==> Concluded(o.state, k, r, b.limit, b.used, passed)
  {
    if RecoveryEnd(s, r, passed, error).Done? {
      var u := EndAgent(s, r, if passed then AgentCompleted else AgentFailed,
                        NO_OUTPUT.(error := error, attempts := |Attempts(s.agents, r)|));
      MoveFrame(u, k, if passed then Completed else Failed, if passed then RequiredTestsPassed else RecoveryEnded(error));
      AttemptsStable(s.agents, u.agents, r);
    }
  }

  // A failing end is refused exactly if somebody has closed the recovery or finished its task.
  lemma EndRefused(s: Execution, k: Key, r: nat, b: Budget, error: Option<Code>)
    requires Safe(s, k, r, b)
    ensures RecoveryEnd(s, r, false, error).Refused? <==> Superseded(s, k, r)
  {
    if !Superseded(s, k, r) {
      var u := EndAgent(s, r, AgentFailed, NO_OUTPUT.(error := error, attempts := |Attempts(s.agents, r)|));
      SameStatuses(s, u);
      MoveKeeps(u, k, Failed, RecoveryEnded(error));
    }
  }

  ghost predicate Superseded(s: Execution, k: Key, r: nat) {
    r < |s.agents| && (!IsRunning(s.agents[r]) || (k in s.tasks && !TaskMove(s.tasks[k].status, Failed)))
  }

  lemma EndSteady(s: Execution, k: Key, r: nat, b: Budget, p: Progress, passed: bool, error: Option<Code>)
    requires Steady(s, k, r, b, p) && (passed ==> p.Proven?)
    ensures var o := RecoveryEnd(s, r, passed, error);
      o.Done? && Ended(o.state, k, r, b.used, passed)
  {
    EndStep(s, k, r, b, passed, error);
  }

  // ---- the one disturbance that the records let through on a queued task ----

  // A coding claim from outside never asks for a recovery: it takes the task over. The recovery's own
  // claim is then refused, its end fails the task, and the late result of the claim is refused as well.
  lemma OutsideClaim(s: Execution, k: Key, r: nat, b: Budget, error: Option<Code>, success: bool, output: Output)
    requires Steady(s, k, r, b, ToCode)
    ensures Disturbs(s, k, r, StartCoding(k, true)) && CodingStarted(s, k, true).Done?
    ensures var t := CodingStarted(s, k, true).state;
      WellFormed(t) && CodingStarted(t, k, true) == Refused(CodingTaskNotReady)
      && var u := RecoveryEnd(t, r, false, error);
         u.Done? && Ended(u.state, k, r, b.used, false)
         && WellFormed(u.state) && CodingFinished(u.state, k, |s.agents|, success, output) == Refused(CodingTaskStateChanged)
  {
    CodingStarts(s, k, r, b);
    CodingStartSteady(s, k, r, b);
    FailedUnderneath(CodingStarted(s, k, true).state, k, r, b, |s.agents|, error, success, output);
  }

  lemma FailedUnderneath(
    s: Execution, k: Key, r: nat, b: Budget, c: nat, error: Option<Code>, success: bool, output: Output)
    requires Steady(s, k, r, b, InCoding(c))
    ensures CodingStarted(s, k, true) == Refused(CodingTaskNotReady)
    ensures var u := RecoveryEnd(s, r, false, error);
      u.Done? && Ended(u.state, k, r, b.used, false)
      && WellFormed(u.state) && CodingFinished(u.state, k, c, success, output) == Refused(CodingTaskStateChanged)
  {
    EndSteady(s, k, r, b, InCoding(c), false, error);
    EndRecoveryKeeps(s, r, false, error);
    EndKeepsRows(s, r, false, error);
  }

  lemma EndKeepsRows(s: Execution, r: nat, passed: bool, error: Option<Code>)
    requires RunInv(s) && RowsInv(s) && RecoveryEnd(s, r, passed, error).Done?
    ensures |RecoveryEnd(s, r, passed, error).state.agents| == |s.agents|
  {
    var k := s.agents[r].task.value;
    var u := EndAgent(s, r, if passed then AgentCompleted else AgentFailed,
                      NO_OUTPUT.(error := error, attempts := |Attempts(s.agents, r)|));
    MoveFrame(u, k, if passed then Completed else Failed, if passed then RequiredTestsPassed else RecoveryEnded(error));
  }
}
