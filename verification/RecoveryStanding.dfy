/** A recovery among others: the world it runs in and what it can rely on between its transactions. */
module RecoveryStanding {
  import opened Ordering
  import opened SchedulerState
  import opened Records
  import opened Transitions
  import opened Executions
  import opened TestCommands
  import opened CodingRecords
  import opened TestRecords
  import opened RecoveryRecords
  import opened Testing
  import opened Protocol
  import opened RunInvariant
  import opened AgentRows
  import opened TaskPhases
  import opened RecoveryOwnership
  import opened RecoverySteps
  import opened RecoveryProgress
  import opened RecoveryLog
  import opened Runs
  import opened Transactions

  // ---- what the outside world does ----

  datatype CodingOutcome = Proposes(proposal: string, gitDiff: string) | CodingBreaks(code: Code)

  datatype ApplyOutcome = Applies(gitDiff: string) | ApplyBreaks(code: Code)

  datatype DebugOutcome = DebugBreaks(code: Code) | Repairs(proposal: string, apply: ApplyOutcome)

  // Model, sandbox and Git outcomes by turn, and the transactions other workers interleave.
  datatype World = World(
    coding: CodingOutcome, tests: nat -> Sandbox, debugs: nat -> DebugOutcome, others: nat -> seq<Step>)

  // Nothing that others did disturbed recovery r of task k.
  predicate Calm(heard: seq<Moment>, k: Key, r: nat) {
    forall m | m in heard :: !Disturbs(m.rows, k, r, m.step)
  }

  function StepsOf(heard: seq<Moment>): seq<Step> {
    if heard == [] then [] else StepsOf(heard[..|heard| - 1]) + [heard[|heard| - 1].step]
  }

  lemma StepsMore(before: seq<Step>, heard: seq<Moment>, m: Moment, steps: seq<Step>, i: nat)
    requires i < |steps| && m.step == steps[i] && StepsOf(heard) == before + steps[..i]
    ensures StepsOf(heard + [m]) == before + steps[..i + 1]
  {
    assert (heard + [m])[..|heard|] == heard && steps[..i + 1] == steps[..i] + [steps[i]];
  }

  // Everything heard of was done by others, between the rows at the opening and now.
  ghost predicate Interleaved(heard: seq<Moment>, world: World, origin: Execution) {
    forall m :: m in heard ==> Reaches(origin, m.rows) && exists i: nat :: m.step in world.others(i)
  }

  // The rows were reached from those at the opening; budget and stored reports are safe from everybody;
  // and, as long as nobody disturbed it, the recovery is where it believes to be.
  ghost predicate Standing(
    s: Execution, heard: seq<Moment>, world: World, origin: Execution, k: Key, r: nat, b: Budget, p: Progress) {
    Safe(s, k, r, b) && AllFiled(s.agents, k, b.tests) && Reaches(origin, s) && Interleaved(heard, world, origin)
    && (Calm(heard, k, r) ==> Settled(s, k, r, b, p))
  }

  ghost predicate Settled(s: Execution, k: Key, r: nat, b: Budget, p: Progress) {
    Steady(s, k, r, b, p) && Tracked(s, k, r, b)
  }

  // It stands through any step of others.
  lemma StandingNext(
    s: Execution, heard: seq<Moment>, world: World, origin: Execution, k: Key, r: nat, b: Budget, p: Progress,
    step: Step, turn: nat)
    requires Standing(s, heard, world, origin, k, r, b, p) && step in world.others(turn)
    ensures Standing(Next(s, step), heard + [Moment(s, step)], world, origin, k, r, b, p)
    ensures Calm(heard + [Moment(s, step)], k, r) ==> Calm(heard, k, r)
  {
    var after := heard + [Moment(s, step)];
    assert forall m :: m in heard ==> m in after;
    assert after[|heard|] == Moment(s, step);
    NextGoes(s, k, r, b, step);
    FiledNext(s, step, k, b.tests);
    ReachesTransitive(origin, s, Next(s, step));
    if Calm(after, k, r) {
      SteadyKept(s, k, r, b, p, step);
      TrackedKept(s, k, r, b, p, step);
    }
  }

  // A call of the recovery went through.
  lemma CallStands(
    s: Execution, t: Execution, heard: seq<Moment>, world: World, origin: Execution, k: Key, r: nat, b: Budget, p: Progress)
    requires Reaches(origin, s) && Interleaved(heard, world, origin)
    requires Goes(s, t, k, r, b) && AllFiled(t.agents, k, b.tests) && (Calm(heard, k, r) ==> Settled(t, k, r, b, p))
    ensures Standing(t, heard, world, origin, k, r, b, p)
  {
    ReachesTransitive(origin, s, t);
  }

  lemma OpenStands(s: Execution, k: Key, matches: bool, required: seq<string>, limit: nat, world: World)
    requires RunInv(s) && RowsInv(s) && Opened(s, k, matches, required, limit).Done?
    ensures var o := Opened(s, k, matches, required, limit);
      var b := Budget(required, limit, 0, Known(s.agents, k, |s.agents|), []);
      o.value.0 == |s.agents|
      && Standing(o.state, [], world, s, k, |s.agents|, b, if o.value.1 then ToCode else Patched(PatchReady(s.agents, k)))
      && (o.value.1 <==> s.tasks[k].status == Queued)
  {
    var o := Opened(s, k, matches, required, limit);
    OpenSafe(s, k, matches, required, limit, Known(s.agents, k, |s.agents|));
    ReachesItself(s);
    TrackedAppend(s, o.state, k, |s.agents|, Budget(required, limit, 0, Known(s.agents, k, |s.agents|), []));
  }

  // The end of the recovery keeps the stored reports.
  lemma EndFiles(s: Execution, k: Key, r: nat, b: Budget, passed: bool, error: Option<Code>)
    requires Safe(s, k, r, b) && AllFiled(s.agents, k, b.tests) && RecoveryEnd(s, r, passed, error).Done?
    ensures var t := RecoveryEnd(s, r, passed, error).state;
      AllFiled(t.agents, k, b.tests)
      && forall i :: 0 <= i < |b.tests| ==> b.tests[i].row < |t.agents| && t.agents[b.tests[i].row].kind == s.agents[b.tests[i].row].kind
  {
    RecoveryEndRows(s, r, passed, error);
    FiledKept(s, RecoveryEnd(s, r, passed, error).state.agents, k, b.tests);
    forall i | 0 <= i < |b.tests|
      ensures RecoveryEnd(s, r, passed, error).state.agents[b.tests[i].row].kind == s.agents[b.tests[i].row].kind
    {
      assert Filed(s.agents, k, b.tests[i]);
    }
  }

  // ---- the calls of the recovery ----

  lemma CodingStartStands(s: Execution, heard: seq<Moment>, world: World, origin: Execution, k: Key, r: nat, b: Budget)
    requires Standing(s, heard, world, origin, k, r, b, ToCode)
    ensures var o := CodingStarted(s, k, true);
      (o.Done? ==> Standing(o.state, heard, world, origin, k, r, b, InCoding(o.value)))
      && (Calm(heard, k, r) ==> o.Done?)
  {
    var o := CodingStarted(s, k, true);
    if Calm(heard, k, r) { CodingStartTracked(s, k, r, b); }
    if o.Done? {
      CodingCall(s, k, r, b, StartCoding(k, true));
      CodingStartRows(s, k, true);
      FiledKept(s, o.state.agents, k, b.tests);
      CallStands(s, o.state, heard, world, origin, k, r, b, InCoding(o.value));
    }
  }

  lemma CodingStartTracked(s: Execution, k: Key, r: nat, b: Budget)
    requires Settled(s, k, r, b, ToCode)
    ensures var o := CodingStarted(s, k, true);
      o.Done? && Settled(o.state, k, r, b, InCoding(o.value))
  {
    CodingStarts(s, k, r, b);
    CodingStartSteady(s, k, r, b);
    TrackedAppend(s, CodingStarted(s, k, true).state, k, r, b);
  }

  // A proposal is known from now on.
  function Learnt(b: Budget, proposal: Option<string>): Budget {
    if proposal.None? then b else b.(known := b.known + {Sha256(proposal.value)})
  }

  lemma CodingEndStands(
    s: Execution, heard: seq<Moment>, world: World, origin: Execution, k: Key, r: nat, b: Budget, c: nat, success: bool,
    output: Output)
    requires Standing(s, heard, world, origin, k, r, b, InCoding(c))
    requires output.patchHash.None? && (success ==> output.gitDiff.Some?)
    ensures var o := CodingFinished(s, k, c, success, output);
      (o.Done? ==> Standing(o.state, heard, world, origin, k, r, Learnt(b, output.proposal),
                            if success then Patched(true) else Anywhere))
      && (Calm(heard, k, r) ==> o.Done?)
  {
    var o := CodingFinished(s, k, c, success, output);
    if Calm(heard, k, r) { CodingEndTracked(s, k, r, b, c, success, output); }
    if o.Done? {
      CodingCall(s, k, r, b, FinishCoding(k, c, success, output));
      CodingEndRows(s, k, c, success, output);
      FiledKept(s, o.state.agents, k, b.tests);
      CallStands(s, o.state, heard, world, origin, k, r, Learnt(b, output.proposal),
                 if success then Patched(true) else Anywhere);
    }
  }

  lemma CodingEndTracked(s: Execution, k: Key, r: nat, b: Budget, c: nat, success: bool, output: Output)
    requires Settled(s, k, r, b, InCoding(c)) && output.patchHash.None? && (success ==> output.gitDiff.Some?)
    ensures var o := CodingFinished(s, k, c, success, output);
      o.Done? && Settled(o.state, k, r, Learnt(b, output.proposal), if success then Patched(true) else Anywhere)
  {
    CodingEnds(s, k, r, b, c, success, output);
    CodingEndSteady(s, k, r, b, c, success, output);
    CodingEndWrites(s, k, c, success, output);
    CodingEndLearns(s, CodingFinished(s, k, c, success, output).state, k, r, b, c, output);
  }

  lemma CodingEndLearns(s: Execution, t: Execution, k: Key, r: nat, b: Budget, c: nat, output: Output)
    requires Tracked(s, k, r, b) && c < |s.agents| == |t.agents| && t.agents == s.agents[c := t.agents[c]]
    requires s.agents[c].kind == t.agents[c].kind == Coding && s.agents[c].output.proposal.None?
    requires t.agents[c].task == Some(k) && t.agents[c].output == output
    ensures Tracked(t, k, r, Learnt(b, output.proposal))
  {
    TrackedChange(s, t, k, r, b, c);
    assert Prints(t.agents[c], k, r) == if output.proposal.Some? then {Sha256(output.proposal.value)} else {};
  }

  // What the accepted end of a coding claim writes into its record.
  lemma CodingEndWrites(s: Execution, k: Key, c: nat, success: bool, output: Output)
    requires WellFormed(s) && CodingFinished(s, k, c, success, output).Done?
    ensures var t := CodingFinished(s, k, c, success, output).state;
      c < |s.agents| == |t.agents| && t.agents[c].output == output && t.agents[c].kind == s.agents[c].kind
      && t.agents[c].task == Some(k) && t.agents[c].status == (if success then AgentCompleted else AgentFailed)
  {
    var u := EndAgent(s, c, if success then AgentCompleted else AgentFailed, output);
    MoveFrame(u, k, if success then SchedulerState.Running else Failed, if success then PatchApplied else CodingFailed);
  }

  lemma TestStartStands(
    s: Execution, heard: seq<Moment>, world: World, origin: Execution, k: Key, r: nat, b: Budget, ready: bool)
    requires Standing(s, heard, world, origin, k, r, b, Patched(ready))
    ensures var o := TestStarted(s, k, b.required, Some(r));
      (o.Done? ==> Standing(o.state, heard, world, origin, k, r, b, InTests(o.value)))
      && (Calm(heard, k, r) && ready ==> o.Done?)
  {
    var o := TestStarted(s, k, b.required, Some(r));
    if Calm(heard, k, r) {
      TestStartSteady(s, k, r, b, ready);
      if o.Done? { TrackedAppend(s, o.state, k, r, b); }
    }
    if o.Done? {
      TestStartCall(s, k, r, b, b.required);
      TestStartRows(s, k, b.required, Some(r));
      FiledKept(s, o.state.agents, k, b.tests);
      CallStands(s, o.state, heard, world, origin, k, r, b, InTests(o.value));
    }
  }

  // The measurement as it is filed, if it came to a report.
  function WithReport(b: Budget, t: nat, m: Measurement): Budget {
    if m.error.Some? || m.diffHash.None? then b else b.(tests := b.tests + [Filing(t, m.report, m.diffHash.value)])
  }

  lemma TestEndStands(
    s: Execution, heard: seq<Moment>, world: World, origin: Execution, k: Key, r: nat, b: Budget, t: nat, m: Measurement)
    requires Standing(s, heard, world, origin, k, r, b, InTests(t)) && (m.report.passed ==> m.report.results != [])
    ensures var o := TestFinished(s, k, t, m.report, m.error, Some(r), m.diffHash);
      (o.Done? ==> Standing(o.state, heard, world, origin, k, r, WithReport(b, t, m),
                            if Passed(m.report, m.error) then Proven else ToRepair))
      && (Calm(heard, k, r) ==> o.Done?)
  {
    var o := TestFinished(s, k, t, m.report, m.error, Some(r), m.diffHash);
    if Calm(heard, k, r) { TestEndTracked(s, k, r, b, t, m); }
    if o.Done? {
      TestCall(s, k, r, b, FinishTest(k, t, m.report, m.error, Some(r), m.diffHash));
      TestEndFiled(s, k, r, b, t, m);
      CallStands(s, o.state, heard, world, origin, k, r, WithReport(b, t, m),
                 if Passed(m.report, m.error) then Proven else ToRepair);
    }
  }

  lemma TestEndFiled(s: Execution, k: Key, r: nat, b: Budget, t: nat, m: Measurement)
    requires RunInv(s) && RowsInv(s) && AllFiled(s.agents, k, b.tests) && (m.report.passed ==> m.report.results != [])
    requires TestFinished(s, k, t, m.report, m.error, Some(r), m.diffHash).Done?
    ensures AllFiled(TestFinished(s, k, t, m.report, m.error, Some(r), m.diffHash).state.agents, k, WithReport(b, t, m).tests)
  {
    TestEndRows(s, k, t, m.report, m.error, Some(r), m.diffHash);
    var u := TestFinished(s, k, t, m.report, m.error, Some(r), m.diffHash).state;
    FiledKept(s, u.agents, k, b.tests);
    if m.error.None? && m.diffHash.Some? {
      TestEndFiles(s, k, t, m.report, m.diffHash.value, Some(r));
      OneMoreFiled(u.agents, k, b.tests, Filing(t, m.report, m.diffHash.value));
    }
  }

  lemma OneMoreFiled(agents: seq<Agent>, k: Key, tests: seq<Filing>, e: Filing)
    requires AllFiled(agents, k, tests) && Filed(agents, k, e)
    ensures AllFiled(agents, k, tests + [e])
  {
  }

  lemma TestEndTracked(s: Execution, k: Key, r: nat, b: Budget, t: nat, m: Measurement)
    requires Settled(s, k, r, b, InTests(t))
    ensures var o := TestFinished(s, k, t, m.report, m.error, Some(r), m.diffHash);
      o.Done? && Settled(o.state, k, r, WithReport(b, t, m), if Passed(m.report, m.error) then Proven else ToRepair)
  {
    TestEndSteady(s, k, r, b, t, m.report, m.error, m.diffHash);
    TestEndKinds(s, k, r, b, t, m);
    TestEndLogged(s, TestFinished(s, k, t, m.report, m.error, Some(r), m.diffHash).state, k, r, b, t, m);
  }

  lemma TestEndKinds(s: Execution, k: Key, r: nat, b: Budget, t: nat, m: Measurement)
    requires At(s, k, r, b, TestsRunning) && Working(s.agents, k, t, Test)
    ensures var o := TestFinished(s, k, t, m.report, m.error, Some(r), m.diffHash);
      o.Done? && |o.state.agents| == |s.agents| && o.state.agents == s.agents[t := o.state.agents[t]]
      && o.state.agents[t].kind == Test
  {
    TestEnds(s, k, r, b, t, m.report, m.error, m.diffHash);
    TestEndRows(s, k, t, m.report, m.error, Some(r), m.diffHash);
    assert Evolves(s.agents[t], TestFinished(s, k, t, m.report, m.error, Some(r), m.diffHash).state.agents[t]);
  }

  lemma TestEndLogged(s: Execution, u: Execution, k: Key, r: nat, b: Budget, t: nat, m: Measurement)
    requires Tracked(s, k, r, b) && t < |s.agents| == |u.agents| && u.agents == s.agents[t := u.agents[t]]
    requires s.agents[t].kind == Test && u.agents[t].kind == Test
    ensures Tracked(u, k, r, WithReport(b, t, m))
  {
    TrackedChange(s, u, k, r, b, t);
  }

  lemma ClaimStands(s: Execution, heard: seq<Moment>, world: World, origin: Execution, k: Key, r: nat, b: Budget)
    requires Standing(s, heard, world, origin, k, r, b, ToRepair) && b.used < b.limit
    ensures var o := DebugClaimed(s, r);
      (o.Done? ==> Standing(o.state, heard, world, origin, k, r, b.(used := b.used + 1), InRepair(o.value)))
      && (Calm(heard, k, r) ==> o.Done?)
  {
    var o := DebugClaimed(s, r);
    if Calm(heard, k, r) {
      ClaimSteady(s, k, r, b);
      TrackedAppend(s, o.state, k, r, b);
    }
    if o.Done? {
      ClaimCall(s, k, r, b);
      ClaimRows(s, r);
      FiledKept(s, o.state.agents, k, b.tests);
      CallStands(s, o.state, heard, world, origin, k, r, b.(used := b.used + 1), InRepair(o.value));
    }
  }

  lemma ReserveStands(
    s: Execution, heard: seq<Moment>, world: World, origin: Execution, k: Key, r: nat, b: Budget, d: nat, f: Digest)
    requires Standing(s, heard, world, origin, k, r, b, InRepair(d))
    ensures var o := PatchReserved(s, r, d, f);
      (o.Done? ==> Standing(o.state, heard, world, origin, k, r, b.(known := b.known + {f}), Reserved(d, f, o.value)))
      && (Calm(heard, k, r) ==> o.Done? && (o.value <==> f !in b.known))
  {
    var o := PatchReserved(s, r, d, f);
    if Calm(heard, k, r) { ReserveTracked(s, k, r, b, d, f); }
    if o.Done? {
      ReserveCall(s, k, r, b, d, f);
      ReserveRows(s, r, d, f);
      FiledKept(s, o.state.agents, k, b.tests);
      CallStands(s, o.state, heard, world, origin, k, r, b.(known := b.known + {f}), Reserved(d, f, o.value));
    }
  }

  lemma ReserveTracked(s: Execution, k: Key, r: nat, b: Budget, d: nat, f: Digest)
    requires Settled(s, k, r, b, InRepair(d))
    ensures var o := PatchReserved(s, r, d, f);
      o.Done? && Settled(o.state, k, r, b.(known := b.known + {f}), Reserved(d, f, o.value)) && (o.value <==> f !in b.known)
  {
    RepeatedIsKnown(s.agents, k, r, f);
    ReserveSteady(s, k, r, b, d, f);
    ReserveSucceeds(s, k, r, b, d, f);
    var t := PatchReserved(s, r, d, f).state;
    assert Prints(s.agents[d], k, r) == {};
    assert Prints(t.agents[d], k, r) == {f};
    TrackedChange(s, t, k, r, b, d);
  }

  lemma RepairEndStands(
    s: Execution, heard: seq<Moment>, world: World, origin: Execution, k: Key, r: nat, b: Budget, d: nat, p: Progress,
    metadata: DebugMetadata)
    requires Standing(s, heard, world, origin, k, r, b, p) && (p == InRepair(d) || (p.Reserved? && p.attempt == d))
    requires metadata.Applied? ==> p.Reserved? && p.unused
    ensures var o := DebugFinished(s, r, d, metadata);
      (o.Done? ==> Standing(o.state, heard, world, origin, k, r, b, if metadata.Applied? then Patched(true) else ToRepair))
      && (Calm(heard, k, r) ==> o.Done?)
  {
    var o := DebugFinished(s, r, d, metadata);
    if Calm(heard, k, r) { RepairEndTracked(s, k, r, b, d, p, metadata); }
    if o.Done? {
      DebugEndCall(s, k, r, b, d, metadata);
      DebugEndRows(s, r, d, metadata);
      FiledKept(s, o.state.agents, k, b.tests);
      CallStands(s, o.state, heard, world, origin, k, r, b, if metadata.Applied? then Patched(true) else ToRepair);
    }
  }

  lemma RepairEndTracked(s: Execution, k: Key, r: nat, b: Budget, d: nat, p: Progress, metadata: DebugMetadata)
    requires Settled(s, k, r, b, p) && (p == InRepair(d) || (p.Reserved? && p.attempt == d))
    requires metadata.Applied? ==> p.Reserved? && p.unused
    ensures var o := DebugFinished(s, r, d, metadata);
      o.Done? && Settled(o.state, k, r, b, if metadata.Applied? then Patched(true) else ToRepair)
  {
    DebugEndSteady(s, k, r, b, d, p, metadata);
    RepairEndWrites(s, k, r, d, metadata);
    PrintsKnown(s.agents, k, r, d);
    TrackedChange(s, DebugFinished(s, r, d, metadata).state, k, r, b, d);
  }

  // The end of an attempt leaves its fingerprint as it was reserved.
  lemma RepairEndWrites(s: Execution, k: Key, r: nat, d: nat, metadata: DebugMetadata)
    requires DebugFinished(s, r, d, metadata).Done? && s.agents[d].kind == Debug
    ensures var t := DebugFinished(s, r, d, metadata).state;
      |t.agents| == |s.agents| && t.agents == s.agents[d := t.agents[d]] && t.agents[d].kind == s.agents[d].kind
      && Prints(t.agents[d], k, r) == Prints(s.agents[d], k, r)
  {
  }

  lemma PrintsKnown(agents: seq<Agent>, k: Key, r: nat, i: nat)
    requires i < |agents|
    ensures Known(agents, k, r) + Prints(agents[i], k, r) == Known(agents, k, r)
  {
    KnownChange(agents, i, agents[i], k, r);
    assert agents[i := agents[i]] == agents;
  }
}
