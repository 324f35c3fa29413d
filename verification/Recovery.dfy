/** The bounded loop of coding, testing and repair on one task (app/services/recovery.py). */
module Recovery {
  import opened Folding
  import opened Ordering
  import opened SchedulerState
  import opened Records
  import opened Transitions
  import opened Executions
  import opened TestCommands
  import opened CodingRecords
  import opened TestRecords
  import opened RecoveryRecords
  import opened Testing
  import opened ReviewGate
  import opened Protocol
  import opened RunInvariant
  import opened AgentRows
  import opened TaskPhases
  import opened RecoveryOwnership
  import opened RecoverySteps
  import opened RecoveryProgress
  import opened RecoveryLog
  import opened RecoveryStanding
  import opened RecoveryPlay
  import opened Runs
  import opened Transactions

  // Failures that stop the recovery instead of counting as one used attempt.
  predicate StopsRecovery(code: Code, applying: bool) {
    code == DebugCancelled || code == PatchDiffFailed || code == PatchDiffTooLarge || code == DebugOperationFailed
    || (applying && (code == PatchApplyFailed || code == PatchGitTimeout || code == PatchGitUnavailable))
  }

  datatype RecoveryReport = RecoveryReport(passed: bool, debugAttempts: nat, tests: seq<Report>, error: Option<Code>)

  // `Raised` follows an accepted end of the recovery; `Overtaken` is raised by a refused one.
  datatype RecoveryOutcome = NotOpened(error: Error) | Returned(report: RecoveryReport) | Raised(code: Code) | Overtaken(error: Error)

  // The exception a call lets through: a cancellation or anything else.
  datatype Fault = WasCancelled | WentWrong

  datatype RepairOutcome = PatchInPlace | NoPatch | RepairRaised(fault: Fault)

  function Abandoned(fault: Fault): Code {
    if fault.WasCancelled? then RecoveryCancelled else RecoveryOperationFailed
  }

  predicate LastPassed(reports: seq<Report>, passed: bool) {
    reports != [] && reports[|reports| - 1].passed == passed
  }

  // ---- what is stored ----

  ghost predicate PatchStored(agents: seq<Agent>, k: Key, row: nat, proposal: string, gitDiff: string) {
    row < |agents| && agents[row].task == Some(k) && agents[row].status == AgentCompleted
    && agents[row].output.proposal == Some(proposal) && agents[row].output.gitDiff == Some(gitDiff)
  }

  ghost predicate OutputStored(agents: seq<Agent>, k: Key, row: nat, success: bool, output: Output) {
    row < |agents| && agents[row].task == Some(k) && agents[row].output == output
    && agents[row].status == if success then AgentCompleted else AgentFailed
  }

  ghost predicate FailureStored(agents: seq<Agent>, k: Key, row: nat, code: Code) {
    row < |agents| && agents[row].task == Some(k) && agents[row].status == AgentFailed && agents[row].output.error == Some(code)
  }

  // The filing of a report of this sandbox.
  ghost predicate FiledFor(e: Filing, report: Report, sandbox: Sandbox) {
    sandbox.diff.Some? && e.report == report && e.diffHash == Sha256(sandbox.diff.value)
  }

  // One more filing, of this report.
  ghost predicate FiledIn(b: Budget, after: Budget, report: Report, sandbox: Sandbox) {
    |after.tests| == |b.tests| + 1 && after == b.(tests := b.tests + [after.tests[|b.tests|]])
    && FiledFor(after.tests[|b.tests|], report, sandbox)
  }

  // Every report is stored, in order, with the digest of the diff it was measured on.
  ghost predicate Logged(tests: seq<Filing>, reports: seq<Report>, world: World) {
    |tests| == |reports| && forall j: nat :: j < |tests| ==> FiledFor(tests[j], reports[j], world.tests(j))
  }

  lemma LoggedMore(tests: seq<Filing>, e: Filing, reports: seq<Report>, report: Report, world: World)
    requires Logged(tests, reports, world) && FiledFor(e, report, world.tests(|reports|))
    ensures Logged(tests + [e], reports + [report], world)
  {
  }

  ghost predicate TestKinds(agents: seq<Agent>, tests: seq<Filing>) {
    forall i :: 0 <= i < |tests| ==> tests[i].row < |agents| && agents[tests[i].row].kind == Test
  }

  ghost predicate ReportsStored(t: Execution, k: Key, reports: seq<Report>, world: World, tests: seq<Filing>) {
    Logged(tests, reports, world) && AllFiled(t.agents, k, tests)
  }

  lemma RepairEndStores(s: Execution, k: Key, r: nat, b: Budget, d: nat, metadata: DebugMetadata)
    requires Safe(s, k, r, b) && DebugFinished(s, r, d, metadata).Done?
    ensures var agents := DebugFinished(s, r, d, metadata).state.agents;
      match metadata
      case Applied(proposal, gitDiff) => PatchStored(agents, k, d, proposal, gitDiff)
      case NotApplied(error) => FailureStored(agents, k, d, error)
  {
  }

  // The patch of the answer is stored with its diff.
  ghost predicate InPlace(agents: seq<Agent>, k: Key, o: DebugOutcome) {
    o.Repairs? && o.apply.Applies? && exists d :: PatchStored(agents, k, d, o.proposal, o.apply.gitDiff)
  }

  // In place exactly if it is new and applies; raised exactly for the failures that halt a recovery; and
  // otherwise with the reason on record.
  ghost predicate EndsAs(done: RepairOutcome, agents: seq<Agent>, k: Key, o: DebugOutcome, known: set<Digest>) {
    match done
    case PatchInPlace => Lands(o, known)
    case NoPatch => !Lands(o, known) && !Halts(o, known) && exists d :: FailureStored(agents, k, d, Blame(o, known))
    case RepairRaised(fault) => Halts(o, known) && (fault.WasCancelled? <==> Blame(o, known) == DebugCancelled)
  }

  // What an outcome says about the rows it leaves behind, whatever others did in between. A report or
  // an exception after an accepted end comes with a closed recovery that counts its attempts, within
  // the limit; a report passes exactly when the task is completed, which is what its last test run
  // said, and otherwise every attempt was used; its test reports are those of the sandbox, turn by
  // turn, and are stored. The end is refused only if somebody had closed the recovery or finished its
  // task.
  ghost predicate Accounted(
    outcome: RecoveryOutcome, t: Execution, k: Key, r: nat, limit: nat, required: seq<string>, world: World) {
    match outcome
    case NotOpened(_) => true
    case Returned(report) =>
      Concluded(t, k, r, limit, report.debugAttempts, report.passed)
      && LastPassed(report.tests, report.passed) && (!report.passed ==> report.debugAttempts == limit)
      && Reports(report.tests, required, world) && exists tests :: ReportsStored(t, k, report.tests, world, tests)
    case Raised(_) => Concluded(t, k, r, limit, 0, false)
    case Overtaken(_) => Superseded(t, k, r)
  }

  // What it says if nobody disturbed the recovery: the report counts exactly the attempts charged to
  // it, all applied patches are different, the end is never refused, and repairs and tests took the
  // course that the world gives them.
  ghost predicate Undivided(
    outcome: RecoveryOutcome, t: Execution, k: Key, r: nat, limit: nat, world: World, known: set<Digest>) {
    match outcome
    case NotOpened(_) => true
    case Returned(report) =>
      Ended(t, k, r, report.debugAttempts, report.passed) && Course(report.tests, report.debugAttempts, world, known)
    case Raised(_) => FailedWithin(t, k, r, limit)
    case Overtaken(_) => false
  }

  ghost predicate FailedWithin(t: Execution, k: Key, r: nat, limit: nat) {
    exists used: nat :: used <= limit && Ended(t, k, r, used, false)
  }

  ghost predicate PassesWith(report: RecoveryReport, limit: nat, required: seq<string>, world: World, known: set<Digest>) {
    (report.passed <==> exists j: nat :: j <= Landings(world, known, limit) && Wins(required, world.tests(j)))
    && (AllLands(world, known, limit) ==>
          (report.passed <==> exists j: nat :: j <= limit && Wins(required, world.tests(j)))
          && (report.passed ==>
                Wins(required, world.tests(report.debugAttempts))
                && forall j: nat :: j < report.debugAttempts ==> !Wins(required, world.tests(j))))
  }

  lemma WorldDecides(report: RecoveryReport, limit: nat, required: seq<string>, world: World, known: set<Digest>)
    requires Reports(report.tests, required, world) && Course(report.tests, report.debugAttempts, world, known)
    requires LastPassed(report.tests, report.passed) && report.debugAttempts <= limit
    requires !report.passed ==> report.debugAttempts == limit
    ensures PassesWith(report, limit, required, world, known)
  {
    ReportsWin(report.tests, required, world);
    CourseVerdict(report.tests, report.debugAttempts, limit, required, world, known);
    if AllLands(world, known, limit) {
      FreshVerdict(report.tests, report.debugAttempts, limit, required, world, known);
    }
  }

  // The fingerprints known when the first repair begins.
  ghost function KnownAtStart(s: Execution, k: Key, world: World): set<Digest> {
    Grown(Known(s.agents, k, |s.agents|), k in s.tasks && s.tasks[k].status == Queued, world)
  }

  function Grown(known: set<Digest>, needsCoding: bool, world: World): set<Digest> {
    known + if needsCoding && world.coding.Proposes? then {Sha256(world.coding.proposal)} else {}
  }

  class RecoveryService {
    const store: ExecutionStore
    const records: RecoveryRecords
    const coding: CodingRecords
    const tests: TestService
    const limit: nat
    const world: World
    var turn: nat
    ghost var heard: seq<Moment>
    ghost var origin: Execution

    constructor (store: ExecutionStore, allowed: set<string>, images: set<string>, limit: nat, world: World)
      requires store.Valid() && allowed <= COMMANDS.Keys
      ensures Ready() && this.store == store && this.limit == limit && this.world == world
      ensures tests.allowed == allowed && tests.images == images
    {
      this.store, this.limit, this.world, turn := store, limit, world, 0;
      heard := [];
      records := new RecoveryRecords(store);
      coding := new CodingRecords(store);
      var testRecords := new TestRecords(store);
      tests := new TestService(testRecords, allowed, images);
    }

    ghost predicate Ready()
      reads store
    {
      store.Valid() && records.store == store && coding.store == store && tests.records.store == store
      && tests.allowed <= COMMANDS.Keys
    }

    ghost predicate Quiet(k: Key, r: nat)
      reads this`heard
    {
      Calm(heard, k, r)
    }

    ghost predicate Stands(k: Key, r: nat, b: Budget, p: Progress)
      reads this`heard, this`origin, store
    {
      tests.allowed <= COMMANDS.Keys && forall u {:trigger UnfoldRecovery(u)} :: UnfoldRecovery(u) ==>
        Ready() && Standing(store.View(), heard, world, origin, k, r, b, p)
    }

    lemma Loses(k: Key, r: nat, b: Budget, p: Progress)
      requires Stands(k, r, b, p)
      ensures Stands(k, r, b, Anywhere)
      ensures !Quiet(k, r) ==> forall q :: Stands(k, r, b, q)
    {
      if Quiet(k, r) {
        assert UnfoldRecovery(true);
        SteadyAnywhere(store.View(), k, r, b, p);
      }
    }

    // Others get their turn: any steps at all, every one of them taken.
    method Yield(k: Key, r: nat, ghost b: Budget, ghost p: Progress)
      requires Stands(k, r, b, p)
      modifies this`turn, this`heard, store
      ensures Stands(k, r, b, p)
      ensures Quiet(k, r) ==> old(Quiet(k, r))
      ensures turn == old(turn) + 1 && StepsOf(heard) == StepsOf(old(heard)) + world.others(old(turn))
    {
      Others(k, r, world.others(turn), b, p);
      turn := turn + 1;
    }

    method Others(k: Key, r: nat, steps: seq<Step>, ghost b: Budget, ghost p: Progress)
      requires Stands(k, r, b, p) && steps == world.others(turn)
      modifies this`heard, store
      ensures Stands(k, r, b, p)
      ensures Quiet(k, r) ==> old(Quiet(k, r))
      ensures StepsOf(heard) == StepsOf(old(heard)) + steps
    {
      var i := 0;
      while i < |steps|
        invariant 0 <= i <= |steps|
        invariant Stands(k, r, b, p)
        invariant Quiet(k, r) ==> old(Quiet(k, r))
        invariant StepsOf(heard) == StepsOf(old(heard)) + steps[..i]
      {
        StepsMore(StepsOf(old(heard)), heard, Moment(store.View(), steps[i]), steps, i);
        Other(k, r, steps[i], b, p);
        i := i + 1;
      }
      assert steps[..i] == steps;
    }

    method Other(k: Key, r: nat, step: Step, ghost b: Budget, ghost p: Progress)
      requires Stands(k, r, b, p) && step in world.others(turn)
      modifies this`heard, store
      ensures Stands(k, r, b, p)
      ensures Quiet(k, r) ==> old(Quiet(k, r))
      ensures heard == old(heard) + [Moment(old(store.View()), step)]
    {
      assert UnfoldRecovery(true);
      StandingNext(store.View(), heard, world, origin, k, r, b, p, step, turn);
      heard := heard + [Moment(store.View(), step)];
      Transactions.Perform(store, step);
    }

    // ---- the calls on the records ----

    method StartCoding(k: Key, r: nat, ghost b: Budget) returns (claim: Result<nat>)
      requires Stands(k, r, b, ToCode)
      modifies this`turn, this`heard, store
      ensures Stands(k, r, b, if claim.Ok? then InCoding(claim.value) else Anywhere)
      ensures Quiet(k, r) ==> old(Quiet(k, r)) && claim.Ok?
    {
      Yield(k, r, b, ToCode);
      assert UnfoldRecovery(true);
      CodingStartStands(store.View(), heard, world, origin, k, r, b);
      claim := coding.Start(k, true);
      if claim.Err? { Loses(k, r, b, ToCode); }
    }

    method EndCoding(k: Key, r: nat, c: nat, success: bool, output: Output, ghost b: Budget) returns (ok: bool)
      requires Stands(k, r, b, InCoding(c)) && output.patchHash.None? && (success ==> output.gitDiff.Some?)
      modifies this`turn, this`heard, store
      ensures if ok then Stands(k, r, Learnt(b, output.proposal), if success then Patched(true) else Anywhere)
              else Stands(k, r, b, InCoding(c))
      ensures ok ==> OutputStored(store.agents, k, c, success, output)
      ensures Quiet(k, r) ==> old(Quiet(k, r)) && ok
    {
      Yield(k, r, b, InCoding(c));
      assert UnfoldRecovery(true);
      CodingEndStands(store.View(), heard, world, origin, k, r, b, c, success, output);
      if CodingFinished(store.View(), k, c, success, output).Done? { CodingEndWrites(store.View(), k, c, success, output); }
      var result := coding.Finish(k, c, success, output);
      ok := result.Ok?;
    }

    method StartTests(k: Key, r: nat, required: seq<string>, ghost b: Budget, ghost ready: bool) returns (claim: Result<nat>)
      requires Stands(k, r, b, Patched(ready)) && b.required == required
      modifies this`turn, this`heard, store
      ensures Stands(k, r, b, if claim.Ok? then InTests(claim.value) else Anywhere)
      ensures Quiet(k, r) ==> old(Quiet(k, r)) && (ready ==> claim.Ok?)
    {
      Yield(k, r, b, Patched(ready));
      assert UnfoldRecovery(true);
      TestStartStands(store.View(), heard, world, origin, k, r, b, ready);
      claim := tests.records.Start(k, required, Some(r));
      if claim.Err? { Loses(k, r, b, Patched(ready)); }
    }

    method EndTests(k: Key, r: nat, t: nat, m: Measurement, ghost b: Budget) returns (ok: bool)
      requires Stands(k, r, b, InTests(t)) && (m.report.passed ==> m.report.results != [])
      modifies this`turn, this`heard, store
      ensures if ok then Stands(k, r, WithReport(b, t, m), if Passed(m.report, m.error) then Proven else ToRepair)
              else Stands(k, r, b, InTests(t))
      ensures Quiet(k, r) ==> old(Quiet(k, r)) && ok
    {
      Yield(k, r, b, InTests(t));
      assert UnfoldRecovery(true);
      TestEndStands(store.View(), heard, world, origin, k, r, b, t, m);
      var result := tests.records.Finish(k, t, m.report, m.error, Some(r), m.diffHash);
      ok := result.Ok?;
    }

    method StartRepair(k: Key, r: nat, ghost b: Budget) returns (claim: Result<nat>)
      requires Stands(k, r, b, ToRepair) && b.used < b.limit
      modifies this`turn, this`heard, store
      ensures claim.Ok? ==> Stands(k, r, b.(used := b.used + 1), InRepair(claim.value))
      ensures claim.Err? ==> Stands(k, r, b, Anywhere)
      ensures Quiet(k, r) ==> old(Quiet(k, r)) && claim.Ok?
    {
      Yield(k, r, b, ToRepair);
      assert UnfoldRecovery(true);
      ClaimStands(store.View(), heard, world, origin, k, r, b);
      claim := records.ClaimDebug(r);
      if claim.Err? { Loses(k, r, b, ToRepair); }
    }

    method Reserve(k: Key, r: nat, d: nat, fingerprint: Digest, ghost b: Budget) returns (unused: Result<bool>)
      requires Stands(k, r, b, InRepair(d))
      modifies this`turn, this`heard, store
      ensures if unused.Ok? then Stands(k, r, b.(known := b.known + {fingerprint}), Reserved(d, fingerprint, unused.value))
              else Stands(k, r, b, InRepair(d))
      ensures Quiet(k, r) ==> old(Quiet(k, r)) && unused.Ok? && (unused.value <==> fingerprint !in b.known)
    {
      Yield(k, r, b, InRepair(d));
      assert UnfoldRecovery(true);
      ReserveStands(store.View(), heard, world, origin, k, r, b, d, fingerprint);
      unused := records.ReservePatch(r, d, fingerprint);
    }

    method EndRepair(k: Key, r: nat, d: nat, metadata: DebugMetadata, ghost b: Budget, ghost p: Progress) returns (ok: bool)
      requires Stands(k, r, b, p) && (p == InRepair(d) || (p.Reserved? && p.attempt == d))
      requires metadata.Applied? ==> p.Reserved? && p.unused
      modifies this`turn, this`heard, store
      ensures Stands(k, r, b, if !ok then p else if metadata.Applied? then Patched(true) else ToRepair)
      ensures ok && metadata.Applied? ==> PatchStored(store.agents, k, d, metadata.proposal, metadata.gitDiff)
      ensures ok && metadata.NotApplied? ==> FailureStored(store.agents, k, d, metadata.error)
      ensures Quiet(k, r) ==> old(Quiet(k, r)) && ok
    {
      Yield(k, r, b, p);
      assert UnfoldRecovery(true);
      RepairEndStands(store.View(), heard, world, origin, k, r, b, d, p, metadata);
      if DebugFinished(store.View(), r, d, metadata).Done? { RepairEndStores(store.View(), k, r, b, d, metadata); }
      var result := records.FinishDebug(r, d, metadata);
      ok := result.Ok?;
    }

    // Ends the recovery; if that is accepted it is the last word on the task.
    method Close(k: Key, r: nat, passed: bool, error: Option<Code>, ghost b: Budget, ghost p: Progress) returns (end: Result<()>)
      requires Stands(k, r, b, p) && (passed ==> p.Proven?)
      modifies this`turn, this`heard, store
      ensures end.Ok? ==> Over(k, r) && Concluded(store.View(), k, r, b.limit, b.used, passed) && AllFiled(store.agents, k, b.tests)
      ensures end.Ok? && Quiet(k, r) ==> Ended(store.View(), k, r, b.used, passed) && TestKinds(store.agents, b.tests)
      ensures end.Err? ==> Stands(k, r, b, p) && (!passed ==> Superseded(store.View(), k, r))
      ensures Quiet(k, r) ==> old(Quiet(k, r)) && end.Ok?
    {
      Yield(k, r, b, p);
      assert UnfoldRecovery(true);
      ghost var s := store.View();
      EndCloses(s, k, r, b, passed, error);
      if !passed { EndRefused(s, k, r, b, error); }
      if Quiet(k, r) { EndSteady(s, k, r, b, p, passed, error); }
      if RecoveryEnd(s, r, passed, error).Done? {
        EndReaches(s, r, passed, error);
        EndFiles(s, k, r, b, passed, error);
        ReachesTransitive(origin, s, RecoveryEnd(s, r, passed, error).state);
      }
      end := records.Finish(r, passed, error);
    }

    ghost predicate Over(k: Key, r: nat)
      reads this`heard, this`origin, store
    {
      tests.allowed <= COMMANDS.Keys && forall u {:trigger UnfoldRecovery(u)} :: UnfoldRecovery(u) ==>
        Ready() && Reaches(origin, store.View()) && Interleaved(heard, world, origin)
    }

    // ---- the services ----

    // `CodingService.run`; a refused completion is recorded once more as a failure.
    method RunCoding(k: Key, r: nat, ghost b: Budget) returns (fault: Option<Fault>)
      requires Stands(k, r, b, ToCode)
      modifies this`turn, this`heard, store
      ensures fault.None? ==> world.coding.Proposes? && Stands(k, r, Learnt(b, Some(world.coding.proposal)), Patched(true))
      ensures fault.None? ==> exists c :: PatchStored(store.agents, k, c, world.coding.proposal, world.coding.gitDiff)
      ensures fault.Some? ==> Stands(k, r, b, Anywhere)
      ensures Quiet(k, r) ==> old(Quiet(k, r)) && (fault.None? <==> world.coding.Proposes?)
      ensures Quiet(k, r) && fault.Some? ==>
        (fault.value.WasCancelled? <==> world.coding.code == CodingCancelled)
        && exists c :: FailureStored(store.agents, k, c, world.coding.code)
    {
      var claim := StartCoding(k, r, b);
      if claim.Err? {
        return Some(WentWrong);
      }
      match world.coding {
        case Proposes(proposal, gitDiff) =>
          var ok := EndCoding(k, r, claim.value, true, NO_OUTPUT.(proposal := Some(proposal), gitDiff := Some(gitDiff)), b);
          if ok {
            assert PatchStored(store.agents, k, claim.value, proposal, gitDiff);
            return None;
          }
          var again := EndCoding(k, r, claim.value, false, NO_OUTPUT.(error := Some(CodingError)), b);
          if !again { Loses(k, r, b, InCoding(claim.value)); }
          fault := Some(WentWrong);
        case CodingBreaks(code) =>
          var ok := EndCoding(k, r, claim.value, false, NO_OUTPUT.(error := Some(code)), b);
          if ok {
            assert FailureStored(store.agents, k, claim.value, code);
          } else {
            Loses(k, r, b, InCoding(claim.value));
          }
          fault := Some(if ok && code == CodingCancelled then WasCancelled else WentWrong);
      }
    }

    // `TestService.run` in the name of the recovery; a refused report is recorded once more as a failure.
    method RunTests(k: Key, r: nat, required: seq<string>, sandbox: Sandbox, ghost b: Budget, ghost ready: bool)
      returns (report: Report, fault: Option<Fault>, ghost after: Budget)
      requires Stands(k, r, b, Patched(ready)) && b.required == required
      modifies this`turn, this`heard, store
      ensures Stands(k, r, after, if fault.Some? then Anywhere else if report.passed then Proven else ToRepair)
      // a report tells what the sandbox did, and is stored
      ensures fault.None? ==> Told(required, sandbox, report)
      ensures fault.None? ==> FiledIn(b, after, report, sandbox)
      ensures fault.None? && report.passed ==> PassesAll(report, ExpectedCommands(required))
      ensures fault.Some? ==> after == b && fault.value.WentWrong?
      ensures Quiet(k, r) ==> old(Quiet(k, r)) && (ready && tests.Answers(required, sandbox) ==> fault.None?)
    {
      after := b;
      var claim := StartTests(k, r, required, b, ready);
      if claim.Err? {
        return Report([], false), Some(WentWrong), b;
      }
      var m := tests.Measure(required, sandbox);
      var ok := EndTests(k, r, claim.value, m, b);
      report, fault := m.report, None;
      if ok && m.error.None? {
        after := WithReport(b, claim.value, m);
        return;
      }
      fault := Some(WentWrong);
      if !ok && m.error.None? {
        ok := EndTests(k, r, claim.value, Measurement(report.(passed := false), Some(TestExecutionFailed), None), b);
      }
      Loses(k, r, b, if ok then ToRepair else InTests(claim.value));
    }

    // `_debug`: one attempt of the budget, from its claim to its end.
    method Repair(k: Key, r: nat, outcome: DebugOutcome, ghost b: Budget) returns (done: RepairOutcome, ghost spent: Budget)
      requires Stands(k, r, b, ToRepair) && b.used < b.limit
      modifies this`turn, this`heard, store
      ensures spent == b.(used := spent.used, known := spent.known) && (!done.RepairRaised? ==> spent.used == b.used + 1)
      ensures Stands(k, r, spent, if done.PatchInPlace? then Patched(true) else if done.NoPatch? then ToRepair else Anywhere)
      ensures done.PatchInPlace? ==> InPlace(store.agents, k, outcome)
      // undisturbed, the attempt ends as the model's answer and its newness say
      ensures Quiet(k, r) ==> old(Quiet(k, r)) && spent == b.(used := b.used + 1, known := b.known + Tries(outcome))
      ensures Quiet(k, r) ==> EndsAs(done, store.agents, k, outcome, b.known)
    {
      var claim := StartRepair(k, r, b);
      if claim.Err? {
        return RepairRaised(WentWrong), b;
      }
      var d := claim.value;
      spent := b.(used := b.used + 1);
      if outcome.DebugBreaks? {
        done := GiveUp(k, r, d, outcome.code, false, spent, InRepair(d));
      } else {
        done, spent := Apply(k, r, d, outcome.proposal, outcome.apply, spent);
      }
    }

    // From the fingerprint reservation to the end of the attempt.
    method Apply(k: Key, r: nat, d: nat, proposal: string, apply: ApplyOutcome, ghost b: Budget)
      returns (done: RepairOutcome, ghost after: Budget)
      requires Stands(k, r, b, InRepair(d))
      modifies this`turn, this`heard, store
      ensures after == b.(known := after.known)
      ensures Stands(k, r, after, if done.PatchInPlace? then Patched(true) else if done.NoPatch? then ToRepair else Anywhere)
      ensures done.PatchInPlace? ==> InPlace(store.agents, k, Repairs(proposal, apply))
      ensures Quiet(k, r) ==> old(Quiet(k, r)) && after.known == b.known + {Sha256(proposal)}
      ensures Quiet(k, r) ==> EndsAs(done, store.agents, k, Repairs(proposal, apply), b.known)
    {
      var f := Sha256(proposal);
      var unused := Reserve(k, r, d, f, b);
      after := if unused.Ok? then b.(known := b.known + {f}) else b;
      if unused.Err? {
        done := GiveUp(k, r, d, DebugOperationFailed, false, after, InRepair(d));
      } else if !unused.value {
        done := GiveUp(k, r, d, IdenticalDebugPatch, false, after, Reserved(d, f, false));
      } else if apply.ApplyBreaks? {
        done := GiveUp(k, r, d, apply.code, true, after, Reserved(d, f, true));
      } else {
        done := Keep(k, r, d, proposal, apply.gitDiff, f, after);
      }
    }

    // The patch is in place; if recording it is refused, the attempt is recorded as failed.
    method Keep(k: Key, r: nat, d: nat, proposal: string, gitDiff: string, ghost f: Digest, ghost b: Budget)
      returns (done: RepairOutcome)
      requires Stands(k, r, b, Reserved(d, f, true))
      modifies this`turn, this`heard, store
      ensures Stands(k, r, b, if done.PatchInPlace? then Patched(true) else Anywhere) && !done.NoPatch?
      ensures done.PatchInPlace? ==> PatchStored(store.agents, k, d, proposal, gitDiff)
      ensures Quiet(k, r) ==> old(Quiet(k, r)) && done.PatchInPlace?
    {
      var ok := EndRepair(k, r, d, Applied(proposal, gitDiff), b, Reserved(d, f, true));
      if ok {
        return PatchInPlace;
      }
      done := GiveUp(k, r, d, DebugOperationFailed, true, b, Reserved(d, f, true));
    }

    method GiveUp(k: Key, r: nat, d: nat, code: Code, applying: bool, ghost b: Budget, ghost p: Progress)
      returns (done: RepairOutcome)
      requires Stands(k, r, b, p) && (p == InRepair(d) || (p.Reserved? && p.attempt == d))
      modifies this`turn, this`heard, store
      ensures Stands(k, r, b, if done.NoPatch? then ToRepair else Anywhere) && !done.PatchInPlace?
      ensures done.NoPatch? ==> !StopsRecovery(code, applying)
      ensures Quiet(k, r) ==> old(Quiet(k, r)) && FailureStored(store.agents, k, d, code)
      ensures Quiet(k, r) ==>
        done == if !StopsRecovery(code, applying) then NoPatch else RepairRaised(if code == DebugCancelled then WasCancelled else WentWrong)
    {
      var ok := EndRepair(k, r, d, NotApplied(code), b, p);
      Loses(k, r, b, if ok then ToRepair else p);
      done := if !ok then RepairRaised(WentWrong)
        else if code == DebugCancelled then RepairRaised(WasCancelled)
        else if StopsRecovery(code, applying) then RepairRaised(WentWrong)
        else NoPatch;
    }

    ghost predicate TestsAnswer(required: seq<string>)
      requires tests.allowed <= COMMANDS.Keys
    {
      forall i: nat :: tests.Answers(required, world.tests(i))
    }

    ghost predicate NoneHalts(known: set<Digest>) {
      forall i: nat :: i < limit ==> !HaltsAt(world, known, i)
    }

    // The world lets every external operation come to a result.
    ghost predicate Benign(k: Key, required: seq<string>)
      reads store
      requires Ready()
    {
      world.coding.Proposes? && TestsAnswer(required) && NoneHalts(KnownAtStart(store.View(), k, world))
      && (k in store.tasks && store.tasks[k].status == SchedulerState.Running ==> PatchReady(store.agents, k))
    }

    method Run(k: Key, matches: bool, required: seq<string>) returns (outcome: RecoveryOutcome)
      requires Ready() && RunInv(store.View()) && RowsInv(store.View())
      modifies this`turn, this`heard, this`origin, store
      ensures Ready()
      ensures outcome.NotOpened? <==> Opened(old(store.View()), k, matches, required, limit).Refused?
      ensures outcome.NotOpened? ==> store.View() == old(store.View())
      // the report, or the exception, tells what is persisted, whatever others did meanwhile
      ensures Accounted(outcome, store.View(), k, |old(store.agents)|, limit, required, world)
      // whatever is done, by this worker or by others, is a run of the protocol
      ensures Reaches(old(store.View()), store.View()) && Interleaved(heard, world, old(store.View()))
      // the end is refused, and attempts or patches are shared, only if a step of others disturbed the task
      ensures Quiet(k, |old(store.agents)|) ==>
        Undivided(outcome, store.View(), k, |old(store.agents)|, limit, world, KnownAtStart(old(store.View()), k, world))
      // nothing of the protocol itself ever gets in the way
      ensures Quiet(k, |old(store.agents)|) && old(Benign(k, required)) ==> !outcome.Raised?
      // coding that breaks ends the recovery
      ensures Quiet(k, |old(store.agents)|) && old(CodingStops(k)) && !outcome.NotOpened? ==>
        outcome == Raised(if world.coding.code == CodingCancelled then RecoveryCancelled else RecoveryOperationFailed)
      // it passes exactly if one of the test turns within the limit succeeds, and, if every repair is
      // new and applies, after as many attempts as the number of that turn
      ensures Quiet(k, |old(store.agents)|) && outcome.Returned? ==>
        PassesWith(outcome.report, limit, required, world, KnownAtStart(old(store.View()), k, world))
    {
      ghost var s := store.View();
      ghost var known := KnownAtStart(s, k, world);
      outcome := Perform(k, matches, required);
      if outcome.Returned? {
        if Quiet(k, |s.agents|) { WorldDecides(outcome.report, limit, required, world, known); }
      }
    }

    // The task waits for coding, which breaks.
    ghost predicate CodingStops(k: Key)
      reads store
    {
      k in store.tasks && store.tasks[k].status == Queued && world.coding.CodingBreaks?
    }

    method Perform(k: Key, matches: bool, required: seq<string>) returns (outcome: RecoveryOutcome)
      requires Ready() && RunInv(store.View()) && RowsInv(store.View())
      modifies this`turn, this`heard, this`origin, store
      ensures Ready()
      ensures outcome.NotOpened? <==> Opened(old(store.View()), k, matches, required, limit).Refused?
      ensures outcome.NotOpened? ==> store.View() == old(store.View())
      ensures Accounted(outcome, store.View(), k, |old(store.agents)|, limit, required, world)
      ensures Reaches(old(store.View()), store.View()) && Interleaved(heard, world, old(store.View()))
      ensures Quiet(k, |old(store.agents)|) ==>
        Undivided(outcome, store.View(), k, |old(store.agents)|, limit, world, KnownAtStart(old(store.View()), k, world))
      ensures Quiet(k, |old(store.agents)|) && old(Benign(k, required)) ==> !outcome.Raised?
      ensures Quiet(k, |old(store.agents)|) && old(CodingStops(k)) && !outcome.NotOpened? ==>
        outcome == Raised(if world.coding.code == CodingCancelled then RecoveryCancelled else RecoveryOperationFailed)
    {
      ghost var s := store.View();
      heard, origin := [], s;
      ReachesItself(s);
      var claim := records.Open(k, matches, required, limit);
      if claim.Err? {
        return NotOpened(claim.error);
      }
      var r, needsCoding := claim.value.0, claim.value.1;
      ghost var b := Budget(required, limit, 0, Known(s.agents, k, r), []);
      OpenStands(s, k, matches, required, limit, world);
      outcome := Proceed(k, r, required, needsCoding, b, PatchReady(s.agents, k));
      Finished(k, r);
    }

    // From the opened recovery to its end.
    method Proceed(k: Key, r: nat, required: seq<string>, needsCoding: bool, ghost b: Budget, ghost ready: bool)
      returns (outcome: RecoveryOutcome)
      requires Stands(k, r, b, if needsCoding then ToCode else Patched(ready)) && b == Budget(required, limit, 0, b.known, [])
      modifies this`turn, this`heard, store
      ensures Over(k, r) && !outcome.NotOpened? && Accounted(outcome, store.View(), k, r, limit, required, world)
      ensures Quiet(k, r) ==>
        old(Quiet(k, r)) && Undivided(outcome, store.View(), k, r, limit, world, Grown(b.known, needsCoding, world))
      ensures Quiet(k, r) && (if needsCoding then world.coding.Proposes? else ready) ==>
        TestsAnswer(required) && NoneHalts(Grown(b.known, needsCoding, world)) ==> outcome.Returned?
      ensures Quiet(k, r) && needsCoding && world.coding.CodingBreaks? ==>
        outcome == Raised(if world.coding.code == CodingCancelled then RecoveryCancelled else RecoveryOperationFailed)
    {
      ghost var start, prepared := b, ready;
      if needsCoding {
        var fault := RunCoding(k, r, b);
        if fault.Some? {
          outcome := Abandon(k, r, required, fault.value, b);
          return;
        }
        start, prepared := Learnt(b, Some(world.coding.proposal)), true;
      }
      assert start.known == Grown(b.known, needsCoding, world);
      outcome := Loop(k, r, required, start, prepared);
    }

    lemma Finished(k: Key, r: nat)
      requires Over(k, r)
      ensures Ready() && Reaches(origin, store.View()) && Interleaved(heard, world, origin)
    {
      assert UnfoldRecovery(true);
    }

    // One round: a repair, and a test run of the patch it left in place; `last` is the latest report.
    method Attempt(k: Key, r: nat, required: seq<string>, attempt: nat, reports: seq<Report>, ghost b: Budget)
      returns (fault: Option<Fault>, all: seq<Report>, ghost spent: Budget)
      requires Stands(k, r, b, ToRepair) && b.used < b.limit && b.required == required
      requires Reports(reports, required, world) && Logged(b.tests, reports, world) && LastPassed(reports, false)
      modifies this`turn, this`heard, store
      ensures spent.required == b.required && spent.limit == b.limit && (fault.None? ==> spent.used == b.used + 1)
      ensures fault.Some? ==> Stands(k, r, spent, Anywhere)
      ensures fault.None? ==>
        Reports(all, required, world) && Logged(spent.tests, all, world)
        && Stands(k, r, spent, if all[|all| - 1].passed then Proven else ToRepair)
      ensures Quiet(k, r) ==> old(Quiet(k, r)) && spent.known == b.known + Tries(world.debugs(attempt))
      ensures Quiet(k, r) && fault.None? ==>
        !Halts(world.debugs(attempt), b.known) && (!Lands(world.debugs(attempt), b.known) ==> all == reports)
        && (Lands(world.debugs(attempt), b.known) ==> |all| == |reports| + 1)
      ensures Quiet(k, r) && TestsAnswer(required) && !Halts(world.debugs(attempt), b.known) ==> fault.None?
    {
      fault, all := None, reports;
      var done;
      done, spent := Repair(k, r, world.debugs(attempt), b);
      if done.RepairRaised? {
        fault := Some(done.fault);
      } else if done.PatchInPlace? {
        var report;
        report, fault, spent := RunTests(k, r, required, world.tests(|reports|), spent, true);
        if fault.None? {
          all := reports + [report];
          ReportsMore(reports, report, required, world);
          LoggedMore(b.tests, spent.tests[|b.tests|], reports, report, world);
        }
      }
    }

    method Loop(k: Key, r: nat, required: seq<string>, ghost b: Budget, ghost ready: bool) returns (outcome: RecoveryOutcome)
      requires Stands(k, r, b, Patched(ready)) && b == Budget(required, limit, 0, b.known, [])
      modifies this`turn, this`heard, store
      ensures Over(k, r) && !outcome.NotOpened? && Accounted(outcome, store.View(), k, r, limit, required, world)
      ensures Quiet(k, r) ==> old(Quiet(k, r)) && Undivided(outcome, store.View(), k, r, limit, world, b.known)
      ensures Quiet(k, r) && ready && TestsAnswer(required) && NoneHalts(b.known) ==> outcome.Returned?
    {
      var report, fault;
      ghost var after;
      report, fault, after := RunTests(k, r, required, world.tests(0), b, ready);
      if fault.Some? {
        outcome := Abandon(k, r, required, fault.value, b);
      } else {
        outcome := Rounds(k, r, required, report, after);
      }
    }

    // The course so far. Kept folded.
    ghost predicate OnCourse(reports: seq<Report>, attempts: nat, known: set<Digest>, spent: Budget) {
      forall u {:trigger UnfoldCourse(u)} :: UnfoldCourse(u) ==>
        Course(reports, attempts, world, known) && spent.known == KnownAfter(world, known, attempts)
    }

    lemma CourseStarts(initial: Report, b: Budget)
      ensures OnCourse([initial], 0, b.known, b)
    {
    }

    lemma CourseGoesOn(
      reports: seq<Report>, all: seq<Report>, attempts: nat, known: set<Digest>, spent: Budget, after: Budget)
      requires OnCourse(reports, attempts, known, spent) && reports != [] && !reports[|reports| - 1].passed && all != []
      requires after.known == spent.known + Tries(world.debugs(attempts)) && !Halts(world.debugs(attempts), spent.known)
      requires if Lands(world.debugs(attempts), spent.known) then |all| == |reports| + 1 else all == reports
      ensures OnCourse(all, attempts + 1, known, after)
    {
      assert UnfoldCourse(true);
      CourseMore(reports, all, attempts, world, known);
    }

    lemma CourseMeans(reports: seq<Report>, attempts: nat, known: set<Digest>, spent: Budget)
      requires OnCourse(reports, attempts, known, spent)
      ensures Course(reports, attempts, world, known) && spent.known == KnownAfter(world, known, attempts)
    {
      assert UnfoldCourse(true);
    }

    // A round that keeps the course.
    method Round(k: Key, r: nat, required: seq<string>, attempt: nat, reports: seq<Report>, ghost known: set<Digest>, ghost b: Budget)
      returns (fault: Option<Fault>, all: seq<Report>, ghost spent: Budget)
      requires Stands(k, r, b, ToRepair) && b == Budget(required, limit, attempt, b.known, b.tests) && attempt < limit
      requires Reports(reports, required, world) && Logged(b.tests, reports, world) && LastPassed(reports, false)
      requires Quiet(k, r) ==> OnCourse(reports, attempt, known, b)
      modifies this`turn, this`heard, store
      ensures spent.required == required && spent.limit == limit
      ensures fault.Some? ==> Stands(k, r, spent, Anywhere)
      ensures fault.None? ==>
        spent.used == attempt + 1 && Reports(all, required, world) && Logged(spent.tests, all, world)
        && Stands(k, r, spent, if all[|all| - 1].passed then Proven else ToRepair)
      ensures Quiet(k, r) ==> old(Quiet(k, r)) && (fault.None? ==> OnCourse(all, attempt + 1, known, spent))
      ensures Quiet(k, r) && TestsAnswer(required) && NoneHalts(known) ==> fault.None?
    {
      if Quiet(k, r) {
        CourseMeans(reports, attempt, known, b);
        assert NoneHalts(known) ==> !HaltsAt(world, known, attempt);
      }
      fault, all, spent := Attempt(k, r, required, attempt, reports, b);
      if Quiet(k, r) && fault.None? { CourseGoesOn(reports, all, attempt, known, b, spent); }
    }

    // Repairs until the tests pass or the budget is used up.
    method Rounds(k: Key, r: nat, required: seq<string>, initial: Report, ghost b: Budget) returns (outcome: RecoveryOutcome)
      requires Stands(k, r, b, if initial.passed then Proven else ToRepair) && b == Budget(required, limit, 0, b.known, b.tests)
      requires Told(required, world.tests(0), initial) && Logged(b.tests, [initial], world)
      modifies this`turn, this`heard, store
      ensures Over(k, r) && !outcome.NotOpened? && Accounted(outcome, store.View(), k, r, limit, required, world)
      ensures Quiet(k, r) ==> old(Quiet(k, r)) && Undivided(outcome, store.View(), k, r, limit, world, b.known)
      ensures Quiet(k, r) && TestsAnswer(required) && NoneHalts(b.known) ==> outcome.Returned?
    {
      var reports, attempts := [initial], 0;
      ghost var spent := b;
      CourseStarts(initial, b);
      while attempts < limit && !reports[|reports| - 1].passed
        invariant 0 <= attempts <= limit && spent == Budget(required, limit, attempts, spent.known, spent.tests)
        invariant Reports(reports, required, world) && Logged(spent.tests, reports, world)
        invariant Stands(k, r, spent, if reports[|reports| - 1].passed then Proven else ToRepair)
        invariant Quiet(k, r) ==> old(Quiet(k, r)) && OnCourse(reports, attempts, b.known, spent)
      {
        var fault, all;
        fault, all, spent := Round(k, r, required, attempts, reports, b.known, spent);
        if fault.Some? {
          outcome := Abandon(k, r, required, fault.value, spent);
          return;
        }
        reports, attempts := all, attempts + 1;
      }
      outcome := Conclude(k, r, required, reports, attempts, spent);
      if Quiet(k, r) { CourseMeans(reports, attempts, b.known, spent); }
    }

    // An exception ends the recovery and is raised again, unless the end is refused as well.
    method Abandon(k: Key, r: nat, required: seq<string>, fault: Fault, ghost b: Budget) returns (outcome: RecoveryOutcome)
      requires Stands(k, r, b, Anywhere) && b.limit == limit
      modifies this`turn, this`heard, store
      ensures Over(k, r) && (outcome.Raised? || outcome.Overtaken?)
      ensures Accounted(outcome, store.View(), k, r, limit, required, world)
      ensures Quiet(k, r) ==> old(Quiet(k, r))
      ensures Quiet(k, r) ==> outcome == Raised(if fault.WasCancelled? then RecoveryCancelled else RecoveryOperationFailed)
      ensures Quiet(k, r) ==> FailedWithin(store.View(), k, r, limit)
    {
      var end := Close(k, r, false, Some(Abandoned(fault)), b, Anywhere);
      match end {
        case Ok(_) =>
          outcome := Raised(Abandoned(fault));
        case Err(error) =>
          StandsOver(k, r, b, Anywhere);
          outcome := Overtaken(error);
      }
    }

    method Conclude(k: Key, r: nat, required: seq<string>, reports: seq<Report>, attempts: nat, ghost b: Budget)
      returns (outcome: RecoveryOutcome)
      requires Reports(reports, required, world) && Logged(b.tests, reports, world)
      requires b.limit == limit && b.used == attempts
      requires Stands(k, r, b, if reports[|reports| - 1].passed then Proven else ToRepair)
      requires reports[|reports| - 1].passed || attempts == limit
      modifies this`turn, this`heard, store
      ensures Over(k, r) && !outcome.NotOpened? && Accounted(outcome, store.View(), k, r, limit, required, world)
      ensures Quiet(k, r) ==>
        old(Quiet(k, r)) && outcome.Returned? && outcome.report.debugAttempts == attempts && outcome.report.tests == reports
        && Ended(store.View(), k, r, attempts, outcome.report.passed)
    {
      var passed := reports[|reports| - 1].passed;
      var error := if passed then None else Some(DebugAttemptsExhausted);
      ghost var p := if passed then Proven else ToRepair;
      var end := Close(k, r, passed, error, b, p);
      if end.Ok? {
        assert ReportsStored(store.View(), k, reports, world, b.tests);
        return Returned(RecoveryReport(passed, attempts, reports, error));
      }
      Loses(k, r, b, p);
      outcome := Abandon(k, r, required, WentWrong, b);
    }

    lemma StandsOver(k: Key, r: nat, b: Budget, p: Progress)
      requires Stands(k, r, b, p)
      ensures Over(k, r)
    {
    }
  }
}
