/** One run of the required tests in the sandbox (app/services/testing.py). */
module Testing {
  import opened Ordering
  import opened SchedulerState
  import opened Records
  import opened Executions
  import opened TestCommands
  import opened TestRecords
  import opened ReviewGate
  import opened Protocol
  import opened RunInvariant
  import opened TaskPhases

  // What the sandbox does with one command.
  datatype SandboxOutcome = Ran(exitCode: Option<int>, timedOut: bool) | Broken

  // What the outside world does during one test run: one outcome a command, then the workspace diff.
  datatype Sandbox = Sandbox(outcomes: seq<SandboxOutcome>, diff: Option<string>)

  datatype Measurement = Measurement(report: Report, error: Option<Code>, diffHash: Option<Digest>)

  predicate Succeeds(o: SandboxOutcome) {
    o == Ran(Some(0), false)
  }

  // A report that tells what the sandbox did: a result for each required command once, in order, with
  // the exit code and the timeout of its run; it passes if every command ran to its end with exit code
  // 0, and there was one.
  ghost predicate Told(required: seq<string>, sandbox: Sandbox, report: Report) {
    var names := Dedup(required);
    sandbox.diff.Some? && |report.results| == |names| <= |sandbox.outcomes|
    && (forall j :: 0 <= j < |names| ==>
          names[j] in COMMANDS && sandbox.outcomes[j].Ran?
          && report.results[j] == TestResult(COMMANDS[names[j]].command, sandbox.outcomes[j].exitCode,
                                             sandbox.outcomes[j].timedOut, sandbox.outcomes[j] == Ran(Some(0), false)))
    && (report.passed <==> names != [] && forall j :: 0 <= j < |names| ==> sandbox.outcomes[j] == Ran(Some(0), false))
  }

  predicate AllRan(outcomes: seq<SandboxOutcome>, n: nat) {
    n <= |outcomes| && forall i | 0 <= i < n :: outcomes[i].Ran?
  }

  predicate AllSucceed(outcomes: seq<SandboxOutcome>, n: nat) {
    n <= |outcomes| && forall i | 0 <= i < n :: Succeeds(outcomes[i])
  }

  // The policy and the images admit the required commands and the sandbox answers each of them.
  ghost predicate Answering(allowed: set<string>, images: set<string>, required: seq<string>, sandbox: Sandbox)
    requires allowed <= COMMANDS.Keys
  {
    required != [] && (forall n :: n in required ==> n in allowed && COMMANDS[n].image in images)
    && sandbox.diff.Some? && AllRan(sandbox.outcomes, |Dedup(required)|)
  }

  lemma SameNames(required: seq<string>)
    ensures forall n :: n in Dedup(required) <==> n in required
    ensures Dedup(required) == [] <==> required == []
  {
    var names := Dedup(required);
    assert forall n :: n in names <==> n in Elements(names);
    assert forall n :: n in required <==> n in Elements(required);
    if required != [] {
      assert required[0] in required;
    }
  }

  // ---- one report covers exactly the required commands ----

  lemma {:induction false} CommandCount(names: seq<string>)
    requires Distinct(names) && forall n :: n in names ==> n in COMMANDS
    ensures |ExpectedCommands(names)| == |names|
  {
    if names != [] {
      var front, last := names[..|names| - 1], names[|names| - 1];
      assert names == front + [last];
      CommandCount(front);
      assert ExpectedCommands(names) == ExpectedCommands(front) + {COMMANDS[last].command};
      if COMMANDS[last].command in ExpectedCommands(front) {
        var n :| n in front && n in COMMANDS && COMMANDS[n].command == COMMANDS[last].command;
        CommandsInjective(n, last);
      }
    }
  }

  lemma ReportRunsExactly(required: seq<string>, report: Report)
    requires forall n :: n in required ==> n in COMMANDS
    requires forall n :: n in Dedup(required) ==> n in COMMANDS
    requires |report.results| == |Dedup(required)|
    requires forall i :: 0 <= i < |report.results| ==> report.results[i].command == COMMANDS[Dedup(required)[i]].command
    ensures RunsExactly(report, ExpectedCommands(required))
  {
    var names := Dedup(required);
    CommandCount(names);
    SameNames(required);
    assert ExpectedCommands(names) == ExpectedCommands(required);
    var ran := set c | c in Commands(report);
    forall c | c in ran ensures c in ExpectedCommands(names) {
      var i :| 0 <= i < |report.results| && Commands(report)[i] == c;
      assert names[i] in names;
    }
    forall c | c in ExpectedCommands(names) ensures c in ran {
      var n :| n in names && n in COMMANDS && COMMANDS[n].command == c;
      var i :| 0 <= i < |names| && names[i] == n;
      assert Commands(report)[i] == c;
    }
    assert ran == ExpectedCommands(names);
  }

  class TestService {
    const records: TestRecords
    const allowed: set<string>
    const images: set<string>

    constructor (records: TestRecords, allowed: set<string>, images: set<string>)
      ensures this.records == records && this.allowed == allowed && this.images == images
    {
      this.records, this.allowed, this.images := records, allowed, images;
    }

    // The commands, one after the other, until the sandbox breaks.
    method Execute(profiles: seq<Profile>, outcomes: seq<SandboxOutcome>) returns (complete: bool, results: seq<TestResult>)
      ensures complete <==> AllRan(outcomes, |profiles|)
      ensures |results| <= |profiles| && |results| <= |outcomes| && (complete ==> |results| == |profiles|)
      ensures forall j :: 0 <= j < |results| ==> outcomes[j].Ran?
      ensures forall j :: 0 <= j < |results| ==> results[j] == ResultOf(profiles[j].command, outcomes[j])
    {
      results := [];
      var i := 0;
      while i < |profiles|
        invariant 0 <= i <= |profiles| && |results| == i <= |outcomes|
        invariant forall j :: 0 <= j < i ==> outcomes[j].Ran?
        invariant forall j :: 0 <= j < i ==> results[j] == ResultOf(profiles[j].command, outcomes[j])
      {
        if i >= |outcomes| || outcomes[i].Broken? {
          return false, results;
        }
        results := results + [ResultOf(profiles[i].command, outcomes[i])];
        i := i + 1;
      }
      complete := true;
    }

    ghost predicate Answers(required: seq<string>, sandbox: Sandbox)
      requires allowed <= COMMANDS.Keys
    {
      Answering(allowed, images, required, sandbox)
    }

    // The sandbox part of a run. Whatever happens, a report that counts as passed ran exactly the
    // required commands, all successfully, and carries the digest of the diff it ran on.
    method Measure(required: seq<string>, sandbox: Sandbox) returns (m: Measurement)
      requires allowed <= COMMANDS.Keys
      ensures Passed(m.report, m.error) ==> PassesAll(m.report, ExpectedCommands(required)) && m.diffHash.Some?
      ensures m.error.Some? ==> !m.report.passed && m.diffHash.None?
      ensures m.report.passed ==> m.report.results != []
      ensures m.error.None? ==> Told(required, sandbox, m.report) && m.diffHash == Some(Sha256(sandbox.diff.value))
      ensures m.error.None? && required != [] ==> Answers(required, sandbox)
      // an answering sandbox gives a result, which passes exactly when every command succeeds
      ensures Answers(required, sandbox) ==> m.error.None? && m.diffHash == Some(Sha256(sandbox.diff.value))
      ensures Answers(required, sandbox) ==> (m.report.passed <==> AllSucceed(sandbox.outcomes, |Dedup(required)|))
    {
      var agent := new TestAgent(allowed);
      var selection := agent.Select(required);
      var names := Dedup(required);
      SameNames(required);
      if selection.NotAllowed? {
        return Measurement(Report([], false), Some(TestPolicyFailed), None);
      }
      if exists p | p in selection.profiles :: p.image !in images {
        var i :| 0 <= i < |names| && COMMANDS[names[i]].image !in images;
        assert names[i] in required;
        return Measurement(Report([], false), Some(TestPolicyFailed), None);
      }
      var complete, results := Execute(selection.profiles, sandbox.outcomes);
      if !complete || sandbox.diff.None? {
        return Measurement(Report(results, false), Some(TestExecutionFailed), None);
      }
      m := Summarize(required, results, sandbox);
    }

    // Every command has run.
    method Summarize(required: seq<string>, results: seq<TestResult>, sandbox: Sandbox) returns (m: Measurement)
      requires sandbox.diff.Some? && forall n :: n in Dedup(required) ==> n in COMMANDS
      requires AllRan(sandbox.outcomes, |Dedup(required)|) && |results| == |Dedup(required)|
      requires forall j :: 0 <= j < |results| ==>
        results[j] == ResultOf(COMMANDS[Dedup(required)[j]].command, sandbox.outcomes[j])
      ensures m.error.None? && m.diffHash == Some(Sha256(sandbox.diff.value)) && Told(required, sandbox, m.report)
      ensures m.report.passed ==> PassesAll(m.report, ExpectedCommands(required)) && m.report.results != []
    {
      SameNames(required);
      var passed := results != [] && forall r | r in results :: r.passed;
      m := Measurement(Report(results, passed), None, Some(Sha256(sandbox.diff.value)));
      ReportRunsExactly(required, m.report);
      assert forall j :: 0 <= j < |results| ==> results[j] in results && (results[j].passed <==> Succeeds(sandbox.outcomes[j]));
    }
  }

  function ResultOf(command: seq<string>, o: SandboxOutcome): TestResult
    requires o.Ran?
  {
    TestResult(command, o.exitCode, o.timedOut, o.exitCode == Some(0) && !o.timedOut)
  }
}
