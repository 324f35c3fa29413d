/** The mechanical check of test evidence (app/orchestration/review_gate.py). */
module ReviewGate {
  import opened Ordering
  import opened SchedulerState
  import opened Records
  import opened TestCommands

  predicate IsCheck(a: Agent, k: Key) {
    a.kind == Test && a.task == Some(k)
  }

  // The last test record of a task, whatever became of it.
  function LatestCheck(agents: seq<Agent>, k: Key): (r: Option<Agent>)
    ensures r.Some? ==> r.value in agents && IsCheck(r.value, k)
    ensures r.None? <==> forall a :: a in agents ==> !IsCheck(a, k)
  {
    if agents == [] then None
    else if IsCheck(agents[|agents| - 1], k) then Some(agents[|agents| - 1])
    else LatestCheck(agents[..|agents| - 1], k)
  }

  // The last completed patch of a task.
  function LatestApplied(agents: seq<Agent>, k: Key): (r: Option<Agent>)
    ensures r.Some? ==> r.value in agents && IsPatch(r.value, k, true)
    ensures r.None? <==> forall a :: a in agents ==> !IsPatch(a, k, true)
  {
    if agents == [] then None
    else if IsPatch(agents[|agents| - 1], k, true) then Some(agents[|agents| - 1])
    else LatestApplied(agents[..|agents| - 1], k)
  }

  predicate ReportPasses(check: Agent, report: Report) {
    check.status == AgentCompleted && check.output.error.None? && report.passed && report.results != []
    && forall r | r in report.results :: r.exitCode == Some(0) && !r.timeout && r.passed
  }

  function Commands(report: Report): seq<seq<string>> {
    seq(|report.results|, i requires 0 <= i < |report.results| => report.results[i].command)
  }

  predicate RunsExactly(report: Report, expected: set<seq<string>>) {
    (set c | c in Commands(report)) == expected && |report.results| == |expected|
  }

  predicate TestsThisPatch(check: Agent, patch: Agent) {
    check.input.patch == Some(patch.id) && patch.completed.Some? && check.started >= patch.completed.value
  }

  // What one task adds to the objections.
  function TaskObjections(k: Key, task: Task, agents: seq<Agent>, expected: set<seq<string>>): seq<Objection> {
    var check, patch := LatestCheck(agents, k), LatestApplied(agents, k);
    (if task.status != Completed then [TaskIncomplete(k)] else [])
    + (if check.None? || patch.None? then [MissingTestEvidence(k)]
       else if check.value.output.report.None? then [InvalidTestReport(k)]
       else
         var report := check.value.output.report.value;
         (if ReportPasses(check.value, report) then [] else [RequiredTestsFailedFor(k)])
         + (if RunsExactly(report, expected) then [] else [RequiredTestsMissing(k)])
         + (if TestsThisPatch(check.value, patch.value) then [] else [StaleTaskTests(k)]))
  }

  // What one task adds to the evidence.
  function TaskEvidence(k: Key, agents: seq<Agent>): seq<TestEvidence> {
    var check, patch := LatestCheck(agents, k), LatestApplied(agents, k);
    if check.None? || patch.None? || check.value.output.report.None? then []
    else [TestEvidence(k, check.value.id, check.value.output.report.value)]
  }

  function TaskChecks(k: Key, agents: seq<Agent>): seq<Agent> {
    var check, patch := LatestCheck(agents, k), LatestApplied(agents, k);
    if check.None? || patch.None? then [] else [check.value]
  }

  function AllObjections(keys: seq<Key>, tasks: map<Key, Task>, agents: seq<Agent>, expected: set<seq<string>>): seq<Objection>
    requires forall k :: k in keys ==> k in tasks
  {
    if keys == [] then []
    else
      var k := keys[|keys| - 1];
      AllObjections(keys[..|keys| - 1], tasks, agents, expected) + TaskObjections(k, tasks[k], agents, expected)
  }

  function AllEvidence(keys: seq<Key>, agents: seq<Agent>): seq<TestEvidence> {
    if keys == [] then [] else AllEvidence(keys[..|keys| - 1], agents) + TaskEvidence(keys[|keys| - 1], agents)
  }

  function AllChecks(keys: seq<Key>, agents: seq<Agent>): seq<Agent> {
    if keys == [] then [] else AllChecks(keys[..|keys| - 1], agents) + TaskChecks(keys[|keys| - 1], agents)
  }

  // The last record of the history that is some task's latest test.
  function LatestOf(agents: seq<Agent>, checks: seq<Agent>): (r: Option<Agent>)
    ensures r.Some? ==> r.value in agents && r.value in checks
  {
    if agents == [] then None
    else if agents[|agents| - 1] in checks then Some(agents[|agents| - 1])
    else LatestOf(agents[..|agents| - 1], checks)
  }

  function ExpectedCommands(required: seq<string>): set<seq<string>> {
    set n | n in required && n in COMMANDS :: COMMANDS[n].command
  }

  datatype GateResult = GateResult(evidence: seq<TestEvidence>, errors: seq<Objection>, fingerprint: Option<Digest>)

  // The verdict once the required commands are known.
  function Judged(keys: seq<Key>, tasks: map<Key, Task>, agents: seq<Agent>, expected: set<seq<string>>): GateResult
    requires forall k :: k in keys ==> k in tasks
  {
    var latest := LatestOf(agents, AllChecks(keys, agents));
    var fingerprint := if latest.Some? then latest.value.output.diffHash else None;
    GateResult(
      AllEvidence(keys, agents),
      AllObjections(keys, tasks, agents, expected)
      + (if fingerprint.None? then [MissingFingerprint] else [])
      + (if AnyRunning(agents) then [ImplementationAgentRunning] else []),
      fingerprint)
  }

  // The verdict on tasks `keys` and implementation records `agents`, oldest first.
  function Verdict(keys: seq<Key>, tasks: map<Key, Task>, agents: seq<Agent>, required: seq<string>): GateResult
    requires forall k :: k in keys ==> k in tasks
  {
    if !Approved(required) then GateResult([], [InvalidRequiredTestPolicy], None)
    else Judged(keys, tasks, agents, ExpectedCommands(required))
  }

  // One pass of the loop over the tasks.
  method CheckTask(key: Key, task: Task, agents: seq<Agent>, expected: set<seq<string>>)
    returns (errors: seq<Objection>, evidence: seq<TestEvidence>, checks: seq<Agent>)
    ensures errors == TaskObjections(key, task, agents, expected)
    ensures evidence == TaskEvidence(key, agents)
    ensures checks == TaskChecks(key, agents)
  {
    errors, evidence, checks := [], [], [];
    if task.status != Completed {
      errors := errors + [TaskIncomplete(key)];
    }
    var check, patch := LatestCheck(agents, key), LatestApplied(agents, key);
    if check.None? || patch.None? {
      errors := errors + [MissingTestEvidence(key)];
      return;
    }
    checks := [check.value];
    if check.value.output.report.None? {
      errors := errors + [InvalidTestReport(key)];
      return;
    }
    var report := check.value.output.report.value;
    evidence := [TestEvidence(key, check.value.id, report)];
    if !ReportPasses(check.value, report) {
      errors := errors + [RequiredTestsFailedFor(key)];
    }
    if !RunsExactly(report, expected) {
      errors := errors + [RequiredTestsMissing(key)];
    }
    if !TestsThisPatch(check.value, patch.value) {
      errors := errors + [StaleTaskTests(key)];
    }
  }

  // The loop over the tasks.
  method CheckTasks(keys: seq<Key>, tasks: map<Key, Task>, agents: seq<Agent>, expected: set<seq<string>>)
    returns (errors: seq<Objection>, evidence: seq<TestEvidence>, latestTests: seq<Agent>)
    requires forall k :: k in keys ==> k in tasks
    ensures evidence == AllEvidence(keys, agents)
    ensures errors == AllObjections(keys, tasks, agents, expected)
    ensures latestTests == AllChecks(keys, agents)
  {
    errors, evidence, latestTests := [], [], [];
    var i := 0;
    while i < |keys|
      invariant 0 <= i <= |keys|
      invariant evidence == AllEvidence(keys[..i], agents)
      invariant errors == AllObjections(keys[..i], tasks, agents, expected)
      invariant latestTests == AllChecks(keys[..i], agents)
    {
      assert keys[..i + 1][..i] == keys[..i];
      var e, v, c := CheckTask(keys[i], tasks[keys[i]], agents, expected);
      errors, evidence, latestTests := errors + e, evidence + v, latestTests + c;
      i := i + 1;
    }
    assert keys[..i] == keys;
  }

  // The loop over the history.
  method FindLatest(agents: seq<Agent>, latestTests: seq<Agent>) returns (latest: Option<Agent>)
    ensures latest == LatestOf(agents, latestTests)
  {
    latest := None;
    var j := 0;
    while j < |agents|
      invariant 0 <= j <= |agents|
      invariant latest == LatestOf(agents[..j], latestTests)
    {
      assert agents[..j + 1][..j] == agents[..j];
      if agents[j] in latestTests {
        latest := Some(agents[j]);
      }
      j := j + 1;
    }
    assert agents[..j] == agents;
  }

  method Judge(keys: seq<Key>, tasks: map<Key, Task>, agents: seq<Agent>, expected: set<seq<string>>)
    returns (r: GateResult)
    requires forall k :: k in keys ==> k in tasks
    ensures r == Judged(keys, tasks, agents, expected)
  {
    var errors, evidence, latestTests := CheckTasks(keys, tasks, agents, expected);
    var latest := FindLatest(agents, latestTests);
    var fingerprint := if latest.Some? then latest.value.output.diffHash else None;
    if fingerprint.None? {
      errors := errors + [MissingFingerprint];
    }
    if AnyRunning(agents) {
      errors := errors + [ImplementationAgentRunning];
    }
    r := GateResult(evidence, errors, fingerprint);
  }

  // `test_evidence`.
  method TestEvidenceFor(keys: seq<Key>, tasks: map<Key, Task>, agents: seq<Agent>, required: seq<string>)
    returns (r: GateResult)
    requires forall k :: k in keys ==> k in tasks
    ensures r == Verdict(keys, tasks, agents, required)
  {
    if !Approved(required) {
      return GateResult([], [InvalidRequiredTestPolicy], None);
    }
    r := Judge(keys, tasks, agents, ExpectedCommands(required));
  }

  // ---- what an empty list of errors means ----

  // The evidence the gate wants for one task: its latest test is a completed run of exactly the
  // expected commands, all passing, on its latest applied patch and started after it was applied.
  ghost predicate TaskProved(k: Key, task: Task, agents: seq<Agent>, expected: set<seq<string>>) {
    task.status == Completed
    && LatestCheck(agents, k).Some? && LatestApplied(agents, k).Some?
    && LatestCheck(agents, k).value.output.report.Some?
    && ReportPasses(LatestCheck(agents, k).value, LatestCheck(agents, k).value.output.report.value)
    && RunsExactly(LatestCheck(agents, k).value.output.report.value, expected)
    && TestsThisPatch(LatestCheck(agents, k).value, LatestApplied(agents, k).value)
  }

  lemma TaskProvedIff(k: Key, task: Task, agents: seq<Agent>, expected: set<seq<string>>)
    ensures TaskObjections(k, task, agents, expected) == [] <==> TaskProved(k, task, agents, expected)
    ensures TaskProved(k, task, agents, expected) ==> TaskChecks(k, agents) == [LatestCheck(agents, k).value]
    ensures TaskProved(k, task, agents, expected) ==> TaskEvidence(k, agents) == [EvidenceOf(k, agents)]
  {
  }

  function EvidenceOf(k: Key, agents: seq<Agent>): TestEvidence
    requires LatestCheck(agents, k).Some? && LatestCheck(agents, k).value.output.report.Some?
  {
    var check := LatestCheck(agents, k).value;
    TestEvidence(k, check.id, check.output.report.value)
  }

  ghost predicate AllProved(keys: seq<Key>, tasks: map<Key, Task>, agents: seq<Agent>, expected: set<seq<string>>) {
    forall i :: 0 <= i < |keys| ==> keys[i] in tasks && TaskProved(keys[i], tasks[keys[i]], agents, expected)
  }

  lemma {:induction false} NoObjectionIffProved(
    keys: seq<Key>, tasks: map<Key, Task>, agents: seq<Agent>, expected: set<seq<string>>)
    requires forall k :: k in keys ==> k in tasks
    ensures AllObjections(keys, tasks, agents, expected) == [] <==> AllProved(keys, tasks, agents, expected)
  {
    if keys != [] {
      var front, k := keys[..|keys| - 1], keys[|keys| - 1];
      NoObjectionIffProved(front, tasks, agents, expected);
      TaskProvedIff(k, tasks[k], agents, expected);
      assert keys == front + [k];
    }
  }

  lemma {:induction false} ProvedHasEvidence(
    keys: seq<Key>, tasks: map<Key, Task>, agents: seq<Agent>, expected: set<seq<string>>)
    requires AllProved(keys, tasks, agents, expected)
    ensures |AllEvidence(keys, agents)| == |keys| == |AllChecks(keys, agents)|
    ensures forall i :: 0 <= i < |keys| ==> AllEvidence(keys, agents)[i] == EvidenceOf(keys[i], agents)
    ensures forall i :: 0 <= i < |keys| ==> Some(AllChecks(keys, agents)[i]) == LatestCheck(agents, keys[i])
  {
    if keys != [] {
      var front, k := keys[..|keys| - 1], keys[|keys| - 1];
      assert keys == front + [k];
      ProvedHasEvidence(front, tasks, agents, expected);
      TaskProvedIff(k, tasks[k], agents, expected);
    }
  }

  // The last test record of any listed task.
  ghost predicate IsLastTest(agents: seq<Agent>, keys: seq<Key>, i: nat) {
    i < |agents| && (exists k :: k in keys && IsCheck(agents[i], k))
    && forall j, k :: i < j < |agents| && k in keys ==> !IsCheck(agents[j], k)
  }

  lemma {:induction false} LatestCheckIs(agents: seq<Agent>, k: Key, i: nat)
    requires i < |agents| && IsCheck(agents[i], k) && forall j :: i < j < |agents| ==> !IsCheck(agents[j], k)
    ensures LatestCheck(agents, k) == Some(agents[i])
  {
    if i < |agents| - 1 {
      LatestCheckIs(agents[..|agents| - 1], k, i);
    }
  }

  lemma {:induction false} LatestOfIs(agents: seq<Agent>, checks: seq<Agent>, i: nat)
    requires i < |agents| && agents[i] in checks && forall j :: i < j < |agents| ==> agents[j] !in checks
    ensures LatestOf(agents, checks) == Some(agents[i])
  {
    if i < |agents| - 1 {
      LatestOfIs(agents[..|agents| - 1], checks, i);
    }
  }

  lemma {:induction false} ChecksAreChecks(keys: seq<Key>, agents: seq<Agent>)
    ensures forall a :: a in AllChecks(keys, agents) ==> exists k :: k in keys && LatestCheck(agents, k) == Some(a)
  {
    if keys != [] {
      var front, k := keys[..|keys| - 1], keys[|keys| - 1];
      ChecksAreChecks(front, agents);
      assert keys == front + [k] && k in keys;
      forall a | a in AllChecks(keys, agents) ensures exists k' :: k' in keys && LatestCheck(agents, k') == Some(a) {
        if a in AllChecks(front, agents) {
          var k' :| k' in front && LatestCheck(agents, k') == Some(a);
          assert k' in keys;
        } else {
          assert LatestCheck(agents, k) == Some(a);
        }
      }
    }
  }

  lemma FingerprintOfLast(keys: seq<Key>, agents: seq<Agent>, i: nat)
    requires IsLastTest(agents, keys, i)
    requires |AllChecks(keys, agents)| == |keys|
    requires forall m :: 0 <= m < |keys| ==> Some(AllChecks(keys, agents)[m]) == LatestCheck(agents, keys[m])
    ensures LatestOf(agents, AllChecks(keys, agents)) == Some(agents[i])
  {
    var checks := AllChecks(keys, agents);
    var k :| k in keys && IsCheck(agents[i], k);
    LatestCheckIs(agents, k, i);
    var m :| 0 <= m < |keys| && keys[m] == k;
    assert checks[m] == agents[i];
    ChecksAreChecks(keys, agents);
    LatestOfIs(agents, checks, i);
  }

  lemma JudgedClean(keys: seq<Key>, tasks: map<Key, Task>, agents: seq<Agent>, expected: set<seq<string>>, i: nat)
    requires (forall k :: k in keys ==> k in tasks) && IsLastTest(agents, keys, i)
    ensures Judged(keys, tasks, agents, expected).errors == [] <==>
      AllProved(keys, tasks, agents, expected) && !AnyRunning(agents) && agents[i].output.diffHash.Some?
    ensures AllProved(keys, tasks, agents, expected) ==>
      Judged(keys, tasks, agents, expected).fingerprint == agents[i].output.diffHash
  {
    NoObjectionIffProved(keys, tasks, agents, expected);
    if AllProved(keys, tasks, agents, expected) {
      ProvedHasEvidence(keys, tasks, agents, expected);
      FingerprintOfLast(keys, agents, i);
    }
  }

  // The gate accepts exactly when the policy is known and every task is proved, no implementation
  // record is running and the chronologically last test left a fingerprint; the fingerprint it
  // reports is that one, however the tasks are listed.
  lemma AcceptedMeans(keys: seq<Key>, tasks: map<Key, Task>, agents: seq<Agent>, required: seq<string>, i: nat)
    requires (forall k :: k in keys ==> k in tasks) && IsLastTest(agents, keys, i)
    ensures Verdict(keys, tasks, agents, required).errors == [] <==>
      Approved(required) && AllProved(keys, tasks, agents, ExpectedCommands(required))
      && !AnyRunning(agents) && agents[i].output.diffHash.Some?
    ensures Verdict(keys, tasks, agents, required).errors == [] ==>
      Verdict(keys, tasks, agents, required).fingerprint == agents[i].output.diffHash
      && |Verdict(keys, tasks, agents, required).evidence| == |keys|
  {
    var expected := ExpectedCommands(required);
    JudgedClean(keys, tasks, agents, expected, i);
    if AllProved(keys, tasks, agents, expected) {
      ProvedHasEvidence(keys, tasks, agents, expected);
    }
  }
}
