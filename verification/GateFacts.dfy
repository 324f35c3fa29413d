/** The verdict of the evidence gate in the fields of the records (app/orchestration/review_gate.py). */
module GateFacts {
  import opened Folding
  import opened Ordering
  import opened SchedulerState
  import opened Records
  import opened TestCommands
  import opened ReviewGate

  // Record t is the last test record of task k.
  ghost predicate LastTestRow(agents: seq<Agent>, k: Key, t: nat) {
    t < |agents| && agents[t].kind == Test && agents[t].task == Some(k)
    && forall j :: t < j < |agents| ==> !(agents[j].kind == Test && agents[j].task == Some(k))
  }

  ghost predicate PatchRow(a: Agent, k: Key) {
    (a.kind == Coding || a.kind == Debug) && a.task == Some(k) && a.status == AgentCompleted
  }

  // Record p is the last completed patch of task k.
  ghost predicate LastPatchRow(agents: seq<Agent>, k: Key, p: nat) {
    p < |agents| && PatchRow(agents[p], k) && forall j :: p < j < |agents| ==> !PatchRow(agents[j], k)
  }

  ghost predicate NoEvidence(agents: seq<Agent>, k: Key) {
    (forall i :: 0 <= i < |agents| ==> !(agents[i].kind == Test && agents[i].task == Some(k)))
    || forall i :: 0 <= i < |agents| ==> !PatchRow(agents[i], k)
  }

  // The test did not end well: the record is not completed or has an error, the report does not pass or
  // is empty, or one of its results has another exit code than 0, timed out or did not pass.
  ghost predicate Fails(check: Agent, report: Report) {
    check.status != AgentCompleted || check.output.error.Some? || !report.passed || report.results == []
    || exists i :: 0 <= i < |report.results| && BadResult(report.results[i])
  }

  ghost predicate BadResult(r: TestResult) {
    r.exitCode != Some(0) || r.timeout || !r.passed
  }

  // Each required command was run, nothing else was, and nothing twice.
  ghost predicate RanAll(report: Report, required: seq<string>) {
    (forall n :: n in required && n in COMMANDS ==> RanCommand(report, COMMANDS[n].command))
    && (forall i :: 0 <= i < |report.results| ==> Wanted(required, report.results[i].command))
    && forall i, j :: 0 <= i < j < |report.results| ==> report.results[i].command != report.results[j].command
  }

  ghost predicate Wanted(required: seq<string>, command: seq<string>) {
    exists n :: n in required && n in COMMANDS && COMMANDS[n].command == command
  }

  ghost predicate RanCommand(report: Report, command: seq<string>) {
    exists i :: 0 <= i < |report.results| && report.results[i].command == command
  }

  // The test was charged to the patch and started after it was complete.
  ghost predicate OnPatch(check: Agent, patch: Agent) {
    check.input.patch == Some(patch.id) && patch.completed.Some? && patch.completed.value <= check.started
  }

  // ---- the functions of the gate in these terms ----

  lemma LatestCheckRow(agents: seq<Agent>, k: Key, t: nat)
    requires LastTestRow(agents, k, t)
    ensures LatestCheck(agents, k) == Some(agents[t])
  {
    LatestCheckIs(agents, k, t);
  }

  lemma {:induction false} LatestAppliedRow(agents: seq<Agent>, k: Key, p: nat)
    requires LastPatchRow(agents, k, p)
    ensures LatestApplied(agents, k) == Some(agents[p])
  {
    if p < |agents| - 1 {
      LatestAppliedRow(agents[..|agents| - 1], k, p);
    }
  }

  lemma NoEvidenceRows(agents: seq<Agent>, k: Key)
    ensures NoEvidence(agents, k) <==> LatestCheck(agents, k).None? || LatestApplied(agents, k).None?
  {
    if LatestCheck(agents, k).None? {
      assert forall i :: 0 <= i < |agents| ==> agents[i] in agents;
    }
    if LatestApplied(agents, k).None? {
      forall i | 0 <= i < |agents| ensures !PatchRow(agents[i], k) {
        assert agents[i] in agents && !IsPatch(agents[i], k, true);
      }
    }
    if LatestCheck(agents, k).Some? && LatestApplied(agents, k).Some? {
      var i :| 0 <= i < |agents| && agents[i] == LatestCheck(agents, k).value;
      var j :| 0 <= j < |agents| && agents[j] == LatestApplied(agents, k).value;
      assert PatchRow(agents[j], k);
    }
  }

  lemma PassesRow(check: Agent, report: Report)
    ensures ReportPasses(check, report) <==> !Fails(check, report)
  {
    if !Fails(check, report) {
      forall r | r in report.results ensures r.exitCode == Some(0) && !r.timeout && r.passed {
        var i :| 0 <= i < |report.results| && report.results[i] == r;
        assert !BadResult(report.results[i]);
      }
    }
    forall i | 0 <= i < |report.results| ensures report.results[i] in report.results {
    }
  }

  lemma {:induction false} SetOfDistinct(s: seq<seq<string>>)
    ensures |set c | c in s| <= |s|
    ensures |set c | c in s| == |s| <==> Distinct(s)
  {
    if s != [] {
      var front, last := s[..|s| - 1], s[|s| - 1];
      SetOfDistinct(front);
      assert s == front + [last];
      assert (set c | c in s) == (set c | c in front) + {last};
      if last in front {
        assert (set c | c in s) == (set c | c in front);
        var i :| 0 <= i < |front| && front[i] == last;
        assert s[i] == s[|s| - 1];
      } else if Distinct(front) {
        forall i, j | 0 <= i < j < |s| ensures s[i] != s[j] {
          if j == |s| - 1 { assert s[i] == front[i] && front[i] in front; }
        }
      } else {
        var i, j :| 0 <= i < j < |front| && front[i] == front[j];
        assert s[i] == s[j];
      }
    }
  }

  lemma RunsExactlyRow(report: Report, required: seq<string>)
    ensures RunsExactly(report, ExpectedCommands(required)) <==> RanAll(report, required)
  {
    var ran, expected := Commands(report), ExpectedCommands(required);
    var all := set c | c in ran;
    SetOfDistinct(ran);
    assert |ran| == |report.results| && forall i :: 0 <= i < |ran| ==> ran[i] == report.results[i].command;
    if RanAll(report, required) {
      RanIsExpected(report, required);
    }
    if RunsExactly(report, expected) {
      ExpectedIsRan(report, required);
    }
  }

  lemma RanIsExpected(report: Report, required: seq<string>)
    requires RanAll(report, required)
    ensures (set c | c in Commands(report)) == ExpectedCommands(required) && Distinct(Commands(report))
  {
    forall c | c in Commands(report) ensures c in ExpectedCommands(required) {
      var i :| 0 <= i < |Commands(report)| && Commands(report)[i] == c;
      assert report.results[i].command == c;
    }
    forall c | c in ExpectedCommands(required) ensures c in Commands(report) {
      var n :| n in required && n in COMMANDS && COMMANDS[n].command == c;
      assert RanCommand(report, c);
      var i :| 0 <= i < |report.results| && report.results[i].command == c;
      assert Commands(report)[i] == c;
    }
  }

  lemma ExpectedIsRan(report: Report, required: seq<string>)
    requires (set c | c in Commands(report)) == ExpectedCommands(required) && Distinct(Commands(report))
    ensures RanAll(report, required)
  {
    var all := set c | c in Commands(report);
    forall n | n in required && n in COMMANDS ensures RanCommand(report, COMMANDS[n].command) {
      assert COMMANDS[n].command in all;
      var i :| 0 <= i < |Commands(report)| && Commands(report)[i] == COMMANDS[n].command;
      assert report.results[i].command == COMMANDS[n].command;
    }
    forall i | 0 <= i < |report.results| ensures Wanted(required, report.results[i].command) {
      assert Commands(report)[i] in all && Commands(report)[i] == report.results[i].command;
    }
    forall i, j | 0 <= i < j < |report.results| ensures report.results[i].command != report.results[j].command {
      assert Commands(report)[i] != Commands(report)[j];
    }
  }

  // ---- one task ----

  // Exactly which objections one task raises.
  ghost predicate ObjectionsFit(
    errors: seq<Objection>, k: Key, task: Task, agents: seq<Agent>, required: seq<string>) {
    (TaskIncomplete(k) in errors <==> task.status != Completed)
    && (MissingTestEvidence(k) in errors <==> NoEvidence(agents, k))
    && forall t: nat, p: nat :: LastTestRow(agents, k, t) && LastPatchRow(agents, k, p) ==>
         RowsFit(errors, k, agents[t], agents[p], required)
  }

  ghost predicate RowsFit(errors: seq<Objection>, k: Key, check: Agent, patch: Agent, required: seq<string>) {
    (InvalidTestReport(k) in errors <==> check.output.report.None?)
    && (check.output.report.Some? ==>
          (RequiredTestsFailedFor(k) in errors <==> Fails(check, check.output.report.value))
          && (RequiredTestsMissing(k) in errors <==> !RanAll(check.output.report.value, required))
          && (StaleTaskTests(k) in errors <==> !OnPatch(check, patch)))
  }

  // The task an objection is about.
  function About(o: Objection): Option<Key> {
    match o
    case TaskIncomplete(k) => Some(k)
    case MissingTestEvidence(k) => Some(k)
    case InvalidTestReport(k) => Some(k)
    case RequiredTestsFailedFor(k) => Some(k)
    case RequiredTestsMissing(k) => Some(k)
    case StaleTaskTests(k) => Some(k)
    case _ => None
  }

  // Task k raises o. Kept folded.
  ghost predicate RaisedBy(o: Objection, k: Key, task: Task, agents: seq<Agent>, expected: set<seq<string>>) {
    forall u {:trigger UnfoldGate(u)} :: UnfoldGate(u) ==> o in TaskObjections(k, task, agents, expected)
  }

  lemma RaisedMeans(o: Objection, k: Key, task: Task, agents: seq<Agent>, expected: set<seq<string>>)
    ensures RaisedBy(o, k, task, agents, expected) <==> o in TaskObjections(k, task, agents, expected)
    ensures RaisedBy(o, k, task, agents, expected) ==> About(o) == Some(k)
  {
    assert UnfoldGate(true);
  }

  // The same for what the task itself raises.
  ghost predicate RowsRaise(k: Key, task: Task, agents: seq<Agent>, check: Agent, patch: Agent, required: seq<string>) {
    var expected := ExpectedCommands(required);
    (RaisedBy(InvalidTestReport(k), k, task, agents, expected) <==> check.output.report.None?)
    && (check.output.report.Some? ==>
          (RaisedBy(RequiredTestsFailedFor(k), k, task, agents, expected) <==> Fails(check, check.output.report.value))
          && (RaisedBy(RequiredTestsMissing(k), k, task, agents, expected) <==> !RanAll(check.output.report.value, required))
          && (RaisedBy(StaleTaskTests(k), k, task, agents, expected) <==> !OnPatch(check, patch)))
  }

  lemma TaskRows(k: Key, task: Task, agents: seq<Agent>, check: Agent, patch: Agent, required: seq<string>)
    requires LatestCheck(agents, k) == Some(check) && LatestApplied(agents, k) == Some(patch)
    ensures RowsRaise(k, task, agents, check, patch, required)
  {
    assert UnfoldGate(true);
    if check.output.report.Some? {
      PassesRow(check, check.output.report.value);
      RunsExactlyRow(check.output.report.value, required);
    }
  }

  lemma TaskHeads(k: Key, task: Task, agents: seq<Agent>, expected: set<seq<string>>)
    ensures RaisedBy(TaskIncomplete(k), k, task, agents, expected) <==> task.status != Completed
    ensures RaisedBy(MissingTestEvidence(k), k, task, agents, expected) <==>
      LatestCheck(agents, k).None? || LatestApplied(agents, k).None?
  {
    assert UnfoldGate(true);
  }

  // For the fit of one task only its own objections matter.
  lemma SameFit(errors: seq<Objection>, k: Key, task: Task, agents: seq<Agent>, required: seq<string>)
    requires forall o :: About(o) == Some(k) ==>
      (o in errors <==> RaisedBy(o, k, task, agents, ExpectedCommands(required)))
    ensures ObjectionsFit(errors, k, task, agents, required)
  {
    NoEvidenceRows(agents, k);
    TaskHeads(k, task, agents, ExpectedCommands(required));
    assert About(TaskIncomplete(k)) == About(MissingTestEvidence(k)) == Some(k);
    forall t: nat, p: nat | LastTestRow(agents, k, t) && LastPatchRow(agents, k, p)
      ensures RowsFit(errors, k, agents[t], agents[p], required)
    {
      LatestCheckRow(agents, k, t);
      LatestAppliedRow(agents, k, p);
      TaskRows(k, task, agents, agents[t], agents[p], required);
      assert About(InvalidTestReport(k)) == About(RequiredTestsFailedFor(k)) == Some(k);
      assert About(RequiredTestsMissing(k)) == About(StaleTaskTests(k)) == Some(k);
    }
  }

  lemma {:induction false} ObjectionsOf(
    keys: seq<Key>, tasks: map<Key, Task>, agents: seq<Agent>, expected: set<seq<string>>, o: Objection)
    requires forall k :: k in keys ==> k in tasks
    ensures o in AllObjections(keys, tasks, agents, expected) <==>
      About(o).Some? && About(o).value in keys && RaisedBy(o, About(o).value, tasks[About(o).value], agents, expected)
  {
    if keys != [] {
      var front, last := keys[..|keys| - 1], keys[|keys| - 1];
      assert keys == front + [last];
      ObjectionsOf(front, tasks, agents, expected, o);
      RaisedMeans(o, last, tasks[last], agents, expected);
    }
  }

  // ---- the verdict ----

  ghost predicate PolicyUnknown(required: seq<string>) {
    required == [] || exists n :: n in required && n !in COMMANDS
  }

  // The gate's errors, one by one, in the fields of the records: the policy, the objections to each
  // task, and a running record.
  lemma ErrorsAre(keys: seq<Key>, tasks: map<Key, Task>, agents: seq<Agent>, required: seq<string>)
    requires forall k :: k in keys ==> k in tasks
    ensures var errors := Verdict(keys, tasks, agents, required).errors;
      (PolicyUnknown(required) <==> errors == [InvalidRequiredTestPolicy])
      && (!PolicyUnknown(required) ==>
            (forall k :: k in keys ==> ObjectionsFit(errors, k, tasks[k], agents, required))
            && (forall o :: o in errors && About(o).Some? ==> About(o).value in keys)
            && (ImplementationAgentRunning in errors <==> exists i :: 0 <= i < |agents| && agents[i].status == AgentRunning)
            && (MissingFingerprint in errors <==> Verdict(keys, tasks, agents, required).fingerprint.None?))
  {
    assert Approved(required) <==> !PolicyUnknown(required);
    if !PolicyUnknown(required) {
      ErrorsOfTasks(keys, tasks, agents, required);
      ErrorsOfRun(keys, tasks, agents, required);
    }
  }

  lemma ErrorsOfTasks(keys: seq<Key>, tasks: map<Key, Task>, agents: seq<Agent>, required: seq<string>)
    requires (forall k :: k in keys ==> k in tasks) && Approved(required)
    ensures var errors := Verdict(keys, tasks, agents, required).errors;
      (forall k :: k in keys ==> ObjectionsFit(errors, k, tasks[k], agents, required))
      && forall o :: o in errors && About(o).Some? ==> About(o).value in keys
  {
    var expected := ExpectedCommands(required);
    var errors := Verdict(keys, tasks, agents, required).errors;
    forall o | About(o).Some?
      ensures o in errors <==> About(o).value in keys && RaisedBy(o, About(o).value, tasks[About(o).value], agents, expected)
    {
      ObjectionsOf(keys, tasks, agents, expected, o);
    }
    forall k | k in keys ensures ObjectionsFit(errors, k, tasks[k], agents, required) {
      SameFit(errors, k, tasks[k], agents, required);
    }
  }

  lemma ErrorsOfRun(keys: seq<Key>, tasks: map<Key, Task>, agents: seq<Agent>, required: seq<string>)
    requires (forall k :: k in keys ==> k in tasks) && Approved(required)
    ensures var v := Verdict(keys, tasks, agents, required);
      (ImplementationAgentRunning in v.errors <==> exists i :: 0 <= i < |agents| && agents[i].status == AgentRunning)
      && (MissingFingerprint in v.errors <==> v.fingerprint.None?)
      && InvalidRequiredTestPolicy !in v.errors
  {
    var expected := ExpectedCommands(required);
    JudgedHas(keys, tasks, agents, expected, ImplementationAgentRunning);
    JudgedHas(keys, tasks, agents, expected, MissingFingerprint);
    JudgedHas(keys, tasks, agents, expected, InvalidRequiredTestPolicy);
    RunningRow(agents);
  }

  // An objection that is about no task.
  lemma JudgedHas(keys: seq<Key>, tasks: map<Key, Task>, agents: seq<Agent>, expected: set<seq<string>>, o: Objection)
    requires (forall k :: k in keys ==> k in tasks) && About(o).None?
    ensures var v := Judged(keys, tasks, agents, expected);
      o in v.errors <==>
        (o == MissingFingerprint && v.fingerprint.None?) || (o == ImplementationAgentRunning && AnyRunning(agents))
  {
    ObjectionsOf(keys, tasks, agents, expected, o);
    Appended(AllObjections(keys, tasks, agents, expected), Judged(keys, tasks, agents, expected).fingerprint.None?,
             AnyRunning(agents), o);
  }

  lemma Appended(base: seq<Objection>, missing: bool, running: bool, o: Objection)
    ensures o in base + (if missing then [MissingFingerprint] else []) + (if running then [ImplementationAgentRunning] else []) <==>
      o in base || (o == MissingFingerprint && missing) || (o == ImplementationAgentRunning && running)
  {
  }

  lemma RunningRow(agents: seq<Agent>)
    ensures AnyRunning(agents) <==> exists i :: 0 <= i < |agents| && agents[i].status == AgentRunning
  {
    forall i | 0 <= i < |agents| ensures agents[i] in agents {
    }
  }

  // What a verdict without errors has seen, for every task: its last test record is completed without
  // error, it was charged to the last completed patch and started after it, and it has, for each
  // required name, a result of that command with exit code 0, no timeout and passed.
  lemma AcceptedRows(
    keys: seq<Key>, tasks: map<Key, Task>, agents: seq<Agent>, required: seq<string>, k: Key)
    requires (forall j :: j in keys ==> j in tasks) && k in keys && Verdict(keys, tasks, agents, required).errors == []
    ensures tasks[k].status == Completed
    ensures PassedRows(agents, k, required)
  {
    ErrorsAre(keys, tasks, agents, required);
    NoEvidenceRows(agents, k);
    var t := LastTestOf(agents, k);
    var p := LastPatchOf(agents, k);
    assert RowsFit([], k, agents[t], agents[p], required);
    var report := agents[t].output.report.value;
    forall n | n in required ensures n in COMMANDS && GoodRun(report, COMMANDS[n].command) {
      assert RanCommand(report, COMMANDS[n].command);
    }
  }

  ghost predicate PassedRows(agents: seq<Agent>, k: Key, required: seq<string>) {
    exists t: nat, p: nat :: LastTestRow(agents, k, t) && LastPatchRow(agents, k, p) && GoodRows(agents[t], agents[p], required)
  }

  ghost predicate GoodRows(check: Agent, patch: Agent, required: seq<string>) {
    check.status == AgentCompleted && check.output.error.None? && check.input.patch == Some(patch.id)
    && patch.completed.Some? && patch.completed.value <= check.started && check.output.report.Some?
    && forall n :: n in required ==> n in COMMANDS && GoodRun(check.output.report.value, COMMANDS[n].command)
  }

  ghost predicate GoodRun(report: Report, command: seq<string>) {
    exists i :: 0 <= i < |report.results| && report.results[i].command == command && report.results[i].exitCode == Some(0)
      && !report.results[i].timeout && report.results[i].passed
  }

  lemma {:induction false} LastTestOf(agents: seq<Agent>, k: Key) returns (t: nat)
    requires LatestCheck(agents, k).Some?
    ensures LastTestRow(agents, k, t)
  {
    if IsCheck(agents[|agents| - 1], k) {
      t := |agents| - 1;
    } else {
      t := LastTestOf(agents[..|agents| - 1], k);
    }
  }

  lemma {:induction false} LastPatchOf(agents: seq<Agent>, k: Key) returns (p: nat)
    requires LatestApplied(agents, k).Some?
    ensures LastPatchRow(agents, k, p)
  {
    if PatchRow(agents[|agents| - 1], k) {
      p := |agents| - 1;
    } else {
      p := LastPatchOf(agents[..|agents| - 1], k);
    }
  }
}
