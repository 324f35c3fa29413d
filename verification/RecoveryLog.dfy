/** What a recovery can count on finding in its rows: fingerprints already tried and reports already stored. */
module RecoveryLog {
  import opened Ordering
  import opened PlanDependencies
  import opened SchedulerState
  import opened Records
  import opened Transitions
  import opened Executions
  import opened CodingRecords
  import opened TestRecords
  import opened RecoveryRecords
  import opened Protocol
  import opened RunInvariant
  import opened AgentRows
  import opened TaskPhases
  import opened RecoveryOwnership
  import opened RecoverySteps
  import opened RecoveryProgress

  // ---- fingerprints ----

  // The fingerprints by which one record makes a later patch a repetition.
  function Prints(a: Agent, k: Key, r: nat): set<Digest> {
    (if IsAttempt(a, r) && a.output.patchHash.Some? then {a.output.patchHash.value} else {})
    + if a.kind == Coding && a.task == Some(k) && a.output.proposal.Some? then {Sha256(a.output.proposal.value)} else {}
  }

  function Known(agents: seq<Agent>, k: Key, r: nat): set<Digest> {
    if agents == [] then {} else Known(agents[..|agents| - 1], k, r) + Prints(agents[|agents| - 1], k, r)
  }

  lemma {:induction false} KnownHas(agents: seq<Agent>, k: Key, r: nat, f: Digest)
    ensures f in Known(agents, k, r) <==> exists i :: 0 <= i < |agents| && f in Prints(agents[i], k, r)
  {
    if agents != [] {
      KnownHas(agents[..|agents| - 1], k, r, f);
    }
  }

  lemma RepeatedIsKnown(agents: seq<Agent>, k: Key, r: nat, f: Digest)
    ensures Repeated(agents, r, k, f) <==> f in Known(agents, k, r)
  {
    KnownHas(agents, k, r, f);
    if f in Known(agents, k, r) {
      var i :| 0 <= i < |agents| && f in Prints(agents[i], k, r);
      assert agents[i] in agents;
    }
  }

  lemma KnownAppend(agents: seq<Agent>, a: Agent, k: Key, r: nat)
    ensures Known(agents + [a], k, r) == Known(agents, k, r) + Prints(a, k, r)
  {
    assert (agents + [a])[..|agents|] == agents;
  }

  lemma {:induction false} KnownChange(agents: seq<Agent>, id: nat, a: Agent, k: Key, r: nat)
    requires id < |agents| && Prints(agents[id], k, r) <= Prints(a, k, r)
    ensures Known(agents[id := a], k, r) == Known(agents, k, r) + Prints(a, k, r)
  {
    var after, n := agents[id := a], |agents| - 1;
    if id < n {
      assert after[..n] == agents[..n][id := a];
      KnownChange(agents[..n], id, a, k, r);
    } else {
      assert after[..n] == agents[..n];
    }
  }

  // Records of task k are all that matters.
  lemma KnownSame(a: seq<Agent>, c: seq<Agent>, k: Key, r: nat)
    requires SameTaskRows(a, c, k) && AttemptsOwned(a) && AttemptsOwned(c) && r < |a| && a[r].task == Some(k)
    ensures Known(c, k, r) == Known(a, k, r)
  {
    SameAttemptRows(a, c, k, r);
    assert forall i :: 0 <= i < |a| && IsAttempt(a[i], r) ==> OwnedAttempt(a, i);
    forall f ensures f in Known(c, k, r) <==> f in Known(a, k, r) {
      KnownHas(a, k, r, f);
      KnownHas(c, k, r, f);
      forall i | 0 <= i < |c| && f in Prints(c[i], k, r) ensures f in Known(a, k, r) {
        assert i < |a| && c[i] == a[i];
      }
      forall i | 0 <= i < |a| && f in Prints(a[i], k, r) ensures f in Known(c, k, r) {
        assert a[i].task == Some(k) && c[i] == a[i];
      }
    }
  }

  // ---- stored reports ----

  // The report is in the rows, with its verdict and the digest of the diff it was measured on.
  ghost predicate Filed(agents: seq<Agent>, k: Key, e: Filing) {
    e.row < |agents| && agents[e.row].task == Some(k)
    && agents[e.row].status == (if e.report.passed then AgentCompleted else AgentFailed)
    && agents[e.row].output == NO_OUTPUT.(report := Some(e.report), diffHash := Some(e.diffHash))
  }

  ghost predicate AllFiled(agents: seq<Agent>, k: Key, tests: seq<Filing>) {
    forall i :: 0 <= i < |tests| ==> Filed(agents, k, tests[i])
  }

  // Closed records of a task are final.
  lemma FiledKept(s: Execution, after: seq<Agent>, k: Key, tests: seq<Filing>)
    requires RowsInv(s) && RowsKept(s.agents, after) && AllFiled(s.agents, k, tests)
    ensures AllFiled(after, k, tests)
  {
    forall i | 0 <= i < |tests| ensures Filed(after, k, tests[i]) {
      assert RowFits(s, tests[i].row) && Evolves(s.agents[tests[i].row], after[tests[i].row]);
    }
  }

  lemma FiledNext(s: Execution, step: Step, k: Key, tests: seq<Filing>)
    requires RunInv(s) && RowsInv(s) && AllFiled(s.agents, k, tests)
    ensures AllFiled(Next(s, step).agents, k, tests)
  {
    NextRows(s, step);
    FiledKept(s, Next(s, step).agents, k, tests);
  }

  // The accepted end of a test run files its report.
  lemma TestEndFiles(s: Execution, k: Key, t: nat, report: Report, diffHash: Digest, owner: Option<nat>)
    requires RunInv(s) && RowsInv(s) && TestFinished(s, k, t, report, None, owner, Some(diffHash)).Done?
    requires report.passed ==> report.results != []
    ensures Filed(TestFinished(s, k, t, report, None, owner, Some(diffHash)).state.agents, k, Filing(t, report, diffHash))
  {
    var u := EndAgent(s, t, if report.passed then AgentCompleted else AgentFailed,
                      NO_OUTPUT.(report := Some(report), diffHash := Some(diffHash)));
    if ActiveRecovery(s.agents, k).Some? {
      MoveFrame(u, k, SchedulerState.Running, if report.passed then RecoveryTestsPassed else RecoveryPending);
    } else {
      MoveFrame(u, k, if report.passed then Completed else Failed,
                if report.passed then RequiredTestsPassed else RequiredTestsFailed);
    }
  }

  // ---- both, as long as nobody disturbs the task ----

  ghost predicate Tracked(s: Execution, k: Key, r: nat, b: Budget) {
    b.known == Known(s.agents, k, r)
    && forall i :: 0 <= i < |b.tests| ==> b.tests[i].row < |s.agents| && s.agents[b.tests[i].row].kind == Test
  }

  lemma TrackedKept(s: Execution, k: Key, r: nat, b: Budget, p: Progress, step: Step)
    requires Steady(s, k, r, b, p) && Tracked(s, k, r, b) && !Disturbs(s, k, r, step)
    ensures Tracked(Next(s, step), k, r, b)
  {
    var t := Next(s, step);
    UndisturbedKeeps(s, k, r, b, step);
    KnownSame(s.agents, t.agents, k, r);
    NextRows(s, step);
    forall i | 0 <= i < |b.tests| ensures t.agents[b.tests[i].row].kind == Test {
      assert Evolves(s.agents[b.tests[i].row], t.agents[b.tests[i].row]);
    }
  }

  lemma TrackedAppend(s: Execution, t: Execution, k: Key, r: nat, b: Budget)
    requires Tracked(s, k, r, b) && |t.agents| == |s.agents| + 1 && t.agents == s.agents + [t.agents[|s.agents|]]
    requires Prints(t.agents[|s.agents|], k, r) == {}
    ensures Tracked(t, k, r, b)
  {
    KnownAppend(s.agents, t.agents[|s.agents|], k, r);
  }

  lemma TrackedChange(s: Execution, t: Execution, k: Key, r: nat, b: Budget, id: nat)
    requires Tracked(s, k, r, b) && id < |s.agents| == |t.agents| && t.agents == s.agents[id := t.agents[id]]
    requires t.agents[id].kind == s.agents[id].kind && Prints(s.agents[id], k, r) <= Prints(t.agents[id], k, r)
    ensures Tracked(t, k, r, b.(known := b.known + Prints(t.agents[id], k, r)))
  {
    KnownChange(s.agents, id, t.agents[id], k, r);
  }
}
