/** When a stage is handed out, how its end is settled and when a lease is over, by status and time alone. */
module WorkflowOutcomes {
  import opened Ordering
  import opened SchedulerState
  import opened Records
  import opened Executions
  import opened Protocol
  import opened RunInvariant
  import opened Fencing
  import opened Workflow
  import opened WorkflowRuns
  import opened WorkflowLaws

  // Claim `holder` is out.
  predicate Out(l: Ledger, holder: nat) {
    holder < |l.issued| && l.row.status == WRunning && l.row.token == Some(l.issued[holder].claim.token)
  }

  // ---- claims ----

  // A claim is handed out exactly for a pending row that is due and is what the delivery expects.
  lemma ClaimedExactly(limit: nat, s: System, stage: Option<Stage>, generation: Option<nat>, now: nat)
    ensures var r, t := s.ledger.row, Fire(limit, s, Claiming(stage, generation, now));
      if r.status == WPending && (stage.None? || stage.value == r.stage) && (generation.None? || generation.value == r.generation)
         && (r.retryAt.None? || r.retryAt.value <= now)
      then
        |t.ledger.issued| == |s.ledger.issued| + 1 && t.ledger.issued[..|s.ledger.issued|] == s.ledger.issued
        && t.ledger.issued[|s.ledger.issued|].claim.stage == r.stage
        && t.ledger.issued[|s.ledger.issued|].claim.generation == r.generation
        && t.ledger.row.status == WRunning && t.run == s.run
      else t == s
  {
  }

  // A job that was delivered before, and led to a claim, leads to nothing when it is delivered again.
  lemma DuplicateDelivery(
    limit: nat, publish: bool, s: System, i: nat, stage: Option<Stage>, now: nat)
    requires Reachable(limit, publish, s) && i < |s.ledger.issued|
    ensures Fire(limit, s, Claiming(stage, Some(s.ledger.issued[i].claim.generation), now)) == s
  {
    ReachableClaims(limit, publish, s);
  }

  // ---- what a failure leads to ----

  // Neither blocked nor cancelled workflows move again.
  lemma {:induction false} StuckForGood(limit: nat, s: System, later: seq<Event>)
    requires s.ledger.row.status in {WBlocked, WCancelled}
    ensures var t := FiredFrom(limit, s, later);
      t.ledger.row.status in {WBlocked, WCancelled} && t.ledger.issued == s.ledger.issued
  {
    if later != [] {
      StuckForGood(limit, s, later[..|later| - 1]);
      StuckNext(limit, FiredFrom(limit, s, later[..|later| - 1]), later[|later| - 1]);
    }
  }

  lemma StuckNext(limit: nat, s: System, e: Event)
    requires s.ledger.row.status in {WBlocked, WCancelled}
    ensures var l := FireLedger(limit, s, e);
      l.row.status in {WBlocked, WCancelled} && l.issued == s.ledger.issued
  {
  }

  // After a failure that needs inspection nothing is ever claimed again, whatever a user asks for.
  lemma BlockedForGood(limit: nat, s: System, holder: nat, retry: Option<nat>, now: nat, later: seq<Event>)
    requires Out(s.ledger, holder) && s.ledger.issued[holder].claim.stage != StagesDone
    ensures var t := Fire(limit, s, Reporting(holder, Failure(true, retry), now));
      var u := FiredFrom(limit, t, later);
      t.ledger.row.status == WBlocked && t.ledger.issued == s.ledger.issued
      && u.ledger.row.status in {WBlocked, WCancelled} && u.ledger.issued == s.ledger.issued
  {
    StuckForGood(limit, Fire(limit, s, Reporting(holder, Failure(true, retry), now)), later);
  }

  // Any other failure without a retry, or with no attempts left, leaves the row failed; a user can
  // resume it exactly while attempts are left.
  lemma FailedIsResumable(limit: nat, s: System, holder: nat, retry: Option<nat>, now: nat)
    requires Out(s.ledger, holder) && s.ledger.issued[holder].claim.stage != StagesDone
    requires retry.None? || s.ledger.row.attempts >= limit
    ensures var t := Fire(limit, s, Reporting(holder, Failure(false, retry), now));
      var u := Fire(limit, t, Resuming);
      t.ledger.row.status == WFailed && t.ledger.row.attempts == s.ledger.row.attempts
      && (if s.ledger.row.attempts < limit
          then u.ledger.row.status == WPending && u.ledger.row.retryAt.None? && u.ledger.row.stage == t.ledger.row.stage
          else u == t)
  {
  }

  // With a retry and attempts left it is pending again, and handed out from that time on, not before.
  lemma RetriedInTime(limit: nat, s: System, holder: nat, delay: nat, now: nat, later: seq<Event>, when: nat)
    requires Out(s.ledger, holder) && s.ledger.issued[holder].claim.stage != StagesDone && s.ledger.row.attempts < limit
    requires forall e :: e in later && e.Claiming? ==> e.now < now + delay
    ensures var t := Fire(limit, s, Reporting(holder, Failure(false, Some(delay)), now));
      var u := FiredFrom(limit, t, later);
      t.ledger.row.status == WPending && u.ledger.issued == s.ledger.issued
      && (u.ledger.row.status == WPending || u.ledger.row.status == WCancelled)
      && (u.ledger.row.status == WPending && when >= now + delay ==>
            |Fire(limit, u, Claiming(None, None, when)).ledger.issued| == |s.ledger.issued| + 1)
  {
    Waits(limit, Fire(limit, s, Reporting(holder, Failure(false, Some(delay)), now)), now + delay, later);
  }

  ghost predicate Waiting(l: Ledger, due: nat) {
    (l.row.status == WPending && l.row.retryAt == Some(due)) || l.row.status == WCancelled
  }

  lemma {:induction false} Waits(limit: nat, s: System, due: nat, later: seq<Event>)
    requires Waiting(s.ledger, due) && forall e :: e in later && e.Claiming? ==> e.now < due
    ensures var u := FiredFrom(limit, s, later);
      Waiting(u.ledger, due) && u.ledger.issued == s.ledger.issued
  {
    if later != [] {
      var front, last := later[..|later| - 1], later[|later| - 1];
      assert last in later;
      Waits(limit, s, due, front);
      WaitsNext(limit, FiredFrom(limit, s, front), due, last);
    }
  }

  lemma WaitsNext(limit: nat, s: System, due: nat, e: Event)
    requires Waiting(s.ledger, due) && (e.Claiming? ==> e.now < due)
    ensures Waiting(FireLedger(limit, s, e), due) && FireLedger(limit, s, e).issued == s.ledger.issued
  {
  }

  // After a success the next stage can be claimed at once, with all its attempts; after the last one
  // the workflow is completed.
  lemma SuccessMovesOn(
    limit: nat, publish: bool, s: System, holder: nat, data: set<Checkpoint>, repeat: bool, now: nat, when: nat)
    requires Reachable(limit, publish, s) && Out(s.ledger, holder)
    requires Honest(s.run, s.ledger.issued[holder], StageReport.Success(data, repeat))
    ensures var t := Fire(limit, s, Reporting(holder, StageReport.Success(data, repeat), now));
      (t.ledger.row.status == WCompleted <==> t.ledger.row.stage == StagesDone) && t.ledger.row.attempts == 0
      && (t.ledger.row.status != WCompleted ==>
            |Fire(limit, t, Claiming(None, None, when)).ledger.issued| == |s.ledger.issued| + 1)
  {
    ReachableClaims(limit, publish, s);
  }

  // ---- leases ----

  // While a claim is out nobody touches its lease or its stage.
  lemma {:induction false} LeaseKept(limit: nat, publish: bool, s: System, holder: nat, later: seq<Event>)
    requires Reachable(limit, publish, s) && Out(s.ledger, holder)
    ensures var t := FiredFrom(limit, s, later);
      Reachable(limit, publish, t) && s.ledger.issued <= t.ledger.issued
      && (Out(t.ledger, holder) ==> t.ledger.row == s.ledger.row)
  {
    if later != [] {
      var u := FiredFrom(limit, s, later[..|later| - 1]);
      LeaseKept(limit, publish, s, holder, later[..|later| - 1]);
      ReachableNext(limit, publish, u, later[|later| - 1]);
      LeaseNext(limit, publish, u, holder, later[|later| - 1]);
    }
  }

  lemma LeaseNext(limit: nat, publish: bool, s: System, holder: nat, e: Event)
    requires Reachable(limit, publish, s) && holder < |s.ledger.issued|
    ensures var l := FireLedger(limit, s, e);
      s.ledger.issued <= l.issued
      && (Out(l, holder) ==> Out(s.ledger, holder) && l.row == s.ledger.row)
  {
    ReachableClaims(limit, publish, s);
  }

  // A claim accepted at time t and still out is safe from the sweep up to t + 1800. After that the sweep
  // takes it away: an implementation or a review is blocked and its execution over and quiet, any other
  // stage fails and its execution is left alone; and no report of that claim is ever accepted.
  lemma LeaseEnds(
    limit: nat, publish: bool, s: System, stage: Option<Stage>, generation: Option<nat>, t: nat, later: seq<Event>, now: nat)
    requires Reachable(limit, publish, s)
    requires |Fire(limit, s, Claiming(stage, generation, t)).ledger.issued| > |s.ledger.issued|
    requires Out(FiredFrom(limit, Fire(limit, s, Claiming(stage, generation, t)), later).ledger, |s.ledger.issued|)
    ensures var v := FiredFrom(limit, Fire(limit, s, Claiming(stage, generation, t)), later);
      var w := Fire(limit, v, Sweeping(now));
      if now <= t + 1800 then w == v
      else
        w.ledger.row.token.None? && w.ledger.issued == v.ledger.issued
        && (if v.ledger.row.stage == Implement || v.ledger.row.stage == ReviewStage
            then w.ledger.row.status == WBlocked && w.run.Some? && Quiescent(w.run.value)
            else w.ledger.row.status == WFailed && w.run == v.run)
  {
    var e := Claiming(stage, generation, t);
    ReachableNext(limit, publish, s, e);
    ReachableClaims(limit, publish, s);
    assert Out(Fire(limit, s, e).ledger, |s.ledger.issued|);
    LeaseKept(limit, publish, Fire(limit, s, e), |s.ledger.issued|, later);
    SweepEnds(limit, publish, FiredFrom(limit, Fire(limit, s, e), later), t, now);
  }

  lemma SweepEnds(limit: nat, publish: bool, v: System, t: nat, now: nat)
    requires Reachable(limit, publish, v) && v.ledger.row.status == WRunning && v.ledger.row.lease == Some(t + 1800)
    ensures var w := Fire(limit, v, Sweeping(now));
      if now <= t + 1800 then w == v
      else
        w.ledger.row.token.None? && w.ledger.issued == v.ledger.issued
        && (if v.ledger.row.stage == Implement || v.ledger.row.stage == ReviewStage
            then w.ledger.row.status == WBlocked && w.run.Some? && Quiescent(w.run.value)
            else w.ledger.row.status == WFailed && w.run == v.run)
  {
    if now > t + 1800 && (v.ledger.row.stage == Implement || v.ledger.row.stage == ReviewStage) {
      KeysAreThere(limit, publish, v);
      ReachableRun(limit, publish, v);
      StoppedQuiet(v, false);
    }
  }

  // A claim that is not out any more never is again, and its reports change nothing.
  lemma {:induction false} LostForGood(
    limit: nat, publish: bool, s: System, holder: nat, later: seq<Event>, report: StageReport, now: nat)
    requires Reachable(limit, publish, s) && holder < |s.ledger.issued| && !Out(s.ledger, holder)
    ensures var t := FiredFrom(limit, s, later);
      Reachable(limit, publish, t) && s.ledger.issued <= t.ledger.issued
      && !Out(t.ledger, holder) && Fire(limit, t, Reporting(holder, report, now)) == t
  {
    if later != [] {
      var u := FiredFrom(limit, s, later[..|later| - 1]);
      LostForGood(limit, publish, s, holder, later[..|later| - 1], report, now);
      ReachableNext(limit, publish, u, later[|later| - 1]);
      LeaseNext(limit, publish, u, holder, later[|later| - 1]);
    }
  }

  // ---- cancellation ----

  ghost predicate Busy(s: System) {
    ExecutionId in s.ledger.row.data && s.run.Some?
    && ((exists i :: 0 <= i < |s.run.value.agents| && s.run.value.agents[i].status == AgentRunning)
        || exists k :: k in s.run.value.tasks && s.run.value.tasks[k].status == SchedulerState.Running)
  }

  // A workflow is cancelled exactly if it is pending, failed or blocked and nothing is at work on its
  // execution; otherwise nothing changes at all.
  lemma CancelledExactly(limit: nat, s: System)
    ensures var t := Fire(limit, s, Cancelling);
      if (s.ledger.row.status == WPending || s.ledger.row.status == WFailed || s.ledger.row.status == WBlocked) && !Busy(s)
      then t.ledger.row.status == WCancelled && t.ledger.issued == s.ledger.issued
      else t == s
  {
    if s.run.Some? {
      var run := s.run.value;
      forall i | 0 <= i < |run.agents| ensures run.agents[i] in run.agents {
      }
    }
  }
}
