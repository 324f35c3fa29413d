/** The review decision and its two gates (app/services/review.py). */
module Review {
  import opened Ordering
  import opened SchedulerState
  import opened Records
  import opened Executions
  import opened ReviewGate
  import opened ReviewRecords
  import opened PublicationRecords
  import opened Protocol
  import opened RunInvariant
  import opened AgentRows
  import opened Fencing
  import opened Runs
  import opened ReviewOwnership
  import opened RowsAppended
  import opened Transactions

  datatype ModelReview = ReviewBreaks(code: Code) | Reviewed(result: ReviewResult, secretInOutput: bool)

  // What the outside world does during one review: the workspace diff before and after the model has
  // answered, properties of the serialized input, and the transactions of other workers.
  datatype ReviewWorld = ReviewWorld(
    diff: Option<string>, oversized: bool, secretInInput: bool, model: ModelReview, diffAfter: Option<string>,
    others: nat -> seq<Step>)

  datatype ReviewOutcome = NotReviewed(error: Error) | Decided(review: nat, decision: Decision) | ReviewRaised

  // The review `id` rests on `seen`, and while it runs no later one has started.
  ghost predicate SoleReview(s: Execution, id: nat, seen: Evidence) {
    id < |s.agents| && s.agents[id].kind == Review && s.agents[id].input.evidence == Some(HashOf(seen))
    && (IsRunning(s.agents[id]) ==> forall j :: id < j < |s.agents| ==> s.agents[j].kind != Review)
  }

  lemma SoleReviewKept(s: Execution, id: nat, seen: Evidence, step: Step)
    requires RunInv(s) && RowsInv(s) && SoleReview(s, id, seen)
    ensures SoleReview(Next(s, step), id, seen)
  {
    NextRows(s, step);
    AppendedKinds(s, step);
    var t := Next(s, step);
    assert Evolves(s.agents[id], t.agents[id]);
    if IsRunning(t.agents[id]) {
      assert s.agents[id] in s.agents;
      forall j | id < j < |t.agents| ensures t.agents[j].kind != Review {
        if j < |s.agents| { assert Evolves(s.agents[j], t.agents[j]); }
      }
    }
  }

  // What holds between the transactions of a review: it is the sole one and rests on `seen`; clean
  // evidence stays what it is; and its record is running unless somebody has closed it.
  ghost predicate Reviewing(s: Execution, id: nat, seen: Evidence, required: seq<string>, heard: seq<Moment>) {
    RunInv(s) && RowsInv(s) && SoleReview(s, id, seen) && (seen.errors == [] ==> Frozen(s, required, seen))
    && (Unclosed(heard, id) ==> IsRunning(s.agents[id]))
  }

  // None of the steps of others closed the review.
  predicate Unclosed(heard: seq<Moment>, id: nat) {
    forall m | m in heard :: !ClosesReview(m.rows, id, m.step)
  }

  lemma ReviewingNext(s: Execution, id: nat, seen: Evidence, required: seq<string>, heard: seq<Moment>, step: Step)
    requires Reviewing(s, id, seen, required, heard)
    ensures Reviewing(Next(s, step), id, seen, required, heard + [Moment(s, step)])
    ensures Unclosed(heard + [Moment(s, step)], id) ==> Unclosed(heard, id)
  {
    var after := heard + [Moment(s, step)];
    assert forall m :: m in heard ==> m in after;
    assert after[|heard|] == Moment(s, step);
    NextKeeps(s, step);
    NextRows(s, step);
    SoleReviewKept(s, id, seen, step);
    if seen.errors == [] { FrozenNext(s, step, required, seen); }
    if Unclosed(after, id) { ClosesExactly(s, id, step); }
  }

  lemma ReviewStarts(s: Execution, matches: bool, required: seq<string>)
    requires RunInv(s) && RowsInv(s) && ReviewStarted(s, matches, required).Done?
    ensures var o := ReviewStarted(s, matches, required);
      o.value == (|s.agents|, ReviewEvidence(s, required)) && Reviewing(o.state, |s.agents|, o.value.1, required, [])
  {
    StartedReview(s, matches, required);
    var o := ReviewStarted(s, matches, required);
    if o.value.1.errors == [] {
      CleanIsFrozen(s, required);
      FrozenNext(s, StartReview(matches, required), required, o.value.1);
    }
  }

  // Closing a review changes nothing that a review rests on.
  lemma ClosingKeepsEvidence(s: Execution, id: nat, status: AgentStatus, output: Output, required: seq<string>)
    requires WellFormed(s) && id < |s.agents| && s.agents[id].kind == Review
    ensures ReviewEvidence(EndAgent(s, id, status, output), required) == ReviewEvidence(s, required)
  {
    SameImplementation(s.agents, EndAgent(s, id, status, output).agents);
  }

  // The decision of an examination: an approval has passed every gate.
  ghost predicate Sound(decision: Decision, seen: Evidence) {
    decision.approved ==>
      seen.errors == [] && decision.objections == []
      && decision.review.Some? && decision.review.value.approved && Blocking !in decision.review.value.findings
      && decision.diffHash.Some? && decision.diffHash == seen.fingerprint
  }

  // ---- what the world makes of the evidence ----

  // Something stands against asking the model at all.
  ghost predicate Objectionable(world: ReviewWorld, allowed: set<string>, seen: Evidence, required: seq<string>, diff: string) {
    Some(Sha256(diff)) != seen.fingerprint || diff == "" || (exists n :: n in required && n !in allowed)
    || world.oversized || world.secretInInput
  }

  // The operation does not come to a decision.
  ghost predicate Breaks(world: ReviewWorld, allowed: set<string>, seen: Evidence, required: seq<string>) {
    seen.errors == []
    && (world.diff.None?
        || (!Objectionable(world, allowed, seen, required, world.diff.value)
            && (world.model.ReviewBreaks? || world.model.secretInOutput || world.diffAfter.None?)))
  }

  ghost predicate Objects(
    o: Objection, world: ReviewWorld, allowed: set<string>, seen: Evidence, required: seq<string>, diff: string) {
    match o
    case WorkspaceChangedSinceTests => Some(Sha256(diff)) != seen.fingerprint
    case NoChangesToReview => diff == ""
    case RequiredCommandDisabled => exists n :: n in required && n !in allowed
    case ReviewInputTooLarge => world.oversized
    case SecretInReviewInput => world.secretInInput
    case WorkspaceChangedDuringReview =>
      !Objectionable(world, allowed, seen, required, diff) && world.diffAfter != Some(diff)
    case _ => false
  }

  // Clean evidence is approved: nothing stands against it before or after, the model approves and no
  // finding is blocking.
  ghost predicate Approves(world: ReviewWorld, allowed: set<string>, seen: Evidence, required: seq<string>) {
    seen.errors == [] && world.diff.Some? && !Objectionable(world, allowed, seen, required, world.diff.value)
    && world.diffAfter == world.diff && world.model.Reviewed? && world.model.result.approved
    && forall i :: 0 <= i < |world.model.result.findings| ==> world.model.result.findings[i] in {Info, Warning}
  }

  // The decision on this evidence: on errors, just those; otherwise the model's review if nothing stood
  // against it, and exactly the objections that apply.
  ghost predicate FitsWorld(
    decision: Decision, world: ReviewWorld, allowed: set<string>, seen: Evidence, required: seq<string>) {
    (decision.approved <==> Approves(world, allowed, seen, required))
    && if seen.errors != [] then
         decision.review.None? && decision.diffHash.None? && forall o :: o in seen.errors ==> o in decision.objections
       else
         world.diff.Some? && decision.diffHash == Some(Sha256(world.diff.value))
         && (if Objectionable(world, allowed, seen, required, world.diff.value) then decision.review.None?
             else world.model.Reviewed? && decision.review == Some(world.model.result))
         && forall o :: o in decision.objections <==> Objects(o, world, allowed, seen, required, world.diff.value)
  }

  class ReviewService {
    const store: ExecutionStore
    const records: ReviewRecords
    const allowed: set<string>
    const world: ReviewWorld
    var turn: nat
    ghost var heard: seq<Moment>

    constructor (store: ExecutionStore, allowed: set<string>, world: ReviewWorld)
      requires store.Valid()
      ensures Ready() && this.store == store && this.allowed == allowed && this.world == world
    {
      this.store, this.allowed, this.world, turn := store, allowed, world, 0;
      heard := [];
      records := new ReviewRecords(store);
    }

    ghost predicate Ready()
      reads store
    {
      store.Valid() && records.store == store
    }

    // Everything heard of was done by others.
    ghost predicate Overheard(heard: seq<Moment>) {
      forall m :: m in heard ==> exists i: nat :: m.step in world.others(i)
    }

    // Other workers get their turn: any steps at all, every one of them taken.
    method Yield(id: nat, ghost seen: Evidence, ghost required: seq<string>)
      requires Ready() && Reviewing(store.View(), id, seen, required, heard)
      modifies this`turn, this`heard, store
      ensures Ready() && Reviewing(store.View(), id, seen, required, heard)
      ensures Unclosed(heard, id) ==> old(Unclosed(heard, id))
      ensures turn == old(turn) + 1 && |heard| == |old(heard)| + |world.others(old(turn))|
      ensures old(Overheard(heard)) ==> Overheard(heard)
    {
      var steps := world.others(turn);
      var i := 0;
      while i < |steps|
        invariant 0 <= i <= |steps| && |heard| == |old(heard)| + i && turn == old(turn)
        invariant Ready() && Reviewing(store.View(), id, seen, required, heard)
        invariant Unclosed(heard, id) ==> old(Unclosed(heard, id))
        invariant old(Overheard(heard)) ==> Overheard(heard)
      {
        ReviewingNext(store.View(), id, seen, required, heard, steps[i]);
        heard := heard + [Moment(store.View(), steps[i])];
        Perform(store, steps[i]);
        i := i + 1;
      }
      turn := turn + 1;
    }

    // The mechanical errors found before the model is asked.
    method Objections(seen: Evidence, required: seq<string>, diff: string) returns (errors: seq<Objection>)
      ensures WorkspaceChangedSinceTests in errors <==> Some(Sha256(diff)) != seen.fingerprint
      ensures NoChangesToReview in errors <==> diff == ""
      ensures RequiredCommandDisabled in errors <==> exists n :: n in required && n !in allowed
      ensures ReviewInputTooLarge in errors <==> world.oversized
      ensures SecretInReviewInput in errors <==> world.secretInInput
      ensures WorkspaceChangedDuringReview !in errors
      ensures forall o :: o in errors ==> Objects(o, world, allowed, seen, required, diff)
      ensures errors == [] <==>
        Some(Sha256(diff)) == seen.fingerprint && diff != "" && (forall n :: n in required ==> n in allowed)
        && !world.oversized && !world.secretInInput
    {
      errors := [];
      if Some(Sha256(diff)) != seen.fingerprint {
        errors := errors + [WorkspaceChangedSinceTests];
      }
      if diff == "" {
        errors := errors + [NoChangesToReview];
      }
      if exists n | n in required :: n !in allowed {
        errors := errors + [RequiredCommandDisabled];
      }
      if world.oversized {
        errors := errors + [ReviewInputTooLarge];
      }
      if world.secretInInput {
        errors := errors + [SecretInReviewInput];
      }
    }

    // From the snapshot to the decision, or to the operational error that ends the review.
    method Examine(seen: Evidence, required: seq<string>) returns (decision: Decision, broken: Option<Code>)
      ensures broken.None? ==> Sound(decision, seen) && FitsWorld(decision, world, allowed, seen, required)
      ensures broken.Some? <==> Breaks(world, allowed, seen, required)
    {
      if world.model.Reviewed? { MildFindings(world.model.result.findings); }
      decision, broken := Decision(None, seen.errors, false, None), None;
      if seen.errors != [] {
        return;
      }
      if world.diff.None? {
        broken := Some(ReviewOperationFailed);
        return;
      }
      var diff := world.diff.value;
      decision := decision.(diffHash := Some(Sha256(diff)));
      var errors := Objections(seen, required, diff);
      if errors == [] {
        match world.model {
          case ReviewBreaks(code) =>
            broken := Some(code);
            return;
          case Reviewed(result, secretInOutput) =>
            if secretInOutput {
              broken := Some(ReviewOperationFailed);
              return;
            }
            decision := decision.(review := Some(result));
            if world.diffAfter.None? {
              broken := Some(ReviewOperationFailed);
              return;
            }
            if world.diffAfter != Some(diff) {
              errors := errors + [WorkspaceChangedDuringReview];
            }
        }
      }
      decision := decision.(
        objections := errors,
        approved := errors == [] && decision.review.Some? && decision.review.value.approved
                    && Blocking !in decision.review.value.findings);
    }

    // A review that returns has decided; its approval is exactly what clears publication.
    method Run(matches: bool, required: seq<string>) returns (outcome: ReviewOutcome)
      requires Ready() && RunInv(store.View()) && RowsInv(store.View())
      modifies this`turn, this`heard, store
      ensures Ready() && RunInv(store.View()) && RowsInv(store.View())
      ensures outcome.NotReviewed? ==> store.View() == old(store.View())
      ensures outcome.NotReviewed? <==> !matches || AnyReviewRunning(old(store.agents))
      ensures outcome.Decided? && outcome.decision.approved ==>
        Check(store.View(), required) == Cleared(outcome.review, outcome.decision)
      ensures outcome.Decided? && !outcome.decision.approved ==> Check(store.View(), required).NotCleared?
      // the decision is the one that the world calls for on the evidence found at the start
      ensures outcome.Decided? ==>
        outcome.review == |old(store.agents)|
        && FitsWorld(outcome.decision, world, allowed, old(ReviewEvidence(store.View(), required)), required)
      ensures Overheard(heard)
      // and it is returned unless the operation breaks or somebody closes the review
      ensures !outcome.NotReviewed? && Unclosed(heard, |old(store.agents)|) ==>
        (outcome.Decided? <==> !Breaks(world, allowed, old(ReviewEvidence(store.View(), required)), required))
    {
      ghost var s := store.View();
      heard := [];
      var started := records.Start(matches, required);
      if started.Err? {
        return NotReviewed(started.error);
      }
      var id, seen := started.value.0, started.value.1;
      ReviewStarts(s, matches, required);
      Yield(id, seen, required);
      var decision, broken := Examine(seen, required);
      outcome := Settle(id, matches, required, seen, decision, broken);
    }

    // The decision is stored, or else the failure of the operation; a refused decision is recorded once
    // more as a failure.
    method Settle(id: nat, matches: bool, required: seq<string>, seen: Evidence, decision: Decision, broken: Option<Code>)
      returns (outcome: ReviewOutcome)
      requires Ready() && Reviewing(store.View(), id, seen, required, heard) && matches
      requires broken.None? ==> Sound(decision, seen) && FitsWorld(decision, world, allowed, seen, required)
      modifies this`turn, this`heard, store
      ensures Ready() && RunInv(store.View()) && RowsInv(store.View()) && !outcome.NotReviewed?
      ensures Unclosed(heard, id) ==> old(Unclosed(heard, id)) && (outcome.Decided? <==> broken.None?)
      ensures old(Overheard(heard)) ==> Overheard(heard)
      ensures outcome.Decided? ==>
        outcome.review == id && FitsWorld(outcome.decision, world, allowed, seen, required)
        && if outcome.decision.approved then Check(store.View(), required) == Cleared(id, outcome.decision)
           else Check(store.View(), required).NotCleared?
    {
      Yield(id, seen, required);
      outcome := Close(id, matches, required, seen, decision, broken);
      if broken.None? && outcome.ReviewRaised? {
        Yield(id, seen, required);
        var _ := Close(id, matches, required, seen, decision, Some(ReviewOperationFailed));
      }
    }

    method Close(id: nat, matches: bool, required: seq<string>, seen: Evidence, decision: Decision, broken: Option<Code>)
      returns (outcome: ReviewOutcome)
      requires Ready() && Reviewing(store.View(), id, seen, required, heard) && matches
      requires broken.None? ==> Sound(decision, seen) && FitsWorld(decision, world, allowed, seen, required)
      modifies store
      ensures Ready() && RunInv(store.View()) && RowsInv(store.View()) && !outcome.NotReviewed?
      ensures broken.None? && outcome.ReviewRaised? ==> store.View() == old(store.View())
      ensures Unclosed(heard, id) ==> (outcome.Decided? <==> broken.None?)
      ensures outcome.Decided? ==>
        broken.None? && outcome.review == id && FitsWorld(outcome.decision, world, allowed, seen, required)
        && if outcome.decision.approved then Check(store.View(), required) == Cleared(id, outcome.decision)
           else Check(store.View(), required).NotCleared?
    {
      if ReviewFinished(store.View(), matches, required, id, seen, decision, broken).Done? {
        FinishedReview(store.View(), matches, required, id, seen, decision, broken);
        if broken.None? { RecheckFits(store.View(), required, seen, decision); }
      }
      var r := records.Finish(matches, required, id, seen, decision, broken);
      outcome := if r.Ok? && broken.None? then Decided(id, r.value) else ReviewRaised;
    }

    // The recheck of clean evidence adds nothing.
    lemma RecheckFits(s: Execution, required: seq<string>, seen: Evidence, decision: Decision)
      requires WellFormed(s) && (seen.errors == [] ==> ReviewEvidence(s, required) == seen)
      requires FitsWorld(decision, world, allowed, seen, required) && Sound(decision, seen)
      ensures FitsWorld(Rechecked(decision, HashOf(ReviewEvidence(s, required)) == HashOf(seen), None), world, allowed, seen, required)
    {
      var same := HashOf(ReviewEvidence(s, required)) == HashOf(seen);
      var objections := decision.objections + (if same then [] else [ExecutionChangedDuringReview]);
      assert forall o :: o in Dedup(objections) <==> o in Elements(Dedup(objections));
      assert forall o :: o in objections <==> o in Elements(objections);
    }
  }

  lemma StartedReview(s: Execution, matches: bool, required: seq<string>)
    requires RunInv(s) && RowsInv(s) && ReviewStarted(s, matches, required).Done?
    ensures var o := ReviewStarted(s, matches, required);
      RunInv(o.state) && RowsInv(o.state) && SoleReview(o.state, o.value.0, o.value.1)
  {
    NextKeeps(s, StartReview(matches, required));
    NextRows(s, StartReview(matches, required));
  }

  // The transaction that closes a review leaves publication cleared exactly when it stores an approval.
  lemma FinishedReview(
    s: Execution, matches: bool, required: seq<string>, id: nat, seen: Evidence, decision: Decision, broken: Option<Code>)
    requires RunInv(s) && RowsInv(s) && SoleReview(s, id, seen) && (broken.None? ==> Sound(decision, seen))
    requires ReviewFinished(s, matches, required, id, seen, decision, broken).Done?
    ensures var o := ReviewFinished(s, matches, required, id, seen, decision, broken);
      RunInv(o.state) && RowsInv(o.state)
      && (broken.None? && o.value.approved ==> Check(o.state, required) == Cleared(id, o.value))
      && (!o.value.approved ==> Check(o.state, required).NotCleared?)
  {
    FinishKeeps(s, matches, required, id, seen, decision, broken);
    var o := ReviewFinished(s, matches, required, id, seen, decision, broken);
    var status := if broken.Some? then AgentFailed else AgentCompleted;
    ClosingKeepsEvidence(s, id, status, NO_OUTPUT.(decision := Some(o.value), error := broken), required);
    LatestReviewIs(o.state.agents, id);
  }

  lemma FinishKeeps(
    s: Execution, matches: bool, required: seq<string>, id: nat, seen: Evidence, decision: Decision, broken: Option<Code>)
    requires RunInv(s) && RowsInv(s) && ReviewFinished(s, matches, required, id, seen, decision, broken).Done?
    ensures var t := ReviewFinished(s, matches, required, id, seen, decision, broken).state; RunInv(t) && RowsInv(t)
  {
    NextKeeps(s, FinishReview(matches, required, id, seen, decision, broken));
    NextRows(s, FinishReview(matches, required, id, seen, decision, broken));
  }

  lemma {:induction false} LatestReviewIs(agents: seq<Agent>, id: nat)
    requires id < |agents| && agents[id].kind == Review && forall j :: id < j < |agents| ==> agents[j].kind != Review
    ensures LatestReview(agents) == Some(id)
  {
    if id < |agents| - 1 { LatestReviewIs(agents[..|agents| - 1], id); }
  }
}
