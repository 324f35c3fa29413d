/** Which kinds of agent records each transaction adds. */
module RowsAppended {
  import opened Records
  import opened Executions
  import opened CodingRecords
  import opened TestRecords
  import opened RecoveryRecords
  import opened ReviewRecords
  import opened PublicationRecords
  import opened Protocol

  ghost predicate OnlyImplementation(s: Execution, t: Execution) {
    forall j :: |s.agents| <= j < |t.agents| ==> Implements(t.agents[j].kind)
  }

  lemma SchedulingAppends(s: Execution, step: Step)
    requires WellFormed(s) && SchedulingStep(step)
    ensures OnlyImplementation(s, NextSchedule(s, step))
  {
  }

  lemma WorkAppends(s: Execution, step: Step)
    requires WellFormed(s) && (CodingStep(step) || TestStep(step))
    ensures OnlyImplementation(s, if CodingStep(step) then NextCoding(s, step) else NextTest(s, step))
  {
  }

  lemma RepairAppends(s: Execution, step: Step)
    requires WellFormed(s) && RepairStep(step)
    ensures OnlyImplementation(s, NextRepair(s, step))
  {
  }

  // A review is added only while none runs, a publication record only by the journal.
  ghost predicate AddsBesides(s: Execution, t: Execution, step: Step) {
    forall j :: |s.agents| <= j < |t.agents| && !Implements(t.agents[j].kind) ==>
      if t.agents[j].kind == Review then !AnyReviewRunning(s.agents) else step.WriteJournal?
  }

  lemma ReviewAppends(s: Execution, step: Step)
    requires WellFormed(s) && ReviewStep(step)
    ensures AddsBesides(s, NextReview(s, step), step)
  {
  }

  lemma AppendedKinds(s: Execution, step: Step)
    requires WellFormed(s)
    ensures AddsBesides(s, Next(s, step), step)
  {
    if SchedulingStep(step) { SchedulingAppends(s, step); }
    else if CodingStep(step) || TestStep(step) { WorkAppends(s, step); }
    else if RepairStep(step) { RepairAppends(s, step); }
    else { ReviewAppends(s, step); }
  }

  // ---- attempts are added by their claims only ----

  ghost predicate AddsAttempt(s: Execution, t: Execution, r: nat) {
    exists j :: |s.agents| <= j < |t.agents| && IsAttempt(t.agents[j], r)
  }

  lemma WorkAddsNoAttempt(s: Execution, step: Step, r: nat)
    requires WellFormed(s) && (SchedulingStep(step) || CodingStep(step) || TestStep(step))
    ensures SchedulingStep(step) ==> !AddsAttempt(s, NextSchedule(s, step), r)
    ensures CodingStep(step) ==> !AddsAttempt(s, NextCoding(s, step), r)
    ensures TestStep(step) ==> !AddsAttempt(s, NextTest(s, step), r)
  {
  }

  lemma RepairAddsAttempt(s: Execution, step: Step, r: nat)
    requires WellFormed(s) && RepairStep(step) && step != ClaimDebug(r)
    ensures !AddsAttempt(s, NextRepair(s, step), r)
  {
  }

  lemma ReviewAddsNoAttempt(s: Execution, step: Step, r: nat)
    requires WellFormed(s) && ReviewStep(step)
    ensures !AddsAttempt(s, NextReview(s, step), r)
  {
  }

  lemma OnlyClaimsAddAttempts(s: Execution, step: Step, r: nat)
    requires WellFormed(s) && step != ClaimDebug(r)
    ensures !AddsAttempt(s, Next(s, step), r)
  {
    if SchedulingStep(step) || CodingStep(step) || TestStep(step) { WorkAddsNoAttempt(s, step, r); }
    else if RepairStep(step) { RepairAddsAttempt(s, step, r); }
    else { ReviewAddsNoAttempt(s, step, r); }
  }
}
