/** Every transaction on one execution as a step, and runs as arbitrary sequences of steps. */
module Protocol {
  import opened Ordering
  import opened PlanDependencies
  import opened SchedulerState
  import opened Records
  import opened Executions
  import opened CodingRecords
  import opened TestRecords
  import opened RecoveryRecords
  import opened ReviewRecords
  import opened PublicationRecords

  datatype Step =
    | Reconcile
    | Transition(key: Key, target: TaskStatus, summary: Summary)
    | Stop(cancelled: bool)
    | Sweep(cutoff: nat, idle: bool)
    | StartCoding(key: Key, matches: bool)
    | FinishCoding(key: Key, id: nat, success: bool, output: Output)
    | StartTest(key: Key, commands: seq<string>, recovery: Option<nat>)
    | FinishTest(key: Key, id: nat, report: Report, error: Option<Code>, recovery: Option<nat>, diffHash: Option<Digest>)
    | OpenRecovery(key: Key, matches: bool, commands: seq<string>, limit: nat)
    | ClaimDebug(owner: nat)
    | ReservePatch(owner: nat, id: nat, fingerprint: Digest)
    | FinishDebug(owner: nat, id: nat, metadata: DebugMetadata)
    | EndRecovery(owner: nat, passed: bool, error: Option<Code>)
    | StartReview(matches: bool, commands: seq<string>)
    | FinishReview(matches: bool, commands: seq<string>, id: nat, seen: Evidence, decision: Decision, error: Option<Code>)
    | WriteJournal(publication: Publication)
    | ClosePublication(record: Option<PublishedPR>, remote: PublishedPR)
    | FailPublication(code: PublicationError)

  function Committed<T>(s: Execution, outcome: Outcome<T>): Execution {
    if outcome.Done? then outcome.state else s
  }

  predicate SchedulingStep(step: Step) {
    step.Reconcile? || step.Transition? || step.Stop? || step.Sweep?
  }

  predicate CodingStep(step: Step) {
    step.StartCoding? || step.FinishCoding?
  }

  predicate TestStep(step: Step) {
    step.StartTest? || step.FinishTest?
  }

  predicate RepairStep(step: Step) {
    step.OpenRecovery? || step.ClaimDebug? || step.ReservePatch? || step.FinishDebug? || step.EndRecovery?
  }

  predicate ReviewStep(step: Step) {
    step.StartReview? || step.FinishReview? || step.WriteJournal? || step.ClosePublication? || step.FailPublication?
  }

  ghost function NextSchedule(s: Execution, step: Step): Execution
    requires WellFormed(s) && SchedulingStep(step)
  {
    match step
    case Reconcile => Committed(s, AdvanceRun(s))
    case Transition(k, target, summary) => Committed(s, Transitioned(s, k, target, summary))
    case Stop(cancelled) => Committed(s, StopLocked(s, cancelled))
    case Sweep(cutoff, idle) => Committed(s, RecoverStale(s, cutoff, idle))
  }

  ghost function NextCoding(s: Execution, step: Step): Execution
    requires WellFormed(s) && CodingStep(step)
  {
    match step
    case StartCoding(k, matches) => Committed(s, CodingStarted(s, k, matches))
    case FinishCoding(k, id, success, output) => Committed(s, CodingFinished(s, k, id, success, output))
  }

  ghost function NextTest(s: Execution, step: Step): Execution
    requires WellFormed(s) && TestStep(step)
  {
    match step
    case StartTest(k, commands, recovery) => Committed(s, TestStarted(s, k, commands, recovery))
    case FinishTest(k, id, report, error, recovery, diffHash) =>
      Committed(s, TestFinished(s, k, id, report, error, recovery, diffHash))
  }

  ghost function NextRepair(s: Execution, step: Step): Execution
    requires WellFormed(s) && RepairStep(step)
  {
    match step
    case OpenRecovery(k, matches, commands, limit) => Committed(s, Opened(s, k, matches, commands, limit))
    case ClaimDebug(owner) => Committed(s, DebugClaimed(s, owner))
    case ReservePatch(owner, id, fingerprint) => Committed(s, PatchReserved(s, owner, id, fingerprint))
    case FinishDebug(owner, id, metadata) => Committed(s, DebugFinished(s, owner, id, metadata))
    case EndRecovery(owner, passed, error) => Committed(s, RecoveryEnd(s, owner, passed, error))
  }

  ghost function NextReview(s: Execution, step: Step): Execution
    requires WellFormed(s) && ReviewStep(step)
  {
    match step
    case StartReview(matches, commands) => Committed(s, ReviewStarted(s, matches, commands))
    case FinishReview(matches, commands, id, seen, decision, error) =>
      Committed(s, ReviewFinished(s, matches, commands, id, seen, decision, error))
    case WriteJournal(publication) =>
      var j := Journal(s, publication);
      if j.Journaled? then j.state else s
    // the publication service holds the id its journal write returned
    case ClosePublication(record, remote) =>
      var j := JournalOf(s.agents);
      if j.Some? then RecordPublished(s, record, j.value, remote).state else s
    case FailPublication(code) =>
      var j := JournalOf(s.agents);
      if j.Some? then RecordFailure(s, j.value, code) else s
  }

  // The rows after the step has run, committed or rolled back.
  ghost function Next(s: Execution, step: Step): Execution
    requires WellFormed(s)
  {
    if SchedulingStep(step) then NextSchedule(s, step)
    else if CodingStep(step) then NextCoding(s, step)
    else if TestStep(step) then NextTest(s, step)
    else if RepairStep(step) then NextRepair(s, step)
    else NextReview(s, step)
  }
}
