/** The record services carry out the steps: running a step on the rows gives the next rows. */
module Transactions {
  import opened Ordering
  import opened SchedulerState
  import opened Records
  import opened Executions
  import opened CodingRecords
  import opened TestRecords
  import opened RecoveryRecords
  import opened ReviewRecords
  import opened PublicationRecords
  import opened Protocol
  import opened RunInvariant

  method Perform(store: ExecutionStore, step: Step)
    requires store.Valid()
    modifies store
    ensures store.Valid()
    ensures store.View() == Next(old(store.View()), step)
  {
    match step
    case Reconcile => var _ := store.Reconcile();
    case Transition(k, target, summary) => var _ := store.Transition(k, target, summary);
    case Stop(cancelled) => var _ := store.Stop(cancelled);
    case Sweep(cutoff, idle) => var _ := store.Recover(cutoff, idle);
    case StartReview(_, _) => PerformReview(store, step);
    case FinishReview(_, _, _, _, _, _) => PerformReview(store, step);
    case WriteJournal(_) => PerformPublication(store, step);
    case ClosePublication(_, _) => PerformPublication(store, step);
    case FailPublication(_) => PerformPublication(store, step);
    case _ => PerformWork(store, step);
  }

  method PerformWork(store: ExecutionStore, step: Step)
    requires store.Valid()
    requires step.StartCoding? || step.FinishCoding? || step.StartTest? || step.FinishTest? || step.OpenRecovery?
      || step.ClaimDebug? || step.ReservePatch? || step.FinishDebug? || step.EndRecovery?
    modifies store
    ensures store.Valid()
    ensures store.View() == Next(old(store.View()), step)
  {
    var coding := new CodingRecords(store);
    var tests := new TestRecords(store);
    var recovery := new RecoveryRecords(store);
    match step
    case StartCoding(k, matches) => var _ := coding.Start(k, matches);
    case FinishCoding(k, id, success, output) => var _ := coding.Finish(k, id, success, output);
    case StartTest(k, commands, owner) => var _ := tests.Start(k, commands, owner);
    case FinishTest(k, id, report, error, owner, diffHash) => var _ := tests.Finish(k, id, report, error, owner, diffHash);
    case OpenRecovery(k, matches, commands, limit) => var _ := recovery.Open(k, matches, commands, limit);
    case ClaimDebug(owner) => var _ := recovery.ClaimDebug(owner);
    case ReservePatch(owner, id, fingerprint) => var _ := recovery.ReservePatch(owner, id, fingerprint);
    case FinishDebug(owner, id, metadata) => var _ := recovery.FinishDebug(owner, id, metadata);
    case EndRecovery(owner, passed, error) => var _ := recovery.Finish(owner, passed, error);
  }

  method PerformReview(store: ExecutionStore, step: Step)
    requires store.Valid() && (step.StartReview? || step.FinishReview?)
    modifies store
    ensures store.Valid()
    ensures store.View() == Next(old(store.View()), step)
  {
    var reviews := new ReviewRecords(store);
    match step
    case StartReview(matches, commands) => var _ := reviews.Start(matches, commands);
    case FinishReview(matches, commands, id, seen, decision, error) =>
      var _ := reviews.Finish(matches, commands, id, seen, decision, error);
  }

  method PerformPublication(store: ExecutionStore, step: Step)
    requires store.Valid() && (step.WriteJournal? || step.ClosePublication? || step.FailPublication?)
    modifies store
    ensures store.Valid()
    ensures store.View() == Next(old(store.View()), step)
  {
    var publications := new PublicationRecords(store);
    var journal := JournalOf(store.agents);
    match step
    case WriteJournal(publication) => var _ := publications.WriteJournal(publication);
    case ClosePublication(record, remote) =>
      if journal.Some? {
        publications.record := record;
        var _ := publications.Finish(journal.value, remote);
      }
    case FailPublication(code) =>
      if journal.Some? {
        var _ := publications.Failed(journal.value, code);
      }
  }
}
