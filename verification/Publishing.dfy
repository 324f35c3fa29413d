/** Reconcile-then-create publication under lost messages and crashes (app/pull_requests/service.py). */
module Publishing {
  import opened Folding
  import opened Ordering
  import opened SchedulerState
  import opened Records
  import opened Executions
  import opened PublicationRecords
  import opened Protocol
  import opened RunInvariant
  import opened AgentRows
  import opened Fencing
  import opened RowsAppended
  import opened EvidenceChain
  import opened Transactions
  import opened GitHub

  // The stored repository as `check` reads it; `named` and `trusted` say that its names and its clone
  // URL are as they should be.
  datatype Source = Source(owner: string, repository: string, base: string, named: bool, trusted: bool)

  // The commit that Git prepares and the texts rendered for it.
  datatype Prepared = Prepared(parent: string, commit: string, title: string, body: string)

  // Outcomes by turn, and what others do meanwhile to the rows and to the remote repository.
  datatype PublishWorld = PublishWorld(
    fates: nat -> Fate, diffs: nat -> Option<string>, sources: nat -> Source, prepared: nat -> Option<Prepared>,
    secrets: nat -> bool, shas: nat -> string, urls: (nat, nat) -> string,
    others: nat -> seq<Step>, changes: nat -> seq<Change>)

  datatype Attempt<+T> = Success(value: T) | Fails(error: PublicationError) | Crashes

  predicate PartAt(text: string, part: string, i: nat) {
    i + |part| <= |text| && text[i..i + |part|] == part
  }

  predicate Contains(text: string, part: string) {
    exists i | 0 <= i <= |text| :: PartAt(text, part, i)
  }

  // A text contains what stands between something before it and something after it.
  lemma ContainsBetween(text: string, part: string)
    ensures Contains(text, part) <==> exists before, after :: text == before + part + after
  {
    if Contains(text, part) {
      var i :| 0 <= i <= |text| && PartAt(text, part, i);
      assert text == text[..i] + part + text[i + |part|..];
    }
    if exists before, after :: text == before + part + after {
      var before, after :| text == before + part + after;
      assert PartAt(text, part, |before|);
    }
  }

  // ---- the rows ----

  ghost predicate Sane(s: Execution) {
    RunInv(s) && RowsInv(s)
  }

  ghost predicate NoJournal(s: Execution) {
    forall i :: 0 <= i < |s.agents| ==> s.agents[i].kind != PullRequest
  }

  ghost predicate JournalledAs(s: Execution, j: nat, p: Publication) {
    j < |s.agents| && s.agents[j].kind == PullRequest && s.agents[j].input.publication == Some(p)
    && Chained(s, p.review, p.diffHash)
  }

  predicate OthersMay(step: Step) {
    !step.WriteJournal? && !step.ClosePublication? && !step.FailPublication?
  }

  lemma SaneNext(s: Execution, step: Step)
    requires Sane(s)
    ensures Sane(Next(s, step)) && (NoJournal(s) && !step.WriteJournal? ==> NoJournal(Next(s, step)))
  {
    NextKeeps(s, step);
    NextRows(s, step);
    AppendedKinds(s, step);
    var t := Next(s, step);
    if NoJournal(s) && !step.WriteJournal? {
      forall i | 0 <= i < |t.agents| ensures t.agents[i].kind != PullRequest {
        if i < |s.agents| { assert Evolves(s.agents[i], t.agents[i]); }
      }
    }
  }

  lemma JournalledNext(s: Execution, step: Step, j: nat, p: Publication)
    requires Sane(s) && JournalledAs(s, j, p)
    ensures JournalledAs(Next(s, step), j, p)
  {
    NextRows(s, step);
    ChainNext(s, step, p.review, p.diffHash);
    assert Evolves(s.agents[j], Next(s, step).agents[j]);
  }

  lemma TheJournal(s: Execution, j: nat)
    requires Sane(s) && j < |s.agents| && s.agents[j].kind == PullRequest
    ensures JournalOf(s.agents) == Some(j)
  {
  }

  // The journal is written once, and from then on only accepted for the very same publication.
  lemma JournalWritten(s: Execution, p: Publication)
    requires Sane(s) && Chained(s, p.review, p.diffHash)
    ensures var w := Journal(s, p);
      w.Journaled? ==> Sane(w.state) && JournalledAs(w.state, w.journal, p)
  {
    var w := Journal(s, p);
    if w.Journaled? && JournalOf(s.agents).None? {
      SaneNext(s, WriteJournal(p));
      ChainNext(s, WriteJournal(p), p.review, p.diffHash);
    }
  }

  lemma CloseIsNext(s: Execution, record: Option<PublishedPR>, j: nat, remote: PublishedPR)
    requires RunInv(s) && JournalOf(s.agents) == Some(j)
    ensures Next(s, ClosePublication(record, remote)) == RecordPublished(s, record, j, remote).state
  {
  }

  lemma FailureIsNext(s: Execution, j: nat, code: PublicationError)
    requires RunInv(s) && JournalOf(s.agents) == Some(j)
    ensures Next(s, FailPublication(code)) == RecordFailure(s, j, code)
  {
    var step := FailPublication(code);
    assert ReviewStep(step) && !SchedulingStep(step) && !CodingStep(step) && !TestStep(step) && !RepairStep(step);
    assert Next(s, step) == NextReview(s, step);
  }

  lemma JournalStep(s: Execution, step: Step, j: nat, p: Publication)
    requires Sane(s) && JournalledAs(s, j, p)
    ensures Sane(Next(s, step)) && JournalledAs(Next(s, step), j, p)
  {
    SaneNext(s, step);
    JournalledNext(s, step, j, p);
  }

  lemma JournalClosed(s: Execution, record: Option<PublishedPR>, j: nat, p: Publication, remote: PublishedPR)
    requires Sane(s) && JournalledAs(s, j, p)
    ensures var t := RecordPublished(s, record, j, remote).state;
      Sane(t) && JournalledAs(t, j, p)
  {
    TheJournal(s, j);
    CloseIsNext(s, record, j, remote);
    JournalStep(s, ClosePublication(record, remote), j, p);
  }

  lemma JournalFailed(s: Execution, j: nat, p: Publication, code: PublicationError)
    requires Sane(s) && JournalledAs(s, j, p)
    ensures var t := RecordFailure(s, j, code);
      Sane(t) && JournalledAs(t, j, p)
  {
    TheJournal(s, j);
    FailureIsNext(s, j, code);
    JournalStep(s, FailPublication(code), j, p);
  }

  // ---- the remote repository ----

  // Everything created was created for this publication: the branch at most once and once more for
  // each time others deleted it, a pull request at most once and once more for each one that others
  // retargeted.
  ghost predicate Covered(p: Publication, pushed: seq<(Ref, string)>, created: seq<Pull>, remote: Remote) {
    (forall b :: b in pushed ==> b == (RefOf(p), p.commit))
    && |pushed| <= BranchCredit(remote.branches, remote.deleted, p)
    && (forall pull :: pull in created ==> Targets(pull, p))
    && |created| <= PullCredit(remote.pulls, remote.retargeted, p)
  }

  // Where the search finds nothing, every pull request created so far was retargeted.
  lemma AllRetargeted(p: Publication, pushed: seq<(Ref, string)>, created: seq<Pull>, remote: Remote)
    requires Covered(p, pushed, created, remote) && Found(remote.pulls, p) == []
    ensures |created| <= |Found(remote.retargeted, p)|
  {
    FoundSome(remote.pulls, p);
  }

  // The check clears publication, on review c.0 and diff c.1.
  ghost predicate ClearedAs(s: Execution, required: seq<string>, c: (nat, Digest)) {
    forall u {:trigger UnfoldPublication(u)} :: UnfoldPublication(u) ==>
      WellFormed(s) && Check(s, required).Cleared? && Check(s, required).review == c.0
      && Check(s, required).decision.diffHash == Some(c.1)
  }

  ghost predicate Agree(record: Option<PublishedPR>, reported: seq<PublishedPR>) {
    forall r :: r in reported ==> record.Some? && r.number == record.value.number && r.url == record.value.url
  }

  // A reported pull request is one of the remote ones from the branch of the publication; its base was
  // the right one when it was looked at.
  ghost predicate IsPullFor(pulls: seq<Pull>, pr: PublishedPR, p: Publication) {
    1 <= pr.number <= |pulls|
    && var pull := pulls[pr.number - 1];
       Ref(pull.owner, pull.repository, pull.head) == RefOf(p) && pull.url == pr.url
  }

  // A record, once made, stays that of the same pull request.
  ghost predicate Steady(before: Option<PublishedPR>, after: Option<PublishedPR>) {
    before.Some? ==> after.Some? && after.value.number == before.value.number && after.value.url == before.value.url
  }

  ghost predicate Listed(pulls: seq<Pull>, pull: Pull, p: Publication) {
    Targets(pull, p) && 1 <= pull.number <= |pulls| && SameIdentity(pull, pulls[pull.number - 1])
  }

  datatype PublishOutcome = PublishedAs(pr: PublishedPR) | Unpublished(error: PublicationError) | Crashed

  class PullRequestService {
    const store: ExecutionStore
    const records: PublicationRecords
    const github: GitHub
    const allowed: set<string>
    // the branch name, the body marker and the page of a pull request, fixed by the execution and the host
    const branch: string
    const marker: string
    const urlOf: (string, string, nat) -> string
    const world: PublishWorld
    var turn: nat
    ghost var reported: seq<PublishedPR>

    constructor (
      records: PublicationRecords, github: GitHub, allowed: set<string>, branch: string, marker: string,
      urlOf: (string, string, nat) -> string, world: PublishWorld)
      requires records.Valid() && Sane(records.store.View()) && NoJournal(records.store.View()) && records.record.None?
      requires Numbered(github.pulls) && github.pushed == [] && github.created == []
      ensures this.records == records && this.github == github && store == records.store && reported == [] && Idle()
    {
      store := records.store;
      this.records, this.github, this.allowed := records, github, allowed;
      this.branch, this.marker, this.urlOf, this.world := branch, marker, urlOf, world;
      turn, reported := 0, [];
    }

    ghost predicate Wired() {
      records.store == store && records.reviews.store == store
    }

    // Nothing journalled yet, and nothing created. Kept folded, like the next ones.
    ghost predicate Idle()
      reads this, store, records, github
    {
      Wired() && IdleRows() && IdleRemote()
    }

    ghost predicate IdleRows()
      reads store
    {
      forall u {:trigger UnfoldPublication(u)} :: UnfoldPublication(u) ==> Sane(store.View()) && NoJournal(store.View())
    }

    ghost predicate IdleRemote()
      reads this, records, github
    {
      forall u {:trigger UnfoldPublication(u)} :: UnfoldPublication(u) ==>
        Numbered(github.pulls) && github.pushed == [] && github.created == [] && records.record.None? && reported == []
    }

    ghost predicate RowsHold(j: nat, p: Publication)
      reads store
    {
      forall u {:trigger UnfoldPublication(u)} :: UnfoldPublication(u) ==> Sane(store.View()) && JournalledAs(store.View(), j, p)
    }

    ghost predicate RemoteHolds(p: Publication)
      reads this, records, github
    {
      forall u {:trigger UnfoldPublication(u)} :: UnfoldPublication(u) ==>
        Numbered(github.pulls) && Covered(p, github.pushed, github.created, github.View())
        && Agree(records.record, reported)
    }

    // The journal holds p; what has been created was created for p and is accounted for; every report agrees with the record.
    ghost predicate Holds(j: nat, p: Publication)
      reads this, store, records, github
    {
      Wired() && RowsHold(j, p) && RemoteHolds(p)
    }

    // Where the publication stands: not journalled, or journalled as `m` says.
    ghost predicate At(m: Option<(nat, Publication)>)
      reads this, store, records, github
    {
      if m.None? then Idle() else Holds(m.value.0, m.value.1)
    }

    ghost predicate Inv()
      reads this, store, records, github
    {
      exists m :: At(m)
    }

    // Others get their turn, on the rows and on the remote repository.
    method Pause(j: nat, p: Publication) returns (now: nat)
      requires Holds(j, p)
      modifies this`turn, store, github`branches, github`pulls, github`deleted, github`retargeted
      ensures Holds(j, p) && PullsKept(old(github.pulls), github.pulls)
      ensures |Found(github.retargeted, p)| >= |Found(old(github.retargeted), p)|
      ensures now == old(turn) && turn == now + 1
      ensures world.changes(now) == [] ==> github.View() == old(github.View())
    {
      now := turn;
      turn := turn + 1;
      OthersWork(world.others(now), j, p);
      OthersChange(world.changes(now), p);
    }

    method OthersWork(steps: seq<Step>, j: nat, p: Publication)
      requires RowsHold(j, p)
      modifies store
      ensures RowsHold(j, p)
    {
      var i := 0;
      while i < |steps|
        invariant RowsHold(j, p)
      {
        assert UnfoldPublication(true);
        if OthersMay(steps[i]) {
          ghost var s := store.View();
          Perform(store, steps[i]);
          JournalStep(s, steps[i], j, p);
        }
        i := i + 1;
      }
    }

    method OthersChange(changes: seq<Change>, p: Publication)
      requires RemoteHolds(p)
      modifies github`branches, github`pulls, github`deleted, github`retargeted
      ensures RemoteHolds(p) && PullsKept(old(github.pulls), github.pulls)
      ensures |Found(github.retargeted, p)| >= |Found(old(github.retargeted), p)|
      ensures changes == [] ==> github.View() == old(github.View())
    {
      assert UnfoldPublication(true);
      github.Disturb(changes);
    }

    // From now on no call is lost, nobody else touches the repository, and a new pull request shows
    // the pushed commit under its proper page.
    ghost predicate CalmAt(t: nat, p: Publication) {
      world.fates(t) == Works && world.changes(t) == [] && world.shas(t) == p.commit
      && forall n: nat :: world.urls(t, n) == urlOf(p.owner, p.repository, n)
    }

    ghost predicate Calm(p: Publication)
      reads this`turn
    {
      forall t: nat :: t >= turn ==> CalmAt(t, p)
    }

    method EnsureBranch(j: nat, p: Publication) returns (r: Attempt<()>)
      requires Holds(j, p)
      modifies this`turn, store, github`branches, github`pulls, github`deleted, github`retargeted, github`pushed
      ensures Holds(j, p) && PullsKept(old(github.pulls), github.pulls) && turn >= old(turn)
      ensures old(Calm(p)) && (RefOf(p) in old(github.branches) ==> old(github.branches)[RefOf(p)] == p.commit) ==>
        r.Success? && github.pulls == old(github.pulls)
      ensures old(Calm(p)) && RefOf(p) in old(github.branches) && old(github.branches)[RefOf(p)] != p.commit ==>
        r == Fails(RemoteBranchCollision)
      ensures r.Success? ==> RefOf(p) in github.branches
      // the branch is pushed exactly if it is not there
      ensures old(Calm(p)) ==> github.pushed == old(github.pushed) + PushDue(p, old(github.branches))
      ensures old(Calm(p)) ==> github.deleted == old(github.deleted) && github.retargeted == old(github.retargeted)
      ensures github.pushed == old(github.pushed) || github.pushed == old(github.pushed) + [(RefOf(p), p.commit)]
    {
      var now := Pause(j, p);
      assert old(Calm(p)) ==> CalmAt(now, p);
      var answer := github.GetBranch(p, world.fates(now));
      if !answer.Answer? {
        return Broken(answer);
      }
      if answer.value.Some? {
        return if answer.value.value == p.commit then Success(()) else Fails(RemoteBranchCollision);
      }
      r := CreateBranch(j, p);
    }

    method CreateBranch(j: nat, p: Publication) returns (r: Attempt<()>)
      requires Holds(j, p)
      modifies this`turn, store, github`branches, github`pulls, github`deleted, github`retargeted, github`pushed
      ensures Holds(j, p) && PullsKept(old(github.pulls), github.pulls) && turn >= old(turn)
      ensures r.Success? ==> RefOf(p) in github.branches
      ensures github.pushed == old(github.pushed) || github.pushed == old(github.pushed) + [(RefOf(p), p.commit)]
      ensures old(Calm(p)) ==> github.pushed == old(github.pushed) + PushDue(p, old(github.branches))
      ensures old(Calm(p)) ==>
        github.pulls == old(github.pulls) && github.deleted == old(github.deleted) && github.retargeted == old(github.retargeted)
      ensures old(Calm(p)) && RefOf(p) !in old(github.branches) ==> r.Success?
    {
      var now := Pause(j, p);
      assert old(Calm(p)) ==> CalmAt(now, p);
      r := PushBranch(p, world.fates(now));
    }

    // What an attempt that finds the repository like this has to add to it.
    function PushDue(p: Publication, branches: map<Ref, string>): seq<(Ref, string)> {
      if RefOf(p) in branches then [] else [(RefOf(p), p.commit)]
    }

    function PullsDue(p: Publication, pulls: seq<Pull>): nat {
      if Found(pulls, p) == [] then 1 else 0
    }

    method PushBranch(p: Publication, fate: Fate) returns (r: Attempt<()>)
      requires RemoteHolds(p)
      modifies github`branches, github`pushed
      ensures RemoteHolds(p)
      ensures fate == Works && RefOf(p) !in old(github.branches) ==> r.Success?
      ensures github.pushed == old(github.pushed) + if TakesEffect(fate) then PushDue(p, old(github.branches)) else []
      ensures r.Success? ==> RefOf(p) in github.branches && github.branches[RefOf(p)] == p.commit
    {
      assert UnfoldPublication(true);
      var done := github.Push(p, fate);
      r := if done.Answer? then Success(()) else Broken(done);
    }

    // A call without an answer is an error to retry; a dead process reports nothing.
    function Broken<T, U>(reply: Reply<T>): Attempt<U>
      requires !reply.Answer?
    {
      if reply.Died? then Crashes else Fails(RetryRequired)
    }

    // The pull request of the publication, if there is exactly one; closed ones count.
    method FindPull(j: nat, p: Publication) returns (r: Attempt<Option<Pull>>)
      requires Holds(j, p)
      modifies this`turn, store, github`branches, github`pulls, github`deleted, github`retargeted
      ensures Holds(j, p) && turn >= old(turn)
      ensures r.Success? && r.value.Some? ==> Listed(github.pulls, r.value.value, p)
      ensures r.Success? && r.value.None? ==> |github.created| <= |Found(github.retargeted, p)|
      ensures old(Calm(p)) && |Found(old(github.pulls), p)| == 1 ==> r == Success(Some(Found(old(github.pulls), p)[0]))
      ensures old(Calm(p)) && Found(old(github.pulls), p) == [] ==> r == Success(None)
      ensures old(Calm(p)) ==> github.View() == old(github.View())
      ensures old(Calm(p)) && |Found(old(github.pulls), p)| > 1 ==> r == Fails(PullRequestCollision)
    {
      var now := Pause(j, p);
      assert old(Calm(p)) ==> CalmAt(now, p);
      var found := github.Find(p, world.fates(now));
      if !found.Answer? {
        return Broken(found);
      }
      r := Choose(p, found.value);
    }

    method Choose(p: Publication, found: seq<Pull>) returns (r: Attempt<Option<Pull>>)
      requires RemoteHolds(p) && found == Found(github.pulls, p)
      ensures r.Success? && r.value.Some? ==> Listed(github.pulls, r.value.value, p)
      ensures r.Success? && r.value.None? ==> |github.created| <= |Found(github.retargeted, p)|
      ensures r == if |found| > 1 then Fails(PullRequestCollision) else if found == [] then Success(None) else Success(Some(found[0]))
    {
      if |found| > 1 {
        return Fails(PullRequestCollision);
      }
      assert UnfoldPublication(true);
      if found != [] {
        FoundNumber(github.pulls, p, found[0]);
        return Success(Some(found[0]));
      }
      AllRetargeted(p, github.pushed, github.created, github.View());
      r := Success(None);
    }

    // The one that is there, or a new one.
    method EnsurePull(j: nat, p: Publication) returns (r: Attempt<Pull>)
      requires Holds(j, p)
      modifies this`turn, store, github`branches, github`pulls, github`deleted, github`retargeted, github`created
      ensures Holds(j, p) && turn >= old(turn)
      ensures r.Success? ==> Listed(github.pulls, r.value, p)
      ensures old(Calm(p)) && |Found(old(github.pulls), p)| == 1 ==> r == Success(Found(old(github.pulls), p)[0])
      ensures old(Calm(p)) && Found(old(github.pulls), p) == [] ==>
        r.Success? && Proper(r.value, p) && github.pulls == old(github.pulls) + [r.value]
      // a pull request is created exactly if none is found
      ensures old(Calm(p)) ==> |github.created| == |old(github.created)| + PullsDue(p, old(github.pulls))
      ensures old(Calm(p)) ==> github.retargeted == old(github.retargeted)
      ensures github.created == old(github.created)
        || exists pull :: Targets(pull, p) && github.created == old(github.created) + [pull]
    {
      var found := FindPull(j, p);
      if !found.Success? {
        return if found.Crashes? then Crashes else Fails(found.error);
      }
      if found.value.Some? {
        return Success(found.value.value);
      }
      var now := Pause(j, p);
      assert old(Calm(p)) ==> CalmAt(now, p);
      r := CreatePull(p, now);
    }

    predicate Proper(pull: Pull, p: Publication) {
      pull.sha == p.commit && pull.body == p.body && pull.url == urlOf(p.owner, p.repository, pull.number)
    }

    predicate Genuine(pull: Pull, p: Publication) {
      pull.sha == p.commit && pull.url == urlOf(p.owner, p.repository, pull.number) && Contains(pull.body, marker)
    }

    ghost function NewPull(p: Publication, now: nat, number: nat): Pull {
      Pull(number, p.owner, p.repository, p.branch, p.base, world.shas(now), p.body, world.urls(now, number), true)
    }

    method CreatePull(p: Publication, now: nat) returns (r: Attempt<Pull>)
      requires RemoteHolds(p) && |github.created| <= |Found(github.retargeted, p)|
      modifies github`pulls, github`created
      ensures RemoteHolds(p)
      ensures r.Success? ==> Listed(github.pulls, r.value, p)
      ensures CalmAt(now, p) ==> r.Success? && Proper(r.value, p) && github.pulls == old(github.pulls) + [r.value]
      ensures if TakesEffect(world.fates(now)) then exists pull :: Targets(pull, p) && github.created == old(github.created) + [pull]
              else github.created == old(github.created)
    {
      assert UnfoldPublication(true);
      AppendedPull(github.pulls, NewPull(p, now, |github.pulls| + 1), p);
      var made := github.Create(p, world.shas(now), world.urls(now, |github.pulls| + 1), world.fates(now));
      r := if made.Answer? then Success(made.value) else Broken(made);
    }

    // `_remote_pr`: the pull request must be that of this publication, unchanged.
    method CheckPull(pull: Pull, p: Publication) returns (r: Attempt<PublishedPR>)
      ensures r.Success? ==>
        r.value == PublishedPR(pull.number, pull.url, pull.open) && Targets(pull, p) && pull.sha == p.commit
        && Contains(pull.body, marker) && pull.url == urlOf(p.owner, p.repository, pull.number)
      ensures r.Fails? ==> r.error == PullRequestCollision || r.error == InvalidPullRequest
      ensures !r.Crashes? && (Targets(pull, p) && Genuine(pull, p) ==> r.Success?)
    {
      if pull.head != p.branch || pull.sha != p.commit || pull.base != p.base || pull.owner != p.owner
         || pull.repository != p.repository || !Contains(pull.body, marker) {
        return Fails(PullRequestCollision);
      }
      if pull.url != urlOf(p.owner, p.repository, pull.number) {
        return Fails(InvalidPullRequest);
      }
      r := Success(PublishedPR(pull.number, pull.url, pull.open));
    }

    // The record of the pull request and the end of the journal, in one transaction.
    method Record(j: nat, p: Publication, remote: PublishedPR) returns (r: Attempt<PublishedPR>)
      requires Holds(j, p)
      modifies this`turn, this`reported, store, records`record, github`branches, github`pulls, github`deleted, github`retargeted
      ensures Holds(j, p) && turn >= old(turn) && PullsKept(old(github.pulls), github.pulls)
      ensures Steady(old(records.record), records.record)
      ensures r.Success? ==> r.value == remote && reported == old(reported) + [remote] && records.record == Some(remote) && Done(j, remote)
      ensures !r.Success? ==> reported == old(reported)
      ensures old(Calm(p)) && Steady(old(records.record), Some(remote)) ==> r.Success?
    {
      var now := Pause(j, p);
      assert old(Calm(p)) ==> CalmAt(now, p);
      var fate := world.fates(now);
      if !TakesEffect(fate) {
        return if fate == Unsent then Fails(RetryRequired) else Crashes;
      }
      var done := Commit(j, p, remote);
      if done.NotPublished? {
        return Fails(done.error);
      }
      if fate != Works {
        return if fate == Unanswered then Fails(RetryRequired) else Crashes;
      }
      r := Report(p, remote);
    }

    method Report(p: Publication, remote: PublishedPR) returns (r: Attempt<PublishedPR>)
      requires RemoteHolds(p) && records.record == Some(remote)
      modifies this`reported
      ensures RemoteHolds(p) && r == Success(remote) && reported == old(reported) + [remote]
    {
      assert UnfoldPublication(true);
      reported := reported + [remote];
      r := Success(remote);
    }

    // The journal is closed with this pull request.
    ghost predicate Done(j: nat, pr: PublishedPR)
      reads store
    {
      j < |store.agents| && store.agents[j].status == AgentCompleted && store.agents[j].output.pullRequest == Some(pr)
    }

    method Commit(j: nat, p: Publication, remote: PublishedPR) returns (r: PublicationResult)
      requires Holds(j, p)
      modifies store, records`record
      ensures Holds(j, p) && Steady(old(records.record), records.record)
      ensures store.View() == RecordPublished(old(store.View()), old(records.record), j, remote).state
      ensures r.Published? ==> records.record == Some(remote) && Done(j, remote)
      ensures Steady(old(records.record), Some(remote)) ==> r.Published?
    {
      assert UnfoldPublication(true);
      JournalClosed(store.View(), records.record, j, p, remote);
      r := records.Finish(j, remote);
    }

    // What an earlier attempt may have left behind: the branch at the commit or not at all, no pull
    // request or the one that the record, if there is one, names.
    ghost predicate Reconcilable(p: Publication)
      reads records, github
    {
      (RefOf(p) in github.branches ==> github.branches[RefOf(p)] == p.commit) && Acceptable(p)
    }

    ghost predicate Acceptable(p: Publication)
      reads records, github
    {
      var found := Found(github.pulls, p);
      (found == [] && records.record.None? && Contains(p.body, marker))
      || (|found| == 1 && Genuine(found[0], p)
          && Steady(records.record, Some(PublishedPR(found[0].number, found[0].url, found[0].open))))
    }

    // The remote protocol: look, create what is missing, check what is there, record it.
    method Reconcile(j: nat, p: Publication) returns (r: Attempt<PublishedPR>)
      requires Holds(j, p)
      modifies this`turn, this`reported, store, records`record, github
      ensures Holds(j, p) && Steady(old(records.record), records.record)
      ensures r.Success? ==> reported == old(reported) + [r.value] && IsPullFor(github.pulls, r.value, p)
      ensures !r.Success? ==> reported == old(reported)
      ensures r.Success? ==> Done(j, r.value)
      ensures old(Calm(p) && Reconcilable(p)) ==> r.Success?
      ensures old(Calm(p) && Reconcilable(p)) ==> github.pushed == old(github.pushed) + PushDue(p, old(github.branches))
      ensures old(Calm(p) && Reconcilable(p)) ==> |github.created| == |old(github.created)| + PullsDue(p, old(github.pulls))
    {
      var ensured := EnsureBranch(j, p);
      if !ensured.Success? {
        return if ensured.Crashes? then Crashes else Fails(ensured.error);
      }
      r := Submit(j, p);
    }

    // The pull request, once the branch is there.
    method Submit(j: nat, p: Publication) returns (r: Attempt<PublishedPR>)
      requires Holds(j, p)
      modifies this`turn, this`reported, store, records`record, github
      ensures Holds(j, p) && Steady(old(records.record), records.record) && github.pushed == old(github.pushed)
      ensures r.Success? ==> reported == old(reported) + [r.value] && IsPullFor(github.pulls, r.value, p) && Done(j, r.value)
      ensures !r.Success? ==> reported == old(reported)
      ensures old(Calm(p) && Acceptable(p)) ==> r.Success?
      ensures old(Calm(p)) ==> |github.created| == |old(github.created)| + PullsDue(p, old(github.pulls))
    {
      var pull := EnsurePull(j, p);
      if !pull.Success? {
        return if pull.Crashes? then Crashes else Fails(pull.error);
      }
      var remote := CheckPull(pull.value, p);
      if !remote.Success? {
        return if remote.Crashes? then Crashes else Fails(remote.error);
      }
      r := Record(j, p, remote.value);
    }

    // The journal ends with this failure, and is failed unless it was published before.
    ghost predicate Noted(j: nat, code: PublicationError)
      reads store
    {
      j < |store.agents| && store.agents[j].status in {AgentFailed, AgentCompleted}
      && var failures := store.agents[j].output.failures;
         failures != [] && failures[|failures| - 1] == code
    }

    // The failure is noted in the journal, as far as the database can be reached.
    method NoteFailure(j: nat, p: Publication, code: PublicationError) returns (outcome: PublishOutcome)
      requires Holds(j, p)
      modifies this`turn, store, github`branches, github`pulls, github`deleted, github`retargeted
      ensures Holds(j, p) && !outcome.PublishedAs?
      ensures TakesEffect(world.fates(old(turn))) ==> Noted(j, code)
      ensures outcome == match world.fates(old(turn))
        case Works => Unpublished(code)
        case Unsent => Unpublished(JournalUnavailable)
        case Unanswered => Unpublished(JournalUnavailable)
        case _ => Crashed
    {
      var now := Pause(j, p);
      var fate := world.fates(now);
      if TakesEffect(fate) {
        WriteFailure(j, p, code);
      }
      match fate
      case Works => outcome := Unpublished(code);
      case Unsent => outcome := Unpublished(JournalUnavailable);
      case Unanswered => outcome := Unpublished(JournalUnavailable);
      case _ => outcome := Crashed;
    }

    method WriteFailure(j: nat, p: Publication, code: PublicationError)
      requires Holds(j, p)
      modifies store
      ensures Holds(j, p) && j < |old(store.agents)| && store.View() == RecordFailure(old(store.View()), j, code)
      ensures Noted(j, code)
    {
      assert UnfoldPublication(true);
      JournalFailed(store.View(), j, p, code);
      var _ := records.Failed(j, code);
    }

    method Exchange(j: nat, p: Publication) returns (outcome: PublishOutcome)
      requires Holds(j, p)
      modifies this`turn, this`reported, store, records`record, github
      ensures Holds(j, p) && Steady(old(records.record), records.record)
      ensures outcome.PublishedAs? ==> reported == old(reported) + [outcome.pr] && IsPullFor(github.pulls, outcome.pr, p)
      ensures !outcome.PublishedAs? ==> reported == old(reported)
      ensures outcome.PublishedAs? ==> Done(j, outcome.pr)
      ensures outcome.Unpublished? ==> outcome.error == JournalUnavailable || Noted(j, outcome.error)
      ensures old(Calm(p) && Reconcilable(p)) ==> outcome.PublishedAs?
      ensures old(Calm(p) && Reconcilable(p)) ==> github.pushed == old(github.pushed) + PushDue(p, old(github.branches))
      ensures old(Calm(p) && Reconcilable(p)) ==> |github.created| == |old(github.created)| + PullsDue(p, old(github.pulls))
    {
      var r := Reconcile(j, p);
      match r
      case Success(pr) => outcome := PublishedAs(pr);
      case Crashes => outcome := Crashed;
      case Fails(code) => outcome := NoteFailure(j, p, code);
    }

    // ---- up to the journal ----

    ghost predicate RowsAt(m: Option<(nat, Publication)>)
      reads store
    {
      if m.None? then IdleRows() else RowsHold(m.value.0, m.value.1)
    }

    ghost predicate RemoteAt(m: Option<(nat, Publication)>)
      reads this, records, github
    {
      if m.None? then IdleRemote() else RemoteHolds(m.value.1)
    }

    // The clearance c, if there is one yet, still has its evidence.
    ghost predicate Backed(c: Option<(nat, Digest)>)
      reads store
    {
      forall u {:trigger UnfoldPublication(u)} :: UnfoldPublication(u) ==>
        Sane(store.View()) && (c.Some? ==> Chained(store.View(), c.value.0, c.value.1))
    }

    method Wait(ghost m: Option<(nat, Publication)>, ghost c: Option<(nat, Digest)>) returns (now: nat)
      requires At(m) && Backed(c)
      modifies this`turn, store, github`branches, github`pulls, github`deleted, github`retargeted
      ensures At(m) && Backed(c)
      ensures now == old(turn) && turn == now + 1
      ensures world.changes(now) == [] ==> github.View() == old(github.View())
      ensures world.others(now) == [] ==> store.View() == old(store.View())
    {
      now := turn;
      turn := turn + 1;
      OthersWait(world.others(now), m, c);
      OthersMeddle(world.changes(now), m);
    }

    method OthersWait(steps: seq<Step>, ghost m: Option<(nat, Publication)>, ghost c: Option<(nat, Digest)>)
      requires RowsAt(m) && Backed(c)
      modifies store
      ensures RowsAt(m) && Backed(c)
      ensures steps == [] ==> store.View() == old(store.View())
    {
      var i := 0;
      while i < |steps|
        invariant RowsAt(m) && Backed(c)
        invariant steps == [] ==> store.View() == old(store.View())
      {
        if OthersMay(steps[i]) {
          OtherWaits(steps[i], m, c);
        }
        i := i + 1;
      }
    }

    method OtherWaits(step: Step, ghost m: Option<(nat, Publication)>, ghost c: Option<(nat, Digest)>)
      requires RowsAt(m) && Backed(c) && OthersMay(step)
      modifies store
      ensures RowsAt(m) && Backed(c)
    {
      assert UnfoldPublication(true);
      ghost var s := store.View();
      Perform(store, step);
      SaneNext(s, step);
      if m.Some? { JournalledNext(s, step, m.value.0, m.value.1); }
      if c.Some? { ChainNext(s, step, c.value.0, c.value.1); }
    }

    method OthersMeddle(changes: seq<Change>, ghost m: Option<(nat, Publication)>)
      requires RemoteAt(m)
      modifies github`branches, github`pulls, github`deleted, github`retargeted
      ensures RemoteAt(m)
      ensures changes == [] ==> github.View() == old(github.View())
    {
      assert UnfoldPublication(true);
      github.Disturb(changes);
    }

    // `check`, as far as the database can be reached.
    method Clear(required: seq<string>, now: nat, ghost m: Option<(nat, Publication)>, ghost p: Publication)
      returns (r: Attempt<(nat, Digest)>)
      requires At(m)
      ensures r.Success? ==> Backed(Some(r.value))
      ensures world.fates(now) == Works && ClearedAs(store.View(), required, (p.review, p.diffHash)) ==>
        r == Success((p.review, p.diffHash))
    {
      assert UnfoldPublication(true);
      if world.fates(now) != Works {
        return if world.fates(now) == Unsent || world.fates(now) == Unanswered then Fails(StoreUnavailable) else Crashes;
      }
      var c := records.CheckEvidence(required);
      if c.NotCleared? {
        return Fails(c.error);
      }
      ClearedIsChained(store.View(), required);
      r := Success((c.review, c.decision.diffHash.value));
    }

    // The workspace shows the approved diff, and the stored repository and Git give what is to be published.
    method Draft(now: nat, c: (nat, Digest), ghost p: Publication) returns (r: Attempt<Publication>)
      ensures r.Success? ==> r.value.review == c.0 && r.value.diffHash == c.1 && DraftsAt(now, r.value)
      ensures DraftsAt(now, p) && c == (p.review, p.diffHash) ==> r == Success(p)
    {
      var diff, source := world.diffs(now), world.sources(now);
      if diff.None? {
        return Fails(GitFailed);
      }
      if diff.value == "" || Sha256(diff.value) != c.1 {
        return Fails(PublicationWorkspaceChanged);
      }
      if world.secrets(now) {
        return Fails(ContainsSecret);
      }
      if !source.named {
        return Fails(InvalidRepository);
      }
      if branch == source.base {
        return Fails(DefaultBranchForbidden);
      }
      if !source.trusted {
        return Fails(InvalidRepository);
      }
      var prepared := world.prepared(now);
      if prepared.None? {
        return Fails(GitFailed);
      }
      var q := prepared.value;
      r := Success(Publication(
        c.0, source.owner, source.repository, source.base, branch, q.parent, q.commit, Sha256(diff.value), q.title, q.body));
    }

    // The outside world gives p again.
    ghost predicate DraftsAt(t: nat, p: Publication) {
      world.diffs(t).Some? && world.diffs(t).value != "" && Sha256(world.diffs(t).value) == p.diffHash
      && !world.secrets(t) && world.sources(t) == Source(p.owner, p.repository, p.base, true, true)
      && p.branch == branch && branch != p.base
      && world.prepared(t) == Some(Prepared(p.parent, p.commit, p.title, p.body))
    }

    // From now on every call works, nobody interferes, and everything leads to p again.
    ghost predicate RepeatsAt(t: nat, p: Publication) {
      world.fates(t) == Works && world.others(t) == [] && world.changes(t) == [] && DraftsAt(t, p)
    }

    ghost predicate Repeats(required: seq<string>, p: Publication)
      reads this`turn, store
    {
      (forall n :: n in required ==> n in allowed) && ClearedAs(store.View(), required, (p.review, p.diffHash))
      && forall t: nat :: t >= turn ==> RepeatsAt(t, p)
    }

    lemma StartsUnbacked(m: Option<(nat, Publication)>)
      requires At(m)
      ensures Backed(None)
    {
      assert UnfoldPublication(true);
    }

    // The last look before the first write.
    method Recheck(required: seq<string>, p: Publication, diff: Option<string>, ghost m: Option<(nat, Publication)>)
      returns (r: Attempt<Publication>)
      requires At(m) && Backed(Some((p.review, p.diffHash))) && diff.Some?
      modifies this`turn, store, github`branches, github`pulls, github`deleted, github`retargeted
      ensures At(m) && Backed(Some((p.review, p.diffHash))) && turn >= old(turn)
      ensures r.Success? ==> r.value == p && world.diffs(old(turn)) == diff && !world.secrets(old(turn))
      ensures old(Repeats(required, p)) && Sha256(diff.value) == p.diffHash ==>
        r == Success(p) && github.View() == old(github.View())
    {
      var now := Wait(m, Some((p.review, p.diffHash)));
      assert old(Repeats(required, p)) ==> RepeatsAt(now, p);
      if world.secrets(now) {
        return Fails(ContainsSecret);
      }
      if world.diffs(now) != diff {
        return Fails(PublicationWorkspaceChanged);
      }
      var checked := Clear(required, now, m, p);
      if !checked.Success? {
        return if checked.Crashes? then Crashes else Fails(checked.error);
      }
      r := Success(p);
    }

    // Everything before the first write: the evidence is checked, the publication drafted, and both
    // the workspace and the evidence are looked at again.
    method Plan(required: seq<string>, ghost m: Option<(nat, Publication)>, ghost p: Publication)
      returns (r: Attempt<Publication>)
      requires At(m)
      modifies this`turn, store, github`branches, github`pulls, github`deleted, github`retargeted
      ensures At(m) && turn >= old(turn)
      ensures r.Success? ==> Backed(Some((r.value.review, r.value.diffHash))) && DraftsAt(old(turn) + 1, r.value)
      ensures r.Success? ==> world.diffs(old(turn) + 2) == world.diffs(old(turn) + 1)
      ensures r.Success? ==> forall n :: n in required ==> n in allowed
      ensures old(Repeats(required, p)) ==>
        r == Success(p) && github.View() == old(github.View())
    {
      if exists n | n in required :: n !in allowed {
        return Fails(CommandDisabled);
      }
      StartsUnbacked(m);
      var now := Wait(m, None);
      assert old(Repeats(required, p)) ==> RepeatsAt(now, p);
      var checked := Clear(required, now, m, p);
      if !checked.Success? {
        return if checked.Crashes? then Crashes else Fails(checked.error);
      }
      r := PlanFor(required, checked.value, m, p);
    }

    method PlanFor(required: seq<string>, c: (nat, Digest), ghost m: Option<(nat, Publication)>, ghost p: Publication)
      returns (r: Attempt<Publication>)
      requires At(m) && Backed(Some(c))
      modifies this`turn, store, github`branches, github`pulls, github`deleted, github`retargeted
      ensures At(m) && turn >= old(turn)
      ensures r.Success? ==> Backed(Some((r.value.review, r.value.diffHash))) && DraftsAt(old(turn), r.value)
      ensures r.Success? ==> world.diffs(old(turn) + 1) == world.diffs(old(turn)) && c == (r.value.review, r.value.diffHash)
      ensures old(Repeats(required, p)) && c == (p.review, p.diffHash) ==>
        r == Success(p) && github.View() == old(github.View())
    {
      var now := Wait(m, Some(c));
      assert old(Repeats(required, p)) ==> RepeatsAt(now, p);
      var drafted := Draft(now, c, p);
      if !drafted.Success? {
        return drafted;
      }
      r := Recheck(required, drafted.value, world.diffs(now), m);
    }

    // The journal comes before every remote write: it is new, or it already holds exactly this publication.
    method OpenJournal(p: Publication, ghost m: Option<(nat, Publication)>) returns (j: Option<nat>)
      requires At(m) && Backed(Some((p.review, p.diffHash)))
      modifies store
      ensures j.Some? ==> Holds(j.value, p)
      ensures j.None? ==> At(m)
      ensures m.None? || m.value.1 == p ==> j.Some?
    {
      ghost var s := store.View();
      j := WriteRow(p, m);
      if j.Some? { StartsRemote(p, m); }
    }

    method WriteRow(p: Publication, ghost m: Option<(nat, Publication)>) returns (j: Option<nat>)
      requires Wired() && RowsAt(m) && Backed(Some((p.review, p.diffHash)))
      modifies store
      ensures j.Some? ==> RowsHold(j.value, p) && (m.Some? ==> m.value.1 == p)
      ensures j.None? ==> store.View() == old(store.View())
      ensures m.None? || m.value.1 == p ==> j.Some?
    {
      assert UnfoldPublication(true);
      JournalWritten(store.View(), p);
      if m.Some? { TheJournal(store.View(), m.value.0); }
      j := records.WriteJournal(p);
    }

    lemma StartsRemote(p: Publication, m: Option<(nat, Publication)>)
      requires RemoteAt(m) && (m.Some? ==> m.value.1 == p)
      ensures RemoteHolds(p)
    {
      assert UnfoldPublication(true);
    }

    ghost predicate CanFinish(required: seq<string>, again: Publication)
      reads this, store, records, github
    {
      (Idle() || exists j: nat :: Holds(j, again)) && Repeats(required, again) && Calm(again) && Reconcilable(again)
    }

    // One attempt. Whatever was lost or left half done before, it creates nothing that is still there,
    // and what it reports is what is recorded.
    method Run(required: seq<string>, ghost again: Publication) returns (outcome: PublishOutcome)
      requires Inv()
      modifies this`turn, this`reported, store, records`record, github
      ensures Inv() && Steady(old(records.record), records.record)
      ensures outcome.PublishedAs? ==> reported == old(reported) + [outcome.pr]
      ensures outcome.PublishedAs? ==>
        exists j: nat, p :: Holds(j, p) && IsPullFor(github.pulls, outcome.pr, p) && Done(j, outcome.pr)
      ensures outcome.PublishedAs? ==> exists j: nat :: ReleasedAt(store.View(), j)
      ensures !outcome.PublishedAs? ==> reported == old(reported)
      // an undisturbed attempt finishes what earlier ones began: it pushes exactly if the branch is not
      // there and creates exactly if no pull request is found
      ensures old(CanFinish(required, again)) ==> outcome.PublishedAs?
      ensures old(CanFinish(required, again)) ==> github.pushed == old(github.pushed) + PushDue(again, old(github.branches))
      ensures old(CanFinish(required, again)) ==> |github.created| == |old(github.created)| + PullsDue(again, old(github.pulls))
    {
      ghost var m: Option<(nat, Publication)> := None;
      if !Idle() {
        if exists j: nat :: Holds(j, again) {
          ghost var j: nat :| Holds(j, again);
          m := Some((j, again));
        } else {
          m :| At(m);
        }
      }
      assert At(m);
      var planned := Plan(required, m, again);
      if !planned.Success? {
        return if planned.Crashes? then Crashed else Unpublished(planned.error);
      }
      outcome := Publish(planned.value, m);
      if outcome.PublishedAs? {
        ghost var j: nat :| Holds(j, planned.value) && IsPullFor(github.pulls, outcome.pr, planned.value) && Done(j, outcome.pr);
        DoneIsReleased(j, planned.value, outcome.pr);
      }
    }

    lemma DoneIsReleased(j: nat, p: Publication, pr: PublishedPR)
      requires Holds(j, p) && Done(j, pr)
      ensures ReleasedAt(store.View(), j)
    {
      assert UnfoldPublication(true);
    }

    method Publish(p: Publication, ghost m: Option<(nat, Publication)>) returns (outcome: PublishOutcome)
      requires At(m) && Backed(Some((p.review, p.diffHash)))
      modifies this`turn, this`reported, store, records`record, github
      ensures Inv() && Steady(old(records.record), records.record)
      ensures outcome.PublishedAs? ==> reported == old(reported) + [outcome.pr]
      ensures outcome.PublishedAs? ==> exists j: nat :: Holds(j, p) && IsPullFor(github.pulls, outcome.pr, p) && Done(j, outcome.pr)
      ensures !outcome.PublishedAs? ==> reported == old(reported)
      ensures old(Calm(p) && Reconcilable(p)) && (m.None? || m.value.1 == p) ==> outcome.PublishedAs?
      ensures old(Calm(p) && Reconcilable(p)) && (m.None? || m.value.1 == p) ==> github.pushed == old(github.pushed) + PushDue(p, old(github.branches))
      ensures old(Calm(p) && Reconcilable(p)) && (m.None? || m.value.1 == p) ==> |github.created| == |old(github.created)| + PullsDue(p, old(github.pulls))
    {
      var now := Wait(m, Some((p.review, p.diffHash)));
      assert old(Calm(p)) ==> CalmAt(now, p);
      var fate := world.fates(now);
      if !TakesEffect(fate) {
        return if fate == Unsent then Unpublished(StoreUnavailable) else Crashed;
      }
      var j := OpenJournal(p, m);
      if j.None? {
        return if fate == DiesAfter then Crashed else Unpublished(SnapshotChanged);
      }
      assert At(Some((j.value, p)));
      if fate != Works {
        return if fate == Unanswered then Unpublished(StoreUnavailable) else Crashed;
      }
      outcome := Exchange(j.value, p);
      assert At(Some((j.value, p)));
    }

    // Both bounds are attained: a branch that others delete is pushed again by the next attempt.
    method PushedAgain(j: nat, p: Publication)
      requires Holds(j, p) && Calm(p) && RefOf(p) !in github.branches
      modifies this`turn, store, github
      ensures Holds(j, p) && Deletions(github.deleted, RefOf(p)) == Deletions(old(github.deleted), RefOf(p)) + 1
      ensures github.pushed == old(github.pushed) + [(RefOf(p), p.commit), (RefOf(p), p.commit)]
    {
      var _ := EnsureBranch(j, p);
      LoseBranch(p);
      var _ := EnsureBranch(j, p);
    }

    method LoseBranch(p: Publication)
      requires RemoteHolds(p) && RefOf(p) in github.branches
      modifies github`branches, github`pulls, github`deleted, github`retargeted
      ensures RemoteHolds(p) && RefOf(p) !in github.branches
      ensures Deletions(github.deleted, RefOf(p)) == Deletions(old(github.deleted), RefOf(p)) + 1
    {
      assert UnfoldPublication(true);
      AppendedDeletion(github.deleted, RefOf(p), RefOf(p));
      github.Apply(DeleteBranch(RefOf(p)));
    }

    // And for a pull request that others retarget another one is created.
    method CreatedAgain(j: nat, p: Publication, base: string)
      requires Holds(j, p) && Calm(p) && Found(github.pulls, p) == [] && base != p.base
      modifies this`turn, store, github
      ensures Holds(j, p) && |Found(github.retargeted, p)| == |Found(old(github.retargeted), p)| + 1
      ensures |github.created| == |old(github.created)| + 2
    {
      var made := EnsurePull(j, p);
      LosePull(p, old(github.pulls), made.value, base);
      var _ := EnsurePull(j, p);
    }

    method LosePull(p: Publication, ghost before: seq<Pull>, pull: Pull, base: string)
      requires RemoteHolds(p) && github.pulls == before + [pull] && Found(before, p) == [] && Targets(pull, p) && base != p.base
      modifies github`branches, github`pulls, github`deleted, github`retargeted
      ensures RemoteHolds(p) && Found(github.pulls, p) == []
      ensures |Found(github.retargeted, p)| == |Found(old(github.retargeted), p)| + 1
    {
      AppendedPull(github.retargeted, pull, p);
      AppendedPull(before, pull.(base := base), p);
      FoundSome(before, p);
      FoundSome(before + [pull.(base := base)], p);
      RetargetLast(p, before, pull, base);
    }

    method RetargetLast(p: Publication, ghost before: seq<Pull>, ghost pull: Pull, base: string)
      requires RemoteHolds(p) && github.pulls == before + [pull]
      modifies github`branches, github`pulls, github`deleted, github`retargeted
      ensures RemoteHolds(p) && github.pulls == before + [pull.(base := base)] && github.retargeted == old(github.retargeted) + [pull]
    {
      assert UnfoldPublication(true);
      github.Apply(Retarget(|github.pulls| - 1, base));
    }

    // What every sequence of attempts keeps.
    lemma InvMeans()
      requires Inv()
      ensures Agree(records.record, reported)
      ensures github.pushed != [] || github.created != [] || reported != [] ==>
        JournalOf(store.agents).Some? && Traced(JournalOf(store.agents).value)
    {
      var m :| At(m);
      if m.Some? {
        HoldsMeans(m.value.0, m.value.1);
      } else {
        assert UnfoldPublication(true);
      }
    }

    lemma InvSane()
      requires Inv()
      ensures Sane(store.View()) && records.store == store
    {
      assert UnfoldPublication(true);
    }

    lemma HoldsMeans(j: nat, p: Publication)
      requires Holds(j, p)
      ensures JournalOf(store.agents) == Some(j) && Traced(j)
      ensures Agree(records.record, reported)
    {
      assert UnfoldPublication(true);
      TheJournal(store.View(), j);
    }

    // The branch was created at the journalled commit, the pull request for the journalled publication,
    // whose diff the approved review and the last test of the finished run have seen.
    ghost predicate Traced(j: nat)
      reads this, store, records, github
      requires j < |store.agents|
    {
      store.agents[j].input.publication.Some? && RunInv(store.View())
      && var p := store.agents[j].input.publication.value;
         Chained(store.View(), p.review, p.diffHash)
         && (forall b :: b in github.pushed ==> b == (RefOf(p), p.commit))
         && |github.pushed| <= 1 + Deletions(github.deleted, RefOf(p))
         && (forall pull :: pull in github.created ==> Targets(pull, p))
         && |github.created| <= 1 + |Found(github.retargeted, p)|
    }
  }

  lemma {:induction false} FoundNumber(pulls: seq<Pull>, p: Publication, pull: Pull)
    requires Numbered(pulls) && pull in Found(pulls, p)
    ensures 1 <= pull.number <= |pulls| && pulls[pull.number - 1] == pull && Targets(pull, p)
  {
  }
}
