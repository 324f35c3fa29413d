/** The remote repository as the publication sees it: calls that may be lost on the way there or back. */
module GitHub {
  import opened Records

  // What becomes of one remote or database call: it works; it never arrives; it takes effect but the
  // answer is lost; or the calling process dies before or after it takes effect.
  datatype Fate = Works | Unsent | Unanswered | DiesBefore | DiesAfter

  datatype Reply<+T> = Answer(value: T) | NoAnswer | Died

  predicate TakesEffect(fate: Fate) {
    fate != Unsent && fate != DiesBefore
  }

  function Answered<T>(fate: Fate, value: T): Reply<T> {
    match fate
    case Works => Answer(value)
    case Unsent => NoAnswer
    case Unanswered => NoAnswer
    case _ => Died
  }

  datatype Ref = Ref(owner: string, repository: string, branch: string)

  datatype Pull = Pull(
    number: nat, owner: string, repository: string, head: string, base: string, sha: string, body: string, url: string,
    open: bool)

  // What others may do to the repository.
  datatype Change =
    | DeleteBranch(ref: Ref)
    | Retarget(index: nat, base: string)
    | SetOpen(index: nat, open: bool)
    | SetBody(index: nat, body: string)
    | SetSha(index: nat, sha: string)
    | Advance(ref: Ref, sha: string)
    | Foreign(owner: string, repository: string, head: string, base: string, sha: string, body: string, url: string)

  // The repository, with the branches that others deleted and the pull requests as they were before
  // others retargeted them.
  datatype Remote = Remote(branches: map<Ref, string>, deleted: seq<Ref>, pulls: seq<Pull>, retargeted: seq<Pull>)

  function RefOf(p: Publication): Ref {
    Ref(p.owner, p.repository, p.branch)
  }

  predicate Targets(pull: Pull, p: Publication) {
    pull.owner == p.owner && pull.repository == p.repository && pull.head == p.branch && pull.base == p.base
  }

  predicate SameIdentity(a: Pull, b: Pull) {
    a.number == b.number && a.owner == b.owner && a.repository == b.repository && a.head == b.head && a.url == b.url
  }

  ghost predicate PullsKept(before: seq<Pull>, after: seq<Pull>) {
    |before| <= |after| && forall i :: 0 <= i < |before| ==> SameIdentity(before[i], after[i])
  }

  ghost predicate Numbered(pulls: seq<Pull>) {
    forall i :: 0 <= i < |pulls| ==> pulls[i].number == i + 1
  }

  // The pull requests for a publication, closed ones included.
  function Found(pulls: seq<Pull>, p: Publication): (r: seq<Pull>)
    ensures forall pull :: pull in r <==> pull in pulls && Targets(pull, p)
  {
    if pulls == [] then []
    else
      var front, last := Found(pulls[..|pulls| - 1], p), pulls[|pulls| - 1];
      assert forall pull :: pull in pulls <==> pull in pulls[..|pulls| - 1] || pull == last;
      if Targets(last, p) then front + [last] else front
  }

  predicate HasPull(pulls: seq<Pull>, p: Publication) {
    exists i | 0 <= i < |pulls| :: Targets(pulls[i], p)
  }

  lemma FoundSome(pulls: seq<Pull>, p: Publication)
    ensures Found(pulls, p) != [] <==> HasPull(pulls, p)
  {
    if HasPull(pulls, p) {
      var i :| 0 <= i < |pulls| && Targets(pulls[i], p);
      assert pulls[i] in Found(pulls, p);
    }
    if Found(pulls, p) != [] {
      assert Found(pulls, p)[0] in pulls && Targets(Found(pulls, p)[0], p);
    }
  }

  function Deletions(deleted: seq<Ref>, ref: Ref): nat {
    if deleted == [] then 0
    else Deletions(deleted[..|deleted| - 1], ref) + if deleted[|deleted| - 1] == ref then 1 else 0
  }

  // How many pushes of the branch can be accounted for: one for each deletion, and one for the branch
  // as it stands.
  function BranchCredit(branches: map<Ref, string>, deleted: seq<Ref>, p: Publication): nat {
    Deletions(deleted, RefOf(p)) + if RefOf(p) in branches then 1 else 0
  }

  // The same for pull requests of the publication, which are lost by retargeting.
  function PullCredit(pulls: seq<Pull>, retargeted: seq<Pull>, p: Publication): nat {
    |Found(retargeted, p)| + if HasPull(pulls, p) then 1 else 0
  }

  // What can be accounted for does not shrink.
  ghost predicate CreditKept(before: Remote, after: Remote) {
    forall p: Publication ::
      BranchCredit(after.branches, after.deleted, p) >= BranchCredit(before.branches, before.deleted, p)
      && PullCredit(after.pulls, after.retargeted, p) >= PullCredit(before.pulls, before.retargeted, p)
      && |Found(after.retargeted, p)| >= |Found(before.retargeted, p)|
  }

  // A pull request that keeps its repository, its head and its base finds the same publications.
  lemma RewrittenPull(pulls: seq<Pull>, i: nat, pull: Pull, p: Publication)
    requires i < |pulls| && (Targets(pull, p) <==> Targets(pulls[i], p))
    ensures HasPull(pulls[i := pull], p) <==> HasPull(pulls, p)
  {
    var after := pulls[i := pull];
    assert forall j :: 0 <= j < |pulls| ==> (Targets(after[j], p) <==> Targets(pulls[j], p));
  }

  lemma AppendedPull(pulls: seq<Pull>, pull: Pull, p: Publication)
    ensures HasPull(pulls + [pull], p) <==> HasPull(pulls, p) || Targets(pull, p)
    ensures |Found(pulls + [pull], p)| == |Found(pulls, p)| + if Targets(pull, p) then 1 else 0
  {
    var after := pulls + [pull];
    assert after[..|pulls|] == pulls && after[|pulls|] == pull;
    assert forall j :: 0 <= j < |pulls| ==> after[j] == pulls[j];
  }

  lemma AppendedDeletion(deleted: seq<Ref>, ref: Ref, other: Ref)
    ensures Deletions(deleted + [ref], other) == Deletions(deleted, other) + if ref == other then 1 else 0
  {
    assert (deleted + [ref])[..|deleted|] == deleted;
  }

  class GitHub {
    var branches: map<Ref, string>
    var pulls: seq<Pull>
    // What this application has brought about and what others have taken away, for the contracts.
    ghost var pushed: seq<(Ref, string)>
    ghost var created: seq<Pull>
    ghost var deleted: seq<Ref>
    ghost var retargeted: seq<Pull>

    constructor (branches: map<Ref, string>)
      ensures this.branches == branches && pulls == [] && pushed == [] && created == [] && deleted == [] && retargeted == []
    {
      this.branches, pulls, pushed, created, deleted, retargeted := branches, [], [], [], [], [];
    }

    ghost function View(): Remote
      reads this
    {
      Remote(branches, deleted, pulls, retargeted)
    }

    method Apply(change: Change)
      requires Numbered(pulls)
      modifies this`branches, this`pulls, this`deleted, this`retargeted
      ensures Numbered(pulls) && PullsKept(old(pulls), pulls)
      ensures CreditKept(old(View()), View())
      ensures change.DeleteBranch? ==> branches == old(branches) - {change.ref} && pulls == old(pulls) && retargeted == old(retargeted)
      ensures change.DeleteBranch? ==> deleted == old(deleted) + if change.ref in old(branches) then [change.ref] else []
      ensures change.Retarget? && change.index < |old(pulls)| ==>
        pulls == old(pulls)[change.index := old(pulls)[change.index].(base := change.base)]
        && retargeted == old(retargeted) + [old(pulls)[change.index]] && branches == old(branches) && deleted == old(deleted)
      ensures !change.DeleteBranch? ==> deleted == old(deleted)
      ensures !change.Retarget? ==> retargeted == old(retargeted)
    {
      match change {
        case DeleteBranch(ref) => Delete(ref);
        case Retarget(i, base) =>
          if i < |pulls| {
            RetargetedPull(pulls, retargeted, i, base);
            retargeted := retargeted + [pulls[i]];
            pulls := pulls[i := pulls[i].(base := base)];
          }
        case SetOpen(i, open) => if i < |pulls| { Rewrite(i, pulls[i].(open := open)); }
        case SetBody(i, body) => if i < |pulls| { Rewrite(i, pulls[i].(body := body)); }
        case SetSha(i, sha) => if i < |pulls| { Rewrite(i, pulls[i].(sha := sha)); }
        case Advance(ref, sha) => branches := branches[ref := sha];
        case Foreign(owner, repository, head, base, sha, body, url) =>
          var pull := Pull(|pulls| + 1, owner, repository, head, base, sha, body, url, true);
          forall p: Publication ensures PullCredit(pulls + [pull], retargeted, p) >= PullCredit(pulls, retargeted, p) {
            AppendedPull(pulls, pull, p);
          }
          pulls := pulls + [pull];
      }
    }

    method Delete(ref: Ref)
      modifies this`branches, this`deleted
      ensures branches == old(branches) - {ref} && deleted == old(deleted) + if ref in old(branches) then [ref] else []
      ensures forall p: Publication :: BranchCredit(branches, deleted, p) >= BranchCredit(old(branches), old(deleted), p)
    {
      if ref in branches {
        forall p: Publication
          ensures BranchCredit(branches - {ref}, deleted + [ref], p) >= BranchCredit(branches, deleted, p)
        {
          AppendedDeletion(deleted, ref, RefOf(p));
        }
        deleted := deleted + [ref];
      }
      branches := branches - {ref};
    }

    // Nothing that the search for a pull request looks at.
    method Rewrite(i: nat, pull: Pull)
      requires i < |pulls| && Numbered(pulls)
      requires SameIdentity(pulls[i], pull) && pull.base == pulls[i].base
      modifies this`pulls
      ensures pulls == old(pulls)[i := pull] && Numbered(pulls) && PullsKept(old(pulls), pulls)
      ensures forall p: Publication :: PullCredit(pulls, retargeted, p) >= PullCredit(old(pulls), retargeted, p)
    {
      forall p: Publication ensures PullCredit(pulls[i := pull], retargeted, p) >= PullCredit(pulls, retargeted, p) {
        RewrittenPull(pulls, i, pull, p);
      }
      pulls := pulls[i := pull];
    }

    method Disturb(changes: seq<Change>)
      requires Numbered(pulls)
      modifies this`branches, this`pulls, this`deleted, this`retargeted
      ensures Numbered(pulls) && PullsKept(old(pulls), pulls)
      ensures CreditKept(old(View()), View())
      ensures changes == [] ==> View() == old(View())
    {
      var i := 0;
      while i < |changes|
        invariant Numbered(pulls) && PullsKept(old(pulls), pulls)
        invariant CreditKept(old(View()), View())
        invariant changes == [] ==> View() == old(View())
      {
        Apply(changes[i]);
        i := i + 1;
      }
    }

    method GetBranch(p: Publication, fate: Fate) returns (r: Reply<Option<string>>)
      ensures r == Answered(fate, if RefOf(p) in branches then Some(branches[RefOf(p)]) else None)
    {
      r := Answered(fate, if RefOf(p) in branches then Some(branches[RefOf(p)]) else None);
    }

    // A push that can only create the branch: an existing ref is never replaced.
    method Push(p: Publication, fate: Fate) returns (r: Reply<()>)
      modifies this`branches, this`pushed
      ensures TakesEffect(fate) && RefOf(p) !in old(branches) ==>
        branches == old(branches)[RefOf(p) := p.commit] && pushed == old(pushed) + [(RefOf(p), p.commit)]
        && r == Answered(fate, ())
      ensures !(TakesEffect(fate) && RefOf(p) !in old(branches)) ==>
        branches == old(branches) && pushed == old(pushed) && !r.Answer?
    {
      if !TakesEffect(fate) {
        return Answered(fate, ());
      }
      if RefOf(p) in branches {
        return if fate == DiesAfter then Died else NoAnswer;
      }
      branches := branches[RefOf(p) := p.commit];
      pushed := pushed + [(RefOf(p), p.commit)];
      r := Answered(fate, ());
    }

    method Find(p: Publication, fate: Fate) returns (r: Reply<seq<Pull>>)
      ensures r == Answered(fate, Found(pulls, p))
    {
      r := Answered(fate, Found(pulls, p));
    }

    method Create(p: Publication, sha: string, url: string, fate: Fate) returns (r: Reply<Pull>)
      requires Numbered(pulls)
      modifies this`pulls, this`created
      ensures Numbered(pulls)
      ensures var pull := Pull(|old(pulls)| + 1, p.owner, p.repository, p.branch, p.base, sha, p.body, url, true);
        pulls == old(pulls) + (if TakesEffect(fate) then [pull] else [])
        && created == old(created) + (if TakesEffect(fate) then [pull] else [])
        && r == Answered(fate, pull)
    {
      var pull := Pull(|pulls| + 1, p.owner, p.repository, p.branch, p.base, sha, p.body, url, true);
      if TakesEffect(fate) {
        pulls := pulls + [pull];
        created := created + [pull];
      }
      r := Answered(fate, pull);
    }
  }

  // Retargeting a pull request costs each publication at most the one it may have had.
  lemma RetargetedPull(pulls: seq<Pull>, retargeted: seq<Pull>, i: nat, base: string)
    requires i < |pulls|
    ensures forall p: Publication ::
      PullCredit(pulls[i := pulls[i].(base := base)], retargeted + [pulls[i]], p) >= PullCredit(pulls, retargeted, p)
      && |Found(retargeted + [pulls[i]], p)| >= |Found(retargeted, p)|
  {
    var pull := pulls[i].(base := base);
    forall p: Publication
      ensures PullCredit(pulls[i := pull], retargeted + [pulls[i]], p) >= PullCredit(pulls, retargeted, p)
        && |Found(retargeted + [pulls[i]], p)| >= |Found(retargeted, p)|
    {
      AppendedPull(retargeted, pulls[i], p);
      if HasPull(pulls, p) && !Targets(pulls[i], p) {
        var j :| 0 <= j < |pulls| && Targets(pulls[j], p);
        assert pulls[i := pull][j] == pulls[j];
      }
    }
  }
}
