/** One scheduling pass over the task states (app/orchestration/state.py). */
module SchedulerState {
  import opened Ordering
  import opened PlanDependencies

  datatype TaskStatus = Pending | Queued | Running | Completed | Failed | Blocked | Cancelled

  type States = map<Key, TaskStatus>

  predicate Terminal(s: TaskStatus) {
    s == Completed || s == Failed || s == Blocked
  }

  // Every parent is a task of the plan.
  ghost predicate Closed(g: Graph) {
    forall k, p :: k in g && p in g[k] ==> p in g
  }

  ghost predicate SoundPlan(g: Graph) {
    Validated(g) && Acyclic(g) && Closed(g)
  }

  lemma ValidatedIsClosed(g: Graph)
    requires Validated(g)
    ensures Closed(g)
  {
    forall k, p | k in g && p in g[k] ensures p in g {
      assert ValidItem(g, k);
    }
  }

  // What the pass does to one task, given the states its parents have reached.
  function Rule(g: Graph, current: TaskStatus, k: Key, states: States): TaskStatus
    requires k in g && forall p :: p in g[k] ==> p in states
  {
    if current != Pending then current
    else if exists p | p in g[k] :: states[p] == Failed || states[p] == Blocked then Blocked
    else if forall p | p in g[k] :: states[p] == Completed then Queued
    else Pending
  }

  lemma RuleReadsParents(g: Graph, current: TaskStatus, k: Key, a: States, b: States)
    requires k in g && forall p :: p in g[k] ==> p in a && p in b && a[p] == b[p]
    ensures Rule(g, current, k, a) == Rule(g, current, k, b)
  {
  }

  ghost predicate SettledAt(g: Graph, before: States, after: States, k: Key)
    requires Closed(g) && before.Keys == after.Keys == g.Keys && k in g
  {
    after[k] == Rule(g, before[k], k, after)
  }

  // `after` is `before` with every task put through the rule, parents included. Says nothing about
  // the order of the visits.
  ghost predicate Settles(g: Graph, before: States, after: States)
    requires Closed(g)
  {
    before.Keys == after.Keys == g.Keys && forall k {:trigger SettledAt(g, before, after, k)} :: k in g ==> SettledAt(g, before, after, k)
  }

  // ---- there is exactly one such outcome ----

  lemma {:induction false} WaveAgrees(g: Graph, before: States, a: States, b: States, n: nat)
    requires Closed(g) && Settles(g, before, a) && Settles(g, before, b)
    ensures forall k :: k in Wave(g, n) ==> k in g && a[k] == b[k]
  {
    if n > 0 {
      WaveAgrees(g, before, a, b, n - 1);
      WaveGrows(g, n - 1);
      forall k | k in Wave(g, n) ensures a[k] == b[k] {
        assert SettledAt(g, before, a, k) && SettledAt(g, before, b, k);
        RuleReadsParents(g, before[k], k, a, b);
      }
    }
  }

  lemma {:induction false} WavesCover(g: Graph, n: nat) returns (m: nat)
    requires SoundPlan(g)
    ensures Wave(g, m) == g.Keys
    decreases g.Keys - Wave(g, n)
  {
    WaveGrows(g, n);
    if Wave(g, n) == g.Keys {
      m := n;
    } else if Wave(g, n + 1) == Wave(g, n) {
      StalledHasCycle(g, n);
      m := n;
    } else {
      m := WavesCover(g, n + 1);
    }
  }

  lemma SettlesUnique(g: Graph, before: States, a: States, b: States)
    requires SoundPlan(g) && Settles(g, before, a) && Settles(g, before, b)
    ensures a == b
  {
    var n := WavesCover(g, 0);
    WaveAgrees(g, before, a, b, n);
  }

  ghost predicate SettlesUpTo(g: Graph, before: States, done: set<Key>, a: States)
    requires Closed(g)
  {
    before.Keys == a.Keys == g.Keys && done <= g.Keys
    && (forall k {:trigger SettledAt(g, before, a, k)} :: k in done ==> SettledAt(g, before, a, k))
    && forall k :: k in g && k !in done ==> a[k] == before[k]
  }

  lemma {:induction false} WaveSettles(g: Graph, before: States, n: nat) returns (a: States)
    requires Closed(g) && before.Keys == g.Keys
    ensures SettlesUpTo(g, before, Wave(g, n), a)
  {
    if n == 0 {
      a := before;
    } else {
      var u := WaveSettles(g, before, n - 1);
      WaveGrows(g, n - 1);
      a := VisitedWave(g, before, Wave(g, n), u);
      forall k | k in Wave(g, n) ensures SettledAt(g, before, a, k) {
        assert a[k] == Rule(g, before[k], k, u);
        forall p | p in g[k] ensures u[p] == a[p] {
          assert p in Wave(g, n - 1) && SettledAt(g, before, u, p);
        }
        RuleReadsParents(g, before[k], k, u, a);
      }
    }
  }

  ghost function VisitedWave(g: Graph, before: States, wave: set<Key>, u: States): (a: States)
    requires Closed(g) && before.Keys == u.Keys == g.Keys && wave <= g.Keys
    ensures a.Keys == g.Keys
    ensures forall k :: k in wave ==> a[k] == Rule(g, before[k], k, u)
    ensures forall k :: k in g && k !in wave ==> a[k] == before[k]
  {
    map k | k in g :: if k in wave then Rule(g, before[k], k, u) else before[k]
  }

  lemma SettledExists(g: Graph, before: States)
    requires SoundPlan(g) && before.Keys == g.Keys
    ensures exists a :: Settles(g, before, a)
  {
    var n := WavesCover(g, 0);
    var a := WaveSettles(g, before, n);
    assert Settles(g, before, a);
  }

  // The outcome of the pass.
  ghost function Advanced(g: Graph, before: States): (after: States)
    requires SoundPlan(g) && before.Keys == g.Keys
    ensures Settles(g, before, after)
  {
    SettledExists(g, before);
    var a :| Settles(g, before, a);
    a
  }

  // ---- the pass itself ----

  lemma VisitOne(g: Graph, before: States, order: seq<Key>, i: nat, u: States, w: States)
    requires Closed(g) && i < |order| && Distinct(order) && Elements(order) == g.Keys && ParentsFirst(g, order)
    requires order[i] in g.Keys && order[i] !in g[order[i]]
    requires SettlesUpTo(g, before, Elements(order[..i]), u)
    requires w == u[order[i] := Rule(g, u[order[i]], order[i], u)]
    ensures SettlesUpTo(g, before, Elements(order[..i + 1]), w)
  {
    var k := order[i];
    var done := Elements(order[..i]);
    assert Elements(order[..i + 1]) == done + {k} by { assert order[..i + 1] == order[..i] + [k]; }
    assert k !in done;
    assert w.Keys == g.Keys;
    RuleReadsParents(g, u[k], k, u, w);
    forall j | j in done ensures SettledAt(g, before, w, j) {
      EarlierStays(g, before, order, i, u, w, j);
    }
  }

  // Visiting a task does not touch what an earlier one reads.
  lemma EarlierStays(g: Graph, before: States, order: seq<Key>, i: nat, u: States, w: States, j: Key)
    requires Closed(g) && i < |order| && Distinct(order) && Elements(order) == g.Keys && ParentsFirst(g, order)
    requires order[i] in g.Keys && SettlesUpTo(g, before, Elements(order[..i]), u)
    requires w == u[order[i] := Rule(g, u[order[i]], order[i], u)] && j in Elements(order[..i])
    ensures SettledAt(g, before, w, j)
  {
    var m :| 0 <= m < i && order[m] == j;
    assert order[i] !in g[j] && SettledAt(g, before, u, j);
    RuleReadsParents(g, before[j], j, u, w);
  }

  method VisitTask(g: Graph, key: Key, states: States) returns (updated: States)
    requires Closed(g) && states.Keys == g.Keys && key in g
    ensures updated == states[key := Rule(g, states[key], key, states)]
  {
    updated := states;
    if updated[key] != Pending {
      return;
    }
    if exists p | p in g[key] :: updated[p] == Failed || updated[p] == Blocked {
      updated := updated[key := Blocked];
    } else if forall p | p in g[key] :: updated[p] == Completed {
      updated := updated[key := Queued];
    }
  }

  // Any visiting order that puts parents first gives the same outcome.
  method AdvanceAlong(g: Graph, order: seq<Key>, states: States) returns (updated: States)
    requires SoundPlan(g) && states.Keys == g.Keys
    requires Distinct(order) && Elements(order) == g.Keys && ParentsFirst(g, order)
    ensures updated == Advanced(g, states)
  {
    updated := states;
    var i := 0;
    while i < |order|
      invariant 0 <= i <= |order|
      invariant SettlesUpTo(g, states, Elements(order[..i]), updated)
    {
      var key := order[i];
      assert key in Elements(order) && ValidItem(g, key);
      ghost var was := updated;
      updated := VisitTask(g, key, updated);
      VisitOne(g, states, order, i, was, updated);
      i := i + 1;
    }
    assert order[..i] == order;
    SettlesUnique(g, states, updated, Advanced(g, states));
  }

  datatype AdvanceResult = Advance(states: States) | TasksMismatch | InvalidPlan(error: PlanError)

  method AdvanceTasks(entries: seq<Entry>, states: States) returns (r: AdvanceResult)
    requires IsDict(entries)
    ensures r.TasksMismatch? <==> states.Keys != GraphOf(entries).Keys
    ensures r.Advance? <==> states.Keys == GraphOf(entries).Keys && SoundPlan(GraphOf(entries))
    ensures r.Advance? ==> r.states == Advanced(GraphOf(entries), states)
  {
    var g := GraphOf(entries);
    if states.Keys != g.Keys {
      return TasksMismatch;
    }
    var order := ExecutionOrder(entries);
    if order.Ordered? { ValidatedIsClosed(g); }
    match order {
      case Rejected(error) =>
        r := InvalidPlan(error);
      case Ordered(keys) =>
        var updated := AdvanceAlong(g, keys, states);
        r := Advance(updated);
    }
  }

  // ---- what the outcome is, task by task ----

  // A chain of initially pending tasks that starts behind a failed or blocked one.
  ghost predicate BlockingPath(g: Graph, before: States, p: seq<Key>) {
    Chain(g, p) && |p| > 1 && before.Keys == g.Keys
    && (before[p[0]] == Failed || before[p[0]] == Blocked)
    && forall i :: 0 < i < |p| ==> before[p[i]] == Pending
  }

  lemma {:induction false} PathBlocks(g: Graph, before: States, p: seq<Key>)
    requires SoundPlan(g) && BlockingPath(g, before, p)
    ensures Advanced(g, before)[p[|p| - 1]] == Blocked
  {
    var after := Advanced(g, before);
    var k, q := p[|p| - 1], p[|p| - 2];
    assert q in g[k];
    assert SettledAt(g, before, after, q);
    if |p| > 2 {
      assert BlockingPath(g, before, p[..|p| - 1]);
      PathBlocks(g, before, p[..|p| - 1]);
    }
    assert SettledAt(g, before, after, k);
  }

  lemma {:induction false} BlockedHasPath(g: Graph, before: States, k: Key, n: nat) returns (p: seq<Key>)
    requires SoundPlan(g) && before.Keys == g.Keys && k in Wave(g, n) && k in g
    requires before[k] == Pending && Advanced(g, before)[k] == Blocked
    ensures BlockingPath(g, before, p) && p[|p| - 1] == k
    decreases n
  {
    var after := Advanced(g, before);
    assert SettledAt(g, before, after, k);
    var q :| q in g[k] && (after[q] == Failed || after[q] == Blocked);
    assert SettledAt(g, before, after, q);
    if before[q] == Pending {
      var front := BlockedHasPath(g, before, q, n - 1);
      p := front + [k];
    } else {
      p := [q, k];
    }
  }

  lemma BlockedIffPath(g: Graph, before: States, k: Key)
    requires SoundPlan(g) && before.Keys == g.Keys && k in g && before[k] == Pending
    ensures Advanced(g, before)[k] == Blocked <==> exists p :: BlockingPath(g, before, p) && p[|p| - 1] == k
  {
    if Advanced(g, before)[k] == Blocked {
      var n := WavesCover(g, 0);
      var p := BlockedHasPath(g, before, k, n);
    } else {
      forall p | BlockingPath(g, before, p) && p[|p| - 1] == k ensures false {
        PathBlocks(g, before, p);
      }
    }
  }

  // A pending task is released exactly when its parents were all complete to begin with.
  lemma QueuedIffParentsComplete(g: Graph, before: States, k: Key)
    requires SoundPlan(g) && before.Keys == g.Keys && k in g && before[k] == Pending
    ensures Advanced(g, before)[k] == Queued <==> forall p :: p in g[k] ==> before[p] == Completed
    ensures Advanced(g, before)[k] in {Pending, Queued, Blocked}
  {
    var after := Advanced(g, before);
    assert SettledAt(g, before, after, k);
    forall p | p in g[k] ensures after[p] == Completed <==> before[p] == Completed {
      assert SettledAt(g, before, after, p);
    }
  }

  lemma OthersKeep(g: Graph, before: States)
    requires SoundPlan(g) && before.Keys == g.Keys
    ensures forall k :: k in g && before[k] != Pending ==> Advanced(g, before)[k] == before[k]
  {
    var after := Advanced(g, before);
    forall k | k in g && before[k] != Pending ensures after[k] == before[k] {
      assert SettledAt(g, before, after, k);
    }
  }

  lemma AdvanceIdempotent(g: Graph, before: States)
    requires SoundPlan(g) && before.Keys == g.Keys
    ensures Advanced(g, Advanced(g, before)) == Advanced(g, before)
  {
    var after := Advanced(g, before);
    forall k | k in g ensures SettledAt(g, after, after, k) {
      assert SettledAt(g, before, after, k);
    }
    SettlesUnique(g, after, after, Advanced(g, after));
  }

  // ---- progress ----

  lemma {:induction false} Unfinished(g: Graph, before: States, k: Key, n: nat) returns (q: Key)
    requires SoundPlan(g) && before.Keys == g.Keys && k in Wave(g, n) && k in g
    requires !Terminal(Advanced(g, before)[k])
    ensures q in g && Advanced(g, before)[q] in {Queued, Running, Cancelled}
    decreases n
  {
    var after := Advanced(g, before);
    assert SettledAt(g, before, after, k);
    if after[k] == Pending {
      var p :| p in g[k] && !Terminal(after[p]);
      q := Unfinished(g, before, p, n - 1);
    } else {
      q := k;
    }
  }

  // After a pass, unfinished work without a cancelled task always leaves something to run.
  lemma Progress(g: Graph, before: States)
    requires SoundPlan(g) && before.Keys == g.Keys
    requires forall k :: k in g ==> before[k] != Cancelled
    requires exists k :: k in g && !Terminal(Advanced(g, before)[k])
    ensures exists k :: k in g && Advanced(g, before)[k] in {Queued, Running}
  {
    var k :| k in g && !Terminal(Advanced(g, before)[k]);
    var n := WavesCover(g, 0);
    var q := Unfinished(g, before, k, n);
    var after := Advanced(g, before);
    assert SettledAt(g, before, after, q);
  }
}
