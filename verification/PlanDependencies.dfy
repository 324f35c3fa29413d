/** Plan validation and deterministic topological order (app/services/plan_dependencies.py). */
module PlanDependencies {
  import opened Ordering

  // One item of the `dependencies` dict. A dict keeps insertion order and has distinct keys.
  datatype Entry = Entry(key: Key, parents: seq<Key>)

  type Graph = map<Key, seq<Key>>

  datatype PlanError = EmptyPlan | SelfDependency | DuplicateDependency | UnknownDependency | DependencyCycle

  datatype OrderResult = Ordered(order: seq<Key>) | Rejected(error: PlanError)

  ghost predicate IsDict(entries: seq<Entry>) {
    forall i, j :: 0 <= i < j < |entries| ==> entries[i].key != entries[j].key
  }

  function GraphOf(entries: seq<Entry>): Graph {
    if entries == [] then map[]
    else GraphOf(entries[..|entries| - 1])[entries[|entries| - 1].key := entries[|entries| - 1].parents]
  }

  ghost predicate ValidItem(g: Graph, k: Key)
    requires k in g
  {
    k !in g[k] && Distinct(g[k]) && forall p :: p in g[k] ==> p in g
  }

  // What the loop of checks accepts.
  ghost predicate Validated(g: Graph) {
    g != map[] && forall k {:trigger ValidItem(g, k)} :: k in g ==> ValidItem(g, k)
  }

  // A chain of dependencies, each element a parent of the next one.
  ghost predicate Chain(g: Graph, p: seq<Key>) {
    p != [] && (forall i :: 0 <= i < |p| ==> p[i] in g)
    && forall i :: 0 < i < |p| ==> p[i - 1] in g[p[i]]
  }

  ghost predicate Cycle(g: Graph, p: seq<Key>) {
    Chain(g, p) && |p| > 1 && p[0] == p[|p| - 1]
  }

  ghost predicate Acyclic(g: Graph) {
    forall p :: !Cycle(g, p)
  }

  // Depth of a key: d edges on the longest chain that ends in it.
  ghost predicate HasDepth(g: Graph, k: Key, d: nat) {
    (exists p :: Chain(g, p) && p[|p| - 1] == k && |p| == d + 1)
    && forall p :: Chain(g, p) && p[|p| - 1] == k ==> |p| <= d + 1
  }

  // ---- waves: the keys whose chains all have at most n elements ----

  ghost function Wave(g: Graph, n: nat): set<Key> {
    if n == 0 then {} else set k | k in g && forall p :: p in g[k] ==> p in Wave(g, n - 1)
  }

  lemma {:induction false} WaveGrows(g: Graph, n: nat)
    ensures Wave(g, n) <= Wave(g, n + 1) <= g.Keys
  {
    if n > 0 { WaveGrows(g, n - 1); }
  }

  // Every chain into a key of wave n has at most n elements.
  lemma {:induction false} WaveBoundsChains(g: Graph, n: nat, p: seq<Key>)
    requires Chain(g, p) && p[|p| - 1] in Wave(g, n)
    ensures |p| <= n
  {
    if |p| > 1 {
      assert p[|p| - 2] in g[p[|p| - 1]];
      assert Chain(g, p[..|p| - 1]);
      WaveBoundsChains(g, n - 1, p[..|p| - 1]);
    }
  }

  // A key outside wave n ends some chain of n + 1 elements.
  lemma {:induction false} LongChain(g: Graph, n: nat, k: Key) returns (p: seq<Key>)
    requires Validated(g) && k in g && k !in Wave(g, n)
    ensures Chain(g, p) && p[|p| - 1] == k && |p| == n + 1
  {
    if n == 0 {
      p := [k];
    } else {
      var q :| q in g[k] && q !in Wave(g, n - 1);
      assert ValidItem(g, k);
      var front := LongChain(g, n - 1, q);
      p := front + [k];
    }
  }

  lemma WaveIsDepth(g: Graph, n: nat, k: Key)
    requires Validated(g) && k in Wave(g, n + 1) && k !in Wave(g, n)
    ensures HasDepth(g, k, n)
  {
    var p := LongChain(g, n, k);
    forall q | Chain(g, q) && q[|q| - 1] == k ensures |q| <= n + 1 {
      WaveBoundsChains(g, n + 1, q);
    }
  }

  lemma DepthUnique(g: Graph, k: Key, d: nat, e: nat)
    requires HasDepth(g, k, d) && HasDepth(g, k, e)
    ensures d == e
  {
  }

  // A parent is strictly shallower.
  lemma ParentShallower(g: Graph, k: Key, q: Key, d: nat, e: nat)
    requires k in g && q in g[k] && HasDepth(g, k, d) && HasDepth(g, q, e)
    ensures e < d
  {
    var p :| Chain(g, p) && p[|p| - 1] == q && |p| == e + 1;
    assert Chain(g, p + [k]);
  }

  // ---- cycles against waves ----

  lemma {:induction false} Pigeonhole(s: set<Key>, p: seq<Key>)
    requires (forall i :: 0 <= i < |p| ==> p[i] in s) && |p| > |s|
    ensures !Distinct(p)
  {
    if Distinct(p) && p != [] {
      var last := p[|p| - 1];
      var front := p[..|p| - 1];
      assert forall i :: 0 <= i < |front| ==> front[i] == p[i] && front[i] in s - {last};
      Pigeonhole(s - {last}, front);
    }
  }

  // When a wave adds nothing but keys are missing, some chain closes on itself.
  lemma StalledHasCycle(g: Graph, n: nat)
    requires Validated(g) && Wave(g, n + 1) == Wave(g, n) != g.Keys
    ensures !Acyclic(g)
  {
    WaveGrows(g, n);
    var missing := g.Keys - Wave(g, n);
    assert Wave(g, n) + missing == g.Keys;
    assert missing != {};
    var k :| k in missing;
    var m := n + |g.Keys|;
    StalledForever(g, n, m);
    var p := LongChain(g, m, k);
    LongChainHasCycle(g, p);
  }

  lemma LongChainHasCycle(g: Graph, p: seq<Key>)
    requires Chain(g, p) && |p| > |g.Keys|
    ensures !Acyclic(g)
  {
    Pigeonhole(g.Keys, p);
    var i, j :| 0 <= i < j < |p| && p[i] == p[j];
    RepeatClosesCycle(g, p, i, j);
  }

  lemma RepeatClosesCycle(g: Graph, p: seq<Key>, i: nat, j: nat)
    requires Chain(g, p) && i < j < |p| && p[i] == p[j]
    ensures Cycle(g, p[i..j + 1])
  {
    var c := p[i..j + 1];
    forall m | 0 < m < |c| ensures c[m - 1] in g[c[m]] {
      assert c[m] == p[i + m] && c[m - 1] == p[i + m - 1];
    }
  }

  lemma {:induction false} StalledForever(g: Graph, n: nat, m: nat)
    requires Wave(g, n + 1) == Wave(g, n) && n <= m
    ensures Wave(g, m) == Wave(g, n)
    decreases m
  {
    if n < m {
      StalledForever(g, n, m - 1);
      assert Wave(g, m) == Wave(g, n + 1);
    }
  }

  lemma CompleteIsAcyclic(g: Graph, n: nat)
    requires Wave(g, n) == g.Keys
    ensures Acyclic(g)
  {
    forall p | Cycle(g, p) ensures false {
      var k := p[|p| - 1];
      var q := Unroll(g, p, n + 1);
      WaveBoundsChains(g, n, q);
    }
  }

  // Going round a cycle gives chains of any length that end where the cycle does.
  lemma {:induction false} Unroll(g: Graph, p: seq<Key>, n: nat) returns (q: seq<Key>)
    requires Cycle(g, p)
    ensures Chain(g, q) && q[|q| - 1] == p[|p| - 1] && |q| >= n
  {
    if n == 0 {
      q := p;
    } else {
      var front := Unroll(g, p, n - 1);
      q := front + p[1..];
      forall i | 0 < i < |q| ensures q[i - 1] in g[q[i]] {
        if i > |front| {
          assert q[i] == p[i - |front| + 1] && q[i - 1] == p[i - |front|];
        }
      }
    }
  }

  // ---- the order itself ----

  // x comes before y in the order on (depth, key).
  ghost predicate Before(g: Graph, x: Key, y: Key) {
    exists d: nat, e: nat :: HasDepth(g, x, d) && HasDepth(g, y, e) && (d < e || (d == e && Leq(x, y)))
  }

  ghost predicate ByDepth(g: Graph, order: seq<Key>) {
    forall i, j :: 0 <= i < j < |order| ==> Before(g, order[i], order[j])
  }

  // The keys, each once, sorted by (depth, key).
  ghost predicate IsExecutionOrder(g: Graph, order: seq<Key>) {
    Distinct(order) && Elements(order) == g.Keys && ByDepth(g, order)
  }

  // In the order of the depths, and by name within one depth.
  lemma OrderedByName(g: Graph, order: seq<Key>, i: nat, j: nat, d: nat, e: nat)
    requires IsExecutionOrder(g, order) && i < j < |order| && HasDepth(g, order[i], d) && HasDepth(g, order[j], e)
    ensures d < e || (d == e && order[i] != order[j] && Lexicographic(order[i], order[j]))
  {
    assert Before(g, order[i], order[j]);
    var d': nat, e': nat :| HasDepth(g, order[i], d') && HasDepth(g, order[j], e') && (d' < e' || (d' == e' && Leq(order[i], order[j])));
    DepthUnique(g, order[i], d, d');
    DepthUnique(g, order[j], e, e');
    LeqMeans(order[i], order[j]);
  }

  ghost predicate ParentsFirst(g: Graph, order: seq<Key>) {
    forall i, j :: 0 <= i < |order| && 0 <= j < |order| && order[j] in g && order[i] in g[order[j]] ==> i < j
  }

  lemma BeforeAntisymmetric(g: Graph, x: Key, y: Key)
    requires Before(g, x, y) && Before(g, y, x)
    ensures x == y
  {
    var d: nat, e: nat :| HasDepth(g, x, d) && HasDepth(g, y, e) && (d < e || (d == e && Leq(x, y)));
    var e': nat, d': nat :| HasDepth(g, y, e') && HasDepth(g, x, d') && (e' < d' || (e' == d' && Leq(y, x)));
    DepthUnique(g, x, d, d');
    DepthUnique(g, y, e, e');
    LeqAntisymmetric(x, y);
  }

  lemma OrderHasParentsFirst(g: Graph, order: seq<Key>)
    requires Validated(g) && IsExecutionOrder(g, order)
    ensures ParentsFirst(g, order)
  {
    forall i, j | 0 <= i < |order| && 0 <= j < |order| && order[j] in g && order[i] in g[order[j]]
      ensures i < j
    {
      assert ValidItem(g, order[j]);
      if j < i {
        assert Before(g, order[j], order[i]);
        var d: nat, e: nat :| HasDepth(g, order[j], d) && HasDepth(g, order[i], e)
          && (d < e || (d == e && Leq(order[j], order[i])));
        ParentShallower(g, order[j], order[i], d, e);
      }
    }
  }

  // The order is fixed by the graph: it does not depend on how the plan lists its tasks.
  lemma OrderUnique(g: Graph, a: seq<Key>, b: seq<Key>)
    requires IsExecutionOrder(g, a) && IsExecutionOrder(g, b)
    ensures a == b
  {
    SameLength(a, b);
    if a != b {
      var i := FirstDifference(a, b);
      assert a[i] in Elements(b) && b[i] in Elements(a);
      var j :| 0 <= j < |b| && b[j] == a[i];
      var m :| 0 <= m < |a| && a[m] == b[i];
      assert j > i && m > i;
      assert Before(g, a[i], a[m]) && Before(g, b[i], b[j]);
      BeforeAntisymmetric(g, a[i], b[i]);
    }
  }

  lemma FirstDifference(a: seq<Key>, b: seq<Key>) returns (i: nat)
    requires |a| == |b| && a != b
    ensures i < |a| && a[i] != b[i] && forall j :: 0 <= j < i ==> a[j] == b[j]
  {
    i := 0;
    while a[i] == b[i]
      invariant i < |a| && forall j :: 0 <= j < i ==> a[j] == b[j]
      invariant exists j :: i <= j < |a| && a[j] != b[j]
      decreases |a| - i
    {
      i := i + 1;
    }
  }

  lemma SameLength(a: seq<Key>, b: seq<Key>)
    requires Distinct(a) && Distinct(b) && Elements(a) == Elements(b)
    ensures |a| == |b|
  {
    Cardinality(a);
    Cardinality(b);
  }

  // ---- building the order ----

  lemma {:induction false} GraphOfItems(entries: seq<Entry>)
    requires IsDict(entries)
    ensures forall e :: e in entries ==> e.key in GraphOf(entries) && GraphOf(entries)[e.key] == e.parents
    ensures forall k :: k in GraphOf(entries) ==> Entry(k, GraphOf(entries)[k]) in entries
  {
    if entries != [] {
      GraphOfItems(entries[..|entries| - 1]);
      assert entries == entries[..|entries| - 1] + [entries[|entries| - 1]];
    }
  }

  lemma AppendWave(g: Graph, n: nat, order: seq<Key>, ready: seq<Key>)
    requires Validated(g) && Distinct(order) && Elements(order) == Wave(g, n) && ByDepth(g, order)
    requires Ascending(ready) && Elements(ready) == Wave(g, n + 1) - Wave(g, n)
    ensures Distinct(order + ready) && Elements(order + ready) == Wave(g, n + 1) && ByDepth(g, order + ready)
  {
    WaveGrows(g, n);
    var all := order + ready;
    assert Elements(all) == Elements(order) + Elements(ready);
    forall i, j | 0 <= i < j < |all| ensures all[i] != all[j] && Before(g, all[i], all[j]) {
      if j < |order| {
        assert all[i] == order[i] && all[j] == order[j];
      } else {
        assert all[j] == ready[j - |order|] && all[j] in Elements(ready);
        WaveIsDepth(g, n, all[j]);
        if i >= |order| {
          assert all[i] == ready[i - |order|] && all[i] in Elements(ready);
          WaveIsDepth(g, n, all[i]);
        } else {
          assert all[i] == order[i] && all[i] in Elements(order);
          var m := EnteredWave(g, n, all[i]);
          WaveIsDepth(g, m, all[i]);
        }
      }
    }
  }

  lemma {:induction false} EnteredWave(g: Graph, n: nat, k: Key) returns (m: nat)
    requires k in Wave(g, n)
    ensures m < n && k in Wave(g, m + 1) && k !in Wave(g, m)
  {
    if k in Wave(g, n - 1) {
      m := EnteredWave(g, n - 1, k);
    } else {
      m := n - 1;
    }
  }

  // The check an item of the dict fails, in the order the checks are made.
  predicate Repeats(parents: seq<Key>) {
    exists a, b | 0 <= a < b < |parents| :: parents[a] == parents[b]
  }

  ghost predicate Fault(g: Graph, e: Entry, error: PlanError) {
    if e.key in e.parents then error == SelfDependency
    else if Repeats(e.parents) then error == DuplicateDependency
    else (exists p :: p in e.parents && p !in g) && error == UnknownDependency
  }

  ghost predicate Sound(g: Graph, e: Entry) {
    forall error :: !Fault(g, e, error)
  }

  lemma SoundIsValid(g: Graph, e: Entry)
    requires e.key in g && g[e.key] == e.parents
    ensures Sound(g, e) <==> ValidItem(g, e.key)
  {
    assert Fault(g, e, SelfDependency) || Fault(g, e, DuplicateDependency) || Fault(g, e, UnknownDependency) || Sound(g, e);
  }

  method CheckItem(g: Graph, e: Entry) returns (ok: bool, error: PlanError)
    ensures ok <==> Sound(g, e)
    ensures !ok ==> Fault(g, e, error)
  {
    if e.key in e.parents {
      assert Fault(g, e, SelfDependency);
      return false, SelfDependency;
    }
    if Repeats(e.parents) {
      assert Fault(g, e, DuplicateDependency);
      return false, DuplicateDependency;
    }
    if exists p | p in e.parents :: p !in g {
      assert Fault(g, e, UnknownDependency);
      return false, UnknownDependency;
    }
    return true, EmptyPlan;
  }

  // Sorter and validation together. The sorter hands out waves of keys whose parents are all done;
  // a wave that would be empty while keys remain is what its cycle check reports.
  method ExecutionOrder(entries: seq<Entry>) returns (r: OrderResult)
    requires IsDict(entries)
    ensures r.Ordered? <==> Validated(GraphOf(entries)) && Acyclic(GraphOf(entries))
    ensures r.Ordered? ==> IsExecutionOrder(GraphOf(entries), r.order) && ParentsFirst(GraphOf(entries), r.order)
    ensures r.Rejected? && r.error == DependencyCycle <==> Validated(GraphOf(entries)) && !Acyclic(GraphOf(entries))
    ensures r.Rejected? && r.error == EmptyPlan <==> entries == []
    // any other refusal reports the first item that fails a check, and its first failing check
    ensures r.Rejected? && r.error != DependencyCycle && r.error != EmptyPlan ==>
      exists i :: 0 <= i < |entries| && Fault(GraphOf(entries), entries[i], r.error)
        && forall j :: 0 <= j < i ==> Sound(GraphOf(entries), entries[j])
  {
    var g := GraphOf(entries);
    GraphOfItems(entries);
    if entries == [] {
      return Rejected(EmptyPlan);
    }
    assert entries[0] in entries && entries[0].key in g;
    var i := 0;
    while i < |entries|
      invariant 0 <= i <= |entries|
      invariant forall j :: 0 <= j < i ==> Sound(g, entries[j])
    {
      assert entries[i] in entries;
      SoundIsValid(g, entries[i]);
      var ok, error := CheckItem(g, entries[i]);
      if !ok {
        return Rejected(error);
      }
      i := i + 1;
    }
    forall k | k in g ensures ValidItem(g, k) {
      var e := Entry(k, g[k]);
      assert e in entries;
      SoundIsValid(g, e);
    }
    r := SortedWaves(g);
  }

  lemma ReadyIsWave(g: Graph, n: nat, done: set<Key>, ready: set<Key>)
    requires done == Wave(g, n)
    requires ready == set k | k in g && k !in done && forall p | p in g[k] :: p in done
    ensures done <= Wave(g, n + 1) <= g.Keys && ready == Wave(g, n + 1) - done
    ensures ready == {} ==> Wave(g, n + 1) == Wave(g, n)
  {
    WaveGrows(g, n);
    assert Wave(g, n + 1) == done + ready;
  }

  method SortedWaves(g: Graph) returns (r: OrderResult)
    requires Validated(g)
    ensures r.Ordered? <==> Acyclic(g)
    ensures r.Ordered? ==> IsExecutionOrder(g, r.order) && ParentsFirst(g, r.order)
    ensures r.Rejected? ==> r.error == DependencyCycle
  {
    var ordered: seq<Key>, done: set<Key> := [], {};
    ghost var n := 0;
    while done != g.Keys
      invariant done == Wave(g, n) <= g.Keys
      invariant Distinct(ordered) && Elements(ordered) == done && ByDepth(g, ordered)
      decreases g.Keys - done
    {
      var ready := set k | k in g && k !in done && forall p | p in g[k] :: p in done;
      ReadyIsWave(g, n, done, ready);
      if ready == {} {
        StalledHasCycle(g, n);
        return Rejected(DependencyCycle);
      }
      var wave := Sorted(ready);
      AppendWave(g, n, ordered, wave);
      ordered := ordered + wave;
      done := done + ready;
      n := n + 1;
    }
    CompleteIsAcyclic(g, n);
    OrderHasParentsFirst(g, ordered);
    r := Ordered(ordered);
  }
}
