/** Reciprocal rank fusion of two retrievers (app/retrieval/hybrid.py). */
module RankFusion {
  import opened Ordering
  import opened Records

  datatype Hit = Hit(id: Key, path: Key, startLine: nat, endLine: nat, content: string, score: real, rank: nat)

  // One result: the document, the hit of each source that found it, and the fused score.
  datatype Fused = Fused(document: Hit, lexical: Option<Hit>, semantic: Option<Hit>, score: real)

  datatype Result = Result(fused: Fused, rank: nat)

  // ---- one source ----

  function Ids(hits: seq<Hit>): set<Key> {
    set h | h in hits :: h.id
  }

  // The first of the best-ranked hits of a document: what sorting by rank, which keeps the order of
  // equals, puts first.
  function Best(hits: seq<Hit>, id: Key): (r: Option<Hit>)
    ensures r.Some? ==> r.value in hits && r.value.id == id
    ensures r.Some? <==> id in Ids(hits)
  {
    if hits == [] then None
    else
      assert hits == hits[..|hits| - 1] + [hits[|hits| - 1]];
      var front, last := Best(hits[..|hits| - 1], id), hits[|hits| - 1];
      if last.id == id && (front.None? || last.rank < front.value.rank) then Some(last) else front
  }

  lemma {:induction false} BestIsLeast(hits: seq<Hit>, id: Key, i: nat)
    requires i < |hits| && hits[i].id == id
    ensures Best(hits, id).Some? && Best(hits, id).value.rank <= hits[i].rank
  {
    if i < |hits| - 1 {
      BestIsLeast(hits[..|hits| - 1], id, i);
    }
  }

  // ---- fusion ----

  function Reciprocal(k: nat, hit: Option<Hit>): real
    requires k >= 1
  {
    if hit.None? then 0.0 else 1.0 / ((k + hit.value.rank) as real)
  }

  function FusedScore(k: nat, lexical: Option<Hit>, semantic: Option<Hit>): real
    requires k >= 1
  {
    Reciprocal(k, lexical) + Reciprocal(k, semantic)
  }

  function Fuse(k: nat, lexical: Option<Hit>, semantic: Option<Hit>): Fused
    requires k >= 1 && (lexical.Some? || semantic.Some?)
  {
    Fused(if lexical.Some? then lexical.value else semantic.value, lexical, semantic, FusedScore(k, lexical, semantic))
  }

  // If all ranks are within 1..k+1, a document found by both sources beats every one found by only one.
  lemma BothBeatsOne(k: nat, a: Option<Hit>, b: Option<Hit>, c: Hit)
    requires k >= 1 && a.Some? && b.Some?
    requires 1 <= a.value.rank <= k + 1 && 1 <= b.value.rank <= k + 1 && 1 <= c.rank
    ensures FusedScore(k, a, b) > FusedScore(k, Some(c), None) && FusedScore(k, a, b) > FusedScore(k, None, Some(c))
  {
    var worst := (2 * k + 1) as real;
    ReciprocalFalls((k + a.value.rank) as real, worst);
    ReciprocalFalls((k + b.value.rank) as real, worst);
    ReciprocalFalls((k + 1) as real, (k + c.rank) as real);
    TwoHalves(k);
  }

  lemma ReciprocalFalls(x: real, y: real)
    requires 0.0 < x <= y
    ensures 1.0 / x >= 1.0 / y
  {
    assert 1.0 / x - 1.0 / y == (y - x) / (x * y);
  }

  lemma TwoHalves(k: nat)
    requires k >= 1
    ensures 2.0 * (1.0 / ((2 * k + 1) as real)) > 1.0 / ((k + 1) as real)
  {
    var x, y := (2 * k + 1) as real, (k + 1) as real;
    assert 2.0 * (1.0 / x) - 1.0 / y == (2.0 * y - x) / (x * y);
    assert 2.0 * y - x == 1.0;
  }

  // One rank further the advantage is gone: the scores are equal.
  lemma AdvantageEnds(k: nat, a: Hit, b: Hit, c: Hit)
    requires k >= 1 && a.rank == b.rank == k + 2 && c.rank == 1
    ensures FusedScore(k, Some(a), Some(b)) == FusedScore(k, Some(c), None)
  {
    var y := (k + 1) as real;
    assert (k + a.rank) as real == 2.0 * y;
    assert 1.0 / (2.0 * y) + 1.0 / (2.0 * y) == 1.0 / y;
  }

  // ---- the order of the results ----

  // By falling score, then by path, lines and id.
  predicate Before(a: Fused, b: Fused) {
    a.score > b.score
    || (a.score == b.score
        && (if a.document.path != b.document.path then Leq(a.document.path, b.document.path)
            else if a.document.startLine != b.document.startLine then a.document.startLine < b.document.startLine
            else if a.document.endLine != b.document.endLine then a.document.endLine < b.document.endLine
            else Leq(a.document.id, b.document.id)))
  }

  lemma BeforeTotal(a: Fused, b: Fused)
    ensures Before(a, b) || Before(b, a)
  {
    LeqTotal(a.document.path, b.document.path);
    LeqTotal(a.document.id, b.document.id);
  }

  lemma BeforeAntisymmetric(a: Fused, b: Fused)
    requires Before(a, b) && Before(b, a)
    ensures a.document.id == b.document.id
  {
    if a.document.path != b.document.path {
      LeqAntisymmetric(a.document.path, b.document.path);
    } else {
      LeqAntisymmetric(a.document.id, b.document.id);
    }
  }

  lemma BeforeTransitive(a: Fused, b: Fused, c: Fused)
    requires Before(a, b) && Before(b, c)
    ensures Before(a, c)
  {
    if a.document.path != b.document.path && b.document.path != c.document.path && a.document.path == c.document.path {
      if a.score == b.score && b.score == c.score {
        LeqAntisymmetric(a.document.path, b.document.path);
      }
    } else {
      if a.score == b.score && b.score == c.score && a.document.path != c.document.path {
        LeqTotal(a.document.path, a.document.path);
        LeqTotal(c.document.path, c.document.path);
        LeqTransitive(a.document.path, b.document.path, c.document.path);
      }
      if a.score == b.score && b.score == c.score && Leq(a.document.id, b.document.id) && Leq(b.document.id, c.document.id) {
        LeqTransitive(a.document.id, b.document.id, c.document.id);
      }
    }
  }

  ghost predicate Ranked(s: seq<Fused>) {
    forall i, j :: 0 <= i < j < |s| ==> Before(s[i], s[j]) && s[i].document.id != s[j].document.id
  }

  lemma HeadIsElement(s: seq<Fused>)
    requires s != []
    ensures s[0] in Elements(s) && s == [s[0]] + s[1..]
  {
  }

  lemma SameHead(a: seq<Fused>, b: seq<Fused>)
    requires Ranked(a) && Ranked(b) && Elements(a) == Elements(b) && a != [] && b != []
    ensures a[0] == b[0]
  {
    HeadIsElement(a);
    HeadIsElement(b);
    var j :| 0 <= j < |b| && b[j] == a[0];
    var i :| 0 <= i < |a| && a[i] == b[0];
    if i != 0 && j != 0 {
      BeforeAntisymmetric(a[0], b[0]);
    }
  }

  // There is only one way to order the results.
  lemma {:induction false} RankedUnique(a: seq<Fused>, b: seq<Fused>)
    requires Ranked(a) && Ranked(b) && Elements(a) == Elements(b)
    ensures a == b
  {
    if a != [] { HeadIsElement(a); }
    if b != [] { HeadIsElement(b); }
    if a != [] && b != [] {
      SameHead(a, b);
      TailElements(a);
      TailElements(b);
      RankedUnique(a[1..], b[1..]);
    }
  }

  lemma TailElements(s: seq<Fused>)
    requires s != [] && Ranked(s)
    ensures Elements(s[1..]) == Elements(s) - {s[0]} && Ranked(s[1..])
  {
    assert s == [s[0]] + s[1..];
    forall x | x in s[1..] ensures x != s[0] {
      var i :| 0 <= i < |s[1..]| && s[1..][i] == x;
      assert s[i + 1] == x;
    }
  }

  ghost predicate DistinctIds(items: set<Fused>) {
    forall a, b :: a in items && b in items && a != b ==> a.document.id != b.document.id
  }

  predicate First(m: Fused, items: set<Fused>) {
    m in items && forall x | x in items :: Before(m, x)
  }

  // The first of two first ones.
  lemma FirstOfTwo(m: Fused, x: Fused, items: set<Fused>) returns (f: Fused)
    requires x in items && First(m, items - {x})
    ensures First(f, items)
  {
    BeforeTotal(m, x);
    BeforeTotal(x, x);
    if Before(x, m) {
      f := x;
      forall y | y in items ensures Before(x, y) {
        if y != x {
          assert y in items - {x};
          BeforeTransitive(x, m, y);
        }
      }
    } else {
      f := m;
      forall y | y in items ensures Before(m, y) {
        assert y == x || y in items - {x};
      }
    }
  }

  lemma {:induction false} FirstExists(items: set<Fused>) returns (f: Fused)
    requires items != {}
    ensures First(f, items)
  {
    var x :| x in items;
    if items == {x} {
      BeforeTotal(x, x);
      f := x;
    } else {
      f := FirstExists(items - {x});
      f := FirstOfTwo(f, x, items);
    }
  }

  // What is placed so far, and what is not.
  ghost predicate Placed(r: seq<Fused>, rest: set<Fused>, items: set<Fused>) {
    rest <= items && Elements(r) == items - rest && Ranked(r) && forall a, b :: a in Elements(r) && b in rest ==> Before(a, b)
  }

  lemma PlaceNext(r: seq<Fused>, rest: set<Fused>, items: set<Fused>, m: Fused)
    requires DistinctIds(items) && Placed(r, rest, items) && First(m, rest)
    ensures Placed(r + [m], rest - {m}, items)
  {
    assert Elements(r + [m]) == Elements(r) + {m};
    assert forall i :: 0 <= i < |r| ==> r[i] in Elements(r);
  }

  // `fused.sort(...)`.
  method Sort(items: set<Fused>) returns (r: seq<Fused>)
    requires DistinctIds(items)
    ensures Ranked(r) && Elements(r) == items
  {
    r := [];
    var rest := items;
    while rest != {}
      invariant Placed(r, rest, items)
      decreases |rest|
    {
      ghost var first := FirstExists(rest);
      assert First(first, rest);
      var m :| m in rest && First(m, rest);
      PlaceNext(r, rest, items, m);
      r := r + [m];
      rest := rest - {m};
    }
  }

  // ---- the search ----

  function Ids2(lexical: seq<Hit>, semantic: seq<Hit>): set<Key> {
    Ids(lexical) + Ids(semantic)
  }

  function FusedSet(k: nat, lexical: seq<Hit>, semantic: seq<Hit>): set<Fused>
    requires k >= 1
  {
    set id | id in Ids2(lexical, semantic) :: Fuse(k, Best(lexical, id), Best(semantic, id))
  }

  // The complete ranking of what two sources have found: each document once, in the one order there is.
  ghost predicate IsRanking(ordered: seq<Fused>, k: nat, lexical: seq<Hit>, semantic: seq<Hit>)
    requires k >= 1
  {
    Ranked(ordered) && Elements(ordered) == FusedSet(k, lexical, semantic)
  }

  function Cut(ordered: seq<Fused>, n: nat): seq<Fused> {
    if n < |ordered| then ordered[..n] else ordered
  }

  function Number(ordered: seq<Fused>): seq<Result> {
    seq(|ordered|, i requires 0 <= i < |ordered| => Result(ordered[i], i + 1))
  }

  ghost predicate CutFrom(results: seq<Result>, ordered: seq<Fused>, topK: nat) {
    results == Number(Cut(ordered, topK))
  }

  // The best results of the complete ranking.
  ghost predicate Answers(results: seq<Result>, k: nat, lexical: seq<Hit>, semantic: seq<Hit>, topK: nat)
    requires k >= 1
  {
    exists ordered :: IsRanking(ordered, k, lexical, semantic) && CutFrom(results, ordered, topK)
  }

  function Depth(limit: nat, topK: nat): nat {
    if topK > limit then topK else limit
  }

  class HybridRetrievalService {
    const bm25: nat -> seq<Hit>
    const vector: nat -> seq<Hit>
    const candidateLimit: nat
    const k: nat

    constructor (bm25: nat -> seq<Hit>, vector: nat -> seq<Hit>, candidateLimit: nat, k: nat)
      requires 1 <= candidateLimit <= 100 && k >= 1
      ensures this.bm25 == bm25 && this.vector == vector && this.candidateLimit == candidateLimit && this.k == k
    {
      this.bm25, this.vector, this.candidateLimit, this.k := bm25, vector, candidateLimit, k;
    }

    // One hit of each document, and the best.
    method Collect(hits: seq<Hit>) returns (unique: map<Key, Hit>)
      ensures unique.Keys == Ids(hits) && forall id :: id in unique ==> Best(hits, id) == Some(unique[id])
      ensures forall i :: 0 <= i < |hits| ==> hits[i].id in unique && unique[hits[i].id].rank <= hits[i].rank
    {
      unique := map[];
      var i := 0;
      while i < |hits|
        invariant 0 <= i <= |hits| && unique.Keys == Ids(hits[..i])
        invariant forall id :: id in unique ==> Best(hits[..i], id) == Some(unique[id])
      {
        assert hits[..i + 1] == hits[..i] + [hits[i]] && hits[..i + 1][..i] == hits[..i];
        var hit := hits[i];
        if hit.id !in unique || hit.rank < unique[hit.id].rank {
          unique := unique[hit.id := hit];
        }
        i := i + 1;
      }
      assert hits[..i] == hits;
      forall j | 0 <= j < |hits| ensures hits[j].id in unique && unique[hits[j].id].rank <= hits[j].rank {
        assert hits[j].id in Ids(hits);
        BestIsLeast(hits, hits[j].id, j);
      }
    }

    // `search`: both sources are asked to the same depth, and their ranking is cut.
    method Search(topK: nat) returns (results: seq<Result>)
      requires 1 <= topK && k >= 1
      ensures Answers(results, k, bm25(Depth(candidateLimit, topK)), vector(Depth(candidateLimit, topK)), topK)
    {
      var depth := Depth(candidateLimit, topK);
      var lexical := Collect(bm25(depth));
      var semantic := Collect(vector(depth));
      var fused := set id | id in lexical.Keys + semantic.Keys ::
        Fuse(k, if id in lexical then Some(lexical[id]) else None, if id in semantic then Some(semantic[id]) else None);
      FusedAre(k, bm25(depth), vector(depth), lexical, semantic);
      FusedDistinct(k, bm25(depth), vector(depth));
      var all := Sort(fused);
      var top := if topK < |all| then all[..topK] else all;
      results := seq(|top|, i requires 0 <= i < |top| => Result(top[i], i + 1));
      assert CutFrom(results, all, topK);
    }
  }

  lemma FusedAre(k: nat, a: seq<Hit>, b: seq<Hit>, lexical: map<Key, Hit>, semantic: map<Key, Hit>)
    requires k >= 1 && lexical.Keys == Ids(a) && semantic.Keys == Ids(b)
    requires forall id :: id in lexical ==> Best(a, id) == Some(lexical[id])
    requires forall id :: id in semantic ==> Best(b, id) == Some(semantic[id])
    ensures (set id | id in lexical.Keys + semantic.Keys ::
        Fuse(k, if id in lexical then Some(lexical[id]) else None, if id in semantic then Some(semantic[id]) else None))
      == FusedSet(k, a, b)
  {
    assert lexical.Keys + semantic.Keys == Ids2(a, b);
    assert forall id :: id in Ids2(a, b) ==>
      (if id in lexical then Some(lexical[id]) else None) == Best(a, id)
      && (if id in semantic then Some(semantic[id]) else None) == Best(b, id);
  }

  lemma FusedDistinct(k: nat, a: seq<Hit>, b: seq<Hit>)
    requires k >= 1
    ensures DistinctIds(FusedSet(k, a, b))
    ensures forall f :: f in FusedSet(k, a, b) ==> f.document.id in Ids2(a, b) && f == Fuse(k, Best(a, f.document.id), Best(b, f.document.id))
  {
  }

  // ---- what holds of every search ----

  function DocumentIds(ordered: seq<Fused>): seq<Key> {
    seq(|ordered|, i requires 0 <= i < |ordered| => ordered[i].document.id)
  }

  lemma RankingIds(ordered: seq<Fused>, k: nat, a: seq<Hit>, b: seq<Hit>)
    requires k >= 1 && IsRanking(ordered, k, a, b)
    ensures Distinct(DocumentIds(ordered)) && Elements(DocumentIds(ordered)) == Ids2(a, b)
  {
    FusedDistinct(k, a, b);
    var ids := DocumentIds(ordered);
    forall i | 0 <= i < |ids| ensures ids[i] in Ids2(a, b) {
      assert ordered[i] in Elements(ordered);
    }
    forall id | id in Ids2(a, b) ensures id in Elements(ids) {
      var f := Fuse(k, Best(a, id), Best(b, id));
      assert f in Elements(ordered) && f.document.id == id;
      var i :| 0 <= i < |ordered| && ordered[i] == f;
      assert ids[i] == id;
    }
  }

  lemma RankingCount(ordered: seq<Fused>, k: nat, a: seq<Hit>, b: seq<Hit>)
    requires k >= 1 && IsRanking(ordered, k, a, b)
    ensures |ordered| == |Ids2(a, b)| && forall i :: 0 <= i < |ordered| ==> ordered[i].document.id in Ids2(a, b)
  {
    RankingIds(ordered, k, a, b);
    var ids := DocumentIds(ordered);
    Cardinality(ids);
    assert forall i :: 0 <= i < |ids| ==> ids[i] in Elements(ids);
    forall i | 0 <= i < |ordered| ensures ordered[i].document.id in Ids2(a, b) {
      assert ids[i] == ordered[i].document.id;
    }
  }

  // Each document that was found appears once, with consecutive ranks, in the order of the sort key.
  lemma ResultsAre(results: seq<Result>, topK: nat, k: nat, a: seq<Hit>, b: seq<Hit>)
    requires k >= 1 && Answers(results, k, a, b, topK)
    ensures forall i :: 0 <= i < |results| ==> results[i].rank == i + 1 && results[i].fused.document.id in Ids2(a, b)
    ensures forall i, j :: 0 <= i < j < |results| ==>
      results[i].fused.document.id != results[j].fused.document.id && Before(results[i].fused, results[j].fused)
    ensures |results| == if topK < |Ids2(a, b)| then topK else |Ids2(a, b)|
  {
    var ordered: seq<Fused> :| IsRanking(ordered, k, a, b) && CutFrom(results, ordered, topK);
    RankingCount(ordered, k, a, b);
  }

  function Share(k: nat, hit: Option<Hit>): real
    requires k >= 1
  {
    if hit.None? then 0.0 else 1.0 / (k as real + hit.value.rank as real)
  }

  // A higher score comes first; equal scores are ordered by path, first line, last line and id.
  ghost predicate SortsFirst(a: Fused, b: Fused) {
    a.score > b.score
    || (a.score == b.score
        && (if a.document.path != b.document.path then Lexicographic(a.document.path, b.document.path)
            else if a.document.startLine != b.document.startLine then a.document.startLine < b.document.startLine
            else if a.document.endLine != b.document.endLine then a.document.endLine < b.document.endLine
            else a.document.id != b.document.id && Lexicographic(a.document.id, b.document.id)))
  }

  lemma ResultsSorted(results: seq<Result>, topK: nat, k: nat, a: seq<Hit>, b: seq<Hit>, i: nat, j: nat)
    requires k >= 1 && Answers(results, k, a, b, topK) && i < j < |results|
    ensures SortsFirst(results[i].fused, results[j].fused)
  {
    ResultsAre(results, topK, k, a, b);
    LeqMeans(results[i].fused.document.path, results[j].fused.document.path);
    LeqMeans(results[i].fused.document.id, results[j].fused.document.id);
  }

  // The hit of this document, if there is one, with the least rank.
  ghost predicate LeastHit(hit: Option<Hit>, hits: seq<Hit>, id: Key) {
    (hit.Some? ==> hit.value in hits && hit.value.id == id)
    && forall i :: 0 <= i < |hits| && hits[i].id == id ==> hit.Some? && hit.value.rank <= hits[i].rank
  }

  lemma {:induction false} BestIs(hits: seq<Hit>, id: Key)
    ensures LeastHit(Best(hits, id), hits, id)
  {
    forall i | 0 <= i < |hits| && hits[i].id == id ensures Best(hits, id).Some? && Best(hits, id).value.rank <= hits[i].rank {
      BestIsLeast(hits, id, i);
    }
    if hits != [] {
      BestIs(hits[..|hits| - 1], id);
    }
  }

  // Each result carries the best hit of each source and the sum of 1 / (k + rank) over them.
  lemma ResultCarries(results: seq<Result>, topK: nat, k: nat, a: seq<Hit>, b: seq<Hit>, i: nat)
    requires k >= 1 && Answers(results, k, a, b, topK) && i < |results|
    ensures var f := results[i].fused;
      LeastHit(f.lexical, a, f.document.id) && LeastHit(f.semantic, b, f.document.id)
      && f.score == Share(k, f.lexical) + Share(k, f.semantic)
  {
    var ordered: seq<Fused> :| IsRanking(ordered, k, a, b) && CutFrom(results, ordered, topK);
    assert ordered[i] in Elements(ordered) && ordered[i] == results[i].fused;
    FusedCarries(k, a, b, ordered[i]);
  }

  lemma FusedCarries(k: nat, a: seq<Hit>, b: seq<Hit>, f: Fused)
    requires k >= 1 && f in FusedSet(k, a, b)
    ensures LeastHit(f.lexical, a, f.document.id) && LeastHit(f.semantic, b, f.document.id)
    ensures f.score == Share(k, f.lexical) + Share(k, f.semantic)
  {
    FusedDistinct(k, a, b);
    BestIs(a, f.document.id);
    BestIs(b, f.document.id);
  }

  // Within the candidate limit a smaller request gets a prefix of what a larger one gets.
  lemma SmallerIsPrefix(
    bm25: nat -> seq<Hit>, vector: nat -> seq<Hit>, limit: nat, k: nat, m: nat, n: nat, few: seq<Result>, many: seq<Result>)
    requires k >= 1 && m <= n <= limit
    requires Answers(few, k, bm25(Depth(limit, m)), vector(Depth(limit, m)), m)
    requires Answers(many, k, bm25(Depth(limit, n)), vector(Depth(limit, n)), n)
    ensures few <= many
  {
    var x: seq<Fused> :| IsRanking(x, k, bm25(limit), vector(limit)) && CutFrom(few, x, m);
    var y: seq<Fused> :| IsRanking(y, k, bm25(limit), vector(limit)) && CutFrom(many, y, n);
    RankedUnique(x, y);
    assert few == many[..|few|];
  }

  // Documents found by both sources come before all documents found by one.
  lemma BothFirst(results: seq<Result>, topK: nat, k: nat, a: seq<Hit>, b: seq<Hit>, i: nat, j: nat)
    requires k >= 1 && Answers(results, k, a, b, topK) && i < |results| && j < |results|
    requires forall h :: h in a || h in b ==> 1 <= h.rank <= k + 1
    requires results[i].fused.lexical.Some? && results[i].fused.semantic.Some?
    requires results[j].fused.lexical.None? || results[j].fused.semantic.None?
    ensures i < j
  {
    var ordered: seq<Fused> :| IsRanking(ordered, k, a, b) && CutFrom(results, ordered, topK);
    FusedDistinct(k, a, b);
    assert ordered[i] in Elements(ordered) && ordered[j] in Elements(ordered);
    var x, y := ordered[i], ordered[j];
    assert results[i].fused == x && results[j].fused == y;
    BothBeatsOne(k, x.lexical, x.semantic, y.document);
    assert x.score > y.score;
  }

  // ---- the retrievers' own scores do not matter ----

  function Unscored(h: Hit): Hit {
    h.(score := 0.0)
  }

  function UnscoredHits(hits: seq<Hit>): seq<Hit> {
    seq(|hits|, i requires 0 <= i < |hits| => Unscored(hits[i]))
  }

  function UnscoredHit(h: Option<Hit>): Option<Hit> {
    if h.None? then None else Some(Unscored(h.value))
  }

  function UnscoredFused(f: Fused): Fused {
    Fused(Unscored(f.document), UnscoredHit(f.lexical), UnscoredHit(f.semantic), f.score)
  }

  function UnscoredAll(s: seq<Fused>): seq<Fused> {
    seq(|s|, i requires 0 <= i < |s| => UnscoredFused(s[i]))
  }

  lemma {:induction false} BestUnscored(hits: seq<Hit>, id: Key)
    ensures Best(UnscoredHits(hits), id) == UnscoredHit(Best(hits, id))
  {
    if hits != [] {
      BestUnscored(hits[..|hits| - 1], id);
      assert UnscoredHits(hits)[..|hits| - 1] == UnscoredHits(hits[..|hits| - 1]);
    }
  }

  lemma IdsUnscored(hits: seq<Hit>)
    ensures Ids(UnscoredHits(hits)) == Ids(hits)
  {
    forall id | id in Ids(hits) ensures id in Ids(UnscoredHits(hits)) {
      var i :| 0 <= i < |hits| && hits[i].id == id;
      assert UnscoredHits(hits)[i] in UnscoredHits(hits);
    }
  }

  lemma ReciprocalUnscored(k: nat, h: Option<Hit>)
    requires k >= 1
    ensures Reciprocal(k, UnscoredHit(h)) == Reciprocal(k, h)
  {
  }

  lemma FuseUnscored(k: nat, a: seq<Hit>, b: seq<Hit>, id: Key)
    requires k >= 1 && id in Ids2(a, b)
    ensures id in Ids2(UnscoredHits(a), UnscoredHits(b))
    ensures Fuse(k, Best(UnscoredHits(a), id), Best(UnscoredHits(b), id)) == UnscoredFused(Fuse(k, Best(a, id), Best(b, id)))
  {
    IdsUnscored(a);
    IdsUnscored(b);
    BestUnscored(a, id);
    BestUnscored(b, id);
    FuseOfUnscored(k, Best(a, id), Best(b, id));
  }

  lemma FuseOfUnscored(k: nat, x: Option<Hit>, y: Option<Hit>)
    requires k >= 1 && (x.Some? || y.Some?)
    ensures Fuse(k, UnscoredHit(x), UnscoredHit(y)) == UnscoredFused(Fuse(k, x, y))
  {
    ReciprocalUnscored(k, x);
    ReciprocalUnscored(k, y);
  }

  lemma RankedUnscored(ordered: seq<Fused>)
    requires Ranked(ordered)
    ensures Ranked(UnscoredAll(ordered))
  {
  }

  lemma RankingUnscored(ordered: seq<Fused>, k: nat, a: seq<Hit>, b: seq<Hit>)
    requires k >= 1 && IsRanking(ordered, k, a, b)
    ensures IsRanking(UnscoredAll(ordered), k, UnscoredHits(a), UnscoredHits(b))
  {
    RankedUnscored(ordered);
    var plain, target := Elements(UnscoredAll(ordered)), FusedSet(k, UnscoredHits(a), UnscoredHits(b));
    forall f | f in target ensures f in plain { IntoPlain(ordered, k, a, b, f); }
    forall f | f in plain ensures f in target { IntoTarget(ordered, k, a, b, f); }
    assert plain == target;
  }

  lemma IntoPlain(ordered: seq<Fused>, k: nat, a: seq<Hit>, b: seq<Hit>, f: Fused)
    requires k >= 1 && Elements(ordered) == FusedSet(k, a, b) && f in FusedSet(k, UnscoredHits(a), UnscoredHits(b))
    ensures f in Elements(UnscoredAll(ordered))
  {
    IdsUnscored(a);
    IdsUnscored(b);
    var id :| id in Ids2(UnscoredHits(a), UnscoredHits(b)) && f == Fuse(k, Best(UnscoredHits(a), id), Best(UnscoredHits(b), id));
    FuseUnscored(k, a, b, id);
    var g := Fuse(k, Best(a, id), Best(b, id));
    assert g in Elements(ordered);
    var i :| 0 <= i < |ordered| && ordered[i] == g;
    assert UnscoredAll(ordered)[i] == f;
  }

  lemma IntoTarget(ordered: seq<Fused>, k: nat, a: seq<Hit>, b: seq<Hit>, f: Fused)
    requires k >= 1 && Elements(ordered) == FusedSet(k, a, b) && f in Elements(UnscoredAll(ordered))
    ensures f in FusedSet(k, UnscoredHits(a), UnscoredHits(b))
  {
    FusedDistinct(k, a, b);
    var i :| 0 <= i < |ordered| && UnscoredAll(ordered)[i] == f;
    assert ordered[i] in Elements(ordered);
    FuseUnscored(k, a, b, ordered[i].document.id);
  }

  // Sources that differ only in their raw scores lead to the same documents in the same order.
  lemma RawScoresDoNotMatter(
    one: seq<Result>, other: seq<Result>, topK: nat, k: nat, a: seq<Hit>, b: seq<Hit>, c: seq<Hit>, d: seq<Hit>)
    requires k >= 1 && Answers(one, k, a, b, topK) && Answers(other, k, c, d, topK)
    requires UnscoredHits(a) == UnscoredHits(c) && UnscoredHits(b) == UnscoredHits(d)
    ensures |one| == |other| && forall i :: 0 <= i < |one| ==> one[i].fused.document.id == other[i].fused.document.id
  {
    var x: seq<Fused> :| IsRanking(x, k, a, b) && CutFrom(one, x, topK);
    var y: seq<Fused> :| IsRanking(y, k, c, d) && CutFrom(other, y, topK);
    SameDocuments(x, y, k, a, b, c, d);
  }

  lemma SameDocuments(x: seq<Fused>, y: seq<Fused>, k: nat, a: seq<Hit>, b: seq<Hit>, c: seq<Hit>, d: seq<Hit>)
    requires k >= 1 && IsRanking(x, k, a, b) && IsRanking(y, k, c, d)
    requires UnscoredHits(a) == UnscoredHits(c) && UnscoredHits(b) == UnscoredHits(d)
    ensures |x| == |y| && forall i :: 0 <= i < |x| ==> x[i].document.id == y[i].document.id
  {
    RankingUnscored(x, k, a, b);
    RankingUnscored(y, k, c, d);
    RankedUnique(UnscoredAll(x), UnscoredAll(y));
    assert |UnscoredAll(x)| == |UnscoredAll(y)|;
    forall i | 0 <= i < |x| ensures x[i].document.id == y[i].document.id {
      assert UnscoredAll(x)[i].document.id == UnscoredAll(y)[i].document.id;
    }
  }
}
