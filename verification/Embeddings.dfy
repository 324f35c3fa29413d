/** Resumable batch embedding of stale chunks (app/indexing/embeddings.py). */
module Embeddings {
  import opened Ordering
  import opened Records
  import opened Indexing

  // Not embedded with this profile on this content.
  predicate Stale(r: Row, profile: string) {
    r.vector.None? || r.status != Ready || r.profile != Some(profile) || r.embeddedHash != Some(r.key.hash)
  }

  ghost predicate UpToDate(r: Row, profile: string) {
    r.vector.Some? && r.status == Ready && r.profile == Some(profile) && r.embeddedHash == Some(r.key.hash)
  }

  ghost function StaleSet(rows: seq<Row>, profile: string): set<nat> {
    set p: nat | p < |rows| && Stale(rows[p], profile)
  }

  ghost function Positions(log: seq<nat>): set<nat> {
    set p | p in log
  }

  lemma PositionsConcat(a: seq<nat>, b: seq<nat>)
    ensures Positions(a + b) == Positions(a) + Positions(b)
  {
  }

  // What the embedding provider does with one batch.
  datatype Batch = Vectors(vectors: seq<seq<real>>) | Fails

  ghost predicate SameIds(a: seq<Row>, b: seq<Row>) {
    |a| == |b| && forall i :: 0 <= i < |a| ==> b[i].id == a[i].id
  }

  function Edited(r: Row, edits: map<nat, ChunkKey>, p: nat): Row {
    if p in edits then r.(key := edits[p]) else r
  }

  // Rows that were current are exactly as they were.
  ghost predicate CurrentKept(a: seq<Row>, b: seq<Row>, profile: string) {
    SameIds(a, b) && forall i :: 0 <= i < |a| && !Stale(a[i], profile) ==> b[i] == a[i]
  }

  ghost predicate AllCurrent(rows: seq<Row>, profile: string) {
    forall i :: 0 <= i < |rows| ==> !Stale(rows[i], profile)
  }

  // `log` holds the positions of the saved rows: each once, and current ever since.
  ghost predicate Saved(log: seq<nat>, rows: seq<Row>, profile: string) {
    Distinct(log) && forall p :: p in log ==> p < |rows| && !Stale(rows[p], profile)
  }

  // Different rows, all stale.
  ghost predicate IsBatch(active: seq<nat>, rows: seq<Row>, profile: string) {
    Distinct(active) && forall i :: 0 <= i < |active| ==> active[i] < |rows| && Stale(rows[active[i]], profile)
  }

  lemma SavedKept(log: seq<nat>, a: seq<Row>, b: seq<Row>, profile: string)
    requires Saved(log, a, profile) && CurrentKept(a, b, profile)
    ensures Saved(log, b, profile)
  {
  }

  // Saved rows were current and the batch was stale, so no row is saved twice.
  lemma SavedMore(log: seq<nat>, active: seq<nat>, a: seq<Row>, b: seq<Row>, profile: string)
    requires Saved(log, a, profile) && IsBatch(active, a, profile) && CurrentKept(a, b, profile)
    requires StaleSet(b, profile) == StaleSet(a, profile) - Positions(active)
    ensures Saved(log + active, b, profile)
  {
    forall p | p in log + active ensures p < |b| && !Stale(b[p], profile) {
      if p !in log {
        assert p in Positions(active) && p !in StaleSet(b, profile);
      }
    }
    forall i, j | 0 <= i < |log| && 0 <= j < |active| ensures log[i] != active[j] {
      assert log[i] in log;
    }
  }

  // Since a run started, exactly the rows saved in it have become current.
  ghost predicate Progress(before: seq<nat>, log: seq<nat>, was: seq<Row>, now: seq<Row>, profile: string) {
    before <= log && CurrentKept(was, now, profile)
    && Positions(log[|before|..]) == StaleSet(was, profile) - StaleSet(now, profile)
    && StaleSet(now, profile) <= StaleSet(was, profile)
  }

  lemma OneBatch(
    before: seq<nat>, log: seq<nat>, active: seq<nat>, was: seq<Row>, now: seq<Row>, next: seq<Row>, profile: string)
    requires Progress(before, log, was, now, profile) && active != [] && IsBatch(active, now, profile)
    requires CurrentKept(now, next, profile) && StaleSet(next, profile) == StaleSet(now, profile) - Positions(active)
    ensures Progress(before, log + active, was, next, profile) && StaleSet(next, profile) < StaleSet(now, profile)
  {
    assert active[0] in StaleSet(now, profile) && active[0] in Positions(active);
    assert (log + active)[|before|..] == log[|before|..] + active;
    PositionsConcat(log[|before|..], active);
    assert Positions(active) <= StaleSet(now, profile);
    KeptTransitive(was, now, next, profile);
  }

  lemma KeptTransitive(a: seq<Row>, b: seq<Row>, c: seq<Row>, profile: string)
    requires CurrentKept(a, b, profile) && CurrentKept(b, c, profile)
    ensures CurrentKept(a, c, profile)
  {
  }

  class EmbeddingService {
    const table: ChunkTable
    const profile: string
    const batchSize: nat
    const dimension: nat
    // by turn, the provider's answers and what others write to the chunks of the batch meanwhile
    const provider: nat -> Batch
    const edits: nat -> map<nat, ChunkKey>
    var turn: nat
    // the positions of all rows ever saved, in order
    ghost var log: seq<nat>

    constructor (
      table: ChunkTable, profile: string, batchSize: nat, dimension: nat, provider: nat -> Batch,
      edits: nat -> map<nat, ChunkKey>)
      requires batchSize >= 1
      ensures this.table == table && this.profile == profile && this.batchSize == batchSize && log == []
      ensures this.dimension == dimension && this.provider == provider && this.edits == edits
    {
      this.table, this.profile, this.batchSize, this.dimension := table, profile, batchSize, dimension;
      this.provider, this.edits, turn, log := provider, edits, 0, [];
    }

    // The first stale rows, in order of their ids.
    method Select() returns (active: seq<nat>)
      requires batchSize >= 1
      ensures IsBatch(active, table.rows, profile) && |active| <= batchSize
      ensures active == [] ==> AllCurrent(table.rows, profile)
      ensures forall p: nat :: p < |table.rows| && Stale(table.rows[p], profile) && p !in active ==>
        |active| == batchSize && forall q :: q in active ==> q < p
    {
      active := [];
      var i := 0;
      while i < |table.rows| && |active| < batchSize
        invariant 0 <= i <= |table.rows| && |active| <= batchSize && IsBatch(active, table.rows, profile)
        invariant forall j :: 0 <= j < |active| ==> active[j] < i
        invariant forall p: nat :: p < i && Stale(table.rows[p], profile) ==> p in active
        invariant active == [] ==> forall j :: 0 <= j < i ==> !Stale(table.rows[j], profile)
      {
        if Stale(table.rows[i], profile) {
          active := active + [i];
        }
        i := i + 1;
      }
    }

    // The status of the batch is set; its rows stay stale.
    method MarkAll(active: seq<nat>, status: EmbeddingStatus)
      requires status != Ready && IsBatch(active, table.rows, profile)
      modifies table`rows
      ensures CurrentKept(old(table.rows), table.rows, profile) && IsBatch(active, table.rows, profile)
      ensures StaleSet(table.rows, profile) == StaleSet(old(table.rows), profile)
      ensures forall i :: 0 <= i < |active| ==> table.rows[active[i]].status == status
      ensures forall j :: 0 <= j < |table.rows| ==> table.rows[j].key == old(table.rows)[j].key
    {
      var i := 0;
      while i < |active|
        invariant 0 <= i <= |active| && IsBatch(active, table.rows, profile)
        invariant |table.rows| == |old(table.rows)|
        invariant forall j :: 0 <= j < |table.rows| ==> table.rows[j].key == old(table.rows)[j].key
        invariant CurrentKept(old(table.rows), table.rows, profile)
        invariant forall j :: 0 <= j < |table.rows| ==> (Stale(table.rows[j], profile) <==> Stale(old(table.rows)[j], profile))
        invariant forall j :: 0 <= j < i ==> table.rows[active[j]].status == status
      {
        var p := active[i];
        table.rows := table.rows[p := table.rows[p].(status := status)];
        i := i + 1;
      }
    }

    // Others write to the chunks of the batch while they are being embedded.
    method Meddle(active: seq<nat>, edits: map<nat, ChunkKey>)
      requires IsBatch(active, table.rows, profile)
      requires forall i :: 0 <= i < |active| ==> table.rows[active[i]].status != Ready
      modifies table`rows
      ensures CurrentKept(old(table.rows), table.rows, profile) && IsBatch(active, table.rows, profile)
      ensures StaleSet(table.rows, profile) == StaleSet(old(table.rows), profile)
      ensures forall i :: 0 <= i < |active| ==> table.rows[active[i]] == Edited(old(table.rows)[active[i]], edits, active[i])
    {
      table.rows := seq(|table.rows|, p requires 0 <= p < |table.rows| reads table =>
        if p in active then Edited(table.rows[p], edits, p) else table.rows[p]);
    }

    predicate Unchanged(active: seq<nat>, hashes: seq<Digest>, rows: seq<Row>)
      requires |hashes| == |active| && forall i :: 0 <= i < |active| ==> active[i] < |rows|
    {
      forall i | 0 <= i < |active| :: rows[active[i]].key.hash == hashes[i]
    }

    // The vectors of one batch are stored, or nothing is if a chunk is no longer the one that was read.
    method SaveAll(active: seq<nat>, hashes: seq<Digest>, vectors: seq<seq<real>>) returns (ok: bool)
      requires |vectors| == |active| == |hashes| && IsBatch(active, table.rows, profile)
      modifies table`rows
      ensures ok <==> Unchanged(active, hashes, old(table.rows))
      ensures !ok ==> table.rows == old(table.rows)
      ensures CurrentKept(old(table.rows), table.rows, profile)
      ensures StaleSet(table.rows, profile) == StaleSet(old(table.rows), profile) - if ok then Positions(active) else {}
      ensures ok ==> forall i :: 0 <= i < |active| ==> table.rows[active[i]].vector == Some(vectors[i])
    {
      var was := table.rows;
      var i := 0;
      while i < |active|
        invariant 0 <= i <= |active| && CurrentKept(was, table.rows, profile)
        invariant forall j :: 0 <= j < |was| ==> table.rows[j].key == was[j].key
        invariant forall j :: 0 <= j < |was| ==>
          (Stale(table.rows[j], profile) <==> Stale(was[j], profile) && j !in active[..i])
        invariant forall j :: 0 <= j < i ==> table.rows[active[j]].vector == Some(vectors[j]) && was[active[j]].key.hash == hashes[j]
      {
        var p := active[i];
        assert active[..i + 1] == active[..i] + [p];
        if table.rows[p].key.hash != hashes[i] {
          table.rows := was;
          return false;
        }
        table.rows := table.rows[p := table.rows[p].(
          status := Ready, vector := Some(vectors[i]), profile := Some(profile), embeddedHash := Some(hashes[i]))];
        i := i + 1;
      }
      assert active[..i] == active;
      ok := true;
    }

    // One vector of the right dimension for each row.
    predicate Usable(batch: Batch, count: nat) {
      batch.Vectors? && |batch.vectors| == count && forall v | v in batch.vectors :: |v| == dimension
    }

    function Hashes(active: seq<nat>, rows: seq<Row>): seq<Digest>
      requires forall i :: 0 <= i < |active| ==> active[i] < |rows|
    {
      seq(|active|, i requires 0 <= i < |active| => rows[active[i]].key.hash)
    }

    // What others wrote leaves the content of every chunk of the batch as it was.
    predicate SameContent(active: seq<nat>, edits: map<nat, ChunkKey>, rows: seq<Row>)
      requires forall i :: 0 <= i < |active| ==> active[i] < |rows|
    {
      forall i | 0 <= i < |active| :: Edited(rows[active[i]], edits, active[i]).key.hash == rows[active[i]].key.hash
    }

    // One batch: marked, embedded outside the transaction, saved.
    method EmbedBatch(active: seq<nat>) returns (ok: bool)
      requires active != [] && IsBatch(active, table.rows, profile) && Saved(log, table.rows, profile)
      modifies this`turn, this`log, table`rows
      ensures CurrentKept(old(table.rows), table.rows, profile) && Saved(log, table.rows, profile)
      ensures StaleSet(table.rows, profile) == StaleSet(old(table.rows), profile) - if ok then Positions(active) else {}
      ensures log == old(log) + if ok then active else []
      ensures ok <==> Usable(provider(old(turn)), |active|) && SameContent(active, edits(old(turn)), old(table.rows))
      ensures forall i :: 0 <= i < |active| ==>
        if ok then table.rows[active[i]].vector == Some(provider(old(turn)).vectors[i])
        else table.rows[active[i]].status == Error
    {
      var hashes := Hashes(active, table.rows);
      MarkAll(active, Embedding);
      var batch, meanwhile := provider(turn), edits(turn);
      turn := turn + 1;
      Meddle(active, meanwhile);
      ok := Usable(batch, |active|);
      if ok {
        ok := SaveAll(active, hashes, batch.vectors);
      }
      if ok {
        SavedMore(log, active, old(table.rows), table.rows, profile);
        log := log + active;
      } else {
        MarkAll(active, Error);
        SavedKept(log, old(table.rows), table.rows, profile);
      }
    }

    // `generate`. Every stale row is saved once, by this run or by a later one that takes up after a
    // failure; a run that succeeds leaves every row current.
    method Generate(indexed: bool) returns (ok: bool, completed: nat)
      requires batchSize >= 1 && Saved(log, table.rows, profile)
      modifies this`turn, this`log, table`rows
      ensures Saved(log, table.rows, profile) && Progress(old(log), log, old(table.rows), table.rows, profile)
      ensures ok ==> indexed && AllCurrent(table.rows, profile)
      // each row then has a vector that was made of its content for this profile
      ensures ok ==> forall i :: 0 <= i < |table.rows| ==> UpToDate(table.rows[i], profile)
      // and rows of which that was true before are as they were
      ensures forall i :: 0 <= i < |old(table.rows)| && UpToDate(old(table.rows)[i], profile) ==>
        i < |table.rows| && table.rows[i] == old(table.rows)[i]
      ensures completed == |log| - |old(log)|
    {
      completed := 0;
      if !indexed {
        return false, 0;
      }
      ghost var was, before := table.rows, log;
      while true
        invariant Saved(log, table.rows, profile) && Progress(before, log, was, table.rows, profile)
        invariant completed == |log| - |before|
        decreases StaleSet(table.rows, profile)
      {
        var active := Select();
        if active == [] {
          return true, completed;
        }
        ghost var now, sofar := table.rows, log;
        var saved := EmbedBatch(active);
        if !saved {
          KeptTransitive(was, now, table.rows, profile);
          assert log == sofar && StaleSet(table.rows, profile) == StaleSet(now, profile);
          return false, completed;
        }
        OneBatch(before, sofar, active, was, now, table.rows, profile);
        completed := completed + |active|;
      }
    }
  }

  // A run that leaves every row current has saved each stale row exactly once, and nothing else.
  lemma EachOnce(before: seq<nat>, log: seq<nat>, was: seq<Row>, now: seq<Row>, profile: string)
    requires Progress(before, log, was, now, profile) && Saved(log, now, profile) && AllCurrent(now, profile)
    ensures Distinct(log[|before|..]) && Positions(log[|before|..]) == StaleSet(was, profile)
    ensures forall p :: p in log[|before|..] ==> p !in before
  {
    assert StaleSet(now, profile) == {};
    forall i, j | |before| <= i < j < |log| ensures log[i] != log[j] {
    }
  }

  // Runs that failed and the run that takes up after them add up to one.
  lemma RunsAddUp(
    before: seq<nat>, between: seq<nat>, log: seq<nat>, was: seq<Row>, middle: seq<Row>, now: seq<Row>, profile: string)
    requires Progress(before, between, was, middle, profile) && Progress(between, log, middle, now, profile)
    ensures Progress(before, log, was, now, profile)
  {
    assert log[|before|..] == between[|before|..] + log[|between|..];
    PositionsConcat(between[|before|..], log[|between|..]);
    KeptTransitive(was, middle, now, profile);
  }
}
