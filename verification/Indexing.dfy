/** Reconciling the stored chunks with those of the source (app/indexing/service.py). */
module Indexing {
  import opened Records

  // What identifies a chunk: its place, its language and its text with its digest.
  datatype ChunkKey = ChunkKey(path: string, startLine: nat, endLine: nat, hash: Digest, language: string, content: string)

  datatype EmbeddingStatus = Pending | Embedding | Ready | Error

  // A stored chunk. `vector`, `profile` and `embeddedHash` are null until the chunk has been embedded.
  datatype Row = Row(
    id: nat, key: ChunkKey, status: EmbeddingStatus, vector: Option<seq<real>>, profile: Option<string>,
    embeddedHash: Option<Digest>)

  function KeySet(rows: seq<Row>): set<ChunkKey> {
    if rows == [] then {} else KeySet(rows[..|rows| - 1]) + {rows[|rows| - 1].key}
  }

  lemma {:induction false} KeySetHas(rows: seq<Row>)
    ensures forall k :: k in KeySet(rows) <==> exists i :: 0 <= i < |rows| && rows[i].key == k
  {
    if rows != [] {
      KeySetHas(rows[..|rows| - 1]);
    }
  }

  function Keys(rows: seq<Row>): seq<ChunkKey> {
    seq(|rows|, i requires 0 <= i < |rows| => rows[i].key)
  }

  ghost predicate Sorted(rows: seq<Row>) {
    forall i, j :: 0 <= i < j < |rows| ==> rows[i].id < rows[j].id
  }

  // ---- what is kept and what is added ----

  // Of each wanted key the record with the least id.
  function Firsts(rows: seq<Row>, wanted: set<ChunkKey>): seq<Row> {
    if rows == [] then []
    else
      var front, last := rows[..|rows| - 1], rows[|rows| - 1];
      Firsts(front, wanted) + if last.key in wanted && last.key !in KeySet(front) then [last] else []
  }

  // The chunks that need a new record: all but the first with a key that is stored already.
  function Extra(chunks: seq<ChunkKey>, stored: set<ChunkKey>): seq<ChunkKey> {
    if chunks == [] then []
    else
      var front, last := chunks[..|chunks| - 1], chunks[|chunks| - 1];
      Extra(front, stored) + if last in stored && last !in front then [] else [last]
  }

  function NewRow(id: nat, key: ChunkKey): Row {
    Row(id, key, Pending, None, None, None)
  }

  function NewRows(id: nat, keys: seq<ChunkKey>): seq<Row> {
    seq(|keys|, i requires 0 <= i < |keys| => NewRow(id + i, keys[i]))
  }

  function Wanted(chunks: seq<ChunkKey>): set<ChunkKey> {
    set c | c in chunks
  }

  function Reconciled(rows: seq<Row>, next: nat, chunks: seq<ChunkKey>): seq<Row> {
    Firsts(rows, Wanted(chunks)) + NewRows(next, Extra(chunks, KeySet(rows)))
  }

  lemma {:induction false} FirstsKeys(rows: seq<Row>, wanted: set<ChunkKey>)
    ensures multiset(Keys(Firsts(rows, wanted))) == multiset(wanted * KeySet(rows))
  {
    if rows == [] {
      assert wanted * KeySet(rows) == {};
    } else {
      var front, last := rows[..|rows| - 1], rows[|rows| - 1];
      FirstsKeys(front, wanted);
      assert rows == front + [last];
      assert KeySet(rows) == KeySet(front) + {last.key};
      if last.key in wanted && last.key !in KeySet(front) {
        assert Keys(Firsts(front, wanted) + [last]) == Keys(Firsts(front, wanted)) + [last.key];
        assert wanted * KeySet(rows) == wanted * KeySet(front) + {last.key};
      } else {
        assert Firsts(rows, wanted) == Firsts(front, wanted);
        assert wanted * KeySet(rows) == wanted * KeySet(front);
      }
    }
  }

  lemma {:induction false} ExtraKeys(chunks: seq<ChunkKey>, stored: set<ChunkKey>)
    ensures multiset(Extra(chunks, stored)) + multiset(Wanted(chunks) * stored) == multiset(chunks)
  {
    if chunks == [] {
      assert Wanted(chunks) * stored == {};
    } else {
      var front, last := chunks[..|chunks| - 1], chunks[|chunks| - 1];
      ExtraKeys(front, stored);
      assert chunks == front + [last];
      assert Wanted(chunks) == Wanted(front) + {last};
      assert multiset(chunks) == multiset(front) + multiset{last};
      var had := Wanted(front) * stored;
      if last in stored && last !in front {
        assert Extra(chunks, stored) == Extra(front, stored);
        assert Wanted(chunks) * stored == had + {last};
        assert multiset(had + {last}) == multiset(had) + multiset{last};
      } else {
        assert Wanted(chunks) * stored == had;
        assert Extra(chunks, stored) == Extra(front, stored) + [last];
        assert multiset(Extra(front, stored) + [last]) == multiset(Extra(front, stored)) + multiset{last};
      }
    }
  }

  lemma KeysConcat(a: seq<Row>, b: seq<Row>)
    ensures Keys(a + b) == Keys(a) + Keys(b)
  {
  }

  lemma NewRowsKeys(id: nat, keys: seq<ChunkKey>)
    ensures Keys(NewRows(id, keys)) == keys
  {
  }

  // The index agrees with the source: one record for each chunk, no more and no less.
  lemma IndexAgrees(rows: seq<Row>, next: nat, chunks: seq<ChunkKey>)
    ensures multiset(Keys(Reconciled(rows, next, chunks))) == multiset(chunks)
  {
    var wanted, stored := Wanted(chunks), KeySet(rows);
    FirstsKeys(rows, wanted);
    ExtraKeys(chunks, stored);
    NewRowsKeys(next, Extra(chunks, stored));
    KeysConcat(Firsts(rows, wanted), NewRows(next, Extra(chunks, stored)));
  }

  // A stored record survives, as it was, exactly when its key is still there and no earlier record has it.
  lemma {:induction false} FirstsAre(rows: seq<Row>, wanted: set<ChunkKey>, r: Row)
    ensures r in Firsts(rows, wanted) <==>
      exists i :: 0 <= i < |rows| && rows[i] == r && r.key in wanted && r.key !in KeySet(rows[..i])
  {
    if rows != [] {
      var front, last := rows[..|rows| - 1], rows[|rows| - 1];
      FirstsAre(front, wanted, r);
      assert forall i :: 0 <= i < |front| ==> front[i] == rows[i] && front[..i] == rows[..i];
      assert rows[..|rows| - 1] == front;
      if r in Firsts(rows, wanted) && r !in Firsts(front, wanted) {
        assert rows[|rows| - 1] == r;
      }
    }
  }

  lemma {:induction false} FirstsSorted(rows: seq<Row>, wanted: set<ChunkKey>)
    requires Sorted(rows)
    ensures Sorted(Firsts(rows, wanted))
    ensures forall r :: r in Firsts(rows, wanted) ==> r in rows
  {
    if rows != [] {
      var front, last := rows[..|rows| - 1], rows[|rows| - 1];
      FirstsSorted(front, wanted);
      assert forall r :: r in front ==> r.id < last.id;
    }
  }

  // What is added has yet to be embedded; what is kept is as it was.
  lemma AddedAreNew(rows: seq<Row>, next: nat, chunks: seq<ChunkKey>, r: Row)
    requires Sorted(rows) && r in Reconciled(rows, next, chunks)
    ensures r in rows || (r.id >= next && r.status == Pending && r.vector.None? && r.profile.None? && r.embeddedHash.None?)
  {
    FirstsSorted(rows, Wanted(chunks));
  }

  // ---- the table ----

  class ChunkTable {
    var rows: seq<Row>
    var next: nat

    ghost predicate Valid()
      reads this
    {
      Sorted(rows) && forall r :: r in rows ==> r.id < next
    }

    constructor ()
      ensures Valid() && rows == []
    {
      rows, next := [], 0;
    }

    // The first loop: one record of each key stays, the others are deleted.
    method RemoveDuplicates() returns (existing: map<ChunkKey, Row>)
      requires Valid()
      modifies this`rows
      ensures rows == Firsts(old(rows), KeySet(old(rows)))
      ensures existing.Keys == KeySet(old(rows)) && forall r :: r in rows ==> r.key in existing && existing[r.key] == r
    {
      existing := map[];
      ghost var all := KeySet(rows);
      var kept: seq<Row>, i := [], 0;
      while i < |rows|
        invariant 0 <= i <= |rows| && rows == old(rows) && kept == Firsts(rows[..i], all)
        invariant existing.Keys == KeySet(rows[..i])
        invariant forall r :: r in kept ==> r.key in existing && existing[r.key] == r
      {
        var row := rows[i];
        PrefixGrows(rows, i);
        if row.key !in existing {
          kept := kept + [row];
          existing := existing[row.key := row];
        }
        i := i + 1;
      }
      assert rows[..i] == rows;
      rows := kept;
    }

    // The second loop: every chunk takes a stored record or gets a new one.
    method AddMissing(chunks: seq<ChunkKey>, existing: map<ChunkKey, Row>) returns (rest: map<ChunkKey, Row>, added: seq<Row>)
      modifies this`next
      ensures next == old(next) + |added| && added == NewRows(old(next), Extra(chunks, existing.Keys))
      ensures rest.Keys == existing.Keys - Wanted(chunks) && forall k :: k in rest ==> rest[k] == existing[k]
    {
      rest, added := existing, [];
      var i := 0;
      while i < |chunks|
        invariant 0 <= i <= |chunks| && next == old(next) + |added|
        invariant added == NewRows(old(next), Extra(chunks[..i], existing.Keys))
        invariant rest.Keys == existing.Keys - Wanted(chunks[..i]) && forall k :: k in rest ==> rest[k] == existing[k]
      {
        var key := chunks[i];
        ChunkTaken(chunks, i, existing.Keys);
        if key in rest {
          rest := rest - {key};
        } else {
          added := added + [NewRow(next, key)];
          next := next + 1;
        }
        i := i + 1;
      }
      assert chunks[..i] == chunks;
    }

    // The third loop: what no chunk took is deleted.
    method RemoveObsolete(obsolete: map<ChunkKey, Row>)
      requires forall r :: r in rows && r.key in obsolete ==> obsolete[r.key] == r
      modifies this`rows
      ensures rows == Without(old(rows), obsolete.Keys)
    {
      var kept: seq<Row>, i := [], 0;
      while i < |rows|
        invariant 0 <= i <= |rows| && rows == old(rows) && kept == Without(rows[..i], obsolete.Keys)
      {
        assert rows[..i + 1][..i] == rows[..i];
        assert rows[i] in rows;
        if !(rows[i].key in obsolete && obsolete[rows[i].key] == rows[i]) {
          kept := kept + [rows[i]];
        }
        i := i + 1;
      }
      assert rows[..i] == rows;
      rows := kept;
    }

    // `_persist`.
    method Persist(chunks: seq<ChunkKey>)
      requires Valid()
      modifies this
      ensures Valid() && rows == Reconciled(old(rows), old(next), chunks)
    {
      ghost var was, start := rows, next;
      var existing := RemoveDuplicates();
      var rest, added := AddMissing(chunks, existing);
      RemoveObsolete(rest);
      WithoutObsolete(was, chunks);
      assert rest.Keys == KeySet(was) - Wanted(chunks);
      NewRowsFollow(was, start, chunks);
      rows := rows + added;
    }
  }

  lemma NewRowsFollow(rows: seq<Row>, next: nat, chunks: seq<ChunkKey>)
    requires Sorted(rows) && forall r :: r in rows ==> r.id < next
    ensures var now := Reconciled(rows, next, chunks);
      Sorted(now) && forall r :: r in now ==> r.id < next + |Extra(chunks, KeySet(rows))|
  {
    FirstsSorted(rows, Wanted(chunks));
    var kept, added := Firsts(rows, Wanted(chunks)), NewRows(next, Extra(chunks, KeySet(rows)));
    assert forall i :: 0 <= i < |kept| ==> kept[i] in kept;
  }

  lemma PrefixGrows(rows: seq<Row>, i: nat)
    requires i < |rows|
    ensures KeySet(rows[..i + 1]) == KeySet(rows[..i]) + {rows[i].key}
    ensures Firsts(rows[..i + 1], KeySet(rows)) ==
      Firsts(rows[..i], KeySet(rows)) + if rows[i].key !in KeySet(rows[..i]) then [rows[i]] else []
  {
    assert rows[..i + 1][..i] == rows[..i];
    KeySetHas(rows);
  }

  lemma ChunkTaken(chunks: seq<ChunkKey>, i: nat, stored: set<ChunkKey>)
    requires i < |chunks|
    ensures Wanted(chunks[..i + 1]) == Wanted(chunks[..i]) + {chunks[i]}
    ensures Extra(chunks[..i + 1], stored) ==
      Extra(chunks[..i], stored) + if chunks[i] in stored - Wanted(chunks[..i]) then [] else [chunks[i]]
  {
    assert chunks[..i + 1] == chunks[..i] + [chunks[i]] && chunks[..i + 1][..i] == chunks[..i];
  }

  function Without(rows: seq<Row>, keys: set<ChunkKey>): seq<Row> {
    if rows == [] then []
    else
      var front, last := rows[..|rows| - 1], rows[|rows| - 1];
      Without(front, keys) + if last.key in keys then [] else [last]
  }

  // Deleting the obsolete records leaves the first ones of the wanted keys.
  lemma {:induction false} WithoutFirsts(rows: seq<Row>, all: set<ChunkKey>, wanted: set<ChunkKey>)
    requires KeySet(rows) <= all
    ensures Without(Firsts(rows, all), all - wanted) == Firsts(rows, wanted)
  {
    if rows != [] {
      var front, last := rows[..|rows| - 1], rows[|rows| - 1];
      WithoutFirsts(front, all, wanted);
      assert last.key in all;
      if last.key !in KeySet(front) {
        assert (Firsts(front, all) + [last])[..|Firsts(front, all)|] == Firsts(front, all);
      } else {
        assert Firsts(rows, all) == Firsts(front, all);
      }
    }
  }

  lemma WithoutObsolete(rows: seq<Row>, chunks: seq<ChunkKey>)
    ensures Without(Firsts(rows, KeySet(rows)), KeySet(rows) - Wanted(chunks)) == Firsts(rows, Wanted(chunks))
  {
    WithoutFirsts(rows, KeySet(rows), Wanted(chunks));
  }
}
