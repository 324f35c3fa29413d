/** From the files of a repository to its stored chunks (app/indexing/service.py). */
module IndexPipeline {
  import opened Ordering
  import opened Records
  import opened Chunking
  import opened Indexing

  datatype SourceFile = SourceFile(path: string, language: string, lines: seq<string>, boundaries: set<nat>)

  datatype IndexStatus = NotIndexed | InProgress | Complete | Broken

  datatype IndexResult = Indexed(files: nat, chunks: nat) | WorkspaceNotReady | IndexingFailed

  function KeyOf(c: Chunk): ChunkKey {
    ChunkKey(c.path, c.startLine, c.endLine, Sha256(c.content), c.language, c.content)
  }

  function KeysOf(chunks: seq<Chunk>): seq<ChunkKey> {
    seq(|chunks|, i requires 0 <= i < |chunks| => KeyOf(chunks[i]))
  }

  // The chunks are those of the file: its lines in order, none lost and none twice.
  ghost predicate ChunksOf(chunks: seq<Chunk>, file: SourceFile, maxLines: int, maxChars: int) {
    Tile(chunks, |file.lines|) && Contents(chunks) == Join(file.lines)
    && AllGood(chunks, file.path, file.language, file.lines, file.boundaries, maxLines, maxChars)
  }

  ghost predicate PartsOf(parts: seq<seq<Chunk>>, files: seq<SourceFile>, maxLines: int, maxChars: int) {
    |parts| == |files| && forall i :: 0 <= i < |files| ==> ChunksOf(parts[i], files[i], maxLines, maxChars)
  }

  function Flat(parts: seq<seq<Chunk>>): seq<Chunk> {
    if parts == [] then [] else Flat(parts[..|parts| - 1]) + parts[|parts| - 1]
  }

  ghost predicate PathsDiffer(files: seq<SourceFile>) {
    forall i, j :: 0 <= i < j < |files| ==> files[i].path != files[j].path
  }

  // Every file can be cut under the limits.
  predicate Cuttable(files: seq<SourceFile>, maxLines: int, maxChars: int) {
    forall file | file in files :: maxLines >= 1 && maxChars >= 1 && !TooLong(file.lines, maxChars)
  }

  lemma {:induction false} FlatPaths(parts: seq<seq<Chunk>>, files: seq<SourceFile>, maxLines: int, maxChars: int)
    requires PartsOf(parts, files, maxLines, maxChars)
    ensures forall c :: c in Flat(parts) ==> exists i :: 0 <= i < |files| && files[i].path == c.path
  {
    if parts != [] {
      var n := |parts| - 1;
      FlatPaths(parts[..n], files[..n], maxLines, maxChars);
      forall c | c in Flat(parts) ensures exists i :: 0 <= i < |files| && files[i].path == c.path {
        if c in Flat(parts[..n]) {
          var i :| 0 <= i < n && files[..n][i].path == c.path;
          assert files[i].path == c.path;
        } else {
          var i :| 0 <= i < |parts[n]| && parts[n][i] == c;
          assert GoodChunk(parts[n][i], files[n].path, files[n].language, files[n].lines, files[n].boundaries, maxLines, maxChars);
          assert files[n].path == c.path;
        }
      }
    }
  }

  lemma OneFileDistinct(chunks: seq<Chunk>, n: nat)
    requires Tile(chunks, n)
    ensures Distinct(KeysOf(chunks))
  {
    forall i: nat, j: nat | i < j < |chunks| ensures KeyOf(chunks[i]) != KeyOf(chunks[j]) {
      TilesAreApart(chunks, n, i, j);
    }
  }

  // No two chunks of a repository have the same key: those of one file are apart, those of different
  // files differ in the path.
  lemma {:induction false} KeysDiffer(parts: seq<seq<Chunk>>, files: seq<SourceFile>, maxLines: int, maxChars: int)
    requires PartsOf(parts, files, maxLines, maxChars) && PathsDiffer(files)
    ensures Distinct(KeysOf(Flat(parts)))
  {
    if parts != [] {
      var n := |parts| - 1;
      var front, last := Flat(parts[..n]), parts[n];
      KeysDiffer(parts[..n], files[..n], maxLines, maxChars);
      FlatPaths(parts[..n], files[..n], maxLines, maxChars);
      OneFileDistinct(last, |files[n].lines|);
      assert forall c :: c in front ==> c.path != files[n].path;
      assert forall c :: c in last ==> c.path == files[n].path by {
        OneFilePath(last, files[n], maxLines, maxChars);
      }
      JoinedDistinct(front, last, files[n].path);
    }
  }

  lemma OneFilePath(chunks: seq<Chunk>, file: SourceFile, maxLines: int, maxChars: int)
    requires ChunksOf(chunks, file, maxLines, maxChars)
    ensures forall c :: c in chunks ==> c.path == file.path
  {
    forall c | c in chunks ensures c.path == file.path {
      var i :| 0 <= i < |chunks| && chunks[i] == c;
      assert GoodChunk(chunks[i], file.path, file.language, file.lines, file.boundaries, maxLines, maxChars);
    }
  }

  lemma JoinedDistinct(front: seq<Chunk>, last: seq<Chunk>, path: string)
    requires Distinct(KeysOf(front)) && Distinct(KeysOf(last))
    requires (forall c :: c in front ==> c.path != path) && forall c :: c in last ==> c.path == path
    ensures Distinct(KeysOf(front + last))
  {
    var keys := KeysOf(front + last);
    forall i, j | 0 <= i < j < |keys| ensures keys[i] != keys[j] {
      if j < |front| {
        assert keys[i] == KeysOf(front)[i] && keys[j] == KeysOf(front)[j];
      } else if i >= |front| {
        assert keys[i] == KeysOf(last)[i - |front|] && keys[j] == KeysOf(last)[j - |front|];
      } else {
        assert front[i] in front && last[j - |front|] in last;
      }
    }
  }

  lemma OneMoreFile(
    parts: seq<seq<Chunk>>, files: seq<SourceFile>, i: nat, chunks: seq<Chunk>, maxLines: int, maxChars: int)
    requires i < |files| && PartsOf(parts, files[..i], maxLines, maxChars)
    requires ChunksOf(chunks, files[i], maxLines, maxChars)
    ensures PartsOf(parts + [chunks], files[..i + 1], maxLines, maxChars) && Flat(parts + [chunks]) == Flat(parts) + chunks
  {
    assert (parts + [chunks])[..|parts|] == parts;
    forall j | 0 <= j < i + 1 ensures ChunksOf((parts + [chunks])[j], files[..i + 1][j], maxLines, maxChars) {
      if j < i {
        assert ChunksOf(parts[j], files[..i][j], maxLines, maxChars);
      }
    }
  }

  lemma {:induction false} DistinctOnce<T>(s: seq<T>)
    requires Distinct(s)
    ensures forall x :: multiset(s)[x] <= 1
  {
    if s != [] {
      var front, last := s[..|s| - 1], s[|s| - 1];
      assert s == front + [last];
      DistinctOnce(front);
      assert last !in front;
    }
  }

  lemma CuttableMore(files: seq<SourceFile>, i: nat, maxLines: int, maxChars: int)
    requires i < |files| && Cuttable(files[..i], maxLines, maxChars)
    ensures Cuttable(files, maxLines, maxChars) ==> Cuttable(files[..i + 1], maxLines, maxChars)
    ensures Cuttable(files[..i + 1], maxLines, maxChars) <==>
      maxLines >= 1 && maxChars >= 1 && !TooLong(files[i].lines, maxChars)
  {
    assert files[..i + 1] == files[..i] + [files[i]];
    assert files[i] in files[..i + 1] && files[i] in files;
  }

  class IndexingService {
    const table: ChunkTable
    const maxLines: int
    const maxChars: int
    var status: IndexStatus

    constructor (table: ChunkTable, maxLines: int, maxChars: int)
      ensures this.table == table && this.maxLines == maxLines && this.maxChars == maxChars && status == NotIndexed
    {
      this.table, this.maxLines, this.maxChars, status := table, maxLines, maxChars, NotIndexed;
    }

    method ChunkFile(file: SourceFile) returns (chunks: Option<seq<Chunk>>)
      ensures chunks.Some? <==> maxLines >= 1 && maxChars >= 1 && !TooLong(file.lines, maxChars)
      ensures chunks.Some? ==> ChunksOf(chunks.value, file, maxLines, maxChars)
    {
      var cut := ChunkSource(file.path, file.language, file.lines, file.boundaries, maxLines, maxChars);
      chunks := if cut.Chunked? then Some(cut.chunks) else None;
    }

    // Every scanned file, one after the other, until one cannot be cut.
    method ChunkAll(files: seq<SourceFile>) returns (chunks: Option<seq<Chunk>>)
      ensures chunks.Some? <==> Cuttable(files, maxLines, maxChars)
      ensures chunks.Some? ==> exists parts :: PartsOf(parts, files, maxLines, maxChars) && chunks.value == Flat(parts)
    {
      var all: seq<Chunk> := [];
      ghost var parts: seq<seq<Chunk>> := [];
      var i := 0;
      while i < |files|
        invariant 0 <= i <= |files| && PartsOf(parts, files[..i], maxLines, maxChars) && all == Flat(parts)
        invariant Cuttable(files[..i], maxLines, maxChars)
      {
        var cut := ChunkFile(files[i]);
        CuttableMore(files, i, maxLines, maxChars);
        if cut.None? {
          return None;
        }
        OneMoreFile(parts, files, i, cut.value, maxLines, maxChars);
        parts, all := parts + [cut.value], all + cut.value;
        i := i + 1;
      }
      assert files[..i] == files;
      chunks := Some(all);
    }

    // `index`: the stored chunks are exactly the tiles of the files, or the table is as before.
    method Index(ready: bool, files: seq<SourceFile>, sameRevision: bool) returns (r: IndexResult)
      requires table.Valid()
      modifies this`status, table
      ensures table.Valid()
      ensures r == WorkspaceNotReady <==> !ready
      ensures r.Indexed? <==> ready && sameRevision && Cuttable(files, maxLines, maxChars)
      ensures r.Indexed? ==> r.files == |files| && exists parts ::
        PartsOf(parts, files, maxLines, maxChars) && r.chunks == |Flat(parts)|
        && multiset(Keys(table.rows)) == multiset(KeysOf(Flat(parts)))
      ensures r.Indexed? && PathsDiffer(files) ==> forall key :: multiset(Keys(table.rows))[key] <= 1
      ensures !r.Indexed? ==> table.rows == old(table.rows)
      ensures status == match r
        case Indexed(_, _) => Complete
        case WorkspaceNotReady => old(status)
        case IndexingFailed => Broken
    {
      if !ready {
        return WorkspaceNotReady;
      }
      status := InProgress;
      var chunks := ChunkAll(files);
      if chunks.None? || !sameRevision {
        status := Broken;
        return IndexingFailed;
      }
      var keys := KeysOf(chunks.value);
      IndexAgrees(table.rows, table.next, keys);
      table.Persist(keys);
      status := Complete;
      ghost var parts :| PartsOf(parts, files, maxLines, maxChars) && chunks.value == Flat(parts);
      if PathsDiffer(files) {
        KeysDiffer(parts, files, maxLines, maxChars);
        DistinctOnce(keys);
      }
      r := Indexed(|files|, |chunks.value|);
    }
  }
}
