/** Line-bounded chunks of a source file (app/indexing/chunking.py). */
module Chunking {

  datatype Chunk = Chunk(path: string, language: string, startLine: nat, endLine: nat, content: string)

  // `"".join(lines)`.
  function Join(lines: seq<string>): string {
    if lines == [] then "" else lines[0] + Join(lines[1..])
  }

  lemma {:induction false} JoinConcat(a: seq<string>, b: seq<string>)
    ensures Join(a + b) == Join(a) + Join(b)
  {
    if a == [] {
      assert a + b == b;
    } else {
      assert (a + b)[1..] == a[1..] + b;
      JoinConcat(a[1..], b);
    }
  }

  lemma JoinOne(lines: seq<string>, i: nat, j: nat)
    requires i <= j < |lines|
    ensures Join(lines[i..j + 1]) == Join(lines[i..j]) + lines[j]
  {
    assert lines[i..j + 1] == lines[i..j] + [lines[j]];
    assert [lines[j]][1..] == [];
    assert Join([lines[j]]) == lines[j];
    JoinConcat(lines[i..j], [lines[j]]);
  }

  predicate Blank(line: string) {
    forall c | c in line :: c == ' ' || c == '\t' || c == '\n' || c == '\r'
  }

  // A chunk may end here, after a blank line.
  predicate AfterBlank(lines: seq<string>, b: nat) {
    1 <= b <= |lines| && Blank(lines[b - 1])
  }

  // The lines from `start` that fit into one chunk: as many as both limits allow, and at least one.
  ghost predicate Greedy(lines: seq<string>, start: nat, end: nat, maxLines: int, maxChars: int) {
    start < end <= |lines| && end - start <= maxLines && |Join(lines[start..end])| <= maxChars
    && (end < |lines| ==> end - start == maxLines || |Join(lines[start..end + 1])| > maxChars)
  }

  // The least end that a chunk which is not the last may have.
  function LeastEnd(start: nat, window: nat): nat
    requires start <= window
  {
    start + if (window - start) / 2 > 1 then (window - start) / 2 else 1
  }

  // Where a chunk ends: at the last definition that starts in the second half of its window, otherwise
  // after the last blank line there, otherwise with the window.
  ghost predicate Cut(lines: seq<string>, boundaries: set<nat>, start: nat, window: nat, end: nat)
    requires start < window <= |lines|
  {
    var least := LeastEnd(start, window);
    var preferred := set b | b in boundaries && least <= b <= window;
    var blank := set b | least <= b <= window && AfterBlank(lines, b);
    if window == |lines| then end == window
    else if preferred != {} then end in preferred && forall b :: b in preferred ==> b <= end
    else if blank != {} then end in blank && forall b :: b in blank ==> b <= end
    else end == window
  }

  // The chunk is a greedy window, cut where the rule says.
  ghost predicate CutFrom(c: Chunk, window: nat, lines: seq<string>, boundaries: set<nat>, maxLines: int, maxChars: int)
    requires c.startLine >= 1
  {
    Greedy(lines, c.startLine - 1, window, maxLines, maxChars) && Cut(lines, boundaries, c.startLine - 1, window, c.endLine)
  }

  // What every chunk of the file satisfies.
  ghost predicate GoodChunk(
    c: Chunk, path: string, language: string, lines: seq<string>, boundaries: set<nat>, maxLines: int, maxChars: int)
  {
    c.path == path && c.language == language && 1 <= c.startLine <= c.endLine <= |lines|
    && c.content == Join(lines[c.startLine - 1..c.endLine])
    && exists window: nat :: CutFrom(c, window, lines, boundaries, maxLines, maxChars)
  }

  // The line ranges follow one another without gap or overlap, from line 1 to line n.
  ghost predicate Tile(chunks: seq<Chunk>, n: nat) {
    if chunks == [] then n == 0
    else
      var last := chunks[|chunks| - 1];
      last.endLine == n && 1 <= last.startLine <= last.endLine && Tile(chunks[..|chunks| - 1], last.startLine - 1)
  }

  function Contents(chunks: seq<Chunk>): string {
    if chunks == [] then "" else Contents(chunks[..|chunks| - 1]) + chunks[|chunks| - 1].content
  }

  datatype Chunking = Chunked(chunks: seq<Chunk>) | InvalidLimits | LineTooLong

  method Window(lines: seq<string>, start: nat, maxLines: int, maxChars: int) returns (end: nat)
    requires start < |lines| && maxLines >= 1 && maxChars >= 1 && |lines[start]| <= maxChars
    ensures Greedy(lines, start, end, maxLines, maxChars)
  {
    end := start;
    var size := 0;
    while end < |lines| && end - start < maxLines && size + |lines[end]| <= maxChars
      invariant start <= end <= |lines| && end - start <= maxLines
      invariant size == |Join(lines[start..end])| <= maxChars
      invariant end == start ==> size == 0
    {
      JoinOne(lines, start, end);
      size := size + |lines[end]|;
      end := end + 1;
    }
    if end < |lines| { JoinOne(lines, start, end); }
  }

  // The greatest element.
  method Max(s: set<nat>) returns (m: nat)
    requires s != {}
    ensures m in s && forall b :: b in s ==> b <= m
  {
    m :| m in s;
    var rest := s - {m};
    while rest != {}
      invariant m in s && rest <= s && forall b :: b in s && b !in rest ==> b <= m
      decreases |rest|
    {
      var b :| b in rest;
      if b > m { m := b; }
      rest := rest - {b};
    }
  }

  method Shorten(lines: seq<string>, boundaries: set<nat>, start: nat, window: nat) returns (end: nat)
    requires start < window <= |lines|
    ensures Cut(lines, boundaries, start, window, end)
  {
    end := window;
    if window < |lines| {
      var least := LeastEnd(start, window);
      var preferred := set b | b in boundaries && least <= b <= window;
      if preferred == {} {
        preferred := set b | least <= b <= window && AfterBlank(lines, b);
      }
      if preferred != {} {
        end := Max(preferred);
      }
    }
  }

  // A cut keeps at least one line, and at least half of the window unless the file ends there.
  lemma CutKeepsHalf(lines: seq<string>, boundaries: set<nat>, start: nat, window: nat, end: nat)
    requires start < window <= |lines| && Cut(lines, boundaries, start, window, end)
    ensures start < end <= window && 2 * (end - start) + 1 >= window - start
  {
  }

  // A place where a chunk may end that is not the last of the file: in the second half of its window, and
  // after a line of blanks, tabs and line ends only.
  ghost predicate BlankEnd(lines: seq<string>, start: nat, window: nat, b: nat) {
    InSecondHalf(start, window, b) && b <= |lines| && White(lines[b - 1])
  }

  ghost predicate White(line: string) {
    forall i :: 0 <= i < |line| ==> line[i] in {' ', '\t', '\n', '\r'}
  }

  ghost predicate InSecondHalf(start: nat, window: nat, b: nat) {
    start < b <= window && b - start >= (window - start) / 2
  }

  // The last chunk goes to the end; any other ends at the last definition in the second half of its
  // window, or else after the last blank line there, or else with the window.
  lemma CutMeans(lines: seq<string>, boundaries: set<nat>, start: nat, window: nat, end: nat)
    requires start < window <= |lines| && Cut(lines, boundaries, start, window, end)
    ensures window == |lines| ==> end == window
    ensures window < |lines| && (exists b :: b in boundaries && InSecondHalf(start, window, b)) ==>
      end in boundaries && InSecondHalf(start, window, end)
      && forall b :: b in boundaries && InSecondHalf(start, window, b) ==> b <= end
    ensures window < |lines| && (forall b :: b in boundaries ==> !InSecondHalf(start, window, b)) ==>
      if exists b: nat :: BlankEnd(lines, start, window, b)
      then BlankEnd(lines, start, window, end) && forall b: nat :: BlankEnd(lines, start, window, b) ==> b <= end
      else end == window
  {
    forall b: nat ensures BlankEnd(lines, start, window, b) <==>
      LeastEnd(start, window) <= b <= window && AfterBlank(lines, b)
    {
      if InSecondHalf(start, window, b) { BlankMeans(lines[b - 1]); }
    }
    if window < |lines| {
      var preferred := set b | b in boundaries && LeastEnd(start, window) <= b <= window;
      var blank := set b | LeastEnd(start, window) <= b <= window && AfterBlank(lines, b);
      assert forall b :: b in preferred <==> b in boundaries && InSecondHalf(start, window, b);
      assert forall b: nat :: b in blank <==> BlankEnd(lines, start, window, b);
      assert preferred == {} <==> forall b :: b in boundaries ==> !InSecondHalf(start, window, b);
    }
  }

  lemma BlankMeans(line: string)
    ensures Blank(line) <==> White(line)
  {
    forall i | 0 <= i < |line| ensures line[i] in line {
    }
  }

  // One turn of the loop.
  method NextChunk(
    path: string, language: string, lines: seq<string>, boundaries: set<nat>, start: nat, maxLines: int, maxChars: int)
    returns (c: Chunk)
    requires start < |lines| && maxLines >= 1 && maxChars >= 1 && |lines[start]| <= maxChars
    ensures c.startLine == start + 1 && GoodChunk(c, path, language, lines, boundaries, maxLines, maxChars)
  {
    var window := Window(lines, start, maxLines, maxChars);
    var end := Shorten(lines, boundaries, start, window);
    CutKeepsHalf(lines, boundaries, start, window, end);
    c := Chunk(path, language, start + 1, end, Join(lines[start..end]));
    assert CutFrom(c, window, lines, boundaries, maxLines, maxChars);
  }

  lemma OneMoreChunk(chunks: seq<Chunk>, c: Chunk, lines: seq<string>, start: nat)
    requires Covered(chunks, lines, start)
    requires c.startLine == start + 1 <= c.endLine <= |lines| && c.content == Join(lines[start..c.endLine])
    ensures Covered(chunks + [c], lines, c.endLine)
  {
    assert lines[..c.endLine] == lines[..start] + lines[start..c.endLine];
    JoinConcat(lines[..start], lines[start..c.endLine]);
    assert (chunks + [c])[..|chunks|] == chunks;
  }

  ghost predicate AllGood(
    chunks: seq<Chunk>, path: string, language: string, lines: seq<string>, boundaries: set<nat>, maxLines: int, maxChars: int)
  {
    forall i :: 0 <= i < |chunks| ==> GoodChunk(chunks[i], path, language, lines, boundaries, maxLines, maxChars)
  }

  // The chunks so far cover the lines before `start`.
  ghost predicate Covered(chunks: seq<Chunk>, lines: seq<string>, start: nat) {
    start <= |lines| && Tile(chunks, start) && Contents(chunks) == Join(lines[..start])
  }

  lemma AllGoodAppend(
    chunks: seq<Chunk>, c: Chunk, path: string, language: string, lines: seq<string>, boundaries: set<nat>, maxLines: int,
    maxChars: int)
    requires AllGood(chunks, path, language, lines, boundaries, maxLines, maxChars)
    requires GoodChunk(c, path, language, lines, boundaries, maxLines, maxChars)
    ensures AllGood(chunks + [c], path, language, lines, boundaries, maxLines, maxChars)
  {
  }

  // Some line exceeds the limit on its own.
  predicate TooLong(lines: seq<string>, maxChars: int) {
    exists line | line in lines :: |line| > maxChars
  }

  lemma FitsOne(lines: seq<string>, i: nat, maxChars: int)
    requires i < |lines| && !TooLong(lines, maxChars)
    ensures |lines[i]| <= maxChars
  {
    assert lines[i] in lines;
  }

  // `chunk_source`, on the lines of the file and the starts of its top-level definitions.
  method ChunkSource(
    path: string, language: string, lines: seq<string>, boundaries: set<nat>, maxLines: int, maxChars: int)
    returns (r: Chunking)
    ensures r.InvalidLimits? <==> maxLines < 1 || maxChars < 1
    ensures r.LineTooLong? <==> maxLines >= 1 && maxChars >= 1 && TooLong(lines, maxChars)
    ensures r.Chunked? ==> Tile(r.chunks, |lines|) && Contents(r.chunks) == Join(lines)
    ensures r.Chunked? ==> AllGood(r.chunks, path, language, lines, boundaries, maxLines, maxChars)
  {
    if maxLines < 1 || maxChars < 1 {
      return InvalidLimits;
    }
    if TooLong(lines, maxChars) {
      return LineTooLong;
    }
    var chunks: seq<Chunk>, start := [], 0;
    while start < |lines|
      invariant Covered(chunks, lines, start)
      invariant AllGood(chunks, path, language, lines, boundaries, maxLines, maxChars)
    {
      FitsOne(lines, start, maxChars);
      var chunk := NextChunk(path, language, lines, boundaries, start, maxLines, maxChars);
      OneMoreChunk(chunks, chunk, lines, start);
      AllGoodAppend(chunks, chunk, path, language, lines, boundaries, maxLines, maxChars);
      chunks := chunks + [chunk];
      start := chunk.endLine;
    }
    assert lines[..start] == lines;
    r := Chunked(chunks);
  }

  // Chunks of one file never overlap, so their keys differ; keys of different files differ in the path.
  lemma {:induction false} TilesAreApart(chunks: seq<Chunk>, n: nat, i: nat, j: nat)
    requires Tile(chunks, n) && i < j < |chunks|
    ensures 1 <= chunks[i].startLine <= chunks[i].endLine < chunks[j].startLine <= chunks[j].endLine <= n
  {
    var front, last := chunks[..|chunks| - 1], chunks[|chunks| - 1];
    if j < |chunks| - 1 {
      TilesAreApart(front, last.startLine - 1, i, j);
    } else {
      TileReaches(front, last.startLine - 1, i);
    }
  }

  lemma {:induction false} TileReaches(chunks: seq<Chunk>, n: nat, i: nat)
    requires Tile(chunks, n) && i < |chunks|
    ensures 1 <= chunks[i].startLine <= chunks[i].endLine <= n
  {
    if i < |chunks| - 1 {
      TileReaches(chunks[..|chunks| - 1], chunks[|chunks| - 1].startLine - 1, i);
    }
  }

  // Every chunk respects both limits; one that does not end the file keeps a line and at least half of
  // what would have fitted.
  lemma ChunkSize(
    c: Chunk, path: string, language: string, lines: seq<string>, boundaries: set<nat>, maxLines: int, maxChars: int)
    requires GoodChunk(c, path, language, lines, boundaries, maxLines, maxChars)
    ensures c.endLine + 1 - c.startLine <= maxLines && |c.content| <= maxChars
    ensures exists window: nat :: Greedy(lines, c.startLine - 1, window, maxLines, maxChars) && HalfOf(c, window)
  {
    var window: nat :| CutFrom(c, window, lines, boundaries, maxLines, maxChars);
    CutKeepsHalf(lines, boundaries, c.startLine - 1, window, c.endLine);
    var rest := lines[c.endLine..window];
    assert lines[c.startLine - 1..window] == lines[c.startLine - 1..c.endLine] + rest;
    JoinConcat(lines[c.startLine - 1..c.endLine], rest);
    assert HalfOf(c, window);
  }

  ghost predicate HalfOf(c: Chunk, window: nat) {
    c.startLine <= c.endLine <= window && 2 * (c.endLine + 1 - c.startLine) + 1 >= window + 1 - c.startLine
  }
}
