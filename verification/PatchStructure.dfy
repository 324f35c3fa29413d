/** Structured patches: what the parser accepts is exactly what they print as. */
module PatchStructure {
  import opened Folding
  import opened Ordering
  import opened Records
  import opened PatchFormat

  // A line of a hunk body, and whether the no-newline marker follows it.
  datatype BodyLine = BodyLine(line: Line, unterminated: bool)

  datatype Hunk = Hunk(oldCount: nat, newCount: nat, body: seq<BodyLine>)

  datatype Kind = Edit | Creation | Deletion

  datatype Section = Section(path: string, kind: Kind, index: bool, hunks: seq<Hunk>)

  function FileOf(s: Section): PatchFile {
    PatchFile(s.path, s.kind.Creation?, s.kind.Deletion?)
  }

  function FilesOf(sections: seq<Section>): seq<PatchFile> {
    seq(|sections|, i requires 0 <= i < |sections| => FileOf(sections[i]))
  }

  // ---- well-formedness ----

  function Olds(body: seq<BodyLine>): nat
    requires Marked(body)
  {
    if body == [] then 0 else InOld(MarkOf(body[0].line).value) + Olds(body[1..])
  }

  function News(body: seq<BodyLine>): nat
    requires Marked(body)
  {
    if body == [] then 0 else InNew(MarkOf(body[0].line).value) + News(body[1..])
  }

  predicate Marked(body: seq<BodyLine>) {
    forall b | b in body :: MarkOf(b.line).Some?
  }

  // The body has the number of old and new lines that its header declares.
  predicate GoodHunk(h: Hunk) {
    Marked(h.body) && Olds(h.body) == h.oldCount && News(h.body) == h.newCount
  }

  predicate GoodHunks(hunks: seq<Hunk>) {
    forall h | h in hunks :: GoodHunk(h)
  }

  // A valid path and at least one hunk, all of them good. Kept folded.
  ghost predicate GoodSection(s: Section, check: string -> Option<PatchError>) {
    forall u {:trigger UnfoldGood(u)} :: UnfoldGood(u) ==> check(s.path).None? && s.hunks != [] && GoodHunks(s.hunks)
  }

  ghost predicate GoodSections(sections: seq<Section>, check: string -> Option<PatchError>) {
    forall i :: 0 <= i < |sections| ==> GoodSection(sections[i], check)
  }

  // ---- printing ----

  function PrintLine(b: BodyLine): seq<Line> {
    [b.line] + if b.unterminated then [NoNewline] else []
  }

  function PrintBody(body: seq<BodyLine>): seq<Line> {
    if body == [] then [] else PrintLine(body[0]) + PrintBody(body[1..])
  }

  function PrintHunk(h: Hunk): seq<Line> {
    [HunkLine(h.oldCount, h.newCount)] + PrintBody(h.body)
  }

  function PrintHunks(hunks: seq<Hunk>): seq<Line> {
    if hunks == [] then [] else PrintHunk(hunks[0]) + PrintHunks(hunks[1..])
  }

  function PrintHeader(s: Section): seq<Line> {
    [GitHeader(s.path, s.path)]
    + (match s.kind case Edit => [] case Creation => [NewMode] case Deletion => [DeletedMode])
    + (if s.index then [IndexLine] else [])
    + [OldHeader(s.path, s.kind.Creation?), NewHeader(s.path, s.kind.Deletion?)]
  }

  function PrintSection(s: Section): seq<Line> {
    PrintHeader(s) + PrintHunks(s.hunks)
  }

  function Flatten(parts: seq<seq<Line>>): seq<Line> {
    if parts == [] then [] else parts[0] + Flatten(parts[1..])
  }

  function Parts(sections: seq<Section>): seq<seq<Line>> {
    seq(|sections|, i requires 0 <= i < |sections| => PrintSection(sections[i]))
  }

  function PrintSections(sections: seq<Section>): seq<Line> {
    Flatten(Parts(sections))
  }

  // `part` is the printed form of the section. Kept folded, as a section prints in many forms.
  ghost predicate IsSection(s: Section, part: seq<Line>) {
    forall u {:trigger UnfoldPrint(u)} :: UnfoldPrint(u) ==> part == PrintSection(s)
  }

  ghost predicate ArePrinted(sections: seq<Section>, parts: seq<seq<Line>>) {
    |parts| == |sections| && forall i :: 0 <= i < |sections| ==> IsSection(sections[i], parts[i])
  }

  lemma PartsArePrinted(sections: seq<Section>, parts: seq<seq<Line>>)
    ensures ArePrinted(sections, parts) <==> parts == Parts(sections)
  {
    assert UnfoldPrint(true);
  }

  // ---- what is printed is parsed back ----

  // `lines` shows `part` at position i.
  ghost predicate Shows(lines: seq<Line>, i: nat, part: seq<Line>) {
    i + |part| <= |lines| && lines[i..i + |part|] == part
  }

  lemma {:induction false} ShowsSplit(lines: seq<Line>, i: nat, a: seq<Line>, b: seq<Line>)
    ensures Shows(lines, i, a + b) <==> Shows(lines, i, a) && Shows(lines, i + |a|, b)
  {
    if i + |a| + |b| <= |lines| {
      assert lines[i..i + |a + b|] == lines[i..i + |a|] + lines[i + |a|..i + |a| + |b|];
      if Shows(lines, i, a + b) {
        assert (a + b)[..|a|] == a && (a + b)[|a|..] == b;
      }
    }
  }

  // What may follow a section or a hunk.
  predicate Boundary(lines: seq<Line>, i: nat) {
    i < |lines| ==> lines[i] != NoNewline
  }

  // The first line of a printed body: the line, its marker if it has one, and the position after both.
  lemma {:induction false} FirstLine(lines: seq<Line>, i: nat, body: seq<BodyLine>)
    requires body != [] && Marked(body) && Shows(lines, i, PrintBody(body)) && Boundary(lines, i + |PrintBody(body)|)
    ensures i < |lines| && lines[i] == body[0].line && MarkOf(lines[i]).Some? && Marked(body[1..])
    ensures PastLine(lines, i) == i + |PrintLine(body[0])| && Shows(lines, PastLine(lines, i), PrintBody(body[1..]))
  {
    var b := body[0];
    assert b in body;
    ShowsSplit(lines, i, PrintLine(b), PrintBody(body[1..]));
    assert lines[i] == PrintLine(b)[0];
    if b.unterminated {
      assert lines[i + 1] == PrintLine(b)[1];
    } else if |body| > 1 {
      assert body[1] in body && body[1..][0] == body[1];
      ShowsSplit(lines, i + 1, PrintLine(body[1]), PrintBody(body[1..][1..]));
      assert lines[i + 1] == PrintLine(body[1])[0];
    } else {
      assert body[1..] == [];
    }
  }

  lemma {:induction false} BodyParses(lines: seq<Line>, i: nat, body: seq<BodyLine>, olds: nat, news: nat, oldCount: nat, newCount: nat)
    requires Shows(lines, i, PrintBody(body)) && Marked(body) && Boundary(lines, i + |PrintBody(body)|)
    requires olds + Olds(body) == oldCount && news + News(body) == newCount
    ensures BodyEnd(lines, i, olds, news, oldCount, newCount) == Some(i + |PrintBody(body)|)
    decreases |body|
  {
    if body != [] {
      FirstLine(lines, i, body);
      var mark := MarkOf(body[0].line).value;
      BodyParses(lines, PastLine(lines, i), body[1..], olds + InOld(mark), news + InNew(mark), oldCount, newCount);
    }
  }

  // What may follow the hunks of a section: the end, or something that is no hunk and no marker.
  predicate SectionBoundary(lines: seq<Line>, i: nat) {
    Boundary(lines, i) && !StartsHunk(lines, i)
  }

  lemma {:induction false} HunkParses(lines: seq<Line>, i: nat, h: Hunk)
    requires Shows(lines, i, PrintHunk(h)) && GoodHunk(h) && Boundary(lines, i + |PrintHunk(h)|)
    ensures i < |lines| && lines[i] == HunkLine(h.oldCount, h.newCount)
    ensures BodyEnd(lines, i + 1, 0, 0, h.oldCount, h.newCount) == Some(i + |PrintHunk(h)|)
  {
    ShowsSplit(lines, i, [HunkLine(h.oldCount, h.newCount)], PrintBody(h.body));
    BodyParses(lines, i + 1, h.body, 0, 0, h.oldCount, h.newCount);
  }

  lemma {:induction false} FirstHunk(lines: seq<Line>, i: nat, hunks: seq<Hunk>)
    requires hunks != [] && Shows(lines, i, PrintHunks(hunks)) && GoodHunks(hunks)
    requires SectionBoundary(lines, i + |PrintHunks(hunks)|)
    ensures i < |lines| && lines[i] == HunkLine(hunks[0].oldCount, hunks[0].newCount)
    ensures var next := i + |PrintHunk(hunks[0])|;
      BodyEnd(lines, i + 1, 0, 0, hunks[0].oldCount, hunks[0].newCount) == Some(next)
      && Shows(lines, next, PrintHunks(hunks[1..])) && next + |PrintHunks(hunks[1..])| == i + |PrintHunks(hunks)|
  {
    assert hunks[0] in hunks;
    ShowsSplit(lines, i, PrintHunk(hunks[0]), PrintHunks(hunks[1..]));
    HunksStart(lines, i + |PrintHunk(hunks[0])|, hunks[1..]);
    HunkParses(lines, i, hunks[0]);
  }

  // The hunks from i on end here. Kept folded, like the next one, against endless unrolling.
  ghost predicate HunksTo(lines: seq<Line>, i: nat, end: nat)
    requires i <= |lines|
  {
    forall u {:trigger UnfoldLines(u)} :: UnfoldLines(u) ==> HunksEnd(lines, i) == Some(end)
  }

  ghost predicate ParsesTo(lines: seq<Line>, i: nat, files: seq<PatchFile>, check: string -> Option<PatchError>)
    requires i <= |lines|
  {
    forall u {:trigger UnfoldLines(u)} :: UnfoldLines(u) ==> SectionsFrom(lines, i, check) == Parsed(files)
  }

  lemma {:induction false} HunksStep(lines: seq<Line>, i: nat, next: nat, end: nat)
    requires i < |lines| && lines[i].HunkLine? && next <= |lines| && HunksTo(lines, next, end)
    requires BodyEnd(lines, i + 1, 0, 0, lines[i].oldCount, lines[i].newCount) == Some(next)
    ensures HunksTo(lines, i, end)
  {
    assert UnfoldLines(true);
  }

  lemma {:induction false} HunksParse(lines: seq<Line>, i: nat, hunks: seq<Hunk>)
    requires Shows(lines, i, PrintHunks(hunks)) && GoodHunks(hunks) && SectionBoundary(lines, i + |PrintHunks(hunks)|)
    ensures HunksTo(lines, i, i + |PrintHunks(hunks)|)
    decreases |hunks|
  {
    if hunks != [] {
      var next := i + |PrintHunk(hunks[0])|;
      FirstHunk(lines, i, hunks);
      HunksParse(lines, next, hunks[1..]);
      HunksStep(lines, i, next, i + |PrintHunks(hunks)|);
    }
  }

  lemma {:induction false} HunksStart(lines: seq<Line>, i: nat, hunks: seq<Hunk>)
    requires Shows(lines, i, PrintHunks(hunks)) && Boundary(lines, i + |PrintHunks(hunks)|)
    ensures Boundary(lines, i)
  {
    if hunks != [] {
      assert lines[i] == PrintHunks(hunks)[0];
    }
  }

  lemma {:induction false} ShownAt(lines: seq<Line>, i: nat, part: seq<Line>, k: nat)
    requires Shows(lines, i, part) && k < |part|
    ensures lines[i + k] == part[k]
  {
    assert lines[i..i + |part|][k] == lines[i + k];
  }

  // The lines of a header, one by one.
  lemma HeaderLines(s: Section)
    ensures var p := PrintHeader(s);
      var m := if s.kind.Edit? then 1 else 2;
      var x := if s.index then m + 1 else m;
      |p| == x + 2 && p[0] == GitHeader(s.path, s.path)
      && (m == 2 ==> p[1] == if s.kind.Creation? then NewMode else DeletedMode)
      && (s.index ==> p[m] == IndexLine)
      && p[x] == OldHeader(s.path, s.kind.Creation?) && p[x + 1] == NewHeader(s.path, s.kind.Deletion?)
  {
  }

  // Kept folded, as the six forms of a header are only looked at one by one.
  ghost predicate IsHeader(s: Section, header: seq<Line>) {
    forall u {:trigger UnfoldPrint(u)} :: UnfoldPrint(u) ==> header == PrintHeader(s)
  }

  lemma {:induction false} HeaderParses(lines: seq<Line>, i: nat, s: Section, header: seq<Line>)
    requires IsHeader(s, header) && Shows(lines, i, header)
    ensures |header| >= 3 && lines[i] == GitHeader(s.path, s.path)
    ensures s.kind.Creation? == (i + 1 < |lines| && lines[i + 1] == NewMode)
    ensures s.kind.Deletion? == (i + 1 < |lines| && lines[i + 1] == DeletedMode)
    ensures PastIndex(lines, PastMode(lines, i + 1)) == i + |header| - 2
    ensures NamesFollow(lines, i + |header| - 2, FileOf(s))
  {
    assert UnfoldPrint(true);
    HeaderLines(s);
    ShownAt(lines, i, header, 0);
    ShownAt(lines, i, header, 1);
    ShownAt(lines, i, header, 2);
    ShownAt(lines, i, header, |header| - 2);
    ShownAt(lines, i, header, |header| - 1);
  }

  lemma {:induction false} SectionParses(lines: seq<Line>, i: nat, s: Section, header: seq<Line>, check: string -> Option<PatchError>)
    requires IsHeader(s, header) && GoodSection(s, check) && Shows(lines, i, header + PrintHunks(s.hunks))
    requires SectionBoundary(lines, i + |header| + |PrintHunks(s.hunks)|)
    ensures i < |lines| && SectionAt(lines, i, check) == Parsed((FileOf(s), i + |header| + |PrintHunks(s.hunks)|))
  {
    ShowsSplit(lines, i, header, PrintHunks(s.hunks));
    HeaderParses(lines, i, s, header);
    HunksFollow(lines, i, s, i + |header| - 2, check);
  }

  lemma {:induction false} HunksFollow(lines: seq<Line>, i: nat, s: Section, names: nat, check: string -> Option<PatchError>)
    requires i < |lines| && lines[i] == GitHeader(s.path, s.path) && GoodSection(s, check)
    requires s.kind.Creation? == (i + 1 < |lines| && lines[i + 1] == NewMode)
    requires s.kind.Deletion? == (i + 1 < |lines| && lines[i + 1] == DeletedMode)
    requires names == PastIndex(lines, PastMode(lines, i + 1)) && NamesFollow(lines, names, FileOf(s))
    requires Shows(lines, names + 2, PrintHunks(s.hunks)) && SectionBoundary(lines, names + 2 + |PrintHunks(s.hunks)|)
    ensures SectionAt(lines, i, check) == Parsed((FileOf(s), names + 2 + |PrintHunks(s.hunks)|))
  {
    assert UnfoldGood(true) && UnfoldLines(true);
    HunksParse(lines, names + 2, s.hunks);
    SectionIs(lines, i, FileOf(s), names, names + 2 + |PrintHunks(s.hunks)|, check);
  }

  // The parts of a section, put together.
  lemma {:induction false} SectionIs(lines: seq<Line>, i: nat, file: PatchFile, names: nat, end: nat, check: string -> Option<PatchError>)
    requires i < |lines| && lines[i] == GitHeader(file.path, file.path) && check(file.path).None?
    requires file.created == (i + 1 < |lines| && lines[i + 1] == NewMode)
    requires file.deleted == (i + 1 < |lines| && lines[i + 1] == DeletedMode)
    requires names == PastIndex(lines, PastMode(lines, i + 1)) && NamesFollow(lines, names, file)
    requires HunksEnd(lines, names + 2) == Some(end) && end != names + 2
    ensures SectionAt(lines, i, check) == Parsed((file, end))
  {
  }

  lemma {:induction false} SectionSplits(s: Section, part: seq<Line>) returns (header: seq<Line>)
    requires IsSection(s, part)
    ensures IsHeader(s, header) && part == header + PrintHunks(s.hunks)
    ensures |part| >= 3 && part[0] == GitHeader(s.path, s.path)
  {
    assert UnfoldPrint(true);
    header := PrintHeader(s);
    HeaderLines(s);
  }

  lemma {:induction false} PrintedParses(lines: seq<Line>, i: nat, s: Section, part: seq<Line>, check: string -> Option<PatchError>)
    requires IsSection(s, part) && GoodSection(s, check) && Shows(lines, i, part) && SectionBoundary(lines, i + |part|)
    ensures i < i + |part| <= |lines| && IsSectionAt(lines, i, check, Parsed((FileOf(s), i + |part|)))
  {
    var header := SectionSplits(s, part);
    SectionParses(lines, i, s, header, check);
  }

  lemma {:induction false} PartEnds(lines: seq<Line>, end: nat, sections: seq<Section>, parts: seq<seq<Line>>)
    requires end <= |lines| && ArePrinted(sections, parts) && lines[end..] == Flatten(parts)
    ensures SectionBoundary(lines, end)
  {
    if parts != [] {
      var _ := SectionSplits(sections[0], parts[0]);
      assert lines[end] == lines[end..][0] == parts[0][0];
    }
  }

  lemma {:induction false} SectionsStep(lines: seq<Line>, i: nat, file: PatchFile, end: nat, files: seq<PatchFile>, check: string -> Option<PatchError>)
    requires i < end <= |lines| && IsSectionAt(lines, i, check, Parsed((file, end)))
    requires ParsesTo(lines, end, files, check)
    ensures ParsesTo(lines, i, [file] + files, check)
  {
    assert UnfoldParse(true) && UnfoldLines(true);
  }

  lemma {:induction false} TailShown(lines: seq<Line>, i: nat, parts: seq<seq<Line>>)
    requires parts != [] && i <= |lines| && lines[i..] == Flatten(parts)
    ensures i + |parts[0]| <= |lines| && Shows(lines, i, parts[0]) && lines[i + |parts[0]|..] == Flatten(parts[1..])
  {
    assert lines[i..|lines|] == lines[i..];
    ShowsSplit(lines, i, parts[0], Flatten(parts[1..]));
  }

  // The printed sections stand in `lines` from i to the end.
  ghost predicate Stands(lines: seq<Line>, i: nat, sections: seq<Section>, parts: seq<seq<Line>>, check: string -> Option<PatchError>) {
    i <= |lines| && ArePrinted(sections, parts) && lines[i..] == Flatten(parts) && GoodSections(sections, check)
  }

  lemma {:induction false} TailStands(
    lines: seq<Line>, i: nat, sections: seq<Section>, parts: seq<seq<Line>>, check: string -> Option<PatchError>)
    requires sections != [] && Stands(lines, i, sections, parts, check)
    ensures Stands(lines, i + |parts[0]|, sections[1..], parts[1..], check)
  {
    TailShown(lines, i, parts);
  }

  lemma {:induction false} HeadParses(
    lines: seq<Line>, i: nat, sections: seq<Section>, parts: seq<seq<Line>>, check: string -> Option<PatchError>)
    requires sections != [] && Stands(lines, i, sections, parts, check)
    ensures var end := i + |parts[0]|;
      i < end <= |lines| && IsSectionAt(lines, i, check, Parsed((FileOf(sections[0]), end)))
  {
    TailShown(lines, i, parts);
    PartEnds(lines, i + |parts[0]|, sections[1..], parts[1..]);
    PrintedParses(lines, i, sections[0], parts[0], check);
  }

  lemma {:induction false} FilesFront(sections: seq<Section>)
    requires sections != []
    ensures FilesOf(sections) == [FileOf(sections[0])] + FilesOf(sections[1..])
  {
  }

  lemma {:induction false} SectionsParse(
    lines: seq<Line>, i: nat, sections: seq<Section>, parts: seq<seq<Line>>, check: string -> Option<PatchError>)
    requires Stands(lines, i, sections, parts, check)
    ensures ParsesTo(lines, i, FilesOf(sections), check)
    decreases |sections|
  {
    if sections == [] {
      assert FilesOf(sections) == [];
    } else {
      var end := i + |parts[0]|;
      TailStands(lines, i, sections, parts, check);
      HeadParses(lines, i, sections, parts, check);
      SectionsParse(lines, end, sections[1..], parts[1..], check);
      FilesFront(sections);
      SectionsStep(lines, i, FileOf(sections[0]), end, FilesOf(sections[1..]), check);
    }
  }

  // Round trip: the printed form of any well-formed structured patch parses to its files.
  lemma RoundTrip(sections: seq<Section>, check: string -> Option<PatchError>)
    requires GoodSections(sections, check)
    ensures SectionsFrom(PrintSections(sections), 0, check) == Parsed(FilesOf(sections))
  {
    var lines := PrintSections(sections);
    assert lines[0..] == lines;
    PartsArePrinted(sections, Parts(sections));
    SectionsParse(lines, 0, sections, Parts(sections), check);
    assert UnfoldLines(true);
  }

  // ---- what is parsed has been printed ----

  lemma SliceJoin(lines: seq<Line>, i: nat, j: nat, k: nat)
    requires i <= j <= k <= |lines|
    ensures lines[i..k] == lines[i..j] + lines[j..k]
  {
  }

  lemma {:induction false} LineReads(lines: seq<Line>, i: nat)
    requires i < |lines|
    ensures lines[i..PastLine(lines, i)] == PrintLine(BodyLine(lines[i], PastLine(lines, i) == i + 2))
  {
    if PastLine(lines, i) == i + 2 {
      assert lines[i..i + 2] == [lines[i]] + [lines[i + 1]];
    }
  }

  lemma {:induction false} BodyFront(b: BodyLine, rest: seq<BodyLine>)
    requires MarkOf(b.line).Some? && Marked(rest)
    ensures Marked([b] + rest) && PrintBody([b] + rest) == PrintLine(b) + PrintBody(rest)
    ensures Olds([b] + rest) == InOld(MarkOf(b.line).value) + Olds(rest)
    ensures News([b] + rest) == InNew(MarkOf(b.line).value) + News(rest)
  {
    assert ([b] + rest)[1..] == rest;
  }

  lemma {:induction false} BodyReads(lines: seq<Line>, i: nat, olds: nat, news: nat, oldCount: nat, newCount: nat)
    returns (body: seq<BodyLine>)
    requires i <= |lines| && BodyEnd(lines, i, olds, news, oldCount, newCount).Some?
    ensures var end := BodyEnd(lines, i, olds, news, oldCount, newCount).value;
      Marked(body) && lines[i..end] == PrintBody(body)
      && olds + Olds(body) == oldCount && news + News(body) == newCount
    decreases |lines| - i
  {
    body := [];
    if i < |lines| && (olds < oldCount || news < newCount) {
      var end := BodyEnd(lines, i, olds, news, oldCount, newCount).value;
      var next, mark := PastLine(lines, i), MarkOf(lines[i]).value;
      var rest := BodyReads(lines, next, olds + InOld(mark), news + InNew(mark), oldCount, newCount);
      var b := BodyLine(lines[i], next == i + 2);
      body := [b] + rest;
      LineReads(lines, i);
      BodyFront(b, rest);
      SliceJoin(lines, i, next, end);
    }
  }

  lemma {:induction false} HunksRead(lines: seq<Line>, i: nat) returns (hunks: seq<Hunk>)
    requires i <= |lines| && HunksEnd(lines, i).Some?
    ensures GoodHunks(hunks) && lines[i..HunksEnd(lines, i).value] == PrintHunks(hunks)
    decreases |lines| - i
  {
    if StartsHunk(lines, i) {
      var next := BodyEnd(lines, i + 1, 0, 0, lines[i].oldCount, lines[i].newCount).value;
      var body := BodyReads(lines, i + 1, 0, 0, lines[i].oldCount, lines[i].newCount);
      var rest := HunksRead(lines, next);
      var h := Hunk(lines[i].oldCount, lines[i].newCount, body);
      hunks := [h] + rest;
      assert hunks[1..] == rest;
      var end := HunksEnd(lines, i).value;
      assert lines[i..next] == [lines[i]] + lines[i + 1..next] == PrintHunk(h);
      SliceJoin(lines, i, next, end);
    } else {
      hunks := [];
    }
  }

  lemma {:induction false} HeaderReads(lines: seq<Line>, i: nat, file: PatchFile, names: nat) returns (s: Section)
    requires i < |lines| && lines[i] == GitHeader(file.path, file.path)
    requires file.created == (i + 1 < |lines| && lines[i + 1] == NewMode)
    requires file.deleted == (i + 1 < |lines| && lines[i + 1] == DeletedMode)
    requires names == PastIndex(lines, PastMode(lines, i + 1)) && NamesFollow(lines, names, file)
    ensures s.hunks == [] && FileOf(s) == file && IsHeader(s, lines[i..names + 2])
  {
    var kind := if file.created then Creation else if file.deleted then Deletion else Edit;
    s := Section(file.path, kind, names == PastMode(lines, i + 1) + 1, []);
    HeaderLines(s);
    var p := PrintHeader(s);
    assert |p| == names + 2 - i;
    assert forall k :: 0 <= k < |p| ==> lines[i + k] == p[k];
    assert lines[i..names + 2] == p;
  }

  // The parts of a section, taken apart.
  lemma {:induction false} SectionHas(lines: seq<Line>, i: nat, file: PatchFile, end: nat, check: string -> Option<PatchError>)
    requires i < |lines| && IsSectionAt(lines, i, check, Parsed((file, end)))
    ensures lines[i] == GitHeader(file.path, file.path) && check(file.path).None?
    ensures file.created == (i + 1 < |lines| && lines[i + 1] == NewMode)
    ensures file.deleted == (i + 1 < |lines| && lines[i + 1] == DeletedMode)
    ensures var names := PastIndex(lines, PastMode(lines, i + 1));
      NamesFollow(lines, names, file) && HunksEnd(lines, names + 2) == Some(end) && names + 2 < end <= |lines|
  {
    assert UnfoldParse(true);
  }

  lemma {:induction false} SectionReads(lines: seq<Line>, i: nat, file: PatchFile, end: nat, check: string -> Option<PatchError>)
    returns (s: Section)
    requires i < |lines| && IsSectionAt(lines, i, check, Parsed((file, end)))
    ensures i < end <= |lines| && GoodSection(s, check) && FileOf(s) == file && IsSection(s, lines[i..end])
  {
    SectionHas(lines, i, file, end, check);
    var names := PastIndex(lines, PastMode(lines, i + 1));
    var bare := HeaderReads(lines, i, file, names);
    var hunks := HunksRead(lines, names + 2);
    s := bare.(hunks := hunks);
    SectionJoins(lines, i, names + 2, end, bare, s);
    SectionGood(s, lines[names + 2..end], check);
  }

  lemma {:induction false} SectionGood(s: Section, text: seq<Line>, check: string -> Option<PatchError>)
    requires check(s.path).None? && GoodHunks(s.hunks) && text == PrintHunks(s.hunks) && text != []
    ensures GoodSection(s, check)
  {
  }

  lemma {:induction false} SectionJoins(lines: seq<Line>, i: nat, mid: nat, end: nat, bare: Section, s: Section)
    requires i <= mid <= end <= |lines| && IsHeader(bare, lines[i..mid]) && s == bare.(hunks := s.hunks)
    requires lines[mid..end] == PrintHunks(s.hunks)
    ensures IsSection(s, lines[i..end])
  {
    assert UnfoldPrint(true);
    assert lines[i..end] == lines[i..mid] + lines[mid..end];
    assert PrintHeader(s) == PrintHeader(bare);
  }

  lemma {:induction false} SectionsRead(lines: seq<Line>, i: nat, files: seq<PatchFile>, check: string -> Option<PatchError>)
    returns (sections: seq<Section>, parts: seq<seq<Line>>)
    requires i <= |lines| && SectionsFrom(lines, i, check) == Parsed(files)
    ensures GoodSections(sections, check) && ArePrinted(sections, parts)
    ensures lines[i..] == Flatten(parts) && FilesOf(sections) == files
    decreases |lines| - i
  {
    if i == |lines| {
      sections, parts := [], [];
    } else {
      var end := FirstEnd(lines, i, files, check);
      var s := SectionReads(lines, i, files[0], end, check);
      var rest, others := SectionsRead(lines, end, files[1..], check);
      sections, parts := [s] + rest, [lines[i..end]] + others;
      SectionsGrow(lines, i, end, s, rest, others);
      assert FilesOf(sections) == [FileOf(s)] + FilesOf(rest);
    }
  }

  lemma {:induction false} SectionsGrow(
    lines: seq<Line>, i: nat, end: nat, s: Section, rest: seq<Section>, others: seq<seq<Line>>)
    requires i <= end <= |lines| && IsSection(s, lines[i..end]) && ArePrinted(rest, others) && lines[end..] == Flatten(others)
    ensures ArePrinted([s] + rest, [lines[i..end]] + others) && lines[i..] == Flatten([lines[i..end]] + others)
  {
    assert ([lines[i..end]] + others)[1..] == others;
    SliceJoin(lines, i, end, |lines|);
  }

  lemma {:induction false} FirstEnd(lines: seq<Line>, i: nat, files: seq<PatchFile>, check: string -> Option<PatchError>)
    returns (end: nat)
    requires i < |lines| && SectionsFrom(lines, i, check) == Parsed(files)
    ensures i < end <= |lines| && files != [] && IsSectionAt(lines, i, check, Parsed((files[0], end)))
    ensures SectionsFrom(lines, end, check) == Parsed(files[1..])
  {
    var r := SectionAt(lines, i, check);
    end := r.value.1;
  }

  // ---- the two directions together ----

  ghost predicate IsPrinted(lines: seq<Line>, sections: seq<Section>, files: seq<PatchFile>, check: string -> Option<PatchError>) {
    GoodSections(sections, check) && PrintSections(sections) == lines && FilesOf(sections) == files
  }

  // Exactly the printed forms are accepted, each with its own file list.
  lemma ParsesExactlyPrinted(lines: seq<Line>, files: seq<PatchFile>, check: string -> Option<PatchError>)
    ensures SectionsFrom(lines, 0, check) == Parsed(files) <==> exists sections :: IsPrinted(lines, sections, files, check)
  {
    if SectionsFrom(lines, 0, check) == Parsed(files) {
      var sections, parts := SectionsRead(lines, 0, files, check);
      PartsArePrinted(sections, parts);
      assert lines[0..] == lines;
      assert IsPrinted(lines, sections, files, check);
    }
    if exists sections :: IsPrinted(lines, sections, files, check) {
      var sections :| IsPrinted(lines, sections, files, check);
      RoundTrip(sections, check);
    }
  }

  function Paths(files: seq<PatchFile>): seq<string> {
    seq(|files|, i requires 0 <= i < |files| => files[i].path)
  }

  // Two sequences of the same length with the same elements, one without repetition, are permutations.
  lemma {:induction false} SameElements(a: seq<string>, b: seq<string>)
    requires Distinct(b) && |a| == |b| && Elements(a) == Elements(b)
    ensures multiset(a) == multiset(b)
  {
    if b != [] {
      var x := b[|b| - 1];
      var front := b[..|b| - 1];
      assert b == front + [x];
      assert x in Elements(a);
      var i :| 0 <= i < |a| && a[i] == x;
      var rest := a[..i] + a[i + 1..];
      assert a == a[..i] + [x] + a[i + 1..];
      assert Elements(front) == Elements(b) - {x};
      ElementsWithout(a, i, front);
      SameElements(rest, front);
      assert multiset(a) == multiset(rest) + multiset{x};
    }
  }

  // As `front` has as many distinct elements as `a` without position i, nothing occurs twice in `a`.
  lemma ElementsWithout(a: seq<string>, i: nat, front: seq<string>)
    requires i < |a| && Distinct(front) && |front| == |a| - 1 && a[i] !in front
    requires Elements(a) == Elements(front) + {a[i]}
    ensures Elements(a[..i] + a[i + 1..]) == Elements(front)
  {
    var x, rest := a[i], a[..i] + a[i + 1..];
    assert a == a[..i] + [x] + a[i + 1..];
    assert Elements(a) == Elements(rest) + {x};
    Cardinality(front);
    ElementsSize(rest);
    assert |Elements(front) + {x}| == |Elements(front)| + 1;
    assert x in Elements(rest) ==> Elements(rest) == Elements(front) + {x};
  }

  lemma {:induction false} ElementsSize(s: seq<string>)
    ensures |Elements(s)| <= |s|
  {
    if s != [] {
      var front := s[..|s| - 1];
      assert s == front + [s[|s| - 1]];
      ElementsSize(front);
      assert Elements(s) == Elements(front) + {s[|s| - 1]};
    }
  }

  // What acceptance of a patch means: a list of distinct valid paths, and a text that is the printed
  // form of well-formed sections whose paths are those of the list, each once.
  lemma AcceptedPatch(
    lines: seq<Line>, fits: bool, files: seq<string>, check: string -> Option<PatchError>, fold: string -> string)
    requires Verdict(lines, fits, files, check, fold).Parsed?
    ensures var output := Verdict(lines, fits, files, check, fold).value;
      fits && FoldDistinct(files, fold) && multiset(Paths(output)) == multiset(files)
      && exists sections :: IsPrinted(lines, sections, output, check)
  {
    var output := Verdict(lines, fits, files, check, fold).value;
    ParsesExactlyPrinted(lines, output, check);
    assert Elements(Paths(output)) == (set f | f in output :: f.path) by {
      assert forall i :: 0 <= i < |output| ==> Paths(output)[i] == output[i].path;
      assert forall f :: f in output ==> f.path in Paths(output);
    }
    assert Elements(files) == (set p | p in files);
    SameElements(Paths(output), files);
  }
}
