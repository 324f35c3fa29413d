/** The accepted patches and the reasons for refusal, spelled out in lines (app/services/patch_format.py). */
module PatchFacts {
  import opened Folding
  import opened Ordering
  import opened Records
  import opened PatchFormat
  import opened PatchStructure

  // ---- hunks ----

  predicate Removes(line: Line) {
    match line
    case Body(mark, _) => mark == Removal
    case OldName(_) => true
    case _ => false
  }

  predicate Adds(line: Line) {
    match line
    case Body(mark, _) => mark == Addition
    case NewName(_) => true
    case _ => false
  }

  predicate Keeps(line: Line) {
    match line
    case Body(mark, _) => mark == Context
    case _ => false
  }

  function Removed(body: seq<BodyLine>): nat {
    if body == [] then 0 else Removed(body[1..]) + if Removes(body[0].line) then 1 else 0
  }

  function Added(body: seq<BodyLine>): nat {
    if body == [] then 0 else Added(body[1..]) + if Adds(body[0].line) then 1 else 0
  }

  function Kept(body: seq<BodyLine>): nat {
    if body == [] then 0 else Kept(body[1..]) + if Keeps(body[0].line) then 1 else 0
  }

  // Every line is removed, added or context; removed and context lines make the old count, added and
  // context lines the new one.
  ghost predicate CountsFit(h: Hunk) {
    (forall i :: 0 <= i < |h.body| ==> Removes(h.body[i].line) || Adds(h.body[i].line) || Keeps(h.body[i].line))
    && Removed(h.body) + Kept(h.body) == h.oldCount && Added(h.body) + Kept(h.body) == h.newCount
  }

  lemma {:induction false} CountsAre(body: seq<BodyLine>)
    requires Marked(body)
    ensures Olds(body) == Removed(body) + Kept(body) && News(body) == Added(body) + Kept(body)
  {
    if body != [] {
      assert body[0] in body;
      CountsAre(body[1..]);
    }
  }

  lemma HunkMeans(h: Hunk)
    ensures GoodHunk(h) <==> CountsFit(h)
  {
    forall i | 0 <= i < |h.body| ensures h.body[i] in h.body {
    }
    if Marked(h.body) { CountsAre(h.body); }
  }

  // ---- sections ----

  // The header names the path twice, says whether the file is created or deleted, and gives the old and
  // the new name with their prefixes, or /dev/null on the side where there is no file.
  function Header(s: Section): seq<Line> {
    [GitHeader(s.path, s.path)]
    + (if s.kind == Creation then [NewMode] else if s.kind == Deletion then [DeletedMode] else [])
    + (if s.index then [IndexLine] else [])
    + [OldName(if s.kind == Creation then DevNull else InA(s.path)), NewName(if s.kind == Deletion then DevNull else InB(s.path))]
  }

  function Text(sections: seq<Section>): seq<Line> {
    if sections == [] then [] else Header(sections[0]) + PrintHunks(sections[0].hunks) + Text(sections[1..])
  }

  lemma {:induction false} TextIsPrint(sections: seq<Section>)
    ensures Text(sections) == PrintSections(sections)
  {
    if sections != [] {
      TextIsPrint(sections[1..]);
      assert Parts(sections)[1..] == Parts(sections[1..]);
      assert Header(sections[0]) == PrintHeader(sections[0]);
    }
  }

  ghost predicate Sound(s: Section, check: string -> Option<PatchError>) {
    check(s.path).None? && s.hunks != [] && forall i :: 0 <= i < |s.hunks| ==> CountsFit(s.hunks[i])
  }

  lemma SoundMeans(s: Section, check: string -> Option<PatchError>)
    ensures GoodSection(s, check) <==> Sound(s, check)
  {
    assert UnfoldGood(true);
    forall i | 0 <= i < |s.hunks| ensures s.hunks[i] in s.hunks && (GoodHunk(s.hunks[i]) <==> CountsFit(s.hunks[i])) {
      HunkMeans(s.hunks[i]);
    }
  }

  // The lines are the text of these sections, all of them sound, and these are their files.
  ghost predicate Spells(lines: seq<Line>, sections: seq<Section>, files: seq<PatchFile>, check: string -> Option<PatchError>) {
    lines == Text(sections) && |files| == |sections|
    && forall i :: 0 <= i < |sections| ==>
         Sound(sections[i], check) && files[i] == PatchFile(sections[i].path, sections[i].kind == Creation, sections[i].kind == Deletion)
  }

  lemma SpellsMeans(lines: seq<Line>, sections: seq<Section>, files: seq<PatchFile>, check: string -> Option<PatchError>)
    ensures Spells(lines, sections, files, check) <==> IsPrinted(lines, sections, files, check)
  {
    TextIsPrint(sections);
    forall i | 0 <= i < |sections| ensures GoodSection(sections[i], check) <==> Sound(sections[i], check) {
      SoundMeans(sections[i], check);
    }
    if Spells(lines, sections, files, check) {
      assert FilesOf(sections) == files;
    }
  }

  // ---- the verdict ----

  // A patch is accepted exactly if the text fits, every declared path is valid and they differ without
  // regard to case, and the lines spell sections whose paths are the declared ones, each once.
  lemma AcceptedExactly(
    lines: seq<Line>, fits: bool, files: seq<string>, check: string -> Option<PatchError>, fold: string -> string,
    output: seq<PatchFile>)
    ensures Verdict(lines, fits, files, check, fold) == Parsed(output) <==>
      fits && (forall i :: 0 <= i < |files| ==> check(files[i]).None?)
      && (forall i, j :: 0 <= i < j < |files| ==> fold(files[i]) != fold(files[j]))
      && (exists sections :: Spells(lines, sections, output, check)) && multiset(Paths(output)) == multiset(files)
  {
    FaultFree(files, 0, check);
    ParsesExactlyPrinted(lines, output, check);
    forall sections ensures Spells(lines, sections, output, check) <==> IsPrinted(lines, sections, output, check) {
      SpellsMeans(lines, sections, output, check);
    }
    if Verdict(lines, fits, files, check, fold) == Parsed(output) {
      AcceptedPatch(lines, fits, files, check, fold);
    }
    if multiset(Paths(output)) == multiset(files) {
      PathsCover(output, files);
    }
  }

  lemma {:induction false} FaultFree(files: seq<string>, i: nat, check: string -> Option<PatchError>)
    requires i <= |files|
    ensures FirstFault(files, i, check).None? <==> forall j :: i <= j < |files| ==> check(files[j]).None?
    decreases |files| - i
  {
    if i < |files| { FaultFree(files, i + 1, check); }
  }

  lemma PathsCover(output: seq<PatchFile>, files: seq<string>)
    requires multiset(Paths(output)) == multiset(files)
    ensures Covers(output, files)
  {
    assert |multiset(Paths(output))| == |output| && |multiset(files)| == |files|;
    forall p ensures p in (set f | f in output :: f.path) <==> p in files {
      assert p in multiset(Paths(output)) <==> p in multiset(files);
      if p in Paths(output) {
        var i :| 0 <= i < |output| && Paths(output)[i] == p;
        assert output[i] in output && output[i].path == p;
      }
      forall f | f in output && f.path == p ensures p in Paths(output) {
        var i :| 0 <= i < |output| && output[i] == f;
        assert Paths(output)[i] == p;
      }
    }
  }

  // Refusals come in this order: the text, the first invalid declared path, paths that agree without
  // regard to case, the first fault of the lines, and sections that are not the declared files.
  lemma RefusedInOrder(
    lines: seq<Line>, fits: bool, files: seq<string>, check: string -> Option<PatchError>, fold: string -> string)
    ensures var v := Verdict(lines, fits, files, check, fold);
      if !fits then v == Rejected(InvalidPatchFormat)
      else if exists i :: 0 <= i < |files| && check(files[i]).Some? then
        exists i :: 0 <= i < |files| && check(files[i]).Some? && v == Rejected(check(files[i]).value)
          && forall j :: 0 <= j < i ==> check(files[j]).None?
      else if exists i, j :: 0 <= i < j < |files| && fold(files[i]) == fold(files[j]) then v == Rejected(DuplicatePaths)
      else if SectionsFrom(lines, 0, check).Rejected? then v == Rejected(SectionsFrom(lines, 0, check).error)
      else v.Rejected? ==> v.error == FileListMismatch
  {
    FaultFree(files, 0, check);
    FaultIsFirst(files, 0, check);
  }

  lemma {:induction false} FaultIsFirst(files: seq<string>, i: nat, check: string -> Option<PatchError>)
    requires i <= |files|
    ensures var fault := FirstFault(files, i, check);
      fault.Some? ==>
        exists j :: i <= j < |files| && check(files[j]) == fault && forall m :: i <= m < j ==> check(files[m]).None?
    decreases |files| - i
  {
    if i < |files| { FaultIsFirst(files, i + 1, check); }
  }
}
