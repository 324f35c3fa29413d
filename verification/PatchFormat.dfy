/** The strict subset of Git unified diffs that is accepted (app/services/patch_format.py). */
module PatchFormat {
  import opened Folding
  import opened Ordering
  import opened Records

  datatype Mark = Context | Removal | Addition

  // The name in a `---` or `+++` line: `/dev/null`, `a/path`, `b/path` or anything else.
  datatype FileName = DevNull | InA(path: string) | InB(path: string) | OtherName(text: string)

  // A line by what the parser's patterns see in it. `--- x` and `+++ x` are at the same time a removed
  // and an added line, so a hunk body may hold lines that look like headers.
  datatype Line =
    | GitHeader(a: string, b: string)
    | NewMode
    | DeletedMode
    | IndexLine
    | OldName(name: FileName)
    | NewName(name: FileName)
    | HunkLine(oldCount: nat, newCount: nat)
    | BadHunkLine
    | NoNewline
    | Body(mark: Mark, text: string)
    | OtherLine(text: string)

  function MarkOf(line: Line): Option<Mark> {
    match line
    case Body(mark, _) => Some(mark)
    case OldName(_) => Some(Removal)
    case NewName(_) => Some(Addition)
    case _ => None
  }

  datatype PatchFile = PatchFile(path: string, created: bool, deleted: bool)

  datatype PatchError =
    | InvalidPatchFormat | UnsafePath | ProtectedPath | DuplicatePaths | UnsupportedHeader | InvalidHunk
    | EmptyPatchFile | FileListMismatch

  datatype Parse<+T> = Parsed(value: T) | Rejected(error: PatchError)

  // ---- what the loops compute ----

  function InOld(m: Mark): nat {
    if m == Addition then 0 else 1
  }

  function InNew(m: Mark): nat {
    if m == Removal then 0 else 1
  }

  // The position after a body line and the marker that may follow it.
  function PastLine(lines: seq<Line>, i: nat): (j: nat)
    requires i < |lines|
    ensures i < j <= |lines|
  {
    if i + 1 < |lines| && lines[i + 1] == NoNewline then i + 2 else i + 1
  }

  // The end of a hunk body, with `olds` and `news` lines counted so far.
  function BodyEnd(lines: seq<Line>, i: nat, olds: nat, news: nat, oldCount: nat, newCount: nat): (r: Option<nat>)
    requires i <= |lines|
    ensures r.Some? ==> i <= r.value <= |lines|
    decreases |lines| - i
  {
    if i < |lines| && (olds < oldCount || news < newCount) then
      var mark := MarkOf(lines[i]);
      if mark.None? then None
      else BodyEnd(lines, PastLine(lines, i), olds + InOld(mark.value), news + InNew(mark.value), oldCount, newCount)
    else if olds == oldCount && news == newCount then Some(i)
    else None
  }

  predicate StartsHunk(lines: seq<Line>, i: nat) {
    i < |lines| && (lines[i].HunkLine? || lines[i].BadHunkLine?)
  }

  // The end of the hunks that begin here.
  function HunksEnd(lines: seq<Line>, i: nat): (r: Option<nat>)
    requires i <= |lines|
    ensures r.Some? ==> i <= r.value <= |lines| && (StartsHunk(lines, i) ==> i < r.value)
    decreases |lines| - i
  {
    if !StartsHunk(lines, i) then Some(i)
    else if lines[i].BadHunkLine? then None
    else
      var end := BodyEnd(lines, i + 1, 0, 0, lines[i].oldCount, lines[i].newCount);
      if end.None? then None else HunksEnd(lines, end.value)
  }

  function OldHeader(path: string, created: bool): Line {
    OldName(if created then DevNull else InA(path))
  }

  function NewHeader(path: string, deleted: bool): Line {
    NewName(if deleted then DevNull else InB(path))
  }

  function PastMode(lines: seq<Line>, i: nat): nat {
    if i < |lines| && (lines[i] == NewMode || lines[i] == DeletedMode) then i + 1 else i
  }

  function PastIndex(lines: seq<Line>, i: nat): nat {
    if i < |lines| && lines[i] == IndexLine then i + 1 else i
  }

  predicate NamesFollow(lines: seq<Line>, i: nat, file: PatchFile) {
    i + 1 < |lines| && lines[i] == OldHeader(file.path, file.created) && lines[i + 1] == NewHeader(file.path, file.deleted)
  }

  // One file section: its file and the position after it.
  function SectionAt(lines: seq<Line>, i: nat, check: string -> Option<PatchError>): (r: Parse<(PatchFile, nat)>)
    requires i < |lines|
    ensures r.Parsed? ==> i < r.value.1 <= |lines|
  {
    if !lines[i].GitHeader? || lines[i].a != lines[i].b then Rejected(UnsupportedHeader)
    else if check(lines[i].a).Some? then Rejected(check(lines[i].a).value)
    else
      var mode := i + 1;
      var file := PatchFile(lines[i].a, mode < |lines| && lines[mode] == NewMode, mode < |lines| && lines[mode] == DeletedMode);
      var names := PastIndex(lines, PastMode(lines, mode));
      if !NamesFollow(lines, names, file) then Rejected(UnsupportedHeader)
      else
        var end := HunksEnd(lines, names + 2);
        if end.None? then Rejected(InvalidHunk)
        else if end.value == names + 2 then Rejected(EmptyPatchFile)
        else Parsed((file, end.value))
  }

  // All sections from here to the end.
  function SectionsFrom(lines: seq<Line>, i: nat, check: string -> Option<PatchError>): Parse<seq<PatchFile>>
    requires i <= |lines|
    decreases |lines| - i
  {
    if i == |lines| then Parsed([])
    else
      match SectionAt(lines, i, check)
      case Rejected(error) => Rejected(error)
      case Parsed((file, end)) =>
        match SectionsFrom(lines, end, check)
        case Rejected(error) => Rejected(error)
        case Parsed(rest) => Parsed([file] + rest)
  }

  // ---- the parser ----

  class PatchParser {
    // `validate_path` and `str.casefold`
    const check: string -> Option<PatchError>
    const fold: string -> string

    constructor (check: string -> Option<PatchError>, fold: string -> string)
      ensures this.check == check && this.fold == fold
    {
      this.check, this.fold := check, fold;
    }

    method ReadBody(lines: seq<Line>, start: nat, oldCount: nat, newCount: nat) returns (end: Option<nat>)
      requires start <= |lines|
      ensures end == BodyEnd(lines, start, 0, 0, oldCount, newCount)
    {
      var i, olds, news := start, 0, 0;
      while i < |lines| && (olds < oldCount || news < newCount)
        invariant start <= i <= |lines|
        invariant BodyEnd(lines, i, olds, news, oldCount, newCount) == BodyEnd(lines, start, 0, 0, oldCount, newCount)
        decreases |lines| - i
      {
        var mark := MarkOf(lines[i]);
        if mark.None? {
          return None;
        }
        if mark.value != Addition {
          olds := olds + 1;
        }
        if mark.value != Removal {
          news := news + 1;
        }
        i := i + 1;
        if i < |lines| && lines[i] == NoNewline {
          i := i + 1;
        }
      }
      end := if olds != oldCount || news != newCount then None else Some(i);
    }

    method ReadHunks(lines: seq<Line>, start: nat) returns (end: Option<nat>, hunks: nat)
      requires start <= |lines|
      ensures end == HunksEnd(lines, start)
      ensures end.Some? ==> (hunks == 0 <==> end.value == start)
    {
      var i := start;
      hunks := 0;
      while i < |lines| && (lines[i].HunkLine? || lines[i].BadHunkLine?)
        invariant start <= i <= |lines| && (hunks == 0 <==> i == start)
        invariant HunksEnd(lines, i) == HunksEnd(lines, start)
        decreases |lines| - i
      {
        if lines[i].BadHunkLine? {
          return None, hunks;
        }
        var body := ReadBody(lines, i + 1, lines[i].oldCount, lines[i].newCount);
        if body.None? {
          return None, hunks;
        }
        i := body.value;
        hunks := hunks + 1;
      }
      end := Some(i);
    }

    method ReadSection(lines: seq<Line>, start: nat) returns (r: Parse<(PatchFile, nat)>)
      requires start < |lines|
      ensures IsSectionAt(lines, start, check, r)
      ensures r.Parsed? ==> start < r.value.1 <= |lines|
    {
      if !lines[start].GitHeader? || lines[start].a != lines[start].b {
        return Rejected(UnsupportedHeader);
      }
      var path := lines[start].a;
      if check(path).Some? {
        return Rejected(check(path).value);
      }
      var i, created, deleted := start + 1, false, false;
      if i < |lines| && (lines[i] == NewMode || lines[i] == DeletedMode) {
        created, deleted := lines[i] == NewMode, lines[i] == DeletedMode;
        i := i + 1;
      }
      if i < |lines| && lines[i] == IndexLine {
        i := i + 1;
      }
      if i + 1 >= |lines| || lines[i] != OldHeader(path, created) || lines[i + 1] != NewHeader(path, deleted) {
        return Rejected(UnsupportedHeader);
      }
      var end, hunks := ReadHunks(lines, i + 2);
      if end.None? {
        return Rejected(InvalidHunk);
      }
      if hunks == 0 {
        return Rejected(EmptyPatchFile);
      }
      r := Parsed((PatchFile(path, created, deleted), end.value));
    }

    method ReadSections(lines: seq<Line>) returns (r: Parse<seq<PatchFile>>)
      ensures r == SectionsFrom(lines, 0, check)
    {
      var output, i := [], 0;
      NoSectionYet(lines, check);
      while i < |lines|
        invariant 0 <= i <= |lines|
        invariant SoFar(lines, i, check, output)
        decreases |lines| - i
      {
        var section := ReadSection(lines, i);
        OneSection(lines, i, check, section, output);
        if section.Rejected? {
          return Rejected(section.error);
        }
        output := output + [section.value.0];
        i := section.value.1;
      }
      AllSections(lines, check, output);
      r := Parsed(output);
    }

    // `parse_patch`; `fits` says that the text has no NUL and is not too long.
    method ParsePatch(lines: seq<Line>, fits: bool, files: seq<string>) returns (r: Parse<seq<PatchFile>>)
      ensures r == Verdict(lines, fits, files, check, fold)
    {
      if !fits {
        return Rejected(InvalidPatchFormat);
      }
      var i := 0;
      while i < |files|
        invariant 0 <= i <= |files| && FirstFault(files, 0, check) == FirstFault(files, i, check)
      {
        if check(files[i]).Some? {
          return Rejected(check(files[i]).value);
        }
        i := i + 1;
      }
      if exists i, j | 0 <= i < j < |files| :: fold(files[i]) == fold(files[j]) {
        return Rejected(DuplicatePaths);
      }
      var output := ReadSections(lines);
      if output.Rejected? {
        return output;
      }
      if |output.value| != |files| || (set f | f in output.value :: f.path) != (set p | p in files) {
        return Rejected(FileListMismatch);
      }
      r := output;
    }
  }

  function FirstFault(files: seq<string>, i: nat, check: string -> Option<PatchError>): Option<PatchError>
    requires i <= |files|
    decreases |files| - i
  {
    if i == |files| then None
    else if check(files[i]).Some? then check(files[i])
    else FirstFault(files, i + 1, check)
  }

  predicate FoldDistinct(files: seq<string>, fold: string -> string) {
    forall i, j | 0 <= i < j < |files| :: fold(files[i]) != fold(files[j])
  }

  predicate Covers(output: seq<PatchFile>, files: seq<string>) {
    |output| == |files| && (set f | f in output :: f.path) == (set p | p in files)
  }

  function Verdict(
    lines: seq<Line>, fits: bool, files: seq<string>, check: string -> Option<PatchError>, fold: string -> string
  ): Parse<seq<PatchFile>>
  {
    if !fits then Rejected(InvalidPatchFormat)
    else if FirstFault(files, 0, check).Some? then Rejected(FirstFault(files, 0, check).value)
    else if !FoldDistinct(files, fold) then Rejected(DuplicatePaths)
    else
      match SectionsFrom(lines, 0, check)
      case Rejected(error) => Rejected(error)
      case Parsed(output) => if Covers(output, files) then Parsed(output) else Rejected(FileListMismatch)
  }

  function Prepend(front: seq<PatchFile>, rest: Parse<seq<PatchFile>>): Parse<seq<PatchFile>> {
    match rest
    case Rejected(error) => Rejected(error)
    case Parsed(files) => Parsed(front + files)
  }

  // Kept folded, for the loop's sake.
  ghost predicate IsSectionAt(lines: seq<Line>, i: nat, check: string -> Option<PatchError>, r: Parse<(PatchFile, nat)>)
    requires i < |lines|
  {
    forall u {:trigger UnfoldParse(u)} :: UnfoldParse(u) ==> r == SectionAt(lines, i, check)
  }

  ghost predicate SoFar(lines: seq<Line>, i: nat, check: string -> Option<PatchError>, output: seq<PatchFile>)
    requires i <= |lines|
  {
    forall u {:trigger UnfoldParse(u)} :: UnfoldParse(u) ==>
      SectionsFrom(lines, 0, check) == Prepend(output, SectionsFrom(lines, i, check))
  }

  lemma NoSectionYet(lines: seq<Line>, check: string -> Option<PatchError>)
    ensures SoFar(lines, 0, check, [])
  {
    var all := SectionsFrom(lines, 0, check);
    assert all.Parsed? ==> [] + all.value == all.value;
  }

  // What one section contributes.
  lemma OneSection(
    lines: seq<Line>, i: nat, check: string -> Option<PatchError>, section: Parse<(PatchFile, nat)>, output: seq<PatchFile>)
    requires i < |lines| && IsSectionAt(lines, i, check, section) && SoFar(lines, i, check, output)
    ensures section.Rejected? ==> SectionsFrom(lines, 0, check) == Rejected(section.error)
    ensures section.Parsed? ==> i < section.value.1 <= |lines| && SoFar(lines, section.value.1, check, output + [section.value.0])
  {
    assert UnfoldParse(true);
    if section.Parsed? {
      var rest := SectionsFrom(lines, section.value.1, check);
      if rest.Parsed? {
        assert output + [section.value.0] + rest.value == output + ([section.value.0] + rest.value);
      }
    }
  }

  lemma AllSections(lines: seq<Line>, check: string -> Option<PatchError>, output: seq<PatchFile>)
    requires SoFar(lines, |lines|, check, output)
    ensures SectionsFrom(lines, 0, check) == Parsed(output)
  {
    assert UnfoldParse(true);
    assert output + [] == output;
  }
}
