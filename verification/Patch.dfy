/** The unified-diff applier of the workspace (src/agent_runtime/workspace.py, `_apply`). */
module Patch {
  import opened Text

  /** A generation directory: path to file text. */
  type Tree = map<string, string>

  datatype Edit = Keep(text: string) | Drop(text: string) | Add(text: string)

  /** `start` is the number in the header less one, so -1 for a header that says 0. */
  datatype Hunk = Hunk(start: int, body: seq<Edit>)

  datatype Section = Section(path: string, hunks: seq<Hunk>)

  datatype Parsed<T> = Good(value: T, rest: seq<string>) | Bad

  /* ---- reading a patch ---- */

  const FORBIDDEN: seq<string> :=
    ["GIT binary patch", "Binary files ", "rename ", "copy ", "deleted file mode", "new file mode",
     "old mode", "new mode", "index "]

  predicate Forbidden(line: string) {
    exists i :: 0 <= i < |FORBIDDEN| && FORBIDDEN[i] <= line
  }

  function SkipCount(s: string): string {
    if |s| > 0 && s[0] == ',' && Number(s[1..]).Some? then Number(s[1..]).value.1 else s
  }

  /** `@@ -(\d+)(?:,(\d+))? \+(\d+)(?:,(\d+))? @@` at the front of a line; yields the first group. */
  function HunkNumber(line: string): Option<nat> {
    if !("@@ -" <= line) then None else
    match Number(line[4..])
    case None => None
    case Some((n, r)) =>
      var tail := SkipCount(r);
      if !(" +" <= tail) then None else
      match Number(tail[2..])
      case None => None
      case Some((_, r')) => if " @@" <= SkipCount(r') then Some(n) else None
  }

  /** `rstrip("\r\n")` followed by cutting at the first tab. */
  function StripEnd(s: string): string {
    if s != [] && (s[|s| - 1] == '\n' || s[|s| - 1] == '\r') then StripEnd(s[..|s| - 1]) else s
  }

  function BeforeTab(s: string): string {
    if s == [] || s[0] == '\t' then [] else [s[0]] + BeforeTab(s[1..])
  }

  function HeaderPath(line: string): string
    requires |line| >= 6
  {
    BeforeTab(StripEnd(line[6..]))
  }

  predicate EndsBody(line: string) { "@@" <= line || "--- a/" <= line }

  datatype BodyLine = Change(edit: Edit) | NoNewlineNote | Malformed

  function ReadBodyLine(line: string): BodyLine {
    if line == [] then Malformed
    else if line[0] == ' ' then Change(Keep(line[1..]))
    else if line[0] == '-' then Change(Drop(line[1..]))
    else if line[0] == '+' then Change(Add(line[1..]))
    else if "\\ No newline at end of file" <= line then NoNewlineNote
    else Malformed
  }

  function ReadBody(lines: seq<string>): (r: Parsed<seq<Edit>>)
    ensures r.Good? ==> |r.rest| <= |lines|
  {
    if lines == [] || EndsBody(lines[0]) then Good([], lines) else
    match ReadBodyLine(lines[0])
    case Malformed => Bad
    case NoNewlineNote => ReadBody(lines[1..])
    case Change(e) =>
      match ReadBody(lines[1..])
      case Bad => Bad
      case Good(b, rest) => Good([e] + b, rest)
  }

  function ReadHunks(lines: seq<string>): (r: Parsed<seq<Hunk>>)
    ensures r.Good? ==> |r.rest| <= |lines|
    decreases |lines|
  {
    if lines == [] || !("@@" <= lines[0]) then Good([], lines) else
    match HunkNumber(lines[0])
    case None => Bad
    case Some(n) =>
      match ReadBody(lines[1..])
      case Bad => Bad
      case Good(b, rest) =>
        match ReadHunks(rest)
        case Bad => Bad
        case Good(hs, rest') => Good([Hunk(n - 1, b)] + hs, rest')
  }

  predicate SectionHeader(lines: seq<string>) {
    && |lines| >= 2
    && "--- a/" <= lines[0]
    && "+++ b/" <= lines[1]
    && HeaderPath(lines[0]) == HeaderPath(lines[1])
  }

  function ReadPatch(lines: seq<string>): Option<seq<Section>>
    decreases |lines|
  {
    if lines == [] then Some([])
    else if !SectionHeader(lines) then None
    else
      match ReadHunks(lines[2..])
      case Bad => None
      case Good(hs, rest) =>
        match ReadPatch(rest)
        case None => None
        case Some(ss) => Some([Section(HeaderPath(lines[0]), hs)] + ss)
  }

  /* ---- carrying it out ---- */

  /** Python's `s[a:b]`, which clamps both ends. */
  function Slice(s: seq<string>, a: nat, b: nat): seq<string>
    requires a <= b
  {
    s[(if a < |s| then a else |s|)..(if b < |s| then b else |s|)]
  }

  function RunBody(source: seq<string>, cursor: nat, body: seq<Edit>): Option<(nat, seq<string>)>
    decreases |body|
  {
    if body == [] then Some((cursor, [])) else
    match body[0]
    case Add(t) =>
      (match RunBody(source, cursor, body[1..])
       case None => None
       case Some((c, o)) => Some((c, [t] + o)))
    case Keep(t) =>
      if cursor >= |source| || source[cursor] != t then None else
      (match RunBody(source, cursor + 1, body[1..])
       case None => None
       case Some((c, o)) => Some((c, [t] + o)))
    case Drop(t) =>
      if cursor >= |source| || source[cursor] != t then None else RunBody(source, cursor + 1, body[1..])
  }

  function RunHunks(source: seq<string>, cursor: nat, hunks: seq<Hunk>): Option<seq<string>>
    decreases |hunks|
  {
    if hunks == [] then Some(Slice(source, cursor, if cursor < |source| then |source| else cursor))
    else if hunks[0].start < cursor then None
    else
      match RunBody(source, hunks[0].start, hunks[0].body)
      case None => None
      case Some((c, o)) =>
        match RunHunks(source, c, hunks[1..])
        case None => None
        case Some(o') => Some(Slice(source, cursor, hunks[0].start) + o + o')
  }

  function RunSections(tree: Tree, sections: seq<Section>): Option<Tree>
    decreases |sections|
  {
    if sections == [] then Some(tree)
    else
      var s := sections[0];
      if s.path !in tree then None else
      match RunHunks(SplitLines(tree[s.path]), 0, s.hunks)
      case None => None
      case Some(out) => RunSections(tree[s.path := Join(out)], sections[1..])
  }

  function ApplyLines(tree: Tree, lines: seq<string>): Option<Tree> {
    match ReadPatch(lines)
    case None => None
    case Some(ss) => RunSections(tree, ss)
  }

  predicate NoneForbidden(lines: seq<string>) { forall i :: 0 <= i < |lines| ==> !Forbidden(lines[i]) }

  /** The meaning of a patch: None is the source's WorkspaceError. */
  function ApplyText(tree: Tree, patch: string): Option<Tree> {
    var lines := SplitLines(patch);
    if !NoneForbidden(lines) then None else ApplyLines(tree, lines)
  }

  /* ---- the cursor loops, in place ---- */

  /** What the hunks ahead make of one file: its new lines and the patch lines left over. */
  ghost function RestOfSection(source: seq<string>, cursor: nat, output: seq<string>, lines: seq<string>)
    : Option<(seq<string>, seq<string>)>
  {
    match ReadHunks(lines)
    case Bad => None
    case Good(hs, rest) =>
      match RunHunks(source, cursor, hs)
      case None => None
      case Some(o) => Some((output + o, rest))
  }

  /** The same in the middle of a hunk. */
  ghost function RestOfHunk(source: seq<string>, cursor: nat, output: seq<string>, lines: seq<string>)
    : Option<(seq<string>, seq<string>)>
  {
    match ReadBody(lines)
    case Bad => None
    case Good(b, rest) =>
      match RunBody(source, cursor, b)
      case None => None
      case Some((c, o)) => RestOfSection(source, c, output + o, rest)
  }

  lemma EnterSection(tree: Tree, lines: seq<string>)
    requires lines != []
    ensures ApplyLines(tree, lines) ==
            if !SectionHeader(lines) || HeaderPath(lines[0]) !in tree then None
            else
              match RestOfSection(SplitLines(tree[HeaderPath(lines[0])]), 0, [], lines[2..])
              case None => None
              case Some((out, rest)) => ApplyLines(tree[HeaderPath(lines[0]) := Join(out)], rest)
  {
    if SectionHeader(lines) && ReadHunks(lines[2..]).Good? {
      var Good(hs, rest) := ReadHunks(lines[2..]);
      var p := HeaderPath(lines[0]);
      if ReadPatch(rest).Some? {
        assert ReadPatch(lines).value[1..] == ReadPatch(rest).value;
      }
      if p in tree && RunHunks(SplitLines(tree[p]), 0, hs).Some? {
        var o := RunHunks(SplitLines(tree[p]), 0, hs).value;
        assert [] + o == o;
      }
    }
  }

  lemma RunHunksStep(source: seq<string>, cursor: nat, h: Hunk, hs: seq<Hunk>)
    ensures RunHunks(source, cursor, [h] + hs) ==
            if h.start < cursor || RunBody(source, h.start, h.body).None? then None
            else
              var (c, o) := RunBody(source, h.start, h.body).value;
              match RunHunks(source, c, hs)
              case None => None
              case Some(o') => Some(Slice(source, cursor, h.start) + o + o')
  {
  }

  lemma {:induction false} EnterHunk(source: seq<string>, cursor: nat, output: seq<string>, lines: seq<string>)
    requires lines != [] && "@@" <= lines[0]
    ensures HunkNumber(lines[0]).None? ==> RestOfSection(source, cursor, output, lines) == None
    ensures HunkNumber(lines[0]).Some? ==>
              var start := HunkNumber(lines[0]).value - 1;
              RestOfSection(source, cursor, output, lines) ==
              if start < cursor then None
              else RestOfHunk(source, start, output + Slice(source, cursor, start), lines[1..])
  {
    hide HunkNumber;
    if HunkNumber(lines[0]).Some? {
      var start := HunkNumber(lines[0]).value - 1;
      var body := ReadBody(lines[1..]);
      if body.Good? && ReadHunks(body.rest).Good? {
        var hs := ReadHunks(body.rest).value;
        assert ReadHunks(lines) == Good([Hunk(start, body.value)] + hs, ReadHunks(body.rest).rest);
        RunHunksStep(source, cursor, Hunk(start, body.value), hs);
        if start >= cursor && RunBody(source, start, body.value).Some? {
          var (c, o) := RunBody(source, start, body.value).value;
          if RunHunks(source, c, hs).Some? {
            var o' := RunHunks(source, c, hs).value;
            assert output + (Slice(source, cursor, start) + o + o') == output + Slice(source, cursor, start) + o + o';
          }
        }
      } else {
        assert ReadHunks(lines).Bad?;
      }
    }
  }

  lemma EnterBodyLine(source: seq<string>, cursor: nat, output: seq<string>, lines: seq<string>)
    requires lines != [] && !EndsBody(lines[0])
    ensures var r := RestOfHunk(source, cursor, output, lines);
            var matches := (t: string) => cursor < |source| && source[cursor] == t;
            match ReadBodyLine(lines[0])
            case Malformed => r == None
            case NoNewlineNote => r == RestOfHunk(source, cursor, output, lines[1..])
            case Change(Add(t)) => r == RestOfHunk(source, cursor, output + [t], lines[1..])
            case Change(Keep(t)) =>
              r == if matches(t) then RestOfHunk(source, cursor + 1, output + [t], lines[1..]) else None
            case Change(Drop(t)) =>
              r == if matches(t) then RestOfHunk(source, cursor + 1, output, lines[1..]) else None
  {
    match ReadBodyLine(lines[0])
    case Malformed =>
    case NoNewlineNote =>
    case Change(e) =>
      match ReadBody(lines[1..])
      case Bad =>
      case Good(b, rest) =>
        assert ([e] + b)[1..] == b;
        var c' := if e.Add? then cursor else cursor + 1;
        if RunBody(source, c', b).Some? {
          var (c, o) := RunBody(source, c', b).value;
          assert output + ([e.text] + o) == output + [e.text] + o;
        }
  }

  lemma LeaveHunk(source: seq<string>, cursor: nat, output: seq<string>, lines: seq<string>)
    requires lines == [] || EndsBody(lines[0])
    ensures RestOfHunk(source, cursor, output, lines) ==
            RestOfSection(source, cursor, output, lines)
  {
    assert output + [] == output;
  }

  lemma LeaveSection(source: seq<string>, cursor: nat, output: seq<string>, lines: seq<string>)
    requires lines == [] || !("@@" <= lines[0])
    ensures RestOfSection(source, cursor, output, lines) ==
            Some((output + Slice(source, cursor, if cursor < |source| then |source| else cursor), lines))
  {
  }

  lemma {:induction false} NoLines(tree: Tree)
    ensures ApplyLines(tree, []) == Some(tree)
  {
  }

  /** The copy of the current generation that one mutation works on. */
  class Candidate {
    var files: Tree

    constructor (files: Tree)
      ensures this.files == files
    {
      this.files := files;
    }

    /** False is the raised WorkspaceError; the caller then discards the candidate. */
    method Apply(patch: string) returns (ok: bool)
      modifies this
      ensures ok == ApplyText(old(files), patch).Some?
      ensures ok ==> files == ApplyText(old(files), patch).value
      ensures files.Keys == old(files).Keys
    {
      hide HunkNumber, HeaderPath, ReadHunks, ReadBody, RunHunks, RunBody, RestOfSection, RestOfHunk, ApplyLines,
        Slice, SplitLines, Join, EndsBody, ReadBodyLine, NoneForbidden;
      var lines := SplitLines(patch);
      if !NoneForbidden(lines) {
        return false;
      }
      var index := 0;
      while index < |lines|
        invariant 0 <= index <= |lines|
        invariant files.Keys == old(files).Keys
        invariant ApplyLines(old(files), lines) == ApplyLines(files, lines[index..])
        decreases |lines| - index
      {
        EnterSection(files, lines[index..]);
        if !("--- a/" <= lines[index]) { return false; }
        var path := HeaderPath(lines[index]);
        index := index + 1;
        if index >= |lines| || !("+++ b/" <= lines[index]) { return false; }
        if path != HeaderPath(lines[index]) { return false; }
        if path !in files { return false; }
        var source := SplitLines(files[path]);
        var output: seq<string> := [];
        var cursor := 0;
        index := index + 1;
        assert lines[index - 2..][2..] == lines[index..];
        ghost var meaning := RestOfSection(source, cursor, output, lines[index..]);
        ghost var tree := files;
        while index < |lines| && "@@" <= lines[index]
          invariant 0 <= index <= |lines|
          invariant files == tree
          invariant meaning == RestOfSection(source, cursor, output, lines[index..])
          decreases |lines| - index
        {
          EnterHunk(source, cursor, output, lines[index..]);
          var number := HunkNumber(lines[index]);
          if number.None? { return false; }
          var n: int := number.value;
          var start := n - 1;
          if start < cursor { return false; }
          output := output + Slice(source, cursor, start);
          cursor := start;
          assert lines[index..][1..] == lines[index + 1..];
          index := index + 1;
          while index < |lines| && !EndsBody(lines[index])
            invariant 0 <= index <= |lines|
            invariant files == tree
            invariant meaning == RestOfHunk(source, cursor, output, lines[index..])
            decreases |lines| - index
          {
            EnterBodyLine(source, cursor, output, lines[index..]);
            assert lines[index..][1..] == lines[index + 1..];
            match ReadBodyLine(lines[index]) {
              case Malformed => return false;
              case NoNewlineNote =>
              case Change(Add(t)) => output := output + [t];
              case Change(Keep(t)) =>
                if cursor >= |source| || source[cursor] != t { return false; }
                output := output + [t];
                cursor := cursor + 1;
              case Change(Drop(t)) =>
                if cursor >= |source| || source[cursor] != t { return false; }
                cursor := cursor + 1;
            }
            index := index + 1;
          }
          LeaveHunk(source, cursor, output, lines[index..]);
        }
        LeaveSection(source, cursor, output, lines[index..]);
        output := output + Slice(source, cursor, if cursor < |source| then |source| else cursor);
        files := files[path := Join(output)];
      }
      assert lines[index..] == [];
      NoLines(files);
      ok := true;
    }
  }

  /* ---- a patch as an edit of whole files ---- */

  /** Lines kept without being shown, then one hunk. */
  datatype Piece = Piece(gap: seq<string>, body: seq<Edit>)

  function OldSide(body: seq<Edit>): seq<string> {
    if body == [] then []
    else (if body[0].Add? then [] else [body[0].text]) + OldSide(body[1..])
  }

  function NewSide(body: seq<Edit>): seq<string> {
    if body == [] then []
    else (if body[0].Drop? then [] else [body[0].text]) + NewSide(body[1..])
  }

  function Before(pieces: seq<Piece>): seq<string> {
    if pieces == [] then [] else pieces[0].gap + OldSide(pieces[0].body) + Before(pieces[1..])
  }

  function After(pieces: seq<Piece>): seq<string> {
    if pieces == [] then [] else pieces[0].gap + NewSide(pieces[0].body) + After(pieces[1..])
  }

  function Marker(e: Edit): char {
    match e case Keep(_) => ' ' case Drop(_) => '-' case Add(_) => '+'
  }

  function RenderBody(body: seq<Edit>): seq<string> {
    if body == [] then [] else [[Marker(body[0])] + body[0].text] + RenderBody(body[1..])
  }

  /** A range as POSIX `diff -u` writes it: an empty range names the line before it. */
  function Range(position: nat, count: nat): string {
    if count == 1 then Decimal(position + 1)
    else Decimal(if count == 0 then position else position + 1) + "," + Decimal(count)
  }

  function HunkHeader(left: nat, oldCount: nat, right: nat, newCount: nat): string {
    "@@ -" + Range(left, oldCount) + " +" + Range(right, newCount) + " @@\n"
  }

  /** `left` and `right` are the positions reached on either side; the new side runs ahead by the lines added. */
  function RenderPieces(pieces: seq<Piece>, left: nat, right: nat): seq<string>
    decreases |pieces|
  {
    if pieces == [] then []
    else
      var o := left + |pieces[0].gap|;
      var n := right + |pieces[0].gap|;
      var oldCount := |OldSide(pieces[0].body)|;
      var newCount := |NewSide(pieces[0].body)|;
      [HunkHeader(o, oldCount, n, newCount)] + RenderBody(pieces[0].body)
        + RenderPieces(pieces[1..], o + oldCount, n + newCount)
  }

  datatype FileEdit = FileEdit(path: string, pieces: seq<Piece>, tail: seq<string>)

  function RenderFile(f: FileEdit): seq<string> {
    ["--- a/" + f.path + "\n", "+++ b/" + f.path + "\n"] + RenderPieces(f.pieces, 0, 0)
  }

  function RenderFiles(fs: seq<FileEdit>): seq<string> {
    if fs == [] then [] else RenderFile(fs[0]) + RenderFiles(fs[1..])
  }

  /** The hunks the pieces stand for, counted from zero. */
  function HunksOf(pieces: seq<Piece>, left: nat): seq<Hunk>
    decreases |pieces|
  {
    if pieces == [] then []
    else
      var start := left + |pieces[0].gap|;
      [Hunk(start, pieces[0].body)] + HunksOf(pieces[1..], start + |OldSide(pieces[0].body)|)
  }

  function SectionsOf(fs: seq<FileEdit>): seq<Section> {
    if fs == [] then [] else [Section(fs[0].path, HunksOf(fs[0].pieces, 0))] + SectionsOf(fs[1..])
  }

  predicate LinesOnly(body: seq<Edit>) { forall i :: 0 <= i < |body| ==> IsLine(body[i].text) }

  predicate PlainPath(path: string) {
    forall i :: 0 <= i < |path| ==> path[i] != '\n' && path[i] != '\r' && path[i] != '\t'
  }

  predicate WellFormed(f: FileEdit) {
    && PlainPath(f.path)
    && AllLines(f.tail)
    && forall i :: 0 <= i < |f.pieces| ==> AllLines(f.pieces[i].gap) && LinesOnly(f.pieces[i].body)
  }

  /** A removed line that, once marked, reads as the header of the next file. */
  predicate LooksLikeHeader(e: Edit) { e.Drop? && "-- a/" <= e.text }

  predicate CleanBody(body: seq<Edit>) {
    && OldSide(body) != []
    && forall i :: 0 <= i < |body| ==> !LooksLikeHeader(body[i])
  }

  /** What a caller can check before sending a patch: see `ReadRendered`. */
  predicate Clean(f: FileEdit) {
    forall i :: 0 <= i < |f.pieces| ==> CleanBody(f.pieces[i].body)
  }

  lemma {:induction false} SkipCountRead(count: nat, rest: string)
    requires rest != [] && rest[0] == ' '
    ensures SkipCount([','] + Decimal(count) + rest) == rest
    ensures SkipCount(rest) == rest
  {
    hide Number, Decimal;
    var s := [','] + Decimal(count) + rest;
    assert s[1..] == Decimal(count) + rest;
    NumberOfDecimal(count, rest);
  }

  lemma {:induction false} RangeRead(position: nat, count: nat, rest: string)
    requires rest != [] && rest[0] == ' '
    ensures var r := Number(Range(position, count) + rest);
            r.Some? && r.value.0 == (if count == 0 then position else position + 1) && SkipCount(r.value.1) == rest
  {
    hide Number, Decimal, SkipCount;
    SkipCountRead(count, rest);
    if count == 1 {
      NumberOfDecimal(position + 1, rest);
    } else {
      var n := if count == 0 then position else position + 1;
      var tail := [','] + Decimal(count) + rest;
      assert Range(position, count) + rest == Decimal(n) + tail;
      NumberOfDecimal(n, tail);
    }
  }

  lemma {:induction false} RangePlain(position: nat, count: nat)
    ensures forall i :: 0 <= i < |Range(position, count)| ==> Range(position, count)[i] != '\n'
  {
  }

  lemma {:induction false} HeaderIsLine(left: nat, leftCount: nat, right: nat, rightCount: nat)
    ensures var h := HunkHeader(left, leftCount, right, rightCount); IsLine(h) && "@@" <= h
  {
    hide Decimal, Range;
    RangePlain(left, leftCount);
    RangePlain(right, rightCount);
  }

  /** The applier takes the header's number less one; an empty old side therefore lands one line early. */
  lemma {:induction false} HeaderRead(left: nat, leftCount: nat, right: nat, rightCount: nat)
    ensures HunkNumber(HunkHeader(left, leftCount, right, rightCount)) ==
            Some(if leftCount == 0 then left else left + 1)
  {
    hide Number, Decimal, SkipCount, Range;
    var h := HunkHeader(left, leftCount, right, rightCount);
    var end := " @@\n";
    var tail := " +" + Range(right, rightCount) + end;
    assert h == "@@ -" + (Range(left, leftCount) + tail);
    assert h[4..] == Range(left, leftCount) + tail;
    RangeRead(left, leftCount, tail);
    assert tail[2..] == Range(right, rightCount) + end;
    RangeRead(right, rightCount, end);
  }
}
