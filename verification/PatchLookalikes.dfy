/** A removed line that reads as a file header is never removed: counting the lines that start with `-- a/` shows
    that no patch with such a removal does what was meant. */
module PatchLookalikes {
  import opened Text
  import opened Patch
  import opened PatchLaws

  predicate Mark(line: string) { "-- a/" <= line }

  function Marks(lines: seq<string>): nat {
    if lines == [] then 0 else (if Mark(lines[0]) then 1 else 0) + Marks(lines[1..])
  }

  lemma {:induction false} MarksAppend(a: seq<string>, b: seq<string>)
    ensures Marks(a + b) == Marks(a) + Marks(b)
  {
    if a == [] {
      assert a + b == b;
    } else {
      assert (a + b)[1..] == a[1..] + b;
      MarksAppend(a[1..], b);
    }
  }

  function AddMarks(body: seq<Edit>): nat {
    if body == [] then 0 else (if body[0].Add? && Mark(body[0].text) then 1 else 0) + AddMarks(body[1..])
  }

  function DropMarks(body: seq<Edit>): nat {
    if body == [] then 0 else (if LooksLikeHeader(body[0]) then 1 else 0) + DropMarks(body[1..])
  }

  function HunkMarks(hs: seq<Hunk>): nat { if hs == [] then 0 else AddMarks(hs[0].body) + HunkMarks(hs[1..]) }

  function SectionMarks(ss: seq<Section>): nat {
    if ss == [] then 0 else HunkMarks(ss[0].hunks) + SectionMarks(ss[1..])
  }

  /** Patch lines that add a marked line. */
  function Pluses(lines: seq<string>): nat {
    if lines == [] then 0 else (if "+-- a/" <= lines[0] then 1 else 0) + Pluses(lines[1..])
  }

  lemma {:induction false} PlusesAppend(a: seq<string>, b: seq<string>)
    ensures Pluses(a + b) == Pluses(a) + Pluses(b)
  {
    if a == [] {
      assert a + b == b;
    } else {
      assert (a + b)[1..] == a[1..] + b;
      PlusesAppend(a[1..], b);
    }
  }

  /* ---- what a reader can take from patch lines ---- */

  /** Every text is a whole line, and no removed one is marked. */
  predicate GoodBody(body: seq<Edit>) {
    forall i :: 0 <= i < |body| ==> IsLine(body[i].text) && !LooksLikeHeader(body[i])
  }

  predicate GoodHunks(hs: seq<Hunk>) { forall i :: 0 <= i < |hs| ==> GoodBody(hs[i].body) }

  predicate GoodSections(ss: seq<Section>) { forall i :: 0 <= i < |ss| ==> GoodHunks(ss[i].hunks) }

  lemma FirstChar(line: string, c: char)
    requires line != [] && c == line[0]
    ensures c != '+' ==> !("+-- a/" <= line) && !("+++ b/" <= line)
    ensures c != '-' ==> !("--- a/" <= line)
    ensures c != '@' ==> !("@@" <= line)
    ensures "+-- a/" <= line <==> c == '+' && Mark(line[1..])
    ensures "--- a/" <= line <==> c == '-' && Mark(line[1..])
  {
    assert line == [c] + line[1..];
    Marked(c, line[1..]);
    var p, q := "+-- a/", "-- a/";
    assert "+++ b/"[0] == '+' && "@@"[0] == '@' && p[0] == '+';
    assert forall i :: 0 <= i < 5 ==> p[i + 1] == q[i];
    if p <= line {
      forall i | 0 <= i < 5 ensures q[i] == line[1..][i] { assert p[i + 1] == line[i + 1]; }
    }
    if c == '+' && q <= line[1..] {
      forall i | 0 <= i < 6 ensures p[i] == line[i] { if i > 0 { assert q[i - 1] == line[1..][i - 1]; } }
      assert p == line[..6];
    }
  }

  lemma {:induction false} LineTaken(line: string)
    requires IsLine(line) && !EndsBody(line)
    ensures match ReadBodyLine(line)
            case Change(e) =>
              IsLine(e.text) && !LooksLikeHeader(e) && ("+-- a/" <= line <==> e.Add? && Mark(e.text))
            case _ => !("+-- a/" <= line)
  {
    FirstChar(line, line[0]);
    MarkIs(line[1..]);
  }

  lemma {:induction false} BodyTaken(lines: seq<string>)
    requires AllLines(lines) && ReadBody(lines).Good?
    ensures var Good(b, rest) := ReadBody(lines);
            GoodBody(b) && AllLines(rest) && Pluses(lines) == AddMarks(b) + Pluses(rest)
  {
    hide Mark, IsLine, ReadBodyLine, EndsBody, LooksLikeHeader;
    if lines != [] && !EndsBody(lines[0]) {
      LineTaken(lines[0]);
      assert forall i :: 0 <= i < |lines[1..]| ==> lines[1..][i] == lines[i + 1];
      BodyTaken(lines[1..]);
    }
  }

  lemma MarkIs(text: string)
    ensures Mark(text) <==> "-- a/" <= text
  {
  }

  lemma {:induction false} HunksTaken(lines: seq<string>)
    requires AllLines(lines) && ReadHunks(lines).Good?
    ensures var Good(hs, rest) := ReadHunks(lines);
            GoodHunks(hs) && AllLines(rest) && Pluses(lines) == HunkMarks(hs) + Pluses(rest)
    decreases |lines|
  {
    hide HunkNumber, ReadBody, GoodBody, AddMarks;
    if lines != [] && "@@" <= lines[0] {
      FirstChar(lines[0], lines[0][0]);
      assert "@@"[0] == lines[0][0];
      assert forall i :: 0 <= i < |lines[1..]| ==> lines[1..][i] == lines[i + 1];
      BodyTaken(lines[1..]);
      HunksTaken(ReadBody(lines[1..]).rest);
    }
  }

  lemma {:induction false} PatchTaken(lines: seq<string>)
    requires AllLines(lines) && ReadPatch(lines).Some?
    ensures GoodSections(ReadPatch(lines).value) && Pluses(lines) == SectionMarks(ReadPatch(lines).value)
    decreases |lines|
  {
    hide HeaderPath, ReadHunks, GoodHunks, HunkMarks;
    if lines != [] {
      FirstChar(lines[0], lines[0][0]);
      FirstChar(lines[1], lines[1][0]);
      HeaderIsNoPlus(lines[0], lines[1]);
      assert lines == [lines[0]] + ([lines[1]] + lines[2..]);
      assert lines[1..][1..] == lines[2..];
      assert forall i :: 0 <= i < |lines[2..]| ==> lines[2..][i] == lines[i + 2];
      HunksTaken(lines[2..]);
      PatchTaken(ReadHunks(lines[2..]).rest);
    }
  }

  lemma HeaderIsNoPlus(first: string, second: string)
    requires "--- a/" <= first && "+++ b/" <= second
    ensures !("+-- a/" <= first) && !("+-- a/" <= second)
  {
    assert "--- a/"[0] == first[0] && "+++ b/"[1] == second[1] && "+-- a/"[0] == '+' && "+-- a/"[1] == '-';
  }

  /* ---- what carrying it out does to the count ---- */

  lemma SliceSplit(s: seq<string>, a: nat, b: nat, c: nat)
    requires a <= b <= c
    ensures Slice(s, a, c) == Slice(s, a, b) + Slice(s, b, c)
  {
  }

  lemma {:induction false} RunBodyMarks(source: seq<string>, cursor: nat, body: seq<Edit>)
    requires GoodBody(body) && RunBody(source, cursor, body).Some?
    ensures var (c, o) := RunBody(source, cursor, body).value;
            cursor <= c && AllLines(o) && Marks(o) == Marks(Slice(source, cursor, c)) + AddMarks(body)
    decreases |body|
  {
    if body != [] {
      assert forall i :: 0 <= i < |body[1..]| ==> body[1..][i] == body[i + 1];
      if body[0].Add? {
        RunBodyMarks(source, cursor, body[1..]);
      } else {
        RunBodyMarks(source, cursor + 1, body[1..]);
        var c := RunBody(source, cursor, body).value.0;
        SliceSplit(source, cursor, cursor + 1, c);
        assert Slice(source, cursor, cursor + 1) == [body[0].text];
        MarksAppend([body[0].text], Slice(source, cursor + 1, c));
      }
    }
  }

  function End(source: seq<string>, cursor: nat): nat { if cursor < |source| then |source| else cursor }

  lemma {:induction false} RunHunksMarks(source: seq<string>, cursor: nat, hs: seq<Hunk>)
    requires GoodHunks(hs) && RunHunks(source, cursor, hs).Some?
    ensures Marks(RunHunks(source, cursor, hs).value) ==
              Marks(Slice(source, cursor, End(source, cursor))) + HunkMarks(hs)
    decreases |hs|
  {
    hide GoodBody, RunBody, Slice, AddMarks;
    if hs != [] {
      assert forall i :: 0 <= i < |hs[1..]| ==> hs[1..][i] == hs[i + 1];
      var start := hs[0].start;
      var (c, o) := RunBody(source, start, hs[0].body).value;
      RunBodyMarks(source, start, hs[0].body);
      RunHunksMarks(source, c, hs[1..]);
      var o' := RunHunks(source, c, hs[1..]).value;
      MarksAppend(Slice(source, cursor, start) + o, o');
      MarksAppend(Slice(source, cursor, start), o);
      var end := End(source, c);
      SliceSplit(source, cursor, start, c);
      SliceSplit(source, cursor, c, end);
      MarksAppend(Slice(source, cursor, start), Slice(source, start, c));
      MarksAppend(Slice(source, cursor, c), Slice(source, c, end));
      assert Slice(source, cursor, end) == Slice(source, cursor, End(source, cursor)) by {
        PastTheEnd(source, cursor, end);
      }
    }
  }

  lemma PastTheEnd(source: seq<string>, cursor: nat, end: nat)
    requires cursor <= end && |source| <= end
    ensures Slice(source, cursor, end) == Slice(source, cursor, End(source, cursor))
  {
  }

  /** Lines, and possibly one unfinished line `u` among them: at the end or followed by a whole line at the end. */
  predicate Shaped(o: seq<string>, u: string) {
    o == [] || IsLine(o[|o| - 1]) || (o[|o| - 1] == u && AllLines(o[..|o| - 1]))
  }

  lemma {:induction false} CopiedShape(init: seq<string>, u: string, cursor: nat, start: nat)
    requires AllLines(init) && cursor <= start
    ensures var a := Slice(init + [u], cursor, start);
            && (start <= |init| ==> AllLines(a))
            && (start > |init| && a != [] ==> cursor <= |init| && a == init[cursor..] + [u])
            && (u in a && !IsLine(u) ==> cursor <= |init|)
  {
    hide IsLine;
  }

  lemma {:induction false} ShapeOf(init: seq<string>, u: string, a: seq<string>, b: seq<string>, more: seq<string>)
    requires AllLines(b) && Shaped(more, u) && !IsLine(u)
    requires AllLines(a) || (u !in more && a != [] && a[|a| - 1] == u && AllLines(a[..|a| - 1]))
    ensures Shaped(a + b + more, u)
  {
    hide IsLine;
    var o := a + b + more;
    if more != [] {
      assert o[|o| - 1] == more[|more| - 1];
      assert o[..|o| - 1] == a + b + more[..|more| - 1];
    } else if b != [] {
      assert o[|o| - 1] == b[|b| - 1];
    } else {
      assert o == a;
    }
  }

  /** A file whose last line is unfinished keeps that line last, or ends in a whole line from then on. */
  lemma {:induction false} RunHunksShape(init: seq<string>, u: string, cursor: nat, hs: seq<Hunk>)
    requires AllLines(init) && !IsLine(u) && GoodHunks(hs) && RunHunks(init + [u], cursor, hs).Some?
    ensures var o := RunHunks(init + [u], cursor, hs).value; Shaped(o, u) && (u in o ==> cursor <= |init|)
    decreases |hs|
  {
    hide GoodBody, RunBody, AddMarks, IsLine, Slice, Shaped;
    var source := init + [u];
    if hs == [] {
      assert Slice(source, cursor, End(source, cursor)) == if cursor <= |init| then init[cursor..] + [u] else [] by {
        AllOfRest(init, u, cursor);
      }
      ShapeOf(init, u, if cursor <= |init| then init[cursor..] + [u] else [], [], []) by { NothingShaped(u); }
      var rest := if cursor <= |init| then init[cursor..] + [u] else [];
      assert rest + [] + [] == rest;
    } else {
      assert forall i :: 0 <= i < |hs[1..]| ==> hs[1..][i] == hs[i + 1];
      var start := hs[0].start;
      var (c, b) := RunBody(source, start, hs[0].body).value;
      RunBodyMarks(source, start, hs[0].body);
      RunHunksShape(init, u, c, hs[1..]);
      CopiedShape(init, u, cursor, start);
      var o' := RunHunks(source, c, hs[1..]).value;
      assert u !in b by { assert forall i :: 0 <= i < |b| ==> IsLine(b[i]); }
      ShapeOf(init, u, Slice(source, cursor, start), b, o');
    }
  }

  lemma AllOfRest(init: seq<string>, u: string, cursor: nat)
    ensures Slice(init + [u], cursor, End(init + [u], cursor)) == if cursor <= |init| then init[cursor..] + [u] else []
  {
  }

  lemma NothingShaped(u: string)
    ensures Shaped([], u)
  {
  }

  lemma {:induction false} RunHunksLines(source: seq<string>, cursor: nat, hs: seq<Hunk>)
    requires AllLines(source) && GoodHunks(hs) && RunHunks(source, cursor, hs).Some?
    ensures AllLines(RunHunks(source, cursor, hs).value)
    decreases |hs|
  {
    hide GoodBody, RunBody, AddMarks, IsLine;
    if hs != [] {
      assert forall i :: 0 <= i < |hs[1..]| ==> hs[1..][i] == hs[i + 1];
      RunBodyMarks(source, hs[0].start, hs[0].body);
      RunHunksLines(source, RunBody(source, hs[0].start, hs[0].body).value.0, hs[1..]);
    }
  }

  lemma {:induction false} JoinEnds(o: seq<string>)
    requires o != [] && IsLine(o[|o| - 1])
    ensures Terminated(Join(o)) && Join(o) != []
  {
    var n := |o| - 1;
    JoinAppend(o[..n], [o[n]]);
    assert o[..n] + [o[n]] == o && [o[n]][1..] == [];
    assert Join([o[n]]) == o[n];
  }

  lemma {:induction false} LinesEnd(o: seq<string>)
    requires AllLines(o)
    ensures Terminated(Join(o))
  {
    if o != [] { JoinEnds(o); }
  }

  /** An unfinished text is whole lines and one unfinished line. */
  lemma {:induction false} SplitUnfinished(t: string) returns (init: seq<string>, u: string)
    requires !Terminated(t)
    ensures SplitLines(t) == init + [u] && AllLines(init) && !IsLine(u) && SplitLines(u) == [u]
    decreases |t|
  {
    var n := LineLength(t);
    var first := t[..n];
    if n == |t| {
      init, u := [], t;
      assert first == t && t[n..] == [] && SplitLines(t) == [t] + SplitLines([]);
    } else {
      assert t[n..] != [] && t[n..][|t| - n - 1] == t[|t| - 1];
      var more;
      more, u := SplitUnfinished(t[n..]);
      init := [first] + more;
      assert SplitLines(t) == [first] + (more + [u]) == init + [u];
    }
  }

  /** One section's effect on a file's text: finished stays finished; the marked lines grow by those added, unless an
      unfinished text became a finished one. */
  lemma {:induction false} SectionEffect(s: string, hs: seq<Hunk>)
    requires GoodHunks(hs) && RunHunks(SplitLines(s), 0, hs).Some?
    ensures var t := Join(RunHunks(SplitLines(s), 0, hs).value);
            && (Terminated(s) ==> Terminated(t))
            && ((!Terminated(s) && Terminated(t)) || Marks(SplitLines(t)) == Marks(SplitLines(s)) + HunkMarks(hs))
  {
    hide GoodHunks, RunHunks, IsLine, AllLines, Terminated, SplitLines, Join, Marks, HunkMarks;
    var source := SplitLines(s);
    var o := RunHunks(source, 0, hs).value;
    RunHunksMarks(source, 0, hs);
    assert Slice(source, 0, End(source, 0)) == source;
    if Terminated(s) {
      SplitTerminated(s);
      RunHunksLines(source, 0, hs);
      LinesEnd(o);
      SplitJoin(o);
    } else {
      var init, u := SplitUnfinished(s);
      RunHunksShape(init, u, 0, hs);
      ShapedText(o, u);
    }
  }

  lemma {:induction false} ShapedText(o: seq<string>, u: string)
    requires Shaped(o, u) && SplitLines(u) == [u]
    ensures Terminated(Join(o)) || SplitLines(Join(o)) == o
  {
    hide IsLine, AllLines, SplitLines;
    if o != [] {
      var n := |o| - 1;
      if IsLine(o[n]) {
        JoinEnds(o);
      } else {
        JoinAppend(o[..n], [u]);
        assert o[..n] + [u] == o && [u][1..] == [] && Join([u]) == u;
        SplitAppend(o[..n], u);
      }
    }
  }

  /* ---- over a tree ---- */

  /** The marked lines in the listed files. */
  function Weight(tree: Tree, ps: seq<string>): nat {
    if ps == [] then 0
    else (if ps[0] in tree then Marks(SplitLines(tree[ps[0]])) else 0) + Weight(tree, ps[1..])
  }

  predicate NoRepeats(ps: seq<string>) { forall i, j :: 0 <= i < j < |ps| ==> ps[i] != ps[j] }

  lemma {:induction false} WeightAway(tree: Tree, ps: seq<string>, p: string, t: string)
    requires p !in ps
    ensures Weight(tree[p := t], ps) == Weight(tree, ps)
  {
    if ps != [] {
      assert p !in ps[1..];
      WeightAway(tree, ps[1..], p, t);
    }
  }

  lemma {:induction false} WeightOf(tree: Tree, ps: seq<string>, p: string, t: string)
    requires NoRepeats(ps) && p in ps && p in tree
    ensures Weight(tree[p := t], ps) == Weight(tree, ps) - Marks(SplitLines(tree[p])) + Marks(SplitLines(t))
  {
    hide Marks, SplitLines;
    if ps[0] == p {
      WeightAway(tree, ps[1..], p, t);
    } else {
      WeightOf(tree, ps[1..], p, t);
    }
  }

  lemma {:induction false} Listed(s: set<string>) returns (ps: seq<string>)
    ensures NoRepeats(ps) && forall p :: p in ps <==> p in s
  {
    if s == {} {
      ps := [];
    } else {
      var p :| p in s;
      var rest := Listed(s - {p});
      ps := [p] + rest;
    }
  }

  /** Some unfinished file became a finished one. */
  ghost predicate Closed(before: Tree, after: Tree) {
    exists p :: p in before && p in after && !Terminated(before[p]) && Terminated(after[p])
  }

  ghost predicate StaysFinished(before: Tree, after: Tree) {
    after.Keys == before.Keys && forall p :: p in before && Terminated(before[p]) ==> Terminated(after[p])
  }

  lemma {:induction false} SectionsEffect(tree: Tree, ss: seq<Section>, ps: seq<string>)
    requires GoodSections(ss) && RunSections(tree, ss).Some? && NoRepeats(ps) && forall p :: p in tree ==> p in ps
    ensures var t := RunSections(tree, ss).value;
            StaysFinished(tree, t) && (Closed(tree, t) || Weight(t, ps) == Weight(tree, ps) + SectionMarks(ss))
    decreases |ss|
  {
    hide GoodHunks, RunHunks, Terminated, SplitLines, Join, Marks, HunkMarks, Weight;
    if ss != [] {
      var s := ss[0];
      var there := tree[s.path := Join(RunHunks(SplitLines(tree[s.path]), 0, s.hunks).value)];
      SectionEffect(tree[s.path], s.hunks);
      WeightOf(tree, ps, s.path, there[s.path]);
      assert forall i :: 0 <= i < |ss[1..]| ==> ss[1..][i] == ss[i + 1];
      SectionsEffect(there, ss[1..], ps);
      var t := RunSections(there, ss[1..]).value;
      if Closed(there, t) {
        var p :| p in there && p in t && !Terminated(there[p]) && Terminated(t[p]);
        assert Closed(tree, t);
      }
      if !Terminated(tree[s.path]) && Terminated(there[s.path]) {
        assert Closed(tree, t);
      }
    }
  }

  /* ---- what was meant ---- */

  function PieceAdds(pieces: seq<Piece>): nat {
    if pieces == [] then 0 else AddMarks(pieces[0].body) + PieceAdds(pieces[1..])
  }

  function PieceDrops(pieces: seq<Piece>): nat {
    if pieces == [] then 0 else DropMarks(pieces[0].body) + PieceDrops(pieces[1..])
  }

  function FileAdds(fs: seq<FileEdit>): nat { if fs == [] then 0 else PieceAdds(fs[0].pieces) + FileAdds(fs[1..]) }

  function FileDrops(fs: seq<FileEdit>): nat { if fs == [] then 0 else PieceDrops(fs[0].pieces) + FileDrops(fs[1..]) }

  lemma {:induction false} SidesMarks(body: seq<Edit>)
    ensures Marks(NewSide(body)) + DropMarks(body) == Marks(OldSide(body)) + AddMarks(body)
  {
    if body != [] {
      SidesMarks(body[1..]);
      var e := body[0];
      MarksAppend(if e.Add? then [] else [e.text], OldSide(body[1..]));
      MarksAppend(if e.Drop? then [] else [e.text], NewSide(body[1..]));
    }
  }

  lemma {:induction false} PiecesMarks(pieces: seq<Piece>)
    ensures Marks(After(pieces)) + PieceDrops(pieces) == Marks(Before(pieces)) + PieceAdds(pieces)
  {
    hide Marks, OldSide, NewSide, AddMarks, DropMarks;
    if pieces != [] {
      var Piece(gap, body) := pieces[0];
      PiecesMarks(pieces[1..]);
      SidesMarks(body);
      MarksAppend(gap + OldSide(body), Before(pieces[1..]));
      MarksAppend(gap, OldSide(body));
      MarksAppend(gap + NewSide(body), After(pieces[1..]));
      MarksAppend(gap, NewSide(body));
    }
  }

  lemma {:induction false} EditedEffect(tree: Tree, fs: seq<FileEdit>, ps: seq<string>)
    requires (forall i :: 0 <= i < |fs| ==> WellFormed(fs[i])) && Matches(tree, fs)
    requires NoRepeats(ps) && forall p :: p in tree ==> p in ps
    ensures var t := Edited(tree, fs);
            && t.Keys == tree.Keys && !Closed(tree, t)
            && Weight(t, ps) + FileDrops(fs) == Weight(tree, ps) + FileAdds(fs)
    decreases |fs|
  {
    hide Marks, Weight, Terminated, SplitLines, Join, WellFormed, PieceAdds, PieceDrops;
    if fs != [] {
      var f := fs[0];
      var there := tree[f.path := Join(NewLines(f))];
      FileTexts(f);
      WeightOf(tree, ps, f.path, there[f.path]);
      EditedEffect(there, fs[1..], ps);
    }
  }

  lemma {:induction false} FileTexts(f: FileEdit)
    requires WellFormed(f)
    ensures Terminated(Join(OldLines(f))) && Terminated(Join(NewLines(f)))
    ensures Marks(SplitLines(Join(NewLines(f)))) + PieceDrops(f.pieces) ==
            Marks(SplitLines(Join(OldLines(f)))) + PieceAdds(f.pieces)
  {
    hide Marks, Terminated, SplitLines, Join, PieceAdds, PieceDrops, AllLines;
    PiecesAreLines(f.pieces, 0, 0);
    LinesAppend(Before(f.pieces), f.tail);
    LinesAppend(After(f.pieces), f.tail);
    LinesEnd(OldLines(f));
    LinesEnd(NewLines(f));
    SplitJoin(OldLines(f));
    SplitJoin(NewLines(f));
    PiecesMarks(f.pieces);
    MarksAppend(Before(f.pieces), f.tail);
    MarksAppend(After(f.pieces), f.tail);
  }

  lemma {:induction false} BodyPluses(body: seq<Edit>)
    ensures Pluses(RenderBody(body)) == AddMarks(body)
  {
    if body != [] {
      BodyPluses(body[1..]);
      var line := [Marker(body[0])] + body[0].text;
      assert line[1..] == body[0].text;
      FirstChar(line, Marker(body[0]));
      assert RenderBody(body)[1..] == RenderBody(body[1..]);
    }
  }

  lemma {:induction false} PiecesPluses(pieces: seq<Piece>, left: nat, right: nat)
    ensures Pluses(RenderPieces(pieces, left, right)) == PieceAdds(pieces)
    decreases |pieces|
  {
    hide HunkHeader, RenderBody, OldSide, NewSide, AddMarks;
    if pieces != [] {
      var Piece(gap, body) := pieces[0];
      var l, r := left + |gap|, right + |gap|;
      var header := HunkHeader(l, |OldSide(body)|, r, |NewSide(body)|);
      var more := RenderPieces(pieces[1..], l + |OldSide(body)|, r + |NewSide(body)|);
      HeaderIsLine(l, |OldSide(body)|, r, |NewSide(body)|);
      assert "@@"[0] == header[0];
      FirstChar(header, '@');
      OnePluses(header);
      PlusesAppend([header] + RenderBody(body), more);
      PlusesAppend([header], RenderBody(body));
      BodyPluses(body);
      PiecesPluses(pieces[1..], l + |OldSide(body)|, r + |NewSide(body)|);
    }
  }

  lemma OnePluses(line: string)
    ensures Pluses([line]) == if "+-- a/" <= line then 1 else 0
  {
    assert [line][1..] == [];
  }

  lemma {:induction false} FilesPluses(fs: seq<FileEdit>)
    ensures Pluses(RenderFiles(fs)) == FileAdds(fs)
  {
    hide RenderPieces, PieceAdds;
    if fs != [] {
      var f := fs[0];
      var first, second := "--- a/" + f.path + "\n", "+++ b/" + f.path + "\n";
      var pieces := RenderPieces(f.pieces, 0, 0);
      HeaderIsNoPlus(first, second);
      OnePluses(first);
      OnePluses(second);
      PlusesAppend([first], [second]);
      assert [first] + [second] == [first, second];
      PlusesAppend([first, second], pieces);
      PiecesPluses(f.pieces, 0, 0);
      PlusesAppend(RenderFile(f), RenderFiles(fs[1..]));
      FilesPluses(fs[1..]);
    }
  }

  /** With a removed line that starts with `-- a/` in it, no patch ever does what was meant: it is refused, or leaves
      some other tree. */
  lemma {:induction false} LookalikeNeverLands(tree: Tree, fs: seq<FileEdit>)
    requires (forall i :: 0 <= i < |fs| ==> WellFormed(fs[i])) && Matches(tree, fs) && FileDrops(fs) > 0
    ensures ApplyText(tree, Join(RenderFiles(fs))) != Some(Edited(tree, fs))
  {
    hide WellFormed, ReadPatch, RunSections, RenderFiles, SplitLines, Join, Weight, Closed, GoodSections, SectionMarks;
    FilesAreLines(fs);
    SplitJoin(RenderFiles(fs));
    var lines := RenderFiles(fs);
    if ReadPatch(lines).Some? && RunSections(tree, ReadPatch(lines).value).Some? {
      var ss := ReadPatch(lines).value;
      var ps := Listed(tree.Keys);
      PatchTaken(lines);
      FilesPluses(fs);
      SectionsEffect(tree, ss, ps);
      EditedEffect(tree, fs, ps);
    }
  }
}
