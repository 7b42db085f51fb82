/** Where a rendered patch puts its lines, for every edit script, and so exactly when it does what was meant. */
module PatchPlacement {
  import opened Text
  import opened Patch
  import opened PatchLaws
  import opened PatchLookalikes

  predicate NoLookalike(body: seq<Edit>) { forall i :: 0 <= i < |body| ==> !LooksLikeHeader(body[i]) }

  predicate NoLookalikes(f: FileEdit) { forall i :: 0 <= i < |f.pieces| ==> NoLookalike(f.pieces[i].body) }

  /* ---- what is read ---- */

  /** The hunks as the applier reads them: one without old lines starts a line early. */
  function HunksRead(pieces: seq<Piece>, left: nat): seq<Hunk>
    decreases |pieces|
  {
    if pieces == [] then []
    else
      var start := left + |pieces[0].gap|;
      var shown := |OldSide(pieces[0].body)|;
      [Hunk(if shown == 0 then start - 1 else start, pieces[0].body)] + HunksRead(pieces[1..], start + shown)
  }

  lemma {:induction false} ReadOne(body: seq<Edit>, left: nat, right: nat, next: seq<string>)
    requires (next == [] || EndsBody(next[0])) && NoLookalike(body)
    ensures var r := ReadHunks([HunkHeader(left, |OldSide(body)|, right, |NewSide(body)|)] + (RenderBody(body) + next));
            var start := if |OldSide(body)| == 0 then left - 1 else left;
            match ReadHunks(next)
            case Bad => r == Bad
            case Good(hs, rest) => r == Good([Hunk(start, body)] + hs, rest)
  {
    hide HunkHeader, HunkNumber, ReadBody, RenderBody, EndsBody, LooksLikeHeader;
    var header := HunkHeader(left, |OldSide(body)|, right, |NewSide(body)|);
    var lines := [header] + (RenderBody(body) + next);
    assert lines[1..] == RenderBody(body) + next;
    HeaderIsLine(left, |OldSide(body)|, right, |NewSide(body)|);
    HeaderRead(left, |OldSide(body)|, right, |NewSide(body)|);
    ReadRenderedBody(body, next);
  }

  lemma HunksReadStep(pieces: seq<Piece>, left: nat)
    requires pieces != []
    ensures var start := left + |pieces[0].gap|;
            var shown := |OldSide(pieces[0].body)|;
            HunksRead(pieces, left) ==
            [Hunk(if shown == 0 then start - 1 else start, pieces[0].body)] + HunksRead(pieces[1..], start + shown)
  {
  }

  lemma {:induction false} RenderStep(pieces: seq<Piece>, left: nat, right: nat, rest: seq<string>)
    requires pieces != []
    ensures var Piece(gap, body) := pieces[0];
            var l, r := left + |gap|, right + |gap|;
            RenderPieces(pieces, left, right) + rest ==
            [HunkHeader(l, |OldSide(body)|, r, |NewSide(body)|)]
            + (RenderBody(body) + (RenderPieces(pieces[1..], l + |OldSide(body)|, r + |NewSide(body)|) + rest))
  {
    hide HunkHeader, RenderBody, OldSide, NewSide;
    var Piece(gap, body) := pieces[0];
    var l, r := left + |gap|, right + |gap|;
    var header := [HunkHeader(l, |OldSide(body)|, r, |NewSide(body)|)];
    var more := RenderPieces(pieces[1..], l + |OldSide(body)|, r + |NewSide(body)|);
    assert RenderPieces(pieces, left, right) == header + RenderBody(body) + more;
    assert header + RenderBody(body) + more + rest == header + (RenderBody(body) + (more + rest));
  }

  lemma {:induction false} ReadAll(pieces: seq<Piece>, left: nat, right: nat, rest: seq<string>)
    requires NextSection(rest) && forall i :: 0 <= i < |pieces| ==> NoLookalike(pieces[i].body)
    ensures ReadHunks(RenderPieces(pieces, left, right) + rest) == Good(HunksRead(pieces, left), rest)
    decreases |pieces|
  {
    hide HunkHeader, HunkNumber, ReadBody, ReadHunks, NoLookalike, RenderBody, EndsBody, HunksRead, OldSide, NewSide;
    if pieces == [] {
      assert RenderPieces(pieces, left, right) + rest == rest;
      assert HunksRead(pieces, left) == [] by { NoneRead(left); }
      NoHunks(rest);
    } else {
      hide RenderPieces;
      var body := pieces[0].body;
      var l := left + |pieces[0].gap|;
      var r := right + |pieces[0].gap|;
      RenderStep(pieces, left, right, rest);
      HunksReadStep(pieces, left);
      NextEndsBody(pieces[1..], l + |OldSide(body)|, r + |NewSide(body)|, rest);
      ReadOne(body, l, r, RenderPieces(pieces[1..], l + |OldSide(body)|, r + |NewSide(body)|) + rest);
      assert forall i :: 0 <= i < |pieces[1..]| ==> pieces[1..][i] == pieces[i + 1];
      ReadAll(pieces[1..], l + |OldSide(body)|, r + |NewSide(body)|, rest);
    }
  }

  lemma NoneRead(left: nat)
    ensures HunksRead([], left) == []
  {
  }

  lemma {:induction false} ReadFile(f: FileEdit)
    requires PlainPath(f.path) && NoLookalikes(f)
    ensures ReadPatch(RenderFile(f)) == Some([Section(f.path, HunksRead(f.pieces, 0))])
  {
    hide HeaderPath, SectionHeader, RenderPieces, ReadHunks, NoLookalike, HunksRead;
    FileLines(f, []);
    ReadAll(f.pieces, 0, 0, []);
    assert RenderFile(f) + [] == RenderFile(f);
    var section := Section(f.path, HunksRead(f.pieces, 0));
    assert ReadPatch([]) == Some([]) && [section] + [] == [section];
  }

  /* ---- what is done ---- */

  /** The new lines of the pieces, with `held`, the old lines not yet copied (none, or one that a hunk without old
      lines was put in front of). None where such a hunk finds no line to go in front of. */
  function Placed(pieces: seq<Piece>, held: seq<string>): Option<seq<string>>
    decreases |pieces|
  {
    if pieces == [] then Some(held)
    else
      var Piece(gap, body) := pieces[0];
      var before := held + gap;
      if OldSide(body) != [] then
        var rest := Placed(pieces[1..], []);
        if rest.None? then None else Some(before + NewSide(body) + rest.value)
      else if before == [] then None
      else
        var rest := Placed(pieces[1..], [before[|before| - 1]]);
        if rest.None? then None else Some(before[..|before| - 1] + NewSide(body) + rest.value)
  }

  function PlacedLines(f: FileEdit): Option<seq<string>> {
    var r := Placed(f.pieces, []);
    if r.None? then None else Some(r.value + f.tail)
  }

  predicate At(source: seq<string>, cursor: nat, held: seq<string>, rest: seq<string>) {
    cursor + |held| <= |source| && |held| <= 1 && source[cursor..] == held + rest
  }

  ghost function Result(pieces: seq<Piece>, held: seq<string>, tail: seq<string>): Option<seq<string>> {
    if Placed(pieces, held).None? then None else Some(Placed(pieces, held).value + tail)
  }

  lemma {:induction false} RunPlaced(source: seq<string>, cursor: nat, held: seq<string>, pieces: seq<Piece>,
                                     tail: seq<string>)
    requires At(source, cursor, held, Before(pieces) + tail)
    ensures RunHunks(source, cursor, HunksRead(pieces, cursor + |held|)) == Result(pieces, held, tail)
    decreases |pieces|, 1
  {
    hide RunBody, OldSide, NewSide, Slice;
    if pieces == [] {
      AllOfIt(source, cursor);
      assert source[cursor..] == held + tail;
    } else {
      hide RunHunks, HunksRead, Result;
      if OldSide(pieces[0].body) != [] {
        RunShown(source, cursor, held, pieces, tail);
      } else {
        RunAdds(source, cursor, held, pieces, tail);
      }
    }
  }

  lemma {:induction false} RunShown(source: seq<string>, cursor: nat, held: seq<string>, pieces: seq<Piece>,
                                    tail: seq<string>)
    requires At(source, cursor, held, Before(pieces) + tail) && pieces != [] && OldSide(pieces[0].body) != []
    ensures RunHunks(source, cursor, HunksRead(pieces, cursor + |held|)) == Result(pieces, held, tail)
    decreases |pieces|, 0
  {
    hide RunHunks, RunBody, HunksRead, OldSide, NewSide, Slice, Result, At, Before;
    var body := pieces[0].body;
    var start := cursor + |held + pieces[0].gap|;
    var end := start + |OldSide(body)|;
    ShownAt(source, cursor, held, pieces, tail);
    RunPlaced(source, end, [], pieces[1..], tail);
    HunksReadStep(pieces, cursor + |held|);
    RunHunksStep(source, cursor, Hunk(start, body), HunksRead(pieces[1..], end));
    ShownPlaced(pieces, held, tail);
  }

  /** A hunk with old lines is carried out where they are. */
  lemma {:induction false} ShownAt(source: seq<string>, cursor: nat, held: seq<string>, pieces: seq<Piece>,
                                   tail: seq<string>)
    requires At(source, cursor, held, Before(pieces) + tail) && pieces != []
    ensures var before := held + pieces[0].gap;
            var start := cursor + |before|;
            var end := start + |OldSide(pieces[0].body)|;
            && Slice(source, cursor, start) == before
            && RunBody(source, start, pieces[0].body) == Some((end, NewSide(pieces[0].body)))
            && At(source, end, [], Before(pieces[1..]) + tail)
  {
    hide RunBody, OldSide, NewSide, Slice, Before;
    var Piece(gap, body) := pieces[0];
    var rest := Before(pieces[1..]) + tail;
    BeforeStep(pieces);
    Regroup(held, gap, OldSide(body), Before(pieces[1..]), tail);
    Window(source, cursor, held + gap, OldSide(body), rest);
    RunBodyOf(source, cursor + |held + gap|, body);
    assert [] + rest == rest;
  }

  lemma Regroup(a: seq<string>, b: seq<string>, c: seq<string>, d: seq<string>, e: seq<string>)
    ensures a + (b + c + d + e) == a + b + (c + (d + e))
  {
  }

  lemma {:induction false} ShownPlaced(pieces: seq<Piece>, held: seq<string>, tail: seq<string>)
    requires pieces != [] && OldSide(pieces[0].body) != []
    ensures Result(pieces, held, tail) ==
            if Result(pieces[1..], [], tail).None? then None
            else Some(held + pieces[0].gap + NewSide(pieces[0].body) + Result(pieces[1..], [], tail).value)
  {
    hide OldSide, NewSide;
    if Placed(pieces[1..], []).Some? {
      var p := Placed(pieces[1..], []).value;
      var front := held + pieces[0].gap + NewSide(pieces[0].body);
      assert front + (p + tail) == front + p + tail;
    }
  }

  lemma {:induction false} RunAdds(source: seq<string>, cursor: nat, held: seq<string>, pieces: seq<Piece>,
                                   tail: seq<string>)
    requires At(source, cursor, held, Before(pieces) + tail) && pieces != [] && OldSide(pieces[0].body) == []
    ensures RunHunks(source, cursor, HunksRead(pieces, cursor + |held|)) == Result(pieces, held, tail)
    decreases |pieces|, 0
  {
    hide RunHunks, RunBody, HunksRead, OldSide, NewSide, Slice, Result, At, Before;
    var Piece(gap, body) := pieces[0];
    var before := held + gap;
    var start := cursor + |before|;
    HunksReadStep(pieces, cursor + |held|);
    RunHunksStep(source, cursor, Hunk(start - 1, body), HunksRead(pieces[1..], start));
    AddsPlaced(pieces, held, tail);
    if before != [] {
      AddsAt(source, cursor, held, pieces, tail);
      RunPlaced(source, start - 1, [before[|before| - 1]], pieces[1..], tail);
    }
  }

  /** A hunk without old lines is carried out in front of the last line before it. */
  lemma {:induction false} AddsAt(source: seq<string>, cursor: nat, held: seq<string>, pieces: seq<Piece>,
                                  tail: seq<string>)
    requires At(source, cursor, held, Before(pieces) + tail) && pieces != [] && OldSide(pieces[0].body) == []
    requires held + pieces[0].gap != []
    ensures var before := held + pieces[0].gap;
            var start := cursor + |before| - 1;
            && Slice(source, cursor, start) == before[..|before| - 1]
            && RunBody(source, start, pieces[0].body) == Some((start, NewSide(pieces[0].body)))
            && At(source, start, [before[|before| - 1]], Before(pieces[1..]) + tail)
  {
    hide RunBody, OldSide, NewSide, Slice, Before;
    var gap := pieces[0].gap;
    var before := held + gap;
    var more := Before(pieces[1..]) + tail;
    BeforeRest(pieces, tail);
    LastHeld(held, gap, more);
    Window(source, cursor, before[..|before| - 1], [], [before[|before| - 1]] + more);
    RunBodyOf(source, cursor + |before| - 1, pieces[0].body);
  }

  lemma {:induction false} BeforeRest(pieces: seq<Piece>, tail: seq<string>)
    requires pieces != [] && OldSide(pieces[0].body) == []
    ensures Before(pieces) + tail == pieces[0].gap + (Before(pieces[1..]) + tail)
  {
    hide OldSide, Before;
    BeforeStep(pieces);
    assert pieces[0].gap + [] + Before(pieces[1..]) == pieces[0].gap + Before(pieces[1..]);
  }

  lemma LastHeld(held: seq<string>, gap: seq<string>, more: seq<string>)
    requires held + gap != []
    ensures var before := held + gap;
            held + (gap + more) == before[..|before| - 1] + ([] + ([before[|before| - 1]] + more))
  {
  }

  lemma BeforeStep(pieces: seq<Piece>)
    requires pieces != []
    ensures Before(pieces) == pieces[0].gap + OldSide(pieces[0].body) + Before(pieces[1..])
  {
  }

  lemma {:induction false} AddsPlaced(pieces: seq<Piece>, held: seq<string>, tail: seq<string>)
    requires pieces != [] && OldSide(pieces[0].body) == []
    ensures var before := held + pieces[0].gap;
            Result(pieces, held, tail) ==
            if before == [] || Result(pieces[1..], [before[|before| - 1]], tail).None? then None
            else Some(before[..|before| - 1] + NewSide(pieces[0].body)
                      + Result(pieces[1..], [before[|before| - 1]], tail).value)
  {
    hide OldSide, NewSide;
    var Piece(gap, body) := pieces[0];
    var before := held + gap;
    if before != [] && Placed(pieces[1..], [before[|before| - 1]]).Some? {
      var p := Placed(pieces[1..], [before[|before| - 1]]).value;
      var front := before[..|before| - 1];
      assert front + NewSide(body) + (p + tail) == front + NewSide(body) + p + tail;
    }
  }

  lemma {:induction false} RunFile(f: FileEdit)
    requires WellFormed(f)
    ensures RunHunks(SplitLines(Join(OldLines(f))), 0, HunksRead(f.pieces, 0)) == PlacedLines(f)
  {
    hide HunksRead, Placed, RunHunks, Before, SplitLines, Join, IsLine, RenderPieces;
    PiecesAreLines(f.pieces, 0, 0);
    LinesAppend(Before(f.pieces), f.tail);
    SplitJoin(OldLines(f));
    assert OldLines(f)[0..] == [] + (Before(f.pieces) + f.tail);
    RunPlaced(OldLines(f), 0, [], f.pieces, f.tail);
  }

  /** What one file's patch does, whatever it is. */
  lemma {:induction false} OneFile(tree: Tree, f: FileEdit)
    requires WellFormed(f) && NoLookalikes(f) && f.path in tree && tree[f.path] == Join(OldLines(f))
    ensures ApplyText(tree, Join(RenderFile(f))) ==
            if PlacedLines(f).None? then None else Some(tree[f.path := Join(PlacedLines(f).value)])
  {
    hide NoneForbidden, NoLookalikes, WellFormed, RenderFile, ReadPatch, HunksRead, PlacedLines, RunHunks, OldLines,
        SplitLines, Join;
    FileIsLines(f);
    SplitJoin(RenderFile(f));
    PathIsPlain(f);
    ReadFile(f);
    RunFile(f);
    var section := Section(f.path, HunksRead(f.pieces, 0));
    var lines := RenderFile(f);
    assert ApplyLines(tree, lines) == RunSections(tree, [section]);
    if PlacedLines(f).Some? {
      var there := tree[f.path := Join(PlacedLines(f).value)];
      assert [section][1..] == [] && RunSections(there, []) == Some(there);
    }
  }

  /* ---- when that is what was meant ---- */

  predicate AllAre(lines: seq<string>, line: string) { forall i :: 0 <= i < |lines| ==> lines[i] == line }

  /** Every hunk without old lines follows an old line and adds nothing but copies of it. */
  predicate Harmless(pieces: seq<Piece>, held: seq<string>)
    decreases |pieces|
  {
    pieces == [] ||
    (var Piece(gap, body) := pieces[0];
     var before := held + gap;
     if OldSide(body) != [] then Harmless(pieces[1..], [])
     else before != [] && AllAre(NewSide(body), before[|before| - 1]) && Harmless(pieces[1..], [before[|before| - 1]]))
  }

  /** A copy-run may change places with its line. */
  lemma {:induction false} Slide(adds: seq<string>, line: string, p: seq<string>, after: seq<string>)
    requires |p| == 1 + |after|
    ensures adds + p == [line] + adds + after <==> AllAre(adds, line) && p == [line] + after
  {
    var x, y := adds + p, [line] + adds + after;
    if x == y {
      forall i | 0 <= i < |adds| ensures adds[i] == line {
        SlideTo(adds, line, p, after, i);
      }
      assert p == x[|adds|..] == y[|adds|..];
      assert y[|adds|] == if adds == [] then line else adds[|adds| - 1];
      assert y[|adds|..] == [y[|adds|]] + after;
    }
    if AllAre(adds, line) && p == [line] + after {
      forall i | 0 <= i < |x| ensures x[i] == y[i] {
        if 0 < i <= |adds| { assert y[i] == adds[i - 1]; }
      }
    }
  }

  lemma {:induction false} SlideTo(adds: seq<string>, line: string, p: seq<string>, after: seq<string>, i: nat)
    requires i < |adds| && adds + p == [line] + adds + after
    ensures adds[i] == line
    decreases i
  {
    assert (adds + p)[i] == adds[i];
    if i > 0 {
      assert ([line] + adds + after)[i] == adds[i - 1];
      SlideTo(adds, line, p, after, i - 1);
    }
  }

  lemma {:induction false} SameLength(pieces: seq<Piece>, held: seq<string>)
    ensures Placed(pieces, held).Some? ==> |Placed(pieces, held).value| == |held| + |After(pieces)|
    decreases |pieces|
  {
    if pieces != [] {
      var before := held + pieces[0].gap;
      SameLength(pieces[1..], []);
      if before != [] { SameLength(pieces[1..], [before[|before| - 1]]); }
    }
  }

  /** The lines come out in their places exactly when no hunk without old lines does harm. */
  lemma {:induction false} PlacedRight(pieces: seq<Piece>, held: seq<string>)
    ensures Placed(pieces, held) == Some(held + After(pieces)) <==> Harmless(pieces, held)
    decreases |pieces|
  {
    if pieces == [] {
      assert held + [] == held;
    } else {
      hide OldSide, NewSide, AllAre;
      var before := held + pieces[0].gap;
      if OldSide(pieces[0].body) != [] {
        PlacedRight(pieces[1..], []);
        ShownRight(pieces, held);
      } else if before != [] {
        PlacedRight(pieces[1..], [before[|before| - 1]]);
        AddsRight(pieces, held);
      }
    }
  }

  lemma {:induction false} ShownRight(pieces: seq<Piece>, held: seq<string>)
    requires pieces != [] && OldSide(pieces[0].body) != []
    ensures Placed(pieces, held) == Some(held + After(pieces))
            <==> Placed(pieces[1..], []) == Some([] + After(pieces[1..]))
  {
    hide OldSide, NewSide;
    var Piece(gap, body) := pieces[0];
    var after := After(pieces[1..]);
    assert held + After(pieces) == held + gap + NewSide(body) + after;
    assert [] + after == after;
    var rest := Placed(pieces[1..], []);
    if rest.Some? { SameRest(held + gap + NewSide(body), rest.value, after); }
  }

  lemma {:induction false} AddsRight(pieces: seq<Piece>, held: seq<string>)
    requires pieces != [] && OldSide(pieces[0].body) == [] && held + pieces[0].gap != []
    ensures var before := held + pieces[0].gap;
            var line := before[|before| - 1];
            Placed(pieces, held) == Some(held + After(pieces)) <==>
              AllAre(NewSide(pieces[0].body), line)
              && Placed(pieces[1..], [line]) == Some([line] + After(pieces[1..]))
  {
    hide OldSide, NewSide, AllAre, After;
    var Piece(gap, body) := pieces[0];
    var before := held + gap;
    var line := before[|before| - 1];
    var front := before[..|before| - 1];
    var after := After(pieces[1..]);
    assert front + [line] == before;
    assert held + After(pieces) == front + ([line] + NewSide(body) + after) by { AfterStep(pieces); }
    SameLength(pieces[1..], [line]);
    var rest := Placed(pieces[1..], [line]);
    if rest.Some? {
      assert Placed(pieces, held) == Some(front + NewSide(body) + rest.value);
      assert front + NewSide(body) + rest.value == front + (NewSide(body) + rest.value);
      SameRest(front, NewSide(body) + rest.value, [line] + NewSide(body) + after);
      Slide(NewSide(body), line, rest.value, after);
    }
  }

  lemma AfterStep(pieces: seq<Piece>)
    requires pieces != []
    ensures After(pieces) == pieces[0].gap + NewSide(pieces[0].body) + After(pieces[1..])
  {
  }

  lemma SameRest(a: seq<string>, b: seq<string>, c: seq<string>)
    ensures a + b == a + c <==> b == c
  {
    assert (a + b)[|a|..] == b && (a + c)[|a|..] == c;
  }

  /** What a caller can check: no removed line reads as a file header, and every hunk without old lines follows an old
      line and adds only copies of it. */
  predicate Faithful(f: FileEdit) { NoLookalikes(f) && Harmless(f.pieces, []) }

  /** Applying the rendered patch gives the tree that was meant. */
  predicate Lands(tree: Tree, fs: seq<FileEdit>) { ApplyText(tree, Join(RenderFiles(fs))) == Some(Edited(tree, fs)) }

  /* ---- one file ---- */

  lemma {:induction false} PlacedAreLines(pieces: seq<Piece>, held: seq<string>)
    requires AllLines(held) && forall i :: 0 <= i < |pieces| ==> AllLines(pieces[i].gap) && LinesOnly(pieces[i].body)
    ensures Placed(pieces, held).Some? ==> AllLines(Placed(pieces, held).value)
    decreases |pieces|
  {
    hide IsLine, OldSide, NewSide;
    if pieces != [] {
      var Piece(gap, body) := pieces[0];
      var before := held + gap;
      assert forall i :: 0 <= i < |pieces[1..]| ==> pieces[1..][i] == pieces[i + 1];
      SidesAreLines(body);
      if OldSide(body) != [] {
        PlacedAreLines(pieces[1..], []);
      } else if before != [] {
        PlacedAreLines(pieces[1..], [before[|before| - 1]]);
      }
    }
  }

  lemma {:induction false} FileLands(tree: Tree, f: FileEdit)
    requires WellFormed(f) && NoLookalikes(f) && f.path in tree && tree[f.path] == Join(OldLines(f))
    ensures ApplyText(tree, Join(RenderFile(f))) == Some(tree[f.path := Join(NewLines(f))]) <==> Harmless(f.pieces, [])
  {
    hide ApplyText, RenderFile, Placed, Harmless, After, AllLines, Join, SplitLines, RenderPieces, NoLookalikes;
    OneFile(tree, f);
    PlacedRight(f.pieces, []);
    assert [] + After(f.pieces) == After(f.pieces);
    PiecesAreLines(f.pieces, 0, 0);
    LinesAppend(After(f.pieces), f.tail);
    SplitJoin(NewLines(f));
    if Placed(f.pieces, []).Some? {
      var out := Placed(f.pieces, []).value;
      LinesNone();
      PlacedAreLines(f.pieces, []);
      LinesAppend(out, f.tail);
      SplitJoin(out + f.tail);
      SameFront(out, After(f.pieces), f.tail);
      assert tree[f.path := Join(out + f.tail)][f.path] == Join(out + f.tail);
      assert tree[f.path := Join(NewLines(f))][f.path] == Join(NewLines(f));
    }
  }

  lemma SameFront(a: seq<string>, b: seq<string>, tail: seq<string>)
    ensures a + tail == b + tail <==> a == b
  {
    if a + tail == b + tail {
      assert a == (a + tail)[..|a|] && b == (b + tail)[..|b|];
    }
  }

  /** An addition shown without context, away from the top of its file, is accepted and goes in one line early. That
      is what was meant exactly when every line added equals the line it should follow. */
  lemma {:induction false} AddedOneLineEarly(tree: Tree, f: FileEdit)
    requires WellFormed(f) && |f.pieces| == 1 && f.pieces[0].gap != [] && OldSide(f.pieces[0].body) == []
    requires f.path in tree && tree[f.path] == Join(OldLines(f))
    ensures var gap, added := f.pieces[0].gap, NewSide(f.pieces[0].body);
            var early := gap[..|gap| - 1] + added + [gap[|gap| - 1]] + f.tail;
            && ApplyText(tree, Join(RenderFile(f))) == Some(tree[f.path := Join(early)])
            && (tree[f.path := Join(early)] == tree[f.path := Join(NewLines(f))] <==> AllAre(added, gap[|gap| - 1]))
  {
    hide ApplyText, RenderFile, OldSide, NewSide, AllAre, Join, WellFormed;
    var Piece(gap, body) := f.pieces[0];
    AddsOnly(f);
    OneFile(tree, f);
    FileLands(tree, f);
    assert [] + gap == gap && f.pieces[1..] == [];
    assert Placed(f.pieces[1..], [gap[|gap| - 1]]) == Some([gap[|gap| - 1]]);
    assert Harmless(f.pieces[1..], [gap[|gap| - 1]]);
  }

  lemma {:induction false} AddsOnly(f: FileEdit)
    requires |f.pieces| == 1 && OldSide(f.pieces[0].body) == []
    ensures NoLookalikes(f)
  {
    NoOldNoDrop(f.pieces[0].body);
  }

  lemma {:induction false} NoOldNoDrop(body: seq<Edit>)
    requires OldSide(body) == []
    ensures NoLookalike(body)
  {
    if body != [] {
      NoOldNoDrop(body[1..]);
      assert forall i :: 0 < i < |body| ==> body[i] == body[1..][i - 1];
    }
  }

  /* ---- whole patches ---- */

  lemma {:induction false} RenderAppend(a: seq<FileEdit>, b: seq<FileEdit>)
    ensures RenderFiles(a + b) == RenderFiles(a) + RenderFiles(b)
  {
    hide RenderFile;
    if a == [] {
      assert a + b == b;
    } else {
      assert (a + b)[1..] == a[1..] + b;
      RenderAppend(a[1..], b);
    }
  }

  lemma {:induction false} EditedAppend(tree: Tree, a: seq<FileEdit>, b: seq<FileEdit>)
    ensures Edited(tree, a + b) == Edited(Edited(tree, a), b)
    ensures Matches(tree, a + b) <==> Matches(tree, a) && Matches(Edited(tree, a), b)
    decreases |a|
  {
    hide Join, OldLines, NewLines;
    if a == [] {
      assert a + b == b;
    } else {
      assert (a + b)[1..] == a[1..] + b;
      EditedAppend(tree[a[0].path := Join(NewLines(a[0]))], a[1..], b);
    }
  }

  predicate AllWellFormed(fs: seq<FileEdit>) { forall i :: 0 <= i < |fs| ==> WellFormed(fs[i]) }

  predicate AllFaithful(fs: seq<FileEdit>) { forall i :: 0 <= i < |fs| ==> Faithful(fs[i]) }

  /** One patch after another is the patch that holds both. */
  lemma {:induction false} InTurn(tree: Tree, a: seq<FileEdit>, b: seq<FileEdit>)
    requires AllWellFormed(a) && AllWellFormed(b)
    ensures ApplyText(tree, Join(RenderFiles(a + b))) ==
            match ApplyText(tree, Join(RenderFiles(a)))
            case None => None
            case Some(t) => ApplyText(t, Join(RenderFiles(b)))
  {
    hide ApplyText, Join, WellFormed, SplitLines, AllLines, NoneForbidden, RenderFiles, Terminated;
    RenderAppend(a, b);
    JoinAppend(RenderFiles(a), RenderFiles(b));
    FilesAreLines(a);
    FilesAreLines(b);
    SplitJoin(RenderFiles(b));
    FilesStartSections(b);
    LinesEnd(RenderFiles(a));
    Chain(tree, Join(RenderFiles(a)), Join(RenderFiles(b)));
  }

  lemma OneRendered(f: FileEdit)
    ensures RenderFiles([f]) == RenderFile(f)
  {
    assert [f][1..] == [] && RenderFile(f) + [] == RenderFile(f);
  }

  lemma {:induction false} DropsMeans(fs: seq<FileEdit>)
    ensures FileDrops(fs) == 0 <==> forall i :: 0 <= i < |fs| ==> NoLookalikes(fs[i])
  {
    if fs != [] {
      hide NoLookalikes, PieceDrops;
      DropsMeans(fs[1..]);
      PieceDropsMeans(fs[0].pieces);
      assert NoLookalikes(fs[0]) <==> PieceDrops(fs[0].pieces) == 0 by { NoLookalikesIs(fs[0]); }
      assert forall i :: 0 < i < |fs| ==> fs[i] == fs[1..][i - 1];
    }
  }

  lemma NoLookalikesIs(f: FileEdit)
    ensures NoLookalikes(f) <==> forall i :: 0 <= i < |f.pieces| ==> NoLookalike(f.pieces[i].body)
  {
  }

  lemma {:induction false} PieceDropsMeans(pieces: seq<Piece>)
    ensures PieceDrops(pieces) == 0 <==> forall i :: 0 <= i < |pieces| ==> NoLookalike(pieces[i].body)
  {
    if pieces != [] {
      hide NoLookalike, DropMarks;
      PieceDropsMeans(pieces[1..]);
      BodyDropsMeans(pieces[0].body);
      assert forall i :: 0 < i < |pieces| ==> pieces[i] == pieces[1..][i - 1];
    }
  }

  lemma {:induction false} BodyDropsMeans(body: seq<Edit>)
    ensures DropMarks(body) == 0 <==> NoLookalike(body)
  {
    if body != [] {
      hide LooksLikeHeader;
      BodyDropsMeans(body[1..]);
      assert forall i :: 0 < i < |body| ==> body[i] == body[1..][i - 1];
    }
  }

  /** The last file of a patch whose other files land. */
  lemma {:induction false} LastLands(tree: Tree, fs: seq<FileEdit>)
    requires fs != [] && AllWellFormed(fs) && Matches(tree, fs) && Lands(tree, fs[..|fs| - 1])
    ensures Lands(tree, fs) <==> Faithful(fs[|fs| - 1])
  {
    hide ApplyText, Join, WellFormed, RenderFiles, RenderFile, Harmless, NoLookalikes, OldLines, NewLines;
    var a, f := fs[..|fs| - 1], fs[|fs| - 1];
    assert a + [f] == fs;
    EditedAppend(tree, a, [f]);
    InTurn(tree, a, [f]);
    OneRendered(f);
    assert [f][1..] == [];
    var there := Edited(tree, a);
    assert Edited(there, [f]) == there[f.path := Join(NewLines(f))];
    if NoLookalikes(f) {
      FileLands(there, f);
    } else {
      DropsMeans(fs);
      LookalikeNeverLands(tree, fs);
    }
  }

  /** Exactly when a patch does what was meant, file by file: every part of it that ends with a file lands if and only
      if each file's edit is faithful. */
  lemma {:induction false} RoundTrip(tree: Tree, fs: seq<FileEdit>)
    requires AllWellFormed(fs) && Matches(tree, fs)
    ensures (forall k :: 0 <= k <= |fs| ==> Lands(tree, fs[..k])) <==> AllFaithful(fs)
    decreases |fs|
  {
    hide WellFormed, Lands, Faithful;
    if fs == [] {
      NothingLands(tree);
    } else {
      var n := |fs| - 1;
      assert fs[..n] + [fs[n]] == fs && fs[..|fs|] == fs;
      EditedAppend(tree, fs[..n], [fs[n]]);
      RoundTrip(tree, fs[..n]);
      assert forall k :: 0 <= k <= n ==> fs[..n][..k] == fs[..k];
      if forall k :: 0 <= k <= |fs| ==> Lands(tree, fs[..k]) {
        forall k | 0 <= k <= n ensures Lands(tree, fs[..n][..k]) { assert Lands(tree, fs[..k]); }
      }
      if AllFaithful(fs[..n]) {
        assert Lands(tree, fs[..n][..n]) && fs[..n][..n] == fs[..n];
        LastLands(tree, fs);
      }
      if AllFaithful(fs) {
        assert forall i :: 0 <= i < n ==> fs[..n][i] == fs[i];
        forall k | 0 <= k <= |fs| ensures Lands(tree, fs[..k]) {
          if k <= n { assert Lands(tree, fs[..n][..k]); }
        }
      }
    }
  }

  lemma {:induction false} NothingLands(tree: Tree)
    ensures Lands(tree, [])
  {
    assert SplitLines(Join([])) == [];
    NoLines(tree);
  }

  /* ---- undoing ---- */

  function FlipEdit(e: Edit): Edit {
    match e case Keep(t) => Keep(t) case Drop(t) => Add(t) case Add(t) => Drop(t)
  }

  function FlipBody(body: seq<Edit>): (r: seq<Edit>)
    ensures |r| == |body| && forall i :: 0 <= i < |body| ==> r[i] == FlipEdit(body[i])
  {
    if body == [] then [] else [FlipEdit(body[0])] + FlipBody(body[1..])
  }

  function FlipPieces(pieces: seq<Piece>): (r: seq<Piece>)
    ensures |r| == |pieces|
    ensures forall i :: 0 <= i < |r| ==> r[i] == Piece(pieces[i].gap, FlipBody(pieces[i].body))
  {
    if pieces == [] then [] else [Piece(pieces[0].gap, FlipBody(pieces[0].body))] + FlipPieces(pieces[1..])
  }

  /** `+` and `-` exchanged; rendering it counts the hunk starts on the other side. */
  function Flip(f: FileEdit): FileEdit { FileEdit(f.path, FlipPieces(f.pieces), f.tail) }

  lemma {:induction false} FlipSides(body: seq<Edit>)
    ensures OldSide(FlipBody(body)) == NewSide(body) && NewSide(FlipBody(body)) == OldSide(body)
  {
    if body != [] {
      FlipSides(body[1..]);
    }
  }

  lemma {:induction false} FlipFiles(pieces: seq<Piece>)
    ensures Before(FlipPieces(pieces)) == After(pieces) && After(FlipPieces(pieces)) == Before(pieces)
  {
    if pieces != [] {
      FlipSides(pieces[0].body);
      FlipFiles(pieces[1..]);
    }
  }

  lemma FlipWellFormed(f: FileEdit)
    requires WellFormed(f)
    ensures WellFormed(Flip(f))
  {
  }

  function FlipAll(fs: seq<FileEdit>): seq<FileEdit> { if fs == [] then [] else FlipAll(fs[1..]) + [Flip(fs[0])] }

  lemma {:induction false} FlipAllParts(fs: seq<FileEdit>)
    requires AllWellFormed(fs) && forall i :: 0 <= i < |fs| ==> Faithful(Flip(fs[i]))
    ensures AllWellFormed(FlipAll(fs)) && AllFaithful(FlipAll(fs))
  {
    hide WellFormed, Faithful;
    if fs != [] {
      FlipAllParts(fs[1..]);
      FlipWellFormed(fs[0]);
    }
  }

  lemma {:induction false} FlipBack(tree: Tree, fs: seq<FileEdit>)
    requires Matches(tree, fs)
    ensures Matches(Edited(tree, fs), FlipAll(fs)) && Edited(Edited(tree, fs), FlipAll(fs)) == tree
    decreases |fs|
  {
    hide Join, Before, After, FlipPieces;
    if fs != [] {
      var f := fs[0];
      var there := tree[f.path := Join(NewLines(f))];
      FlipBack(there, fs[1..]);
      FlipFiles(f.pieces);
      EditedAppend(Edited(there, fs[1..]), FlipAll(fs[1..]), [Flip(f)]);
      assert [Flip(f)][1..] == [];
      assert there[f.path := Join(OldLines(f))] == tree;
      assert OldLines(Flip(f)) == NewLines(f) && NewLines(Flip(f)) == OldLines(f);
    }
  }

  /** A patch that does what was meant is undone by its files in reverse, each with `+` and `-` exchanged and its starts
      counted on the other side. */
  lemma {:induction false} Undo(tree: Tree, fs: seq<FileEdit>)
    requires AllWellFormed(fs) && Matches(tree, fs) && AllFaithful(fs)
    requires forall i :: 0 <= i < |fs| ==> Faithful(Flip(fs[i]))
    ensures var there := ApplyText(tree, Join(RenderFiles(fs)));
            there.Some? && ApplyText(there.value, Join(RenderFiles(FlipAll(fs)))) == Some(tree)
  {
    hide WellFormed, Faithful, ApplyText, RenderFiles, Join;
    RoundTrip(tree, fs);
    assert fs[..|fs|] == fs;
    FlipBack(tree, fs);
    FlipAllParts(fs);
    var back := FlipAll(fs);
    RoundTrip(Edited(tree, fs), back);
    assert back[..|back|] == back;
    assert Lands(tree, fs[..|fs|]) && Lands(Edited(tree, fs), back[..|back|]);
  }

  /* ---- each file once ---- */

  predicate EachOnce(fs: seq<FileEdit>) { forall i, j :: 0 <= i < j < |fs| ==> fs[i].path != fs[j].path }

  predicate Names(fs: seq<FileEdit>, p: string) { exists i :: 0 <= i < |fs| && fs[i].path == p }

  lemma {:induction false} MatchesApart(tree: Tree, fs: seq<FileEdit>, p: string, t: string)
    requires Matches(tree, fs) && !Names(fs, p) && p in tree
    ensures Matches(tree[p := t], fs) && Edited(tree[p := t], fs) == Edited(tree, fs)[p := t]
    ensures p in Edited(tree, fs) && Edited(tree, fs)[p] == tree[p]
    decreases |fs|
  {
    hide Join, OldLines, NewLines;
    if fs != [] {
      var f := fs[0];
      var there := tree[f.path := Join(NewLines(f))];
      assert f.path != p;
      assert forall i :: 0 <= i < |fs[1..]| ==> fs[1..][i] == fs[i + 1];
      MatchesApart(there, fs[1..], p, t);
      assert there[p := t] == tree[p := t][f.path := Join(NewLines(f))];
    }
  }

  lemma {:induction false} LeftAlone(tree: Tree, fs: seq<FileEdit>, p: string)
    requires AllWellFormed(fs) && Matches(tree, fs) && EachOnce(fs) && !Names(fs, p) && p in tree
    requires forall i :: 0 <= i < |fs| ==> NoLookalikes(fs[i])
    ensures var r := ApplyText(tree, Join(RenderFiles(fs))); r.Some? ==> p in r.value && r.value[p] == tree[p]
    decreases |fs|
  {
    hide ApplyText, Join, WellFormed, NoLookalikes, RenderFiles, RenderFile, OldLines, NewLines, PlacedLines;
    if fs == [] {
      NothingDone(tree);
    } else {
      var f := fs[0];
      assert fs == [f] + fs[1..] && fs[0].path != p;
      assert forall i :: 0 <= i < |fs[1..]| ==> fs[1..][i] == fs[i + 1];
      InTurn(tree, [f], fs[1..]);
      OneRendered(f);
      OneFile(tree, f);
      if PlacedLines(f).Some? {
        MatchesApart(tree[f.path := Join(NewLines(f))], fs[1..], f.path, Join(PlacedLines(f).value));
        var there := tree[f.path := Join(PlacedLines(f).value)];
        assert tree[f.path := Join(NewLines(f))][f.path := Join(PlacedLines(f).value)] == there;
        LeftAlone(there, fs[1..], p);
      }
    }
  }

  lemma {:induction false} NothingDone(tree: Tree)
    ensures ApplyText(tree, Join(RenderFiles([]))) == Some(tree)
  {
    NothingLands(tree);
  }

  /** A patch that names each file once does what was meant if and only if each file's edit is faithful. */
  lemma {:induction false} RoundTripOnce(tree: Tree, fs: seq<FileEdit>)
    requires AllWellFormed(fs) && Matches(tree, fs) && EachOnce(fs)
    ensures Lands(tree, fs) <==> AllFaithful(fs)
    decreases |fs|
  {
    hide ApplyText, Join, WellFormed, NoLookalikes, RenderFiles, RenderFile, OldLines, NewLines, PlacedLines, Harmless;
    DropsMeans(fs);
    if FileDrops(fs) > 0 {
      LookalikeNeverLands(tree, fs);
    } else if fs == [] {
      NothingLands(tree);
    } else {
      var f := fs[0];
      var meant := tree[f.path := Join(NewLines(f))];
      assert fs == [f] + fs[1..];
      assert forall i :: 0 <= i < |fs[1..]| ==> fs[1..][i] == fs[i + 1];
      InTurn(tree, [f], fs[1..]);
      OneRendered(f);
      OneFile(tree, f);
      FileLands(tree, f);
      RoundTripOnce(meant, fs[1..]);
      if PlacedLines(f).Some? {
        var out := Join(PlacedLines(f).value);
        var there := tree[f.path := out];
        MatchesApart(meant, fs[1..], f.path, out);
        assert meant[f.path := out] == there;
        LeftAlone(there, fs[1..], f.path);
        if out == Join(NewLines(f)) { assert there == meant; }
      }
    }
  }

  lemma {:induction false} FlippedAt(fs: seq<FileEdit>)
    ensures |FlipAll(fs)| == |fs| && forall i :: 0 <= i < |fs| ==> FlipAll(fs)[i] == Flip(fs[|fs| - 1 - i])
  {
    hide Flip;
    if fs != [] {
      assert forall i :: 0 <= i < |fs[1..]| ==> fs[1..][i] == fs[i + 1];
      FlippedAt(fs[1..]);
    }
  }

  lemma FlipOnce(fs: seq<FileEdit>)
    requires EachOnce(fs)
    ensures EachOnce(FlipAll(fs))
  {
    FlippedAt(fs);
    assert forall i :: 0 <= i < |fs| ==> FlipAll(fs)[i].path == fs[|fs| - 1 - i].path;
  }

  /** Such a patch, where it does what was meant, is undone by its reverse if and only if each file's reverse is
      faithful too. */
  lemma {:induction false} UndoOnce(tree: Tree, fs: seq<FileEdit>)
    requires AllWellFormed(fs) && Matches(tree, fs) && EachOnce(fs) && AllFaithful(fs)
    ensures ApplyText(Edited(tree, fs), Join(RenderFiles(FlipAll(fs)))) == Some(tree)
            <==> forall i :: 0 <= i < |fs| ==> Faithful(Flip(fs[i]))
  {
    hide WellFormed, Faithful, ApplyText, RenderFiles, Join, Flip;
    var back := FlipAll(fs);
    FlipBack(tree, fs);
    FlippedAt(fs);
    FlipOnce(fs);
    forall i | 0 <= i < |fs| ensures WellFormed(back[i]) { FlipWellFormed(fs[|fs| - 1 - i]); }
    RoundTripOnce(Edited(tree, fs), back);
    if AllFaithful(back) {
      forall i | 0 <= i < |fs| ensures Faithful(Flip(fs[i])) { assert back[|fs| - 1 - i] == Flip(fs[i]); }
    }
  }
}
