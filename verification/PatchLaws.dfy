/** What a patch means: reading back a rendered one, chaining, and what is left alone. */
module PatchLaws {
  import opened Text
  import opened Patch

  predicate NextSection(rest: seq<string>) { rest == [] || "--- a/" <= rest[0] }

  /* ---- the reader recovers exactly the clean patches ---- */

  lemma Marked(m: char, text: string)
    ensures "--- a/" <= [m] + text <==> m == '-' && "-- a/" <= text
    ensures m != '@' ==> !("@@" <= [m] + text)
  {
    var line := [m] + text;
    var p := "--- a/";
    var q := "-- a/";
    assert line[0] == m && p[0] == '-';
    assert forall i :: 0 <= i < |text| ==> line[i + 1] == text[i];
    assert forall i :: 0 <= i < 5 ==> p[i + 1] == q[i];
    if p <= line {
      assert forall i :: 0 <= i < 5 ==> q[i] == text[i] by {
        forall i | 0 <= i < 5 ensures q[i] == text[i] { assert p[i + 1] == line[i + 1]; }
      }
    }
    if m == '-' && q <= text {
      forall j | 0 <= j < 6 ensures p[j] == line[j] {
        if j > 0 { assert q[j - 1] == text[j - 1]; }
      }
      assert p == line[..6];
    }
  }

  lemma {:induction false} ReadRenderedBody(body: seq<Edit>, rest: seq<string>)
    requires rest == [] || EndsBody(rest[0])
    ensures var r := ReadBody(RenderBody(body) + rest);
            if forall i :: 0 <= i < |body| ==> !LooksLikeHeader(body[i]) then r == Good(body, rest)
            else r.Good? && |r.value| < |body|
  {
    var lines := RenderBody(body) + rest;
    if body == [] {
      assert lines == rest;
    } else {
      var line := [Marker(body[0])] + body[0].text;
      assert lines == [line] + (RenderBody(body[1..]) + rest);
      assert lines[1..] == RenderBody(body[1..]) + rest;
      assert line[1..] == body[0].text;
      Marked(Marker(body[0]), body[0].text);
      ReadRenderedBody(body[1..], rest);
      assert [body[0]] + body[1..] == body;
      if LooksLikeHeader(body[0]) {
        assert ReadBody(lines) == Good([], lines);
      } else if exists i :: 0 <= i < |body| && LooksLikeHeader(body[i]) {
        var i :| 0 <= i < |body| && LooksLikeHeader(body[i]);
        assert LooksLikeHeader(body[1..][i - 1]);
      }
    }
  }

  lemma {:induction false} ReadRenderedHunks(pieces: seq<Piece>, left: nat, right: nat, rest: seq<string>)
    requires NextSection(rest)
    ensures var r := ReadHunks(RenderPieces(pieces, left, right) + rest);
            if forall i :: 0 <= i < |pieces| ==> CleanBody(pieces[i].body) then r == Good(HunksOf(pieces, left), rest)
            else r.Good? ==> r.value != HunksOf(pieces, left)
    decreases |pieces|
  {
    hide HunkHeader, HunkNumber, ReadBody, ReadHunks, CleanBody, RenderBody, EndsBody;
    var lines := RenderPieces(pieces, left, right) + rest;
    if pieces == [] {
      assert lines == rest;
      NoHunks(rest);
    } else {
      var body := pieces[0].body;
      var l := left + |pieces[0].gap|;
      var r := right + |pieces[0].gap|;
      var header := HunkHeader(l, |OldSide(body)|, r, |NewSide(body)|);
      var next := RenderPieces(pieces[1..], l + |OldSide(body)|, r + |NewSide(body)|) + rest;
      assert lines == [header] + (RenderBody(body) + next);
      NextEndsBody(pieces[1..], l + |OldSide(body)|, r + |NewSide(body)|, rest);
      ReadOneHunk(body, l, r, next);
      ReadRenderedHunks(pieces[1..], l + |OldSide(body)|, r + |NewSide(body)|, rest);
      AllOrRest(pieces);
      var hs := HunksOf(pieces, left);
      assert hs[0] == Hunk(l, body) && hs[1..] == HunksOf(pieces[1..], l + |OldSide(body)|);
      var got := ReadHunks(lines);
      if CleanBody(body) && ReadHunks(next).Good? {
        assert got.value[1..] == ReadHunks(next).value;
      }
    }
  }

  lemma NoHunks(rest: seq<string>)
    requires NextSection(rest)
    ensures ReadHunks(rest) == Good([], rest)
  {
    if rest != [] {
      assert "--- a/"[0] == rest[0][0];
    }
  }

  lemma {:induction false} ReadOneHunk(body: seq<Edit>, left: nat, right: nat, next: seq<string>)
    requires next == [] || EndsBody(next[0])
    ensures var r := ReadHunks([HunkHeader(left, |OldSide(body)|, right, |NewSide(body)|)] + (RenderBody(body) + next));
            if CleanBody(body) then
              match ReadHunks(next)
              case Bad => r == Bad
              case Good(hs, rest) => r == Good([Hunk(left, body)] + hs, rest)
            else r.Good? ==> r.value != [] && r.value[0] != Hunk(left, body)
  {
    hide HunkHeader, HunkNumber, ReadBody, RenderBody, EndsBody, LooksLikeHeader;
    var header := HunkHeader(left, |OldSide(body)|, right, |NewSide(body)|);
    var lines := [header] + (RenderBody(body) + next);
    assert lines[1..] == RenderBody(body) + next;
    HeaderIsLine(left, |OldSide(body)|, right, |NewSide(body)|);
    HeaderRead(left, |OldSide(body)|, right, |NewSide(body)|);
    ReadRenderedBody(body, next);
  }

  lemma AllOrRest(pieces: seq<Piece>)
    requires pieces != []
    ensures (forall i :: 0 <= i < |pieces| ==> CleanBody(pieces[i].body))
            <==> CleanBody(pieces[0].body) && forall i :: 0 <= i < |pieces[1..]| ==> CleanBody(pieces[1..][i].body)
  {
    if forall i :: 0 <= i < |pieces| ==> CleanBody(pieces[i].body) {
      forall i | 0 <= i < |pieces[1..]| ensures CleanBody(pieces[1..][i].body) {
        assert pieces[1..][i] == pieces[i + 1];
      }
    } else {
      var i :| 0 <= i < |pieces| && !CleanBody(pieces[i].body);
      assert i > 0 ==> pieces[1..][i - 1] == pieces[i];
    }
  }

  lemma {:induction false} NextEndsBody(pieces: seq<Piece>, left: nat, right: nat, rest: seq<string>)
    requires NextSection(rest)
    ensures var next := RenderPieces(pieces, left, right) + rest; next == [] || EndsBody(next[0])
  {
  }

  lemma {:induction false} PathBeforeTab(path: string)
    requires PlainPath(path)
    ensures BeforeTab(path) == path
  {
    if path != [] {
      PathBeforeTab(path[1..]);
    }
  }

  lemma HeaderPathRead(prefix: string, path: string)
    requires PlainPath(path) && |prefix| == 6
    ensures HeaderPath(prefix + path + "\n") == path
  {
    var line := prefix + path + "\n";
    var s := path + "\n";
    assert line[6..] == s;
    assert s[..|s| - 1] == path;
    assert StripEnd(s) == StripEnd(path);
    assert StripEnd(path) == path;
    PathBeforeTab(path);
  }

  lemma FilesStartSections(fs: seq<FileEdit>)
    ensures NextSection(RenderFiles(fs))
  {
  }

  lemma {:induction false} FileLines(f: FileEdit, more: seq<string>)
    requires PlainPath(f.path)
    ensures var lines := RenderFile(f) + more;
            SectionHeader(lines) && HeaderPath(lines[0]) == f.path && lines[2..] == RenderPieces(f.pieces, 0, 0) + more
  {
    hide HeaderPath, RenderPieces;
    HeaderPathRead("--- a/", f.path);
    HeaderPathRead("+++ b/", f.path);
    var lines := RenderFile(f) + more;
    assert lines[0] == "--- a/" + f.path + "\n";
    assert lines[1] == "+++ b/" + f.path + "\n";
  }

  /** Reading back a rendered patch gives the edits that were rendered exactly when every hunk shows an old
      line and removes no line that starts with `-- a/`. */
  lemma {:induction false} ReadRendered(fs: seq<FileEdit>)
    requires forall i :: 0 <= i < |fs| ==> PlainPath(fs[i].path)
    ensures ReadPatch(RenderFiles(fs)) == Some(SectionsOf(fs)) <==> forall i :: 0 <= i < |fs| ==> Clean(fs[i])
  {
    if fs == [] {
      assert ReadPatch([]) == Some([]);
    } else {
      hide HeaderPath, SectionHeader, RenderPieces, RenderFile, ReadHunks, ReadPatch, Clean, SectionsOf;
      var f := fs[0];
      var more := RenderFiles(fs[1..]);
      FilesStartSections(fs[1..]);
      FileLines(f, more);
      HunksOfFile(f, more);
      ReadRendered(fs[1..]);
      AllFilesOrRest(fs);
      RestOfRead(fs, RenderFiles(fs), RenderPieces(f.pieces, 0, 0) + more, more);
    }
  }

  lemma HunksOfFile(f: FileEdit, more: seq<string>)
    requires NextSection(more)
    ensures var r := ReadHunks(RenderPieces(f.pieces, 0, 0) + more);
            if Clean(f) then r == Good(HunksOf(f.pieces, 0), more) else r.Good? ==> r.value != HunksOf(f.pieces, 0)
  {
    ReadRenderedHunks(f.pieces, 0, 0, more);
  }

  lemma {:induction false} AllFilesOrRest(fs: seq<FileEdit>)
    requires fs != []
    ensures (forall i :: 0 <= i < |fs| ==> Clean(fs[i]))
            <==> Clean(fs[0]) && forall i :: 0 <= i < |fs[1..]| ==> Clean(fs[1..][i])
  {
    hide Clean;
    if Clean(fs[0]) && forall i :: 0 <= i < |fs[1..]| ==> Clean(fs[1..][i]) {
      forall i | 0 <= i < |fs| ensures Clean(fs[i]) { assert i > 0 ==> fs[1..][i - 1] == fs[i]; }
    }
  }

  lemma {:induction false} RestOfRead(fs: seq<FileEdit>, lines: seq<string>, hunkLines: seq<string>, more: seq<string>)
    requires fs != [] && |lines| >= 2 && lines[2..] == hunkLines
    requires SectionHeader(lines) && HeaderPath(lines[0]) == fs[0].path
    requires NextSection(more) && hunkLines == RenderPieces(fs[0].pieces, 0, 0) + more
    requires Clean(fs[0]) ==> ReadHunks(hunkLines) == Good(HunksOf(fs[0].pieces, 0), more)
    requires !Clean(fs[0]) && ReadHunks(hunkLines).Good? ==> ReadHunks(hunkLines).value != HunksOf(fs[0].pieces, 0)
    ensures ReadPatch(lines) == Some(SectionsOf(fs)) <==> Clean(fs[0]) && ReadPatch(more) == Some(SectionsOf(fs[1..]))
  {
    hide HeaderPath, SectionHeader, RenderPieces;
    var hs := ReadHunks(hunkLines);
    if hs.Good? && ReadPatch(hs.rest).Some? {
      var ss := ReadPatch(hs.rest).value;
      var head := Section(fs[0].path, hs.value);
      assert ReadPatch(lines) == Some([head] + ss);
      assert ([head] + ss)[0] == head && ([head] + ss)[1..] == ss;
      assert SectionsOf(fs)[0] == Section(fs[0].path, HunksOf(fs[0].pieces, 0));
      assert SectionsOf(fs)[1..] == SectionsOf(fs[1..]);
    }
  }

  /* ---- carrying out a rendered patch ---- */

  lemma {:induction false} RunBodyOf(source: seq<string>, cursor: nat, body: seq<Edit>)
    requires cursor + |OldSide(body)| <= |source|
    requires source[cursor..cursor + |OldSide(body)|] == OldSide(body)
    ensures RunBody(source, cursor, body) == Some((cursor + |OldSide(body)|, NewSide(body)))
    decreases |body|
  {
    if body != [] {
      if body[0].Add? {
        RunBodyOf(source, cursor, body[1..]);
      } else {
        assert source[cursor] == OldSide(body)[0];
        assert OldSide(body) == [body[0].text] + OldSide(body[1..]);
        assert source[cursor + 1..cursor + |OldSide(body)|] == OldSide(body)[1..] == OldSide(body[1..]);
        RunBodyOf(source, cursor + 1, body[1..]);
        assert body[0].Keep? ==> NewSide(body) == [body[0].text] + NewSide(body[1..]);
        assert body[0].Drop? ==> NewSide(body) == NewSide(body[1..]);
      }
    }
  }

  lemma AllOfIt(source: seq<string>, cursor: nat)
    requires cursor <= |source|
    ensures Slice(source, cursor, if cursor < |source| then |source| else cursor) == source[cursor..]
  {
  }

  lemma Window(source: seq<string>, cursor: nat, gap: seq<string>, shown: seq<string>, rest: seq<string>)
    requires cursor <= |source| && source[cursor..] == gap + (shown + rest)
    ensures var start := cursor + |gap|;
            var end := start + |shown|;
            && end <= |source|
            && Slice(source, cursor, start) == gap
            && source[start..end] == shown
            && source[end..] == rest
  {
  }

  function OldLines(f: FileEdit): seq<string> { Before(f.pieces) + f.tail }

  function NewLines(f: FileEdit): seq<string> { After(f.pieces) + f.tail }

  /** Every edit finds its old text, in turn. */
  predicate Matches(tree: Tree, fs: seq<FileEdit>)
    decreases |fs|
  {
    fs == [] ||
    (fs[0].path in tree && tree[fs[0].path] == Join(OldLines(fs[0]))
     && Matches(tree[fs[0].path := Join(NewLines(fs[0]))], fs[1..]))
  }

  function Edited(tree: Tree, fs: seq<FileEdit>): Tree
    decreases |fs|
  {
    if fs == [] then tree else Edited(tree[fs[0].path := Join(NewLines(fs[0]))], fs[1..])
  }

  lemma MarkedLine(m: char, text: string)
    requires IsLine(text) && m != '\n'
    ensures IsLine([m] + text)
  {
  }

  lemma {:induction false} SidesAreLines(body: seq<Edit>)
    requires LinesOnly(body)
    ensures AllLines(OldSide(body)) && AllLines(NewSide(body)) && AllLines(RenderBody(body))
  {
    if body != [] {
      assert forall i :: 0 <= i < |body[1..]| ==> body[1..][i] == body[i + 1];
      SidesAreLines(body[1..]);
      var text := body[0].text;
      MarkedLine(Marker(body[0]), text);
      hide IsLine, AllLines;
      LineAlone(text);
      LineAlone([Marker(body[0])] + text);
      LinesNone();
      LinesAppend(if body[0].Add? then [] else [text], OldSide(body[1..]));
      LinesAppend(if body[0].Drop? then [] else [text], NewSide(body[1..]));
      LinesAppend([[Marker(body[0])] + text], RenderBody(body[1..]));
    }
  }

  lemma {:induction false} PiecesAreLines(pieces: seq<Piece>, left: nat, right: nat)
    requires forall i :: 0 <= i < |pieces| ==> AllLines(pieces[i].gap) && LinesOnly(pieces[i].body)
    ensures AllLines(Before(pieces)) && AllLines(After(pieces)) && AllLines(RenderPieces(pieces, left, right))
    decreases |pieces|
  {
    hide HunkHeader, AllLines, OldSide, NewSide, RenderBody;
    if pieces != [] {
      var Piece(gap, body) := pieces[0];
      var l := left + |gap|;
      var r := right + |gap|;
      SidesAreLines(body);
      PiecesAreLines(pieces[1..], l + |OldSide(body)|, r + |NewSide(body)|);
      LinesAppend(gap, OldSide(body));
      LinesAppend(gap + OldSide(body), Before(pieces[1..]));
      LinesAppend(gap, NewSide(body));
      LinesAppend(gap + NewSide(body), After(pieces[1..]));
      var header := HunkHeader(l, |OldSide(body)|, r, |NewSide(body)|);
      HeaderIsLine(l, |OldSide(body)|, r, |NewSide(body)|);
      LineAlone(header);
      LinesAppend([header], RenderBody(body));
      LinesAppend([header] + RenderBody(body), RenderPieces(pieces[1..], l + |OldSide(body)|, r + |NewSide(body)|));
    } else {
      LinesNone();
    }
  }

  lemma LinesNone()
    ensures AllLines([])
  {
  }

  lemma LineAlone(line: string)
    requires IsLine(line)
    ensures AllLines([line])
  {
  }

  lemma LinesAppend(a: seq<string>, b: seq<string>)
    requires AllLines(a) && AllLines(b)
    ensures AllLines(a + b)
  {
  }

  lemma {:induction false} AllowedAppend(a: seq<string>, b: seq<string>)
    ensures NoneForbidden(a + b) <==> NoneForbidden(a) && NoneForbidden(b)
  {
    hide Forbidden;
    if NoneForbidden(a + b) {
      assert forall i :: 0 <= i < |a| ==> a[i] == (a + b)[i];
      assert forall i :: 0 <= i < |b| ==> b[i] == (a + b)[|a| + i];
    }
  }

  lemma {:induction false} FileIsLines(f: FileEdit)
    requires WellFormed(f)
    ensures AllLines(RenderFile(f)) && NoneForbidden(RenderFile(f))
  {
    hide Forbidden, RenderPieces, AllLines, IsLine;
    var pieces := RenderPieces(f.pieces, 0, 0);
    var first := "--- a/" + f.path + "\n";
    var second := "+++ b/" + f.path + "\n";
    PiecesAreLines(f.pieces, 0, 0);
    PiecesAllowed(f.pieces, 0, 0);
    PathLine("--- a/", f.path);
    PathLine("+++ b/", f.path);
    LetterFirst(first);
    LetterFirst(second);
    LineAlone(first);
    LineAlone(second);
    assert [first] + [second] == [first, second];
    LinesAppend([first], [second]);
    LinesAppend([first, second], pieces);
    AllowedAppend([first, second], pieces);
  }

  lemma {:induction false} FilesAreLines(fs: seq<FileEdit>)
    requires forall i :: 0 <= i < |fs| ==> WellFormed(fs[i])
    ensures AllLines(RenderFiles(fs)) && NoneForbidden(RenderFiles(fs))
  {
    if fs != [] {
      hide RenderFile, AllLines, NoneForbidden, WellFormed;
      FileIsLines(fs[0]);
      FilesAreLines(fs[1..]);
      LinesAppend(RenderFile(fs[0]), RenderFiles(fs[1..]));
      AllowedAppend(RenderFile(fs[0]), RenderFiles(fs[1..]));
    }
  }

  lemma PathLine(prefix: string, path: string)
    requires PlainPath(path) && forall i :: 0 <= i < |prefix| ==> prefix[i] != '\n'
    ensures IsLine(prefix + path + "\n")
  {
  }

  lemma LetterFirst(line: string)
    requires line != [] && line[0] in [' ', '-', '+', '@']
    ensures !Forbidden(line)
  {
  }

  lemma {:induction false} BodyAllowed(body: seq<Edit>)
    ensures NoneForbidden(RenderBody(body))
  {
    hide Forbidden;
    if body != [] {
      LetterFirst([Marker(body[0])] + body[0].text);
      BodyAllowed(body[1..]);
    }
  }

  lemma {:induction false} PiecesAllowed(pieces: seq<Piece>, left: nat, right: nat)
    ensures NoneForbidden(RenderPieces(pieces, left, right))
    decreases |pieces|
  {
    hide Forbidden, HunkHeader, RenderBody, OldSide, NewSide;
    if pieces != [] {
      var Piece(gap, body) := pieces[0];
      var l := left + |gap|;
      var r := right + |gap|;
      var header := HunkHeader(l, |OldSide(body)|, r, |NewSide(body)|);
      HeaderIsLine(l, |OldSide(body)|, r, |NewSide(body)|);
      assert "@@"[0] == header[0];
      LetterFirst(header);
      BodyAllowed(body);
      PiecesAllowed(pieces[1..], l + |OldSide(body)|, r + |NewSide(body)|);
    }
  }

  lemma PathIsPlain(f: FileEdit)
    requires WellFormed(f)
    ensures PlainPath(f.path)
  {
  }

  /* ---- chaining ---- */

  lemma {:induction false} ReadBodyAppend(a: seq<string>, b: seq<string>)
    requires NextSection(b)
    ensures ReadBody(a + b) == match ReadBody(a) case Bad => Bad case Good(x, rest) => Good(x, rest + b)
  {
    if a == [] {
      assert a + b == b;
    } else {
      assert (a + b)[1..] == a[1..] + b;
      ReadBodyAppend(a[1..], b);
    }
  }

  lemma {:induction false} ReadHunksAppend(a: seq<string>, b: seq<string>)
    requires NextSection(b)
    ensures ReadHunks(a + b) == match ReadHunks(a) case Bad => Bad case Good(x, rest) => Good(x, rest + b)
    decreases |a|
  {
    hide HunkNumber, ReadBody;
    if a == [] {
      assert a + b == b;
      NoHunks(b);
    } else {
      assert (a + b)[1..] == a[1..] + b && (a + b)[0] == a[0];
      ReadBodyAppend(a[1..], b);
      if ReadBody(a[1..]).Good? {
        ReadHunksAppend(ReadBody(a[1..]).rest, b);
      }
    }
  }

  lemma {:induction false} ReadPatchAppend(a: seq<string>, b: seq<string>)
    requires NextSection(b)
    ensures ReadPatch(a + b) ==
            if ReadPatch(a).None? || ReadPatch(b).None? then None else Some(ReadPatch(a).value + ReadPatch(b).value)
    decreases |a|
  {
    hide HeaderPath, ReadHunks;
    if a == [] {
      assert a + b == b;
      assert ReadPatch(b).Some? ==> [] + ReadPatch(b).value == ReadPatch(b).value;
    } else {
      HeaderAppend(a, b);
      if SectionHeader(a) {
        assert (a + b)[2..] == a[2..] + b;
        ReadHunksAppend(a[2..], b);
        if ReadHunks(a[2..]).Good? {
          var rest := ReadHunks(a[2..]).rest;
          ReadPatchAppend(rest, b);
          if ReadPatch(rest).Some? && ReadPatch(b).Some? {
            var s := Section(HeaderPath(a[0]), ReadHunks(a[2..]).value);
            assert [s] + (ReadPatch(rest).value + ReadPatch(b).value) ==
                     [s] + ReadPatch(rest).value + ReadPatch(b).value;
          }
        }
      }
    }
  }

  lemma {:induction false} HeaderAppend(a: seq<string>, b: seq<string>)
    requires a != [] && NextSection(b)
    ensures SectionHeader(a + b) <==> SectionHeader(a)
  {
    hide HeaderPath;
    if |a| == 1 && b != [] {
      assert (a + b)[1] == b[0] && "--- a/"[0] == b[0][0];
      assert !("+++ b/" <= b[0]) by { assert "+++ b/"[0] == '+'; }
    } else if |a| >= 2 {
      assert (a + b)[0] == a[0] && (a + b)[1] == a[1];
    }
  }

  lemma {:induction false} RunSectionsAppend(tree: Tree, x: seq<Section>, y: seq<Section>)
    ensures RunSections(tree, x + y) ==
            match RunSections(tree, x) case None => None case Some(t) => RunSections(t, y)
    decreases |x|
  {
    if x == [] {
      assert x + y == y;
    } else {
      assert (x + y)[1..] == x[1..] + y && (x + y)[0] == x[0];
      var s := x[0];
      if s.path in tree && RunHunks(SplitLines(tree[s.path]), 0, s.hunks).Some? {
        RunSectionsAppend(tree[s.path := Join(RunHunks(SplitLines(tree[s.path]), 0, s.hunks).value)], x[1..], y);
      }
    }
  }

  /** One patch made of two does what the two do in sequence, refusals included. */
  lemma {:induction false} Chain(tree: Tree, p: string, q: string)
    requires Terminated(p) && NextSection(SplitLines(q))
    ensures ApplyText(tree, p + q) == match ApplyText(tree, p) case None => None case Some(t) => ApplyText(t, q)
  {
    hide NoneForbidden, AllLines, Terminated, SectionHeader, ReadPatch, RunSections, NextSection, SplitLines, Join;
    var a := SplitLines(p);
    var b := SplitLines(q);
    SplitTerminated(p);
    JoinSplit(p);
    SplitAppend(a, q);
    assert SplitLines(p + q) == a + b;
    ReadPatchAppend(a, b);
    if ReadPatch(a).Some? && ReadPatch(b).Some? {
      RunSectionsAppend(tree, ReadPatch(a).value, ReadPatch(b).value);
    }
    AllowedAppend(a, b);
  }

  /* ---- what is left alone ---- */

  function Named(sections: seq<Section>): set<string> { set i | 0 <= i < |sections| :: sections[i].path }

  lemma {:induction false} Untouched(tree: Tree, sections: seq<Section>)
    ensures var r := RunSections(tree, sections);
            r.Some? ==>
              r.value.Keys == tree.Keys && forall p :: p in tree && p !in Named(sections) ==> r.value[p] == tree[p]
    decreases |sections|
  {
    if sections != [] {
      var s := sections[0];
      if s.path in tree && RunHunks(SplitLines(tree[s.path]), 0, s.hunks).Some? {
        var tree' := tree[s.path := Join(RunHunks(SplitLines(tree[s.path]), 0, s.hunks).value)];
        Untouched(tree', sections[1..]);
        forall p | p !in Named(sections) ensures p != s.path && p !in Named(sections[1..]) {
          assert s.path == sections[0].path;
          assert forall i :: 0 <= i < |sections[1..]| ==> sections[1..][i] == sections[i + 1];
        }
      }
    }
  }

  /* ---- the two ways a correct `diff -u` patch goes wrong ---- */

  /** A hunk with no old line at the top of a file is refused: adding to an empty file cannot be expressed. */
  lemma {:induction false} EmptyFileRefused(tree: Tree, f: FileEdit)
    requires WellFormed(f) && f.pieces != [] && f.pieces[0].gap == [] && OldSide(f.pieces[0].body) == []
    ensures ApplyLines(tree, RenderFile(f)) == None
  {
    hide HeaderPath, SectionHeader, HunkHeader, HunkNumber, ReadBody;
    var body := f.pieces[0].body;
    FileLines(f, []);
    assert RenderFile(f) + [] == RenderFile(f);
    var lines := RenderFile(f);
    EnterSection(tree, lines);
    var rest := lines[2..];
    assert rest == RenderPieces(f.pieces, 0, 0);
    HeaderIsLine(0, 0, 0, |NewSide(body)|);
    HeaderRead(0, 0, 0, |NewSide(body)|);
    assert rest[0] == HunkHeader(0, 0, 0, |NewSide(body)|);
    if f.path in tree {
      EnterHunk(SplitLines(tree[f.path]), 0, [], rest);
    }
  }

  lemma SidesStep(e: Edit, es: seq<Edit>)
    ensures OldSide([e] + es) == (if e.Add? then [] else [e.text]) + OldSide(es)
    ensures NewSide([e] + es) == (if e.Drop? then [] else [e.text]) + NewSide(es)
    ensures RenderBody([e] + es) == [[Marker(e)] + e.text] + RenderBody(es)
  {
  }

  const REMOVED: string := "-- a/f\n"
  const ADDED: string := "++ b/f\n"
  const LOOKALIKE: FileEdit := FileEdit("f", [Piece([], [Drop(REMOVED), Add(ADDED)])], [])

  lemma {:induction false} LookalikeSides()
    ensures OldLines(LOOKALIKE) == [REMOVED] && NewLines(LOOKALIKE) == [ADDED]
    ensures RenderPieces(LOOKALIKE.pieces, 0, 0) == [HunkHeader(0, 1, 0, 1), "--- a/f\n", "+++ b/f\n"]
    ensures RenderFile(LOOKALIKE) == ["--- a/f\n", "+++ b/f\n", HunkHeader(0, 1, 0, 1), "--- a/f\n", "+++ b/f\n"]
    ensures WellFormed(LOOKALIKE)
  {
    hide HunkHeader;
    var body := [Drop(REMOVED)] + [Add(ADDED)];
    SidesStep(Add(ADDED), []);
    SidesStep(Drop(REMOVED), [Add(ADDED)]);
    assert [Add(ADDED)] == [Add(ADDED)] + [];
    assert [Drop(REMOVED), Add(ADDED)] == body;
    assert LOOKALIKE.pieces == [Piece([], body)] && LOOKALIKE.pieces[1..] == [];
    assert ['-'] + REMOVED == "--- a/f\n" && ['+'] + ADDED == "+++ b/f\n";
    assert "--- a/" + "f" + "\n" == "--- a/f\n" && "+++ b/" + "f" + "\n" == "+++ b/f\n";
    assert RenderPieces([], 1, 1) == [];
    var pieces := LOOKALIKE.pieces;
    assert pieces[0].gap == [] && pieces[0].body == body;
    assert RenderBody(body) == ["--- a/f\n", "+++ b/f\n"];
    assert RenderPieces(pieces, 0, 0) == [HunkHeader(0, 1, 0, 1)] + RenderBody(body) + RenderPieces([], 1, 1);
    assert Before(pieces) == [] + OldSide(body) + Before([]) && After(pieces) == [] + NewSide(body) + After([]);
    assert AllLines(LOOKALIKE.tail) && PlainPath(LOOKALIKE.path) && LinesOnly(body) && AllLines([]);
  }

  lemma {:induction false} LookalikeHunk(lines: seq<string>, again: seq<string>)
    requires again == ["--- a/f\n", "+++ b/f\n"] && lines == [HunkHeader(0, 1, 0, 1)] + again
    ensures RestOfSection([REMOVED], 0, [], lines) == RestOfHunk([REMOVED], 0, [], again)
  {
    hide HunkHeader, HunkNumber, RestOfSection, RestOfHunk, Slice;
    HeaderIsLine(0, 1, 0, 1);
    HeaderRead(0, 1, 0, 1);
    EnterHunk([REMOVED], 0, [], lines);
    assert lines[1..] == again;
    assert [] + Slice([REMOVED], 0, 0) == [] by { AllOfNothing(); }
  }

  /** Replacing `-- a/f` by `++ b/f` in file `f` is accepted and changes nothing. */
  lemma {:induction false} HeaderLookalikeIgnored(tree: Tree)
    requires "f" in tree && tree["f"] == REMOVED
    ensures WellFormed(LOOKALIKE) && Matches(tree, [LOOKALIKE])
    ensures ApplyLines(tree, RenderFile(LOOKALIKE)) == Some(tree)
    ensures Edited(tree, [LOOKALIKE]) == tree["f" := ADDED]
  {
    hide HunkHeader, HeaderPath, SectionHeader, RestOfSection, RestOfHunk, ApplyLines, RenderFile, RenderPieces,
        OldLines,
      NewLines, WellFormed, SplitLines;
    LookalikeSides();
    assert [LOOKALIKE][1..] == [];
    assert Join([REMOVED]) == REMOVED + Join([]) == REMOVED;
    assert Join([ADDED]) == ADDED + Join([]) == ADDED;
    var lines := RenderFile(LOOKALIKE);
    var again := ["--- a/f\n", "+++ b/f\n"];
    SplitJoin([REMOVED]);
    FileLines(LOOKALIKE, []);
    assert lines + [] == lines;
    EnterSection(tree, lines);
    LookalikeHunk(lines[2..], again);
    LookalikeTail(tree, again);
    assert tree["f" := REMOVED] == tree;
  }

  lemma {:induction false} SectionAgain(again: seq<string>)
    requires again == ["--- a/f\n", "+++ b/f\n"]
    ensures SectionHeader(again) && HeaderPath(again[0]) == "f"
  {
  }

  lemma AllOfNothing()
    ensures Slice([REMOVED], 0, 0) == []
  {
  }

  lemma {:induction false} LookalikeTail(tree: Tree, again: seq<string>)
    requires again == ["--- a/f\n", "+++ b/f\n"] && "f" in tree && tree["f"] == REMOVED
    ensures RestOfHunk([REMOVED], 0, [], again) == Some(([REMOVED], again))
    ensures ApplyLines(tree, again) == Some(tree)
  {
    hide HeaderPath, ReadHunks, ReadBody, RunHunks, RunBody, RestOfSection, RestOfHunk, ApplyLines, SplitLines;
    assert again[0][0] == '-' && "@@"[0] == '@';
    LeaveHunk([REMOVED], 0, [], again);
    LeaveSection([REMOVED], 0, [], again);
    assert [] + Slice([REMOVED], 0, 1) == [REMOVED];
    assert Join([REMOVED]) == REMOVED + Join([]) == REMOVED;
    SplitJoin([REMOVED]);
    SectionAgain(again);
    EnterSection(tree, again);
    assert again[2..] == [];
    LeaveSection([REMOVED], 0, [], []);
    assert tree["f" := REMOVED] == tree;
    NoLines(tree);
  }
}
