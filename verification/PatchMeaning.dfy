/** Patches as they come, rendered by nobody in particular: which are accepted, and what is then done
    (src/agent_runtime/workspace.py, `_apply`). */
module PatchMeaning {
  import opened Text
  import opened Patch

  /* ---- single lines ---- */

  /** The beginnings of lines that no patch may have. */
  ghost predicate Unsupported(line: string) {
    || "GIT binary patch" <= line || "Binary files " <= line || "rename " <= line || "copy " <= line
    || "deleted file mode" <= line || "new file mode" <= line || "old mode" <= line || "new mode" <= line
    || "index " <= line
  }

  lemma {:induction false} ForbiddenIs(line: string)
    ensures Forbidden(line) <==> Unsupported(line)
  {
    assert FORBIDDEN[0] == "GIT binary patch" && FORBIDDEN[1] == "Binary files " && FORBIDDEN[2] == "rename ";
    assert FORBIDDEN[3] == "copy " && FORBIDDEN[4] == "deleted file mode" && FORBIDDEN[5] == "new file mode";
    assert FORBIDDEN[6] == "old mode" && FORBIDDEN[7] == "new mode" && FORBIDDEN[8] == "index ";
  }

  /** Anywhere in a patch such a line is enough for its refusal; without one, what counts is how the lines read. */
  lemma {:induction false} UnsupportedRefused(tree: Tree, patch: string)
    ensures ApplyText(tree, patch) ==
            if exists i :: 0 <= i < |SplitLines(patch)| && Unsupported(SplitLines(patch)[i]) then None
            else ApplyLines(tree, SplitLines(patch))
  {
    hide Forbidden, Unsupported, ApplyLines, SplitLines;
    var lines := SplitLines(patch);
    forall i | 0 <= i < |lines| ensures Forbidden(lines[i]) <==> Unsupported(lines[i]) { ForbiddenIs(lines[i]); }
  }

  predicate IsNumber(s: string) { s != "" && AllDigits(s) }

  predicate IsCount(s: string) { s == "" || (s[0] == ',' && IsNumber(s[1..])) }

  /** The five parts of a hunk's header; whatever stands behind it does not matter. */
  predicate HeaderOf(line: string, a: string, x: string, b: string, y: string) {
    && IsNumber(a) && IsCount(x) && IsNumber(b) && IsCount(y)
    && "@@ -" + a + x + " +" + b + y + " @@" <= line
  }

  lemma {:induction false} NumberIs(digits: string, rest: string)
    requires IsNumber(digits) && (rest == "" || !IsDigit(rest[0]))
    ensures Number(digits + rest) == Some((DecimalValue(digits), rest))
  {
    var s := digits + rest;
    var n := DigitSpan(s);
    assert forall i :: 0 <= i < |digits| ==> s[i] == digits[i];
    assert rest != "" ==> s[|digits|] == rest[0];
    assert s[..n] == digits && s[n..] == rest;
  }

  lemma {:induction false} NumberSplits(s: string)
    ensures Number(s).Some? ==>
              exists d :: IsNumber(d) && s == d + Number(s).value.1 && Number(s).value.0 == DecimalValue(d)
  {
    var n := DigitSpan(s);
    assert s == s[..n] + s[n..];
  }

  lemma {:induction false} CountSplits(s: string)
    ensures exists x :: IsCount(x) && s == x + SkipCount(s)
  {
    hide Number;
    if |s| > 0 && s[0] == ',' && Number(s[1..]).Some? {
      NumberSplits(s[1..]);
      var d :| IsNumber(d) && s[1..] == d + Number(s[1..]).value.1;
      assert s == [s[0]] + s[1..] && ([','] + d)[1..] == d;
      assert IsCount([','] + d) && s == [','] + d + SkipCount(s);
    } else {
      assert IsCount("") && s == "" + SkipCount(s);
    }
  }

  lemma {:induction false} CountIs(x: string, rest: string)
    requires IsCount(x) && rest != "" && rest[0] == ' '
    ensures SkipCount(x + rest) == rest
  {
    hide Number;
    if x == "" {
      assert x + rest == rest;
    } else {
      assert (x + rest)[1..] == x[1..] + rest;
      NumberIs(x[1..], rest);
    }
  }

  /** A line is a hunk's header exactly if it has these parts, and its number is that of the first. */
  lemma {:induction false} HunkNumberIs(line: string, n: nat)
    ensures HunkNumber(line) == Some(n) <==>
              exists a, x, b, y :: HeaderOf(line, a, x, b, y) && DecimalValue(a) == n
  {
    if HunkNumber(line) == Some(n) {
      HeaderSplits(line);
    }
    if a, x, b, y :| HeaderOf(line, a, x, b, y) && DecimalValue(a) == n {
      HeaderReads(line, a, x, b, y);
    }
  }

  lemma {:induction false} HeaderReads(line: string, a: string, x: string, b: string, y: string)
    requires HeaderOf(line, a, x, b, y)
    ensures HunkNumber(line) == Some(DecimalValue(a))
  {
    hide Number, SkipCount, DecimalValue;
    var rest := line[|"@@ -" + a + x + " +" + b + y + " @@"|..];
    var end := " @@" + rest;
    var tail := " +" + (b + (y + end));
    assert line == "@@ -" + (a + (x + tail));
    assert line[4..] == a + (x + tail);
    NumberIs(a, x + tail);
    CountIs(x, tail);
    assert tail[2..] == b + (y + end);
    NumberIs(b, y + end);
    CountIs(y, end);
  }

  predicate RangeOf(s: string, n: nat, a: string, x: string, rest: string) {
    IsNumber(a) && DecimalValue(a) == n && IsCount(x) && s == a + x + rest
  }

  lemma {:induction false} RangeSplits(s: string)
    requires Number(s).Some?
    ensures var (n, r) := Number(s).value; exists a, x :: RangeOf(s, n, a, x, SkipCount(r))
  {
    hide Number, SkipCount, DecimalValue;
    var (n, r) := Number(s).value;
    NumberSplits(s);
    var a :| IsNumber(a) && s == a + r && n == DecimalValue(a);
    CountSplits(r);
    var x :| IsCount(x) && r == x + SkipCount(r);
    assert s == a + x + SkipCount(r);
    assert RangeOf(s, n, a, x, SkipCount(r));
  }

  lemma {:induction false} HeaderSplits(line: string)
    requires HunkNumber(line).Some?
    ensures exists a, x, b, y :: HeaderOf(line, a, x, b, y) && DecimalValue(a) == HunkNumber(line).value
  {
    hide Number, SkipCount, DecimalValue, IsNumber, IsCount;
    var (n, r) := Number(line[4..]).value;
    RangeSplits(line[4..]);
    var tail := SkipCount(r);
    var a, x :| RangeOf(line[4..], n, a, x, tail);
    var (m, r') := Number(tail[2..]).value;
    RangeSplits(tail[2..]);
    var b, y :| RangeOf(tail[2..], m, b, y, SkipCount(r'));
    hide HunkNumber;
    RegroupHeader(line, tail, SkipCount(r'), a + x, b + y);
    assert "@@ -" + (a + x) + " +" + (b + y) + " @@" == "@@ -" + a + x + " +" + b + y + " @@";
    assert HeaderOf(line, a, x, b, y);
  }

  lemma RegroupHeader(line: string, tail: string, end: string, left: string, right: string)
    requires "@@ -" <= line && line[4..] == left + tail && " +" <= tail && tail[2..] == right + end && " @@" <= end
    ensures "@@ -" + left + " +" + right + " @@" <= line
  {
    assert line == "@@ -" + line[4..] && tail == " +" + tail[2..] && end == " @@" + end[3..];
    assert line == "@@ -" + (left + (" +" + (right + (" @@" + end[3..]))));
    assert line == "@@ -" + left + " +" + right + " @@" + end[3..];
  }

  predicate LineEnd(s: string) { forall i :: 0 <= i < |s| ==> s[i] == '\n' || s[i] == '\r' }

  /** `s` without the line's end is `t`. */
  ghost predicate Stripped(s: string, t: string) {
    t <= s && LineEnd(s[|t|..]) && (t == "" || !LineEnd(t[|t| - 1..]))
  }

  /** A header's path is what stands behind its first six characters, without the line's end and without a tab and
      what follows that. */
  lemma {:induction false} HeaderPathIs(line: string, path: string)
    requires |line| >= 6
    ensures HeaderPath(line) == path <==>
            '\t' !in path && exists t :: Stripped(line[6..], t) && (t == path || path + "\t" <= t)
  {
    hide BeforeTab, StripEnd, Stripped;
    StripEndIs(line[6..]);
    BeforeTabIs(StripEnd(line[6..]));
    if t :| Stripped(line[6..], t) && '\t' !in path && (t == path || path + "\t" <= t) {
      StripEndOf(line[6..], t);
      BeforeTabOf(t, path);
    }
  }

  lemma {:induction false} StripEndIs(s: string)
    ensures Stripped(s, StripEnd(s))
  {
    if s != [] && (s[|s| - 1] == '\n' || s[|s| - 1] == '\r') {
      StripEndIs(s[..|s| - 1]);
    }
  }

  lemma {:induction false} StripEndOf(s: string, t: string)
    requires Stripped(s, t)
    ensures StripEnd(s) == t
    decreases |s|
  {
    if |t| < |s| {
      assert s[|t|..][|s| - 1 - |t|] == s[|s| - 1];
      assert s[..|s| - 1][|t|..] == s[|t|..][..|s| - 1 - |t|];
      StripEndOf(s[..|s| - 1], t);
    } else {
      assert t == s;
    }
  }

  lemma {:induction false} BeforeTabIs(s: string)
    ensures var p := BeforeTab(s); '\t' !in p && (p == s || p + "\t" <= s)
  {
    if s != [] && s[0] != '\t' {
      BeforeTabIs(s[1..]);
    }
  }

  lemma {:induction false} BeforeTabOf(s: string, path: string)
    requires '\t' !in path && (s == path || path + "\t" <= s)
    ensures BeforeTab(s) == path
  {
    if path != [] {
      BeforeTabOf(s[1..], path[1..]);
    }
  }

  /** The marked lines of a body, the note about a missing newline, and nothing else. */
  lemma {:induction false} BodyLineIs(line: string)
    ensures forall e :: ReadBodyLine(line) == Change(e) <==> line == [Marker(e)] + e.text
    ensures ReadBodyLine(line) == NoNewlineNote <==> "\\ No newline at end of file" <= line
  {
    if "\\ No newline at end of file" <= line {
      assert line[0] == "\\ No newline at end of file"[0];
    }
    forall e ensures ReadBodyLine(line) == Change(e) <==> line == [Marker(e)] + e.text {
      if line != [] {
        assert line == [line[0]] + line[1..];
      }
    }
  }

  /* ---- a hunk's body ---- */

  function WithoutNotes(lines: seq<string>): seq<string> {
    if lines == [] then []
    else
      (if "\\ No newline at end of file" <= lines[0] then [] else [lines[0]]) + WithoutNotes(lines[1..])
  }

  /** The first `n` lines, up to the next header or the end, are the body, written out, and notes. */
  ghost predicate BodyEnds(lines: seq<string>, n: nat, body: seq<Edit>) {
    && n <= |lines|
    && (n == |lines| || "@@" <= lines[n] || "--- a/" <= lines[n])
    && (forall i :: 0 <= i < n ==> !("@@" <= lines[i]) && !("--- a/" <= lines[i]))
    && WithoutNotes(lines[..n]) == RenderBody(body)
  }

  lemma {:induction false} ReadBodyIs(lines: seq<string>, body: seq<Edit>, n: nat)
    requires n <= |lines|
    ensures ReadBody(lines) == Good(body, lines[n..]) <==> BodyEnds(lines, n, body)
  {
    if lines == [] || EndsBody(lines[0]) {
      if n == 0 { assert lines[..0] == []; }
    } else if n > 0 {
      hide BodyEnds;
      BodyEndsStep(lines, n, body);
      assert lines[1..][n - 1..] == lines[n..];
      ReadBodyIs(lines[1..], body, n - 1);
      if body != [] {
        ReadBodyIs(lines[1..], body[1..], n - 1);
        assert [body[0]] + body[1..] == body;
      }
      assert forall e, b: seq<Edit> :: [e] + b == body ==> e == body[0] && b == body[1..];
    }
  }

  lemma {:induction false} BodyEndsStep(lines: seq<string>, n: nat, body: seq<Edit>)
    requires 0 < n <= |lines| && !EndsBody(lines[0])
    ensures BodyEnds(lines, n, body) <==>
            match ReadBodyLine(lines[0])
            case Malformed => false
            case NoNewlineNote => BodyEnds(lines[1..], n - 1, body)
            case Change(e) => body != [] && body[0] == e && BodyEnds(lines[1..], n - 1, body[1..])
  {
    hide ReadBodyLine;
    BodyLineIs(lines[0]);
    var rest := lines[1..];
    assert lines[..n][1..] == rest[..n - 1] && lines[..n][0] == lines[0];
    assert forall i :: 0 <= i < |rest| ==> rest[i] == lines[i + 1];
    assert (forall i :: 0 <= i < n ==> !EndsBody(lines[i]))
      <==> (forall i :: 0 <= i < n - 1 ==> !EndsBody(rest[i])) by {
      if forall i :: 0 <= i < n - 1 ==> !EndsBody(rest[i]) {
        forall i | 0 <= i < n ensures !EndsBody(lines[i]) { assert i > 0 ==> lines[i] == rest[i - 1]; }
      }
    }
    if body != [] {
      assert RenderBody(body) == [[Marker(body[0])] + body[0].text] + RenderBody(body[1..]);
      assert RenderBody(body)[0] == [Marker(body[0])] + body[0].text && RenderBody(body)[1..] == RenderBody(body[1..]);
      assert ReadBodyLine(lines[0]) == Change(body[0]) <==> lines[0] == RenderBody(body)[0];
    }
  }

  /* ---- where hunks apply ---- */

  /** Nothing is looked for, or it stands at the named place. */
  ghost predicate Finds(source: seq<string>, h: Hunk) {
    var shown := OldSide(h.body);
    shown == [] || (0 <= h.start && h.start + |shown| <= |source| && source[h.start..h.start + |shown|] == shown)
  }

  /** In order, without overlap, each where its old lines are. */
  ghost predicate InPlace(source: seq<string>, cursor: nat, hunks: seq<Hunk>) {
    && (hunks != [] ==> cursor <= hunks[0].start)
    && (forall i, j :: 0 <= i < j < |hunks| ==> hunks[i].start + |OldSide(hunks[i].body)| <= hunks[j].start)
    && forall i :: 0 <= i < |hunks| ==> Finds(source, hunks[i])
  }

  lemma {:induction false} BodyRunsExactly(source: seq<string>, cursor: nat, body: seq<Edit>)
    ensures RunBody(source, cursor, body) ==
            if Finds(source, Hunk(cursor, body)) then Some((cursor + |OldSide(body)|, NewSide(body))) else None
    decreases |body|
  {
    if body != [] {
      FindsStep(source, cursor, body);
      hide Finds;
      var next := if body[0].Add? then cursor else cursor + 1;
      BodyRunsExactly(source, next, body[1..]);
      assert NewSide(body) == if body[0].Drop? then NewSide(body[1..]) else [body[0].text] + NewSide(body[1..]);
      assert next + |OldSide(body[1..])| == cursor + |OldSide(body)|;
    }
  }

  lemma {:induction false} FindsStep(source: seq<string>, cursor: nat, body: seq<Edit>)
    requires body != []
    ensures var found := Finds(source, Hunk(cursor, body));
            if body[0].Add? then found <==> Finds(source, Hunk(cursor, body[1..]))
            else found <==> cursor < |source| && source[cursor] == body[0].text
                            && Finds(source, Hunk(cursor + 1, body[1..]))
  {
    var shown, rest := OldSide(body), OldSide(body[1..]);
    if body[0].Add? {
      assert shown == [] + rest == rest;
    } else {
      assert shown == [body[0].text] + rest && shown[1..] == rest;
      if cursor + |shown| <= |source| {
        var w := source[cursor..cursor + |shown|];
        assert w[0] == source[cursor] && w[1..] == source[cursor + 1..cursor + |shown|];
        assert w == [w[0]] + w[1..];
      }
    }
  }

  /** Hunks are accepted exactly where they are in place. */
  lemma {:induction false} AcceptedExactly(source: seq<string>, cursor: nat, hunks: seq<Hunk>)
    ensures RunHunks(source, cursor, hunks).Some? <==> InPlace(source, cursor, hunks)
    decreases |hunks|
  {
    hide RunBody, OldSide, NewSide, Slice, Finds;
    if hunks != [] && hunks[0].start >= cursor {
      var h, rest := hunks[0], hunks[1..];
      BodyRunsExactly(source, h.start, h.body);
      assert Hunk(h.start, h.body) == h;
      AcceptedExactly(source, h.start + |OldSide(h.body)|, rest);
      InPlaceStep(source, cursor, hunks);
    }
  }

  lemma {:induction false} InPlaceStep(source: seq<string>, cursor: nat, hunks: seq<Hunk>)
    requires hunks != [] && hunks[0].start >= cursor
    ensures var end := hunks[0].start + |OldSide(hunks[0].body)|;
            InPlace(source, cursor, hunks) <==> Finds(source, hunks[0]) && InPlace(source, end, hunks[1..])
  {
    hide OldSide, Finds;
    var rest := hunks[1..];
    assert forall i :: 0 <= i < |rest| ==> rest[i] == hunks[i + 1];
    if Finds(source, hunks[0]) && InPlace(source, hunks[0].start + |OldSide(hunks[0].body)|, rest) {
      forall i, j | 0 <= i < j < |hunks| ensures hunks[i].start + |OldSide(hunks[i].body)| <= hunks[j].start {
        assert hunks[j] == rest[j - 1] && (i > 0 ==> hunks[i] == rest[i - 1]);
        assert j > 1 ==> rest[0].start + |OldSide(rest[0].body)| <= rest[j - 1].start;
      }
      forall i | 0 <= i < |hunks| ensures Finds(source, hunks[i]) { assert i > 0 ==> hunks[i] == rest[i - 1]; }
    }
  }

  /* ---- what they do ---- */

  /** A place in the file; the places behind its end are its end. */
  function Clamped(source: seq<string>, i: int): nat { if i < 0 then 0 else if i < |source| then i else |source| }

  function End(h: Hunk): int { h.start + |OldSide(h.body)| }

  /** The lines from one place to another. */
  function Lines(source: seq<string>, a: int, b: int): seq<string> {
    if Clamped(source, a) <= Clamped(source, b) then source[Clamped(source, a)..Clamped(source, b)] else []
  }

  /** Each hunk's body, behind the lines from the end of the hunk before it to the place it names. */
  function PiecesOf(source: seq<string>, cursor: nat, hunks: seq<Hunk>): seq<Piece> {
    seq(|hunks|, i requires 0 <= i < |hunks| =>
        Piece(Lines(source, if i == 0 then cursor else End(hunks[i - 1]), hunks[i].start), hunks[i].body))
  }

  /** The lines behind the last hunk. */
  function TailOf(source: seq<string>, cursor: nat, hunks: seq<Hunk>): seq<string> {
    Lines(source, if hunks == [] then cursor else End(hunks[|hunks| - 1]), |source|)
  }

  /** Hunks are accepted exactly if they are in place. They then replace, in the file, each hunk's old lines by its
      new ones, at the place the hunk names, and leave all other lines. */
  lemma {:induction false} AcceptedIsEdit(source: seq<string>, hunks: seq<Hunk>)
    ensures var pieces := PiecesOf(source, 0, hunks);
            var tail := TailOf(source, 0, hunks);
            if InPlace(source, 0, hunks) then
              Before(pieces) + tail == source && RunHunks(source, 0, hunks) == Some(After(pieces) + tail)
            else RunHunks(source, 0, hunks) == None
  {
    hide Before, After, RunHunks, InPlace, PiecesOf, TailOf;
    AcceptedExactly(source, 0, hunks);
    if InPlace(source, 0, hunks) { EditFrom(source, 0, hunks); }
    assert Lines(source, 0, |source|) == source;
  }

  lemma {:induction false} EditFrom(source: seq<string>, cursor: nat, hunks: seq<Hunk>)
    requires InPlace(source, cursor, hunks)
    ensures var pieces := PiecesOf(source, cursor, hunks);
            var tail := TailOf(source, cursor, hunks);
            && Before(pieces) + tail == Lines(source, cursor, |source|)
            && RunHunks(source, cursor, hunks) == Some(After(pieces) + tail)
    decreases |hunks|
  {
    if hunks == [] {
      assert PiecesOf(source, cursor, hunks) == [];
    } else {
      hide *;
      var h, rest := hunks[0], hunks[1..];
      InPlaceStarts(source, cursor, hunks);
      InPlaceStep(source, cursor, hunks);
      EditFrom(source, End(h), rest) by { EndIs(h); }
      PiecesStep(source, cursor, hunks);
      RunsStep(source, cursor, hunks);
      LinesMeet(source, cursor, h);
      var pieces := PiecesOf(source, cursor, hunks);
      var tail := TailOf(source, cursor, hunks);
      PieceSides(pieces);
      Regroup(pieces[0].gap, NewSide(h.body), After(pieces[1..]), tail);
      Regroup(pieces[0].gap, OldSide(h.body), Before(pieces[1..]), tail);
    }
  }

  lemma InPlaceStarts(source: seq<string>, cursor: nat, hunks: seq<Hunk>)
    requires hunks != [] && InPlace(source, cursor, hunks)
    ensures cursor <= hunks[0].start && Finds(source, hunks[0])
  {
  }

  lemma EndIs(h: Hunk)
    ensures End(h) == h.start + |OldSide(h.body)|
  {
  }

  lemma Regroup(a: seq<string>, b: seq<string>, c: seq<string>, d: seq<string>)
    ensures a + b + c + d == a + b + (c + d)
  {
  }

  lemma {:induction false} RunsStep(source: seq<string>, cursor: nat, hunks: seq<Hunk>)
    requires hunks != [] && cursor <= hunks[0].start && Finds(source, hunks[0])
    requires RunHunks(source, End(hunks[0]), hunks[1..]).Some?
    ensures RunHunks(source, cursor, hunks) ==
            Some(Slice(source, cursor, hunks[0].start) + NewSide(hunks[0].body)
                 + RunHunks(source, End(hunks[0]), hunks[1..]).value)
  {
    hide RunHunks, RunBody, Slice, OldSide, NewSide, Finds;
    var h := hunks[0];
    assert [h] + hunks[1..] == hunks && Hunk(h.start, h.body) == h;
    BodyRunsExactly(source, h.start, h.body);
    RunHunksStep(source, cursor, h, hunks[1..]);
  }

  lemma PieceSides(pieces: seq<Piece>)
    requires pieces != []
    ensures After(pieces) == pieces[0].gap + NewSide(pieces[0].body) + After(pieces[1..])
    ensures Before(pieces) == pieces[0].gap + OldSide(pieces[0].body) + Before(pieces[1..])
  {
  }

  lemma {:induction false} PiecesStep(source: seq<string>, cursor: nat, hunks: seq<Hunk>)
    requires hunks != [] && hunks[0].start >= 0
    ensures var pieces := PiecesOf(source, cursor, hunks);
            && pieces != []
            && pieces[0] == Piece(Lines(source, cursor, hunks[0].start), hunks[0].body)
            && pieces[1..] == PiecesOf(source, End(hunks[0]), hunks[1..])
    ensures TailOf(source, cursor, hunks) == TailOf(source, End(hunks[0]), hunks[1..])
  {
    hide Lines;
    var pieces := PiecesOf(source, cursor, hunks);
    forall i | 0 < i < |hunks| ensures pieces[i] == PiecesOf(source, End(hunks[0]), hunks[1..])[i - 1] {
      assert hunks[1..][i - 1] == hunks[i];
      assert i > 1 ==> hunks[1..][i - 2] == hunks[i - 1];
    }
  }

  lemma {:induction false} LinesMeet(source: seq<string>, cursor: nat, h: Hunk)
    requires cursor <= h.start && Finds(source, h)
    ensures Lines(source, cursor, h.start) == Slice(source, cursor, h.start)
    ensures Lines(source, cursor, |source|) ==
            Lines(source, cursor, h.start) + OldSide(h.body) + Lines(source, End(h), |source|)
  {
    hide OldSide;
  }
}
