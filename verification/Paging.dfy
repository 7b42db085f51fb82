/** Reading a workspace file page by page (src/agent_runtime/workspace.py, `read_file`). */
module Paging {
  import opened Text
  import opened JsonText

  const MOST_LINES := 400
  const MOST_BYTES := 32000

  /** Lines are numbered from 1. `next` is where to read on, None at the end of the file. */
  datatype Page = Page(first: int, last: int, content: string, next: Option<nat>)

  datatype Error = BadRange | BeyondEnd | LongLine

  datatype Result = Read(page: Page) | Refused(error: Error)

  predicate GoodRange(start: int, maxLines: int, maxBytes: int) {
    start >= 1 && 1 <= maxLines <= MOST_LINES && 1 <= maxBytes <= MOST_BYTES
  }

  /** How many of the lines go on one page. */
  function Taken(lines: seq<string>, maxLines: nat, room: int): (n: nat)
    ensures n <= |lines| && n <= maxLines
  {
    if lines == [] || maxLines == 0 || Bytes(lines[0]) > room then 0
    else 1 + Taken(lines[1..], maxLines - 1, room - Bytes(lines[0]))
  }

  lemma {:induction false} TakenStops(lines: seq<string>, maxLines: nat, room: int, n: nat)
    requires n <= |lines| && n <= maxLines
    requires forall m :: 0 < m <= n ==> Bytes(Join(lines[..m])) <= room
    requires n == |lines| || n == maxLines || Bytes(Join(lines[..n])) + Bytes(lines[n]) > room
    ensures Taken(lines, maxLines, room) == n
  {
    hide Bytes;
    if n > 0 {
      forall m | 0 < m <= n ensures Bytes(Join(lines[..m])) == Bytes(lines[0]) + Bytes(Join(lines[1..][..m - 1])) {
        assert lines[..m][1..] == lines[1..][..m - 1];
        BytesSplit(lines[0], Join(lines[1..][..m - 1]));
      }
      assert Bytes(Join(lines[1..][..0])) == 0 by { NoBytes(); }
      assert Bytes(Join(lines[..1])) <= room;
      forall m | 0 < m <= n - 1 ensures Bytes(Join(lines[1..][..m])) <= room - Bytes(lines[0]) {
        assert Bytes(Join(lines[..m + 1])) <= room;
      }
      TakenStops(lines[1..], maxLines - 1, room - Bytes(lines[0]), n - 1);
    } else {
      assert Bytes(Join(lines[..0])) == 0 by { NoBytes(); }
    }
  }

  lemma NoBytes()
    ensures Bytes(Join([])) == 0
  {
  }

  /** A page from line `start`. */
  function PageAt(lines: seq<string>, start: int, maxLines: int, maxBytes: int): Result {
    if !GoodRange(start, maxLines, maxBytes) then Refused(BadRange)
    else if start > |lines| + 1 then Refused(BeyondEnd)
    else
      var rest := lines[start - 1..];
      var n := Taken(rest, maxLines, maxBytes);
      if n == 0 && rest != [] then Refused(LongLine)
      else
        var last := start + n - 1;
        Read(Page(start, last, Join(rest[..n]), if last >= |lines| then None else Some(last + 1)))
  }

  /** `read_file`, once the text is at hand. */
  method ReadFile(text: string, start: int, maxLines: int, maxBytes: int) returns (r: Result)
    ensures r == PageAt(SplitLines(text), start, maxLines, maxBytes)
  {
    hide Bytes, Join, Taken;
    if !GoodRange(start, maxLines, maxBytes) { return Refused(BadRange); }
    var lines := SplitLines(text);
    if start > |lines| + 1 { return Refused(BeyondEnd); }
    var rest := lines[start - 1..];
    var window := if maxLines < |rest| then rest[..maxLines] else rest;
    var selected: seq<string> := [];
    var used := 0;
    NoBytes();
    for i := 0 to |window|
      invariant selected == rest[..i] && used == Bytes(Join(rest[..i]))
      invariant forall m :: 0 < m <= i ==> Bytes(Join(rest[..m])) <= maxBytes
    {
      if used + Bytes(window[i]) > maxBytes {
        TakenStops(rest, maxLines, maxBytes, i);
        if selected == [] { return Refused(LongLine); }
        return Read(PageOf(lines, start, selected));
      }
      JoinAppend(rest[..i], [rest[i]]);
      assert rest[..i] + [rest[i]] == rest[..i + 1];
      BytesSplit(Join(rest[..i]), Join([rest[i]]));
      assert Join([rest[i]]) == rest[i] by { JoinOne(rest[i]); }
      selected := selected + [window[i]];
      used := used + Bytes(window[i]);
    }
    TakenStops(rest, maxLines, maxBytes, |window|);
    return Read(PageOf(lines, start, selected));
  }

  lemma JoinOne(line: string)
    ensures Join([line]) == line
  {
  }

  function PageOf(lines: seq<string>, start: int, selected: seq<string>): Page
    requires start >= 1
  {
    var last := start + |selected| - 1;
    Page(start, last, Join(selected), if last >= |lines| then None else Some(last + 1))
  }

  /** Every page keeps within its bounds and is the file's own lines from the one asked for. */
  lemma {:induction false} PageKeepsBounds(lines: seq<string>, start: int, maxLines: int, maxBytes: int)
    requires PageAt(lines, start, maxLines, maxBytes).Read?
    ensures var p := PageAt(lines, start, maxLines, maxBytes).page;
            && 1 <= p.first == start && start - 1 <= p.last <= |lines| && p.last - start + 1 <= maxLines
            && p.content == Join(lines[start - 1..p.last]) && Bytes(p.content) <= maxBytes
            && (p.next.Some? ==> p.next.value == p.last + 1 && p.last >= start)
            && (p.next.None? <==> p.last == |lines|)
  {
    hide Bytes, Join;
    var rest := lines[start - 1..];
    var n := Taken(rest, maxLines, maxBytes);
    TakenFits(rest, maxLines, maxBytes);
    assert rest[..n] == lines[start - 1..start - 1 + n];
  }

  lemma {:induction false} TakenFits(lines: seq<string>, maxLines: nat, room: int)
    requires room >= 0
    ensures Bytes(Join(lines[..Taken(lines, maxLines, room)])) <= room
  {
    hide Bytes;
    var n := Taken(lines, maxLines, room);
    if n == 0 {
      NoBytes();
    } else {
      TakenFits(lines[1..], maxLines - 1, room - Bytes(lines[0]));
      assert lines[..n][1..] == lines[1..][..n - 1];
      BytesSplit(lines[0], Join(lines[1..][..n - 1]));
    }
  }

  /** The pages read one after the other from line `start`, following `next`; None once one is refused. */
  function Follow(lines: seq<string>, start: int, maxLines: int, maxBytes: int): Option<seq<string>>
    requires start >= 1
    decreases |lines| + 2 - start
  {
    var r := PageAt(lines, start, maxLines, maxBytes);
    if r.Refused? then None
    else if r.page.next.None? then Some([r.page.content])
    else
      PageKeepsBounds(lines, start, maxLines, maxBytes);
      var rest := Follow(lines, r.page.next.value, maxLines, maxBytes);
      if rest.None? then None else Some([r.page.content] + rest.value)
  }

  /** Each refusal has its own cause, in this order. Without one, the page goes on until the next line would exceed one
      of its bounds. */
  lemma {:induction false} PageIs(lines: seq<string>, start: int, maxLines: int, maxBytes: int)
    ensures var r := PageAt(lines, start, maxLines, maxBytes);
            if start < 1 || maxLines < 1 || maxLines > 400 || maxBytes < 1 || maxBytes > 32000 then
              r == Refused(BadRange)
            else if start - 1 > |lines| then r == Refused(BeyondEnd)
            else if start <= |lines| && Bytes(lines[start - 1]) > maxBytes then r == Refused(LongLine)
            else
              && r.Read?
              && (r.page.last == |lines| || r.page.last - start + 1 == maxLines
                  || Bytes(Join(lines[start - 1..r.page.last + 1])) > maxBytes)
  {
    hide Bytes, Join;
    if GoodRange(start, maxLines, maxBytes) && start <= |lines| + 1 {
      var rest := lines[start - 1..];
      var n := Taken(rest, maxLines, maxBytes);
      TakenAll(rest, maxLines, maxBytes);
      TakenLines(rest, maxLines, maxBytes);
      assert n < |rest| ==> rest[..n + 1] == lines[start - 1..start + n];
      assert rest != [] ==> rest[0] == lines[start - 1];
    }
  }

  lemma {:induction false} TakenAll(lines: seq<string>, maxLines: nat, room: int)
    ensures var n := Taken(lines, maxLines, room);
            n == |lines| || n == maxLines || Bytes(Join(lines[..n + 1])) > room
  {
    hide Bytes;
    if lines != [] && maxLines > 0 {
      var n := Taken(lines, maxLines, room);
      if n == 0 {
        NoBytes();
        assert lines[..1][1..] == [];
        BytesSplit(lines[0], Join([]));
      } else {
        TakenAll(lines[1..], maxLines - 1, room - Bytes(lines[0]));
        if n < |lines| {
          assert lines[..n + 1][1..] == lines[1..][..n];
          BytesSplit(lines[0], Join(lines[1..][..n]));
        }
      }
    }
  }

  /** A page is refused only for a first line that is too long; the lines it holds are not. */
  lemma {:induction false} PageLines(lines: seq<string>, start: int, maxLines: int, maxBytes: int)
    requires GoodRange(start, maxLines, maxBytes) && start <= |lines| + 1
    ensures match PageAt(lines, start, maxLines, maxBytes)
            case Refused(_) => start <= |lines| && Bytes(lines[start - 1]) > maxBytes
            case Read(p) => p.last <= |lines| && forall i :: start - 1 <= i < p.last ==> Bytes(lines[i]) <= maxBytes
  {
    hide Bytes, Join, Taken;
    var rest := lines[start - 1..];
    TakenLines(rest, maxLines, maxBytes);
    assert forall i :: start - 1 <= i < |lines| ==> lines[i] == rest[i - start + 1];
  }

  /** Reading on to the end gives the file from `start` on, no line twice and none left out. It fails in no other way
      than at a line that is longer than a page. */
  lemma {:induction false} PagesPartition(lines: seq<string>, start: int, maxLines: int, maxBytes: int)
    requires GoodRange(start, maxLines, maxBytes) && start <= |lines| + 1
    ensures var pages := Follow(lines, start, maxLines, maxBytes);
            && (pages.Some? <==> forall i :: start - 1 <= i < |lines| ==> Bytes(lines[i]) <= maxBytes)
            && (pages.Some? ==> Join(pages.value) == Join(lines[start - 1..]))
    decreases |lines| + 2 - start
  {
    hide Bytes, Join, PageAt;
    PageLines(lines, start, maxLines, maxBytes);
    if PageAt(lines, start, maxLines, maxBytes).Read? {
      PageKeepsBounds(lines, start, maxLines, maxBytes);
      var p := PageAt(lines, start, maxLines, maxBytes).page;
      JoinOne(p.content);
      if p.next.Some? {
        PagesPartition(lines, p.last + 1, maxLines, maxBytes);
        JoinAppend(lines[start - 1..p.last], lines[p.last..]);
        assert lines[start - 1..p.last] + lines[p.last..] == lines[start - 1..];
        var after := Follow(lines, p.last + 1, maxLines, maxBytes);
        if after.Some? {
          JoinAppend([p.content], after.value);
        }
      } else {
        assert lines[start - 1..p.last] == lines[start - 1..];
      }
    }
  }

  lemma {:induction false} TakenLines(lines: seq<string>, maxLines: nat, room: int)
    ensures forall i :: 0 <= i < Taken(lines, maxLines, room) ==> Bytes(lines[i]) <= room
    ensures Taken(lines, maxLines, room) == 0 && lines != [] && maxLines > 0 ==> Bytes(lines[0]) > room
  {
    if Taken(lines, maxLines, room) > 0 {
      TakenLines(lines[1..], maxLines - 1, room - Bytes(lines[0]));
      forall i | 0 <= i < Taken(lines, maxLines, room) ensures Bytes(lines[i]) <= room {
        if i > 0 { assert lines[i] == lines[1..][i - 1]; }
      }
    }
  }

  /** From the first line on, the pages put together are the file. */
  lemma {:induction false} PagesAreTheFile(text: string, maxLines: int, maxBytes: int)
    requires GoodRange(1, maxLines, maxBytes)
    ensures var pages := Follow(SplitLines(text), 1, maxLines, maxBytes);
            && (pages.Some? <==> forall i :: 0 <= i < |SplitLines(text)| ==> Bytes(SplitLines(text)[i]) <= maxBytes)
            && (pages.Some? ==> Join(pages.value) == text)
  {
    hide Bytes, Join, Follow;
    PagesPartition(SplitLines(text), 1, maxLines, maxBytes);
    assert SplitLines(text)[0..] == SplitLines(text);
    JoinSplit(text);
  }
}
