/** Text as the runtime reads it: strings cut into lines that keep their newline, and decimal numbers. */
module Text {

  datatype Option<+T> = None | Some(value: T)

  /* ---- lines ---- */

  function LineLength(t: string): (n: nat)
    requires t != []
    ensures 1 <= n <= |t|
    ensures forall i :: 0 <= i < n - 1 ==> t[i] != '\n'
    ensures n == |t| || t[n - 1] == '\n'
  {
    if t[0] == '\n' || |t| == 1 then 1 else 1 + LineLength(t[1..])
  }

  /** `str.splitlines(keepends=True)` for text whose only separator is the newline. */
  function SplitLines(t: string): seq<string> {
    if t == [] then [] else [t[..LineLength(t)]] + SplitLines(t[LineLength(t)..])
  }

  function Join(lines: seq<string>): string {
    if lines == [] then [] else lines[0] + Join(lines[1..])
  }

  predicate IsLine(s: string) {
    && |s| > 0
    && s[|s| - 1] == '\n'
    && forall i :: 0 <= i < |s| - 1 ==> s[i] != '\n'
  }

  predicate AllLines(lines: seq<string>) {
    forall i :: 0 <= i < |lines| ==> IsLine(lines[i])
  }

  lemma {:induction false} JoinAppend(a: seq<string>, b: seq<string>)
    ensures Join(a + b) == Join(a) + Join(b)
  {
    if a == [] {
      assert a + b == b;
    } else {
      assert (a + b)[1..] == a[1..] + b;
      JoinAppend(a[1..], b);
    }
  }

  lemma {:induction false} JoinSplit(t: string)
    ensures Join(SplitLines(t)) == t
  {
    if t != [] {
      JoinSplit(t[LineLength(t)..]);
    }
  }

  lemma FirstLine(line: string, rest: string)
    requires IsLine(line)
    ensures LineLength(line + rest) == |line|
  {
    var t := line + rest;
    assert t[|line| - 1] == '\n';
    assert forall i :: 0 <= i < |line| - 1 ==> t[i] == line[i];
  }

  lemma SplitFirst(line: string, rest: string)
    requires IsLine(line)
    ensures SplitLines(line + rest) == [line] + SplitLines(rest)
  {
    FirstLine(line, rest);
    assert (line + rest)[..|line|] == line;
    assert (line + rest)[|line|..] == rest;
  }

  /** Complete lines in front of a text are exactly the first lines of the whole. */
  lemma {:induction false} SplitAppend(lines: seq<string>, t: string)
    requires AllLines(lines)
    ensures SplitLines(Join(lines) + t) == lines + SplitLines(t)
  {
    hide SplitLines, IsLine;
    if lines == [] {
      assert Join(lines) + t == t;
    } else {
      var rest := Join(lines[1..]) + t;
      assert Join(lines) + t == lines[0] + rest;
      SplitFirst(lines[0], rest);
      SplitAppend(lines[1..], t);
      assert [lines[0]] + (lines[1..] + SplitLines(t)) == lines + SplitLines(t);
    }
  }

  lemma SplitJoin(lines: seq<string>)
    requires AllLines(lines)
    ensures SplitLines(Join(lines)) == lines
  {
    SplitAppend(lines, []);
    assert Join(lines) + [] == Join(lines);
  }

  /** A text that is empty or ends in a newline consists of complete lines only. */
  predicate Terminated(t: string) { t == [] || t[|t| - 1] == '\n' }

  lemma {:induction false} SplitTerminated(t: string)
    requires Terminated(t)
    ensures AllLines(SplitLines(t))
  {
    if t != [] {
      var n := LineLength(t);
      assert IsLine(t[..n]);
      SplitTerminated(t[n..]);
    }
  }

  /* ---- decimal numbers ---- */

  predicate IsDigit(c: char) { '0' <= c <= '9' }

  predicate AllDigits(s: string) { forall i :: 0 <= i < |s| ==> IsDigit(s[i]) }

  function DigitChar(d: nat): (c: char)
    requires d < 10
    ensures IsDigit(c) && c as int - '0' as int == d
  {
    ('0' as int + d) as char
  }

  function Decimal(n: nat): (s: string)
    ensures |s| > 0 && AllDigits(s)
  {
    if n < 10 then [DigitChar(n)] else Decimal(n / 10) + [DigitChar(n % 10)]
  }

  function DecimalValue(s: string): nat
    requires AllDigits(s)
  {
    if s == [] then 0
    else 10 * DecimalValue(s[..|s| - 1]) + (s[|s| - 1] as int - '0' as int)
  }

  lemma {:induction false} DecimalRoundTrip(n: nat)
    ensures DecimalValue(Decimal(n)) == n
  {
    if n < 10 {
      assert Decimal(n)[..0] == [];
    } else {
      DecimalRoundTrip(n / 10);
      assert Decimal(n)[..|Decimal(n)| - 1] == Decimal(n / 10);
    }
  }

  /** Length of the longest prefix made of digits. */
  function DigitSpan(s: string): (n: nat)
    ensures n <= |s| && AllDigits(s[..n])
    ensures forall i :: 0 <= i < n ==> IsDigit(s[i])
    ensures n < |s| ==> !IsDigit(s[n])
  {
    if s == [] || !IsDigit(s[0]) then 0 else 1 + DigitSpan(s[1..])
  }

  /** `\d+` at the front of `s`: the number and what follows it. */
  function Number(s: string): Option<(nat, string)> {
    var n := DigitSpan(s);
    if n == 0 then None else Some((DecimalValue(s[..n]), s[n..]))
  }

  lemma NumberOfDecimal(n: nat, rest: string)
    requires rest == [] || !IsDigit(rest[0])
    ensures Number(Decimal(n) + rest) == Some((n, rest))
  {
    var s := Decimal(n) + rest;
    var k := DigitSpan(s);
    assert forall i :: 0 <= i < |Decimal(n)| ==> s[i] == Decimal(n)[i];
    assert rest != [] ==> s[|Decimal(n)|] == rest[0];
    assert s[..k] == Decimal(n);
    assert s[k..] == rest;
    DecimalRoundTrip(n);
  }
}
