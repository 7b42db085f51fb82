/** JSON text as the runtime writes it, and the escaping that keeps its envelope in one piece
    (src/agent_runtime/context.py, `_safe_json`; section 7 of RFC 8259). */
module JsonText {
  import opened Text

  /** A JSON value. An object's members are in key order, as the canonical encoding writes them; an atom is a
      number, `true`, `false` or `null`, spelled out. */
  datatype Value =
    | Str(s: string)
    | Atom(word: string)
    | Arr(items: seq<Value>)
    | Obj(members: seq<Member>)

  datatype Member = Member(name: string, value: Value)

  /* ---- encoding ---- */

  function HexDigit(n: nat): char
    requires n < 16
  {
    "0123456789abcdef"[n]
  }

  function EncodeChar(c: char): string {
    if c == '"' then "\\\""
    else if c == '\\' then "\\\\"
    else if c == '\n' then "\\n"
    else if c == '\r' then "\\r"
    else if c == '\t' then "\\t"
    else if c as int == 8 then "\\b"
    else if c as int == 12 then "\\f"
    else if c as int < 32 then "\\u00" + [HexDigit(c as int / 16), HexDigit(c as int % 16)]
    else [c]
  }

  function EncodeChars(s: string): string { if s == [] then [] else EncodeChar(s[0]) + EncodeChars(s[1..]) }

  function Quoted(s: string): string { "\"" + EncodeChars(s) + "\"" }

  function Encode(v: Value): string
    decreases v, 1, 0
  {
    match v
    case Str(s) => Quoted(s)
    case Atom(w) => w
    case Arr(_) => "[" + EncodeItems(v, 0)
    case Obj(_) => "{" + EncodeMembers(v, 0)
  }

  /** The items from `i` on, with a comma before all but the first, and the bracket. */
  function EncodeItems(v: Value, i: nat): string
    requires v.Arr? && i <= |v.items|
    decreases v, 0, |v.items| - i
  {
    if i == |v.items| then "]" else (if i == 0 then "" else ",") + Encode(v.items[i]) + EncodeItems(v, i + 1)
  }

  function EncodeMembers(v: Value, i: nat): string
    requires v.Obj? && i <= |v.members|
    decreases v, 0, |v.members| - i
  {
    if i == |v.members| then "}"
    else
      var m := v.members[i];
      (if i == 0 then "" else ",") + (Quoted(m.name) + ":") + Encode(m.value) + EncodeMembers(v, i + 1)
  }

  /* ---- size in UTF-8 ---- */

  function Utf8(c: char): nat {
    if c as int < 0x80 then 1 else if c as int < 0x800 then 2 else if c as int < 0x10000 then 3 else 4
  }

  function Bytes(t: string): nat { if t == [] then 0 else Utf8(t[0]) + Bytes(t[1..]) }

  lemma {:induction false} BytesSplit(a: string, b: string)
    ensures Bytes(a + b) == Bytes(a) + Bytes(b)
  {
    if a == [] {
      assert a + b == b;
    } else {
      assert (a + b)[1..] == a[1..] + b;
      BytesSplit(a[1..], b);
    }
  }

  /** The octets of section 3 of RFC 3629, as numbers. */
  function Octets(c: char): seq<nat> {
    var n := c as int;
    if n < 0x80 then [n]
    else if n < 0x800 then [0xC0 + n / 64, 0x80 + n % 64]
    else if n < 0x10000 then [0xE0 + n / 4096, 0x80 + n / 64 % 64, 0x80 + n % 64]
    else [0xF0 + n / 262144, 0x80 + n / 4096 % 64, 0x80 + n / 64 % 64, 0x80 + n % 64]
  }

  /** The number that octets stand for: the first of them tells how many there are. */
  function ScalarOf(a: int, b: int, c: int, d: int): int {
    if a < 0x80 then a
    else if a < 0xE0 then (a - 0xC0) * 64 + (b - 0x80)
    else if a < 0xF0 then (a - 0xE0) * 4096 + (b - 0x80) * 64 + (c - 0x80)
    else (a - 0xF0) * 262144 + (b - 0x80) * 4096 + (c - 0x80) * 64 + (d - 0x80)
  }

  function AllOctets(t: string): seq<nat> { if t == [] then [] else Octets(t[0]) + AllOctets(t[1..]) }

  /** Each character is read back from its octets, whatever follows; the size is their number. */
  lemma {:induction false} OctetsRead(c: char, rest: seq<nat>)
    requires |rest| >= 3
    ensures var o := Octets(c) + rest; ScalarOf(o[0], o[1], o[2], o[3]) == c as int
    ensures |Octets(c)| == Utf8(c) && forall i :: 0 <= i < |Octets(c)| ==> Octets(c)[i] < 256
  {
    Digits(c as int);
  }

  lemma Digits(n: nat)
    ensures n == n / 64 * 64 + n % 64 && n / 64 == n / 4096 * 64 + n / 64 % 64
    ensures n / 4096 == n / 262144 * 64 + n / 4096 % 64
  {
  }

  lemma {:induction false} BytesAreOctets(t: string)
    ensures Bytes(t) == |AllOctets(t)|
  {
    if t != [] { BytesAreOctets(t[1..]); }
  }

  /* ---- decoding ---- */

  datatype Token = Plain(c: char) | Chars(s: string)

  predicate IsWord(c: char) {
    '0' <= c <= '9' || 'a' <= c <= 'z' || 'A' <= c <= 'Z' || c == '-' || c == '+' || c == '.'
  }

  /** What may stand between strings. */
  predicate IsPlain(c: char) {
    IsWord(c) || c in "{}[]:, \t\r\n"
  }

  function HexValue(c: char): Option<nat> {
    if '0' <= c <= '9' then Some(c as int - '0' as int)
    else if 'a' <= c <= 'f' then Some(c as int - 'a' as int + 10)
    else if 'A' <= c <= 'F' then Some(c as int - 'A' as int + 10)
    else None
  }

  /** Four hexadecimal digits. Halves of surrogate pairs are not part of this model. */
  function Hex4(t: string): Option<char>
    requires |t| == 4
  {
    var a, b, c, d := HexValue(t[0]), HexValue(t[1]), HexValue(t[2]), HexValue(t[3]);
    if a.None? || b.None? || c.None? || d.None? then None
    else
      var n := a.value * 4096 + b.value * 256 + c.value * 16 + d.value;
      if 0xD800 <= n < 0xE000 then None else Some(n as char)
  }

  /** One character of a string's inside, as written, and how many characters that took. */
  datatype Piece = Piece(c: char, length: nat)

  function ReadChar(t: string): (p: Option<Piece>)
    ensures p.Some? ==> 1 <= p.value.length <= |t|
  {
    if t == [] || t[0] == '"' || t[0] as int < 32 then None
    else if t[0] != '\\' then Some(Piece(t[0], 1))
    else if |t| < 2 then None
    else if t[1] == '"' || t[1] == '\\' || t[1] == '/' then Some(Piece(t[1], 2))
    else if t[1] == 'b' then Some(Piece(8 as char, 2))
    else if t[1] == 'f' then Some(Piece(12 as char, 2))
    else if t[1] == 'n' then Some(Piece('\n', 2))
    else if t[1] == 'r' then Some(Piece('\r', 2))
    else if t[1] == 't' then Some(Piece('\t', 2))
    else if t[1] == 'u' && |t| >= 6 && Hex4(t[2..6]).Some? then Some(Piece(Hex4(t[2..6]).value, 6))
    else None
  }

  /** The inside of a string up to its closing quote, and what follows that. */
  function ReadString(t: string): (r: Option<(string, string)>)
    ensures r.Some? ==> |r.value.1| < |t|
    decreases |t|
  {
    if t != [] && t[0] == '"' then Some(("", t[1..]))
    else
      var p := ReadChar(t);
      if p.None? then None
      else
        var rest := ReadString(t[p.value.length..]);
        if rest.None? then None else Some(([p.value.c] + rest.value.0, rest.value.1))
  }

  /** A text's tokens: strings decoded, everything else character by character. None if it is not JSON's. */
  function Lex(t: string): Option<seq<Token>>
    decreases |t|
  {
    if t == [] then Some([])
    else if t[0] == '"' then
      var s := ReadString(t[1..]);
      if s.None? then None
      else
        var rest := Lex(s.value.1);
        if rest.None? then None else Some([Chars(s.value.0)] + rest.value)
    else if IsPlain(t[0]) then
      var rest := Lex(t[1..]);
      if rest.None? then None else Some([Plain(t[0])] + rest.value)
    else None
  }

  /* ---- escaping ---- */

  function Replace(t: string, c: char, with: string): string {
    if t == [] then [] else (if t[0] == c then with else [t[0]]) + Replace(t[1..], c, with)
  }

  const AND := "\\u0026"
  const LESS := "\\u003c"
  const MORE := "\\u003e"

  function Safe(t: string): string { Replace(Replace(Replace(t, '&', AND), '<', LESS), '>', MORE) }

  function SafeChar(c: char): string {
    if c == '&' then AND else if c == '<' then LESS else if c == '>' then MORE else [c]
  }

  /** All three at once. */
  function SafeChars(t: string): string { if t == [] then [] else SafeChar(t[0]) + SafeChars(t[1..]) }

  lemma {:induction false} ReplaceSplit(a: string, b: string, c: char, with: string)
    ensures Replace(a + b, c, with) == Replace(a, c, with) + Replace(b, c, with)
  {
    if a == [] {
      assert a + b == b;
    } else {
      assert (a + b)[1..] == a[1..] + b;
      ReplaceSplit(a[1..], b, c, with);
    }
  }

  lemma {:induction false} ReplaceNothing(t: string, c: char, with: string)
    requires c !in t
    ensures Replace(t, c, with) == t
  {
    if t != [] {
      assert c !in t[1..] && t[0] != c;
      ReplaceNothing(t[1..], c, with);
    }
  }

  lemma ReplaceOne(x: char, c: char, with: string)
    ensures Replace([x], c, with) == if x == c then with else [x]
  {
  }

  lemma {:induction false} SafeOne(x: char)
    ensures Safe([x]) == SafeChar(x)
  {
    ReplaceOne(x, '&', AND);
    ReplaceOne(x, '<', LESS);
    ReplaceOne(x, '>', MORE);
    ReplaceNothing(AND, '<', LESS);
    ReplaceNothing(AND, '>', MORE);
    ReplaceNothing(LESS, '>', MORE);
  }

  lemma {:induction false} SafeSplit(a: string, b: string)
    ensures Safe(a + b) == Safe(a) + Safe(b)
  {
    hide Replace;
    ReplaceSplit(a, b, '&', AND);
    ReplaceSplit(Replace(a, '&', AND), Replace(b, '&', AND), '<', LESS);
    ReplaceSplit(Replace(Replace(a, '&', AND), '<', LESS), Replace(Replace(b, '&', AND), '<', LESS), '>', MORE);
  }

  /** The three replacements do not get in each other's way. */
  lemma {:induction false} SafeIsPointwise(t: string)
    ensures Safe(t) == SafeChars(t)
  {
    if t != [] {
      SafeOne(t[0]);
      SafeSplit([t[0]], t[1..]);
      assert [t[0]] + t[1..] == t;
      SafeIsPointwise(t[1..]);
    }
  }

  predicate Harmless(t: string) { '&' !in t && '<' !in t && '>' !in t }

  /** None of the three characters is left. */
  lemma {:induction false} SafeIsHarmless(t: string)
    ensures Harmless(Safe(t))
  {
    SafeIsPointwise(t);
    PointwiseHarmless(t);
  }

  lemma {:induction false} PointwiseHarmless(t: string)
    ensures Harmless(SafeChars(t))
  {
    if t != [] {
      PointwiseHarmless(t[1..]);
    }
  }

  lemma {:induction false} SafeCharsSplit(a: string, b: string)
    ensures SafeChars(a + b) == SafeChars(a) + SafeChars(b)
  {
    if a == [] {
      assert a + b == b;
    } else {
      assert (a + b)[1..] == a[1..] + b;
      SafeCharsSplit(a[1..], b);
    }
  }

  lemma {:induction false} SafeCharsNothing(t: string)
    requires Harmless(t)
    ensures SafeChars(t) == t
  {
    if t != [] {
      assert forall c :: c in t[1..] ==> c in t;
      assert t[0] in t;
      SafeCharsNothing(t[1..]);
    }
  }

  /** The next character of a string's inside reads the same, and what follows it is what followed, escaped. */
  lemma {:induction false} ReadCharSafe(t: string)
    requires ReadChar(t).Some?
    ensures var p := ReadChar(t).value;
            var q := ReadChar(SafeChars(t));
            q.Some? && q.value.c == p.c && SafeChars(t)[q.value.length..] == SafeChars(t[p.length..])
            && SafeChars(t) != [] && SafeChars(t)[0] != '"'
  {
    var p := ReadChar(t).value;
    SafeCharsSplit(t[..p.length], t[p.length..]);
    assert t[..p.length] + t[p.length..] == t;
    if t[0] in "&<>" {
      EscapesRead(t[0], SafeChars(t[1..]));
      assert SafeChars(t) == SafeChar(t[0]) + SafeChars(t[1..]);
    } else {
      forall c | c in t[..p.length] ensures c !in "&<>" { HexIsHarmless(t); }
      SafeCharsNothing(t[..p.length]);
      SameStart(t, SafeChars(t), p.length);
    }
  }

  lemma EscapesRead(c: char, rest: string)
    requires c in "&<>"
    ensures ReadChar(SafeChar(c) + rest) == Some(Piece(c, 6)) && (SafeChar(c) + rest)[6..] == rest
  {
  }

  /** Nothing that an escape sequence of JSON consists of is one of the three characters. */
  lemma HexIsHarmless(t: string)
    requires ReadChar(t).Some? && t[0] !in "&<>"
    ensures forall c :: c in t[..ReadChar(t).value.length] ==> c !in "&<>"
  {
  }

  /** Reading one character looks no further than that character. */
  lemma SameStart(t: string, u: string, n: nat)
    requires ReadChar(t).Some? && n == ReadChar(t).value.length <= |u| && u[..n] == t[..n]
    ensures ReadChar(u) == ReadChar(t) && u[0] == t[0]
  {
    assert t[..n][0] == u[..n][0];
    if n >= 2 { assert t[..n][1] == u[..n][1]; }
    if n == 6 { assert t[2..6] == t[..6][2..] == u[..6][2..] == u[2..6]; }
  }

  lemma {:induction false} ReadStringSafe(t: string)
    requires ReadString(t).Some?
    ensures var r := ReadString(t).value;
            ReadString(SafeChars(t)) == Some((r.0, SafeChars(r.1)))
    decreases |t|
  {
    if t != [] && t[0] == '"' {
      assert SafeChars(t) == ['"'] + SafeChars(t[1..]);
    } else {
      ReadCharSafe(t);
      ReadStringSafe(t[ReadChar(t).value.length..]);
    }
  }

  /** Escaping changes no token of any JSON text, whatever backslashes and quotes its strings hold. */
  lemma {:induction false} SafeKeepsTokens(t: string)
    requires Lex(t).Some?
    ensures Lex(Safe(t)) == Lex(t)
  {
    SafeIsPointwise(t);
    PointwiseKeepsTokens(t);
  }

  lemma {:induction false} PointwiseKeepsTokens(t: string)
    requires Lex(t).Some?
    ensures Lex(SafeChars(t)) == Lex(t)
    decreases |t|
  {
    if t != [] {
      assert SafeChars(t) == [t[0]] + SafeChars(t[1..]);
      if t[0] == '"' {
        ReadStringSafe(t[1..]);
        PointwiseKeepsTokens(ReadString(t[1..]).value.1);
      } else {
        PointwiseKeepsTokens(t[1..]);
      }
    }
  }

  /* ---- what the encoder writes, the decoder reads ---- */

  lemma ReadEncodedChar(c: char, rest: string)
    ensures ReadChar(EncodeChar(c) + rest) == Some(Piece(c, |EncodeChar(c)|))
    ensures (EncodeChar(c) + rest)[|EncodeChar(c)|..] == rest && (EncodeChar(c) + rest)[0] != '"'
  {
    var t := EncodeChar(c) + rest;
    if |EncodeChar(c)| == 6 {
      var n := c as int;
      assert t[2..6] == ['0', '0', HexDigit(n / 16), HexDigit(n % 16)];
      HexRead(n / 16);
      HexRead(n % 16);
      assert n / 16 * 16 + n % 16 == n;
      assert (n as char) == c;
    }
  }

  lemma HexRead(n: nat)
    requires n < 16
    ensures HexValue(HexDigit(n)) == Some(n)
  {
  }

  /** Seven characters have an escape of their own, other control characters take six, and nothing else is escaped. */
  lemma EscapesAre(c: char)
    ensures var n := c as int;
            && (n in {8, 9, 10, 12, 13, 34, 92} ==> |EncodeChar(c)| == 2)
            && (n < 32 && n !in {8, 9, 10, 12, 13} ==> |EncodeChar(c)| == 6)
            && (n >= 32 && n !in {34, 92} ==> EncodeChar(c) == [c])
  {
  }

  /** Both cases are read as hexadecimal digits, and no other characters are. */
  lemma HexDigitsAre(c: char)
    ensures var n := c as int;
            HexValue(c) == if 48 <= n <= 57 then Some(n - 48)
                           else if 97 <= n <= 102 then Some(n - 87)
                           else if 65 <= n <= 70 then Some(n - 55)
                           else None
  {
  }

  /** Four of them give every character below 0x10000. */
  lemma {:induction false} FourDigits(c: char)
    requires c as int < 0x10000
    ensures var n := c as int;
            Hex4([HexDigit(n / 4096), HexDigit(n / 256 % 16), HexDigit(n / 16 % 16), HexDigit(n % 16)]) == Some(c)
  {
    hide HexDigit, HexValue;
    var n := c as int;
    HexRead(n / 4096);
    HexRead(n / 256 % 16);
    HexRead(n / 16 % 16);
    HexRead(n % 16);
    Nibbles(n);
    assert n as char == c;
  }

  lemma Nibbles(n: nat)
    ensures n == n / 4096 * 4096 + n / 256 % 16 * 256 + n / 16 % 16 * 16 + n % 16
  {
    assert n == n / 16 * 16 + n % 16 && n / 16 == n / 256 * 16 + n / 16 % 16;
    assert n / 256 == n / 4096 * 16 + n / 256 % 16;
  }

  /** Numbers, `true`, `false` and `null` are written with letters, digits, signs and points. */
  lemma WordsAre(c: char)
    ensures IsWord(c) <==>
              var n := c as int; 48 <= n <= 57 || 65 <= n <= 90 || 97 <= n <= 122 || n == 43 || n == 45 || n == 46
  {
  }

  /** Every string comes back. */
  lemma {:induction false} ReadQuoted(s: string, rest: string)
    ensures ReadString(EncodeChars(s) + "\"" + rest) == Some((s, rest))
  {
    var t := EncodeChars(s) + "\"" + rest;
    if s == [] {
      assert t == "\"" + rest;
    } else {
      var after := EncodeChars(s[1..]) + "\"" + rest;
      ReadEncodedChar(s[0], after);
      assert t == EncodeChar(s[0]) + after;
      ReadQuoted(s[1..], rest);
      assert [s[0]] + s[1..] == s;
    }
  }

  predicate GoodWord(w: string) { w != [] && forall i :: 0 <= i < |w| ==> IsWord(w[i]) }

  predicate WellFormed(v: Value) {
    match v
    case Str(_) => true
    case Atom(w) => GoodWord(w)
    case Arr(xs) => forall i :: 0 <= i < |xs| ==> WellFormed(xs[i])
    case Obj(ms) => forall i :: 0 <= i < |ms| ==> WellFormed(ms[i].value)
  }

  function Letters(w: string): seq<Token> { seq(|w|, i requires 0 <= i < |w| => Plain(w[i])) }

  function Tokens(v: Value): seq<Token>
    decreases v, 1, 0
  {
    match v
    case Str(s) => [Chars(s)]
    case Atom(w) => Letters(w)
    case Arr(_) => [Plain('[')] + ItemTokens(v, 0)
    case Obj(_) => [Plain('{')] + MemberTokens(v, 0)
  }

  function ItemTokens(v: Value, i: nat): seq<Token>
    requires v.Arr? && i <= |v.items|
    decreases v, 0, |v.items| - i
  {
    if i == |v.items| then [Plain(']')]
    else (if i == 0 then [] else [Plain(',')]) + Tokens(v.items[i]) + ItemTokens(v, i + 1)
  }

  function MemberTokens(v: Value, i: nat): seq<Token>
    requires v.Obj? && i <= |v.members|
    decreases v, 0, |v.members| - i
  {
    if i == |v.members| then [Plain('}')]
    else
      var m := v.members[i];
      (if i == 0 then [] else [Plain(',')]) + [Chars(m.name), Plain(':')] + Tokens(m.value) + MemberTokens(v, i + 1)
  }

  /** `t` reads as `ts`, whatever follows. */
  ghost predicate Reads(t: string, ts: seq<Token>) {
    forall rest {:trigger Lex(t + rest)} :: Lex(rest).Some? ==> Lex(t + rest) == Some(ts + Lex(rest).value)
  }

  lemma {:induction false} ReadsBoth(a: string, x: seq<Token>, b: string, y: seq<Token>)
    requires Reads(a, x) && Reads(b, y)
    ensures Reads(a + b, x + y)
  {
    hide Lex;
    forall rest | Lex(rest).Some? ensures Lex(a + b + rest) == Some(x + y + Lex(rest).value) {
      assert Lex(b + rest) == Some(y + Lex(rest).value);
      assert a + b + rest == a + (b + rest);
      assert Lex(a + (b + rest)) == Some(x + (y + Lex(rest).value));
      assert x + (y + Lex(rest).value) == x + y + Lex(rest).value;
    }
  }

  lemma {:induction false} ReadsNothing()
    ensures Reads("", [])
  {
    hide Lex;
    forall rest | Lex(rest).Some? ensures Lex("" + rest) == Some([] + Lex(rest).value) {
      assert "" + rest == rest && [] + Lex(rest).value == Lex(rest).value;
    }
  }

  lemma ReadsPlain(c: char)
    requires IsPlain(c)
    ensures Reads([c], [Plain(c)])
  {
  }

  lemma {:induction false} LexQuoted(s: string, rest: string)
    requires Lex(rest).Some?
    ensures Lex(Quoted(s) + rest) == Some([Chars(s)] + Lex(rest).value)
  {
    hide EncodeChars, ReadString, ReadChar;
    ReadQuoted(s, rest);
    var t := Quoted(s) + rest;
    assert t[0] == '"' && t[1..] == EncodeChars(s) + "\"" + rest;
  }

  lemma {:induction false} ReadsString(s: string)
    ensures Reads(Quoted(s), [Chars(s)])
  {
    hide Lex, Quoted;
    forall rest | Lex(rest).Some? ensures Lex(Quoted(s) + rest) == Some([Chars(s)] + Lex(rest).value) {
      LexQuoted(s, rest);
    }
  }

  lemma {:induction false} ReadsWord(w: string)
    requires forall i :: 0 <= i < |w| ==> IsWord(w[i])
    ensures Reads(w, Letters(w))
  {
    if w == [] {
      ReadsNothing();
    } else {
      ReadsPlain(w[0]);
      ReadsWord(w[1..]);
      ReadsBoth([w[0]], [Plain(w[0])], w[1..], Letters(w[1..]));
      assert [w[0]] + w[1..] == w;
      assert [Plain(w[0])] + Letters(w[1..]) == Letters(w);
    }
  }

  lemma {:induction false} ReadsValue(v: Value)
    requires WellFormed(v)
    ensures Reads(Encode(v), Tokens(v))
    decreases v, 1, 0
  {
    hide Reads;
    match v
    case Str(s) => ReadsString(s);
    case Atom(w) => ReadsWord(w);
    case Arr(_) =>
      ReadsItems(v, 0);
      ReadsPlain('[');
      ReadsBoth("[", [Plain('[')], EncodeItems(v, 0), ItemTokens(v, 0));
    case Obj(_) =>
      ReadsMembers(v, 0);
      ReadsPlain('{');
      ReadsBoth("{", [Plain('{')], EncodeMembers(v, 0), MemberTokens(v, 0));
  }

  lemma {:induction false} ReadsComma(i: nat)
    ensures Reads(if i == 0 then "" else ",", if i == 0 then [] else [Plain(',')])
  {
    if i == 0 { ReadsNothing(); } else { ReadsPlain(','); }
  }

  lemma {:induction false} ReadsItems(v: Value, i: nat)
    requires v.Arr? && i <= |v.items| && WellFormed(v)
    ensures Reads(EncodeItems(v, i), ItemTokens(v, i))
    decreases v, 0, |v.items| - i
  {
    hide Reads;
    if i == |v.items| {
      ReadsPlain(']');
    } else {
      var a, x := if i == 0 then "" else ",", if i == 0 then [] else [Plain(',')];
      ReadsComma(i);
      ReadsValue(v.items[i]);
      ReadsItems(v, i + 1);
      ReadsBoth(a, x, Encode(v.items[i]), Tokens(v.items[i]));
      ReadsBoth(a + Encode(v.items[i]), x + Tokens(v.items[i]), EncodeItems(v, i + 1), ItemTokens(v, i + 1));
    }
  }

  lemma {:induction false} ReadsName(name: string)
    ensures Reads(Quoted(name) + ":", [Chars(name), Plain(':')])
  {
    hide Reads;
    ReadsString(name);
    ReadsPlain(':');
    ReadsBoth(Quoted(name), [Chars(name)], ":", [Plain(':')]);
    assert [Chars(name)] + [Plain(':')] == [Chars(name), Plain(':')];
  }

  lemma {:induction false} ReadsMembers(v: Value, i: nat)
    requires v.Obj? && i <= |v.members| && WellFormed(v)
    ensures Reads(EncodeMembers(v, i), MemberTokens(v, i))
    decreases v, 0, |v.members| - i
  {
    hide Reads;
    if i == |v.members| {
      ReadsPlain('}');
    } else {
      var m := v.members[i];
      var a, x := if i == 0 then "" else ",", if i == 0 then [] else [Plain(',')];
      var b, y := Quoted(m.name) + ":", [Chars(m.name), Plain(':')];
      ReadsComma(i);
      ReadsName(m.name);
      ReadsValue(m.value);
      ReadsMembers(v, i + 1);
      ReadsBoth(a, x, b, y);
      ReadsBoth(a + b, x + y, Encode(m.value), Tokens(m.value));
      ReadsBoth(a + b + Encode(m.value), x + y + Tokens(m.value), EncodeMembers(v, i + 1), MemberTokens(v, i + 1));
    }
  }

  /** The escaped text of a value reads as that value's tokens. */
  lemma {:induction false} SafeJsonReads(v: Value)
    requires WellFormed(v)
    ensures Lex(Safe(Encode(v))) == Some(Tokens(v))
  {
    ReadsValue(v);
    assert Lex(Encode(v) + "") == Some(Tokens(v) + Lex("").value);
    assert Encode(v) + "" == Encode(v) && Tokens(v) + [] == Tokens(v);
    SafeKeepsTokens(Encode(v));
  }

  /* ---- the tokens name the value ---- */

  predicate StartsWord(ts: seq<Token>) { ts != [] && ts[0].Plain? && IsWord(ts[0].c) }

  lemma LettersStart(a: string, r: seq<Token>)
    requires forall i :: 0 <= i < |a| ==> IsWord(a[i])
    ensures a == [] ==> Letters(a) + r == r
    ensures a != [] ==> StartsWord(Letters(a) + r) && (Letters(a) + r)[0] == Plain(a[0])
                        && (Letters(a) + r)[1..] == Letters(a[1..]) + r
  {
  }

  lemma {:induction false} WordsDetermine(a: string, b: string, r: seq<Token>, s: seq<Token>)
    requires (forall i :: 0 <= i < |a| ==> IsWord(a[i])) && (forall i :: 0 <= i < |b| ==> IsWord(b[i]))
    requires !StartsWord(r) && !StartsWord(s) && Letters(a) + r == Letters(b) + s
    ensures a == b && r == s
  {
    LettersStart(a, r);
    LettersStart(b, s);
    if a != [] && b != [] {
      WordsDetermine(a[1..], b[1..], r, s);
      assert [a[0]] + a[1..] == a && [b[0]] + b[1..] == b;
    }
  }

  lemma FirstToken(v: Value)
    requires WellFormed(v)
    ensures var ts := Tokens(v);
            && ts != []
            && (v.Str? <==> ts[0].Chars?) && (v.Atom? <==> StartsWord(ts))
            && (v.Arr? <==> ts[0] == Plain('[')) && (v.Obj? <==> ts[0] == Plain('{'))
  {
  }

  /** No two values have the same tokens, even with something behind them. */
  lemma {:induction false} TokensDetermine(v: Value, w: Value, r: seq<Token>, s: seq<Token>)
    requires WellFormed(v) && WellFormed(w) && !StartsWord(r) && !StartsWord(s) && Tokens(v) + r == Tokens(w) + s
    ensures v == w && r == s
    decreases v, 1, 0
  {
    FirstToken(v);
    FirstToken(w);
    assert Tokens(v)[0] == (Tokens(v) + r)[0] == (Tokens(w) + s)[0] == Tokens(w)[0];
    match v
    case Str(_) =>
      assert r == (Tokens(v) + r)[1..] && s == (Tokens(w) + s)[1..];
    case Atom(a) =>
      WordsDetermine(a, w.word, r, s);
    case Arr(_) =>
      assert ItemTokens(v, 0) + r == (Tokens(v) + r)[1..] && ItemTokens(w, 0) + s == (Tokens(w) + s)[1..];
      ItemsDetermine(v, w, 0, r, s);
    case Obj(_) =>
      assert MemberTokens(v, 0) + r == (Tokens(v) + r)[1..] && MemberTokens(w, 0) + s == (Tokens(w) + s)[1..];
      MembersDetermine(v, w, 0, r, s);
  }

  /** The items' tokens from `i` on: the end, or a comma (but for the first), one item, and the rest. */
  lemma ItemSplit(v: Value, i: nat, r: seq<Token>)
    requires v.Arr? && i <= |v.items| && WellFormed(v)
    ensures var all := ItemTokens(v, i) + r;
            && all != []
            && (all[0] == Plain(']') <==> i == |v.items|)
            && (i == |v.items| ==> all[1..] == r)
            && (i > 0 ==> !StartsWord(all))
            && (i < |v.items| ==>
                  all[if i == 0 then 0 else 1..] == Tokens(v.items[i]) + (ItemTokens(v, i + 1) + r)
                      && WellFormed(v.items[i]))
  {
    if i < |v.items| { FirstToken(v.items[i]); }
  }

  lemma {:induction false} ItemsDetermine(v: Value, w: Value, i: nat, r: seq<Token>, s: seq<Token>)
    requires v.Arr? && w.Arr? && i <= |v.items| && i <= |w.items| && v.items[..i] == w.items[..i]
    requires WellFormed(v) && WellFormed(w) && !StartsWord(r) && !StartsWord(s)
    requires ItemTokens(v, i) + r == ItemTokens(w, i) + s
    ensures v == w && r == s
    decreases v, 0, |v.items| - i
  {
    hide Tokens, ItemTokens, WellFormed, StartsWord;
    ItemSplit(v, i, r);
    ItemSplit(w, i, s);
    if i == |v.items| {
      assert v.items == v.items[..i] && w.items == w.items[..i];
    } else {
      ItemSplit(v, i + 1, r);
      ItemSplit(w, i + 1, s);
      TokensDetermine(v.items[i], w.items[i], ItemTokens(v, i + 1) + r, ItemTokens(w, i + 1) + s);
      assert v.items[..i + 1] == v.items[..i] + [v.items[i]] && w.items[..i + 1] == w.items[..i] + [w.items[i]];
      ItemsDetermine(v, w, i + 1, r, s);
    }
  }

  lemma MemberSplit(v: Value, i: nat, r: seq<Token>)
    requires v.Obj? && i <= |v.members| && WellFormed(v)
    ensures var all := MemberTokens(v, i) + r;
            var skip := if i == 0 then 0 else 1;
            && all != []
            && (all[0] == Plain('}') <==> i == |v.members|)
            && (i == |v.members| ==> all[1..] == r)
            && (i > 0 ==> !StartsWord(all))
            && (i < |v.members| ==>
                  && |all| >= skip + 2 && all[skip] == Chars(v.members[i].name)
                  && all[skip + 2..] == Tokens(v.members[i].value) + (MemberTokens(v, i + 1) + r)
                  && WellFormed(v.members[i].value))
  {
  }

  lemma {:induction false} MembersDetermine(v: Value, w: Value, i: nat, r: seq<Token>, s: seq<Token>)
    requires v.Obj? && w.Obj? && i <= |v.members| && i <= |w.members| && v.members[..i] == w.members[..i]
    requires WellFormed(v) && WellFormed(w) && !StartsWord(r) && !StartsWord(s)
    requires MemberTokens(v, i) + r == MemberTokens(w, i) + s
    ensures v == w && r == s
    decreases v, 0, |v.members| - i
  {
    hide Tokens, MemberTokens, WellFormed, StartsWord;
    MemberSplit(v, i, r);
    MemberSplit(w, i, s);
    if i == |v.members| {
      assert v.members == v.members[..i] && w.members == w.members[..i];
    } else {
      var m, n := v.members[i], w.members[i];
      MemberSplit(v, i + 1, r);
      MemberSplit(w, i + 1, s);
      TokensDetermine(m.value, n.value, MemberTokens(v, i + 1) + r, MemberTokens(w, i + 1) + s);
      assert v.members[..i + 1] == v.members[..i] + [m] && w.members[..i + 1] == w.members[..i] + [n];
      MembersDetermine(v, w, i + 1, r, s);
    }
  }

  /** Decoding has one answer: a value whose tokens the escaped text has is the value that was written. */
  lemma {:induction false} SafeJsonDecodes(v: Value, w: Value)
    requires WellFormed(v) && WellFormed(w)
    ensures Lex(Safe(Encode(v))) == Some(Tokens(w)) <==> v == w
  {
    SafeJsonReads(v);
    if Tokens(v) == Tokens(w) {
      TokensDetermine(v, w, [], []);
    }
  }
}
