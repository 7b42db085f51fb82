/** The size bound on every capability result (src/agent_runtime/gateway.py, `GatewayOutputPolicy.normalize`). */
module Normalize {
  import opened Text
  import opened JsonText

  datatype Policy = Policy(inlineBytes: int, artifactBytes: int) {
    predicate Valid() { inlineBytes >= 256 && artifactBytes >= inlineBytes }
  }

  datatype Outcome = Result(value: Value) | TooLarge

  function Size(v: Value): nat { Bytes(Encode(v)) }

  /** What stands for a result that is too long: its length, a digest, and the first part of its text, if any. */
  function Wrapped(stored: bool, digest: string, length: nat, prefix: string): Value {
    Obj([Member(if stored then "artifact_sha256" else "content_sha256", Str(digest))]
        + (if prefix == "" then [] else [Member("json_prefix", Str(prefix))])
        + [Member("redacted_bytes", Atom(Decimal(length))), Member("truncated", Atom("true"))])
  }

  /** It tells the digest under a name that says what it is of, the length, that it was cut, and any prefix. */
  lemma WrappedTells(stored: bool, digest: string, length: nat, prefix: string, m: Member)
    ensures var v := Wrapped(stored, digest, length, prefix);
            && v.Obj?
            && (m in v.members <==>
                || (stored && m == Member("artifact_sha256", Str(digest)))
                || (!stored && m == Member("content_sha256", Str(digest)))
                || (prefix != "" && m == Member("json_prefix", Str(prefix)))
                || m == Member("redacted_bytes", Atom(Decimal(length))) || m == Member("truncated", Atom("true")))
            && |v.members| == if prefix == "" then 3 else 4
  {
  }

  /* ---- sizes ---- */

  lemma {:induction false} EncodeCharsSplit(a: string, b: string)
    ensures EncodeChars(a + b) == EncodeChars(a) + EncodeChars(b)
  {
    if a == [] {
      assert a + b == b;
    } else {
      assert (a + b)[1..] == a[1..] + b;
      EncodeCharsSplit(a[1..], b);
    }
  }

  lemma BytesOfOne(c: char)
    requires c as int < 0x80
    ensures Bytes([c]) == 1
  {
  }

  lemma {:induction false} BytesOfQuoted(s: string)
    ensures Bytes(Quoted(s)) == 2 + Bytes(EncodeChars(s))
  {
    BytesOfOne('"');
    BytesSplit("\"" + EncodeChars(s), "\"");
    BytesSplit("\"", EncodeChars(s));
  }

  predicate Ordinary(s: string) { forall i :: 0 <= i < |s| ==> IsWord(s[i]) || s[i] == '_' }

  lemma {:induction false} BytesOfOrdinary(s: string)
    requires Ordinary(s)
    ensures EncodeChars(s) == s && Bytes(s) == |s|
  {
    if s != [] {
      BytesOfOrdinary(s[1..]);
    }
  }

  /** One member's part of an object's text, with the comma before all but the first. */
  lemma {:induction false} MemberBytes(v: Value, i: nat)
    requires v.Obj? && i < |v.members|
    ensures Bytes(EncodeMembers(v, i)) ==
            (if i == 0 then 0 else 1) + Bytes(Quoted(v.members[i].name)) + 1 + Size(v.members[i].value)
            + Bytes(EncodeMembers(v, i + 1))
  {
    hide Bytes, Quoted;
    var m := v.members[i];
    var comma := if i == 0 then "" else ",";
    BytesOfOne(',');
    BytesOfOne(':');
    assert Bytes("") == 0 by { NoBytes(); }
    BytesSplit(comma + (Quoted(m.name) + ":") + Encode(m.value), EncodeMembers(v, i + 1));
    BytesSplit(comma + (Quoted(m.name) + ":"), Encode(m.value));
    BytesSplit(comma, Quoted(m.name) + ":");
    BytesSplit(Quoted(m.name), ":");
  }

  lemma NoBytes()
    ensures Bytes("") == 0
  {
  }

  /** All but the digest, the digits and the prefix. */
  function Frame(stored: bool): nat { if stored then 55 else 54 }

  lemma Names()
    ensures Ordinary("artifact_sha256") && Ordinary("content_sha256") && Ordinary("json_prefix")
    ensures Ordinary("redacted_bytes") && Ordinary("truncated") && Ordinary("true")
  {
  }

  lemma {:induction false} NameBytes(s: string)
    requires Ordinary(s)
    ensures Bytes(Quoted(s)) == |s| + 2 && Bytes(s) == |s|
  {
    BytesOfOrdinary(s);
    BytesOfQuoted(s);
  }

  lemma {:induction false} WrappedBytes(stored: bool, digest: string, length: nat, prefix: string)
    ensures Size(Wrapped(stored, digest, length, prefix)) ==
            Frame(stored) + Bytes(Quoted(digest)) + |Decimal(length)|
            + if prefix == "" then 0 else 15 + Bytes(Quoted(prefix))
  {
    hide Bytes, Quoted, EncodeMembers, Ordinary;
    Names();
    var v := Wrapped(stored, digest, length, prefix);
    NameBytes(v.members[0].name);
    NameBytes("json_prefix");
    NameBytes("redacted_bytes");
    NameBytes("truncated");
    NameBytes("true");
    NameBytes(Decimal(length)) by { DigitsAreOrdinary(length); }
    BytesOfOne('{');
    BytesOfOne('}');
    BytesSplit("{", EncodeMembers(v, 0));
    MemberBytes(v, 0);
    MemberBytes(v, 1);
    MemberBytes(v, 2);
    if prefix != "" { MemberBytes(v, 3); }
    assert EncodeMembers(v, |v.members|) == "}" by { MembersEnd(v); }
  }

  lemma DigitsAreOrdinary(n: nat)
    ensures Ordinary(Decimal(n))
  {
  }

  lemma MembersEnd(v: Value)
    requires v.Obj?
    ensures EncodeMembers(v, |v.members|) == "}"
  {
  }

  /** A longer prefix takes more room. */
  lemma {:induction false} PrefixesGrow(stored: bool, digest: string, length: nat, text: string, m: nat, n: nat)
    requires m <= n <= |text|
    ensures Size(Wrapped(stored, digest, length, text[..m])) <= Size(Wrapped(stored, digest, length, text[..n]))
  {
    hide Bytes, EncodeChars, Size, Wrapped;
    WrappedBytes(stored, digest, length, text[..m]);
    WrappedBytes(stored, digest, length, text[..n]);
    assert text[..n] == text[..m] + text[m..n];
    EncodeCharsSplit(text[..m], text[m..n]);
    BytesSplit(EncodeChars(text[..m]), EncodeChars(text[m..n]));
    BytesOfQuoted(text[..m]);
    BytesOfQuoted(text[..n]);
  }

  /* ---- normalize ---- */

  /** `redacted` is what redaction let through, `digest` its content hash; `artifacts` says whether there is a store
      for long results. A result that is short enough is returned as it is. Any other is wrapped with the longest
      prefix of its text that leaves the whole within bounds; nothing is returned only when not even the wrapping
      without a prefix is. */
  method Cut(p: Policy, redacted: Value, artifacts: bool, digest: string) returns (r: Outcome, stored: bool)
    requires p.Valid()
    ensures var text := Encode(redacted);
            && (stored <==> artifacts && p.inlineBytes < Bytes(text) <= p.artifactBytes)
            && (Bytes(text) <= p.inlineBytes ==> r == Result(redacted))
            && (Bytes(text) > p.inlineBytes ==>
                  if Size(Wrapped(stored, digest, Bytes(text), "")) > p.inlineBytes then r == TooLarge
                  else exists n :: 0 <= n <= |text| && r == Result(Wrapped(stored, digest, Bytes(text), text[..n]))
                         && Size(Wrapped(stored, digest, Bytes(text), text[..n])) <= p.inlineBytes
                         && forall m :: n < m <= |text| ==>
                              Size(Wrapped(stored, digest, Bytes(text), text[..m])) > p.inlineBytes)
    ensures r.Result? ==> Size(r.value) <= p.inlineBytes
  {
    hide Wrapped, Encode, Bytes;
    var text := Encode(redacted);
    stored := false;
    if Bytes(text) <= p.inlineBytes { return Result(redacted), false; }
    stored := artifacts && Bytes(text) <= p.artifactBytes;
    var low, high := 0, |text|;
    while low < high
      invariant 0 <= low <= high <= |text|
      invariant low > 0 ==> Size(Wrapped(stored, digest, Bytes(text), text[..low])) <= p.inlineBytes
      invariant forall m :: high < m <= |text| ==> Size(Wrapped(stored, digest, Bytes(text), text[..m])) > p.inlineBytes
    {
      var middle := (low + high + 1) / 2;
      if Size(Wrapped(stored, digest, Bytes(text), text[..middle])) <= p.inlineBytes {
        low := middle;
      } else {
        forall m | middle < m <= |text| ensures Size(Wrapped(stored, digest, Bytes(text), text[..m])) > p.inlineBytes {
          PrefixesGrow(stored, digest, Bytes(text), text, middle, m);
        }
        high := middle - 1;
      }
    }
    assert text[..0] == "";
    PrefixesGrow(stored, digest, Bytes(text), text, 0, low);
    var result := Wrapped(stored, digest, Bytes(text), if low > 0 then text[..low] else "");
    if Size(result) > p.inlineBytes { return TooLarge, stored; }
    return Result(result), stored;
  }

  /* ---- the floor of 256 bytes ---- */

  function Power10(k: nat): nat { if k == 0 then 1 else 10 * Power10(k - 1) }

  lemma {:induction false} DecimalLength(n: nat, k: nat)
    requires k >= 1
    ensures |Decimal(n)| <= k <==> n < Power10(k)
  {
    if n >= 10 {
      if k == 1 {
        assert |Decimal(n / 10)| > 0;
      } else {
        DecimalLength(n / 10, k - 1);
      }
    } else {
      SmallPower(k);
    }
  }

  lemma {:induction false} SmallPower(k: nat)
    requires k >= 1
    ensures Power10(k) >= 10
  {
    if k > 1 { SmallPower(k - 1); }
  }

  /** With a digest of 64 characters the wrapping by itself takes at most 121 bytes and the digits of the length: the
      floor of 256 is never too small for a result of fewer than 10 to the power of 135 bytes. */
  lemma {:induction false} FloorSuffices(p: Policy, stored: bool, digest: string, length: nat)
    requires p.Valid() && Ordinary(digest) && |digest| == 64 && length < Power10(135)
    ensures Size(Wrapped(stored, digest, length, "")) <= p.inlineBytes
  {
    hide Size, Wrapped, Bytes, Quoted;
    WrappedBytes(stored, digest, length, "");
    NameBytes(digest);
    DecimalLength(length, 135);
  }
}
