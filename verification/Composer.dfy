/** Packing optional context into a bounded prompt (src/agent_runtime/context.py, `ContextComposer.compose`). */
module Composer {
  import opened Text
  import opened JsonText

  const OPEN := "<UNTRUSTED_CONTEXT_JSON>"
  const CLOSE := "</UNTRUSTED_CONTEXT_JSON>"
  const MAX_ITEMS := 128

  datatype Kind = Evidence | Knowledge

  /** Repository evidence or a knowledge page. */
  datatype Source = Source(id: string, content: string, tags: set<string>)

  datatype Item = Item(overlap: nat, kind: Kind, id: string, content: string)

  /** The runtime's own instruction, which holds no `<`, and the two budgets. */
  datatype Limits = Limits(instruction: string, maxBytes: nat, maxTokens: nat)

  datatype Error = TooMany | Duplicate | Stale | OverBudget

  datatype Result = Composed(text: string) | Refused(error: Error)

  /* ---- the text ---- */

  function ItemValue(x: Item): Value { Obj([Member("content", Str(x.content)), Member("id", Str(x.id))]) }

  function Items(xs: seq<Item>): Value { Arr(seq(|xs|, i requires 0 <= i < |xs| => ItemValue(xs[i]))) }

  function Context(packet: Value, ledger: Value, evidence: seq<Item>, knowledge: seq<Item>): Value {
    Obj([Member("continuity", ledger), Member("evidence", Items(evidence)), Member("knowledge", Items(knowledge)),
         Member("resume_packet", packet)])
  }

  function Envelope(instruction: string, v: Value): string { instruction + OPEN + Safe(Encode(v)) + CLOSE }

  /** Tokens are counted as bytes. */
  predicate Fits(l: Limits, t: string) { Bytes(t) <= l.maxBytes && Bytes(t) <= l.maxTokens }

  /* ---- order ---- */

  predicate Less(a: string, b: string) {
    if b == [] then false
    else if a == [] then true
    else a[0] < b[0] || (a[0] == b[0] && Less(a[1..], b[1..]))
  }

  lemma {:induction false} LessIsTotal(a: string, b: string)
    ensures Less(a, b) || Less(b, a) || a == b
    ensures !(Less(a, b) && Less(b, a)) && !(Less(a, b) && a == b)
  {
    if a != [] && b != [] {
      LessIsTotal(a[1..], b[1..]);
      assert [a[0]] + a[1..] == a && [b[0]] + b[1..] == b;
    }
  }

  lemma {:induction false} LessTrans(a: string, b: string, c: string)
    requires Less(a, b) && Less(b, c)
    ensures Less(a, c)
  {
    if a != [] && b != [] && c != [] && a[0] == b[0] == c[0] {
      LessTrans(a[1..], b[1..], c[1..]);
    }
  }

  /** Larger overlap first, evidence before knowledge, then by id: ids are unique within a kind. */
  predicate Before(a: Item, b: Item) {
    || a.overlap > b.overlap
    || (a.overlap == b.overlap && a.kind.Evidence? && b.kind.Knowledge?)
    || (a.overlap == b.overlap && a.kind == b.kind && Less(a.id, b.id))
  }

  predicate Same(a: Item, b: Item) { a.kind == b.kind && a.id == b.id }

  lemma BeforeIsTotal(a: Item, b: Item)
    ensures Same(a, b) || Before(a, b) || Before(b, a)
    ensures !(Before(a, b) && Before(b, a)) && !Before(a, a)
  {
    LessIsTotal(a.id, b.id);
    LessIsTotal(a.id, a.id);
  }

  lemma BeforeTrans(a: Item, b: Item, c: Item)
    requires Before(a, b) && Before(b, c)
    ensures Before(a, c)
  {
    if Less(a.id, b.id) && Less(b.id, c.id) {
      LessTrans(a.id, b.id, c.id);
    }
  }

  predicate AllDistinct(xs: seq<Item>) { forall i, j :: 0 <= i < j < |xs| ==> !Same(xs[i], xs[j]) }

  predicate InOrder(xs: seq<Item>) { forall i, j :: 0 <= i < j < |xs| ==> Before(xs[i], xs[j]) }

  function Insert(x: Item, xs: seq<Item>): seq<Item> {
    if xs == [] || Before(x, xs[0]) then [x] + xs else [xs[0]] + Insert(x, xs[1..])
  }

  /** `sorted(ranked)`. */
  function Sort(xs: seq<Item>): seq<Item> { if xs == [] then [] else Insert(xs[0], Sort(xs[1..])) }

  lemma {:induction false} InsertKeeps(x: Item, xs: seq<Item>)
    ensures multiset(Insert(x, xs)) == multiset(xs) + multiset{x}
  {
    if xs != [] && !Before(x, xs[0]) {
      InsertKeeps(x, xs[1..]);
      assert xs == [xs[0]] + xs[1..];
    }
  }

  lemma {:induction false} InsertOrders(x: Item, xs: seq<Item>)
    requires InOrder(xs) && forall i :: 0 <= i < |xs| ==> !Same(x, xs[i])
    ensures InOrder(Insert(x, xs))
  {
    hide Before, Same;
    if xs != [] {
      BeforeIsTotal(x, xs[0]);
      if Before(x, xs[0]) {
        forall j | 0 <= j < |xs| ensures Before(x, xs[j]) {
          if j > 0 { BeforeTrans(x, xs[0], xs[j]); }
        }
      } else {
        InsertOrders(x, xs[1..]);
        InsertKeeps(x, xs[1..]);
        forall j | 0 <= j < |Insert(x, xs[1..])| ensures Before(xs[0], Insert(x, xs[1..])[j]) {
          assert Insert(x, xs[1..])[j] in multiset(Insert(x, xs[1..]));
        }
      }
    }
  }

  lemma {:induction false} SortKeeps(xs: seq<Item>)
    ensures multiset(Sort(xs)) == multiset(xs)
  {
    if xs != [] {
      SortKeeps(xs[1..]);
      InsertKeeps(xs[0], Sort(xs[1..]));
      assert xs == [xs[0]] + xs[1..];
    }
  }

  lemma {:induction false} SortOrders(xs: seq<Item>)
    requires AllDistinct(xs)
    ensures InOrder(Sort(xs))
  {
    hide Before, Same;
    if xs != [] {
      SortOrders(xs[1..]);
      SortKeeps(xs[1..]);
      forall i | 0 <= i < |Sort(xs[1..])| ensures !Same(xs[0], Sort(xs[1..])[i]) {
        assert Sort(xs[1..])[i] in multiset(xs[1..]);
        var j :| 0 <= j < |xs[1..]| && xs[1..][j] == Sort(xs[1..])[i];
        assert xs[j + 1] == xs[1..][j];
      }
      InsertOrders(xs[0], Sort(xs[1..]));
    }
  }

  lemma {:induction false} FirstIsShared(a: seq<Item>, b: seq<Item>)
    requires InOrder(a) && InOrder(b) && multiset(a) == multiset(b) && a != [] && b != []
    ensures a[0] == b[0]
  {
    hide Before;
    assert a[0] in multiset(b) && b[0] in multiset(a);
    var i :| 0 <= i < |b| && b[i] == a[0];
    var j :| 0 <= j < |a| && a[j] == b[0];
    BeforeIsTotal(a[0], b[0]);
  }

  lemma FirstTakenOff(a: seq<Item>)
    requires a != []
    ensures multiset(a[1..]) == multiset(a) - multiset{a[0]}
  {
    assert a == [a[0]] + a[1..];
  }

  /** Two ordered sequences of the same items are the same sequence. */
  lemma {:induction false} OrderIsUnique(a: seq<Item>, b: seq<Item>)
    requires InOrder(a) && InOrder(b) && multiset(a) == multiset(b)
    ensures a == b
  {
    hide Before;
    assert |multiset(a)| == |a| && |multiset(b)| == |b|;
    if a != [] {
      FirstIsShared(a, b);
      FirstTakenOff(a);
      FirstTakenOff(b);
      OrderIsUnique(a[1..], b[1..]);
      assert a == [a[0]] + a[1..] && b == [b[0]] + b[1..];
    }
  }

  /* ---- which items, and how many ---- */

  function RankedOne(s: Source, kind: Kind, tags: set<string>): seq<Item> {
    var relevant := tags * s.tags != {} || (kind.Evidence? && (tags == {} || s.tags == {}));
    if relevant then [Item(|tags * s.tags|, kind, s.id, s.content)] else []
  }

  function Ranked(sources: seq<Source>, kind: Kind, tags: set<string>): seq<Item> {
    if sources == [] then [] else RankedOne(sources[0], kind, tags) + Ranked(sources[1..], kind, tags)
  }

  predicate Unique(sources: seq<Source>) { forall i, j :: 0 <= i < j < |sources| ==> sources[i].id != sources[j].id }

  /** The two lists as the packing loop leaves them. */
  datatype Lists = Lists(evidence: seq<Item>, knowledge: seq<Item>)

  function With(s: Lists, x: Item): Lists {
    if x.kind.Evidence? then s.(evidence := s.evidence + [x]) else s.(knowledge := s.knowledge + [x])
  }

  function Shown(l: Limits, packet: Value, ledger: Value, s: Lists): string {
    Envelope(l.instruction, Context(packet, ledger, s.evidence, s.knowledge))
  }

  /** Each item in turn, if what is there with it still fits. */
  function Pack(l: Limits, packet: Value, ledger: Value, items: seq<Item>): Lists {
    if items == [] then Lists([], [])
    else
      var before := Pack(l, packet, ledger, items[..|items| - 1]);
      var x := items[|items| - 1];
      if Fits(l, Shown(l, packet, ledger, With(before, x))) then With(before, x) else before
  }

  function Candidates(evidence: seq<Source>, pages: seq<Source>, tags: set<string>): seq<Item> {
    Sort(Ranked(evidence, Evidence, tags) + Ranked(pages, Knowledge, tags))
  }

  function ComposedText(l: Limits, packet: Value, ledger: Value, current: bool,
                        evidence: seq<Source>, pages: seq<Source>, tags: set<string>): Result {
    if |evidence| > MAX_ITEMS || |pages| > MAX_ITEMS then Refused(TooMany)
    else if !Unique(evidence) || !Unique(pages) then Refused(Duplicate)
    else if !current then Refused(Stale)
    else if !Fits(l, Shown(l, packet, ledger, Lists([], []))) then Refused(OverBudget)
    else Composed(Shown(l, packet, ledger, Pack(l, packet, ledger, Candidates(evidence, pages, tags))))
  }

  /** `compose`; `current` says whether packet and ledger still match the store. */
  method Compose(l: Limits, packet: Value, ledger: Value, current: bool,
                 evidence: seq<Source>, pages: seq<Source>, tags: set<string>) returns (r: Result)
    ensures r == ComposedText(l, packet, ledger, current, evidence, pages, tags)
  {
    hide Shown, Fits, Candidates;
    if |evidence| > MAX_ITEMS || |pages| > MAX_ITEMS { return Refused(TooMany); }
    if !Unique(evidence) || !Unique(pages) { return Refused(Duplicate); }
    if !current { return Refused(Stale); }
    var value := Lists([], []);
    var selected := Shown(l, packet, ledger, value);
    if !Fits(l, selected) { return Refused(OverBudget); }
    var ranked := Candidates(evidence, pages, tags);
    for i := 0 to |ranked|
      invariant value == Pack(l, packet, ledger, ranked[..i]) && selected == Shown(l, packet, ledger, value)
    {
      assert ranked[..i + 1][..i] == ranked[..i] && ranked[..i + 1][i] == ranked[i];
      var candidate := Shown(l, packet, ledger, With(value, ranked[i]));
      if Fits(l, candidate) {
        value := With(value, ranked[i]);
        selected := candidate;
      }
    }
    assert ranked[..|ranked|] == ranked;
    return Composed(selected);
  }

  /* ---- sizes ---- */

  /** Bytes once escaped. */
  function Weight(t: string): nat { Bytes(Safe(t)) }

  lemma {:induction false} WeightSplit(a: string, b: string)
    ensures Weight(a + b) == Weight(a) + Weight(b)
  {
    hide Safe, Bytes;
    SafeSplit(a, b);
    BytesSplit(Safe(a), Safe(b));
  }

  /** Bytes of an array's inside from item `i` on. */
  function Cost(xs: seq<Item>, i: nat): nat
    requires i <= |xs|
    decreases |xs| - i
  {
    if i == |xs| then 0 else (if i == 0 then 0 else Weight(",")) + Weight(Encode(ItemValue(xs[i]))) + Cost(xs, i + 1)
  }

  lemma {:induction false} ItemsCost(xs: seq<Item>, i: nat)
    requires i <= |xs|
    ensures Weight(EncodeItems(Items(xs), i)) == Cost(xs, i) + Weight("]")
    decreases |xs| - i
  {
    hide Weight, ItemValue;
    if i < |xs| {
      ItemsCost(xs, i + 1);
      var v := Items(xs);
      var comma := if i == 0 then "" else ",";
      WeightSplit(comma + Encode(v.items[i]), EncodeItems(v, i + 1));
      WeightSplit(comma, Encode(v.items[i]));
      assert Weight("") == 0 by { NoWeight(); }
    }
  }

  lemma NoWeight()
    ensures Weight("") == 0
  {
  }

  lemma {:induction false} CostOfOneMore(xs: seq<Item>, x: Item, i: nat)
    requires i <= |xs|
    ensures Cost(xs + [x], i) ==
            Cost(xs, i) + (if xs == [] then 0 else Weight(",")) + Weight(Encode(ItemValue(x)))
    decreases |xs| - i
  {
    hide Weight, ItemValue, Encode;
    if i < |xs| {
      CostOfOneMore(xs, x, i + 1);
      assert (xs + [x])[i] == xs[i];
    } else {
      assert Cost(xs + [x], i + 1) == 0;
    }
  }

  /** All but the items of the two lists. */
  function Fixed(l: Limits, packet: Value, ledger: Value): nat {
    Bytes(l.instruction + OPEN) + Weight("{") + (Weight(Quoted("continuity") + ":") + Weight(Encode(ledger)))
      + (Weight(",") + Weight(Quoted("evidence") + ":") + Weight("[") + Weight("]"))
      + (Weight(",") + Weight(Quoted("knowledge") + ":") + Weight("[") + Weight("]"))
      + (Weight(",") + Weight(Quoted("resume_packet") + ":") + Weight(Encode(packet)))
      + Weight("}") + Bytes(CLOSE)
  }

  lemma {:induction false} MemberWeight(v: Value, i: nat)
    requires v.Obj? && i < |v.members|
    ensures Weight(EncodeMembers(v, i)) ==
            (if i == 0 then 0 else Weight(",")) + Weight(Quoted(v.members[i].name) + ":")
            + Weight(Encode(v.members[i].value)) + Weight(EncodeMembers(v, i + 1))
  {
    hide Weight, Quoted;
    var m := v.members[i];
    var comma := if i == 0 then "" else ",";
    WeightSplit(comma + (Quoted(m.name) + ":") + Encode(m.value), EncodeMembers(v, i + 1));
    WeightSplit(comma + (Quoted(m.name) + ":"), Encode(m.value));
    WeightSplit(comma, Quoted(m.name) + ":");
    assert Weight("") == 0 by { NoWeight(); }
  }

  lemma {:induction false} ArrayWeight(xs: seq<Item>)
    ensures Weight(Encode(Items(xs))) == Weight("[") + Cost(xs, 0) + Weight("]")
  {
    hide Weight, Cost;
    ItemsCost(xs, 0);
    WeightSplit("[", EncodeItems(Items(xs), 0));
  }

  /** The size of the text is that of its fixed parts and of each list's items. */
  lemma {:induction false} ShownBytes(l: Limits, packet: Value, ledger: Value, s: Lists)
    ensures Bytes(Shown(l, packet, ledger, s)) == Fixed(l, packet, ledger) + Cost(s.evidence, 0) + Cost(s.knowledge, 0)
  {
    hide Weight, Cost, Quoted, Bytes, Safe, Items, EncodeItems;
    var v := Context(packet, ledger, s.evidence, s.knowledge);
    MemberWeight(v, 0);
    MemberWeight(v, 1);
    MemberWeight(v, 2);
    MemberWeight(v, 3);
    ArrayWeight(s.evidence);
    ArrayWeight(s.knowledge);
    WeightSplit("{", EncodeMembers(v, 0));
    assert EncodeMembers(v, 4) == "}";
    BytesSplit(l.instruction + OPEN + Safe(Encode(v)), CLOSE);
    BytesSplit(l.instruction + OPEN, Safe(Encode(v)));
    assert Bytes(Safe(Encode(v))) == Weight(Encode(v)) by { WeightIs(Encode(v)); }
  }

  lemma WeightIs(t: string)
    ensures Bytes(Safe(t)) == Weight(t)
  {
  }

  predicate Extends(s: Lists, t: Lists) { s.evidence <= t.evidence && s.knowledge <= t.knowledge }

  lemma {:induction false} LongerCosts(xs: seq<Item>, ys: seq<Item>)
    requires xs <= ys
    ensures Cost(xs, 0) <= Cost(ys, 0)
    decreases |ys|
  {
    hide Cost, Weight;
    if |xs| < |ys| {
      var rest := ys[..|ys| - 1];
      LongerCosts(xs, rest);
      CostOfOneMore(rest, ys[|ys| - 1], 0);
      assert rest + [ys[|ys| - 1]] == ys;
    } else {
      assert xs == ys;
    }
  }

  /** If an item does not fit with some lists, it does not fit with longer ones. */
  lemma {:induction false} StillTooMuch(l: Limits, packet: Value, ledger: Value, s: Lists, t: Lists, x: Item)
    requires Extends(s, t) && !Fits(l, Shown(l, packet, ledger, With(s, x)))
    ensures !Fits(l, Shown(l, packet, ledger, With(t, x)))
  {
    hide Cost, Weight, Shown, Bytes, Fixed;
    ShownBytes(l, packet, ledger, With(s, x));
    ShownBytes(l, packet, ledger, With(t, x));
    LongerCosts(s.evidence, t.evidence);
    LongerCosts(s.knowledge, t.knowledge);
    CostOfOneMore(s.evidence, x, 0);
    CostOfOneMore(t.evidence, x, 0);
    CostOfOneMore(s.knowledge, x, 0);
    CostOfOneMore(t.knowledge, x, 0);
  }

  /* ---- what is promised ---- */

  predicate Chosen(s: Lists, x: Item) { x in s.evidence || x in s.knowledge }

  /** The packed text fits; every item that was left out would be too much for it. */
  lemma {:induction false} PackIsMaximal(l: Limits, packet: Value, ledger: Value, items: seq<Item>)
    requires Fits(l, Shown(l, packet, ledger, Lists([], [])))
    ensures var s := Pack(l, packet, ledger, items);
            && Fits(l, Shown(l, packet, ledger, s))
            && (forall x :: Chosen(s, x) ==> x in items)
            && (forall x :: x in items && !Chosen(s, x) ==> !Fits(l, Shown(l, packet, ledger, With(s, x))))
  {
    hide Shown, Fits;
    if items != [] {
      var n := |items| - 1;
      PackIsMaximal(l, packet, ledger, items[..n]);
      var before := Pack(l, packet, ledger, items[..n]);
      var s := Pack(l, packet, ledger, items);
      assert items[..n] + [items[n]] == items;
      assert Chosen(With(before, items[n]), items[n]);
      forall x | x in items && !Chosen(s, x) ensures !Fits(l, Shown(l, packet, ledger, With(s, x))) {
        if !Chosen(before, x) && x in items[..n] {
          StillTooMuch(l, packet, ledger, before, s, x);
        }
      }
    }
  }

  lemma {:induction false} RankedMoves(a: seq<Source>, b: seq<Source>, kind: Kind, tags: set<string>)
    ensures Ranked(a + b, kind, tags) == Ranked(a, kind, tags) + Ranked(b, kind, tags)
  {
    hide RankedOne;
    if a == [] {
      assert a + b == b;
    } else {
      assert (a + b)[1..] == a[1..] + b;
      RankedMoves(a[1..], b, kind, tags);
    }
  }

  function Without(b: seq<Source>, i: nat): seq<Source>
    requires i < |b|
  {
    b[..i] + b[i + 1..]
  }

  lemma {:induction false} TakenOut(b: seq<Source>, i: nat)
    requires i < |b|
    ensures multiset(b) == multiset(Without(b, i)) + multiset{b[i]}
  {
    assert b == b[..i] + ([b[i]] + b[i + 1..]);
  }

  lemma {:induction false} RankedWithout(b: seq<Source>, i: nat, kind: Kind, tags: set<string>)
    requires i < |b|
    ensures multiset(Ranked(b, kind, tags)) ==
              multiset(Ranked([b[i]], kind, tags)) + multiset(Ranked(Without(b, i), kind, tags))
  {
    hide Ranked;
    assert b == b[..i] + ([b[i]] + b[i + 1..]);
    RankedMoves(b[..i], [b[i]] + b[i + 1..], kind, tags);
    RankedMoves([b[i]], b[i + 1..], kind, tags);
    RankedMoves(b[..i], b[i + 1..], kind, tags);
  }

  /** Ranking looks at each source by itself. */
  lemma {:induction false} RankedAlike(a: seq<Source>, b: seq<Source>, kind: Kind, tags: set<string>)
    requires multiset(a) == multiset(b)
    ensures multiset(Ranked(a, kind, tags)) == multiset(Ranked(b, kind, tags))
    decreases |a|
  {
    if a == [] {
      assert |multiset(b)| == 0;
    } else {
      hide Ranked, Without;
      assert a[0] in multiset(b);
      var i :| 0 <= i < |b| && b[i] == a[0];
      TakenOut(a, 0);
      TakenOut(b, i);
      assert |multiset(a)| == |a| && |multiset(Without(a, 0))| == |Without(a, 0)|;
      assert multiset(Without(a, 0)) == multiset(a) - multiset{a[0]} == multiset(Without(b, i));
      RankedAlike(Without(a, 0), Without(b, i), kind, tags);
      RankedWithout(a, 0, kind, tags);
      RankedWithout(b, i, kind, tags);
    }
  }

  lemma {:induction false} RankedIsOfKind(sources: seq<Source>, kind: Kind, tags: set<string>)
    ensures forall x :: x in Ranked(sources, kind, tags) ==>
              x.kind == kind && exists i :: 0 <= i < |sources| && sources[i].id == x.id
  {
    if sources != [] {
      RankedIsOfKind(sources[1..], kind, tags);
      forall x | x in Ranked(sources, kind, tags)
        ensures x.kind == kind && exists i :: 0 <= i < |sources| && sources[i].id == x.id
      {
        if x in Ranked(sources[1..], kind, tags) {
          var i :| 0 <= i < |sources[1..]| && sources[1..][i].id == x.id;
          assert sources[i + 1].id == x.id;
        } else {
          assert sources[0].id == x.id;
        }
      }
    }
  }

  lemma {:induction false} RankedDistinct(sources: seq<Source>, kind: Kind, tags: set<string>)
    requires Unique(sources)
    ensures AllDistinct(Ranked(sources, kind, tags))
  {
    if sources != [] {
      RankedDistinct(sources[1..], kind, tags);
      RankedIsOfKind(sources[1..], kind, tags);
      var rest := Ranked(sources[1..], kind, tags);
      forall j | 0 <= j < |rest| ensures rest[j].id != sources[0].id {
        assert rest[j] in rest;
      }
    }
  }

  lemma {:induction false} BothDistinct(evidence: seq<Source>, pages: seq<Source>, tags: set<string>)
    requires Unique(evidence) && Unique(pages)
    ensures AllDistinct(Ranked(evidence, Evidence, tags) + Ranked(pages, Knowledge, tags))
  {
    var a, b := Ranked(evidence, Evidence, tags), Ranked(pages, Knowledge, tags);
    RankedDistinct(evidence, Evidence, tags);
    RankedDistinct(pages, Knowledge, tags);
    RankedIsOfKind(evidence, Evidence, tags);
    RankedIsOfKind(pages, Knowledge, tags);
    forall i, j | 0 <= i < j < |a + b| ensures !Same((a + b)[i], (a + b)[j]) {
      if i < |a| && |a| <= j {
        assert a[i] in a && b[j - |a|] in b;
      }
    }
  }

  lemma {:induction false} UniqueMoves(a: seq<Source>, b: seq<Source>)
    requires multiset(a) == multiset(b) && Unique(a)
    ensures Unique(b)
  {
    forall i, j | 0 <= i < j < |b| ensures b[i].id != b[j].id {
      if b[i].id == b[j].id {
        assert b[i] in multiset(a) && b[j] in multiset(a);
        var m :| 0 <= m < |a| && a[m] == b[i];
        var n :| 0 <= n < |a| && a[n] == b[j];
        assert m == n;
        Twice(b, i, j);
        Once(a, m);
      }
    }
  }

  lemma {:induction false} Twice(b: seq<Source>, i: nat, j: nat)
    requires i < j < |b| && b[i] == b[j]
    ensures multiset(b)[b[i]] >= 2
  {
    assert b == b[..i] + [b[i]] + b[i + 1..j] + [b[j]] + b[j + 1..];
  }

  lemma {:induction false} Once(a: seq<Source>, m: nat)
    requires m < |a| && Unique(a)
    ensures multiset(a)[a[m]] == 1
  {
    assert a == a[..m] + [a[m]] + a[m + 1..];
    assert a[m] !in a[..m] && a[m] !in a[m + 1..];
  }

  /** The text does not depend on the order in which evidence and pages arrive. */
  lemma {:induction false} OrderDoesNotMatter(l: Limits, packet: Value, ledger: Value, current: bool,
      evidence: seq<Source>, evidence': seq<Source>, pages: seq<Source>, pages': seq<Source>, tags: set<string>)
    requires multiset(evidence) == multiset(evidence') && multiset(pages) == multiset(pages')
    ensures ComposedText(l, packet, ledger, current, evidence, pages, tags)
         == ComposedText(l, packet, ledger, current, evidence', pages', tags)
  {
    hide Shown, Fits, Sort, Ranked, Unique, Pack;
    assert |evidence| == |multiset(evidence)| == |evidence'| && |pages| == |multiset(pages)| == |pages'|;
    if Unique(evidence) { UniqueMoves(evidence, evidence'); }
    if Unique(evidence') { UniqueMoves(evidence', evidence); }
    if Unique(pages) { UniqueMoves(pages, pages'); }
    if Unique(pages') { UniqueMoves(pages', pages); }
    if Unique(evidence) && Unique(pages) {
      var a := Ranked(evidence, Evidence, tags) + Ranked(pages, Knowledge, tags);
      var b := Ranked(evidence', Evidence, tags) + Ranked(pages', Knowledge, tags);
      RankedAlike(evidence, evidence', Evidence, tags);
      RankedAlike(pages, pages', Knowledge, tags);
      BothDistinct(evidence, pages, tags);
      BothDistinct(evidence', pages', tags);
      SortOrders(a);
      SortOrders(b);
      SortKeeps(a);
      SortKeeps(b);
      OrderIsUnique(Sort(a), Sort(b));
    }
  }

  /* ---- the envelope ---- */

  predicate OccursAt(t: string, part: string, i: nat) { i + |part| <= |t| && t[i..i + |part|] == part }

  /** Each delimiter is found in one place, whatever the context holds, and what stands between them decodes to the
      context. */
  lemma {:induction false} EnvelopeHolds(instruction: string, v: Value, i: nat)
    requires WellFormed(v) && '<' !in instruction
    ensures var t := Envelope(instruction, v);
            && (OccursAt(t, OPEN, i) <==> i == |instruction|)
            && (OccursAt(t, CLOSE, i) <==> i == |t| - |CLOSE|)
            && Lex(t[|instruction| + |OPEN|..|t| - |CLOSE|]) == Some(Tokens(v))
  {
    hide Safe, Encode, Lex, Tokens;
    SafeIsHarmless(Encode(v));
    SafeJsonReads(v);
    EnvelopeOf(instruction, Safe(Encode(v)), i);
  }

  lemma {:induction false} EnvelopeOf(before: string, inner: string, i: nat)
    requires Harmless(inner) && '<' !in before
    ensures var t := before + OPEN + inner + CLOSE;
            && (OccursAt(t, OPEN, i) <==> i == |before|)
            && (OccursAt(t, CLOSE, i) <==> i == |t| - |CLOSE|)
            && t[|before| + |OPEN|..|t| - |CLOSE|] == inner
  {
    assert OPEN[1..] == "UNTRUSTED_CONTEXT_JSON>" && CLOSE[1..] == "/UNTRUSTED_CONTEXT_JSON>";
    assert '<' !in "UNTRUSTED_CONTEXT_JSON>" && '<' !in "/UNTRUSTED_CONTEXT_JSON>";
    OnlyThere(before, OPEN, inner, CLOSE, i);
  }

  lemma {:induction false} OnlyThere(before: string, left: string, inner: string, right: string, i: nat)
    requires '<' !in before && '<' !in inner && |left| >= 2 && |right| >= 2
    requires left[0] == '<' == right[0] && '<' !in left[1..] && '<' !in right[1..] && left[1] != right[1]
    ensures var t := before + left + inner + right;
            && (OccursAt(t, left, i) <==> i == |before|)
            && (OccursAt(t, right, i) <==> i == |t| - |right|)
            && t[|before| + |left|..|t| - |right|] == inner
  {
  }

}
