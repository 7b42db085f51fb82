/** Which sources a composed prompt shows, in which order, and where in it they stand
    (src/agent_runtime/context.py, `ContextComposer.compose`), said without the functions that compose it. */
module ComposerChoice {
  import opened JsonText
  import opened Composer

  /* ---- the candidates ---- */

  /** `x` stands for a source that counts: evidence if it shares a tag with the task or one of the two has no tags, a
      page if it shares one. */
  ghost predicate StandsFor(x: Item, s: Source, kind: Kind, tags: set<string>) {
    && x.kind == kind && x.id == s.id && x.content == s.content && x.overlap == |tags * s.tags|
    && ((exists t :: t in tags && t in s.tags) || (kind.Evidence? && (tags == {} || s.tags == {})))
  }

  ghost predicate Relevant(x: Item, sources: seq<Source>, kind: Kind, tags: set<string>) {
    exists i :: 0 <= i < |sources| && StandsFor(x, sources[i], kind, tags)
  }

  lemma StandsForOne(x: Item, s: Source, kind: Kind, tags: set<string>)
    ensures StandsFor(x, s, kind, tags) <==> x in RankedOne(s, kind, tags)
  {
    if tags * s.tags != {} {
      var t :| t in tags * s.tags;
      assert t in tags && t in s.tags;
    }
    assert forall t :: t in tags && t in s.tags ==> t in tags * s.tags;
    if x in RankedOne(s, kind, tags) {
      assert x == Item(|tags * s.tags|, kind, s.id, s.content);
    }
  }

  lemma {:induction false} RankedAre(sources: seq<Source>, kind: Kind, tags: set<string>, x: Item)
    ensures x in Ranked(sources, kind, tags) <==> Relevant(x, sources, kind, tags)
  {
    hide StandsFor, RankedOne;
    if sources != [] {
      var rest := sources[1..];
      RankedAre(rest, kind, tags, x);
      StandsForOne(x, sources[0], kind, tags);
      if i :| 0 <= i < |rest| && StandsFor(x, rest[i], kind, tags) {
        assert StandsFor(x, sources[i + 1], kind, tags);
      }
      if i :| 0 <= i < |sources| && StandsFor(x, sources[i], kind, tags) {
        assert i > 0 ==> StandsFor(x, rest[i - 1], kind, tags);
      }
    }
  }

  /** The items taken up are those of the relevant sources, each once: those that share more tags first, then evidence
      before pages, then by id. */
  lemma {:induction false} CandidatesAre(evidence: seq<Source>, pages: seq<Source>, tags: set<string>)
    requires Unique(evidence) && Unique(pages)
    ensures var xs := Candidates(evidence, pages, tags);
            && (forall x :: x in xs <==> Relevant(x, evidence, Evidence, tags) || Relevant(x, pages, Knowledge, tags))
            && (forall i, j :: 0 <= i < j < |xs| ==>
                  && xs[i].overlap >= xs[j].overlap
                  && (xs[i].overlap == xs[j].overlap && xs[j].kind.Evidence? ==> xs[i].kind.Evidence?)
                  && (xs[i].overlap == xs[j].overlap && xs[i].kind == xs[j].kind ==> Less(xs[i].id, xs[j].id)))
  {
    hide Ranked, Less, Relevant;
    var a, b := Ranked(evidence, Evidence, tags), Ranked(pages, Knowledge, tags);
    BothDistinct(evidence, pages, tags);
    SortOrders(a + b);
    SortKeeps(a + b);
    forall x
      ensures x in Candidates(evidence, pages, tags) <==>
              Relevant(x, evidence, Evidence, tags) || Relevant(x, pages, Knowledge, tags)
    {
      RankedAre(evidence, Evidence, tags, x);
      RankedAre(pages, Knowledge, tags, x);
      assert x in Candidates(evidence, pages, tags) <==> x in multiset(a + b);
    }
  }

  /** Texts are ordered by the first place where they differ, and a text comes before what it begins. */
  lemma {:induction false} LessIsFirstDifference(a: string, b: string)
    ensures Less(a, b) <==>
              exists i :: 0 <= i <= |a| && i < |b| && a[..i] == b[..i] && (i == |a| || a[i] < b[i])
  {
    if a != [] && b != [] && a[0] == b[0] {
      LessIsFirstDifference(a[1..], b[1..]);
      if Less(a, b) {
        var i :| 0 <= i <= |a[1..]| && i < |b[1..]| && a[1..][..i] == b[1..][..i]
                 && (i == |a[1..]| || a[1..][i] < b[1..][i]);
        assert a[..i + 1] == [a[0]] + a[1..][..i] && b[..i + 1] == [b[0]] + b[1..][..i];
      }
      if i :| 0 <= i <= |a| && i < |b| && a[..i] == b[..i] && (i == |a| || a[i] < b[i]) {
        assert i > 0;
        assert a[1..][..i - 1] == a[..i][1..] && b[1..][..i - 1] == b[..i][1..];
      }
    } else if Less(a, b) {
      assert a[..0] == b[..0];
    } else if i :| 0 <= i <= |a| && i < |b| && a[..i] == b[..i] && (i == |a| || a[i] < b[i]) {
      assert i > 0 ==> a[..i][0] == b[..i][0];
    }
  }

  /* ---- the choice ---- */

  /** Those of the items that were chosen, each kind in its own list. */
  function Picked(items: seq<Item>, chosen: set<Item>): Lists {
    if items == [] then Lists([], [])
    else
      var x := items[|items| - 1];
      var before := Picked(items[..|items| - 1], chosen);
      if x in chosen then With(before, x) else before
  }

  lemma {:induction false} PickedAlike(items: seq<Item>, a: set<Item>, b: set<Item>)
    requires forall x :: x in items ==> (x in a <==> x in b)
    ensures Picked(items, a) == Picked(items, b)
  {
    if items != [] {
      PickedAlike(items[..|items| - 1], a, b);
    }
  }

  /** `x` fits together with those of the items before it that were chosen. */
  predicate FitsThen(l: Limits, packet: Value, ledger: Value, before: seq<Item>, chosen: set<Item>, x: Item) {
    Fits(l, Shown(l, packet, ledger, With(Picked(before, chosen), x)))
  }

  ghost predicate Greedy(l: Limits, packet: Value, ledger: Value, items: seq<Item>, chosen: set<Item>) {
    forall i :: 0 <= i < |items| ==>
      (items[i] in chosen <==> FitsThen(l, packet, ledger, items[..i], chosen, items[i]))
  }

  /** The choice is the greedy one: an item is shown exactly if it fits together with the chosen ones before it. */
  lemma {:induction false} PackIsGreedy(l: Limits, packet: Value, ledger: Value, items: seq<Item>)
    returns (chosen: set<Item>)
    requires forall i, j :: 0 <= i < j < |items| ==> items[i] != items[j]
    ensures Pack(l, packet, ledger, items) == Picked(items, chosen)
    ensures (forall x :: x in chosen ==> x in items) && Greedy(l, packet, ledger, items, chosen)
  {
    if items == [] { return {}; }
    var n := |items| - 1;
    var x := items[n];
    var before := PackIsGreedy(l, packet, ledger, items[..n]);
    var fits := FitsThen(l, packet, ledger, items[..n], before, x);
    chosen := if fits then before + {x} else before;
    PackEnd(l, packet, ledger, items, before);
    hide *;
    assert items[..n] + [x] == items && x !in items[..n];
    PickedAlike(items[..n], chosen, before);
    PickedEnd(items, chosen);
    OneMore(l, packet, ledger, items, before, chosen);
  }

  lemma PackEnd(l: Limits, packet: Value, ledger: Value, items: seq<Item>, before: set<Item>)
    requires items != [] && Pack(l, packet, ledger, items[..|items| - 1]) == Picked(items[..|items| - 1], before)
    ensures var s := Picked(items[..|items| - 1], before);
            var x := items[|items| - 1];
            Pack(l, packet, ledger, items) ==
            if FitsThen(l, packet, ledger, items[..|items| - 1], before, x) then With(s, x) else s
  {
    hide Shown, Fits, Picked;
  }

  lemma PickedEnd(items: seq<Item>, chosen: set<Item>)
    requires items != []
    ensures var s := Picked(items[..|items| - 1], chosen);
            var x := items[|items| - 1];
            Picked(items, chosen) == if x in chosen then With(s, x) else s
  {
  }

  lemma {:induction false} OneMore(l: Limits, packet: Value, ledger: Value, items: seq<Item>, before: set<Item>,
                                   chosen: set<Item>)
    requires items != [] && Greedy(l, packet, ledger, items[..|items| - 1], before)
    requires items[|items| - 1] !in items[..|items| - 1]
    requires forall x :: x in items[..|items| - 1] ==> (x in before <==> x in chosen)
    requires items[|items| - 1] in chosen
        <==> FitsThen(l, packet, ledger, items[..|items| - 1], before, items[|items| - 1])
    ensures Greedy(l, packet, ledger, items, chosen)
  {
    hide FitsThen;
    var n := |items| - 1;
    forall i | 0 <= i < |items|
      ensures items[i] in chosen <==> FitsThen(l, packet, ledger, items[..i], chosen, items[i])
    {
      assert i < n ==> items[..n][..i] == items[..i] && items[..n][i] == items[i] && items[i] in items[..n];
      assert forall y :: y in items[..i] ==> y in items[..n];
      ThenAlike(l, packet, ledger, items[..i], chosen, before, items[i]);
    }
  }

  lemma {:induction false} ThenAlike(l: Limits, packet: Value, ledger: Value, before: seq<Item>, a: set<Item>,
                                     b: set<Item>, x: Item)
    requires forall y :: y in before ==> (y in a <==> y in b)
    ensures FitsThen(l, packet, ledger, before, a, x) <==> FitsThen(l, packet, ledger, before, b, x)
  {
    PickedAlike(before, a, b);
  }

  /* ---- the text ---- */

  /** An object's names, each once and in key order. */
  ghost predicate InKeyOrder(v: Value) {
    v.Obj? && forall i, j :: 0 <= i < j < |v.members| ==> Less(v.members[i].name, v.members[j].name)
  }

  ghost predicate Names(v: Value, names: set<string>) {
    InKeyOrder(v) && forall n :: n in names <==> exists i :: 0 <= i < |v.members| && v.members[i].name == n
  }

  ghost predicate Has(v: Value, name: string, value: Value) { v.Obj? && Member(name, value) in v.members }

  /** A list with the items in their order, each with its id and its content. */
  ghost predicate ListsItems(v: Value, xs: seq<Item>) {
    && v.Arr? && |v.items| == |xs|
    && forall i :: 0 <= i < |xs| ==>
         && Names(v.items[i], {"id", "content"})
         && Has(v.items[i], "id", Str(xs[i].id)) && Has(v.items[i], "content", Str(xs[i].content))
  }

  lemma {:induction false} ContextHolds(packet: Value, ledger: Value, evidence: seq<Item>, knowledge: seq<Item>)
    ensures var v := Context(packet, ledger, evidence, knowledge);
            && Names(v, {"resume_packet", "continuity", "evidence", "knowledge"})
            && Has(v, "resume_packet", packet) && Has(v, "continuity", ledger)
            && (exists e :: Has(v, "evidence", e) && ListsItems(e, evidence))
            && exists k :: Has(v, "knowledge", k) && ListsItems(k, knowledge)
  {
    hide Items, ListsItems, Names, Has;
    ItemsAreListed(evidence);
    ItemsAreListed(knowledge);
    MembersAre(packet, ledger, Items(evidence), Items(knowledge));
    NamesAre(packet, ledger, Items(evidence), Items(knowledge));
  }

  /** A context with the two lists given. */
  function Whole(packet: Value, ledger: Value, e: Value, k: Value): Value {
    Obj([Member("continuity", ledger), Member("evidence", e), Member("knowledge", k), Member("resume_packet", packet)])
  }

  lemma MembersAre(packet: Value, ledger: Value, e: Value, k: Value)
    ensures var v := Whole(packet, ledger, e, k);
            && Has(v, "resume_packet", packet) && Has(v, "continuity", ledger)
            && Has(v, "evidence", e) && Has(v, "knowledge", k)
  {
    var v := Whole(packet, ledger, e, k);
    assert v.members[0] == Member("continuity", ledger) && v.members[1] == Member("evidence", e);
    assert v.members[2] == Member("knowledge", k) && v.members[3] == Member("resume_packet", packet);
  }

  lemma {:induction false} NamesAre(packet: Value, ledger: Value, e: Value, k: Value)
    ensures Names(Whole(packet, ledger, e, k), {"resume_packet", "continuity", "evidence", "knowledge"})
  {
    hide Less;
    KeysAreOrdered();
    NamesOfFour(Whole(packet, ledger, e, k), "continuity", "evidence", "knowledge", "resume_packet");
  }

  lemma {:induction false} ItemsAreListed(xs: seq<Item>)
    ensures ListsItems(Items(xs), xs)
  {
    hide Less;
    KeysAreOrdered();
    forall i | 0 <= i < |xs|
      ensures Names(Items(xs).items[i], {"id", "content"})
      ensures Has(Items(xs).items[i], "id", Str(xs[i].id)) && Has(Items(xs).items[i], "content", Str(xs[i].content))
    {
      var v := ItemValue(xs[i]);
      assert v.members[0] == Member("content", Str(xs[i].content)) && v.members[1] == Member("id", Str(xs[i].id));
    }
  }

  lemma NamesOfFour(v: Value, a: string, b: string, c: string, d: string)
    requires v.Obj? && |v.members| == 4
    requires v.members[0].name == a && v.members[1].name == b && v.members[2].name == c && v.members[3].name == d
    requires Less(a, b) && Less(a, c) && Less(a, d) && Less(b, c) && Less(b, d) && Less(c, d)
    ensures Names(v, {d, a, b, c})
  {
    hide Less;
  }

  lemma KeysAreOrdered()
    ensures Less("content", "id") && Less("continuity", "evidence") && Less("continuity", "knowledge")
    ensures Less("continuity", "resume_packet") && Less("evidence", "knowledge") && Less("evidence", "resume_packet")
    ensures Less("knowledge", "resume_packet")
  {
  }

  /* ---- the answer ---- */

  ghost predicate NameTwice(sources: seq<Source>) {
    exists i, j :: 0 <= i < j < |sources| && sources[i].id == sources[j].id
  }

  /** Each refusal has its own cause, in this order; without one the text shows the greedy choice. */
  lemma {:induction false} ComposedIs(l: Limits, packet: Value, ledger: Value, current: bool,
                                      evidence: seq<Source>, pages: seq<Source>, tags: set<string>)
    ensures var r := ComposedText(l, packet, ledger, current, evidence, pages, tags);
            var bare := l.instruction + OPEN + Safe(Encode(Context(packet, ledger, [], []))) + CLOSE;
            var room := if l.maxBytes < l.maxTokens then l.maxBytes else l.maxTokens;
            if |evidence| > 128 || |pages| > 128 then r == Refused(TooMany)
            else if NameTwice(evidence) || NameTwice(pages) then r == Refused(Duplicate)
            else if !current then r == Refused(Stale)
            else if Bytes(bare) > room then r == Refused(OverBudget)
            else
              var items := Candidates(evidence, pages, tags);
              exists chosen ::
                && Greedy(l, packet, ledger, items, chosen)
                && var s := Picked(items, chosen);
                   var text := l.instruction + OPEN + Safe(Encode(Context(packet, ledger, s.evidence, s.knowledge)))
                               + CLOSE;
                   r == Composed(text) && Bytes(text) <= room
  {
    hide Bytes, Encode, Safe, Context, Pack, Picked, Greedy, Candidates;
    if Unique(evidence) && Unique(pages) {
      var items := Candidates(evidence, pages, tags);
      AllDiffer(evidence, pages, tags);
      var chosen := PackIsGreedy(l, packet, ledger, items);
      if Fits(l, Shown(l, packet, ledger, Lists([], []))) {
        PackIsMaximal(l, packet, ledger, items);
      }
    }
  }

  lemma {:induction false} AllDiffer(evidence: seq<Source>, pages: seq<Source>, tags: set<string>)
    requires Unique(evidence) && Unique(pages)
    ensures var xs := Candidates(evidence, pages, tags); forall i, j :: 0 <= i < j < |xs| ==> xs[i] != xs[j]
  {
    hide Candidates, Less, Relevant;
    CandidatesAre(evidence, pages, tags);
    var xs := Candidates(evidence, pages, tags);
    forall i, j | 0 <= i < j < |xs| ensures xs[i] != xs[j] {
      LessIsTotal(xs[i].id, xs[j].id);
    }
  }
}
