/** Leaf by leaf, what redaction makes of a value, and exactly when it refuses one: for capability output and for metric
    attributes. */
module RedactionExact {
  import opened Text
  import opened Redaction

  /* ---- capability output ---- */

  /** Texts come out cleaned, numbers, booleans and null as they are, lists and mappings item by item in their order;
      keys come out cleaned, and under a sensitive one there is only the mark. */
  ghost predicate Redacted(p: Policy, v: Value, r: Value) {
    match v
    case Str(s) => r == Str(p.clean(s))
    case List(xs) => r.List? && |r.items| == |xs| && forall i :: 0 <= i < |xs| ==> Redacted(p, xs[i], r.items[i])
    case Dict(xs) =>
      && r.Dict? && |r.entries| == |xs|
      && forall i :: 0 <= i < |xs| ==>
           && xs[i].key.Name? && r.entries[i].key == Name(p.clean(xs[i].key.name))
           && if p.sensitive(xs[i].key.name) then r.entries[i].value == Str("[REDACTED]")
              else Redacted(p, xs[i].value, r.entries[i].value)
    case _ => r == v
  }

  /** Within `levels` more levels, of JSON types throughout, with finite numbers and keys that stay different once
      cleaned; what stands under sensitive keys may be anything. */
  ghost predicate Allowed(p: Policy, v: Value, levels: int) {
    levels >= 0 &&
    match v
    case NotFinite => false
    case Strange => false
    case List(xs) => forall i :: 0 <= i < |xs| ==> Allowed(p, xs[i], levels - 1)
    case Dict(xs) =>
      && (forall i :: 0 <= i < |xs| ==> xs[i].key.Name?)
      && (forall i, j :: 0 <= i < j < |xs| ==> p.clean(xs[i].key.name) != p.clean(xs[j].key.name))
      && forall i :: 0 <= i < |xs| ==> p.sensitive(xs[i].key.name) || Allowed(p, xs[i].value, levels - 1)
    case _ => true
  }

  /** How many nodes there are outside of sensitive keys. */
  function Visible(p: Policy, v: Value): (n: nat)
    ensures n >= 1
    decreases v, 1, 0
  {
    match v
    case List(xs) => 1 + VisibleItems(p, v, |xs|)
    case Dict(xs) => 1 + VisibleEntries(p, v, |xs|)
    case _ => 1
  }

  function VisibleItems(p: Policy, v: Value, n: nat): nat
    requires v.List? && n <= |v.items|
    decreases v, 0, n
  {
    if n == 0 then 0 else VisibleItems(p, v, n - 1) + Visible(p, v.items[n - 1])
  }

  function VisibleEntries(p: Policy, v: Value, n: nat): nat
    requires v.Dict? && n <= |v.entries|
    decreases v, 0, n
  {
    if n == 0 then 0
    else
      var e := v.entries[n - 1];
      VisibleEntries(p, v, n - 1) + if e.key.Name? && p.sensitive(e.key.name) then 0 else Visible(p, e.value)
  }

  /** At every depth and budget: a value goes out exactly if it is allowed and its visible nodes are within the budget;
      they are what it costs. */
  lemma {:induction false} SafeIs(p: Policy, v: Value, depth: nat, budget: int)
    ensures var r := Safe(p, v, depth, budget);
            && (r.value.Some? <==> Allowed(p, v, 64 - depth) && Visible(p, v) <= budget)
            && (r.value.Some? ==> Redacted(p, v, r.value.value) && r.budget == budget - Visible(p, v))
    decreases v, 1, 0
  {
    if depth <= 64 && budget > 0 {
      match v
      case List(xs) => SafeItemsAre(p, v, |xs|, depth, budget - 1, 63 - depth);
      case Dict(xs) =>
        SafeEntriesAre(p, v, |xs|, depth, budget - 1, 63 - depth);
        DictAllowed(p, v, 64 - depth, 63 - depth);
        DictRedacted(p, v, SafeEntries(p, v, |xs|, depth, budget - 1).value);
        hide Allowed, Redacted, EntryAllowed, EntryRedacted;
      case _ =>
    }
  }

  lemma {:induction false} SafeItemsAre(p: Policy, v: Value, n: nat, depth: nat, budget: int, levels: int)
    requires v.List? && n <= |v.items| && budget >= 0 && levels == 63 - depth
    ensures var r := SafeItems(p, v, n, depth, budget);
            && (r.value.Some? <==>
                  (forall i :: 0 <= i < n ==> Allowed(p, v.items[i], levels)) && VisibleItems(p, v, n) <= budget)
            && (r.value.Some? ==>
                  && |r.value.value| == n && r.budget == budget - VisibleItems(p, v, n)
                  && forall i :: 0 <= i < n ==> Redacted(p, v.items[i], r.value.value[i]))
    decreases v, 0, n
  {
    hide Safe, Redacted, Allowed, Visible;
    if n > 0 {
      SafeItemsAre(p, v, n - 1, depth, budget, levels);
      SafeIs(p, v.items[n - 1], depth + 1, SafeItems(p, v, n - 1, depth, budget).budget);
    }
  }

  ghost predicate EntryAllowed(p: Policy, v: Value, i: nat, levels: int)
    requires v.Dict? && i < |v.entries|
  {
    var e := v.entries[i];
    && e.key.Name? && (p.sensitive(e.key.name) || Allowed(p, e.value, levels))
    && forall j :: 0 <= j < i && v.entries[j].key.Name? ==> p.clean(v.entries[j].key.name) != p.clean(e.key.name)
  }

  ghost predicate EntryRedacted(p: Policy, e: Entry, r: Entry) {
    && e.key.Name? && r.key == Name(p.clean(e.key.name))
    && if p.sensitive(e.key.name) then r.value == Str("[REDACTED]") else Redacted(p, e.value, r.value)
  }

  lemma {:induction false} DictAllowed(p: Policy, v: Value, levels: int, inner: int)
    requires v.Dict? && levels >= 0 && inner == levels - 1
    ensures Allowed(p, v, levels) <==> forall i :: 0 <= i < |v.entries| ==> EntryAllowed(p, v, i, inner)
  {
    if forall i :: 0 <= i < |v.entries| ==> EntryAllowed(p, v, i, inner) {
      forall i, j | 0 <= i < j < |v.entries|
        ensures v.entries[i].key.Name? && v.entries[j].key.Name?
        ensures p.clean(v.entries[i].key.name) != p.clean(v.entries[j].key.name)
      {
        assert EntryAllowed(p, v, j, inner) && EntryAllowed(p, v, i, inner);
      }
      forall i | 0 <= i < |v.entries|
        ensures v.entries[i].key.Name?
        ensures p.sensitive(v.entries[i].key.name) || Allowed(p, v.entries[i].value, inner)
      {
        assert EntryAllowed(p, v, i, inner);
      }
    }
  }

  lemma {:induction false} DictRedacted(p: Policy, v: Value, r: Option<seq<Entry>>)
    requires v.Dict?
    ensures r.Some? && |r.value| == |v.entries|
            && (forall i :: 0 <= i < |r.value| ==> EntryRedacted(p, v.entries[i], r.value[i])) ==>
              Redacted(p, v, Dict(r.value))
  {
    if r.Some? && |r.value| == |v.entries| &&
       forall i :: 0 <= i < |r.value| ==> EntryRedacted(p, v.entries[i], r.value[i]) {
      forall i | 0 <= i < |v.entries| ensures EntryRedacted(p, v.entries[i], r.value[i]) {}
    }
  }

  lemma {:induction false} SafeEntriesAre(p: Policy, v: Value, n: nat, depth: nat, budget: int, levels: int)
    requires v.Dict? && n <= |v.entries| && budget >= 0 && levels == 63 - depth
    ensures var r := SafeEntries(p, v, n, depth, budget);
            && (r.value.Some? <==>
                  (forall i :: 0 <= i < n ==> EntryAllowed(p, v, i, levels)) && VisibleEntries(p, v, n) <= budget)
            && (r.value.Some? ==>
                  && |r.value.value| == n && r.budget == budget - VisibleEntries(p, v, n)
                  && forall i :: 0 <= i < n ==> EntryRedacted(p, v.entries[i], r.value.value[i]))
    decreases v, 0, n
  {
    if n > 0 {
      SafeEntriesAre(p, v, n - 1, depth, budget, levels);
      var before := SafeEntries(p, v, n - 1, depth, budget);
      var e := v.entries[n - 1];
      SafeIs(p, e.value, depth + 1, before.budget);
      hide Safe, Redacted, Allowed, Visible;
      if before.value.Some? && e.key.Name? {
        Clashes(p, v, n - 1, before.value.value);
      }
      assert (forall i :: 0 <= i < n ==> EntryAllowed(p, v, i, levels)) <==>
               (forall i :: 0 <= i < n - 1 ==> EntryAllowed(p, v, i, levels)) && EntryAllowed(p, v, n - 1, levels);
    }
  }

  /** A name is there already exactly if an earlier key came out the same. */
  lemma {:induction false} Clashes(p: Policy, v: Value, n: nat, r: seq<Entry>)
    requires v.Dict? && n < |v.entries| && v.entries[n].key.Name? && |r| == n
    requires forall i :: 0 <= i < n ==> EntryRedacted(p, v.entries[i], r[i])
    ensures Has(r, p.clean(v.entries[n].key.name)) <==>
              exists j :: 0 <= j < n && v.entries[j].key.Name?
                          && p.clean(v.entries[j].key.name) == p.clean(v.entries[n].key.name)
  {
    hide Redacted;
    var name := p.clean(v.entries[n].key.name);
    if j :| 0 <= j < n && v.entries[j].key.Name? && p.clean(v.entries[j].key.name) == name {
      assert EntryRedacted(p, v.entries[j], r[j]) && r[j].key == Name(name);
    }
    if Has(r, name) {
      var j :| 0 <= j < n && r[j].key == Name(name);
      assert EntryRedacted(p, v.entries[j], r[j]);
    }
  }

  /** What a capability gives back, as it leaves the gateway: it does exactly if it is at most 65 levels deep, with at
      most 100000 nodes outside of sensitive keys, and otherwise as JSON as it has to be; and then it is redacted leaf
      by leaf. */
  lemma {:induction false} OutputIs(p: Policy, v: Value)
    ensures Output(p, v).Some? <==> Allowed(p, v, 64) && Visible(p, v) <= 100000
    ensures Output(p, v).Some? ==> Redacted(p, v, Output(p, v).value)
  {
    SafeIs(p, v, 0, OUTPUT_NODES);
  }

  /* ---- metric attributes ---- */

  /** The first characters, as many as there may be. */
  lemma CutIs(s: string, n: nat)
    ensures |Cut(s, n)| == (if |s| < n then |s| else n) && Cut(s, n) <= s
  {
  }

  function Shorter(n: nat, most: nat): nat { if n < most then n else most }

  predicate Hidden(p: Policy, v: Value, n: nat, i: nat)
    requires v.Dict? && i < n <= |v.entries|
  {
    var e := v.entries[i];
    e.key.Name? &&
    (p.sensitive(e.key.name)
     || exists j :: 0 <= j < n && j != i && v.entries[j].key.Name? && ShownName(p, v.entries[j]) == ShownName(p, e))
  }

  /** Texts are shown cleaned and cut, scalars as they are, of lists and mappings the first `maxItems`; the mark stands
      for what is under a sensitive key, and under keys that come out the same. `full` says that the budget was enough,
      so that nothing is left out but what is too deep. */
  ghost predicate ShowsAs(p: Policy, v: Value, depth: nat, full: bool, r: Value)
    decreases v, 2
  {
    if depth >= p.maxDepth then r == Str("[TRUNCATED]")
    else
      || (!full && r == Str("[TRUNCATED]"))
      || match v
         case Str(s) => r == Str(Cut(p.clean(s), p.maxString))
         case List(xs) =>
           && r.List? && |r.items| == Shorter(|xs|, p.maxItems)
           && forall i :: 0 <= i < |r.items| ==> ShowsAs(p, xs[i], depth + 1, full, r.items[i])
         case Dict(xs) =>
           var n := Shorter(|xs|, p.maxItems);
           r.Dict? && NamesFrom(p, v, n, r.entries) && AllShow(p, v, n, depth + 1, full, r.entries)
         case _ => r == v
  }

  ghost predicate AllShow(p: Policy, v: Value, n: nat, depth: nat, full: bool, r: seq<Entry>)
    requires v.Dict? && n <= |v.entries|
    decreases v, 1
  {
    forall i :: 0 <= i < n ==> EntryShows(p, v, n, i, depth, full, r)
  }

  /** What stands under the name that a key comes out as. */
  ghost predicate EntryShows(p: Policy, v: Value, n: nat, i: nat, depth: nat, full: bool, r: seq<Entry>)
    requires v.Dict? && i < n <= |v.entries|
    decreases v, 0
  {
    var e := v.entries[i];
    && e.key.Name? && At(r, ShownName(p, e)).Some?
    && var x := At(r, ShownName(p, e)).value;
       if Hidden(p, v, n, i) then x == Str("[REDACTED]") else ShowsAs(p, e.value, depth, full, x)
  }

  /** The entries shown are those of the first `n` keys, each name once. */
  predicate NamesFrom(p: Policy, v: Value, n: nat, r: seq<Entry>)
    requires v.Dict? && n <= |v.entries|
  {
    && (forall k :: 0 <= k < |r| ==>
          exists i :: 0 <= i < n && v.entries[i].key.Name? && r[k].key == Name(ShownName(p, v.entries[i])))
    && forall j, k :: 0 <= j < k < |r| ==> r[j].key != r[k].key
  }

  /** An earlier key comes out the same. */
  predicate Earlier(p: Policy, v: Value, i: nat)
    requires v.Dict? && i < |v.entries| && v.entries[i].key.Name?
  {
    exists j :: 0 <= j < i && v.entries[j].key.Name? && ShownName(p, v.entries[j]) == ShownName(p, v.entries[i])
  }

  /** Nothing that is looked at is of no JSON type, out of range or under an odd key. */
  predicate Showable(p: Policy, v: Value, depth: nat)
    decreases v, 2
  {
    depth >= p.maxDepth ||
    match v
    case NotFinite => false
    case Strange => false
    case Number(n) => -1000000000000000.0 <= n <= 1000000000000000.0
    case List(xs) => forall i :: 0 <= i < Shorter(|xs|, p.maxItems) ==> Showable(p, xs[i], depth + 1)
    case Dict(xs) => AllShowable(p, v, Shorter(|xs|, p.maxItems), depth + 1)
    case _ => true
  }

  predicate AllShowable(p: Policy, v: Value, n: nat, depth: nat)
    requires v.Dict? && n <= |v.entries|
    decreases v, 1
  {
    forall i :: 0 <= i < n ==> EntryShowable(p, v, i, depth)
  }

  predicate EntryShowable(p: Policy, v: Value, i: nat, depth: nat)
    requires v.Dict? && i < |v.entries|
    decreases v, 0
  {
    var e := v.entries[i];
    e.key.Name? && (p.sensitive(e.key.name) || Earlier(p, v, i) || Showable(p, e.value, depth))
  }

  /** How many nodes are looked at. */
  function Cost(p: Policy, v: Value, depth: nat): (n: nat)
    ensures n >= 1
    decreases v, 1, 0
  {
    if depth >= p.maxDepth then 1
    else
      match v
      case List(xs) => 1 + ItemsCost(p, v, Shorter(|xs|, p.maxItems), depth)
      case Dict(xs) => 1 + EntriesCost(p, v, Shorter(|xs|, p.maxItems), depth)
      case _ => 1
  }

  function ItemsCost(p: Policy, v: Value, n: nat, depth: nat): nat
    requires v.List? && n <= |v.items|
    decreases v, 0, n
  {
    if n == 0 then 0 else ItemsCost(p, v, n - 1, depth) + Cost(p, v.items[n - 1], depth + 1)
  }

  function EntriesCost(p: Policy, v: Value, n: nat, depth: nat): nat
    requires v.Dict? && n <= |v.entries|
    decreases v, 0, n
  {
    if n == 0 then 0
    else
      var e := v.entries[n - 1];
      EntriesCost(p, v, n - 1, depth)
      + if e.key.Odd? || p.sensitive(e.key.name) || Earlier(p, v, n - 1) then 0 else Cost(p, e.value, depth + 1)
  }

  /** What is shown of a value. With a budget for all that is looked at: it raises exactly if some of that cannot be
      shown, nothing is left out but for its depth, and the budget falls by what was looked at. */
  lemma {:induction false} ShownIs(p: Policy, v: Value, depth: nat, budget: int, full: bool)
    requires full ==> Cost(p, v, depth) <= budget
    ensures var r := Shown(p, v, depth, budget);
            && (r.value.Some? ==> ShowsAs(p, v, depth, full, r.value.value))
            && (full ==> (r.value.Some? <==> Showable(p, v, depth)))
            && (full && r.value.Some? ==> r.budget == budget - Cost(p, v, depth))
    decreases v, 1, 0
  {
    if depth < p.maxDepth && budget > 0 {
      match v
      case List(xs) => ShownItemsAre(p, v, Shorter(|xs|, p.maxItems), depth, budget - 1, full);
      case Dict(xs) =>
        var n := Shorter(|xs|, p.maxItems);
        ShownEntriesAre(p, v, n, depth, budget - 1, full);
        var r := ShownEntries(p, v, n, depth, budget - 1);
        assert Shown(p, v, depth, budget) == Out(if r.value.Some? then Some(Dict(r.value.value)) else None, r.budget);
        hide AllShow, NamesFrom, AllShowable, EntriesCost, ShownEntries;
      case _ =>
    }
  }

  lemma {:induction false} ShownItemsAre(p: Policy, v: Value, n: nat, depth: nat, budget: int, full: bool)
    requires v.List? && n <= |v.items| && (full ==> ItemsCost(p, v, n, depth) <= budget)
    ensures var r := ShownItems(p, v, n, depth, budget);
            && (r.value.Some? ==>
                  && |r.value.value| == n
                  && forall i :: 0 <= i < n ==> ShowsAs(p, v.items[i], depth + 1, full, r.value.value[i]))
            && (full ==> (r.value.Some? <==> forall i :: 0 <= i < n ==> Showable(p, v.items[i], depth + 1)))
            && (full && r.value.Some? ==> r.budget == budget - ItemsCost(p, v, n, depth))
    decreases v, 0, n
  {
    hide Shown, ShowsAs, Showable, Cost;
    if n > 0 {
      ShownItemsAre(p, v, n - 1, depth, budget, full);
      var before := ShownItems(p, v, n - 1, depth, budget);
      if before.value.Some? { ShownIs(p, v.items[n - 1], depth + 1, before.budget, full); }
    }
  }

  lemma {:induction false} ShownEntriesAre(p: Policy, v: Value, n: nat, depth: nat, budget: int, full: bool)
    requires v.Dict? && n <= |v.entries| && (full ==> EntriesCost(p, v, n, depth) <= budget)
    ensures var r := ShownEntries(p, v, n, depth, budget);
            && (r.value.Some? ==>
                  NamesFrom(p, v, n, r.value.value) && AllShow(p, v, n, depth + 1, full, r.value.value))
            && (full ==> (r.value.Some? <==> AllShowable(p, v, n, depth + 1)))
            && (full && r.value.Some? ==> r.budget == budget - EntriesCost(p, v, n, depth))
    decreases v, 0, n
  {
    if n > 0 {
      ShownEntriesAre(p, v, n - 1, depth, budget, full);
      var before := ShownEntries(p, v, n - 1, depth, budget);
      var e := v.entries[n - 1];
      if before.value.Some? && e.key.Name? {
        var rs := before.value.value;
        NameThere(p, v, n - 1, rs, depth + 1, full);
        if !(Has(rs, ShownName(p, e)) || p.sensitive(e.key.name)) {
          ShownIs(p, e.value, depth + 1, before.budget, full);
          var x := Shown(p, e.value, depth + 1, before.budget).value;
          if x.Some? { OneEntryMore(p, v, n, depth + 1, full, rs, x.value); }
        } else {
          OneEntryMore(p, v, n, depth + 1, full, rs, REDACTED);
        }
      }
      hide Shown, ShowsAs, Showable, Cost, NamesFrom, EntryShows, Hidden, AllShow, EntryShowable, Earlier;
      OneMoreShowable(p, v, n, depth + 1);
    } else {
      hide Shown, ShowsAs, Showable, Cost;
    }
  }

  lemma {:induction false} OneMoreShowable(p: Policy, v: Value, n: nat, depth: nat)
    requires v.Dict? && 0 < n <= |v.entries|
    ensures AllShowable(p, v, n, depth) <==> AllShowable(p, v, n - 1, depth) && EntryShowable(p, v, n - 1, depth)
    ensures EntryShowable(p, v, n - 1, depth) <==>
              var e := v.entries[n - 1];
              e.key.Name? && (p.sensitive(e.key.name) || Earlier(p, v, n - 1) || Showable(p, e.value, depth))
  {
    hide Showable, Earlier;
  }

  /** A name is shown already exactly if an earlier key comes out the same. */
  lemma {:induction false} NameThere(p: Policy, v: Value, n: nat, r: seq<Entry>, depth: nat, full: bool)
    requires v.Dict? && n < |v.entries| && v.entries[n].key.Name? && NamesFrom(p, v, n, r)
    requires AllShow(p, v, n, depth, full, r)
    ensures Has(r, ShownName(p, v.entries[n])) <==> Earlier(p, v, n)
  {
    hide ShowsAs, ShownName;
    var name := ShownName(p, v.entries[n]);
    if Earlier(p, v, n) {
      var j :| 0 <= j < n && v.entries[j].key.Name? && ShownName(p, v.entries[j]) == name;
      assert EntryShows(p, v, n, j, depth, full, r);
      PutAt(r, name, REDACTED, name);
    }
  }

  lemma {:induction false} PutKeys(entries: seq<Entry>, name: string, value: Value)
    requires Has(entries, name)
    ensures |Put(entries, name, value)| == |entries|
    ensures forall i :: 0 <= i < |entries| ==> Put(entries, name, value)[i].key == entries[i].key
  {
    if entries[0].key != Name(name) {
      var i :| 0 <= i < |entries| && entries[i].key == Name(name);
      assert entries[1..][i - 1].key == Name(name);
      PutKeys(entries[1..], name, value);
    }
  }

  lemma {:induction false} PutNames(p: Policy, v: Value, n: nat, r: seq<Entry>, value: Value)
    requires v.Dict? && n < |v.entries| && v.entries[n].key.Name? && NamesFrom(p, v, n, r)
    ensures NamesFrom(p, v, n + 1, Put(r, ShownName(p, v.entries[n]), value))
  {
    hide ShownName;
    var name := ShownName(p, v.entries[n]);
    if Has(r, name) { PutKeys(r, name, value); } else { PutNew(r, name, value); }
  }

  lemma {:induction false} OneEntryMore(p: Policy, v: Value, n: nat, depth: nat, full: bool, r: seq<Entry>,
                                        value: Value)
    requires v.Dict? && 0 < n <= |v.entries| && v.entries[n - 1].key.Name? && NamesFrom(p, v, n - 1, r)
    requires AllShow(p, v, n - 1, depth, full, r)
    requires var e := v.entries[n - 1];
             if p.sensitive(e.key.name) || Earlier(p, v, n - 1) then value == REDACTED
             else ShowsAs(p, e.value, depth, full, value)
    ensures var r' := Put(r, ShownName(p, v.entries[n - 1]), value);
            NamesFrom(p, v, n, r') && AllShow(p, v, n, depth, full, r')
  {
    hide ShowsAs;
    var name := ShownName(p, v.entries[n - 1]);
    var r' := Put(r, name, value);
    PutNames(p, v, n - 1, r, value);
    forall i | 0 <= i < n ensures EntryShows(p, v, n, i, depth, full, r') {
      if i < n - 1 {
        assert EntryShows(p, v, n - 1, i, depth, full, r);
        PutAt(r, name, value, ShownName(p, v.entries[i]));
        HiddenGrows(p, v, n, i);
      } else {
        PutAt(r, name, value, name);
        HiddenLast(p, v, n);
      }
    }
  }

  lemma {:induction false} HiddenGrows(p: Policy, v: Value, n: nat, i: nat)
    requires v.Dict? && i < n - 1 < n <= |v.entries| && v.entries[n - 1].key.Name? && v.entries[i].key.Name?
    ensures Hidden(p, v, n, i) <==>
              Hidden(p, v, n - 1, i) || ShownName(p, v.entries[n - 1]) == ShownName(p, v.entries[i])
    ensures ShownName(p, v.entries[n - 1]) == ShownName(p, v.entries[i]) ==> Earlier(p, v, n - 1)
  {
    hide ShownName;
  }

  lemma {:induction false} HiddenLast(p: Policy, v: Value, n: nat)
    requires v.Dict? && 0 < n <= |v.entries| && v.entries[n - 1].key.Name?
    ensures Hidden(p, v, n, n - 1) <==> p.sensitive(v.entries[n - 1].key.name) || Earlier(p, v, n - 1)
  {
    hide ShownName;
  }
}
