/** Recursive redaction with a budget shared by the whole value (src/agent_runtime/metrics.py, `RedactionPolicy`;
    src/agent_runtime/gateway.py, `GatewayOutputPolicy._redact`). */
module Redaction {
  import opened Text

  datatype Key = Name(name: string) | Odd

  datatype Entry = Entry(key: Key, value: Value)

  /** What capability code and metric callers hand over. A mapping is its items in order. `Number` is finite;
      `Odd` keys and `Strange` values are of no JSON type. */
  datatype Value =
    | Null
    | Bool(b: bool)
    | Number(n: real)
    | NotFinite
    | Str(s: string)
    | List(items: seq<Value>)
    | Dict(entries: seq<Entry>)
    | Strange

  /** `clean` stands for `redact_sensitive_text` and `sensitive` for `is_sensitive_key` with the configured keys. */
  datatype Policy = Policy(
    sensitive: string -> bool, clean: string -> string,
    maxDepth: nat, maxItems: nat, maxString: nat, maxNodes: nat)

  const REDACTED := Str("[REDACTED]")
  const TRUNCATED := Str("[TRUNCATED]")
  const LARGEST := 1000000000000000.0

  /** A result and what is left of the budget; None is an exception. */
  datatype Out<+T> = Out(value: Option<T>, budget: int)

  function Cut(s: string, n: nat): string { if |s| <= n then s else s[..n] }

  function Least(a: nat, b: nat): nat { if a <= b then a else b }

  predicate Has(entries: seq<Entry>, name: string) { exists i :: 0 <= i < |entries| && entries[i].key == Name(name) }

  /** Assign to a key: in place if it is there, at the end if it is not. */
  function Put(entries: seq<Entry>, name: string, value: Value): seq<Entry> {
    if entries == [] then [Entry(Name(name), value)]
    else if entries[0].key == Name(name) then [Entry(Name(name), value)] + entries[1..]
    else [entries[0]] + Put(entries[1..], name, value)
  }

  /** Values that differ at most in what stands under sensitive keys. */
  ghost predicate Same(sensitive: string -> bool, a: Value, b: Value) {
    match a
    case List(xs) => b.List? && |b.items| == |xs| && forall i :: 0 <= i < |xs| ==> Same(sensitive, xs[i], b.items[i])
    case Dict(xs) =>
      b.Dict? && |b.entries| == |xs| &&
      forall i :: 0 <= i < |xs| ==>
        && b.entries[i].key == xs[i].key
        && ((xs[i].key.Name? && sensitive(xs[i].key.name)) || Same(sensitive, xs[i].value, b.entries[i].value))
    case _ => a == b
  }

  /** At most `d` containers inside one another. */
  predicate Nests(v: Value, d: nat) {
    match v
    case List(xs) => d > 0 && forall i :: 0 <= i < |xs| ==> Nests(xs[i], d - 1)
    case Dict(xs) => d > 0 && forall i :: 0 <= i < |xs| ==> Nests(xs[i].value, d - 1)
    case _ => true
  }

  function Nodes(v: Value): (n: nat)
    ensures n >= 1
    decreases v, 1, 0
  {
    match v
    case List(xs) => 1 + ItemNodes(v, |xs|)
    case Dict(xs) => 1 + EntryNodes(v, |xs|)
    case _ => 1
  }

  function ItemNodes(v: Value, n: nat): nat
    requires v.List? && n <= |v.items|
    decreases v, 0, n
  {
    if n == 0 then 0 else ItemNodes(v, n - 1) + Nodes(v.items[n - 1])
  }

  function EntryNodes(v: Value, n: nat): nat
    requires v.Dict? && n <= |v.entries|
    decreases v, 0, n
  {
    if n == 0 then 0 else EntryNodes(v, n - 1) + Nodes(v.entries[n - 1].value)
  }

  /* ---- metric attributes ---- */

  function Scalar(p: Policy, v: Value): Option<Value>
    requires !v.List? && !v.Dict?
  {
    match v
    case Str(s) => Some(Str(Cut(p.clean(s), p.maxString)))
    case Number(n) => if -LARGEST <= n <= LARGEST then Some(v) else None
    case NotFinite => None
    case Strange => None
    case _ => Some(v)
  }

  /** The value as shown, with the budget that its nodes leave. */
  function Shown(p: Policy, v: Value, depth: nat, budget: int): Out<Value>
    decreases v, 1, 0
  {
    if budget <= 0 then Out(Some(TRUNCATED), budget)
    else if depth >= p.maxDepth then Out(Some(TRUNCATED), budget - 1)
    else
      match v
      case Dict(xs) =>
        var r := ShownEntries(p, v, Least(|xs|, p.maxItems), depth, budget - 1);
        Out(if r.value.Some? then Some(Dict(r.value.value)) else None, r.budget)
      case List(xs) =>
        var r := ShownItems(p, v, Least(|xs|, p.maxItems), depth, budget - 1);
        Out(if r.value.Some? then Some(List(r.value.value)) else None, r.budget)
      case _ => Out(Scalar(p, v), budget - 1)
  }

  /** The first `n` items. */
  function ShownItems(p: Policy, v: Value, n: nat, depth: nat, budget: int): Out<seq<Value>>
    requires v.List? && n <= |v.items|
    decreases v, 0, n
  {
    if n == 0 then Out(Some([]), budget)
    else
      var before := ShownItems(p, v, n - 1, depth, budget);
      if before.value.None? then before
      else
        var r := Shown(p, v.items[n - 1], depth + 1, before.budget);
        Out(if r.value.Some? then Some(before.value.value + [r.value.value]) else None, r.budget)
  }

  /** The first `n` entries. Names that collide once cleaned and cut show nothing. */
  function ShownEntries(p: Policy, v: Value, n: nat, depth: nat, budget: int): Out<seq<Entry>>
    requires v.Dict? && n <= |v.entries|
    decreases v, 0, n
  {
    if n == 0 then Out(Some([]), budget)
    else
      var before := ShownEntries(p, v, n - 1, depth, budget);
      var e := v.entries[n - 1];
      if before.value.None? then before
      else if e.key.Odd? then Out(None, before.budget)
      else
        var name := Cut(p.clean(e.key.name), p.maxString);
        if Has(before.value.value, name) || p.sensitive(e.key.name) then
          Out(Some(Put(before.value.value, name, REDACTED)), before.budget)
        else
          var r := Shown(p, e.value, depth + 1, before.budget);
          Out(if r.value.Some? then Some(Put(before.value.value, name, r.value.value)) else None, r.budget)
  }

  /** One `redact` call: the budget is a field that every node decrements. */
  class Redactor {
    const policy: Policy
    var budget: int

    constructor (policy: Policy)
      ensures this.policy == policy && budget == policy.maxNodes
    {
      this.policy, budget := policy, policy.maxNodes;
    }

    method Redact(v: Value, depth: nat) returns (r: Option<Value>)
      modifies this`budget
      ensures Out(r, budget) == Shown(policy, v, depth, old(budget))
      decreases v
    {
      if budget <= 0 { return Some(TRUNCATED); }
      budget := budget - 1;
      if depth >= policy.maxDepth { return Some(TRUNCATED); }
      if v.Dict? {
        var result: seq<Entry> := [];
        for n := 0 to Least(|v.entries|, policy.maxItems)
          invariant Out(Some(result), budget) == ShownEntries(policy, v, n, depth, old(budget) - 1)
        {
          var e := v.entries[n];
          if e.key.Odd? {
            Stopped(v, n + 1, depth, old(budget) - 1);
            return None;
          }
          var name := Cut(policy.clean(e.key.name), policy.maxString);
          if Has(result, name) || policy.sensitive(e.key.name) {
            result := Put(result, name, REDACTED);
          } else {
            var item := Redact(e.value, depth + 1);
            if item.None? {
              Stopped(v, n + 1, depth, old(budget) - 1);
              return None;
            }
            result := Put(result, name, item.value);
          }
        }
        return Some(Dict(result));
      }
      if v.List? {
        var result: seq<Value> := [];
        for n := 0 to Least(|v.items|, policy.maxItems)
          invariant Out(Some(result), budget) == ShownItems(policy, v, n, depth, old(budget) - 1)
        {
          var item := Redact(v.items[n], depth + 1);
          if item.None? {
            Stopped(v, n + 1, depth, old(budget) - 1);
            return None;
          }
          result := result + [item.value];
        }
        return Some(List(result));
      }
      r := Scalar(policy, v);
    }

    /** After the first exception nothing more is looked at. */
    lemma {:induction false} Stopped(v: Value, n: nat, depth: nat, budget: int)
      ensures v.List? ==> forall m :: n <= m <= |v.items| && ShownItems(policy, v, n, depth, budget).value.None? ==>
                ShownItems(policy, v, m, depth, budget) == ShownItems(policy, v, n, depth, budget)
      ensures v.Dict? ==> forall m :: n <= m <= |v.entries| && ShownEntries(policy, v, n, depth, budget).value.None? ==>
                ShownEntries(policy, v, m, depth, budget) == ShownEntries(policy, v, n, depth, budget)
    {
      if v.List? && n <= |v.items| && ShownItems(policy, v, n, depth, budget).value.None? {
        for m := n to |v.items|
          invariant forall k :: n <= k <= m ==>
                      ShownItems(policy, v, k, depth, budget) == ShownItems(policy, v, n, depth, budget)
        {
        }
      }
      if v.Dict? && n <= |v.entries| && ShownEntries(policy, v, n, depth, budget).value.None? {
        for m := n to |v.entries|
          invariant forall k :: n <= k <= m ==>
                      ShownEntries(policy, v, k, depth, budget) == ShownEntries(policy, v, n, depth, budget)
        {
        }
      }
    }
  }

  /** Nothing under a sensitive key can be told from what is shown, nor from the budget left, nor from whether
      an exception is raised. */
  lemma {:induction false} ShownAlike(p: Policy, a: Value, b: Value, depth: nat, budget: int)
    requires Same(p.sensitive, a, b)
    ensures Shown(p, a, depth, budget) == Shown(p, b, depth, budget)
    decreases a, 1, 0
  {
    match a
    case List(xs) => ItemsAlike(p, a, b, Least(|xs|, p.maxItems), depth, budget - 1);
    case Dict(xs) => EntriesAlike(p, a, b, Least(|xs|, p.maxItems), depth, budget - 1);
    case _ =>
  }

  lemma {:induction false} ItemsAlike(p: Policy, a: Value, b: Value, n: nat, depth: nat, budget: int)
    requires Same(p.sensitive, a, b) && a.List? && n <= |a.items|
    ensures ShownItems(p, a, n, depth, budget) == ShownItems(p, b, n, depth, budget)
    decreases a, 0, n
  {
    if n > 0 {
      ItemsAlike(p, a, b, n - 1, depth, budget);
      ShownAlike(p, a.items[n - 1], b.items[n - 1], depth + 1, ShownItems(p, a, n - 1, depth, budget).budget);
    }
  }

  lemma {:induction false} EntriesAlike(p: Policy, a: Value, b: Value, n: nat, depth: nat, budget: int)
    requires Same(p.sensitive, a, b) && a.Dict? && n <= |a.entries|
    ensures ShownEntries(p, a, n, depth, budget) == ShownEntries(p, b, n, depth, budget)
    decreases a, 0, n
  {
    if n > 0 {
      EntriesAlike(p, a, b, n - 1, depth, budget);
      var e := a.entries[n - 1];
      if e.key.Name? && !p.sensitive(e.key.name) {
        ShownAlike(p, e.value, b.entries[n - 1].value, depth + 1, ShownEntries(p, a, n - 1, depth, budget).budget);
      }
    }
  }

  lemma {:induction false} PutNests(entries: seq<Entry>, name: string, value: Value, d: nat)
    requires Nests(value, d) && forall i :: 0 <= i < |entries| ==> Nests(entries[i].value, d)
    ensures forall i :: 0 <= i < |Put(entries, name, value)| ==> Nests(Put(entries, name, value)[i].value, d)
  {
    if entries != [] && entries[0].key != Name(name) {
      PutNests(entries[1..], name, value, d);
    }
  }

  predicate ItemsWithin(items: seq<Value>, d: nat) { forall i :: 0 <= i < |items| ==> Nests(items[i], d) }

  predicate EntriesWithin(entries: seq<Entry>, d: nat) { forall i :: 0 <= i < |entries| ==> Nests(entries[i].value, d) }

  lemma NoneWithin(d: nat)
    ensures ItemsWithin([], d) && EntriesWithin([], d)
  {
  }

  lemma {:induction false} ContainersNest(items: seq<Value>, entries: seq<Entry>, d: nat)
    requires ItemsWithin(items, d) && EntriesWithin(entries, d)
    ensures Nests(List(items), d + 1) && Nests(Dict(entries), d + 1)
  {
  }

  /** No more containers inside one another than the depth that is left. */
  lemma {:induction false} ShownNests(p: Policy, v: Value, depth: nat, budget: int, left: nat)
    requires depth + left == p.maxDepth
    ensures var r := Shown(p, v, depth, budget).value; r.Some? ==> Nests(r.value, left)
    decreases v, 1, 0
  {
    hide ItemsWithin, EntriesWithin, ShownItems, ShownEntries;
    if left > 0 {
      match v
      case List(xs) =>
        ItemsNest(p, v, Least(|xs|, p.maxItems), depth, budget - 1, left - 1);
        var r := ShownItems(p, v, Least(|xs|, p.maxItems), depth, budget - 1).value;
        assert EntriesWithin([], left - 1) by { NoneWithin(left - 1); }
        if r.Some? { ContainersNest(r.value, [], left - 1); }
      case Dict(xs) =>
        EntriesNest(p, v, Least(|xs|, p.maxItems), depth, budget - 1, left - 1);
        var r := ShownEntries(p, v, Least(|xs|, p.maxItems), depth, budget - 1).value;
        assert ItemsWithin([], left - 1) by { NoneWithin(left - 1); }
        if r.Some? { ContainersNest([], r.value, left - 1); }
      case _ =>
    }
  }

  lemma {:induction false} ItemsNest(p: Policy, v: Value, n: nat, depth: nat, budget: int, left: nat)
    requires depth + 1 + left == p.maxDepth && v.List? && n <= |v.items|
    ensures var r := ShownItems(p, v, n, depth, budget).value;
            r.Some? ==> ItemsWithin(r.value, left)
    decreases v, 0, n
  {
    if n > 0 {
      ItemsNest(p, v, n - 1, depth, budget, left);
      ShownNests(p, v.items[n - 1], depth + 1, ShownItems(p, v, n - 1, depth, budget).budget, left);
    }
  }

  lemma {:induction false} EntriesNest(p: Policy, v: Value, n: nat, depth: nat, budget: int, left: nat)
    requires depth + 1 + left == p.maxDepth && v.Dict? && n <= |v.entries|
    ensures var r := ShownEntries(p, v, n, depth, budget).value;
            r.Some? ==> EntriesWithin(r.value, left)
    decreases v, 0, n
  {
    if n > 0 {
      EntriesNest(p, v, n - 1, depth, budget, left);
      var before := ShownEntries(p, v, n - 1, depth, budget);
      var e := v.entries[n - 1];
      if before.value.Some? && e.key.Name? {
        var name := Cut(p.clean(e.key.name), p.maxString);
        ShownNests(p, e.value, depth + 1, before.budget, left);
        PutNests(before.value.value, name, REDACTED, left);
        var r := Shown(p, e.value, depth + 1, before.budget).value;
        if r.Some? {
          PutNests(before.value.value, name, r.value, left);
        }
      }
    }
  }

  function SumItems(items: seq<Value>): nat {
    if items == [] then 0 else SumItems(items[..|items| - 1]) + Nodes(items[|items| - 1])
  }

  function SumEntries(entries: seq<Entry>): nat {
    if entries == [] then 0 else Nodes(entries[0].value) + SumEntries(entries[1..])
  }

  lemma {:induction false} ListNodes(items: seq<Value>, n: nat)
    requires n <= |items|
    ensures ItemNodes(List(items), n) == SumItems(items[..n])
  {
    if n > 0 {
      ListNodes(items, n - 1);
      assert items[..n][..n - 1] == items[..n - 1];
    }
  }

  lemma {:induction false} SumEntriesEnd(entries: seq<Entry>, e: Entry)
    ensures SumEntries(entries + [e]) == SumEntries(entries) + Nodes(e.value)
  {
    if entries == [] {
      assert [e][1..] == [];
    } else {
      assert (entries + [e])[1..] == entries[1..] + [e];
      SumEntriesEnd(entries[1..], e);
    }
  }

  lemma {:induction false} DictNodes(entries: seq<Entry>, n: nat)
    requires n <= |entries|
    ensures EntryNodes(Dict(entries), n) == SumEntries(entries[..n])
  {
    if n > 0 {
      DictNodes(entries, n - 1);
      SumEntriesEnd(entries[..n - 1], entries[n - 1]);
      assert entries[..n - 1] + [entries[n - 1]] == entries[..n];
    }
  }

  lemma {:induction false} PutNodes(entries: seq<Entry>, name: string, value: Value)
    ensures SumEntries(Put(entries, name, value)) <= SumEntries(entries) + Nodes(value)
  {
    if entries == [] {
      assert Put(entries, name, value)[1..] == [];
    } else if entries[0].key == Name(name) {
      assert Put(entries, name, value)[1..] == entries[1..];
    } else {
      PutNodes(entries[1..], name, value);
      assert Put(entries, name, value)[1..] == Put(entries[1..], name, value);
    }
  }

  /** What `n` paid nodes can bring along. */
  function Price(n: int, most: nat): int { n * most }

  /** Every node but the first is a child of a node that was paid for, and those have few children. */
  lemma {:induction false} ShownNodes(p: Policy, v: Value, depth: nat, budget: int)
    ensures var r := Shown(p, v, depth, budget);
            && r.budget <= budget && (budget >= 0 ==> r.budget >= 0)
            && (r.value.Some? ==> Nodes(r.value.value) <= 1 + Price(budget - r.budget, p.maxItems))
    decreases v, 1, 0
  {
    hide Price, SumItems, SumEntries;
    if budget <= 0 || depth >= p.maxDepth {
      Free(budget, p.maxItems);
    } else {
      match v
      case List(xs) =>
        var n := Least(|xs|, p.maxItems);
        ItemsCost(p, v, n, depth, budget - 1);
        var r := ShownItems(p, v, n, depth, budget - 1);
        if r.value.Some? {
          ListNodes(r.value.value, |r.value.value|);
          assert r.value.value[..|r.value.value|] == r.value.value;
        }
        Pay(budget, r.budget, n, p.maxItems);
      case Dict(xs) =>
        var n := Least(|xs|, p.maxItems);
        EntriesCost(p, v, n, depth, budget - 1);
        var r := ShownEntries(p, v, n, depth, budget - 1);
        if r.value.Some? {
          DictNodes(r.value.value, |r.value.value|);
          assert r.value.value[..|r.value.value|] == r.value.value;
        }
        Pay(budget, r.budget, n, p.maxItems);
      case _ => Free(budget, p.maxItems);
    }
  }

  lemma MarkIsOne()
    ensures Nodes(REDACTED) == 1
  {
  }

  lemma Free(budget: int, most: nat)
    ensures Price(budget - budget, most) == 0 && Price(budget - (budget - 1), most) == most
  {
  }

  lemma Pay(budget: int, left: int, n: nat, most: nat)
    requires left <= budget - 1 && n <= most
    ensures n + Price(budget - 1 - left, most) <= Price(budget - left, most)
  {
  }

  lemma {:induction false} ItemsCost(p: Policy, v: Value, n: nat, depth: nat, budget: int)
    requires v.List? && n <= |v.items|
    ensures var r := ShownItems(p, v, n, depth, budget);
            && r.budget <= budget && (budget >= 0 ==> r.budget >= 0)
            && (r.value.Some? ==> SumItems(r.value.value) <= n + Price(budget - r.budget, p.maxItems))
    decreases v, 0, n
  {
    hide Price, Nodes;
    Free(budget, p.maxItems);
    if n > 0 {
      ItemsCost(p, v, n - 1, depth, budget);
      var before := ShownItems(p, v, n - 1, depth, budget);
      ShownNodes(p, v.items[n - 1], depth + 1, before.budget);
      var r := Shown(p, v.items[n - 1], depth + 1, before.budget);
      Add(budget, before.budget, r.budget, p.maxItems);
      if before.value.Some? && r.value.Some? {
        var all := before.value.value + [r.value.value];
        assert all[..|all| - 1] == before.value.value;
      }
    }
  }

  lemma Add(a: int, b: int, c: int, most: nat)
    ensures Price(a - b, most) + Price(b - c, most) == Price(a - c, most)
  {
  }

  lemma {:induction false} EntriesCost(p: Policy, v: Value, n: nat, depth: nat, budget: int)
    requires v.Dict? && n <= |v.entries|
    ensures var r := ShownEntries(p, v, n, depth, budget);
            && r.budget <= budget && (budget >= 0 ==> r.budget >= 0)
            && (r.value.Some? ==> SumEntries(r.value.value) <= n + Price(budget - r.budget, p.maxItems))
    decreases v, 0, n
  {
    hide Price, Nodes;
    Free(budget, p.maxItems);
    if n > 0 {
      EntriesCost(p, v, n - 1, depth, budget);
      var before := ShownEntries(p, v, n - 1, depth, budget);
      var e := v.entries[n - 1];
      if before.value.Some? && e.key.Name? {
        var name := Cut(p.clean(e.key.name), p.maxString);
        ShownNodes(p, e.value, depth + 1, before.budget);
        var r := Shown(p, e.value, depth + 1, before.budget);
        Add(budget, before.budget, r.budget, p.maxItems);
        PutNodes(before.value.value, name, REDACTED);
        assert Nodes(REDACTED) == 1 by { MarkIsOne(); }
        if r.value.Some? { PutNodes(before.value.value, name, r.value.value); }
      }
    }
  }

  /** What one call shows: nested no deeper than the policy says, with a bounded number of nodes, and the same for
      all values that differ only under sensitive keys. */
  lemma {:induction false} MetricsAreBounded(p: Policy, v: Value)
    ensures var r := Shown(p, v, 0, p.maxNodes).value;
            r.Some? ==> Nests(r.value, p.maxDepth) && Nodes(r.value) <= 1 + p.maxNodes * p.maxItems
  {
    ShownNests(p, v, 0, p.maxNodes, p.maxDepth);
    ShownNodes(p, v, 0, p.maxNodes);
    var r := Shown(p, v, 0, p.maxNodes);
    Spent(p.maxNodes, r.budget, p.maxItems);
  }

  lemma Spent(all: nat, left: int, most: nat)
    requires 0 <= left <= all
    ensures Price(all - left, most) <= all * most
  {
  }

  /* ---- what is shown, and what is shown unchanged ---- */

  /** Every text and every key is a mark or went through `clean`, and is no longer than `length`. */
  ghost predicate Washed(p: Policy, v: Value, length: nat) {
    match v
    case Str(s) => v == REDACTED || v == TRUNCATED || WashedText(p, s, length)
    case List(xs) => forall i :: 0 <= i < |xs| ==> Washed(p, xs[i], length)
    case Dict(xs) =>
      forall i :: 0 <= i < |xs| ==>
        xs[i].key.Name? && WashedText(p, xs[i].key.name, length) && Washed(p, xs[i].value, length)
    case _ => !v.NotFinite? && !v.Strange?
  }

  ghost predicate WashedText(p: Policy, s: string, length: nat) { exists raw: string :: s == Cut(p.clean(raw), length) }

  lemma {:induction false} PutWashed(p: Policy, entries: seq<Entry>, name: string, value: Value, length: nat)
    requires Washed(p, Dict(entries), length) && WashedText(p, name, length) && Washed(p, value, length)
    ensures Washed(p, Dict(Put(entries, name, value)), length)
  {
    if entries != [] && entries[0].key != Name(name) {
      PutWashed(p, entries[1..], name, value, length);
    }
  }

  /** Nothing is shown as it came in. */
  lemma {:induction false} ShownWashed(p: Policy, v: Value, depth: nat, budget: int)
    ensures var r := Shown(p, v, depth, budget).value; r.Some? ==> Washed(p, r.value, p.maxString)
    decreases v, 1, 0
  {
    match v
    case List(xs) => ItemsWashed(p, v, Least(|xs|, p.maxItems), depth, budget - 1);
    case Dict(xs) => EntriesWashed(p, v, Least(|xs|, p.maxItems), depth, budget - 1);
    case _ =>
  }

  lemma {:induction false} ItemsWashed(p: Policy, v: Value, n: nat, depth: nat, budget: int)
    requires v.List? && n <= |v.items|
    ensures var r := ShownItems(p, v, n, depth, budget).value; r.Some? ==> Washed(p, List(r.value), p.maxString)
    decreases v, 0, n
  {
    if n > 0 {
      ItemsWashed(p, v, n - 1, depth, budget);
      ShownWashed(p, v.items[n - 1], depth + 1, ShownItems(p, v, n - 1, depth, budget).budget);
    }
  }

  lemma {:induction false} EntriesWashed(p: Policy, v: Value, n: nat, depth: nat, budget: int)
    requires v.Dict? && n <= |v.entries|
    ensures var r := ShownEntries(p, v, n, depth, budget).value; r.Some? ==> Washed(p, Dict(r.value), p.maxString)
    decreases v, 0, n
  {
    if n > 0 {
      EntriesWashed(p, v, n - 1, depth, budget);
      var before := ShownEntries(p, v, n - 1, depth, budget);
      var e := v.entries[n - 1];
      if before.value.Some? && e.key.Name? {
        var name := Cut(p.clean(e.key.name), p.maxString);
        assert WashedText(p, name, p.maxString);
        PutWashed(p, before.value.value, name, REDACTED, p.maxString);
        ShownWashed(p, e.value, depth + 1, before.budget);
        var r := Shown(p, e.value, depth + 1, before.budget).value;
        if r.Some? { PutWashed(p, before.value.value, name, r.value, p.maxString); }
      }
    }
  }

  function At(entries: seq<Entry>, name: string): Option<Value> {
    if entries == [] then None
    else if entries[0].key == Name(name) then Some(entries[0].value)
    else At(entries[1..], name)
  }

  lemma {:induction false} PutAt(entries: seq<Entry>, name: string, value: Value, other: string)
    ensures At(Put(entries, name, value), other) == if other == name then Some(value) else At(entries, other)
    ensures Has(entries, other) <==> At(entries, other).Some?
  {
    if entries != [] {
      assert forall i :: 0 <= i < |entries| - 1 ==> entries[1..][i] == entries[i + 1];
      PutAt(entries[1..], name, value, other);
      if At(entries[1..], other).Some? {
        var i :| 0 <= i < |entries[1..]| && entries[1..][i].key == Name(other);
        assert entries[i + 1].key == Name(other);
      }
    }
  }

  function ShownName(p: Policy, e: Entry): string
    requires e.key.Name?
  {
    Cut(p.clean(e.key.name), p.maxString)
  }

  /** A sensitive key, and a name that more than one key comes out as, carries the mark. */
  lemma {:induction false} MarkedNames(p: Policy, v: Value, n: nat, depth: nat, budget: int, i: nat)
    requires v.Dict? && i < n <= |v.entries|
    requires ShownEntries(p, v, n, depth, budget).value.Some?
    ensures var r := ShownEntries(p, v, n, depth, budget).value.value;
            && v.entries[i].key.Name? && At(r, ShownName(p, v.entries[i])).Some?
            && (p.sensitive(v.entries[i].key.name) ==> At(r, ShownName(p, v.entries[i])) == Some(REDACTED))
            && (forall j :: 0 <= j < n && j != i && v.entries[j].key.Name?
                            && ShownName(p, v.entries[j]) == ShownName(p, v.entries[i]) ==>
                  At(r, ShownName(p, v.entries[i])) == Some(REDACTED))
    decreases n
  {
    var before := ShownEntries(p, v, n - 1, depth, budget).value.value;
    var last := v.entries[n - 1];
    var r := ShownEntries(p, v, n, depth, budget).value.value;
    if i < n - 1 {
      MarkedNames(p, v, n - 1, depth, budget, i);
    }
    var name := ShownName(p, v.entries[i]);
    var value := if Has(before, ShownName(p, last)) || p.sensitive(last.key.name) then REDACTED
                 else Shown(p, last.value, depth + 1, ShownEntries(p, v, n - 1, depth, budget).budget).value.value;
    assert r == Put(before, ShownName(p, last), value);
    PutAt(before, ShownName(p, last), value, name);
    forall j | 0 <= j < n - 1 && i == n - 1 && v.entries[j].key.Name? && ShownName(p, v.entries[j]) == name
      ensures At(r, name) == Some(REDACTED)
    {
      MarkedNames(p, v, n - 1, depth, budget, j);
    }
  }

  /** At most `d` levels, counting the innermost. */
  predicate Within(v: Value, d: nat) {
    d > 0 &&
    match v
    case List(xs) => forall i :: 0 <= i < |xs| ==> Within(xs[i], d - 1)
    case Dict(xs) => forall i :: 0 <= i < |xs| ==> Within(xs[i].value, d - 1)
    case _ => true
  }

  predicate PlainText(p: Policy, s: string, cut: bool) { p.clean(s) == s && (cut ==> |s| <= p.maxString) }

  /** Nothing in it calls for redaction; with `cut`, nothing is over the metric bounds either. */
  predicate Plain(p: Policy, v: Value, cut: bool) {
    match v
    case Str(s) => PlainText(p, s, cut)
    case Number(n) => cut ==> -LARGEST <= n <= LARGEST
    case List(xs) => (cut ==> |xs| <= p.maxItems) && forall i :: 0 <= i < |xs| ==> Plain(p, xs[i], cut)
    case Dict(xs) =>
      && (cut ==> |xs| <= p.maxItems)
      && (forall i :: 0 <= i < |xs| ==>
            xs[i].key.Name? && !p.sensitive(xs[i].key.name) && PlainText(p, xs[i].key.name, cut)
            && Plain(p, xs[i].value, cut))
      && (forall i, j :: 0 <= i < j < |xs| ==> xs[i].key != xs[j].key)
    case _ => !v.NotFinite? && !v.Strange?
  }

  lemma {:induction false} PutNew(entries: seq<Entry>, name: string, value: Value)
    requires !Has(entries, name)
    ensures Put(entries, name, value) == entries + [Entry(Name(name), value)]
  {
    if entries != [] {
      assert entries[0].key != Name(name);
      assert forall i :: 0 <= i < |entries| - 1 ==> entries[1..][i] == entries[i + 1];
      PutNew(entries[1..], name, value);
    }
  }

  /** A value that needs no redaction and is within all bounds is shown as it is, at the cost of its nodes. */
  lemma {:induction false} PlainIsShown(p: Policy, v: Value, depth: nat, budget: int)
    requires depth < p.maxDepth && Plain(p, v, true) && Within(v, p.maxDepth - depth) && Nodes(v) <= budget
    ensures Shown(p, v, depth, budget) == Out(Some(v), budget - Nodes(v))
    decreases v, 1, 0
  {
    match v
    case List(xs) =>
      PlainItems(p, v, |xs|, depth, budget - 1);
      assert xs[..|xs|] == xs;
    case Dict(xs) =>
      PlainEntries(p, v, |xs|, depth, budget - 1);
      assert xs[..|xs|] == xs;
    case _ =>
  }

  lemma {:induction false} PlainItems(p: Policy, v: Value, n: nat, depth: nat, budget: int)
    requires v.List? && n <= |v.items| && ItemNodes(v, n) <= budget
    requires depth < p.maxDepth && Plain(p, v, true) && Within(v, p.maxDepth - depth)
    ensures ShownItems(p, v, n, depth, budget) == Out(Some(v.items[..n]), budget - ItemNodes(v, n))
    decreases v, 0, n
  {
    if n > 0 {
      PlainItems(p, v, n - 1, depth, budget);
      assert Within(v.items[n - 1], p.maxDepth - depth - 1);
      PlainIsShown(p, v.items[n - 1], depth + 1, budget - ItemNodes(v, n - 1));
      assert v.items[..n - 1] + [v.items[n - 1]] == v.items[..n];
    }
  }

  lemma PlainEntry(p: Policy, v: Value, n: nat, cut: bool, d: nat)
    requires v.Dict? && n < |v.entries| && Plain(p, v, cut) && Within(v, d)
    ensures var e := v.entries[n];
            && e.key.Name? && !p.sensitive(e.key.name) && p.clean(e.key.name) == e.key.name
            && (cut ==> Cut(p.clean(e.key.name), p.maxString) == e.key.name)
            && !Has(v.entries[..n], e.key.name) && Plain(p, e.value, cut) && d > 0 && Within(e.value, d - 1)
  {
  }

  lemma {:induction false} PlainEntries(p: Policy, v: Value, n: nat, depth: nat, budget: int)
    requires v.Dict? && n <= |v.entries| && EntryNodes(v, n) <= budget
    requires depth < p.maxDepth && Plain(p, v, true) && Within(v, p.maxDepth - depth)
    ensures ShownEntries(p, v, n, depth, budget) == Out(Some(v.entries[..n]), budget - EntryNodes(v, n))
    decreases v, 0, n
  {
    hide Plain, Within, Has, Put, Shown, Nodes, Cut;
    if n > 0 {
      PlainEntries(p, v, n - 1, depth, budget);
      PlainEntry(p, v, n - 1, true, p.maxDepth - depth);
      var e := v.entries[n - 1];
      PlainDepth(p, e.value, depth + 1);
      PlainIsShown(p, e.value, depth + 1, budget - EntryNodes(v, n - 1));
      PutNew(v.entries[..n - 1], e.key.name, e.value);
      assert v.entries[..n - 1] + [e] == v.entries[..n];
    }
  }

  lemma PlainDepth(p: Policy, v: Value, depth: nat)
    requires depth <= p.maxDepth && Within(v, p.maxDepth - depth)
    ensures depth < p.maxDepth
  {
  }

  /* ---- capability output ---- */

  const DEEPEST := 64
  const OUTPUT_NODES := 100000

  /** The gateway raises where the metrics policy truncates: too deep, too many nodes, names that collide. */
  function Safe(p: Policy, v: Value, depth: nat, budget: int): Out<Value>
    decreases v, 1, 0
  {
    if depth > DEEPEST || budget <= 0 then Out(None, budget)
    else
      match v
      case Dict(xs) =>
        var r := SafeEntries(p, v, |xs|, depth, budget - 1);
        Out(if r.value.Some? then Some(Dict(r.value.value)) else None, r.budget)
      case List(xs) =>
        var r := SafeItems(p, v, |xs|, depth, budget - 1);
        Out(if r.value.Some? then Some(List(r.value.value)) else None, r.budget)
      case Str(s) => Out(Some(Str(p.clean(s))), budget - 1)
      case NotFinite => Out(None, budget - 1)
      case Strange => Out(None, budget - 1)
      case _ => Out(Some(v), budget - 1)
  }

  function SafeItems(p: Policy, v: Value, n: nat, depth: nat, budget: int): Out<seq<Value>>
    requires v.List? && n <= |v.items|
    decreases v, 0, n
  {
    if n == 0 then Out(Some([]), budget)
    else
      var before := SafeItems(p, v, n - 1, depth, budget);
      if before.value.None? then before
      else
        var r := Safe(p, v.items[n - 1], depth + 1, before.budget);
        Out(if r.value.Some? then Some(before.value.value + [r.value.value]) else None, r.budget)
  }

  function SafeEntries(p: Policy, v: Value, n: nat, depth: nat, budget: int): Out<seq<Entry>>
    requires v.Dict? && n <= |v.entries|
    decreases v, 0, n
  {
    if n == 0 then Out(Some([]), budget)
    else
      var before := SafeEntries(p, v, n - 1, depth, budget);
      var e := v.entries[n - 1];
      if before.value.None? then before
      else if e.key.Odd? || Has(before.value.value, p.clean(e.key.name)) then Out(None, before.budget)
      else
        var r := if p.sensitive(e.key.name) then Out(Some(REDACTED), before.budget)
                 else Safe(p, e.value, depth + 1, before.budget);
        Out(if r.value.Some? then Some(before.value.value + [Entry(Name(p.clean(e.key.name)), r.value.value)])
            else None,
            r.budget)
  }

  /** Nothing under a sensitive key can be told from the output, the budget left, or an exception. */
  lemma {:induction false} SafeAlike(p: Policy, a: Value, b: Value, depth: nat, budget: int)
    requires Same(p.sensitive, a, b)
    ensures Safe(p, a, depth, budget) == Safe(p, b, depth, budget)
    decreases a, 1, 0
  {
    match a
    case List(xs) => SafeItemsAlike(p, a, b, |xs|, depth, budget - 1);
    case Dict(xs) => SafeEntriesAlike(p, a, b, |xs|, depth, budget - 1);
    case _ =>
  }

  lemma {:induction false} SafeItemsAlike(p: Policy, a: Value, b: Value, n: nat, depth: nat, budget: int)
    requires Same(p.sensitive, a, b) && a.List? && n <= |a.items|
    ensures SafeItems(p, a, n, depth, budget) == SafeItems(p, b, n, depth, budget)
    decreases a, 0, n
  {
    if n > 0 {
      SafeItemsAlike(p, a, b, n - 1, depth, budget);
      SafeAlike(p, a.items[n - 1], b.items[n - 1], depth + 1, SafeItems(p, a, n - 1, depth, budget).budget);
    }
  }

  lemma {:induction false} SafeEntriesAlike(p: Policy, a: Value, b: Value, n: nat, depth: nat, budget: int)
    requires Same(p.sensitive, a, b) && a.Dict? && n <= |a.entries|
    ensures SafeEntries(p, a, n, depth, budget) == SafeEntries(p, b, n, depth, budget)
    decreases a, 0, n
  {
    if n > 0 {
      SafeEntriesAlike(p, a, b, n - 1, depth, budget);
      var e := a.entries[n - 1];
      if e.key.Name? && !p.sensitive(e.key.name) {
        SafeAlike(p, e.value, b.entries[n - 1].value, depth + 1, SafeEntries(p, a, n - 1, depth, budget).budget);
      }
    }
  }

  /** Output that needs no redaction, is nested no more than 65 deep and has at most 100000 nodes goes out as it is. */
  lemma {:induction false} PlainIsSafe(p: Policy, v: Value, depth: nat, budget: int)
    requires depth <= DEEPEST && Plain(p, v, false) && Within(v, DEEPEST + 1 - depth) && Nodes(v) <= budget
    ensures Safe(p, v, depth, budget) == Out(Some(v), budget - Nodes(v))
    decreases v, 1, 0
  {
    match v
    case List(xs) =>
      SafePlainItems(p, v, |xs|, depth, budget - 1);
      assert xs[..|xs|] == xs;
    case Dict(xs) =>
      SafePlainEntries(p, v, |xs|, depth, budget - 1);
      assert xs[..|xs|] == xs;
    case _ =>
  }

  lemma {:induction false} SafePlainItems(p: Policy, v: Value, n: nat, depth: nat, budget: int)
    requires v.List? && n <= |v.items| && ItemNodes(v, n) <= budget
    requires depth <= DEEPEST && Plain(p, v, false) && Within(v, DEEPEST + 1 - depth)
    ensures SafeItems(p, v, n, depth, budget) == Out(Some(v.items[..n]), budget - ItemNodes(v, n))
    decreases v, 0, n
  {
    if n > 0 {
      SafePlainItems(p, v, n - 1, depth, budget);
      assert Within(v.items[n - 1], DEEPEST - depth);
      PlainIsSafe(p, v.items[n - 1], depth + 1, budget - ItemNodes(v, n - 1));
      assert v.items[..n - 1] + [v.items[n - 1]] == v.items[..n];
    }
  }

  lemma {:induction false} SafePlainEntries(p: Policy, v: Value, n: nat, depth: nat, budget: int)
    requires v.Dict? && n <= |v.entries| && EntryNodes(v, n) <= budget
    requires depth <= DEEPEST && Plain(p, v, false) && Within(v, DEEPEST + 1 - depth)
    ensures SafeEntries(p, v, n, depth, budget) == Out(Some(v.entries[..n]), budget - EntryNodes(v, n))
    decreases v, 0, n
  {
    hide Plain, Has, Safe, Nodes;
    if n > 0 {
      SafePlainEntries(p, v, n - 1, depth, budget);
      PlainEntry(p, v, n - 1, false, DEEPEST + 1 - depth);
      var e := v.entries[n - 1];
      PlainIsSafe(p, e.value, depth + 1, budget - EntryNodes(v, n - 1));
      assert v.entries[..n - 1] + [e] == v.entries[..n];
    }
  }

  /** A capability's result as it leaves the gateway; None if redaction refuses it. */
  function Output(p: Policy, v: Value): Option<Value> { Safe(p, v, 0, OUTPUT_NODES).value }

  /** Results that differ only under sensitive keys leave alike, and what needs no redaction and is within bounds
      leaves unchanged. */
  lemma {:induction false} OutputHidesAndKeeps(p: Policy, a: Value, b: Value)
    requires Same(p.sensitive, a, b)
    ensures Output(p, a) == Output(p, b)
    ensures Plain(p, a, false) && Within(a, DEEPEST + 1) && Nodes(a) <= OUTPUT_NODES ==> Output(p, b) == Some(a)
  {
    hide Plain, Within, Nodes, Same;
    SafeAlike(p, a, b, 0, OUTPUT_NODES);
    if Plain(p, a, false) && Within(a, DEEPEST + 1) && Nodes(a) <= OUTPUT_NODES {
      PlainIsSafe(p, a, 0, OUTPUT_NODES);
    }
  }

  /** Whatever goes out, every key is a cleaned one, no two are equal, and a sensitive key carries the mark alone. */
  lemma {:induction false} SafeKeepsKeys(p: Policy, v: Value, n: nat, depth: nat, budget: int)
    requires v.Dict? && n <= |v.entries|
    requires SafeEntries(p, v, n, depth, budget).value.Some?
    ensures var r := SafeEntries(p, v, n, depth, budget).value.value;
            && |r| == n
            && (forall i :: 0 <= i < n ==>
                  && v.entries[i].key.Name? && r[i].key == Name(p.clean(v.entries[i].key.name))
                  && (p.sensitive(v.entries[i].key.name) ==> r[i].value == REDACTED))
            && (forall i, j :: 0 <= i < j < n ==> r[i].key != r[j].key)
  {
    if n > 0 {
      SafeKeepsKeys(p, v, n - 1, depth, budget);
    }
  }
}
