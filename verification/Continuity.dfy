/** The continuity ledger of a run (src/agent_runtime/continuity.py): four growing lists, a revision, and the
    newest updates kept for replay. */
module Continuity {
  import opened Text
  import opened RunStates

  const MAX_STRING := 2000
  const MAX_ITEMS := 32
  const MAX_HISTORY := 32
  const MAX_REVISION := 1000000
  const MEMORY_WRITE_STATES := {New, Intake, Analyze, PlanReady, Implement, Validate}
  const FIELDS := {"completed", "next", "working_set", "learnings"}

  /** The named lists with the items to append; its canonical JSON is equal just when it is. */
  type Update = map<string, seq<string>>

  type Lists = map<string, seq<string>>

  datatype Error = Invalid | Missing | Stale | Limit | Denied

  datatype Result = Ok(revision: nat, lists: Lists) | Err(error: Error)

  predicate GoodText(s: string) { 0 < |s| <= MAX_STRING }

  predicate GoodItems(items: seq<string>) {
    |items| <= MAX_ITEMS && forall i :: 0 <= i < |items| ==> GoodText(items[i])
  }

  predicate GoodUpdate(u: Update) {
    && u.Keys <= FIELDS
    && (forall f :: f in u ==> GoodItems(u[f]))
    && exists f :: f in u && u[f] != []
  }

  /** In figures: only the four lists are named, at most 32 items of 1 to 2000 characters for each, and one item in
      all at the least. */
  lemma {:induction false} UpdatesAllowed(u: Update)
    ensures GoodUpdate(u) <==>
            && (forall f :: f in u ==> f in {"completed", "next", "working_set", "learnings"} && |u[f]| <= 32)
            && (forall f, i :: f in u && 0 <= i < |u[f]| ==> 1 <= |u[f][i]| <= 2000)
            && exists f, i :: f in u && 0 <= i < |u[f]| && u[f][i] != ""
  {
    if GoodUpdate(u) {
      var f :| f in u && u[f] != [];
      assert GoodText(u[f][0]);
    }
  }

  /** It fits as long as no list comes to hold more than 32 items. */
  lemma FitsMeans(lists: Lists, u: Update)
    requires u.Keys <= lists.Keys
    ensures Fits(lists, u) <==> forall f :: f in u ==> |lists[f]| + |u[f]| <= 32
  {
  }

  function Items(u: Update, f: string): seq<string> { if f in u then u[f] else [] }

  /** All that the updates in order append to one list. */
  function Appended(applied: seq<Update>, f: string): seq<string> {
    if applied == [] then []
    else Appended(applied[..|applied| - 1], f) + Items(applied[|applied| - 1], f)
  }

  /** The lists hold what the updates appended, one after the other. */
  ghost predicate HoldsAll(lists: Lists, applied: seq<Update>) {
    lists.Keys == FIELDS && forall f :: f in FIELDS ==> lists[f] == Appended(applied, f)
  }

  /** The newest updates, by the revision each led to. */
  ghost predicate Newest(updates: map<nat, Update>, applied: seq<Update>) {
    && (forall r :: r in updates <==> 1 <= r <= |applied| && |applied| < r + MAX_HISTORY)
    && (forall r :: r in updates ==> updates[r] == applied[r - 1])
  }

  function Total(applied: seq<Update>): nat {
    |Appended(applied, "completed")| + |Appended(applied, "next")| + |Appended(applied, "working_set")|
      + |Appended(applied, "learnings")|
  }

  lemma {:induction false} EveryUpdateAppends(applied: seq<Update>)
    requires forall i :: 0 <= i < |applied| ==> GoodUpdate(applied[i])
    ensures |applied| <= Total(applied)
  {
    if applied != [] {
      var last := applied[|applied| - 1];
      EveryUpdateAppends(applied[..|applied| - 1]);
      assert GoodUpdate(last);
      var f :| f in last && last[f] != [];
      assert Items(last, f) != [];
    }
  }

  /** Since no list outgrows its bound, the revision stays at 128 or less, far from its own limit. */
  lemma {:induction false} RevisionsAreFew(lists: Lists, applied: seq<Update>)
    requires HoldsAll(lists, applied) && forall f :: f in lists ==> |lists[f]| <= MAX_ITEMS
    requires forall i :: 0 <= i < |applied| ==> GoodUpdate(applied[i])
    ensures |applied| <= 128 < MAX_REVISION
  {
    EveryUpdateAppends(applied);
    hide Appended;
    assert forall f :: f in FIELDS ==> |Appended(applied, f)| <= MAX_ITEMS;
  }

  predicate Fits(lists: Lists, u: Update) {
    forall f :: f in u ==> f in lists && |lists[f]| + |u[f]| <= MAX_ITEMS
  }

  lemma JoinedItems(a: seq<string>, b: seq<string>)
    requires GoodItems(a) && GoodItems(b) && |a + b| <= MAX_ITEMS
    ensures GoodItems(a + b)
  {
  }

  lemma {:induction false} Grow(lists: Lists, applied: seq<Update>, u: Update)
    requires HoldsAll(lists, applied) && u.Keys <= FIELDS
    ensures HoldsAll(map f | f in lists :: lists[f] + Items(u, f), applied + [u])
  {
  }

  lemma {:induction false} RangeSize(lo: nat, hi: nat, s: set<nat>)
    requires lo <= hi && forall r :: r in s <==> lo < r <= hi
    ensures |s| == hi - lo
  {
    if lo == hi {
      assert s == {};
    } else {
      RangeSize(lo, hi - 1, s - {hi});
    }
  }

  /** How many stored revisions are newer. */
  function Newer(updates: map<nat, Update>, r: nat): set<nat> { set q | q in updates && q > r }

  /** `DELETE ... WHERE revision NOT IN (... ORDER BY revision DESC LIMIT 32)`. */
  function Pruned(updates: map<nat, Update>): map<nat, Update> {
    map r | r in updates && |Newer(updates, r)| < MAX_HISTORY :: updates[r]
  }

  lemma {:induction false} PrunedIsNewest(updates: map<nat, Update>, applied: seq<Update>, u: Update)
    requires Newest(updates, applied)
    ensures Newest(Pruned(updates[|applied| + 1 := u]), applied + [u])
  {
    var all := updates[|applied| + 1 := u];
    var top := |applied| + 1;
    forall r | r in all ensures |Newer(all, r)| == top - r {
      RangeSize(r, top, Newer(all, r));
    }
  }

  lemma ReplayCheck(updates: map<nat, Update>, applied: seq<Update>, expected: nat, u: Update)
    requires Newest(updates, applied)
    ensures (expected + 1 in updates && updates[expected + 1] == u)
       <==> (expected < |applied| <= expected + MAX_HISTORY && applied[expected] == u)
  {
  }

  lemma GoodFields(lists: Lists, applied: seq<Update>, u: Update)
    requires HoldsAll(lists, applied) && GoodUpdate(u)
    ensures u.Keys <= lists.Keys && u.Keys <= FIELDS && forall f :: f in u ==> GoodItems(u[f])
  {
  }

  /** One run's rows: the ledger, the stored updates, and the run's state. */
  class Ledger {
    var initialized: bool
    var goal: string
    var constraints: seq<string>
    var revision: nat
    var lists: Lists
    var updates: map<nat, Update>
    var state: RunState
    ghost var applied: seq<Update>

    constructor ()
      ensures Valid() && !initialized && applied == []
    {
      initialized, goal, constraints, revision, lists, updates, state, applied :=
        false, "", [], 0, map[], map[], New, [];
    }

    ghost predicate Valid()
      reads this
    {
      && (!initialized ==> applied == [] && revision == 0)
      && |applied| == revision
      && (forall i :: 0 <= i < |applied| ==> GoodUpdate(applied[i]))
      && (initialized ==>
            HoldsAll(lists, applied) && Newest(updates, applied) && forall f :: f in lists ==> GoodItems(lists[f]))
    }

    /** `initialize`: once. */
    method Initialize(goal: string, constraints: seq<string>) returns (ok: bool)
      requires Valid()
      modifies this
      ensures Valid() && applied == old(applied)
      ensures ok == (!old(initialized) && GoodText(goal) && GoodItems(constraints))
      ensures ok ==> initialized && this.goal == goal && this.constraints == constraints
      ensures !ok ==> initialized == old(initialized) && lists == old(lists) && this.goal == old(this.goal)
    {
      ok := GoodText(goal) && GoodItems(constraints) && !initialized;
      if ok {
        this.goal, this.constraints, initialized, revision := goal, constraints, true, 0;
        lists := map["completed" := [], "next" := [], "working_set" := [], "learnings" := []];
        updates := map[];
      }
    }

    lemma Bounded()
      requires Valid() && initialized
      ensures revision <= 128 < MAX_REVISION
    {
      hide HoldsAll, Newest;
      RevisionsAreFew(lists, applied);
    }

    /** Anyone moves the run. */
    method Move(target: RunState)
      requires Valid()
      modifies this`state
      ensures Valid()
    {
      if CanMove(state, target) { state := target; }
    }

    /** The lists with the update's items, or None when one would grow past its bound. */
    method Merge(u: Update) returns (merged: Option<Lists>)
      requires u.Keys <= lists.Keys && (forall f :: f in lists ==> GoodItems(lists[f]))
      requires forall f :: f in u ==> GoodItems(u[f])
      ensures merged.Some? <==> Fits(lists, u)
      ensures merged.Some? ==> merged.value == (map f | f in lists :: lists[f] + Items(u, f))
                               && forall f :: f in lists ==> GoodItems(merged.value[f])
    {
      hide GoodItems;
      var result := lists;
      var todo := u.Keys;
      while todo != {}
        invariant todo <= u.Keys && result.Keys == lists.Keys
        invariant forall f :: f in u.Keys - todo ==> result[f] == lists[f] + u[f] && |lists[f]| + |u[f]| <= MAX_ITEMS
        invariant forall f :: f in lists && f !in u.Keys - todo ==> result[f] == lists[f]
        invariant forall f :: f in lists ==> GoodItems(result[f])
        decreases |todo|
      {
        var f :| f in todo;
        todo := todo - {f};
        if |lists[f] + u[f]| > MAX_ITEMS { return None; }
        JoinedItems(lists[f], u[f]);
        result := result[f := lists[f] + u[f]];
      }
      assert forall f :: f in lists && f !in u ==> Items(u, f) == [] && lists[f] + Items(u, f) == lists[f];
      assert result == map f | f in lists :: lists[f] + Items(u, f);
      return Some(result);
    }

    /** `update`. It is accepted exactly when it is well formed and either applies at the present revision, in a
        state that allows it and within bounds, or is the very update that was applied at the revision it names,
        not more than 32 revisions ago; the second kind changes nothing. The revision limit is never met. */
    method Append(u: Update, expected: int) returns (r: Result)
      requires Valid()
      modifies this`revision, this`lists, this`updates, this`applied
      ensures Valid()
      ensures r.Ok? <==>
              && GoodUpdate(u) && expected >= 0 && initialized
              && (|| (expected == old(revision) && Fits(old(lists), u)
                      && state in {New, Intake, Analyze, PlanReady, Implement, Validate})
                  || (expected < old(revision) <= expected + 32 && old(applied)[expected] == u))
      ensures applied == if r.Ok? && expected == old(revision) then old(applied) + [u] else old(applied)
      ensures !(r.Ok? && expected == old(revision)) ==> lists == old(lists) && updates == old(updates)
      ensures r.Ok? ==> r.revision == revision && r.lists == lists
      ensures r != Err(Limit) && revision <= 128
    {
      hide Appended, Total, HoldsAll, Newest, GoodItems, GoodUpdate, Fits;
      if initialized { Bounded(); }
      if !GoodUpdate(u) || expected < 0 { return Err(Invalid); }
      if !initialized { return Err(Missing); }
      ReplayCheck(updates, applied, expected, u);
      GoodFields(lists, applied, u);
      if revision != expected {
        if expected + 1 in updates && updates[expected + 1] == u { return Ok(revision, lists); }
        return Err(Stale);
      }
      if expected >= MAX_REVISION { return Err(Limit); }
      var merged := Merge(u);
      if merged.None? { return Err(Invalid); }
      if state !in MEMORY_WRITE_STATES { return Err(Denied); }
      Grow(lists, applied, u);
      PrunedIsNewest(updates, applied, u);
      lists, revision := merged.value, expected + 1;
      updates := Pruned(updates[expected + 1 := u]);
      applied := applied + [u];
      Bounded();
      return Ok(revision, lists);
    }

    /** One call by anyone else, after the run was moved. */
    method Meanwhile(u: Update, expected: int, target: RunState)
      requires Valid()
      modifies this
      ensures Valid() && initialized == old(initialized)
      ensures applied == old(applied) || applied == old(applied) + [u]
    {
      hide HoldsAll, Newest, GoodUpdate, GoodItems, Fits, CanMove;
      Move(target);
      var _ := Append(u, expected);
    }

    /** An update sent again while it is among the newest 32: a success that changes nothing. */
    method Resend(u: Update, expected: nat) returns (r: Result)
      requires Valid() && initialized && GoodUpdate(u)
      requires expected < |applied| <= expected + MAX_HISTORY && applied[expected] == u
      modifies this`revision, this`lists, this`updates, this`applied
      ensures Valid() && r == Ok(revision, lists)
      ensures applied == old(applied) && revision == old(revision) && lists == old(lists) && updates == old(updates)
    {
      hide HoldsAll, Newest, GoodUpdate, GoodItems, Fits;
      r := Append(u, expected);
    }

    /** Sending it again any number of times (`None` below), in between calls with up to 31 updates of others and any
        moves of the run: every sending succeeds, and the ledger grows by updates of the others alone. */
    method Repeat(u: Update, expected: nat, more: seq<Option<(Update, int, RunState)>>)
      returns (answers: seq<Result>, ghost rest: seq<Update>)
      requires Valid() && initialized && GoodUpdate(u) && expected + 1 == |applied| && applied[expected] == u
      requires |Others(more)| < MAX_HISTORY
      modifies this
      ensures Valid() && |answers| == |more| - |Others(more)| && forall i :: 0 <= i < |answers| ==> answers[i].Ok?
      ensures applied == old(applied) + rest && IsPart(rest, Others(more))
    {
      hide HoldsAll, Newest, GoodItems, GoodUpdate, Fits, Valid, Others, IsPart;
      answers, rest := [], [];
      NoOthers();
      assert more[..0] == [];
      for n := 0 to |more|
        invariant Valid() && initialized && applied == old(applied) + rest && IsPart(rest, Others(more[..n]))
        invariant |rest| <= |Others(more[..n])| && |answers| == n - |Others(more[..n])|
        invariant forall i :: 0 <= i < |answers| ==> answers[i].Ok?
      {
        assert more[..n + 1] == more[..n] + [more[n]];
        OthersEnd(more[..n], more[n]);
        OthersFew(more, n);
        if more[n].None? {
          assert Others(more[..n + 1]) == Others(more[..n]);
          var answer := Resend(u, expected);
          answers := answers + [answer];
        } else {
          var other := more[n].value;
          PartGrows(rest, Others(more[..n]), other.0);
          Meanwhile(other.0, other.1, other.2);
          assert Others(more[..n + 1]) == Others(more[..n]) + [other.0];
          if applied != old(applied) + rest {
            assert old(applied) + rest + [other.0] == old(applied) + (rest + [other.0]);
            rest := rest + [other.0];
          }
        }
      }
      assert more[..|more|] == more;
    }

    /** A write whose answer was lost may be sent again and again: it is applied once. */
    method SendAgain(u: Update, expected: int, more: seq<Option<(Update, int, RunState)>>)
      returns (first: Result, answers: seq<Result>)
      requires Valid() && expected == revision && |Others(more)| < MAX_HISTORY
      modifies this
      ensures Valid()
      ensures first.Ok? ==> |answers| == |more| - |Others(more)| && forall i :: 0 <= i < |answers| ==> answers[i].Ok?
      ensures first.Ok? ==> exists rest :: applied == old(applied) + [u] + rest && IsPart(rest, Others(more))
    {
      hide HoldsAll, Newest, GoodItems, GoodUpdate, Fits, Valid, Others, IsPart;
      answers := [];
      SendsRevision();
      first := Append(u, expected);
      if first.Err? { return; }
      AcceptedMeans(u, expected);
      ghost var rest;
      answers, rest := Repeat(u, expected, more);
    }

    lemma SendsRevision()
      requires Valid()
      ensures revision == |applied|
    {
    }

    lemma AcceptedMeans(u: Update, expected: int)
      requires Valid() && initialized && |applied| > 0 && applied[|applied| - 1] == u
      ensures GoodUpdate(u)
    {
    }
  }

  /** What the others send, in order. */
  function Others(more: seq<Option<(Update, int, RunState)>>): seq<Update> {
    if more == [] then []
    else Others(more[..|more| - 1]) + if more[|more| - 1].Some? then [more[|more| - 1].value.0] else []
  }

  lemma NoOthers()
    ensures Others([]) == [] && IsPart([], [])
  {
  }

  lemma {:induction false} OthersEnd(more: seq<Option<(Update, int, RunState)>>, x: Option<(Update, int, RunState)>)
    ensures Others(more + [x]) == Others(more) + if x.Some? then [x.value.0] else []
  {
    assert (more + [x])[..|more|] == more;
  }

  lemma {:induction false} OthersFew(more: seq<Option<(Update, int, RunState)>>, n: nat)
    requires n <= |more|
    ensures |Others(more[..n])| <= |Others(more)|
    decreases |more|
  {
    if n < |more| {
      OthersFew(more[..|more| - 1], n);
      assert more[..|more| - 1][..n] == more[..n];
    } else {
      assert more[..n] == more;
    }
  }

  /** In order, and each from a place of its own. */
  predicate IsPart(a: seq<Update>, b: seq<Update>) {
    || a == []
    || (b != [] && IsPart(a, b[..|b| - 1]))
    || (b != [] && a[|a| - 1] == b[|b| - 1] && IsPart(a[..|a| - 1], b[..|b| - 1]))
  }

  /** Each of one's elements is found in the other at a place of its own, in the same order. */
  lemma {:induction false} PartHasPlaces(a: seq<Update>, b: seq<Update>)
    ensures IsPart(a, b) <==>
              exists at: seq<nat> :: Places(a, b, at)
    decreases |b|
  {
    if a == [] {
      assert Places(a, b, []);
    } else if b != [] {
      var a', b' := a[..|a| - 1], b[..|b| - 1];
      PartHasPlaces(a, b');
      PartHasPlaces(a', b');
      hide Places;
      if IsPart(a, b') {
        var at: seq<nat> :| Places(a, b', at);
        PlacesStay(a, b, at);
      } else if a[|a| - 1] == b[|b| - 1] && IsPart(a', b') {
        var at: seq<nat> :| Places(a', b', at);
        PlacesGrow(a, b, at);
      }
      if at: seq<nat> :| Places(a, b, at) { PlacesShrink(a, b, at); }
    } else {
      forall at: seq<nat> ensures !Places(a, b, at) { NoPlaces(a, at); }
    }
  }

  lemma NoPlaces(a: seq<Update>, at: seq<nat>)
    requires a != []
    ensures !Places(a, [], at)
  {
    if |at| == |a| {
      assert !(at[0] < 0);
    }
  }

  lemma PlacesStay(a: seq<Update>, b: seq<Update>, at: seq<nat>)
    requires b != [] && Places(a, b[..|b| - 1], at)
    ensures Places(a, b, at)
  {
  }

  lemma PlacesGrow(a: seq<Update>, b: seq<Update>, at: seq<nat>)
    requires a != [] && b != [] && a[|a| - 1] == b[|b| - 1] && Places(a[..|a| - 1], b[..|b| - 1], at)
    ensures Places(a, b, at + [|b| - 1])
  {
  }

  lemma PlacesShrink(a: seq<Update>, b: seq<Update>, at: seq<nat>)
    requires a != [] && b != [] && Places(a, b, at)
    ensures || Places(a, b[..|b| - 1], at)
            || (a[|a| - 1] == b[|b| - 1] && Places(a[..|a| - 1], b[..|b| - 1], at[..|at| - 1]))
  {
    var last := |at| - 1;
    assert forall i :: 0 <= i < last ==> at[i] < at[last];
    if at[last] < |b| - 1 {
      assert Places(a, b[..|b| - 1], at);
    } else {
      assert b[at[last]] == a[last];
      assert Places(a[..last], b[..|b| - 1], at[..last]);
    }
  }

  predicate Places(a: seq<Update>, b: seq<Update>, at: seq<nat>) {
    && |at| == |a| && (forall i :: 0 <= i < |at| ==> at[i] < |b| && b[at[i]] == a[i])
    && forall i, j :: 0 <= i < j < |at| ==> at[i] < at[j]
  }

  lemma {:induction false} PartGrows(a: seq<Update>, b: seq<Update>, x: Update)
    requires IsPart(a, b)
    ensures IsPart(a, b + [x]) && IsPart(a + [x], b + [x])
  {
    assert (b + [x])[..|b|] == b && (a + [x])[..|a|] == a;
  }
}
