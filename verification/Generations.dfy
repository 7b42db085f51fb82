/** Immutable workspace generations (src/agent_runtime/workspace.py): copy, operate, rename, commit, clean. */
module Mutations {
  import opened Text
  import opened Patch

  /** One write to a workspace. Within a run the mutation id is a hash of exactly this value. */
  datatype Op = Create(path: string, content: string) | PatchFile(patch: string)

  function Effect(op: Op, tree: Tree): Option<Tree> {
    match op
    case Create(p, c) => if p in tree then None else Some(tree[p := c])
    case PatchFile(t) => ApplyText(tree, t)
  }

  /** The tree after the operations in order. */
  function Replay(seed: Tree, ops: seq<Op>): Option<Tree> {
    if ops == [] then Some(seed)
    else
      match Replay(seed, ops[..|ops| - 1])
      case None => None
      case Some(t) => Effect(ops[|ops| - 1], t)
  }

  /** What a further operation makes of a generation: a creation needs a new path, gives it the content asked for to the
      last character, and leaves every other file alone; a patch is applied as a patch is. */
  lemma NextGeneration(seed: Tree, ops: seq<Op>, before: Tree)
    requires Replay(seed, ops) == Some(before)
    ensures forall p, c ::
              var after := Replay(seed, ops + [Create(p, c)]);
              && (after.Some? <==> p !in before)
              && (after.Some? ==>
                    && p in after.value && after.value[p] == c
                    && forall q :: q != p ==>
                         (q in after.value <==> q in before) && (q in before ==> after.value[q] == before[q]))
    ensures forall t :: Replay(seed, ops + [PatchFile(t)]) == ApplyText(before, t)
  {
    forall op: Op ensures Replay(seed, ops + [op]) == Effect(op, before) { OneMore(seed, ops, before, op); }
    hide Replay, ApplyText;
    forall t ensures Replay(seed, ops + [PatchFile(t)]) == ApplyText(before, t) {
      assert Replay(seed, ops + [PatchFile(t)]) == Effect(PatchFile(t), before);
    }
    forall p, c
      ensures var after := Replay(seed, ops + [Create(p, c)]);
              && (after.Some? <==> p !in before)
              && (after.Some? ==> after.value == before[p := c])
    {
      assert Replay(seed, ops + [Create(p, c)]) == Effect(Create(p, c), before);
    }
  }

  lemma OneMore(seed: Tree, ops: seq<Op>, before: Tree, op: Op)
    requires Replay(seed, ops) == Some(before)
    ensures Replay(seed, ops + [op]) == Effect(op, before)
  {
    assert (ops + [op])[..|ops|] == ops;
  }

  function Bytes(tree: Tree, p: string): string { if p in tree then tree[p] else "" }

  type Changes = map<string, Option<string>>

  /** The changed files with their new contents. `_snapshot` compares a missing file as an empty one. */
  function ChangesOf(base: Tree, now: Tree): Changes {
    map p | p in base.Keys + now.Keys && Bytes(base, p) != Bytes(now, p) :: if p in now then Some(now[p]) else None
  }

  /** Exactly the files whose bytes differ are changed files. */
  lemma ChangesAre(base: Tree, now: Tree, p: string)
    ensures var files := ChangesOf(base, now);
            && (p in files <==>
                if p in base && p in now then base[p] != now[p]
                else (p in base && base[p] != "") || (p in now && now[p] != ""))
            && (p in files ==> files[p] == if p in now then Some(now[p]) else None)
  {
  }

  /** The commit built from a base tree and the changed files; None removes. */
  function Overlay(base: Tree, files: Changes): Tree {
    map p | p in base.Keys + files.Keys && (p in files ==> files[p].Some?) ::
      if p in files then files[p].value else base[p]
  }

  /** What is published has every file's bytes, and the very same files exactly when no file was created empty. */
  lemma PublishedTree(base: Tree, now: Tree)
    requires base.Keys <= now.Keys
    ensures var published := Overlay(base, ChangesOf(base, now));
            && (forall p :: Bytes(published, p) == Bytes(now, p))
            && (published == now <==> forall p :: p in now && p !in base ==> now[p] != "")
  {
  }

  /** Equal diffs of trees that only gained files name equal bytes everywhere. */
  lemma ChangesDetermineBytes(base: Tree, a: Tree, b: Tree, p: string)
    requires base.Keys <= a.Keys && base.Keys <= b.Keys
    requires ChangesOf(base, a) == ChangesOf(base, b)
    ensures Bytes(a, p) == Bytes(b, p)
  {
    PublishedTree(base, a);
    PublishedTree(base, b);
    assert Bytes(Overlay(base, ChangesOf(base, a)), p) == Bytes(a, p);
  }
}

module Workspaces {
  import opened Text
  import opened Patch
  import opened PatchLaws
  import opened Mutations
  import opened RunStates

  datatype Dir = Gen(n: nat) | Candidate(op: Op)

  /** A row of `workspace_mutations`; its sequence number is its position plus one. */
  datatype Row = Row(op: Op, result: Changes)

  /** What the world does just before a durable step: nothing, let another process move the run, make the
      step raise, or stop the process. Half-done copies and removals leave `debris` behind. */
  datatype Tick = Go | Others(state: RunState) | Fault(debris: Tree) | Crash(debris: Tree)

  /** Nobody else moves the run. */
  predicate Undisturbed(ticks: seq<Tick>) { forall i :: 0 <= i < |ticks| ==> !ticks[i].Others? }

  /** What is left of the ticks after some were used. */
  predicate Spent(before: seq<Tick>, after: seq<Tick>) {
    |after| <= |before| && (Undisturbed(before) ==> Undisturbed(after))
  }

  datatype Outcome = Done(result: Changes) | Raised | Crashed

  function Ops(rows: seq<Row>): (ops: seq<Op>)
    ensures |ops| == |rows| && forall i :: 0 <= i < |rows| ==> ops[i] == rows[i].op
  {
    if rows == [] then [] else Ops(rows[..|rows| - 1]) + [rows[|rows| - 1].op]
  }

  /** The table replays, holds no operation twice, and stores what each operation showed. */
  predicate GoodRows(seed: Tree, rows: seq<Row>) {
    rows == [] ||
    (var last := rows[|rows| - 1];
     var tree := Replay(seed, Ops(rows));
     && GoodRows(seed, rows[..|rows| - 1])
     && (forall i :: 0 <= i < |rows| - 1 ==> rows[i].op != last.op)
     && tree.Some? && last.result == ChangesOf(seed, tree.value))
  }

  lemma NoRows(seed: Tree)
    ensures GoodRows(seed, []) && Replay(seed, Ops([])) == Some(seed)
  {
  }

  lemma {:induction false} GoodRowsGrow(seed: Tree, rows: seq<Row>, op: Op, before: Tree, tree: Tree)
    requires GoodRows(seed, rows) && forall i :: 0 <= i < |rows| ==> rows[i].op != op
    requires Replay(seed, Ops(rows)) == Some(before) && Effect(op, before) == Some(tree)
    ensures GoodRows(seed, rows + [Row(op, ChangesOf(seed, tree))])
    ensures Replay(seed, Ops(rows + [Row(op, ChangesOf(seed, tree))])) == Some(tree)
  {
    hide Effect, ChangesOf;
    var rows' := rows + [Row(op, ChangesOf(seed, tree))];
    assert rows'[..|rows|] == rows;
    assert Ops(rows') == Ops(rows) + [op];
    assert Ops(rows')[..|rows|] == Ops(rows);
  }

  /** No operation appears twice in a good table. */
  lemma {:induction false} NeverTwice(seed: Tree, rows: seq<Row>, i: nat, j: nat)
    requires GoodRows(seed, rows) && i < j < |rows|
    ensures rows[i].op != rows[j].op
  {
    if j < |rows| - 1 {
      NeverTwice(seed, rows[..|rows| - 1], i, j);
    }
  }

  /** Each stored answer is the diff of the tree that the operations up to it produce. */
  lemma {:induction false} StoredAnswer(seed: Tree, rows: seq<Row>, i: nat)
    requires GoodRows(seed, rows) && i < |rows|
    ensures var tree := Replay(seed, Ops(rows[..i + 1])); tree.Some? && rows[i].result == ChangesOf(seed, tree.value)
  {
    if i == |rows| - 1 {
      assert rows[..i + 1] == rows;
    } else {
      StoredAnswer(seed, rows[..|rows| - 1], i);
      assert rows[..|rows| - 1][..i + 1] == rows[..i + 1];
    }
  }

  /** Files are never removed: every generation keeps the seed's paths. */
  lemma {:induction false} PathsStay(seed: Tree, ops: seq<Op>)
    requires Replay(seed, ops).Some?
    ensures seed.Keys <= Replay(seed, ops).value.Keys
  {
    if ops != [] {
      var before := Replay(seed, ops[..|ops| - 1]).value;
      PathsStay(seed, ops[..|ops| - 1]);
      match ops[|ops| - 1]
      case Create(p, c) =>
      case PatchFile(t) => PatchKeepsPaths(before, t);
    }
  }

  lemma {:induction false} PatchKeepsPaths(tree: Tree, patch: string)
    requires ApplyText(tree, patch).Some?
    ensures ApplyText(tree, patch).value.Keys == tree.Keys
  {
    Untouched(tree, ReadPatch(SplitLines(patch)).value);
  }

  /** The durable side of one run's workspace: its row, its directories, its mutation table. A call holds the
      workspace lock from start to end, so calls follow one another; only `state` moves underneath them. */
  class Workspace {
    const seed: Tree
    var acquired: bool
    var current: nat
    var rows: seq<Row>
    var dirs: map<Dir, Tree>
    var state: RunState
    var ticks: seq<Tick>
    ghost var stages: seq<RunState>   // the run's state as each commit last looked at it

    constructor (seed: Tree, dirs: map<Dir, Tree>, ticks: seq<Tick>)
      ensures Valid() && this.seed == seed && !acquired && rows == [] && this.ticks == ticks
    {
      this.seed, this.dirs, this.ticks := seed, dirs, ticks;
      acquired, current, rows, state, stages := false, 0, [], New, [];
    }

    /** Whatever was interrupted: generation 0 is the seed, the current generation is present and is the seed
        with the committed mutations applied in order, there are as many mutations as generations, and each
        commit last saw the run in IMPLEMENT. */
    ghost predicate Valid()
      reads this
    {
      && GoodRows(seed, rows)
      && |stages| == |rows| && (forall i :: 0 <= i < |stages| ==> stages[i] == Implement)
      && (!acquired ==> rows == [] && current == 0)
      && (acquired ==>
            && |rows| == current
            && Gen(0) in dirs && dirs[Gen(0)] == seed
            && Gen(current) in dirs && Some(dirs[Gen(current)]) == Replay(seed, Ops(rows)))
    }

    /** Nothing in the way but the two generations in use. */
    predicate Tidy()
      reads this`dirs, this`current
    {
      forall d :: d in dirs ==> d == Gen(0) || d == Gen(current)
    }

    /** A new operation that the run's state and the current tree allow. */
    ghost predicate Possible(op: Op)
      reads this
    {
      && state == Implement && !Has(op)
      && Replay(seed, Ops(rows)).Some? && Effect(op, Replay(seed, Ops(rows)).value).Some?
    }

    predicate Has(op: Op)
      reads this`rows
    {
      exists i :: 0 <= i < |rows| && rows[i].op == op
    }

    method Tick() returns (t: Tick)
      modifies this`ticks, this`state
      ensures !t.Others?
      ensures state == old(state) || !Terminal(old(state))
      ensures Spent(old(ticks), ticks) && (Undisturbed(old(ticks)) ==> state == old(state))
      ensures !t.Go? ==> |ticks| < |old(ticks)|
    {
      while ticks != [] && ticks[0].Others?
        invariant state == old(state) || !Terminal(old(state))
        invariant Spent(old(ticks), ticks) && (Undisturbed(old(ticks)) ==> state == old(state))
        decreases |ticks|
      {
        if CanMove(state, ticks[0].state) {
          state := ticks[0].state;
        }
        ticks := ticks[1..];
      }
      t := Go;
      if ticks != [] {
        t := ticks[0];
        ticks := ticks[1..];
      }
    }

    /** `shutil.rmtree`; interrupted, it leaves part of the directory. */
    method Remove(d: Dir) returns (t: Tick)
      modifies this`ticks, this`state, this`dirs
      ensures !t.Others?
      ensures dirs == if t.Go? then old(dirs) - {d} else old(dirs)[d := t.debris]
      ensures Spent(old(ticks), ticks) && (Undisturbed(old(ticks)) ==> state == old(state))
      ensures !t.Go? ==> |ticks| < |old(ticks)|
    {
      t := Tick();
      dirs := if t.Go? then dirs - {d} else dirs[d := t.debris];
    }

    /** `_cleanup`: every directory but generation 0 and the current one. */
    method CleanUp() returns (r: Outcome)
      requires Valid() && acquired
      modifies this`ticks, this`state, this`dirs
      ensures Valid()
      ensures r.Done? ==> Tidy()
      ensures Spent(old(ticks), ticks) && (Undisturbed(old(ticks)) ==> state == old(state))
      ensures !r.Done? ==> |ticks| < |old(ticks)|
    {
      hide GoodRows, Replay, Ops, Effect, ChangesOf, Undisturbed;
      var stale := dirs.Keys - {Gen(0), Gen(current)};
      while stale != {}
        invariant Valid() && Gen(0) !in stale && Gen(current) !in stale
        invariant forall d :: d in dirs ==> d in stale || d == Gen(0) || d == Gen(current)
        invariant Spent(old(ticks), ticks) && (Undisturbed(old(ticks)) ==> state == old(state))
        decreases |stale|
      {
        var d :| d in stale;
        var t := Remove(d);
        if !t.Go? { return if t.Crash? then Crashed else Raised; }
        stale := stale - {d};
      }
      return Done(map[]);
    }

    /** `acquire` under the lock: seed generation 0 and insert the row the first time, then clean up. */
    method Acquire() returns (r: Outcome)
      requires Valid()
      modifies this`acquired, this`current, this`dirs, this`ticks, this`state
      ensures Valid() && (old(acquired) ==> acquired)
      ensures r.Done? ==> acquired && Tidy()
      ensures Spent(old(ticks), ticks) && (Undisturbed(old(ticks)) ==> state == old(state))
      ensures !r.Done? ==> |ticks| < |old(ticks)|
    {
      hide GoodRows, Replay, Ops, Effect, ChangesOf, Undisturbed;
      NoRows(seed);
      if !acquired {
        var t := Tick();
        if !t.Go? { return if t.Crash? then Crashed else Raised; }
        dirs := map[];
        t := Tick();
        if t.Crash? { dirs := map[Gen(0) := t.debris]; return Crashed; }
        if t.Fault? { return Raised; }
        dirs := map[Gen(0) := seed];
        t := Tick();
        if t.Crash? { return Crashed; }
        if t.Fault? { dirs := map[]; return Raised; }
        acquired, current := true, 0;
      }
      r := CleanUp();
    }

    /** The `except` branch: drop the candidate and a generation that was renamed but not committed. */
    method RollBack(op: Op, generation: nat) returns (r: Outcome)
      requires Valid() && acquired && generation <= current <= generation + 1
      modifies this`ticks, this`state, this`dirs
      ensures Valid() && !r.Done?
      ensures dirs.Keys <= old(dirs).Keys && Gen(current) in dirs && dirs[Gen(current)] == old(dirs[Gen(current)])
      ensures Spent(old(ticks), ticks) && (Undisturbed(old(ticks)) ==> state == old(state))
    {
      hide GoodRows, Replay, Ops, Effect, ChangesOf, Undisturbed;
      if Candidate(op) in dirs {
        var t := Remove(Candidate(op));
        if t.Crash? { return Crashed; }
      }
      if Gen(generation + 1) in dirs && current != generation + 1 {
        var t := Remove(Gen(generation + 1));
        if t.Crash? { return Crashed; }
      }
      return Raised;
    }

    /** `_mutate` under the lock. */
    method Mutate(op: Op) returns (r: Outcome)
      requires Valid() && acquired
      modifies this`current, this`rows, this`dirs, this`state, this`ticks, this`stages
      ensures Valid()
      ensures old(Has(op)) ==> rows == old(rows) && dirs == old(dirs) && (r.Done? || |ticks| < |old(ticks)|)
      ensures old(Possible(op)) && old(Tidy()) && Undisturbed(old(ticks)) ==> r.Done? || |ticks| < |old(ticks)|
      ensures Spent(old(ticks), ticks) && (Undisturbed(old(ticks)) ==> state == old(state))
      ensures rows == old(rows)
           || (!old(Has(op)) && !Terminal(old(state)) && exists result :: rows == old(rows) + [Row(op, result)])
      ensures r.Done? ==> exists i :: 0 <= i < |rows| && rows[i] == Row(op, r.result)
      ensures rows != old(rows) ==> var before := old(dirs[Gen(current)]);
                && current == old(current) + 1 && Gen(current) in dirs
                && (op.Create? ==> op.path !in before && dirs[Gen(current)] == before[op.path := op.content])
                && (op.PatchFile? ==> ApplyText(before, op.patch) == Some(dirs[Gen(current)]))
      ensures old(!Has(op)) && op.Create? && op.path in old(dirs[Gen(current)]) ==> !r.Done?
    {
      hide GoodRows, Replay, Ops, Effect, ChangesOf, Undisturbed, ApplyText;
      var t := Tick();
      if !t.Go? { return if t.Crash? then Crashed else Raised; }
      if i :| 0 <= i < |rows| && rows[i].op == op {
        return Done(rows[i].result);
      }
      if state != Implement { return Raised; }
      var generation := current;
      var made;
      r, made := Build(op);
      if r.Done? {
        r := Commit(op, generation, made, r.result);
        assert r.Done? ==> rows[|rows| - 1] == Row(op, r.result);
      }
    }

    /** `copytree` into the candidate. */
    method Copy(op: Op) returns (r: Outcome)
      requires Valid() && acquired
      modifies this`dirs, this`state, this`ticks
      ensures Valid() && dirs[Gen(current)] == old(dirs)[Gen(current)]
      ensures r.Done? ==> Candidate(op) !in old(dirs) && dirs == old(dirs)[Candidate(op) := old(dirs)[Gen(current)]]
      ensures Candidate(op) !in old(dirs) ==> r.Done? || |ticks| < |old(ticks)|
      ensures Spent(old(ticks), ticks) && (Undisturbed(old(ticks)) ==> state == old(state))
    {
      hide GoodRows, Replay, Ops, Undisturbed;
      var candidate := Candidate(op);
      if candidate in dirs { return Raised; }
      var t := Tick();
      if !t.Go? {
        dirs := dirs[candidate := t.debris];
        return if t.Crash? then Crashed else Raised;
      }
      dirs := dirs[candidate := dirs[Gen(current)]];
      return Done(map[]);
    }

    /** The operation on the candidate's copy: a creation of a new file, or a patch. */
    method Operate(op: Op, tree: Tree) returns (made: Option<Tree>)
      ensures made == Effect(op, tree)
      ensures op.Create? ==> (made.Some? <==> op.path !in tree)
      ensures op.Create? && made.Some? ==>
                && op.path in made.value && made.value[op.path] == op.content
                && forall q :: q != op.path ==>
                     (q in made.value <==> q in tree) && (q in tree ==> made.value[q] == tree[q])
      ensures op.PatchFile? ==> made == ApplyText(tree, op.patch)
    {
      match op {
        case Create(p, c) =>
          made := if p in tree then None else Some(tree[p := c]);
        case PatchFile(t) =>
          hide ApplyText;
          var candidate := new Patch.Candidate(tree);
          var ok := candidate.Apply(t);
          made := if ok then Some(candidate.files) else None;
      }
    }

    /** Copy, operate, show, rename. Nothing here touches the table or a directory a reader could be in. What is built
        is the current generation with the one new file, to its last character, or with the patch applied. */
    method Build(op: Op) returns (r: Outcome, made: Tree)
      requires Valid() && acquired
      modifies this`dirs, this`state, this`ticks
      ensures Valid()
      ensures r.Done? ==> Effect(op, old(dirs)[Gen(current)]) == Some(made) && r.result == ChangesOf(seed, made)
      ensures r.Done? && op.Create? ==>
                && op.path !in old(dirs)[Gen(current)] && op.path in made && made[op.path] == op.content
                && forall q :: q != op.path ==>
                     (q in made <==> q in old(dirs)[Gen(current)])
                     && (q in old(dirs)[Gen(current)] ==> made[q] == old(dirs)[Gen(current)][q])
      ensures r.Done? && op.PatchFile? ==> ApplyText(old(dirs)[Gen(current)], op.patch) == Some(made)
      ensures r.Done? ==> Gen(current + 1) in dirs && dirs[Gen(current + 1)] == made && Candidate(op) !in dirs
      ensures old(Tidy()) && Effect(op, old(dirs)[Gen(current)]).Some? ==> r.Done? || |ticks| < |old(ticks)|
      ensures Spent(old(ticks), ticks) && (Undisturbed(old(ticks)) ==> state == old(state))
    {
      hide GoodRows, Replay, Ops, Effect, ChangesOf, Undisturbed, ApplyText;
      var generation := current;
      var candidate := Candidate(op);
      made := dirs[Gen(generation)];
      r := Copy(op);
      if !r.Done? { return; }
      var t := Tick();
      if t.Crash? { dirs := dirs[candidate := t.debris]; r := Crashed; return; }
      var effect := Operate(op, dirs[candidate]);
      if t.Fault? || effect.None? {
        r := RollBack(op, generation);
        return;
      }
      made := effect.value;
      dirs := dirs[candidate := made];
      r := Rename(op, made);
    }

    /** Show what changed, and rename the candidate; a generation left by a crash is in the way. */
    method Rename(op: Op, made: Tree) returns (r: Outcome)
      requires Valid() && acquired && Candidate(op) in dirs && dirs[Candidate(op)] == made
      requires Effect(op, dirs[Gen(current)]) == Some(made)
      modifies this`dirs, this`state, this`ticks
      ensures Valid()
      ensures r.Done? ==> Gen(current + 1) in dirs && dirs[Gen(current + 1)] == made && Candidate(op) !in dirs
      ensures r.Done? ==> r.result == ChangesOf(seed, made)
      ensures old(Gen(current + 1) !in dirs) ==> r.Done? || |ticks| < |old(ticks)|
      ensures Spent(old(ticks), ticks) && (Undisturbed(old(ticks)) ==> state == old(state))
    {
      hide GoodRows, Replay, Ops, Effect, ChangesOf, Undisturbed;
      var generation := current;
      var candidate := Candidate(op);
      var result := ChangesOf(dirs[Gen(0)], dirs[candidate]);
      var t := Tick();
      if t.Crash? { r := Crashed; return; }
      if t.Fault? || (Gen(generation + 1) in dirs && dirs[Gen(generation + 1)] != map[]) {
        r := RollBack(op, generation);
        return;
      }
      dirs := dirs[Gen(generation + 1) := dirs[candidate]] - {candidate};
      r := Done(result);
    }

    /** The rows that the transaction writes. */
    method Record(op: Op, made: Tree, result: Changes, ghost seen: RunState)
      requires Valid() && acquired && seen == Implement && !Has(op)
      requires Effect(op, dirs[Gen(current)]) == Some(made) && result == ChangesOf(seed, made)
      requires Gen(current + 1) in dirs && dirs[Gen(current + 1)] == made
      modifies this`current, this`rows, this`stages
      ensures Valid() && rows == old(rows) + [Row(op, result)] && current == old(current) + 1
      ensures dirs == old(dirs)
    {
      hide GoodRows, Replay, Ops, Effect, ChangesOf;
      GoodRowsGrow(seed, rows, op, dirs[Gen(current)], made);
      rows := rows + [Row(op, result)];
      stages := stages + [seen];
      current := current + 1;
    }

    /** A last look at the run's state and the generation, and the transaction, before which the run may be moved. */
    method Commit(op: Op, generation: nat, made: Tree, result: Changes) returns (r: Outcome)
      requires Valid() && acquired && generation == current && !Has(op)
      requires Effect(op, dirs[Gen(generation)]) == Some(made) && result == ChangesOf(seed, made)
      requires Gen(generation + 1) in dirs && dirs[Gen(generation + 1)] == made
      modifies this`current, this`rows, this`dirs, this`state, this`ticks, this`stages
      ensures Valid()
      ensures rows == old(rows) || (rows == old(rows) + [Row(op, result)] && !Terminal(old(state)))
      ensures rows != old(rows) ==> current == generation + 1 && Gen(current) in dirs && dirs[Gen(current)] == made
      ensures r.Done? ==> r.result == result && rows == old(rows) + [Row(op, result)]
      ensures old(state) == Implement && Undisturbed(old(ticks)) ==> r.Done? || |ticks| < |old(ticks)|
      ensures Spent(old(ticks), ticks) && (Undisturbed(old(ticks)) ==> state == old(state))
    {
      hide GoodRows, Replay, Ops, Effect, ChangesOf, Undisturbed;
      var t := Tick();
      if t.Crash? { return Crashed; }
      if t.Fault? || state != Implement || current != generation {
        r := RollBack(op, generation);
        return;
      }
      ghost var seen := state;
      t := Tick();
      if t.Crash? { return Crashed; }
      if t.Fault? {
        r := RollBack(op, generation);
        return;
      }
      Record(op, made, result, seen);
      r := Supersede(op, generation, result);
    }

    /** The generation before the committed one goes, unless it is the seed. */
    method Supersede(op: Op, generation: nat, result: Changes) returns (r: Outcome)
      requires Valid() && acquired && current == generation + 1
      modifies this`dirs, this`state, this`ticks
      ensures Valid()
      ensures Gen(current) in dirs && dirs[Gen(current)] == old(dirs[Gen(current)])
      ensures if r.Done? then r.result == result else |ticks| < |old(ticks)|
      ensures Spent(old(ticks), ticks) && (Undisturbed(old(ticks)) ==> state == old(state))
    {
      hide GoodRows, Replay, Ops, Effect, ChangesOf, Undisturbed;
      if generation != 0 {
        var t := Remove(Gen(generation));
        if t.Crash? { return Crashed; }
        if t.Fault? { r := RollBack(op, generation); return; }
      }
      return Done(result);
    }

    /** Crashed or refused as often as the world likes and tried again, an operation that ends in success has
        been applied once: the table gained at most that one row, and the answer is the one stored. Where the operation
        is possible and nobody else moves the run, it does end in success as soon as it was tried more often than
        there were faults to come. */
    method Retry(op: Op, attempts: nat) returns (r: Outcome)
      requires Valid() && acquired
      modifies this
      ensures Valid() && acquired
      ensures rows == old(rows)
           || (!old(Has(op)) && exists result :: rows == old(rows) + [Row(op, result)])
      ensures r.Done? ==> exists i :: 0 <= i < |rows| && rows[i] == Row(op, r.result)
      ensures (old(Has(op)) || old(Possible(op))) && Undisturbed(old(ticks)) && attempts > |old(ticks)| ==> r.Done?
    {
      hide GoodRows, Replay, Ops, Effect, ChangesOf, Undisturbed;
      r := Crashed;
      for n := 0 to attempts
        invariant Valid() && acquired
        invariant rows == old(rows)
               || (!old(Has(op)) && exists result :: rows == old(rows) + [Row(op, result)])
        invariant r.Done? ==> exists i :: 0 <= i < |rows| && rows[i] == Row(op, r.result)
        invariant Spent(old(ticks), ticks) && (Undisturbed(old(ticks)) ==> state == old(state))
        invariant (old(Has(op)) || old(Possible(op))) && Undisturbed(old(ticks)) ==>
                    (Has(op) || Possible(op)) && (r.Done? || n + |ticks| <= |old(ticks)|)
      {
        if !r.Done? {
          var a := Acquire();
          if a.Done? {
            ghost var before := rows;
            r := Mutate(op);
            if before != old(rows) {
              assert before[|before| - 1].op == op;
            }
            if rows != before {
              assert rows[|rows| - 1].op == op;
            }
          }
        }
      }
    }

    /** Any sequence of calls by any number of workers, each stopped wherever the world chooses. */
    method Work(calls: seq<Option<Op>>)
      requires Valid()
      modifies this
      ensures Valid()
      ensures old(rows) <= rows
    {
      hide GoodRows, Replay, Ops, Effect, ChangesOf;
      for n := 0 to |calls|
        invariant Valid() && old(rows) <= rows
      {
        if calls[n].None? || !acquired {
          var _ := Acquire();
        } else {
          var _ := Mutate(calls[n].value);
        }
      }
    }
  }
}
