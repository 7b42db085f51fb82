/** What an invocation is answered with when nobody comes between: from a stored row, or from a handler's own run. */
module InvocationAnswers {
  import opened Text
  import opened Invocations

  lemma {:induction false} Three(w: World, a: Event, b: Event, c: Event)
    ensures Run(w, [a, b, c]) == Step(Step(Step(w, a), b), c)
  {
    hide Step;
    assert [a, b, c][1..] == [b, c] && [b, c][1..] == [c] && [c][1..] == [];
    assert Run(Step(w, a), [b, c]) == Run(Step(Step(w, a), b), [c]);
    assert Run(Step(Step(w, a), b), [c]) == Run(Step(Step(Step(w, a), b), c), []);
  }

  /** A key that has a row: a result of the present version is answered with that very result, and everything else that
      is over as a failure, without a handler being entered; a running one is not waited for; one that was interrupted
      may start again, unless it runs processes. */
  lemma {:induction false} StoredRowsAnswer(w: World, u: nat, k: Key)
    requires !w.terminal && k in w.rows
    ensures var w' := Run(w, [Enter(u, k), Look(u), Replay(u)]);
            && w'.rows == w.rows && w'.starts == w.starts && w'.applied == w.applied && w'.memory == w.memory
            && w'.callers.Keys - {u} == w.callers.Keys - {u}
            && match w.rows[k]
               case Succeeded(r, v) =>
                 w'.answers == w.answers + {(k, if v == Some(VERSION) then Result(r) else Failure)} && u !in w'.callers
               case Failed(_) => w'.answers == w.answers + {(k, Failure)} && u !in w'.callers
               case Running => w'.answers == w.answers + {(k, StillRunning)} && u !in w'.callers
               case Interrupted =>
                 if k.effect == ProcessExecution then w'.answers == w.answers + {(k, Failure)} && u !in w'.callers
                 else w'.answers == w.answers && u in w'.callers && w'.callers[u] == Restarting(k)
  {
    var w1 := w.(callers := w.callers[u := Entering(k)]);
    var w2 := w.(callers := w.callers[u := Replaying(k, w.rows[k])]);
    assert Step(w, Enter(u, k)) == w1;
    assert Step(w1, Look(u)) == w2;
    Three(w, Enter(u, k), Look(u), Replay(u));
  }

  /** A run that is over turns every call away. */
  lemma {:induction false} EndedRunsRefuse(w: World, u: nat, k: Key)
    requires w.terminal
    ensures Run(w, [Enter(u, k), Look(u), Replay(u)]) == w.(callers := w.callers - {u})
  {
    var w1 := w.(callers := w.callers - {u});
    assert Step(w, Enter(u, k)) == w1 && Step(w1, Look(u)) == w1 && Step(w1, Replay(u)) == w1;
    Three(w, Enter(u, k), Look(u), Replay(u));
  }

  /** Restarting an interrupted row makes it running again and enters its handler once, under a number of its own. */
  lemma {:induction false} RestartsEnter(w: World, u: nat, k: Key)
    requires u in w.callers && w.callers[u] == Restarting(k) && k in w.rows && w.rows[k] == Interrupted
    ensures var w' := Run(w, [Restart(u), Handle(u), Crash(u)]);
            && w'.rows == w.rows[k := Running] && w'.starts == w.starts + [(k, Count(w.restarts, k) + 1)]
            && w'.answers == w.answers && Count(w'.restarts, k) == Count(w.restarts, k) + 1
  {
    var n := Count(w.restarts, k) + 1;
    var w1 := w.(rows := w.rows[k := Running], restarts := w.restarts[k := n], callers := w.callers[u := Ready(k, n)]);
    var w2 := w1.(starts := w.starts + [(k, n)], callers := w1.callers[u := Handling(k, false)]);
    assert Step(w, Restart(u)) == w1;
    assert Step(w1, Handle(u)) == w2;
    Three(w, Restart(u), Handle(u), Crash(u));
  }

  /** A key that has none: the row is made, and the handler entered, once. */
  lemma {:induction false} NewKeysEnter(w: World, u: nat, k: Key)
    requires !w.terminal && k !in w.rows
    ensures var w' := Step(Run(w, [Enter(u, k), Look(u), Insert(u)]), Handle(u));
            && w'.rows == w.rows[k := Running] && w'.starts == w.starts + [(k, 0)] && w'.answers == w.answers
            && u in w'.callers && w'.callers[u] == Handling(k, false)
            && w'.applied == w.applied && w'.memory == w.memory
  {
    var w1 := w.(callers := w.callers[u := Entering(k)]);
    var w2 := w.(callers := w.callers[u := Inserting(k)]);
    var w3 := w.(rows := w.rows[k := Running], callers := w.callers[u := Ready(k, 0)]);
    assert Step(w, Enter(u, k)) == w1;
    assert Step(w1, Look(u)) == w2;
    assert Step(w2, Insert(u)) == w3;
    Three(w, Enter(u, k), Look(u), Insert(u));
  }

  /** What its effect does on the way: a workspace write is committed unless it was before, a memory write is taken at
      its own revision. */
  function Act(k: Key, u: nat, r: string): Event {
    match k.effect
    case WorkspaceWrite => Commit(u, r)
    case MemoryWrite(_) => Remember(u)
    case _ => Look(u)
  }

  /** A handler that returns, where its effect takes place: its result is stored in the row, and given. A workspace
      write gives what the mutation table holds, whoever put it there. */
  lemma {:induction false} HandlersAnswer(w: World, u: nat, k: Key, r: string)
    requires u in w.callers && w.callers[u] == Handling(k, false) && k in w.rows && w.rows[k] == Running
    requires k.effect.MemoryWrite? ==> k.effect.revision == |w.memory|
    ensures var w' := Run(w, [Act(k, u, r), Return(u, r), FinishResult(u)]);
            var result := if k.effect == WorkspaceWrite && k.call in w.applied then w.applied[k.call] else r;
            && w'.rows == w.rows[k := Succeeded(result, Some(VERSION))]
            && w'.answers == w.answers + {(k, Result(result))} && u !in w'.callers && w'.starts == w.starts
            && w'.applied == (if k.effect == WorkspaceWrite then w.applied[k.call := result] else w.applied)
            && w'.memory == (if k.effect.MemoryWrite? then w.memory + [k.call] else w.memory)
  {
    var result := if k.effect == WorkspaceWrite && k.call in w.applied then w.applied[k.call] else r;
    ActDoes(w, u, k, r);
    var w1 := Step(w, Act(k, u, r));
    var w2 := w1.(callers := w1.callers[u := Returned(k, result)]);
    assert Step(w1, Return(u, r)) == w2;
    assert Step(w2, FinishResult(u)) ==
           w2.(rows := w.rows[k := Succeeded(result, Some(VERSION))], answers := w.answers + {(k, Result(result))},
               callers := w2.callers - {u});
    hide Step;
    Three(w, Act(k, u, r), Return(u, r), FinishResult(u));
  }

  lemma {:induction false} ActDoes(w: World, u: nat, k: Key, r: string)
    requires u in w.callers && w.callers[u] == Handling(k, false)
    requires k.effect.MemoryWrite? ==> k.effect.revision == |w.memory|
    ensures var w1 := Step(w, Act(k, u, r));
            var result := if k.effect == WorkspaceWrite && k.call in w.applied then w.applied[k.call] else r;
            && u in w1.callers && w1.callers[u] == Handling(k, k.effect == WorkspaceWrite || k.effect.MemoryWrite?)
            && w1.rows == w.rows && w1.answers == w.answers && w1.starts == w.starts
            && w1.applied == (if k.effect == WorkspaceWrite then w.applied[k.call := result] else w.applied)
            && w1.memory == (if k.effect.MemoryWrite? then w.memory + [k.call] else w.memory)
  {
  }

  /** A handler that raises leaves a failure, and one is given. */
  lemma {:induction false} RaisingFails(w: World, u: nat, k: Key, committed: bool)
    requires u in w.callers && w.callers[u] == Handling(k, committed) && k in w.rows && w.rows[k] == Running
    ensures var w' := Run(w, [Raise(u), FinishError(u), Look(u)]);
            && w'.rows == w.rows[k := Failed(Some(VERSION))] && w'.answers == w.answers + {(k, Failure)}
            && u !in w'.callers && w'.applied == w.applied && w'.memory == w.memory && w'.starts == w.starts
  {
    var w1 := w.(callers := w.callers[u := Broken(k)]);
    var w2 := w.(rows := w.rows[k := Failed(Some(VERSION))], answers := w.answers + {(k, Failure)},
                 callers := w1.callers - {u});
    assert Step(w, Raise(u)) == w1;
    assert Step(w1, FinishError(u)) == w2;
    Three(w, Raise(u), FinishError(u), Look(u));
  }

  /** Who comes second stores and gives nothing: the row made meanwhile stands, and so does a row that is over. */
  lemma {:induction false} SecondComersLose(w: World, u: nat, k: Key)
    requires u in w.callers
    ensures w.callers[u] == Inserting(k) && k in w.rows ==> Step(w, Insert(u)) == w.(callers := w.callers - {u})
    ensures w.callers[u] == Restarting(k) && !(k in w.rows && w.rows[k] == Interrupted) ==>
              Step(w, Restart(u)) == w.(callers := w.callers - {u})
    ensures w.callers[u].Returned? && w.callers[u].key == k && !(k in w.rows && w.rows[k] == Running) ==>
              Step(Step(w, FinishResult(u)), FinishError(u)) == w.(callers := w.callers - {u})
  {
    if w.callers[u].Returned? && w.callers[u].key == k && !(k in w.rows && w.rows[k] == Running) {
      var w1 := w.(callers := w.callers[u := Broken(k)]);
      assert Step(w, FinishResult(u)) == w1;
      assert w1.callers - {u} == w.callers - {u};
    }
  }

  /** A memory write made for another revision goes on only if the ledger took this very update there, and that is
      among the newest 32; otherwise its handler raises. Either way the ledger is as it was. */
  lemma {:induction false} OldMemoryWrites(w: World, u: nat, k: Key)
    requires u in w.callers && w.callers[u] == Handling(k, false) && k.effect.MemoryWrite?
    requires k.effect.revision != |w.memory|
    ensures var at, n := k.effect.revision, |w.memory|;
            Step(w, Remember(u)) ==
            w.(callers := w.callers[u := if at < n <= at + 32 && w.memory[at] == k.call then Handling(k, true)
                                         else Broken(k)])
  {
  }

  /** Recovery marks exactly the running rows interrupted, and counts each. */
  lemma {:induction false} RecoveryInterrupts(w: World)
    ensures var w' := Step(w, Recover);
            && w'.rows.Keys == w.rows.Keys && w'.answers == w.answers && w'.callers == w.callers
            && (forall k :: k in w.rows ==>
                  w'.rows[k] == if w.rows[k] == Running then Interrupted else w.rows[k])
            && (forall k :: Count(w'.recoveries, k) ==
                            Count(w.recoveries, k) + if k in w.rows && w.rows[k] == Running then 1 else 0)
  {
  }
}
