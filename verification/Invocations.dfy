/** The invocation log in front of every capability handler (src/agent_runtime/gateway.py, `invoke`, and the
    invocation methods of src/agent_runtime/durable.py): any number of callers, each read and each transaction a
    step of its own, a crash possible between any two. */
module Invocations {
  import opened Text
  import opened Mutations
  import Workspaces
  import Continuity

  /** A memory write names the ledger revision it was made for. */
  datatype Effect = Read | WorkspaceWrite | MemoryWrite(revision: nat) | ProcessExecution

  /** What the invocation id hashes: the capability with its arguments (`call`), the capability's effect, and the
      caller's own key with the step (`tag`). */
  datatype Key = Key(effect: Effect, call: nat, tag: nat)

  const VERSION := 1
  const MAX_HISTORY := Continuity.MAX_HISTORY

  /** A row of `invocations`. `Interrupted` is FAILED with the error that only recovery writes: the error a
      handler leaves is always the same other text. */
  datatype Row =
    | Running
    | Interrupted
    | Failed(version: Option<nat>)
    | Succeeded(result: string, version: Option<nat>)

  /** What a caller gets back. */
  datatype Answer = StillRunning | Failure | Result(result: string)

  datatype Caller =
    | Entering(key: Key)
    | Inserting(key: Key)
    | Replaying(key: Key, row: Row)
    | Restarting(key: Key)
    | Ready(key: Key, attempt: nat)
    | Handling(key: Key, committed: bool)
    | Returned(key: Key, result: string)
    | Broken(key: Key)

  /** `applied` is the workspace's mutation table with its stored results, by call; `memory` the calls whose updates the
      continuity ledger holds, by the revision they were made for. `commits` lists the workspace commits made,
      `starts` the handler entries with the attempt that was allowed to make them, `restarts` how often a row was
      restarted, `recoveries` how often one was marked interrupted. */
  datatype World = World(
    rows: map<Key, Row>, terminal: bool, applied: map<nat, string>, commits: seq<nat>, memory: seq<nat>,
    starts: seq<(Key, nat)>, restarts: map<Key, nat>, recoveries: map<Key, nat>,
    answers: set<(Key, Answer)>, callers: map<nat, Caller>)

  datatype Event =
    | Terminate
    | Recover
    | Enter(u: nat, key: Key)
    | Look(u: nat)
    | Insert(u: nat)
    | Replay(u: nat)
    | Restart(u: nat)
    | Handle(u: nat)
    | Commit(u: nat, result: string)
    | Remember(u: nat)
    | Return(u: nat, result: string)
    | Raise(u: nat)
    | FinishResult(u: nat)
    | FinishError(u: nat)
    | Crash(u: nat)

  function Start(rows: map<Key, Row>): World { World(rows, false, map[], [], [], [], map[], map[], {}, map[]) }

  function Count(m: map<Key, nat>, key: Key): nat { if key in m then m[key] else 0 }

  predicate SameRows(w: World, w': World) {
    w'.rows == w.rows && w'.restarts == w.restarts && w'.recoveries == w.recoveries
  }

  function Stop(w: World, u: nat): World { w.(callers := w.callers - {u}) }

  function Go(w: World, u: nat, c: Caller): World { w.(callers := w.callers[u := c]) }

  function Tell(w: World, u: nat, key: Key, a: Answer): World { Stop(w.(answers := w.answers + {(key, a)}), u) }

  /** Rows of another normalization version answer as failures, whatever they hold. */
  function AnswerOf(row: Row): Answer {
    match row
    case Running => StillRunning
    case Interrupted => Failure
    case Failed(_) => Failure
    case Succeeded(r, v) => if v == Some(VERSION) then Result(r) else Failure
  }

  /** `recover_running_invocations`. */
  function RecoverStep(w: World): World {
    w.(rows := map k | k in w.rows :: if w.rows[k] == Running then Interrupted else w.rows[k],
       recoveries := map k | k in w.rows.Keys + w.recoveries.Keys ::
         Count(w.recoveries, k) + if k in w.rows && w.rows[k] == Running then 1 else 0)
  }

  function EnterStep(w: World, u: nat, key: Key): (w': World)
    ensures SameRows(w, w')
  {
    if w.terminal then Stop(w, u) else Go(w, u, Entering(key))
  }

  function LookStep(w: World, u: nat): (w': World)
    requires u in w.callers && w.callers[u].Entering?
    ensures SameRows(w, w')
  {
    var key := w.callers[u].key;
    Go(w, u, if key in w.rows then Replaying(key, w.rows[key]) else Inserting(key))
  }

  /** The primary key turns away whoever comes second. */
  function InsertStep(w: World, u: nat): World
    requires u in w.callers && w.callers[u].Inserting?
  {
    var key := w.callers[u].key;
    if key in w.rows then Stop(w, u) else Go(w.(rows := w.rows[key := Running]), u, Ready(key, 0))
  }

  function ReplayStep(w: World, u: nat): (w': World)
    requires u in w.callers && w.callers[u].Replaying?
    ensures SameRows(w, w')
  {
    var Replaying(key, row) := w.callers[u];
    if row == Interrupted && key.effect != ProcessExecution then Go(w, u, Restarting(key))
    else Tell(w, u, key, AnswerOf(row))
  }

  function RestartStep(w: World, u: nat): World
    requires u in w.callers && w.callers[u].Restarting?
  {
    var key := w.callers[u].key;
    if key in w.rows && w.rows[key] == Interrupted then
      var n := Count(w.restarts, key) + 1;
      Go(w.(rows := w.rows[key := Running], restarts := w.restarts[key := n]), u, Ready(key, n))
    else Stop(w, u)
  }

  function HandleStep(w: World, u: nat): (w': World)
    requires u in w.callers && w.callers[u].Ready?
    ensures SameRows(w, w')
  {
    var Ready(key, n) := w.callers[u];
    Go(w.(starts := w.starts + [(key, n)]), u, Handling(key, false))
  }

  /** A workspace write: look the mutation up, commit it if it is not there. */
  function CommitStep(w: World, u: nat, result: string): (w': World)
    requires u in w.callers && w.callers[u].Handling? && w.callers[u].key.effect == WorkspaceWrite
    ensures SameRows(w, w')
  {
    var key := w.callers[u].key;
    if key.call in w.applied then Go(w, u, Handling(key, true))
    else Go(w.(applied := w.applied[key.call := result], commits := w.commits + [key.call]), u, Handling(key, true))
  }

  /** A memory write, as `Continuity.Ledger.Append` has it: apply at the present revision, recognise an update that is
      among the newest 32, refuse any other. */
  function RememberStep(w: World, u: nat): (w': World)
    requires u in w.callers && w.callers[u].Handling? && w.callers[u].key.effect.MemoryWrite?
    ensures SameRows(w, w')
  {
    var key := w.callers[u].key;
    var at := key.effect.revision;
    if at == |w.memory| then Go(w.(memory := w.memory + [key.call]), u, Handling(key, true))
    else if at < |w.memory| <= at + MAX_HISTORY && w.memory[at] == key.call then Go(w, u, Handling(key, true))
    else Go(w, u, Broken(key))
  }

  /** The handler returns. A workspace write returns what its mutation row holds, and only once there is one; a memory
      write returns only once the ledger took its update. */
  function ReturnStep(w: World, u: nat, result: string): (w': World)
    requires u in w.callers && w.callers[u].Handling?
    ensures SameRows(w, w')
  {
    var Handling(key, committed) := w.callers[u];
    if key.effect.MemoryWrite? then if committed then Go(w, u, Returned(key, result)) else Go(w, u, Broken(key))
    else if key.effect != WorkspaceWrite then Go(w, u, Returned(key, result))
    else if committed && key.call in w.applied then Go(w, u, Returned(key, w.applied[key.call]))
    else Go(w, u, Broken(key))
  }

  function RaiseStep(w: World, u: nat): (w': World)
    requires u in w.callers && w.callers[u].Handling?
    ensures SameRows(w, w')
  {
    Go(w, u, Broken(w.callers[u].key))
  }

  /** The guarded update; losing it raises inside the same `try`, whose handler then records an error. */
  function FinishResultStep(w: World, u: nat): World
    requires u in w.callers && w.callers[u].Returned?
  {
    var Returned(key, r) := w.callers[u];
    if key in w.rows && w.rows[key] == Running then
      Tell(w.(rows := w.rows[key := Succeeded(r, Some(VERSION))]), u, key, Result(r))
    else Go(w, u, Broken(key))
  }

  function FinishErrorStep(w: World, u: nat): World
    requires u in w.callers && w.callers[u].Broken?
  {
    var key := w.callers[u].key;
    if key in w.rows && w.rows[key] == Running then
      Tell(w.(rows := w.rows[key := Failed(Some(VERSION))]), u, key, Failure)
    else Stop(w, u)
  }

  function Step(w: World, e: Event): World {
    match e
    case Terminate => w.(terminal := true)
    case Recover => RecoverStep(w)
    case Enter(u, key) => EnterStep(w, u, key)
    case Look(u) => if u in w.callers && w.callers[u].Entering? then LookStep(w, u) else w
    case Insert(u) => if u in w.callers && w.callers[u].Inserting? then InsertStep(w, u) else w
    case Replay(u) => if u in w.callers && w.callers[u].Replaying? then ReplayStep(w, u) else w
    case Restart(u) => if u in w.callers && w.callers[u].Restarting? then RestartStep(w, u) else w
    case Handle(u) => if u in w.callers && w.callers[u].Ready? then HandleStep(w, u) else w
    case Commit(u, r) =>
      if u in w.callers && w.callers[u].Handling? && w.callers[u].key.effect == WorkspaceWrite
      then CommitStep(w, u, r) else w
    case Remember(u) =>
      if u in w.callers && w.callers[u].Handling? && w.callers[u].key.effect.MemoryWrite? then RememberStep(w, u) else w
    case Return(u, r) => if u in w.callers && w.callers[u].Handling? then ReturnStep(w, u, r) else w
    case Raise(u) => if u in w.callers && w.callers[u].Handling? then RaiseStep(w, u) else w
    case FinishResult(u) => if u in w.callers && w.callers[u].Returned? then FinishResultStep(w, u) else w
    case FinishError(u) => if u in w.callers && w.callers[u].Broken? then FinishErrorStep(w, u) else w
    case Crash(u) => Stop(w, u)
  }

  function Run(w: World, events: seq<Event>): World
    decreases |events|
  {
    if events == [] then w else Run(Step(w, events[0]), events[1..])
  }

  /* ---- the invariant ---- */

  /** A row that has succeeded stands; the mutation table and the counts only grow. */
  ghost predicate Grows(w: World, w': World) {
    && (forall k :: k in w.rows ==> k in w'.rows && (w.rows[k].Succeeded? ==> w'.rows[k] == w.rows[k]))
    && (forall c :: c in w.applied ==> c in w'.applied && w'.applied[c] == w.applied[c])
    && (forall k :: Count(w.restarts, k) <= Count(w'.restarts, k))
    && w.starts <= w'.starts && w.memory <= w'.memory
  }

  /** The ledger holds the update of this call where it belongs. */
  predicate Remembered(w: World, k: Key) {
    k.effect.MemoryWrite? ==> k.effect.revision < |w.memory| && w.memory[k.effect.revision] == k.call
  }

  ghost predicate AnswersOk(w: World) {
    forall k, r :: (k, Result(r)) in w.answers ==> k in w.rows && w.rows[k] == Succeeded(r, Some(VERSION))
  }

  ghost predicate WritesOk(w: World) {
    && (forall i, j :: 0 <= i < j < |w.commits| ==> w.commits[i] != w.commits[j])
    && (forall c :: c in w.applied <==> c in w.commits)
    && (forall k :: k in w.rows && k.effect == WorkspaceWrite && w.rows[k].Succeeded? &&
                    w.rows[k].version == Some(VERSION) ==>
          k.call in w.applied && w.rows[k].result == w.applied[k.call])
    && (forall k :: k in w.rows && w.rows[k].Succeeded? && w.rows[k].version == Some(VERSION) ==> Remembered(w, k))
  }

  ghost predicate StartsOk(w: World) {
    && (forall i, j :: 0 <= i < j < |w.starts| ==> w.starts[i] != w.starts[j])
    && (forall i :: 0 <= i < |w.starts| ==>
          w.starts[i].0 in w.rows && w.starts[i].1 <= Count(w.restarts, w.starts[i].0))
    && (forall k: Key :: k.effect == ProcessExecution ==> Count(w.restarts, k) == 0)
    && (forall k :: k !in w.rows ==> Count(w.restarts, k) == 0)
  }

  ghost predicate CallerOk(w: World, c: Caller) {
    match c
    case Entering(_) => true
    case Inserting(_) => true
    case Replaying(k, row) => k in w.rows && (row.Succeeded? ==> w.rows[k] == row)
    case Restarting(k) => k in w.rows && k.effect != ProcessExecution
    case Ready(k, n) => k in w.rows && n <= Count(w.restarts, k) && (k, n) !in w.starts
    case Handling(k, committed) =>
      k in w.rows && (committed ==> Remembered(w, k) && (k.effect == WorkspaceWrite ==> k.call in w.applied))
    case Returned(k, r) =>
      k in w.rows && Remembered(w, k) && (k.effect == WorkspaceWrite ==> k.call in w.applied && w.applied[k.call] == r)
    case Broken(k) => k in w.rows
  }

  ghost predicate CallersOk(w: World) {
    && (forall u :: u in w.callers ==> CallerOk(w, w.callers[u]))
    && (forall u, v :: u in w.callers && v in w.callers && u != v && w.callers[u].Ready? ==>
          w.callers[u] != w.callers[v])
  }

  ghost predicate Inv(w: World) { AnswersOk(w) && WritesOk(w) && StartsOk(w) && CallersOk(w) }

  lemma {:induction false} CallerStays(w: World, w': World, c: Caller)
    requires CallerOk(w, c) && Grows(w, w')
    requires c.Ready? && (c.key, c.attempt) in w'.starts ==> (c.key, c.attempt) in w.starts
    ensures CallerOk(w', c)
  {
  }

  /** One caller moved; a new start, if any, is the one that caller was ready to make; a new permission to start is
      one nobody has. */
  lemma {:induction false} MoveKeepsCallers(w: World, w': World, u: nat)
    requires CallersOk(w) && Grows(w, w')
    requires forall v :: v != u && v in w'.callers ==> v in w.callers && w'.callers[v] == w.callers[v]
    requires u in w'.callers ==> CallerOk(w', w'.callers[u])
    requires u in w'.callers && w'.callers[u].Ready? ==>
               forall v :: v in w.callers && v != u ==> w.callers[v] != w'.callers[u]
    requires w'.starts == w.starts
          || (u in w.callers && w.callers[u].Ready?
              && w'.starts == w.starts + [(w.callers[u].key, w.callers[u].attempt)])
    ensures CallersOk(w')
  {
    hide CallerOk, Grows;
    forall v | v in w'.callers ensures CallerOk(w', w'.callers[v]) {
      if v != u {
        if w.callers[v].Ready? && u in w.callers && w.callers[u].Ready? {
          assert w.callers[v] != w.callers[u];
          SamePermission(w.callers[v], w.callers[u]);
        }
        CallerStays(w, w', w.callers[v]);
      }
    }
  }

  lemma SamePermission(a: Caller, b: Caller)
    requires a.Ready? && b.Ready? && a != b
    ensures (a.key, a.attempt) != (b.key, b.attempt)
  {
  }

  lemma {:induction false} GoKeeps(w: World, u: nat, c: Caller)
    requires Inv(w) && CallerOk(w, c) && !c.Ready?
    ensures Inv(Go(w, u, c))
  {
    MoveKeepsCallers(w, Go(w, u, c), u);
  }

  lemma {:induction false} StopKeeps(w: World, u: nat)
    requires Inv(w)
    ensures Inv(Stop(w, u))
  {
  }

  lemma {:induction false} TellKeeps(w: World, u: nat, key: Key, a: Answer)
    requires Inv(w) && (a.Result? ==> key in w.rows && w.rows[key] == Succeeded(a.result, Some(VERSION)))
    ensures Inv(Tell(w, u, key, a))
  {
  }

  lemma {:induction false} RecoveredTables(w: World)
    requires StartsOk(w) && WritesOk(w) && AnswersOk(w)
    ensures var w' := RecoverStep(w); StartsOk(w') && WritesOk(w') && AnswersOk(w') && Grows(w, w')
  {
  }

  lemma {:induction false} RecoverKeeps(w: World)
    requires Inv(w)
    ensures Inv(RecoverStep(w))
  {
    hide CallerOk, StartsOk, WritesOk, AnswersOk, Grows, Count;
    var w' := RecoverStep(w);
    RecoveredTables(w);
    forall u | u in w'.callers ensures CallerOk(w', w'.callers[u]) { CallerStays(w, w', w.callers[u]); }
  }

  lemma {:induction false} LookKeeps(w: World, u: nat)
    requires Inv(w) && u in w.callers && w.callers[u].Entering?
    ensures Inv(LookStep(w, u))
  {
    var key := w.callers[u].key;
    GoKeeps(w, u, if key in w.rows then Replaying(key, w.rows[key]) else Inserting(key));
  }

  lemma {:induction false} InsertedTables(w: World, u: nat)
    requires StartsOk(w) && WritesOk(w) && AnswersOk(w)
    requires u in w.callers && w.callers[u].Inserting? && w.callers[u].key !in w.rows
    ensures var key := w.callers[u].key;
            var w' := InsertStep(w, u);
            && w'.starts == w.starts && w'.callers == w.callers[u := Ready(key, 0)]
            && StartsOk(w') && WritesOk(w') && AnswersOk(w') && CallerOk(w', Ready(key, 0)) && Grows(w, w')
  {
  }

  lemma {:induction false} InsertKeeps(w: World, u: nat)
    requires Inv(w) && u in w.callers && w.callers[u].Inserting?
    ensures Inv(InsertStep(w, u))
  {
    hide StartsOk, WritesOk, AnswersOk, Grows, Count;
    var key := w.callers[u].key;
    if key in w.rows {
      StopKeeps(w, u);
    } else {
      forall v | v in w.callers ensures w.callers[v] != Ready(key, 0) { assert CallerOk(w, w.callers[v]); }
      InsertedTables(w, u);
      MoveKeepsCallers(w, InsertStep(w, u), u);
    }
  }

  lemma {:induction false} ReplayKeeps(w: World, u: nat)
    requires Inv(w) && u in w.callers && w.callers[u].Replaying?
    ensures Inv(ReplayStep(w, u))
  {
    assert CallerOk(w, w.callers[u]);
    var Replaying(key, row) := w.callers[u];
    if row == Interrupted && key.effect != ProcessExecution {
      GoKeeps(w, u, Restarting(key));
    } else {
      TellKeeps(w, u, key, AnswerOf(row));
    }
  }

  /** A restart's number is one no start has used. */
  lemma {:induction false} RestartedStarts(w: World, u: nat)
    requires StartsOk(w) && WritesOk(w) && AnswersOk(w)
    requires u in w.callers && w.callers[u].Restarting? && w.callers[u].key.effect != ProcessExecution
    requires w.callers[u].key in w.rows && w.rows[w.callers[u].key] == Interrupted
    ensures var key := w.callers[u].key;
            var n := Count(w.restarts, key) + 1;
            var w' := RestartStep(w, u);
            && w' == Go(w', u, Ready(key, n)) && w'.starts == w.starts && w'.callers == w.callers[u := Ready(key, n)]
            && StartsOk(w') && WritesOk(w') && AnswersOk(w') && CallerOk(w', Ready(key, n)) && Grows(w, w')
  {
    hide StartsOk, AnswersOk, WritesOk;
    RestartedCount(w, u);
    RestartedRows(w, u);
    StartsNotYet(w, w.callers[u].key, Count(w.restarts, w.callers[u].key) + 1);
  }

  lemma {:induction false} StartsNotYet(w: World, key: Key, n: nat)
    requires StartsOk(w) && n > Count(w.restarts, key)
    ensures (key, n) !in w.starts
  {
    hide Count;
  }

  lemma {:induction false} RestartedCount(w: World, u: nat)
    requires StartsOk(w)
    requires u in w.callers && w.callers[u].Restarting? && w.callers[u].key.effect != ProcessExecution
    requires w.callers[u].key in w.rows && w.rows[w.callers[u].key] == Interrupted
    ensures StartsOk(RestartStep(w, u))
  {
  }

  lemma {:induction false} RestartedRows(w: World, u: nat)
    requires WritesOk(w) && AnswersOk(w)
    requires u in w.callers && w.callers[u].Restarting?
    requires w.callers[u].key in w.rows && w.rows[w.callers[u].key] == Interrupted
    ensures WritesOk(RestartStep(w, u)) && AnswersOk(RestartStep(w, u))
  {
    hide Count;
  }

  lemma {:induction false} RestartKeeps(w: World, u: nat)
    requires Inv(w) && u in w.callers && w.callers[u].Restarting?
    ensures Inv(RestartStep(w, u))
  {
    hide StartsOk, WritesOk, AnswersOk, Grows, Count;
    assert CallerOk(w, w.callers[u]);
    var key := w.callers[u].key;
    if key in w.rows && w.rows[key] == Interrupted {
      var n := Count(w.restarts, key) + 1;
      forall v | v in w.callers ensures w.callers[v] != Ready(key, n) {
        assert CallerOk(w, w.callers[v]);
      }
      RestartedStarts(w, u);
      MoveKeepsCallers(w, RestartStep(w, u), u);
    } else {
      StopKeeps(w, u);
    }
  }

  lemma {:induction false} HandleKeeps(w: World, u: nat)
    requires Inv(w) && u in w.callers && w.callers[u].Ready?
    ensures Inv(HandleStep(w, u))
  {
    assert CallerOk(w, w.callers[u]);
    MoveKeepsCallers(w, HandleStep(w, u), u);
  }

  lemma {:induction false} CommittedTables(w: World, u: nat, result: string)
    requires StartsOk(w) && WritesOk(w) && AnswersOk(w)
    requires u in w.callers && w.callers[u].Handling? && w.callers[u].key.effect == WorkspaceWrite
    requires w.callers[u].key in w.rows && w.callers[u].key.call !in w.applied
    ensures var key := w.callers[u].key;
            var w' := CommitStep(w, u, result);
            && w'.starts == w.starts && w'.callers == w.callers[u := Handling(key, true)]
            && StartsOk(w') && WritesOk(w') && AnswersOk(w') && CallerOk(w', Handling(key, true)) && Grows(w, w')
  {
  }

  lemma {:induction false} CommitKeeps(w: World, u: nat, result: string)
    requires Inv(w) && u in w.callers && w.callers[u].Handling? && w.callers[u].key.effect == WorkspaceWrite
    ensures Inv(CommitStep(w, u, result))
  {
    hide StartsOk, WritesOk, AnswersOk, Grows, Count;
    assert CallerOk(w, w.callers[u]);
    var key := w.callers[u].key;
    if key.call in w.applied {
      GoKeeps(w, u, Handling(key, true));
    } else {
      CommittedTables(w, u, result);
      MoveKeepsCallers(w, CommitStep(w, u, result), u);
    }
  }

  lemma {:induction false} RememberedTables(w: World, u: nat)
    requires StartsOk(w) && WritesOk(w) && AnswersOk(w)
    requires u in w.callers && w.callers[u].Handling? && w.callers[u].key.effect.MemoryWrite?
    requires w.callers[u].key in w.rows && w.callers[u].key.effect.revision == |w.memory|
    ensures var key := w.callers[u].key;
            var w' := RememberStep(w, u);
            && w'.starts == w.starts && w'.callers == w.callers[u := Handling(key, true)]
            && StartsOk(w') && WritesOk(w') && AnswersOk(w') && CallerOk(w', Handling(key, true)) && Grows(w, w')
  {
  }

  lemma {:induction false} RememberKeeps(w: World, u: nat)
    requires Inv(w) && u in w.callers && w.callers[u].Handling? && w.callers[u].key.effect.MemoryWrite?
    ensures Inv(RememberStep(w, u))
  {
    hide StartsOk, WritesOk, AnswersOk, Grows, Count;
    assert CallerOk(w, w.callers[u]);
    var key := w.callers[u].key;
    var at := key.effect.revision;
    if at == |w.memory| {
      RememberedTables(w, u);
      MoveKeepsCallers(w, RememberStep(w, u), u);
    } else if at < |w.memory| <= at + MAX_HISTORY && w.memory[at] == key.call {
      GoKeeps(w, u, Handling(key, true));
    } else {
      GoKeeps(w, u, Broken(key));
    }
  }

  lemma {:induction false} ReturnKeeps(w: World, u: nat, result: string)
    requires Inv(w) && u in w.callers && w.callers[u].Handling?
    ensures Inv(ReturnStep(w, u, result)) && Inv(RaiseStep(w, u))
  {
    assert CallerOk(w, w.callers[u]);
    var Handling(key, committed) := w.callers[u];
    GoKeeps(w, u, Broken(key));
    if key.effect.MemoryWrite? {
      if committed { GoKeeps(w, u, Returned(key, result)); }
    } else if key.effect != WorkspaceWrite {
      GoKeeps(w, u, Returned(key, result));
    } else if committed && key.call in w.applied {
      GoKeeps(w, u, Returned(key, w.applied[key.call]));
    }
  }

  /** A running row may take its terminal value. */
  lemma {:induction false} RowKeeps(w: World, key: Key, row: Row)
    requires Inv(w) && key in w.rows && w.rows[key] == Running
    requires row.Succeeded? ==> Remembered(w, key)
    requires row.Succeeded? && key.effect == WorkspaceWrite ==>
               key.call in w.applied && w.applied[key.call] == row.result
    ensures Inv(w.(rows := w.rows[key := row]))
  {
    hide CallerOk, StartsOk, WritesOk, AnswersOk;
    var w' := w.(rows := w.rows[key := row]);
    RowKeepsTables(w, key, row);
    forall u | u in w'.callers ensures CallerOk(w', w'.callers[u]) { CallerStays(w, w', w.callers[u]); }
  }

  lemma {:induction false} RowKeepsTables(w: World, key: Key, row: Row)
    requires StartsOk(w) && WritesOk(w) && AnswersOk(w) && key in w.rows && w.rows[key] == Running
    requires row.Succeeded? ==> Remembered(w, key)
    requires row.Succeeded? && key.effect == WorkspaceWrite ==>
               key.call in w.applied && w.applied[key.call] == row.result
    ensures var w' := w.(rows := w.rows[key := row]); StartsOk(w') && WritesOk(w') && AnswersOk(w') && Grows(w, w')
  {
    hide Count;
  }

  lemma {:induction false} FinishResultKeeps(w: World, u: nat)
    requires Inv(w) && u in w.callers && w.callers[u].Returned?
    ensures Inv(FinishResultStep(w, u))
  {
    assert CallerOk(w, w.callers[u]);
    hide Inv;
    var Returned(key, r) := w.callers[u];
    if key in w.rows && w.rows[key] == Running {
      RowKeeps(w, key, Succeeded(r, Some(VERSION)));
      TellKeeps(w.(rows := w.rows[key := Succeeded(r, Some(VERSION))]), u, key, Result(r));
    } else {
      GoKeeps(w, u, Broken(key));
    }
  }

  lemma {:induction false} FinishErrorKeeps(w: World, u: nat)
    requires Inv(w) && u in w.callers && w.callers[u].Broken?
    ensures Inv(FinishErrorStep(w, u))
  {
    hide Inv;
    var key := w.callers[u].key;
    if key in w.rows && w.rows[key] == Running {
      RowKeeps(w, key, Failed(Some(VERSION)));
      TellKeeps(w.(rows := w.rows[key := Failed(Some(VERSION))]), u, key, Failure);
    } else {
      StopKeeps(w, u);
    }
  }

  lemma {:induction false} EnterKeeps(w: World, u: nat, key: Key)
    requires Inv(w)
    ensures Inv(EnterStep(w, u, key)) && Inv(w.(terminal := true))
  {
    GoKeeps(w, u, Entering(key));
    StopKeeps(w, u);
    forall v | v in w.callers ensures CallerOk(w.(terminal := true), w.callers[v]) { assert CallerOk(w, w.callers[v]); }
  }

  lemma {:induction false} StepKeeps(w: World, e: Event)
    requires Inv(w)
    ensures Inv(Step(w, e))
  {
    hide Inv, RecoverStep, EnterStep, LookStep, InsertStep, ReplayStep, RestartStep, HandleStep, CommitStep,
         RememberStep, ReturnStep, RaiseStep, FinishResultStep, FinishErrorStep, Stop;
    match e
    case Terminate => EnterKeeps(w, 0, Key(Read, 0, 0));
    case Recover => RecoverKeeps(w);
    case Enter(u, key) => EnterKeeps(w, u, key);
    case Look(u) => if u in w.callers && w.callers[u].Entering? { LookKeeps(w, u); }
    case Insert(u) => if u in w.callers && w.callers[u].Inserting? { InsertKeeps(w, u); }
    case Replay(u) => if u in w.callers && w.callers[u].Replaying? { ReplayKeeps(w, u); }
    case Restart(u) => if u in w.callers && w.callers[u].Restarting? { RestartKeeps(w, u); }
    case Handle(u) => if u in w.callers && w.callers[u].Ready? { HandleKeeps(w, u); }
    case Commit(u, r) =>
      if u in w.callers && w.callers[u].Handling? && w.callers[u].key.effect == WorkspaceWrite { CommitKeeps(w, u, r); }
    case Remember(u) =>
      if u in w.callers && w.callers[u].Handling? && w.callers[u].key.effect.MemoryWrite? { RememberKeeps(w, u); }
    case Return(u, r) => if u in w.callers && w.callers[u].Handling? { ReturnKeeps(w, u, r); }
    case Raise(u) => if u in w.callers && w.callers[u].Handling? { ReturnKeeps(w, u, ""); }
    case FinishResult(u) => if u in w.callers && w.callers[u].Returned? { FinishResultKeeps(w, u); }
    case FinishError(u) => if u in w.callers && w.callers[u].Broken? { FinishErrorKeeps(w, u); }
    case Crash(u) => StopKeeps(w, u);
  }

  lemma {:induction false} RunKeeps(w: World, events: seq<Event>)
    requires Inv(w)
    ensures Inv(Run(w, events))
    decreases |events|
  {
    hide Inv, Step;
    if events != [] {
      StepKeeps(w, events[0]);
      RunKeeps(Step(w, events[0]), events[1..]);
    }
  }

  /** Rows left by earlier versions of the runtime: anything but a result of the present version. */
  ghost predicate Earlier(rows: map<Key, Row>) {
    forall k :: k in rows && rows[k].Succeeded? ==> rows[k].version != Some(VERSION)
  }

  lemma {:induction false} StartHolds(rows: map<Key, Row>)
    requires Earlier(rows)
    ensures Inv(Start(rows))
  {
  }

  /* ---- what holds of every run ---- */

  ghost predicate RowsStand(w: World, w': World) {
    forall k :: k in w.rows && w.rows[k].Succeeded? ==> k in w'.rows && w'.rows[k] == w.rows[k]
  }

  lemma {:induction false} RowsStandStep(w: World, e: Event)
    ensures RowsStand(w, Step(w, e))
  {
    hide Count, Remembered, AnswerOf, RecoverStep, RestartStep, InsertStep, FinishResultStep, FinishErrorStep;
    match e
    case Recover => RowsStandRare(w, 0);
    case Insert(u) => RowsStandRare(w, u);
    case Restart(u) => RowsStandRare(w, u);
    case FinishResult(u) => RowsStandRare(w, u);
    case FinishError(u) => RowsStandRare(w, u);
    case _ =>
  }

  lemma {:induction false} RowsStandRare(w: World, u: nat)
    ensures RowsStand(w, RecoverStep(w))
    ensures u in w.callers && w.callers[u].Inserting? ==> RowsStand(w, InsertStep(w, u))
    ensures u in w.callers && w.callers[u].Restarting? ==> RowsStand(w, RestartStep(w, u))
    ensures u in w.callers && w.callers[u].Returned? ==> RowsStand(w, FinishResultStep(w, u))
    ensures u in w.callers && w.callers[u].Broken? ==> RowsStand(w, FinishErrorStep(w, u))
  {
    hide Count, Remembered, AnswerOf;
  }

  /** A row that has succeeded never changes again, from any state. */
  lemma {:induction false} ResultsStand(w: World, events: seq<Event>, k: Key)
    requires k in w.rows && w.rows[k].Succeeded?
    ensures k in Run(w, events).rows && Run(w, events).rows[k] == w.rows[k]
    decreases |events|
  {
    hide Step;
    if events != [] {
      RowsStandStep(w, events[0]);
      ResultsStand(Step(w, events[0]), events[1..], k);
    }
  }

  /** Every result ever given for a key, by whichever caller and however often, is the one stored; and a row from an
      earlier version never gives any. */
  lemma {:induction false} AnswersAgree(rows: map<Key, Row>, events: seq<Event>, k: Key, r: string)
    requires Earlier(rows) && (k, Result(r)) in Run(Start(rows), events).answers
    ensures var w := Run(Start(rows), events);
            && k in w.rows && w.rows[k] == Succeeded(r, Some(VERSION))
            && (forall r' :: (k, Result(r')) in w.answers ==> r' == r)
            && !(k in rows && rows[k].Succeeded?)
  {
    hide Step, Run, WritesOk, StartsOk, CallersOk;
    StartHolds(rows);
    RunKeeps(Start(rows), events);
    if k in rows && rows[k].Succeeded? {
      ResultsStand(Start(rows), events, k);
      assert false;
    }
  }

  /** A process-execution handler is entered at most once over all callers, recoveries and crashes. */
  lemma {:induction false} ProcessRunsOnce(rows: map<Key, Row>, events: seq<Event>, i: nat, j: nat)
    requires Earlier(rows)
    requires i < j < |Run(Start(rows), events).starts|
    requires Run(Start(rows), events).starts[i].0.effect == ProcessExecution
    ensures Run(Start(rows), events).starts[i].0 != Run(Start(rows), events).starts[j].0
  {
    hide Step, Run, WritesOk, AnswersOk, CallersOk;
    StartHolds(rows);
    RunKeeps(Start(rows), events);
    var w := Run(Start(rows), events);
    assert w.starts[i].1 == 0 by { assert w.starts[i].1 <= Count(w.restarts, w.starts[i].0); }
    if w.starts[i].0 == w.starts[j].0 {
      assert w.starts[j].1 <= Count(w.restarts, w.starts[j].0);
    }
  }

  /** A workspace write whose invocation has succeeded was applied exactly once, whatever was restarted, and its
      answer is what that one application stored. */
  lemma {:induction false} WritesApplyOnce(rows: map<Key, Row>, events: seq<Event>, k: Key, r: string)
    requires Earlier(rows) && k.effect == WorkspaceWrite && (k, Result(r)) in Run(Start(rows), events).answers
    ensures var w := Run(Start(rows), events);
            && k.call in w.applied && w.applied[k.call] == r
            && exists i :: 0 <= i < |w.commits| && w.commits[i] == k.call
                           && forall j :: 0 <= j < |w.commits| && w.commits[j] == k.call ==> j == i
  {
    hide Step, Run, StartsOk, CallersOk;
    StartHolds(rows);
    RunKeeps(Start(rows), events);
    var w := Run(Start(rows), events);
    assert k.call in w.commits;
    var i :| 0 <= i < |w.commits| && w.commits[i] == k.call;
    assert forall j :: 0 <= j < |w.commits| && w.commits[j] == k.call ==> j == i;
  }

  /** A memory write whose invocation has succeeded stands in the ledger at the revision it was made for, and nowhere
      else is there room for it: it was applied exactly once, whatever was restarted. */
  lemma {:induction false} MemoryAppliesOnce(rows: map<Key, Row>, events: seq<Event>, more: seq<Event>, k: Key,
                                             r: string)
    requires Earlier(rows) && k.effect.MemoryWrite? && (k, Result(r)) in Run(Start(rows), events).answers
    ensures var w := Run(Start(rows), events);
            && k.effect.revision < |w.memory| && w.memory[k.effect.revision] == k.call
            && w.memory <= Run(w, more).memory
  {
    hide Step, Run, StartsOk, CallersOk;
    StartHolds(rows);
    RunKeeps(Start(rows), events);
    var w := Run(Start(rows), events);
    assert w.rows[k] == Succeeded(r, Some(VERSION));
    assert Remembered(w, k);
    MemoryStands(w, more);
  }

  lemma {:induction false} MemoryStep(w: World, e: Event)
    ensures w.memory <= Step(w, e).memory
  {
    hide Count, AnswerOf, Remembered;
    if !e.Remember? {
      OthersLeaveMemory(w, e);
    }
  }

  lemma {:induction false} OthersLeaveMemory(w: World, e: Event)
    requires !e.Remember?
    ensures Step(w, e).memory == w.memory
  {
    hide Count, AnswerOf, RecoverStep, RestartStep;
    if e.Recover? || e.Restart? {
      RowsOnly(w, e);
    }
  }

  lemma {:induction false} RowsOnly(w: World, e: Event)
    requires e.Recover? || e.Restart?
    ensures Step(w, e).memory == w.memory
  {
  }

  lemma {:induction false} MemoryStands(w: World, events: seq<Event>)
    ensures w.memory <= Run(w, events).memory
    decreases |events|
  {
    hide Step;
    if events != [] {
      MemoryStep(w, events[0]);
      MemoryStands(Step(w, events[0]), events[1..]);
    }
  }

  /* ---- the workspace behind the write ---- */

  /** `applied` is the workspace's table, its operations numbered and its results spelled out. */
  ghost predicate TableIs(applied: map<nat, string>, rows: seq<Workspaces.Row>, number: Op -> nat,
                          spell: Changes -> string) {
    && (forall i :: 0 <= i < |rows| ==>
          number(rows[i].op) in applied && applied[number(rows[i].op)] == spell(rows[i].result))
    && (forall c :: c in applied ==> exists i :: 0 <= i < |rows| && number(rows[i].op) == c)
  }

  lemma {:induction false} TableGrows(applied: map<nat, string>, rows: seq<Workspaces.Row>, row: Workspaces.Row,
                                      number: Op -> nat, spell: Changes -> string)
    requires TableIs(applied, rows, number, spell) && number(row.op) !in applied
    ensures TableIs(applied[number(row.op) := spell(row.result)], rows + [row], number, spell)
  {
    var applied' := applied[number(row.op) := spell(row.result)];
    var rows' := rows + [row];
    assert rows'[|rows|] == row;
    forall c | c in applied' ensures exists j :: 0 <= j < |rows'| && number(rows'[j].op) == c {
      if c != number(row.op) {
        var j :| 0 <= j < |rows| && number(rows[j].op) == c;
        assert rows'[j] == rows[j];
      }
    }
  }

  /** What `Workspaces.Workspace.Mutate` promises of a call that is done, a table with this operation's row in it that
      is the old table or has just that row more, is what the step here does; and the answer it leads to is that
      row's. */
  lemma {:induction false} MutateIsCommit(w: World, u: nat, rows: seq<Workspaces.Row>, rows': seq<Workspaces.Row>,
                                          i: nat,
                                          number: Op -> nat, spell: Changes -> string)
    requires u in w.callers && w.callers[u].Handling? && w.callers[u].key.effect == WorkspaceWrite
    requires TableIs(w.applied, rows, number, spell) && i < |rows'| && w.callers[u].key.call == number(rows'[i].op)
    requires rows' == rows
          || (rows' == rows + [rows'[i]] && i == |rows| && forall j :: 0 <= j < |rows| ==> rows[j].op != rows'[i].op)
    requires forall a, b :: number(a) == number(b) ==> a == b
    ensures var w' := CommitStep(w, u, spell(rows'[i].result));
            && TableIs(w'.applied, rows', number, spell)
            && ReturnStep(w', u, "").callers[u] == Returned(w.callers[u].key, spell(rows'[i].result))
  {
    hide Go, TableIs;
    var call := w.callers[u].key.call;
    GoMeans(u);
    InTable(w.applied, rows, number, spell, rows'[i].op);
    if call !in w.applied {
      TableGrows(w.applied, rows, rows'[i], number, spell);
    } else {
      assert rows' == rows;
      RowInTable(w.applied, rows, number, spell, i);
    }
  }

  /** An operation has a row exactly if its number is in the table. */
  lemma InTable(applied: map<nat, string>, rows: seq<Workspaces.Row>, number: Op -> nat, spell: Changes -> string,
                op: Op)
    requires TableIs(applied, rows, number, spell) && forall a, b :: number(a) == number(b) ==> a == b
    ensures number(op) in applied <==> exists j :: 0 <= j < |rows| && rows[j].op == op
  {
  }

  lemma RowInTable(applied: map<nat, string>, rows: seq<Workspaces.Row>, number: Op -> nat, spell: Changes -> string,
                   i: nat)
    requires TableIs(applied, rows, number, spell) && i < |rows|
    ensures number(rows[i].op) in applied && applied[number(rows[i].op)] == spell(rows[i].result)
  {
  }

  lemma GoMeans(u: nat)
    ensures forall w: World, c: Caller :: Go(w, u, c) == w.(callers := w.callers[u := c])
  {
  }

  /* ---- a restart needs a recovery ---- */

  ghost predicate Paid(rows: map<Key, Row>, w: World) {
    forall k :: Count(w.restarts, k) + (if k in w.rows && w.rows[k] == Interrupted then 1 else 0)
                <= Count(w.recoveries, k) + (if k in rows && rows[k] == Interrupted then 1 else 0)
  }

  ghost predicate Quiet(w: World, w': World) {
    && w'.restarts == w.restarts && w'.recoveries == w.recoveries
    && forall k :: k in w'.rows && w'.rows[k] == Interrupted ==> k in w.rows && w.rows[k] == Interrupted
  }

  lemma {:induction false} QuietStep(w: World, e: Event)
    requires !e.Recover? && !e.Restart?
    ensures Quiet(w, Step(w, e))
  {
    hide RecoverStep, EnterStep, LookStep, InsertStep, ReplayStep, RestartStep, HandleStep, CommitStep, ReturnStep,
         RaiseStep, FinishResultStep, FinishErrorStep;
    match e
    case Insert(u) => if u in w.callers && w.callers[u].Inserting? { QuietInsert(w, u); }
    case FinishResult(u) => if u in w.callers && w.callers[u].Returned? { QuietResult(w, u); }
    case FinishError(u) => if u in w.callers && w.callers[u].Broken? { QuietError(w, u); }
    case _ =>
  }

  lemma {:induction false} QuietInsert(w: World, u: nat)
    requires u in w.callers && w.callers[u].Inserting?
    ensures Quiet(w, InsertStep(w, u))
  {
  }

  lemma {:induction false} QuietResult(w: World, u: nat)
    requires u in w.callers && w.callers[u].Returned?
    ensures Quiet(w, FinishResultStep(w, u))
  {
  }

  lemma {:induction false} QuietError(w: World, u: nat)
    requires u in w.callers && w.callers[u].Broken?
    ensures Quiet(w, FinishErrorStep(w, u))
  {
  }

  lemma {:induction false} PaidStep(rows: map<Key, Row>, w: World, e: Event)
    requires Paid(rows, w)
    ensures Paid(rows, Step(w, e))
  {
    if e.Recover? {
      PaidRecovery(rows, w);
    } else if e.Restart? {
      if e.u in w.callers && w.callers[e.u].Restarting? { PaidRestart(rows, w, e.u); }
    } else {
      hide Step, Count;
      QuietStep(w, e);
    }
  }

  lemma {:induction false} PaidRecovery(rows: map<Key, Row>, w: World)
    requires Paid(rows, w)
    ensures Paid(rows, RecoverStep(w))
  {
  }

  lemma {:induction false} PaidRestart(rows: map<Key, Row>, w: World, u: nat)
    requires Paid(rows, w) && u in w.callers && w.callers[u].Restarting?
    ensures Paid(rows, RestartStep(w, u))
  {
  }

  lemma {:induction false} PaidRun(rows: map<Key, Row>, w: World, events: seq<Event>)
    requires Paid(rows, w)
    ensures Paid(rows, Run(w, events))
    decreases |events|
  {
    hide Paid, Step;
    if events != [] {
      PaidStep(rows, w, events[0]);
      PaidRun(rows, Step(w, events[0]), events[1..]);
    }
  }

  /** How often the handler was entered for a key. */
  function Entries(starts: seq<(Key, nat)>, k: Key): nat {
    if starts == [] then 0
    else Entries(starts[..|starts| - 1], k) + if starts[|starts| - 1].0 == k then 1 else 0
  }

  function Attempts(starts: seq<(Key, nat)>, k: Key): set<nat> {
    set i | 0 <= i < |starts| && starts[i].0 == k :: starts[i].1
  }

  lemma {:induction false} AttemptsGrow(starts: seq<(Key, nat)>, x: (Key, nat), k: Key)
    ensures Attempts(starts + [x], k) == Attempts(starts, k) + if x.0 == k then {x.1} else {}
    ensures x.0 == k && x !in starts ==> x.1 !in Attempts(starts, k)
  {
    var all := starts + [x];
    assert all[|starts|] == x;
    forall a | a in Attempts(starts, k) ensures a in Attempts(all, k) {
      var i :| 0 <= i < |starts| && starts[i].0 == k && starts[i].1 == a;
      assert all[i] == starts[i];
    }
    if x.0 == k && x !in starts {
      forall i | 0 <= i < |starts| && starts[i].0 == k ensures starts[i].1 != x.1 {
        assert starts[i] in starts;
      }
    }
  }

  lemma {:induction false} EntriesAreAttempts(starts: seq<(Key, nat)>, k: Key)
    requires forall i, j :: 0 <= i < j < |starts| ==> starts[i] != starts[j]
    ensures Entries(starts, k) == |Attempts(starts, k)|
  {
    if starts == [] {
      assert Attempts(starts, k) == {};
    } else {
      hide Attempts;
      var n := |starts| - 1;
      EntriesAreAttempts(starts[..n], k);
      AttemptsGrow(starts[..n], starts[n], k);
      assert starts[..n] + [starts[n]] == starts;
      assert starts[n] !in starts[..n];
    }
  }

  lemma {:induction false} AtMost(s: set<nat>, n: nat)
    requires forall a :: a in s ==> a <= n
    ensures |s| <= n + 1
  {
    if n == 0 {
      assert s <= {0};
      assert s == {} || s == {0};
    } else {
      AtMost(s - {n}, n - 1);
    }
  }

  /** A handler is entered at most once more than its invocation was found interrupted. */
  lemma {:induction false} StartsArePaidFor(rows: map<Key, Row>, events: seq<Event>, k: Key)
    requires Earlier(rows)
    ensures var w := Run(Start(rows), events);
            Entries(w.starts, k) <= 1 + Count(w.recoveries, k) + (if k in rows && rows[k] == Interrupted then 1 else 0)
  {
    hide Step, Run, WritesOk, AnswersOk, CallersOk, Entries;
    StartHolds(rows);
    RunKeeps(Start(rows), events);
    PaidRun(rows, Start(rows), events);
    var w := Run(Start(rows), events);
    EntriesAreAttempts(w.starts, k);
    AtMost(Attempts(w.starts, k), Count(w.restarts, k));
  }
}
