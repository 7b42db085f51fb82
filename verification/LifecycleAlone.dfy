/** What a caller can do to be safe: start a coordinator only while nothing is being validated, and let a mutation end
    before the run leaves editing. Then attempts are in order, and neither danger of `LifecyclePublished` occurs. */
module LifecycleAlone {
  import opened Text
  import opened Patch
  import opened Mutations
  import opened RunStates
  import opened Lifecycle
  import opened LifecycleSafety
  import opened LifecyclePublished

  /** The caller's side of one step. */
  predicate Orderly(w: World, e: Event) {
    && (e.Enter? ==> w.workers == map[]) && !e.Call?
    && (e.Work? && e.u in w.workers && w.workers[e.u].Editing? ==> w.writer.None?)
  }

  predicate Alone(c: Config, w: World, events: seq<Event>)
    decreases |events|
  {
    events == [] || (Orderly(w, events[0]) && Alone(c, Step(c, w, events[0]), events[1..]))
  }

  predicate NonePending(w: World) { forall k :: k in w.rows ==> w.rows[k].verdict != Pending }

  predicate Validating(s: RunState) { s.Validate? || Ended(s) }

  /** Checkpointed attempts are 1..n; rows belong to them or to the attempt after; an unfinished row is for the current
      generation; a passed row was earned on the tree it names. */
  ghost predicate TablesOk(c: Config, w: World) {
    var n := Latest(w);
    && n <= c.attempts
    && (forall a :: a in w.checkpoints <==> 1 <= a <= n)
    && (forall k :: k in w.rows ==> 1 <= k.attempt <= n + 1 && k.profile in c.required)
    && (forall k :: Pends(w, k) ==> k.attempt == n + 1 && w.rows[k].generation == |w.log| && Validating(w.run))
    && (forall k :: k in w.rows && w.rows[k].verdict == Pass ==>
          (k.profile, TreeAt(c, w.log, w.rows[k].generation)) in w.tested)
    && (w.run.AwaitingPublishApproval? ==> n > 0 && w.checkpoints[n])
  }

  predicate JobOk(c: Config, w: World, job: Job) {
    job.ForAttempt? && job.attempt == Latest(w) + 1 && job.attempt <= c.attempts && Validating(w.run)
  }

  ghost predicate CoordinatorOk(c: Config, w: World, p: Worker) {
    var n := Latest(w);
    match p
    case AtValidate => Validating(w.run)
    case HasLast(last) => Validating(w.run) && last == Last(w)
    case Leaving(target) =>
      && NonePending(w) && (w.run.PlanReady? || Validating(w.run))
      && (w.run.Validate? ==> n in w.checkpoints && (w.checkpoints[n] <==> target == AwaitingPublishApproval))
    case Counted(latest) => latest == n
    case Next(a) => a == n + 1
    case Editing(a) => a == n + 1 && a <= c.attempts && (w.run.Implement? || Ended(w.run))
    case Checking(job) => JobOk(c, w, job)
    case Staged(job) => JobOk(c, w, job)
    case Located(job, g) => JobOk(c, w, job) && g == |w.log|
    case Missed(job, g) => JobOk(c, w, job) && g == |w.log| && !Finished(w, KeyOf(c, job))
    case Testing(job, g) => JobOk(c, w, job) && g == |w.log| && Pends(w, KeyOf(c, job))
    case Tested(job, g, ok) =>
      JobOk(c, w, job) && g == |w.log| && Pends(w, KeyOf(c, job))
      && (ok ==> (KeyOf(c, job).profile, CurrentTree(c, w)) in w.tested)
    case Saved(a, passed) =>
      a == n && a in w.checkpoints && w.checkpoints[a] == passed && Validating(w.run) && NonePending(w)
    case _ => true
  }

  predicate Busy(p: Worker) {
    p.Checking? || p.Staged? || p.Located? || p.Missed? || p.Testing? || p.Tested? || p.Saved?
  }

  /** While a mutation is under way, nothing is validated or published. */
  predicate WriterOk(w: World) {
    w.writer.Some? ==>
      && (w.run.Implement? || Ended(w.run)) && w.outbox.None? && NonePending(w)
      && forall u :: u in w.workers ==> !Busy(w.workers[u])
  }

  ghost predicate AloneOk(c: Config, w: World) {
    && TablesOk(c, w) && WriterOk(w)
    && (forall u :: u in w.workers ==> CoordinatorOk(c, w, w.workers[u]))
    && (forall u, v :: u in w.workers && v in w.workers ==> u == v)
  }

  /* ---- steps of anybody else ---- */

  lemma TreeStays(c: Config, log: seq<Op>, op: Op, g: nat)
    requires g <= |log|
    ensures TreeAt(c, log + [op], g) == TreeAt(c, log, g)
  {
    assert (log + [op])[..g] == log[..g];
  }

  /** A mutation that is looked at finds nothing going on. */
  lemma {:induction false} LookOrderly(c: Config, w: World, op: Op)
    requires Inv(c, w) && AloneOk(c, w) && w.run.Implement?
    ensures AloneOk(c, w.(writer := Some(op)))
  {
    hide Replay, Max, TreeAt, LogOk, RowsOk, NotesOk, CallsOk, KeyOf, Backed, TablesOk;
    var w' := w.(writer := Some(op));
    assert NonePending(w) by { NotEditing(c, w); }
    forall u | u in w.workers ensures CoordinatorOk(c, w', w.workers[u]) && !Busy(w.workers[u]) {
      assert CoordinatorOk(c, w, w.workers[u]);
    }
    TablesSame(c, w, w');
  }

  lemma NotEditing(c: Config, w: World)
    requires TablesOk(c, w) && !Validating(w.run)
    ensures NonePending(w)
  {
    hide Max, TreeAt;
    assert forall k :: k in w.rows ==> !Pends(w, k);
  }

  /** Moves of the run that leave the tables alone. */
  lemma {:induction false} TablesSame(c: Config, w: World, w': World)
    requires TablesOk(c, w) && w'.rows == w.rows && w'.checkpoints == w.checkpoints && w'.log == w.log
    requires w.tested <= w'.tested
    requires NonePending(w) || (Validating(w.run) ==> Validating(w'.run))
    requires w'.run.AwaitingPublishApproval? ==>
               w.run.AwaitingPublishApproval? || (Latest(w) > 0 && w.checkpoints[Latest(w)])
    ensures TablesOk(c, w')
  {
    hide Max, TreeAt;
  }

  lemma {:induction false} CommitOrderly(c: Config, w: World)
    requires Inv(c, w) && AloneOk(c, w) && w.writer.Some?
    ensures AloneOk(c, w.(log := w.log + [w.writer.value], writer := None))
  {
    hide Replay, Max, TreeAt, LogOk, OutboxOk, NotesOk, CallsOk, KeyOf, AttemptPassed;
    var w' := w.(log := w.log + [w.writer.value], writer := None);
    forall k | k in w.rows ensures TreeAt(c, w'.log, w.rows[k].generation) == TreeAt(c, w.log, w.rows[k].generation) {
      TreeStays(c, w.log, w.writer.value, w.rows[k].generation);
    }
    forall u | u in w'.workers ensures CoordinatorOk(c, w', w'.workers[u]) {
      assert CoordinatorOk(c, w, w.workers[u]);
    }
  }

  lemma {:induction false} WriteOrderly(c: Config, w: World, e: Event)
    requires Inv(c, w) && AloneOk(c, w)
    ensures AloneOk(c, WriteStep(c, w, e))
  {
    hide Inv, AloneOk, Replay;
    match e
    case WriteLook(op) => if w.run == Implement { LookOrderly(c, w, op); }
    case WriteCommit => if w.writer.Some? { CommitOrderly(c, w); }
    case WriteStop => AsideOrderly(c, w, w.(writer := None));
    case _ =>
  }

  /** Where the run goes while nobody works on it. */
  predicate Elsewhere(s: RunState, s': RunState) {
    || s' == s || Ended(s')
    || (!(s.PlanReady? || s.Implement? || Validating(s) || s'.Implement? || s'.Validate? || s'.AwaitingPublishApproval?)
        && (Past(s) ==> Past(s')))
  }

  lemma {:induction false} CoordinatorOn(c: Config, w: World, w': World, p: Worker)
    requires CoordinatorOk(c, w, p) && Elsewhere(w.run, w'.run)
    requires w'.rows == w.rows && w'.checkpoints == w.checkpoints && w'.log == w.log && w'.tested == w.tested
    ensures CoordinatorOk(c, w', p)
  {
    hide Max, TreeAt, KeyOf;
  }

  lemma {:induction false} AsideOrderly(c: Config, w: World, w': World)
    requires AloneOk(c, w) && Elsewhere(w.run, w'.run)
    requires w'.rows == w.rows && w'.checkpoints == w.checkpoints && w'.log == w.log && w'.tested == w.tested
    requires w'.workers == w.workers && (w'.writer.Some? ==> w'.writer == w.writer && w'.outbox.None?)
    ensures AloneOk(c, w')
  {
    hide TablesOk, CoordinatorOk, Elsewhere, Busy;
    assert NonePending(w) || (Validating(w.run) ==> Validating(w'.run)) by { NeverBack(c, w, w'); }
    assert w'.run.AwaitingPublishApproval? ==> w.run.AwaitingPublishApproval? by { NeverBack(c, w, w'); }
    TablesSame(c, w, w');
    forall u | u in w'.workers ensures CoordinatorOk(c, w', w'.workers[u]) { CoordinatorOn(c, w, w', w.workers[u]); }
    NeverBack(c, w, w');
  }

  lemma NeverBack(c: Config, w: World, w': World)
    requires Elsewhere(w.run, w'.run)
    ensures Validating(w.run) ==> Validating(w'.run)
    ensures w'.run.AwaitingPublishApproval? ==> w.run.AwaitingPublishApproval?
    ensures w.run.Implement? || Ended(w.run) ==> w'.run.Implement? || Ended(w'.run)
  {
  }

  lemma {:induction false} GoesElsewhere(c: Config, w: World, e: Event)
    ensures Elsewhere(w.run, OthersStep(w, e).run) && Elsewhere(w.run, PubStep(c, w, e).run)
    ensures w.outbox.None? && PubStep(c, w, e).outbox.Some? ==> w.run.AwaitingPublishApproval?
  {
    hide PubStep;
  }

  lemma WriterMeans(c: Config, w: World)
    requires AloneOk(c, w)
    ensures w.writer.Some? ==> w.outbox.None? && !w.run.AwaitingPublishApproval?
  {
  }

  lemma {:induction false} OthersOrderly(c: Config, w: World, e: Event)
    requires AloneOk(c, w)
    ensures AloneOk(c, OthersStep(w, e))
  {
    WriterMeans(c, w);
    hide AloneOk, OthersStep, PubStep, Elsewhere;
    GoesElsewhere(c, w, e);
    AsideOrderly(c, w, OthersStep(w, e));
  }

  lemma {:induction false} SignOrderly(c: Config, w: World, e: Event)
    requires AloneOk(c, w)
    ensures AloneOk(c, SignStep(w, e))
  {
    WriterMeans(c, w);
    hide AloneOk, SignStep, Elsewhere;
    StaysPut(w.run);
    AsideOrderly(c, w, SignStep(w, e));
  }

  lemma {:induction false} PubOrderly(c: Config, w: World, e: Event)
    requires AloneOk(c, w)
    ensures AloneOk(c, PubStep(c, w, e))
  {
    WriterMeans(c, w);
    hide AloneOk, OthersStep, PubStep, Elsewhere;
    GoesElsewhere(c, w, e);
    AsideOrderly(c, w, PubStep(c, w, e));
  }

  lemma StaysPut(s: RunState)
    ensures Elsewhere(s, s)
  {
  }

  /* ---- steps of the one coordinator ---- */

  predicate Only(w: World, u: nat) { forall v :: v in w.workers ==> v == u }

  /** The coordinator moves on, or the run with it, where no row is open and no mutation under way. */
  lemma {:induction false} OnlyMoves(c: Config, w: World, u: nat, run: RunState, p: Worker)
    requires AloneOk(c, w) && Only(w, u)
    requires run == w.run || (w.writer.None? && (NonePending(w) || (!Validating(w.run) && run.Validate?)))
    requires run.AwaitingPublishApproval? ==> w.run == run || (Latest(w) > 0 && w.checkpoints[Latest(w)])
    ensures CoordinatorOk(c, w.(run := run), p) && (w.writer.Some? ==> !Busy(p)) ==>
              AloneOk(c, Put(w.(run := run), u, p))
    ensures AloneOk(c, End(w.(run := run), u))
  {
    hide TablesOk, CoordinatorOk, Busy, Max;
    TablesSame(c, w, w.(run := run));
    WorkersAside(c, w.(run := run), u, p);
  }

  lemma {:induction false} WorkersAside(c: Config, w: World, u: nat, p: Worker)
    ensures TablesOk(c, w) ==> TablesOk(c, Put(w, u, p)) && TablesOk(c, End(w, u))
    ensures CoordinatorOk(c, w, p) ==> CoordinatorOk(c, Put(w, u, p), p)
  {
    hide Max, TreeAt, KeyOf;
  }

  lemma {:induction false} LastOrderly(c: Config, w: World, u: nat)
    requires AloneOk(c, w) && u in w.workers && w.workers[u].HasLast?
    ensures AloneOk(c, EnterStep(w, u))
  {
    hide Max, TablesOk, AloneOk, PendingAttempts;
    OnlyOne(c, w, u);
    var last := w.workers[u].last;
    LatestIs(c, w);
    OnlyMoves(c, w, u, w.run, Counting);
    if last.Some? && PendingAttempts(w) == {} {
      NothingPending(w);
      OnlyMoves(c, w, u, w.run, Leaving(if last.value.passed then AwaitingPublishApproval else Implement));
    }
  }

  lemma {:induction false} EnterOrderly(c: Config, w: World, u: nat)
    requires AloneOk(c, w) && u in w.workers
    ensures AloneOk(c, EnterStep(w, u))
  {
    hide Max, TablesOk, AloneOk, PendingAttempts, Last;
    OnlyOne(c, w, u);
    match w.workers[u]
    case Entered =>
      NotEditing2(c, w);
      OnlyMoves(c, w, u, w.run, if w.run == PlanReady then Leaving(Implement) else NotReady);
    case NotReady => OnlyMoves(c, w, u, w.run, if w.run == Validate then AtValidate else Counting);
    case AtValidate => OnlyMoves(c, w, u, w.run, HasLast(Last(w)));
    case HasLast(last) => LastOrderly(c, w, u);
    case _ =>
  }

  lemma {:induction false} LeavingOrderly(c: Config, w: World, u: nat)
    requires Inv(c, w) && AloneOk(c, w) && u in w.workers && w.workers[u].Leaving?
    ensures AloneOk(c, CountStep(w, u))
  {
    hide Max, Inv, TablesOk, AloneOk;
    OnlyOne(c, w, u);
    WorkersAre(c, w, u);
    var target := w.workers[u].target;
    OnlyMoves(c, w, u, w.run, Counting);
    WritersLeave(c, w);
    if CanMove(w.run, target) { OnlyMoves(c, w, u, target, Counting); }
  }

  lemma {:induction false} CountOrderly(c: Config, w: World, u: nat)
    requires Inv(c, w) && AloneOk(c, w) && u in w.workers
    ensures AloneOk(c, CountStep(w, u))
  {
    hide Max, Inv, TablesOk, AloneOk, PendingAttempts, NextAttempt, CanMove;
    OnlyOne(c, w, u);
    match w.workers[u]
    case Leaving(target) => LeavingOrderly(c, w, u);
    case Counting => OnlyMoves(c, w, u, w.run, Counted(Latest(w)));
    case Counted(latest) =>
      NextIsNext(c, w);
      OnlyMoves(c, w, u, w.run, Next(NextAttempt(w, latest)));
    case _ =>
  }

  lemma {:induction false} OnlyOne(c: Config, w: World, u: nat)
    requires AloneOk(c, w) && u in w.workers
    ensures Only(w, u) && CoordinatorOk(c, w, w.workers[u]) && TablesOk(c, w) && WriterOk(w)
  {
  }

  lemma NotEditing2(c: Config, w: World)
    requires TablesOk(c, w)
    ensures w.run.PlanReady? || w.run.Implement? ==> NonePending(w)
  {
    if w.run.PlanReady? || w.run.Implement? { NotEditing(c, w); }
  }

  lemma WritersLeave(c: Config, w: World)
    requires WriterOk(w)
    ensures !w.run.Implement? && !Ended(w.run) ==> w.writer.None?
  {
  }

  lemma {:induction false} LatestIs(c: Config, w: World)
    requires TablesOk(c, w)
    ensures w.checkpoints != map[] ==> Latest(w) > 0 && Latest(w) in w.checkpoints
  {
    hide TreeAt;
  }

  lemma {:induction false} NothingPending(w: World)
    requires PendingAttempts(w) == {}
    ensures NonePending(w)
  {
    assert forall k :: k in w.rows && w.rows[k].verdict == Pending ==> k.attempt in PendingAttempts(w);
  }

  /** The attempt taken up is the one after the last checkpoint, whether or not it was begun before. */
  lemma {:induction false} NextIsNext(c: Config, w: World)
    requires TablesOk(c, w)
    ensures NextAttempt(w, Latest(w)) == Latest(w) + 1
  {
    hide TreeAt;
    assert forall a :: a in PendingAttempts(w) ==> a == Latest(w) + 1 by {
      forall a | a in PendingAttempts(w) ensures a == Latest(w) + 1 {
        var k :| k in w.rows && w.rows[k].verdict == Pending && k.attempt == a;
        assert Pends(w, k);
      }
    }
  }

  lemma {:induction false} AttemptOrderly(c: Config, w: World, u: nat)
    requires Inv(c, w) && AloneOk(c, w) && u in w.workers && Orderly(w, Work(u))
    ensures AloneOk(c, AttemptStep(c, w, u))
  {
    hide Max, Inv, TablesOk, AloneOk;
    OnlyOne(c, w, u);
    WritersLeave(c, w);
    match w.workers[u]
    case Next(a) =>
      OnlyMoves(c, w, u, w.run, Editing(a));
      OnlyMoves(c, w, u, w.run, Checking(ForAttempt(a, [])));
    case Editing(a) =>
      OnlyMoves(c, w, u, w.run, Counting);
      if CanMove(w.run, Validate) { OnlyMoves(c, w, u, Validate, Checking(ForAttempt(a, []))); }
    case _ =>
  }

  lemma {:induction false} DecideOrderly(c: Config, w: World, u: nat)
    requires AloneOk(c, w) && u in w.workers && w.workers[u].Saved?
    ensures AloneOk(c, DecideStep(c, w, u))
  {
    hide Max, TablesOk, AloneOk;
    OnlyOne(c, w, u);
    WritersLeave(c, w);
    SavedLatest(c, w);
    var Saved(a, passed) := w.workers[u];
    OnlyMoves(c, w, u, w.run, Counting);
    if passed && CanMove(w.run, AwaitingPublishApproval) { OnlyMoves(c, w, u, AwaitingPublishApproval, Counting); }
    if !passed && CanMove(w.run, Implement) { OnlyMoves(c, w, u, Implement, Next(a + 1)); }
  }

  lemma SavedLatest(c: Config, w: World)
    requires TablesOk(c, w)
    ensures Latest(w) in w.checkpoints ==> Latest(w) > 0
  {
  }

  lemma {:induction false} ValidateOrderly(c: Config, w: World, u: nat)
    requires AloneOk(c, w) && u in w.workers
    ensures AloneOk(c, ValidateStep(c, w, u))
  {
    hide Max, TablesOk, AloneOk, KeyOf;
    OnlyOne(c, w, u);
    WritersLeave(c, w);
    match w.workers[u]
    case Checking(job) => OnlyMoves(c, w, u, w.run, Staged(job));
    case Staged(job) => OnlyMoves(c, w, u, w.run, Located(job, |w.log|));
    case Located(job, g) =>
      OnlyMoves(c, w, u, w.run, Missed(job, g));
      if Finished(w, KeyOf(c, job)) {
        var ok := w.rows[KeyOf(c, job)].verdict == Pass;
        OnlyMoves(c, w, u, w.run, Checking(ForAttempt(job.attempt, job.results + [ok])));
      }
    case _ =>
  }

  /** Rows may change in the attempt under way. */
  lemma {:induction false} RowsOrderly(c: Config, w: World, w': World, u: nat, k: Key)
    requires AloneOk(c, w) && Only(w, u) && w.writer.None? && Validating(w.run)
    requires w' == w.(rows := w'.rows, tested := w'.tested, workers := w'.workers) && w.tested <= w'.tested
             && Only(w', u)
    requires k in w'.rows && forall j :: j in w'.rows && j != k ==> j in w.rows && w'.rows[j] == w.rows[j]
    requires forall j :: j in w.rows ==> j in w'.rows
    requires k.attempt == Latest(w) + 1 && k.profile in c.required && w'.rows[k].generation == |w.log|
    requires w'.rows[k].verdict == Pass ==> (k.profile, CurrentTree(c, w)) in w'.tested
    requires u in w'.workers ==> CoordinatorOk(c, w', w'.workers[u])
    ensures AloneOk(c, w')
  {
    hide Max, TreeAt, CoordinatorOk;
  }

  lemma PendsMeans(w: World, k: Key)
    requires Pends(w, k)
    ensures k in w.rows && w.rows[k].verdict == Pending
  {
  }

  lemma KeyIs(c: Config, w: World, job: Job)
    requires JobOk(c, w, job) && !Complete(c, job)
    ensures KeyOf(c, job).attempt == Latest(w) + 1 && KeyOf(c, job).profile in c.required
  {
  }

  lemma {:induction false} BegunOk(c: Config, w: World, u: nat)
    requires TablesOk(c, w) && u in w.workers && w.workers[u].Missed? && CoordinatorOk(c, w, w.workers[u])
    ensures var w' := BeginStep(c, w, u); CoordinatorOk(c, w', w'.workers[u])
    ensures var k := KeyOf(c, w.workers[u].job);
            Pends(BeginStep(c, w, u), k) && BeginStep(c, w, u).rows[k].generation == |w.log|
  {
    hide Max, TreeAt, KeyOf;
    var k := KeyOf(c, w.workers[u].job);
    if k in w.rows { OpenRow(c, w, k); }
  }

  lemma {:induction false} BeginOrderly(c: Config, w: World, u: nat)
    requires Inv(c, w) && AloneOk(c, w) && u in w.workers && w.workers[u].Missed?
    ensures AloneOk(c, BeginStep(c, w, u))
  {
    OnlyOne(c, w, u);
    WorkersAre(c, w, u);
    var Missed(job, g) := w.workers[u];
    KeyIs(c, w, job);
    assert Validating(w.run) && w.writer.None?;
    BegunOk(c, w, u);
    hide Max, Inv, TablesOk, AloneOk, TreeAt, ResultsOk, CoordinatorOk, KeyOf, Complete, WorkerOk, WriterOk, Pends;
    assert Pends(BeginStep(c, w, u), KeyOf(c, job));
    PendsMeans(BeginStep(c, w, u), KeyOf(c, job));
    RowsOrderly(c, w, BeginStep(c, w, u), u, KeyOf(c, job));
  }

  lemma OpenRow(c: Config, w: World, k: Key)
    requires TablesOk(c, w) && Pends(w, k)
    ensures w.rows[k].generation == |w.log|
  {
  }

  lemma {:induction false} TestedOk(c: Config, w: World, u: nat, ok: bool, seen: Tree)
    requires TablesOk(c, w) && u in w.workers && w.workers[u].Testing? && CoordinatorOk(c, w, w.workers[u])
    ensures var w' := TestStep(c, w, u, ok, seen); CoordinatorOk(c, w', w'.workers[u])
    ensures var k := KeyOf(c, w.workers[u].job);
            Pends(TestStep(c, w, u, ok, seen), k) && w.rows[k].generation == |w.log|
  {
    hide Max, TreeAt, KeyOf;
    OpenRow(c, w, KeyOf(c, w.workers[u].job));
  }

  lemma {:induction false} TestOrderly(c: Config, w: World, u: nat, ok: bool, seen: Tree)
    requires Inv(c, w) && AloneOk(c, w)
    ensures AloneOk(c, TestStep(c, w, u, ok, seen))
  {
    if u in w.workers && w.workers[u].Testing? {
      OnlyOne(c, w, u);
      WorkersAre(c, w, u);
      var job := w.workers[u].job;
      KeyIs(c, w, job);
      assert Validating(w.run) && w.writer.None?;
      TestedOk(c, w, u, ok, seen);
      hide Max, Inv, TablesOk, AloneOk, TreeAt, ResultsOk, CoordinatorOk, KeyOf, Complete, WorkerOk, WriterOk, Pends;
      PendsMeans(TestStep(c, w, u, ok, seen), KeyOf(c, job));
      RowsOrderly(c, w, TestStep(c, w, u, ok, seen), u, KeyOf(c, job));
    }
  }

  lemma {:induction false} FinishedOk(c: Config, w: World, u: nat)
    requires TablesOk(c, w) && u in w.workers && w.workers[u].Tested? && CoordinatorOk(c, w, w.workers[u])
    ensures var w' := FinishStep(c, w, u);
            var k := KeyOf(c, w.workers[u].job);
            && (u in w'.workers ==> CoordinatorOk(c, w', w'.workers[u]))
            && k in w'.rows && w'.rows[k].generation == |w.log|
            && (w'.rows[k].verdict == Pass ==> (k.profile, CurrentTree(c, w)) in w.tested)
  {
    hide Max, TreeAt, KeyOf;
    OpenRow(c, w, KeyOf(c, w.workers[u].job));
  }

  lemma {:induction false} FinishOrderly(c: Config, w: World, u: nat)
    requires Inv(c, w) && AloneOk(c, w) && u in w.workers && w.workers[u].Tested?
    ensures AloneOk(c, FinishStep(c, w, u))
  {
    OnlyOne(c, w, u);
    WorkersAre(c, w, u);
    var Tested(job, g, ok) := w.workers[u];
    KeyIs(c, w, job);
    assert Validating(w.run) && w.writer.None?;
    FinishedOk(c, w, u);
    hide Max, Inv, TablesOk, AloneOk, TreeAt, ResultsOk, CoordinatorOk, KeyOf, Complete, WorkerOk, WriterOk, Pends;
    RowsOrderly(c, w, FinishStep(c, w, u), u, KeyOf(c, job));
  }

  /** When all required profiles have results, no row of the attempt is open, and so none is. */
  lemma {:induction false} AllFinished(c: Config, w: World, job: Job)
    requires TablesOk(c, w) && JobOk(c, w, job) && ResultsOk(c, w.rows, job) && Complete(c, job)
    ensures NonePending(w)
  {
    hide Max, TreeAt;
    forall k | k in w.rows ensures w.rows[k].verdict != Pending {
      if k.attempt == job.attempt {
        var i :| 0 <= i < |c.required| && c.required[i] == k.profile;
        assert k == Key(job.attempt, c.required[i]);
      } else {
        assert !Pends(w, k);
      }
    }
  }

  /** The checkpoint of attempt n + 1 joins those of 1..n. */
  lemma {:induction false} SaveTables(c: Config, w: World, w': World, a: nat, passed: bool)
    requires TablesOk(c, w) && NonePending(w) && a == Latest(w) + 1 && a <= c.attempts
             && !w.run.AwaitingPublishApproval?
    requires w' == w.(checkpoints := w.checkpoints[a := passed], workers := w'.workers)
    ensures TablesOk(c, w') && Latest(w') == a
  {
    hide TreeAt;
    assert w'.checkpoints.Keys == w.checkpoints.Keys + {a};
    assert Latest(w') == a;
    assert forall k :: !Pends(w', k);
  }

  lemma {:induction false} SaveOrderly(c: Config, w: World, u: nat)
    requires Inv(c, w) && AloneOk(c, w) && u in w.workers && w.workers[u].Checking? && Complete(c, w.workers[u].job)
    ensures AloneOk(c, SaveStep(c, w, u))
  {
    hide Max, Inv, TablesOk, TreeAt, ResultsOk, AllTrue;
    OnlyOne(c, w, u);
    WorkersAre(c, w, u);
    var job := w.workers[u].job;
    AllFinished(c, w, job);
    var w' := SaveStep(c, w, u);
    SaveTables(c, w, w', job.attempt, AllTrue(job.results));
  }

  lemma {:induction false} WorkOrderly(c: Config, w: World, u: nat)
    requires Inv(c, w) && AloneOk(c, w) && Orderly(w, Work(u))
    ensures AloneOk(c, WorkStep(c, w, u))
  {
    hide Inv, AloneOk, EnterStep, CountStep, AttemptStep, SaveStep, ValidateStep, BeginStep, FinishStep, DecideStep,
      Complete, Orderly;
    if u in w.workers {
      EnterOrderly(c, w, u);
      CountOrderly(c, w, u);
      AttemptOrderly(c, w, u);
      ValidateOrderly(c, w, u);
      if w.workers[u].Saved? { DecideOrderly(c, w, u); }
      if w.workers[u].Missed? { BeginOrderly(c, w, u); }
      if w.workers[u].Tested? { FinishOrderly(c, w, u); }
      if w.workers[u].Checking? && Complete(c, w.workers[u].job) { SaveOrderly(c, w, u); }
    }
  }

  lemma {:induction false} WorkersOrderly(c: Config, w: World, e: Event)
    requires Inv(c, w) && AloneOk(c, w) && Orderly(w, e)
    ensures AloneOk(c, WorkersStep(c, w, e))
  {
    hide Inv, AloneOk, WorkStep, TestStep;
    match e
    case Work(u) => WorkOrderly(c, w, u);
    case Test(u, ok, seen) => TestOrderly(c, w, u, ok, seen);
    case Enter(u) => if w.workers == map[] { OnlyMoves(c, w, u, w.run, Entered); }
    case Leave(u) => LeaveOrderly(c, w, u);
    case _ =>
  }

  lemma {:induction false} LeaveOrderly(c: Config, w: World, u: nat)
    requires AloneOk(c, w)
    ensures AloneOk(c, End(w, u))
  {
    if u in w.workers {
      OnlyOne(c, w, u);
      hide AloneOk;
      OnlyMoves(c, w, u, w.run, Entered);
    } else {
      assert End(w, u) == w;
    }
  }

  lemma {:induction false} StepOrderly(c: Config, w: World, e: Event)
    requires Inv(c, w) && AloneOk(c, w) && Orderly(w, e)
    ensures AloneOk(c, Step(c, w, e))
  {
    StepIs(c, w, e);
    hide Inv, AloneOk, Orderly, Carries;
    hide Step, WriteStep, OthersStep, SignStep, WorkersStep, PubStep, IsWrite, IsOther, IsSign, IsWork;
    WriteOrderly(c, w, e);
    WorkersOrderly(c, w, e);
    OthersOrderly(c, w, e);
    SignOrderly(c, w, e);
    PubOrderly(c, w, e);
  }

  /** Neither danger occurs in such a step. */
  lemma {:induction false} OrderlyIsSafe(c: Config, w: World, e: Event)
    requires AloneOk(c, w)
    ensures !Meets(c, w, e) && !Late(w, e)
  {
    hide Max, TreeAt, KeyOf;
    if e.Work? && e.u in w.workers && w.workers[e.u].Missed? {
      assert CoordinatorOk(c, w, w.workers[e.u]);
    }
  }

  lemma {:induction false} RunOrderly(c: Config, w: World, events: seq<Event>)
    requires Inv(c, w) && AloneOk(c, w) && Alone(c, w, events)
    ensures AloneOk(c, Run(c, w, events)) && Uncrossed(c, w, events) && Prompt(c, w, events)
    decreases |events|
  {
    hide Inv, AloneOk, Step, Meets, Late, Orderly;
    if events != [] {
      OrderlyIsSafe(c, w, events[0]);
      StepOrderly(c, w, events[0]);
      StepKeeps(c, w, events[0]);
      RunOrderly(c, Step(c, w, events[0]), events[1..]);
    }
  }

  lemma {:induction false} StartAlone(c: Config)
    ensures AloneOk(c, Start())
  {
  }

  /** One coordinator at a time, and no mutation left behind in IMPLEMENT, keep all of a run's validations and mutations
      in time: what `PublishedWasTestedAndApproved` asks for. */
  lemma {:induction false} AloneIsInTime(c: Config, events: seq<Event>)
    requires Alone(c, Start(), events)
    ensures Uncrossed(c, Start(), events) && Prompt(c, Start(), events)
  {
    hide Inv, AloneOk, Alone, Uncrossed, Prompt, Run;
    StartHolds(c);
    StartAlone(c);
    RunOrderly(c, Start(), events);
  }

  /** Checkpoints are numbered 1..n within the limit; an unfinished row is for the current generation; publish
      approval is awaited only after a checkpoint in which every required profile has a passed row, and each passed
      row was earned on the tree of the generation it names. */
  lemma {:induction false} AttemptsAreAccountedFor(c: Config, events: seq<Event>)
    requires Alone(c, Start(), events)
    ensures var w := Run(c, Start(), events);
            var n := |w.checkpoints|;
            && n <= c.attempts
            && (forall a :: a in w.checkpoints <==> 1 <= a <= n)
            && (forall k :: k in w.rows && w.rows[k].verdict == Pending ==>
                  k.attempt == n + 1 && w.rows[k].generation == |w.log|)
            && (forall k :: k in w.rows && w.rows[k].verdict == Pass ==>
                  (k.profile, TreeAt(c, w.log, w.rows[k].generation)) in w.tested)
            && (w.run.AwaitingPublishApproval? ==> n > 0 && w.checkpoints[n] && AttemptPassed(c, w.rows, n))
  {
    hide TreeAt, Max, CallsOk, OutboxOk, LogOk, NotesOk, Run, Step, AttemptPassed, CoordinatorOk, WriterOk;
    StartHolds(c);
    StartAlone(c);
    RunKeeps(c, Start(), events);
    RunOrderly(c, Start(), events);
    var w := Run(c, Start(), events);
    CountUpTo(w.checkpoints.Keys, Latest(w));
    assert forall k :: k in w.rows && w.rows[k].verdict == Pending ==> Pends(w, k);
  }

  lemma CountUpTo(s: set<nat>, n: nat)
    requires forall a :: a in s <==> 1 <= a <= n
    ensures |s| == n
  {
    if n == 0 {
      assert s == {};
    } else {
      CountUpTo(s - {n}, n - 1);
    }
  }
}
