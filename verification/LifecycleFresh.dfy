/** When awaiting publish approval does mean that the current generation was tested. */
module LifecycleFresh {
  import opened Patch
  import opened Mutations
  import opened RunStates
  import opened Lifecycle
  import opened LifecycleSafety
  import opened LifecycleAlone

  /** Between profiles of an attempt, some of which have results. */
  predicate Between(p: Worker) {
    (p.Checking? || p.Staged? || p.Located? || p.Missed?) && p.job.ForAttempt? && p.job.results != []
  }

  /** The coordinator stops between a verdict and what it does next with it, in an attempt after the first, and leaves
      no row open by which the attempt would be known. */
  predicate Untimely(w: World, e: Event) {
    e.Leave? && e.u in w.workers && Between(w.workers[e.u]) && w.checkpoints != map[] && NonePending(w)
  }

  /** No step of the run is such a crash. */
  predicate Timely(c: Config, w: World, events: seq<Event>)
    decreases |events|
  {
    events == [] || (!Untimely(w, events[0]) && Timely(c, Step(c, w, events[0]), events[1..]))
  }

  /** No row belongs to the attempt after the last checkpoint. */
  predicate NoneBegun(w: World) { forall k :: k in w.rows ==> k.attempt != Latest(w) + 1 }

  /** The open attempt's rows are for the current generation, and while there are any nothing is edited. */
  predicate OpenOk(w: World) {
    NoneBegun(w) ||
    (Validating(w.run) && forall k :: k in w.rows && k.attempt == Latest(w) + 1 ==> w.rows[k].generation == |w.log|)
  }

  predicate Idle(p: Worker) { !Between(p) && !p.Testing? && !p.Tested? && !p.Saved? && !p.Editing? }

  predicate AllIdle(w: World) { forall u :: u in w.workers ==> Idle(w.workers[u]) }

  /** An interrupted validation is known by an unfinished row, unless it is the first. */
  predicate IdleOk(w: World) {
    w.run.Validate? && AllIdle(w) && w.checkpoints != map[] && NonePending(w) ==> NoneBegun(w)
  }

  predicate SavedOk(w: World) { forall u :: u in w.workers && w.workers[u].Saved? ==> NoneBegun(w) }

  predicate LastPassed(w: World) { Latest(w) in w.checkpoints && w.checkpoints[Latest(w)] }

  /** A passed checkpoint closes the generation: all its rows are for the current one. */
  predicate ClosedOk(w: World) {
    LastPassed(w) ==>
      && (w.run.Validate? || Past(w.run))
      && forall k :: k in w.rows && k.attempt == Latest(w) ==> w.rows[k].generation == |w.log|
  }

  /** What a mutation under way may rely on. */
  predicate EditOk(w: World) { w.writer.Some? ==> NoneBegun(w) && !LastPassed(w) }

  predicate FreshOk(w: World) { OpenOk(w) && IdleOk(w) && SavedOk(w) && ClosedOk(w) && EditOk(w) }

  /* ---- steps of anybody else ---- */

  lemma {:induction false} AsideFresh(c: Config, w: World, w': World)
    requires FreshOk(w) && Elsewhere(w.run, w'.run)
    requires w'.rows == w.rows && w'.checkpoints == w.checkpoints && w'.log == w.log && w'.workers == w.workers
    requires w'.writer.Some? ==> w'.writer == w.writer
    ensures FreshOk(w')
  {
    hide Max;
  }

  /** A mutation is looked at while no row is open, and commits while none is. */
  lemma {:induction false} WriteFresh(c: Config, w: World, e: Event)
    requires FreshOk(w)
    ensures FreshOk(WriteStep(c, w, e))
  {
    hide Max, Replay;
  }

  lemma {:induction false} OthersFresh(c: Config, w: World, e: Event)
    requires FreshOk(w)
    ensures FreshOk(OthersStep(w, e)) && FreshOk(SignStep(w, e)) && FreshOk(PubStep(c, w, e))
  {
    hide FreshOk, OthersStep, SignStep, PubStep, Elsewhere;
    GoesElsewhere(c, w, e);
    StaysPut(w.run);
    AsideFresh(c, w, OthersStep(w, e));
    AsideFresh(c, w, SignStep(w, e));
    AsideFresh(c, w, PubStep(c, w, e));
  }

  /* ---- steps of the one coordinator ---- */

  /** The coordinator moves on, or the run with it. */
  lemma {:induction false} MovesFresh(w: World, u: nat, run: RunState, p: Worker)
    requires FreshOk(w) && Only(w, u)
    requires run == w.run || (NoneBegun(w) && (run.Validate? || Past(run) || !LastPassed(w)))
    requires u in w.workers ==> Idle(w.workers[u]) || Settled(w)
    ensures (p.Saved? ==> NoneBegun(w)) ==> FreshOk(Put(w.(run := run), u, p))
    ensures FreshOk(End(w.(run := run), u))
  {
    hide Max;
  }

  /** Nothing depends on the coordinator being busy. */
  predicate Settled(w: World) { NoneBegun(w) || !w.run.Validate? || w.checkpoints == map[] || !NonePending(w) }

  /** The coordinator goes on being busy. */
  lemma {:induction false} StaysFresh(w: World, u: nat, p: Worker)
    requires FreshOk(w) && Only(w, u) && !Idle(p) && !p.Saved?
    ensures FreshOk(Put(w, u, p))
  {
    hide Max;
    assert u in Put(w, u, p).workers;
  }

  lemma {:induction false} EnterFresh(c: Config, w: World, u: nat)
    requires AloneOk(c, w) && FreshOk(w) && u in w.workers
    ensures FreshOk(EnterStep(w, u))
  {
    hide Max, TablesOk, AloneOk, FreshOk, PendingAttempts;
    OnlyOne(c, w, u);
    match w.workers[u]
    case Entered => MovesFresh(w, u, w.run, if w.run == PlanReady then Leaving(Implement) else NotReady);
    case NotReady => MovesFresh(w, u, w.run, if w.run == Validate then AtValidate else Counting);
    case AtValidate => MovesFresh(w, u, w.run, HasLast(Last(w)));
    case HasLast(last) =>
      MovesFresh(w, u, w.run, Counting);
      if last.Some? {
        MovesFresh(w, u, w.run, Leaving(if last.value.passed then AwaitingPublishApproval else Implement));
      }
    case _ =>
  }

  lemma {:induction false} LeavingFresh(c: Config, w: World, u: nat)
    requires Inv(c, w) && AloneOk(c, w) && FreshOk(w) && u in w.workers && w.workers[u].Leaving?
    ensures FreshOk(CountStep(w, u))
  {
    hide Max, Inv, TablesOk, AloneOk, FreshOk;
    OnlyOne(c, w, u);
    WorkersAre(c, w, u);
    var target := w.workers[u].target;
    MovesFresh(w, u, w.run, Counting);
    LeavesNone(w, u);
    if CanMove(w.run, target) { MovesFresh(w, u, target, Counting); }
  }

  lemma {:induction false} CountFresh(c: Config, w: World, u: nat)
    requires Inv(c, w) && AloneOk(c, w) && FreshOk(w) && u in w.workers
    ensures FreshOk(CountStep(w, u))
  {
    hide Max, Inv, TablesOk, AloneOk, FreshOk, NextAttempt, PendingAttempts, CanMove;
    OnlyOne(c, w, u);
    match w.workers[u]
    case Leaving(target) => LeavingFresh(c, w, u);
    case Counting => MovesFresh(w, u, w.run, Counted(Latest(w)));
    case Counted(latest) => MovesFresh(w, u, w.run, Next(NextAttempt(w, latest)));
    case _ =>
  }

  lemma {:induction false} LeavesNone(w: World, u: nat)
    requires FreshOk(w) && Only(w, u) && u in w.workers && Idle(w.workers[u]) && NonePending(w)
    ensures w.run.Validate? && w.checkpoints != map[] ==> NoneBegun(w)
    ensures !Validating(w.run) ==> NoneBegun(w) && (LastPassed(w) ==> Past(w.run))
  {
    hide Max;
  }

  lemma {:induction false} NoneWhileEditing(w: World)
    requires FreshOk(w)
    ensures w.run.Implement? ==> NoneBegun(w)
  {
    hide Max;
  }

  lemma {:induction false} AttemptFresh(c: Config, w: World, u: nat)
    requires AloneOk(c, w) && FreshOk(w) && u in w.workers
    ensures FreshOk(AttemptStep(c, w, u))
  {
    hide Max, TablesOk, AloneOk, FreshOk;
    OnlyOne(c, w, u);
    match w.workers[u]
    case Next(a) =>
      MovesFresh(w, u, w.run, Editing(a));
      MovesFresh(w, u, w.run, Checking(ForAttempt(a, [])));
    case Editing(a) =>
      NoneWhileEditing(w);
      MovesFresh(w, u, w.run, Counting);
      if CanMove(w.run, Validate) { MovesFresh(w, u, Validate, Checking(ForAttempt(a, []))); }
    case _ =>
  }

  lemma {:induction false} SavedMeans(w: World, u: nat)
    requires FreshOk(w) && u in w.workers && w.workers[u].Saved?
    ensures NoneBegun(w)
  {
  }

  lemma {:induction false} DecideFresh(c: Config, w: World, u: nat)
    requires AloneOk(c, w) && FreshOk(w) && u in w.workers && w.workers[u].Saved?
    ensures FreshOk(DecideStep(c, w, u))
  {
    hide Max, TablesOk, AloneOk, FreshOk;
    OnlyOne(c, w, u);
    SavedMeans(w, u);
    var Saved(a, passed) := w.workers[u];
    MovesFresh(w, u, w.run, Counting);
    if CanMove(w.run, AwaitingPublishApproval) { MovesFresh(w, u, AwaitingPublishApproval, Counting); }
    if !passed && CanMove(w.run, Implement) { MovesFresh(w, u, Implement, Next(a + 1)); }
  }

  lemma {:induction false} ValidateFresh(c: Config, w: World, u: nat)
    requires AloneOk(c, w) && FreshOk(w) && u in w.workers
    ensures FreshOk(ValidateStep(c, w, u))
  {
    hide Max, TablesOk, AloneOk, FreshOk, KeyOf;
    OnlyOne(c, w, u);
    match w.workers[u]
    case Checking(job) => GoesOnFresh(w, u, job, Staged(job)); EndedFresh(w, u);
    case Staged(job) => GoesOnFresh(w, u, job, Located(job, |w.log|));
    case Located(job, g) =>
      GoesOnFresh(w, u, job, Missed(job, g));
      var k := KeyOf(c, job);
      var ok := Finished(w, k) && w.rows[k].verdict == Pass;
      StaysFresh(w, u, Checking(ForAttempt(job.attempt, job.results + [ok])));
    case _ =>
  }

  lemma {:induction false} EndedFresh(w: World, u: nat)
    requires FreshOk(w) && Only(w, u)
    ensures !w.run.Validate? ==> FreshOk(End(w, u))
  {
    if !w.run.Validate? { hide FreshOk; MovesFresh(w, u, w.run, Entered); }
  }

  lemma {:induction false} GoesOnFresh(w: World, u: nat, job: Job, p: Worker)
    requires FreshOk(w) && Only(w, u) && u in w.workers && job.ForAttempt?
    requires Idle(w.workers[u]) <==> job.results == []
    requires Idle(p) <==> job.results == []
    requires !p.Saved?
    ensures FreshOk(Put(w, u, p))
  {
    hide FreshOk;
    if job.results == [] { MovesFresh(w, u, w.run, p); } else { StaysFresh(w, u, p); }
  }

  /** Rows may change in the attempt under way, where they are for the current generation. */
  lemma {:induction false} RowFresh(w: World, w': World, u: nat, k: Key)
    requires FreshOk(w) && Validating(w.run) && w.writer.None?
    requires w' == w.(rows := w'.rows, tested := w'.tested, workers := w'.workers)
    requires u in w'.workers && !Idle(w'.workers[u]) && forall v :: v in w'.workers ==> !w'.workers[v].Saved?
    requires k in w'.rows && forall j :: j in w'.rows && j != k ==> j in w.rows && w'.rows[j] == w.rows[j]
    requires k.attempt == Latest(w) + 1 && w'.rows[k].generation == |w.log|
    ensures FreshOk(w')
  {
    hide Max;
  }

  lemma {:induction false} BeginFresh(c: Config, w: World, u: nat)
    requires Inv(c, w) && AloneOk(c, w) && FreshOk(w) && u in w.workers && w.workers[u].Missed?
    ensures FreshOk(BeginStep(c, w, u))
  {
    OnlyOne(c, w, u);
    WorkersAre(c, w, u);
    KeyIs(c, w, w.workers[u].job);
    assert Validating(w.run) && w.writer.None?;
    BegunOk(c, w, u);
    hide Max, Inv, TablesOk, AloneOk, FreshOk, CoordinatorOk, KeyOf, Complete, WorkerOk, WriterOk;
    RowFresh(w, BeginStep(c, w, u), u, KeyOf(c, w.workers[u].job));
  }

  lemma {:induction false} TestFresh(c: Config, w: World, u: nat, ok: bool, seen: Tree)
    requires AloneOk(c, w) && FreshOk(w)
    ensures FreshOk(TestStep(c, w, u, ok, seen))
  {
    if u in w.workers && w.workers[u].Testing? {
      hide Max, TablesOk, AloneOk, FreshOk, TreeAt, KeyOf;
      OnlyOne(c, w, u);
      var w' := TestStep(c, w, u, ok, seen);
      TestedFresh(w, w', u);
    }
  }

  lemma {:induction false} TestedFresh(w: World, w': World, u: nat)
    requires FreshOk(w) && Only(w, u) && w' == w.(tested := w'.tested, workers := w'.workers) && Only(w', u)
    requires u in w'.workers && w'.workers[u].Tested?
    ensures FreshOk(w')
  {
    hide Max;
  }

  lemma {:induction false} FinishFresh(c: Config, w: World, u: nat)
    requires Inv(c, w) && AloneOk(c, w) && FreshOk(w) && u in w.workers && w.workers[u].Tested?
    ensures FreshOk(FinishStep(c, w, u))
  {
    OnlyOne(c, w, u);
    WorkersAre(c, w, u);
    var job := w.workers[u].job;
    KeyIs(c, w, job);
    OpenRow(c, w, KeyOf(c, job));
    hide Max, Inv, TablesOk, AloneOk, FreshOk, TreeAt, KeyOf, Complete, WorkerOk;
    RowFresh(w, FinishStep(c, w, u), u, KeyOf(c, job));
  }

  lemma {:induction false} SaveFresh(c: Config, w: World, u: nat)
    requires Inv(c, w) && AloneOk(c, w) && FreshOk(w)
    requires u in w.workers && w.workers[u].Checking? && Complete(c, w.workers[u].job)
    ensures FreshOk(SaveStep(c, w, u))
  {
    hide Inv, AloneOk, TablesOk, ResultsOk, AllTrue, AttemptPassed, FreshOk;
    OnlyOne(c, w, u);
    WorkersAre(c, w, u);
    var job := w.workers[u].job;
    AllFinished(c, w, job);
    var w' := SaveStep(c, w, u);
    assert !w.run.AwaitingPublishApproval? && w.writer.None?;
    SaveTables(c, w, w', job.attempt, AllTrue(job.results));
    RowsSoFar(c, w);
    AllPassed(c, w.rows, job);
    ClosesFresh(c, w, w', job.attempt);
  }

  lemma RowsSoFar(c: Config, w: World)
    requires TablesOk(c, w)
    ensures forall k :: k in w.rows ==> k.attempt <= Latest(w) + 1
  {
  }

  lemma {:induction false} ClosesFresh(c: Config, w: World, w': World, a: nat)
    requires FreshOk(w) && Validating(w.run) && w.writer.None? && a == Latest(w) + 1 && Latest(w') == a
    requires w' == w.(checkpoints := w'.checkpoints, workers := w'.workers)
    requires forall k :: k in w.rows ==> k.attempt <= a
    requires a in w'.checkpoints && (w'.checkpoints[a] ==> AttemptPassed(c, w.rows, a))
    ensures FreshOk(w')
  {
    hide Max;
    if w'.checkpoints[a] {
      assert Key(a, c.required[0]) in w.rows;
    }
  }

  lemma {:induction false} WorkFresh(c: Config, w: World, u: nat)
    requires Inv(c, w) && AloneOk(c, w) && FreshOk(w)
    ensures FreshOk(WorkStep(c, w, u))
  {
    hide Inv, AloneOk, FreshOk, EnterStep, CountStep, AttemptStep, SaveStep, ValidateStep, BeginStep, FinishStep,
      DecideStep, Complete;
    if u in w.workers {
      EnterFresh(c, w, u);
      CountFresh(c, w, u);
      AttemptFresh(c, w, u);
      ValidateFresh(c, w, u);
      if w.workers[u].Saved? { DecideFresh(c, w, u); }
      if w.workers[u].Missed? { BeginFresh(c, w, u); }
      if w.workers[u].Tested? { FinishFresh(c, w, u); }
      if w.workers[u].Checking? && Complete(c, w.workers[u].job) { SaveFresh(c, w, u); }
    }
  }

  lemma {:induction false} LeaveFresh(c: Config, w: World, u: nat)
    requires AloneOk(c, w) && FreshOk(w) && !Untimely(w, Leave(u))
    ensures FreshOk(End(w, u))
  {
    if u in w.workers {
      hide Max, AloneOk, TablesOk;
      OnlyOne(c, w, u);
      if w.workers[u].Testing? || w.workers[u].Tested? {
        assert !NonePending(w);
      }
      MovesFresh(w, u, w.run, Entered);
    } else {
      assert End(w, u) == w;
    }
  }

  lemma {:induction false} WorkersFresh(c: Config, w: World, e: Event)
    requires Inv(c, w) && AloneOk(c, w) && FreshOk(w) && Orderly(w, e) && !Untimely(w, e)
    ensures FreshOk(WorkersStep(c, w, e))
  {
    hide Inv, AloneOk, FreshOk, WorkStep, TestStep, Untimely;
    match e
    case Work(u) => WorkFresh(c, w, u);
    case Test(u, ok, seen) => TestFresh(c, w, u, ok, seen);
    case Enter(u) => if w.workers == map[] { MovesFresh(w, u, w.run, Entered); }
    case Leave(u) => LeaveFresh(c, w, u);
    case _ =>
  }

  lemma {:induction false} StepFresh(c: Config, w: World, e: Event)
    requires Inv(c, w) && AloneOk(c, w) && FreshOk(w) && Orderly(w, e) && !Untimely(w, e)
    ensures FreshOk(Step(c, w, e))
  {
    StepIs(c, w, e);
    hide Inv, AloneOk, FreshOk, Orderly, Untimely, Carries;
    hide Step, WriteStep, OthersStep, SignStep, WorkersStep, PubStep, IsWrite, IsOther, IsSign, IsWork;
    WriteFresh(c, w, e);
    OthersFresh(c, w, e);
    WorkersFresh(c, w, e);
  }

  lemma {:induction false} RunFresh(c: Config, w: World, events: seq<Event>)
    requires Inv(c, w) && AloneOk(c, w) && FreshOk(w) && Alone(c, w, events) && Timely(c, w, events)
    ensures FreshOk(Run(c, w, events))
    decreases |events|
  {
    hide Inv, AloneOk, FreshOk, Step, Untimely, Orderly;
    if events != [] {
      StepFresh(c, w, events[0]);
      StepOrderly(c, w, events[0]);
      StepKeeps(c, w, events[0]);
      RunFresh(c, Step(c, w, events[0]), events[1..]);
    }
  }

  lemma {:induction false} NothingYet()
    ensures FreshOk(Start())
  {
  }

  /** With one coordinator at a time, none of which ever stopped between a verdict and its use, a run that awaits
      approval was tested: every required profile passed on the current tree, and publication's comparison lets it
      through. */
  lemma {:induction false} AwaitingWasTested(c: Config, events: seq<Event>)
    requires Alone(c, Start(), events) && Timely(c, Start(), events)
    requires Run(c, Start(), events).run.AwaitingPublishApproval?
    ensures var w := Run(c, Start(), events);
            && c.required != [] && (forall p :: p in c.required ==> (p, CurrentTree(c, w)) in w.tested)
            && PassedGenerations(w, Latest(w)) == {|w.log|}
  {
    hide Step, Run, Inv, CoordinatorOk, WriterOk, TablesOk, OpenOk, IdleOk, SavedOk, ClosedOk, EditOk, Alone, Timely,
      TreeAt;
    NothingYet();
    StartHolds(c);
    StartAlone(c);
    RunFresh(c, Start(), events);
    RunOrderly(c, Start(), events);
    RunKeeps(c, Start(), events);
    var w := Run(c, Start(), events);
    FreshIsTested(c, w);
  }

  lemma {:induction false} FreshIsTested(c: Config, w: World)
    requires Inv(c, w) && TablesOk(c, w) && ClosedOk(w) && w.run.AwaitingPublishApproval?
    ensures c.required != [] && (forall p :: p in c.required ==> (p, CurrentTree(c, w)) in w.tested)
    ensures PassedGenerations(w, Latest(w)) == {|w.log|}
  {
    var n := Latest(w);
    WorkersAre(c, w, 0);
    hide Max, TreeAt, Inv;
    assert AttemptPassed(c, w.rows, n);
    forall p | p in c.required ensures (p, CurrentTree(c, w)) in w.tested {
      var k := Key(n, p);
      assert k in w.rows && w.rows[k].verdict == Pass && w.rows[k].generation == |w.log|;
    }
    var p := c.required[0];
    assert w.rows[Key(n, p)].generation in PassedGenerations(w, n);
    assert forall g :: g in PassedGenerations(w, n) ==> g == |w.log|;
  }
}
