/** What is published, and the two ways in which steps may come too late for it: a validation that begins on a row of
    another generation, and a mutation that commits after the run has left editing. */
module LifecyclePublished {
  import opened Text
  import opened Patch
  import opened Mutations
  import Workspaces
  import opened RunStates
  import opened Lifecycle
  import opened LifecycleSafety

  /* ---- verdicts and the trees they were earned on ---- */

  predicate Pends(w: World, k: Key) { k in w.rows && w.rows[k].verdict == Pending }

  /** `begin_validation` meets an unfinished row of a generation other than the one just read: its insert is ignored. */
  predicate Meets(c: Config, w: World, e: Event) {
    && e.Work? && e.u in w.workers && w.workers[e.u].Missed?
    && var k := KeyOf(c, w.workers[e.u].job);
       Pends(w, k) && w.rows[k].generation != w.workers[e.u].generation
  }

  /** Being tested for a row that names another generation. */
  predicate Crossed(c: Config, w: World, p: Worker) {
    (p.Testing? || p.Tested?) && var k := KeyOf(c, p.job); Pends(w, k) && w.rows[k].generation != p.generation
  }

  /** The step stores a verdict in a row that names another generation than the one the sandbox was given. */
  predicate Misnames(c: Config, w: World, e: Event) {
    e.Work? && e.u in w.workers && w.workers[e.u].Tested? && Crossed(c, w, w.workers[e.u])
  }

  predicate Uncrossed(c: Config, w: World, events: seq<Event>)
    decreases |events|
  {
    events == [] || (!Meets(c, w, events[0]) && Uncrossed(c, Step(c, w, events[0]), events[1..]))
  }

  /** What a verdict on the current generation is worth, from the sandbox to the row. */
  ghost predicate EarnedBy(c: Config, w: World, p: Worker) {
    !Crossed(c, w, p)
    && (p.Tested? && p.ok && p.generation == |w.log| ==> (KeyOf(c, p.job).profile, CurrentTree(c, w)) in w.tested)
  }

  /** A passed row that names the current generation was earned on the current tree. */
  ghost predicate Earned(c: Config, w: World) {
    && (forall k :: k in w.rows && w.rows[k].verdict == Pass && w.rows[k].generation == |w.log| ==>
          (k.profile, CurrentTree(c, w)) in w.tested)
    && (forall u :: u in w.workers ==> EarnedBy(c, w, w.workers[u]))
  }

  /** A new generation is one that no row names and no verdict is for. */
  lemma {:induction false} CommitEarns(c: Config, w: World, e: Event)
    requires Inv(c, w) && Earned(c, w)
    ensures Earned(c, WriteStep(c, w, e))
  {
    hide Replay, TreeAt, LogOk, NotesOk, OutboxOk, PublisherOk, SignerOk, ResultsOk, AttemptPassed, KeyOf;
    var w' := WriteStep(c, w, e);
    forall u | u in w'.workers ensures EarnedBy(c, w', w'.workers[u]) {
      assert EarnedBy(c, w, w.workers[u]) && WorkerOk(c, w, w.workers[u]);
    }
  }

  lemma {:induction false} SameEarns(c: Config, w: World, w': World)
    requires Earned(c, w) && w'.rows == w.rows && w'.log == w.log && w.tested <= w'.tested
    requires forall u :: u in w'.workers ==>
               (u in w.workers && w'.workers[u] == w.workers[u]) || EarnedBy(c, w', w'.workers[u])
    ensures Earned(c, w')
  {
    hide TreeAt, KeyOf;
    forall u | u in w'.workers ensures EarnedBy(c, w', w'.workers[u]) {
      if u in w.workers && w'.workers[u] == w.workers[u] { assert EarnedBy(c, w, w.workers[u]); }
    }
  }

  lemma {:induction false} WorkersAreEarned(c: Config, w: World, u: nat)
    requires Earned(c, w)
    ensures u in w.workers ==> EarnedBy(c, w, w.workers[u])
  {
  }

  /** Rows of others stay as they are. */
  lemma {:induction false} RowEarns(c: Config, w: World, w': World, u: nat, k: Key)
    requires Earned(c, w) && w'.log == w.log && w'.tested == w.tested
    requires k in w'.rows && forall j :: j in w'.rows && j != k ==> j in w.rows && w'.rows[j] == w.rows[j]
    requires w'.rows[k].verdict == Pass && w'.rows[k].generation == |w.log| ==>
               (k.profile, CurrentTree(c, w)) in w.tested
    requires forall v :: v in w'.workers && v != u ==> v in w.workers && w'.workers[v] == w.workers[v]
    requires w'.rows[k].verdict == Pending ==>
               forall v :: v in w.workers && v != u && (w.workers[v].Testing? || w.workers[v].Tested?) ==>
                 KeyOf(c, w.workers[v].job) != k
    requires u in w'.workers ==> EarnedBy(c, w', w'.workers[u])
    ensures Earned(c, w')
  {
    hide TreeAt, KeyOf;
    forall v | v in w'.workers ensures EarnedBy(c, w', w'.workers[v]) {
      if v != u { assert EarnedBy(c, w, w.workers[v]); }
    }
  }

  lemma {:induction false} BeginEarns(c: Config, w: World, u: nat)
    requires Inv(c, w) && Earned(c, w) && u in w.workers && w.workers[u].Missed? && !Meets(c, w, Work(u))
    ensures Earned(c, BeginStep(c, w, u))
  {
    hide TreeAt, KeyOf, Earned, LogOk, NotesOk, OutboxOk, PublisherOk, SignerOk, ResultsOk, AttemptPassed, RowsOk;
    var Missed(job, g) := w.workers[u];
    var k := KeyOf(c, job);
    var w' := BeginStep(c, w, u);
    if k in w.rows {
      SameEarns(c, w, w');
    } else {
      forall v | v in w.workers && v != u && (w.workers[v].Testing? || w.workers[v].Tested?)
        ensures KeyOf(c, w.workers[v].job) != k
      {
        assert WorkerOk(c, w, w.workers[v]);
      }
      RowEarns(c, w, w', u, k);
    }
  }

  lemma {:induction false} FinishEarns(c: Config, w: World, u: nat)
    requires Inv(c, w) && Earned(c, w) && u in w.workers && w.workers[u].Tested?
    ensures Earned(c, FinishStep(c, w, u))
  {
    hide TreeAt, KeyOf, Inv, Earned;
    var Tested(job, g, ok) := w.workers[u];
    var k := KeyOf(c, job);
    var w' := FinishStep(c, w, u);
    WorkersAreEarned(c, w, u);
    if k in w.rows && w.rows[k].verdict == Pending {
      RowEarns(c, w, w', u, k);
    } else {
      SameEarns(c, w, w');
    }
  }

  lemma {:induction false} TestEarns(c: Config, w: World, u: nat, ok: bool, seen: Tree)
    requires Inv(c, w) && Earned(c, w)
    ensures Earned(c, TestStep(c, w, u, ok, seen))
  {
    hide TreeAt, KeyOf, Inv, Earned;
    WorkersAreEarned(c, w, u);
    SameEarns(c, w, TestStep(c, w, u, ok, seen));
  }

  lemma {:induction false} PlainEarns(c: Config, w: World, w': World, u: nat)
    requires Earned(c, w) && w'.rows == w.rows && w'.log == w.log && w'.tested == w.tested && Alters(w, w', u)
    ensures Earned(c, w')
  {
    hide TreeAt, KeyOf, Earned;
    SameEarns(c, w, w');
  }

  lemma {:induction false} WorkEarns(c: Config, w: World, u: nat)
    requires Inv(c, w) && Earned(c, w) && !Meets(c, w, Work(u))
    ensures Earned(c, WorkStep(c, w, u))
  {
    hide Inv, Earned, Alters, Meets, EnterStep, CountStep, AttemptStep, SaveStep, ValidateStep, BeginStep, FinishStep,
      DecideStep, Complete;
    if u in w.workers {
      if w.workers[u].Missed? {
        BeginEarns(c, w, u);
      } else if w.workers[u].Tested? {
        FinishEarns(c, w, u);
      } else {
        PlainEarns(c, w, WorkStep(c, w, u), u);
      }
    }
  }

  lemma {:induction false} ComesEarns(c: Config, w: World, u: nat)
    requires Earned(c, w)
    ensures Earned(c, Put(w, u, Entered)) && Earned(c, End(w, u))
  {
    hide Earned;
    PlainEarns(c, w, Put(w, u, Entered), u);
    PlainEarns(c, w, End(w, u), u);
  }

  lemma {:induction false} WorkersEarn(c: Config, w: World, e: Event)
    requires Inv(c, w) && Earned(c, w) && !Meets(c, w, e)
    ensures Earned(c, WorkersStep(c, w, e))
  {
    hide Inv, Earned, Meets, WorkStep, TestStep;
    if e.Work? {
      WorkEarns(c, w, e.u);
    } else if e.Test? {
      TestEarns(c, w, e.u, e.ok, e.seen);
    } else if e.Enter? || e.Call? || e.Leave? {
      ComesEarns(c, w, e.u);
      if e.Call? { PlainEarns(c, w, Put(w, e.u, Checking(ForCall(e.profile))), e.u); }
    }
  }

  lemma {:induction false} StepEarns(c: Config, w: World, e: Event)
    requires Inv(c, w) && Earned(c, w) && !Meets(c, w, e)
    ensures Earned(c, Step(c, w, e))
  {
    StepIs(c, w, e);
    hide Inv, Earned, EarnedBy, Meets, Carries;
    hide Step, WriteStep, OthersStep, SignStep, WorkersStep, PubStep, IsWrite, IsOther, IsSign, IsWork;
    CommitEarns(c, w, e);
    WorkersEarn(c, w, e);
    SameEarns(c, w, OthersStep(w, e));
    SameEarns(c, w, SignStep(w, e));
    SameEarns(c, w, PubStep(c, w, e));
  }

  lemma {:induction false} RunEarns(c: Config, w: World, events: seq<Event>)
    requires Inv(c, w) && Earned(c, w) && Uncrossed(c, w, events)
    ensures Earned(c, Run(c, w, events))
    decreases |events|
  {
    hide Inv, Earned, Step, Meets;
    if events != [] {
      StepEarns(c, w, events[0]);
      StepKeeps(c, w, events[0]);
      RunEarns(c, Step(c, w, events[0]), events[1..]);
    }
  }

  /* ---- exactly how a verdict comes to stand for a tree it was not earned on ---- */

  /** In a run where no begin met such a row so far, a step makes it possible that a verdict is stored for a tree it was
      not earned on, with no further such begin, if and only if it is itself one. */
  lemma {:induction false} MisnamedExactlyBy(c: Config, events: seq<Event>, e: Event)
    requires Uncrossed(c, Start(), events)
    ensures var w := Step(c, Run(c, Start(), events), e);
            (exists more :: Uncrossed(c, w, more) && LeadsAstray(c, w, more)) <==> Meets(c, Run(c, Start(), events), e)
  {
    hide Inv, Earned, Step, Run, Meets, Uncrossed, LeadsAstray;
    StartHolds(c);
    StartEarned(c);
    RunKeeps(c, Start(), events);
    RunEarns(c, Start(), events);
    var before := Run(c, Start(), events);
    var w := Step(c, before, e);
    if Meets(c, before, e) {
      GoesAstray(c, before, e);
    } else {
      StepEarns(c, before, e);
      StepKeeps(c, before, e);
      forall more | Uncrossed(c, w, more) ensures !LeadsAstray(c, w, more) { NeverAstray(c, w, more); }
    }
  }

  /** Some step of these stores a verdict for another tree than it was earned on. */
  predicate LeadsAstray(c: Config, w: World, events: seq<Event>)
    decreases |events|
  {
    events != [] && (Misnames(c, w, events[0]) || LeadsAstray(c, Step(c, w, events[0]), events[1..]))
  }

  lemma {:induction false} StartEarned(c: Config)
    ensures Earned(c, Start())
  {
  }

  lemma {:induction false} NeverAstray(c: Config, w: World, events: seq<Event>)
    requires Inv(c, w) && Earned(c, w) && Uncrossed(c, w, events)
    ensures !LeadsAstray(c, w, events)
    decreases |events|
  {
    hide Inv, Step, Meets, KeyOf;
    if events != [] {
      assert events[0].Work? && events[0].u in w.workers ==> EarnedBy(c, w, w.workers[events[0].u]);
      hide Earned;
      StepEarns(c, w, events[0]);
      StepKeeps(c, w, events[0]);
      NeverAstray(c, Step(c, w, events[0]), events[1..]);
    }
  }

  lemma {:induction false} BeginsAstray(c: Config, w: World, u: nat)
    requires Meets(c, w, Work(u))
    ensures var w1 := Step(c, w, Work(u));
            u in w1.workers && w1.workers[u].Testing? && Crossed(c, w1, w1.workers[u])
  {
    hide KeyOf;
    assert Step(c, w, Work(u)) == BeginStep(c, w, u);
  }

  lemma {:induction false} TestsAstray(c: Config, w: World, u: nat)
    requires u in w.workers && w.workers[u].Testing? && Crossed(c, w, w.workers[u])
    ensures var w1 := Step(c, w, Test(u, true, map[]));
            u in w1.workers && w1.workers[u].Tested? && Crossed(c, w1, w1.workers[u])
  {
    hide KeyOf, TreeAt;
    assert Step(c, w, Test(u, true, map[])) == TestStep(c, w, u, true, map[]);
  }

  lemma LastAstray(c: Config, w: World, e: Event)
    requires Misnames(c, w, e)
    ensures Uncrossed(c, w, [e]) && LeadsAstray(c, w, [e])
  {
    assert [e][0] == e && [e][1..] == [];
    assert Uncrossed(c, Step(c, w, e), []);
  }

  /** The sandbox answers, and the verdict is stored. */
  lemma {:induction false} GoesAstray(c: Config, w: World, e: Event)
    requires Meets(c, w, e)
    ensures exists more :: Uncrossed(c, Step(c, w, e), more) && LeadsAstray(c, Step(c, w, e), more)
  {
    var w1 := Step(c, w, e);
    var w2 := Step(c, w1, Test(e.u, true, map[]));
    var more := [Test(e.u, true, map[]), Work(e.u)];
    BeginsAstray(c, w, e.u);
    TestsAstray(c, w1, e.u);
    assert more[1..] == [Work(e.u)] && more[1..][1..] == [];
    hide Step, Crossed;
    LastAstray(c, w2, Work(e.u));
    assert Uncrossed(c, w1, more) && LeadsAstray(c, w1, more);
  }

  /* ---- what is published and what was approved ---- */

  /** A mutation commits although the run has come to publish approval or beyond since it was looked at. */
  predicate Late(w: World, e: Event) {
    e.WriteCommit? && w.writer.Some? && (w.run.AwaitingPublishApproval? || w.outbox.Some?)
  }

  predicate Prompt(c: Config, w: World, events: seq<Event>)
    decreases |events|
  {
    events == [] || (!Late(w, events[0]) && Prompt(c, Step(c, w, events[0]), events[1..]))
  }

  ghost predicate Named(c: Config, w: World, b: Binding) {
    b.generation == |w.log| && b.changes == CurrentChanges(c, w)
  }

  ghost predicate BoundBy(c: Config, w: World, p: Publisher) {
    match p
    case HasGeneration(_, _, _, g) => w.run.AwaitingPublishApproval? ==> g == |w.log|
    case HasDiff(_, _, _, g, d) => w.run.AwaitingPublishApproval? ==> g == |w.log| && d == CurrentChanges(c, w)
    case Exact(_, b) => w.run.AwaitingPublishApproval? ==> Named(c, w, b)
    case HasCheckpoint(_, b, _) => w.run.AwaitingPublishApproval? ==> Named(c, w, b)
    case Cleared(_, b) => w.run.AwaitingPublishApproval? ==> Named(c, w, b)
    case Loaded(_, b, files) => files == b.changes
    case _ => true
  }

  /** The intent's binding, and every binding on its way there, names the current generation and its changes, which are
      the files handed over. */
  ghost predicate Bound(c: Config, w: World) {
    && (w.outbox.Some? ==> Named(c, w, w.outbox.value.binding))
    && HandedBound(w.outbox, w.handed)
    && (forall u :: u in w.publishers ==> BoundBy(c, w, w.publishers[u]))
  }

  predicate HandedBound(outbox: Option<Outbox>, handed: seq<Handoff>) {
    forall i :: 0 <= i < |handed| ==> outbox.Some? && handed[i].files == outbox.value.binding.changes
  }

  lemma SameName(c: Config, w: World, w': World, b: Binding)
    requires Named(c, w, b) && w'.log == w.log
    ensures Named(c, w', b)
  {
  }

  lemma {:induction false} PublishersAreBound(c: Config, w: World, u: nat)
    requires Bound(c, w)
    ensures u in w.publishers ==> BoundBy(c, w, w.publishers[u])
    ensures w.outbox.Some? ==> Named(c, w, w.outbox.value.binding)
  {
  }

  lemma {:induction false} BoundOn(c: Config, w: World, w': World, u: nat)
    requires Inv(c, w) && u in w.publishers && BoundBy(c, w, w.publishers[u]) && w'.log == w.log
    requires Past(w.run) ==> Rank(w'.run) >= Rank(w.run)
    ensures BoundBy(c, w', w.publishers[u])
  {
    PublishersAre(c, w, u);
    assert CurrentChanges(c, w') == CurrentChanges(c, w);
    assert Past(w.run) && w'.run.AwaitingPublishApproval? ==> w.run.AwaitingPublishApproval?;
    hide Inv, CurrentChanges, OutboxOk, RowsOk, NotesOk, Stored, Backed, AttemptPassed, Rank;
  }

  lemma {:induction false} SameBinds(c: Config, w: World, w': World)
    requires Inv(c, w) && Bound(c, w) && w'.outbox == w.outbox && w'.handed == w.handed && w'.log == w.log
    requires Past(w.run) ==> Rank(w'.run) >= Rank(w.run)
    requires forall u :: u in w'.publishers ==>
               (u in w.publishers && w'.publishers[u] == w.publishers[u]) || BoundBy(c, w', w'.publishers[u])
    ensures Bound(c, w')
  {
    hide Inv, BoundBy, Past, HandedBound, Named;
    if w.outbox.Some? { SameName(c, w, w', w.outbox.value.binding); }
    forall u | u in w'.publishers ensures BoundBy(c, w', w'.publishers[u]) {
      if u in w.publishers && w'.publishers[u] == w.publishers[u] {
        PublishersAreBound(c, w, u);
        BoundOn(c, w, w', u);
      }
    }
  }

  lemma {:induction false} CommitBinds(c: Config, w: World, e: Event)
    requires Inv(c, w) && Bound(c, w) && !Late(w, e)
    ensures Bound(c, WriteStep(c, w, e))
  {
    hide ChangesOf, TreeAt, Replay;
    var w' := WriteStep(c, w, e);
    if w'.log == w.log {
      SameBinds(c, w, w');
    } else {
      forall u | u in w'.publishers ensures BoundBy(c, w', w'.publishers[u]) { assert BoundBy(c, w, w.publishers[u]); }
    }
  }

  lemma {:induction false} GoBinds(c: Config, w: World, u: nat, p: Publisher)
    requires Inv(c, w) && Bound(c, w) && BoundBy(c, w, p)
    ensures Bound(c, Go(w, u, p))
  {
    hide Inv, Bound, ChangesOf, TreeAt;
    SameBinds(c, w, Go(w, u, p));
  }

  lemma {:induction false} StopBinds(c: Config, w: World, u: nat)
    requires Inv(c, w) && Bound(c, w)
    ensures Bound(c, Stop(w, u))
  {
    hide Inv, Bound;
    SameBinds(c, w, Stop(w, u));
  }

  lemma {:induction false} ReadBinds(c: Config, w: World, e: Event)
    requires Inv(c, w) && Bound(c, w)
    ensures Bound(c, PubReadStep(c, w, e))
  {
    hide Inv, Bound, ChangesOf, TreeAt;
    var w' := PubReadStep(c, w, e);
    if e.PubStart? || e.PubRead? || e.PubState? || e.PubGeneration? || e.PubDiff? {
      PublishersAreBound(c, w, e.u);
      StopBinds(c, w, e.u);
      if w' != w && w' != Stop(w, e.u) {
        assert w' == Go(w, e.u, w'.publishers[e.u]);
        GoBinds(c, w, e.u, w'.publishers[e.u]);
      }
    }
  }

  lemma {:induction false} CheckBinds(c: Config, w: World, u: nat, title: string)
    requires Inv(c, w) && Bound(c, w)
    ensures Bound(c, PubExactStep(w, u, title)) && Bound(c, PubCheckpointStep(w, u))
            && Bound(c, PubGenerationsStep(w, u))
  {
    hide Inv, Bound, ChangesOf, TreeAt, Max, PassedGenerations;
    PublishersAreBound(c, w, u);
    StopBinds(c, w, u);
    if u in w.publishers {
      match w.publishers[u]
      case HasDiff(id, row, now, g, d) =>
        if PubExactStep(w, u, title) != Stop(w, u) { SameBinds(c, w, PubExactStep(w, u, title)); }
      case Exact(id, b) => GoBinds(c, w, u, HasCheckpoint(id, b, Latest(w)));
      case HasCheckpoint(id, b, a) => GoBinds(c, w, u, Cleared(id, b));
      case _ =>
    }
  }

  lemma {:induction false} IntentBinds(c: Config, w: World, u: nat)
    requires Inv(c, w) && Bound(c, w)
    ensures Bound(c, PubIntentStep(w, u))
  {
    hide Inv, ChangesOf, TreeAt;
    PublishersAre(c, w, u);
    StopBinds(c, w, u);
    var w' := PubIntentStep(w, u);
    if w' != w && w' != Stop(w, u) {
      forall v | v in w'.publishers ensures BoundBy(c, w', w'.publishers[v]) {
        if v != u { assert BoundBy(c, w, w.publishers[v]); }
      }
    }
  }

  lemma {:induction false} ResumeBinds(c: Config, w: World, e: Event)
    requires Inv(c, w) && Bound(c, w)
    ensures Bound(c, ResumeStep(c, w, e))
  {
    hide Inv, Bound, ChangesOf, TreeAt;
    var w' := ResumeStep(c, w, e);
    if e.ResumeState? || e.ResumeOutbox? || e.ResumeApproval? || e.ResumeCheck? {
      StopBinds(c, w, e.u);
      if w' != w && w' != Stop(w, e.u) {
        assert w' == Go(w, e.u, w'.publishers[e.u]);
        GoBinds(c, w, e.u, w'.publishers[e.u]);
      }
    }
  }

  lemma {:induction false} LoadBinds(c: Config, w: World, u: nat)
    requires Inv(c, w) && Bound(c, w)
    ensures Bound(c, PubLoadStep(c, w, u))
  {
    hide Inv, Bound, ChangesOf, TreeAt, RowsOk, NotesOk;
    PublishersAre(c, w, u);
    PublishersAreBound(c, w, u);
    if u in w.publishers && w.publishers[u].Intended? {
      GoBinds(c, w, u, PubLoadStep(c, w, u).publishers[u]);
    }
  }

  lemma {:induction false} HandBinds(c: Config, w: World, u: nat)
    requires Inv(c, w) && Bound(c, w)
    ensures Bound(c, PubHandStep(w, u))
  {
    hide Inv, ChangesOf, TreeAt, RowsOk, NotesOk, OutboxOk;
    PublishersAre(c, w, u);
    if u in w.publishers && w.publishers[u].Loaded? {
      var w' := PubHandStep(w, u);
      assert BoundBy(c, w, w.publishers[u]);
      forall v | v in w'.publishers ensures BoundBy(c, w', w'.publishers[v]) {
        if v != u { assert BoundBy(c, w, w.publishers[v]); }
      }
    }
  }

  lemma {:induction false} DoneBinds(c: Config, w: World, u: nat)
    requires Inv(c, w) && Bound(c, w)
    ensures Bound(c, PubDoneStep(w, u))
  {
    hide Inv, ChangesOf, TreeAt, RowsOk, NotesOk, Backed;
    PublishersAre(c, w, u);
    if u in w.publishers && w.publishers[u].Sent? {
      var w' := PubDoneStep(w, u);
      forall v | v in w'.publishers ensures BoundBy(c, w', w'.publishers[v]) { assert BoundBy(c, w, w.publishers[v]); }
    }
  }

  lemma {:induction false} HandStepBinds(c: Config, w: World, e: Event)
    requires Inv(c, w) && Bound(c, w) && (e.PubIntent? || e.PubLoad? || e.PubHand? || e.PubDone? || e.PubCrash?)
    ensures Bound(c, PubStep(c, w, e))
  {
    hide Inv, Bound, PubIntentStep, PubLoadStep, PubHandStep, PubDoneStep, Carries;
    if e.PubIntent? {
      IntentBinds(c, w, e.u);
    } else if e.PubLoad? {
      LoadBinds(c, w, e.u);
    } else if e.PubHand? {
      HandBinds(c, w, e.u);
    } else if e.PubDone? {
      DoneBinds(c, w, e.u);
    } else {
      StopBinds(c, w, e.u);
    }
  }

  lemma {:induction false} PubBinds(c: Config, w: World, e: Event)
    requires Inv(c, w) && Bound(c, w)
    ensures Bound(c, PubStep(c, w, e))
  {
    hide Inv, Bound, PubExactStep, PubCheckpointStep, PubGenerationsStep, ResumeStep, PubReadStep;
    if e.PubIntent? || e.PubLoad? || e.PubHand? || e.PubDone? || e.PubCrash? {
      hide PubStep;
      HandStepBinds(c, w, e);
    } else if e.PubExact? || e.PubCheckpoint? || e.PubGenerations? {
      CheckBinds(c, w, e.u, if e.PubExact? then e.title else "");
    } else {
      ReadBinds(c, w, e);
      ResumeBinds(c, w, e);
    }
  }

  lemma {:induction false} RankOn(c: Config, w: World, e: Event)
    requires Inv(c, w)
    ensures Past(w.run) ==> Rank(Step(c, w, e).run) >= Rank(w.run)
  {
    hide Inv, Step;
    StepKeeps(c, w, e);
  }

  lemma {:induction false} AsideLeaves(c: Config, w: World, e: Event)
    requires IsOther(e) || IsSign(e) || IsWork(e)
    ensures var w' := Step(c, w, e);
            w'.outbox == w.outbox && w'.handed == w.handed && w'.log == w.log && w'.publishers == w.publishers
  {
    StepIs(c, w, e);
    hide Step, OthersStep, SignStep, WorkersStep, IsOther, IsSign, IsWork;
  }

  lemma {:induction false} AsideBinds(c: Config, w: World, e: Event)
    requires Inv(c, w) && Bound(c, w) && (IsOther(e) || IsSign(e) || IsWork(e))
    requires Past(w.run) ==> Rank(Step(c, w, e).run) >= Rank(w.run)
    ensures Bound(c, Step(c, w, e))
  {
    hide Inv, Bound, Past, Step, IsOther, IsSign, IsWork;
    AsideLeaves(c, w, e);
    SameBinds(c, w, Step(c, w, e));
  }

  lemma {:induction false} StepBinds(c: Config, w: World, e: Event)
    requires Inv(c, w) && Bound(c, w) && !Late(w, e)
    ensures Bound(c, Step(c, w, e))
  {
    hide Inv, Bound, Late, Past, WriteStep, OthersStep, SignStep, WorkersStep, PubStep;
    RankOn(c, w, e);
    if IsWrite(e) {
      CommitBinds(c, w, e);
    } else if IsOther(e) || IsSign(e) || IsWork(e) {
      hide Step;
      AsideBinds(c, w, e);
    } else {
      PubBinds(c, w, e);
    }
  }

  lemma {:induction false} RunBinds(c: Config, w: World, events: seq<Event>)
    requires Inv(c, w) && Bound(c, w) && Prompt(c, w, events)
    ensures Bound(c, Run(c, w, events))
    decreases |events|
  {
    hide Inv, Bound, Step, Late;
    if events != [] {
      StepBinds(c, w, events[0]);
      StepKeeps(c, w, events[0]);
      RunBinds(c, Step(c, w, events[0]), events[1..]);
    }
  }

  lemma {:induction false} StartBound(c: Config)
    ensures Bound(c, Start())
  {
  }

  /* ---- what holds of what is handed over ---- */

  /** In a run without late mutations, whatever validations do to each other: all files ever handed over are the changed
      files of one generation, the current one, named by an approval that was given and used for them. */
  lemma {:induction false} PublishedWasApproved(c: Config, events: seq<Event>, i: nat)
    requires Prompt(c, Start(), events) && i < |Run(c, Start(), events).handed|
    ensures var w := Run(c, Start(), events);
            var h := w.handed[i];
            && h.approval in w.approvals && w.approvals[h.approval].status != Requested
            && w.approvals[h.approval].binding.generation == |w.log|
            && h.files == w.approvals[h.approval].binding.changes
            && h.title == w.approvals[h.approval].binding.title
            && Replay(c.seed, w.log).Some? && h.files == ChangesOf(c.seed, Replay(c.seed, w.log).value)
            && Backed(c, w.rows, |w.log|)
  {
    hide ChangesOf, Replay, RowsOk, CallsOk, NotesOk, Backed, BoundBy, Run, Step;
    StartHolds(c);
    StartBound(c);
    RunKeeps(c, Start(), events);
    RunBinds(c, Start(), events);
    var w := Run(c, Start(), events);
    assert w.log[..|w.log|] == w.log;
  }

  /** Where in addition no validation begins on a row of another generation: every required profile passed on exactly
      the tree whose changes are handed over. */
  lemma {:induction false} PublishedWasTestedAndApproved(c: Config, events: seq<Event>, i: nat)
    requires Prompt(c, Start(), events) && Uncrossed(c, Start(), events) && i < |Run(c, Start(), events).handed|
    ensures var w := Run(c, Start(), events);
            var h := w.handed[i];
            && h.approval in w.approvals && w.approvals[h.approval].status != Requested
            && w.approvals[h.approval].binding.generation == |w.log|
            && h.files == w.approvals[h.approval].binding.changes
            && h.title == w.approvals[h.approval].binding.title
            && Replay(c.seed, w.log).Some? && h.files == ChangesOf(c.seed, Replay(c.seed, w.log).value)
            && c.required != [] && forall p :: p in c.required ==> (p, Replay(c.seed, w.log).value) in w.tested
  {
    hide ChangesOf, Replay, Run, Step, Inv, EarnedBy, BackedBy;
    PublishedWasApproved(c, events, i);
    StartHolds(c);
    StartEarned(c);
    RunEarns(c, Start(), events);
    var w := Run(c, Start(), events);
    assert w.log[..|w.log|] == w.log;
    var a :| BackedBy(c, w.rows, |w.log|, a);
    BackedMeans(c, w, a);
  }

  lemma {:induction false} BackedMeans(c: Config, w: World, a: nat)
    requires Earned(c, w) && BackedBy(c, w.rows, |w.log|, a)
    ensures c.required != [] && forall p :: p in c.required ==> (p, CurrentTree(c, w)) in w.tested
  {
    hide TreeAt;
    forall p | p in c.required ensures (p, CurrentTree(c, w)) in w.tested {
      assert w.rows[Key(a, p)].verdict == Pass && w.rows[Key(a, p)].generation == |w.log|;
    }
  }

  /** The check that publication makes is the one that counts: a passed checkpoint whose passed rows all name the
      current generation means that every required profile passed on its tree. */
  lemma {:induction false} PassedMeansGood(c: Config, events: seq<Event>, a: nat)
    requires Uncrossed(c, Start(), events)
    requires var w := Run(c, Start(), events);
             a in w.checkpoints && w.checkpoints[a] && PassedGenerations(w, a) == {|w.log|}
    ensures var w := Run(c, Start(), events);
            c.required != [] && forall p :: p in c.required ==> (p, CurrentTree(c, w)) in w.tested
  {
    hide TreeAt, Earned, Run, Step, LogOk, NotesOk, OutboxOk, CallsOk, AttemptPassed;
    StartHolds(c);
    StartEarned(c);
    RunKeeps(c, Start(), events);
    RunEarns(c, Start(), events);
    var w := Run(c, Start(), events);
    OneGeneration(c, w, a, |w.log|);
    BackedMeans(c, w, a);
  }

  /** The commit made from the base tree and handed-over files carries the bytes that were tested, and is the tested
      tree itself exactly when no new file in it is empty. */
  lemma {:induction false} CommitIsTheTestedTree(c: Config, events: seq<Event>, i: nat)
    requires Prompt(c, Start(), events) && Uncrossed(c, Start(), events) && i < |Run(c, Start(), events).handed|
    ensures var w := Run(c, Start(), events);
            var tree := CurrentTree(c, w);
            var commit := Overlay(c.seed, w.handed[i].files);
            && Replay(c.seed, w.log) == Some(tree)
            && (forall p :: p in c.required ==> (p, tree) in w.tested)
            && (forall p :: Bytes(commit, p) == Bytes(tree, p))
            && (commit == tree <==> forall p :: p in tree && p !in c.seed ==> tree[p] != "")
  {
    hide ChangesOf, Overlay, Replay, Run, Step, Prompt, Uncrossed;
    PublishedWasTestedAndApproved(c, events, i);
    var w := Run(c, Start(), events);
    assert w.log[..|w.log|] == w.log;
    Workspaces.PathsStay(c.seed, w.log);
    PublishedTree(c.seed, CurrentTree(c, w));
  }

  /** Once there is an intent, nothing but a late mutation moves the mutation table, nothing moves the binding, and
      further hand-overs repeat the same files. */
  lemma {:induction false} SettledForGood(c: Config, events: seq<Event>, more: seq<Event>)
    requires Prompt(c, Start(), events + more) && Run(c, Start(), events).outbox.Some?
    ensures var w := Run(c, Start(), events);
            var w' := Run(c, Start(), events + more);
            && w'.outbox.Some? && w'.outbox.value.binding == w.outbox.value.binding && w'.log == w.log
            && forall i :: 0 <= i < |w'.handed| ==> w'.handed[i].files == w.outbox.value.binding.changes
  {
    hide ChangesOf, TreeAt, Run, Step, LogOk, RowsOk, NotesOk, OutboxOk, CallsOk, BoundBy;
    StartHolds(c);
    StartBound(c);
    PromptParts(c, Start(), events, more);
    RunAppend(c, Start(), events, more);
    RunKeeps(c, Start(), events);
    RunKeeps(c, Run(c, Start(), events), more);
    RunBinds(c, Start(), events);
    RunBinds(c, Start(), events + more);
    var w, w' := Run(c, Start(), events), Run(c, Start(), events + more);
    assert |w.log| == |w'.log| && w.log <= w'.log;
  }

  lemma {:induction false} PromptParts(c: Config, w: World, events: seq<Event>, more: seq<Event>)
    requires Prompt(c, w, events + more)
    ensures Prompt(c, w, events)
    decreases |events|
  {
    hide Step, Late;
    if events != [] {
      assert (events + more)[0] == events[0] && (events + more)[1..] == events[1..] + more;
      PromptParts(c, Step(c, w, events[0]), events[1..], more);
    }
  }

  /** A mutation that commits after the intent does move the run off what was approved: one step later the binding names
      the current generation if and only if the step was no such commit. */
  lemma {:induction false} OnlyLateUnbinds(c: Config, events: seq<Event>, e: Event)
    requires Prompt(c, Start(), events) && Run(c, Start(), events).outbox.Some?
    ensures var w := Run(c, Start(), events);
            Named(c, Step(c, w, e), w.outbox.value.binding) <==> !Late(w, e)
  {
    hide ChangesOf, TreeAt, Run, Step, LogOk, RowsOk, NotesOk, OutboxOk, CallsOk, BoundBy;
    StartHolds(c);
    StartBound(c);
    RunKeeps(c, Start(), events);
    RunBinds(c, Start(), events);
    var w := Run(c, Start(), events);
    StepKeeps(c, w, e);
    if Late(w, e) {
      LateGrows(c, w, e);
    } else {
      StepBinds(c, w, e);
    }
  }

  lemma LateGrows(c: Config, w: World, e: Event)
    requires Late(w, e)
    ensures |Step(c, w, e).log| == |w.log| + 1
  {
  }
}
