/** Runs that end where one might not expect: untested and waiting, untested and published, published otherwise than
    approved, and published with a file missing. */
module LifecycleWitness {
  import opened Text
  import opened Patch
  import opened Mutations
  import opened RunStates
  import opened Lifecycle
  import opened LifecycleSafety
  import opened LifecycleSteps

  /* ---- stretches of a run ---- */

  function Times(u: nat, n: nat): (r: seq<Event>) { if n == 0 then [] else Times(u, n - 1) + [Work(u)] }

  function Worked(c: Config, w: World, u: nat, n: nat): World {
    if n == 0 then w else WorkStep(c, Worked(c, w, u, n - 1), u)
  }

  lemma {:induction false} RunTimes(c: Config, w: World, u: nat, n: nat)
    ensures Run(c, w, Times(u, n)) == Worked(c, w, u, n)
  {
    hide Step, WorkStep;
    if n > 0 {
      RunTimes(c, w, u, n - 1);
      RunAppend(c, w, Times(u, n - 1), [Work(u)]);
      OneStep(c, Worked(c, w, u, n - 1), Work(u));
      IsWorkStep(c, Worked(c, w, u, n - 1), u);
    }
  }

  lemma SameCount(w: World, w': World, n: nat)
    requires PendingAttempts(w) == {} && w'.rows == w.rows
    ensures NextAttempt(w', n) == n + 1
  {
    assert PendingAttempts(w') == PendingAttempts(w);
  }

  lemma {:induction false} Begins(c: Config, w: World, u: nat)
    requires CanMove(w.run, Implement) && PendingAttempts(w) == {} && Latest(w) < c.attempts
    ensures Worked(c, Put(w, u, Leaving(Implement)), u, 4) == Put(w.(run := Implement), u, Editing(Latest(w) + 1))
  {
    hide WorkStep, Put, NextAttempt;
    var w0 := w.(run := Implement);
    AtLeaving(c, w, u);
    AtCounting(c, w0, u);
    SameCount(w, w0, Latest(w));
    AtCounted(c, w0, u, Latest(w));
    AtNext(c, w0, u, Latest(w) + 1);
    var start := Put(w, u, Leaving(Implement));
    assert Worked(c, start, u, 1) == Put(w0, u, Counting);
    assert Worked(c, start, u, 2) == Put(w0, u, Counted(Latest(w)));
    assert Worked(c, start, u, 3) == Put(w0, u, Next(Latest(w) + 1));
  }

  /** From editing to the point where a row is to be opened. */
  lemma {:induction false} Looks(c: Config, w: World, u: nat, a: nat)
    requires w.run == Implement && |c.required| == 1 && !Finished(w, Key(a, c.required[0]))
    ensures Worked(c, Put(w, u, Editing(a)), u, 4) == Put(w.(run := Validate), u, Missed(ForAttempt(a, []), |w.log|))
  {
    hide WorkStep, Put;
    var w0 := w.(run := Validate);
    var job := ForAttempt(a, []);
    AtEditing(c, w, u, a);
    AtChecking(c, w0, u, job);
    AtLocated(c, w0, u, job, |w.log|);
    var start := Put(w, u, Editing(a));
    assert Worked(c, start, u, 1) == Put(w0, u, Checking(job));
    assert Worked(c, start, u, 2) == Put(w0, u, Staged(job));
    assert Worked(c, start, u, 3) == Put(w0, u, Located(job, |w.log|));
  }

  /** The row is opened, and the sandbox answers. */
  lemma {:induction false} Tries(c: Config, w: World, u: nat, a: nat, ok: bool)
    requires |c.required| == 1 && Key(a, c.required[0]) !in w.rows
    ensures Run(c, Put(w, u, Missed(ForAttempt(a, []), |w.log|)), [Work(u)] + [Test(u, ok, map[])] + [Work(u)]) ==
            Put(w.(rows := w.rows[Key(a, c.required[0]) := Row(|w.log|, if ok then Pass else Fail)],
                   tested := if ok then w.tested + {(c.required[0], CurrentTree(c, w))} else w.tested),
                u, Checking(ForAttempt(a, [ok])))
  {
    hide WorkStep, Step, Put, TreeAt;
    var job, k, g := ForAttempt(a, []), Key(a, c.required[0]), |w.log|;
    var w1 := w.(rows := w.rows[k := Row(g, Pending)]);
    var w2 := w1.(tested := if ok then w.tested + {(c.required[0], CurrentTree(c, w))} else w.tested);
    var start := Put(w, u, Missed(job, g));
    AtMissed(c, w, u, job, g);
    IsWorkStep(c, start, u);
    OneStep(c, start, Work(u));
    AtTesting(c, w1, u, job, g, ok);
    OneStep(c, Put(w1, u, Testing(job, g)), Test(u, ok, map[]));
    AtTested(c, w2, u, job, g, ok);
    IsWorkStep(c, Put(w2, u, Tested(job, g, ok)), u);
    OneStep(c, Put(w2, u, Tested(job, g, ok)), Work(u));
    RunAppend(c, start, [Work(u)], [Test(u, ok, map[])]);
    RunAppend(c, start, [Work(u)] + [Test(u, ok, map[])], [Work(u)]);
    assert w.rows[k := Row(g, Pending)][k := Row(g, if ok then Pass else Fail)] ==
             w.rows[k := Row(g, if ok then Pass else Fail)];
    assert [] + [ok] == [ok];
  }

  /** The checkpoint, and where it takes the run. */
  lemma {:induction false} Concludes(c: Config, w: World, u: nat, a: nat, ok: bool)
    requires |c.required| == 1 && w.run == Validate && a < c.attempts
    ensures var w1 := w.(checkpoints := w.checkpoints[a := ok]);
            Worked(c, Put(w, u, Checking(ForAttempt(a, [ok]))), u, 2) ==
            if ok then End(w1.(run := AwaitingPublishApproval), u) else Put(w1.(run := Implement), u, Next(a + 1))
  {
    hide WorkStep, Put;
    var w1 := w.(checkpoints := w.checkpoints[a := ok]);
    AtComplete(c, w, u, a, [ok]);
    assert AllTrue([ok]) == ok by { assert [ok][0] == ok; }
    AtPassed(c, w1, u, a);
    AtFailed(c, w1, u, a);
    var start := Put(w, u, Checking(ForAttempt(a, [ok])));
    assert Worked(c, start, u, 1) == Put(w1, u, Saved(a, ok));
  }

  lemma {:induction false} Mutates(c: Config, w: World, op: Op)
    requires w.run.Implement? && w.writer.None? && op !in w.log && Replay(c.seed, w.log + [op]).Some?
    ensures Run(c, w, [WriteLook(op)] + [WriteCommit]) == w.(log := w.log + [op])
  {
    hide Replay, Step;
    TwoSteps(c, w, op);
    RunAppend(c, w, [WriteLook(op)], [WriteCommit]);
    OneStep(c, w, WriteLook(op));
    OneStep(c, Step(c, w, WriteLook(op)), WriteCommit);
  }

  /** A restart finds the latest checkpoint failed and nothing pending. */
  lemma {:induction false} Restarts(c: Config, w: World, u: nat)
    requires w.run == Validate && PendingAttempts(w) == {} && Last(w).Some? && !Last(w).value.passed
    ensures Worked(c, Put(w, u, Entered), u, 4) == Put(w, u, Leaving(Implement))
  {
    hide WorkStep, Put, Last, PendingAttempts;
    AtEntered(c, w, u);
    AtCheckpoint(c, w, u);
    AtLast(c, w, u, Last(w));
    var start := Put(w, u, Entered);
    assert Worked(c, start, u, 1) == Put(w, u, NotReady);
    assert Worked(c, start, u, 2) == Put(w, u, AtValidate);
    assert Worked(c, start, u, 3) == Put(w, u, HasLast(Last(w)));
  }

  /** A request is made and approved. */
  function Signed(w: World, id: nat, b: Binding): World {
    w.(approvals := w.approvals[id := Approval(b, Approved)],
       notes := w.notes.(signed := w.notes.signed[id := (b.approver, w.clock)]))
  }

  lemma {:induction false} Signs(c: Config, w: World, id: nat, b: Binding)
    requires id !in w.approvals && w.clock < b.expires && w.signers == map[]
    ensures Run(c, w, [Request(id, b)] + [SignLook(0, id, b.approver)] + [SignWrite(0)]) == Signed(w, id, b)
  {
    var w1 := w.(approvals := w.approvals[id := Approval(b, Requested)]);
    var w2 := w1.(signers := map[0 := Signer(id, b.approver, w.clock)]);
    assert Step(c, w, Request(id, b)) == w1;
    assert map[][0 := Signer(id, b.approver, w.clock)] == w2.signers;
    assert Step(c, w1, SignLook(0, id, b.approver)) == w2;
    assert w1.approvals[id := Approval(b, Approved)] == w.approvals[id := Approval(b, Approved)];
    assert w2.signers - {0} == map[];
    assert Step(c, w2, SignWrite(0)) == Signed(w, id, b);
    hide Step;
    OneStep(c, w, Request(id, b));
    OneStep(c, w1, SignLook(0, id, b.approver));
    OneStep(c, w2, SignWrite(0));
    RunAppend(c, w, [Request(id, b)], [SignLook(0, id, b.approver)]);
    RunAppend(c, w, [Request(id, b)] + [SignLook(0, id, b.approver)], [SignWrite(0)]);
  }

  const READS := [PubStart(0)] + [PubRead(0, 0)] + [PubState(0)] + [PubGeneration(0)] + [PubDiff(0)]
  const CHECKS := [PubExact(0, "")] + [PubCheckpoint(0)] + [PubGenerations(0)] + [PubIntent(0)]
  const HANDS := [PubLoad(0)] + [PubHand(0)]

  lemma {:induction false} Appends(c: Config, w: World, events: seq<Event>, w1: World, e: Event, w2: World)
    requires Run(c, w, events) == w1 && Step(c, w1, e) == w2
    ensures Run(c, w, events + [e]) == w2
  {
    hide Step, Run;
    RunAppend(c, w, events, [e]);
    OneStep(c, w1, e);
  }

  lemma {:induction false} Reads(c: Config, w: World)
    requires w.run == AwaitingPublishApproval && 0 in w.approvals
    ensures Run(c, w, READS) == Go(w, 0, HasDiff(0, w.approvals[0], w.clock, |w.log|, CurrentChanges(c, w)))
  {
    hide Step, Run, Go, CurrentChanges;
    var row, now, g := w.approvals[0], w.clock, |w.log|;
    AtStarted(c, w, 0, 0, now);
    AtRow(c, w, 0, 0, row, now);
    AtGeneration(c, w, 0, 0, row, now, g);
    OneStep(c, w, PubStart(0));
    Appends(c, w, [PubStart(0)], Go(w, 0, Started(now)), PubRead(0, 0), Go(w, 0, HasRow(0, row, now)));
    var e1 := [PubStart(0)] + [PubRead(0, 0)];
    Appends(c, w, e1, Go(w, 0, HasRow(0, row, now)), PubState(0), Go(w, 0, InState(0, row, now)));
    var e2 := e1 + [PubState(0)];
    Appends(c, w, e2, Go(w, 0, InState(0, row, now)), PubGeneration(0), Go(w, 0, HasGeneration(0, row, now, g)));
    Appends(c, w, e2 + [PubGeneration(0)], Go(w, 0, HasGeneration(0, row, now, g)), PubDiff(0),
            Go(w, 0, HasDiff(0, row, now, g, CurrentChanges(c, w))));
  }

  /** The comparisons succeed, and the intent is stored. */
  lemma {:induction false} Checks(c: Config, w: World, d: Changes)
    requires w.run == AwaitingPublishApproval && 0 in w.approvals && w.outbox.None?
    requires Fits(w.approvals[0], "", w.clock, |w.log|, d)
    requires w.checkpoints != map[] && w.checkpoints[Latest(w)] && PassedGenerations(w, Latest(w)) == {|w.log|}
    ensures var b := w.approvals[0].binding;
            Run(c, Go(w, 0, HasDiff(0, w.approvals[0], w.clock, |w.log|, d)), CHECKS) ==
            Go(Consuming(Compared(w, 0, w.clock), 0, b), 0, Intended(0, b))
  {
    var row, now, g, a := w.approvals[0], w.clock, |w.log|, Latest(w);
    var b := row.binding;
    var w1 := Compared(w, 0, now);
    assert PassedGenerations(w1, a) == PassedGenerations(w, a) && Latest(w1) == a;
    hide Step, Run, Go, Latest, PassedGenerations, Consuming;
    AtDiff(c, w, 0, 0, row, now, g, d, "");
    AtExact(c, w1, 0, 0, b);
    AtGenerations(c, w1, 0, 0, b, a);
    AtCleared(c, w1, 0, 0, b);
    var start := Go(w, 0, HasDiff(0, row, now, g, d));
    OneStep(c, start, PubExact(0, ""));
    var e1 := [PubExact(0, "")];
    Appends(c, start, e1, Go(w1, 0, Exact(0, b)), PubCheckpoint(0), Go(w1, 0, HasCheckpoint(0, b, a)));
    var e2 := e1 + [PubCheckpoint(0)];
    Appends(c, start, e2, Go(w1, 0, HasCheckpoint(0, b, a)), PubGenerations(0), Go(w1, 0, Cleared(0, b)));
    Appends(c, start, e2 + [PubGenerations(0)], Go(w1, 0, Cleared(0, b)), PubIntent(0),
            Go(Consuming(w1, 0, b), 0, Intended(0, b)));
  }

  lemma {:induction false} HandsOver(c: Config, w: World, b: Binding)
    ensures Run(c, Go(w, 0, Intended(0, b)), HANDS) ==
            Go(w.(handed := w.handed + [Handoff(0, b.title, CurrentChanges(c, w))]), 0, Sent(0))
  {
    hide Step, Run, Go, CurrentChanges;
    var d := CurrentChanges(c, w);
    var start := Go(w, 0, Intended(0, b));
    AtIntended(c, w, 0, 0, b);
    AtLoaded(c, w, 0, 0, b, d);
    OneStep(c, start, PubLoad(0));
    Appends(c, start, [PubLoad(0)], Go(w, 0, Loaded(0, b, d)), PubHand(0),
            Go(w.(handed := w.handed + [Handoff(0, b.title, d)]), 0, Sent(0)));
  }

  /* ---- the runs ---- */

  const CONFIG := Config(map[], ["t"], 3, {})
  const A := Create("a", "1")
  const B := Create("b", "2")
  const EMPTY := Create("a", "")
  const TREE_A: Tree := map["a" := "1"]
  const TREE_AB: Tree := map["a" := "1", "b" := "2"]
  const TREE_EMPTY: Tree := map["a" := ""]

  lemma {:induction false} Trees()
    ensures Replay(map[], []) == Some(map[]) && Replay(map[], [A]) == Some(TREE_A)
    ensures Replay(map[], [A, B]) == Some(TREE_AB) && Replay(map[], [EMPTY]) == Some(TREE_EMPTY)
    ensures TreeAt(CONFIG, [], 0) == map[] && TreeAt(CONFIG, [A], 0) == map[] && TreeAt(CONFIG, [A], 1) == TREE_A
    ensures TreeAt(CONFIG, [A, B], 2) == TREE_AB && TreeAt(CONFIG, [EMPTY], 1) == TREE_EMPTY
  {
    assert [A][..0] == [] && [A, B][..1] == [A] && [A][..1] == [A] && [A, B][..2] == [A, B];
    assert [EMPTY][..0] == [] && [EMPTY][..1] == [EMPTY];
  }

  lemma {:induction false} Then(c: Config, w: World, first: seq<Event>, w1: World, more: seq<Event>, w2: World)
    requires Run(c, w, first) == w1 && Run(c, w1, more) == w2
    ensures Run(c, w, first + more) == w2
  {
    hide Step, Run;
    RunAppend(c, w, first, more);
  }

  const PLANNED := Start().(run := PlanReady)
  const ENTER_0 := [Plan, Plan, Plan] + [Enter(0)] + [Work(0)]
  const EDIT := ENTER_0 + Times(0, 4)

  lemma {:induction false} Plans()
    ensures Run(CONFIG, Start(), [Plan, Plan, Plan]) == PLANNED
  {
    assert [Plan, Plan, Plan][1..] == [Plan, Plan] && [Plan, Plan][1..] == [Plan] && [Plan][1..] == [];
    assert Run(CONFIG, Start().(run := Analyze), [Plan]) == PLANNED;
    assert Run(CONFIG, Start().(run := Intake), [Plan, Plan]) == PLANNED;
  }

  lemma {:induction false} Comes(c: Config, w: World, u: nat)
    requires u !in w.workers && w.run == PlanReady
    ensures Run(c, w, [Enter(u)]) == Put(w, u, Entered)
    ensures Run(c, Put(w, u, Entered), [Work(u)]) == Put(w, u, Leaving(Implement))
  {
    assert Step(c, w, Enter(u)) == Put(w, u, Entered);
    hide Step, Put;
    OneStep(c, w, Enter(u));
    AtEntered(c, w, u);
    IsWorkStep(c, Put(w, u, Entered), u);
    OneStep(c, Put(w, u, Entered), Work(u));
  }

  lemma Untouched(w: World)
    requires w.rows == map[]
    ensures PendingAttempts(w) == {} && (w.checkpoints == map[] ==> Latest(w) == 0)
  {
  }

  lemma {:induction false} Edits()
    ensures Run(CONFIG, Start(), EDIT) == Put(PLANNED.(run := Implement), 0, Editing(1))
  {
    hide Step, Run, Put, WorkStep, PendingAttempts, Latest;
    Plans();
    Comes(CONFIG, PLANNED, 0);
    Then(CONFIG, Start(), [Plan, Plan, Plan], PLANNED, [Enter(0)], Put(PLANNED, 0, Entered));
    Then(CONFIG, Start(), [Plan, Plan, Plan] + [Enter(0)], Put(PLANNED, 0, Entered), [Work(0)],
         Put(PLANNED, 0, Leaving(Implement)));
    Untouched(PLANNED);
    Begins(CONFIG, PLANNED, 0);
    RunTimes(CONFIG, Put(PLANNED, 0, Leaving(Implement)), 0, 4);
    Then(CONFIG, Start(), ENTER_0, Put(PLANNED, 0, Leaving(Implement)), Times(0, 4),
         Put(PLANNED.(run := Implement), 0, Editing(1)));
  }

  /** From editing through an attempt in which the profile passes. */
  const TRY := [Work(0)] + [Test(0, true, map[])] + [Work(0)]
  const PASS := Times(0, 4) + TRY + Times(0, 2)

  function Passed(w: World, a: nat): World {
    w.(run := AwaitingPublishApproval, rows := w.rows[Key(a, "t") := Row(|w.log|, Pass)],
       tested := w.tested + {("t", CurrentTree(CONFIG, w))}, checkpoints := w.checkpoints[a := true])
  }

  lemma {:induction false} Passes(w: World, a: nat)
    requires w.run == Implement && Key(a, "t") !in w.rows && a < 3
    ensures Run(CONFIG, Put(w, 0, Editing(a)), PASS) == End(Passed(w, a), 0)
  {
    hide Step, Run, Put, WorkStep, TreeAt;
    var job, k := ForAttempt(a, []), Key(a, "t");
    var start := Put(w, 0, Editing(a));
    var w1 := w.(run := Validate);
    Looks(CONFIG, w, 0, a);
    RunTimes(CONFIG, start, 0, 4);
    Tries(CONFIG, w1, 0, a, true);
    var w2 := w1.(rows := w.rows[k := Row(|w.log|, Pass)], tested := w.tested + {("t", CurrentTree(CONFIG, w))});
    Then(CONFIG, start, Times(0, 4), Put(w1, 0, Missed(job, |w.log|)), TRY,
         Put(w2, 0, Checking(ForAttempt(a, [true]))));
    Concludes(CONFIG, w2, 0, a, true);
    RunTimes(CONFIG, Put(w2, 0, Checking(ForAttempt(a, [true]))), 0, 2);
    Then(CONFIG, start, Times(0, 4) + TRY, Put(w2, 0, Checking(ForAttempt(a, [true]))), Times(0, 2),
         End(Passed(w, a), 0));
  }

  function SignFor(b: Binding): seq<Event> { [Request(0, b)] + [SignLook(0, 0, b.approver)] + [SignWrite(0)] }

  function Published(w: World, b: Binding): World { Consuming(Compared(Signed(w, 0, b), 0, w.clock), 0, b) }

  /** From awaiting approval to the intent. */
  lemma {:induction false} Intends(c: Config, w: World, b: Binding)
    requires w.run == AwaitingPublishApproval && w.approvals == map[] && w.signers == map[] && w.outbox.None?
    requires b == Binding(|w.log|, CurrentChanges(c, w), "", "", w.clock + 1)
    requires w.checkpoints != map[] && w.checkpoints[Latest(w)] && PassedGenerations(w, Latest(w)) == {|w.log|}
    ensures Run(c, w, SignFor(b) + READS + CHECKS) == Go(Published(w, b), 0, Intended(0, b))
  {
    var w1 := Signed(w, 0, b);
    var d := CurrentChanges(c, w);
    assert w1.approvals[0] == Approval(b, Approved) && Fits(w1.approvals[0], "", w.clock, |w.log|, d);
    assert PassedGenerations(w1, Latest(w)) == PassedGenerations(w, Latest(w)) && Latest(w1) == Latest(w);
    hide Step, Run, Go, Latest, PassedGenerations, Consuming, Fits, TreeAt, ChangesOf;
    Signs(c, w, 0, b);
    Reads(c, w1);
    Checks(c, w1, d);
    Then(c, w, SignFor(b), w1, READS, Go(w1, 0, HasDiff(0, w1.approvals[0], w.clock, |w.log|, d)));
    Then(c, w, SignFor(b) + READS, Go(w1, 0, HasDiff(0, w1.approvals[0], w.clock, |w.log|, d)), CHECKS,
         Go(Published(w, b), 0, Intended(0, b)));
  }

  lemma {:induction false} OneRow(w: World, a: nat, g: nat)
    requires w.rows == map[Key(a, "t") := Row(g, Pass)] && w.checkpoints == map[a := true]
    ensures Latest(w) == a && PassedGenerations(w, a) == {g}
  {
    assert w.checkpoints.Keys == {a};
    assert w.rows[Key(a, "t")].generation in PassedGenerations(w, a);
  }

  /** The run so far, once a first attempt has passed on whatever was edited. */
  lemma {:induction false} PassesFirst(edits: seq<Event>, w: World)
    requires Run(CONFIG, Put(PLANNED.(run := Implement), 0, Editing(1)), edits) == Put(w, 0, Editing(1))
    requires w == PLANNED.(run := Implement, log := w.log, writer := w.writer)
    ensures Run(CONFIG, Start(), EDIT + edits + PASS) == Passed(w, 1)
  {
    hide Step, Run, Put, TreeAt;
    Edits();
    Passes(w, 1);
    Then(CONFIG, Start(), EDIT, Put(PLANNED.(run := Implement), 0, Editing(1)), edits, Put(w, 0, Editing(1)));
    assert End(Passed(w, 1), 0) == Passed(w, 1);
    Then(CONFIG, Start(), EDIT + edits, Put(w, 0, Editing(1)), PASS, Passed(w, 1));
  }

  lemma {:induction false} IntendsFirst(edits: seq<Event>, w: World, b: Binding)
    requires Run(CONFIG, Put(PLANNED.(run := Implement), 0, Editing(1)), edits) == Put(w, 0, Editing(1))
    requires w == PLANNED.(run := Implement, log := w.log, writer := w.writer)
    requires b == Binding(|w.log|, CurrentChanges(CONFIG, w), "", "", 1)
    ensures Run(CONFIG, Start(), EDIT + edits + PASS + (SignFor(b) + READS + CHECKS)) ==
            Go(Published(Passed(w, 1), b), 0, Intended(0, b))
  {
    var w1 := Passed(w, 1);
    OneRow(w1, 1, |w.log|);
    hide Step, Run, Put, TreeAt, ChangesOf, Latest, PassedGenerations;
    PassesFirst(edits, w);
    Intends(CONFIG, w1, b);
    Then(CONFIG, Start(), EDIT + edits + PASS, w1, SignFor(b) + READS + CHECKS,
         Go(Published(w1, b), 0, Intended(0, b)));
  }

  const WRITE_EMPTY := [WriteLook(EMPTY)] + [WriteCommit]
  const FOR_EMPTY := Binding(1, map[], "", "", 1)
  const EMPTY_FILE := EDIT + WRITE_EMPTY + PASS + (SignFor(FOR_EMPTY) + READS + CHECKS) + HANDS
  const WITH_EMPTY := PLANNED.(run := Implement, log := [EMPTY])
  const EMPTY_INTENT := Published(Passed(WITH_EMPTY, 1), FOR_EMPTY)

  lemma EmptyWrites()
    ensures ChangesOf(map[], TREE_EMPTY) == map[] && Overlay(map[], map[]) == map[]
    ensures Run(CONFIG, Put(PLANNED.(run := Implement), 0, Editing(1)), WRITE_EMPTY) == Put(WITH_EMPTY, 0, Editing(1))
  {
    Trees();
    assert [] + [EMPTY] == [EMPTY];
    hide Step, Run, Replay;
    Mutates(CONFIG, Put(PLANNED.(run := Implement), 0, Editing(1)), EMPTY);
  }

  lemma {:induction false} HandsFrom(events: seq<Event>, w: World, b: Binding)
    requires Run(CONFIG, Start(), events) == Go(w, 0, Intended(0, b)) && w.handed == []
    ensures Run(CONFIG, Start(), events + HANDS) ==
            Go(w.(handed := [Handoff(0, b.title, CurrentChanges(CONFIG, w))]), 0, Sent(0))
  {
    hide Step, Run, Go, CurrentChanges;
    HandsOver(CONFIG, w, b);
    RunAppend(CONFIG, Start(), events, HANDS);
    assert [] + [Handoff(0, b.title, CurrentChanges(CONFIG, w))] == [Handoff(0, b.title, CurrentChanges(CONFIG, w))];
  }

  lemma {:induction false} EmptyRun()
    ensures Run(CONFIG, Start(), EMPTY_FILE) ==
            Go(EMPTY_INTENT.(handed := [Handoff(0, "", CurrentChanges(CONFIG, EMPTY_INTENT))]), 0, Sent(0))
  {
    Trees();
    EmptyWrites();
    hide Step, Run, TreeAt, ChangesOf, Replay, Go, Put;
    IntendsFirst(WRITE_EMPTY, WITH_EMPTY, FOR_EMPTY);
    HandsFrom(EDIT + WRITE_EMPTY + PASS + (SignFor(FOR_EMPTY) + READS + CHECKS), EMPTY_INTENT, FOR_EMPTY);
  }

  /** A file created empty is approved, tested and lost: the commit made from what is handed over lacks it. */
  lemma {:induction false} EmptyFileIsLost()
    ensures var w := Run(CONFIG, Start(), EMPTY_FILE);
            && |w.handed| == 1 && CurrentTree(CONFIG, w) == TREE_EMPTY && ("t", TREE_EMPTY) in w.tested
            && Overlay(map[], w.handed[0].files) == map[]
  {
    Trees();
    EmptyWrites();
    EmptyRun();
    hide Step, Run, TreeAt, ChangesOf, Replay, Overlay;
  }

  const FOR_NOTHING := Binding(0, map[], "", "", 1)
  const TO_LATE := EDIT + [WriteLook(A)] + PASS + (SignFor(FOR_NOTHING) + READS + CHECKS) + [WriteCommit]
  const LATE := TO_LATE + HANDS
  const WITH_WRITER := PLANNED.(run := Implement, writer := Some(A))
  const LATE_INTENT := Published(Passed(WITH_WRITER, 1), FOR_NOTHING).(log := [A], writer := None)

  lemma {:induction false} LateWrites()
    ensures Step(CONFIG, Put(PLANNED.(run := Implement), 0, Editing(1)), WriteLook(A)) ==
              Put(WITH_WRITER, 0, Editing(1))
    ensures Step(CONFIG, Go(Published(Passed(WITH_WRITER, 1), FOR_NOTHING), 0, Intended(0, FOR_NOTHING)),
                 WriteCommit) ==
              Go(LATE_INTENT, 0, Intended(0, FOR_NOTHING))
  {
    Trees();
    hide Replay, TreeAt;
    assert [] + [A] == [A];
  }

  lemma {:induction false} LateRun()
    ensures Run(CONFIG, Start(), LATE) ==
            Go(LATE_INTENT.(handed := [Handoff(0, "", CurrentChanges(CONFIG, LATE_INTENT))]), 0, Sent(0))
  {
    Trees();
    LateWrites();
    assert ChangesOf(map[], map[]) == map[];
    hide Step, Run, TreeAt, ChangesOf, Replay, Go, Put;
    OneStep(CONFIG, Put(PLANNED.(run := Implement), 0, Editing(1)), WriteLook(A));
    IntendsFirst([WriteLook(A)], WITH_WRITER, FOR_NOTHING);
    Appends(CONFIG, Start(), EDIT + [WriteLook(A)] + PASS + (SignFor(FOR_NOTHING) + READS + CHECKS),
            Go(Published(Passed(WITH_WRITER, 1), FOR_NOTHING), 0, Intended(0, FOR_NOTHING)), WriteCommit,
            Go(LATE_INTENT, 0, Intended(0, FOR_NOTHING)));
    HandsFrom(TO_LATE, LATE_INTENT, FOR_NOTHING);
  }

  /** A mutation that saw the run in IMPLEMENT commits after the intent: what is handed over is neither what was
      approved nor what was tested. */
  lemma {:induction false} LateIsPublished()
    ensures var w := Run(CONFIG, Start(), LATE);
            && |w.handed| == 1 && w.handed[0].approval in w.approvals
            && w.handed[0].files == map["a" := Some("1")] && w.approvals[w.handed[0].approval].binding.changes == map[]
            && CurrentTree(CONFIG, w) == TREE_A && ("t", TREE_A) !in w.tested
  {
    Trees();
    LateRun();
    assert ChangesOf(map[], TREE_A) == map["a" := Some("1")];
    assert TREE_A != map[] by { assert "a" in TREE_A; }
    hide Step, Run, TreeAt, ChangesOf, Replay;
    assert LATE_INTENT.tested == {("t", map[])};
  }

  /* ---- two coordinators ---- */

  const JOB := ForAttempt(1, [])
  const K := Key(1, "t")
  const WRITE_A := [WriteLook(A)] + [WriteCommit]
  const ONE_WAITS := Put(PLANNED, 0, Leaving(Implement))
  const ONE_MISSED := Put(ONE_WAITS.(run := Validate), 1, Missed(JOB, 0))
  const EDITED := ONE_MISSED.(log := [A])
  const OPENED := Put(EDITED.(rows := map[K := Row(1, Pending)]), 0, Testing(JOB, 1))
  const CROSSED := OPENED.(rows := map[K := Row(1, Pass)], tested := {("t", map[])})
  const CONCLUDED := End(CROSSED.(run := AwaitingPublishApproval, checkpoints := map[1 := true]), 1)

  /** Coordinators 0 and 1 both find the run planned. Coordinator 1 takes it to VALIDATE, reads generation 0, finds no
      result, and is overtaken. */
  const OVERTAKEN := ENTER_0 + [Enter(1)] + [Work(1)] + Times(1, 4) + Times(1, 4)

  /** Coordinator 0 takes the run back to IMPLEMENT, as from planning; a mutation commits; it opens the row. */
  const OVERTAKES := Times(0, 4) + WRITE_A + Times(0, 4) + [Work(0)]

  /** Coordinator 1 tests generation 0, and its verdict goes into that row. */
  const CROSSES := [Work(1)] + [Test(1, true, map[])] + [Work(1)] + Times(1, 2)

  /** The verdict on generation 1 comes too late. */
  const DISCARDS := [Test(0, false, map[])] + [Work(0)]

  lemma {:induction false} Overtaken()
    ensures Run(CONFIG, Start(), OVERTAKEN) == ONE_MISSED
  {
    hide Step, Run, WorkStep, PendingAttempts, Latest;
    Plans();
    Comes(CONFIG, PLANNED, 0);
    Then(CONFIG, Start(), [Plan, Plan, Plan], PLANNED, [Enter(0)], Put(PLANNED, 0, Entered));
    Then(CONFIG, Start(), [Plan, Plan, Plan] + [Enter(0)], Put(PLANNED, 0, Entered), [Work(0)], ONE_WAITS);
    Comes(CONFIG, ONE_WAITS, 1);
    Then(CONFIG, Start(), ENTER_0, ONE_WAITS, [Enter(1)], Put(ONE_WAITS, 1, Entered));
    var e1 := ENTER_0 + [Enter(1)] + [Work(1)];
    Then(CONFIG, Start(), ENTER_0 + [Enter(1)], Put(ONE_WAITS, 1, Entered), [Work(1)],
         Put(ONE_WAITS, 1, Leaving(Implement)));
    Untouched(ONE_WAITS);
    Begins(CONFIG, ONE_WAITS, 1);
    RunTimes(CONFIG, Put(ONE_WAITS, 1, Leaving(Implement)), 1, 4);
    var w1 := ONE_WAITS.(run := Implement);
    Then(CONFIG, Start(), e1, Put(ONE_WAITS, 1, Leaving(Implement)), Times(1, 4), Put(w1, 1, Editing(1)));
    Looks(CONFIG, w1, 1, 1);
    RunTimes(CONFIG, Put(w1, 1, Editing(1)), 1, 4);
    Then(CONFIG, Start(), e1 + Times(1, 4), Put(w1, 1, Editing(1)), Times(1, 4), ONE_MISSED);
  }

  lemma {:induction false} EditsA(w: World, a: nat)
    requires w.run == Implement && w.log == [] && w.writer.None?
    ensures Run(CONFIG, Put(w, 0, Editing(a)), WRITE_A) == Put(w.(log := [A]), 0, Editing(a))
  {
    Trees();
    assert [] + [A] == [A];
    hide Step, Run, Replay;
    Mutates(CONFIG, Put(w, 0, Editing(a)), A);
  }

  lemma {:induction false} Opens()
    ensures Step(CONFIG, Put(EDITED, 0, Missed(JOB, 1)), Work(0)) == OPENED
  {
    assert KeyOf(CONFIG, JOB) == K && map[][K := Row(1, Pending)] == map[K := Row(1, Pending)];
    hide Step, WorkStep, KeyOf;
    AtMissed(CONFIG, EDITED, 0, JOB, 1);
    IsWorkStep(CONFIG, Put(EDITED, 0, Missed(JOB, 1)), 0);
  }

  lemma {:induction false} BeginsFirst(c: Config, w: World)
    requires CanMove(w.run, Implement) && PendingAttempts(w) == {} && Latest(w) == 0 && c.attempts > 0
    ensures Run(c, Put(w, 0, Leaving(Implement)), Times(0, 4)) == Put(w.(run := Implement), 0, Editing(1))
  {
    hide *;
    Begins(c, w, 0);
    RunTimes(c, Put(w, 0, Leaving(Implement)), 0, 4);
  }

  lemma {:induction false} LooksFirst(w: World)
    requires w.run == Implement && w.rows == map[] && |w.log| == 1
    ensures Run(CONFIG, Put(w, 0, Editing(1)), Times(0, 4)) == Put(w.(run := Validate), 0, Missed(JOB, 1))
  {
    hide Step, Run, WorkStep, Put;
    Looks(CONFIG, w, 0, 1);
    RunTimes(CONFIG, Put(w, 0, Editing(1)), 0, 4);
  }

  lemma {:induction false} EditsAgain(w: World)
    requires w.run == Validate && w.rows == map[] && w.checkpoints == map[] && w.log == [] && w.writer.None?
    ensures Run(CONFIG, Put(w, 0, Leaving(Implement)), Times(0, 4) + WRITE_A + Times(0, 4)) ==
            Put(w.(log := [A]), 0, Missed(JOB, 1))
  {
    var editing := w.(run := Implement);
    var edited := editing.(log := [A]);
    assert edited.(run := Validate) == w.(log := [A]);
    Untouched(w);
    assert CanMove(Validate, Implement) && CONFIG.attempts > 0;
    hide *;
    BeginsFirst(CONFIG, w);
    EditsA(editing, 1);
    LooksFirst(edited);
    Then(CONFIG, Put(w, 0, Leaving(Implement)), Times(0, 4), Put(editing, 0, Editing(1)), WRITE_A,
         Put(edited, 0, Editing(1)));
    Then(CONFIG, Put(w, 0, Leaving(Implement)), Times(0, 4) + WRITE_A, Put(edited, 0, Editing(1)), Times(0, 4),
         Put(w.(log := [A]), 0, Missed(JOB, 1)));
  }

  lemma {:induction false} Overtakes()
    ensures Run(CONFIG, ONE_MISSED, OVERTAKES) == OPENED
  {
    Again(ONE_MISSED, 0, Leaving(Implement), Leaving(Implement));
    hide Step, Run, WorkStep;
    EditsAgain(ONE_MISSED);
    Opens();
    Appends(CONFIG, ONE_MISSED, Times(0, 4) + WRITE_A + Times(0, 4), Put(EDITED, 0, Missed(JOB, 1)), Work(0), OPENED);
  }

  lemma {:induction false} Crosses()
    ensures Run(CONFIG, OPENED, CROSSES) == CONCLUDED
  {
    Trees();
    Again(OPENED, 1, Missed(JOB, 0), Missed(JOB, 0));
    assert KeyOf(CONFIG, JOB) == K;
    assert OPENED.tested + {("t", map[])} == {("t", map[])} && [] + [true] == [true];
    assert map[K := Row(1, Pending)][K := Row(1, Pass)] == map[K := Row(1, Pass)];
    assert map[][1 := true] == map[1 := true];
    var tested := OPENED.(tested := {("t", map[])});
    hide Step, Run, WorkStep, Replay, TreeAt, KeyOf;
    AtMissed(CONFIG, OPENED, 1, JOB, 0);
    IsWorkStep(CONFIG, OPENED, 1);
    OneStep(CONFIG, OPENED, Work(1));
    AtTesting(CONFIG, OPENED, 1, JOB, 0, true);
    Appends(CONFIG, OPENED, [Work(1)], Put(OPENED, 1, Testing(JOB, 0)), Test(1, true, map[]),
            Put(tested, 1, Tested(JOB, 0, true)));
    AtTested(CONFIG, tested, 1, JOB, 0, true);
    IsWorkStep(CONFIG, Put(tested, 1, Tested(JOB, 0, true)), 1);
    var e1 := [Work(1)] + [Test(1, true, map[])];
    var last := Put(CROSSED, 1, Checking(ForAttempt(1, [true])));
    Appends(CONFIG, OPENED, e1, Put(tested, 1, Tested(JOB, 0, true)), Work(1), last);
    Concludes(CONFIG, CROSSED, 1, 1, true);
    RunTimes(CONFIG, last, 1, 2);
    Then(CONFIG, OPENED, e1 + [Work(1)], last, Times(1, 2), CONCLUDED);
  }

  lemma {:induction false} Discards()
    ensures Run(CONFIG, CONCLUDED, DISCARDS) == End(CONCLUDED, 0)
  {
    Again(CONCLUDED, 0, Testing(JOB, 1), Testing(JOB, 1));
    assert KeyOf(CONFIG, JOB) == K;
    assert CONCLUDED.(tested := CONCLUDED.tested) == CONCLUDED;
    hide Step, Run, WorkStep, TreeAt, KeyOf;
    AtTesting(CONFIG, CONCLUDED, 0, JOB, 1, false);
    OneStep(CONFIG, CONCLUDED, Test(0, false, map[]));
    AtTested(CONFIG, CONCLUDED, 0, JOB, 1, false);
    IsWorkStep(CONFIG, Put(CONCLUDED, 0, Tested(JOB, 1, false)), 0);
    Appends(CONFIG, CONCLUDED, [Test(0, false, map[])], Put(CONCLUDED, 0, Tested(JOB, 1, false)), Work(0),
            End(CONCLUDED, 0));
  }

  const FOR_A := Binding(1, map["a" := Some("1")], "", "", 1)
  const TO_CROSSED := OVERTAKEN + OVERTAKES + CROSSES + DISCARDS
  const TWO_COORDINATORS := TO_CROSSED + (SignFor(FOR_A) + READS + CHECKS) + HANDS

  lemma {:induction false} ToCrossed()
    ensures Run(CONFIG, Start(), TO_CROSSED) == End(CONCLUDED, 0)
  {
    hide Step, Run;
    Overtaken();
    Overtakes();
    Crosses();
    Discards();
    Then(CONFIG, Start(), OVERTAKEN, ONE_MISSED, OVERTAKES, OPENED);
    Then(CONFIG, Start(), OVERTAKEN + OVERTAKES, OPENED, CROSSES, CONCLUDED);
    Then(CONFIG, Start(), OVERTAKEN + OVERTAKES + CROSSES, CONCLUDED, DISCARDS, End(CONCLUDED, 0));
  }

  lemma {:induction false} CrossedRun()
    ensures var w := Published(End(CONCLUDED, 0), FOR_A);
            Run(CONFIG, Start(), TWO_COORDINATORS) ==
            Go(w.(handed := [Handoff(0, "", CurrentChanges(CONFIG, w))]), 0, Sent(0))
  {
    Trees();
    assert ChangesOf(map[], TREE_A) == map["a" := Some("1")];
    var w := End(CONCLUDED, 0);
    OneRow(w, 1, 1);
    hide Step, Run, TreeAt, ChangesOf, Replay, Go, Put, Latest, PassedGenerations;
    ToCrossed();
    Intends(CONFIG, w, FOR_A);
    Then(CONFIG, Start(), TO_CROSSED, w, SignFor(FOR_A) + READS + CHECKS,
         Go(Published(w, FOR_A), 0, Intended(0, FOR_A)));
    HandsFrom(TO_CROSSED + (SignFor(FOR_A) + READS + CHECKS), Published(w, FOR_A), FOR_A);
  }

  /** Two coordinators on one run: the profile failed on generation 1 and passed on generation 0 only; generation 1 is
      approved, let through and handed over. */
  lemma {:induction false} UntestedIsPublished()
    ensures var w := Run(CONFIG, Start(), TWO_COORDINATORS);
            && |w.handed| == 1 && w.handed[0].files == map["a" := Some("1")] && w.log == [A]
            && CurrentTree(CONFIG, w) == TREE_A && ("t", TREE_A) !in w.tested
            && PassedGenerations(w, Latest(w)) == {|w.log|}
  {
    Trees();
    CrossedRun();
    Differ();
    hide Step, Run, TreeAt, ChangesOf;
    var w := Run(CONFIG, Start(), TWO_COORDINATORS);
    assert w.log == [A] && w.tested == {("t", map[])};
    OneRow(w, 1, 1);
  }

  lemma Differ()
    ensures TREE_A != map[] && ChangesOf(map[], TREE_A) == map["a" := Some("1")]
  {
    assert "a" in TREE_A;
  }

  /* ---- a crash between results and checkpoint ---- */

  const FAIL := [Work(0)] + [Test(0, false, map[])] + [Work(0)]
  const WRITE_B := [WriteLook(B)] + [WriteCommit]
  const FAILED_ONCE := PLANNED.(run := Implement, rows := map[K := Row(0, Fail)], checkpoints := map[1 := false])
  const PASSED_A := FAILED_ONCE.(run := Validate, log := [A], tested := {("t", TREE_A)},
                                 rows := map[K := Row(0, Fail), Key(2, "t") := Row(1, Pass)])
  const WAITING := PASSED_A.(run := AwaitingPublishApproval, log := [A, B], checkpoints := map[1 := false, 2 := true])

  /** Attempt 1 fails on generation 0. */
  const FIRST := EDIT + Times(0, 4) + FAIL + Times(0, 2)

  /** Attempt 2 passes on generation 1, and the process stops before its checkpoint. */
  const SECOND := [Work(0)] + WRITE_A + Times(0, 4) + TRY + [Leave(0)]

  /** Restarted, the run goes back to editing; the new generation inherits the stored result. */
  const THIRD := [Enter(0)] + Times(0, 4) + Times(0, 4) + WRITE_B + Times(0, 4) + Times(0, 2)

  lemma {:induction false} First()
    ensures Run(CONFIG, Start(), FIRST) == Put(FAILED_ONCE, 0, Next(2))
  {
    var w := PLANNED.(run := Implement);
    var w1 := w.(run := Validate);
    var w2 := w1.(rows := map[K := Row(0, Fail)]);
    assert map[][K := Row(0, Fail)] == map[K := Row(0, Fail)] && map[][1 := false] == map[1 := false];
    hide Step, Run, WorkStep, Put, TreeAt;
    Edits();
    Looks(CONFIG, w, 0, 1);
    RunTimes(CONFIG, Put(w, 0, Editing(1)), 0, 4);
    Then(CONFIG, Start(), EDIT, Put(w, 0, Editing(1)), Times(0, 4), Put(w1, 0, Missed(JOB, 0)));
    Tries(CONFIG, w1, 0, 1, false);
    Then(CONFIG, Start(), EDIT + Times(0, 4), Put(w1, 0, Missed(JOB, 0)), FAIL,
         Put(w2, 0, Checking(ForAttempt(1, [false]))));
    Concludes(CONFIG, w2, 0, 1, false);
    RunTimes(CONFIG, Put(w2, 0, Checking(ForAttempt(1, [false]))), 0, 2);
    Then(CONFIG, Start(), EDIT + Times(0, 4) + FAIL, Put(w2, 0, Checking(ForAttempt(1, [false]))), Times(0, 2),
         Put(FAILED_ONCE, 0, Next(2)));
  }

  const RETRIED := Put(PASSED_A, 0, Checking(ForAttempt(2, [true])))

  lemma {:induction false} Stops()
    ensures Step(CONFIG, RETRIED, Leave(0)) == PASSED_A
  {
    assert End(PASSED_A, 0) == PASSED_A;
    Again(PASSED_A, 0, Checking(ForAttempt(2, [true])), Entered);
  }

  lemma {:induction false} TriesAgain()
    ensures Run(CONFIG, Put(FAILED_ONCE.(run := Validate, log := [A]), 0, Missed(ForAttempt(2, []), 1)), TRY) == RETRIED
  {
    Trees();
    assert FAILED_ONCE.rows[Key(2, "t") := Row(1, Pass)] == PASSED_A.rows;
    assert FAILED_ONCE.tested + {("t", TREE_A)} == {("t", TREE_A)};
    hide Step, Run, WorkStep, TreeAt, Put;
    Tries(CONFIG, FAILED_ONCE.(run := Validate, log := [A]), 0, 2, true);
  }

  lemma {:induction false} Second()
    ensures Run(CONFIG, Put(FAILED_ONCE, 0, Next(2)), SECOND) == PASSED_A
  {
    var start := Put(FAILED_ONCE, 0, Next(2));
    var w1 := FAILED_ONCE.(log := [A]);
    var w2 := w1.(run := Validate);
    EditsA(FAILED_ONCE, 2);
    Stops();
    TriesAgain();
    hide Step, Run, WorkStep, Put;
    AtNext(CONFIG, FAILED_ONCE, 0, 2);
    IsWorkStep(CONFIG, start, 0);
    OneStep(CONFIG, start, Work(0));
    Then(CONFIG, start, [Work(0)], Put(FAILED_ONCE, 0, Editing(2)), WRITE_A, Put(w1, 0, Editing(2)));
    Looks(CONFIG, w1, 0, 2);
    RunTimes(CONFIG, Put(w1, 0, Editing(2)), 0, 4);
    var e1 := [Work(0)] + WRITE_A;
    Then(CONFIG, start, e1, Put(w1, 0, Editing(2)), Times(0, 4), Put(w2, 0, Missed(ForAttempt(2, []), 1)));
    Then(CONFIG, start, e1 + Times(0, 4), Put(w2, 0, Missed(ForAttempt(2, []), 1)), TRY, RETRIED);
    Appends(CONFIG, start, e1 + Times(0, 4) + TRY, RETRIED, Leave(0), PASSED_A);
  }

  /** An attempt whose result is there already. */
  lemma {:induction false} Reuses(w: World, a: nat)
    requires w.run == Implement && Finished(w, Key(a, "t")) && w.rows[Key(a, "t")].verdict == Pass
    ensures Worked(CONFIG, Put(w, 0, Editing(a)), 0, 4) == Put(w.(run := Validate), 0, Checking(ForAttempt(a, [true])))
  {
    var w0 := w.(run := Validate);
    var job := ForAttempt(a, []);
    assert KeyOf(CONFIG, job) == Key(a, "t") && [] + [true] == [true];
    hide WorkStep, Put, KeyOf;
    AtEditing(CONFIG, w, 0, a);
    AtChecking(CONFIG, w0, 0, job);
    AtLocated(CONFIG, w0, 0, job, |w.log|);
    var start := Put(w, 0, Editing(a));
    assert Worked(CONFIG, start, 0, 1) == Put(w0, 0, Checking(job));
    assert Worked(CONFIG, start, 0, 2) == Put(w0, 0, Staged(job));
    assert Worked(CONFIG, start, 0, 3) == Put(w0, 0, Located(job, |w.log|));
  }

  lemma {:induction false} Last1(w: World)
    requires w.checkpoints == map[1 := false] && forall k :: k in w.rows ==> w.rows[k].verdict != Pending
    ensures Latest(w) == 1 && Last(w) == Some(Checkpoint(1, false)) && PendingAttempts(w) == {}
  {
    assert w.checkpoints.Keys == {1};
  }

  lemma {:induction false} EditsB(w: World)
    requires w.run == Implement && w.log == [A] && w.writer.None?
    ensures Run(CONFIG, Put(w, 0, Editing(2)), WRITE_B) == Put(w.(log := [A, B]), 0, Editing(2))
  {
    Trees();
    assert [A] + [B] == [A, B];
    hide Step, Run, Replay;
    Mutates(CONFIG, Put(w, 0, Editing(2)), B);
  }


  const BACK := PASSED_A.(run := Implement)

  /** From the restart to editing once more. */
  lemma {:induction false} GoesBack()
    ensures Run(CONFIG, PASSED_A, [Enter(0)] + Times(0, 4) + Times(0, 4)) == Put(BACK, 0, Editing(2))
  {
    assert Step(CONFIG, PASSED_A, Enter(0)) == Put(PASSED_A, 0, Entered);
    Last1(PASSED_A);
    hide Step, Run, WorkStep, Put, Latest, Last, PendingAttempts;
    OneStep(CONFIG, PASSED_A, Enter(0));
    Restarts(CONFIG, PASSED_A, 0);
    RunTimes(CONFIG, Put(PASSED_A, 0, Entered), 0, 4);
    Then(CONFIG, PASSED_A, [Enter(0)], Put(PASSED_A, 0, Entered), Times(0, 4), Put(PASSED_A, 0, Leaving(Implement)));
    Begins(CONFIG, PASSED_A, 0);
    RunTimes(CONFIG, Put(PASSED_A, 0, Leaving(Implement)), 0, 4);
    Then(CONFIG, PASSED_A, [Enter(0)] + Times(0, 4), Put(PASSED_A, 0, Leaving(Implement)), Times(0, 4),
         Put(BACK, 0, Editing(2)));
  }

  lemma {:induction false} Third()
    ensures Run(CONFIG, PASSED_A, THIRD) == WAITING
  {
    var w2 := BACK.(log := [A, B]);
    var w3 := w2.(run := Validate);
    assert map[1 := false][2 := true] == WAITING.checkpoints;
    assert End(WAITING, 0) == WAITING;
    hide Step, Run, WorkStep, Put;
    GoesBack();
    EditsB(BACK);
    var e2 := [Enter(0)] + Times(0, 4) + Times(0, 4);
    Then(CONFIG, PASSED_A, e2, Put(BACK, 0, Editing(2)), WRITE_B, Put(w2, 0, Editing(2)));
    Reuses(w2, 2);
    RunTimes(CONFIG, Put(w2, 0, Editing(2)), 0, 4);
    var last := Put(w3, 0, Checking(ForAttempt(2, [true])));
    Then(CONFIG, PASSED_A, e2 + WRITE_B, Put(w2, 0, Editing(2)), Times(0, 4), last);
    Concludes(CONFIG, w3, 0, 2, true);
    RunTimes(CONFIG, last, 0, 2);
    Then(CONFIG, PASSED_A, e2 + WRITE_B + Times(0, 4), last, Times(0, 2), WAITING);
  }

  /** One coordinator at a time: the run awaits approval, the current tree was never tested, and publication's check
      refuses it. */
  lemma {:induction false} AwaitingUntested()
    ensures var w := Run(CONFIG, Start(), FIRST + SECOND + THIRD);
            && w.run == AwaitingPublishApproval
            && CurrentTree(CONFIG, w) == TREE_AB && ("t", TREE_AB) !in w.tested
            && PassedGenerations(w, 2) != {|w.log|}
  {
    hide Step, Run;
    First();
    Second();
    Third();
    Then(CONFIG, Start(), FIRST, Put(FAILED_ONCE, 0, Next(2)), SECOND, PASSED_A);
    Then(CONFIG, Start(), FIRST + SECOND, PASSED_A, THIRD, WAITING);
    Trees();
    assert "b" in TREE_AB && "b" !in TREE_A;
    assert 1 in PassedGenerations(WAITING, 2) by { assert WAITING.rows[Key(2, "t")] == Row(1, Pass); }
  }
}
