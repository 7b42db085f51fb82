/** The driver that takes a run as far as it will go (src/agent_runtime/workflow.py, `advance`), over the very steps of
    `Lifecycle` and with nobody else at work while a call lasts. */
module Workflow {
  import opened Text
  import opened Mutations
  import opened RunStates
  import opened Lifecycle
  import opened LifecycleSafety
  import opened LifecyclePublished
  import opened LifecycleApprovals
  import opened LifecycleSteps

  /** What comes from outside at one point of a call: it may fail there and raise; a verdict; a model's edits. */
  datatype Reply = Reply(fault: bool, verdict: bool, ops: seq<Op>)

  datatype Outcome =
    | Returned(state: RunState, plan: bool, published: bool, reported: bool,
               awaitingPublication: bool, awaitingTransition: bool, exhausted: bool)
    | Failure
    | StepLimit

  /** No call is in progress, except that approvers may be about to write. */
  predicate Quiet(w: World) { w.workers == map[] && w.publishers == map[] && w.writer.None? }

  /** The part of the run's life that the coordinator works in. */
  predicate Working(s: RunState) { s.Implement? || s.Validate? }

  predicate NoFaults(replies: seq<Reply>) { forall i :: 0 <= i < |replies| ==> !replies[i].fault }

  /** Publication finds nothing to refuse. */
  predicate Publishable(c: Config, w: World, id: nat, title: string) {
    && w.run.AwaitingPublishApproval? && w.outbox.None?
    && id in w.approvals && Fits(w.approvals[id], title, w.clock, |w.log|, CurrentChanges(c, w))
    && w.checkpoints != map[] && w.checkpoints[Latest(w)] && PassedGenerations(w, Latest(w)) == {|w.log|}
  }

  /** Nor does a resumption. */
  ghost predicate Resumes(c: Config, w: World) {
    && w.run.Publish? && w.outbox.Some? && Named(c, w, w.outbox.value.binding)
    && Has(w, w.outbox.value.approval, Consumed)
  }

  class Driver {
    const c: Config
    const maxSteps: nat
    var w: World
    var replies: seq<Reply>
    ghost var events: seq<Event>

    /** Any world that any run reaches, whoever took part, as long as no call is still in progress. */
    constructor (c: Config, w: World, maxSteps: nat, replies: seq<Reply>, ghost events: seq<Event>)
      requires w == Run(c, Start(), events) && Quiet(w)
      ensures Reached() && Quiet(this.w) && this.w == w && this.c == c && this.maxSteps == maxSteps
    {
      this.c, this.w, this.maxSteps, this.replies, this.events := c, w, maxSteps, replies, events;
    }

    /** The world is one that a run of the model reaches: all that holds of every run holds of it. */
    ghost predicate Reached()
      reads this`w, this`events
    {
      w == Run(c, Start(), events)
    }

    method Do(e: Event)
      requires Reached()
      modifies this`w, this`events
      ensures Reached() && w == Step(c, old(w), e) && old(events) <= events
    {
      hide Step;
      RunAppend(c, Start(), events, [e]);
      OneStep(c, w, e);
      w := Step(c, w, e);
      events := events + [e];
    }

    /** The next step of the coordinator, who has number 0. */
    method Act()
      requires Reached()
      modifies this`w, this`events
      ensures Reached() && w == WorkStep(c, old(w), 0) && old(events) <= events
    {
      hide Step, WorkStep;
      IsWorkStep(c, w, 0);
      Do(Work(0));
    }

    method Next() returns (r: Reply)
      modifies this`replies
      ensures NoFaults(old(replies)) ==> !r.fault && NoFaults(replies)
    {
      r := Reply(false, true, []);
      if replies != [] {
        r := replies[0];
        replies := replies[1..];
      }
    }

    /* ---- intake and planning ---- */

    /** `transition` while nobody else writes: the edge is checked, and the guarded write finds the state it read. */
    method Move(target: RunState) returns (ok: bool)
      requires Reached() && target in {RunState.Intake, Analyze, PlanReady}
      modifies this`w, this`events
      ensures Reached() && old(events) <= events
      ensures ok <==> CanMove(old(w).run, target)
      ensures w == if ok then old(w).(run := target) else old(w)
    {
      ok := CanMove(w.run, target);
      if ok { Do(Plan); }
    }

    /** `intake`: nothing to do past NEW. */
    method Intake() returns (raised: bool)
      requires Reached() && Quiet(w)
      modifies this`w, this`events, this`replies
      ensures Reached() && Quiet(w) && old(events) <= events
      ensures !raised ==> w.run == if old(w).run.New? then RunState.Intake else old(w).run
      ensures raised ==> w == old(w)
      ensures NoFaults(old(replies)) ==> NoFaults(replies) && !raised
    {
      if !w.run.New? { return false; }
      var r := Next();
      if r.fault { return true; }
      var ok := Move(RunState.Intake);
      return !ok;
    }

    /** `plan`: two moves, with everything that can fail between them. */
    method PlanRun() returns (raised: bool)
      requires Reached() && Quiet(w)
      modifies this`w, this`events, this`replies
      ensures Reached() && Quiet(w) && old(events) <= events
      ensures !raised ==> w.run.PlanReady?
      ensures raised ==> w.run == old(w).run || w.run.Analyze?
      ensures NoFaults(old(replies)) ==> NoFaults(replies) && (old(w).run.New? || Rank(old(w).run) > 3 || !raised)
    {
      hide Run, Step;
      if w.run.PlanReady? { return false; }
      var ok;
      if w.run.Intake? {
        ok := Move(Analyze);
        if !ok { return true; }
      } else if !w.run.Analyze? {
        return true;
      }
      var r := Next();
      if r.fault { return true; }
      ok := Move(PlanReady);
      return !ok;
    }

    /* ---- implementing and validating ---- */

    /* While the coordinator works, the world is a quiet one, `b`, in which it stands at some place. */

    /** What the coordinator does on entry: a run whose latest checkpoint passed is done, one whose latest checkpoint
        failed goes back to editing, unless some validation was interrupted. */
    method Arrive() returns (passed: bool)
      requires Reached() && Quiet(w) && (w.run.PlanReady? || Working(w.run))
      modifies this`w, this`events
      ensures Reached() && old(events) <= events
      ensures passed ==>
                w == old(w).(run := AwaitingPublishApproval) && w.checkpoints != map[] && w.checkpoints[Latest(w)]
      ensures !passed ==> w == Put(old(w).(run := w.run), 0, Counting) && Working(w.run)
    {
      hide Step, WorkStep, Run, Last, PendingAttempts;
      ghost var b := w;
      EntersAt(c, w, 0);
      Do(Enter(0));
      AtEntered(c, b, 0);
      Act();
      if w.workers[0].NotReady? {
        Act();
        if w.workers[0].Counting? { return false; }
        AtCheckpoint(c, b, 0);
        Act();
        AtLast(c, b, 0, Last(b));
        LastMeans(b);
        Act();
        if w.workers[0].Counting? { return false; }
        if w.workers[0].target.AwaitingPublishApproval? {
          AtLeavingDone(c, b, 0);
          Act();
          EndsQuiet(b.(run := AwaitingPublishApproval));
          return true;
        }
      }
      AtLeaving(c, b, 0);
      Act();
      return false;
    }

    /** Which attempt comes next. */
    method Count(ghost b: World) returns (attempt: nat)
      requires Reached() && w == Put(b, 0, Counting)
      modifies this`w, this`events
      ensures Reached() && old(events) <= events
      ensures attempt == NextAttempt(b, Latest(b)) && w == Put(b, 0, Worker.Next(attempt))
    {
      hide Step, WorkStep, Run, NextAttempt, Latest;
      AtCounting(c, b, 0);
      Act();
      AtCounted(c, b, 0, Latest(b));
      Act();
      attempt := w.workers[0].attempt;
    }

    /** The call ends here: by an exception, a spent budget or the process. */
    method Break(ghost b: World, ghost p: Worker)
      requires Reached() && w == Put(b, 0, p) && b.workers == map[]
      modifies this`w, this`events
      ensures Reached() && old(events) <= events && w == b
    {
      hide Step, Run;
      LeavesAt(c, w, 0);
      Do(Leave(0));
      Again(b, 0, p, p);
      EndsQuiet(b);
    }

    /** The model's edits, each of which may be refused, and the move to VALIDATE. None if the call raises, false if the
        budget is spent. */
    method Edit(ghost b: World, a: nat) returns (within: Option<bool>)
      requires Reached() && w == Put(b, 0, Editing(a)) && Quiet(b) && b.run.Implement?
      modifies this`w, this`events, this`replies
      ensures Reached() && old(events) <= events
      ensures within.Some? && within.value ==>
                w == Put(b.(run := Validate, log := w.log), 0, Checking(ForAttempt(a, [])))
      ensures within.None? || !within.value ==> w == b.(log := w.log)
      ensures NoFaults(old(replies)) ==> NoFaults(replies) && within.Some?
    {
      hide Step, WorkStep, Run;
      var r := Next();
      for n := 0 to |r.ops|
        invariant Reached() && old(events) <= events && w == Put(b.(log := w.log), 0, Editing(a))
        invariant NoFaults(old(replies)) ==> NoFaults(replies)
      {
        Mutation(r.ops[n]);
      }
      ghost var b1 := b.(log := w.log);
      if r.fault || !r.verdict {
        Break(b1, Editing(a));
        return if r.fault then None else Some(false);
      }
      AtEditing(c, b1, 0, a);
      Act();
      return Some(true);
    }

    /** One mutation: looked at, and committed if it is possible. */
    method Mutation(op: Op)
      requires Reached() && w.writer.None?
      modifies this`w, this`events
      ensures Reached() && old(events) <= events && w == old(w).(log := w.log)
    {
      hide Step, Run;
      WritesAt(c, w, WriteLook(op));
      Do(WriteLook(op));
      if w.writer.Some? {
        WritesAt(c, w, WriteCommit);
        Do(WriteCommit);
      }
    }

    /** One required profile: its stored result, or a fresh one. False if the call raises. */
    method CheckNext(ghost b: World, a: nat, results: seq<bool>) returns (ok: bool, result: bool)
      requires Reached() && w == Put(b, 0, Checking(ForAttempt(a, results))) && Quiet(b) && b.run.Validate?
      requires |results| < |c.required|
      modifies this`w, this`events, this`replies
      ensures Reached() && old(events) <= events
      ensures var b' := b.(rows := w.rows, tested := w.tested);
              if ok then w == Put(b', 0, Checking(ForAttempt(a, results + [result]))) else w == b'
      ensures NoFaults(old(replies)) ==> NoFaults(replies) && ok
    {
      hide Step, WorkStep, Run, KeyOf;
      var job := ForAttempt(a, results);
      var g := |w.log|;
      AtChecking(c, b, 0, job);
      Act();
      Act();
      AtLocated(c, b, 0, job, g);
      Act();
      if w.workers[0].Checking? {
        result := w.rows[KeyOf(c, job)].verdict == Pass;
        return true, result;
      }
      AtMissed(c, b, 0, job, g);
      Act();
      ghost var b1 := b.(rows := w.rows);
      assert Pends(b1, KeyOf(c, job));
      ok, result := Sandbox(b1, job);
    }

    /** The sandbox, with the row open. */
    method Sandbox(ghost b: World, job: Job) returns (ok: bool, result: bool)
      requires Reached() && job.ForAttempt? && Pends(b, KeyOf(c, job)) && b.workers == map[]
      requires w == Put(b, 0, Testing(job, |b.log|))
      modifies this`w, this`events, this`replies
      ensures Reached() && old(events) <= events
      ensures var b' := b.(rows := w.rows, tested := w.tested);
              if ok then w == Put(b', 0, Checking(ForAttempt(job.attempt, job.results + [result]))) else w == b'
      ensures NoFaults(old(replies)) ==> NoFaults(replies) && ok
    {
      hide Step, WorkStep, Run, KeyOf, TreeAt;
      ghost var g := |b.log|;
      var r := Next();
      if r.fault {
        Break(b, Testing(job, g));
        return false, false;
      }
      AtTesting(c, b, 0, job, g, r.verdict);
      Do(Test(0, r.verdict, map[]));
      AtTested(c, b.(tested := w.tested), 0, job, g, r.verdict);
      Act();
      return true, r.verdict;
    }

    /** All required profiles in turn. */
    method CheckAll(ghost b: World, a: nat) returns (ok: bool, results: seq<bool>)
      requires Reached() && w == Put(b, 0, Checking(ForAttempt(a, []))) && Quiet(b) && b.run.Validate?
      modifies this`w, this`events, this`replies
      ensures Reached() && old(events) <= events
      ensures var b' := b.(rows := w.rows, tested := w.tested);
              if ok then |results| == |c.required| && w == Put(b', 0, Checking(ForAttempt(a, results))) else w == b'
      ensures NoFaults(old(replies)) ==> NoFaults(replies) && ok
    {
      hide Run;
      results := [];
      while |results| < |c.required|
        invariant Reached() && old(events) <= events && |results| <= |c.required|
        invariant w == Put(b.(rows := w.rows, tested := w.tested), 0, Checking(ForAttempt(a, results)))
        invariant NoFaults(old(replies)) ==> NoFaults(replies)
        decreases |c.required| - |results|
      {
        var result;
        ok, result := CheckNext(b.(rows := w.rows, tested := w.tested), a, results);
        if !ok { return; }
        results := results + [result];
      }
      ok := true;
    }

    /** The checkpoint, and where it takes the run. */
    method Settle(ghost b: World, a: nat, results: seq<bool>)
      requires Reached() && w == Put(b, 0, Checking(ForAttempt(a, results))) && Quiet(b) && b.run.Validate?
      requires |results| >= |c.required| && a <= c.attempts
      modifies this`w, this`events
      ensures Reached() && old(events) <= events
      ensures var w1 := b.(checkpoints := b.checkpoints[a := AllTrue(results)]);
              w == if AllTrue(results) then w1.(run := AwaitingPublishApproval)
                   else if a < c.attempts then Put(w1.(run := Implement), 0, Worker.Next(a + 1)) else w1
    {
      hide Step, WorkStep, Run, AllTrue;
      AtComplete(c, b, 0, a, results);
      Act();
      ghost var w1 := b.(checkpoints := b.checkpoints[a := AllTrue(results)]);
      EndsQuiet(w1);
      EndsQuiet(w1.(run := AwaitingPublishApproval));
      if AllTrue(results) { AtPassed(c, w1, 0, a); } else { AtFailed(c, w1, 0, a); }
      Act();
    }

    /** Where an attempt leaves the run, with nothing in progress but perhaps the next attempt. */
    ghost predicate Concluded(b: World, b': World, attempt: nat, passed: bool)
      reads this`w
    {
      && b'.checkpoints == b.checkpoints[attempt := passed] && Latest(b') == attempt
      && if passed then w == b' && w.run.AwaitingPublishApproval?
         else if attempt < c.attempts then w == Put(b', 0, Worker.Next(attempt + 1)) && b'.run.Implement?
         else w == b' && w.run.Validate?
    }

    /** From its validations to its conclusion. */
    method Judge(ghost b: World, attempt: nat) returns (ghost b': World, verdict: Option<bool>)
      requires Reached() && w == Put(b, 0, Checking(ForAttempt(attempt, []))) && Quiet(b) && b.run.Validate?
      requires attempt <= c.attempts && forall a :: a in b.checkpoints ==> a < attempt
      modifies this`w, this`events, this`replies
      ensures Reached() && old(events) <= events && Quiet(b')
      ensures verdict.None? ==> w == b' && Working(w.run) && b'.checkpoints == b.checkpoints
      ensures verdict.Some? ==> Concluded(b, b', attempt, verdict.value)
      ensures NoFaults(old(replies)) ==> NoFaults(replies) && verdict.Some?
    {
      hide Run, Step, WorkStep, Latest, AllTrue;
      var ok, results := CheckAll(b, attempt);
      b' := b.(rows := w.rows, tested := w.tested);
      if !ok { return b', None; }
      var passed := AllTrue(results);
      ghost var b1 := b';
      Settle(b1, attempt, results);
      b' := b1.(run := w.run, checkpoints := b1.checkpoints[attempt := passed]);
      SavedLast(b1, b', attempt);
      return b', Some(passed);
    }

    /** Unless time is up: to the first validation, with edits before it if the run is there. None if the call raises,
        false if time or budget is spent. */
    method Prepare(ghost b: World, attempt: nat) returns (ready: Option<bool>)
      requires Reached() && w == Put(b, 0, Worker.Next(attempt)) && Quiet(b) && Working(b.run) && attempt <= c.attempts
      modifies this`w, this`events, this`replies
      ensures Reached() && old(events) <= events
      ensures if ready.Some? && ready.value
              then w == Put(b.(run := Validate, log := w.log), 0, Checking(ForAttempt(attempt, [])))
              else w == b.(log := w.log)
      ensures NoFaults(old(replies)) ==> NoFaults(replies) && ready.Some?
    {
      hide Run, Step, WorkStep;
      var r := Next();
      if r.fault || !r.verdict {
        Break(b, Worker.Next(attempt));
        return if r.fault then None else Some(false);
      }
      AtNext(c, b, 0, attempt);
      Act();
      if w.run.Validate? { return Some(true); }
      ready := Edit(b, attempt);
    }

    /** One attempt: edits, validations, the checkpoint. */
    method Attempt(ghost b: World, attempt: nat) returns (ghost b': World, verdict: Option<bool>, spent: bool)
      requires Reached() && w == Put(b, 0, Worker.Next(attempt)) && Quiet(b) && Working(b.run) && attempt <= c.attempts
      requires forall a :: a in b.checkpoints ==> a < attempt
      modifies this`w, this`events, this`replies
      ensures Reached() && old(events) <= events && Quiet(b')
      ensures verdict.None? ==> w == b' && Working(w.run) && b'.checkpoints == b.checkpoints
      ensures verdict.Some? ==> Concluded(b, b', attempt, verdict.value) && !spent
      ensures NoFaults(old(replies)) ==> NoFaults(replies) && (verdict.Some? || spent)
    {
      hide Run, Step, WorkStep, Latest;
      var ready := Prepare(b, attempt);
      b' := b.(log := w.log);
      if ready.None? || !ready.value { return b', None, ready.Some?; }
      spent := false;
      ghost var b1 := b'.(run := Validate);
      b', verdict := Judge(b1, attempt);
    }

    /** Attempt after attempt. */
    method Rounds(ghost b: World, first: nat) returns (r: Option<bool>, spent: bool)
      requires Reached() && w == Put(b, 0, Worker.Next(first)) && Quiet(b) && Working(b.run)
      requires first == NextAttempt(b, Latest(b)) && forall a :: a in b.checkpoints ==> a < first
      modifies this`w, this`events, this`replies
      ensures Reached() && Quiet(w) && old(events) <= events
      ensures r.Some? && r.value ==>
                w.run.AwaitingPublishApproval? && w.checkpoints != map[] && w.checkpoints[Latest(w)]
      ensures r.None? || !r.value ==>
                Working(w.run) && forall a :: a in w.checkpoints && a !in b.checkpoints ==> !w.checkpoints[a]
      ensures r.Some? && !r.value ==> spent || NextAttempt(w, Latest(w)) > c.attempts
      ensures NoFaults(old(replies)) ==> NoFaults(replies) && r.Some?
    {
      hide Run, Step, WorkStep, Latest, NextAttempt;
      var attempt := first;
      ghost var b1 := b;
      while attempt <= c.attempts
        invariant Reached() && old(events) <= events && w == Put(b1, 0, Worker.Next(attempt))
        invariant Quiet(b1) && Working(b1.run) && (forall a :: a in b1.checkpoints ==> a < attempt)
        invariant forall a :: a in b1.checkpoints && a !in b.checkpoints ==> !b1.checkpoints[a]
        invariant attempt > c.attempts ==> NextAttempt(b1, Latest(b1)) > c.attempts
        invariant NoFaults(old(replies)) ==> NoFaults(replies)
        decreases c.attempts - attempt
      {
        var verdict: Option<bool>;
        ghost var b2;
        b2, verdict, spent := Attempt(b1, attempt);
        if verdict.None? { return if spent then Some(false) else None, spent; }
        assert attempt in b2.checkpoints;
        if verdict.value { return Some(true), false; }
        AfterLatest(b2, attempt);
        if attempt == c.attempts { return Some(false), false; }
        b1 := b2;
        attempt := attempt + 1;
      }
      AtNext(c, b1, 0, attempt);
      Act();
      EndsQuiet(b1);
      return Some(false), false;
    }

    /** `ImplementationValidationCoordinator.run`. It answers true exactly if an attempt's required profiles all passed,
        now or when last looked at, and the run then awaits publish approval; false if no attempt did and the budget is
        spent or no attempt is left. After false, or if the call raises, the run is still being implemented or
        validated. */
    method Coordinate() returns (r: Option<bool>, spent: bool)
      requires Reached() && Quiet(w) && (w.run.PlanReady? || Working(w.run))
      modifies this`w, this`events, this`replies
      ensures Reached() && Quiet(w) && old(events) <= events
      ensures r.Some? && r.value ==>
                w.run.AwaitingPublishApproval? && w.checkpoints != map[] && w.checkpoints[Latest(w)]
                && AttemptPassed(c, w.rows, Latest(w))
      ensures r.None? || !r.value ==>
                Working(w.run) && forall a :: a in w.checkpoints && a !in old(w).checkpoints ==>
                  !w.checkpoints[a] && !AttemptPassed(c, w.rows, a)
      ensures r.Some? && !r.value ==> spent || NextAttempt(w, Latest(w)) > c.attempts
      ensures NoFaults(old(replies)) ==> NoFaults(replies) && r.Some?
    {
      hide Run, Step, WorkStep, Latest, NextAttempt, AttemptPassed, Recorded;
      var passed := Arrive();
      if passed {
        r, spent := Some(true), false;
      } else {
        ghost var b := old(w).(run := w.run);
        var first := Count(b);
        AfterLatest(b, Latest(b));
        r, spent := Rounds(b, first);
      }
      CheckpointsMean(c, events);
    }

    /* ---- publishing ---- */

    /* The one publisher about has number 0, and `b` is the world without it. */

    /** The call's reads: whether the approval is there. */
    method Read(id: nat) returns (ok: bool)
      requires Reached() && Quiet(w) && w.run.AwaitingPublishApproval?
      modifies this`w, this`events
      ensures Reached() && old(events) <= events && (ok <==> id in old(w).approvals)
      ensures ok ==>
                w == Go(old(w), 0, HasDiff(id, old(w).approvals[id], w.clock, |w.log|, CurrentChanges(c, old(w))))
      ensures !ok ==> w == old(w)
    {
      hide Step, Run, CurrentChanges;
      ghost var b := w;
      var now := w.clock;
      AtStarted(c, b, 0, id, now);
      Do(PubStart(0));
      Do(PubRead(0, id));
      StopsQuiet(b);
      if 0 !in w.publishers { return false; }
      ghost var row := b.approvals[id];
      AtRow(c, b, 0, id, row, now);
      Do(PubState(0));
      Do(PubGeneration(0));
      AtGeneration(c, b, 0, id, row, now, |b.log|);
      Do(PubDiff(0));
      return true;
    }

    /** The comparisons: exact approval, latest checkpoint, its generations. */
    method Compare(ghost b: World, id: nat, title: string) returns (ok: bool)
      requires Reached() && b.publishers == map[] && id in b.approvals
      requires w == Go(b, 0, HasDiff(id, b.approvals[id], b.clock, |b.log|, CurrentChanges(c, b)))
      modifies this`w, this`events
      ensures Reached() && old(events) <= events
      ensures ok <==> Fits(b.approvals[id], title, b.clock, |b.log|, CurrentChanges(c, b)) && b.checkpoints != map[]
                      && b.checkpoints[Latest(b)] && PassedGenerations(b, Latest(b)) == {|b.log|}
      ensures ok ==> w == Go(Compared(b, id, b.clock), 0, Cleared(id, b.approvals[id].binding))
      ensures !ok ==> w == b.(notes := w.notes)
    {
      hide Step, Run, CurrentChanges, Latest, PassedGenerations;
      ghost var row, d := b.approvals[id], CurrentChanges(c, b);
      ghost var b1 := Compared(b, id, b.clock);
      AtDiff(c, b, 0, id, row, b.clock, |b.log|, d, title);
      Do(PubExact(0, title));
      StopsQuiet(b);
      if 0 !in w.publishers { return false; }
      SameTables(b, b1);
      StopsQuiet(b1);
      AtExact(c, b1, 0, id, row.binding);
      Do(PubCheckpoint(0));
      if 0 !in w.publishers { return false; }
      AtGenerations(c, b1, 0, id, row.binding, Latest(b));
      Do(PubGenerations(0));
      return 0 in w.publishers;
    }

    /** Give the publication up: the call raises. */
    method StopPublishing(ghost b: World, ghost p: Publisher)
      requires Reached() && w == Go(b, 0, p) && b.publishers == map[]
      modifies this`w, this`events
      ensures Reached() && old(events) <= events && w == b
    {
      hide Step, Run;
      IsHand(c, w, PubCrash(0));
      Replaced(b, 0, p, p);
      StopsQuiet(b);
      Do(PubCrash(0));
    }

    /** The intent transaction. */
    method Intend(ghost b: World, ghost id: nat, ghost binding: Binding) returns (ok: bool)
      requires Reached() && w == Go(b, 0, Cleared(id, binding)) && b.publishers == map[]
      requires id in b.approvals && b.approvals[id].status == Approved && b.run.AwaitingPublishApproval?
      modifies this`w, this`events
      ensures Reached() && old(events) <= events && (ok <==> b.outbox.None?)
      ensures ok ==> w == Go(Consuming(b, id, binding), 0, Intended(id, binding))
      ensures !ok ==> w == b
    {
      hide Step, Run;
      AtCleared(c, b, 0, id, binding);
      Do(PubIntent(0));
      StopsQuiet(b);
      return 0 in w.publishers;
    }

    /** Load the files, hand them to the remote, record its answer. */
    method HandOver(ghost b: World, ghost id: nat, ghost binding: Binding) returns (ok: bool)
      requires Reached() && w == Go(b, 0, Intended(id, binding)) && b.publishers == map[]
      requires b.run.Publish? && b.outbox.Some?
      modifies this`w, this`events, this`replies
      ensures Reached() && old(events) <= events
      ensures w == b.(run := w.run, outbox := w.outbox, handed := w.handed)
      ensures ok ==> w.run.Report? && w.outbox == Some(b.outbox.value.(sent := true))
                     && w.handed == b.handed + [Handoff(id, binding.title, CurrentChanges(c, b))]
      ensures !ok ==> w.run.Publish? && w.outbox == b.outbox
      ensures NoFaults(old(replies)) ==> NoFaults(replies) && ok
    {
      hide Step, Run, CurrentChanges;
      ghost var files := CurrentChanges(c, b);
      AtIntended(c, b, 0, id, binding);
      Do(PubLoad(0));
      var r := Next();
      if r.fault {
        StopPublishing(b, Loaded(id, binding, files));
        return false;
      }
      AtLoaded(c, b, 0, id, binding, files);
      Do(PubHand(0));
      ghost var b1 := b.(handed := b.handed + [Handoff(id, binding.title, files)]);
      r := Next();
      if r.fault {
        StopPublishing(b1, Sent(id));
        return false;
      }
      AtSent(c, b1, 0, id);
      StopsQuiet(b1.(outbox := Some(b1.outbox.value.(sent := true)), run := Report));
      Do(PubDone(0));
      return true;
    }

    /** `_publish`. If it returns, the run is in REPORT, the outbox says so, and the changes of the current generation
        were handed over; if it raises, the run still awaits approval, untouched, or has an intent to resume. Where
        nothing fails from outside, it returns exactly if there is nothing to refuse. */
    method PublishRun(id: nat, title: string) returns (raised: bool)
      requires Reached() && Quiet(w) && w.run.AwaitingPublishApproval?
      modifies this`w, this`events, this`replies
      ensures Reached() && Quiet(w) && old(events) <= events
      ensures !raised ==>
                w.run.Report? && w.outbox.Some? && w.outbox.value.sent && Publishable(c, old(w), id, title)
                && w.handed == old(w).handed + [Handoff(id, title, CurrentChanges(c, old(w)))]
      ensures raised ==> w == old(w).(notes := w.notes) || (w.run.Publish? && Publishable(c, old(w), id, title))
      ensures NoFaults(old(replies)) ==>
                NoFaults(replies) && (!raised <==> Publishable(c, old(w), id, title))
                && (raised ==> w == old(w).(notes := w.notes))
    {
      hide Step, Run, CurrentChanges, Latest, PassedGenerations;
      ghost var b := w;
      var ok := Read(id);
      if !ok { return true; }
      ok := Compare(b, id, title);
      if !ok { return true; }
      ghost var b1, binding := Compared(b, id, b.clock), b.approvals[id].binding;
      var r := Next();
      if r.fault {
        StopPublishing(b1, Cleared(id, binding));
        return true;
      }
      ok := Intend(b1, id, binding);
      if !ok { return true; }
      SameChanges(c, b, Consuming(b1, id, binding));
      ok := HandOver(Consuming(b1, id, binding), id, binding);
      return !ok;
    }

    /** A resumption's reads of the run, its outbox and its approval. */
    method Reread() returns (ok: bool)
      requires Reached() && Quiet(w) && w.run.Publish? && w.outbox.Some? && !w.outbox.value.sent
      modifies this`w, this`events
      ensures Reached() && old(events) <= events
      ensures var id := old(w).outbox.value.approval;
              && (ok <==> Has(old(w), id, Consumed))
              && w == if ok then Go(old(w), 0, Resuming(id, old(w).approvals[id].binding)) else old(w)
    {
      hide Step, Run;
      ghost var b := w;
      AtAsked(c, b, 0);
      Do(ResumeState(0));
      Do(ResumeOutbox(0));
      AtOutbox(c, b, 0, b.outbox.value.approval);
      Do(ResumeApproval(0));
      StopsQuiet(b);
      return 0 in w.publishers;
    }

    /** `_resume`. Its answer from the outbox is never given in PUBLISH, because a publication that was recorded as sent
        has moved on: where it returns, the run is in REPORT. Where nothing fails from outside, it returns from PUBLISH
        exactly if the approval is still consumed and the generation still the approved one. */
    method ResumeRun() returns (raised: bool)
      requires Reached() && Quiet(w) && (w.run.Publish? || w.run.Report?)
      modifies this`w, this`events, this`replies
      ensures Reached() && Quiet(w) && old(events) <= events
      ensures !raised ==> w.run.Report? && w.outbox.Some? && w.outbox.value.sent
      ensures raised ==> w == old(w).(handed := w.handed)
      ensures NoFaults(old(replies)) ==> NoFaults(replies)
      ensures NoFaults(old(replies)) && old(w).run.Publish? ==> (!raised <==> Resumes(c, old(w)))
      ensures NoFaults(old(replies)) && raised ==> w == old(w)
    {
      hide Step, Run, Named;
      IntentIsThere(c, events);
      if w.outbox.Some? && w.outbox.value.sent { return false; }
      if !w.run.Publish? { return true; }
      ghost var b := w;
      ghost var id, binding := b.outbox.value.approval, b.outbox.value.binding;
      var ok := Reread();
      if !ok { return true; }
      var r := Next();
      if r.fault {
        StopPublishing(b, Resuming(id, binding));
        return true;
      }
      AtResuming(c, b, 0, id, binding);
      Do(ResumeCheck(0));
      StopsQuiet(b);
      if 0 !in w.publishers { return true; }
      ok := HandOver(b, id, binding);
      return !ok;
    }

    /** `report`, whose comment and transition are in `JiraComment` and `JiraTransition`: they may fail; the move to
        SUCCEEDED is last. */
    method ReportRun() returns (raised: bool)
      requires Reached() && Quiet(w) && w.run.Report?
      modifies this`w, this`events, this`replies
      ensures Reached() && Quiet(w) && old(events) <= events
      ensures w.run == if raised then old(w).run else Succeeded
      ensures NoFaults(old(replies)) ==> NoFaults(replies) && !raised
    {
      var r := Next();
      if r.fault { return true; }
      Do(Finish);
      return false;
    }

    /* ---- the driver ---- */

    /** `advance`, from any world a run reaches. Every pass but the last raises the run's rank, so six passes end every
        call: the default bound of sixteen is never met, nor any of six or more. What is returned is a terminal state
        or a named reason to wait; and the world is again one that a run reaches. Where nothing fails from outside, the
        call raises only when publication or its resumption has something to refuse. */
    method Advance(approval: Option<nat>, title: Option<string>, transition: bool, requireTransition: bool)
      returns (o: Outcome, steps: nat)
      requires Reached() && Quiet(w)
      modifies this`w, this`events, this`replies
      ensures Reached() && Quiet(w) && old(events) <= events && steps <= 6
      ensures o == StepLimit ==> maxSteps < 6 && steps == maxSteps
      ensures o.Returned? ==> o.state == w.run
      ensures o.Returned? && !o.awaitingPublication && !o.awaitingTransition && !o.exhausted ==> Terminal(w.run)
      ensures o.Returned? && o.awaitingPublication ==>
                w.run.AwaitingPublishApproval? && (approval.None? || title.None?) && !o.published
      ensures o.Returned? && o.awaitingTransition ==> w.run.Report? && requireTransition && !transition
      ensures o.Returned? && o.exhausted ==> Working(w.run)
      ensures o.Returned? && o.reported ==> w.run.Succeeded?
      ensures o.Returned? && o.published ==> w.run.Report? || w.run.Succeeded?
      ensures NoFaults(old(replies)) && o == Failure ==>
                if w.run.Publish? then !Resumes(c, w)
                else w.run.AwaitingPublishApproval? && approval.Some? && title.Some?
                     && !Publishable(c, w, approval.value, title.value)
    {
      hide Run;
      var plan, published, report := false, false, false;
      steps := 0;
      while steps < maxSteps
        invariant Reached() && Quiet(w) && old(events) <= events && steps <= Passes(w.run) && steps <= maxSteps
        invariant report ==> w.run.Succeeded?
        invariant published ==> w.run.Report? || w.run.Succeeded?
        invariant NoFaults(old(replies)) ==> NoFaults(replies)
        decreases maxSteps - steps
      {
        steps := steps + 1;
        var raised := false;
        if Terminal(w.run) {
          return Returned(w.run, plan, published, report, false, false, false), steps;
        } else if w.run.New? {
          raised := Intake();
        } else if w.run.Intake? || w.run.Analyze? {
          raised := PlanRun();
          plan := true;
        } else if w.run.PlanReady? || Working(w.run) {
          var passed, spent := Coordinate();
          if passed.Some? && !passed.value {
            return Returned(w.run, plan, false, false, false, false, true), steps;
          }
          raised := passed.None?;
        } else if w.run.AwaitingPublishApproval? {
          if approval.None? || title.None? {
            return Returned(w.run, plan, false, false, true, false, false), steps;
          }
          raised := PublishRun(approval.value, title.value);
          published := true;
        } else if w.run.Publish? {
          raised := ResumeRun();
          published := true;
        } else {
          if requireTransition && !transition {
            return Returned(w.run, plan, published, false, false, true, false), steps;
          }
          raised := ReportRun();
          report := true;
        }
        if raised { return Failure, steps; }
      }
      o := StepLimit;
    }
  }

  /** How many passes can lie behind a run that a call finds in this state. */
  function Passes(s: RunState): (n: nat)
    ensures n <= 5
  {
    if s.New? then 0
    else if s.Intake? || s.Analyze? then 1
    else if s.PlanReady? || s.Implement? || s.Validate? then 2
    else if s.AwaitingPublishApproval? || s.Publish? then 3
    else if s.Report? then 4
    else 5
  }

  lemma {:induction false} EntersAt(c: Config, w: World, u: nat)
    requires u !in w.workers
    ensures Step(c, w, Enter(u)) == Put(w, u, Entered)
  {
  }

  lemma {:induction false} LeavesAt(c: Config, w: World, u: nat)
    ensures Step(c, w, Leave(u)) == End(w, u)
  {
  }

  lemma {:induction false} WritesAt(c: Config, w: World, e: Event)
    requires e.WriteLook? || e.WriteCommit?
    ensures Step(c, w, e) == WriteStep(c, w, e)
    ensures e.WriteLook? ==> WriteStep(c, w, e).log == w.log
    ensures e.WriteCommit? && w.writer.Some? ==> WriteStep(c, w, e).writer.None?
  {
  }

  lemma EndsQuiet(w: World)
    requires w.workers == map[]
    ensures End(w, 0) == w
  {
    assert w.workers - {0} == map[];
  }

  lemma LastMeans(w: World)
    ensures Last(w).Some? ==> w.checkpoints != map[] && Last(w).value.passed == w.checkpoints[Latest(w)]
  {
  }

  lemma {:induction false} SavedLast(w: World, w': World, a: nat)
    requires w'.checkpoints.Keys == w.checkpoints.Keys + {a} && forall x :: x in w.checkpoints ==> x < a
    ensures Latest(w') == a && w'.checkpoints != map[]
  {
  }

  lemma {:induction false} AfterLatest(w: World, n: nat)
    requires n == Latest(w)
    ensures NextAttempt(w, n) > n && forall a :: a in w.checkpoints ==> a <= n
  {
  }

  /** Whatever led here, a checkpoint says what its attempt's rows say. */
  lemma {:induction false} CheckpointsMean(c: Config, events: seq<Event>)
    ensures var w := Run(c, Start(), events);
            && (forall a :: a in w.checkpoints ==> (w.checkpoints[a] <==> AttemptPassed(c, w.rows, a)))
            && (w.checkpoints != map[] ==> Latest(w) in w.checkpoints)
  {
    hide Run, Step, LogOk, NotesOk, OutboxOk, CallsOk, AttemptPassed, Latest;
    StartHolds(c);
    RunKeeps(c, Start(), events);
    LatestIsKey(Run(c, Start(), events));
  }

  lemma StopsQuiet(w: World)
    requires w.publishers == map[]
    ensures Stop(w, 0) == w
  {
    assert w.publishers - {0} == map[];
  }

  lemma {:induction false} SameTables(w: World, w': World)
    requires w'.rows == w.rows && w'.checkpoints == w.checkpoints
    ensures Latest(w') == Latest(w) && PassedGenerations(w', Latest(w)) == PassedGenerations(w, Latest(w))
  {
  }

  lemma SameChanges(c: Config, w: World, w': World)
    requires w'.log == w.log
    ensures CurrentChanges(c, w') == CurrentChanges(c, w)
  {
  }

  /** In PUBLISH there is an unsent intent with its approval beside it; in REPORT a sent one. */
  lemma {:induction false} IntentIsThere(c: Config, events: seq<Event>)
    ensures var w := Run(c, Start(), events);
            && (w.run.Publish? || w.run.Report? ==>
                  w.outbox.Some? && Stored(w, w.outbox.value.approval, w.outbox.value.binding))
            && (w.run.Publish? ==> !w.outbox.value.sent)
  {
    hide Run, Step, LogOk, RowsOk, NotesOk, CallsOk, Backed;
    StartHolds(c);
    RunKeeps(c, Start(), events);
    SentHasMovedOn(c, events);
  }

  /** As long as no mutation came late, nothing but its approval's status can keep an intent from being resumed. */
  lemma {:induction false} Resumable(c: Config, events: seq<Event>)
    requires Prompt(c, Start(), events) && Run(c, Start(), events).run.Publish?
    ensures var w := Run(c, Start(), events);
            w.outbox.Some? && (Resumes(c, w) <==> Has(w, w.outbox.value.approval, Consumed))
  {
    hide Run, Step, Inv, BoundBy, Prompt, Named;
    StartHolds(c);
    StartBound(c);
    RunBinds(c, Start(), events);
    IntentIsThere(c, events);
  }
}
