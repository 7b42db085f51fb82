/** What one step of a coordinator, a validation or a publication does at each place of its call, with nobody in
    between. */
module LifecycleSteps {
  import opened Text
  import opened Patch
  import opened Mutations
  import opened RunStates
  import opened Lifecycle
  import opened LifecyclePublished

  lemma {:induction false} OneStep(c: Config, w: World, e: Event)
    ensures Run(c, w, [e]) == Step(c, w, e)
  {
    assert [e][1..] == [];
  }

  lemma {:induction false} IsWorkStep(c: Config, w: World, u: nat)
    ensures Step(c, w, Work(u)) == WorkStep(c, w, u)
  {
    hide WorkStep;
  }

  lemma {:induction false} Again(w: World, u: nat, p: Worker, q: Worker)
    ensures Put(Put(w, u, p), u, q) == Put(w, u, q) && End(Put(w, u, p), u) == End(w, u)
    ensures u in w.workers && w.workers[u] == p ==> Put(w, u, p) == w
  {
  }

  lemma {:induction false} AtLeaving(c: Config, w: World, u: nat)
    requires CanMove(w.run, Implement)
    ensures WorkStep(c, Put(w, u, Leaving(Implement)), u) == Put(w.(run := Implement), u, Counting)
  {
    Again(w.(run := Implement), u, Leaving(Implement), Counting);
  }

  lemma {:induction false} AtLeavingDone(c: Config, w: World, u: nat)
    requires w.run == Validate
    ensures WorkStep(c, Put(w, u, Leaving(AwaitingPublishApproval)), u) == End(w.(run := AwaitingPublishApproval), u)
  {
    Again(w.(run := AwaitingPublishApproval), u, Leaving(AwaitingPublishApproval), Counting);
  }

  lemma {:induction false} AtCounting(c: Config, w: World, u: nat)
    ensures WorkStep(c, Put(w, u, Counting), u) == Put(w, u, Counted(Latest(w)))
  {
    Again(w, u, Counting, Counted(Latest(w)));
  }

  lemma {:induction false} AtCounted(c: Config, w: World, u: nat, n: nat)
    ensures WorkStep(c, Put(w, u, Counted(n)), u) == Put(w, u, Next(NextAttempt(w, n)))
  {
    hide PendingAttempts;
    PendingIs(w, u, Counted(n));
    Again(w, u, Counted(n), Next(NextAttempt(w, n)));
  }

  lemma {:induction false} AtNext(c: Config, w: World, u: nat, a: nat)
    requires w.run == Implement || w.run == Validate
    ensures WorkStep(c, Put(w, u, Next(a)), u) ==
            if a > c.attempts then End(w, u)
            else Put(w, u, if w.run == Implement then Editing(a) else Checking(ForAttempt(a, [])))
  {
    Again(w, u, Next(a), Editing(a));
    Again(w, u, Next(a), Checking(ForAttempt(a, [])));
  }

  lemma {:induction false} AtEditing(c: Config, w: World, u: nat, a: nat)
    requires w.run == Implement
    ensures WorkStep(c, Put(w, u, Editing(a)), u) == Put(w.(run := Validate), u, Checking(ForAttempt(a, [])))
  {
    Again(w.(run := Validate), u, Editing(a), Checking(ForAttempt(a, [])));
  }

  lemma {:induction false} AtChecking(c: Config, w: World, u: nat, job: Job)
    requires w.run == Validate && !Complete(c, job)
    ensures WorkStep(c, Put(w, u, Checking(job)), u) == Put(w, u, Staged(job))
    ensures WorkStep(c, Put(w, u, Staged(job)), u) == Put(w, u, Located(job, |w.log|))
  {
    hide KeyOf;
    Again(w, u, Checking(job), Staged(job));
    Again(w, u, Staged(job), Located(job, |w.log|));
  }

  lemma {:induction false} AtLocated(c: Config, w: World, u: nat, job: Job, g: nat)
    ensures WorkStep(c, Put(w, u, Located(job, g)), u) ==
            if Finished(w, KeyOf(c, job)) then Onward(w, u, job, w.rows[KeyOf(c, job)].verdict == Pass)
            else Put(w, u, Missed(job, g))
  {
    hide KeyOf;
    Again(w, u, Located(job, g), Missed(job, g));
    if job.ForAttempt? && Finished(w, KeyOf(c, job)) {
      var ok := w.rows[KeyOf(c, job)].verdict == Pass;
      Again(w, u, Located(job, g), Checking(ForAttempt(job.attempt, job.results + [ok])));
    }
  }

  lemma {:induction false} AtMissed(c: Config, w: World, u: nat, job: Job, g: nat)
    ensures var k := KeyOf(c, job);
            WorkStep(c, Put(w, u, Missed(job, g)), u) ==
            Put(w.(rows := if k in w.rows then w.rows else w.rows[k := Row(g, Pending)]), u, Testing(job, g))
  {
    hide KeyOf;
    var k := KeyOf(c, job);
    Again(w.(rows := if k in w.rows then w.rows else w.rows[k := Row(g, Pending)]), u, Missed(job, g), Testing(job, g));
  }

  lemma {:induction false} AtTesting(c: Config, w: World, u: nat, job: Job, g: nat, ok: bool)
    requires g == 0 || g == |w.log|
    ensures Step(c, Put(w, u, Testing(job, g)), Test(u, ok, map[])) ==
            Put(w.(tested := if ok then w.tested + {(KeyOf(c, job).profile, TreeAt(c, w.log, g))} else w.tested),
                u, Tested(job, g, ok))
  {
    hide KeyOf, TreeAt, WriteStep, OthersStep, SignStep, PubStep, WorkStep;
    Again(w.(tested := if ok then w.tested + {(KeyOf(c, job).profile, TreeAt(c, w.log, g))} else w.tested), u,
          Testing(job, g), Tested(job, g, ok));
  }

  /** In any other state the call ends. */
  lemma {:induction false} AtCheckingElsewhere(c: Config, w: World, u: nat, job: Job)
    requires w.run != Validate && !Complete(c, job)
    ensures WorkStep(c, Put(w, u, Checking(job)), u) == End(w, u)
  {
    hide KeyOf;
    Again(w, u, Checking(job), Staged(job));
  }

  /** A generation on its way out may hold anything by now: what is tested then is what was copied. */
  lemma {:induction false} AtTestingOld(c: Config, w: World, u: nat, job: Job, g: nat, ok: bool, seen: Tree)
    requires g != 0 && g != |w.log|
    ensures Step(c, Put(w, u, Testing(job, g)), Test(u, ok, seen)) ==
            Put(w.(tested := if ok then w.tested + {(KeyOf(c, job).profile, seen)} else w.tested), u,
                Tested(job, g, ok))
  {
    hide KeyOf, TreeAt, WriteStep, OthersStep, SignStep, PubStep, WorkStep;
    Again(w.(tested := if ok then w.tested + {(KeyOf(c, job).profile, seen)} else w.tested), u, Testing(job, g),
          Tested(job, g, ok));
  }

  lemma {:induction false} AtTested(c: Config, w: World, u: nat, job: Job, g: nat, ok: bool)
    ensures var k := KeyOf(c, job);
            WorkStep(c, Put(w, u, Tested(job, g, ok)), u) ==
            if Pends(w, k)
            then Onward(w.(rows := w.rows[k := w.rows[k].(verdict := if ok then Pass else Fail)]), u, job, ok)
            else End(w, u)
  {
    hide KeyOf;
    var k := KeyOf(c, job);
    Again(w, u, Tested(job, g, ok), Entered);
    if Pends(w, k) {
      var w1 := w.(rows := w.rows[k := w.rows[k].(verdict := if ok then Pass else Fail)]);
      Again(w1, u, Tested(job, g, ok),
            if job.ForAttempt? then Checking(ForAttempt(job.attempt, job.results + [ok])) else Entered);
    }
  }

  lemma {:induction false} AtComplete(c: Config, w: World, u: nat, a: nat, results: seq<bool>)
    requires |results| >= |c.required|
    ensures WorkStep(c, Put(w, u, Checking(ForAttempt(a, results))), u) ==
            Put(w.(checkpoints := w.checkpoints[a := AllTrue(results)]), u, Saved(a, AllTrue(results)))
  {
    hide AllTrue;
    Again(w.(checkpoints := w.checkpoints[a := AllTrue(results)]), u, Checking(ForAttempt(a, results)),
          Saved(a, AllTrue(results)));
  }

  lemma {:induction false} AtPassed(c: Config, w: World, u: nat, a: nat)
    requires w.run == Validate
    ensures WorkStep(c, Put(w, u, Saved(a, true)), u) == End(w.(run := AwaitingPublishApproval), u)
  {
    Again(w.(run := AwaitingPublishApproval), u, Saved(a, true), Entered);
  }

  lemma {:induction false} AtFailed(c: Config, w: World, u: nat, a: nat)
    requires w.run == Validate
    ensures WorkStep(c, Put(w, u, Saved(a, false)), u) ==
            if a < c.attempts then Put(w.(run := Implement), u, Next(a + 1)) else End(w, u)
  {
    if a < c.attempts {
      Again(w.(run := Implement), u, Saved(a, false), Next(a + 1));
    } else {
      Again(w, u, Saved(a, false), Entered);
    }
  }

  lemma {:induction false} AtEntered(c: Config, w: World, u: nat)
    ensures WorkStep(c, Put(w, u, Entered), u) == Put(w, u, if w.run == PlanReady then Leaving(Implement) else NotReady)
    ensures WorkStep(c, Put(w, u, NotReady), u) == Put(w, u, if w.run == Validate then AtValidate else Counting)
  {
    Again(w, u, Entered, if w.run == PlanReady then Leaving(Implement) else NotReady);
    Again(w, u, NotReady, if w.run == Validate then AtValidate else Counting);
  }

  lemma {:induction false} AtCheckpoint(c: Config, w: World, u: nat)
    ensures WorkStep(c, Put(w, u, AtValidate), u) == Put(w, u, HasLast(Last(w)))
  {
    hide Last;
    assert Last(Put(w, u, AtValidate)) == Last(w) by { LastIs(w, u); }
    Again(w, u, AtValidate, HasLast(Last(w)));
  }

  lemma LastIs(w: World, u: nat)
    ensures Last(Put(w, u, AtValidate)) == Last(w)
  {
  }

  lemma {:induction false} AtLast(c: Config, w: World, u: nat, last: Option<Checkpoint>)
    ensures WorkStep(c, Put(w, u, HasLast(last)), u) ==
            Put(w, u, if last.None? || PendingAttempts(w) != {} then Counting
                      else Leaving(if last.value.passed then AwaitingPublishApproval else Implement))
  {
    hide PendingAttempts;
    assert PendingAttempts(Put(w, u, HasLast(last))) == PendingAttempts(w) by { PendingIs(w, u, HasLast(last)); }
    Again(w, u, HasLast(last), Counting);
    if last.Some? {
      Again(w, u, HasLast(last), Leaving(if last.value.passed then AwaitingPublishApproval else Implement));
    }
  }

  lemma PendingIs(w: World, u: nat, p: Worker)
    ensures PendingAttempts(Put(w, u, p)) == PendingAttempts(w)
  {
  }

  /** An open attempt beyond the last checkpoint read is taken up, the highest if there are more; otherwise it is the
      next. */
  lemma NextAttemptIs(w: World, latest: nat)
    ensures var n := NextAttempt(w, latest);
            if forall k :: k in w.rows && w.rows[k].verdict == Pending ==> k.attempt <= latest then n == latest + 1
            else
              && n > latest
              && (exists k :: k in w.rows && w.rows[k].verdict == Pending && k.attempt == n)
              && forall k :: k in w.rows && w.rows[k].verdict == Pending ==> k.attempt <= n
  {
    assert forall k :: k in w.rows && w.rows[k].verdict == Pending ==> k.attempt in PendingAttempts(w);
  }

  /* ---- publications ---- */

  lemma {:induction false} Replaced(w: World, u: nat, p: Publisher, q: Publisher)
    ensures Go(Go(w, u, p), u, q) == Go(w, u, q) && Stop(Go(w, u, p), u) == Stop(w, u)
    ensures u in w.publishers && w.publishers[u] == p ==> Go(w, u, p) == w
  {
  }

  lemma {:induction false} IsRead(c: Config, w: World, e: Event)
    ensures e.PubStart? || e.PubRead? || e.PubState? || e.PubGeneration? || e.PubDiff? ==>
              Step(c, w, e) == PubReadStep(c, w, e)
  {
    hide PubReadStep, ResumeStep, Carries;
  }

  lemma {:induction false} IsResume(c: Config, w: World, e: Event)
    ensures e.ResumeState? || e.ResumeOutbox? || e.ResumeApproval? || e.ResumeCheck? ==>
              Step(c, w, e) == ResumeStep(c, w, e)
  {
    hide PubReadStep, ResumeStep, Carries;
  }

  lemma {:induction false} IsCheck(c: Config, w: World, e: Event)
    ensures e.PubExact? ==> Step(c, w, e) == PubExactStep(w, e.u, e.title)
    ensures e.PubCheckpoint? ==> Step(c, w, e) == PubCheckpointStep(w, e.u)
    ensures e.PubGenerations? ==> Step(c, w, e) == PubGenerationsStep(w, e.u)
    ensures e.PubIntent? ==> Step(c, w, e) == PubIntentStep(w, e.u)
  {
    hide PubExactStep, PubCheckpointStep, PubGenerationsStep, PubIntentStep, Carries;
  }

  lemma {:induction false} IsHand(c: Config, w: World, e: Event)
    ensures e.PubLoad? ==> Step(c, w, e) == PubLoadStep(c, w, e.u)
    ensures e.PubHand? ==> Step(c, w, e) == PubHandStep(w, e.u)
    ensures e.PubDone? ==> Step(c, w, e) == PubDoneStep(w, e.u)
    ensures e.PubCrash? ==> Step(c, w, e) == Stop(w, e.u)
  {
    hide PubLoadStep, PubHandStep, PubDoneStep, Carries;
  }

  lemma {:induction false} AtStarted(c: Config, w: World, u: nat, id: nat, now: nat)
    ensures Step(c, w, PubStart(u)) == Go(w, u, Started(w.clock))
    ensures Step(c, Go(w, u, Started(now)), PubRead(u, id)) ==
            if id in w.approvals then Go(w, u, HasRow(id, w.approvals[id], now)) else Stop(w, u)
  {
    IsRead(c, w, PubStart(u));
    IsRead(c, Go(w, u, Started(now)), PubRead(u, id));
    hide Step;
    Replaced(w, u, Started(now), Started(now));
    if id in w.approvals { Replaced(w, u, Started(now), HasRow(id, w.approvals[id], now)); }
  }

  lemma {:induction false} AtRow(c: Config, w: World, u: nat, id: nat, row: Approval, now: nat)
    ensures Step(c, Go(w, u, HasRow(id, row, now)), PubState(u)) ==
            if w.run == AwaitingPublishApproval then Go(w, u, InState(id, row, now)) else Stop(w, u)
    ensures Step(c, Go(w, u, InState(id, row, now)), PubGeneration(u)) == Go(w, u, HasGeneration(id, row, now, |w.log|))
  {
    IsRead(c, Go(w, u, HasRow(id, row, now)), PubState(u));
    IsRead(c, Go(w, u, InState(id, row, now)), PubGeneration(u));
    hide Step;
    Replaced(w, u, HasRow(id, row, now), InState(id, row, now));
    Replaced(w, u, InState(id, row, now), HasGeneration(id, row, now, |w.log|));
  }

  lemma {:induction false} AtGeneration(c: Config, w: World, u: nat, id: nat, row: Approval, now: nat, g: nat)
    ensures Step(c, Go(w, u, HasGeneration(id, row, now, g)), PubDiff(u)) ==
            Go(w, u, HasDiff(id, row, now, g, CurrentChanges(c, w)))
  {
    IsRead(c, Go(w, u, HasGeneration(id, row, now, g)), PubDiff(u));
    hide Step, TreeAt, ChangesOf;
    Replaced(w, u, HasGeneration(id, row, now, g), HasDiff(id, row, now, g, CurrentChanges(c, w)));
  }

  /** The row read when the call began is approved, in time, and exactly what would be published. */
  predicate Fits(row: Approval, title: string, now: nat, g: nat, d: Changes) {
    && row.status == Approved && now < row.binding.expires
    && row.binding == Binding(g, d, title, row.binding.approver, row.binding.expires)
  }

  function Compared(w: World, id: nat, now: nat): World {
    w.(notes := w.notes.(compared := w.notes.compared[id := now]))
  }

  lemma {:induction false} AtDiff(c: Config, w: World, u: nat, id: nat, row: Approval, now: nat, g: nat, d: Changes,
                                  title: string)
    ensures Step(c, Go(w, u, HasDiff(id, row, now, g, d)), PubExact(u, title)) ==
            if Fits(row, title, now, g, d) then Go(Compared(w, id, now), u, Exact(id, row.binding)) else Stop(w, u)
  {
    IsCheck(c, Go(w, u, HasDiff(id, row, now, g, d)), PubExact(u, title));
    hide Step;
    Replaced(w, u, HasDiff(id, row, now, g, d), Started(now));
    Replaced(Compared(w, id, now), u, HasDiff(id, row, now, g, d), Exact(id, row.binding));
  }

  lemma {:induction false} AtExact(c: Config, w: World, u: nat, id: nat, b: Binding)
    ensures Step(c, Go(w, u, Exact(id, b)), PubCheckpoint(u)) ==
            if w.checkpoints != map[] && w.checkpoints[Latest(w)] then Go(w, u, HasCheckpoint(id, b, Latest(w)))
            else Stop(w, u)
  {
    IsCheck(c, Go(w, u, Exact(id, b)), PubCheckpoint(u));
    hide Step;
    Replaced(w, u, Exact(id, b), HasCheckpoint(id, b, Latest(w)));
  }

  lemma {:induction false} AtGenerations(c: Config, w: World, u: nat, id: nat, b: Binding, a: nat)
    ensures Step(c, Go(w, u, HasCheckpoint(id, b, a)), PubGenerations(u)) ==
            if PassedGenerations(w, a) == {b.generation} then Go(w, u, Cleared(id, b)) else Stop(w, u)
  {
    IsCheck(c, Go(w, u, HasCheckpoint(id, b, a)), PubGenerations(u));
    hide Step;
    Replaced(w, u, HasCheckpoint(id, b, a), Cleared(id, b));
    assert PassedGenerations(Go(w, u, HasCheckpoint(id, b, a)), a) == PassedGenerations(w, a);
  }

  function Consuming(w: World, id: nat, b: Binding): World
    requires id in w.approvals
  {
    w.(approvals := w.approvals[id := w.approvals[id].(status := Consumed)], outbox := Some(Outbox(id, b, false)),
       run := Publish)
  }

  lemma {:induction false} AtCleared(c: Config, w: World, u: nat, id: nat, b: Binding)
    ensures Step(c, Go(w, u, Cleared(id, b)), PubIntent(u)) ==
            if id in w.approvals && w.approvals[id].status == Approved && w.outbox.None?
               && w.run == AwaitingPublishApproval
            then Go(Consuming(w, id, b), u, Intended(id, b)) else Stop(w, u)
  {
    IsCheck(c, Go(w, u, Cleared(id, b)), PubIntent(u));
    hide Step;
    Replaced(w, u, Cleared(id, b), Asked);
    if id in w.approvals { Replaced(Consuming(w, id, b), u, Cleared(id, b), Intended(id, b)); }
  }

  lemma {:induction false} AtAsked(c: Config, w: World, u: nat)
    ensures Step(c, w, ResumeState(u)) == if w.run == Publish then Go(w, u, Asked) else Stop(w, u)
    ensures Step(c, Go(w, u, Asked), ResumeOutbox(u)) ==
            if w.outbox.Some? && !w.outbox.value.sent then Go(w, u, HasOutbox(w.outbox.value.approval)) else Stop(w, u)
  {
    IsResume(c, w, ResumeState(u));
    IsResume(c, Go(w, u, Asked), ResumeOutbox(u));
    hide Step;
    Replaced(w, u, Asked, Asked);
    if w.outbox.Some? { Replaced(w, u, Asked, HasOutbox(w.outbox.value.approval)); }
  }

  lemma {:induction false} AtOutbox(c: Config, w: World, u: nat, id: nat)
    ensures Step(c, Go(w, u, HasOutbox(id)), ResumeApproval(u)) ==
            if id in w.approvals && w.approvals[id].status == Consumed
            then Go(w, u, Resuming(id, w.approvals[id].binding))
            else Stop(w, u)
  {
    IsResume(c, Go(w, u, HasOutbox(id)), ResumeApproval(u));
    hide Step;
    Replaced(w, u, HasOutbox(id), Asked);
    if id in w.approvals { Replaced(w, u, HasOutbox(id), Resuming(id, w.approvals[id].binding)); }
  }

  lemma {:induction false} AtResuming(c: Config, w: World, u: nat, id: nat, b: Binding)
    ensures Step(c, Go(w, u, Resuming(id, b)), ResumeCheck(u)) ==
            if Named(c, w, b) then Go(w, u, Intended(id, b)) else Stop(w, u)
  {
    IsResume(c, Go(w, u, Resuming(id, b)), ResumeCheck(u));
    hide Step, TreeAt, ChangesOf;
    Replaced(w, u, Resuming(id, b), Intended(id, b));
  }

  lemma {:induction false} AtIntended(c: Config, w: World, u: nat, id: nat, b: Binding)
    ensures Step(c, Go(w, u, Intended(id, b)), PubLoad(u)) == Go(w, u, Loaded(id, b, CurrentChanges(c, w)))
  {
    IsHand(c, Go(w, u, Intended(id, b)), PubLoad(u));
    hide Step, TreeAt, ChangesOf;
    Replaced(w, u, Intended(id, b), Loaded(id, b, CurrentChanges(c, w)));
  }

  lemma {:induction false} AtLoaded(c: Config, w: World, u: nat, id: nat, b: Binding, files: Changes)
    ensures Step(c, Go(w, u, Loaded(id, b, files)), PubHand(u)) ==
            Go(w.(handed := w.handed + [Handoff(id, b.title, files)]), u, Sent(id))
  {
    IsHand(c, Go(w, u, Loaded(id, b, files)), PubHand(u));
    hide Step;
    Replaced(w.(handed := w.handed + [Handoff(id, b.title, files)]), u, Loaded(id, b, files), Sent(id));
  }

  lemma {:induction false} AtSent(c: Config, w: World, u: nat, id: nat)
    requires w.outbox.Some?
    ensures Step(c, Go(w, u, Sent(id)), PubDone(u)) ==
            Stop(w.(outbox := Some(w.outbox.value.(sent := true)), run := if w.run == Publish then Report else w.run),
                 u)
  {
    IsHand(c, Go(w, u, Sent(id)), PubDone(u));
    hide Step;
    Replaced(w.(outbox := Some(w.outbox.value.(sent := true)), run := if w.run == Publish then Report else w.run), u,
             Sent(id), Asked);
  }

  /* ---- others ---- */

  /** Whoever cancels or fails a run that has not ended, or finishes one that is reported, does. */
  lemma {:induction false} AtEnding(c: Config, w: World, t: RunState)
    ensures Step(c, w, Abort(t)) == if !Terminal(w.run) && (t.Failed? || t.Cancelled?) then w.(run := t) else w
    ensures Step(c, w, Finish) == if w.run.Report? then w.(run := Succeeded) else w
  {
    StepIs(c, w, Abort(t));
    StepIs(c, w, Finish);
    hide Step, Carries, Alters;
  }

  /** Planning goes one state on, and a request is stored once. */
  lemma {:induction false} AtPlanning(c: Config, w: World, id: nat, b: Binding)
    ensures Step(c, w, Plan) ==
            if w.run.New? then w.(run := Intake)
            else if w.run.Intake? then w.(run := Analyze)
            else if w.run.Analyze? then w.(run := PlanReady)
            else w
    ensures Step(c, w, Request(id, b)) ==
            if id in w.approvals then w else w.(approvals := w.approvals[id := Approval(b, Requested)])
  {
    StepIs(c, w, Plan);
    StepIs(c, w, Request(id, b));
    hide Step, Carries, Alters;
  }

  ghost predicate WrittenOnce(w: World) {
    && (forall i, j :: 0 <= i < j < |w.log| ==> w.log[i] != w.log[j])
    && (w.writer.Some? ==> w.writer.value !in w.log)
  }

  /** In no run is an operation in the mutation table twice. */
  lemma {:induction false} NothingIsWrittenTwice(c: Config, events: seq<Event>)
    ensures var log := Run(c, Start(), events).log; forall i, j :: 0 <= i < j < |log| ==> log[i] != log[j]
  {
    RunWritesOnce(c, Start(), events);
  }

  lemma {:induction false} RunWritesOnce(c: Config, w: World, events: seq<Event>)
    requires WrittenOnce(w)
    ensures WrittenOnce(Run(c, w, events))
    decreases |events|
  {
    hide WrittenOnce;
    if events != [] {
      StepWritesOnce(c, w, events[0]);
      RunWritesOnce(c, Step(c, w, events[0]), events[1..]);
    }
  }

  lemma {:induction false} StepWritesOnce(c: Config, w: World, e: Event)
    requires WrittenOnce(w)
    ensures WrittenOnce(Step(c, w, e))
  {
    hide Carries, Alters;
    StepIs(c, w, e);
  }
}
