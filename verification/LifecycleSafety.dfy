/** Safety of the run over every interleaving: what is handed to the remote was tested and approved. */
module LifecycleSafety {
  import opened Text
  import opened Patch
  import opened Mutations
  import Workspaces
  import opened RunStates
  import opened Lifecycle

  predicate Ended(s: RunState) { s.Failed? || s.Cancelled? }

  predicate Past(s: RunState) { Rank(s) >= 6 }

  /* ---- what every step keeps ---- */

  predicate AttemptPassed(c: Config, rows: map<Key, Row>, a: nat) {
    c.required != [] && forall p :: p in c.required ==> Key(a, p) in rows && rows[Key(a, p)].verdict == Pass
  }

  /** The first |results| required profiles have finished rows in this attempt, passed exactly where the result says
      so. */
  predicate ResultsOk(c: Config, rows: map<Key, Row>, job: Job) {
    job.ForAttempt? ==>
      && |job.results| <= |c.required|
      && forall i :: 0 <= i < |job.results| ==>
           var k := Key(job.attempt, c.required[i]);
           k in rows && rows[k].verdict != Pending && (job.results[i] <==> rows[k].verdict == Pass)
  }

  /** What a checkpoint says is what its attempt's rows say, for good. */
  predicate Recorded(c: Config, rows: map<Key, Row>, a: nat, passed: bool) {
    && (forall p :: p in c.required ==> Key(a, p) in rows && rows[Key(a, p)].verdict != Pending)
    && (passed <==> AttemptPassed(c, rows, a))
  }

  /** All required rows of some passed attempt name this generation. */
  predicate BackedBy(c: Config, rows: map<Key, Row>, g: nat, a: nat) {
    AttemptPassed(c, rows, a) && forall p :: p in c.required ==> rows[Key(a, p)].generation == g
  }

  ghost predicate Backed(c: Config, rows: map<Key, Row>, g: nat) { exists a :: BackedBy(c, rows, g, a) }

  ghost predicate LogOk(c: Config, w: World) {
    Replay(c.seed, w.log).Some? && (w.writer.Some? ==> Replay(c.seed, w.log + [w.writer.value]).Some?)
  }

  predicate RowsOk(c: Config, w: World) {
    && (forall k :: k in w.rows ==> w.rows[k].generation <= |w.log|)
    && (forall a :: a in w.checkpoints ==> Recorded(c, w.rows, a, w.checkpoints[a]))
  }

  predicate WorkerOk(c: Config, w: World, p: Worker) {
    match p
    case Leaving(target) => target == Implement || target == AwaitingPublishApproval
    case Checking(job) => ResultsOk(c, w.rows, job)
    case Staged(job) => ResultsOk(c, w.rows, job) && !Complete(c, job)
    case Located(job, g) => ResultsOk(c, w.rows, job) && !Complete(c, job) && g <= |w.log|
    case Missed(job, g) => ResultsOk(c, w.rows, job) && !Complete(c, job) && g <= |w.log|
    case Testing(job, g) => ResultsOk(c, w.rows, job) && !Complete(c, job) && g <= |w.log| && KeyOf(c, job) in w.rows
    case Tested(job, g, ok) => ResultsOk(c, w.rows, job) && !Complete(c, job) && g <= |w.log| && KeyOf(c, job) in w.rows
    case _ => true
  }

  predicate Stored(w: World, id: nat, b: Binding) { id in w.approvals && w.approvals[id].binding == b }

  predicate SignerOk(w: World, s: Signer) {
    && s.id in w.approvals && w.approvals[s.id].binding.approver == s.approver
    && s.at < w.approvals[s.id].binding.expires && s.at <= w.clock
  }

  /** Every approval was given by the approver it names before it expired; none was found exact by a publication begun
      after that. */
  predicate NotesOk(w: World) {
    && (forall id :: id in w.approvals && w.approvals[id].status != Requested ==>
          id in w.notes.signed && w.notes.signed[id].0 == w.approvals[id].binding.approver
          && w.notes.signed[id].1 < w.approvals[id].binding.expires && w.notes.signed[id].1 <= w.clock)
    && (forall id :: id in w.notes.compared ==>
          id in w.approvals && w.notes.compared[id] < w.approvals[id].binding.expires
          && w.notes.compared[id] <= w.clock)
  }

  ghost predicate IsIntent(w: World, id: nat, b: Binding) {
    w.outbox.Some? && w.outbox.value.approval == id && w.outbox.value.binding == b
  }

  ghost predicate OutboxOk(c: Config, w: World) {
    && (w.outbox.Some? ==>
          && Rank(w.run) >= 7
          && Stored(w, w.outbox.value.approval, w.outbox.value.binding)
          && w.approvals[w.outbox.value.approval].status != Requested
          && w.outbox.value.approval in w.notes.compared
          && Backed(c, w.rows, w.outbox.value.binding.generation))
    && (w.outbox.None? ==> w.handed == [] && !(7 <= Rank(w.run) <= 9))
    && (forall i :: 0 <= i < |w.handed| ==>
          w.outbox.Some? && w.handed[i].approval == w.outbox.value.approval
          && w.handed[i].title == w.outbox.value.binding.title)
  }

  ghost predicate PublisherOk(c: Config, w: World, p: Publisher) {
    match p
    case Started(now) => now <= w.clock
    case HasRow(id, row, now) => Stored(w, id, row.binding) && now <= w.clock
    case InState(id, row, now) => Stored(w, id, row.binding) && now <= w.clock && Past(w.run)
    case HasGeneration(id, row, now, g) => Stored(w, id, row.binding) && now <= w.clock && Past(w.run)
    case HasDiff(id, row, now, g, d) => Stored(w, id, row.binding) && now <= w.clock && Past(w.run)
    case Exact(id, b) => Stored(w, id, b) && Past(w.run) && id in w.notes.compared
    case HasCheckpoint(id, b, a) =>
      Stored(w, id, b) && Past(w.run) && id in w.notes.compared && AttemptPassed(c, w.rows, a)
    case Cleared(id, b) => Stored(w, id, b) && Past(w.run) && id in w.notes.compared && Backed(c, w.rows, b.generation)
    case Asked => true
    case HasOutbox(id) => w.outbox.Some? && w.outbox.value.approval == id
    case Resuming(id, b) => IsIntent(w, id, b)
    case Intended(id, b) => IsIntent(w, id, b)
    case Loaded(id, b, files) => IsIntent(w, id, b)
    case Sent(id) => w.outbox.Some? && w.outbox.value.approval == id
  }

  ghost predicate CallsOk(c: Config, w: World) {
    && (forall u :: u in w.workers ==> WorkerOk(c, w, w.workers[u]))
    && (forall v :: v in w.signers ==> SignerOk(w, w.signers[v]))
    && (forall u :: u in w.publishers ==> PublisherOk(c, w, w.publishers[u]))
  }

  ghost predicate Inv(c: Config, w: World) {
    LogOk(c, w) && RowsOk(c, w) && NotesOk(w) && OutboxOk(c, w) && CallsOk(c, w)
  }

  /** Rows stay, with their generation; finished ones as they are. */
  predicate RowsGrow(rows: map<Key, Row>, rows': map<Key, Row>) {
    forall k :: k in rows ==>
      k in rows' && rows'[k].generation == rows[k].generation && (rows[k].verdict != Pending ==> rows'[k] == rows[k])
  }

  /** What no step undoes. */
  ghost predicate Onwards(w: World, w': World) {
    && w.log <= w'.log && w.clock <= w'.clock && w.tested <= w'.tested
    && RowsGrow(w.rows, w'.rows)
    && (forall id :: id in w.approvals ==>
          id in w'.approvals && w'.approvals[id].binding == w.approvals[id].binding
          && (w.approvals[id].status != Requested ==> w'.approvals[id].status != Requested))
    && w.notes.compared.Keys <= w'.notes.compared.Keys
    && (w.outbox.Some? ==>
          w'.outbox.Some? && w'.outbox.value.approval == w.outbox.value.approval
          && w'.outbox.value.binding == w.outbox.value.binding)
    && (Past(w.run) ==> Rank(w'.run) >= Rank(w.run))
  }

  lemma Still(w: World)
    ensures Onwards(w, w)
  {
  }

  lemma {:induction false} OnwardsTwice(a: World, b: World, c: World)
    requires Onwards(a, b) && Onwards(b, c)
    ensures Onwards(a, c)
  {
  }

  lemma {:induction false} PassedOn(c: Config, rows: map<Key, Row>, rows': map<Key, Row>)
    requires RowsGrow(rows, rows')
    ensures forall a :: AttemptPassed(c, rows, a) ==> AttemptPassed(c, rows', a)
    ensures forall g, a :: BackedBy(c, rows, g, a) ==> BackedBy(c, rows', g, a)
    ensures forall job :: ResultsOk(c, rows, job) ==> ResultsOk(c, rows', job)
    ensures forall a, passed :: Recorded(c, rows, a, passed) ==> Recorded(c, rows', a, passed)
  {
    forall a | AttemptPassed(c, rows, a) ensures AttemptPassed(c, rows', a) {}
  }

  lemma {:induction false} WorkerOn(c: Config, w: World, w': World, p: Worker)
    requires WorkerOk(c, w, p) && |w.log| <= |w'.log| && RowsGrow(w.rows, w'.rows)
    ensures WorkerOk(c, w', p)
  {
    hide ResultsOk;
    PassedOn(c, w.rows, w'.rows);
  }

  lemma {:induction false} PublisherOn(c: Config, w: World, w': World, p: Publisher)
    requires PublisherOk(c, w, p) && Onwards(w, w')
    ensures PublisherOk(c, w', p)
  {
    PassedOn(c, w.rows, w'.rows);
    hide AttemptPassed, BackedBy, RowsGrow;
  }

  /** Calls that a step does not touch stay as good as they were. */
  lemma {:induction false} CallsOn(c: Config, w: World, w': World)
    requires CallsOk(c, w) && Onwards(w, w')
    requires forall u :: u in w'.workers ==>
               (u in w.workers && w'.workers[u] == w.workers[u]) || WorkerOk(c, w', w'.workers[u])
    requires forall v :: v in w'.signers ==>
               (v in w.signers && w'.signers[v] == w.signers[v]) || SignerOk(w', w'.signers[v])
    requires forall u :: u in w'.publishers ==>
               (u in w.publishers && w'.publishers[u] == w.publishers[u]) || PublisherOk(c, w', w'.publishers[u])
    ensures CallsOk(c, w')
  {
    hide WorkerOk, PublisherOk;
    forall u | u in w'.workers ensures WorkerOk(c, w', w'.workers[u]) {
      if u in w.workers && w'.workers[u] == w.workers[u] { WorkerOn(c, w, w', w.workers[u]); }
    }
    forall u | u in w'.publishers ensures PublisherOk(c, w', w'.publishers[u]) {
      if u in w.publishers && w'.publishers[u] == w.publishers[u] { PublisherOn(c, w, w', w.publishers[u]); }
    }
  }

  /** The outbox, where a step leaves it and the files handed over alone. */
  lemma {:induction false} OutboxOn(c: Config, w: World, w': World)
    requires OutboxOk(c, w) && Onwards(w, w') && w'.outbox == w.outbox && w'.handed == w.handed
    requires 7 <= Rank(w'.run) <= 9 ==> 7 <= Rank(w.run) <= 9
    ensures OutboxOk(c, w')
  {
    PassedOn(c, w.rows, w'.rows);
    hide AttemptPassed, BackedBy, RowsGrow;
  }

  /* ---- mutations, approvers and others ---- */

  lemma {:induction false} WriteKeeps(c: Config, w: World, e: Event)
    requires Inv(c, w)
    ensures Inv(c, WriteStep(c, w, e)) && Onwards(w, WriteStep(c, w, e))
  {
    var w' := WriteStep(c, w, e);
    assert LogOk(c, w') && Onwards(w, w') by { LogGrows(c, w, e); }
    assert |w.log| <= |w'.log|;
    hide WriteStep, LogOk, CallsOk, OutboxOk, RowsOk, NotesOk, Onwards;
    RowsSame(c, w, w');
    NotesSame(w, w');
    CallsOn(c, w, w');
    OutboxOn(c, w, w');
  }

  lemma {:induction false} LogGrows(c: Config, w: World, e: Event)
    requires LogOk(c, w)
    ensures LogOk(c, WriteStep(c, w, e)) && Onwards(w, WriteStep(c, w, e))
  {
    hide Replay;
  }

  /** Moves of the run, of the clock and of requests. */
  lemma {:induction false} MovesKeep(c: Config, w: World, w': World)
    requires Inv(c, w) && w' == w.(run := w'.run, clock := w'.clock, approvals := w'.approvals) && w.clock <= w'.clock
    requires Past(w.run) ==> Rank(w'.run) >= Rank(w.run)
    requires 7 <= Rank(w'.run) <= 9 ==> 7 <= Rank(w.run) <= 9
    requires forall id :: id in w.approvals ==> id in w'.approvals && w'.approvals[id] == w.approvals[id]
    requires forall id :: id in w'.approvals && id !in w.approvals ==> w'.approvals[id].status == Requested
    ensures Inv(c, w') && Onwards(w, w')
  {
    assert Onwards(w, w') && NotesOk(w');
    hide Replay, CallsOk, OutboxOk, RowsOk, NotesOk, Onwards;
    CallsOn(c, w, w');
    OutboxOn(c, w, w');
    RowsSame(c, w, w');
  }

  lemma RowsSame(c: Config, w: World, w': World)
    requires RowsOk(c, w) && w'.rows == w.rows && w'.checkpoints == w.checkpoints && |w.log| <= |w'.log|
    ensures RowsOk(c, w')
  {
  }

  lemma {:induction false} OthersKeep(c: Config, w: World, e: Event)
    requires Inv(c, w)
    ensures Inv(c, OthersStep(w, e)) && Onwards(w, OthersStep(w, e))
  {
    hide Inv, Onwards;
    MovesKeep(c, w, OthersStep(w, e));
  }

  lemma {:induction false} SignersAre(c: Config, w: World, v: nat)
    requires Inv(c, w)
    ensures v in w.signers ==> SignerOk(w, w.signers[v])
  {
  }

  lemma {:induction false} SignedMeans(w: World, w': World, v: nat)
    requires NotesOk(w) && v in w.signers && SignerOk(w, w.signers[v]) && w' == SignStep(w, SignWrite(v))
    ensures NotesOk(w')
  {
  }

  lemma {:induction false} SignKeeps(c: Config, w: World, e: Event)
    requires Inv(c, w)
    ensures Inv(c, SignStep(w, e)) && Onwards(w, SignStep(w, e))
  {
    hide Replay, OutboxOk, RowsOk, NotesOk, CallsOk;
    var w' := SignStep(w, e);
    assert NotesOk(w') by {
      if e.SignWrite? && w' != w {
        SignersAre(c, w, e.v);
        SignedMeans(w, w', e.v);
      } else {
        NotesSame(w, w');
      }
    }
    RowsSame(c, w, w');
    CallsOn(c, w, w');
    OutboxOn(c, w, w');
  }

  lemma NotesSame(w: World, w': World)
    requires NotesOk(w) && w'.approvals == w.approvals && w'.notes == w.notes && w.clock <= w'.clock
    ensures NotesOk(w')
  {
  }

  /* ---- coordinators and validations ---- */

  /** A step of a worker that leaves the rows alone. */
  lemma {:induction false} WorkerMoves(c: Config, w: World, w': World, u: nat)
    requires Inv(c, w) && w' == w.(run := w'.run, tested := w'.tested, workers := w'.workers)
    requires w.tested <= w'.tested && (w'.run == w.run || CanMove(w.run, w'.run))
             && !(7 <= Rank(w'.run) <= 9 && w'.run != w.run)
    requires forall v :: v in w'.workers && v != u ==> v in w.workers && w'.workers[v] == w.workers[v]
    requires u in w'.workers ==> WorkerOk(c, w', w'.workers[u])
    ensures Inv(c, w') && Onwards(w, w')
  {
    hide Replay, CallsOk, OutboxOk, WorkerOk;
    CallsOn(c, w, w');
    OutboxOn(c, w, w');
  }

  lemma {:induction false} WorkersAre(c: Config, w: World, u: nat)
    requires Inv(c, w)
    ensures u in w.workers ==> WorkerOk(c, w, w.workers[u])
    ensures RowsOk(c, w)
  {
  }

  /** The same, spelled out: the run moves or not, and the call goes on or ends. */
  lemma {:induction false} Moves(c: Config, w: World, u: nat, run: RunState, p: Worker)
    requires Inv(c, w) && (run == w.run || (CanMove(w.run, run) && Rank(run) <= 6))
    ensures WorkerOk(c, w, p) ==> Inv(c, Put(w.(run := run), u, p)) && Onwards(w, Put(w.(run := run), u, p))
    ensures Inv(c, End(w.(run := run), u)) && Onwards(w, End(w.(run := run), u))
  {
    hide Inv, Onwards;
    if WorkerOk(c, w, p) { WorkerMoves(c, w, Put(w.(run := run), u, p), u); }
    hide WorkerOk;
    WorkerMoves(c, w, End(w.(run := run), u), u);
  }

  lemma {:induction false} EnterKeeps(c: Config, w: World, u: nat)
    requires Inv(c, w) && u in w.workers
    ensures Inv(c, EnterStep(w, u)) && Onwards(w, EnterStep(w, u))
  {
    hide Max, Inv, Onwards, PendingAttempts;
    WorkersAre(c, w, u);
    Still(w);
    var w' := EnterStep(w, u);
    if w' != w { Moves(c, w, u, w.run, w'.workers[u]); }
  }

  lemma {:induction false} CountKeeps(c: Config, w: World, u: nat)
    requires Inv(c, w) && u in w.workers
    ensures Inv(c, CountStep(w, u)) && Onwards(w, CountStep(w, u))
  {
    hide Max, Inv, Onwards, PendingAttempts;
    WorkersAre(c, w, u);
    Still(w);
    match w.workers[u]
    case Leaving(target) =>
      Moves(c, w, u, w.run, Counting);
      if CanMove(w.run, target) { Moves(c, w, u, target, Counting); }
    case Counting => Moves(c, w, u, w.run, Counted(Latest(w)));
    case Counted(latest) => Moves(c, w, u, w.run, Next(NextAttempt(w, latest)));
    case _ =>
  }

  lemma {:induction false} AttemptKeeps(c: Config, w: World, u: nat)
    requires Inv(c, w) && u in w.workers
    ensures Inv(c, AttemptStep(c, w, u)) && Onwards(w, AttemptStep(c, w, u))
  {
    hide Inv, Onwards;
    Still(w);
    match w.workers[u]
    case Next(a) =>
      Moves(c, w, u, w.run, Editing(a));
      Moves(c, w, u, w.run, Checking(ForAttempt(a, [])));
    case Editing(a) =>
      Moves(c, w, u, w.run, Checking(ForAttempt(a, [])));
      if CanMove(w.run, Validate) { Moves(c, w, u, Validate, Checking(ForAttempt(a, []))); }
    case _ =>
  }

  lemma {:induction false} DecideKeeps(c: Config, w: World, u: nat)
    requires Inv(c, w) && u in w.workers && w.workers[u].Saved?
    ensures Inv(c, DecideStep(c, w, u)) && Onwards(w, DecideStep(c, w, u))
  {
    hide Inv, Onwards;
    var next := Next(w.workers[u].attempt + 1);
    Moves(c, w, u, w.run, next);
    if CanMove(w.run, AwaitingPublishApproval) { Moves(c, w, u, AwaitingPublishApproval, next); }
    if CanMove(w.run, Implement) { Moves(c, w, u, Implement, next); }
  }

  lemma {:induction false} TestKeeps(c: Config, w: World, u: nat, ok: bool, seen: Tree)
    requires Inv(c, w)
    ensures Inv(c, TestStep(c, w, u, ok, seen)) && Onwards(w, TestStep(c, w, u, ok, seen))
  {
    if u in w.workers && w.workers[u].Testing? {
      hide Inv, TreeAt, Onwards, ResultsOk;
      WorkersAre(c, w, u);
      WorkerMoves(c, w, TestStep(c, w, u, ok, seen), u);
    }
  }

  /** A step of a worker that writes rows, or a checkpoint for what has passed. */
  lemma {:induction false} TableMoves(c: Config, w: World, w': World, u: nat)
    requires Inv(c, w) && w' == w.(rows := w'.rows, checkpoints := w'.checkpoints, workers := w'.workers)
    requires RowsGrow(w.rows, w'.rows) && forall k :: k in w'.rows ==> w'.rows[k].generation <= |w.log|
    requires forall a :: a in w'.checkpoints ==>
               || (a in w.checkpoints && w'.checkpoints[a] == w.checkpoints[a])
               || Recorded(c, w'.rows, a, w'.checkpoints[a])
    requires forall v :: v in w'.workers && v != u ==> v in w.workers && w'.workers[v] == w.workers[v]
    requires u in w'.workers ==> WorkerOk(c, w', w'.workers[u])
    ensures Inv(c, w') && Onwards(w, w')
  {
    PassedOn(c, w.rows, w'.rows);
    hide Replay, CallsOk, OutboxOk, WorkerOk, Recorded, RowsGrow;
    CallsOn(c, w, w');
    OutboxOn(c, w, w');
  }

  lemma {:induction false} OneMoreResult(c: Config, rows: map<Key, Row>, job: Job, ok: bool)
    requires ResultsOk(c, rows, job) && !Complete(c, job) && job.ForAttempt?
    requires var k := KeyOf(c, job); k in rows && rows[k].verdict != Pending && (ok <==> rows[k].verdict == Pass)
    ensures ResultsOk(c, rows, ForAttempt(job.attempt, job.results + [ok]))
  {
  }

  lemma {:induction false} ValidateKeeps(c: Config, w: World, u: nat)
    requires Inv(c, w) && u in w.workers
    ensures Inv(c, ValidateStep(c, w, u)) && Onwards(w, ValidateStep(c, w, u))
  {
    hide Inv, Onwards, ResultsOk, RowsOk;
    WorkersAre(c, w, u);
    Still(w);
    match w.workers[u]
    case Checking(job) => Moves(c, w, u, w.run, Staged(job));
    case Staged(job) => Moves(c, w, u, w.run, Located(job, |w.log|));
    case Located(job, g) =>
      Moves(c, w, u, w.run, Missed(job, g));
      if job.ForAttempt? && Finished(w, KeyOf(c, job)) {
        var ok := w.rows[KeyOf(c, job)].verdict == Pass;
        OneMoreResult(c, w.rows, job, ok);
        Moves(c, w, u, w.run, Checking(ForAttempt(job.attempt, job.results + [ok])));
      }
    case _ =>
  }

  lemma {:induction false} BeginKeeps(c: Config, w: World, u: nat)
    requires Inv(c, w) && u in w.workers && w.workers[u].Missed?
    ensures Inv(c, BeginStep(c, w, u)) && Onwards(w, BeginStep(c, w, u))
  {
    hide Inv, Onwards, ResultsOk, AttemptPassed, Recorded, KeyOf, Complete;
    WorkersAre(c, w, u);
    var w' := BeginStep(c, w, u);
    PassedOn(c, w.rows, w'.rows);
    TableMoves(c, w, w', u);
  }

  lemma {:induction false} FinishKeeps(c: Config, w: World, u: nat)
    requires Inv(c, w) && u in w.workers && w.workers[u].Tested?
    ensures Inv(c, FinishStep(c, w, u)) && Onwards(w, FinishStep(c, w, u))
  {
    hide Inv, Onwards, ResultsOk, AttemptPassed, Recorded, KeyOf, Complete;
    var Tested(job, g, ok) := w.workers[u];
    WorkersAre(c, w, u);
    var k := KeyOf(c, job);
    if w.rows[k].verdict == Pending {
      var w1 := w.(rows := w.rows[k := w.rows[k].(verdict := if ok then Pass else Fail)]);
      WorkerOn(c, w, w1, w.workers[u]);
      TableMoves(c, w, w1, u);
      if job.ForAttempt? {
        OneMoreResult(c, w1.rows, job, ok);
        Moves(c, w1, u, w.run, Checking(ForAttempt(job.attempt, job.results + [ok])));
      } else {
        Moves(c, w1, u, w.run, Entered);
      }
      OnwardsTwice(w, w1, FinishStep(c, w, u));
    } else {
      Moves(c, w, u, w.run, Entered);
    }
  }

  lemma {:induction false} AllPassed(c: Config, rows: map<Key, Row>, job: Job)
    requires ResultsOk(c, rows, job) && Complete(c, job)
    ensures Recorded(c, rows, job.attempt, AllTrue(job.results))
  {
    var a, r := job.attempt, c.required;
    forall p | p in r
      ensures Key(a, p) in rows && rows[Key(a, p)].verdict != Pending
      ensures AllTrue(job.results) ==> rows[Key(a, p)].verdict == Pass
    {
      var i :| 0 <= i < |r| && r[i] == p;
      assert AllTrue(job.results) ==> job.results[i];
    }
    if AttemptPassed(c, rows, a) {
      forall i | 0 <= i < |job.results| ensures job.results[i] { assert r[i] in r && Key(a, r[i]) in rows; }
    }
  }

  lemma {:induction false} SaveKeeps(c: Config, w: World, u: nat)
    requires Inv(c, w) && u in w.workers && w.workers[u].Checking? && Complete(c, w.workers[u].job)
    ensures Inv(c, SaveStep(c, w, u)) && Onwards(w, SaveStep(c, w, u))
  {
    hide Inv, Onwards, ResultsOk, Recorded, AllTrue;
    var job := w.workers[u].job;
    WorkersAre(c, w, u);
    AllPassed(c, w.rows, job);
    TableMoves(c, w, SaveStep(c, w, u), u);
  }

  lemma {:induction false} WorkKeeps(c: Config, w: World, u: nat)
    requires Inv(c, w)
    ensures Inv(c, WorkStep(c, w, u)) && Onwards(w, WorkStep(c, w, u))
  {
    hide Inv, Onwards, EnterStep, CountStep, AttemptStep, SaveStep, ValidateStep, BeginStep, FinishStep, DecideStep;
    if u !in w.workers {
      Still(w);
    } else {
      EnterKeeps(c, w, u);
      CountKeeps(c, w, u);
      AttemptKeeps(c, w, u);
      ValidateKeeps(c, w, u);
      if w.workers[u].Saved? { DecideKeeps(c, w, u); }
      if w.workers[u].Missed? { BeginKeeps(c, w, u); }
      if w.workers[u].Tested? { FinishKeeps(c, w, u); }
      if w.workers[u].Checking? && Complete(c, w.workers[u].job) { SaveKeeps(c, w, u); }
    }
  }

  lemma {:induction false} WorkersKeep(c: Config, w: World, e: Event)
    requires Inv(c, w)
    ensures Inv(c, WorkersStep(c, w, e)) && Onwards(w, WorkersStep(c, w, e))
  {
    hide Inv, Onwards, WorkStep, TestStep;
    var w' := WorkersStep(c, w, e);
    match e
    case Work(u) => WorkKeeps(c, w, u);
    case Test(u, ok, seen) => TestKeeps(c, w, u, ok, seen);
    case Enter(u) => Still(w); if w' != w { WorkerMoves(c, w, w', u); }
    case Call(u, profile) => Still(w); if w' != w { WorkerMoves(c, w, w', u); }
    case Leave(u) => WorkerMoves(c, w, w', u);
    case _ => Still(w);
  }

  /* ---- publishers ---- */

  /** A step of a publisher that leaves the tables alone. */
  lemma {:induction false} GoKeeps(c: Config, w: World, u: nat, p: Publisher)
    requires Inv(c, w) && PublisherOk(c, w, p)
    ensures Inv(c, Go(w, u, p)) && Onwards(w, Go(w, u, p))
  {
    var w' := Go(w, u, p);
    Still(w);
    PublisherOn(c, w, w', p);
    hide Replay, CallsOk, OutboxOk, PublisherOk;
    CallsOn(c, w, w');
    OutboxOn(c, w, w');
  }

  lemma {:induction false} StopKeeps(c: Config, w: World, u: nat)
    requires Inv(c, w)
    ensures Inv(c, Stop(w, u)) && Onwards(w, Stop(w, u))
  {
    hide Replay, CallsOk, OutboxOk;
    CallsOn(c, w, Stop(w, u));
    OutboxOn(c, w, Stop(w, u));
  }

  lemma {:induction false} PublishersAre(c: Config, w: World, u: nat)
    requires Inv(c, w)
    ensures u in w.publishers ==> PublisherOk(c, w, w.publishers[u])
    ensures OutboxOk(c, w) && RowsOk(c, w) && NotesOk(w)
  {
  }

  lemma {:induction false} ReadKeeps(c: Config, w: World, e: Event)
    requires Inv(c, w)
    ensures Inv(c, PubReadStep(c, w, e)) && Onwards(w, PubReadStep(c, w, e))
  {
    hide Inv, Onwards, ChangesOf, Replay, TreeAt, OutboxOk, RowsOk, NotesOk;
    Still(w);
    var w' := PubReadStep(c, w, e);
    if e.PubStart? || e.PubRead? || e.PubState? || e.PubGeneration? || e.PubDiff? {
      PublishersAre(c, w, e.u);
      StopKeeps(c, w, e.u);
      if w' != w && w' != Stop(w, e.u) {
        assert w' == Go(w, e.u, w'.publishers[e.u]);
        GoKeeps(c, w, e.u, w'.publishers[e.u]);
      }
    }
  }

  lemma {:induction false} ComparedMeans(w: World, id: nat, now: nat)
    requires NotesOk(w) && id in w.approvals && now < w.approvals[id].binding.expires && now <= w.clock
    ensures NotesOk(w.(notes := w.notes.(compared := w.notes.compared[id := now])))
  {
  }

  lemma {:induction false} NotesKeep(c: Config, w: World, notes: Notes)
    requires Inv(c, w) && NotesOk(w.(notes := notes)) && w.notes.compared.Keys <= notes.compared.Keys
    ensures Inv(c, w.(notes := notes)) && Onwards(w, w.(notes := notes))
  {
    var w' := w.(notes := notes);
    hide Replay, CallsOk, OutboxOk, RowsOk, NotesOk;
    RowsSame(c, w, w');
    CallsOn(c, w, w');
    OutboxOn(c, w, w');
  }

  lemma {:induction false} ExactKeeps(c: Config, w: World, u: nat, title: string)
    requires Inv(c, w)
    ensures Inv(c, PubExactStep(w, u, title)) && Onwards(w, PubExactStep(w, u, title))
  {
    hide Inv, Onwards, NotesOk, OutboxOk, RowsOk;
    Still(w);
    PublishersAre(c, w, u);
    StopKeeps(c, w, u);
    var w' := PubExactStep(w, u, title);
    if w' != w && w' != Stop(w, u) {
      var HasDiff(id, row, now, g, d) := w.publishers[u];
      ComparedMeans(w, id, now);
      NotesKeep(c, w, w'.notes);
      GoKeeps(c, w.(notes := w'.notes), u, Exact(id, row.binding));
      OnwardsTwice(w, w.(notes := w'.notes), w');
    }
  }

  lemma {:induction false} LatestIsKey(w: World)
    ensures w.checkpoints != map[] ==> Latest(w) in w.checkpoints
  {
  }

  /** What publication's comparison of generations finds out. */
  lemma {:induction false} OneGeneration(c: Config, w: World, a: nat, g: nat)
    requires AttemptPassed(c, w.rows, a) && PassedGenerations(w, a) == {g}
    ensures BackedBy(c, w.rows, g, a)
  {
    forall p | p in c.required ensures w.rows[Key(a, p)].generation == g {
      assert w.rows[Key(a, p)].generation in PassedGenerations(w, a);
    }
  }

  lemma {:induction false} ChecksKeep(c: Config, w: World, u: nat)
    requires Inv(c, w)
    ensures Inv(c, PubCheckpointStep(w, u)) && Onwards(w, PubCheckpointStep(w, u))
    ensures Inv(c, PubGenerationsStep(w, u)) && Onwards(w, PubGenerationsStep(w, u))
  {
    hide Inv, Onwards, Max, OutboxOk, NotesOk, AttemptPassed;
    Still(w);
    PublishersAre(c, w, u);
    StopKeeps(c, w, u);
    if u in w.publishers {
      match w.publishers[u]
      case Exact(id, b) =>
        LatestIsKey(w);
        if PubCheckpointStep(w, u) != Stop(w, u) { GoKeeps(c, w, u, HasCheckpoint(id, b, Latest(w))); }
      case HasCheckpoint(id, b, a) =>
        if PassedGenerations(w, a) == {b.generation} {
          OneGeneration(c, w, a, b.generation);
          GoKeeps(c, w, u, Cleared(id, b));
        }
      case _ =>
    }
  }

  /** The intent: nobody had one before, and the approval beside it is consumed, compared and backed. */
  lemma {:induction false} OutboxIntended(c: Config, w: World, w': World, id: nat, b: Binding)
    requires OutboxOk(c, w) && w.outbox.None?
    requires Stored(w, id, b) && id in w.notes.compared && Backed(c, w.rows, b.generation)
    requires w' == w.(approvals := w.approvals[id := w.approvals[id].(status := Consumed)],
                      outbox := Some(Outbox(id, b, false)), run := Publish)
    ensures OutboxOk(c, w')
  {
    hide Backed;
  }

  lemma {:induction false} IntentCommits(c: Config, w: World, w': World, id: nat, b: Binding)
    requires Inv(c, w) && w.outbox.None? && w.run == AwaitingPublishApproval
    requires Stored(w, id, b) && id in w.notes.compared && Backed(c, w.rows, b.generation)
    requires w.approvals[id].status == Approved
    requires w' == w.(approvals := w.approvals[id := w.approvals[id].(status := Consumed)],
                      outbox := Some(Outbox(id, b, false)), run := Publish)
    ensures Inv(c, w') && Onwards(w, w')
  {
    OutboxIntended(c, w, w', id, b);
    assert Onwards(w, w');
    assert NotesOk(w');
    hide Replay, CallsOk, RowsOk, Backed, OutboxOk, NotesOk, Onwards;
    RowsSame(c, w, w');
    CallsOn(c, w, w');
  }

  lemma {:induction false} IntentKeeps(c: Config, w: World, u: nat)
    requires Inv(c, w)
    ensures Inv(c, PubIntentStep(w, u)) && Onwards(w, PubIntentStep(w, u))
  {
    hide Inv, Onwards, NotesOk, OutboxOk, RowsOk, Backed;
    Still(w);
    PublishersAre(c, w, u);
    StopKeeps(c, w, u);
    var w' := PubIntentStep(w, u);
    if w' != w && w' != Stop(w, u) {
      var Cleared(id, b) := w.publishers[u];
      var w1 := w.(approvals := w'.approvals, outbox := w'.outbox, run := Publish);
      IntentCommits(c, w, w1, id, b);
      GoKeeps(c, w1, u, Intended(id, b));
      OnwardsTwice(w, w1, w');
    }
  }

  lemma {:induction false} ResumeKeeps(c: Config, w: World, e: Event)
    requires Inv(c, w)
    ensures Inv(c, ResumeStep(c, w, e)) && Onwards(w, ResumeStep(c, w, e))
  {
    hide Inv, Onwards, ChangesOf, Replay, TreeAt, RowsOk, NotesOk, Backed;
    Still(w);
    var w' := ResumeStep(c, w, e);
    if e.ResumeState? || e.ResumeOutbox? || e.ResumeApproval? || e.ResumeCheck? {
      PublishersAre(c, w, e.u);
      StopKeeps(c, w, e.u);
      if w' != w && w' != Stop(w, e.u) {
        var p := w'.publishers[e.u];
        assert w' == Go(w, e.u, p);
        assert PublisherOk(c, w, p);
        hide PublisherOk, OutboxOk, ResumeStep;
        GoKeeps(c, w, e.u, p);
      }
    }
  }

  lemma {:induction false} LoadKeeps(c: Config, w: World, u: nat)
    requires Inv(c, w)
    ensures Inv(c, PubLoadStep(c, w, u)) && Onwards(w, PubLoadStep(c, w, u))
  {
    hide Inv, Onwards, ChangesOf, Replay, TreeAt, RowsOk, NotesOk, OutboxOk;
    Still(w);
    PublishersAre(c, w, u);
    if u in w.publishers && w.publishers[u].Intended? {
      GoKeeps(c, w, u, PubLoadStep(c, w, u).publishers[u]);
    }
  }

  lemma {:induction false} HandedKeeps(c: Config, w: World, h: Handoff)
    requires Inv(c, w) && w.outbox.Some? && h.approval == w.outbox.value.approval
             && h.title == w.outbox.value.binding.title
    ensures var w' := w.(handed := w.handed + [h]); Inv(c, w') && Onwards(w, w')
  {
    var w' := w.(handed := w.handed + [h]);
    hide Replay, CallsOk, RowsOk, NotesOk, Backed;
    RowsSame(c, w, w');
    NotesSame(w, w');
    CallsOn(c, w, w');
  }

  lemma {:induction false} OutboxSent(c: Config, w: World)
    requires OutboxOk(c, w) && w.outbox.Some?
    ensures OutboxOk(c, w.(outbox := Some(w.outbox.value.(sent := true)),
                           run := if w.run == Publish then Report else w.run))
  {
    hide Backed;
  }

  lemma {:induction false} SentKeeps(c: Config, w: World)
    requires Inv(c, w) && w.outbox.Some?
    ensures var w' := w.(outbox := Some(w.outbox.value.(sent := true)),
                         run := if w.run == Publish then Report else w.run);
            Inv(c, w') && Onwards(w, w')
  {
    var w' := w.(outbox := Some(w.outbox.value.(sent := true)), run := if w.run == Publish then Report else w.run);
    OutboxSent(c, w);
    assert Onwards(w, w');
    hide Replay, CallsOk, RowsOk, NotesOk, OutboxOk, Onwards;
    RowsSame(c, w, w');
    NotesSame(w, w');
    CallsOn(c, w, w');
  }

  lemma {:induction false} HandKeeps(c: Config, w: World, u: nat)
    requires Inv(c, w)
    ensures Inv(c, PubHandStep(w, u)) && Onwards(w, PubHandStep(w, u))
    ensures Inv(c, PubDoneStep(w, u)) && Onwards(w, PubDoneStep(w, u))
  {
    hide Inv, Onwards, NotesOk, OutboxOk, RowsOk;
    Still(w);
    PublishersAre(c, w, u);
    if u in w.publishers && w.publishers[u].Loaded? {
      var Loaded(id, b, files) := w.publishers[u];
      var h := Handoff(id, b.title, files);
      var w1 := w.(handed := w.handed + [h]);
      HandedKeeps(c, w, h);
      GoKeeps(c, w1, u, Sent(id));
      OnwardsTwice(w, w1, PubHandStep(w, u));
    }
    if u in w.publishers && w.publishers[u].Sent? {
      var w1 := w.(outbox := Some(w.outbox.value.(sent := true)), run := if w.run == Publish then Report else w.run);
      SentKeeps(c, w);
      StopKeeps(c, w1, u);
      OnwardsTwice(w, w1, PubDoneStep(w, u));
    }
  }

  lemma {:induction false} CheckStepKeeps(c: Config, w: World, e: Event)
    requires Inv(c, w) && (e.PubExact? || e.PubCheckpoint? || e.PubGenerations? || e.PubIntent?)
    ensures Inv(c, PubStep(c, w, e)) && Onwards(w, PubStep(c, w, e))
  {
    hide Inv, Onwards, PubExactStep, PubCheckpointStep, PubGenerationsStep, PubIntentStep, Carries;
    match e
    case PubExact(u, title) => ExactKeeps(c, w, u, title);
    case PubCheckpoint(u) => ChecksKeep(c, w, u);
    case PubGenerations(u) => ChecksKeep(c, w, u);
    case PubIntent(u) => IntentKeeps(c, w, u);
  }

  lemma {:induction false} HandStepKeeps(c: Config, w: World, e: Event)
    requires Inv(c, w) && (e.PubLoad? || e.PubHand? || e.PubDone? || e.PubCrash?)
    ensures Inv(c, PubStep(c, w, e)) && Onwards(w, PubStep(c, w, e))
  {
    hide Inv, Onwards, PubLoadStep, PubHandStep, PubDoneStep, Carries;
    if e.PubLoad? {
      LoadKeeps(c, w, e.u);
    } else if e.PubHand? || e.PubDone? {
      HandKeeps(c, w, e.u);
    } else {
      StopKeeps(c, w, e.u);
    }
  }

  lemma {:induction false} PubKeeps(c: Config, w: World, e: Event)
    requires Inv(c, w)
    ensures Inv(c, PubStep(c, w, e)) && Onwards(w, PubStep(c, w, e))
  {
    hide Inv, Onwards, ResumeStep, PubReadStep, Carries;
    if e.PubExact? || e.PubCheckpoint? || e.PubGenerations? || e.PubIntent? {
      hide PubStep;
      CheckStepKeeps(c, w, e);
    } else if e.PubLoad? || e.PubHand? || e.PubDone? || e.PubCrash? {
      hide PubStep;
      HandStepKeeps(c, w, e);
    } else {
      ResumeKeeps(c, w, e);
      ReadKeeps(c, w, e);
    }
  }

  lemma {:induction false} StepKeeps(c: Config, w: World, e: Event)
    requires Inv(c, w)
    ensures Inv(c, Step(c, w, e)) && Onwards(w, Step(c, w, e))
  {
    StepIs(c, w, e);
    hide Inv, Onwards, Carries;
    hide Step, WriteStep, OthersStep, SignStep, WorkersStep, PubStep, IsWrite, IsOther, IsSign, IsWork;
    WriteKeeps(c, w, e);
    OthersKeep(c, w, e);
    SignKeeps(c, w, e);
    WorkersKeep(c, w, e);
    PubKeeps(c, w, e);
  }

  lemma {:induction false} RunKeeps(c: Config, w: World, events: seq<Event>)
    requires Inv(c, w)
    ensures Inv(c, Run(c, w, events)) && Onwards(w, Run(c, w, events))
    decreases |events|
  {
    hide Inv, Step;
    if events != [] {
      StepKeeps(c, w, events[0]);
      RunKeeps(c, Step(c, w, events[0]), events[1..]);
    }
  }

  lemma {:induction false} StartHolds(c: Config)
    ensures Inv(c, Start())
  {
  }

  /* ---- what holds of every run ---- */

  /** All files ever handed over went out under one approval, which its approver gave in time: before it expired, and
      before that by the clock the call read when it began. Behind it stands an attempt all of whose required rows
      passed and name the approved generation. */
  lemma {:induction false} PublishedInTime(c: Config, events: seq<Event>, i: nat)
    requires i < |Run(c, Start(), events).handed|
    ensures var w := Run(c, Start(), events);
            var id := w.handed[i].approval;
            && w.outbox.Some? && id == w.outbox.value.approval && Stored(w, id, w.outbox.value.binding)
            && w.handed[i].title == w.outbox.value.binding.title
            && w.approvals[id].status != Requested && id in w.notes.signed && id in w.notes.compared
            && w.notes.signed[id].0 == w.approvals[id].binding.approver
            && w.notes.signed[id].1 < w.approvals[id].binding.expires && w.notes.signed[id].1 <= w.clock
            && w.notes.compared[id] < w.approvals[id].binding.expires && w.notes.compared[id] <= w.clock
            && Backed(c, w.rows, w.approvals[id].binding.generation)
  {
    hide Replay, RowsOk, CallsOk, Run, Step, Backed;
    StartHolds(c);
    RunKeeps(c, Start(), events);
  }

  /** Where the latest checkpoint is passed, publication's comparison lets a run through exactly if every passed row of
      that attempt names the current generation; every required profile has such a row. */
  lemma {:induction false} CheckIsExact(c: Config, events: seq<Event>)
    requires var w := Run(c, Start(), events); w.checkpoints != map[] && w.checkpoints[Latest(w)]
    ensures var w := Run(c, Start(), events);
            var n := Latest(w);
            && AttemptPassed(c, w.rows, n)
            && (PassedGenerations(w, n) == {|w.log|}
                <==> forall k :: k in w.rows && k.attempt == n && w.rows[k].verdict == Pass ==>
                       w.rows[k].generation == |w.log|)
  {
    hide Max, Run, Step, LogOk, NotesOk, OutboxOk, CallsOk;
    StartHolds(c);
    RunKeeps(c, Start(), events);
    var w := Run(c, Start(), events);
    var n := Latest(w);
    LatestIsKey(w);
    assert AttemptPassed(c, w.rows, n);
    var k := Key(n, c.required[0]);
    assert k in w.rows && w.rows[k].generation in PassedGenerations(w, n);
    if forall k :: k in w.rows && k.attempt == n && w.rows[k].verdict == Pass ==> w.rows[k].generation == |w.log| {
      assert PassedGenerations(w, n) == {|w.log|};
    }
    if PassedGenerations(w, n) == {|w.log|} {
      forall k | k in w.rows && k.attempt == n && w.rows[k].verdict == Pass ensures w.rows[k].generation == |w.log| {
        assert w.rows[k].generation in PassedGenerations(w, n);
      }
    }
  }

  /* ---- the outbox and PUBLISH ---- */

  predicate SentElsewhere(w: World) { w.outbox.Some? && w.outbox.value.sent ==> !w.run.Publish? }

  lemma {:induction false} DoneLeavesPublish(w: World, u: nat)
    requires SentElsewhere(w)
    ensures SentElsewhere(PubDoneStep(w, u)) && SentElsewhere(PubIntentStep(w, u))
  {
  }

  lemma {:induction false} PublisherLeavesPublish(c: Config, w: World, e: Event)
    requires SentElsewhere(w)
    ensures SentElsewhere(PubStep(c, w, e))
  {
    if e.PubIntent? || e.PubDone? {
      hide PubIntentStep, PubDoneStep, Carries;
      DoneLeavesPublish(w, e.u);
    } else {
      hide PubStep, Carries;
    }
  }

  lemma {:induction false} OthersLeavePublish(c: Config, w: World, e: Event)
    ensures OthersStep(w, e).run.Publish? ==> w.run.Publish?
    ensures Inv(c, w) && WorkersStep(c, w, e).run.Publish? ==> w.run.Publish?
  {
    hide Inv, WorkStep, TestStep;
    if Inv(c, w) && e.Work? { WorkLeavesPublish(c, w, e.u); }
  }

  lemma {:induction false} WorkLeavesPublish(c: Config, w: World, u: nat)
    requires Inv(c, w)
    ensures WorkStep(c, w, u).run.Publish? ==> w.run.Publish?
  {
    hide Inv, Max, NextAttempt, PendingAttempts, KeyOf, Alters, AllTrue;
    WorkersAre(c, w, u);
  }

  lemma {:induction false} SentStep(c: Config, w: World, e: Event)
    requires SentElsewhere(w) && Inv(c, w)
    ensures SentElsewhere(Step(c, w, e))
  {
    StepIs(c, w, e);
    hide Inv, Carries;
    hide Step, WriteStep, OthersStep, SignStep, WorkersStep, PubStep, IsWrite, IsOther, IsSign, IsWork;
    if IsOther(e) || IsWork(e) {
      OthersLeavePublish(c, w, e);
    } else if !IsWrite(e) && !IsSign(e) {
      PublisherLeavesPublish(c, w, e);
    }
  }

  lemma {:induction false} SentRun(c: Config, w: World, events: seq<Event>)
    requires SentElsewhere(w) && Inv(c, w)
    ensures SentElsewhere(Run(c, w, events))
    decreases |events|
  {
    hide Inv, Step;
    if events != [] {
      SentStep(c, w, events[0]);
      StepKeeps(c, w, events[0]);
      SentRun(c, Step(c, w, events[0]), events[1..]);
    }
  }

  /** A publication that the outbox calls sent is found in REPORT or a terminal state, never in PUBLISH: a resumption
      always has work to do. */
  lemma {:induction false} SentHasMovedOn(c: Config, events: seq<Event>)
    ensures var w := Run(c, Start(), events);
            w.outbox.Some? && w.outbox.value.sent ==> w.run.Report? || Terminal(w.run)
  {
    hide Step, Run, RowsOk, CallsOk, NotesOk, LogOk, Backed;
    StartHolds(c);
    RunKeeps(c, Start(), events);
    SentRun(c, Start(), events);
  }

  lemma {:induction false} TwoSteps(c: Config, w: World, op: Op)
    requires w.run.Implement? && w.writer.None? && op !in w.log && Replay(c.seed, w.log + [op]).Some?
    ensures var looked := Step(c, w, WriteLook(op));
            looked == w.(writer := Some(op)) && Step(c, looked, WriteCommit) == w.(log := w.log + [op])
  {
    hide Replay;
  }

  /** The workspace's commit and this model's mutation are the same: where the table holds the log and the operation
      passed the guards, the table with the new row holds the next log; and the new tree is the operation's. */
  lemma {:induction false} CommitIsOneStep(c: Config, w: World, rows: seq<Workspaces.Row>, op: Op, before: Tree,
                                           made: Tree)
    requires Workspaces.GoodRows(c.seed, rows) && Workspaces.Ops(rows) == w.log && w.run.Implement? && w.writer.None?
    requires (forall i :: 0 <= i < |rows| ==> rows[i].op != op)
    requires Replay(c.seed, w.log) == Some(before) && Effect(op, before) == Some(made)
    ensures var rows' := rows + [Workspaces.Row(op, ChangesOf(c.seed, made))];
            var looked := Step(c, w, WriteLook(op));
            var w' := Step(c, looked, WriteCommit);
            && looked.writer == Some(op) && looked.log == w.log
            && Workspaces.GoodRows(c.seed, rows') && Workspaces.Ops(rows') == w'.log
            && CurrentTree(c, w') == made && CurrentChanges(c, w') == rows'[|rows|].result
  {
    hide Effect, ChangesOf, Step;
    Workspaces.GoodRowsGrow(c.seed, rows, op, before, made);
    var rows' := rows + [Workspaces.Row(op, ChangesOf(c.seed, made))];
    assert Workspaces.Ops(rows') == w.log + [op] by { assert rows'[..|rows|] == rows; }
    assert (w.log + [op])[..|w.log + [op]|] == w.log + [op];
    forall i | 0 <= i < |w.log| ensures w.log[i] != op { assert rows[i].op != op; }
    hide Workspaces.GoodRows, Workspaces.Ops;
    TwoSteps(c, w, op);
  }
}
