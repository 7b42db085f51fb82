/** One run from plan to pull request, with every process free to stop or be overtaken between two steps. A read is a
    step, and so is a transaction, which begins with its first write: what a `with store.connection:` block reads
    before that may be out of date when it writes. Two kinds of neighbours are one step. `transition`, whose guarded
    write finds the state that was read or raises, is the moment of that write. What `_resume` and the loading of
    files read of the workspace is read at once: after the intent only a late mutation could come between
    (`LifecycleSafety.Late`). */
module Lifecycle {
  import opened Text
  import opened Patch
  import opened Mutations
  import opened RunStates

  /* ---- durable tables ---- */

  datatype Verdict = Pending | Pass | Fail

  datatype Key = Key(attempt: nat, profile: string)

  /** `validation_attempts`. */
  datatype Row = Row(generation: nat, verdict: Verdict)

  /** What an approval names. Its digests are injective hashes, so equal digests are equal values. */
  datatype Binding = Binding(generation: nat, changes: Changes, title: string, approver: string, expires: nat)

  datatype ApprovalStatus = Requested | Approved | Consumed

  datatype Approval = Approval(binding: Binding, status: ApprovalStatus)

  datatype Outbox = Outbox(approval: nat, binding: Binding, sent: bool)

  /* ---- what a process remembers ---- */

  datatype Checkpoint = Checkpoint(attempt: nat, passed: bool)

  /** What a validation is for: the next required profile of a coordinator's attempt, or a call through the gateway,
      which always validates attempt 1. */
  datatype Job = ForAttempt(attempt: nat, results: seq<bool>) | ForCall(profile: string)

  /** Where a call of `ImplementationValidationCoordinator.run` or of the gateway's validation stands. */
  datatype Worker =
    | Entered
    | NotReady
    | AtValidate
    | HasLast(last: Option<Checkpoint>)
    | Leaving(target: RunState)
    | Counting
    | Counted(latest: nat)
    | Next(attempt: nat)
    | Editing(attempt: nat)
    | Checking(job: Job)
    | Staged(job: Job)
    | Located(job: Job, generation: nat)
    | Missed(job: Job, generation: nat)
    | Testing(job: Job, generation: nat)
    | Tested(job: Job, generation: nat, ok: bool)
    | Saved(attempt: nat, passed: bool)

  /** An approver's call that has found the approval requested, its own and not expired. */
  datatype Signer = Signer(id: nat, approver: string, at: nat)

  datatype Publisher =
    | Started(now: nat)
    | HasRow(id: nat, row: Approval, now: nat)
    | InState(id: nat, row: Approval, now: nat)
    | HasGeneration(id: nat, row: Approval, now: nat, generation: nat)
    | HasDiff(id: nat, row: Approval, now: nat, generation: nat, changes: Changes)
    | Exact(id: nat, binding: Binding)
    | HasCheckpoint(id: nat, binding: Binding, attempt: nat)
    | Cleared(id: nat, binding: Binding)
    | Asked
    | HasOutbox(id: nat)
    | Resuming(id: nat, binding: Binding)
    | Intended(id: nat, binding: Binding)
    | Loaded(id: nat, binding: Binding, files: Changes)
    | Sent(id: nat)

  /** Files given to the remote under an approval. */
  datatype Handoff = Handoff(approval: nat, title: string, files: Changes)

  /** Who gave each approval and when, and when the publication began that last found one exact. */
  datatype Notes = Notes(signed: map<nat, (string, nat)>, compared: map<nat, nat>)

  /** `log` is the mutation table, whose length is the current generation. `writer` is the mutation, if any, that
      holds the workspace lock and has seen the run in IMPLEMENT. No table holds the clock; `tested`, every profile
      that really exited with success on a copy of a tree; `handed`; and the `notes`. */
  datatype World = World(
    run: RunState, clock: nat, log: seq<Op>, rows: map<Key, Row>, checkpoints: map<nat, bool>,
    approvals: map<nat, Approval>, outbox: Option<Outbox>,
    tested: set<(string, Tree)>, handed: seq<Handoff>, notes: Notes,
    writer: Option<Op>, workers: map<nat, Worker>, signers: map<nat, Signer>, publishers: map<nat, Publisher>)

  /** `profiles` are those a call through the gateway may name. */
  datatype Config = Config(seed: Tree, required: seq<string>, attempts: nat, profiles: set<string>)

  function Start(): World {
    World(New, 0, [], map[], map[], map[], None, {}, [], Notes(map[], map[]), None, map[], map[], map[])
  }

  function TreeAt(c: Config, log: seq<Op>, generation: nat): Tree {
    if generation <= |log| && Replay(c.seed, log[..generation]).Some? then Replay(c.seed, log[..generation]).value
    else c.seed
  }

  function CurrentTree(c: Config, w: World): Tree { TreeAt(c, w.log, |w.log|) }

  function CurrentChanges(c: Config, w: World): Changes { ChangesOf(c.seed, CurrentTree(c, w)) }

  lemma {:induction false} HasMax(s: set<nat>)
    requires s != {}
    ensures exists m :: m in s && forall k :: k in s ==> k <= m
  {
    var x :| x in s;
    if s != {x} {
      HasMax(s - {x});
      var m :| m in s - {x} && forall k :: k in s - {x} ==> k <= m;
      var top := if x > m then x else m;
      assert forall k :: k in s ==> k == x || k in s - {x};
      assert top in s && forall k :: k in s ==> k <= top;
    }
  }

  /** `COALESCE(MAX(...), 0)`. */
  function Max(s: set<nat>): (m: nat)
    ensures s == {} ==> m == 0
    ensures s != {} ==> m in s && forall k :: k in s ==> k <= m
  {
    if s == {} then 0
    else
      HasMax(s);
      var m :| m in s && forall k :: k in s ==> k <= m;
      m
  }

  function Latest(w: World): nat { Max(w.checkpoints.Keys) }

  function Last(w: World): Option<Checkpoint> {
    if w.checkpoints == map[] then None else Some(Checkpoint(Latest(w), w.checkpoints[Latest(w)]))
  }

  function PendingAttempts(w: World): set<nat> {
    set k | k in w.rows && w.rows[k].verdict == Pending :: k.attempt
  }

  /** The second read of `next_validation_attempt`, after the first gave `latest`. */
  function NextAttempt(w: World, latest: nat): nat {
    var running := Max(PendingAttempts(w));
    if running > latest then running else latest + 1
  }

  function AllTrue(results: seq<bool>): bool { results != [] && forall i :: 0 <= i < |results| ==> results[i] }

  /* ---- steps ---- */

  datatype Event =
    | Wait(time: nat)
    | Plan
    | Abort(target: RunState)
    | Finish
    | WriteLook(op: Op) | WriteCommit | WriteStop
    | Request(id: nat, binding: Binding)
    | SignLook(v: nat, id: nat, approver: string) | SignWrite(v: nat) | SignStop(v: nat)
    | Enter(u: nat) | Call(u: nat, profile: string) | Work(u: nat) | Test(u: nat, ok: bool, seen: Tree) | Leave(u: nat)
    | PubStart(u: nat) | PubRead(u: nat, id: nat) | PubState(u: nat) | PubGeneration(u: nat) | PubDiff(u: nat)
    | PubExact(u: nat, title: string) | PubCheckpoint(u: nat) | PubGenerations(u: nat) | PubIntent(u: nat)
    | ResumeState(u: nat) | ResumeOutbox(u: nat) | ResumeApproval(u: nat) | ResumeCheck(u: nat)
    | PubLoad(u: nat) | PubHand(u: nat) | PubDone(u: nat) | PubCrash(u: nat)

  /* Mutations, one at a time under the workspace lock: the last look at the run, then the transaction. Generations come
     and go as `Workspaces.Workspace` shows; what is left of them here is the table that they replay. */

  function WriteStep(c: Config, w: World, e: Event): (w': World)
    ensures w' == w.(log := w'.log, writer := w'.writer)
  {
    match e
    case WriteLook(op) =>
      if w.writer.None? && w.run == Implement && op !in w.log && Replay(c.seed, w.log + [op]).Some?
      then w.(writer := Some(op)) else w
    case WriteCommit => if w.writer.Some? then w.(log := w.log + [w.writer.value], writer := None) else w
    case WriteStop => w.(writer := None)
    case _ => w
  }

  /** Planning, reporting, cancelling and requesting, by anyone at any time. Requests may name anything: what they name
      is compared at publication. */
  function OthersStep(w: World, e: Event): (w': World)
    ensures w' == w.(run := w'.run, clock := w'.clock, approvals := w'.approvals)
  {
    match e
    case Wait(time) => w.(clock := w.clock + time)
    case Plan => if Rank(w.run) < 3 then w.(run := [Intake, Analyze, PlanReady][Rank(w.run)]) else w
    case Abort(t) => if !Terminal(w.run) && t in {Failed, Cancelled} then w.(run := t) else w
    case Finish => if w.run == Report then w.(run := Succeeded) else w
    case Request(id, b) => if id in w.approvals then w else w.(approvals := w.approvals[id := Approval(b, Requested)])
    case _ => w
  }

  /** `approve`: the row is read, then updated, whatever became of it in between. */
  function SignStep(w: World, e: Event): (w': World)
    ensures w' == w.(approvals := w'.approvals, notes := w'.notes, signers := w'.signers)
  {
    match e
    case SignLook(v, id, approver) =>
      if id in w.approvals && w.approvals[id].status == Requested && w.approvals[id].binding.approver == approver
         && w.clock < w.approvals[id].binding.expires
      then w.(signers := w.signers[v := Signer(id, approver, w.clock)]) else w.(signers := w.signers - {v})
    case SignWrite(v) =>
      if v !in w.signers || w.signers[v].id !in w.approvals then w
      else
        var Signer(id, approver, at) := w.signers[v];
        w.(approvals := w.approvals[id := w.approvals[id].(status := Approved)],
           notes := w.notes.(signed := w.notes.signed[id := (approver, at)]),
           signers := w.signers - {v})
    case SignStop(v) => w.(signers := w.signers - {v})
    case _ => w
  }

  /* Coordinators and validations. */

  function Put(w: World, u: nat, p: Worker): World { w.(workers := w.workers[u := p]) }

  /** The call returns or raises. */
  function End(w: World, u: nat): World { w.(workers := w.workers - {u}) }

  /** One call's step, which leaves no test open. */
  predicate Alters(w: World, w': World, u: nat) {
    && (forall v :: v in w'.workers && v != u ==> v in w.workers && w'.workers[v] == w.workers[v])
    && (u in w'.workers && !(u in w.workers && w'.workers[u] == w.workers[u]) ==>
          !w'.workers[u].Testing? && !w'.workers[u].Tested?)
  }

  /** All required profiles have results. */
  predicate Complete(c: Config, job: Job) { job.ForAttempt? && |job.results| >= |c.required| }

  function KeyOf(c: Config, job: Job): Key {
    match job
    case ForAttempt(a, results) => Key(a, if |results| < |c.required| then c.required[|results|] else "")
    case ForCall(profile) => Key(1, profile)
  }

  /** Back in the caller with a result. */
  function Onward(w: World, u: nat, job: Job, ok: bool): World {
    match job
    case ForAttempt(a, results) => Put(w, u, Checking(ForAttempt(a, results + [ok])))
    case ForCall(_) => End(w, u)
  }

  /** `ImplementationValidationCoordinator.run` on entry: is there anything to resume? */
  function EnterStep(w: World, u: nat): (w': World)
    requires u in w.workers
    ensures w' == w.(workers := w'.workers) && Alters(w, w', u)
  {
    match w.workers[u]
    case Entered => Put(w, u, if w.run == PlanReady then Leaving(Implement) else NotReady)
    case NotReady => Put(w, u, if w.run == Validate then AtValidate else Counting)
    case AtValidate => Put(w, u, HasLast(Last(w)))
    case HasLast(last) =>
      Put(w, u, if last.None? || PendingAttempts(w) != {} then Counting
                else Leaving(if last.value.passed then AwaitingPublishApproval else Implement))
    case _ => w
  }

  /** The move that makes ready, and which attempt comes next. */
  function CountStep(w: World, u: nat): (w': World)
    requires u in w.workers
    ensures w' == w.(run := w'.run, workers := w'.workers) && Alters(w, w', u)
  {
    match w.workers[u]
    case Leaving(target) =>
      if !CanMove(w.run, target) then End(w, u)
      else if target == Implement then Put(w.(run := target), u, Counting)
      else End(w.(run := target), u)
    case Counting => Put(w, u, Counted(Latest(w)))
    case Counted(latest) => Put(w, u, Next(NextAttempt(w, latest)))
    case _ => w
  }

  /** An attempt up to its validations. */
  function AttemptStep(c: Config, w: World, u: nat): (w': World)
    requires u in w.workers
    ensures w' == w.(run := w'.run, workers := w'.workers) && Alters(w, w', u)
  {
    match w.workers[u]
    case Next(a) =>
      if a > c.attempts then End(w, u)
      else if w.run == Implement then Put(w, u, Editing(a))
      else if w.run == Validate then Put(w, u, Checking(ForAttempt(a, [])))
      else End(w, u)
    case Editing(a) =>
      if CanMove(w.run, Validate) then Put(w.(run := Validate), u, Checking(ForAttempt(a, []))) else End(w, u)
    case _ => w
  }

  /** From its checkpoint to approval or to the next attempt. */
  function DecideStep(c: Config, w: World, u: nat): (w': World)
    requires u in w.workers && w.workers[u].Saved?
    ensures w' == w.(run := w'.run, workers := w'.workers) && Alters(w, w', u)
  {
    var Saved(a, passed) := w.workers[u];
    if passed then
      if CanMove(w.run, AwaitingPublishApproval) then End(w.(run := AwaitingPublishApproval), u) else End(w, u)
    else if a < c.attempts && CanMove(w.run, Implement) then Put(w.(run := Implement), u, Next(a + 1))
    else End(w, u)
  }

  /** `save_validation_checkpoint`, which replaces what is there. */
  function SaveStep(c: Config, w: World, u: nat): (w': World)
    requires u in w.workers && w.workers[u].Checking? && Complete(c, w.workers[u].job)
    ensures w' == w.(checkpoints := w'.checkpoints, workers := w'.workers) && Alters(w, w', u)
  {
    var ForAttempt(a, results) := w.workers[u].job;
    Put(w.(checkpoints := w.checkpoints[a := AllTrue(results)]), u, Saved(a, AllTrue(results)))
  }

  predicate Finished(w: World, k: Key) { k in w.rows && w.rows[k].verdict != Pending }

  /** `ValidationService.run`: state, generation, stored result. */
  function ValidateStep(c: Config, w: World, u: nat): (w': World)
    requires u in w.workers
    ensures w' == w.(workers := w'.workers) && Alters(w, w', u)
  {
    match w.workers[u]
    case Checking(job) =>
      if Complete(c, job) then w else if w.run == Validate then Put(w, u, Staged(job)) else End(w, u)
    case Staged(job) => Put(w, u, Located(job, |w.log|))
    case Located(job, g) =>
      var k := KeyOf(c, job);
      if Finished(w, k) then Onward(w, u, job, w.rows[k].verdict == Pass) else Put(w, u, Missed(job, g))
    case _ => w
  }

  /** `begin_validation`: an `INSERT OR IGNORE`. */
  function BeginStep(c: Config, w: World, u: nat): (w': World)
    requires u in w.workers && w.workers[u].Missed?
    ensures w' == w.(rows := w'.rows, workers := w'.workers)
  {
    var Missed(job, g) := w.workers[u];
    var k := KeyOf(c, job);
    Put(w.(rows := if k in w.rows then w.rows else w.rows[k := Row(g, Pending)]), u, Testing(job, g))
  }

  /** The sandbox's verdict on the generation directory read earlier. The seed's and the current one are there; any
      other may be on its way out, so that the copy holds anything. */
  function TestStep(c: Config, w: World, u: nat, ok: bool, seen: Tree): (w': World)
    ensures w' == w.(tested := w'.tested, workers := w'.workers)
  {
    if u !in w.workers || !w.workers[u].Testing? then w
    else
      var Testing(job, g) := w.workers[u];
      var tree := if g == 0 || g == |w.log| then TreeAt(c, w.log, g) else seen;
      Put(w.(tested := if ok then w.tested + {(KeyOf(c, job).profile, tree)} else w.tested), u, Tested(job, g, ok))
  }

  /** The row's guarded update. */
  function FinishStep(c: Config, w: World, u: nat): (w': World)
    requires u in w.workers && w.workers[u].Tested?
    ensures w' == w.(rows := w'.rows, workers := w'.workers)
  {
    var Tested(job, g, ok) := w.workers[u];
    var k := KeyOf(c, job);
    if k in w.rows && w.rows[k].verdict == Pending then
      Onward(w.(rows := w.rows[k := w.rows[k].(verdict := if ok then Pass else Fail)]), u, job, ok)
    else End(w, u)
  }

  /** The next step of one call. */
  function WorkStep(c: Config, w: World, u: nat): (w': World)
    ensures w' == w.(run := w'.run, rows := w'.rows, checkpoints := w'.checkpoints, workers := w'.workers)
  {
    if u !in w.workers then w
    else
      var p := w.workers[u];
      if p.Leaving? || p.Counting? || p.Counted? then CountStep(w, u)
      else if p.Next? || p.Editing? then AttemptStep(c, w, u)
      else if p.Checking? && Complete(c, p.job) then SaveStep(c, w, u)
      else if p.Checking? || p.Staged? || p.Located? then ValidateStep(c, w, u)
      else if p.Missed? then BeginStep(c, w, u)
      else if p.Tested? then FinishStep(c, w, u)
      else if p.Saved? then DecideStep(c, w, u)
      else EnterStep(w, u)
  }

  function WorkersStep(c: Config, w: World, e: Event): (w': World)
    ensures w' == w.(run := w'.run, rows := w'.rows, checkpoints := w'.checkpoints, tested := w'.tested,
                     workers := w'.workers)
  {
    match e
    case Enter(u) => if u in w.workers then w else Put(w, u, Entered)
    case Call(u, profile) =>
      if u in w.workers || profile !in c.profiles then w else Put(w, u, Checking(ForCall(profile)))
    case Work(u) => WorkStep(c, w, u)
    case Test(u, ok, seen) => TestStep(c, w, u, ok, seen)
    case Leave(u) => End(w, u)
    case _ => w
  }

  /* `PublicationService._publish` and `_resume`; a refusal ends the call. */

  function Stop(w: World, u: nat): World { w.(publishers := w.publishers - {u}) }

  function Go(w: World, u: nat, p: Publisher): World { w.(publishers := w.publishers[u := p]) }

  /** The generations of the attempt's passed rows. */
  function PassedGenerations(w: World, attempt: nat): set<nat> {
    set k | k in w.rows && k.attempt == attempt && w.rows[k].verdict == Pass :: w.rows[k].generation
  }

  /** The call's reads before it compares anything. */
  function PubReadStep(c: Config, w: World, e: Event): (w': World)
    ensures w' == w.(publishers := w'.publishers)
  {
    match e
    case PubStart(u) => Go(w, u, Started(w.clock))
    case PubRead(u, id) =>
      if u !in w.publishers || !w.publishers[u].Started? then w
      else if id in w.approvals then Go(w, u, HasRow(id, w.approvals[id], w.publishers[u].now))
      else Stop(w, u)
    case PubState(u) =>
      if u !in w.publishers || !w.publishers[u].HasRow? then w
      else
        var HasRow(id, row, now) := w.publishers[u];
        if w.run == AwaitingPublishApproval then Go(w, u, InState(id, row, now)) else Stop(w, u)
    case PubGeneration(u) =>
      if u !in w.publishers || !w.publishers[u].InState? then w
      else
        var InState(id, row, now) := w.publishers[u];
        Go(w, u, HasGeneration(id, row, now, |w.log|))
    case PubDiff(u) =>
      if u !in w.publishers || !w.publishers[u].HasGeneration? then w
      else
        var HasGeneration(id, row, now, g) := w.publishers[u];
        Go(w, u, HasDiff(id, row, now, g, CurrentChanges(c, w)))
    case _ => w
  }

  function PubExactStep(w: World, u: nat, title: string): (w': World)
    ensures w' == w.(notes := w'.notes, publishers := w'.publishers)
  {
    if u !in w.publishers || !w.publishers[u].HasDiff? then w
    else
      var HasDiff(id, row, now, g, d) := w.publishers[u];
      if row.status == Approved && now < row.binding.expires
         && row.binding == Binding(g, d, title, row.binding.approver, row.binding.expires)
      then Go(w.(notes := w.notes.(compared := w.notes.compared[id := now])), u, Exact(id, row.binding))
      else Stop(w, u)
  }

  function PubCheckpointStep(w: World, u: nat): (w': World)
    ensures w' == w.(publishers := w'.publishers)
  {
    if u !in w.publishers || !w.publishers[u].Exact? then w
    else if w.checkpoints != map[] && w.checkpoints[Latest(w)] then
      Go(w, u, HasCheckpoint(w.publishers[u].id, w.publishers[u].binding, Latest(w)))
    else Stop(w, u)
  }

  function PubGenerationsStep(w: World, u: nat): (w': World)
    ensures w' == w.(publishers := w'.publishers)
  {
    if u !in w.publishers || !w.publishers[u].HasCheckpoint? then w
    else
      var HasCheckpoint(id, b, a) := w.publishers[u];
      if PassedGenerations(w, a) == {b.generation} then Go(w, u, Cleared(id, b)) else Stop(w, u)
  }

  /** Where publication takes the run, where from it may have an intent, and what it does to approvals. */
  predicate Carries(w: World, w': World) {
    && (w'.run == w.run || (w.run.AwaitingPublishApproval? && w'.run.Publish?) || (w.run.Publish? && w'.run.Report?))
    && (w.outbox.None? && w'.outbox.Some? ==> w.run.AwaitingPublishApproval?)
    && (forall id :: id in w.approvals ==>
          id in w'.approvals
          && (w'.approvals[id] == w.approvals[id]
              || (w.outbox.None? && w.approvals[id].status == Approved && w'.approvals[id].status == Consumed)))
  }

  /** The intent transaction: consume the approval, insert the outbox row, move the run. */
  function PubIntentStep(w: World, u: nat): (w': World)
    ensures w' == w.(run := w'.run, approvals := w'.approvals, outbox := w'.outbox, publishers := w'.publishers)
    ensures Carries(w, w')
  {
    if u !in w.publishers || !w.publishers[u].Cleared? then w
    else
      var Cleared(id, b) := w.publishers[u];
      if id in w.approvals && w.approvals[id].status == Approved && w.outbox.None? && w.run == AwaitingPublishApproval
      then
        Go(w.(approvals := w.approvals[id := w.approvals[id].(status := Consumed)],
              outbox := Some(Outbox(id, b, false)), run := Publish),
           u, Intended(id, b))
      else Stop(w, u)
  }

  /** A resumption's reads and its comparison. An outbox that is already sent ends the call with an answer. */
  function ResumeStep(c: Config, w: World, e: Event): (w': World)
    ensures w' == w.(publishers := w'.publishers)
  {
    match e
    case ResumeState(u) => if w.run == Publish then Go(w, u, Asked) else Stop(w, u)
    case ResumeOutbox(u) =>
      if u !in w.publishers || !w.publishers[u].Asked? then w
      else if w.outbox.Some? && !w.outbox.value.sent then Go(w, u, HasOutbox(w.outbox.value.approval))
      else Stop(w, u)
    case ResumeApproval(u) =>
      if u !in w.publishers || !w.publishers[u].HasOutbox? then w
      else
        var id := w.publishers[u].id;
        if id in w.approvals && w.approvals[id].status == Consumed then Go(w, u, Resuming(id, w.approvals[id].binding))
        else Stop(w, u)
    case ResumeCheck(u) =>
      if u !in w.publishers || !w.publishers[u].Resuming? then w
      else
        var Resuming(id, b) := w.publishers[u];
        if |w.log| == b.generation && CurrentChanges(c, w) == b.changes then Go(w, u, Intended(id, b)) else Stop(w, u)
    case _ => w
  }

  function PubLoadStep(c: Config, w: World, u: nat): (w': World)
    ensures w' == w.(publishers := w'.publishers)
  {
    if u !in w.publishers || !w.publishers[u].Intended? then w
    else Go(w, u, Loaded(w.publishers[u].id, w.publishers[u].binding, CurrentChanges(c, w)))
  }

  function PubHandStep(w: World, u: nat): (w': World)
    ensures w' == w.(handed := w'.handed, publishers := w'.publishers)
  {
    if u !in w.publishers || !w.publishers[u].Loaded? then w
    else
      var Loaded(id, b, files) := w.publishers[u];
      Go(w.(handed := w.handed + [Handoff(id, b.title, files)]), u, Sent(id))
  }

  function PubDoneStep(w: World, u: nat): (w': World)
    ensures w' == w.(run := w'.run, outbox := w'.outbox, publishers := w'.publishers) && Carries(w, w')
  {
    if u !in w.publishers || !w.publishers[u].Sent? then w
    else
      Stop(w.(outbox := if w.outbox.Some? then Some(w.outbox.value.(sent := true)) else None,
              run := if w.run == Publish then Report else w.run), u)
  }

  function PubStep(c: Config, w: World, e: Event): (w': World)
    ensures w' == w.(run := w'.run, approvals := w'.approvals, outbox := w'.outbox, handed := w'.handed,
                     notes := w'.notes, publishers := w'.publishers)
    ensures Carries(w, w') && (!e.PubIntent? && !e.PubDone? ==> w'.run == w.run && w'.outbox == w.outbox)
  {
    match e
    case PubExact(u, title) => PubExactStep(w, u, title)
    case PubCheckpoint(u) => PubCheckpointStep(w, u)
    case PubGenerations(u) => PubGenerationsStep(w, u)
    case PubIntent(u) => PubIntentStep(w, u)
    case PubLoad(u) => PubLoadStep(c, w, u)
    case PubHand(u) => PubHandStep(w, u)
    case PubDone(u) => PubDoneStep(w, u)
    case PubCrash(u) => Stop(w, u)
    case _ =>
      if e.ResumeState? || e.ResumeOutbox? || e.ResumeApproval? || e.ResumeCheck? then ResumeStep(c, w, e)
      else PubReadStep(c, w, e)
  }

  predicate IsWrite(e: Event) { e.WriteLook? || e.WriteCommit? || e.WriteStop? }

  predicate IsOther(e: Event) { e.Wait? || e.Plan? || e.Abort? || e.Finish? || e.Request? }

  predicate IsSign(e: Event) { e.SignLook? || e.SignWrite? || e.SignStop? }

  predicate IsWork(e: Event) { e.Enter? || e.Call? || e.Work? || e.Test? || e.Leave? }

  function Step(c: Config, w: World, e: Event): World {
    if IsWrite(e) then WriteStep(c, w, e)
    else if IsOther(e) then OthersStep(w, e)
    else if IsSign(e) then SignStep(w, e)
    else if IsWork(e) then WorkersStep(c, w, e)
    else PubStep(c, w, e)
  }

  lemma {:induction false} StepIs(c: Config, w: World, e: Event)
    ensures IsWrite(e) ==> Step(c, w, e) == WriteStep(c, w, e)
    ensures IsOther(e) ==> Step(c, w, e) == OthersStep(w, e)
    ensures IsSign(e) ==> Step(c, w, e) == SignStep(w, e)
    ensures IsWork(e) ==> Step(c, w, e) == WorkersStep(c, w, e)
    ensures !IsWrite(e) && !IsOther(e) && !IsSign(e) && !IsWork(e) ==> Step(c, w, e) == PubStep(c, w, e)
  {
    hide OthersStep, SignStep, WorkersStep, PubStep, WriteStep, Carries;
  }

  function Run(c: Config, w: World, events: seq<Event>): World
    decreases |events|
  {
    if events == [] then w else Run(c, Step(c, w, events[0]), events[1..])
  }

  lemma {:induction false} RunAppend(c: Config, w: World, first: seq<Event>, more: seq<Event>)
    ensures Run(c, w, first + more) == Run(c, Run(c, w, first), more)
    decreases |first|
  {
    hide Step;
    if first == [] {
      assert first + more == more;
    } else {
      assert (first + more)[0] == first[0] && (first + more)[1..] == first[1..] + more;
      RunAppend(c, Step(c, w, first[0]), first[1..], more);
    }
  }
}
