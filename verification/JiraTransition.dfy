/** The JIRA status transition: one approval, any number of reporters and approvers
    (src/agent_runtime/reporting.py, `_report` and `approve_transition`). */
module JiraTransition {
  import opened Text

  datatype Approval = Pending | Approved | Consumed

  datatype Phase = Intent | PostSucceeded | Uncertain | Satisfied

  /** `jira_transition_outbox`, whose primary key is the approval id. */
  datatype Row = Row(target: string, phase: Phase)

  /** Where a reporter's or an approver's call stands. */
  datatype Worker =
    | Approving(id: nat)
    | HasIntent(id: nat, intent: Option<Row>)
    | HasApproval(id: nat, intent: Option<Row>, approval: Option<Approval>)
    | HasTarget(id: nat, target: string)
    | MustPost(id: nat)
    | Posted(id: nat, ok: bool)
    | SawTarget(id: nat)
    | Completing(id: nat)

  /** `posts` lists the approval id of each POST issued; `accepted` those whose POST returned success; `seen`
      the statuses read from JIRA for an approval. JIRA keeps no such record for the runtime. */
  datatype World = World(
    approvals: map<nat, Approval>, outbox: map<nat, Row>, remote: string,
    posts: seq<nat>, accepted: set<nat>, seen: set<(nat, string)>, completed: set<nat>,
    workers: map<nat, Worker>)

  datatype Event =
    | Request(id: nat)
    | ApproveRead(u: nat, id: nat)
    | ApproveWrite(u: nat)
    | RemoteMoves(status: string)
    | Report(u: nat, id: nat)
    | ReadApproval(u: nat)
    | AskTarget(u: nat, target: string)
    | Claim(u: nat)
    | Post(u: nat, effect: bool, ok: bool)
    | Record(u: nat)
    | CheckStatus(u: nat)
    | RecordSeen(u: nat)
    | Complete(u: nat)
    | Crash(u: nat)

  const START := World(map[], map[], "", [], {}, {}, {}, map[])

  function Stop(w: World, u: nat): World { w.(workers := w.workers - {u}) }

  function Go(w: World, u: nat, p: Worker): World { w.(workers := w.workers[u := p]) }

  function Find(outbox: map<nat, Row>, id: nat): Option<Row> { if id in outbox then Some(outbox[id]) else None }

  /** The claim transaction: consume the approval and insert the intent, or roll both back. */
  function ClaimStep(w: World, u: nat): World
    requires u in w.workers && w.workers[u].HasTarget?
  {
    var HasTarget(id, target) := w.workers[u];
    if id in w.approvals && w.approvals[id] == Approved && id !in w.outbox then
      Go(w.(approvals := w.approvals[id := Consumed], outbox := w.outbox[id := Row(target, Intent)]), u, MustPost(id))
    else Stop(w, u)
  }

  function PostStep(w: World, u: nat, effect: bool, ok: bool): World
    requires u in w.workers && w.workers[u].MustPost?
  {
    var id := w.workers[u].id;
    Go(w.(posts := w.posts + [id],
          remote := if effect && id in w.outbox then w.outbox[id].target else w.remote,
          accepted := if ok then w.accepted + {id} else w.accepted),
       u, Posted(id, ok))
  }

  function RecordStep(w: World, u: nat): World
    requires u in w.workers && w.workers[u].Posted?
  {
    var Posted(id, ok) := w.workers[u];
    var phase := if ok then PostSucceeded else Uncertain;
    var outbox := if id in w.outbox then w.outbox[id := w.outbox[id].(phase := phase)] else w.outbox;
    if ok then Go(w.(outbox := outbox), u, Completing(id)) else Stop(w.(outbox := outbox), u)
  }

  /** An intent met on arrival: done if the POST was recorded, otherwise settled only by JIRA's own status. */
  function CheckStep(w: World, u: nat): World
    requires u in w.workers && w.workers[u].HasApproval? && w.workers[u].intent.Some?
  {
    var HasApproval(id, intent, _) := w.workers[u];
    if intent.value.phase == PostSucceeded then Go(w, u, Completing(id))
    else if w.remote == intent.value.target then Go(w.(seen := w.seen + {(id, w.remote)}), u, SawTarget(id))
    else Stop(w, u)
  }

  function SeenStep(w: World, u: nat): World
    requires u in w.workers && w.workers[u].SawTarget?
  {
    var id := w.workers[u].id;
    Go(w.(outbox := if id in w.outbox then w.outbox[id := w.outbox[id].(phase := Satisfied)] else w.outbox), u,
       Completing(id))
  }

  function RequestStep(w: World, id: nat): World {
    if id in w.approvals then w else w.(approvals := w.approvals[id := Pending])
  }

  /** An approver reads the row, and only later writes it: the two are separate steps here. */
  function ApproveReadStep(w: World, u: nat, id: nat): World {
    if id in w.approvals && w.approvals[id] == Pending then Go(w, u, Approving(id)) else Stop(w, u)
  }

  function ApproveWriteStep(w: World, u: nat): World
    requires u in w.workers && w.workers[u].Approving?
  {
    Stop(w.(approvals := w.approvals[w.workers[u].id := Approved]), u)
  }

  function ReportStep(w: World, u: nat, id: nat): World { Go(w, u, HasIntent(id, Find(w.outbox, id))) }

  function ReadApprovalStep(w: World, u: nat): World
    requires u in w.workers && w.workers[u].HasIntent?
  {
    var id := w.workers[u].id;
    Go(w, u, HasApproval(id, w.workers[u].intent, if id in w.approvals then Some(w.approvals[id]) else None))
  }

  function AskStep(w: World, u: nat, target: string): World
    requires u in w.workers && w.workers[u].HasApproval?
  {
    if w.workers[u].approval == Some(Approved) then Go(w, u, HasTarget(w.workers[u].id, target)) else Stop(w, u)
  }

  function CompleteStep(w: World, u: nat): World
    requires u in w.workers && w.workers[u].Completing?
  {
    Stop(w.(completed := w.completed + {w.workers[u].id}), u)
  }

  function Step(w: World, e: Event): World {
    match e
    case Request(id) => RequestStep(w, id)
    case RemoteMoves(s) => w.(remote := s)
    case ApproveRead(u, id) => ApproveReadStep(w, u, id)
    case ApproveWrite(u) => if u in w.workers && w.workers[u].Approving? then ApproveWriteStep(w, u) else w
    case Report(u, id) => ReportStep(w, u, id)
    case ReadApproval(u) => if u in w.workers && w.workers[u].HasIntent? then ReadApprovalStep(w, u) else w
    case AskTarget(u, target) =>
      if u in w.workers && w.workers[u].HasApproval? && w.workers[u].intent.None? then AskStep(w, u, target) else w
    case Claim(u) => if u in w.workers && w.workers[u].HasTarget? then ClaimStep(w, u) else w
    case Post(u, effect, ok) => if u in w.workers && w.workers[u].MustPost? then PostStep(w, u, effect, ok) else w
    case Record(u) => if u in w.workers && w.workers[u].Posted? then RecordStep(w, u) else w
    case CheckStatus(u) =>
      if u in w.workers && w.workers[u].HasApproval? && w.workers[u].intent.Some? then CheckStep(w, u) else w
    case RecordSeen(u) => if u in w.workers && w.workers[u].SawTarget? then SeenStep(w, u) else w
    case Complete(u) => if u in w.workers && w.workers[u].Completing? then CompleteStep(w, u) else w
    case Crash(u) => Stop(w, u)
  }

  function Run(w: World, events: seq<Event>): World
    decreases |events|
  {
    if events == [] then w else Run(Step(w, events[0]), events[1..])
  }

  /** The POST was accepted, or JIRA was seen in the status the intent names. */
  ghost predicate Settled(w: World, id: nat) {
    id in w.accepted || (id in w.outbox && (id, w.outbox[id].target) in w.seen)
  }

  ghost predicate WorkerOk(w: World, p: Worker) {
    match p
    case Approving(_) => true
    case HasIntent(id, intent) => intent.Some? ==> IntentOk(w, id, intent.value)
    case HasApproval(id, intent, _) => intent.Some? ==> IntentOk(w, id, intent.value)
    case HasTarget(_, _) => true
    case MustPost(id) => id in w.outbox && id !in w.posts
    case Posted(id, ok) => id in w.outbox && id in w.posts && (ok ==> id in w.accepted)
    case SawTarget(id) => Settled(w, id)
    case Completing(id) => Settled(w, id)
  }

  ghost predicate IntentOk(w: World, id: nat, row: Row) {
    id in w.outbox && w.outbox[id].target == row.target && (row.phase == PostSucceeded ==> id in w.accepted)
  }

  ghost predicate Inv(w: World) {
    && (forall i, j :: 0 <= i < j < |w.posts| ==> w.posts[i] != w.posts[j])
    && (forall id :: id in w.posts ==> id in w.outbox)
    && (forall id :: id in w.outbox && w.outbox[id].phase == PostSucceeded ==> id in w.accepted)
    && (forall id :: id in w.completed ==> Settled(w, id))
    && (forall u :: u in w.workers ==> WorkerOk(w, w.workers[u]))
    && (forall u, v :: u in w.workers && v in w.workers && u != v && w.workers[u].MustPost? &&
                       w.workers[v].MustPost? ==>
          w.workers[u].id != w.workers[v].id)
  }

  /** Tables and records only gain. */
  ghost predicate Grows(w: World, w': World) {
    && (forall id :: id in w.outbox ==> id in w'.outbox && w'.outbox[id].target == w.outbox[id].target)
    && w.accepted <= w'.accepted && w.seen <= w'.seen
  }

  lemma {:induction false} WorkerStays(w: World, w': World, p: Worker)
    requires WorkerOk(w, p) && Grows(w, w')
    requires p.MustPost? && p.id in w'.posts ==> p.id in w.posts
    requires forall id :: id in w.posts ==> id in w'.posts
    ensures WorkerOk(w', p)
  {
  }

  /** One worker moved on; the tables grew; no POST for an id another worker still has to post. */
  lemma {:induction false} MoveKeeps(w: World, w': World, u: nat)
    requires Inv(w) && Grows(w, w')
    requires forall v :: v != u && v in w'.workers ==> v in w.workers && w'.workers[v] == w.workers[v]
    requires u in w'.workers ==> WorkerOk(w', w'.workers[u])
    requires u in w'.workers && w'.workers[u].MustPost? ==>
               forall v :: v in w.workers && v != u && w.workers[v].MustPost? ==> w.workers[v].id != w'.workers[u].id
    requires w'.posts == w.posts
          || (u in w.workers && w.workers[u].MustPost? && w'.posts == w.posts + [w.workers[u].id])
    requires forall id :: id in w'.outbox && w'.outbox[id].phase == PostSucceeded ==> id in w'.accepted
    requires forall id :: id in w'.completed ==> id in w.completed || Settled(w', id)
    ensures Inv(w')
  {
    hide WorkerOk;
    forall v | v in w'.workers ensures WorkerOk(w', w'.workers[v]) {
      if v != u {
        assert WorkerOk(w, w.workers[v]);
        WorkerStays(w, w', w.workers[v]);
      }
    }
    if w'.posts != w.posts {
      assert WorkerOk(w, w.workers[u]);
      MustPostMeans(w, w.workers[u]);
    }
  }

  lemma MustPostMeans(w: World, p: Worker)
    requires WorkerOk(w, p) && p.MustPost?
    ensures p.id in w.outbox && p.id !in w.posts
  {
  }

  lemma {:induction false} ClaimKeeps(w: World, u: nat)
    requires Inv(w) && u in w.workers && w.workers[u].HasTarget?
    ensures Inv(ClaimStep(w, u))
  {
    forall v | v in w.workers && w.workers[v].MustPost? ensures w.workers[v].id in w.outbox {
      assert WorkerOk(w, w.workers[v]);
    }
    MoveKeeps(w, ClaimStep(w, u), u);
  }

  lemma {:induction false} PostKeeps(w: World, u: nat, effect: bool, ok: bool)
    requires Inv(w) && u in w.workers && w.workers[u].MustPost?
    ensures Inv(PostStep(w, u, effect, ok))
  {
    assert WorkerOk(w, w.workers[u]);
    assert w.workers[u].id in w.posts + [w.workers[u].id];
    MoveKeeps(w, PostStep(w, u, effect, ok), u);
  }

  lemma {:induction false} RecordKeeps(w: World, u: nat)
    requires Inv(w) && u in w.workers && w.workers[u].Posted?
    ensures Inv(RecordStep(w, u))
  {
    assert WorkerOk(w, w.workers[u]);
    MoveKeeps(w, RecordStep(w, u), u);
  }

  lemma {:induction false} CheckKeeps(w: World, u: nat)
    requires Inv(w) && u in w.workers && w.workers[u].HasApproval? && w.workers[u].intent.Some?
    ensures Inv(CheckStep(w, u))
  {
    assert WorkerOk(w, w.workers[u]);
    MoveKeeps(w, CheckStep(w, u), u);
  }

  lemma {:induction false} SeenKeeps(w: World, u: nat)
    requires Inv(w) && u in w.workers && w.workers[u].SawTarget?
    ensures Inv(SeenStep(w, u))
  {
  }

  lemma {:induction false} CompleteKeeps(w: World, u: nat)
    requires Inv(w) && u in w.workers && w.workers[u].Completing?
    ensures Inv(CompleteStep(w, u))
  {
  }

  lemma {:induction false} ReadApprovalKeeps(w: World, u: nat)
    requires Inv(w) && u in w.workers && w.workers[u].HasIntent?
    ensures Inv(ReadApprovalStep(w, u))
  {
  }

  lemma {:induction false} ReportKeeps(w: World, u: nat, id: nat)
    requires Inv(w)
    ensures Inv(ReportStep(w, u, id))
  {
  }

  lemma {:induction false} AskKeeps(w: World, u: nat, target: string)
    requires Inv(w) && u in w.workers && w.workers[u].HasApproval?
    ensures Inv(AskStep(w, u, target))
  {
  }

  /** An approver's steps, a new request and a move made by someone else in JIRA touch nothing the claim rests on. */
  lemma {:induction false} OthersKeep(w: World, u: nat, id: nat, status: string)
    requires Inv(w)
    ensures Inv(RequestStep(w, id)) && Inv(w.(remote := status)) && Inv(ApproveReadStep(w, u, id)) && Inv(Stop(w, u))
    ensures u in w.workers && w.workers[u].Approving? ==> Inv(ApproveWriteStep(w, u))
  {
    hide WorkerOk;
    StopKeeps(w, u);
    SameTables(w, RequestStep(w, id));
    SameTables(w, w.(remote := status));
    GoApproving(w, u, id);
    if u in w.workers && w.workers[u].Approving? {
      var w1 := w.(approvals := w.approvals[w.workers[u].id := Approved]);
      SameTables(w, w1);
      StopKeeps(w1, u);
    }
  }

  lemma {:induction false} SameTables(w: World, w': World)
    requires Inv(w) && w' == w.(approvals := w'.approvals, remote := w'.remote)
    ensures Inv(w')
  {
  }

  lemma {:induction false} StopKeeps(w: World, u: nat)
    requires Inv(w)
    ensures Inv(Stop(w, u))
  {
  }

  lemma {:induction false} GoApproving(w: World, u: nat, id: nat)
    requires Inv(w)
    ensures Inv(Go(w, u, Approving(id)))
  {
  }

  lemma {:induction false} StepKeeps(w: World, e: Event)
    requires Inv(w)
    ensures Inv(Step(w, e))
  {
    hide Inv, RequestStep, ApproveReadStep, ApproveWriteStep, ReportStep, ReadApprovalStep, AskStep, ClaimStep,
        PostStep,
         RecordStep, CheckStep, SeenStep, CompleteStep, Stop;
    match e
    case Request(id) => OthersKeep(w, 0, id, "");
    case RemoteMoves(s) => OthersKeep(w, 0, 0, s);
    case ApproveRead(u, id) => OthersKeep(w, u, id, "");
    case ApproveWrite(u) => OthersKeep(w, u, 0, "");
    case Report(u, id) => ReportKeeps(w, u, id);
    case ReadApproval(u) => if u in w.workers && w.workers[u].HasIntent? { ReadApprovalKeeps(w, u); }
    case AskTarget(u, target) => if u in w.workers && w.workers[u].HasApproval? { AskKeeps(w, u, target); }
    case Claim(u) => if u in w.workers && w.workers[u].HasTarget? { ClaimKeeps(w, u); }
    case Post(u, effect, ok) => if u in w.workers && w.workers[u].MustPost? { PostKeeps(w, u, effect, ok); }
    case Record(u) => if u in w.workers && w.workers[u].Posted? { RecordKeeps(w, u); }
    case CheckStatus(u) =>
      if u in w.workers && w.workers[u].HasApproval? && w.workers[u].intent.Some? { CheckKeeps(w, u); }
    case RecordSeen(u) => if u in w.workers && w.workers[u].SawTarget? { SeenKeeps(w, u); }
    case Complete(u) => if u in w.workers && w.workers[u].Completing? { CompleteKeeps(w, u); }
    case Crash(u) => OthersKeep(w, u, 0, "");
  }

  lemma {:induction false} RunKeeps(w: World, events: seq<Event>)
    requires Inv(w)
    ensures Inv(Run(w, events))
    decreases |events|
  {
    hide Inv, Step;
    if events != [] {
      StepKeeps(w, events[0]);
      RunKeeps(Step(w, events[0]), events[1..]);
    }
  }

  /** However reporters, approvers and crashes interleave, each approval leads to at most one POST. */
  lemma {:induction false} AtMostOnePost(events: seq<Event>)
    ensures var w := Run(START, events); forall i, j :: 0 <= i < j < |w.posts| ==> w.posts[i] != w.posts[j]
  {
    hide Step, Run;
    RunKeeps(START, events);
  }

  /** A report that was given an approval completes only after its POST returned success or JIRA was read in the
      very status recorded with the intent. */
  lemma {:induction false} CompletedMeansSettled(events: seq<Event>)
    ensures var w := Run(START, events); forall id :: id in w.completed ==> Settled(w, id)
  {
    hide Step, Run;
    RunKeeps(START, events);
  }

  const CLAIM := [AskTarget(3, "done"), Claim(3), ApproveWrite(2)]

  const LOOK := [ApproveWrite(1), Report(3, 7), ReadApproval(3)]

  const OPEN := [Request(7), ApproveRead(1, 7), ApproveRead(2, 7)]

  const OPENED := START.(approvals := map[7 := Pending], workers := map[1 := Approving(7), 2 := Approving(7)])

  const LOOKED := START.(approvals := map[7 := Approved],
                         workers := map[2 := Approving(7), 3 := HasApproval(7, None, Some(Approved))])

  /** The approval's status alone would not do: a slow approver sets a consumed approval back to approved. Only the
      outbox key then stands between a second report and a second POST. */
  lemma {:induction false} ConsumedBecomesApproved()
    ensures var w := Run(START, OPEN + (LOOK + CLAIM));
            && 7 in w.approvals && w.approvals[7] == Approved && 7 in w.outbox
            && 3 in w.workers && w.workers[3] == MustPost(7)
  {
    hide Step, Run;
    Opens();
    Looks();
    var w2 := Claims();
    RunThree(START, Request(7), ApproveRead(1, 7), ApproveRead(2, 7), LOOK + CLAIM);
    RunThree(OPENED, ApproveWrite(1), Report(3, 7), ReadApproval(3), CLAIM);
    RunThree(LOOKED, AskTarget(3, "done"), Claim(3), ApproveWrite(2), []);
    assert CLAIM + [] == CLAIM;
    assert Run(w2, []) == w2 by { RunNothing(w2); }
  }

  lemma {:induction false} Opens()
    ensures Step(Step(Step(START, Request(7)), ApproveRead(1, 7)), ApproveRead(2, 7)) == OPENED
  {
  }

  lemma {:induction false} Looks()
    ensures Step(Step(Step(OPENED, ApproveWrite(1)), Report(3, 7)), ReadApproval(3)) == LOOKED
  {
  }

  lemma {:induction false} Claims() returns (w: World)
    ensures w == Step(Step(Step(LOOKED, AskTarget(3, "done")), Claim(3)), ApproveWrite(2))
    ensures 7 in w.approvals && w.approvals[7] == Approved && 7 in w.outbox && 3 in w.workers
            && w.workers[3] == MustPost(7)
  {
    var w1 := Step(LOOKED, AskTarget(3, "done"));
    assert w1 == LOOKED.(workers := map[2 := Approving(7), 3 := HasTarget(7, "done")]);
    var w2 := Step(w1, Claim(3));
    assert w2.workers == map[2 := Approving(7), 3 := MustPost(7)] && 7 in w2.outbox;
    w := Step(w2, ApproveWrite(2));
  }

  lemma RunNothing(w: World)
    ensures Run(w, []) == w
  {
  }

  lemma {:induction false} RunThree(w: World, a: Event, b: Event, c: Event, rest: seq<Event>)
    ensures Run(w, [a, b, c] + rest) == Run(Step(Step(Step(w, a), b), c), rest)
  {
    hide Step;
    var events := [a, b, c] + rest;
    assert events[1..] == [b, c] + rest && ([b, c] + rest)[1..] == [c] + rest && ([c] + rest)[1..] == rest;
    assert Run(w, events) == Run(Step(w, a), [b, c] + rest);
    assert Run(Step(w, a), [b, c] + rest) == Run(Step(Step(w, a), b), [c] + rest);
  }

  /* ---- exactly when a consumed approval is set back ---- */

  predicate InFlight(w: World, id: nat) { exists u :: u in w.workers && w.workers[u] == Approving(id) }

  predicate IsConsumed(w: World, id: nat) { id in w.approvals && w.approvals[id] == Consumed }

  /** Only an approver that read the row before can write it, and no new one gets to read it as pending. */
  lemma {:induction false} ConsumedStaysStep(w: World, e: Event, id: nat)
    requires IsConsumed(w, id) && !InFlight(w, id)
    ensures IsConsumed(Step(w, e), id) && !InFlight(Step(w, e), id)
  {
    hide Find, PostStep, RecordStep, CheckStep, SeenStep, ReadApprovalStep, AskStep, ReportStep, CompleteStep, Step;
    var w' := Step(w, e);
    if !e.Request? && !e.ApproveWrite? && !e.Claim? { OthersLeaveApprovals(w, e); }
    assert forall u :: u in w'.workers && w'.workers[u].Approving? ==>
             (u in w.workers && w'.workers[u] == w.workers[u]) || (e.ApproveRead? && w'.workers[u].id != id) by {
      ApproversComeFrom(w, e, id);
    }
    if e.Request? || e.ApproveWrite? || e.Claim? { WritesKeepConsumed(w, e, id); }
  }

  lemma {:induction false} OthersLeaveApprovals(w: World, e: Event)
    requires !e.Request? && !e.ApproveWrite? && !e.Claim?
    ensures Step(w, e).approvals == w.approvals
  {
  }

  lemma {:induction false} ApproversComeFrom(w: World, e: Event, id: nat)
    requires IsConsumed(w, id)
    ensures forall u :: u in Step(w, e).workers && Step(w, e).workers[u].Approving? ==>
              || (u in w.workers && Step(w, e).workers[u] == w.workers[u])
              || (e.ApproveRead? && Step(w, e).workers[u].id != id)
  {
  }

  lemma {:induction false} WritesKeepConsumed(w: World, e: Event, id: nat)
    requires IsConsumed(w, id) && !InFlight(w, id) && (e.Request? || e.ApproveWrite? || e.Claim?)
    ensures IsConsumed(Step(w, e), id)
  {
  }

  lemma {:induction false} ConsumedStays(w: World, events: seq<Event>, id: nat)
    requires IsConsumed(w, id) && !InFlight(w, id)
    ensures IsConsumed(Run(w, events), id)
    decreases |events|
  {
    hide Step, IsConsumed, InFlight;
    if events != [] {
      ConsumedStaysStep(w, events[0], id);
      ConsumedStays(Step(w, events[0]), events[1..], id);
    }
  }

  predicate Reopens(w: World, events: seq<Event>, id: nat) { !IsConsumed(Run(w, events), id) }

  /** A consumed approval can still be set back, from any state at all, if and only if some approver has read it as
      pending and has not written yet. */
  lemma {:induction false} ReopensExactlyWhen(w: World, id: nat)
    requires IsConsumed(w, id)
    ensures (exists events :: Reopens(w, events, id)) <==> InFlight(w, id)
    ensures InFlight(w, id) ==>
              exists u :: var w' := Run(w, [ApproveWrite(u)]); id in w'.approvals && w'.approvals[id] == Approved
  {
    if InFlight(w, id) {
      var u :| u in w.workers && w.workers[u] == Approving(id);
      assert [ApproveWrite(u)][1..] == [];
      assert Run(w, [ApproveWrite(u)]) == Run(Step(w, ApproveWrite(u)), []);
      var w' := Run(w, [ApproveWrite(u)]);
      assert id in w'.approvals && w'.approvals[id] == Approved && Reopens(w, [ApproveWrite(u)], id);
    } else {
      forall events ensures !Reopens(w, events, id) {
        ConsumedStays(w, events, id);
      }
    }
  }
}
