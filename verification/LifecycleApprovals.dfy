/** A publication approval that was used: when it can be set back, and what becomes of its run then
    (src/agent_runtime/publication.py, `approve` and `_resume`). */
module LifecycleApprovals {
  import opened Lifecycle
  import opened LifecycleSafety

  predicate Has(w: World, id: nat, status: ApprovalStatus) { id in w.approvals && w.approvals[id].status == status }

  /** An approver has read it as requested and has not written yet. */
  predicate BeingSigned(w: World, id: nat) { exists v :: v in w.signers && w.signers[v].id == id }

  /** Nobody but an approver gives an approval, and a publication consumes one only where there is no intent yet. */
  lemma {:induction false} OthersLeave(c: Config, w: World, e: Event, id: nat)
    requires id in w.approvals && !IsSign(e)
    ensures var w' := Step(c, w, e);
            && w'.signers == w.signers && id in w'.approvals
            && (w'.approvals[id] == w.approvals[id]
                || (w.outbox.None? && w.approvals[id].status == Approved && w'.approvals[id].status == Consumed))
  {
    StepIs(c, w, e);
    hide Step, WriteStep, OthersStep, SignStep, WorkersStep, PubStep, IsWrite, IsOther, IsSign, IsWork;
    OthersKeepOld(w, e, id);
  }

  lemma {:induction false} OthersKeepOld(w: World, e: Event, id: nat)
    requires id in w.approvals
    ensures id in OthersStep(w, e).approvals && OthersStep(w, e).approvals[id] == w.approvals[id]
  {
  }

  lemma {:induction false} SignLeaves(w: World, e: Event, id: nat)
    requires Has(w, id, Consumed) && !BeingSigned(w, id)
    ensures Has(SignStep(w, e), id, Consumed) && !BeingSigned(SignStep(w, e), id)
  {
    assert forall v :: v in w.signers ==> w.signers[v].id != id;
    assert forall v :: v in SignStep(w, e).signers ==> SignStep(w, e).signers[v].id != id;
  }

  lemma {:induction false} ConsumedStaysStep(c: Config, w: World, e: Event, id: nat)
    requires Has(w, id, Consumed) && !BeingSigned(w, id)
    ensures Has(Step(c, w, e), id, Consumed) && !BeingSigned(Step(c, w, e), id)
  {
    if IsSign(e) {
      hide SignStep, Has, BeingSigned;
      assert Step(c, w, e) == SignStep(w, e);
      SignLeaves(w, e, id);
    } else {
      hide Step;
      OthersLeave(c, w, e, id);
      assert forall v :: v in w.signers ==> w.signers[v].id != id;
    }
  }

  lemma {:induction false} ConsumedStays(c: Config, w: World, events: seq<Event>, id: nat)
    requires Has(w, id, Consumed) && !BeingSigned(w, id)
    ensures Has(Run(c, w, events), id, Consumed)
    decreases |events|
  {
    hide Step, Has, BeingSigned;
    if events != [] {
      ConsumedStaysStep(c, w, events[0], id);
      ConsumedStays(c, Step(c, w, events[0]), events[1..], id);
    }
  }

  predicate Reopens(c: Config, w: World, events: seq<Event>, id: nat) { !Has(Run(c, w, events), id, Consumed) }

  /** A consumed approval can still be set back, from any state at all, if and only if some approver has read it as
      requested and has not written yet. */
  lemma {:induction false} ReopensExactlyWhen(c: Config, w: World, id: nat)
    requires Has(w, id, Consumed)
    ensures (exists events :: Reopens(c, w, events, id)) <==> BeingSigned(w, id)
    ensures BeingSigned(w, id) ==> exists v :: Has(Run(c, w, [SignWrite(v)]), id, Approved)
  {
    if BeingSigned(w, id) {
      var v :| v in w.signers && w.signers[v].id == id;
      assert [SignWrite(v)][1..] == [];
      assert Run(c, w, [SignWrite(v)]) == Run(c, Step(c, w, SignWrite(v)), []);
      assert Has(Run(c, w, [SignWrite(v)]), id, Approved) && Reopens(c, w, [SignWrite(v)], id);
    } else {
      forall events ensures !Reopens(c, w, events, id) { ConsumedStays(c, w, events, id); }
    }
  }

  /* ---- what becomes of the run ---- */

  lemma {:induction false} ApprovedStays(c: Config, w: World, events: seq<Event>, id: nat)
    requires Has(w, id, Approved) && w.outbox.Some? && Inv(c, w)
    ensures Has(Run(c, w, events), id, Approved)
    decreases |events|
  {
    hide Step, Inv;
    if events != [] {
      var e := events[0];
      StepKeeps(c, w, e);
      assert Has(Step(c, w, e), id, Approved) by { ApprovedStaysStep(c, w, e, id); }
      ApprovedStays(c, Step(c, w, e), events[1..], id);
    }
  }

  lemma {:induction false} ApprovedStaysStep(c: Config, w: World, e: Event, id: nat)
    requires Has(w, id, Approved) && w.outbox.Some?
    ensures Has(Step(c, w, e), id, Approved)
  {
    if IsSign(e) {
      assert Step(c, w, e) == SignStep(w, e);
    } else {
      hide Step;
      OthersLeave(c, w, e, id);
    }
  }

  /** Every resumption ends at its approval, whatever happens and whenever it reads. */
  predicate Refused(c: Config, w: World) {
    forall u :: u in w.publishers && w.publishers[u].HasOutbox? ==> u !in Step(c, w, ResumeApproval(u)).publishers
  }

  predicate ResumesNeverAfter(c: Config, w: World, events: seq<Event>) { Refused(c, Run(c, w, events)) }

  lemma {:induction false} ResumesByStatus(c: Config, w: World, u: nat)
    requires Inv(c, w) && w.outbox.Some? && u in w.publishers && w.publishers[u].HasOutbox?
    ensures u in Step(c, w, ResumeApproval(u)).publishers <==> Has(w, w.outbox.value.approval, Consumed)
  {
    assert PublisherOk(c, w, w.publishers[u]);
    assert Step(c, w, ResumeApproval(u)) == ResumeStep(c, w, ResumeApproval(u));
  }

  /** Set back after the intent, an approval is never consumed again, and from then on no resumption gets beyond it:
      what was not handed over by a call that had passed already never is. While it stays consumed, none is refused
      there. */
  lemma {:induction false} SetBackForGood(c: Config, before: seq<Event>, events: seq<Event>)
    requires Run(c, Start(), before).outbox.Some?
    ensures var w := Run(c, Start(), before);
            Has(w, w.outbox.value.approval, Approved) ==> ResumesNeverAfter(c, w, events)
    ensures var w := Run(c, Start(), before);
            forall u :: Has(w, w.outbox.value.approval, Consumed) && u in w.publishers && w.publishers[u].HasOutbox? ==>
              u in Step(c, w, ResumeApproval(u)).publishers
  {
    hide Run, Inv, Step;
    StartHolds(c);
    RunKeeps(c, Start(), before);
    var w := Run(c, Start(), before);
    RunKeeps(c, w, events);
    var w' := Run(c, w, events);
    if Has(w, w.outbox.value.approval, Approved) {
      ApprovedStays(c, w, events, w.outbox.value.approval);
      forall u | u in w'.publishers && w'.publishers[u].HasOutbox?
        ensures u !in Step(c, w', ResumeApproval(u)).publishers
      {
        ResumesByStatus(c, w', u);
      }
    }
    forall u | Has(w, w.outbox.value.approval, Consumed) && u in w.publishers && w.publishers[u].HasOutbox?
      ensures u in Step(c, w, ResumeApproval(u)).publishers
    {
      ResumesByStatus(c, w, u);
    }
  }
}
