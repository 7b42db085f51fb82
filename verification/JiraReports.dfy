/** What a report does about a transition, and an approver about an approval, when nobody comes between. */
module JiraReports {
  import opened Text
  import opened JiraTransition

  lemma {:induction false} Then(w: World, e: Event, events: seq<Event>)
    ensures Run(w, [e] + events) == Run(Step(w, e), events)
  {
    hide Step;
    assert ([e] + events)[1..] == events;
  }

  /** The steps of one report, up to its answer. */
  function Asks(u: nat, id: nat, target: string): seq<Event> {
    [Report(u, id)] + ([ReadApproval(u)] + ([AskTarget(u, target)] + [Claim(u)]))
  }

  function Posts(u: nat, effect: bool, ok: bool): seq<Event> { [Post(u, effect, ok)] + ([Record(u)] + [Complete(u)]) }

  function Checks(u: nat, id: nat): seq<Event> {
    [Report(u, id)] + ([ReadApproval(u)] + ([CheckStatus(u)] + ([RecordSeen(u)] + [Complete(u)])))
  }

  lemma {:induction false} One(w: World, e: Event)
    ensures Run(w, [e]) == Step(w, e)
  {
    hide Step;
    assert [e][1..] == [];
    assert Run(Step(w, e), []) == Step(w, e);
  }

  /** Everything but the calls in progress. */
  predicate SameBut(w: World, w': World, u: nat) { w' == w.(workers := w'.workers) && w'.workers == w.workers - {u} }

  /** An approval that stands and was never used is used up, with the target recorded, before anything is posted. */
  lemma {:induction false} ApprovedIsClaimed(w: World, u: nat, id: nat, target: string)
    requires id in w.approvals && w.approvals[id] == Approved && id !in w.outbox
    ensures var w' := Run(w, Asks(u, id, target));
            && w'.approvals == w.approvals[id := Consumed] && w'.outbox == w.outbox[id := Row(target, Intent)]
            && w'.posts == w.posts && w'.remote == w.remote && w'.completed == w.completed && w'.accepted == w.accepted
            && u in w'.workers && w'.workers[u] == MustPost(id)
  {
    var w1 := w.(workers := w.workers[u := HasIntent(id, None)]);
    var w2 := w.(workers := w.workers[u := HasApproval(id, None, Some(Approved))]);
    var w3 := w.(workers := w.workers[u := HasTarget(id, target)]);
    assert Step(w, Report(u, id)) == w1;
    assert Step(w1, ReadApproval(u)) == w2;
    assert Step(w2, AskTarget(u, target)) == w3;
    Then(w, Report(u, id), [ReadApproval(u)] + ([AskTarget(u, target)] + [Claim(u)]));
    Then(w1, ReadApproval(u), [AskTarget(u, target)] + [Claim(u)]);
    Then(w2, AskTarget(u, target), [Claim(u)]);
    One(w3, Claim(u));
  }

  /** Then there is one POST more. Its answer is recorded, a success completes the report, and a failure is left for the
      next one to settle, for it may have had its effect. */
  lemma {:induction false} ClaimedIsPosted(w: World, u: nat, id: nat, effect: bool, ok: bool)
    requires u in w.workers && w.workers[u] == MustPost(id) && id in w.outbox
    ensures var w' := Run(w, Posts(u, effect, ok));
            && w'.posts == w.posts + [id] && w'.approvals == w.approvals && u !in w'.workers && w'.seen == w.seen
            && w'.remote == (if effect then w.outbox[id].target else w.remote)
            && w'.outbox == w.outbox[id := Row(w.outbox[id].target, if ok then PostSucceeded else Uncertain)]
            && w'.accepted == (if ok then w.accepted + {id} else w.accepted)
            && w'.completed == (if ok then w.completed + {id} else w.completed)
  {
    var w1 := Step(w, Post(u, effect, ok));
    assert w1 == w.(posts := w.posts + [id], remote := if effect then w.outbox[id].target else w.remote,
                    accepted := if ok then w.accepted + {id} else w.accepted,
                    workers := w.workers[u := Posted(id, ok)]);
    var w2 := Step(w1, Record(u));
    assert w2.outbox == w.outbox[id := Row(w.outbox[id].target, if ok then PostSucceeded else Uncertain)];
    Then(w, Post(u, effect, ok), [Record(u)] + [Complete(u)]);
    Then(w1, Record(u), [Complete(u)]);
    One(w2, Complete(u));
  }

  /** Without an intent, an approval that is not there, pending or used up gets nothing posted and changes nothing. */
  lemma {:induction false} OthersAreDenied(w: World, u: nat, id: nat, target: string)
    requires !(id in w.approvals && w.approvals[id] == Approved) && id !in w.outbox
    ensures SameBut(w, Run(w, Asks(u, id, target)), u)
  {
    var status := if id in w.approvals then Some(w.approvals[id]) else None;
    var w1 := w.(workers := w.workers[u := HasIntent(id, None)]);
    var w2 := w.(workers := w.workers[u := HasApproval(id, None, status)]);
    var w3 := w.(workers := w.workers - {u});
    assert Step(w, Report(u, id)) == w1;
    assert Step(w1, ReadApproval(u)) == w2;
    assert Step(w2, AskTarget(u, target)) == w3 by { assert w2.workers - {u} == w.workers - {u}; }
    Then(w, Report(u, id), [ReadApproval(u)] + ([AskTarget(u, target)] + [Claim(u)]));
    Then(w1, ReadApproval(u), [AskTarget(u, target)] + [Claim(u)]);
    Then(w2, AskTarget(u, target), [Claim(u)]);
    One(w3, Claim(u));
  }

  /** An intent that is met is never posted again. It is complete if its POST was recorded as a success, or if JIRA is
      in the recorded status, which is then recorded too; otherwise the report raises. */
  lemma {:induction false} IntentsAreSettled(w: World, u: nat, id: nat)
    requires id in w.outbox
    ensures var w' := Run(w, Checks(u, id));
            var row := w.outbox[id];
            && w'.posts == w.posts && w'.approvals == w.approvals && w'.remote == w.remote && u !in w'.workers
            && w'.accepted == w.accepted
            && if row.phase == PostSucceeded then
                 w'.completed == w.completed + {id} && w'.outbox == w.outbox && w'.seen == w.seen
               else if w.remote == row.target then
                 && w'.completed == w.completed + {id} && w'.outbox == w.outbox[id := Row(row.target, Satisfied)]
                 && w'.seen == w.seen + {(id, row.target)}
               else SameBut(w, w', u)
  {
    var row := w.outbox[id];
    var status := if id in w.approvals then Some(w.approvals[id]) else None;
    var w1 := w.(workers := w.workers[u := HasIntent(id, Some(row))]);
    var w2 := w.(workers := w.workers[u := HasApproval(id, Some(row), status)]);
    assert Step(w, Report(u, id)) == w1;
    assert Step(w1, ReadApproval(u)) == w2;
    var w3 := Step(w2, CheckStatus(u));
    var w4 := Step(w3, RecordSeen(u));
    CheckDoes(w, w2, u, id);
    CompleteDoes(w4, u, id);
    hide Step, Run;
    Then(w, Report(u, id), [ReadApproval(u)] + ([CheckStatus(u)] + ([RecordSeen(u)] + [Complete(u)])));
    Then(w1, ReadApproval(u), [CheckStatus(u)] + ([RecordSeen(u)] + [Complete(u)]));
    Then(w2, CheckStatus(u), [RecordSeen(u)] + [Complete(u)]);
    Then(w3, RecordSeen(u), [Complete(u)]);
    One(w4, Complete(u));
  }

  lemma {:induction false} CompleteDoes(w: World, u: nat, id: nat)
    ensures u in w.workers && w.workers[u] == Completing(id) ==>
              Step(w, Complete(u)) == w.(completed := w.completed + {id}, workers := w.workers - {u})
    ensures u !in w.workers ==> Step(w, Complete(u)) == w
  {
  }

  lemma {:induction false} CheckDoes(w: World, w2: World, u: nat, id: nat)
    requires id in w.outbox && w2 == w.(workers := w2.workers) && u in w2.workers && w2.workers - {u} == w.workers - {u}
    requires w2.workers[u].HasApproval? && w2.workers[u].id == id && w2.workers[u].intent == Some(w.outbox[id])
    ensures var row := w.outbox[id];
            var w4 := Step(Step(w2, CheckStatus(u)), RecordSeen(u));
            if row.phase == PostSucceeded then w4 == w2.(workers := w2.workers[u := Completing(id)])
            else if w.remote == row.target then
              w4 == w2.(workers := w2.workers[u := Completing(id)],
                        outbox := w.outbox[id := Row(row.target, Satisfied)],
                        seen := w.seen + {(id, row.target)})
            else SameBut(w, w4, u)
  {
    var w3 := Step(w2, CheckStatus(u));
    if w.outbox[id].phase != PostSucceeded && w.remote == w.outbox[id].target {
      assert w3 == w2.(workers := w2.workers[u := SawTarget(id)], seen := w.seen + {(id, w.remote)});
      assert w3.workers[u := Completing(id)] == w2.workers[u := Completing(id)];
    } else if w.outbox[id].phase != PostSucceeded {
      assert Step(w3, RecordSeen(u)) == w3;
    }
  }

  /** With an intent there is no way to claim. */
  lemma {:induction false} IntentsAskNothing(w: World, u: nat, target: string)
    requires u in w.workers && w.workers[u].HasApproval? && w.workers[u].intent.Some?
    ensures Step(w, AskTarget(u, target)) == w && Step(w, Claim(u)) == w
  {
  }

  /** Who claims second is turned away: the approval is used up by then, or has its intent. */
  lemma {:induction false} SecondClaimsLose(w: World, u: nat, id: nat, target: string)
    requires u in w.workers && w.workers[u] == HasTarget(id, target)
    requires !(id in w.approvals && w.approvals[id] == Approved) || id in w.outbox
    ensures SameBut(w, Step(w, Claim(u)), u)
  {
  }

  /** A requested approval is pending until its approver approves it; none other can be. */
  lemma {:induction false} ApproversApprove(w: World, u: nat, id: nat)
    ensures id !in w.approvals ==> Step(w, Request(id)) == w.(approvals := w.approvals[id := Pending])
    ensures id in w.approvals ==> Step(w, Request(id)) == w
    ensures var w' := Step(Step(w, ApproveRead(u, id)), ApproveWrite(u));
            if id in w.approvals && w.approvals[id] == Pending
            then w' == w.(approvals := w.approvals[id := Approved], workers := w.workers - {u})
            else SameBut(w, w', u)
  {
    var w1 := Step(w, ApproveRead(u, id));
    if id in w.approvals && w.approvals[id] == Pending {
      assert w1 == w.(workers := w.workers[u := Approving(id)]);
      assert w1.workers - {u} == w.workers - {u};
    } else {
      assert w1 == w.(workers := w.workers - {u});
      assert w1.workers - {u} == w1.workers;
    }
  }
}
