/** The life cycle of a run and its compare-and-set (src/agent_runtime/durable.py). */
module RunStates {
  datatype RunState =
    | New | Intake | Analyze | PlanReady | Implement | Validate
    | AwaitingPublishApproval | Publish | Report | Succeeded | Failed | Cancelled

  predicate Terminal(s: RunState) { s.Succeeded? || s.Failed? || s.Cancelled? }

  /** Position along the flow; FAILED and CANCELLED lie beyond its end. */
  function Rank(s: RunState): nat {
    match s
    case New => 0
    case Intake => 1
    case Analyze => 2
    case PlanReady => 3
    case Implement => 4
    case Validate => 5
    case AwaitingPublishApproval => 6
    case Publish => 7
    case Report => 8
    case Succeeded => 9
    case Failed => 10
    case Cancelled => 11
  }

  /** One step along the flow, or from VALIDATE back to IMPLEMENT. */
  predicate Allowed(a: RunState, b: RunState) {
    (Rank(b) == Rank(a) + 1 && Rank(b) <= 9) || (a.Validate? && b.Implement?)
  }

  predicate CanMove(a: RunState, b: RunState) {
    !Terminal(a) && (Allowed(a, b) || b.Failed? || b.Cancelled?)
  }

  /** Edge by edge: each state on the flow leads to the next, VALIDATE also back, and any that has not ended to FAILED
      and to CANCELLED. */
  lemma GraphIs(a: RunState, b: RunState)
    ensures CanMove(a, b) <==>
            match a
            case New => b in {Intake, Failed, Cancelled}
            case Intake => b in {Analyze, Failed, Cancelled}
            case Analyze => b in {PlanReady, Failed, Cancelled}
            case PlanReady => b in {Implement, Failed, Cancelled}
            case Implement => b in {Validate, Failed, Cancelled}
            case Validate => b in {AwaitingPublishApproval, Implement, Failed, Cancelled}
            case AwaitingPublishApproval => b in {Publish, Failed, Cancelled}
            case Publish => b in {Report, Failed, Cancelled}
            case Report => b in {Succeeded, Failed, Cancelled}
            case _ => false
  {
  }

  datatype Entry = Entry(from: RunState, to: RunState, committed: bool)
}

/** Any number of clients whose read and guarded write interleave. */
module StateInterleaving {
  import opened RunStates

  datatype Edge = Edge(from: RunState, to: RunState, logged: bool)

  /** What a client remembers between its read and its write. */
  datatype Client = Idle | Moving(from: RunState, to: RunState) | Refusing(from: RunState, to: RunState)

  /** `history` is every change `state` went through, in order; no table holds it. */
  datatype World = World(state: RunState, log: seq<Entry>, history: seq<Edge>, clients: map<nat, Client>)

  datatype Event =
    | ReadState(client: nat, target: RunState)
    | WriteState(client: nat)
    | PublicationMove(from: RunState)   // publication's own guarded update, which logs nothing
    | Crash(client: nat)

  const START := World(New, [], [], map[])

  function Step(w: World, e: Event): World {
    match e
    case ReadState(c, to) =>
      w.(clients := w.clients[c := if CanMove(w.state, to) then Moving(w.state, to) else Refusing(w.state, to)])
    case WriteState(c) =>
      if c !in w.clients then w else
      (match w.clients[c]
       case Idle => w
       case Refusing(from, to) => w.(log := w.log + [Entry(from, to, false)], clients := w.clients[c := Idle])
       case Moving(from, to) =>
         if w.state == from then
           World(to, w.log + [Entry(from, to, true)], w.history + [Edge(from, to, true)], w.clients[c := Idle])
         else w.(log := w.log + [Entry(from, to, false)], clients := w.clients[c := Idle]))
    case PublicationMove(from) =>
      if w.state != from then w
      else if from.AwaitingPublishApproval? then
        w.(state := Publish, history := w.history + [Edge(from, Publish, false)])
      else if from.Publish? then
        w.(state := Report, history := w.history + [Edge(from, Report, false)])
      else w
    case Crash(c) => w.(clients := w.clients[c := Idle])
  }

  function Run(w: World, events: seq<Event>): World
    decreases |events|
  {
    if events == [] then w else Run(Step(w, events[0]), events[1..])
  }

  /** The edges join end to end from NEW to the present state, and each is one the graph allows. */
  predicate Path(history: seq<Edge>, state: RunState) {
    && (forall i :: 0 <= i < |history| ==> CanMove(history[i].from, history[i].to))
    && (forall i :: 0 <= i < |history| - 1 ==> history[i].to == history[i + 1].from)
    && (if history == [] then state == New else history[0].from == New && history[|history| - 1].to == state)
  }

  function Committed(log: seq<Entry>): seq<Edge> {
    if log == [] then []
    else Committed(log[..|log| - 1])
         + if log[|log| - 1].committed then [Edge(log[|log| - 1].from, log[|log| - 1].to, true)] else []
  }

  function Logged(history: seq<Edge>): seq<Edge> {
    if history == [] then []
    else Logged(history[..|history| - 1]) + if history[|history| - 1].logged then [history[|history| - 1]] else []
  }

  predicate Inv(w: World) {
    && Path(w.history, w.state)
    && Committed(w.log) == Logged(w.history)
    && forall c :: c in w.clients && w.clients[c].Moving? ==> CanMove(w.clients[c].from, w.clients[c].to)
  }

  lemma {:induction false} PathGrows(history: seq<Edge>, e: Edge)
    requires Path(history, e.from) && CanMove(e.from, e.to)
    ensures Path(history + [e], e.to)
  {
  }

  lemma SeqGrows(log: seq<Entry>, entry: Entry, history: seq<Edge>, e: Edge)
    ensures Committed(log + [entry]) ==
              Committed(log) + if entry.committed then [Edge(entry.from, entry.to, true)] else []
    ensures Logged(history + [e]) == Logged(history) + if e.logged then [e] else []
  {
  }

  lemma {:induction false} StepKeeps(w: World, e: Event)
    requires Inv(w)
    ensures Inv(Step(w, e))
    ensures Terminal(w.state) ==> Step(w, e).state == w.state
  {
    hide Path, Committed, Logged;
    match e
    case WriteState(c) =>
      if c in w.clients && w.clients[c] != Idle {
        var from, to := w.clients[c].from, w.clients[c].to;
        var won := w.clients[c].Moving? && w.state == from;
        SeqGrows(w.log, Entry(from, to, won), w.history, Edge(from, to, true));
        if won {
          PathGrows(w.history, Edge(from, to, true));
        }
      }
    case PublicationMove(from) =>
      if w.state == from && (from.AwaitingPublishApproval? || from.Publish?) {
        var edge := Edge(from, if from.Publish? then Report else Publish, false);
        SeqGrows(w.log, Entry(from, from, false), w.history, edge);
        PathGrows(w.history, edge);
      }
    case _ =>
  }

  lemma {:induction false} RunKeeps(w: World, events: seq<Event>)
    requires Inv(w)
    ensures Inv(Run(w, events))
    ensures Terminal(w.state) ==> Run(w, events).state == w.state
    decreases |events|
  {
    if events != [] {
      StepKeeps(w, events[0]);
      RunKeeps(Step(w, events[0]), events[1..]);
    }
  }

  /** Every reachable state was reached along allowed edges, and the log's committed entries are those edges
      in order, less publication's two. */
  lemma HistoryIsPath(events: seq<Event>)
    ensures var w := Run(START, events); Path(w.history, w.state) && Committed(w.log) == Logged(w.history)
  {
    RunKeeps(START, events);
  }

  ghost predicate Visited(history: seq<Edge>, s: RunState) {
    exists i :: 0 <= i < |history| && history[i].from == s
  }

  /** No state is left out: a run that is not in FAILED or CANCELLED has been in every state before its own. One that
      succeeded was analyzed, validated, approved and published. */
  lemma {:induction false} NothingIsSkipped(events: seq<Event>, s: RunState)
    requires var now := Run(START, events).state; Rank(now) <= 9 && Rank(s) < Rank(now)
    ensures Visited(Run(START, events).history, s)
  {
    HistoryIsPath(events);
    PathVisits(Run(START, events).history, Run(START, events).state, s);
  }

  lemma {:induction false} PathVisits(history: seq<Edge>, now: RunState, s: RunState)
    requires Path(history, now) && Rank(now) <= 9 && Rank(s) < Rank(now)
    ensures Visited(history, s)
  {
    if history != [] {
      var last := history[|history| - 1];
      var before := history[..|history| - 1];
      assert CanMove(last.from, now);
      if last.from != s {
        PathVisits(before, last.from, s);
        var i :| 0 <= i < |before| && before[i].from == s;
        assert history[i].from == s;
      }
    }
  }

  lemma {:induction false} RunAppend(w: World, first: seq<Event>, more: seq<Event>)
    ensures Run(w, first + more) == Run(Run(w, first), more)
    decreases |first|
  {
    if first == [] {
      assert first + more == more;
    } else {
      assert (first + more)[0] == first[0] && (first + more)[1..] == first[1..] + more;
      RunAppend(Step(w, first[0]), first[1..], more);
    }
  }

  /** Whoever is still moving, a run that has ended stays as it ended. */
  lemma TerminalForever(events: seq<Event>, more: seq<Event>)
    requires Terminal(Run(START, events).state)
    ensures Run(START, events + more).state == Run(START, events).state
  {
    RunKeeps(START, events);
    RunAppend(START, events, more);
    RunKeeps(Run(START, events), more);
  }

  /** A client whose read is stale changes no state and leaves one uncommitted entry. */
  lemma LoserChangesNothing(w: World, c: nat)
    requires c in w.clients && w.clients[c].Moving? && w.state != w.clients[c].from
    ensures var w' := Step(w, WriteState(c));
            && w'.state == w.state && w'.history == w.history
            && w'.log == w.log + [Entry(w.clients[c].from, w.clients[c].to, false)]
            && Committed(w'.log) == Committed(w.log)
  {
  }

  /* ---- the store's own methods take these steps ---- */

  function Targets(log: seq<Entry>): seq<RunState> {
    if log == [] then []
    else Targets(log[..|log| - 1]) + if log[|log| - 1].committed then [log[|log| - 1].to] else []
  }

  /** What another process does while a call is between its read and its write. */
  datatype Other = Moves(target: RunState) | Publishes(from: RunState)

  datatype Outcome = Moved | Invalid | Stale

  /** The `runs`, `transitions` and `checkpoints` rows of one run. */
  class RunStore {
    var state: RunState
    var transitions: seq<Entry>
    var checkpoints: seq<RunState>

    constructor ()
      ensures Holds(START) && state == New
    {
      state, transitions, checkpoints := New, [], [New];
    }

    /** The tables are those of a world of the step machine, with a checkpoint for every committed entry. */
    ghost predicate Holds(w: World)
      reads this
    {
      w.state == state && w.log == transitions && checkpoints == [New] + Targets(transitions)
    }

    /** First half of `transition`: the read. An edge outside the graph is logged and refused here. */
    method Read(target: RunState, ghost c: nat, ghost w: World) returns (from: RunState, valid: bool, ghost w': World)
      requires Holds(w)
      modifies this`transitions
      ensures Holds(w') && from == w.state && valid == CanMove(from, target)
      ensures w' == if valid then Step(w, ReadState(c, target)) else Step(Step(w, ReadState(c, target)), WriteState(c))
      ensures valid ==> w' == w.(clients := w.clients[c := Moving(from, target)])
    {
      hide Step, Targets;
      from := state;
      valid := !Terminal(from) && (Allowed(from, target) || target in {Failed, Cancelled});
      ReadMeans(w, c, target);
      w' := Step(w, ReadState(c, target));
      if !valid {
        TargetsEnd(transitions, Entry(from, target, false));
        transitions := transitions + [Entry(from, target, false)];
        w' := Step(w', WriteState(c));
      }
    }

    /** Second half: `UPDATE ... WHERE state=from` in one transaction with its log entry and checkpoint. */
    method Write(from: RunState, target: RunState, ghost c: nat, ghost w: World) returns (won: bool)
      requires Holds(w) && c in w.clients && w.clients[c] == Moving(from, target)
      modifies this
      ensures Holds(Step(w, WriteState(c)))
      ensures won <==> Step(w, WriteState(c)).history == w.history + [Edge(from, target, true)]
      ensures transitions == old(transitions) + [Entry(from, target, won)] && (won <==> old(state) == from)
    {
      won := state == from;
      TargetsEnd(transitions, Entry(from, target, won));
      transitions := transitions + [Entry(from, target, won)];
      if won {
        state := target;
        checkpoints := checkpoints + [target];
      }
    }

    /** Publication's own guarded update, which writes no log. */
    method Publication(from: RunState, ghost w: World)
      requires Holds(w)
      modifies this`state
      ensures Holds(Step(w, PublicationMove(from)))
    {
      if state == from && from.AwaitingPublishApproval? { state := Publish; }
      else if state == from && from.Publish? { state := Report; }
    }

    lemma TargetsEnd(log: seq<Entry>, e: Entry)
      ensures Targets(log + [e]) == Targets(log) + if e.committed then [e.to] else []
    {
      assert (log + [e])[..|log|] == log;
    }

    /** `transition`, with whatever others do in between. Whatever that is, the tables are those of a run of the step
        machine, so all that holds of its runs holds of them. The call is refused exactly when the graph has no such
        edge from the state it read; it wins only from that very state; it loses only to somebody who moved the run. */
    method Transition(target: RunState, others: seq<Other>, ghost c: nat, ghost trace: seq<Event>)
      returns (r: Outcome, ghost trace': seq<Event>)
      requires Holds(Run(START, trace))
      modifies this
      ensures trace <= trace' && Holds(Run(START, trace'))
      ensures r == Invalid <==> !CanMove(old(state), target)
      ensures r == Moved ==> state == target && CanMove(old(state), target)
      ensures r == Stale ==> others != [] && state != old(state)
      ensures r != Invalid ==>
                transitions != [] && transitions[|transitions| - 1] == Entry(old(state), target, r == Moved)
      ensures Terminal(old(state)) ==> state == old(state) && r == Invalid
      ensures others == [] && CanMove(old(state), target) ==> r == Moved
    {
      hide Step, Run;
      ghost var w := Run(START, trace);
      var from, valid, w1 := Read(target, c, w);
      trace' := trace + if valid then [ReadState(c, target)] else [ReadState(c, target), WriteState(c)];
      Ran(w, ReadState(c, target), WriteState(c));
      RunAppend(START, trace, if valid then [ReadState(c, target)] else [ReadState(c, target), WriteState(c)]);
      if !valid { return Invalid, trace'; }
      for n := 0 to |others|
        invariant trace <= trace' && Holds(Run(START, trace'))
        invariant c in Run(START, trace').clients && Run(START, trace').clients[c] == Moving(from, target)
        invariant n == 0 ==> state == from
      {
        trace' := Elsewhere(others[n], c, trace');
      }
      w := Run(START, trace');
      var won := Write(from, target, c, w);
      Ran(w, WriteState(c), WriteState(c));
      RunAppend(START, trace', [WriteState(c)]);
      trace' := trace' + [WriteState(c)];
      WroteMeans(w, c);
      r := if won then Moved else Stale;
    }

    /** One thing done by another process, whole. */
    method Elsewhere(o: Other, ghost c: nat, ghost trace: seq<Event>) returns (ghost trace': seq<Event>)
      requires Holds(Run(START, trace))
      modifies this
      ensures trace <= trace' && Holds(Run(START, trace'))
      ensures c in Run(START, trace).clients ==>
                c in Run(START, trace').clients && Run(START, trace').clients[c] == Run(START, trace).clients[c]
    {
      hide Step, Run;
      ghost var w := Run(START, trace);
      ghost var d := c + 1;
      ghost var more: seq<Event>;
      match o {
        case Publishes(from) =>
          Publication(from, w);
          more := [PublicationMove(from)];
          Ran(w, PublicationMove(from), PublicationMove(from));
        case Moves(target) =>
          var from, valid, w1 := Read(target, d, w);
          if valid {
            var _ := Write(from, target, d, w1);
          }
          more := [ReadState(d, target), WriteState(d)];
          Ran(w, ReadState(d, target), WriteState(d));
      }
      RunAppend(START, trace, more);
      trace' := trace + more;
      if c in w.clients { LeavesOther(w, o, c, d); }
    }
  }

  lemma Ran(w: World, a: Event, b: Event)
    ensures Run(w, [a]) == Step(w, a) && Run(w, [a, b]) == Step(Step(w, a), b)
  {
    assert [a][1..] == [] && [a, b][1..] == [b];
    assert Run(Step(w, a), []) == Step(w, a) && Run(Step(Step(w, a), b), []) == Step(Step(w, a), b);
    assert Run(Step(w, a), [b]) == Run(Step(Step(w, a), b), [b][1..]);
  }

  lemma ReadMeans(w: World, c: nat, target: RunState)
    ensures var w1 := Step(w, ReadState(c, target));
            var w2 := Step(w1, WriteState(c));
            && (CanMove(w.state, target) ==> w1 == w.(clients := w.clients[c := Moving(w.state, target)]))
            && (!CanMove(w.state, target) ==>
                  w1.state == w.state && w1.log == w.log && w2.state == w.state
                  && w2.log == w.log + [Entry(w.state, target, false)])
  {
  }

  lemma WroteMeans(w: World, c: nat)
    requires c in w.clients && w.clients[c].Moving?
    ensures Step(w, WriteState(c)).state == if w.state == w.clients[c].from then w.clients[c].to else w.state
  {
  }

  lemma LeavesOther(w: World, o: Other, c: nat, d: nat)
    requires c != d && c in w.clients
    ensures o.Publishes? ==> Step(w, PublicationMove(o.from)).clients == w.clients
    ensures o.Moves? ==>
              var w' := Step(Step(w, ReadState(d, o.target)), WriteState(d));
              c in w'.clients && w'.clients[c] == w.clients[c]
  {
  }
}
