/** Trimming a conversation to its budget, and the loop that grows it (src/agent_runtime/runner.py). */
module ContextBudget {
  import opened Text

  datatype Role = System | User | Assistant | Tool

  /** `calls` are the ids of an assistant's tool calls, `answers` the call a tool result belongs to, `size` the length
      of the message's JSON under the reasoning options in force. */
  datatype Message = Message(role: Role, calls: seq<string>, answers: Option<string>, size: nat)

  datatype Budget = Budget(
    maxContext: int, reserve: int, charsPerToken: int, retain: int, requestOverhead: int, messageOverhead: int)
  {
    predicate Valid() {
      maxContext > reserve >= 0 && charsPerToken >= 1 && retain >= 1 && requestOverhead >= 0 && messageOverhead >= 0
    }
  }

  datatype Error = Malformed | Incomplete | TooBig

  datatype Result = Kept(messages: seq<Message>) | Refused(error: Error)

  type Round = seq<Message>

  /* ---- size ---- */

  function Sizes(ms: seq<Message>): nat { if ms == [] then 0 else Sizes(ms[..|ms| - 1]) + ms[|ms| - 1].size }

  /** The JSON array of the messages: brackets, the messages, a comma between any two. */
  function Encoded(ms: seq<Message>): nat { 2 + Sizes(ms) + if ms == [] then 0 else |ms| - 1 }

  function Tokens(b: Budget, ms: seq<Message>): int
    requires b.Valid()
  {
    (Encoded(ms) + b.charsPerToken - 1) / b.charsPerToken + b.requestOverhead + |ms| * b.messageOverhead
  }

  predicate Fits(b: Budget, ms: seq<Message>, available: int)
    requires b.Valid()
  {
    Tokens(b, ms) <= available
  }

  /** The sizes are added up. */
  lemma {:induction false} SizesAdd(m: Message, rest: seq<Message>)
    ensures Sizes([]) == 0 && Sizes([m] + rest) == m.size + Sizes(rest)
  {
    SizesSplit([m], rest);
    assert [m][..0] == [];
  }

  /** A request fits if enough tokens for its whole text, brackets and commas included, are left besides the
      overheads. */
  lemma {:induction false} FitsMeans(b: Budget, ms: seq<Message>, available: int)
    requires b.Valid()
    ensures Fits(b, ms, available) <==>
              var text := if ms == [] then 2 else Sizes(ms) + |ms| + 1;
              exists t :: t * b.charsPerToken >= text
                          && t + b.requestOverhead + |ms| * b.messageOverhead <= available
  {
    RoundedUp(Encoded(ms), b.charsPerToken, b.requestOverhead + |ms| * b.messageOverhead, available);
  }

  lemma {:induction false} RoundedUp(text: nat, c: nat, other: int, available: int)
    requires c > 0
    ensures (text + c - 1) / c + other <= available <==> exists t :: t * c >= text && t + other <= available
  {
    var t := (text + c - 1) / c;
    Rounded(text, c, t);
    if u :| u * c >= text && u + other <= available {
      Cancel(t, u + 1, c) by { assert (u + 1) * c == u * c + c; }
    }
  }

  lemma Rounded(text: nat, c: nat, t: int)
    requires c > 0 && t == (text + c - 1) / c
    ensures text <= t * c <= text + c - 1
  {
  }

  lemma {:induction false} SizesSplit(a: seq<Message>, b: seq<Message>)
    ensures Sizes(a + b) == Sizes(a) + Sizes(b)
  {
    if b == [] {
      assert a + b == a;
    } else {
      var n := |b| - 1;
      SizesSplit(a, b[..n]);
      assert (a + b)[..|a + b| - 1] == a + b[..n];
    }
  }

  lemma CeilingGrows(a: nat, b: nat, c: int)
    requires a <= b && c >= 1
    ensures (a + c - 1) / c <= (b + c - 1) / c
  {
    var x, y := (a + c - 1) / c, (b + c - 1) / c;
    assert x * c < (y + 1) * c;
    Cancel(x, y + 1, c);
  }

  lemma Cancel(x: int, y: int, c: int)
    requires x * c < y * c && c >= 1
    ensures x < y
  {
  }

  lemma TimesGrows(a: int, b: int, c: int)
    requires a <= b && c >= 0
    ensures a * c <= b * c
  {
  }

  /** Leaving rounds out never costs tokens. */
  lemma {:induction false} FewerFit(b: Budget, head: seq<Message>, middle: seq<Message>, tail: seq<Message>,
                                    available: int)
    requires b.Valid() && Fits(b, head + middle + tail, available)
    ensures Fits(b, head + tail, available)
  {
    SizesSplit(head + middle, tail);
    SizesSplit(head, middle);
    SizesSplit(head, tail);
    CeilingGrows(Encoded(head + tail), Encoded(head + middle + tail), b.charsPerToken);
    TimesGrows(|head + tail|, |head + middle + tail|, b.messageOverhead);
  }

  /* ---- rounds ---- */

  /** What the grouping loop has after some messages: closed groups, and the one it is in. */
  datatype Grouping = Grouping(groups: seq<Round>, current: Round)

  /** One more message: an assistant's closes the group before it. */
  function Take(g: Grouping, m: Message): Grouping {
    if m.role.Assistant? && g.current != [] then Grouping(g.groups + [g.current], [m])
    else Grouping(g.groups, g.current + [m])
  }

  function Split(ms: seq<Message>): Grouping {
    if ms == [] then Grouping([], []) else Take(Split(ms[..|ms| - 1]), ms[|ms| - 1])
  }

  function Close(g: Grouping): seq<Round> { if g.current == [] then g.groups else g.groups + [g.current] }

  function Groups(ms: seq<Message>): seq<Round> { Close(Split(ms)) }

  function Flatten(groups: seq<Round>): seq<Message> {
    if groups == [] then [] else Flatten(groups[..|groups| - 1]) + groups[|groups| - 1]
  }

  lemma {:induction false} FlattenSplit(a: seq<Round>, b: seq<Round>)
    ensures Flatten(a + b) == Flatten(a) + Flatten(b)
  {
    if b == [] {
      assert a + b == a;
    } else {
      FlattenSplit(a, b[..|b| - 1]);
      assert (a + b)[..|a + b| - 1] == a + b[..|b| - 1];
    }
  }

  lemma FlattenOne(r: Round)
    ensures Flatten([r]) == r
  {
  }

  function Laid(g: Grouping): seq<Message> { Flatten(g.groups) + g.current }

  lemma {:induction false} TakeKeepsAll(g: Grouping, m: Message)
    ensures Laid(Take(g, m)) == Laid(g) + [m] && Take(g, m).current != []
  {
  }

  lemma NothingLaid()
    ensures Laid(Grouping([], [])) == []
  {
  }

  lemma {:induction false} SplitKeepsAll(ms: seq<Message>)
    ensures Laid(Split(ms)) == ms
  {
    hide Laid, Take;
    if ms == [] {
      assert Laid(Grouping([], [])) == [] by { NothingLaid(); }
    } else {
      var n := |ms| - 1;
      SplitKeepsAll(ms[..n]);
      TakeKeepsAll(Split(ms[..n]), ms[n]);
      assert ms[..n] + [ms[n]] == ms;
    }
  }

  /** Grouping loses, moves and repeats nothing. */
  lemma {:induction false} GroupsKeepAll(ms: seq<Message>)
    ensures Flatten(Groups(ms)) == ms
  {
    SplitKeepsAll(ms);
    var g := Split(ms);
    FlattenSplit(g.groups, [g.current]);
    FlattenOne(g.current);
  }

  predicate Distinct(ids: seq<string>) { forall i, j :: 0 <= i < j < |ids| ==> ids[i] != ids[j] }

  /** An assistant's message with tool calls of distinct ids, then their results in order. */
  predicate Complete(r: Round) {
    && r != [] && r[0].role.Assistant?
    && r[0].calls != [] && Distinct(r[0].calls) && |r| == |r[0].calls| + 1
    && forall i :: 1 <= i < |r| ==> r[i].role.Tool? && r[i].answers == Some(r[0].calls[i - 1])
  }

  predicate AllComplete(groups: seq<Round>) { forall i :: 0 <= i < |groups| ==> Complete(groups[i]) }

  /** One assistant's message, at the front. */
  predicate Shaped(r: Round) { r != [] && r[0].role.Assistant? && forall i :: 1 <= i < |r| ==> !r[i].role.Assistant? }

  predicate AllShaped(groups: seq<Round>) { forall i :: 0 <= i < |groups| ==> Shaped(groups[i]) }

  lemma CompleteShapes(groups: seq<Round>)
    requires AllComplete(groups)
    ensures AllShaped(groups)
  {
    forall i | 0 <= i < |groups| ensures Shaped(groups[i]) { assert Complete(groups[i]); }
  }

  lemma {:induction false} SplitRound(groups: seq<Round>, r: Round, n: nat)
    requires AllShaped(groups) && Shaped(r) && 1 <= n <= |r|
    ensures Split(Flatten(groups) + r[..n]) == Grouping(groups, r[..n])
    decreases |groups|, n
  {
    hide Flatten;
    var ms := Flatten(groups) + r[..n];
    assert ms[..|ms| - 1] == Flatten(groups) + r[..n - 1];
    assert r[..n - 1] + [r[n - 1]] == r[..n];
    if n > 1 {
      SplitRound(groups, r, n - 1);
    } else if groups == [] {
      FlattenNone();
      assert Flatten(groups) + r[..0] == [];
      assert ms == [r[0]] && [] + [r[0]] == [r[0]];
    } else {
      var last := groups[|groups| - 1];
      var before := groups[..|groups| - 1];
      assert AllShaped(before) && Shaped(last);
      SplitRound(before, last, |last|);
      FlattenLast(groups);
      assert last[..|last|] == last;
      assert Flatten(groups) + r[..0] == Flatten(before) + last;
      assert before + [last] == groups;
    }
  }

  lemma FlattenNone()
    ensures Flatten([]) == []
  {
  }

  lemma FlattenLast(groups: seq<Round>)
    requires groups != []
    ensures Flatten(groups) == Flatten(groups[..|groups| - 1]) + groups[|groups| - 1]
  {
  }

  /** Rounds laid end to end, complete or not, are found again. */
  lemma {:induction false} RoundsAreFound(groups: seq<Round>)
    requires AllShaped(groups)
    ensures Groups(Flatten(groups)) == groups
  {
    if groups == [] {
      FlattenNone();
    } else {
      var last := groups[|groups| - 1];
      var before := groups[..|groups| - 1];
      SplitRound(before, last, |last|);
      FlattenLast(groups);
      assert last[..|last|] == last;
      assert before + [last] == groups;
    }
  }

  /* ---- compose ---- */

  /** How long the stable prefix is; 0 for none that is allowed. */
  function PrefixLength(ms: seq<Message>): nat {
    if ms == [] then 0
    else if ms[0].role.System? then if |ms| < 2 || !ms[1].role.User? then 0 else 2
    else if ms[0].role.User? then 1
    else 0
  }

  /** The rounds from `k` on, behind the prefix. */
  function From(prefix: seq<Message>, groups: seq<Round>, k: nat): seq<Message>
    requires k <= |groups|
  {
    prefix + Flatten(groups[k..])
  }

  /** Walk back from round `k` while one more round fits. */
  function Reach(b: Budget, prefix: seq<Message>, groups: seq<Round>, k: nat, available: int): (r: nat)
    requires b.Valid() && k <= |groups|
    ensures r <= k
  {
    if k == 0 || !Fits(b, From(prefix, groups, k - 1), available) then k
    else Reach(b, prefix, groups, k - 1, available)
  }

  function Mandatory(b: Budget, groups: seq<Round>): (k: nat)
    requires b.Valid()
    ensures k <= |groups|
  {
    if |groups| <= b.retain then 0 else |groups| - b.retain
  }

  function Composed(b: Budget, ms: seq<Message>, fixed: int): Result
    requires b.Valid()
  {
    var n := PrefixLength(ms);
    if n == 0 || fixed < 0 then Refused(Malformed)
    else
      var available := b.maxContext - b.reserve - fixed;
      var groups := Groups(ms[n..]);
      if !AllComplete(groups) then Refused(Incomplete)
      else if Fits(b, ms, available) then Kept(ms)
      else if !Fits(b, From(ms[..n], groups, Mandatory(b, groups)), available) then Refused(TooBig)
      else Kept(From(ms[..n], groups, Reach(b, ms[..n], groups, Mandatory(b, groups), available)))
  }

  /** `compose`. */
  method Compose(b: Budget, ms: seq<Message>, fixed: int) returns (r: Result)
    requires b.Valid()
    ensures r == Composed(b, ms, fixed)
  {
    hide Fits, Complete, Flatten;
    if ms == [] || fixed < 0 { return Refused(Malformed); }
    var available := b.maxContext - b.reserve - fixed;
    var n := 0;
    if ms[0].role.System? {
      if |ms| < 2 || !ms[1].role.User? { return Refused(Malformed); }
      n := 2;
    } else if ms[0].role.User? {
      n := 1;
    } else {
      return Refused(Malformed);
    }
    var groups, current := MakeGroups(ms[n..]);
    for i := 0 to |groups|
      invariant forall j :: 0 <= j < i ==> Complete(groups[j])
    {
      if !Complete(groups[i]) { return Refused(Incomplete); }
    }
    if Fits(b, ms, available) { return Kept(ms); }
    var k := Mandatory(b, groups);
    if !Fits(b, From(ms[..n], groups, k), available) { return Refused(TooBig); }
    ghost var start := k;
    while k > 0 && Fits(b, From(ms[..n], groups, k - 1), available)
      invariant k <= start
      invariant Reach(b, ms[..n], groups, k, available) == Reach(b, ms[..n], groups, start, available)
    {
      k := k - 1;
    }
    return Kept(From(ms[..n], groups, k));
  }

  /** The grouping loop. */
  method MakeGroups(ms: seq<Message>) returns (groups: seq<Round>, current: Round)
    ensures groups == Groups(ms)
  {
    groups, current := [], [];
    for i := 0 to |ms|
      invariant Grouping(groups, current) == Split(ms[..i])
    {
      assert ms[..i + 1][..i] == ms[..i] && ms[..i + 1][i] == ms[i];
      if ms[i].role.Assistant? && current != [] {
        groups := groups + [current];
        current := [];
      }
      current := current + [ms[i]];
    }
    assert ms[..|ms|] == ms;
    if current != [] {
      groups := groups + [current];
    }
  }

  lemma {:induction false} ReachFits(b: Budget, prefix: seq<Message>, groups: seq<Round>, k: nat, available: int)
    requires b.Valid() && k <= |groups| && Fits(b, From(prefix, groups, k), available)
    ensures var r := Reach(b, prefix, groups, k, available);
            && Fits(b, From(prefix, groups, r), available)
            && (r > 0 ==> !Fits(b, From(prefix, groups, r - 1), available))
  {
    hide Fits, From;
    if k > 0 && Fits(b, From(prefix, groups, k - 1), available) {
      ReachFits(b, prefix, groups, k - 1, available);
    }
  }

  /** A longer suffix costs no less. */
  lemma {:induction false} LongerCosts(b: Budget, prefix: seq<Message>, groups: seq<Round>, j: nat, k: nat,
                                       available: int)
    requires b.Valid() && j <= k <= |groups| && Fits(b, From(prefix, groups, j), available)
    ensures Fits(b, From(prefix, groups, k), available)
  {
    hide Fits;
    assert groups[j..] == groups[j..k] + groups[k..];
    FlattenSplit(groups[j..k], groups[k..]);
    assert prefix + Flatten(groups[j..]) == prefix + Flatten(groups[j..k]) + Flatten(groups[k..]);
    FewerFit(b, prefix, Flatten(groups[j..k]), Flatten(groups[k..]), available);
  }

  lemma {:induction false} All(ms: seq<Message>, n: nat)
    requires n <= |ms|
    ensures From(ms[..n], Groups(ms[n..]), 0) == ms
  {
    GroupsKeepAll(ms[n..]);
    assert Groups(ms[n..])[0..] == Groups(ms[n..]);
    assert ms[..n] + ms[n..] == ms;
  }

  /** Walking back as far as it fits finds the longest suffix that does. */
  lemma {:induction false} ReachIsLongest(b: Budget, ms: seq<Message>, fixed: int)
    requires b.Valid() && fixed >= 0 && PrefixLength(ms) > 0 && AllComplete(Groups(ms[PrefixLength(ms)..]))
    ensures var prefix := ms[..PrefixLength(ms)];
            var groups := Groups(ms[PrefixLength(ms)..]);
            var available := b.maxContext - b.reserve - fixed;
            var most := Mandatory(b, groups);
            match Composed(b, ms, fixed)
            case Refused(e) =>
              e == TooBig && forall k :: 0 <= k <= most ==> !Fits(b, From(prefix, groups, k), available)
            case Kept(kept) =>
              exists k :: 0 <= k <= most && kept == From(prefix, groups, k) && Fits(b, kept, available)
                          && forall j :: 0 <= j < k ==> !Fits(b, From(prefix, groups, j), available)
  {
    hide Fits, From, Reach, Groups;
    var n := PrefixLength(ms);
    var prefix, groups := ms[..n], Groups(ms[n..]);
    var available := b.maxContext - b.reserve - fixed;
    var most := Mandatory(b, groups);
    All(ms, n);
    if Fits(b, ms, available) {
      assert Composed(b, ms, fixed) == Kept(From(prefix, groups, 0));
    } else if Fits(b, From(prefix, groups, most), available) {
      ReachFits(b, prefix, groups, most, available);
      var k := Reach(b, prefix, groups, most, available);
      forall j | 0 <= j < k ensures !Fits(b, From(prefix, groups, j), available) {
        if Fits(b, From(prefix, groups, j), available) {
          LongerCosts(b, prefix, groups, j, k - 1, available);
        }
      }
      assert Composed(b, ms, fixed) == Kept(From(prefix, groups, k));
    } else {
      forall k | 0 <= k <= most ensures !Fits(b, From(prefix, groups, k), available) {
        if Fits(b, From(prefix, groups, k), available) {
          LongerCosts(b, prefix, groups, k, most, available);
        }
      }
      assert Composed(b, ms, fixed) == Refused(TooBig);
    }
  }

  /** A conversation as rounds: an assistant's message with tool calls, no id twice, and one result for each, in
      order. */
  predicate Whole(ms: seq<Message>, rounds: seq<Round>) {
    ms == Flatten(rounds) && forall i :: 0 <= i < |rounds| ==> IsRound(rounds[i])
  }

  predicate IsRound(r: Round) {
    && |r| >= 2 && r[0].role.Assistant? && |r[0].calls| == |r| - 1
    && (forall j, k :: 0 <= j < k < |r| - 1 ==> r[0].calls[j] != r[0].calls[k])
    && forall j :: 0 <= j < |r| - 1 ==> r[j + 1].role.Tool? && r[j + 1].answers == Some(r[0].calls[j])
  }

  lemma {:induction false} IsRoundMeans(r: Round)
    ensures IsRound(r) <==> Complete(r)
  {
    if IsRound(r) {
      forall i | 1 <= i < |r| ensures r[i].role.Tool? && r[i].answers == Some(r[0].calls[i - 1]) {
        var j := i - 1;
        assert r[j + 1].answers == Some(r[0].calls[j]);
      }
    }
  }

  /** There is one way at most, and grouping finds it. */
  lemma {:induction false} WholeIsGroups(ms: seq<Message>, rounds: seq<Round>)
    ensures Whole(ms, rounds) ==> Groups(ms) == rounds && AllComplete(rounds)
    ensures AllComplete(Groups(ms)) ==> Whole(ms, Groups(ms))
  {
    hide Flatten, Groups, Complete, IsRound;
    GroupsKeepAll(ms);
    forall r ensures IsRound(r) <==> Complete(r) { IsRoundMeans(r); }
    if Whole(ms, rounds) {
      CompleteShapes(rounds);
      RoundsAreFound(rounds);
    }
  }

  /** The message that has to come first, or first two. */
  predicate Opens(ms: seq<Message>) {
    ms != [] && (ms[0].role.User? || (ms[0].role.System? && |ms| > 1 && ms[1].role.User?))
  }

  /** What is kept is the opening and the longest suffix of complete rounds that fits, with the newest `retain` rounds,
      or all there are, at least; it is refused for size exactly when those alone do not fit, as incomplete exactly when
      the rest is not made of complete rounds, and as malformed exactly when the opening or the estimate is. */
  lemma {:induction false} KeepsTheLongest(b: Budget, ms: seq<Message>, fixed: int)
    requires b.Valid()
    ensures Composed(b, ms, fixed) == Refused(Malformed) <==> fixed < 0 || !Opens(ms)
    ensures fixed >= 0 && Opens(ms) ==>
              var n := if ms[0].role.System? then 2 else 1;
              var available := b.maxContext - b.reserve - fixed;
              && (Composed(b, ms, fixed) == Refused(Incomplete) <==> !exists rounds :: Whole(ms[n..], rounds))
              && forall rounds :: Whole(ms[n..], rounds) ==>
                   var newest := if |rounds| < b.retain then |rounds| else b.retain;
                   var least := ms[..n] + Flatten(rounds[|rounds| - newest..]);
                   && (Composed(b, ms, fixed) == Refused(TooBig) <==> !Fits(b, least, available))
                   && (Composed(b, ms, fixed).Kept? ==>
                         exists k :: 0 <= k <= |rounds| - newest
                                     && Composed(b, ms, fixed).messages == ms[..n] + Flatten(rounds[k..])
                                     && Fits(b, ms[..n] + Flatten(rounds[k..]), available)
                                     && forall j :: 0 <= j < k ==> !Fits(b, ms[..n] + Flatten(rounds[j..]), available))
  {
    hide Fits, Reach, Flatten, Groups, Complete;
    if fixed >= 0 && Opens(ms) {
      var n := PrefixLength(ms);
      var groups := Groups(ms[n..]);
      WholeIsGroups(ms[n..], groups);
      forall rounds | Whole(ms[n..], rounds) ensures rounds == groups && AllComplete(groups) {
        WholeIsGroups(ms[n..], rounds);
      }
      if AllComplete(groups) { Longest(b, ms, fixed); }
    }
  }

  lemma {:induction false} Longest(b: Budget, ms: seq<Message>, fixed: int)
    requires b.Valid() && fixed >= 0 && Opens(ms) && AllComplete(Groups(ms[PrefixLength(ms)..]))
    ensures var n := PrefixLength(ms);
            var available := b.maxContext - b.reserve - fixed;
            var rounds := Groups(ms[n..]);
            var newest := if |rounds| < b.retain then |rounds| else b.retain;
            var least := ms[..n] + Flatten(rounds[|rounds| - newest..]);
            && Composed(b, ms, fixed) != Refused(Incomplete)
            && (Composed(b, ms, fixed) == Refused(TooBig) <==> !Fits(b, least, available))
            && (Composed(b, ms, fixed).Kept? ==>
                  exists k :: 0 <= k <= |rounds| - newest
                              && Composed(b, ms, fixed).messages == ms[..n] + Flatten(rounds[k..])
                              && Fits(b, ms[..n] + Flatten(rounds[k..]), available)
                              && forall j :: 0 <= j < k ==> !Fits(b, ms[..n] + Flatten(rounds[j..]), available))
  {
    hide Fits, Reach, Flatten, Groups, Complete;
    var n := PrefixLength(ms);
    var prefix, rounds := ms[..n], Groups(ms[n..]);
    var available := b.maxContext - b.reserve - fixed;
    ReachIsLongest(b, ms, fixed);
    if Composed(b, ms, fixed).Kept? {
      var k :| 0 <= k <= Mandatory(b, rounds) && Composed(b, ms, fixed).messages == From(prefix, rounds, k)
               && Fits(b, Composed(b, ms, fixed).messages, available)
               && forall j :: 0 <= j < k ==> !Fits(b, From(prefix, rounds, j), available);
      assert Composed(b, ms, fixed).messages == prefix + Flatten(rounds[k..]);
      forall j | 0 <= j < k ensures !Fits(b, prefix + Flatten(rounds[j..]), available) {
        assert !Fits(b, From(prefix, rounds, j), available);
      }
      LongerCosts(b, prefix, rounds, k, Mandatory(b, rounds), available);
    }
  }

  /** The kept messages are again a conversation of complete rounds, behind the same prefix. */
  lemma {:induction false} KeptIsWhole(b: Budget, ms: seq<Message>, fixed: int)
    requires b.Valid() && Composed(b, ms, fixed).Kept?
    ensures var kept := Composed(b, ms, fixed).messages;
            var n := PrefixLength(ms);
            && n <= |kept| && kept[..n] == ms[..n] && PrefixLength(kept) == n
            && (exists k :: 0 <= k <= |Groups(ms[n..])| && Groups(kept[n..]) == Groups(ms[n..])[k..])
            && AllComplete(Groups(kept[n..]))
            && Fits(b, kept, b.maxContext - b.reserve - fixed)
  {
    hide Fits, Reach, Complete;
    var n := PrefixLength(ms);
    var groups := Groups(ms[n..]);
    ReachIsLongest(b, ms, fixed);
    var kept := Composed(b, ms, fixed).messages;
    var k :| 0 <= k <= Mandatory(b, groups) && kept == From(ms[..n], groups, k)
             && Fits(b, kept, b.maxContext - b.reserve - fixed);
    assert kept[n..] == Flatten(groups[k..]);
    assert AllShaped(groups[k..]) by { CompleteShapes(groups); }
    RoundsAreFound(groups[k..]);
  }

  /** Trimming what was trimmed changes nothing. */
  lemma {:induction false} TrimmingSettles(b: Budget, ms: seq<Message>, fixed: int)
    requires b.Valid() && Composed(b, ms, fixed).Kept?
    ensures Composed(b, Composed(b, ms, fixed).messages, fixed) == Composed(b, ms, fixed)
  {
    hide Fits, Reach, Complete, Groups;
    KeptIsWhole(b, ms, fixed);
  }

  /* ---- the agent's loop ---- */

  /** A model's answer: its tool calls, which of them invoke a capability, and the sizes its message and the
      results will have. */
  datatype Call = Call(id: string, invokes: bool, resultSize: nat)

  datatype Response = Failure | Says(calls: seq<Call>, size: nat)

  datatype End = Answered | InvocationLimit | TurnLimit | ProviderFailed | ContextRefused(error: Error)

  function Ids(calls: seq<Call>): (ids: seq<string>)
    ensures |ids| == |calls| && forall i :: 0 <= i < |ids| ==> ids[i] == calls[i].id
  {
    seq(|calls|, i requires 0 <= i < |calls| => calls[i].id)
  }

  /** Two of the response's tool calls have the same id. */
  predicate Repeats(r: Response) { r.Says? && !Distinct(Ids(r.calls)) }

  /** `AgentRunner.run`, with the answers the model gives as `responses`. Every request sent fits; capabilities are
      invoked no more often than allowed. The loop's own history is refused as incomplete exactly when the turn before
      repeated a tool-call id: such a turn is the last, unless it was cut short by the invocation limit it is followed
      by that refusal, and no other turn is. */
  method RunAgent(b: Budget, fixed: nat, prompt: nat, maxTurns: nat, maxInvocations: nat, responses: seq<Response>)
    returns (end: End, requests: seq<seq<Message>>, invocations: nat)
    requires b.Valid() && |responses| >= maxTurns >= 1
    ensures |requests| <= maxTurns && invocations <= maxInvocations
    ensures forall i :: 0 <= i < |requests| ==> Fits(b, requests[i], b.maxContext - b.reserve - fixed)
    ensures end.ContextRefused? ==> end.error != Malformed
    ensures forall i :: 0 <= i < |requests| && Repeats(responses[i]) ==>
              i == |requests| - 1
              && (end == ContextRefused(Incomplete) || end == InvocationLimit
                  || (end == TurnLimit && |requests| == maxTurns))
    ensures end == ContextRefused(Incomplete) ==> requests != [] && Repeats(responses[|requests| - 1])
    ensures end == Answered ==>
              requests != [] && responses[|requests| - 1].Says? && responses[|requests| - 1].calls == []
    ensures end == TurnLimit ==> |requests| == maxTurns
  {
    hide Fits, Complete, Flatten, Groups, Composed;
    var messages := [Message(User, [], None, prompt)];
    ghost var rounds: seq<Round> := [];
    requests, invocations := [], 0;
    FlattenNone();
    for turn := 0 to maxTurns
      invariant |requests| == turn && invocations <= maxInvocations
      invariant forall i :: 0 <= i < |requests| ==> Fits(b, requests[i], b.maxContext - b.reserve - fixed)
      invariant messages == [Message(User, [], None, prompt)] + Flatten(rounds)
      invariant AllShaped(rounds) && (AllComplete(rounds) <==> turn == 0 || !Repeats(responses[turn - 1]))
      invariant forall i :: 0 <= i < turn - 1 ==> !Repeats(responses[i])
    {
      var request := Compose(b, messages, fixed);
      RefusalMeans(b, messages, fixed, rounds);
      if request.Refused? {
        end := ContextRefused(request.error);
        return;
      }
      KeptIsWhole(b, messages, fixed);
      if responses[turn].Failure? {
        end := ProviderFailed;
        return;
      }
      requests := requests + [request.messages];
      assert turn == 0 || !Repeats(responses[turn - 1]);
      var calls := responses[turn].calls;
      var round := [Message(Assistant, Ids(calls), None, responses[turn].size)];
      if calls == [] {
        end := Answered;
        return;
      }
      for n := 0 to |calls|
        invariant invocations <= maxInvocations
        invariant |round| == n + 1 && round[0] == Message(Assistant, Ids(calls), None, responses[turn].size)
        invariant forall i :: 1 <= i <= n ==> round[i].role.Tool? && round[i].answers == Some(calls[i - 1].id)
      {
        if calls[n].invokes {
          if invocations >= maxInvocations {
            end := InvocationLimit;
            return;
          }
          invocations := invocations + 1;
        }
        round := round + [Message(Tool, [], Some(calls[n].id), calls[n].resultSize)];
      }
      RoundIsComplete(round, calls);
      FlattenSplit(rounds, [round]);
      FlattenOne(round);
      messages := messages + round;
      assert AllShaped(rounds + [round]) && (AllComplete(rounds + [round]) <==> AllComplete(rounds) && Complete(round))
        by { OneMoreRound(rounds, round); }
      rounds := rounds + [round];
    }
    end := TurnLimit;
  }

  lemma RoundIsComplete(round: Round, calls: seq<Call>)
    requires calls != [] && |round| == |calls| + 1 && round[0].role.Assistant? && round[0].calls == Ids(calls)
    requires forall i :: 1 <= i <= |calls| ==> round[i].role.Tool? && round[i].answers == Some(calls[i - 1].id)
    ensures Shaped(round) && (Complete(round) <==> Distinct(Ids(calls)))
  {
  }

  lemma OneMoreRound(rounds: seq<Round>, round: Round)
    requires AllShaped(rounds) && Shaped(round)
    ensures AllShaped(rounds + [round]) && (AllComplete(rounds + [round]) <==> AllComplete(rounds) && Complete(round))
  {
    if AllComplete(rounds + [round]) {
      forall i | 0 <= i < |rounds| ensures Complete(rounds[i]) { assert (rounds + [round])[i] == rounds[i]; }
      assert (rounds + [round])[|rounds|] == round;
    }
  }

  lemma {:induction false} RefusalMeans(b: Budget, ms: seq<Message>, fixed: int, rounds: seq<Round>)
    requires b.Valid() && fixed >= 0 && ms != [] && ms[0].role.User? && ms[1..] == Flatten(rounds) && AllShaped(rounds)
    ensures Composed(b, ms, fixed) != Refused(Malformed)
    ensures AllComplete(rounds) <==> Composed(b, ms, fixed) != Refused(Incomplete)
  {
    hide Fits, Complete, Reach;
    RoundsAreFound(rounds);
  }
}
