/** The remote ends of publication and reporting: a client that may lose any answer, or its life, at any request,
    and finds out on the next call what its last one did. */
module Remote {

  /** What becomes of one request. Every kind of failure may strike before or after the request took effect; an
      answer that cannot be read counts as `Refused`. */
  datatype Reply = Answered | Refused(effect: bool) | TimedOut(effect: bool) | Died(effect: bool)

  datatype Outcome<+T> = Got(value: T) | Timeout | Error | Dead {
    predicate Failed() { !Got? }
  }

  function Takes(r: Reply): bool { r.Answered? || r.effect }

  function Seen<T>(r: Reply, value: T): (o: Outcome<T>)
    ensures o.Got? <==> r.Answered?
    ensures o.Got? ==> o.value == value
  {
    match r
    case Answered => Got(value)
    case Refused(_) => Error
    case TimedOut(_) => Timeout
    case Died(_) => Dead
  }

  /** A failure does not tell whether the request took effect. */
  lemma EitherWay<T>(value: T, effect: bool)
    ensures Seen(Refused(effect), value) == Error && Takes(Refused(effect)) == effect
    ensures Seen(TimedOut(effect), value) == Timeout && Takes(TimedOut(effect)) == effect
    ensures Seen(Died(effect), value) == Dead && Takes(Died(effect)) == effect
    ensures Seen(Answered, value) == Got(value) && Takes(Answered)
  {
  }

  /** The future of a connection; past its end every request is answered. */
  function Head(replies: seq<Reply>): Reply { if replies == [] then Answered else replies[0] }

  function Tail(replies: seq<Reply>): seq<Reply> { if replies == [] then [] else replies[1..] }
}

/** `GitHubAdapter.publish` and the service around it (src/agent_runtime/publication.py). */
module GitHub {
  import opened Text
  import opened Patch
  import opened Mutations
  import opened Remote

  datatype Commit = Commit(message: string, tree: Tree, parent: Option<nat>)

  datatype Pull = Pull(number: nat, title: string, body: string)

  datatype Published = Published(commit: nat, number: nat)

  /** The contents that tree entries stand for. */
  function Contents(blobs: seq<string>, entries: map<string, Option<nat>>): Changes
    requires forall p :: p in entries && entries[p].Some? ==> entries[p].value < |blobs|
  {
    map p | p in entries :: if entries[p].Some? then Some(blobs[entries[p].value]) else None
  }

  /** One repository, as far as one run's branch is concerned. Object ids are positions. */
  class Repository {
    var blobs: seq<string>
    var trees: seq<Tree>
    var commits: seq<Commit>
    var branch: Option<nat>
    var pulls: seq<Pull>
    var replies: seq<Reply>

    constructor (commits: seq<Commit>, branch: Option<nat>, pulls: seq<Pull>, replies: seq<Reply>)
      requires branch.Some? ==> branch.value < |commits|
      ensures Valid() && this.commits == commits && this.branch == branch && this.pulls == pulls
    {
      this.commits, this.branch, this.pulls, this.replies := commits, branch, pulls, replies;
      blobs, trees := [], [];
    }

    ghost predicate Valid()
      reads this
    {
      branch.Some? ==> branch.value < |commits|
    }

    method Next() returns (r: Reply)
      modifies this`replies
      ensures old(replies) == if old(replies) == [] then replies else [r] + replies
      ensures old(replies) == [] ==> r.Answered?
    {
      r := Head(replies);
      replies := Tail(replies);
    }

    method BranchSha() returns (o: Outcome<Option<nat>>)
      modifies this`replies
      ensures o.Got? ==> o.value == branch
      ensures |replies| <= |old(replies)| && (!o.Got? ==> |replies| < |old(replies)|)
    {
      var r := Next();
      o := Seen(r, branch);
    }

    method FindPull() returns (o: Outcome<Option<Pull>>)
      modifies this`replies
      ensures o.Got? ==> o.value == if pulls == [] then None else Some(pulls[0])
      ensures |replies| <= |old(replies)| && (!o.Got? ==> |replies| < |old(replies)|)
    {
      var r := Next();
      o := Seen(r, if pulls == [] then None else Some(pulls[0]));
    }

    method CreateBlob(content: string) returns (o: Outcome<nat>)
      modifies this`replies, this`blobs
      ensures old(blobs) <= blobs
      ensures o.Got? ==> o.value < |blobs| && blobs[o.value] == content
      ensures |replies| <= |old(replies)| && (!o.Got? ==> |replies| < |old(replies)|)
    {
      var r := Next();
      o := Seen(r, |blobs|);
      if Takes(r) { blobs := blobs + [content]; }
    }

    method CreateTree(base: Tree, entries: map<string, Option<nat>>) returns (o: Outcome<nat>)
      requires forall p :: p in entries && entries[p].Some? ==> entries[p].value < |blobs|
      modifies this`replies, this`trees
      ensures o.Got? ==> o.value < |trees| && trees[o.value] == Overlay(base, Contents(blobs, entries))
      ensures |replies| <= |old(replies)| && (!o.Got? ==> |replies| < |old(replies)|)
    {
      var r := Next();
      o := Seen(r, |trees|);
      if Takes(r) { trees := trees + [Overlay(base, Contents(blobs, entries))]; }
    }

    method CreateCommit(message: string, tree: nat, parent: nat) returns (o: Outcome<nat>)
      requires Valid() && tree < |trees|
      modifies this`replies, this`commits
      ensures Valid() && old(commits) <= commits
      ensures o.Got? ==> o.value < |commits| && commits[o.value] == Commit(message, trees[tree], Some(parent))
      ensures |replies| <= |old(replies)| && (!o.Got? ==> |replies| < |old(replies)|)
    {
      var r := Next();
      o := Seen(r, |commits|);
      if Takes(r) { commits := commits + [Commit(message, trees[tree], Some(parent))]; }
    }

    /** Creating a reference that exists is refused. */
    method CreateBranch(commit: nat) returns (o: Outcome<()>)
      requires Valid() && commit < |commits|
      modifies this`replies, this`branch
      ensures Valid() && (branch == old(branch) || (old(branch).None? && branch == Some(commit)))
      ensures o.Got? ==> old(branch).None? && branch == Some(commit)
      ensures |replies| <= |old(replies)| && (!o.Got? && old(branch).None? ==> |replies| < |old(replies)|)
    {
      var r := Next();
      if branch.Some? && r.Answered? { return Error; }
      o := Seen(r, ());
      if Takes(r) && branch.None? { branch := Some(commit); }
    }

    /** Nothing in the remote itself keeps pull requests unique. */
    method CreatePull(title: string, body: string) returns (o: Outcome<Pull>)
      modifies this`replies, this`pulls
      ensures pulls == old(pulls) || pulls == old(pulls) + [Pull(|old(pulls)|, title, body)]
      ensures o.Got? ==> pulls == old(pulls) + [o.value]
      ensures |replies| <= |old(replies)| && (!o.Got? ==> |replies| < |old(replies)|)
    {
      var r := Next();
      var pull := Pull(|pulls|, title, body);
      o := Seen(r, pull);
      if Takes(r) { pulls := pulls + [pull]; }
    }

    /** A blob per file with content, in some order; the tree does not depend on which. */
    method CreateBlobs(files: Changes) returns (o: Outcome<map<string, Option<nat>>>)
      modifies this`replies, this`blobs
      ensures o.Got? ==> (forall p :: p in o.value && o.value[p].Some? ==> o.value[p].value < |blobs|)
                         && Contents(blobs, o.value) == files
      ensures |replies| <= |old(replies)| && (!o.Got? ==> |replies| < |old(replies)|)
    {
      var entries: map<string, Option<nat>> := map[];
      var todo := files.Keys;
      while todo != {}
        invariant todo <= files.Keys && entries.Keys == files.Keys - todo && |replies| <= |old(replies)|
        invariant forall p :: p in entries ==> (entries[p].Some? <==> files[p].Some?)
        invariant forall p :: p in entries && entries[p].Some? ==>
                    entries[p].value < |blobs| && blobs[entries[p].value] == files[p].value
        decreases |todo|
      {
        var p :| p in todo;
        todo := todo - {p};
        if files[p].Some? {
          var sha := CreateBlob(files[p].value);
          if sha.Failed() { return if sha.Timeout? then Timeout else if sha.Error? then Error else Dead; }
          entries := entries[p := Some(sha.value)];
        } else {
          entries := entries[p := None];
        }
      }
      return Got(entries);
    }

    /** Blobs, tree, commit, branch: only the last of them can be seen by anyone. */
    method CreateFresh(base: nat, files: Changes, marker: string) returns (o: Outcome<nat>)
      requires Valid() && base < |commits|
      modifies this`replies, this`blobs, this`trees, this`commits, this`branch
      ensures Valid() && old(commits) <= commits
      ensures branch == old(branch)
           || (old(branch).None? && branch.Some?
               && commits[branch.value] == Commit(marker, Overlay(old(commits)[base].tree, files), Some(base)))
      ensures o.Got? ==> old(branch).None? && branch == Some(o.value)
      ensures |replies| <= |old(replies)| && (!o.Got? && old(branch).None? ==> |replies| < |old(replies)|)
    {
      var r := Next();
      if !r.Answered? { return Seen(r, 0); }
      var tree := commits[base].tree;
      var entries := CreateBlobs(files);
      if entries.Failed() { return if entries.Timeout? then Timeout else if entries.Error? then Error else Dead; }
      var t := CreateTree(tree, entries.value);
      if t.Failed() { return t; }
      var c := CreateCommit(marker, t.value, base);
      if c.Failed() { return c; }
      var b := CreateBranch(c.value);
      if b.Failed() { return if b.Timeout? then Timeout else if b.Error? then Error else Dead; }
      return c;
    }

    /** Find the pull request or create it; when the answer to that is lost, look once more. */
    method EnsurePull(title: string, marker: string) returns (o: Outcome<Pull>)
      modifies this`replies, this`pulls
      ensures pulls == old(pulls) || (old(pulls) == [] && pulls == [Pull(0, title, marker)])
      ensures o.Got? ==> pulls != [] && o.value == pulls[0]
      ensures |replies| <= |old(replies)| && (!o.Got? ==> |replies| < |old(replies)|)
    {
      var found := FindPull();
      if found.Failed() { return if found.Timeout? then Timeout else if found.Error? then Error else Dead; }
      if found.value.Some? { return Got(found.value.value); }
      o := CreatePull(title, marker);
      if o.Timeout? {
        found := FindPull();
        if found.Dead? { return Dead; }
        if found.Failed() || found.value.None? { return Error; }
        return Got(found.value.value);
      }
    }

    /** `publish`. Whatever fails and wherever: a branch that exists is left alone, one that appears holds exactly
        the files handed over on the base, and a pull request is added only where there is none. */
    method Publish(base: nat, files: Changes, title: string, marker: string) returns (o: Outcome<Published>)
      requires Valid() && base < |commits|
      modifies this
      ensures Valid() && old(commits) <= commits
      ensures branch == old(branch)
           || (old(branch).None? && branch.Some?
               && commits[branch.value] == Commit(marker, Overlay(old(commits)[base].tree, files), Some(base)))
      ensures pulls == old(pulls)
           || (old(pulls) == [] && pulls == [Pull(0, title, marker)] && branch.Some?
               && commits[branch.value].message == marker)
      ensures o.Got? ==> pulls != [] && o.value.number == pulls[0].number && branch == Some(o.value.commit)
                         && commits[branch.value].message == marker
      ensures |replies| <= |old(replies)|
      ensures !o.Got? ==> |replies| < |old(replies)| || (branch.Some? && commits[branch.value].message != marker)
    {
      var sha := BranchSha();
      if sha.Failed() { return if sha.Timeout? then Timeout else if sha.Error? then Error else Dead; }
      var commit;
      if sha.value.None? {
        var made := CreateFresh(base, files, marker);
        if made.Failed() { return if made.Timeout? then Timeout else if made.Error? then Error else Dead; }
        commit := made.value;
      } else {
        commit := sha.value.value;
        var r := Next();
        if !r.Answered? { return Seen(r, Published(0, 0)); }
        if commits[commit].message != marker { return Error; }
      }
      var pull := EnsurePull(title, marker);
      if pull.Failed() { return if pull.Timeout? then Timeout else if pull.Error? then Error else Dead; }
      return Got(Published(commit, pull.value.number));
    }
  }

  /** A run with its publication intent persisted, and the repository it publishes to. One worker is alive at a
      time; `files` are those of the approved generation, which `LifecyclePublished` shows cannot change. */
  class Publication {
    const remote: Repository
    const base: nat
    const files: Changes
    const title: string
    const marker: string
    var sent: Option<Published>

    constructor (remote: Repository, base: nat, files: Changes, title: string, marker: string)
      requires remote.Valid() && base < |remote.commits| && remote.pulls == []
      requires remote.branch.Some? ==> remote.commits[remote.branch.value].message != marker
      ensures Valid() && sent.None? && this.remote == remote
    {
      this.remote, this.base, this.files, this.title, this.marker := remote, base, files, title, marker;
      sent := None;
    }

    /** At most one pull request, this run's. It is there only with this run's branch, which holds the approved
        files; a stored answer names both. A branch that was someone else's to begin with stays theirs. */
    ghost predicate Valid()
      reads this, remote
    {
      && remote.Valid() && base < |remote.commits|
      && (remote.pulls == [] || remote.pulls == [Pull(0, title, marker)])
      && (remote.pulls != [] ==> Ours())
      && (remote.branch.Some? && remote.commits[remote.branch.value].message == marker ==> Ours())
      && (sent.Some? ==> remote.pulls != [] && remote.branch == Some(sent.value.commit) && sent.value.number == 0)
    }

    ghost predicate Ours()
      reads this, remote
    {
      && base < |remote.commits| && remote.branch.Some? && remote.branch.value < |remote.commits|
      && remote.commits[remote.branch.value] == Commit(marker, Overlay(remote.commits[base].tree, files), Some(base))
    }

    /** The branch is somebody else's. */
    ghost predicate Foreign()
      reads this, remote
      requires remote.Valid()
    {
      remote.branch.Some? && remote.commits[remote.branch.value].message != marker
    }

    /** One publish or resume call: answer from the outbox once it has succeeded; before that, deny if the base moved,
        and leave the remote as it is. */
    method Call(baseHead: nat) returns (o: Outcome<Published>)
      requires Valid()
      modifies this, remote
      ensures Valid()
      ensures old(sent).Some? ==>
                sent == old(sent) && o == Got(old(sent).value) && remote.pulls == old(remote.pulls)
      ensures o.Got? ==> sent == Some(o.value)
      ensures old(sent).None? && baseHead != base ==>
                && !o.Got? && sent.None? && remote.branch == old(remote.branch)
                && remote.pulls == old(remote.pulls) && remote.commits == old(remote.commits)
      ensures old(sent).None? && sent.Some? ==> o == Got(sent.value)
      ensures old(remote.branch).Some? ==> remote.branch == old(remote.branch)
      ensures old(remote.pulls) <= remote.pulls
      ensures |remote.replies| <= |old(remote.replies)| && (!old(Foreign()) ==> !Foreign())
      ensures !o.Got? ==> baseHead != base || Foreign() || |remote.replies| < |old(remote.replies)|
    {
      if sent.Some? { return Got(sent.value); }
      var r := remote.Next();
      if !r.Answered? { return Seen(r, Published(0, 0)); }
      if baseHead != base { return Error; }
      ghost var commits := remote.commits;
      o := remote.Publish(base, files, title, marker);
      assert remote.commits[base] == commits[base];
      if o.Got? { sent := Some(o.value); }
    }

    /** Any number of calls, each stopped or misled at any request: one pull request at most, on a branch that is
        created once and holds the approved files; every answer is the same. With the base unmoved and the branch free
        or this run's own, one call more than there are answers still to be lost is enough to be answered. */
    method Work(heads: seq<nat>) returns (answers: seq<Published>)
      requires Valid()
      modifies this, remote
      ensures Valid() && |remote.pulls| <= 1
      ensures old(remote.branch).Some? ==> remote.branch == old(remote.branch)
      ensures answers != [] ==> |remote.pulls| == 1 && Ours()
      ensures forall i, j :: 0 <= i < |answers| && 0 <= j < |answers| ==> answers[i] == answers[j]
      ensures (forall i :: 0 <= i < |heads| ==> heads[i] == base) && !old(Foreign()) &&
              |heads| > |old(remote.replies)| ==>
                answers != []
      ensures old(sent).None? && (forall i :: 0 <= i < |heads| ==> heads[i] != base) ==>
                && answers == [] && sent.None? && remote.branch == old(remote.branch)
                && remote.pulls == old(remote.pulls) && remote.commits == old(remote.commits)
    {
      answers := [];
      for n := 0 to |heads|
        invariant Valid()
        invariant old(remote.branch).Some? ==> remote.branch == old(remote.branch)
        invariant answers != [] ==> sent.Some?
        invariant old(sent).None? && (forall i :: 0 <= i < n ==> heads[i] != base) ==>
                    && answers == [] && sent.None? && remote.branch == old(remote.branch)
                    && remote.pulls == old(remote.pulls) && remote.commits == old(remote.commits)
        invariant forall i :: 0 <= i < |answers| ==> sent == Some(answers[i])
        invariant |remote.replies| <= |old(remote.replies)| && (!old(Foreign()) ==> !Foreign())
        invariant (forall i :: 0 <= i < n ==> heads[i] == base) && !old(Foreign()) && answers == [] ==>
                    n + |remote.replies| <= |old(remote.replies)|
      {
        var o := Call(heads[n]);
        if o.Got? { answers := answers + [o.value]; }
      }
    }
  }
}

/** `JiraReportingService._comment` (src/agent_runtime/reporting.py). */
module JiraComment {
  import opened Text
  import opened Remote

  datatype Comment = Comment(id: nat, text: string)

  predicate BearsAt(text: string, marker: string, i: nat) { i + |marker| <= |text| && text[i..i + |marker|] == marker }

  predicate Bears(text: string, marker: string) { exists i :: 0 <= i <= |text| && BearsAt(text, marker, i) }

  /** The marker stands somewhere in the text. */
  lemma {:induction false} BearsMeans(text: string, marker: string)
    ensures Bears(text, marker) <==> exists a, b :: text == a + marker + b
  {
    if i :| 0 <= i <= |text| && BearsAt(text, marker, i) {
      assert text == text[..i] + marker + text[i + |marker|..];
    }
    if a, b :| text == a + marker + b {
      assert BearsAt(text, marker, |a|);
    }
  }

  /** The first comment bearing the marker. */
  function First(comments: seq<Comment>, marker: string): (r: Option<nat>)
    ensures r.Some? <==> exists i :: 0 <= i < |comments| && Bears(comments[i].text, marker)
    ensures r.Some? ==> exists i :: 0 <= i < |comments| && Bears(comments[i].text, marker) && comments[i].id == r.value
  {
    if comments == [] then None
    else if Bears(comments[0].text, marker) then Some(comments[0].id)
    else
      var rest := First(comments[1..], marker);
      assert comments == [comments[0]] + comments[1..];
      rest
  }

  lemma {:induction false} FirstSplit(a: seq<Comment>, b: seq<Comment>, marker: string)
    ensures First(a + b, marker) == if First(a, marker).Some? then First(a, marker) else First(b, marker)
  {
    if a == [] {
      assert a + b == b;
    } else {
      assert (a + b)[1..] == a[1..] + b;
      FirstSplit(a[1..], b, marker);
    }
  }

  /** One more page read. */
  lemma {:induction false} PageSplit(comments: seq<Comment>, start: nat, n: nat, marker: string)
    requires start + n <= |comments| && First(comments[..start], marker).None?
    ensures First(comments[..start + n], marker) == First(comments[start..start + n], marker)
    ensures First(comments[start..start + n], marker).Some? ==>
              First(comments, marker) == First(comments[start..start + n], marker)
  {
    hide First;
    FirstSplit(comments[..start], comments[start..start + n], marker);
    assert comments[..start] + comments[start..start + n] == comments[..start + n];
    FirstSplit(comments[..start + n], comments[start + n..], marker);
    assert comments[..start + n] + comments[start + n..] == comments;
  }

  /** How many comments bear the marker. */
  function Bearing(comments: seq<Comment>, marker: string): (n: nat)
    ensures n == 0 <==> First(comments, marker).None?
  {
    if comments == [] then 0
    else
      var rest := Bearing(comments[1..], marker);
      if Bears(comments[0].text, marker) then 1 + rest else rest
  }

  lemma {:induction false} BearingSplit(a: seq<Comment>, b: seq<Comment>, marker: string)
    ensures Bearing(a + b, marker) == Bearing(a, marker) + Bearing(b, marker)
  {
    if a == [] {
      assert a + b == b;
    } else {
      assert (a + b)[1..] == a[1..] + b;
      BearingSplit(a[1..], b, marker);
    }
  }

  /** A row of `jira_report_outbox`: the body is fixed with the intent. */
  datatype Outbox = Outbox(body: string, sent: Option<nat>)

  /** One run's report and the issue it is written to. `pages` is how many comments the server chooses to put on
      each page. One reporter is alive at a time. */
  class Report {
    const marker: string
    const pageSize: nat
    var comments: seq<Comment>
    var outbox: Option<Outbox>
    var replies: seq<Reply>
    var pages: seq<nat>

    constructor (marker: string, pageSize: nat, comments: seq<Comment>, replies: seq<Reply>, pages: seq<nat>)
      requires pageSize > 0 && Bearing(comments, marker) == 0
      ensures Valid() && outbox.None?
    {
      this.marker, this.pageSize, this.comments, this.replies, this.pages := marker, pageSize, comments, replies, pages;
      outbox := None;
    }

    /** At most one comment bears the marker; none does before there is an intent; the stored id is its id. */
    ghost predicate Valid()
      reads this
    {
      && pageSize > 0
      && Bearing(comments, marker) <= 1
      && (outbox.None? ==> Bearing(comments, marker) == 0)
      && (outbox.Some? ==> Bears(outbox.value.body, marker))
      && (outbox.Some? && outbox.value.sent.Some? ==> First(comments, marker) == outbox.value.sent)
    }

    method Next() returns (r: Reply)
      modifies this`replies
      ensures old(replies) == if old(replies) == [] then replies else [r] + replies
      ensures old(replies) == [] ==> r.Answered?
    {
      r := Head(replies);
      replies := Tail(replies);
    }

    /** The length of the page at `start`: as many as were asked for or fewer, and none only at the end. */
    method PageLength(start: nat) returns (n: nat)
      requires start <= |comments| && pageSize > 0
      modifies this`pages
      ensures start + n <= |comments| && n <= pageSize && (n == 0 ==> start == |comments|)
    {
      var wanted := pageSize;
      if pages != [] {
        wanted := pages[0];
        pages := pages[1..];
      }
      var left := |comments| - start;
      n := if wanted > pageSize then pageSize else if wanted == 0 then 1 else wanted;
      n := if n > left then left else n;
    }

    lemma NoneYet()
      ensures First(comments[..0], marker).None?
    {
    }

    /** `find_comment` over the pages of `comments`. */
    method FindComment() returns (o: Outcome<Option<nat>>)
      requires pageSize > 0
      modifies this`replies, this`pages
      ensures o.Got? ==> o.value == First(comments, marker)
      ensures |replies| <= |old(replies)| && (!o.Got? ==> |replies| < |old(replies)|)
    {
      hide First;
      var start := 0;
      NoneYet();
      while true
        invariant start <= |comments| && First(comments[..start], marker).None? && |replies| <= |old(replies)|
        decreases |comments| - start
      {
        var r := Next();
        if !r.Answered? { return Seen(r, None); }
        var n := PageLength(start);
        var page := comments[start..start + n];
        PageSplit(comments, start, n, marker);
        var found := First(page, marker);
        if found.Some? { return Got(found); }
        start := start + n;
        if n == 0 || start >= |comments| {
          assert comments[..start] == comments;
          return Got(None);
        }
      }
    }

    method CreateComment(body: string) returns (o: Outcome<nat>)
      modifies this`replies, this`comments
      ensures comments == old(comments) || exists id :: comments == old(comments) + [Comment(id, body)]
      ensures o.Got? ==> comments == old(comments) + [Comment(o.value, body)]
      ensures |replies| <= |old(replies)| && (!o.Got? ==> |replies| < |old(replies)|)
    {
      var r := Next();
      o := Seen(r, |comments|);
      if Takes(r) { comments := comments + [Comment(|comments|, body)]; }
    }

    /** A comment with this body is a new first where there was none. */
    lemma NewFirst(before: seq<Comment>, id: nat, body: string)
      requires Bears(body, marker)
      ensures Bearing(before + [Comment(id, body)], marker) == Bearing(before, marker) + 1
      ensures Bearing(before, marker) == 0 ==> First(before + [Comment(id, body)], marker) == Some(id)
    {
      var one := [Comment(id, body)];
      assert one[1..] == [];
      BearingSplit(before, one, marker);
      FirstSplit(before, one, marker);
    }

    /** Look for the comment, post it if it is not there, look again if the answer to that is lost. */
    method Reconcile(body: string) returns (o: Outcome<nat>)
      requires pageSize > 0 && Bears(body, marker) && Bearing(comments, marker) <= 1
      modifies this`replies, this`pages, this`comments
      ensures Bearing(comments, marker) <= 1 && old(comments) <= comments
      ensures Bearing(old(comments), marker) == 1 ==> comments == old(comments)
      ensures comments == old(comments) || exists id :: comments == old(comments) + [Comment(id, body)]
      ensures o.Got? ==> First(comments, marker) == Some(o.value)
      ensures |replies| <= |old(replies)| && (!o.Got? ==> |replies| < |old(replies)|)
    {
      var found := FindComment();
      if found.Failed() { return if found.Timeout? then Timeout else if found.Error? then Error else Dead; }
      if found.value.Some? { return Got(found.value.value); }
      ghost var before := comments;
      o := CreateComment(body);
      if comments != before {
        ghost var id :| comments == before + [Comment(id, body)];
        NewFirst(before, id, body);
      }
      if o.Timeout? {
        found := FindComment();
        if found.Dead? { return Dead; }
        if found.Timeout? { return Timeout; }
        if found.Failed() || found.value.None? { return Error; }
        return Got(found.value.value);
      }
    }

    /** `_comment`. `body` is what the persisted publication and validation would give now; the first body stays. */
    method EnsureComment(body: string) returns (o: Outcome<nat>)
      requires Valid() && Bears(body, marker)
      modifies this
      ensures Valid() && old(comments) <= comments
      ensures outbox.Some? && outbox.value.body == if old(outbox).Some? then old(outbox).value.body else body
      ensures comments == old(comments) || exists id :: comments == old(comments) + [Comment(id, outbox.value.body)]
      ensures o.Got? ==> outbox.Some? && outbox.value.sent == Some(o.value) && First(comments, marker) == Some(o.value)
      ensures old(outbox).Some? && old(outbox).value.sent.Some? ==>
                o == Got(old(outbox).value.sent.value) && comments == old(comments) && outbox == old(outbox)
      ensures |replies| <= |old(replies)| && (!o.Got? ==> |replies| < |old(replies)|)
    {
      if outbox.None? { outbox := Some(Outbox(body, None)); }
      if outbox.value.sent.Some? { return Got(outbox.value.sent.value); }
      o := Reconcile(outbox.value.body);
      if o.Got? { outbox := Some(outbox.value.(sent := Some(o.value))); }
    }

    /** Any number of reports, each stopped or misled at any request: one comment at most bears the marker, and all
        answers are its id. One report more than there are answers still to be lost is enough. */
    method Work(bodies: seq<string>) returns (answers: seq<nat>)
      requires Valid() && forall i :: 0 <= i < |bodies| ==> Bears(bodies[i], marker)
      modifies this
      ensures Valid() && Bearing(comments, marker) <= 1
      ensures bodies != [] ==>
                outbox.Some? && outbox.value.body == if old(outbox).Some? then old(outbox).value.body else bodies[0]
      ensures comments == old(comments) ||
                (outbox.Some? && exists id :: comments == old(comments) + [Comment(id, outbox.value.body)])
      ensures forall i :: 0 <= i < |answers| ==> First(comments, marker) == Some(answers[i])
      ensures |bodies| > |old(replies)| ==> answers != []
    {
      answers := [];
      for n := 0 to |bodies|
        invariant Valid()
        invariant n == 0 ==> outbox == old(outbox)
        invariant n > 0 ==> outbox.Some? &&
                              outbox.value.body == if old(outbox).Some? then old(outbox).value.body else bodies[0]
        invariant comments == old(comments) ||
                    (outbox.Some? && Bearing(comments, marker) == 1
                     && exists id :: comments == old(comments) + [Comment(id, outbox.value.body)])
        invariant answers != [] ==> outbox.Some? && outbox.value.sent.Some?
        invariant forall i :: 0 <= i < |answers| ==> outbox.value.sent == Some(answers[i])
        invariant |replies| <= |old(replies)| && (answers == [] ==> n + |replies| <= |old(replies)|)
      {
        ghost var before := comments;
        var o := EnsureComment(bodies[n]);
        if comments != before {
          ghost var id :| comments == before + [Comment(id, outbox.value.body)];
          NewFirst(before, id, outbox.value.body);
        }
        if o.Got? { answers := answers + [o.value]; }
      }
    }
  }
}
