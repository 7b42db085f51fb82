# A model of the agent runtime's durable protocols

The runtime drives a coding agent from a JIRA story to a pull request and a report. Its value is that it can be
stopped anywhere and started again: state lives in one SQLite store, a directory of immutable workspace generations and
two remote services. This project models those protocols and the bounded algorithms beside them in Dafny and proves
what they promise. `dafny verify dfyconfig.toml` checks all of it.

How the parts are modelled:

- **Protocols with interleavings and crashes** are step machines. A read is a step and so is a transaction, which begins
  with its first write; a crash may fall between any two. Durable tables are kept apart from what a running call
  remembers. Lists of what really happened (profiles that passed, files handed over, POSTs issued) are fields of the
  world that decide no step, so that claims are about events and not about the tables' own account of them. Claims hold
  of every finite sequence of events, by any number of processes: `RunStates.dfy` (run state compare-and-set, with the
  store's own methods shown to take these steps), `Lifecycle.dfy` and the seven files that begin with its name
  (coordinators, validations, mutations, approvers and publications together), `Invocations.dfy` (the invocation log,
  and behind it the mutation table and the memory ledger), `JiraTransition.dfy` (the transition outbox).
- **Protocols whose callers exclude each other**, and all loops over local variables, are classes and methods with the
  source's fields and loops. What may go wrong comes from a script: a tick before each durable step, or the fate of
  each remote request (answered, refused, timed out or died, each before or after taking effect). Claims hold of every
  script, and a workspace or remote call that nothing refuses fails only by using up a part of it: `Generations.dfy`
  (workspace generations), `Reconcile.dfy` (GitHub and JIRA clients), `Continuity.dfy` (ledger), `Patch.dfy` (the
  unified-diff applier), `Redaction.dfy`, `ContextBudget.dfy`, `Composer.dfy`, `Normalize.dfy`, `Paging.dfy`.
- **The driver** (`Workflow.dfy`) runs intake, planning, the coordinator's loops, publication and report to completion,
  one `Lifecycle` step after another, so all that is proved of every run is there to build on.
- **Laws about those specifications** are lemmas beside them: `PatchLaws.dfy`, `PatchPlacement.dfy`,
  `PatchLookalikes.dfy` and the second half of most files. Some say what a specification means without using it, input
  by input: `InvocationAnswers.dfy` and `JiraReports.dfy` (what a call does when nobody comes between),
  `RedactionExact.dfy` (leaf by leaf), `PatchMeaning.dfy` (patches that nobody rendered), `ComposerChoice.dfy` (which
  sources a prompt shows). `Text.dfy` and `JsonText.dfy` hold text, decimal numbers,
  and JSON encoding and decoding (section 7 of RFC 8259). The patch format is that of "Diff -u or -U Output Format" in
  the POSIX `diff` utility (IEEE Std 1003.1-2017).

Where the code does less than one might expect, the model follows the code, and a lemma says exactly when the property
holds:

- A unified diff of an edit, applied to the old tree, does not always give the new one. `PatchPlacement.OneFile` gives
  the very lines that come out, and `PatchPlacement.RoundTripOnce` says when they are right: exactly when no removed line
  begins with `-- a/`, and every hunk that shows no old line stands behind an old line and adds only copies of it.
  Otherwise such a hunk is refused at the top of a file, empty files included (`PatchLaws.EmptyFileRefused`), or
  accepted and placed one line early (`PatchPlacement.AddedOneLineEarly`); and a removed line `-- a/f` is taken for the
  next file's header, so that the edit may be accepted and ignored (`PatchLaws.HeaderLookalikeIgnored`), and never does
  what was meant, whatever else is in the patch (`PatchLookalikes.LookalikeNeverLands`).
- `_snapshot` compares a missing file as an empty one, so a file created empty is not among the changed files. What is
  published has the bytes of the approved generation always, and its very files exactly when no new file is empty
  (`Mutations.PublishedTree`); `LifecycleWitness.EmptyFileIsLost` is a run that loses one.
- Nothing keeps two validations off one row. When `begin_validation` meets an unfinished row of another generation than
  the one its caller has read, its insert is ignored, and the verdict on the one generation is stored under the other's
  name. `LifecycleWitness.UntestedIsPublished` is a run of two coordinators in which a generation that failed its only
  test is let through and handed over. That step and no other makes it possible (`LifecyclePublished.MisnamedExactlyBy`).
  Without it, what is published was tested; with it, `PublishedWasTestedAndApproved`, `CommitIsTheTestedTree` and
  `PassedMeansGood` of `LifecyclePublished` fall, and that it was approved still stands
  (`LifecyclePublished.PublishedWasApproved`).
- A mutation's last look at the run comes before its transaction. One that commits although the run has since come to
  publish approval changes what is published: `LifecycleWitness.LateIsPublished` hands over files that were neither
  approved nor tested. After an intent exactly such a commit moves the run off its binding
  (`LifecyclePublished.OnlyLateUnbinds`), and what `LifecyclePublished` says of published files is said without it.
- A caller is safe from both who starts a coordinator only while nothing is being validated, validates nothing through
  the gateway, and lets a mutation end before the run leaves `IMPLEMENT` (`LifecycleAlone.AloneIsInTime`). The claims
  about numbered attempts (`LifecycleAlone.AttemptsAreAccountedFor`, `LifecycleAlone.NextIsNext`) and
  `LifecycleFresh.AwaitingWasTested` are for such callers.
- `AWAITING_PUBLISH_APPROVAL` does not mean that the current generation was tested, even with one coordinator at a time:
  `LifecycleWitness.AwaitingUntested` is a run that gets there by a crash between results and checkpoint. Without such a
  crash it does mean that (`LifecycleFresh.AwaitingWasTested`). With one, publication's own comparison decides, and
  `LifecycleSafety.CheckIsExact` says when it lets a run through.
- A slow approver can set a consumed publication approval back to approved, from any state exactly while the approver is
  between its read and its write (`LifecycleApprovals.ReopensExactlyWhen`). After the intent the approval is then never
  consumed again, and every resumption is refused (`LifecycleApprovals.SetBackForGood`); no second
  intent arises (`LifecycleSafety.PublishedInTime`).
- Publication moves the run without the transition log, so the log is the run's history less two kinds of edge
  (`StateInterleaving.HistoryIsPath`).
- A slow approver can set a consumed JIRA transition approval back to approved
  (`JiraTransition.ConsumedBecomesApproved`), from any state exactly while an approver is between its read and its write
  (`JiraTransition.ReopensExactlyWhen`); the outbox's primary key still allows one POST only.
- A continuity update sent again is recognised exactly while it is among the newest 32 (`Continuity.Ledger.Append`).

## Model

| member | source | states |
|---|---|---|
| LifecyclePublished.PublishedWasTestedAndApproved | src/agent_runtime/publication.py:350-453 | Over every interleaving of coordinators, gateway validations, mutations, approvers, publishers and crashes in which no begin meets another generation's unfinished row and no mutation commits late: all files ever given to the remote are the changed files of one generation, the current one, named by an approval that was given, on whose very tree every required profile passed |
| LifecyclePublished.PublishedWasApproved | src/agent_runtime/publication.py:350-453 | Whatever validations do to each other, as long as no mutation commits late: what is given to the remote is the changed files of the current generation, exactly as approved, and rows say that all required profiles passed on it |
| LifecyclePublished.MisnamedExactlyBy | src/agent_runtime/durable.py:782-804 | After any run without such a begin, a step makes it possible that a verdict is stored for a tree it was not earned on if and only if `begin_validation` meets an unfinished row of a generation other than the one read |
| LifecyclePublished.OnlyLateUnbinds | src/agent_runtime/workspace.py:524-564 | After the intent, one step leaves the binding naming the current generation and its changes if and only if it is not a mutation's commit |
| LifecycleAlone.AloneIsInTime | src/agent_runtime/validation.py:321-404 | One coordinator at a time, no validation through the gateway, and no mutation left under way when the run leaves IMPLEMENT: then neither of the two happens |
| LifecycleWitness.UntestedIsPublished | src/agent_runtime/validation.py:246-252 | A concrete run of two coordinators hands over a generation that passed no test, through publication's own checks |
| LifecycleWitness.LateIsPublished | src/agent_runtime/workspace.py:524-550 | A concrete run hands over files other than those approved, because a mutation committed after the intent |
| LifecycleWitness.EmptyFileIsLost | src/agent_runtime/workspace.py:462-487 | A concrete run with every check passed hands over files whose commit lacks a file created empty |
| LifecycleSafety.PublishedInTime | src/agent_runtime/publication.py:321-365 | In every run at all: the approval under which files go out is the one of the only intent, was given by the approver it names before it expired, had not expired by the clock read when the call that found it exact began, and is backed by an attempt all of whose required rows passed and name its generation |
| LifecyclePublished.SettledForGood | src/agent_runtime/publication.py:467-526 | After an intent, nothing but a late mutation changes the mutation table and nothing the binding, and every hand-over, by first publish or resume, is of the bound files |
| LifecyclePublished.CommitIsTheTestedTree | src/agent_runtime/publication.py:426-443 | The base tree overlaid with the handed files has the tested tree's bytes at every path, and is that tree exactly when no new file in it is empty |
| LifecyclePublished.PassedMeansGood | src/agent_runtime/publication.py:365-380 | A passed checkpoint whose passed rows all name the current generation means every required profile passed on its tree |
| LifecycleSafety.CheckIsExact | src/agent_runtime/publication.py:365-380 | In every run: where the latest checkpoint is passed, publication's generation check passes exactly when every passed row of that attempt names the current generation, and each required profile has one |
| LifecycleSafety.SentHasMovedOn | src/agent_runtime/publication.py:444-453 | Over every run, a publication recorded as sent is found in REPORT or a terminal state, never in PUBLISH |
| LifecycleSafety.StepKeeps | src/agent_runtime/publication.py:396-453 | Each step of anybody keeps the joint invariant of tables, calls, approvals and outbox (a checkpoint says what its rows say, an intent is approved in time and backed), and undoes nothing: finished rows, approvals given, the intent and the run's progress stand |
| LifecycleSafety.WriteKeeps | src/agent_runtime/workspace.py:511-564 | A mutation's look and its commit keep that invariant wherever they fall |
| LifecycleSafety.IntentKeeps | src/agent_runtime/publication.py:396-425 | Consuming the approval, inserting the outbox row and moving the run, or failing to, keeps it: an outbox row stands only beside an approval that was given, found exact, and backed by a passed attempt of its generation |
| LifecycleApprovals.ReopensExactlyWhen | src/agent_runtime/publication.py:321-337 | From any state, a consumed publication approval can stop being consumed if and only if an approver has read it as requested and not yet written |
| LifecycleApprovals.SetBackForGood | src/agent_runtime/publication.py:467-490 | Once set back after the intent it is never consumed again and every later resumption ends at it; while it is consumed none does |
| LifecycleAlone.AttemptsAreAccountedFor | src/agent_runtime/validation.py:321-404 | With one coordinator at a time: checkpointed attempts are exactly 1..n with n within the limit; an unfinished row belongs to the next and names the current generation; a passed row was earned on the tree it names; publish approval is awaited only when the latest checkpoint passed every required profile |
| LifecycleAlone.NextIsNext | src/agent_runtime/durable.py:818-827 | There the attempt taken up is the one after the last checkpoint, whether or not it was begun before a crash |
| LifecycleSteps.NextAttemptIs | src/agent_runtime/durable.py:818-827 | In any world: the highest open attempt beyond the checkpoint read is taken up, and with none open beyond it the next |
| LifecycleSteps.NothingIsWrittenTwice | src/agent_runtime/workspace.py:502-510 | In no run is an operation in the mutation table twice |
| LifecycleFresh.AwaitingWasTested | src/agent_runtime/validation.py:321-404 | With one coordinator at a time, none of which stopped, after the first attempt, between a verdict and its checkpoint with no row left open: awaiting publish approval means that every required profile passed on the current tree, and that publication's comparison will let it through |
| LifecycleWitness.AwaitingUntested | src/agent_runtime/validation.py:335-347 | A concrete run of one coordinator at a time awaits publish approval on a tree that was never tested, and the generation check refuses it |
| Workspaces.Workspace.Mutate | src/agent_runtime/workspace.py:496-577 | Whatever step is interrupted, generation 0 stays the seed, the current generation is present and is the seed with the committed mutations in order; a known operation is answered from the table and changes nothing; a new one adds at most its own row, never in a terminal state; a created file was not there, holds its content to the last character, and leaves all others alone, and a patched generation is what the patch makes of the one before; one that the state and the tree allow, in a tidied workspace, fails only to a fault |
| Workspaces.Workspace.Build | src/agent_runtime/workspace.py:515-525 | Copying, operating and renaming touch no committed generation; the new one has a created file's exact content at a path that was free and everything else as before, or is what the patch makes of the current tree, and the answer is its diff; an operation that the tree allows is built unless a fault strikes |
| Workspaces.Workspace.Operate | src/agent_runtime/workspace.py:397-460 | The operation on the copy: a creation is exclusive and writes its content whole, a patch runs the applier's loops; only these two refuse, or a fault |
| Mutations.NextGeneration | src/agent_runtime/workspace.py:397-460 | One operation more: a creation is possible exactly at a new path, and leaves the content asked for there and every other file as it was; a patch gives what applying it gives |
| Workspaces.Workspace.Copy | src/agent_runtime/workspace.py:514-516 | The candidate becomes a copy of the current generation, which stays; only a leftover candidate or a fault prevents it |
| Workspaces.Workspace.Commit | src/agent_runtime/workspace.py:526-577 | The transaction adds exactly the row for the built tree or nothing, and a failed removal afterwards does not undo it; the run was seen in IMPLEMENT, but may have been moved since; there only a fault or somebody who moves the run prevents it |
| Workspaces.Workspace.RollBack | src/agent_runtime/workspace.py:567-577 | Clean-up after a failure never removes the seed or the committed generation |
| Workspaces.Workspace.Acquire | src/agent_runtime/workspace.py:107-144 | Seeding happens once; afterwards only the seed and the current generation are left; it fails only to a fault |
| Workspaces.Workspace.CleanUp | src/agent_runtime/workspace.py:225-236 | Exactly the stale directories go, even if interrupted |
| Workspaces.Workspace.Retry | src/agent_runtime/workspace.py:502-510 | An operation retried through any crashes is applied at most once and answers what its row stores; with more attempts than faults, and nobody moving the run, an operation that is allowed is applied |
| Workspaces.Workspace.Work | src/agent_runtime/workspace.py:496-577 | Any sequence of calls by any workers keeps the invariant and only extends the mutation table |
| LifecycleSafety.CommitIsOneStep | src/agent_runtime/workspace.py:526-562 | The workspace's commit is exactly the mutation of the end-to-end model: the extended table holds the next log, whose tree is the operation's and whose diff is the stored result |
| Workspaces.NeverTwice | src/agent_runtime/workspace.py:502-510 | No operation appears twice in a table that these calls produce |
| Workspaces.StoredAnswer | src/agent_runtime/workspace.py:519-551 | Each stored result is the diff of the tree that the operations up to it produce |
| Workspaces.GoodRowsGrow | src/agent_runtime/workspace.py:526-562 | Adding the row of a new operation keeps the table replayable and gives the operated tree |
| Workspaces.PathsStay | src/agent_runtime/workspace.py:397-460 | Generations never lose a path of the seed |
| Mutations.PublishedTree | src/agent_runtime/workspace.py:462-487 | Base plus changed files has the current bytes everywhere, and is the current tree exactly when no file was created empty |
| Mutations.ChangesAre | src/agent_runtime/workspace.py:462-487 | The changed files are exactly those whose bytes differ, with their present contents |
| Mutations.ChangesDetermineBytes | src/agent_runtime/workspace.py:462-487 | Equal diffs against one base mean equal bytes at every path |
| StateInterleaving.RunStore.Transition | src/agent_runtime/durable.py:469-519 | One whole move with anything done by others between its read and its write: the tables stay those of a run of the step machine; it is refused exactly when the graph has no such edge from the state it read, wins only from that state, and loses only to somebody who moved the run |
| StateInterleaving.RunStore.Read | src/agent_runtime/durable.py:469-495 | The read is the step machine's: it leaves the client about to write, or refused and logged |
| StateInterleaving.RunStore.Write | src/agent_runtime/durable.py:495-519 | The guarded write is the step machine's: it adds the edge to the history exactly when it wins, with a checkpoint for every committed entry |
| StateInterleaving.HistoryIsPath | src/agent_runtime/durable.py:31-45 | Over any clients, the states passed through are a path in the allowed graph, and the committed log entries are its edges in order less publication's |
| StateInterleaving.NothingIsSkipped | src/agent_runtime/durable.py:31-45 | No interleaving skips a state: a run that has neither failed nor been cancelled has been in every state before its own |
| RunStates.GraphIs | src/agent_runtime/durable.py:31-45 | The moves there are, edge by edge |
| StateInterleaving.TerminalForever | src/agent_runtime/durable.py:469-519 | A run that has ended stays as it ended, whoever is still moving |
| StateInterleaving.LoserChangesNothing | src/agent_runtime/durable.py:495-519 | A client whose read is stale changes no state and logs one uncommitted entry |
| Invocations.AnswersAgree | src/agent_runtime/gateway.py:444-500 | Every result ever given for an invocation is the stored one; rows of another normalization version never give one (which answer each row gets is stated by `InvocationAnswers.StoredRowsAnswer`) |
| InvocationAnswers.StoredRowsAnswer | src/agent_runtime/gateway.py:444-500 | A succeeded row of the present version is answered with its very result, and one of another version, or a failed one, with a failure, no handler entered; a running one is not waited for; an interrupted one may restart unless it runs processes |
| InvocationAnswers.EndedRunsRefuse | src/agent_runtime/durable.py:647-686 | A run that is over turns every call away |
| InvocationAnswers.NewKeysEnter | src/agent_runtime/durable.py:647-686 | A key without a row gets a running one, and its handler is entered once |
| InvocationAnswers.RestartsEnter | src/agent_runtime/durable.py:701-714 | An interrupted row that is restarted is running again, and its handler is entered once, under a number of its own |
| InvocationAnswers.HandlersAnswer | src/agent_runtime/gateway.py:500-545 | A handler that returns has its result stored and given; a workspace write gives what the mutation table holds |
| InvocationAnswers.RaisingFails | src/agent_runtime/gateway.py:500-545 | A handler that raises has a failure stored and given |
| InvocationAnswers.SecondComersLose | src/agent_runtime/durable.py:647-744 | Whoever inserts, restarts or finishes second changes no row and gives no result |
| InvocationAnswers.OldMemoryWrites | src/agent_runtime/continuity.py:104-118 | A memory write for another revision goes on only if the ledger took this very update there, among the newest 32 |
| InvocationAnswers.RecoveryInterrupts | src/agent_runtime/durable.py:687-699 | Recovery marks exactly the running rows interrupted |
| Invocations.ResultsStand | src/agent_runtime/durable.py:716-744 | A succeeded row never changes again, from any state |
| Invocations.ProcessRunsOnce | src/agent_runtime/gateway.py:460-480 | A process-execution handler is entered at most once over all callers, recoveries and crashes |
| Invocations.WritesApplyOnce | src/agent_runtime/gateway.py:418-545 | A workspace write that was answered was committed exactly once, whatever was restarted, and the answer is what that commit stored |
| Invocations.MutateIsCommit | src/agent_runtime/workspace.py:502-562 | What `Workspaces.Workspace.Mutate` promises of a call that is done is the commit step of the gateway's runs, and its answer is the stored row's |
| Invocations.MemoryAppliesOnce | src/agent_runtime/continuity.py:104-162 | A memory write that was answered stands in the ledger at the very revision it was made for, and stays there through all further events, whatever was restarted |
| Invocations.StartsArePaidFor | src/agent_runtime/durable.py:687-714 | A handler is entered at most once more than its invocation was found interrupted |
| Invocations.StepKeeps | src/agent_runtime/durable.py:647-744 | Begin, replay, restart, finish and recovery each keep the log's invariant |
| JiraTransition.AtMostOnePost | src/agent_runtime/reporting.py:327-427 | Over every interleaving of reporters, approvers and crashes, one approval leads to at most one transition POST |
| JiraTransition.CompletedMeansSettled | src/agent_runtime/reporting.py:385-427 | A report given an approval completes only after its POST returned success or JIRA was read in the recorded target status |
| JiraReports.ApprovedIsClaimed | src/agent_runtime/reporting.py:345-384 | An approved transition is used up and its target recorded before anything is posted |
| JiraReports.ClaimedIsPosted | src/agent_runtime/reporting.py:385-427 | Then there is one POST more: a success is recorded and completes the report, a failure is recorded as uncertain |
| JiraReports.OthersAreDenied | src/agent_runtime/reporting.py:327-384 | An approval that is missing, pending or used up, without an intent, posts nothing and changes nothing |
| JiraReports.IntentsAreSettled | src/agent_runtime/reporting.py:345-427 | An intent that is met is never posted again; it completes exactly if its POST was recorded as a success or JIRA is in the recorded status |
| JiraReports.ApproversApprove | src/agent_runtime/reporting.py:219-235 | Exactly a pending approval becomes approved |
| JiraTransition.ConsumedBecomesApproved | src/agent_runtime/reporting.py:219-235 | A concrete run in which a slow approver sets a consumed approval back to approved |
| JiraTransition.ReopensExactlyWhen | src/agent_runtime/reporting.py:219-235 | From any state, a consumed approval can stop being consumed if and only if an approver has read it as pending and not yet written |
| JiraTransition.StepKeeps | src/agent_runtime/reporting.py:345-427 | Every step keeps: POSTs are of distinct approvals with an intent, and at most one caller may still issue one |
| GitHub.Repository.Publish | src/agent_runtime/publication.py:158-236 | However requests fail, an existing branch is left alone, a new one holds exactly the given files on the base, a pull request is added only where there is none, and an answer names both; it fails only to a request that failed or a branch of somebody else's |
| GitHub.Repository.EnsurePull | src/agent_runtime/publication.py:219-236 | Find, create, and look again after a timeout: at most one pull request is added, and the answer is the first one; it fails only if a request does |
| GitHub.Repository.CreateFresh | src/agent_runtime/publication.py:172-213 | Blobs, tree, commit and branch: nothing is visible before the branch, which then points to the given files on the base; on a free branch it fails only if a request does |
| GitHub.Repository.CreateBlobs | src/agent_runtime/publication.py:180-197 | The entries stand for exactly the given files, removals included; it fails only if a request does |
| GitHub.Publication.Call | src/agent_runtime/publication.py:467-526 | One publish or resume: answered from the outbox once it has succeeded, and never a second branch or pull request; with a moved base it is denied and leaves branch, commits and pull requests as they are; with the base unmoved and no foreign branch it fails only if a request does |
| GitHub.Publication.Work | src/agent_runtime/publication.py:396-453 | Any sequence of calls, misled or stopped at any request, leaves at most one pull request, on a branch created once with the approved files, and all answers are equal; with more calls than failing requests there is an answer; calls that all meet a moved base give none and leave the remote unchanged |
| JiraComment.Report.FindComment | src/agent_runtime/reporting.py:91-116 | Over pages of whatever length the server chooses, the first comment bearing the marker is found, or none is there; it fails only if a request does |
| JiraComment.Report.Reconcile | src/agent_runtime/reporting.py:291-300 | At most one comment bears the marker afterwards, at most one is added, with exactly the given body, and the answer is its id; it fails only if a request does |
| JiraComment.Report.EnsureComment | src/agent_runtime/reporting.py:237-314 | The first body stays with the intent, and what is posted is that body; a stored id is that of the one comment and is answered without posting; it fails only if a request does |
| JiraComment.Report.Work | src/agent_runtime/reporting.py:237-314 | Any sequence of reports, misled or stopped at any request, adds at most one comment, with the first report's body, leaves at most one that bears the marker, and all answers are its id; with more reports than failing requests there is an answer |
| Patch.Candidate.Apply | src/agent_runtime/workspace.py:410-460 | The loops over lines, hunks and sections do what the patch read as a whole means, and refuse exactly what that reading refuses; no path appears or disappears |
| PatchMeaning.AcceptedIsEdit | src/agent_runtime/workspace.py:428-460 | Of any hunks whatever: they are accepted exactly if they are in order, do not overlap, and each shows the very lines at the place it names; each one's old lines are then replaced by its new ones, and all other lines stay |
| PatchMeaning.ReadBodyIs | src/agent_runtime/workspace.py:444-457 | A hunk's body is the lines up to the next header, each a marked line or a note about a missing newline; anything else refuses the patch |
| PatchMeaning.HunkNumberIs | src/agent_runtime/workspace.py:434-438 | A hunk's header is two ranges of decimal numbers between its signs, and its place is the first number |
| PatchMeaning.HeaderPathIs | src/agent_runtime/workspace.py:419-427 | A header's path ends before the line's end and before the first tab |
| PatchMeaning.UnsupportedRefused | src/agent_runtime/workspace.py:411-415 | A line that begins like a binary, creating, deleting, renaming, copying or mode patch refuses it, wherever it stands |
| PatchPlacement.RoundTripOnce | src/agent_runtime/workspace.py:410-460 | Any edit scripts over any files, each named once, shown with any context: applied to the old tree the patch gives the new tree if and only if no removed line begins with `-- a/` and every hunk without old lines follows an old line and adds only copies of it |
| PatchPlacement.RoundTrip | src/agent_runtime/workspace.py:410-460 | The same for patches that name files more than once, file by file: every part of the patch that ends with a file does what was meant if and only if each file's edit meets the condition |
| PatchPlacement.OneFile | src/agent_runtime/workspace.py:428-460 | What a one-file patch without header lookalikes does, right or wrong: the exact lines it leaves, or its refusal |
| PatchPlacement.AddedOneLineEarly | src/agent_runtime/workspace.py:435-439 | An addition without context away from the top of its file is accepted and goes in one line early; that is what was meant exactly when every added line equals the line before it |
| PatchLookalikes.LookalikeNeverLands | src/agent_runtime/workspace.py:441-443 | With a removed line that begins with `-- a/` anywhere in it, no patch of any number of files gives the tree that was meant |
| PatchLaws.ReadRendered | src/agent_runtime/workspace.py:429-452 | A rendered patch is read back as the edits it was rendered from if and only if every hunk shows an old line and no removed line begins with `-- a/` |
| PatchPlacement.Undo | src/agent_runtime/workspace.py:410-460 | A patch of any number of files that does what was meant is undone by its files in reverse with `+` and `-` exchanged and the starts shifted, where those meet the condition too |
| PatchPlacement.UndoOnce | src/agent_runtime/workspace.py:410-460 | With each file named once, the reverse restores the old tree if and only if each reversed edit meets the condition |
| PatchLaws.Chain | src/agent_runtime/workspace.py:415-460 | One patch made of two does what the two do in sequence, refusals included |
| PatchLaws.Untouched | src/agent_runtime/workspace.py:428-460 | Files no section names keep their content, and no path appears or disappears |
| PatchLaws.EmptyFileRefused | src/agent_runtime/workspace.py:435-439 | A hunk without old lines at the top of a file is always refused |
| PatchLaws.HeaderLookalikeIgnored | src/agent_runtime/workspace.py:441-443 | A concrete correct patch that is accepted and changes nothing |
| Continuity.Ledger.Append | src/agent_runtime/continuity.py:90-162 | An update succeeds if and only if it is well formed and either applies at the present revision within bounds and in a memory-write state, or is the very update applied at that revision at most 32 revisions ago; lists stay the concatenation of applied updates; the revision limit is never met |
| Continuity.UpdatesAllowed | src/agent_runtime/continuity.py:40-52 | An update is well formed exactly if it names only the four lists, with at most 32 items of 1 to 2000 characters each, and holds an item |
| Continuity.Ledger.SendAgain | src/agent_runtime/continuity.py:110-118 | A write sent again any number of times, with up to 31 updates of others and any moves of the run in between, succeeds every time; behind its one application the ledger grows by the others' updates alone |
| Continuity.PartHasPlaces | src/agent_runtime/continuity.py:110-118 | That the ledger grew by a part of the others' updates means each has a place of its own among them, in order |
| Continuity.Ledger.Resend | src/agent_runtime/continuity.py:110-118 | Sending again an update that is among the newest 32 succeeds and changes nothing |
| Continuity.Ledger.Merge | src/agent_runtime/continuity.py:121-129 | Each named list is extended, or none when one would outgrow its bound |
| Continuity.Ledger.Initialize | src/agent_runtime/continuity.py:58-68 | A ledger is opened once, with valid goal and constraints |
| Continuity.RevisionsAreFew | src/agent_runtime/continuity.py:46-49 | Bounded lists keep the number of applied updates at 128 or less |
| Continuity.PrunedIsNewest | src/agent_runtime/continuity.py:156-161 | Pruning leaves exactly the newest 32 revisions |
| Redaction.Redactor.Redact | src/agent_runtime/metrics.py:107-143 | The recursion with a shared, decremented budget shows what the specification says and leaves the budget it says |
| Redaction.ShownAlike | src/agent_runtime/metrics.py:107-143 | Values that differ only under sensitive keys show the same, leave the same budget and raise alike |
| Redaction.MetricsAreBounded | src/agent_runtime/metrics.py:104-115 | What is shown nests at most max_depth containers and has at most 1 + max_nodes * max_items nodes |
| Redaction.ShownWashed | src/agent_runtime/metrics.py:116-143 | Every text and key shown is a mark or was cleaned and cut |
| RedactionExact.ShownIs | src/agent_runtime/metrics.py:107-143 | Leaf by leaf, with a budget for all that is looked at: it raises exactly if something looked at cannot be shown, texts are cleaned and cut, scalars stay, lists and mappings show their first items in order, sensitive and colliding names carry the mark, and the budget left is the rest; with a smaller one every part is such or a mark |
| Redaction.MarkedNames | src/agent_runtime/metrics.py:116-130 | A sensitive key, and any name that several keys come out as, carries the redaction mark |
| Redaction.PlainIsShown | src/agent_runtime/metrics.py:107-143 | A value within all bounds that needs no redaction is shown unchanged, at the cost of its nodes |
| Redaction.OutputHidesAndKeeps | src/agent_runtime/gateway.py:202-203 | Capability results that differ only under sensitive keys leave the gateway alike; what needs no redaction, is at most 65 levels deep and has at most 100000 nodes leaves unchanged |
| RedactionExact.OutputIs | src/agent_runtime/gateway.py:202-203 | A capability result leaves the gateway exactly if it is at most 65 levels deep, of at most 100000 nodes outside sensitive keys, and of JSON types with keys that stay different; each text in it is then the cleaned text, other scalars stay, lists and mappings keep length and order, and a sensitive entry is the mark |
| RedactionExact.SafeIs | src/agent_runtime/gateway.py:237-265 | The same at every depth and budget, with the budget left |
| Redaction.SafeAlike | src/agent_runtime/gateway.py:237-265 | The same non-interference at every depth and budget of the recursion, exceptions included |
| Redaction.SafeKeepsKeys | src/agent_runtime/gateway.py:241-254 | Output keys are the cleaned keys, all different, and sensitive ones carry the mark alone |
| Redaction.PlainIsSafe | src/agent_runtime/gateway.py:237-265 | At every depth and budget, a value that needs no redaction and is within both goes out unchanged, at the cost of its nodes |
| ContextBudget.Compose | src/agent_runtime/runner.py:101-163 | The grouping, checking and trimming loops compute the specified result |
| ContextBudget.KeepsTheLongest | src/agent_runtime/runner.py:141-163 | What is kept is the prefix and complete rounds from the newest back: all that fit, and at least the newest retained ones; it is refused for incomplete rounds, for a malformed head, or for size, each exactly when that is so, size being that the prefix with the retained rounds does not fit |
| ContextBudget.TrimmingSettles | src/agent_runtime/runner.py:101-163 | Trimming what was trimmed changes nothing |
| ContextBudget.GroupsKeepAll | src/agent_runtime/runner.py:120-130 | Grouping then flattening is the identity |
| ContextBudget.KeptIsWhole | src/agent_runtime/runner.py:130-163 | What is kept fits and is again a conversation of complete rounds behind the same prefix |
| ContextBudget.RoundsAreFound | src/agent_runtime/runner.py:120-130 | Complete rounds laid end to end are found again |
| ContextBudget.FewerFit | src/agent_runtime/runner.py:75-99 | Leaving rounds out never costs tokens |
| ContextBudget.FitsMeans | src/agent_runtime/runner.py:75-99 | A request fits exactly if the tokens that are available hold its whole text, brackets and commas included, and the overheads |
| ContextBudget.RunAgent | src/agent_runtime/runner.py:202-268 | Every request sent fits; invocations and turns stay within limits; a turn that repeats a tool-call id is the last: the next one's history is refused as incomplete, unless a limit ends the loop first, and it is refused as incomplete in no other case |
| Composer.Compose | src/agent_runtime/context.py:309-380 | The packing loop computes the specified result, errors included |
| ComposerChoice.ComposedIs | src/agent_runtime/context.py:309-380 | Each refusal has its own cause, in order: too many, an identity twice, stale, over budget; otherwise the text is the instruction and the delimited context with the greedy choice, and fits both budgets |
| ComposerChoice.CandidatesAre | src/agent_runtime/context.py:360-370 | Taken up are exactly the items of the sources that count, each once: more shared tags first, then evidence before pages, then by id |
| ComposerChoice.PackIsGreedy | src/agent_runtime/context.py:369-380 | An item is shown exactly if it fits together with the shown ones before it |
| ComposerChoice.ContextHolds | src/agent_runtime/context.py:340-357 | The context has its four names in key order: packet, ledger, and the two lists item by item with id and content |
| ComposerChoice.LessIsFirstDifference | src/agent_runtime/context.py:369-369 | Texts are ordered by the first place where they differ |
| Composer.PackIsMaximal | src/agent_runtime/context.py:369-380 | The text fits both budgets, and no item left out could be added to the final selection and still fit |
| Composer.OrderDoesNotMatter | src/agent_runtime/context.py:360-370 | The result is the same for every order in which evidence and pages arrive |
| Composer.EnvelopeHolds | src/agent_runtime/context.py:351-357 | Each envelope delimiter occurs in exactly one place whatever the context holds, and what lies between decodes to the context |
| Composer.SortOrders | src/agent_runtime/context.py:369-369 | Items are taken by overlap, kind and id |
| Composer.ShownBytes | src/agent_runtime/context.py:302-307 | The text's size is that of its fixed parts and of each list's items with their commas |
| JsonText.SafeKeepsTokens | src/agent_runtime/context.py:258-259 | Escaping `&`, `<` and `>` changes no token of any JSON text |
| JsonText.SafeIsHarmless | src/agent_runtime/context.py:258-259 | None of the three characters is left |
| JsonText.SafeIsPointwise | src/agent_runtime/context.py:258-259 | The three replacements in sequence are one replacement per character |
| JsonText.SafeJsonDecodes | src/agent_runtime/context.py:258-259 | Decoding the escaped text of a value gives that value and no other |
| JsonText.ReadQuoted | src/agent_runtime/durable.py:94-95 | Every string, backslashes, quotes and control characters included, is read back as it was written |
| JsonText.OctetsRead | src/agent_runtime/context.py:302-307 | The size counted for each character is the number of octets from which UTF-8 reads it back |
| JsonText.BytesAreOctets | src/agent_runtime/context.py:302-307 | The size of a text is the number of its octets |
| Normalize.Cut | src/agent_runtime/gateway.py:202-231 | A short result is returned as it is; a long one is wrapped with the longest prefix that fits; every result encodes to at most inline_bytes; it fails exactly when the bare wrapping is too long |
| Normalize.WrappedTells | src/agent_runtime/gateway.py:210-228 | What stands for a long result names its digest by what it is of, its length, that it was cut, and any prefix |
| Normalize.FloorSuffices | src/agent_runtime/gateway.py:191-200 | With the 256-byte floor the final error cannot occur for results of fewer than 10 to the power of 135 bytes |
| Normalize.PrefixesGrow | src/agent_runtime/gateway.py:219-226 | A longer prefix never encodes shorter, which the binary search relies on |
| Paging.ReadFile | src/agent_runtime/workspace.py:358-386 | The selection loop returns the specified page or error |
| Paging.PageKeepsBounds | src/agent_runtime/workspace.py:362-386 | A page is the file's own lines from the one asked for, within both bounds, and says truly whether it is the last |
| Paging.PageIs | src/agent_runtime/workspace.py:304-386 | Each refusal has its own cause, in order: bounds out of range, a start beyond the end, a line longer than a page; otherwise the page goes on until a bound or the end |
| Paging.PagesAreTheFile | src/agent_runtime/workspace.py:296-386 | Following `next_start_line` from the first line gives the file exactly, and fails exactly when a line is longer than a page |
| Workflow.Driver.Advance | src/agent_runtime/workflow.py:49-101 | From any world that any run reaches, six passes always suffice, so the default bound is never met; what is returned is a terminal state or a named reason to wait; where nothing fails from outside, the call raises only where publication, or an intent's resumption, has something to refuse |
| Workflow.Driver.PlanRun | src/agent_runtime/planning.py:75-185 | Planning that returns has brought the run to PLAN_READY, whether or not it had begun before; if it raises, the run is where it was or in ANALYZE |
| Workflow.Driver.Coordinate | src/agent_runtime/validation.py:321-404 | True is returned exactly if every required profile passed in an attempt of this call, or in the latest checkpoint it found, and the run then awaits publish approval; false only if no attempt of this call passed and the budget is spent or no attempt is left; after false or an exception the run is in IMPLEMENT or VALIDATE; where nothing fails from outside it returns |
| Workflow.Driver.PublishRun | src/agent_runtime/publication.py:350-453 | Where nothing fails from outside, it returns if and only if the approval is stored as approved, unexpired and equal to generation, changes and title, the latest checkpoint is passed with all its passed rows on the current generation, and there is no outbox row; it has then handed over exactly the current changes, with the outbox sent and the run in REPORT; if it raises, the run still awaits approval or has an intent to resume |
| Workflow.Driver.ResumeRun | src/agent_runtime/publication.py:467-526 | Where nothing fails from outside, resuming in PUBLISH takes the run to REPORT if and only if the approval is still consumed and the bound generation and changes still the current ones |
| Workflow.Resumable | src/agent_runtime/publication.py:467-505 | As long as no mutation came late, only an approval that was set back can keep an intent from being resumed |

## Left out

- HTTP, Git subprocesses, the sandbox, file descriptors and `flock`: a remote is a store with the fate of each request given, a lock is mutual exclusion, a generation is a map from paths to text.
- SHA-256 digests and identifiers: equal digests are equal values, and fresh ids are parameters.
- Time: a clock that only goes forward, read by approvers and publishers; the coordinator's elapsed-time, turn, token and cost budgets are one verdict of the script per attempt, since they are local to one call.
- A remote request that takes effect after its timeout was reported: effects happen before the answer or its loss, or never.
- LifecycleSafety.WriteKeeps: a mutation is a look and a commit there, since `Workspaces.Workspace.Mutate` shows what the steps inside it amount to; publication's and the coordinator's calls are modelled on values because their steps interleave, so update in place is not captured there.
- LifecycleAlone.AloneIsInTime: is one direction; without its conditions a run may still happen to be in time.
- GitHub.Publication.Work: assumes one live worker, as does JiraComment.Report.Work; two that look before either writes could both create.
- Workspace path rules, file and byte limits and modes: a refusal by any of them is a fault that the world may raise at the operation.
- Line separators other than the newline, digits other than ASCII, and files that are not UTF-8: texts are sequences of characters.
- Invocations.MemoryAppliesOnce: speaks of writes that were answered; whether a restarted one is recognised depends on the window of 32 that `Continuity.Ledger.Append` and `Continuity.Ledger.SendAgain` state.
- Audit records, metrics collection and retention, the capability catalogue, policy decisions and argument schemas.
- JSON escapes for halves of surrogate pairs, which the encoder never writes.
- JiraComment.Report.FindComment: takes the server at its word: no page is empty before the last comment, and the total is true.
- Redaction.Redactor.Redact: `redact_sensitive_text` and `is_sensitive_key` are arbitrary functions of the policy.
- Normalize.Cut: starts from the redacted value; redaction itself is in `Redaction`.
- Composer.Compose: the instruction text is a parameter (the source's own contains no `<`), whether packet and ledger still match the store is another, and the bounds on single texts and tags are those of its callers.
- ContextBudget.RunAgent: a message's encoded size is a parameter, and what a tool call does is left to `Invocations`.
- Workflow.Driver.Advance: nobody but approvers is at work while a call lasts, and they wait; what a model edits, the verdicts and the failures from outside are given by a script, and snapshots, prompts and plan texts are not modelled.
- Decisions in the continuity ledger (src/agent_runtime/continuity.py:70-88) and its activity view: an append with a count check, and a read.
- Story snapshots, planning prompts, profiles, skills, routing, evaluation and transports.
