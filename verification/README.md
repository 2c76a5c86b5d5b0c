# codex-worker-orchestrator: a verified model

The repository drives a worker model and a reviewer model over a git repository on behalf of a parent
(Sol, through Codex): the worker implements, the reviewer judges, automatic fixes follow, and every step
can be stopped by a usage limit, an unavailable provider or a broken invariant, and resumed later. Around
it are an installer that merges managed settings with removable local overrides, a full-text search over
the working tree, a line-wise reader of model output, a follower of event logs, and a classifier of what
changed between review rounds. The Dafny files model these parts and prove what they are for.

| files | part |
|---|---|
| `Snapshots`, `Journal`, `History` | the repository as observed, the journal of a repository's commands, and what every legal journal satisfies |
| `Store`, `World`, `Workflow` | the state files, the outside world, and the workflow as a class whose commands keep the journal legal |
| `Phases`, `Coverage`, `ParentFiles` | saved phase names, agreement of counters and records, stored listings of the parent's files |
| `Packets`, `Validation`, `ResultLists`, `Shown` | results as shown and read back, and their contract per role |
| `Json`, `Install`, `MergeJson`, `Disk`, `Installer` | recursive merge, overrides without a trace, the loops, the two-file commit |
| `Tokenizer`, `Sorting`, `Ranking`, `Snippets`, `Index`, `Cache`, `Search` | the repository search |
| `Lines`, `Stream`, `Watch` | reading growing texts line by line |
| `Convergence` | what changed between review rounds |
| `Text` | trimming, splitting, joining |

## How the workflow is modelled

`StateStore` has a field per state file; every write may fail and then changes nothing. `Environment` is the
outside world: a call or probe may answer anything and leave any repository behind, an observation may fail,
the clock never runs backwards. `Workflow` follows the source's methods step by step. A ghost journal records
what happened, with the repository each command found and each call left. Before each entry `Journal.Allowed`
demands what the code has checked by then, and the invariants demand the entries: a result cannot be reviewed
before its answer was taken, a report-only answer cannot be taken unchecked, no model is called while a decision
is asked for, and snapshots and stops must show the repository of the moment. The journal only grows. The ghost
flags `Environment.blind` and `denied` say that in this command something a check depends on could not be observed,
and that the artifact directory could not be prepared or secured; where nothing was missed the checks are exact in
both directions. `Workflow.Ends` says why a command may end as it does, and every part of a command promises it, so
a part that gives up early, stops without need or drops a result has no reason to show. The theorems in `History`
are about whole journals: they hold over any number of tasks, commands, stops and resumes. Results about agreement
of status and checkpoint, and about reasons, hold as long as no state write failed; the ghost flag `fault` remembers
that one did. The disk, the search, the stream and the follower likewise note each failing step in a ghost record
(`failures`, `failed`, `errors`) where it happens and nowhere else, so none of them can give up without one.

Where the code and its own comments differ, the code is followed:

- The follower of an event log says it reads the status and then the log. Its first check does it the other
  way round (`Watch.FirstCheckIsComplete`, `Watch.FirstCheckCanMissLines`).
- The search cache is meant to miss when a limit is lowered. It compares the indexed files with the limit,
  the rebuild all enumerated ones (`Search.HitsCanExceedLimits`, `Search.HitOutlivesLimit`).
- The installer promises that overrides can be taken back. An `env` that is not an object is lost
  (`Install.NonObjectEnvIsLost`), and so is the extension of an object under an overridden key: the merge changes
  the remembered object in place, finds nothing new to remember, and leaves the sidecar as it was
  (`Install.ExtensionIsLost`, `Install.OverrideCanLeaveTrace`). `Install.OverridesLeaveNoTrace` has the exact
  condition.
- The two-file commit promises the bytes, existence and mode of before. A file that exists but cannot be read
  is captured as absent, and mode zero becomes 0600 (`Disk.RollbackIsExact`, `Disk.RollbackCanDelete`). The
  installer itself refuses the first kind before it commits (`Installer.Installer.OnlyClearedModesAreLost`).
- A review is meant to leave the repository alone. Parent-managed files that git ignores are in no snapshot, and a
  reviewer's call has no guard on them (`History.UnseenExactly`, `History.IgnoredChangeIsUnseen`).
- A reviewer's question is not kept on one line, although results are shown one field a line
  (`Shown.ValidatedTextReadsBack`, `Shown.TwoLinesAreLost`).
- A result's lists are shown joined by semicolons without escaping (`ResultLists.ListsComeBack`,
  `ResultLists.SemicolonsAreLost`).
- When a decision was taken and its worker's answer was not, because of an ordinary error as much as of a
  fail-closed stop, no command but a reset is accepted any more, unless the call stopped resumably
  (`Workflow.Workflow.ExecuteDecision`, `Workflow.NothingEnabled`).

## Model

| member | source | states |
|---|---|---|
| `History.ReviewIntegrity` | glm-worker/internal/workflow/workflow.go:1788-1950 | When a review is accepted, head, index and every file that git lists outside the parent-managed ones are in the repository as they were at the worker's end, over any number of stops and resumes; a parent-managed file that differs there was changed by an update accepted after that end, unless git ignores it |
| `History.UnseenExactly` | glm-worker/internal/state/snapshot.go:187-205 | A parent-managed file can change during a review, without any accepted update and with the review accepted all the same, exactly when git ignores it |
| `History.IgnoredChangeIsUnseen` | glm-worker/internal/state/snapshot.go:187-205 | So it happens when the reviewer creates an ignored file: the journal of such a task in eight entries |
| `History.UpdatesHappenWhileStopped` | glm-worker/internal/workflow/workflow.go:1821-1897 | Every accepted parent update fell into a gap between commands while the task was stopped: the repository held the same parent files at the review's pin and at the stop, no model call lies between that stop and the resume, the command that started since found the changed ones, and nothing was deleted |
| `History.PinnedIsExplained` | glm-worker/internal/workflow/workflow.go:1788-1855 | The pin a review rests on differs from the worker's end only by the updates accepted since |
| `History.RiskFloorOfCompletion` | glm-worker/internal/workflow/workflow.go:563-603 | A task completes only right after the first review ever accepted for it, a pass under a floor that was low: low-risk worker, no automatic fix, no decision asked for or taken, and no critical path changed between the task's baseline head and the very repository the review was accepted on |
| `History.CompletionIsFinal` | glm-worker/internal/workflow/workflow.go:598-603 | After a completed task nothing is entered before the next task but the start of commands that find it so |
| `History.CompletedWorkWasLowRisk` | glm-worker/internal/workflow/workflow.go:751-773 | The completing review is of the answer of a worker call that declared no high risk, asked for no decision and left the parent-managed files alone |
| `History.FixedTasksNeverComplete` | glm-worker/internal/workflow/workflow.go:689-691 | A task that ever needed an automatic fix, asked for a decision or was given one never completes, whatever follows |
| `History.AskedTasksWait` | glm-worker/internal/workflow/workflow.go:474-482 | After a worker asked for a decision no model is called in that task before a decision was taken |
| `History.DecisionsAreAskedFor` | glm-worker/internal/workflow/workflow.go:169-187 | A decision is only ever taken in a task whose worker asked for one |
| `History.RoundsAreNumbered` | glm-worker/internal/workflow/workflow.go:611-651 | Fix rounds are numbered 1, 2, 3, ... from the start of a task, a decision or an explicit fix, over any stops and resumes, and never go past the limit; each follows a review that asked for a fix, with no call and no stop between |
| `History.EarlierRoundsExist` | glm-worker/internal/workflow/workflow.go:611-651 | Before a round of some number every smaller number was entered, in the same stretch of work |
| `History.FloorsCountRounds` | glm-worker/internal/workflow/workflow.go:515-516 | A review is accepted under a floor that knows exactly how many rounds came before it, and a pass only when none did |
| `History.CallsNameTheirRound` | glm-worker/internal/workflow/workflow.go:619-651 | Every call, of a resume or a correction too, carries the number of its round: a fix that of the round entered last, a review the next one |
| `History.OnlyWorkersWrite` | glm-worker/internal/workflow/workflow.go:535-643 | A model that may write to the repository is always a worker, and never in a report-only round |
| `History.ReportOnlyInvariance` | glm-worker/internal/workflow/workflow.go:1687-1735 | The answer of a report-only round goes to review, or asks for a decision, only when the worker's call left the repository, as far as git lists it, exactly as the review that asked for the report saw it; it is pinned once and never anew, whatever stops, resumes and corrections follow |
| `History.GuardTripsAtOnce` | glm-worker/internal/workflow/planfile.go:348-387 | A worker call that changed any parent-managed file beside a plan, or created a plan, is followed by the fail-closed stop and by nothing else |
| `History.ReviewedWorkIsGuarded` | glm-worker/internal/workflow/planfile.go:288-387 | What goes to review is the answer of the latest worker call, which asked for no decision, changed no parent-managed file beside a plan and created no plan, over the repository that this call left; no stop and no other call lies between |
| `History.VerdictsComeFromReviewers` | glm-worker/internal/workflow/workflow.go:1595-1655 | An accepted verdict is what the reviewer answered in the latest call, or an escalation in its place, over the repository that this call left; a pass is never made up |
| `History.CallsAreCounted` | glm-worker/internal/state/stats.go:248-261 | The call counter of a task equals the model calls entered in its journal since the task started |
| `History.MonitorsAreDetermined` | glm-worker/internal/workflow/workflow.go:497-687 | What the journal remembers is a function of its entries alone |
| `Journal.Extend` | glm-worker/internal/workflow/workflow.go:497-687 | An entry allowed by what came before keeps the whole journal legal |
| `Workflow.Workflow.RunSession` | glm-worker/internal/workflow/workflow.go:103-451 | Any sequence of commands with arbitrary edits by the parent between them keeps the journal legal and growing, every call counted and logged once, at most 20M+30 calls a command, and, unless a write failed, status, checkpoint and pending decision in agreement |
| `Workflow.Workflow.Execute` | glm-worker/internal/workflow/workflow.go:103-451 | Every command ends in a printed answer that its status waits on, or in an error without one; a refused command changes nothing. Unless a write failed an accepted one ends for a reason: an answer concludes the last entry, and is what the last call answered, an escalation in place of anything but one, or one after the last fix round; or a check stopped the command because something could not be observed, a parent file was missing or changed, or the repository was not as pinned; a limit was met by the last call or a probe; the provider stayed away; or an error followed a call without a usable answer, denied artifacts, a missing model or a probe refused for good. It leaves the task stuck exactly when a decision was pending, no answer of the worker was taken, and it did not stop resumably |
| `Workflow.NothingEnabled` | glm-worker/internal/workflow/workflow.go:103-115 | Which states refuse every command but a reset: a decision pending, no stop saved, and the task no longer waiting for the decision |
| `Workflow.Workflow.ExecuteNewTask` | glm-worker/internal/workflow/workflow.go:103-167 | A new task is taken up exactly while no decision is pending and no stop is saved: unless a write failed its start and baseline are entered first and then the worker is called, or the files or artifacts failed their check; at most 20M+30 calls for the task, whatever earlier ones cost |
| `Workflow.Workflow.ExecuteDecision` | glm-worker/internal/workflow/workflow.go:169-213 | A decision is taken exactly while one is pending and waited for: unless a write failed it is written down and entered, and then the worker is called; the task ends stuck exactly when the worker's answer was not taken and the call did not stop resumably; otherwise nothing changes |
| `Workflow.Workflow.ExecuteExplicitFix` | glm-worker/internal/workflow/workflow.go:215-260 | An explicit fix is taken up exactly after an escalation with no decision pending, entered first, and then the worker is called; otherwise nothing changes; same guarantees and call bound |
| `Workflow.Workflow.ExecuteResume` | glm-worker/internal/workflow/workflow.go:262-451 | Exactly a task stopped at the five-hour limit or for an unavailable provider is resumed: the stopped call is made again, with its model, phase and access, after at most one accepted update, unless a write failed, something could not be observed, the provider did not answer its probe, the repository was not as the stopped review or round needs it, or a worker's artifacts or files failed their check; otherwise nothing changes; same reasons and call bound |
| `Workflow.Workflow.OpenResume` | glm-worker/internal/workflow/workflow.go:281-317 | Before any call of a resume: a report-only round has its baseline, an unavailable provider has answered a probe, and a review's repository is as pinned; the resume stops here only when one of these fails, or could not be observed or written down |
| `Workflow.Workflow.GateProvider` | glm-worker/internal/workflow/workflow.go:291-309 | A provider-unavailable task goes on exactly after one answered probe; a limit or provider stop keeps it resumable, any other failure clears the checkpoint |
| `Workflow.Workflow.RunResumed` | glm-worker/internal/workflow/workflow.go:318-369 | A resumed call returns a validated answer with the pins intact, or leaves the task stopped again in agreement with its status, and for a reason |
| `Workflow.Workflow.RestoreStop` | glm-worker/internal/workflow/workflow.go:342-368 | After a failed resume status and checkpoint agree again: a stop that is still saved stays as it is, and otherwise the old stop is laid back with the parent files read anew |
| `Workflow.Workflow.TakeResumed` | glm-worker/internal/workflow/workflow.go:371-449 | A resumed result goes where the stopped call's would have gone, with the number of the round it was stopped in, unless a write failed or something could not be observed: a report is accepted over the pinned repository and its answer taken, a worker's answer is taken next, a review is accepted or asked for again; all within the remaining call budget |
| `Workflow.Workflow.TakeResumedReview` | glm-worker/internal/workflow/workflow.go:374-428 | A resumed review is taken exactly over the pinned state, as far as that could be observed and written down; a re-issue is entered as an escalation without another call; under a saved high risk a pass is never entered before the reviewer was asked again, and any other risk is decided anew |
| `Workflow.Workflow.HandleWorkerResult` | glm-worker/internal/workflow/workflow.go:474-495 | The answer is taken first; a decision request then waits without another call, and anything else has its end pinned, its review pinned, and the reviewer called next, unless a write failed, something could not be observed, or no model is set |
| `Workflow.Workflow.ReviewUntilStable` | glm-worker/internal/workflow/workflow.go:497-589 | Unless a write failed, something could not be observed, or no model is set, the worker's end is pinned, then the review's start, and then the reviewer is called; the command ends only for a reason; at most 20 calls for each remaining automatic fix and 20 more |
| `Workflow.Workflow.TakeReview` | glm-worker/internal/workflow/workflow.go:563-589 | A review result is entered next, unless a write failed; a pass under a high floor is asked for again first, unless no model is set |
| `Workflow.Workflow.OpenReview` | glm-worker/internal/workflow/workflow.go:504-552 | The worker's end is pinned before the floor is decided, and the review's start must equal it; only a failed write or observation keeps the review from opening |
| `Workflow.Workflow.ChooseReviewer` | glm-worker/internal/workflow/workflow.go:513-546 | The floor is decided on the present state, and a high one, and no other, sends the review to the stronger model |
| `Workflow.Workflow.RunReviewer` | glm-worker/internal/workflow/workflow.go:554-562 | A reviewer's answer counts only if the repository is still as pinned; without an answer the command ends for a reason, and nothing is called only after a failed write or without a model |
| `Workflow.Workflow.EnforceRiskFloor` | glm-worker/internal/workflow/workflow.go:1595-1612 | Under a high floor no pass gets through; any other result is left as it is |
| `Workflow.Workflow.RiskFloorReemit` | glm-worker/internal/workflow/workflow.go:1614-1655 | The stronger model is asked; what it answers is kept if it is an escalation, and replaced by one otherwise |
| `Workflow.Workflow.ComputeEffectiveRisk` | glm-worker/internal/workflow/workflow.go:751-783 | Worker risk, automatic fixes, a decision, an earlier review and critical paths changed since the task's baseline, each looked at now; critical exactly when the repository says so or git cannot tell |
| `Workflow.Workflow.ResolveReviewResumeRisk` | glm-worker/internal/workflow/workflow.go:789-795 | A high risk saved with a stopped review stays; a low or missing one is decided on the present state |
| `Workflow.Workflow.AcceptReview` | glm-worker/internal/workflow/workflow.go:578-588 | The review is written down with what its floor was decided on, only over the pinned state and for what the reviewer just said |
| `Workflow.Workflow.HandleReviewResult` | glm-worker/internal/workflow/workflow.go:591-687 | A pass completes and an escalation waits, and a fix request past the last round becomes an escalation, each printed as the reviewer answered it or as the wrapper's own, unless the write failed; any other fix request starts exactly the next round, unless the task file could not be resolved or written down |
| `Workflow.Workflow.RunAutoFix` | glm-worker/internal/workflow/workflow.go:619-682 | One fix or report-only round, the next in number: the round is entered, a report's start pinned, and the fix worker called, without write access for a report, unless a write or an observation failed, a parent file is missing, artifacts were denied, or no model is set |
| `Workflow.Workflow.PinAutoFix` | glm-worker/internal/workflow/workflow.go:653-661 | A report-only round starts by pinning the state its review saw |
| `Workflow.Workflow.CloseAutoFix` | glm-worker/internal/workflow/workflow.go:668-682 | A report-only result is accepted and taken exactly over the pinned repository, as far as that could be observed and written down, and nothing is entered otherwise; any other fix result is taken at once |
| `Workflow.Workflow.ConcludeWith` | glm-worker/internal/workflow/workflow.go:598-616 | The status is set before the result is printed, and complete exactly with the entry that closes an accepted pass; only a failed write keeps it from being printed |
| `Workflow.Workflow.RunModel` | glm-worker/internal/workflow/workflow.go:841-1033 | At most one correction, at most ten calls; every call counted once and logged once on every path. Unless a write failed, an error means denied artifacts, a missing model, or a last call that failed, broke the schema, or broke a rule once more after its correction; a limit, an absent provider and the guard's stop each have their cause |
| `Workflow.Workflow.PrepareCall` | glm-worker/internal/workflow/workflow.go:842-878 | The parent-file guard comes before the checkpoint is saved; a checkpoint without a model is refused before any call |
| `Workflow.Workflow.CallModel` | glm-worker/internal/workflow/workflow.go:879-895 | The call is counted once and entered with the files before and after it; a worker result is passed on exactly if the guarded files are unchanged, as far as they could be read |
| `Workflow.Workflow.SettleCall` | glm-worker/internal/workflow/workflow.go:896-992 | A five-hour limit stops resumably, broken structured output and ordinary failures end the call at once, only a transient failure makes further calls; each call is logged exactly once and no flagged checkpoint stays behind a result |
| `Workflow.Workflow.FinishCall` | glm-worker/internal/workflow/workflow.go:970-992 | The artifacts are secured first: if that fails the call is logged as a state error and its unflagged checkpoint stays; otherwise the checkpoint is cleared before the result is judged |
| `Workflow.Workflow.JudgeCall` | glm-worker/internal/workflow/workflow.go:994-1032 | Logged as a success exactly when returned; a constraint violation of a first attempt is always sent back, a broken schema never |
| `Workflow.Workflow.SaveRateLimitedState` | glm-worker/internal/workflow/workflow.go:1037-1072 | The call is logged once, as rate limited exactly when everything was saved and as a state error otherwise |
| `Workflow.Workflow.PersistStop` | glm-worker/internal/workflow/workflow.go:1076-1099 | The checkpoint is saved with the parent files the repository holds at that moment, if they can be read, and entered so, before the status changes; when one write fails the status stays |
| `Workflow.Workflow.SaveProbeRateLimited` | glm-worker/internal/workflow/workflow.go:1103-1116 | A limit met by a probe stops resumably without logging a task call |
| `Workflow.Workflow.RecoverTransient` | glm-worker/internal/workflow/workflow.go:1120-1135 | The first call is logged before recovery, which makes at most four more |
| `Workflow.Workflow.GateResumeOnProbe` | glm-worker/internal/workflow/workflow.go:1139-1144 | The gate makes at least one probe and never runs the task; it opens exactly with an answered probe, and otherwise the last probe met a limit, was worth another try, or was refused for good, or a write failed |
| `Workflow.Workflow.ProbeAndResume` | glm-worker/internal/workflow/workflow.go:1246-1293 | One probe; an answered one is followed by the task's call, unless preparing it failed, and by none for a gate |
| `Workflow.Workflow.RunResumedTask` | glm-worker/internal/workflow/workflow.go:1146-1191 | One more guarded, counted and logged call, unless its guard or a write stopped it; a transient failure keeps the recovery going |
| `Workflow.Workflow.RecoveryLoop` | glm-worker/internal/workflow/workflow.go:1217-1300 | At most four probes, one scheduled sleep before each but a gate's first; no sleep is set to end later than three hours after the start and together they fit in; once the probes or the time are used up the task stops provider-unavailable or a write failed, and before that it never does |
| `Workflow.Workflow.ProbeUntilExhausted` | glm-worker/internal/workflow/workflow.go:1223-1293 | As many sleeps as probes, without a gate's first, or one more that ran into the deadline; it goes on until the probes or the time are used up, for any clock that does not run backwards |
| `Workflow.Workflow.WaitForProbe` | glm-worker/internal/workflow/workflow.go:1231-1244 | One sleep right before its probe, as scheduled with up to a quarter more, or cut off at the deadline; none when the schedule or the time is used up |
| `Workflow.Workflow.ProbeOnce` | glm-worker/internal/workflow/workflow.go:1246-1284 | A probe is counted and logged whatever it answers; the five-hour limit is told before transient, transient before fatal, and a malformed answer without a fatal signal is tried again |
| `Workflow.Workflow.BackoffWait` | glm-worker/internal/workflow/workflow.go:1304-1317 | A wait is positive, between its step and a quarter above it, and cut off at the deadline |
| `World.ScheduleFits` | glm-worker/internal/workflow/workflow.go:70-91 | The waits grow; all four fit into three hours, but not each with a quarter more, so only the last is ever cut off |
| `Workflow.Workflow.SaveProviderUnavailable` | glm-worker/internal/workflow/workflow.go:1319-1345 | An exhausted recovery stops resumably as provider-unavailable, and fails only when a write failed |
| `Workflow.Workflow.CaptureWorkerEndSnapshot` | glm-worker/internal/workflow/workflow.go:1673-1682 | The saved worker end is the repository as the answered worker call left it |
| `Workflow.Workflow.VerifyReviewStartSnapshot` | glm-worker/internal/workflow/workflow.go:1788-1814 | A review starts exactly on the worker's end, as far as it could be observed and written down; otherwise the command stops for Sol |
| `Workflow.Workflow.VerifyReviewEndSnapshot` | glm-worker/internal/workflow/workflow.go:1933-1950 | A review result is looked at exactly if the repository still equals the saved start, as far as it could be observed |
| `Workflow.Workflow.VerifyReviewResumeSnapshot` | glm-worker/internal/workflow/workflow.go:1821-1855 | A stopped review goes on exactly over the saved state, or pinned anew when only the parent's files changed during the stop, as far as that could be observed and written down |
| `Workflow.Workflow.AcceptReviewResumeParentDelta` | glm-worker/internal/workflow/workflow.go:1865-1897 | Exactly when a changed repository may be accepted: same head, index and outside files, all three listings known, nothing changed before the stop, nothing deleted, something changed since |
| `Workflow.Workflow.ChangedOnlyDuringStop` | glm-worker/internal/workflow/workflow.go:1879-1896 | The file-by-file rule, in any order, is the declared one |
| `Workflow.Workflow.SaveReportOnlyStartSnapshot` | glm-worker/internal/workflow/workflow.go:1687-1696 | The baseline saved is the state that the fix request was accepted for |
| `Workflow.Workflow.GateReportOnlyResumeSnapshot` | glm-worker/internal/workflow/workflow.go:1701-1712 | A report-only resume goes on exactly when its baseline is there |
| `Workflow.Workflow.VerifyReportOnlyEndSnapshot` | glm-worker/internal/workflow/workflow.go:1718-1735 | A report-only result is accepted exactly over the baseline, as far as the repository could be observed |
| `Workflow.Workflow.FailClosedStopped` | glm-worker/internal/workflow/workflow.go:1968-1979 | No checkpoint, waiting for Sol, one escalation printed; or broken off at a write with nothing printed |
| `Workflow.Workflow.CaptureParentFileGuard` | glm-worker/internal/workflow/planfile.go:296-344 | A worker call starts exactly when the tracked parent files are all there, as far as git could tell; the guard remembers exactly their states |
| `Workflow.Workflow.TrackedFilesMissing` | glm-worker/internal/workflow/planfile.go:321-342 | Exactly when a tracked root file, a tracked task file or the task's own file is missing |
| `Workflow.Workflow.VerifyParentFileAfterCall` | glm-worker/internal/workflow/planfile.go:348-387 | Exactly a broken contract stops the command, with the call logged once; an unbroken one changes nothing |
| `Workflow.Workflow.FailClosedParentFileGuard` | glm-worker/internal/workflow/planfile.go:392-407 | The guard's stop logs an event, not a call |
| `Workflow.Workflow.EnsureActiveTaskPath` | glm-worker/internal/workflow/activetask.go:159-174 | The task file is fixed once per task and only looked up again when it was not |
| `Workflow.Workflow.OpenTask` | glm-worker/internal/workflow/workflow.go:117-132 | Journal, counters, baseline, request, decision, review and task file are the new task's before anything is called |
| `Workflow.Workflow.CaptureGitBaseline` | glm-worker/internal/state/baseline.go:13-47 | The head that the task's changes are counted from is the repository's at its start, or none when git cannot tell |
| `Workflow.Workflow.ClassifyResumedFailure` | glm-worker/internal/workflow/workflow.go:1171-1191 | A resumed call is tried again exactly after a transient failure, stopped at the limit, and given up otherwise |
| `Workflow.Workflow.ClassifyProbe` | glm-worker/internal/workflow/workflow.go:1261-1284 | The fixed order of a failed probe's classes |
| `Workflow.Workflow.StartNewTask` | glm-worker/internal/state/store.go:109-141 | The old snapshots are gone and the counters zero before the new task is active; a failed write leaves the store consistent |
| `Workflow.Workflow.ForgetOldTask` | glm-worker/internal/workflow/workflow.go:125-132 | Nothing of the old task's decision, review and task file stays |
| `Store.StateStore.SetTaskStatus` | glm-worker/internal/state/store.go:190-198 | A write takes full effect or none |
| `Store.StateStore.SaveResumeCheckpoint` | glm-worker/internal/state/resume.go:73-87 | A checkpoint without a model is refused; otherwise it replaces the old one or nothing changes |
| `Store.StateStore.RecordModelCall` | glm-worker/internal/state/stats.go:248-261 | The call and its role are counted together |
| `Store.StateStore.RecordProbeOutcome` | glm-worker/internal/state/stats.go:379-386 | Each probe is counted once, by its outcome |
| `Store.StateStore.RecordModelCallLog` | glm-worker/internal/state/telemetry.go:95-136 | Records are only ever appended |
| `Coverage.ComputeTelemetryCoverage` | glm-worker/internal/state/coverage.go:87-127 | Complete exactly when every task's records are readable and as many as its counted calls and no stray file is left; unreadable exactly when some are not |
| `Coverage.DifferencesAreNotNetted` | glm-worker/internal/state/coverage.go:101-114 | Missing and excess records are kept apart, and both are zero exactly when every task balances |
| `Coverage.BalancedBooksAreComplete` | glm-worker/internal/state/coverage.go:53-66 | The books as the workflow keeps them classify as complete |
| `Phases.ReportOnlyNames` | glm-worker/internal/workflow/workflow.go:717-735 | Exactly which names are taken for a report-only round: the prefix, a number, and at most one compaction and one correction mark |
| `Phases.NamesTellReportOnly` | glm-worker/internal/workflow/workflow.go:713-735 | For every phase the workflow names, the name is recognised exactly when it is a report-only round |
| `ParentFiles.ReadParentFileStates` | glm-worker/internal/workflow/planfile.go:95-148 | The listing represents the files: root files always, task files when there, in path order |
| `ParentFiles.SameParentFileStates` | glm-worker/internal/state/snapshot.go:49-59 | The loop over two listings tells exactly whether they are equal |
| `ParentFiles.SameListsSameFiles` | glm-worker/internal/state/snapshot.go:49-59 | Comparing two listings entry by entry compares the files themselves |
| `ParentFiles.LookUpIsState` | glm-worker/internal/state/snapshot.go:63-70 | Looking a path up in a listing is looking it up among the files |
| `ParentFiles.DescribeParentFileChanges` | glm-worker/internal/workflow/planfile.go:161-196 | Exactly the changed paths, each with its kind of change, in path order |
| `ParentFiles.NoChangesMeansSame` | glm-worker/internal/workflow/planfile.go:173-196 | Nothing is described exactly when the files are the same |
| `ParentFiles.ChangesTellWhatHappened` | glm-worker/internal/workflow/planfile.go:173-196 | A path is described as created, deleted or modified exactly when its file was |
| `Packets.DisplayRoundTrip` | glm-worker/internal/packet/result.go:117-250 | What is shown reads back as the normalised result, whatever the texts hold |
| `Packets.NormalFormIsFixed` | glm-worker/internal/packet/result.go:117-265 | A result in normal form reads back unchanged |
| `Packets.NormalisedIsNormal` | glm-worker/internal/packet/result.go:175-265 | One display reaches a normal form exactly when neither list reads back as the lone word for an empty list |
| `Packets.FromDisplayLines` | glm-worker/internal/packet/result.go:206-250 | The loop is the declared parser: unknown and later keys included, a missing separator or status an error |
| `Packets.SplitDisplayList` | glm-worker/internal/packet/result.go:253-265 | The list pieces, trimmed, blank ones dropped |
| `ResultLists.ListsComeBack` | glm-worker/internal/packet/result.go:175-180 | A list without blank elements reads back trimmed exactly when no element holds a semicolon and it is not the lone word for an empty list |
| `ResultLists.SemicolonsAreLost` | glm-worker/internal/packet/result.go:175-180 | One target a;b does not read back as itself |
| `ResultLists.ValidatedResultsComeBack` | glm-worker/internal/packet/validate.go:58-116 | Every validated result can be read back with its status and risk; its targets exactly under that condition |
| `Shown.ValidatedTextReadsBack` | glm-worker/internal/packet/validate.go:83-116 | The shown text of a validated result, split into its lines again, reads back exactly unless a reviewer's question takes several lines |
| `Shown.ShownTextComesBack` | glm-worker/internal/packet/result.go:182-250 | For any result whose other shown texts are on one line: the text reads back exactly when the question shown last is on one line |
| `Shown.TwoLinesAreLost` | glm-worker/internal/packet/validate.go:83-116 | A question a, line end, b passes the validation and does not read back |
| `Validation.ValidateTargets` | glm-worker/internal/packet/validate.go:161-199 | The loop accepts exactly the canonical target lists |
| `Validation.ReservedWordSelectsReportOnly` | glm-worker/internal/packet/validate.go:230-232 | In a valid fix request a target that spells the reserved word in any case selects the report-only round, and only such |
| `Validation.ValidateFields` | glm-worker/internal/packet/validate.go:203-227 | Exactly the required texts on one line and within bounds |
| `Validation.ValidateWorkerResult` | glm-worker/internal/packet/validate.go:58-80 | The worker's contract as a verdict: valid, to be corrected, or broken |
| `Validation.ValidateReviewerResult` | glm-worker/internal/packet/validate.go:83-116 | The reviewer's contract as a verdict |
| `Install.OverridesLeaveNoTrace` | tools/merge-json/main.go:43-99 | Over any history of installs and local edits, taking the overrides back always gives the settings of an installer without overrides, if and only if no override was installed over an env that is not an object and no install left the remembered values behind |
| `Install.InstallStaysTraceless` | tools/merge-json/main.go:264-283 | One install keeps that exactly when env is an object or absent, or there is no override, and the remembered values keep up |
| `Install.StaleExactly` | tools/merge-json/main.go:66-73 | The remembered values are left behind exactly when the same keys are overridden again and all that the fragment changes of them is objects it extends, which the merge has already changed in memory |
| `Install.OverridesTakeEffect` | tools/merge-json/main.go:264-283 | After any install each key the override sets holds its string, each it deletes is gone, and the rest of env and of the settings is as managed; env is then an object |
| `Install.EffectIsUnique` | tools/merge-json/main.go:264-283 | Nothing else could be left by an install |
| `Install.WrittenWhenChanged` | tools/merge-json/main.go:71-74 | The sidecar changes exactly when the new values differ from the old ones as the merge left them in memory |
| `Install.ExtensionIsLost` | tools/merge-json/main.go:66-90 | For every object under an overridden key that the next fragment extends: the second install writes nothing, and taking the override back loses the extension |
| `Install.OverrideCanLeaveTrace` | tools/merge-json/main.go:66-90 | So it happens with {a: 1} extended by b, although env is an object throughout |
| `Install.EditStaysTraceless` | tools/merge-json/main.go:421-434 | An edit of anything an override does not own survives taking the override back |
| `Install.InstallWithoutOverrides` | tools/merge-json/main.go:438-451 | After a history under those conditions an install without overrides gives the plain settings again and an empty sidecar |
| `Install.NonObjectEnvIsLost` | tools/merge-json/main.go:278-283 | Any other env is lost for good to any override |
| `Install.InstallIsIdempotent` | tools/merge-json/main.go:73-83 | The same install twice changes nothing the second time, whatever was there |
| `Install.RestoreUndoesPatch` | tools/merge-json/main.go:264-276 | Restoring the remembered values undoes a patch exactly |
| `Json.MergeOfContained` | tools/merge-json/main.go:143-153 | A merge changes nothing exactly when the fragment is contained already |
| `Json.MergeIsIdempotent` | tools/merge-json/main.go:143-153 | Merging a fragment twice is merging it once |
| `Json.MergeAlongPaths` | tools/merge-json/main.go:143-153 | At every path: what the fragment names wins, objects are merged with what they cover, what lies beyond a value of the fragment is gone, and everything else stays as it was |
| `MergeJson.Settings.DeepMerge` | tools/merge-json/main.go:143-153 | Merging in place, keys in any order, is the recursive merge |
| `MergeJson.Settings.RestoreEnvBaselines` | tools/merge-json/main.go:421-434 | Every owned key goes back to its remembered value or absence |
| `MergeJson.Settings.SnapshotEnvBaselines` | tools/merge-json/main.go:438-459 | Every overridden key's value or absence is remembered |
| `MergeJson.Settings.ApplyEnvPatch` | tools/merge-json/main.go:264-276 | Deletes, then sets, on an env that is made an object |
| `MergeJson.FileTakesEffect` | tools/merge-json/main.go:206-283 | The same told of the override file: its strings are in env, its nulls are not, everything else is as managed |
| `MergeJson.ParseEnvOverride` | tools/merge-json/main.go:206-262 | Accepted exactly when absent or an object with at most an env object of strings and nulls; then the patch it spells |
| `Disk.RollbackIsExact` | tools/merge-json/main.go:390-416 | A successful rollback restores everything exactly when each planned path was absent, or readable with some permission bit set |
| `Disk.RollbackCanDelete` | tools/merge-json/main.go:390-416 | Of the commit on its own: an unreadable settings file is gone after a successful rollback, and one without permission bits comes back with 0600 |
| `Installer.Installer.OnlyClearedModesAreLost` | tools/merge-json/main.go:43-62 | From the installer, which refuses files it cannot read, a successful rollback is exact exactly when no planned file has its permission bits all clear |
| `Disk.FileSystem.CommitTransaction` | tools/merge-json/main.go:368-388 | Committed exactly when no step failed, with all writes made; rolled back exactly when a planned write failed and no step of the rollback, with the files as they were; otherwise every path whose own step worked is put back; other files untouched in every case |
| `Disk.FileSystem.RollbackFiles` | tools/merge-json/main.go:402-416 | Goes on past failures: every path whose own step worked is back, and success is reported exactly when all were |
| `Disk.FileSystem.CaptureAll` | tools/merge-json/main.go:369-377 | Each planned path captured once, before the first write |
| `Installer.Installer.MergeFiles` | tools/merge-json/main.go:43-99 | Refused exactly on unusable inputs; otherwise done exactly when no step on the disk failed, and then the two files hold the install of the inputs with the override in effect; after a failure they hold what they held, but for a file whose own step of the rollback failed; an install that changes nothing writes nothing |
| `Installer.Installer.Merged` | tools/merge-json/main.go:64-90 | The in-place steps in their order give the declared install, sidecar left alone included |
| `Tokenizer.Tokenize` | glm-worker/internal/reposearch/tokenize.go:15-41 | The run buffer computes the token sequence |
| `Tokenizer.TokensComeFromRuns` | glm-worker/internal/reposearch/tokenize.go:10-41 | The tokens are exactly those of the text's maximal runs of one script |
| `Tokenizer.TokensAre` | glm-worker/internal/reposearch/tokenize.go:15-66 | The tokens are exactly: of a run of letters and digits the run in lower case, of a run of CJK characters its neighbouring pairs, or the lone one |
| `Tokenizer.OneRunTokens` | glm-worker/internal/reposearch/tokenize.go:15-66 | A text that is one run gives its lower case, or its neighbouring pairs in order |
| `Tokenizer.TokensOfParts` | glm-worker/internal/reposearch/tokenize.go:28-38 | Cut where no run goes across, a text has the tokens of its parts one after the other |
| `Tokenizer.CaseDoesNotMatter` | glm-worker/internal/reposearch/tokenize.go:15-41 | Texts that differ in case only, outside CJK characters, have the same tokens, so a query finds what it spells in any case |
| `Tokenizer.TokensSplitIntoLines` | glm-worker/internal/reposearch/tokenize.go:15-41 | The tokens of a text are those of its lines, in order |
| `Tokenizer.CountsAddUpOverLines` | glm-worker/internal/reposearch/tokenize.go:68-77 | A token's occurrences add up over the lines |
| `Tokenizer.TermFrequencies` | glm-worker/internal/reposearch/tokenize.go:68-77 | Exactly the tokens, each with its number of occurrences |
| `Ranking.FieldScoreTells` | glm-worker/internal/reposearch/score.go:85-97 | A field scores exactly when it holds a query token, and never below zero |
| `Ranking.RarerScoresMore` | glm-worker/internal/reposearch/score.go:85-97 | Of two fields of the same length that differ in one query token the one with the rarer token scores more, for any increasing logarithm |
| `Ranking.MoreOccurrencesScoreMore` | glm-worker/internal/reposearch/score.go:85-97 | At equal length more occurrences of a query token score more, and so does a token matched as well |
| `Ranking.LongerScoresLess` | glm-worker/internal/reposearch/score.go:85-97 | The same occurrences in a longer field score less |
| `Ranking.MoreContentRanksBefore` | glm-worker/internal/reposearch/score.go:34-57 | Of two documents with like paths the one whose content scores more comes first |
| `Ranking.AverageIsPositive` | glm-worker/internal/reposearch/score.go:82-97 | Where a token occurs the average length is positive, so nothing is divided by zero |
| `Ranking.AverageLiesBetween` | glm-worker/internal/reposearch/score.go:59-80 | The average length lies between the least and the greatest length |
| `Ranking.FrequencyCounts` | glm-worker/internal/reposearch/score.go:59-80 | The document frequency is the number of documents that hold the token |
| `Ranking.QualifiesExactly` | glm-worker/internal/reposearch/score.go:34-46 | A document is a result exactly when its content holds a query token, or its path does and paths count |
| `Ranking.RankDocuments` | glm-worker/internal/reposearch/score.go:27-57 | The results are the best of those that qualify, by score and then path, at most the limit |
| `Ranking.RankingIsUnique` | glm-worker/internal/reposearch/score.go:47-56 | There is only one such ranking of an index |
| `Ranking.TopIsBest` | glm-worker/internal/reposearch/score.go:47-56 | Nothing left out ranks above anything kept, and something is left out only at the limit |
| `Ranking.TopIsOrdered` | glm-worker/internal/reposearch/score.go:47-56 | The results come by falling score, and those of one score by path |
| `Ranking.BuildFieldStatistics` | glm-worker/internal/reposearch/score.go:59-80 | The average length and the document frequency of every query token |
| `Ranking.Bm25FieldScore` | glm-worker/internal/reposearch/score.go:85-97 | The accumulator computes the sum over the query tokens, repeated ones each time |
| `Snippets.BestLine` | glm-worker/internal/reposearch/score.go:124-136 | The first line with the highest count of query tokens, or none when no line has any |
| `Snippets.LineScoreAdds` | glm-worker/internal/reposearch/score.go:138-145 | A line's score adds up over the query |
| `Snippets.SnippetTellsContent` | glm-worker/internal/reposearch/score.go:124-145 | A line is shown exactly when the content holds a query token |
| `Index.EnumerateFiles` | glm-worker/internal/reposearch/enumerate.go:59-86 | Every wanted file once, in ascending order |
| `Index.ExcludedPath` | glm-worker/internal/reposearch/enumerate.go:41-49 | A directory segment is excluded; the file's own name never counts |
| `Index.ExcludedExactly` | glm-worker/internal/reposearch/enumerate.go:41-49 | Excluded are exactly the paths with an excluded name between the start or a slash, and a slash |
| `Index.IndexIsUnique` | glm-worker/internal/reposearch/document.go:32-72 | The state behind a fingerprint has one index |
| `Cache.ValidTermFrequencies` | glm-worker/internal/reposearch/cache.go:128-140 | Accepted exactly when all counts are positive and add up to the length |
| `Cache.CacheMatchesRepository` | glm-worker/internal/reposearch/cache.go:82-124 | The loop accepts exactly the caches about this state of this repository, within limits, with valid and ordered documents |
| `Cache.LoadIndex` | glm-worker/internal/reposearch/cache.go:59-80 | Returns exactly what is stored when it is accepted |
| `Cache.StoredComesBack` | glm-worker/internal/reposearch/cache.go:59-168 | What is stored comes back unchanged exactly when it fits the limits of the day |
| `Cache.AcceptedCanBeRanked` | glm-worker/internal/reposearch/cache.go:105-140 | Any accepted cache, whoever wrote it, can be ranked without dividing by zero |
| `Search.Searcher.RebuildIndex` | glm-worker/internal/reposearch/document.go:32-72 | If nothing changes meanwhile the index is exact, and it exists exactly when the files are few and small enough and readable |
| `Search.Searcher.AttemptSearch` | glm-worker/internal/reposearch/reposearch.go:204-242 | A report is about one state of the repository, from the index of that state; a change in between gives none and writes nothing; without a change or a failing observation there is none only for files that cannot be indexed |
| `Search.Searcher.Search` | glm-worker/internal/reposearch/reposearch.go:100-129 | An empty query is told by its tokens; a race is reported only after two changes and never as a failure, which needs something that could not be observed or a path outside the root; when nothing changes and everything can be observed there is an answer, unless the files cannot be indexed; the cache only ever holds the index of the state it names |
| `Search.Searcher.FindIndex` | glm-worker/internal/reposearch/reposearch.go:208-216 | The cached index exactly when it matches the state; otherwise a new one, unless the files cannot be indexed |
| `Search.Searcher.ReportOn` | glm-worker/internal/reposearch/reposearch.go:217-241 | The state is checked after the index and again after the snippets; only an unchanged one is reported and kept |
| `Search.HitsAgreeWithRebuilds` | glm-worker/internal/reposearch/reposearch.go:204-242 | For the same state and query a cached and a rebuilt index give the same report but for its status |
| `Search.SnippetsAgreeWithScores` | glm-worker/internal/reposearch/score.go:101-145 | A result shows a line exactly when its content scored |
| `Search.HitsCanExceedLimits` | glm-worker/internal/reposearch/cache.go:98-104 | A hit outlives a lowered file limit exactly when the limit lies between the indexed and the enumerated files |
| `Search.HitOutlivesLimit` | glm-worker/internal/reposearch/cache.go:98-104 | Two files without text, a cache stored under the default limits, and a limit of one file: the cache answers where a rebuild refuses, whatever directories are excluded |
| `Stream.IngestAll` | glm-worker/internal/runner/stream_events.go:80-129 | However the stream is cut, the same lines are handled: the last result line, the last 65536 bytes of plain lines, the first 50000 records in order unless appending failed |
| `Stream.LastResultIs` | glm-worker/internal/runner/stream_events.go:106-107 | The last result is the latest result line, or nothing |
| `Stream.PlainTextIs` | glm-worker/internal/runner/stream_events.go:171-181 | The plain text is that of the lines that are no events, in order, each with its line end |
| `Stream.ReportableIs` | glm-worker/internal/runner/stream_events.go:116-119 | The records are of the lines that show more than progress |
| `Lines.NonBlankPicks` | glm-worker/internal/runner/stream_events.go:103-105 | Passing over lines keeps every other one once and in order |
| `Stream.Ingester.Write` | glm-worker/internal/runner/stream_events.go:80-92 | Complete lines are handled, the rest is kept pending |
| `Stream.Ingester.Flush` | glm-worker/internal/runner/stream_events.go:95-100 | A last line without its end counts unless it is blank |
| `Stream.Ingester.LogLine` | glm-worker/internal/runner/stream_events.go:108-129 | Records are numbered without gaps; the log closes exactly at its limit or at the first append that fails |
| `Stream.Ingester.CapturePlainSignal` | glm-worker/internal/runner/stream_events.go:171-181 | The buffer is the end of all plain lines so far |
| `Text.SplitAppend` | glm-worker/internal/runner/stream_events.go:80-92 | More text only ever continues the last piece |
| `Watch.Watcher.WatchTaskEvents` | glm-worker/internal/app/watch.go:61-90 | On an exit from the polling loop every line due when the status was read has been printed, once and in order, for any actions of the others; on the first check only the lines due before. A task that is over is left, unless somebody acts meanwhile; a removed log is gone, and a failed read is told |
| `Watch.Watcher.PollOnce` | glm-worker/internal/app/watch.go:71-88 | The status is read before the log, so nothing due at that moment is missed; unless somebody acts meanwhile the loop is left exactly when the task is over or the log is gone or a read failed |
| `Watch.Watcher.Drain` | glm-worker/internal/app/watch.go:94-116 | Reads on to the end of the log; unfinished lines are carried over |
| `Watch.FirstCheckIsComplete` | glm-worker/internal/app/watch.go:62-69 | The first check has shown everything exactly when no line that is not blank was completed between its two looks |
| `Watch.FirstCheckCanMissLines` | glm-worker/internal/app/watch.go:62-69 | A last event appended in between is lost |
| `Convergence.CompareRoundRecords` | glm-worker/internal/state/convergence.go:393-444 | Counts and class are those of the declared rule |
| `Convergence.OrderDoesNotMatter` | glm-worker/internal/state/convergence.go:408-440 | Every order of walking the maps gives the same counts and class |
| `Convergence.LastEntryCounts` | glm-worker/internal/state/convergence.go:468-474 | Of several entries of a path the last one counts |
| `Convergence.CommentFormatMeans` | glm-worker/internal/state/convergence.go:460-466 | Comments and format only: exactly when every changed path is on both sides, no document, and means the same |
| `Convergence.OtherClassesMean` | glm-worker/internal/state/convergence.go:408-466 | A semantic change, a document change and unknown, each exactly by the changed paths |
| `Convergence.CommentFormatKeepsLines` | glm-worker/internal/state/convergence.go:248-282 | Then the path is code and its lines that matter are the same on both sides |
| `Convergence.NormalizedTellsKept` | glm-worker/internal/state/convergence.go:307-320 | Two contents normalise alike exactly when the lines that matter are the same |
| `Convergence.KeptPicks` | glm-worker/internal/state/convergence.go:307-346 | The lines that matter are, in order, exactly those neither blank nor mere comment, each from its first character to its last that is not blank |
| `Convergence.NormalizedIsNormal` | glm-worker/internal/state/convergence.go:307-320 | Normalising twice is normalising once |
| `Convergence.NormalizeRoundContent` | glm-worker/internal/state/convergence.go:307-346 | The loop keeps exactly the lines that are neither blank nor mere comment |
| `Convergence.RoundDirectiveComment` | glm-worker/internal/state/convergence.go:351-364 | A word directly followed by a colon, and nothing else |

## Left out

- Process launch, environments, the model CLI, git, sqlite, file locks, temporary directories: calls into the outside world, here oracles.
- Prompts, result wording, report formats, timelines, status and statistics printing: no decision depends on them; an escalation the wrapper itself issues has only its status, risk and artifacts.
- JSON and TOML codecs: taken as lossless on the modelled values; reading a state file that exists is taken to succeed.
- SHA-256 and git's diff: a digest stands for what it digests; equal fingerprints are taken to mean that nothing changed in between, and a change undone before the second look is not told apart.
- Best-effort writers of statistics, telemetry and review rounds: taken to succeed; token counts, durations and rejection categories are not modelled.
- Sessions, isolation policy, task ids and artifact files: one state write that may fail stands for all of them (`StateStore.TouchOther`).
- Old checkpoint formats and unknown resume stages: only the phase names of older versions are modelled.
- The `--reset` command: a successful one is the constructor's state; a reset that fails half-way is not modelled.
- Crashes between two writes, in the workflow and in the installer: the code makes no claim there.
- The default branches behind validated statuses and the tables of critical paths: reading one function settles them.
- The plan's ACTIVE section: resolving it yields no task, one existing task file, or an error.
- handleWorkerResult and handleAutoFixResult: the same steps under two names, modelled once with the round's numbers as parameters.
- Which parent files git ignores: fixed for a repository; files outside the parent-managed ones are modelled only as far as git lists them. The repository changes only in model calls and between commands, not while the wrapper itself looks at it.
- A task file that disappears between listing the directory and reading it: the listing is taken at one moment.
- Tool timing and the per-block summaries of stream events: durations between two observed times, without a bearing on the lines handled.
- The bytes of a multi-byte character: streams and logs are sequences of characters that stand for bytes, so a cut inside a character is a cut between two of them.
- Watch.Watcher.WatchTaskEvents: models the stop signal as a number of polls; without it the loop ends only when the task does.
- Search options, their defaults and hard caps, the location of the cache, and whether a path leaves the root: one function each; the last is a parameter.
- Cache.ValidTermFrequencies: does not model 64-bit wrap-around of the sum, because no index the search builds comes near it.
- Rounding in scores: BM25 is over the reals, with a logarithm of which only its sign above one and its growth are used.
- Unicode tables: of lower-casing only this is used, that doing it twice is doing it once and that it keeps letters, digits and scripts as they are.
- Sorting: the library sort is modelled by insertion; its result is proved unique, so the algorithm does not matter.
- MergeJson.Settings.DeepMerge: copies nested objects where the source changes them in place. The one place where that is seen, the remembered values that the merge changes in memory, is modelled by `Install.Aged`; the fragment's own objects are discarded after the merge.
- A settings file that carries the sidecar's own name, and a failing `stat` right after a successful read: not modelled.
- The tables of file extensions, comment marks and multi-line string guards per language: a parameter of the round classifier.
- Reviewing at a low risk after an explicit fix that follows a stop before any accepted review: allowed by the code, and by `Workflow.FloorFits`, which looks at what the state files say.
