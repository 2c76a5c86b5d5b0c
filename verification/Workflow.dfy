/** The worker, reviewer and auto-fix state machine with stop, recovery and resume
    (glm-worker/internal/workflow/workflow.go, planfile.go, activetask.go). */
module Workflow {
  import opened Text
  import opened Packets
  import opened Validation
  import opened Snapshots
  import opened Journal
  import History
  import opened Store
  import opened World

  datatype Config = Config(
    maxAutoFixRounds: nat, workerModel: string, reviewerModel: string, highRiskReviewerModel: string)

  datatype Error = GuardStopped | RateLimitStop | ProviderStop | WorkerError

  datatype Guard = Guard(files: Parents, guarded: bool, planOnly: bool)

  datatype Outcome = Done(result: Result) | Failed(error: Error)

  /** How a resumed task call ended, a probe, and a whole recovery. */
  datatype Resumed = Back(reply: RunReply) | RetryLater | Dead(error: Error)

  datatype Probed = Answered | TryAgain | ProbeStopped(error: Error)

  datatype Recovery = Recovered(reply: RunReply) | GaveUp(error: Error)

  datatype Round = Ended(recovery: Recovery) | Again

  /** A check before a call or before a result is taken: go on, or stop, fail-closed or on an error. */
  datatype Check = Proceed | Halted(error: Option<Error>)

  /** A review result after the floor, or the end of the command. */
  datatype Floored = Kept(result: Result) | Left(error: Option<Error>)

  datatype Called = Returned(result: Result) | Redo | CallEnded(error: Error)

  // ---------------------------------------------------------------- agreement of status and checkpoint

  /** The status tells a stopped task from the others exactly as the checkpoint does. */
  ghost predicate Agreement(status: TaskStatus, checkpoint: Option<Checkpoint>, pendingDecision: bool) {
    && (status == RateLimited <==> checkpoint.Some? && checkpoint.value.rateLimited)
    && (status == ProviderUnavailable <==> checkpoint.Some? && checkpoint.value.providerUnavailable)
    && (status in {WaitingDecision, WaitingSolReview, Complete} ==> checkpoint == None)
    && (status == WaitingDecision ==> pendingDecision)
    && (status == Complete ==> !pendingDecision)
  }

  /** The result printed last is the one the status waits on. */
  predicate Matches(r: Result, status: TaskStatus) {
    || (r.status == NeedsSolDecision && status == WaitingDecision)
    || (r.status == NeedsSolReview && status == WaitingSolReview)
    || (r.status == Pass && status == Complete)
  }

  predicate ReportOnlyFromPhase(phase: Phase) {
    phase.ReportOnlyRound? || (phase.Corrected? && phase.base.ReportOnlyRound?)
  }

  predicate IsReportOnlyResume(c: Checkpoint) {
    c.work.reportOnly || ReportOnlyFromPhase(c.phase)
  }

  /** The counters and roles of a piece of work fit its stage. */
  predicate ShapedWork(w: Work, maxRounds: nat) {
    && (w.reportOnly ==> w.stage == AutoFixStage)
    && (w.readOnly <==> w.role == Reviewer || w.reportOnly)
    && match w.stage
       case WorkerStage => w.role == Worker && w.autoFixes == 0
       case ReviewStage => w.role == Reviewer && w.workerResult.Some? && w.autoFixes <= maxRounds &&
         w.reviewNumber == w.autoFixes + 1
       case AutoFixStage => w.role == Worker && 1 <= w.reviewNumber == w.autoFixes <= maxRounds
  }

  /** The phase that a piece of work is called, with the number of its round. */
  predicate Named(phase: Phase, w: Work) {
    match phase
    case WorkerNew => w.stage == WorkerStage
    case WorkerDecision => w.stage == WorkerStage
    case WorkerExplicitFix => w.stage == WorkerStage
    case ReviewRound(n) => w.stage == ReviewStage && !w.riskFloorReemit && n == w.reviewNumber
    case RiskFloorRound(n) => w.stage == ReviewStage && w.riskFloorReemit && n == w.reviewNumber
    case AutoFixRound(n) => w.stage == AutoFixStage && !w.reportOnly && n == w.autoFixes
    case ReportOnlyRound(n) => w.stage == AutoFixStage && w.reportOnly && n == w.autoFixes
    case Corrected(_) => false
  }

  predicate Shaped(c: Checkpoint, maxRounds: nat) {
    && Named(if c.phase.Corrected? then c.phase.base else c.phase, c.work)
    && (c.resultCorrection <==> c.phase.Corrected?)
    && ShapedWork(c.work, maxRounds)
  }

  /** What drives a repository: the parent's commands, and its own edits between them. */
  datatype Command = NewTask(request: string) | Decide(decision: string) | ExplicitFix | Resume | ParentEdits

  /** Which commands a state takes up; the others are refused. */
  predicate Enabled(c: Command, status: TaskStatus, pendingDecision: bool, checkpoint: Option<Checkpoint>,
        requested: bool) {
    var stopped := checkpoint.Some? && Flagged(checkpoint.value);
    match c
    case NewTask(_) => !pendingDecision && !stopped
    case Decide(_) => status == WaitingDecision && pendingDecision && requested
    case ExplicitFix => !pendingDecision && status == WaitingSolReview && requested
    case Resume => stopped
    case ParentEdits => true
  }

  /** Nothing but a reset helps exactly when a decision is still pending, no stop is saved, and the task does
      not wait for that decision any more; Execute says which commands end so. */
  lemma NothingEnabled(status: TaskStatus, pendingDecision: bool, checkpoint: Option<Checkpoint>, requested: bool)
    ensures (forall c: Command :: Enabled(c, status, pendingDecision, checkpoint, requested) ==> c == ParentEdits) <==>
              pendingDecision && !(checkpoint.Some? && Flagged(checkpoint.value)) &&
                !(status == WaitingDecision && requested)
  {
    if forall c: Command :: Enabled(c, status, pendingDecision, checkpoint, requested) ==> c == ParentEdits {
      assert !Enabled(NewTask(""), status, pendingDecision, checkpoint, requested);
      assert !Enabled(Decide(""), status, pendingDecision, checkpoint, requested);
      assert !Enabled(Resume, status, pendingDecision, checkpoint, requested);
    }
  }

  predicate AcceptedFor(role: Role, r: Result) {
    (if role == Worker then WorkerStatus(r.status) else ReviewerStatus(r.status)) && RiskFits(r)
  }

  class Workflow {
    const config: Config
    const state: StateStore
    const world: Environment
    var output: seq<Result>
    ghost var book: Book
    ghost var mon: Monitor

    constructor (config: Config, world: Environment)
      requires world.runs == [] && world.probes == []
      ensures this.config == config && this.world == world && fresh(state)
      ensures AtRest() && !state.fault
      ensures output == [] && book == BLANK
    {
      this.config := config;
      this.world := world;
      state := new StateStore();
      output, book, mon := [], BLANK, START;
    }

    // -------------------------------------------------------------- invariants

    ghost function TheRules(): Rules {
      Rules(world.ignored, config.maxAutoFixRounds, world.critical)
    }

    ghost predicate BookLegal()
      reads `book, `mon
    {
      Legal(TheRules(), book) && Same(mon, Latest(book))
    }

    /** Inside a command the journal knows the repository as it is, and every call made. */
    ghost predicate Journaled()
      reads `book, `mon, world`repo, world`runs
    {
      BookLegal() && Same(mon.repo, Some(world.repo)) && mon.calls == |world.runs|
    }

    /** Every provider call is counted once and logged once, in order. */
    ghost predicate Accounted()
      reads state`telemetry, state`stats, world`runs, world`probes
    {
      && TaskCalls(state.telemetry) == world.runs
      && ProbeCalls(state.telemetry) == world.probes
      && Counted()
    }

    ghost predicate Counted()
      reads state`stats, world`runs, world`probes
    {
      && state.stats.modelCalls == |world.runs| == state.stats.workerCalls + state.stats.reviewerCalls
      && state.stats.probeSuccesses + state.stats.probeFailures == |world.probes|
    }

    /** One call was made and counted and is still to be logged. */
    ghost predicate Owing(call: RunCall)
      reads state`telemetry, state`stats, world`runs, world`probes
    {
      && TaskCalls(state.telemetry) + [call] == world.runs
      && ProbeCalls(state.telemetry) == world.probes
      && Counted()
    }

    /** What a checkpoint's work still relies on. */
    ghost predicate Grounded(c: Checkpoint)
      reads `mon, state`reviewStart, state`pendingDecision, state`lastRequest, state`baseline
    {
      && Shaped(c, config.maxAutoFixRounds) && c.work.model != ""
      && !mon.basis.complete && !mon.basis.asked && c.work.autoFixes == mon.basis.rounds
      && mon.basis.report == (if c.work.reportOnly then OnPin else NoReport)
      && state.lastRequest.Some? && state.baseline == mon.basis.baseline
      && (c.work.stage != WorkerStage ==> !state.pendingDecision)
      && (c.work.stage == ReviewStage ==>
           mon.basis.pinned && mon.basis.pin.Some? && Same(state.reviewStart, mon.basis.pin))
      && (c.work.stage == ReviewStage ==> Same(c.work.workerResult, mon.basis.work))
    }

    /** The state files agree with the journal. */
    ghost predicate Linked()
      reads `mon, state`workerEnd, state`reviewStart, state`reportOnlyStart, state`lastReview, state`lastDecision
      reads state`pendingDecision, state`status, state`checkpoint, state`lastRequest, state`baseline
    {
      && (state.workerEnd.Some? ==> Same(state.workerEnd, mon.basis.workerEnd))
      && (state.reviewStart.Some? ==> Same(state.reviewStart, mon.basis.pin))
      && (state.reportOnlyStart.Some? ==> Same(state.reportOnlyStart, mon.basis.reportPin))
      && (mon.basis.reviews > 0 ==> state.lastReview.Some?)
      && (mon.basis.decisions > 0 ==> state.lastDecision.Some?)
      && (mon.basis.asked ==> state.pendingDecision)
      && (mon.basis.complete ==> state.status in {Complete, NoStatus}) &&
           (state.status == Complete ==> mon.basis.complete)
      && (state.status in {WaitingDecision, WaitingSolReview, Complete} ==> state.checkpoint == None)
      && (state.status == WaitingDecision ==> mon.basis.asked || mon.basis.decisions > 0)
      && CheckpointLinked()
    }

    /** Critical paths are counted from the task's own baseline. */
    ghost predicate BaselineLinked()
      reads `mon, state`status, state`baseline
    {
      state.status != NoStatus ==> state.baseline == mon.basis.baseline
    }

    ghost predicate CheckpointLinked()
      reads `mon, state`checkpoint, state`reviewStart, state`pendingDecision, state`lastRequest, state`baseline
    {
      state.checkpoint.Some? && Flagged(state.checkpoint.value) ==>
        && Grounded(state.checkpoint.value)
        && !(state.checkpoint.value.rateLimited && state.checkpoint.value.providerUnavailable)
        && (state.checkpoint.value.work.stage == ReviewStage ==> mon.stop == state.checkpoint.value.stopParentFiles)
    }

    /** Between commands, whatever the parent does to the repository. */
    ghost predicate Resting()
      reads this, state, world
    {
      BookLegal() && mon.calls == |world.runs| && Accounted() && Linked() && BaselineLinked() && !mon.tainted
    }

    ghost predicate Inv()
      reads this, state, world
    {
      Journaled() && Accounted() && Linked() && BaselineLinked() && !mon.tainted
    }

    ghost method Record(e: Event)
      requires BookLegal() && Allowed(TheRules(), mon, e)
      modifies `book, `mon
      ensures BookLegal() && Same(mon, Step(old(mon), e)) && Adds(e)
    {
      Extend(TheRules(), book, e);
      mon := Step(mon, e);
      book := Book(book.events + [e], book.monitors + [mon]);
    }

    /** A saved stop is entered with the parent files of the moment. */
    ghost method EnterStop()
      requires Journaled() && !mon.tainted && state.checkpoint.Some? && Grounded(state.checkpoint.value)
      requires !(state.checkpoint.value.rateLimited && state.checkpoint.value.providerUnavailable)
      requires var parents := state.checkpoint.value.stopParentFiles; parents.Some? ==>
        parents.value == world.repo.parents
      modifies `book, `mon
      ensures Journaled() && CheckpointLinked() && StopIsFresh() && !mon.tainted
      ensures Same(mon, old(mon).(stop := state.checkpoint.value.stopParentFiles, last := None, answer := None))
      ensures Adds(StopRecorded(mon.stop))
    {
      Record(StopRecorded(state.checkpoint.value.stopParentFiles));
    }

    ghost method EnterPin(snap: GitSnapshot)
      requires Journaled() && !mon.tainted && !mon.basis.complete
      requires mon.basis.workerEnd.Some? && Shows(TheRules(), mon, snap)
      modifies `book, `mon
      ensures Journaled() && Adds(ReviewPinned(snap))
      ensures Same(mon, old(mon).(basis := mon.basis, stop := None, last := None))
      ensures Same(mon.basis, old(mon.basis).(
        pin := Some(snap), pinned := EqualGitSnapshot(old(mon.basis.workerEnd.value), snap)))
    {
      Record(ReviewPinned(snap));
    }

    ghost method EnterReportPin(snap: GitSnapshot)
      requires Journaled() && !mon.tainted && !mon.basis.complete && mon.basis.report == Unpinned
      requires AsReviewed(mon, snap) && Shows(TheRules(), mon, snap)
      modifies `book, `mon
      ensures Journaled() && Adds(ReportOnlyPinned(snap))
      ensures Same(mon,
        old(mon).(basis := old(mon.basis).(reportPin := Some(snap), report := OnPin), answer := None, checked := false))
    {
      Record(ReportOnlyPinned(snap));
    }

    ghost method EnterReportAccepted(at: GitSnapshot)
      requires Journaled() && !mon.tainted && !mon.basis.complete && mon.basis.report == OnPin
      requires AsReportPinned(mon, at) && Shows(TheRules(), mon, at)
      modifies `book, `mon
      ensures Journaled() && Adds(ReportOnlyAccepted(at))
      ensures Same(mon, old(mon).(last := None, checked := true))
    {
      Record(ReportOnlyAccepted(at));
    }

    ghost method EnterFix(round: nat, reportOnly: bool)
      requires Journaled() && !mon.tainted && !mon.basis.complete
      requires round == mon.basis.rounds + 1 <= config.maxAutoFixRounds
      requires mon.last.Some? && mon.last.value.verdict == FixRequired
      modifies `book, `mon
      ensures Journaled() && Adds(FixStarted(round, reportOnly))
      ensures Same(mon.basis, old(mon.basis).(rounds := round, report := if reportOnly then Unpinned else NoReport))
      ensures Same(mon, old(mon).(basis := mon.basis, answer := None))
    {
      Record(FixStarted(round, reportOnly));
    }

    ghost method EnterReview(verdict: Status, floor: Option<Floor>)
      requires Journaled() && !mon.tainted && !mon.basis.complete
      requires AcceptanceAllowed(TheRules(), mon, verdict, floor, Capture(world.repo, world.ignored))
      modifies `book, `mon
      ensures Journaled() && Adds(ReviewAccepted(verdict, floor, Capture(world.repo, world.ignored)))
      ensures Same(mon.basis, old(mon.basis).(reviews := old(mon.basis.reviews) + 1))
      ensures Same(mon, old(mon).(basis := mon.basis, answer := None,
        last := Some(Accepted(verdict, Capture(world.repo, world.ignored)))))
    {
      Record(ReviewAccepted(verdict, floor, Capture(world.repo, world.ignored)));
    }

    ghost method EnterAnswer(status: Status)
      requires Journaled() && !mon.tainted && !mon.basis.complete && AnswerAllowed(mon, status)
      modifies `book, `mon
      ensures Journaled() && Adds(AnswerTaken(status))
      ensures Same(mon.basis, old(mon.basis).(report := NoReport, taken := true, asked := status == NeedsSolDecision))
      ensures Same(mon, old(mon).(basis := mon.basis, last := None, ready := true))
    {
      Record(AnswerTaken(status));
    }

    ghost method EnterBaseline(head: Option<string>)
      requires Journaled() && Linked() && !mon.tainted && !mon.basis.complete && mon.calls == 0
      requires state.baseline == head && (head.Some? ==> head.value == world.repo.head)
      requires state.checkpoint == None || !Flagged(state.checkpoint.value)
      modifies `book, `mon
      ensures Journaled() && Linked() && BaselineLinked() && !mon.tainted
      ensures Adds(BaselineTaken(head))
      ensures PhaseKept() && mon.basis.reviews == old(mon.basis.reviews)
      ensures mon.basis.decisions == old(mon.basis.decisions)
    {
      Record(BaselineTaken(head));
    }

    lemma PinIsWellCaptured()
      requires BookLegal() && mon.basis.pin.Some?
      ensures WellCaptured(mon.basis.pin.value, world.ignored)
    {
      History.PinsAreWellCaptured(TheRules(), book, |book.events|);
    }

    /** A command looks at the repository before anything else. */
    ghost method StartCommand()
      requires Resting()
      modifies `book, `mon, world`denied, world`blind, world`replies
      ensures Inv() && Same(mon.basis, old(mon.basis).(taken := false))
      ensures Same(mon.stop, old(mon.stop)) && mon.answer == None
      ensures !world.denied && !world.blind && world.replies == []
      ensures Adds(CommandStarted(world.repo))
    {
      world.BeginCommand();
      Record(CommandStarted(world.repo));
    }

    method EmitResult(r: Result)
      modifies `output
      ensures output == old(output) + [r]
    {
      output := output + [r];
    }

    /** This one entry was made. */
    twostate predicate Adds(new e: Event)
      reads `book
    {
      && |book.events| == |old(book.events)| + 1 && old(book.events) <= book.events
      && Same(book.events[|old(book.events)|], e)
    }

    /** Nothing was entered, or this entry came first. */
    twostate predicate NextEntry(new e: Event)
      reads `book
    {
      |old(book.events)| < |book.events| ==> Same(book.events[|old(book.events)|], e)
    }

    /** Nothing was entered, or these two came first, or only the first of them was made. */
    twostate predicate NextEntries(new e: Event, new f: Event)
      reads `book
    {
      && (|old(book.events)| < |book.events| ==> Same(book.events[|old(book.events)|], e))
      && (|old(book.events)| + 1 < |book.events| ==> Same(book.events[|old(book.events)| + 1], f))
    }

    /** The first thing entered is a call of this role. */
    twostate predicate CalledFirst(role: Role)
      reads `book
    {
      old(book.events) <= book.events && CalledAt(|old(book.events)|, role)
    }

    ghost predicate CalledAt(n: nat, role: Role)
      reads `book
    {
      n < |book.events| && book.events[n].ModelRun? && book.events[n].call.role == role
    }

    /** The first thing entered is this very call. */
    twostate predicate Made(new call: RunCall)
      reads `book
    {
      old(book.events) <= book.events && MadeAt(|old(book.events)|, call)
    }

    ghost predicate MadeAt(n: nat, call: RunCall)
      reads `book
    {
      n < |book.events| && book.events[n].ModelRun? && Same(book.events[n].call, call)
    }

    /** Completion, a request for a decision, a report-only round and taken answers stay as they were. */
    twostate predicate PhaseKept()
      reads `mon
    {
      && mon.basis.complete == old(mon.basis.complete) && mon.basis.asked == old(mon.basis.asked)
      && mon.basis.taken == old(mon.basis.taken) && mon.basis.report == old(mon.basis.report)
      && mon.basis.rounds == old(mon.basis.rounds)
    }

    /** Answers taken and fix rounds are as they were. */
    twostate predicate PaceKept()
      reads `mon
    {
      mon.basis.taken == old(mon.basis.taken) && mon.basis.rounds == old(mon.basis.rounds)
    }

    twostate predicate JournalKept()
      reads `book, `mon
    {
      Same(book, old(book)) && Same(mon, old(mon))
    }

    /** At most so many task calls were made; of calls, probes and failed preparations none is forgotten. */
    twostate predicate CallsAtMost(most: nat)
      reads world`runs, world`spent, world`probes
    {
      && |old(world.runs)| <= |world.runs| <= |old(world.runs)| + most && world.spent == old(world.spent)
      && |old(world.probes)| <= |world.probes|
    }

    twostate predicate NoCalls()
      reads world`runs, world`spent, world`probes
    {
      CallsAtMost(0) && Same(world.runs, old(world.runs))
    }

    // -------------------------------------------------------------- fail-closed stops

    /** A fail-closed stop went through: no checkpoint, waiting for Sol, one escalation printed. */
    twostate predicate StoppedForSol()
      reads `output, state`checkpoint, state`status
    {
      && state.checkpoint == None && state.status == WaitingSolReview
      && |output| == |old(output)| + 1 && old(output) <= output && output[|output| - 1].status == NeedsSolReview
    }

    /** It broke off at a write: nothing was printed, and at most the checkpoint is gone. */
    twostate predicate StopBroken()
      reads `output, state`checkpoint, state`status, state`fault
    {
      state.fault && Same(output, old(output)) && state.status == old(state.status)
      && (state.checkpoint == None || Same(state.checkpoint, old(state.checkpoint)))
    }

    twostate predicate Untouched()
      reads `output, state`checkpoint, state`status
    {
      Same(output, old(output)) && Same(state.checkpoint, old(state.checkpoint)) && state.status == old(state.status)
    }

    /** An escalation the wrapper itself issues; its wording is not modelled. */
    function Escalation(artifacts: seq<string>): Result {
      EMPTY_RESULT.(status := NeedsSolReview, risk := Packets.High, artifacts := artifacts)
    }

    method FailClosedStopped() returns (err: Option<Error>)
      modifies `output, state`checkpoint, state`status, state`fault
      ensures err == None ==> StoppedForSol() && (old(state.fault) ==> state.fault)
      ensures err != None ==> err == Some(WorkerError) && StopBroken()
    {
      var ok := state.ClearResumeCheckpoint();
      if !ok { return Some(WorkerError); }
      ok := state.SetTaskStatus(WaitingSolReview);
      if !ok { return Some(WorkerError); }
      EmitResult(Escalation([]));
      return None;
    }

    method FailClosedSnapshot() returns (err: Option<Error>)
      requires Accounted()
      modifies `output, state`checkpoint, state`status, state`fault, state`telemetry
      ensures Accounted()
      ensures err == None ==> StoppedForSol() && (old(state.fault) ==> state.fault)
      ensures err != None ==> err == Some(WorkerError) && StopBroken()
    {
      state.RecordModelCallLog(EventRecord(SnapshotEvent));
      err := FailClosedStopped();
    }

    method FailClosedParentFileGuard() returns (err: Error)
      modifies `output, state`checkpoint, state`status, state`fault, state`telemetry
      ensures TaskCalls(state.telemetry) == old(TaskCalls(state.telemetry))
      ensures ProbeCalls(state.telemetry) == old(ProbeCalls(state.telemetry))
      ensures err == GuardStopped ==> StoppedForSol() && (old(state.fault) ==> state.fault)
      ensures err != GuardStopped ==> err == WorkerError && StopBroken()
    {
      state.RecordModelCallLog(EventRecord(ParentMetadataEvent));
      var failed := FailClosedStopped();
      err := if failed == None then GuardStopped else WorkerError;
    }

    // -------------------------------------------------------------- parent-managed files

    /** What a guard taken now promises to notice. */
    ghost predicate GuardFits(guard: Guard, role: Role, parents: Parents) {
      && (guard.guarded <==> role == Worker)
      && (role == Worker ==> (guard.planOnly <==> PlanFile !in parents))
      && (role == Worker && !guard.planOnly ==> guard.files == parents)
    }

    /** Nothing git tracks of the parent-managed files is missing from the working tree. */
    ghost predicate ParentsPresent()
      reads world`repo, state`activeTask
    {
      var repo := world.repo;
      && (world.insideGit && PlanFile in repo.tracked ==> PlanFile in repo.parents)
      && (PlanFile in repo.parents ==>
            && (world.insideGit && RulesFile in repo.tracked ==> RulesFile in repo.parents)
            && (world.insideGit && HistoryFile in repo.tracked ==> HistoryFile in repo.parents)
            && (world.insideGit ==> forall p :: p in repo.tracked && p.TaskFile? ==> p in repo.parents)
            && (state.activeTask.Some? && state.activeTask.value.Wired? ==>
                 state.activeTask.value.path in repo.parents))
    }

    /** Taken right before a worker call; a reviewer call needs none. Stops before the call when the
        files, or their tracking, cannot be established. */
    method CaptureParentFileGuard(role: Role) returns (guard: Guard, stop: Option<Error>)
      modifies `output, state`checkpoint, state`status, state`fault, state`telemetry, world`blind
      ensures TaskCalls(state.telemetry) == old(TaskCalls(state.telemetry))
      ensures ProbeCalls(state.telemetry) == old(ProbeCalls(state.telemetry))
      ensures stop == None ==> Untouched() && state.fault == old(state.fault)
      ensures stop == None ==> GuardFits(guard, role, world.repo.parents) && (role == Worker ==> ParentsPresent())
      ensures stop == Some(GuardStopped) ==> StoppedForSol() && (old(state.fault) ==> state.fault)
      ensures stop.Some? && stop != Some(GuardStopped) ==> stop == Some(WorkerError) && StopBroken()
      ensures role == Reviewer ==> stop == None
      ensures stop.Some? && !world.blind ==> !ParentsPresent()
    {
      guard := Guard(map[], false, false);
      if role != Worker { return guard, None; }
      var listing := world.ReadParentFileStates();
      if listing == None {
        var e := FailClosedParentFileGuard();
        return guard, Some(e);
      }
      if PlanFile !in listing.value {
        var tracking := world.ClassifyTracking(PlanFile);
        if tracking == None || tracking == Some(Tracked) {
          var e := FailClosedParentFileGuard();
          return guard, Some(e);
        }
        return Guard(map[], true, true), None;
      }
      var missing := TrackedFilesMissing(listing.value);
      if missing {
        var e := FailClosedParentFileGuard();
        return guard, Some(e);
      }
      return Guard(listing.value, true, false), None;
    }

    /** With a plan in place: is a tracked root file, a tracked task file or the task's own file gone,
        or git unable to tell? */
    method TrackedFilesMissing(listing: Parents) returns (missing: bool)
      requires listing == world.repo.parents && PlanFile in listing
      modifies world`blind
      ensures old(world.blind) ==> world.blind
      ensures !missing ==> ParentsPresent()
      ensures missing && !world.blind ==> !ParentsPresent()
    {
      var names := [RulesFile, HistoryFile];
      for i := 0 to 2
        invariant old(world.blind) ==> world.blind
        invariant forall k :: 0 <= k < i ==> (world.insideGit && names[k] in world.repo.tracked ==> names[k] in listing)
      {
        if names[i] !in listing {
          var tracking := world.ClassifyTracking(names[i]);
          if tracking == None || tracking == Some(Tracked) { return true; }
        }
      }
      assert names[0] == RulesFile && names[1] == HistoryFile;
      var gone := world.MissingTrackedTaskFiles(listing);
      if gone == None || gone.value != {} { return true; }
      assert world.insideGit ==> forall p :: p in world.repo.tracked && p.TaskFile? && p !in listing ==>
        p in gone.value;
      if state.activeTask.Some? && state.activeTask.value.Wired? {
        var there := world.IsRegularFile(state.activeTask.value.path);
        return !there;
      }
      return false;
    }

    /** Are the guarded files as they were before the worker's call? */
    method GuardHolds(role: Role, guard: Guard, ghost before: Parents) returns (holds: bool)
      requires GuardFits(guard, role, before)
      modifies world`blind
      ensures holds ==> world.blind == old(world.blind) && !(role == Worker && GuardBroken(before, world.repo.parents))
      ensures !holds && !world.blind ==> role == Worker && GuardBroken(before, world.repo.parents)
    {
      if role != Worker || !guard.guarded { return true; }
      var after := world.ReadParentFileStates();
      if after == None { return false; }
      holds := if guard.planOnly then PlanFile !in after.value else guard.files == after.value;
    }

    /** Right after a worker call: any change to the guarded files stops the command before a reviewer
        sees the result. The call is logged here exactly when it stops. */
    method VerifyParentFileAfterCall(c: Checkpoint, guard: Guard, ghost before: Parents, ghost reply: RunReply)
      returns (stop: Option<Error>)
      requires Journaled() && CameBack(c, reply) && Grounded(c) && GuardFits(guard, c.work.role, before)
      requires state.checkpoint == Some(c) && !Flagged(c) && mon.last == None
      requires mon.tainted <==> c.work.role == Worker && GuardBroken(before, world.repo.parents)
      requires book.events[|book.events| - 1].before.parents == before
      requires book.events[|book.events| - 1].after.parents == world.repo.parents
      modifies this, state`checkpoint, state`status, state`fault, state`telemetry, world`blind
      ensures if stop == None then Same(book.events, old(book.events)) else Adds(GuardTripped)
      ensures Journaled() && CheckpointLinked() && !mon.tainted && Same(mon.basis, old(mon.basis))
      ensures stop == None ==> CameBack(c, reply) && Grounded(c) && Untouched() && state.fault == old(state.fault)
      ensures stop == None ==> !old(mon.tainted)
      ensures stop.Some? ==> Accounted() && Exited(c, stop.value) && Because(c, stop.value)
      ensures stop != Some(ProviderStop)
      ensures stop.Some? && !world.blind ==> old(mon.tainted)
    {
      var holds := GuardHolds(c.work.role, guard, before);
      if holds { return None; }
      var e := StopForGuard(c);
      stop := Some(e);
    }

    method StopForGuard(c: Checkpoint) returns (err: Error)
      requires Journaled() && Owing(CallOf(c)) && state.checkpoint == Some(c) && !Flagged(c)
      requires !mon.basis.complete && mon.last == None
      modifies this, state`checkpoint, state`status, state`fault, state`telemetry
      ensures Journaled() && Accounted() && Same(mon, old(mon).(tainted := false, answer := None))
      ensures Adds(GuardTripped)
      ensures Exited(c, err) && (if err == GuardStopped then StoppedForSol() else err == WorkerError && state.fault)
      ensures state.checkpoint == None || Same(state.checkpoint, old(state.checkpoint))
    {
      Record(GuardTripped);
      state.RecordModelCallLog(TaskRecord(CallOf(c), ParentMetadata));
      err := FailClosedParentFileGuard();
    }

    /** What a reply's texts say together. */
    function SignalOf(reply: RunReply): Signal {
      MergePlainFailureClass(reply.fileSignal, reply.plainSignal)
    }

    /** A failed call answered nothing. */
    function OutputOf(reply: RunReply): Option<Result> {
      if reply.failed then None else reply.output
    }

    function CallOf(c: Checkpoint): RunCall {
      RunCall(c.work.role, c.phase, c.work.model, c.work.readOnly)
    }

    // -------------------------------------------------------------- resumable stops

    /** The checkpoint and status of a resumable stop of this very work. */
    ghost predicate StoppedAt(c: Checkpoint, limit: bool)
      reads state`checkpoint, state`status
    {
      && state.checkpoint.Some?
      && state.checkpoint.value.work == c.work
      && state.checkpoint.value.rateLimited == limit && state.checkpoint.value.providerUnavailable == !limit
      && state.status == if limit then RateLimited else ProviderUnavailable
    }

    function Stopped(c: Checkpoint, limit: bool, parents: Option<Parents>): Checkpoint {
      c.(rateLimited := limit, providerUnavailable := !limit, stopParentFiles := parents)
    }

    /** How a command's call can end without a result. Without a failed write, an ordinary error leaves
        status and checkpoint as they were, or at most an unflagged or no checkpoint. */
    twostate predicate Exited(new c: Checkpoint, new error: Error)
      reads `output, state`checkpoint, state`status, state`fault
    {
      && (old(state.fault) ==> state.fault)
      && match error
         case GuardStopped => StoppedForSol()
         case RateLimitStop => Same(output, old(output)) && StoppedAt(c, true)
         case ProviderStop => Same(output, old(output)) && StoppedAt(c, false)
         case WorkerError =>
           && Same(output, old(output))
           && state.status in {old(state.status), RateLimited, ProviderUnavailable}
           && (state.fault ||
               (state.status == old(state.status) &&
                (Same(state.checkpoint, old(state.checkpoint)) || state.checkpoint == None ||
                  !Flagged(state.checkpoint.value))))
    }

    /** The stop is saved with the parent files of the moment, if they could be read, and entered so. */
    ghost predicate StopIsFresh()
      reads `mon, state`checkpoint, world`repo
    {
      && state.checkpoint.Some? && mon.stop == state.checkpoint.value.stopParentFiles
      && (mon.stop.Some? ==> mon.stop.value == world.repo.parents)
    }

    twostate predicate StopEntered()
      reads `book
    {
      old(book.events) <= book.events && |book.events| == |old(book.events)| + 1
      && book.events[|old(book.events)|].StopRecorded?
    }

    /** Save the checkpoint as stopped and journal its parent files, then the status. */
    method PersistStop(c: Checkpoint, limit: bool) returns (ok: bool)
      requires Journaled() && !mon.tainted && Grounded(c) && CheckpointLinked()
      modifies `book, `mon, state`checkpoint, state`status, state`fault
      ensures old(book.events) <= book.events
      ensures Journaled() && !mon.tainted && CheckpointLinked() && Same(mon.basis, old(mon.basis))
      ensures mon.calls == old(mon.calls)
      ensures ok ==> StoppedAt(c, limit) && StopIsFresh() && state.fault == old(state.fault) && StopEntered()
      ensures !ok ==> state.fault && state.status == old(state.status)
      ensures Same(state.checkpoint, old(state.checkpoint)) || StopIsFresh()
    {
      ok := SaveStop(c, limit);
      if ok {
        ok := state.SetTaskStatus(if limit then RateLimited else ProviderUnavailable);
      }
    }

    method SaveStop(c: Checkpoint, limit: bool) returns (ok: bool)
      requires Journaled() && !mon.tainted && Grounded(c) && CheckpointLinked()
      modifies `book, `mon, state`checkpoint, state`fault
      ensures old(book.events) <= book.events
      ensures Journaled() && !mon.tainted && CheckpointLinked() && Same(mon.basis, old(mon.basis))
      ensures mon.calls == old(mon.calls)
      ensures ok ==> state.checkpoint == Some(Stopped(c, limit, mon.stop)) && StopIsFresh()
      ensures ok ==> state.fault == old(state.fault) && StopEntered()
      ensures !ok ==> state.fault && Same(state.checkpoint, old(state.checkpoint))
    {
      var parents := world.ParentFilesToKeep();
      ok := state.SaveResumeCheckpoint(Stopped(c, limit, parents));
      if ok { EnterStop(); }
    }

    /** A task call hit the five-hour limit: keep the session, stop resumably, log the call once. */
    method SaveRateLimitedState(c: Checkpoint) returns (err: Error)
      requires Journaled() && Owing(CallOf(c)) && !mon.tainted && Grounded(c) && CheckpointLinked()
      modifies `book, `mon, state`checkpoint, state`status, state`fault, state`telemetry
      ensures old(book.events) <= book.events
      ensures Journaled() && Accounted() && !mon.tainted && CheckpointLinked() && Same(mon.basis, old(mon.basis))
      ensures Exited(c, err) && err in {RateLimitStop, WorkerError} && (err == WorkerError ==> state.fault)
      ensures err == RateLimitStop ==> StopEntered()
      ensures state.telemetry ==
        Line(old(state.telemetry), TaskRecord(CallOf(c), if err == RateLimitStop then RateLimitedCall else StateError))
    {
      var ok := KeepStopped(c);
      state.RecordModelCallLog(TaskRecord(CallOf(c), if ok then RateLimitedCall else StateError));
      err := if ok then RateLimitStop else WorkerError;
    }

    /** Keep the session, save the stop, secure what the call wrote. */
    method KeepStopped(c: Checkpoint) returns (ok: bool)
      requires Journaled() && !mon.tainted && Grounded(c) && CheckpointLinked()
      modifies `book, `mon, state`checkpoint, state`status, state`fault
      ensures old(book.events) <= book.events
      ensures Journaled() && !mon.tainted && CheckpointLinked() && Same(mon.basis, old(mon.basis))
      ensures mon.calls == old(mon.calls)
      ensures Exited(c, if ok then RateLimitStop else WorkerError) && (if ok then StopEntered() else state.fault)
    {
      ok := state.TouchOther();
      if ok { ok := PersistStop(c, true); }
      if ok { ok := state.TouchOther(); }
    }

    /** A probe hit the five-hour limit: stop resumably; the probe is already logged. */
    method SaveProbeRateLimited(c: Checkpoint) returns (err: Error)
      requires Journaled() && !mon.tainted && Grounded(c) && CheckpointLinked()
      modifies `book, `mon, state`checkpoint, state`status, state`fault
      ensures old(book.events) <= book.events
      ensures Journaled() && !mon.tainted && CheckpointLinked() && Same(mon.basis, old(mon.basis))
      ensures mon.calls == old(mon.calls)
      ensures Exited(c, err) && err in {RateLimitStop, WorkerError} && (err == WorkerError ==> state.fault)
      ensures err == RateLimitStop ==> StopEntered()
    {
      var ok := PersistStop(c, true);
      if ok {
        ok := state.TouchOther();
      }
      err := if ok then RateLimitStop else WorkerError;
    }

    /** Recovery is exhausted: stop resumably as provider-unavailable. */
    method SaveProviderUnavailable(c: Checkpoint) returns (err: Error)
      requires Journaled() && Accounted() && !mon.tainted && Grounded(c) && CheckpointLinked()
      modifies `book, `mon, state`checkpoint, state`status, state`fault, state`telemetry
      ensures old(book.events) <= book.events
      ensures Journaled() && Accounted() && !mon.tainted && CheckpointLinked() && Same(mon.basis, old(mon.basis))
      ensures Exited(c, err) && err in {ProviderStop, WorkerError}
      ensures if err == WorkerError then state.fault else StopEntered()
    {
      var ok := PersistStop(c, false);
      if !ok { return WorkerError; }
      state.RecordModelCallLog(EventRecord(ProviderUnavailableEvent));
      return ProviderStop;
    }

    // -------------------------------------------------------------- why a call ends without a result

    /** The last entry is a call of this role. */
    ghost predicate JustCalled(role: Role)
      reads `book
    {
      book.events != [] && CalledAt(|book.events| - 1, role)
    }

    /** The last entry is a stop. */
    ghost predicate EndsInStop()
      reads `book
    {
      book.events != [] && book.events[|book.events| - 1].StopRecorded?
    }

    /** The last entry is a call, or the stop saved right after it. */
    ghost predicate EndsInCall(stops: nat)
      reads `book
    {
      var n := |book.events|;
      || (n > 0 && book.events[n - 1].ModelRun?)
      || (stops > 0 && n > 1 && book.events[n - 1].StopRecorded? && book.events[n - 2].ModelRun?)
    }

    /** The last entry is the guard's, over a worker call that broke the parent-file contract. */
    ghost predicate Tripped()
      reads `book
    {
      var n := |book.events|;
      && n > 1 && book.events[n - 1].GuardTripped? && CalledAt(n - 2, Worker)
      && GuardBroken(book.events[n - 2].before.parents, book.events[n - 2].after.parents)
    }

    predicate FailedWith(reply: RunReply, signal: Signal) {
      reply.failed && SignalOf(reply) == signal
    }

    /** The last entry is a call of this role that failed transiently. */
    ghost predicate Unanswered(role: Role)
      reads `book, world`lastReply
    {
      JustCalled(role) && FailedWith(world.lastReply, Transient)
    }

    /** A reply without a result that could be taken: the call failed, its output broke the schema, or a corrected
        output still broke a rule. */
    predicate Unusable(call: RunCall, reply: RunReply) {
      || reply.failed || reply.output == None || VerdictFor(call.role, reply.output.value) == Mismatch
      || (call.phase.Corrected? &&
           (VerdictFor(call.role, reply.output.value) == Constraint || !reply.artifactsValid))
    }

    /** The last reply is not usable. */
    ghost predicate NothingUsable()
      reads world`runs, world`lastReply
    {
      world.lastReply.failed || (world.runs != [] && Unusable(world.runs[|world.runs| - 1], world.lastReply))
    }

    /** A probe was made meanwhile. */
    ghost predicate Probed()
      reads world`replies
    {
      world.replies != []
    }

    /** What the last probe was answered. */
    ghost predicate ProbeLimited()
      reads world`replies
    {
      world.replies != [] && Limited(world.replies[|world.replies| - 1])
    }

    ghost predicate ProbeRetryable()
      reads world`replies
    {
      world.replies != [] && Retryable(world.replies[|world.replies| - 1])
    }

    ghost predicate ProbeFatal()
      reads world`replies
    {
      world.replies != [] && Refuses(world.replies[|world.replies| - 1])
    }

    ghost predicate ProbeAnswered()
      reads world`replies
    {
      world.replies != [] && world.replies[|world.replies| - 1].ProbeOk?
    }

    /** The five-hour limit was met, by the last call or by a probe. */
    ghost predicate LimitMet()
      reads `book, world`lastReply, world`replies
    {
      EndsInStop() && ((EndsInCall(1) && FailedWith(world.lastReply, FiveHour)) || (ProbeLimited()))
    }

    /** Why a call ended without a result, unless a write failed. */
    ghost predicate Because(c: Checkpoint, error: Error)
      reads `book, state`fault, state`activeTask, world`repo, world`blind, world`denied, world`runs
      reads world`lastReply, world`replies
    {
      state.fault ||
      match error
      case GuardStopped => world.blind || !ParentsPresent() || Tripped()
      case RateLimitStop => LimitMet()
      case ProviderStop => EndsInStop() && EndsInCall(1) && FailedWith(world.lastReply, Transient)
      case WorkerError =>
        world.denied || c.work.model == "" || (EndsInCall(0) && NothingUsable())
    }

    /** Why a gate did not open, unless a write failed. */
    ghost predicate GateBecause(error: Error)
      reads `book, state`fault, world`replies
    {
      state.fault ||
      match error
      case GuardStopped => false
      case RateLimitStop => EndsInStop() && ProbeLimited()
      case ProviderStop => EndsInStop() && ProbeRetryable()
      case WorkerError => ProbeFatal()
    }

    // -------------------------------------------------------------- one call, and recovery from transient failures

    /** Count one task call, make it, and re-check the parent-managed files. */
    method CallModel(c: Checkpoint, guard: Guard) returns (reply: RunReply, stop: Option<Error>)
      requires Journaled() && Accounted() && !mon.tainted && Grounded(c)
      requires state.checkpoint == Some(c) && !Flagged(c) && GuardFits(guard, c.work.role, world.repo.parents)
      modifies this, state`checkpoint, state`status, state`fault, state`telemetry, state`stats
      modifies world`repo, world`runs, world`lastReply, world`blind
      ensures Journaled() && !mon.tainted && CheckpointLinked() && Same(mon.basis, old(mon.basis)) && CallsAtMost(1)
      ensures Made(CallOf(c)) && old(book.events) <= book.events
      ensures NextEntry(ModelRun(CallOf(c), old(world.repo), world.repo, OutputOf(reply)))
      ensures world.runs == old(world.runs) + [CallOf(c)]
      ensures stop == None ==> CameBack(c, reply) && Grounded(c) && Untouched() && state.fault == old(state.fault)
      ensures stop == None && c.work.role == Worker ==> !GuardBroken(old(world.repo.parents), world.repo.parents)
      ensures stop.Some? ==> Accounted() && Exited(c, stop.value) && Because(c, stop.value)
      ensures stop != Some(ProviderStop)
    {
      ghost var before := world.repo;
      reply := PlaceCall(c);
      stop := VerifyParentFileAfterCall(c, guard, before.parents, reply);
    }

    method PlaceCall(c: Checkpoint) returns (reply: RunReply)
      requires Journaled() && Accounted() && !mon.tainted && Grounded(c)
      modifies `book, `mon, state`stats, world`repo, world`runs, world`lastReply
      ensures Journaled() && Same(mon.basis, old(mon.basis)) && mon.last == None
      ensures mon.tainted <==> c.work.role == Worker && GuardBroken(old(world.repo.parents), world.repo.parents)
      ensures CameBack(c, reply) && Grounded(c) && world.runs == old(world.runs) + [CallOf(c)]
      ensures Adds(ModelRun(CallOf(c), old(world.repo), world.repo, OutputOf(reply)))
    {
      ghost var before := world.repo;
      state.RecordModelCall(c.work.role);
      reply := world.Run(CallOf(c));
      Record(ModelRun(CallOf(c), before, world.repo, OutputOf(reply)));
    }

    /** The task call that follows a successful probe. */
    method RunResumedTask(c: Checkpoint) returns (r: Resumed)
      requires Journaled() && Accounted() && !mon.tainted && Grounded(c)
      requires state.checkpoint == Some(c) && !Flagged(c)
      modifies this, state`checkpoint, state`status, state`fault, state`telemetry, state`stats
      modifies world`repo, world`runs, world`lastReply, world`blind
      ensures old(book.events) <= book.events
      ensures Journaled() && !mon.tainted && CheckpointLinked() && Same(mon.basis, old(mon.basis))
      ensures CallsAtMost(1)
      ensures Made(CallOf(c)) || (r.Dead? && Same(book.events, old(book.events)) && StoppedBefore(c))
      ensures r.RetryLater? ==> Unanswered(c.work.role)
      ensures r.Dead? ==> Because(c, r.error)
      ensures r.Back? ==> CameBack(c, r.reply) && !r.reply.failed && Untouched() && state.fault == old(state.fault)
      ensures !r.Back? ==> Accounted()
      ensures r.RetryLater? ==> Untouched() && state.fault == old(state.fault)
      ensures r.Dead? ==> Exited(c, r.error) && r.error != ProviderStop
    {
      var guard, stop := CaptureParentFileGuard(c.work.role);
      if stop.Some? { return Dead(stop.value); }
      state.RecordTransientRetry();
      r := CallAgain(c, guard);
    }

    method CallAgain(c: Checkpoint, guard: Guard) returns (r: Resumed)
      requires Journaled() && Accounted() && !mon.tainted && Grounded(c)
      requires state.checkpoint == Some(c) && !Flagged(c) && GuardFits(guard, c.work.role, world.repo.parents)
      modifies this, state`checkpoint, state`status, state`fault, state`telemetry, state`stats
      modifies world`repo, world`runs, world`lastReply, world`blind
      ensures old(book.events) <= book.events
      ensures Journaled() && !mon.tainted && CheckpointLinked() && Same(mon.basis, old(mon.basis))
      ensures CallsAtMost(1)
      ensures Made(CallOf(c)) || (r.Dead? && Same(book.events, old(book.events)) && StoppedBefore(c))
      ensures r.RetryLater? ==> Unanswered(c.work.role)
      ensures r.Dead? ==> Because(c, r.error)
      ensures r.Back? ==> CameBack(c, r.reply) && !r.reply.failed && Untouched() && state.fault == old(state.fault)
      ensures !r.Back? ==> Accounted()
      ensures r.RetryLater? ==> Untouched() && state.fault == old(state.fault)
      ensures r.Dead? ==> Exited(c, r.error) && r.error != ProviderStop
    {
      var reply, stop := CallModel(c, guard);
      if stop.Some? { return Dead(stop.value); }
      r := SettleAgain(c, reply);
    }

    method SettleAgain(c: Checkpoint, reply: RunReply) returns (r: Resumed)
      requires Journaled() && CameBack(c, reply) && !mon.tainted && Grounded(c) && CheckpointLinked()
      modifies `book, `mon, state`checkpoint, state`status, state`fault, state`telemetry
      ensures old(book.events) <= book.events
      ensures Journaled() && !mon.tainted && CheckpointLinked() && Same(mon.basis, old(mon.basis))
      ensures r.RetryLater? ==> Unanswered(c.work.role)
      ensures r.Dead? ==> Because(c, r.error)
      ensures r.Back? ==> r == Back(reply) && CameBack(c, reply) && !reply.failed && JournalKept()
      ensures !r.Back? ==> Accounted()
      ensures !r.Dead? ==> Untouched() && state.fault == old(state.fault)
      ensures r.Dead? ==> Exited(c, r.error) && r.error != ProviderStop
    {
      if !reply.failed { return Back(reply); }
      r := ClassifyResumedFailure(c, reply);
    }

    /** A resumed call failed: stop at a five-hour limit, give up on an ordinary error, try again on a
        transient one; log it in every case. */
    method ClassifyResumedFailure(c: Checkpoint, reply: RunReply) returns (r: Resumed)
      requires Journaled() && CameBack(c, reply) && !mon.tainted && Grounded(c) && CheckpointLinked() && reply.failed
      modifies `book, `mon, state`checkpoint, state`status, state`fault, state`telemetry
      ensures old(book.events) <= book.events
      ensures Journaled() && Accounted() && !mon.tainted && CheckpointLinked() && Same(mon.basis, old(mon.basis))
      ensures r.RetryLater? ==> Unanswered(c.work.role)
      ensures r.Dead? ==> Because(c, r.error)
      ensures r == RetryLater <==> SignalOf(reply) == Transient
      ensures SignalOf(reply) == FiveHour ==> r == Dead(RateLimitStop) || (r == Dead(WorkerError) && state.fault)
      ensures SignalOf(reply) !in {FiveHour, Transient} ==> r == Dead(WorkerError)
      ensures !r.Back?
      ensures r.RetryLater? ==> Untouched() && state.fault == old(state.fault)
      ensures r.Dead? ==> Exited(c, r.error) && r.error != ProviderStop
    {
      var signal := SignalOf(reply);
      if signal == FiveHour {
        var e := SaveRateLimitedState(c);
        return Dead(e);
      }
      state.RecordModelCallLog(TaskRecord(CallOf(c), if signal == Transient then TransientError else CallError));
      return if signal == Transient then RetryLater else Dead(WorkerError);
    }

    /** The next wait, cut off at the deadline; none when the schedule or the time is used up. */
    method BackoffWait(step: nat, deadline: int) returns (wait: int, ok: bool)
      modifies world`now
      ensures world.now >= old(world.now)
      ensures ok ==> 0 < wait && world.now + wait <= deadline && step < BACKOFF_STEPS
      ensures ok ==> wait <= Backoff(step) + Backoff(step) / 4
      ensures ok ==> (Backoff(step) <= wait || world.now + wait == deadline)
      ensures !ok ==> step >= BACKOFF_STEPS || world.now >= deadline
    {
      if step >= BACKOFF_STEPS { return 0, false; }
      var t := world.Now();
      var remaining := deadline - t;
      if remaining <= 0 { return 0, false; }
      wait := world.Jitter(Backoff(step));
      if wait > remaining { wait := remaining; }
      ok := true;
    }

    method RecordProbeCall(call: ProbeCall, succeeded: bool)
      requires TaskCalls(state.telemetry) == world.runs
      requires ProbeCalls(state.telemetry) + [call] == world.probes
      requires state.stats.modelCalls == |world.runs| == state.stats.workerCalls + state.stats.reviewerCalls
      requires state.stats.probeSuccesses + state.stats.probeFailures + 1 == |world.probes|
      modifies state`telemetry, state`stats
      ensures Accounted() && state.telemetry == Line(old(state.telemetry), ProbeRecord(call, succeeded))
      ensures state.stats.probeSuccesses == old(state.stats.probeSuccesses) + (if succeeded then 1 else 0)
    {
      state.RecordProbeOutcome(succeeded);
      state.RecordModelCallLog(ProbeRecord(call, succeeded));
    }

    /** One probe: counted, logged, and classified five-hour limit first, then transient, then fatal. */
    method ProbeOnce(c: Checkpoint, attempt: nat) returns (r: Probed, ghost reply: ProbeReply)
      requires Journaled() && Accounted() && !mon.tainted && Grounded(c) && CheckpointLinked()
      modifies `book, `mon, state`checkpoint, state`status, state`fault, state`telemetry, state`stats
      modifies world`probes, world`replies
      ensures old(book.events) <= book.events
      ensures Journaled() && Accounted() && !mon.tainted && CheckpointLinked() && Same(mon.basis, old(mon.basis))
      ensures NoCalls()
      ensures |world.probes| == |old(world.probes)| + 1 && world.replies == old(world.replies) + [reply]
      ensures r == ProbeStopped(WorkerError) ==> state.fault || (Refuses(reply) && Same(book.events, old(book.events)))
      ensures r == ProbeStopped(RateLimitStop) ==> StopEntered() && Limited(reply)
      ensures !r.ProbeStopped? ==> Untouched() && state.fault == old(state.fault) && JournalKept()
      ensures r.ProbeStopped? ==> Exited(c, r.error) && r.error in {RateLimitStop, WorkerError}
      ensures r == Answered <==> reply.ProbeOk?
      ensures r == TryAgain <==> Retryable(reply)
      ensures state.stats.probeSuccesses == old(state.stats.probeSuccesses) + (if reply.ProbeOk? then 1 else 0)
      ensures reply.ProbeError? && reply.signal == FiveHour ==> r == ProbeStopped(RateLimitStop) || state.fault
      ensures state.telemetry ==
        Line(old(state.telemetry), ProbeRecord(ProbeCall(c.phase, c.work.model, attempt), reply.ProbeOk?))
    {
      var call := ProbeCall(c.phase, c.work.model, attempt);
      var answer := world.Probe(call);
      reply := answer;
      RecordProbeCall(call, answer.ProbeOk?);
      r := ClassifyProbe(c, answer);
    }

    method ClassifyProbe(c: Checkpoint, reply: ProbeReply) returns (r: Probed)
      requires Journaled() && Accounted() && !mon.tainted && Grounded(c) && CheckpointLinked()
      modifies `book, `mon, state`checkpoint, state`status, state`fault
      ensures old(book.events) <= book.events
      ensures Journaled() && Accounted() && !mon.tainted && CheckpointLinked() && Same(mon.basis, old(mon.basis))
      ensures r == ProbeStopped(WorkerError) ==> state.fault || (Refuses(reply) && Same(book.events, old(book.events)))
      ensures r == ProbeStopped(RateLimitStop) ==> StopEntered() && Limited(reply)
      ensures !r.ProbeStopped? ==> Untouched() && state.fault == old(state.fault) && JournalKept()
      ensures r.ProbeStopped? ==> Exited(c, r.error) && r.error in {RateLimitStop, WorkerError}
      ensures r == Answered <==> reply.ProbeOk?
      ensures r == TryAgain <==> Retryable(reply)
      ensures reply.ProbeError? && reply.signal == FiveHour ==> r == ProbeStopped(RateLimitStop) || state.fault
    {
      if reply.ProbeOk? { return Answered; }
      if reply.signal == FiveHour {
        var e := SaveProbeRateLimited(c);
        return ProbeStopped(e);
      }
      if reply.signal == Transient { return TryAgain; }
      if reply.invalidResponse && !reply.fatalSignal { return TryAgain; }
      return ProbeStopped(WorkerError);
    }

    /** Wait for the next probe, unless the schedule or the three hours are used up. */
    method WaitForProbe(step: nat, deadline: int) returns (ok: bool, napped: bool)
      modifies world`now, world`naps, world`lastWake, world`slept
      ensures ok ==> napped && world.now <= deadline && step < BACKOFF_STEPS
      ensures !ok ==> step >= BACKOFF_STEPS || world.now >= deadline
      ensures Waited(deadline, napped) && (napped ==> NappedAsScheduled(step, deadline))
    {
      var wait, due := BackoffWait(step, deadline);
      if !due { return false, false; }
      world.Sleep(wait);
      var t := world.Now();
      return t <= deadline, true;
    }

    /** One sleep or none, within the time left. */
    twostate predicate Waited(deadline: int, napped: bool)
      reads world
    {
      && world.now >= old(world.now) + (world.slept - old(world.slept)) && world.slept >= old(world.slept)
      && (world.lastWake == old(world.lastWake) || world.lastWake <= deadline)
      && |world.naps| == |old(world.naps)| + (if napped then 1 else 0)
      && (napped ==> old(world.now) + (world.slept - old(world.slept)) <= deadline)
      && (!napped ==> world.slept == old(world.slept))
    }

    /** The sleep before a probe follows the schedule, with up to a quarter more, or is cut off at the deadline. */
    twostate predicate NappedAsScheduled(step: nat, deadline: int)
      reads world
    {
      && |world.naps| == |old(world.naps)| + 1 && old(world.naps) <= world.naps && step < BACKOFF_STEPS
      && var nap := world.naps[|old(world.naps)|];
      && old(world.now) <= nap.at && nap.at + nap.wait <= deadline && nap.probes == |old(world.probes)|
      && 0 < nap.wait <= Backoff(step) + Backoff(step) / 4
      && (Backoff(step) <= nap.wait || nap.at + nap.wait == deadline)
    }

    /** A gate's first probe needs no wait. */
    method TakeTurn(atOnce: bool, sleeps: nat, deadline: int) returns (go: bool, napped: bool)
      modifies world`now, world`naps, world`lastWake, world`slept
      ensures Waited(deadline, napped) && (napped ==> NappedAsScheduled(sleeps, deadline))
      ensures go ==> napped == !atOnce
      ensures !go ==> !atOnce && (sleeps >= BACKOFF_STEPS || world.now >= deadline)
    {
      if atOnce { return true, false; }
      go, napped := WaitForProbe(sleeps, deadline);
    }

    /** One probe and, when it succeeds, the resumed task call; a gate wants only the probe. */
    method ProbeAndResume(c: Checkpoint, attempt: nat, gate: bool) returns (r: Round)
      requires Journaled() && Accounted() && !mon.tainted && Grounded(c) && CheckpointLinked()
      requires !gate ==> state.checkpoint == Some(c) && !Flagged(c) && Unanswered(c.work.role)
      modifies this, state`checkpoint, state`status, state`fault, state`telemetry, state`stats
      modifies world`repo, world`runs, world`lastReply, world`probes, world`replies, world`blind
      ensures old(book.events) <= book.events
      ensures Journaled() && !mon.tainted && CheckpointLinked() && Same(mon.basis, old(mon.basis))
      ensures CallsAtMost(if gate then 0 else 1) && |world.probes| == |old(world.probes)| + 1
      ensures Probed() && (gate && r.Again? ==> ProbeRetryable())
      ensures !gate && ProbeAnswered() ==> Made(CallOf(c)) || StoppedBefore(c)
      ensures gate ==> NoCalls() && Same(world.repo, old(world.repo))
      ensures RoundOf(c, gate, r) && r != Ended(GaveUp(ProviderStop))
    {
      var probed, _ := ProbeOnce(c, attempt);
      match probed {
        case ProbeStopped(error) =>
          ProbeEnds(c, gate, error);
          return Ended(GaveUp(error));
        case TryAgain => return Again;
        case Answered => r := GoOn(c, gate);
      }
    }

    twostate lemma ProbeEnds(new c: Checkpoint, gate: bool, new error: Error)
      requires Accounted() && Exited(c, error) && error in {RateLimitStop, WorkerError} && ProbeSuccesses(0)
      requires error == WorkerError ==> state.fault || (ProbeFatal() && Same(book.events, old(book.events)))
      requires error == RateLimitStop ==> StopEntered() && ProbeLimited()
      requires !gate ==> old(Unanswered(c.work.role)) && world.lastReply == old(world.lastReply)
      ensures RoundOf(c, gate, Ended(GaveUp(error)))
    {
    }

    method GoOn(c: Checkpoint, gate: bool) returns (r: Round)
      requires Journaled() && Accounted() && !mon.tainted && Grounded(c) && CheckpointLinked()
      requires !gate ==> state.checkpoint == Some(c) && !Flagged(c)
      modifies this, state`checkpoint, state`status, state`fault, state`telemetry, state`stats
      modifies world`repo, world`runs, world`lastReply, world`blind
      ensures old(book.events) <= book.events
      ensures Journaled() && !mon.tainted && CheckpointLinked() && Same(mon.basis, old(mon.basis))
      ensures if gate then NoCalls() && JournalKept() && Same(world.repo, old(world.repo)) else CallsAtMost(1)
      ensures gate ==> r.Ended? && r.recovery.Recovered? && Untouched() && Accounted()
      ensures gate ==> state.fault == old(state.fault) && state.stats == old(state.stats)
      ensures !gate ==> Made(CallOf(c)) || StoppedBefore(c)
      ensures !gate ==> RoundOf(c, false, r) && r != Ended(GaveUp(ProviderStop))
    {
      if gate { return Ended(Recovered(RunReply(false, false, NoSignal, NoSignal, None, true))); }
      r := ResumeTask(c);
    }

    method ResumeTask(c: Checkpoint) returns (r: Round)
      requires Journaled() && Accounted() && !mon.tainted && Grounded(c)
      requires state.checkpoint == Some(c) && !Flagged(c)
      modifies this, state`checkpoint, state`status, state`fault, state`telemetry, state`stats
      modifies world`repo, world`runs, world`lastReply, world`blind
      ensures old(book.events) <= book.events
      ensures Journaled() && !mon.tainted && CheckpointLinked() && Same(mon.basis, old(mon.basis))
      ensures CallsAtMost(1)
      ensures Made(CallOf(c)) || StoppedBefore(c)
      ensures RoundOf(c, false, r) && r != Ended(GaveUp(ProviderStop))
    {
      var resumed := RunResumedTask(c);
      match resumed {
        case Back(reply) => return Ended(Recovered(reply));
        case Dead(error) => return Ended(GaveUp(error));
        case RetryLater => return Again;
      }
    }

    /** Where a round of recovery leaves the books and the state files. */
    twostate predicate RoundOf(new c: Checkpoint, gate: bool, new r: Round)
      reads this, state, world
    {
      match r
      case Again =>
        && Accounted() && Untouched() && state.fault == old(state.fault)
        && if gate then GateKept(0) else Unanswered(c.work.role)
      case Ended(Recovered(reply)) =>
        && Untouched() && state.fault == old(state.fault)
        && if gate then Accounted() && GateKept(1)
           else CameBack(c, reply) && !reply.failed
      case Ended(GaveUp(error)) =>
        && Accounted() && Exited(c, error)
        && if gate then ProbeSuccesses(0) && GateBecause(error) else Because(c, error)
    }

    /** The last call answered this. */
    ghost predicate Said(result: Result)
      reads world`lastReply
    {
      Same(world.lastReply.output, Some(result))
    }

    /** This is what the last call answered, or an escalation in place of anything but one. */
    ghost predicate Relays(result: Result)
      reads world`lastReply
    {
      Said(result) || (result.status == NeedsSolReview && world.lastReply.output.Some? &&
                        world.lastReply.output.value.status != NeedsSolReview)
    }

    /** The call came back, and is still to be logged. */
    ghost predicate CameBack(c: Checkpoint, reply: RunReply)
      reads `book, `mon, state`telemetry, state`stats, world`runs, world`probes, world`lastReply
    {
      && Owing(CallOf(c)) && Same(mon.answer, AnswerOf(c.work.role, OutputOf(reply)))
      && JustCalled(c.work.role) && world.lastReply == reply
    }

    /** A gate enters nothing, and counts the probes that were answered. */
    twostate predicate GateKept(answered: nat)
      reads this, state
    {
      JournalKept() && ProbeSuccesses(answered)
    }

    twostate predicate ProbeSuccesses(answered: nat)
      reads state`stats
    {
      state.stats.probeSuccesses == old(state.stats.probeSuccesses) + answered
    }

    /** Every sleep so far was set to end inside three hours from the start, and together they fit in. */
    twostate predicate InTime(start: int)
      reads world
    {
      && world.slept - old(world.slept) <= DEADLINE
      && (world.lastWake == old(world.lastWake) || world.lastWake <= start + DEADLINE)
    }

    /** Every probe but a gate's first came after a sleep of its own; after the last one there may have been a
        sleep that ran into the deadline. */
    twostate predicate SleptEnough(gate: bool, start: int)
      reads world
    {
      var owed := |world.probes| - |old(world.probes)| - if gate then 1 else 0;
      var naps := |world.naps| - |old(world.naps)|;
      naps == owed || (naps == owed + 1 && world.now >= start + DEADLINE)
    }

    /** Recovery is used up: the probes, the schedule or the time. */
    twostate predicate Exhausted(start: int)
      reads world
    {
      |world.probes| == |old(world.probes)| + MAX_TRANSIENT_PROBES || world.now >= start + DEADLINE
    }

    /** Bounded backoff: at most four probes inside three hours of the first look at the clock, each after
        one scheduled wait (a gate probes at once); a successful probe resumes the task, or, for a gate,
        ends the loop. */
    method ProbeUntilExhausted(c: Checkpoint, gate: bool) returns (r: Round, ghost start: int)
      requires Journaled() && Accounted() && !mon.tainted && Grounded(c) && CheckpointLinked()
      requires !gate ==> state.checkpoint == Some(c) && !Flagged(c) && Unanswered(c.work.role)
      modifies this, state`checkpoint, state`status, state`fault, state`telemetry, state`stats, world
      ensures old(book.events) <= book.events
      ensures Journaled() && !mon.tainted && CheckpointLinked() && Same(mon.basis, old(mon.basis))
      ensures CallsAtMost(if gate then 0 else MAX_TRANSIENT_PROBES)
      ensures |world.probes| <= |old(world.probes)| + MAX_TRANSIENT_PROBES
      ensures gate ==> Probed()
      ensures gate ==> NoCalls() && Same(world.repo, old(world.repo)) && |world.probes| > |old(world.probes)|
      ensures start >= old(world.now) && InTime(start) && SleptEnough(gate, start)
      ensures r.Again? ==> Exhausted(start) && (gate ==> ProbeRetryable())
      ensures RoundOf(c, gate, r) && r != Ended(GaveUp(ProviderStop))
    {
      start := world.Now();
      var deadline := world.now + DEADLINE;
      var probes, sleeps, go := 0, 0, true;
      r := Again;
      while probes < MAX_TRANSIENT_PROBES && r.Again? && go
        invariant 0 <= probes <= MAX_TRANSIENT_PROBES && |world.probes| == |old(world.probes)| + probes
        invariant Journaled() && !mon.tainted && CheckpointLinked() && Same(mon.basis, old(mon.basis))
        invariant CallsAtMost(if gate then 0 else probes) && (gate ==> NoCalls() && Same(world.repo, old(world.repo)))
        invariant RoundOf(c, gate, r) && r != Ended(GaveUp(ProviderStop)) && old(book.events) <= book.events
        invariant world.now >= start + (world.slept - old(world.slept)) && InTime(start)
        invariant sleeps == |world.naps| - |old(world.naps)|
        invariant probes == 0 ==> r.Again? && (go ==> sleeps == 0) && (gate ==> go)
        invariant (probes > 0 ==> Probed()) && (gate && r.Again? && probes > 0 ==> ProbeRetryable())
        invariant go && probes > 0 ==> sleeps == probes - if gate then 1 else 0
        invariant !go ==> r.Again? && world.now >= deadline
        invariant !go ==> 0 <= sleeps - probes + (if gate then 1 else 0) <= 1
        decreases MAX_TRANSIENT_PROBES - probes, go
      {
        var napped;
        go, napped, r := ProbeTurn(c, probes + 1, gate, sleeps, deadline);
        if napped { sleeps := sleeps + 1; }
        if go { probes := probes + 1; }
      }
    }

    /** Wait for one's turn, probe, and on success resume; no turn comes after the deadline. */
    method ProbeTurn(c: Checkpoint, attempt: nat, gate: bool, sleeps: nat, deadline: int)
      returns (go: bool, napped: bool, r: Round)
      requires Journaled() && Accounted() && !mon.tainted && Grounded(c) && CheckpointLinked()
      requires !gate ==> state.checkpoint == Some(c) && !Flagged(c) && Unanswered(c.work.role)
      modifies this, state`checkpoint, state`status, state`fault, state`telemetry, state`stats
      modifies world`repo, world`runs, world`lastReply, world`probes, world`replies, world`blind
      modifies world`now, world`naps, world`lastWake, world`slept
      ensures old(book.events) <= book.events
      ensures Journaled() && !mon.tainted && CheckpointLinked() && Same(mon.basis, old(mon.basis))
      ensures CallsAtMost(if gate then 0 else 1) && |world.probes| == |old(world.probes)| + (if go then 1 else 0)
      ensures gate || !go ==> NoCalls() && Same(world.repo, old(world.repo))
      ensures RoundOf(c, gate, r) && r != Ended(GaveUp(ProviderStop))
      ensures Waited(deadline, napped) && (go ==> napped == !(gate && attempt == 1))
      ensures napped ==> NappedAsScheduled(sleeps, deadline)
      ensures go ==> Probed() && (gate && r.Again? ==> ProbeRetryable())
      ensures !go ==> Same(world.replies, old(world.replies))
      ensures !go ==> r.Again? && !(gate && attempt == 1) && (sleeps >= BACKOFF_STEPS || world.now >= deadline)
    {
      r := Again;
      go, napped := TakeTurn(gate && attempt == 1, sleeps, deadline);
      if go { r := ProbeAndResume(c, attempt, gate); }
    }

    /** Recovery ends in exactly one of four ways: recovered, given up on an error, stopped at the
        five-hour limit, or, once exhausted, stopped as provider-unavailable; last is the last round. */
    method RecoveryLoop(c: Checkpoint, gate: bool) returns (r: Recovery, ghost start: int, ghost last: Round)
      requires Journaled() && Accounted() && !mon.tainted && Grounded(c) && CheckpointLinked()
      requires !gate ==> state.checkpoint == Some(c) && !Flagged(c) && Unanswered(c.work.role)
      modifies this, state`checkpoint, state`status, state`fault, state`telemetry, state`stats, world
      ensures old(book.events) <= book.events
      ensures Journaled() && !mon.tainted && CheckpointLinked() && Same(mon.basis, old(mon.basis))
      ensures CallsAtMost(if gate then 0 else MAX_TRANSIENT_PROBES)
      ensures |world.probes| <= |old(world.probes)| + MAX_TRANSIENT_PROBES
      ensures gate ==> Probed()
      ensures gate ==> NoCalls() && Same(world.repo, old(world.repo)) && |world.probes| > |old(world.probes)|
      ensures start >= old(world.now) && InTime(start) && SleptEnough(gate, start)
      ensures last.Ended? ==> r == last.recovery
      ensures last.Again? ==> Exhausted(start)
      ensures last.Again? ==> (r == GaveUp(ProviderStop) || (r == GaveUp(WorkerError) && state.fault))
      ensures last != Ended(GaveUp(ProviderStop)) && RoundOf(c, gate, Ended(r))
    {
      var round;
      round, start := ProbeUntilExhausted(c, gate);
      last := round;
      if round.Ended? { return round.recovery, start, last; }
      r := GiveUp(c, gate);
    }

    method GiveUp(c: Checkpoint, gate: bool) returns (r: Recovery)
      requires Journaled() && Accounted() && !mon.tainted && Grounded(c) && CheckpointLinked()
      requires if gate then ProbeRetryable() else Unanswered(c.work.role)
      modifies `book, `mon, state`checkpoint, state`status, state`fault, state`telemetry
      ensures old(book.events) <= book.events
      ensures Journaled() && Accounted() && !mon.tainted && CheckpointLinked() && Same(mon.basis, old(mon.basis))
      ensures r == GaveUp(ProviderStop) || (r == GaveUp(WorkerError) && state.fault)
      ensures Exited(c, r.error) && if gate then GateBecause(r.error) else Because(c, r.error)
    {
      var e := SaveProviderUnavailable(c);
      r := GaveUp(e);
    }

    /** A first call failed transiently: log it, keep the session, recover. */
    method RecoverTransient(c: Checkpoint) returns (r: Recovery)
      requires Journaled() && Owing(CallOf(c)) && !mon.tainted && Grounded(c) && CheckpointLinked()
      requires state.checkpoint == Some(c) && !Flagged(c) && Unanswered(c.work.role)
      modifies this, state`checkpoint, state`status, state`fault, state`telemetry, state`stats, world
      ensures old(book.events) <= book.events
      ensures Journaled() && !mon.tainted && CheckpointLinked() && Same(mon.basis, old(mon.basis))
      ensures CallsAtMost(MAX_TRANSIENT_PROBES)
      ensures RoundOf(c, false, Ended(r))
    {
      state.RecordModelCallLog(TaskRecord(CallOf(c), TransientError));
      var ready := state.TouchOther();
      if !ready { return GaveUp(WorkerError); }
      ghost var start, last;
      r, start, last := RecoveryLoop(c, false);
    }

    /** Before a provider-unavailable task is resumed: probe until the provider answers; exactly an answered
        probe lets it go on. */
    method GateResumeOnProbe(c: Checkpoint) returns (err: Option<Error>)
      requires Journaled() && Accounted() && !mon.tainted && Grounded(c) && CheckpointLinked()
      modifies this, state`checkpoint, state`status, state`fault, state`telemetry, state`stats, world
      ensures old(book.events) <= book.events
      ensures Journaled() && Accounted() && !mon.tainted && CheckpointLinked() && Same(mon.basis, old(mon.basis))
      ensures NoCalls() && Same(world.repo, old(world.repo)) && |world.probes| > |old(world.probes)|
      ensures state.stats.probeSuccesses == old(state.stats.probeSuccesses) + (if err == None then 1 else 0)
      ensures err == None ==> Untouched() && state.fault == old(state.fault) && JournalKept()
      ensures err.Some? ==> Exited(c, err.value) && GateBecause(err.value)
      ensures Probed()
    {
      ghost var start;
      var r;
      ghost var last;
      r, start, last := RecoveryLoop(c, true);
      err := if r.Recovered? then None else Some(r.error);
    }

    function VerdictFor(role: Role, result: Result): Verdict {
      if role == Reviewer then ReviewerVerdict(result) else WorkerVerdict(result)
    }

    /** Parse and judge a successful call's structured output, short of its artifacts. */
    method Judge(c: Checkpoint, reply: RunReply) returns (v: Verdict, result: Result)
      ensures v == Valid ==> AcceptedFor(c.work.role, result)
      ensures reply.output.Some? ==> reply.output == Some(result) && v == VerdictFor(c.work.role, result)
      ensures reply.output == None ==> v == Mismatch
    {
      if reply.output == None { return Mismatch, EMPTY_RESULT; }
      result := reply.output.value;
      if c.work.role == Reviewer {
        v := ValidateReviewerResult(result);
      } else {
        v := ValidateWorkerResult(result);
      }
    }

    /** The call failed for good, already logged or not: clear the checkpoint if possible. */
    method FailCall(c: Checkpoint, logged: bool, outcome: CallOutcome)
      requires logged ==> Accounted()
      requires !logged ==> Owing(CallOf(c))
      modifies state`checkpoint, state`fault, state`telemetry
      ensures Accounted() && (old(state.fault) ==> state.fault)
      ensures state.checkpoint == None || (Same(state.checkpoint, old(state.checkpoint)) && state.fault)
    {
      if !logged {
        state.RecordModelCallLog(TaskRecord(CallOf(c), outcome));
      }
      var ok := state.ClearResumeCheckpoint();
    }

    /** A call came back: secure its artifacts and drop the checkpoint, then judge the result. */
    method FinishCall(c: Checkpoint, reply: RunReply) returns (s: Called, ghost secured: bool)
      requires Owing(CallOf(c)) && state.checkpoint == Some(c) && !Flagged(c)
      requires c.resultCorrection <==> c.phase.Corrected?
      modifies state`checkpoint, state`fault, state`telemetry, world`denied
      ensures s.CallEnded? ==> state.fault || world.denied || Unusable(CallOf(c), reply)
      ensures Accounted() && (old(state.fault) ==> state.fault)
      ensures !secured ==> state.telemetry == Line(old(state.telemetry), TaskRecord(CallOf(c), StateError))
      ensures !secured ==> s == CallEnded(WorkerError) && state.checkpoint == Some(c) && world.denied
      ensures secured ==> world.denied == old(world.denied) && (state.checkpoint == None || state.fault)
      ensures !s.CallEnded? ==> state.checkpoint == None && state.fault == old(state.fault) && !reply.failed
      ensures s.Returned? ==> AcceptedFor(c.work.role, s.result) && reply.output == Some(s.result)
      ensures s.Redo? ==> !c.resultCorrection
      ensures s.CallEnded? ==> s.error == WorkerError && (state.checkpoint == None || state.checkpoint == Some(c))
    {
      var safe := world.SecureArtifactDir();
      secured := safe;
      if !safe {
        state.RecordModelCallLog(TaskRecord(CallOf(c), StateError));
        return CallEnded(WorkerError), secured;
      }
      if reply.failed {
        FailCall(c, false, CallError);
        return CallEnded(WorkerError), secured;
      }
      var ok := state.ClearResumeCheckpoint();
      if !ok {
        state.RecordModelCallLog(TaskRecord(CallOf(c), StateError));
        return CallEnded(WorkerError), secured;
      }
      s := JudgeCall(c, reply);
    }

    /** Judge the result and log the call with the verdict. */
    method JudgeCall(c: Checkpoint, reply: RunReply) returns (s: Called)
      requires Owing(CallOf(c)) && !reply.failed && (c.resultCorrection <==> c.phase.Corrected?)
      modifies state`fault, state`telemetry
      ensures s.CallEnded? ==> state.fault || Unusable(CallOf(c), reply)
      ensures Accounted() && (old(state.fault) ==> state.fault)
      ensures !s.CallEnded? ==> state.fault == old(state.fault)
      ensures s.Returned? ==> AcceptedFor(c.work.role, s.result) && reply.output == Some(s.result)
      ensures s.Redo? ==> !c.resultCorrection && reply.output.Some?
      ensures s.Redo? ==> VerdictFor(c.work.role, reply.output.value) != Mismatch
      ensures reply.output.Some? && VerdictFor(c.work.role, reply.output.value) == Constraint && !c.resultCorrection ==>
        s.Redo?
      ensures s.Returned? ==> VerdictFor(c.work.role, s.result) == Valid && reply.artifactsValid
      ensures s.Returned? ==> state.telemetry == Line(old(state.telemetry), TaskRecord(CallOf(c), Success))
      ensures !s.Returned? ==> state.telemetry != Line(old(state.telemetry), TaskRecord(CallOf(c), Success))
      ensures s.CallEnded? ==> s.error == WorkerError
    {
      var verdict, result := Judge(c, reply);
      if verdict == Valid {
        var ok := state.TouchOther();
        if !ok {
          state.RecordModelCallLog(TaskRecord(CallOf(c), StateError));
          return CallEnded(WorkerError);
        }
        if !reply.artifactsValid { verdict := Constraint; }
      }
      state.RecordModelCallLog(TaskRecord(CallOf(c), if verdict == Valid then Success else InvalidPacket));
      return if verdict == Valid then Returned(result)
             else if verdict == Constraint && !c.resultCorrection then Redo
             else CallEnded(WorkerError);
    }

    /** Everything between the first call's return and its result: five-hour stop, broken structured
        output, transient recovery, and the ordinary end. */
    method SettleCall(c: Checkpoint, reply: RunReply) returns (s: Called)
      requires Journaled() && CameBack(c, reply) && !mon.tainted && Grounded(c)
      requires state.checkpoint == Some(c) && !Flagged(c)
      modifies this, state`checkpoint, state`status, state`fault, state`telemetry, state`stats, world
      ensures old(book.events) <= book.events
      ensures Journaled() && Accounted() && !mon.tainted && CheckpointLinked() && Same(mon.basis, old(mon.basis))
      ensures CallsAtMost(MAX_TRANSIENT_PROBES)
      ensures s.Returned? ==> AcceptedFor(c.work.role, s.result)
      ensures s.Returned? ==> Same(mon.answer, Some(Answer(c.work.role, s.result))) && JustCalled(c.work.role)
      ensures s.Returned? ==> Said(s.result)
      ensures s.CallEnded? ==> Because(c, s.error)
      ensures s.Redo? ==> !c.resultCorrection
      ensures !s.CallEnded? ==>
        state.checkpoint == None && state.status == old(state.status) && Same(output, old(output))
      ensures !s.CallEnded? ==> state.fault == old(state.fault)
      ensures s.CallEnded? ==> Exited(c, s.error)
      ensures reply.failed && SignalOf(reply) == FiveHour ==>
        s == CallEnded(RateLimitStop) || (s == CallEnded(WorkerError) && state.fault)
      ensures reply.failed && SignalOf(reply) != FiveHour && (reply.structuredError || SignalOf(reply) != Transient) ==>
        s == CallEnded(WorkerError)
      ensures !(reply.failed && SignalOf(reply) == Transient) ==> NoCalls() && Same(world.probes, old(world.probes))
    {
      var signal := if reply.failed then SignalOf(reply) else NoSignal;
      if signal == FiveHour {
        var e := SaveRateLimitedState(c);
        return CallEnded(e);
      }
      if reply.failed && reply.structuredError {
        FailCall(c, false, InvalidPacket);
        return CallEnded(WorkerError);
      }
      if signal == Transient {
        s := Recover(c);
      } else {
        ghost var secured;
        s, secured := FinishCall(c, reply);
      }
    }

    /** A first call failed transiently: recover, and settle the call that came back at last. */
    method Recover(c: Checkpoint) returns (s: Called)
      requires Journaled() && Owing(CallOf(c)) && !mon.tainted && Grounded(c) && CheckpointLinked()
      requires state.checkpoint == Some(c) && !Flagged(c) && Unanswered(c.work.role)
      modifies this, state`checkpoint, state`status, state`fault, state`telemetry, state`stats, world
      ensures old(book.events) <= book.events
      ensures Journaled() && Accounted() && !mon.tainted && CheckpointLinked() && Same(mon.basis, old(mon.basis))
      ensures CallsAtMost(MAX_TRANSIENT_PROBES)
      ensures s.Returned? ==> AcceptedFor(c.work.role, s.result)
      ensures s.Returned? ==> Same(mon.answer, Some(Answer(c.work.role, s.result))) && JustCalled(c.work.role)
      ensures s.Returned? ==> Said(s.result)
      ensures s.Redo? ==> !c.resultCorrection
      ensures !s.CallEnded? ==>
        state.checkpoint == None && state.status == old(state.status) && Same(output, old(output))
      ensures !s.CallEnded? ==> state.fault == old(state.fault)
      ensures s.CallEnded? ==> Exited(c, s.error) && Because(c, s.error)
    {
      var recovery := TryRecovery(c);
      if recovery.GaveUp? { return CallEnded(recovery.error); }
      ghost var secured;
      s, secured := FinishCall(c, recovery.reply);
    }

    method TryRecovery(c: Checkpoint) returns (r: Recovery)
      requires Journaled() && Owing(CallOf(c)) && !mon.tainted && Grounded(c) && CheckpointLinked()
      requires state.checkpoint == Some(c) && !Flagged(c) && Unanswered(c.work.role)
      modifies this, state`checkpoint, state`status, state`fault, state`telemetry, state`stats, world
      ensures old(book.events) <= book.events
      ensures Journaled() && !mon.tainted && CheckpointLinked() && Same(mon.basis, old(mon.basis))
      ensures CallsAtMost(MAX_TRANSIENT_PROBES)
      ensures RoundOf(c, false, Ended(r))
    {
      r := RecoverTransient(c);
      if r == GaveUp(WorkerError) { AbandonRecovery(c); }
    }

    /** Recovery failed for good; its calls are all logged, only the checkpoint is left to clear. */
    method AbandonRecovery(c: Checkpoint)
      requires Accounted()
      modifies state`checkpoint, state`fault, state`telemetry, world`denied
      ensures Accounted() && (old(state.fault) ==> state.fault) && (old(world.denied) ==> world.denied)
      ensures state.checkpoint == None || Same(state.checkpoint, old(state.checkpoint))
    {
      var secured := world.SecureArtifactDir();
      if secured { FailCall(c, true, CallError); }
    }

    /** Nothing was called: a write failed, no model is set, or, of a worker, the artifacts or the parent-managed
        files failed their check. */
    twostate predicate StoppedBefore(new c: Checkpoint)
      reads `output, state`checkpoint, state`status, state`fault, state`activeTask
      reads world`denied, world`blind, world`repo
    {
      || state.fault || c.work.model == ""
      || (c.work.role == Worker &&
           (world.denied || (StoppedForSol() && (world.blind || !ParentsPresent()))))
    }

    /** Before anything is saved: a place for a worker's artifacts, a model, and the guard. */
    method TakeGuard(c: Checkpoint) returns (guard: Guard, err: Option<Error>)
      requires CheckpointLinked() && !Flagged(c)
      modifies `output, state`checkpoint, state`status, state`fault, state`telemetry, world`denied, world`blind
      ensures CheckpointLinked()
      ensures TaskCalls(state.telemetry) == old(TaskCalls(state.telemetry))
      ensures ProbeCalls(state.telemetry) == old(ProbeCalls(state.telemetry))
      ensures err == None ==> c.work.model != "" && Untouched() && state.fault == old(state.fault)
      ensures err == None ==> GuardFits(guard, c.work.role, world.repo.parents)
      ensures err == None && c.work.role == Worker ==> ParentsPresent()
      ensures err.Some? ==> Exited(c, err.value) && StoppedBefore(c) && Because(c, err.value)
    {
      guard := Guard(map[], false, false);
      if c.work.role == Worker {
        var prepared := world.PrepareArtifactDir();
        if !prepared { return guard, Some(WorkerError); }
      }
      if c.work.model == "" { return guard, Some(WorkerError); }
      guard, err := CaptureParentFileGuard(c.work.role);
    }

    /** Prepare a call: guard the parent files of a worker call, then save the checkpoint, unflagged and
        without the parent files of an earlier stop of a review. */
    method PrepareCall(c0: Checkpoint) returns (c: Checkpoint, guard: Guard, err: Option<Error>)
      requires CheckpointLinked() && !Flagged(c0)
      modifies `output, state`checkpoint, state`status, state`fault, state`telemetry, world`denied, world`blind
      ensures CheckpointLinked()
      ensures TaskCalls(state.telemetry) == old(TaskCalls(state.telemetry))
      ensures ProbeCalls(state.telemetry) == old(ProbeCalls(state.telemetry))
      ensures c == c0.(stopParentFiles := c.stopParentFiles)
      ensures err == None && c.work.stage == ReviewStage ==> c.stopParentFiles == None
      ensures err == None ==> c.work.model != "" && state.checkpoint == Some(c)
      ensures err == None ==> GuardFits(guard, c.work.role, world.repo.parents)
      ensures err == None && c.work.role == Worker ==> ParentsPresent()
      ensures err == None ==> Same(output, old(output)) && state.status == old(state.status)
      ensures err == None ==> state.fault == old(state.fault)
      ensures err.Some? ==> Exited(c0, err.value) && StoppedBefore(c0) && Because(c0, err.value)
    {
      c := if c0.work.stage == ReviewStage then c0.(stopParentFiles := None) else c0;
      guard, err := TakeGuard(c0);
      if err.Some? { return; }
      var saved := state.SaveResumeCheckpoint(c);
      if !saved { err := Some(WorkerError); }
    }

    /** Prepare and make one call, and settle it. */
    method CallOnce(c0: Checkpoint) returns (s: Called)
      requires Journaled() && Accounted() && !mon.tainted && CheckpointLinked() && !mon.basis.complete && !Flagged(c0)
      requires c0.work.model != "" ==> Grounded(c0)
      modifies this, state`checkpoint, state`status, state`fault, state`telemetry, state`stats, world
      ensures old(book.events) <= book.events
      ensures Journaled() && Accounted() && !mon.tainted && CheckpointLinked() && Same(mon.basis, old(mon.basis))
      ensures CallsAtMost(1 + MAX_TRANSIENT_PROBES)
      ensures s.Returned? ==> AcceptedFor(c0.work.role, s.result)
      ensures s.Returned? ==> Same(mon.answer, Some(Answer(c0.work.role, s.result))) && JustCalled(c0.work.role)
      ensures s.Returned? ==> Said(s.result)
      ensures s.CallEnded? ==> Because(c0, s.error)
      ensures s.Redo? ==> !c0.resultCorrection && c0.work.model != ""
      ensures !s.CallEnded? ==>
        state.checkpoint == None && state.status == old(state.status) && Same(output, old(output))
      ensures !s.CallEnded? ==> state.fault == old(state.fault)
      ensures s.CallEnded? ==> Exited(c0, s.error)
      ensures Made(CallOf(c0)) || (s.CallEnded? && Same(book.events, old(book.events)) && StoppedBefore(c0))
    {
      var c, guard, err := PrepareCall(c0);
      if err.Some? { return CallEnded(err.value); }
      s := CallPrepared(c, guard);
    }

    method CallPrepared(c: Checkpoint, guard: Guard) returns (s: Called)
      requires Journaled() && Accounted() && !mon.tainted && CheckpointLinked() && Grounded(c) && !Flagged(c)
      requires state.checkpoint == Some(c) && GuardFits(guard, c.work.role, world.repo.parents)
      modifies this, state`checkpoint, state`status, state`fault, state`telemetry, state`stats, world
      ensures old(book.events) <= book.events
      ensures Journaled() && Accounted() && !mon.tainted && CheckpointLinked() && Same(mon.basis, old(mon.basis))
      ensures CallsAtMost(1 + MAX_TRANSIENT_PROBES)
      ensures s.Returned? ==> AcceptedFor(c.work.role, s.result)
      ensures s.Returned? ==> Same(mon.answer, Some(Answer(c.work.role, s.result))) && JustCalled(c.work.role)
      ensures s.Returned? ==> Said(s.result)
      ensures s.CallEnded? ==> Because(c, s.error)
      ensures s.Redo? ==> !c.resultCorrection
      ensures !s.CallEnded? ==>
        state.checkpoint == None && state.status == old(state.status) && Same(output, old(output))
      ensures !s.CallEnded? ==> state.fault == old(state.fault)
      ensures s.CallEnded? ==> Exited(c, s.error)
      ensures Made(CallOf(c))
    {
      var reply, stop := CallModel(c, guard);
      if stop.Some? { return CallEnded(stop.value); }
      s := SettleCall(c, reply);
    }

    /** However a call ends, the state files still agree with the journal. */
    twostate lemma ExitLinks(new c: Checkpoint, error: Error)
      requires old(Linked() && BaselineLinked()) && old(state.status) == Active && CheckpointLinked()
      requires Exited(c, error) && Same(mon.basis, old(mon.basis)) && SnapshotsKept()
      ensures Linked() && BaselineLinked()
    {
    }

    twostate predicate SnapshotsKept()
      reads state
    {
      && Same(state.workerEnd, old(state.workerEnd)) && Same(state.reviewStart, old(state.reviewStart))
      && Same(state.reportOnlyStart, old(state.reportOnlyStart)) && Same(state.lastReview, old(state.lastReview))
      && Same(state.lastDecision, old(state.lastDecision)) && state.pendingDecision == old(state.pendingDecision)
      && Same(state.baseline, old(state.baseline))
    }

    /** One call of the state machine, with at most one correction of a result that breaks a rule the
        schema cannot express. */
    method RunModel(c: Checkpoint) returns (r: Outcome)
      requires Inv() && !mon.basis.complete && !Flagged(c) && state.status == Active
      requires c.work.model != "" ==> Grounded(c)
      modifies this, state`checkpoint, state`status, state`fault, state`telemetry, state`stats, world
      ensures old(book.events) <= book.events
      ensures Inv() && Same(mon.basis, old(mon.basis))
      ensures CallsAtMost(CallBudget(c))
      ensures r.Done? ==> AcceptedFor(c.work.role, r.result) && Same(mon.answer, Some(Answer(c.work.role, r.result)))
      ensures r.Done? ==> state.checkpoint == None && state.status == old(state.status) && Carried()
      ensures r.Done? ==> JustCalled(c.work.role) && Said(r.result)
      ensures r.Failed? ==> Exited(c, r.error) && Because(c, r.error)
      ensures Made(CallOf(c)) || (r.Failed? && Same(book.events, old(book.events)) && StoppedBefore(c))
      decreases if c.resultCorrection then 0 else 1
    {
      var called := CallLinked(c);
      match called {
        case Returned(result) => return Done(result);
        case CallEnded(error) => return Failed(error);
        case Redo =>
          r := RunModel(c.(phase := Corrected(c.phase), resultCorrection := true));
      }
    }

    /** One call, which leaves the state files in agreement with the journal. */
    method CallLinked(c: Checkpoint) returns (s: Called)
      requires Inv() && !mon.basis.complete && !Flagged(c) && state.status == Active
      requires c.work.model != "" ==> Grounded(c)
      modifies this, state`checkpoint, state`status, state`fault, state`telemetry, state`stats, world
      ensures old(book.events) <= book.events
      ensures Inv() && Same(mon.basis, old(mon.basis)) && FilesKept() && CallsAtMost(1 + MAX_TRANSIENT_PROBES)
      ensures c.work.model != "" ==> Grounded(c)
      ensures s.Returned? ==> AcceptedFor(c.work.role, s.result)
      ensures s.Returned? ==> Same(mon.answer, Some(Answer(c.work.role, s.result))) && JustCalled(c.work.role)
      ensures s.Returned? ==> Said(s.result)
      ensures s.Redo? ==> !c.resultCorrection && c.work.model != ""
      ensures !s.CallEnded? ==> state.checkpoint == None && state.status == old(state.status) && Carried()
      ensures s.CallEnded? ==> Exited(c, s.error) && Because(c, s.error)
      ensures Made(CallOf(c)) ||
        (s.CallEnded? && Same(book.events, old(book.events)) && StoppedBefore(c))
    {
      s := CallOnce(c);
      if s.CallEnded? { ExitLinks(c, s.error); }
    }

    function CallBudget(c: Checkpoint): nat {
      if c.resultCorrection then 1 + MAX_TRANSIENT_PROBES else 2 * (1 + MAX_TRANSIENT_PROBES)
    }

    // -------------------------------------------------------------- snapshots around calls

    /** A failed check stopped the command for Sol, or broke off at a write. */
    twostate predicate HaltedBy(new error: Option<Error>)
      reads `output, state`checkpoint, state`status, state`fault
    {
      match error
      case None => StoppedForSol() && (old(state.fault) ==> state.fault)
      case Some(e) => e == WorkerError && StopBroken()
    }

    method Halt() returns (r: Check)
      requires Inv() && !mon.basis.complete && state.status == Active
      modifies `output, state`checkpoint, state`status, state`fault, state`telemetry
      ensures Inv() && r.Halted? && HaltedBy(r.error)
      ensures FilesKept()
    {
      var err := FailClosedSnapshot();
      r := Halted(err);
    }

    /** Pin the repository as the worker left it. */
    method CaptureWorkerEndSnapshot() returns (r: Check)
      requires Inv() && !mon.basis.complete && state.status == Active && state.checkpoint == None
      requires ReadyForReview(mon.answer) && mon.ready
      modifies this, state`workerEnd, state`checkpoint, state`status, state`fault, state`telemetry, world`blind
      ensures old(book.events) <= book.events
      ensures Inv() && PhaseKept()
      ensures r.Proceed? ==> Untouched() && state.fault == old(state.fault)
      ensures r.Proceed? ==> Same(mon.basis.workerEnd, Some(Capture(world.repo, world.ignored)))
      ensures r.Proceed? ==> Same(state.workerEnd, Some(Capture(world.repo, world.ignored)))
      ensures r.Proceed? ==> Same(mon.basis.work, ResultOf(old(mon.answer)))
      ensures if r.Proceed? then Adds(WorkerEnded(Capture(world.repo, world.ignored)))
        else Same(book.events, old(book.events))
      ensures r.Halted? ==> HaltedBy(r.error) && (state.fault || world.blind)
      ensures FilesKept()
    {
      var pinned := PinWorkerEnd();
      if !pinned { r := Halt(); return; }
      return Proceed;
    }

    method PinWorkerEnd() returns (ok: bool)
      requires Inv() && !mon.basis.complete && state.status == Active && state.checkpoint == None
      requires ReadyForReview(mon.answer) && mon.ready
      modifies `book, `mon, state`workerEnd, state`fault, world`blind
      ensures old(book.events) <= book.events
      ensures !ok ==> state.fault || world.blind
      ensures Inv() && (old(state.fault) ==> state.fault)
      ensures PhaseKept()
      ensures ok ==> Same(mon.basis.workerEnd, Some(Capture(world.repo, world.ignored)))
      ensures ok ==> Same(state.workerEnd, Some(Capture(world.repo, world.ignored)))
      ensures ok ==> state.fault == old(state.fault)
      ensures ok ==> Same(mon.basis.work, ResultOf(old(mon.answer)))
      ensures if ok then Adds(WorkerEnded(Capture(world.repo, world.ignored))) else Same(book.events, old(book.events))
    {
      ok := false;
      var snap := world.CaptureSnapshot();
      if snap.Some? {
        ok := SaveEnd(snap.value);
      }
    }

    method SaveEnd(snap: GitSnapshot) returns (ok: bool)
      requires Inv() && !mon.basis.complete && state.checkpoint == None
      requires ReadyForReview(mon.answer) && mon.ready && Shows(TheRules(), mon, snap)
      modifies `book, `mon, state`workerEnd, state`fault
      ensures Inv() && PhaseKept()
      ensures ok ==> Same(state.workerEnd, Some(snap)) && Adds(WorkerEnded(snap)) && state.fault == old(state.fault)
      ensures ok ==> Same(mon.basis.workerEnd, Some(snap)) && Same(mon.basis.work, ResultOf(old(mon.answer)))
      ensures !ok ==> state.fault && JournalKept()
    {
      ok := state.SaveWorkerEndSnapshot(Some(snap));
      if ok { Record(WorkerEnded(snap)); }
    }

    /** Compare with a saved snapshot and keep the comparison; any difference stops. */
    method CompareWithSaved(saved: GitSnapshot) returns (r: Check)
      requires Inv() && !mon.basis.complete && state.status == Active
      modifies `output, state`comparison, state`checkpoint, state`status, state`fault, state`telemetry, world`blind
      ensures Inv()
      ensures r.Proceed? ==> Untouched() && state.fault == old(state.fault)
      ensures r.Proceed? ==> EqualGitSnapshot(saved, Capture(world.repo, world.ignored))
      ensures r.Halted? ==> HaltedBy(r.error)
      ensures r.Halted? && !world.blind && !state.fault ==> !EqualGitSnapshot(saved, Capture(world.repo, world.ignored))
      ensures FilesKept()
    {
      var current := world.CaptureSnapshot();
      if current == None { r := Halt(); return; }
      r := SettleComparison(CompareGitSnapshot(saved, current.value));
    }

    method SettleComparison(comparison: SnapshotComparison) returns (r: Check)
      requires Inv() && !mon.basis.complete && state.status == Active
      modifies `output, state`comparison, state`checkpoint, state`status, state`fault, state`telemetry
      ensures Inv()
      ensures r.Proceed? ==> Untouched() && state.fault == old(state.fault) && comparison.matched
      ensures r.Halted? ==> HaltedBy(r.error)
      ensures r.Halted? && !state.fault ==> !comparison.matched
      ensures FilesKept()
    {
      var kept := state.SaveSnapshotComparison(Some(comparison));
      if !kept || !comparison.matched { r := Halt(); return; }
      return Proceed;
    }

    /** Save the repository, with its parent files when they can be read, as the review's start, and
        compare it with the worker's end; None when one of them cannot be had. */
    method PinReviewStart() returns (comparison: Option<SnapshotComparison>)
      requires Inv() && !mon.basis.complete && state.status == Active && state.checkpoint == None
      modifies `book, `mon, state`reviewStart, state`fault, world`blind
      ensures old(book.events) <= book.events
      ensures Inv()
      ensures PhaseKept() && Same(mon.basis.work, old(mon.basis.work))
      ensures comparison.Some? ==> state.fault == old(state.fault)
      ensures comparison.Some? ==> mon.basis.pin.Some? && Same(state.reviewStart, mon.basis.pin)
      ensures comparison.Some? ==> Adds(ReviewPinned(mon.basis.pin.value))
      ensures comparison.Some? ==> EqualGitSnapshot(mon.basis.pin.value, Capture(world.repo, world.ignored))
      ensures comparison.Some? ==> (comparison.value.matched <==> mon.basis.pinned)
      ensures comparison == None ==> JournalKept() && (old(state.fault) ==> state.fault)
      ensures comparison.Some? && state.workerEnd.Some? ==>
        (comparison.value.matched <==> EqualGitSnapshot(state.workerEnd.value, Capture(world.repo, world.ignored)))
      ensures comparison == None && !world.blind && !state.fault ==> state.workerEnd == None
    {
      var workerEnd := state.workerEnd;
      if workerEnd == None { return None; }
      var current := world.CaptureSnapshot();
      if current == None { return None; }
      var parents := world.ParentFilesToKeep();
      var reviewStart := current.value.(parentFiles := parents);
      var saved := SavePin(reviewStart);
      if !saved { return None; }
      return Some(CompareGitSnapshot(workerEnd.value, reviewStart));
    }

    method SavePin(snap: GitSnapshot) returns (ok: bool)
      requires Inv() && !mon.basis.complete && state.checkpoint == None && mon.basis.workerEnd.Some?
      requires Shows(TheRules(), mon, snap)
      modifies `book, `mon, state`reviewStart, state`fault
      ensures Inv() && (old(state.fault) ==> state.fault)
      ensures ok ==> state.reviewStart == Some(snap) && state.fault == old(state.fault)
      ensures ok ==> Same(mon.basis, old(mon.basis).(
        pin := Some(snap), pinned := EqualGitSnapshot(old(mon.basis.workerEnd.value), snap)))
      ensures ok ==> Adds(ReviewPinned(snap))
      ensures !ok ==> JournalKept() && Same(state.reviewStart, old(state.reviewStart)) && state.fault
    {
      ok := state.SaveReviewStartSnapshot(Some(snap));
      if ok { EnterPin(snap); }
    }

    /** Pin the repository for the review; it must be as the worker left it. */
    method VerifyReviewStartSnapshot() returns (r: Check)
      requires Inv() && !mon.basis.complete && state.status == Active && state.checkpoint == None
      modifies this, state`reviewStart, state`comparison, state`checkpoint, state`status, state`fault
      modifies state`telemetry, world`blind
      ensures old(book.events) <= book.events
      ensures Inv()
      ensures PhaseKept() && Same(mon.basis.work, old(mon.basis.work))
      ensures r.Proceed? ==> Untouched() && state.fault == old(state.fault)
      ensures r.Proceed? ==> mon.basis.pinned && mon.basis.pin.Some? && Same(state.reviewStart, mon.basis.pin)
      ensures r.Proceed? ==> Adds(ReviewPinned(mon.basis.pin.value))
      ensures r.Proceed? ==> EqualGitSnapshot(mon.basis.pin.value, Capture(world.repo, world.ignored))
      ensures r.Halted? ==> HaltedBy(r.error)
      ensures r.Halted? && !world.blind && !state.fault ==>
        state.workerEnd == None || !EqualGitSnapshot(state.workerEnd.value, Capture(world.repo, world.ignored))
      ensures FilesKept()
    {
      var comparison := PinReviewStart();
      r := SettlePin(comparison);
    }

    method SettlePin(comparison: Option<SnapshotComparison>) returns (r: Check)
      requires Inv() && !mon.basis.complete && state.status == Active
      modifies `output, state`comparison, state`checkpoint, state`status, state`fault, state`telemetry
      ensures Inv()
      ensures r.Proceed? ==> Untouched() && state.fault == old(state.fault)
      ensures r.Proceed? ==> comparison.Some? && comparison.value.matched
      ensures r.Halted? ==> HaltedBy(r.error)
      ensures r.Halted? && !state.fault ==> comparison == None || !comparison.value.matched
      ensures FilesKept()
    {
      if comparison == None {
        r := Halt();
      } else {
        r := SettleComparison(comparison.value);
      }
    }

    /** Before a review result is taken the repository must still be as pinned. */
    method VerifyReviewEndSnapshot() returns (r: Check)
      requires Inv() && !mon.basis.complete && state.status == Active && state.checkpoint == None
      modifies `output, state`comparison, state`checkpoint, state`status, state`fault, state`telemetry, world`blind
      ensures Inv()
      ensures r.Proceed? ==> Untouched() && state.fault == old(state.fault)
      ensures r.Proceed? ==> mon.basis.pin.Some?
      ensures r.Proceed? ==> EqualGitSnapshot(mon.basis.pin.value, Capture(world.repo, world.ignored))
      ensures r.Halted? ==> HaltedBy(r.error)
      ensures r.Halted? && !world.blind && !state.fault ==> state.reviewStart == None || !AsPinned()
      ensures FilesKept()
    {
      var saved := state.reviewStart;
      if saved == None { r := Halt(); return; }
      r := CompareWithSaved(saved.value);
    }

    /** Pin the repository before a report-only round: it is still as the review that asked for it saw it. */
    method SaveReportOnlyStartSnapshot() returns (r: Check)
      requires Inv() && !mon.basis.complete && state.status == Active && state.checkpoint == None
      requires mon.basis.report == Unpinned && AsReviewed(mon, Capture(world.repo, world.ignored))
      modifies this, state`reportOnlyStart, state`checkpoint, state`status, state`fault, state`telemetry
      modifies world`blind
      ensures old(book.events) <= book.events
      ensures Inv() && !mon.basis.complete
      ensures mon.basis.asked == old(mon.basis.asked) && PaceKept()
      ensures r.Proceed? ==> Untouched() && state.fault == old(state.fault) && mon.basis.report == OnPin
      ensures r.Proceed? ==> state.reportOnlyStart == mon.basis.reportPin == Some(Capture(world.repo, world.ignored))
      ensures r.Proceed? ==> Adds(ReportOnlyPinned(Capture(world.repo, world.ignored)))
      ensures r.Halted? ==> HaltedBy(r.error) && (state.fault || world.blind)
      ensures FilesKept()
    {
      var saved := PinReportStart();
      if !saved { r := Halt(); return; }
      return Proceed;
    }

    method PinReportStart() returns (ok: bool)
      requires Inv() && !mon.basis.complete && state.checkpoint == None
      requires mon.basis.report == Unpinned && AsReviewed(mon, Capture(world.repo, world.ignored))
      modifies `book, `mon, state`reportOnlyStart, state`fault, world`blind
      ensures old(book.events) <= book.events
      ensures Inv() && (old(state.fault) ==> state.fault) && (!ok ==> state.fault || world.blind)
      ensures ok ==> Adds(ReportOnlyPinned(Capture(world.repo, world.ignored)))
      ensures ok ==> Same(mon.basis, old(mon.basis).(reportPin := state.reportOnlyStart, report := OnPin))
      ensures ok ==> state.reportOnlyStart == Some(Capture(world.repo, world.ignored))
      ensures ok ==> state.fault == old(state.fault)
      ensures !ok ==> JournalKept()
    {
      ok := false;
      var start := world.CaptureSnapshot();
      if start.Some? {
        ok := SaveReportPin(start.value);
      }
    }

    method SaveReportPin(snap: GitSnapshot) returns (ok: bool)
      requires Inv() && !mon.basis.complete && state.checkpoint == None
      requires mon.basis.report == Unpinned && AsReviewed(mon, snap) && Shows(TheRules(), mon, snap)
      modifies `book, `mon, state`reportOnlyStart, state`fault
      ensures Inv()
      ensures ok ==> Same(mon.basis, old(mon.basis).(reportPin := Some(snap), report := OnPin))
      ensures ok ==> Same(state.reportOnlyStart, Some(snap)) && Adds(ReportOnlyPinned(snap))
      ensures if ok then state.fault == old(state.fault) else state.fault && JournalKept()
    {
      ok := state.SaveReportOnlyStartSnapshot(Some(snap));
      if ok { EnterReportPin(snap); }
    }

    /** A report-only round is resumed only with the snapshot it started from; none is ever taken anew. */
    method GateReportOnlyResumeSnapshot() returns (r: Check)
      requires Inv() && !mon.basis.complete && state.status == Active
      modifies `output, state`checkpoint, state`status, state`fault, state`telemetry
      ensures Inv()
      ensures r.Proceed? ==> Untouched() && state.fault == old(state.fault) && state.telemetry == old(state.telemetry)
      ensures r.Proceed? <==> state.reportOnlyStart.Some?
      ensures r.Halted? ==> HaltedBy(r.error)
      ensures FilesKept()
    {
      if state.reportOnlyStart == None { r := Halt(); return; }
      return Proceed;
    }

    /** A report-only result is taken only over an unchanged repository. */
    method VerifyReportOnlyEndSnapshot() returns (r: Check)
      requires Inv() && !mon.basis.complete && state.status == Active && state.checkpoint == None
      requires mon.basis.report == OnPin
      modifies this, state`comparison, state`checkpoint, state`status, state`fault, state`telemetry, world`blind
      ensures old(book.events) <= book.events
      ensures Inv() && Same(mon.basis, old(mon.basis))
      ensures r.Proceed? ==> Untouched() && state.fault == old(state.fault) && Same(mon.answer, old(mon.answer))
      ensures r.Proceed? ==>
        state.reportOnlyStart.Some? && mon.checked && AsReportPinned(mon, Capture(world.repo, world.ignored))
      ensures r.Halted? ==> Same(book.events, old(book.events))
      ensures r.Proceed? ==> Adds(ReportOnlyAccepted(Capture(world.repo, world.ignored)))
      ensures r.Halted? ==> HaltedBy(r.error)
      ensures r.Halted? && !world.blind && !state.fault ==>
        state.reportOnlyStart == None || !AsReportPinned(mon, Capture(world.repo, world.ignored))
      ensures FilesKept()
    {
      var start := state.reportOnlyStart;
      if start == None { r := Halt(); return; }
      r := CompareWithSaved(start.value);
      if r.Proceed? {
        EnterReportAccepted(Capture(world.repo, world.ignored));
      }
    }

    /** A stopped review may go on: over the saved state, or one that only the parent changed meanwhile. */
    ghost predicate MayGoOn(saved: GitSnapshot, current: GitSnapshot, c: Checkpoint, now: Parents) {
      EqualGitSnapshot(saved, current) || DeltaAccepted(saved, current, c, now)
    }

    /** The files outside the parent-managed ones are as saved, and those were changed during the stop and not
        before it. */
    ghost predicate DeltaAccepted(saved: GitSnapshot, current: GitSnapshot, c: Checkpoint, now: Parents) {
      && saved.head == current.head && saved.index == current.index
      && saved.excludingParent.Some? && saved.excludingParent == current.excludingParent
      && saved.parentFiles.Some? && c.stopParentFiles.Some?
      && OnlyUpdatedWhileStopped(saved.parentFiles.value, c.stopParentFiles.value, now)
    }

    /** May a stopped review whose repository changed go on? */
    method AcceptReviewResumeParentDelta(saved: GitSnapshot, current: GitSnapshot, c: Checkpoint)
      returns (accept: bool)
      modifies world`blind
      ensures accept ==> DeltaAccepted(saved, current, c, world.repo.parents)
      ensures DeltaAccepted(saved, current, c, world.repo.parents) ==> accept || world.blind
      ensures old(world.blind) ==> world.blind
    {
      accept := false;
      if saved.head != current.head || saved.index != current.index { return; }
      if saved.excludingParent == None || saved.excludingParent != current.excludingParent { return; }
      if saved.parentFiles == None || c.stopParentFiles == None { return; }
      var now := world.ReadParentFileStates();
      if now == None { return false; }
      accept := ChangedOnlyDuringStop(saved.parentFiles.value, c.stopParentFiles.value, now.value);
    }

    /** The rule of the resumed review, file by file, in any order. */
    method ChangedOnlyDuringStop(start: Parents, stop: Parents, now: Parents) returns (changed: bool)
      ensures changed <==> OnlyUpdatedWhileStopped(start, stop, now)
    {
      var all := start.Keys + stop.Keys + now.Keys;
      var left := all;
      changed := false;
      while left != {}
        invariant left <= all
        invariant forall p :: p in all - left ==> Find(stop, p) == Find(start, p)
        invariant forall p :: p in all - left && p in stop ==> p in now
        invariant changed <==> exists p :: p in all - left && Find(now, p) != Find(stop, p)
      {
        var path :| path in left;
        left := left - {path};
        if Find(stop, path) != Find(start, path) {
          return false;
        }
        if path in stop && path !in now {
          return false;
        }
        if Find(now, path) != Find(stop, path) {
          changed := true;
        }
      }
    }

    /** Nothing was entered but, at most, an accepted update of the parent's files. */
    twostate predicate AtMostRepinned()
      reads `book
    {
      |book.events| <= |old(book.events)| + 1 &&
        (|old(book.events)| < |book.events| ==> book.events[|old(book.events)|].ParentUpdate?)
    }

    /** Pin a resumed review anew on the present state. */
    method RepinReview(current: GitSnapshot, c: Checkpoint) returns (ok: bool)
      requires Inv() && !mon.basis.complete && state.status == Active && state.checkpoint == Some(c) && Flagged(c)
      requires c.work.stage == ReviewStage
      requires current == Capture(world.repo, world.ignored)
      requires state.reviewStart.Some? && state.reviewStart.value.parentFiles.Some? && c.stopParentFiles.Some?
      requires SameOutside(state.reviewStart.value, current)
      requires OnlyUpdatedWhileStopped(state.reviewStart.value.parentFiles.value, c.stopParentFiles.value,
        world.repo.parents)
      modifies `book, `mon, state`reviewStart, state`fault, state`telemetry
      ensures old(book.events) <= book.events
      ensures Inv() && (old(state.fault) ==> state.fault)
      ensures PhaseKept()
      ensures ok ==> state.fault == old(state.fault) && mon.basis.pin.Some?
      ensures ok ==> EqualGitSnapshot(mon.basis.pin.value, current)
      ensures AtMostRepinned()
      ensures !ok ==> state.fault && Same(mon, old(mon)) && Same(state.reviewStart, old(state.reviewStart))
    {
      var parents := world.ParentFilesToKeep();
      ok := SaveNewPin(current.(parentFiles := parents), c);
      if ok {
        state.RecordModelCallLog(EventRecord(ParentUpdateEvent));
      }
    }

    method SaveNewPin(snap: GitSnapshot, c: Checkpoint) returns (ok: bool)
      requires Inv() && !mon.basis.complete && state.status == Active && state.checkpoint == Some(c) && Flagged(c)
      requires c.work.stage == ReviewStage
      requires state.reviewStart.Some? && state.reviewStart.value.parentFiles.Some? && c.stopParentFiles.Some?
      requires UpdateAllowed(TheRules(), mon, state.reviewStart.value.parentFiles.value,
        c.stopParentFiles.value, world.repo.parents, snap)
      modifies `book, `mon, state`reviewStart, state`fault
      ensures old(book.events) <= book.events
      ensures Inv() && (old(state.fault) ==> state.fault)
      ensures PhaseKept()
      ensures ok ==> state.fault == old(state.fault) && mon.basis.pin == Some(snap)
      ensures AtMostRepinned()
      ensures !ok ==> state.fault && Same(mon, old(mon)) && Same(state.reviewStart, old(state.reviewStart))
    {
      ghost var start := state.reviewStart.value.parentFiles.value;
      ok := state.SaveReviewStartSnapshot(Some(snap));
      if ok {
        Record(ParentUpdate(start, c.stopParentFiles.value, world.repo.parents, snap));
      }
    }

    /** A review resumed after a stop: the repository as saved, or changed only by the parent's own files
        during the stop, in which case it is pinned anew. */
    method VerifyReviewResumeSnapshot(c: Checkpoint) returns (r: Check)
      requires Inv() && !mon.basis.complete && state.status == Active && state.checkpoint == Some(c) && Flagged(c)
      requires c.work.stage == ReviewStage
      modifies this, world`blind, state`reviewStart, state`comparison, state`checkpoint, state`status, state`fault
      modifies state`telemetry
      ensures old(book.events) <= book.events
      ensures Inv() && PhaseKept()
      ensures r.Halted? ==> state.fault || Same(book.events, old(book.events))
      ensures r.Proceed? ==> Untouched() && state.fault == old(state.fault)
      ensures r.Proceed? ==> mon.basis.pin.Some?
      ensures r.Proceed? ==> EqualGitSnapshot(mon.basis.pin.value, Capture(world.repo, world.ignored))
      ensures r.Halted? && !world.blind && !state.fault ==>
        !MayGoOn(old(mon.basis.pin.value), Capture(world.repo, world.ignored), c, world.repo.parents)
      ensures r.Halted? && !world.blind && !state.fault ==> !AsPinned()
      ensures AtMostRepinned()
      ensures r.Halted? ==> HaltedBy(r.error)
      ensures FilesKept()
    {
      var fine := CheckReviewResume(c);
      r := HaltUnless(fine);
    }

    method CheckReviewResume(c: Checkpoint) returns (fine: bool)
      requires Inv() && !mon.basis.complete && state.status == Active && state.checkpoint == Some(c) && Flagged(c)
      requires c.work.stage == ReviewStage
      modifies `book, `mon, world`blind, state`reviewStart, state`comparison, state`fault, state`telemetry
      ensures old(book.events) <= book.events
      ensures Inv() && PhaseKept() && AtMostRepinned() && (old(state.fault) ==> state.fault)
      ensures fine ==> state.fault == old(state.fault) && AsPinned()
      ensures !fine ==> state.fault || (Same(book.events, old(book.events)) && Same(mon.basis, old(mon.basis)))
      ensures !fine && !world.blind && !state.fault ==>
        !MayGoOn(mon.basis.pin.value, Capture(world.repo, world.ignored), c, world.repo.parents)
    {
      var saved := state.reviewStart;
      var current := world.CaptureSnapshot();
      fine := false;
      if saved.Some? && current.Some? {
        fine := SettleReviewResume(saved.value, current.value, c);
      }
    }

    method HaltUnless(fine: bool) returns (r: Check)
      requires Inv() && !mon.basis.complete && state.status == Active
      modifies `output, state`checkpoint, state`status, state`fault, state`telemetry
      ensures Inv() && (r.Proceed? <==> fine)
      ensures r.Proceed? ==> Untouched() && state.fault == old(state.fault)
      ensures r.Halted? ==> HaltedBy(r.error)
      ensures FilesKept()
    {
      r := Proceed;
      if !fine { r := Halt(); }
    }

    method CompareForResume(saved: GitSnapshot, current: GitSnapshot, c: Checkpoint)
      returns (comparison: SnapshotComparison)
      modifies world`blind
      ensures old(world.blind) ==> world.blind
      ensures comparison == CompareGitSnapshot(saved, current).(parentUpdateAccepted := comparison.parentUpdateAccepted)
      ensures comparison.parentUpdateAccepted ==> DeltaAccepted(saved, current, c, world.repo.parents)
      ensures !world.blind ==>
        (comparison.matched || comparison.parentUpdateAccepted <==> MayGoOn(saved, current, c, world.repo.parents))
    {
      comparison := CompareGitSnapshot(saved, current);
      if !comparison.matched {
        var accepted := AcceptReviewResumeParentDelta(saved, current, c);
        comparison := comparison.(parentUpdateAccepted := accepted);
      }
    }

    method SettleReviewResume(saved: GitSnapshot, current: GitSnapshot, c: Checkpoint)
      returns (fine: bool)
      requires Inv() && !mon.basis.complete && state.status == Active && state.checkpoint == Some(c) && Flagged(c)
      requires c.work.stage == ReviewStage
      requires state.reviewStart == Some(saved) && current == Capture(world.repo, world.ignored)
      modifies `book, `mon, state`reviewStart, state`comparison, state`fault, state`telemetry, world`blind
      ensures old(book.events) <= book.events
      ensures !fine ==> state.fault || Same(book.events, old(book.events))
      ensures !fine && !state.fault ==> Same(mon.basis, old(mon.basis))
      ensures Inv() && PhaseKept() && (old(world.blind) ==> world.blind)
      ensures old(state.fault) ==> state.fault
      ensures fine ==> state.fault == old(state.fault)
      ensures fine ==> mon.basis.pin.Some? && EqualGitSnapshot(mon.basis.pin.value, current)
      ensures AtMostRepinned()
      ensures !fine && !world.blind && !state.fault ==> !MayGoOn(saved, current, c, world.repo.parents)
    {
      var comparison := CompareForResume(saved, current, c);
      var kept := state.SaveSnapshotComparison(Some(comparison));
      if !kept { return false; }
      if comparison.matched { return true; }
      if !comparison.parentUpdateAccepted { return false; }
      PinIsWellCaptured();
      fine := RepinReview(current, c);
    }

    // -------------------------------------------------------------- risk floor

    /** How a command ends: on a printed result that its status waits on, or on an error without one, and for a
        reason; as long as every write succeeded, status and checkpoint agree. */
    twostate predicate CommandEnds(new err: Option<Error>)
      reads this, state, world
    {
      && (old(state.fault) ==> state.fault)
      && (state.fault || Agreement(state.status, state.checkpoint, state.pendingDecision))
      && Same(Brief(), old(Brief()))
      && (old(mon.basis.taken) ==> mon.basis.taken) && Settled() && Ends(err)
      && match err
         case None => AnswerPrinted()
         case Some(GuardStopped) => StoppedForSol()
         case Some(_) => Same(output, old(output))
    }

    /** What a task was started and decided with. */
    ghost function Brief(): (Option<string>, Option<string>, Option<string>)
      reads state`lastRequest, state`baseline, state`lastDecision
    {
      (state.lastRequest, state.baseline, state.lastDecision)
    }

    /** Why a command ends so, unless a write failed: its answer concludes what was entered last or a check
        stopped it, it met a limit, or its provider is gone, or nothing usable came back. */
    ghost predicate Ends(err: Option<Error>)
      reads `book, `mon, `output, state`status, state`fault, state`reportOnlyStart, state`activeTask, world
    {
      state.fault ||
      match err
      case None => Concluded() || StopGrounds()
      case Some(GuardStopped) => StopGrounds()
      case Some(RateLimitStop) => LimitMet()
      case Some(ProviderStop) => ProviderGone()
      case Some(WorkerError) =>
        || world.denied || Unmodelled() || (EndsInCall(1) && NothingUsable())
        || (ProbeFatal())
    }

    /** The status concludes the last entry: a pass, a request for a decision, an escalation, or a request for a fix
        after the last round. */
    ghost predicate Concluding()
      reads `book, `mon, state`status
    {
      book.events != [] &&
      match book.events[|book.events| - 1]
      case Completed => state.status == Complete
      case AnswerTaken(status) => status == NeedsSolDecision && state.status == WaitingDecision
      case ReviewAccepted(verdict, _, _) =>
        state.status == WaitingSolReview &&
          (verdict == NeedsSolReview || (verdict == FixRequired && mon.basis.rounds == config.maxAutoFixRounds))
      case _ => false
    }

    /** And what is printed is what the last call answered, or an escalation in place of anything but one. */
    ghost predicate Concluded()
      reads `book, `mon, `output, state`status, world`lastReply
    {
      Concluding() && (JustAccepted(FixRequired) || (output != [] && Relays(output[|output| - 1])))
    }

    /** Why a command may stop fail-closed: something could not be observed, a tracked parent file is missing, a
        worker broke the parent-file contract, or the repository is not what it has to be. */
    ghost predicate StopGrounds()
      reads `book, `mon, state`reportOnlyStart, state`activeTask, world
    {
      world.blind || !ParentsPresent() || Tripped() || Differs()
    }

    /** After a reviewer's call, or at the resume of one, the repository is not as pinned; or in a report-only round
        not as at its start. */
    ghost predicate Differs()
      reads `book, `mon, state`reportOnlyStart, world`repo
    {
      book.events != [] &&
      match book.events[|book.events| - 1]
      case ModelRun(call, _, _, _) =>
        if call.role == Reviewer then !AsPinned() else mon.basis.report == OnPin && !AsReported()
      case CommandStarted(_) => if mon.basis.report == OnPin then !AsReported() else !AsPinned()
      case _ => false
    }

    /** The repository is as saved at the start of the report-only round. */
    ghost predicate AsReported()
      reads `mon, state`reportOnlyStart, world`repo
    {
      state.reportOnlyStart.Some? && AsReportPinned(mon, Capture(world.repo, world.ignored))
    }

    /** The last call failed transiently and recovery is used up, or the last probe went unanswered too. */
    ghost predicate ProviderGone()
      reads `book, world`lastReply, world`replies
    {
      EndsInStop() && ((EndsInCall(1) && FailedWith(world.lastReply, Transient)) || (ProbeRetryable()))
    }

    predicate Unmodelled() {
      config.workerModel == "" || config.reviewerModel == "" || config.highRiskReviewerModel == ""
    }

    /** A decision asked for before stays pending until an answer is taken; a new one is waited for. */
    twostate predicate Settled()
      reads this, state
    {
      || state.fault
      || if old(state.pendingDecision) && !mon.basis.taken
         then state.pendingDecision && state.status != WaitingDecision
         else state.pendingDecision ==> state.status == WaitingDecision
    }

    /** What frames a command's end: no new request or baseline, and of answers and decisions nothing. */
    twostate predicate TaskKept()
      reads this, state
    {
      && mon.basis.taken == old(mon.basis.taken) && state.pendingDecision == old(state.pendingDecision)
      && (state.pendingDecision ==> !mon.basis.taken)
      && Same(Brief(), old(Brief()))
    }

    /** Neither the task's brief nor its open decision changed. */
    twostate predicate FilesKept()
      reads state
    {
      Same(Brief(), old(Brief())) && state.pendingDecision == old(state.pendingDecision)
    }

    /** A step that went well: nothing printed, no write failed, and the task as it was. */
    twostate predicate Carried()
      reads this, state
    {
      && Same(output, old(output)) && state.fault == old(state.fault) && Same(Brief(), old(Brief()))
      && mon.basis.taken == old(mon.basis.taken) && state.pendingDecision == old(state.pendingDecision)
    }

    twostate lemma HaltEnds(error: Option<Error>)
      requires HaltedBy(error) && TaskKept() && (state.fault || StopGrounds())
      ensures CommandEnds(error)
    {
    }

    twostate lemma ExitEnds(new c: Checkpoint, error: Error)
      requires Exited(c, error) && TaskKept() && old(state.status) == Active
      requires Because(c, error) && (c.work.model == "" ==> Unmodelled())
      requires error == WorkerError ==> old(state.checkpoint == None || !Flagged(state.checkpoint.value))
      ensures CommandEnds(Some(error))
    {
    }

    twostate lemma GateEnds(new c: Checkpoint, error: Error)
      requires Exited(c, error) && TaskKept() && old(state.status) == Active && GateBecause(error)
      requires error == WorkerError ==> AtRest()
      ensures CommandEnds(Some(error))
    {
    }

    twostate lemma RestoredEnds()
      requires AtRest() && TaskKept() && Same(output, old(output)) && (old(state.fault) ==> state.fault)
      requires state.status in {Active, RateLimited, ProviderUnavailable} && Ends(Some(WorkerError))
      ensures CommandEnds(Some(WorkerError))
    {
    }

    twostate predicate AnswerPrinted()
      reads `output, state`status
    {
      |output| == |old(output)| + 1 && old(output) <= output && Matches(output[|output| - 1], state.status)
    }

    /** The state between a call that came back and the next step of the same command. */
    ghost predicate Idle()
      reads this, state, world
    {
      Inv() && !mon.basis.complete && state.status == Active && state.checkpoint == None && state.lastRequest.Some?
    }

    ghost predicate Running()
      reads this, state, world
    {
      Idle() && !mon.basis.asked && (state.pendingDecision ==> !mon.basis.taken)
    }

    /** Running, inside a review of the state pinned last. */
    ghost predicate Reviewing()
      reads this, state, world
    {
      && Running() && !state.pendingDecision && mon.basis.report == NoReport
      && mon.basis.pinned && mon.basis.pin.Some? && Same(state.reviewStart, mon.basis.pin)
    }

    /** The repository is as pinned. */
    ghost predicate AsPinned()
      reads `mon, world`repo
    {
      mon.basis.pin.Some? && EqualGitSnapshot(mon.basis.pin.value, Capture(world.repo, world.ignored))
    }

    /** Everything that can raise a review's risk, with the changed paths looked at now; what git cannot
        tell counts as critical. */
    method ComputeEffectiveRisk(workerResult: Result, autoFixes: nat, hasDecision: bool, hasPriorReview: bool)
      returns (f: Floor, ghost seen: bool)
      ensures f == Floor(workerResult.risk == Packets.High, autoFixes, hasDecision, hasPriorReview, f.criticalPath,
                         state.baseline, Capture(world.repo, world.ignored))
      ensures f.criticalPath <==>
        !seen || CriticalAt(world.critical, state.baseline, Capture(world.repo, world.ignored))
    {
      var critical := world.CriticalPathChanged(state.baseline);
      seen := critical.Some?;
      f := Floor(workerResult.risk == Packets.High, autoFixes, hasDecision, hasPriorReview,
                 critical == None || critical.value, state.baseline, Capture(world.repo, world.ignored));
    }

    /** What the state files say for a floor: a decision was taken, a review accepted, and the task's baseline. */
    ghost function Grounds(): (bool, bool, Option<string>)
      reads state`lastDecision, state`lastReview, state`baseline
    {
      (state.lastDecision.Some?, state.lastReview.Some?, state.baseline)
    }

    /** A floor decided now on what the state files and the repository say. */
    ghost predicate FloorFits(f: Floor, workerResult: Result, autoFixes: nat)
      reads state`lastDecision, state`lastReview, state`baseline, world`repo
    {
      && f.workerHigh == (workerResult.risk == Packets.High) && f.autoFixes == autoFixes
      && Same((f.decided, f.priorReview, f.base), Grounds())
      && (!f.criticalPath ==> !CriticalAt(world.critical, f.base, f.on))
      && Same(f.on, Capture(world.repo, world.ignored))
    }

    /** A resumed review keeps a high risk saved with it; a low or missing one is decided anew. */
    method ResolveReviewResumeRisk(workerResult: Result, work: Work) returns (f: Option<Floor>)
      ensures f == None <==> work.effectiveRisk == Some(Packets.High)
      ensures f.Some? ==> FloorFits(f.value, workerResult, work.autoFixes)
    {
      if work.effectiveRisk == Some(Packets.High) { return None; }
      var floor, _ :=
        ComputeEffectiveRisk(workerResult, work.autoFixes, state.lastDecision.Some?, state.lastReview.Some?);
      f := Some(floor);
    }

    predicate HighFloor(f: Option<Floor>) {
      f == None || FloorHigh(f.value)
    }

    /** Only an escalation survives the request to re-issue a pass as one. */
    function ResolveRiskFloorReemit(reemit: Result): Result {
      if reemit.status == NeedsSolReview then reemit else Escalation(reemit.artifacts)
    }

    /** The reviewer answered just now: this result, or anything but an escalation when this is one. */
    ghost predicate SaidByReviewer(result: Result)
      reads `mon, world`lastReply
    {
      && mon.answer.Some? && mon.answer.value.role == Reviewer && Said(mon.answer.value.result) && Relays(result)
    }

    /** Ask the same reviewer session to re-issue its pass as an escalation. */
    method RiskFloorReemit(workerResult: Result, reviewNumber: nat, autoFixes: nat) returns (r: Floored)
      requires Reviewing() && reviewNumber == autoFixes + 1 && autoFixes == mon.basis.rounds <= config.maxAutoFixRounds
      requires Same(mon.basis.work, Some(workerResult))
      modifies this, state`checkpoint, state`status, state`fault, state`telemetry, state`stats
      modifies state`comparison, world
      ensures old(book.events) <= book.events
      ensures Inv() && Same(mon.basis, old(mon.basis))
      ensures CallsAtMost(10)
      ensures r.Kept? ==> Reviewing() && AsPinned() && r.result.status == NeedsSolReview && SaidByReviewer(r.result)
      ensures r.Kept? ==> Carried()
      ensures Made(RunCall(Reviewer, RiskFloorRound(reviewNumber), config.highRiskReviewerModel, true)) ||
        (r.Left? && Same(book.events, old(book.events)) && (state.fault || Unmodelled()))
      ensures r.Left? ==> CommandEnds(r.error)
    {
      var c := Checkpoint(
        Work(ReviewStage, Reviewer, config.highRiskReviewerModel, true, Some(workerResult),
          reviewNumber, autoFixes, true, false, None),
        RiskFloorRound(reviewNumber), false, false, false, None);
      r := RunReviewer(c);
      if r.Kept? { r := Kept(ResolveRiskFloorReemit(r.result)); }
    }

    /** Under a high floor no pass gets through. */
    method EnforceRiskFloor(workerResult: Result, reviewNumber: nat, autoFixes: nat, high: bool, reviewResult: Result)
      returns (r: Floored)
      requires Reviewing() && AsPinned() && reviewNumber == autoFixes + 1
      requires autoFixes == mon.basis.rounds <= config.maxAutoFixRounds
      requires ReviewerStatus(reviewResult.status) && SaidByReviewer(reviewResult)
      requires Same(mon.basis.work, Some(workerResult))
      modifies this, state`checkpoint, state`status, state`fault, state`telemetry, state`stats
      modifies state`comparison, world
      ensures old(book.events) <= book.events
      ensures Inv() && Same(mon.basis, old(mon.basis))
      ensures CallsAtMost(if high && reviewResult.status == Pass then 10 else 0)
      ensures r.Kept? ==> Reviewing() && AsPinned() && ReviewerStatus(r.result.status) && SaidByReviewer(r.result)
      ensures r.Kept? ==> Carried()
      ensures r.Kept? ==> (high ==> r.result.status != Pass)
      ensures r.Kept? ==> (high && reviewResult.status == Pass ==> r.result.status == NeedsSolReview)
      ensures !high || reviewResult.status != Pass ==> r == Kept(reviewResult) && JournalKept()
      ensures !high || reviewResult.status != Pass ==> Same(world.repo, old(world.repo))
      ensures high && reviewResult.status == Pass ==>
        Made(RunCall(Reviewer, RiskFloorRound(reviewNumber), config.highRiskReviewerModel, true)) ||
          (r.Left? && Same(book.events, old(book.events)) && (state.fault || Unmodelled()))
      ensures r.Left? ==> CommandEnds(r.error)
    {
      if !high || reviewResult.status != Pass { return Kept(reviewResult); }
      r := RiskFloorReemit(workerResult, reviewNumber, autoFixes);
    }

    twostate predicate EnteredReview(verdict: Status, new floor: Option<Floor>)
      reads `book, world`repo
    {
      Adds(ReviewAccepted(verdict, floor, Capture(world.repo, world.ignored)))
    }

    /** Take the review result: write it down, and with it what its floor was decided on. */
    method AcceptReview(reviewResult: Result, floor: Option<Floor>) returns (ok: bool)
      requires Reviewing() && AsPinned() && SaidByReviewer(reviewResult)
      requires reviewResult.status == Pass ==> floor.Some? && !FloorHigh(floor.value)
      requires floor.Some? ==> mon.basis.work.Some?
      requires floor.Some? ==> FloorFits(floor.value, mon.basis.work.value, mon.basis.rounds)
      modifies `book, `mon, state`lastReview, state`fault
      ensures old(book.events) <= book.events
      ensures Inv() && (old(state.fault) ==> state.fault)
      ensures PhaseKept()
      ensures FilesKept()
      ensures ok ==> state.lastReview == Some(reviewResult) && Carried()
      ensures ok ==> EnteredReview(reviewResult.status, floor)
      ensures ok ==> Same(mon.last, Some(Accepted(reviewResult.status, Capture(world.repo, world.ignored))))
      ensures !ok ==> state.fault && JournalKept()
    {
      ok := state.WriteLastReview(Some(reviewResult));
      if ok {
        EnterReview(reviewResult.status, floor);
      }
    }

    // -------------------------------------------------------------- the review loop

    /** The task file is fixed once per task; only a task stopped before it could be fixed looks again. */
    method EnsureActiveTaskPath() returns (r: Check)
      requires Running()
      modifies `output, state`activeTask, state`checkpoint, state`status, state`fault, state`telemetry, world`blind
      ensures Inv()
      ensures old(state.activeTask).Some? ==> state.activeTask == old(state.activeTask) && r.Proceed?
      ensures r.Proceed? ==> Running() && state.activeTask.Some? && Carried()
      ensures r.Halted? ==> r.error.Some? && CommandEnds(r.error) && (r.error == Some(GuardStopped) || state.fault)
      ensures r.Halted? ==> world.blind || state.fault
    {
      if state.activeTask.Some? { return Proceed; }
      r := BindTask();
    }

    /** Provider calls a review at this many automatic fixes can still cost, its later rounds included. */
    function ReviewBudget(autoFixes: nat): nat
      requires autoFixes <= config.maxAutoFixRounds
    {
      20 * (config.maxAutoFixRounds - autoFixes) + 20
    }

    /** From entry n on: the worker's end was pinned, then the review's start, and then the reviewer was called;
        unless a write failed, something could not be observed, or no model is set. */
    twostate predicate SentToReview(n: nat)
      reads `book, state`fault, world`blind
    {
      state.fault || world.blind || Unmodelled() ||
        (n + 2 < |book.events| && book.events[n].WorkerEnded? && book.events[n + 1].ReviewPinned? &&
          CalledAt(n + 2, Reviewer))
    }

    /** This was entered next, unless a write failed. */
    twostate predicate Entered(e: Event)
      reads `book, state`fault
    {
      state.fault || (|old(book.events)| < |book.events| && Same(book.events[|old(book.events)|], e))
    }

    /** From a worker's result to a review result, and on from there. */
    method ReviewUntilStable(workerResult: Result, reviewNumber: nat, autoFixes: nat) returns (err: Option<Error>)
      requires Running() && !state.pendingDecision && reviewNumber == autoFixes + 1
      requires autoFixes == mon.basis.rounds <= config.maxAutoFixRounds
      requires Same(mon.answer, Some(Answer(Worker, workerResult))) && workerResult.status != NeedsSolDecision
      requires mon.ready
      requires mon.basis.report == NoReport
      modifies this, state, world
      ensures old(book.events) <= book.events
      ensures Inv() && CommandEnds(err)
      ensures CallsAtMost(ReviewBudget(autoFixes))
      ensures NextEntry(WorkerEnded(Capture(old(world.repo), world.ignored)))
      ensures SentToReview(|old(book.events)|)
      decreases config.maxAutoFixRounds - autoFixes, 1, 0
    {
      var check, work, floor := OpenReview(workerResult, reviewNumber, autoFixes);
      if check.Halted? { return check.error; }
      err := ReviewOpened(workerResult, work, floor);
    }

    /** Ask the reviewer about the pinned state and take its result. */
    method ReviewOpened(workerResult: Result, work: Work, floor: Floor) returns (err: Option<Error>)
      requires Reviewing() && AsPinned() && Same(mon.basis.work, Some(workerResult))
      requires ShapedWork(work, config.maxAutoFixRounds) && work.stage == ReviewStage && !work.reportOnly
      requires !work.riskFloorReemit
      requires work.model == "" ==> Unmodelled()
      requires work.autoFixes == mon.basis.rounds && work.workerResult == Some(workerResult)
      requires FloorFits(floor, workerResult, work.autoFixes)
      modifies this, state, world
      ensures old(book.events) <= book.events
      ensures Inv() && CommandEnds(err)
      ensures CallsAtMost(ReviewBudget(work.autoFixes))
      ensures Made(RunCall(Reviewer, ReviewRound(work.reviewNumber), work.model, true)) || state.fault || Unmodelled()
      decreases config.maxAutoFixRounds - work.autoFixes, 0, 3
    {
      var reviewed := RunReviewer(Checkpoint(work, ReviewRound(work.reviewNumber), false, false, false, None));
      if reviewed.Left? { return reviewed.error; }
      err := TakeReview(workerResult, work.reviewNumber, work.autoFixes, Some(floor), reviewed.result);
    }

    /** One reviewer call over the pinned state; its result counts only if the state is still the same. */
    method RunReviewer(c: Checkpoint) returns (r: Floored)
      requires Reviewing() && Shaped(c, config.maxAutoFixRounds) && c.work.stage == ReviewStage && !Flagged(c)
      requires c.work.autoFixes == mon.basis.rounds
      requires !c.resultCorrection && (c.work.model == "" ==> Unmodelled())
      requires Same(c.work.workerResult, mon.basis.work)
      modifies this, state`checkpoint, state`status, state`fault, state`telemetry, state`stats
      modifies state`comparison, world
      ensures old(book.events) <= book.events
      ensures Inv() && Same(mon.basis, old(mon.basis))
      ensures CallsAtMost(10)
      ensures r.Kept? ==> Reviewing() && AsPinned() && AcceptedFor(Reviewer, r.result)
      ensures r.Kept? ==> Said(r.result)
      ensures r.Kept? ==> Same(mon.answer, Some(Answer(Reviewer, r.result)))
      ensures r.Kept? ==> Carried()
      ensures Made(CallOf(c)) || (r.Left? && Same(book.events, old(book.events)) && (state.fault || Unmodelled()))
      ensures r.Left? ==> CommandEnds(r.error)
    {
      r := CallReviewer(c);
      if r.Left? { return; }
      var check := CloseReview();
      if check.Halted? { r := Left(check.error); }
    }

    /** The repository must be as pinned after the reviewer's call. */
    method CloseReview() returns (r: Check)
      requires Reviewing() && JustCalled(Reviewer)
      modifies `output, state`comparison, state`checkpoint, state`status, state`fault, state`telemetry, world`blind
      ensures Inv()
      ensures r.Proceed? ==> Reviewing() && AsPinned() && Carried()
      ensures r.Halted? ==> CommandEnds(r.error) && (state.fault || world.blind || !AsPinned())
      ensures r == Halted(None) ==> state.status == WaitingSolReview
      ensures NoCalls()
    {
      r := VerifyReviewEndSnapshot();
      if r.Halted? { HaltEnds(r.error); }
    }

    method CallReviewer(c: Checkpoint) returns (r: Floored)
      requires Reviewing() && Shaped(c, config.maxAutoFixRounds) && c.work.stage == ReviewStage && !Flagged(c)
      requires c.work.autoFixes == mon.basis.rounds
      requires !c.resultCorrection && (c.work.model == "" ==> Unmodelled())
      requires Same(c.work.workerResult, mon.basis.work)
      modifies this, state`checkpoint, state`status, state`fault, state`telemetry, state`stats, world
      ensures old(book.events) <= book.events
      ensures Inv() && Same(mon.basis, old(mon.basis))
      ensures CallsAtMost(10)
      ensures r.Kept? ==> Reviewing() && AcceptedFor(Reviewer, r.result)
      ensures r.Kept? ==> Said(r.result)
      ensures r.Kept? ==> Same(mon.answer, Some(Answer(Reviewer, r.result))) && JustCalled(Reviewer)
      ensures r.Kept? ==> Carried()
      ensures Made(CallOf(c)) || (r.Left? && Same(book.events, old(book.events)) && (state.fault || Unmodelled()))
      ensures r.Left? ==> CommandEnds(r.error)
    {
      var outcome := RunModel(c);
      if outcome.Failed? {
        ExitEnds(c, outcome.error);
        return Left(Some(outcome.error));
      }
      return Kept(outcome.result);
    }

    /** Pin the worker's end, decide the risk floor, and pin the review's start. */
    method OpenReview(workerResult: Result, reviewNumber: nat, autoFixes: nat)
      returns (r: Check, work: Work, floor: Floor)
      requires Running() && !state.pendingDecision && reviewNumber == autoFixes + 1
      requires autoFixes == mon.basis.rounds <= config.maxAutoFixRounds
      requires Same(mon.answer, Some(Answer(Worker, workerResult))) && workerResult.status != NeedsSolDecision
      requires mon.ready
      requires mon.basis.report == NoReport
      modifies this, world`blind, state`workerEnd, state`reviewStart, state`comparison, state`activeTask
      modifies state`checkpoint, state`status, state`fault, state`telemetry
      ensures old(book.events) <= book.events
      ensures Inv()
      ensures r.Proceed? ==> Reviewing() && AsPinned() && FloorFits(floor, workerResult, autoFixes)
      ensures r.Proceed? ==> Same(mon.basis.work, Some(workerResult))
      ensures r.Proceed? ==> Carried()
      ensures work.model == if FloorHigh(floor) then config.highRiskReviewerModel else config.reviewerModel
      ensures work.effectiveRisk == Some(if FloorHigh(floor) then Packets.High else Low)
      ensures work == ReviewerWork(workerResult, reviewNumber, autoFixes, work.effectiveRisk)
      ensures r.Halted? ==> CommandEnds(r.error) && (state.fault || world.blind)
      ensures PaceKept()
      ensures NextEntry(WorkerEnded(Capture(world.repo, world.ignored)))
      ensures r.Proceed? ==>
        |book.events| == |old(book.events)| + 2 && book.events[|old(book.events)| + 1].ReviewPinned?
    {
      r := PinWork(workerResult);
      floor, work := ChooseReviewer(workerResult, reviewNumber, autoFixes);
      if r.Proceed? { r := BeginReview(); }
    }

    /** Pin what the worker left behind, with the work it declares. */
    method PinWork(workerResult: Result) returns (r: Check)
      requires Running() && !state.pendingDecision && mon.basis.report == NoReport && mon.ready
      requires Same(mon.answer, Some(Answer(Worker, workerResult))) && workerResult.status != NeedsSolDecision
      modifies this, state`workerEnd, state`checkpoint, state`status, state`fault, state`telemetry, world`blind
      ensures old(book.events) <= book.events
      ensures Inv() && PaceKept()
      ensures r.Proceed? ==> Running() && mon.basis.report == NoReport && Same(mon.basis.work, Some(workerResult))
      ensures r.Proceed? ==> Same(state.workerEnd, Some(Capture(world.repo, world.ignored)))
      ensures r.Proceed? ==> Carried()
      ensures if r.Proceed? then Adds(WorkerEnded(Capture(world.repo, world.ignored)))
        else Same(book.events, old(book.events))
      ensures r.Halted? ==> CommandEnds(r.error) && (state.fault || world.blind)
    {
      r := CaptureWorkerEndSnapshot();
      if r.Halted? { HaltEnds(r.error); }
    }

    /** Decide the floor on the present state, and with it the reviewer. */
    method ChooseReviewer(workerResult: Result, reviewNumber: nat, autoFixes: nat) returns (floor: Floor, work: Work)
      ensures FloorFits(floor, workerResult, autoFixes)
      ensures work.model == if FloorHigh(floor) then config.highRiskReviewerModel else config.reviewerModel
      ensures work.effectiveRisk == Some(if FloorHigh(floor) then Packets.High else Low)
      ensures work == ReviewerWork(workerResult, reviewNumber, autoFixes, work.effectiveRisk)
    {
      ghost var seen;
      floor, seen := ComputeEffectiveRisk(workerResult, autoFixes, state.lastDecision.Some?, state.lastReview.Some?);
      work := ReviewerWork(workerResult, reviewNumber, autoFixes, Some(if FloorHigh(floor) then Packets.High else Low));
    }

    /** The reviewer's part of a round; a high risk goes to the stronger model. */
    function ReviewerWork(workerResult: Result, reviewNumber: nat, autoFixes: nat, risk: Option<Risk>): Work {
      Work(ReviewStage, Reviewer,
        if risk == Some(Packets.High) then config.highRiskReviewerModel else config.reviewerModel,
           true, Some(workerResult), reviewNumber, autoFixes, false, false, risk)
    }

    method BeginReview() returns (r: Check)
      requires Same(state.workerEnd, Some(Capture(world.repo, world.ignored)))
      requires Running() && !state.pendingDecision && mon.basis.report == NoReport
      modifies this, world`blind, state`reviewStart, state`comparison, state`activeTask
      modifies state`checkpoint, state`status, state`fault, state`telemetry
      ensures old(book.events) <= book.events
      ensures Inv()
      ensures r.Proceed? ==> Reviewing() && AsPinned() && Carried()
      ensures r.Proceed? ==> Adds(ReviewPinned(mon.basis.pin.value))
      ensures r.Halted? ==> CommandEnds(r.error) && (state.fault || world.blind)
      ensures Same(Grounds(), old(Grounds())) && Same(world.repo, old(world.repo))
      ensures Same(mon.basis.work, old(mon.basis.work)) && PaceKept()
    {
      r := EnsureActiveTaskPath();
      if r.Proceed? { r := PinReview(); }
    }

    /** Pin the review's start, as the worker left the repository. */
    method PinReview() returns (r: Check)
      requires Same(state.workerEnd, Some(Capture(world.repo, world.ignored)))
      requires Running() && !state.pendingDecision && mon.basis.report == NoReport
      modifies this, state`reviewStart, state`comparison, state`checkpoint, state`status, state`fault, state`telemetry
      modifies world`blind
      ensures old(book.events) <= book.events
      ensures Inv()
      ensures r.Proceed? ==> Reviewing() && AsPinned() && Carried()
      ensures r.Proceed? ==> Adds(ReviewPinned(mon.basis.pin.value))
      ensures r.Halted? ==> CommandEnds(r.error) && (state.fault || world.blind)
      ensures Same(Grounds(), old(Grounds())) && Same(world.repo, old(world.repo))
      ensures Same(mon.basis.work, old(mon.basis.work)) && PaceKept()
    {
      r := VerifyReviewStartSnapshot();
      if r.Halted? { HaltEnds(r.error); }
    }

    /** Apply the floor, write the review down, and act on it. */
    method TakeReview(workerResult: Result, reviewNumber: nat, autoFixes: nat, floor: Option<Floor>, result: Result)
      returns (err: Option<Error>)
      requires Reviewing() && AsPinned() && reviewNumber == autoFixes + 1
      requires autoFixes == mon.basis.rounds <= config.maxAutoFixRounds
      requires ReviewerStatus(result.status) && SaidByReviewer(result) && Same(mon.basis.work, Some(workerResult))
      requires floor.Some? ==> FloorFits(floor.value, workerResult, autoFixes)
      modifies this, state, world
      ensures old(book.events) <= book.events
      ensures Inv() && CommandEnds(err)
      ensures CallsAtMost(ReviewBudget(autoFixes) - 10)
      ensures result.status != Pass || !HighFloor(floor) ==>
        NextEntry(ReviewAccepted(result.status, floor, Capture(old(world.repo), world.ignored))) &&
          Entered(ReviewAccepted(result.status, floor, Capture(old(world.repo), world.ignored)))
      ensures result.status == Pass && HighFloor(floor) ==>
        CalledFirst(Reviewer) || (Same(book.events, old(book.events)) && (state.fault || Unmodelled()))
      decreases config.maxAutoFixRounds - autoFixes, 0, 2
    {
      var floored := EnforceRiskFloor(workerResult, reviewNumber, autoFixes, HighFloor(floor), result);
      if floored.Left? { return floored.error; }
      err := ActOnReview(reviewNumber, autoFixes, floor, floored.result);
    }

    /** Write the review down and act on it. */
    method ActOnReview(reviewNumber: nat, autoFixes: nat, floor: Option<Floor>, result: Result)
      returns (err: Option<Error>)
      requires Reviewing() && AsPinned() && reviewNumber == autoFixes + 1
      requires autoFixes == mon.basis.rounds <= config.maxAutoFixRounds
      requires ReviewerStatus(result.status) && SaidByReviewer(result)
      requires result.status == Pass ==> floor.Some? && !FloorHigh(floor.value)
      requires floor.Some? ==> mon.basis.work.Some?
      requires floor.Some? ==> FloorFits(floor.value, mon.basis.work.value, autoFixes)
      modifies this, state, world
      ensures old(book.events) <= book.events
      ensures Inv() && CommandEnds(err)
      ensures CallsAtMost(if result.status == FixRequired then ReviewBudget(autoFixes) - 10 else 0)
      ensures NextEntry(ReviewAccepted(result.status, floor, Capture(old(world.repo), world.ignored)))
      ensures Entered(ReviewAccepted(result.status, floor, Capture(old(world.repo), world.ignored)))
      decreases config.maxAutoFixRounds - autoFixes, 0, 1
    {
      var ok := AcceptReview(result, floor);
      if !ok { return Some(WorkerError); }
      err := HandleReviewResult(result, reviewNumber, autoFixes);
    }

    /** The last entry calls for this status. */
    ghost predicate Concludes(status: TaskStatus)
      reads `book, `mon
    {
      book.events != [] &&
      match book.events[|book.events| - 1]
      case AnswerTaken(asked) => asked == NeedsSolDecision && status == WaitingDecision
      case ReviewAccepted(verdict, _, _) =>
        || (verdict == Pass && status == Complete) || (verdict == NeedsSolReview && status == WaitingSolReview)
        || (verdict == FixRequired && mon.basis.rounds == config.maxAutoFixRounds && status == WaitingSolReview)
      case _ => false
    }

    /** Set the status the command ends on and print its result. */
    method ConcludeWith(result: Result, status: TaskStatus) returns (err: Option<Error>)
      requires Idle() && Matches(result, status) && (state.pendingDecision <==> status == WaitingDecision)
      requires Concludes(status) && (JustAccepted(FixRequired) || Relays(result))
      requires status == WaitingDecision ==> mon.basis.asked && mon.basis.taken
      requires status == Complete ==> mon.last.Some? && mon.last.value.verdict == Pass
      modifies this, state`status, state`fault
      ensures old(book.events) <= book.events
      ensures Inv() && CommandEnds(err)
      ensures err == None || state.fault
      ensures err == None ==> state.status == status && output == old(output) + [result]
      ensures if status == Complete && err == None then Adds(Completed) else Same(book.events, old(book.events))
      ensures err == None && status == Complete ==> mon.basis.complete
    {
      var ok := Conclude(status);
      if !ok { return Some(WorkerError); }
      EmitResult(result);
      return None;
    }

    method Conclude(status: TaskStatus) returns (ok: bool)
      requires Idle() && Concludes(status) && status in {Complete, WaitingDecision, WaitingSolReview}
      requires state.pendingDecision <==> status == WaitingDecision
      requires status == WaitingDecision ==> mon.basis.asked && mon.basis.taken
      requires status == Complete ==> mon.last.Some? && mon.last.value.verdict == Pass
      modifies `book, `mon, state`status, state`fault
      ensures old(book.events) <= book.events
      ensures Inv() && FilesKept() && mon.basis.taken == old(mon.basis.taken)
      ensures if ok then state.status == status && Concluding() && state.fault == old(state.fault) else state.fault
      ensures if status == Complete && ok then Adds(Completed) else Same(book.events, old(book.events))
      ensures ok && status == Complete ==> mon.basis.complete
    {
      ok := state.SetTaskStatus(status);
      if ok && status == Complete { Record(Completed); }
    }

    /** The last entry is a review accepted with this verdict. */
    ghost predicate JustAccepted(verdict: Status)
      reads `book
    {
      book.events != [] && book.events[|book.events| - 1].ReviewAccepted?
      && book.events[|book.events| - 1].verdict == verdict
    }

    /** Act on an accepted review: complete, escalate, or start the next automatic fix. */
    method HandleReviewResult(result: Result, reviewNumber: nat, autoFixes: nat) returns (err: Option<Error>)
      requires Running() && !state.pendingDecision && reviewNumber == autoFixes + 1
      requires autoFixes == mon.basis.rounds <= config.maxAutoFixRounds
      requires ReviewerStatus(result.status)
      requires JustAccepted(result.status) && Relays(result)
      requires Same(mon.last, Some(Accepted(result.status, Capture(world.repo, world.ignored))))
      modifies this, state, world
      ensures old(book.events) <= book.events
      ensures Inv() && CommandEnds(err)
      ensures CallsAtMost(if result.status == FixRequired then ReviewBudget(autoFixes) - 10 else 0)
      ensures result.status == Pass && err == None ==> state.status == Complete && output == old(output) + [result]
      ensures result.status == NeedsSolReview && err == None ==> state.status == WaitingSolReview
      ensures result.status == NeedsSolReview && err == None ==> output == old(output) + [result]
      ensures result.status == FixRequired && autoFixes == config.maxAutoFixRounds ==>
        Same(book.events, old(book.events))
      ensures result.status == FixRequired && autoFixes == config.maxAutoFixRounds ==> NoCalls()
      ensures result.status == FixRequired && autoFixes == config.maxAutoFixRounds && err == None ==>
        state.status == WaitingSolReview && output == old(output) + [Escalation(result.artifacts)]
      ensures result.status == FixRequired && autoFixes < config.maxAutoFixRounds ==>
        NextEntry(FixStarted(autoFixes + 1, IsReportOnlyFix(result))) &&
          (world.blind || Entered(FixStarted(autoFixes + 1, IsReportOnlyFix(result))))
      ensures result.status != FixRequired || autoFixes == config.maxAutoFixRounds ==> err == None || state.fault
      decreases config.maxAutoFixRounds - autoFixes, 0, 0
    {
      if result.status == Pass {
        err := ConcludeWith(result, Complete);
      } else if result.status == NeedsSolReview {
        err := ConcludeWith(result, WaitingSolReview);
      } else if autoFixes >= config.maxAutoFixRounds {
        err := ConcludeWith(Escalation(result.artifacts), WaitingSolReview);
      } else {
        err := RunAutoFix(result, reviewNumber, autoFixes + 1);
      }
    }

    /** From entry n on: the fix worker was called, for a report after the repository was pinned for it. */
    twostate predicate FixCalled(n: nat, reportOnly: bool, round: nat)
      reads `book, `output, state`checkpoint, state`status, state`fault, state`activeTask, world
    {
      || world.blind || Unmodelled() || FixStopped()
      || (if reportOnly
          then n < |book.events| && book.events[n].ReportOnlyPinned? && MadeAt(n + 1, FixCall(true, round))
          else MadeAt(n, FixCall(false, round)))
    }

    /** The call of a fix round: a report is made by a worker that must not write. */
    function FixCall(reportOnly: bool, round: nat): RunCall {
      RunCall(Worker, if reportOnly then ReportOnlyRound(round) else AutoFixRound(round), config.workerModel,
              reportOnly)
    }

    /** A write failed, or the artifacts or the parent-managed files failed their check. */
    twostate predicate FixStopped()
      reads `output, state`checkpoint, state`status, state`fault, state`activeTask, world
    {
      state.fault || world.denied || (StoppedForSol() && !ParentsPresent())
    }

    /** One automatic fix, or one report-only round, and the review that follows it. */
    method RunAutoFix(review: Result, reviewNumber: nat, round: nat) returns (err: Option<Error>)
      requires Running() && !state.pendingDecision && review.status == FixRequired
      requires reviewNumber == round == mon.basis.rounds + 1 <= config.maxAutoFixRounds
      requires mon.last == Some(Accepted(FixRequired, Capture(world.repo, world.ignored)))
      modifies this, state, world
      ensures old(book.events) <= book.events
      ensures Inv() && CommandEnds(err)
      ensures CallsAtMost(10 + ReviewBudget(round))
      ensures NextEntry(FixStarted(round, IsReportOnlyFix(review)))
      ensures world.blind || Entered(FixStarted(round, IsReportOnlyFix(review)))
      ensures FixCalled(|old(book.events)| + 1, IsReportOnlyFix(review), round)
      decreases config.maxAutoFixRounds - round, 3, 0
    {
      var reportOnly := IsReportOnlyFix(review);
      var check := OpenAutoFix(round, reportOnly);
      if check.Halted? { return check.error; }
      err := RunFixWorker(reportOnly, reviewNumber, round);
    }

    /** A worker's call; without an answer it ends the command. */
    method CallWorker(c: Checkpoint) returns (r: Floored)
      requires Inv() && !mon.basis.complete && !Flagged(c) && state.status == Active && state.lastRequest.Some?
      requires state.checkpoint == None || !Flagged(state.checkpoint.value)
      requires state.pendingDecision ==> !mon.basis.taken
      requires c.work.role == Worker && (c.work.model == "" ==> Unmodelled()) && !c.resultCorrection
      requires !mon.basis.asked && (c.work.model != "" ==> Grounded(c))
      modifies this, state`checkpoint, state`status, state`fault, state`telemetry, state`stats, world
      ensures old(book.events) <= book.events
      ensures Inv() && Same(mon.basis, old(mon.basis)) && CallsAtMost(10)
      ensures r.Kept? ==> Running() && AcceptedFor(Worker, r.result) && Carried()
      ensures r.Kept? ==> Said(r.result)
      ensures r.Kept? ==> Same(mon.answer, Some(Answer(Worker, r.result))) && JustCalled(Worker)
      ensures r.Left? ==> CommandEnds(r.error)
      ensures Made(CallOf(c)) || (r.Left? && Same(book.events, old(book.events)) && StoppedBefore(c))
    {
      var outcome := RunModel(c);
      if outcome.Failed? {
        ExitEnds(c, outcome.error);
        return Left(Some(outcome.error));
      }
      return Kept(outcome.result);
    }

    /** The fix worker's call, read-only for a report, and what follows from its result. */
    method RunFixWorker(reportOnly: bool, reviewNumber: nat, round: nat) returns (err: Option<Error>)
      requires Running() && !state.pendingDecision
      requires 1 <= reviewNumber == round == mon.basis.rounds <= config.maxAutoFixRounds
      requires mon.basis.report == if reportOnly then OnPin else NoReport
      modifies this, state, world
      ensures old(book.events) <= book.events
      ensures Inv() && CommandEnds(err)
      ensures CallsAtMost(10 + ReviewBudget(round))
      ensures world.blind || Unmodelled() || FixStopped() || Made(FixCall(reportOnly, round))
      decreases config.maxAutoFixRounds - round, 2, 1
    {
      var c := Checkpoint(
        Work(AutoFixStage, Worker, config.workerModel, reportOnly, None, reviewNumber, round, false, reportOnly, None),
        if reportOnly then ReportOnlyRound(round) else AutoFixRound(round), false, false, false, None);
      var worked := CallWorker(c);
      if worked.Left? { return worked.error; }
      err := CloseAutoFix(worked.result, reportOnly, reviewNumber, round);
    }

    /** The round was entered, and for a report the pin of the repository. */
    twostate predicate Opened(round: nat, reportOnly: bool)
      reads `book, world`repo
    {
      var n := |old(book.events)|;
      && |book.events| == n + (if reportOnly then 2 else 1) && Same(book.events[n], FixStarted(round, reportOnly))
      && (reportOnly ==> Same(book.events[n + 1], ReportOnlyPinned(Capture(world.repo, world.ignored))))
    }

    method OpenAutoFix(round: nat, reportOnly: bool) returns (r: Check)
      requires Running() && round == mon.basis.rounds + 1 <= config.maxAutoFixRounds
      requires mon.last == Some(Accepted(FixRequired, Capture(world.repo, world.ignored)))
      modifies this, world`blind, state`reportOnlyStart, state`activeTask
      modifies state`checkpoint, state`status, state`fault, state`telemetry
      ensures old(book.events) <= book.events
      ensures Inv()
      ensures r.Proceed? ==> Running() && Carried()
      ensures r.Proceed? && reportOnly ==> state.reportOnlyStart == Some(Capture(world.repo, world.ignored))
      ensures r.Proceed? ==> mon.basis.rounds == round
      ensures r.Proceed? ==> mon.basis.report == if reportOnly then OnPin else NoReport
      ensures r.Halted? ==> CommandEnds(r.error) && (state.fault || world.blind)
      ensures r.Proceed? ==> Opened(round, reportOnly)
      ensures mon.basis.taken == old(mon.basis.taken)
      ensures NextEntry(FixStarted(round, reportOnly))
    {
      r := EnsureActiveTaskPath();
      if r.Proceed? {
        r := PinAutoFix(round, reportOnly);
      }
    }

    method PinAutoFix(round: nat, reportOnly: bool) returns (r: Check)
      requires Running() && round == mon.basis.rounds + 1 <= config.maxAutoFixRounds
      requires mon.last == Some(Accepted(FixRequired, Capture(world.repo, world.ignored)))
      modifies this, world`blind, state`reportOnlyStart, state`checkpoint, state`status, state`fault, state`telemetry
      ensures old(book.events) <= book.events
      ensures Inv()
      ensures r.Proceed? ==> Running() && Carried()
      ensures r.Proceed? && reportOnly ==> state.reportOnlyStart == Some(Capture(world.repo, world.ignored))
      ensures r.Proceed? ==> mon.basis.rounds == round
      ensures r.Proceed? ==> mon.basis.report == if reportOnly then OnPin else NoReport
      ensures r.Halted? ==> CommandEnds(r.error) && (state.fault || world.blind)
      ensures r.Proceed? ==> Opened(round, reportOnly)
      ensures mon.basis.taken == old(mon.basis.taken)
      ensures NextEntry(FixStarted(round, reportOnly)) && |old(book.events)| < |book.events|
    {
      EnterFix(round, reportOnly);
      r := Proceed;
      if reportOnly { r := PinReport(); }
    }

    /** Pin the repository for the report. */
    method PinReport() returns (r: Check)
      requires Idle() && !mon.basis.asked && (state.pendingDecision ==> !mon.basis.taken)
      requires mon.basis.report == Unpinned && AsReviewed(mon, Capture(world.repo, world.ignored))
      modifies this, state`reportOnlyStart, state`checkpoint, state`status, state`fault, state`telemetry, world`blind
      ensures old(book.events) <= book.events
      ensures Inv() && PaceKept()
      ensures r.Proceed? ==> Running() && Carried()
      ensures r.Proceed? ==>
        state.reportOnlyStart == Some(Capture(world.repo, world.ignored)) && mon.basis.report == OnPin
      ensures r.Proceed? ==> Adds(ReportOnlyPinned(Capture(world.repo, world.ignored)))
      ensures r.Halted? ==> CommandEnds(r.error) && (state.fault || world.blind)
    {
      r := SaveReportOnlyStartSnapshot();
      if r.Halted? { HaltEnds(r.error); }
    }

    /** Take a fix worker's result, a report-only one only over an unchanged repository. */
    method CloseAutoFix(result: Result, reportOnly: bool, reviewNumber: nat, round: nat) returns (err: Option<Error>)
      requires Running() && !state.pendingDecision && AcceptedFor(Worker, result)
      requires Same(mon.answer, Some(Answer(Worker, result)))
      requires 1 <= reviewNumber == round == mon.basis.rounds <= config.maxAutoFixRounds
      requires JustCalled(Worker) && Said(result)
      requires mon.basis.report == if reportOnly then OnPin else NoReport
      modifies this, state, world
      ensures old(book.events) <= book.events
      ensures Inv() && CommandEnds(err)
      ensures CallsAtMost(ReviewBudget(round))
      ensures !reportOnly ==> NextEntry(AnswerTaken(result.status)) && Entered(AnswerTaken(result.status))
      ensures reportOnly ==> Reported(result.status)
      ensures reportOnly && !old(AsReportPinned(mon, Capture(world.repo, world.ignored))) ==>
        Same(book.events, old(book.events))
      decreases config.maxAutoFixRounds - round, 2, 0
    {
      if reportOnly {
        err := CloseReport(result, reviewNumber, round);
      } else {
        err := HandleWorkerResult(result, reviewNumber + 1, round);
      }
    }

    /** The report is accepted over the unchanged repository and its answer is taken, both unless a write failed or
        something could not be observed; nothing else comes first. */
    twostate predicate Reported(status: Status)
      reads `book, `mon, state`fault, state`reportOnlyStart, world`repo, world`blind
    {
      var n := |old(book.events)|;
      && (n < |book.events| ==> Same(book.events[n], ReportOnlyAccepted(Capture(old(world.repo), world.ignored))))
      && (n + 1 < |book.events| ==> Same(book.events[n + 1], AnswerTaken(status)))
      && (n + 1 < |book.events| || state.fault || world.blind || !old(AsReported()))
    }

    method CheckReport() returns (r: Check)
      requires Running() && mon.basis.report == OnPin && JustCalled(Worker)
      modifies this, state`comparison, state`checkpoint, state`status, state`fault, state`telemetry, world`blind
      ensures old(book.events) <= book.events
      ensures Inv() && Same(mon.basis, old(mon.basis))
      ensures r.Proceed? ==> Running() && Carried() && mon.checked
      ensures r.Proceed? ==> Same(mon.answer, old(mon.answer)) && old(AsReported())
      ensures r.Proceed? ==> Adds(ReportOnlyAccepted(Capture(old(world.repo), world.ignored)))
      ensures r.Halted? ==> Same(book.events, old(book.events)) && CommandEnds(r.error)
      ensures r.Halted? ==> state.fault || world.blind || !old(AsReported())
      ensures NoCalls()
    {
      r := VerifyReportOnlyEndSnapshot();
      if r.Halted? { HaltEnds(r.error); }
    }

    method CloseReport(result: Result, reviewNumber: nat, round: nat) returns (err: Option<Error>)
      requires Running() && !state.pendingDecision && AcceptedFor(Worker, result)
      requires Same(mon.answer, Some(Answer(Worker, result)))
      requires 1 <= reviewNumber == round == mon.basis.rounds <= config.maxAutoFixRounds && mon.basis.report == OnPin
      requires JustCalled(Worker) && Said(result)
      modifies this, state, world
      ensures old(book.events) <= book.events
      ensures Inv() && CommandEnds(err)
      ensures CallsAtMost(ReviewBudget(round))
      ensures Reported(result.status)
      ensures !old(AsReportPinned(mon, Capture(world.repo, world.ignored))) ==> Same(book.events, old(book.events))
      decreases config.maxAutoFixRounds - round, 1, 3
    {
      var check := CheckReport();
      if check.Halted? { return check.error; }
      err := HandleWorkerResult(result, reviewNumber + 1, round);
    }

    /** A worker asks for a decision, or its work goes to review. */
    method HandleWorkerResult(result: Result, reviewNumber: nat, autoFixes: nat) returns (err: Option<Error>)
      requires Running() && AcceptedFor(Worker, result) && Said(result)
      requires Same(mon.answer, Some(Answer(Worker, result)))
      requires mon.basis.report == NoReport || mon.checked
      requires reviewNumber == autoFixes + 1 && autoFixes == mon.basis.rounds <= config.maxAutoFixRounds
      modifies this, state, world
      ensures old(book.events) <= book.events
      ensures Inv() && CommandEnds(err) && (state.fault || mon.basis.taken)
      ensures CallsAtMost(ReviewBudget(autoFixes))
      ensures result.status == NeedsSolDecision ==> NoCalls()
      ensures result.status == NeedsSolDecision ==>
        |book.events| <= |old(book.events)| + 1 && NextEntry(AnswerTaken(NeedsSolDecision))
      ensures result.status == NeedsSolDecision && err == None ==>
        state.status == WaitingDecision && state.pendingDecision && output == old(output) + [result]
      ensures result.status != NeedsSolDecision ==>
        NextEntries(AnswerTaken(result.status), WorkerEnded(Capture(old(world.repo), world.ignored)))
      ensures Entered(AnswerTaken(result.status)) && (result.status == NeedsSolDecision ==> err == None || state.fault)
      ensures result.status != NeedsSolDecision ==> SentToReview(|old(book.events)| + 1)
      decreases config.maxAutoFixRounds - autoFixes, 1, 2
    {
      var ok := TakeAnswer(result);
      if !ok { return Some(WorkerError); }
      err := FollowAnswer(result, reviewNumber, autoFixes);
    }

    /** The last entry is this answer of the worker. */
    ghost predicate JustAnswered(status: Status)
      reads `book
    {
      book.events != [] && Same(book.events[|book.events| - 1], AnswerTaken(status))
    }

    /** Wait for the decision, or review the work. */
    method FollowAnswer(result: Result, reviewNumber: nat, autoFixes: nat) returns (err: Option<Error>)
      requires Idle() && AcceptedFor(Worker, result) && Said(result) && Same(mon.answer, Some(Answer(Worker, result)))
      requires mon.basis.taken && mon.ready && mon.basis.report == NoReport
      requires (state.pendingDecision <==> mon.basis.asked) && (mon.basis.asked <==> result.status == NeedsSolDecision)
      requires JustAnswered(result.status)
      requires reviewNumber == autoFixes + 1 && autoFixes == mon.basis.rounds <= config.maxAutoFixRounds
      modifies this, state, world
      ensures old(book.events) <= book.events
      ensures Inv() && CommandEnds(err)
      ensures CallsAtMost(ReviewBudget(autoFixes))
      ensures result.status == NeedsSolDecision ==> NoCalls() && Same(book.events, old(book.events))
      ensures result.status == NeedsSolDecision && err == None ==>
        state.status == WaitingDecision && state.pendingDecision && output == old(output) + [result]
      ensures result.status != NeedsSolDecision ==> NextEntry(WorkerEnded(Capture(old(world.repo), world.ignored)))
      ensures result.status == NeedsSolDecision ==> err == None || state.fault
      ensures result.status != NeedsSolDecision ==> SentToReview(|old(book.events)|)
      decreases config.maxAutoFixRounds - autoFixes, 1, 1
    {
      if result.status == NeedsSolDecision {
        err := ConcludeWith(result, WaitingDecision);
      } else {
        err := ReviewUntilStable(result, reviewNumber, autoFixes);
      }
    }

    /** Note down whether a decision is asked for. */
    method TakeAnswer(result: Result) returns (ok: bool)
      requires Running() && AcceptedFor(Worker, result) && Same(mon.answer, Some(Answer(Worker, result)))
      requires mon.basis.report == NoReport || mon.checked
      modifies `book, `mon, state`pendingDecision, state`status, state`fault
      ensures old(book.events) <= book.events
      ensures Inv() && (old(state.fault) ==> state.fault) && state.status == Active
      ensures ok ==> Idle() && mon.basis.taken && mon.ready && mon.basis.report == NoReport
      ensures mon.basis.rounds == old(mon.basis.rounds)
      ensures ok ==> Same(mon.answer, old(mon.answer))
      ensures ok ==> (state.pendingDecision <==> mon.basis.asked)
      ensures ok ==> (mon.basis.asked <==> result.status == NeedsSolDecision)
      ensures ok ==> Adds(AnswerTaken(result.status)) && state.fault == old(state.fault)
      ensures ok ==> JustAnswered(result.status)
      ensures !ok ==> state.fault && |book.events| <= |old(book.events)| + 1 && NextEntry(AnswerTaken(result.status))
      ensures old(mon.basis.taken) ==> mon.basis.taken
    {
      var waiting := result.status == NeedsSolDecision;
      ok := state.SetPendingDecision(waiting);
      if !ok { return; }
      EnterAnswer(result.status);
      if !waiting { ok := state.SetTaskStatus(Active); }
    }

    // -------------------------------------------------------------- commands

    /** Between commands: the books are in order, and as long as every write succeeded, status and
        checkpoint agree. */
    ghost predicate AtRest()
      reads this, state, world
    {
      Resting() && (state.fault || Agreement(state.status, state.checkpoint, state.pendingDecision))
    }

    /** Provider calls one command can cost. */
    function CommandBudget(): nat {
      20 * config.maxAutoFixRounds + 30
    }

    /** A fail-closed guard stop has already answered; the command ends quietly. */
    function Quiet(err: Option<Error>): Option<Error> {
      if err == Some(GuardStopped) then None else err
    }

    /** What every command promises: a printed answer that the status waits on, or an error and no answer;
        and a bounded number of provider calls, whatever was called for earlier tasks. */
    twostate predicate Commanded(new err: Option<Error>)
      reads this, state, world
    {
      && AtRest()
      && (err == None ==> AnswerPrinted())
      && (err != None ==> err != Some(GuardStopped) && Same(output, old(output)))
      && world.Total() <= old(world.Total()) + CommandBudget()
    }

    ghost predicate Takes(c: Command)
      reads state`status, state`pendingDecision, state`checkpoint, state`lastRequest
    {
      Enabled(c, state.status, state.pendingDecision, state.checkpoint, state.lastRequest.Some?)
    }

    /** A refused command changes nothing. */
    twostate predicate Refused(new err: Option<Error>)
      reads this, state, world
    {
      err == Some(WorkerError) && unchanged(this) && unchanged(state) && unchanged(world)
    }

    /** The command was entered first. */
    twostate predicate Started()
      reads `book, world`repo
    {
      EnteredAt(|old(book.events)|, CommandStarted(old(world.repo)))
    }

    ghost predicate EnteredAt(n: nat, e: Event)
      reads `book
    {
      n < |book.events| && Same(book.events[n], e)
    }

    /** Unless a write failed, the command's own entry comes first, and then the worker's call; without one
        the parent-managed files or the artifacts failed their check, or no model is set. */
    twostate predicate TakenUp(e: Event)
      reads this, state, world
    {
      state.fault || (Started() && EnteredAt(|old(book.events)| + 1, e) && Worked(|old(book.events)| + 2))
    }

    /** A new task is entered with its baseline. */
    twostate predicate TaskTakenUp()
      reads this, state, world
    {
      var n := |old(book.events)|;
      state.fault ||
        (Started() && EnteredAt(n + 1, TaskStarted) && EnteredAt(n + 2, BaselineTaken(state.baseline)) && Worked(n + 3))
    }

    twostate predicate Worked(n: nat)
      reads this, state, world
    {
      || (CalledAt(n, Worker) && book.events[n].call.model == config.workerModel && !book.events[n].call.readOnly)
      || (n == |book.events| && (StoppedForSol() || world.denied || config.workerModel == ""))
    }

    /** Nothing but a reset helps any more. */
    ghost predicate Stuck()
      reads state`status, state`pendingDecision, state`checkpoint, state`lastRequest
    {
      forall c: Command ::
        Enabled(c, state.status, state.pendingDecision, state.checkpoint, state.lastRequest.Some?) ==> c == ParentEdits
    }

    /** Unless a write failed, a command that was taken up leaves the task stuck exactly when a decision was
        pending, no answer of the worker was taken, and the command did not stop resumably. */
    twostate predicate StuckExactly()
      reads this, state
    {
      state.fault ||
      (Stuck() <==>
        old(state.pendingDecision) && !mon.basis.taken && state.status !in {RateLimited, ProviderUnavailable})
    }

    twostate lemma SettledTells()
      requires state.fault || Agreement(state.status, state.checkpoint, state.pendingDecision)
      requires Settled() && state.lastRequest.Some?
      ensures StuckExactly()
    {
      NothingEnabled(state.status, state.pendingDecision, state.checkpoint, state.lastRequest.Some?);
    }

    function FirstCheckpoint(phase: Phase): Checkpoint {
      Checkpoint(Work(WorkerStage, Worker, config.workerModel, false, None, 0, 0, false, false, None),
                 phase, false, false, false, None)
    }

    /** Run the worker and go on from its result. */
    method RunWorker(phase: Phase) returns (err: Option<Error>)
      requires Inv() && !mon.basis.complete && !mon.basis.asked && mon.basis.report == NoReport
      requires state.status == Active && state.lastRequest.Some? && (state.pendingDecision ==> !mon.basis.taken)
      requires state.checkpoint == None || !Flagged(state.checkpoint.value)
      requires mon.basis.rounds == 0
      requires phase in {WorkerNew, WorkerDecision, WorkerExplicitFix}
      modifies this, state, world
      ensures old(book.events) <= book.events
      ensures Inv() && CommandEnds(err)
      ensures CallsAtMost(CommandBudget())
      ensures state.fault || Worked(|old(book.events)|)
    {
      var worked := CallWorker(FirstCheckpoint(phase));
      if worked.Left? { return worked.error; }
      err := HandleWorkerResult(worked.result, 1, 0);
    }

    /** Drop the old task's state file by file, then begin a new one with clean books. */
    method StartNewTask() returns (ok: bool)
      requires Inv() && (state.checkpoint == None || !Flagged(state.checkpoint.value))
      modifies `book, `mon, state`status, state`baseline, state`workerEnd, state`reviewStart, state`reportOnlyStart
      modifies state`comparison, state`fault, state`stats, state`telemetry, world`runs, world`probes, world`spent
      ensures old(book.events) <= book.events
      ensures Inv() && (old(state.fault) ==> state.fault)
      ensures ok ==> state.fault == old(state.fault) && state.status == Active
      ensures ok ==> Same(mon, START.(repo := old(mon.repo)))
      ensures ok ==> Adds(TaskStarted) && world.runs == []
      ensures !ok ==> state.fault
      ensures world.Total() == old(world.Total()) && (Same(world.runs, old(world.runs)) || world.runs == [])
    {
      ok := DropTask();
      if !ok { return; }
      OpenBooks();
      ok := state.SetTaskStatus(Active);
    }

    /** A new task counts its calls from zero. */
    method OpenBooks()
      requires Inv() && state.status == NoStatus && (state.checkpoint == None || !Flagged(state.checkpoint.value))
      requires state.baseline == None && state.workerEnd == None && state.reviewStart == None
      requires state.reportOnlyStart == None
      modifies `book, `mon, state`stats, state`telemetry, world`runs, world`probes, world`spent
      ensures Inv() && Same(mon, START.(repo := old(mon.repo))) && world.runs == []
      ensures world.Total() == old(world.Total())
      ensures Adds(TaskStarted)
    {
      Record(TaskStarted);
      state.stats, state.telemetry := ZERO_STATS, Empty;
      world.BeginTask();
    }

    method DropTask() returns (ok: bool)
      requires Inv() && (state.checkpoint == None || !Flagged(state.checkpoint.value))
      modifies state`status, state`baseline, state`workerEnd, state`reviewStart, state`reportOnlyStart
      modifies state`comparison, state`fault
      ensures Inv() && (old(state.fault) ==> state.fault)
      ensures ok ==> state.status == NoStatus && state.baseline == None
      ensures ok ==> state.workerEnd == None && state.reviewStart == None && state.reportOnlyStart == None
      ensures ok ==> state.fault == old(state.fault)
      ensures !ok ==> state.fault
    {
      ok := state.TouchOther();
      if !ok { return; }
      ok := state.SetTaskStatus(NoStatus);
      if !ok { return; }
      ok := DropSnapshots();
      if ok { ok := state.TouchOther(); }
    }

    method DropSnapshots() returns (ok: bool)
      requires Inv() && state.status == NoStatus && (state.checkpoint == None || !Flagged(state.checkpoint.value))
      modifies state`baseline, state`workerEnd, state`reviewStart, state`reportOnlyStart, state`comparison, state`fault
      ensures Inv() && (old(state.fault) ==> state.fault)
      ensures ok ==> state.baseline == None && state.workerEnd == None && state.reviewStart == None
      ensures ok ==> state.reportOnlyStart == None
      ensures ok ==> state.fault == old(state.fault)
      ensures !ok ==> state.fault
    {
      ok := state.WriteBaseline(None);
      if ok { ok := state.SaveWorkerEndSnapshot(None); }
      if ok { ok := DropReviewSnapshots(); }
    }

    method DropReviewSnapshots() returns (ok: bool)
      requires Inv() && (state.checkpoint == None || !Flagged(state.checkpoint.value))
      modifies state`reviewStart, state`reportOnlyStart, state`comparison, state`fault
      ensures Inv() && (old(state.fault) ==> state.fault)
      ensures ok ==> state.reviewStart == None && state.reportOnlyStart == None && state.fault == old(state.fault)
      ensures !ok ==> state.fault
    {
      ok := state.SaveReviewStartSnapshot(None);
      if ok { ok := state.SaveReportOnlyStartSnapshot(None); }
      if ok { ok := state.SaveSnapshotComparison(None); }
    }

    /** The head that the new task's changes are counted from; without one every path counts as changed. */
    method CaptureGitBaseline() returns (ok: bool)
      requires Inv() && mon.calls == 0 && !mon.basis.complete
      requires state.checkpoint == None || !Flagged(state.checkpoint.value)
      modifies `book, `mon, state`baseline, state`fault
      ensures Inv() && (if ok then state.fault == old(state.fault) else state.fault)
      ensures if ok then Adds(BaselineTaken(state.baseline)) else Same(book.events, old(book.events))
      ensures PhaseKept() && mon.basis.reviews == old(mon.basis.reviews)
      ensures mon.basis.decisions == old(mon.basis.decisions)
    {
      var head := world.ResolveHead();
      ok := state.WriteBaseline(head);
      if ok { EnterBaseline(head); }
    }

    /** Write the new request down; nothing of the old task's decision, review and task file stays. */
    method ForgetOldTask(request: string) returns (ok: bool)
      requires Inv() && mon.basis.reviews == 0 && mon.basis.decisions == 0
      requires state.checkpoint == None || !Flagged(state.checkpoint.value)
      modifies state`lastRequest, state`lastDecision, state`lastReview, state`activeTask, state`fault
      ensures Inv() && (old(state.fault) ==> state.fault)
      ensures ok ==> state.lastRequest == Some(request) && state.lastDecision == None && state.lastReview == None
      ensures ok ==> state.activeTask == None
      ensures ok ==> state.fault == old(state.fault)
      ensures !ok ==> state.fault
    {
      ok := state.WriteLastRequest(Some(request));
      if ok { ok := ForgetOldReview(); }
      if ok { ok := state.WriteActiveTask(None); }
    }

    method ForgetOldReview() returns (ok: bool)
      requires Inv() && mon.basis.reviews == 0 && mon.basis.decisions == 0
      modifies state`lastDecision, state`lastReview, state`fault
      ensures Inv() && (old(state.fault) ==> state.fault)
      ensures ok ==> state.lastDecision == None && state.lastReview == None && state.fault == old(state.fault)
      ensures !ok ==> state.fault
    {
      ok := state.WriteLastDecision(None);
      if ok { ok := state.WriteLastReview(None); }
    }

    /** Bind the new task to its task file; without one, stop for Sol before any model call. */
    method BindTask() returns (r: Check)
      requires Inv() && !mon.basis.complete && state.status == Active && state.activeTask == None
      requires state.pendingDecision ==> !mon.basis.taken
      requires state.checkpoint == None || !Flagged(state.checkpoint.value)
      modifies `output, state`activeTask, state`checkpoint, state`status, state`fault, state`telemetry, world`blind
      ensures Inv()
      ensures r.Proceed? ==> Untouched() && Carried() && state.activeTask.Some?
      ensures r.Halted? ==> r.error.Some? && CommandEnds(r.error) && (r.error == Some(GuardStopped) || state.fault)
      ensures r.Halted? ==> world.blind || state.fault
    {
      var found := world.ResolveActiveTaskPath();
      if found == None {
        r := RefuseTask();
        return;
      }
      var ok := state.WriteActiveTask(found);
      return if ok then Proceed else Halted(Some(WorkerError));
    }

    /** Without a task file there is nothing to work on. */
    method RefuseTask() returns (r: Check)
      requires Inv() && !mon.basis.complete && state.status == Active && world.blind
      requires state.pendingDecision ==> !mon.basis.taken
      requires state.checkpoint == None || !Flagged(state.checkpoint.value)
      modifies `output, state`checkpoint, state`status, state`fault, state`telemetry
      ensures Inv()
      ensures r.Halted? && r.error.Some? && CommandEnds(r.error) && (r.error == Some(GuardStopped) || state.fault)
    {
      var e := FailClosedParentFileGuard();
      r := Halted(Some(e));
    }

    ghost predicate FreshPhase()
      reads `mon
    {
      !mon.basis.complete && !mon.basis.asked && !mon.basis.taken && mon.basis.report == NoReport
      && mon.basis.rounds == 0
    }

    /** The last entries, from n on, are those of a new task. */
    ghost predicate OpenedAt(n: nat)
      reads `book, state`baseline
    {
      && |book.events| == n + 2 && Same(book.events[n], TaskStarted)
      && Same(book.events[n + 1], BaselineTaken(state.baseline))
    }

    method OpenTask(request: string) returns (ok: bool)
      requires Inv() && (state.checkpoint == None || !Flagged(state.checkpoint.value))
      modifies `book, `mon, state`status, state`baseline, state`workerEnd, state`reviewStart, state`reportOnlyStart
      modifies state`comparison, state`lastRequest, state`lastDecision, state`lastReview, state`activeTask
      modifies state`fault, state`stats, state`telemetry, world`runs, world`probes, world`spent
      ensures old(book.events) <= book.events
      ensures Inv() && (old(state.fault) ==> state.fault)
      ensures ok ==> state.fault == old(state.fault) && state.status == Active
      ensures ok ==> FreshPhase() && world.runs == []
      ensures ok ==> OpenedAt(|old(book.events)|)
      ensures ok ==> state.lastRequest == Some(request) && state.lastDecision == None && state.lastReview == None
      ensures ok ==> state.activeTask == None
      ensures !ok ==> state.fault
      ensures world.Total() == old(world.Total()) && (Same(world.runs, old(world.runs)) || world.runs == [])
    {
      ok := StartNewTask();
      if ok { ok := state.TouchOther(); }
      if ok { ok := CaptureGitBaseline(); }
      if ok { ok := ForgetOldTask(request); }
    }

    method BeginNewTask(request: string) returns (err: Option<Error>)
      requires AtRest() && Takes(NewTask(request))
      modifies this, state, world
      ensures old(book.events) <= book.events
      ensures Commanded(err) && Ends(err)
      ensures state.fault || state.lastRequest == Some(request)
      ensures Same(world.runs, old(world.runs)) || |world.runs| <= CommandBudget()
      ensures TaskTakenUp() && StuckExactly()
    {
      var ok := PrepareTask(request);
      if !ok { return Some(WorkerError); }
      err := RunNewTask();
    }

    method PrepareTask(request: string) returns (ok: bool)
      requires Resting() && Takes(NewTask(request))
      modifies `book, `mon, state`status, state`baseline, state`workerEnd, state`reviewStart, state`reportOnlyStart
      modifies state`comparison, state`lastRequest, state`lastDecision, state`lastReview, state`activeTask
      modifies state`fault, state`stats, state`telemetry, world`runs, world`probes, world`spent
      modifies world`denied, world`blind, world`replies
      ensures old(book.events) <= book.events
      ensures Inv() && (if ok then state.fault == old(state.fault) else state.fault)
      ensures ok ==> state.status == Active && FreshPhase() && world.runs == []
      ensures ok ==> state.lastRequest == Some(request) && state.activeTask == None
      ensures ok ==> Started() && OpenedAt(|old(book.events)| + 1)
      ensures world.Total() == old(world.Total()) && (Same(world.runs, old(world.runs)) || world.runs == [])
    {
      StartCommand();
      ok := OpenTask(request);
    }

    method ExecuteNewTask(request: string) returns (err: Option<Error>)
      requires AtRest()
      modifies this, state, world
      ensures old(book.events) <= book.events
      ensures Commanded(err)
      ensures old(Takes(NewTask(request))) ==> state.fault || state.lastRequest == Some(request)
      ensures Same(world.runs, old(world.runs)) || |world.runs| <= CommandBudget()
      ensures if old(Takes(NewTask(request))) then Ends(err) else Refused(err)
      ensures old(Takes(NewTask(request))) ==>
        TaskTakenUp() && StuckExactly()
    {
      if state.pendingDecision { return Some(WorkerError); }
      if state.checkpoint.Some? && Flagged(state.checkpoint.value) { return Some(WorkerError); }
      err := BeginNewTask(request);
    }

    /** Bind the task and run the worker. */
    method RunNewTask() returns (err: Option<Error>)
      requires Inv() && FreshPhase() && state.status == Active
      requires state.activeTask == None && !state.pendingDecision && state.lastRequest.Some?
      requires state.checkpoint == None || !Flagged(state.checkpoint.value)
      modifies this, state, world
      ensures old(book.events) <= book.events
      ensures Continued(err)
    {
      err := WorkOnTask();
      SettledTells();
      err := Quiet(err);
    }

    method WorkOnTask() returns (err: Option<Error>)
      requires Inv() && FreshPhase() && state.status == Active
      requires state.activeTask == None && !state.pendingDecision && state.lastRequest.Some?
      requires state.checkpoint == None || !Flagged(state.checkpoint.value)
      modifies this, state, world
      ensures old(book.events) <= book.events
      ensures Inv() && CommandEnds(err)
      ensures CallsAtMost(CommandBudget()) && (state.fault || Worked(|old(book.events)|))
    {
      var check := BindTask();
      if check.Halted? { return check.error; }
      err := RunWorker(WorkerNew);
    }

    method WorkOn(phase: Phase) returns (err: Option<Error>)
      requires Running() && mon.basis.report == NoReport && mon.basis.rounds == 0
      requires phase in {WorkerDecision, WorkerExplicitFix}
      modifies this, state, world
      ensures old(book.events) <= book.events
      ensures Inv() && CommandEnds(err)
      ensures CallsAtMost(CommandBudget()) && (state.fault || Worked(|old(book.events)|))
    {
      var check := EnsureActiveTaskPath();
      if check.Halted? { return check.error; }
      err := RunWorker(phase);
    }

    /** What a command promises of the part after its own entries. */
    twostate predicate Continued(new err: Option<Error>)
      reads this, state, world
    {
      && Commanded(err) && CallsAtMost(CommandBudget()) && StuckExactly() && Ends(err)
      && Same(Brief(), old(Brief()))
      && (state.fault || Worked(|old(book.events)|))
    }

    /** Take the decision and go on working. */
    method TakeDecision(decision: string) returns (ok: bool)
      requires Inv() && state.status == WaitingDecision && state.lastRequest.Some? && !mon.basis.taken
      modifies `book, `mon, state`lastDecision, state`status, state`fault
      ensures old(book.events) <= book.events
      ensures Inv() && (old(state.fault) ==> state.fault)
      ensures ok ==> Running() && mon.basis.report == NoReport && mon.basis.rounds == 0 && !mon.basis.taken
      ensures ok ==> state.lastDecision == Some(decision) && state.fault == old(state.fault)
      ensures ok ==> Adds(Decided)
      ensures !ok ==> state.fault
    {
      ok := NoteDecision(decision);
      if ok { ok := state.SetTaskStatus(Active); }
    }

    /** Write the decision down and enter it. */
    method NoteDecision(decision: string) returns (ok: bool)
      requires Inv() && state.status == WaitingDecision
      modifies `book, `mon, state`lastDecision, state`fault
      ensures Inv() && (old(state.fault) ==> state.fault)
      ensures ok ==> state.lastDecision == Some(decision) && state.fault == old(state.fault) && Adds(Decided)
      ensures ok ==> Same(mon.basis, old(mon.basis).(
        decisions := old(mon.basis.decisions) + 1, rounds := 0, asked := false, report := NoReport))
      ensures !ok ==> state.fault && JournalKept()
    {
      ok := state.WriteLastDecision(Some(decision));
      if ok { Record(Decided); }
    }

    method BeginDecision(decision: string) returns (err: Option<Error>)
      requires AtRest() && Takes(Decide(decision))
      modifies this, state, world
      ensures old(book.events) <= book.events
      ensures Commanded(err) && Ends(err)
      ensures TakenUp(Decided) && StuckExactly()
      ensures state.fault || state.lastDecision == Some(decision)
    {
      StartCommand();
      var ok := TakeDecision(decision);
      if !ok { return Some(WorkerError); }
      err := Continue(WorkerDecision);
    }

    method ExecuteDecision(decision: string) returns (err: Option<Error>)
      requires AtRest()
      modifies this, state, world
      ensures old(book.events) <= book.events
      ensures Commanded(err)
      ensures if old(Takes(Decide(decision))) then Ends(err) else Refused(err)
      ensures old(Takes(Decide(decision))) ==> TakenUp(Decided) && StuckExactly()
      ensures old(Takes(Decide(decision))) ==> state.fault || state.lastDecision == Some(decision)
    {
      if state.status != WaitingDecision || !state.pendingDecision { return Some(WorkerError); }
      if state.lastRequest == None { return Some(WorkerError); }
      err := BeginDecision(decision);
    }

    /** The task file must be known before the worker goes on. */
    method Continue(phase: Phase) returns (err: Option<Error>)
      requires Running() && mon.basis.report == NoReport && mon.basis.rounds == 0
      requires phase in {WorkerDecision, WorkerExplicitFix}
      modifies this, state, world
      ensures old(book.events) <= book.events
      ensures Continued(err)
    {
      err := WorkOn(phase);
      SettledTells();
      err := Quiet(err);
    }

    method BeginFix() returns (err: Option<Error>)
      requires AtRest() && Takes(ExplicitFix)
      modifies this, state, world
      ensures old(book.events) <= book.events
      ensures Commanded(err) && Ends(err)
      ensures TakenUp(FixTaken) && StuckExactly()
    {
      StartCommand();
      var ok := TakeFix();
      if !ok { return Some(WorkerError); }
      err := Continue(WorkerExplicitFix);
    }

    method ExecuteExplicitFix() returns (err: Option<Error>)
      requires AtRest()
      modifies this, state, world
      ensures old(book.events) <= book.events
      ensures Commanded(err)
      ensures if old(Takes(ExplicitFix)) then Ends(err) else Refused(err)
      ensures old(Takes(ExplicitFix)) ==> TakenUp(FixTaken) && StuckExactly()
    {
      if state.pendingDecision { return Some(WorkerError); }
      if state.status != WaitingSolReview { return Some(WorkerError); }
      if state.lastRequest == None { return Some(WorkerError); }
      err := BeginFix();
    }

    method TakeFix() returns (ok: bool)
      requires Inv() && state.status == WaitingSolReview && !state.pendingDecision && state.lastRequest.Some?
      modifies `book, `mon, state`status, state`fault
      ensures old(book.events) <= book.events
      ensures Inv() && (old(state.fault) ==> state.fault)
      ensures ok ==> Running() && mon.basis.report == NoReport && mon.basis.rounds == 0
      ensures ok ==> state.fault == old(state.fault)
      ensures ok ==> Adds(FixTaken)
      ensures !ok ==> state.fault
    {
      ok := state.SetTaskStatus(Active);
      if ok { Record(FixTaken); }
    }

    /** Lay a stopped task's checkpoint back, with the parent files as they are now: changes made by the
        failed resume must not pass for the parent's own. */
    method RestoreCheckpoint(previous: Checkpoint)
      requires Inv() && Grounded(previous) && Flagged(previous)
      requires !(previous.rateLimited && previous.providerUnavailable)
      requires state.status in {Active, RateLimited, ProviderUnavailable}
      modifies `book, `mon, state`checkpoint, state`fault
      ensures old(book.events) <= book.events
      ensures Inv() && Same(mon.basis, old(mon.basis)) && (old(state.fault) ==> state.fault)
      ensures state.fault || (RestoredFrom(previous) && StopIsFresh() && StopEntered())
    {
      var parents := world.ParentFilesToKeep();
      var restored := previous.(stopParentFiles := parents);
      var ok := state.SaveResumeCheckpoint(restored);
      if ok { EnterStop(); }
    }

    ghost predicate RestoredFrom(c: Checkpoint)
      reads state`checkpoint
    {
      state.checkpoint.Some? && state.checkpoint.value == c.(stopParentFiles := state.checkpoint.value.stopParentFiles)
    }

    function StopStatus(c: Checkpoint): TaskStatus {
      if c.providerUnavailable then ProviderUnavailable else RateLimited
    }

    /** The status of a stop is the one its checkpoint was saved for. */
    method SettleStatus(c: Checkpoint)
      requires Inv() && !mon.basis.complete && Flagged(c)
      requires state.status in {Active, RateLimited, ProviderUnavailable}
      requires state.fault || RestoredFrom(c)
      modifies state`status, state`fault
      ensures Inv() && AtRest() && (old(state.fault) ==> state.fault)
      ensures state.status in {Active, RateLimited, ProviderUnavailable}
    {
      var ok := state.SetTaskStatus(StopStatus(c));
    }

    /** A resumed call failed for good: the task goes back to the stop it came from, with its parent files
        read anew, or stays at the stop that is saved. */
    method RestoreStop(previous: Checkpoint)
      requires Inv() && Grounded(previous) && Flagged(previous)
      requires !(previous.rateLimited && previous.providerUnavailable)
      requires state.status in {Active, RateLimited, ProviderUnavailable}
      modifies `book, `mon, state`checkpoint, state`status, state`fault
      ensures old(book.events) <= book.events
      ensures Inv() && AtRest() && Same(mon.basis, old(mon.basis)) && (old(state.fault) ==> state.fault)
      ensures state.status in {Active, RateLimited, ProviderUnavailable}
      ensures state.fault || Same(book.events, old(book.events)) || StopEntered()
      ensures old(state.checkpoint.Some? && Flagged(state.checkpoint.value)) ==>
        Same(state.checkpoint, old(state.checkpoint))
      ensures !old(state.checkpoint.Some? && Flagged(state.checkpoint.value)) ==>
        state.fault || (RestoredFrom(previous) && StopIsFresh())
    {
      if state.checkpoint.Some? && Flagged(state.checkpoint.value) {
        SettleStatus(state.checkpoint.value);
      } else {
        RestoreCheckpoint(previous);
        SettleStatus(previous);
      }
    }

    /** The command has entered nothing but its start. */
    ghost predicate JustStarted()
      reads `book
    {
      book.events != [] && book.events[|book.events| - 1].CommandStarted?
    }

    /** Why a resumed call is not made: a write failed, something could not be observed, the provider did not answer,
        or the repository is not as the stopped review or the report-only round needs it. */
    twostate predicate GateShut(new c: Checkpoint)
      reads `mon, state`fault, state`reportOnlyStart, world
    {
      || state.fault || world.blind || (c.providerUnavailable && Probed() && !ProbeAnswered())
      || (c.work.stage == ReviewStage && !AsPinned()) || (c.work.reportOnly && state.reportOnlyStart == None)
    }

    /** Before anything is called: the stopped task's own preconditions, cheapest first. */
    method OpenResume(c: Checkpoint) returns (r: Check)
      requires JustStarted() && Inv() && state.checkpoint == Some(c) && Flagged(c)
      requires state.status == Active && !mon.basis.taken
      modifies this, state`reviewStart, state`comparison, state`checkpoint, state`status, state`fault
      modifies state`telemetry, state`stats, world
      ensures old(book.events) <= book.events
      ensures Inv() && NoCalls() && (r.Proceed? ==> AtMostRepinned())
      ensures PhaseKept()
      ensures r.Proceed? ==> Untouched() && Carried()
      ensures r.Proceed? && c.work.stage == ReviewStage ==> AsPinned()
      ensures r.Proceed? && c.work.reportOnly ==> state.reportOnlyStart.Some?
      ensures r.Proceed? && c.providerUnavailable ==> ProbeSuccesses(1) && |world.probes| > |old(world.probes)|
      ensures r.Halted? ==> CommandEnds(r.error)
      ensures r.Halted? ==> GateShut(c)
    {
      r := GateReport(c);
      if r.Proceed? { r := OpenGate(c); }
    }

    /** A report-only round needs the snapshot that it started from. */
    method GateReport(c: Checkpoint) returns (r: Check)
      requires JustStarted() && Inv() && state.checkpoint == Some(c) && Flagged(c)
      requires state.status == Active && !mon.basis.taken
      modifies `output, state`checkpoint, state`status, state`fault, state`telemetry
      ensures Inv() && FilesKept()
      ensures r.Proceed? ==> Untouched() && Carried() && (c.work.reportOnly ==> state.reportOnlyStart.Some?)
      ensures r.Halted? ==> CommandEnds(r.error) && GateShut(c)
    {
      r := Proceed;
      if c.work.stage == AutoFixStage && IsReportOnlyResume(c) {
        r := GateReportOnlyResumeSnapshot();
        if r.Halted? { HaltEnds(r.error); }
      }
    }

    /** The provider must answer, and a review's repository must check out. */
    method OpenGate(c: Checkpoint) returns (r: Check)
      requires JustStarted() && Inv() && state.checkpoint == Some(c) && Flagged(c)
      requires state.status == Active && !mon.basis.taken
      modifies this, state`reviewStart, state`comparison, state`checkpoint, state`status, state`fault
      modifies state`telemetry, state`stats, world
      ensures old(book.events) <= book.events
      ensures Inv() && NoCalls() && (r.Proceed? ==> AtMostRepinned())
      ensures PhaseKept()
      ensures r.Proceed? ==> Untouched() && Carried()
      ensures r.Proceed? && c.work.stage == ReviewStage ==> AsPinned()
      ensures r.Proceed? && c.providerUnavailable ==> ProbeSuccesses(1) && |world.probes| > |old(world.probes)|
      ensures r.Halted? ==> CommandEnds(r.error)
      ensures r.Halted? ==> GateShut(c)
    {
      r := GateProvider(c);
      if r.Halted? { return; }
      r := CheckReview(c);
    }

    method CheckReview(c: Checkpoint) returns (r: Check)
      requires JustStarted() && Inv() && state.checkpoint == Some(c) && Flagged(c)
      requires state.status == Active && !mon.basis.taken
      modifies this, world`blind, state`reviewStart, state`comparison, state`checkpoint, state`status, state`fault
      modifies state`telemetry
      ensures old(book.events) <= book.events
      ensures Inv() && AtMostRepinned() && PhaseKept()
      ensures r.Proceed? ==> Untouched() && Carried()
      ensures r.Proceed? && c.work.stage == ReviewStage ==> AsPinned()
      ensures r.Halted? ==> CommandEnds(r.error) && (StoppedForSol() || state.fault)
      ensures r.Halted? ==> state.fault || world.blind || (c.work.stage == ReviewStage && !AsPinned())
    {
      r := Proceed;
      if c.work.stage == ReviewStage {
        r := VerifyReviewResumeSnapshot(c);
        if r.Halted? { HaltEnds(r.error); }
      }
    }

    /** A provider-unavailable task first waits for the provider to answer a probe. */
    method GateProvider(c: Checkpoint) returns (r: Check)
      requires Inv() && !mon.basis.complete && state.status == Active && state.checkpoint == Some(c) && Flagged(c)
      requires JustStarted() && Grounded(c) && !mon.basis.taken
      modifies this, state`checkpoint, state`status, state`fault, state`telemetry, state`stats, world
      ensures old(book.events) <= book.events
      ensures Inv() && NoCalls() && Same(world.repo, old(world.repo))
      ensures Same(mon.basis, old(mon.basis))
      ensures r.Proceed? ==> Untouched() && Carried() && JournalKept()
      ensures r.Proceed? && c.providerUnavailable ==> ProbeSuccesses(1)
      ensures c.providerUnavailable ==> |world.probes| > |old(world.probes)|
      ensures r.Halted? ==> CommandEnds(r.error) && c.providerUnavailable && GateShut(c)
    {
      if !c.providerUnavailable { return Proceed; }
      var err := WaitForProvider(c);
      return if err == None then Proceed else Halted(err);
    }

    method WaitForProvider(c: Checkpoint) returns (err: Option<Error>)
      requires Inv() && !mon.basis.complete && state.status == Active && state.checkpoint == Some(c) && Flagged(c)
      requires Grounded(c) && !mon.basis.taken
      modifies this, state`checkpoint, state`status, state`fault, state`telemetry, state`stats, world
      ensures old(book.events) <= book.events
      ensures Inv() && NoCalls() && Same(world.repo, old(world.repo))
      ensures Same(mon.basis, old(mon.basis)) && |world.probes| > |old(world.probes)|
      ensures err == None ==> Untouched() && Carried() && JournalKept() && ProbeSuccesses(1)
      ensures err.Some? ==> CommandEnds(err) && (state.fault || (Probed() && !ProbeAnswered()))
    {
      err := GateAndLink(c);
      if err == Some(WorkerError) { AbandonGate(); }
      if err.Some? { GateEnds(c, err.value); }
    }

    method GateAndLink(c: Checkpoint) returns (err: Option<Error>)
      requires Inv() && !mon.basis.complete && state.status == Active && state.checkpoint == Some(c) && Flagged(c)
      requires Grounded(c)
      modifies this, state`checkpoint, state`status, state`fault, state`telemetry, state`stats, world
      ensures old(book.events) <= book.events
      ensures Inv() && FilesKept() && NoCalls() && Same(world.repo, old(world.repo))
      ensures Same(mon.basis, old(mon.basis)) && |world.probes| > |old(world.probes)|
      ensures err == None ==> Untouched() && state.fault == old(state.fault) && JournalKept() && ProbeSuccesses(1)
      ensures err.Some? ==> Exited(c, err.value) && GateBecause(err.value)
    {
      err := GateResumeOnProbe(c);
    }

    /** A probe failed for good: the task cannot be resumed as it was. */
    method AbandonGate()
      requires Inv() && (state.fault || state.status == Active)
      modifies state`checkpoint, state`fault
      ensures FilesKept()
      ensures Inv() && AtRest() && (old(state.fault) ==> state.fault)
    {
      var cleared := state.ClearResumeCheckpoint();
    }

    /** The resumed call's result goes where the stopped call's would have gone. */
    method TakeResumed(c: Checkpoint, result: Result) returns (err: Option<Error>)
      requires Running() && Shaped(c, config.maxAutoFixRounds) && AcceptedFor(c.work.role, result)
      requires Said(result) && JustCalled(c.work.role) && c.work.autoFixes == mon.basis.rounds
      requires Same(mon.answer, Some(Answer(c.work.role, result)))
      requires mon.basis.report == if c.work.reportOnly then OnPin else NoReport
      requires c.work.stage != WorkerStage ==> !state.pendingDecision
      requires c.work.stage == ReviewStage ==> Reviewing() && Same(c.work.workerResult, mon.basis.work)
      modifies this, state, world
      ensures old(book.events) <= book.events
      ensures Inv() && CommandEnds(err)
      ensures CallsAtMost(20 * config.maxAutoFixRounds + 20)
      ensures c.work.stage == ReviewStage ==> ReviewTaken(c.work, result)
      ensures c.work.stage != ReviewStage && !c.work.reportOnly ==>
        NextEntry(AnswerTaken(result.status)) && Entered(AnswerTaken(result.status))
      ensures c.work.reportOnly ==> Reported(result.status)
      ensures c.work.reportOnly && !old(AsReportPinned(mon, Capture(world.repo, world.ignored))) ==>
        Same(book.events, old(book.events))
    {
      match c.work.stage {
        case WorkerStage => err := HandleWorkerResult(result, 1, 0);
        case ReviewStage => err := TakeResumedReview(c.work, result);
        case AutoFixStage => err := CloseAutoFix(result, IsReportOnlyResume(c), c.work.reviewNumber, c.work.autoFixes);
      }
    }

    /** What becomes of a resumed review: nothing unless the repository is as pinned; a re-issue is entered as
        an escalation, and a pass not before the floor allows it: saved as high, it is asked for again. */
    twostate predicate ReviewTaken(work: Work, result: Result)
      reads `book, `mon, state`fault, world`repo, world`blind
    {
      var at := Capture(old(world.repo), world.ignored);
      && (!old(AsPinned()) ==> Same(book.events, old(book.events)))
      && (old(AsPinned()) ==> Followed(work, result))
      && (work.riskFloorReemit ==> |book.events| <= |old(book.events)| + 1 && NextIsReview(NeedsSolReview, at))
      && (!work.riskFloorReemit && result.status != Pass ==> NextIsReview(result.status, at))
      && (!work.riskFloorReemit && result.status == Pass ==>
            CalledFirst(Reviewer) || (NextIsReview(Pass, at) && work.effectiveRisk != Some(Packets.High))
            || Same(book.events, old(book.events)))
    }

    /** Something is entered: the review, or for a pass the call that asks for it again. */
    twostate predicate Followed(work: Work, result: Result)
      reads `book, state`fault, world`blind
    {
      || state.fault || world.blind || (result.status == Pass && !work.riskFloorReemit && Unmodelled())
      || |old(book.events)| < |book.events|
    }

    twostate predicate NextIsReview(verdict: Status, at: GitSnapshot)
      reads `book
    {
      |old(book.events)| < |book.events| ==>
        && book.events[|old(book.events)|].ReviewAccepted?
        && book.events[|old(book.events)|].verdict == verdict && book.events[|old(book.events)|].at == at
    }

    method TakeResumedReview(work: Work, result: Result) returns (err: Option<Error>)
      requires Reviewing() && ShapedWork(work, config.maxAutoFixRounds) && work.stage == ReviewStage
      requires work.autoFixes == mon.basis.rounds
      requires Same(work.workerResult, mon.basis.work)
      requires JustCalled(Reviewer)
      requires ReviewerStatus(result.status) && SaidByReviewer(result)
      modifies this, state, world
      ensures old(book.events) <= book.events
      ensures Inv() && CommandEnds(err)
      ensures CallsAtMost(ReviewBudget(work.autoFixes)) && (work.riskFloorReemit ==> NoCalls())
      ensures ReviewTaken(work, result)
      ensures work.riskFloorReemit && err == None ==> state.status == WaitingSolReview
    {
      var check := CloseReview();
      if check.Halted? { return check.error; }
      err := TakeCheckedReview(work, result);
    }

    method TakeCheckedReview(work: Work, result: Result) returns (err: Option<Error>)
      requires Reviewing() && AsPinned() && ShapedWork(work, config.maxAutoFixRounds) && work.stage == ReviewStage
      requires work.autoFixes == mon.basis.rounds
      requires Same(work.workerResult, mon.basis.work) && ReviewerStatus(result.status) && SaidByReviewer(result)
      modifies this, state, world
      ensures old(book.events) <= book.events
      ensures Inv() && CommandEnds(err)
      ensures CallsAtMost(ReviewBudget(work.autoFixes)) && (work.riskFloorReemit ==> NoCalls())
      ensures ReviewTaken(work, result)
      ensures work.riskFloorReemit && err == None ==> state.status == WaitingSolReview
    {
      if work.riskFloorReemit {
        err := TakeReemit(ResolveRiskFloorReemit(result), work.reviewNumber, work.autoFixes);
        return;
      }
      var floor := ResolveReviewResumeRisk(work.workerResult.value, work);
      err := TakeReview(work.workerResult.value, work.reviewNumber, work.autoFixes, floor, result);
    }

    /** A resumed re-issue is an escalation, whatever the reviewer answered. */
    method TakeReemit(result: Result, reviewNumber: nat, autoFixes: nat) returns (err: Option<Error>)
      requires Reviewing() && AsPinned() && reviewNumber == autoFixes + 1
      requires autoFixes == mon.basis.rounds <= config.maxAutoFixRounds
      requires result.status == NeedsSolReview && SaidByReviewer(result)
      modifies this, state, world
      ensures old(book.events) <= book.events
      ensures Inv() && CommandEnds(err) && NoCalls()
      ensures |book.events| <= |old(book.events)| + 1
      ensures NextEntry(ReviewAccepted(NeedsSolReview, None, Capture(old(world.repo), world.ignored)))
      ensures err == None ==> state.status == WaitingSolReview
      ensures Entered(ReviewAccepted(NeedsSolReview, None, Capture(old(world.repo), world.ignored)))
    {
      var ok := AcceptReview(result, None);
      if !ok { return Some(WorkerError); }
      err := ConcludeWith(result, WaitingSolReview);
    }

    /** Why a resumed call was not made: a write failed, or of a worker the artifacts or the parent-managed files
        failed their check. */
    twostate predicate CallRefused(new c: Checkpoint)
      reads `output, state`checkpoint, state`status, state`fault, state`activeTask, world
    {
      || state.fault
      || (c.work.role == Worker &&
           (world.denied || (StoppedForSol() && (world.blind || !ParentsPresent()))))
    }

    /** Make the resumed call; when it fails for good, the task is put back to where it was stopped. */
    method RunResumed(c: Checkpoint) returns (r: Outcome)
      requires Inv() && state.checkpoint == Some(c) && Flagged(c) && state.status == Active && !mon.basis.taken
      modifies this, state`checkpoint, state`status, state`fault, state`telemetry, state`stats, world
      ensures old(book.events) <= book.events
      ensures Inv() && CallsAtMost(10)
      ensures Same(mon.basis, old(mon.basis))
      ensures r.Done? ==> Same(mon.answer, Some(Answer(c.work.role, r.result)))
      ensures r.Done? ==> Running() && AcceptedFor(c.work.role, r.result) && Carried()
      ensures r.Done? ==> JustCalled(c.work.role) && Said(r.result)
      ensures r.Done? && c.work.stage == ReviewStage ==> Reviewing() && Same(c.work.workerResult, mon.basis.work)
      ensures r.Done? && c.work.stage != WorkerStage ==> !state.pendingDecision
      ensures r.Done? ==> mon.basis.report == if c.work.reportOnly then OnPin else NoReport
      ensures r.Failed? ==> CommandEnds(Some(r.error))
      ensures Made(CallOf(c)) || (r.Failed? && CallRefused(c))
    {
      r := CallStopped(c);
      if r == Failed(WorkerError) { PutBack(c); }
    }

    /** The stopped call once more, with its stop marks gone. */
    method CallStopped(c: Checkpoint) returns (r: Outcome)
      requires Inv() && state.checkpoint == Some(c) && Flagged(c) && state.status == Active && !mon.basis.taken
      modifies this, state`checkpoint, state`status, state`fault, state`telemetry, state`stats, world
      ensures old(book.events) <= book.events
      ensures Inv() && CallsAtMost(10)
      ensures Same(mon.basis, old(mon.basis))
      ensures r.Done? ==> Same(mon.answer, Some(Answer(c.work.role, r.result)))
      ensures r.Done? ==> Running() && AcceptedFor(c.work.role, r.result) && Carried()
      ensures r.Done? ==> JustCalled(c.work.role) && Grounded(c) && Said(r.result)
      ensures r == Failed(WorkerError) ==> TaskKept() && GoneWrong(c) && Same(output, old(output))
      ensures r.Failed? && r.error != WorkerError ==> CommandEnds(Some(r.error))
      ensures Made(CallOf(c)) || (r.Failed? && CallRefused(c))
      ensures old(state.fault) ==> state.fault
    {
      ghost var unflagged := c.(rateLimited := false, providerUnavailable := false);
      r := RunModel(c.(rateLimited := false, providerUnavailable := false));
      if r.Failed? && r.error != WorkerError { ExitEnds(unflagged, r.error); }
    }

    /** A resumed call failed for good, its task still fit to be resumed. */
    ghost predicate GoneWrong(c: Checkpoint)
      reads this, state, world
    {
      && Grounded(c) && state.status in {Active, RateLimited, ProviderUnavailable}
      && (state.fault || world.denied || (EndsInCall(0) && NothingUsable()))
    }

    method PutBack(c: Checkpoint)
      requires Inv() && Flagged(c) && !(c.rateLimited && c.providerUnavailable) && GoneWrong(c)
      requires state.pendingDecision ==> !mon.basis.taken
      modifies `book, `mon, state`checkpoint, state`status, state`fault
      ensures old(book.events) <= book.events
      ensures Inv() && Same(mon.basis, old(mon.basis))
      ensures CommandEnds(Some(WorkerError))
    {
      RestoreStop(c);
      RestoredEnds();
    }

    /** The stopped call was made again, after at most one accepted update, or it could not be. */
    twostate predicate Resumes(new c: Checkpoint, n: nat)
      reads this, state, world
    {
      || MadeAt(n, CallOf(c))
      || (n < |book.events| && book.events[n].ParentUpdate? && MadeAt(n + 1, CallOf(c)))
      || GateShut(c) || CallRefused(c)
    }

    method BeginResume(c: Checkpoint) returns (err: Option<Error>)
      requires AtRest() && state.checkpoint == Some(c) && Flagged(c)
      modifies this, state, world
      ensures old(book.events) <= book.events
      ensures Commanded(err) && Ends(err)
      ensures StuckExactly() && Started()
      ensures Resumes(c, |old(book.events)| + 1)
    {
      var ok := Revive(c);
      if !ok { return Some(WorkerError); }
      err := ResumeQuietly(c);
    }

    method Revive(c: Checkpoint) returns (ok: bool)
      requires AtRest() && state.checkpoint == Some(c) && Flagged(c)
      modifies `book, `mon, state`status, state`fault, world`denied, world`blind, world`replies
      ensures Inv() && JustStarted() && !mon.basis.taken && FilesKept() && Adds(CommandStarted(world.repo))
      ensures if ok then state.status == Active && state.fault == old(state.fault) else state.fault
    {
      StartCommand();
      ok := state.SetTaskStatus(Active);
    }

    method ResumeQuietly(c: Checkpoint) returns (err: Option<Error>)
      requires JustStarted() && Inv() && state.checkpoint == Some(c) && Flagged(c)
      requires state.status == Active && !mon.basis.taken
      modifies this, state, world
      ensures old(book.events) <= book.events
      ensures Commanded(err) && StuckExactly() && Ends(err)
      ensures Resumes(c, |old(book.events)|)
    {
      err := ResumeActive(c);
      SettledTells();
      err := Quiet(err);
    }

    method ExecuteResume() returns (err: Option<Error>)
      requires AtRest()
      modifies this, state, world
      ensures old(book.events) <= book.events
      ensures Commanded(err)
      ensures !old(Takes(Resume)) ==> Refused(err)
      ensures old(Takes(Resume)) ==> StuckExactly() && Ends(err)
      ensures old(Takes(Resume)) ==> Started()
      ensures old(Takes(Resume)) ==> Resumes(old(state.checkpoint).value, |old(book.events)| + 1)
    {
      if state.checkpoint == None || !Flagged(state.checkpoint.value) { return Some(WorkerError); }
      err := BeginResume(state.checkpoint.value);
    }

    method ResumeActive(c: Checkpoint) returns (err: Option<Error>)
      requires JustStarted() && Inv() && state.checkpoint == Some(c) && Flagged(c)
      requires state.status == Active && !mon.basis.taken
      modifies this, state, world
      ensures old(book.events) <= book.events
      ensures Inv() && CommandEnds(err)
      ensures CallsAtMost(CommandBudget())
      ensures Resumes(c, |old(book.events)|)
    {
      var check := OpenResume(c);
      if check.Halted? { return check.error; }
      err := CallResumed(c);
    }

    /** Make the stopped call again and take its result. */
    method CallResumed(c: Checkpoint) returns (err: Option<Error>)
      requires Inv() && state.checkpoint == Some(c) && Flagged(c) && state.status == Active && !mon.basis.taken
      modifies this, state, world
      ensures old(book.events) <= book.events
      ensures Inv() && CommandEnds(err)
      ensures CallsAtMost(CommandBudget())
      ensures Made(CallOf(c)) || CallRefused(c)
    {
      var outcome := RunResumed(c);
      if outcome.Failed? { return Some(outcome.error); }
      err := TakeResumed(c, outcome.result);
    }

    method Execute(command: Command) returns (err: Option<Error>)
      requires AtRest()
      modifies this, state, world
      ensures old(book.events) <= book.events
      ensures Commanded(if command.ParentEdits? then Some(WorkerError) else err)
      ensures !old(Takes(command)) ==> Refused(err)
      ensures old(Takes(command)) && !command.ParentEdits? ==> StuckExactly() && Ends(err)
      ensures old(Takes(command)) && !command.ParentEdits? && !state.fault ==>
        Started()
    {
      match command {
        case NewTask(request) => err := ExecuteNewTask(request);
        case Decide(decision) => err := ExecuteDecision(decision);
        case ExplicitFix => err := ExecuteExplicitFix();
        case Resume => err := ExecuteResume();
        case ParentEdits =>
          world.ParentActs();
          err := None;
      }
    }

    /** Any number of commands with any edits between them: the journal stays legal and the books
        balanced, and unless a write failed, status and checkpoint agree. */
    method RunSession(commands: seq<Command>)
      requires AtRest()
      modifies this, state, world
      ensures old(book.events) <= book.events
      ensures AtRest() && Legal(TheRules(), book)
      ensures |output| <= |old(output)| + |commands| && old(output) <= output
      ensures world.Total() <= old(world.Total()) + |commands| * CommandBudget()
    {
      for i := 0 to |commands|
        invariant AtRest() && |output| <= |old(output)| + i && old(output) <= output && old(book.events) <= book.events
        invariant world.Total() <= old(world.Total()) + i * CommandBudget()
      {
        var err := Execute(commands[i]);
      }
    }
  }
}
