/** The per-repository state directory: one field per state file, each written atomically or not at
    all (glm-worker/internal/state/store.go, resume.go, snapshot.go, stats.go, telemetry.go). */
module Store {
  import opened Text
  import opened Packets
  import opened Snapshots
  import opened Journal

  datatype TaskStatus =
    | NoStatus | Active | WaitingDecision | WaitingSolReview | Complete | RateLimited | ProviderUnavailable

  datatype Stage = WorkerStage | ReviewStage | AutoFixStage

  /** The piece of work a call belongs to; it stays the same through corrections, stops and resumes. */
  datatype Work = Work(
    stage: Stage, role: Role, model: string, readOnly: bool, workerResult: Option<Result>,
    reviewNumber: nat, autoFixes: nat, riskFloorReemit: bool, reportOnly: bool, effectiveRisk: Option<Risk>)

  /** What a stopped call leaves behind for a later resume. */
  datatype Checkpoint = Checkpoint(
    work: Work, phase: Phase, resultCorrection: bool,
    rateLimited: bool, providerUnavailable: bool, stopParentFiles: Option<Parents>)

  predicate Flagged(c: Checkpoint) {
    c.rateLimited || c.providerUnavailable
  }

  datatype ProbeCall = ProbeCall(phase: Phase, model: string, attempt: nat)

  datatype CallOutcome =
    | Success | InvalidPacket | TransientError | RateLimitedCall | StateError | CallError | ParentMetadata

  datatype EventKind = SnapshotEvent | ParentMetadataEvent | ParentUpdateEvent | ProviderUnavailableEvent

  datatype CallRecord =
    | TaskRecord(call: RunCall, outcome: CallOutcome)
    | ProbeRecord(probe: ProbeCall, succeeded: bool)
    | EventRecord(kind: EventKind)

  /** The append-only log of a task, one record a line. */
  datatype Log = Empty | Line(before: Log, record: CallRecord)

  /** The calls the telemetry log accounts for, in order. */
  function TaskCalls(log: Log): seq<RunCall> {
    match log
    case Empty => []
    case Line(before, record) => if record.TaskRecord? then TaskCalls(before) + [record.call] else TaskCalls(before)
  }

  function ProbeCalls(log: Log): seq<ProbeCall> {
    match log
    case Empty => []
    case Line(before, record) => if record.ProbeRecord? then ProbeCalls(before) + [record.probe] else ProbeCalls(before)
  }

  /** Of the observation counters, those the telemetry log must agree with. */
  datatype TaskStats = TaskStats(
    modelCalls: nat, workerCalls: nat, reviewerCalls: nat, transientRetries: nat,
    probeSuccesses: nat, probeFailures: nat)

  const ZERO_STATS := TaskStats(0, 0, 0, 0, 0, 0)

  /** The task file a task is bound to, or none when the repository has no plan. */
  datatype ActiveTask = Unwired | Wired(path: ParentPath)

  /** Every write below either takes full effect or reports failure and changes nothing but the ghost
      flag fault, which remembers that some write failed. */
  class StateStore {
    var status: TaskStatus
    var checkpoint: Option<Checkpoint>
    var pendingDecision: bool
    var lastRequest: Option<string>
    var lastDecision: Option<string>
    var lastReview: Option<Result>
    var activeTask: Option<ActiveTask>
    var baseline: Option<string>
    var workerEnd: Option<GitSnapshot>
    var reviewStart: Option<GitSnapshot>
    var reportOnlyStart: Option<GitSnapshot>
    var comparison: Option<SnapshotComparison>
    var stats: TaskStats
    var telemetry: Log
    ghost var fault: bool

    constructor ()
      ensures status == NoStatus && checkpoint == None && !pendingDecision
      ensures lastRequest == None && lastDecision == None && lastReview == None && activeTask == None
      ensures baseline == None && workerEnd == None && reviewStart == None && reportOnlyStart == None
      ensures stats == ZERO_STATS && telemetry == Empty && !fault
    {
      status, checkpoint, pendingDecision := NoStatus, None, false;
      lastRequest, lastDecision, lastReview, activeTask := None, None, None, None;
      baseline, workerEnd, reviewStart, reportOnlyStart, comparison := None, None, None, None, None;
      stats, telemetry, fault := ZERO_STATS, Empty, false;
    }

    method SetTaskStatus(s: TaskStatus) returns (ok: bool)
      modifies `status, `fault
      ensures ok ==> status == s && fault == old(fault)
      ensures !ok ==> status == old(status) && fault
    {
      ok := *;
      if ok { status := s; } else { fault := true; }
    }

    /** A checkpoint without a model is refused. */
    method SaveResumeCheckpoint(c: Checkpoint) returns (ok: bool)
      modifies `checkpoint, `fault
      ensures ok ==> checkpoint == Some(c) && c.work.model != "" && fault == old(fault)
      ensures !ok ==> checkpoint == old(checkpoint) && (fault || c.work.model == "") && (old(fault) ==> fault)
    {
      if c.work.model == "" { return false; }
      ok := *;
      if ok { checkpoint := Some(c); } else { fault := true; }
    }

    method ClearResumeCheckpoint() returns (ok: bool)
      modifies `checkpoint, `fault
      ensures ok ==> checkpoint == None && fault == old(fault)
      ensures !ok ==> checkpoint == old(checkpoint) && fault
    {
      ok := *;
      if ok { checkpoint := None; } else { fault := true; }
    }

    method SetPendingDecision(present: bool) returns (ok: bool)
      modifies `pendingDecision, `fault
      ensures ok ==> pendingDecision == present && fault == old(fault)
      ensures !ok ==> pendingDecision == old(pendingDecision) && fault
    {
      ok := *;
      if ok { pendingDecision := present; } else { fault := true; }
    }

    method WriteLastRequest(v: Option<string>) returns (ok: bool)
      modifies `lastRequest, `fault
      ensures ok ==> lastRequest == v && fault == old(fault)
      ensures !ok ==> lastRequest == old(lastRequest) && fault
    {
      ok := *;
      if ok { lastRequest := v; } else { fault := true; }
    }

    method WriteLastDecision(v: Option<string>) returns (ok: bool)
      modifies `lastDecision, `fault
      ensures ok ==> lastDecision == v && fault == old(fault)
      ensures !ok ==> lastDecision == old(lastDecision) && fault
    {
      ok := *;
      if ok { lastDecision := v; } else { fault := true; }
    }

    method WriteLastReview(v: Option<Result>) returns (ok: bool)
      modifies `lastReview, `fault
      ensures ok ==> lastReview == v && fault == old(fault)
      ensures !ok ==> lastReview == old(lastReview) && fault
    {
      ok := *;
      if ok { lastReview := v; } else { fault := true; }
    }

    method WriteActiveTask(v: Option<ActiveTask>) returns (ok: bool)
      modifies `activeTask, `fault
      ensures ok ==> activeTask == v && fault == old(fault)
      ensures !ok ==> activeTask == old(activeTask) && fault
    {
      ok := *;
      if ok { activeTask := v; } else { fault := true; }
    }

    method WriteBaseline(v: Option<string>) returns (ok: bool)
      modifies `baseline, `fault
      ensures ok ==> baseline == v && fault == old(fault)
      ensures !ok ==> baseline == old(baseline) && fault
    {
      ok := *;
      if ok { baseline := v; } else { fault := true; }
    }

    method SaveWorkerEndSnapshot(s: Option<GitSnapshot>) returns (ok: bool)
      modifies `workerEnd, `fault
      ensures ok ==> workerEnd == s && fault == old(fault)
      ensures !ok ==> workerEnd == old(workerEnd) && fault
    {
      ok := *;
      if ok { workerEnd := s; } else { fault := true; }
    }

    method SaveReviewStartSnapshot(s: Option<GitSnapshot>) returns (ok: bool)
      modifies `reviewStart, `fault
      ensures ok ==> reviewStart == s && fault == old(fault)
      ensures !ok ==> reviewStart == old(reviewStart) && fault
    {
      ok := *;
      if ok { reviewStart := s; } else { fault := true; }
    }

    method SaveReportOnlyStartSnapshot(s: Option<GitSnapshot>) returns (ok: bool)
      modifies `reportOnlyStart, `fault
      ensures ok ==> reportOnlyStart == s && fault == old(fault)
      ensures !ok ==> reportOnlyStart == old(reportOnlyStart) && fault
    {
      ok := *;
      if ok { reportOnlyStart := s; } else { fault := true; }
    }

    method SaveSnapshotComparison(c: Option<SnapshotComparison>) returns (ok: bool)
      modifies `comparison, `fault
      ensures ok ==> comparison == c && fault == old(fault)
      ensures !ok ==> comparison == old(comparison) && fault
    {
      ok := *;
      if ok { comparison := c; } else { fault := true; }
    }

    /** Task identity, session and artifact files hold nothing the model looks at; writing or reading
        them may fail. */
    method TouchOther() returns (ok: bool)
      modifies `fault
      ensures ok ==> fault == old(fault)
      ensures !ok ==> fault
    {
      ok := *;
      if !ok { fault := true; }
    }

    method RecordModelCallLog(r: CallRecord)
      modifies `telemetry
      ensures telemetry == Line(old(telemetry), r)
    {
      telemetry := Line(telemetry, r);
    }

    method RecordModelCall(role: Role)
      modifies `stats
      ensures stats == old(stats).(modelCalls := old(stats).modelCalls + 1,
                                   workerCalls := old(stats).workerCalls + (if role == Worker then 1 else 0),
                                   reviewerCalls := old(stats).reviewerCalls + (if role == Reviewer then 1 else 0))
    {
      if role == Reviewer {
        stats := stats.(modelCalls := stats.modelCalls + 1, reviewerCalls := stats.reviewerCalls + 1);
      } else {
        stats := stats.(modelCalls := stats.modelCalls + 1, workerCalls := stats.workerCalls + 1);
      }
    }

    method RecordTransientRetry()
      modifies `stats
      ensures stats == old(stats).(transientRetries := old(stats).transientRetries + 1)
    {
      stats := stats.(transientRetries := stats.transientRetries + 1);
    }

    method RecordProbeOutcome(succeeded: bool)
      modifies `stats
      ensures stats == if succeeded then old(stats).(probeSuccesses := old(stats).probeSuccesses + 1)
                       else old(stats).(probeFailures := old(stats).probeFailures + 1)
    {
      if succeeded {
        stats := stats.(probeSuccesses := stats.probeSuccesses + 1);
      } else {
        stats := stats.(probeFailures := stats.probeFailures + 1);
      }
    }
  }
}
