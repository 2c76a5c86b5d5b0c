/** Everything outside the wrapper: the repository, the model provider, the clock. A model call may
    answer anything and leave any repository behind; every observation may fail. */
module World {
  import opened Text
  import Packets
  import opened Snapshots
  import opened Journal
  import opened Store

  /** What the text of a failed call says about the provider. */
  datatype Signal = NoSignal | FiveHour | Transient | Fatal

  /** structuredError: the failure is a broken structured output, after exhausted retries or not; artifactsValid:
      the artifacts the output names are regular files of the task's own directory. */
  datatype RunReply = RunReply(failed: bool, structuredError: bool, fileSignal: Signal, plainSignal: Signal,
                               output: Option<Packets.Result>, artifactsValid: bool)

  datatype ProbeReply = ProbeOk | ProbeError(signal: Signal, invalidResponse: bool, fatalSignal: bool)

  /** Transient whatever else it says, or merely not an answer in the agreed form. */
  predicate Retryable(reply: ProbeReply) {
    reply.ProbeError? && reply.signal != FiveHour &&
      (reply.signal == Transient || (reply.invalidResponse && !reply.fatalSignal))
  }

  predicate Limited(reply: ProbeReply) {
    reply.ProbeError? && reply.signal == FiveHour
  }

  /** Neither an answer, nor a limit, nor worth another try. */
  predicate Refuses(reply: ProbeReply) {
    reply.ProbeError? && reply.signal != FiveHour && !Retryable(reply)
  }

  datatype Tracking = Tracked | Untracked | OutsideGit

  const MINUTE := 60 * 1000
  const DEADLINE := 180 * MINUTE
  const MAX_TRANSIENT_PROBES := 4
  const BACKOFF_STEPS := 4

  function Backoff(step: nat): int {
    if step == 0 then 5 * MINUTE else if step == 1 then 15 * MINUTE
    else if step == 2 then 45 * MINUTE else 90 * MINUTE
  }

  function TotalBackoff(steps: nat): int {
    if steps == 0 then 0 else TotalBackoff(steps - 1) + Backoff(steps - 1)
  }

  /** The waits grow from step to step; all of them fit into the three hours, but not with a quarter more each, so only
      the last of them is ever cut off at the deadline. */
  lemma ScheduleFits()
    ensures forall step :: 0 <= step < BACKOFF_STEPS - 1 ==> 0 < Backoff(step) < Backoff(step + 1)
    ensures TotalBackoff(BACKOFF_STEPS) < DEADLINE < TotalBackoff(BACKOFF_STEPS) + TotalBackoff(BACKOFF_STEPS) / 4
    ensures TotalBackoff(BACKOFF_STEPS - 1) + TotalBackoff(BACKOFF_STEPS - 1) / 4 < DEADLINE
  {
    assert TotalBackoff(4) == TotalBackoff(3) + Backoff(3) && TotalBackoff(3) == TotalBackoff(2) + Backoff(2);
    assert TotalBackoff(2) == TotalBackoff(1) + Backoff(1) && TotalBackoff(1) == Backoff(0);
  }

  /** Five-hour limits come first, whichever text they were found in; then transient failures, the
      output file's before the plain text's. */
  function MergePlainFailureClass(base: Signal, plain: Signal): Signal {
    if plain == FiveHour then plain
    else if base == FiveHour then base
    else if base == Transient then base
    else if plain == Transient then plain
    else base
  }

  lemma MergePriority(base: Signal, plain: Signal)
    ensures MergePlainFailureClass(base, plain) == FiveHour <==> base == FiveHour || plain == FiveHour
    ensures MergePlainFailureClass(base, plain) == Transient <==>
      base != FiveHour && plain != FiveHour && (base == Transient || plain == Transient)
  {
  }

  /** A sleep: when it was asked for, for how long, and after how many probes. */
  datatype Nap = Nap(at: int, wait: int, probes: nat)

  class Environment {
    const ignored: set<ParentPath>
    const insideGit: bool
    const critical: CriticalRule
    var repo: Repo
    var now: int
    ghost var runs: seq<RunCall>
    ghost var probes: seq<ProbeCall>
    ghost var naps: seq<Nap>
    ghost var lastWake: int // the latest instant any sleep was set to end
    ghost var slept: int    // all the sleeping asked for so far
    ghost var spent: nat    // calls made for earlier tasks
    ghost var lastReply: RunReply

    // Since the command started: whether the artifact directory could not be prepared or secured, whether something
    // a check depends on could not be observed, and what the probes were answered.
    ghost var denied: bool
    ghost var blind: bool
    ghost var replies: seq<ProbeReply>

    ghost method BeginCommand()
      modifies `denied, `blind, `replies
      ensures !denied && !blind && replies == []
    {
      denied, blind, replies := false, false, [];
    }

    /** The wall clock never runs backwards. */
    method Now() returns (t: int)
      modifies `now
      ensures t == now >= old(now)
    {
      var passed: int := *;
      now := if passed > now then passed else now;
      t := now;
    }

    method Sleep(d: int)
      requires d >= 0
      modifies `now, `naps, `lastWake, `slept
      ensures now >= old(now) + d && slept == old(slept) + d && naps == old(naps) + [Nap(old(now), d, |probes|)]
      ensures lastWake == if old(now) + d > old(lastWake) then old(now) + d else old(lastWake)
    {
      slept, naps := slept + d, naps + [Nap(now, d, |probes|)];
      if now + d > lastWake { lastWake := now + d; }
      var woke: int := *;
      now := if woke > now + d then woke else now + d;
    }

    method Jitter(base: int) returns (wait: int)
      requires base > 0
      ensures base <= wait <= base + base / 4
    {
      var extra: int := *;
      wait := base + extra % (base / 4 + 1);
    }

    method Run(call: RunCall) returns (reply: RunReply)
      modifies `repo, `runs, `lastReply
      ensures runs == old(runs) + [call] && lastReply == reply
    {
      reply := *;
      repo := *;
      runs, lastReply := runs + [call], reply;
    }

    method Probe(call: ProbeCall) returns (reply: ProbeReply)
      modifies `probes, `replies
      ensures probes == old(probes) + [call] && replies == old(replies) + [reply]
    {
      reply := *;
      probes, replies := probes + [call], replies + [reply];
    }

    /** All calls ever made. */
    ghost function Total(): nat
      reads `runs, `spent
    {
      spent + |runs|
    }

    /** The books of provider calls are kept per task. */
    method BeginTask()
      modifies `runs, `probes, `spent
      ensures runs == [] && probes == [] && Total() == old(Total())
    {
      spent := spent + |runs|;
      runs, probes := [], [];
    }

    /** The head that a new task's changes are counted from; none without a commit or when git cannot tell. */
    method ResolveHead() returns (head: Option<string>)
      ensures head.Some? ==> head.value == repo.head
    {
      var ok: bool := *;
      head := if ok then Some(repo.head) else None;
    }

    /** Between commands the parent may do anything to the repository. */
    method ParentActs()
      modifies `repo
    {
      repo := *;
    }

    method CaptureSnapshot() returns (s: Option<GitSnapshot>)
      modifies `blind
      ensures s.Some? ==> s.value == Capture(repo, ignored)
      ensures blind == (old(blind) || s == None)
    {
      var ok: bool := *;
      s := if ok then Some(Capture(repo, ignored)) else None;
      blind := blind || !ok;
    }

    method ReadParentFileStates() returns (p: Option<Parents>)
      modifies `blind
      ensures p.Some? ==> p.value == repo.parents
      ensures blind == (old(blind) || p == None)
    {
      p := ParentFilesToKeep();
      blind := blind || p == None;
    }

    /** The parent files to save beside a snapshot or a stop, which is saved without them when they cannot be
        read. */
    method ParentFilesToKeep() returns (p: Option<Parents>)
      ensures p.Some? ==> p.value == repo.parents
    {
      var ok: bool := *;
      p := if ok then Some(repo.parents) else None;
    }

    method ClassifyTracking(path: ParentPath) returns (t: Option<Tracking>)
      modifies `blind
      ensures t.Some? ==> (t.value == Tracked <==> insideGit && path in repo.tracked)
      ensures blind == (old(blind) || t == None)
    {
      var ok: bool := *;
      t := if !ok then None
           else if !insideGit then Some(OutsideGit)
           else if path in repo.tracked then Some(Tracked) else Some(Untracked);
      blind := blind || !ok;
    }

    /** The tracked task files missing from the working tree, when git can tell. */
    method MissingTrackedTaskFiles(present: Parents) returns (missing: Option<set<ParentPath>>)
      modifies `blind
      ensures missing.Some? ==>
        missing.value == if insideGit then set p | p in repo.tracked && p.TaskFile? && p !in present else {}
      ensures blind == (old(blind) || missing == None)
    {
      var ok: bool := *;
      missing := if !ok then None
                 else if insideGit then Some(set p | p in repo.tracked && p.TaskFile? && p !in present)
                 else Some({});
      blind := blind || !ok;
    }

    /** A task path counts only as a regular file of the working tree. */
    method IsRegularFile(path: ParentPath) returns (b: bool)
      modifies `blind
      ensures b ==> path in repo.parents
      ensures blind == (old(blind) || (!b && path in repo.parents))
    {
      var regular: bool := *;
      b := regular && path in repo.parents;
      blind := blind || (!b && path in repo.parents);
    }

    /** Reads the plan's ACTIVE section; no plan means no wiring, and None that it does not name one
        existing task file. */
    method ResolveActiveTaskPath() returns (t: Option<ActiveTask>)
      modifies `blind
      ensures t == Some(Unwired) ==> PlanFile !in repo.parents
      ensures t.Some? && t.value.Wired? ==>
        PlanFile in repo.parents && t.value.path in repo.parents && t.value.path.TaskFile?
      ensures blind == (old(blind) || t == None)
    {
      var readable: bool := *;
      var path: ParentPath := *;
      t := if PlanFile !in repo.parents then if readable then Some(Unwired) else None
           else if path in repo.parents && path.TaskFile? then Some(Wired(path)) else None;
      blind := blind || t == None;
    }

    /** Whether a path changed since the base is critical for the wrapper itself; None when git cannot tell. */
    method CriticalPathChanged(base: Option<string>) returns (c: Option<bool>)
      ensures c.Some? ==> c.value == CriticalAt(critical, base, Capture(repo, ignored))
    {
      var ok: bool := *;
      c := if ok then Some(CriticalAt(critical, base, Capture(repo, ignored))) else None;
    }

    method PrepareArtifactDir() returns (ok: bool)
      modifies `denied
      ensures denied == (old(denied) || !ok)
    {
      ok := *;
      denied := denied || !ok;
    }

    method SecureArtifactDir() returns (ok: bool)
      modifies `denied
      ensures denied == (old(denied) || !ok)
    {
      ok := *;
      denied := denied || !ok;
    }
  }
}
