/** The journal of a repository's commands: what happened, in order, across tasks, stops and resumes.
    Allowed says what the workflow checks before each entry; the theorems say what every journal
    built from such entries satisfies as a whole. */
module Journal {
  import opened Text
  import opened Packets
  import opened Snapshots

  datatype Role = Worker | Reviewer

  datatype Phase =
    | WorkerNew | WorkerDecision | WorkerExplicitFix
    | ReviewRound(round: nat) | RiskFloorRound(round: nat)
    | AutoFixRound(round: nat) | ReportOnlyRound(round: nat)
    | Corrected(base: Phase)

  /** A model call: in which part, what it is for, which model, and whether it may write to the repository. */
  datatype RunCall = RunCall(role: Role, phase: Phase, model: string, readOnly: bool)

  /** What the risk floor of one review was decided on; base is the head that changes are counted from. */
  datatype Floor = Floor(workerHigh: bool, autoFixes: nat, decided: bool, priorReview: bool,
                         criticalPath: bool, base: Option<string>, on: GitSnapshot)

  predicate FloorHigh(f: Floor) {
    f.workerHigh || f.autoFixes > 0 || f.decided || f.priorReview || f.criticalPath
  }

  /** before and after: the repository around a call; at, and snapshots: the repository as looked at then. */
  datatype Event =
    | CommandStarted(repo: Repo)
    | TaskStarted
    | BaselineTaken(head: Option<string>)
    | Decided
    | FixTaken
    | AnswerTaken(status: Status)
    | ModelRun(call: RunCall, before: Repo, after: Repo, output: Option<Result>)
    | GuardTripped
    | WorkerEnded(snap: GitSnapshot)
    | ReviewPinned(snap: GitSnapshot)
    | StopRecorded(parents: Option<Parents>)
    | ParentUpdate(start: Parents, stop: Parents, now: Parents, snap: GitSnapshot)
    | ReviewAccepted(verdict: Status, floor: Option<Floor>, at: GitSnapshot)
    | FixStarted(round: nat, reportOnly: bool)
    | ReportOnlyPinned(snap: GitSnapshot)
    | ReportOnlyAccepted(at: GitSnapshot)
    | Completed

  /** Whether a state of the repository, compared with a base, changes a path critical for the wrapper. */
  type CriticalRule = (Option<string>, string, string, Worktree) -> bool

  predicate CriticalAt(critical: CriticalRule, base: Option<string>, s: GitSnapshot) {
    critical(base, s.head, s.index, s.worktree)
  }

  /** Fixed for a repository: the parent-managed paths git ignores, the automatic fix limit, and the critical
      paths. */
  datatype Rules = Rules(ignored: set<ParentPath>, maxAutoFixRounds: nat, critical: CriticalRule)

  datatype Accepted = Accepted(verdict: Status, at: GitSnapshot)

  /** What a call answered, until something is made of it. */
  datatype Answer = Answer(role: Role, result: Result)

  /** A report-only round is under way, before or after the repository was pinned for it, or none is. */
  datatype Report = NoReport | Unpinned | OnPin

  /** What the current task's calls and reviews rest on. rounds: the fix rounds since the task, a decision or an
      explicit fix started; asked: the worker asked for a decision and has none
      yet; taken: an answer of the worker was taken since the command started. */
  datatype Basis = Basis(
    workerEnd: Option<GitSnapshot>, work: Option<Result>, pin: Option<GitSnapshot>, pinned: bool,
    reviews: nat, decisions: nat, rounds: nat, reportPin: Option<GitSnapshot>, complete: bool,
    baseline: Option<string>, report: Report, asked: bool, taken: bool)

  /** What the entries so far add up to, within the current task: the basis of its reviews, the parent
      files recorded by a stop that no call followed, the review accepted just now, whether the last
      worker call broke the parent-file contract, the last call's answer while it is unused, the number of
      calls, the repository as it is inside a command, whether that answer was taken, and whether it was
      checked to leave the repository as pinned. */
  datatype Monitor = Monitor(
    basis: Basis, stop: Option<Parents>, last: Option<Accepted>, tainted: bool,
    answer: Option<Answer>, calls: nat, repo: Option<Repo>, ready: bool, checked: bool)

  const START := Monitor(
    Basis(None, None, None, false, 0, 0, 0, None, false, None, NoReport, false, false),
    None, None, false, None, 0, None, false, false)

  predicate Allowed(rules: Rules, m: Monitor, e: Event) {
    && (m.tainted ==> e.GuardTripped?)
    && (m.basis.complete ==> e.TaskStarted? || e.CommandStarted?)
    && match e
       case ModelRun(call, before, _, _) =>
         m.repo == Some(before) && !m.basis.asked && m.basis.report != Unpinned && CallAllowed(m, call)
       case BaselineTaken(head) => m.calls == 0 && (head.Some? ==> m.repo.Some? && head.value == m.repo.value.head)
       case Decided => m.basis.asked || m.basis.decisions > 0
       case AnswerTaken(status) => AnswerAllowed(m, status)
       case WorkerEnded(snap) => Shows(rules, m, snap) && m.ready && ReadyForReview(m.answer)
       case ReviewPinned(snap) => m.basis.workerEnd.Some? && Shows(rules, m, snap)
       case StopRecorded(parents) => parents.Some? ==> m.repo.Some? && parents.value == m.repo.value.parents
       case ParentUpdate(start, stop, now, snap) => UpdateAllowed(rules, m, start, stop, now, snap)
       case ReviewAccepted(verdict, floor, at) => AcceptanceAllowed(rules, m, verdict, floor, at)
       case FixStarted(round, _) =>
         m.last.Some? && m.last.value.verdict == FixRequired && round == m.basis.rounds + 1 <= rules.maxAutoFixRounds
       case ReportOnlyPinned(snap) => m.basis.report == Unpinned && AsReviewed(m, snap) && Shows(rules, m, snap)
       case ReportOnlyAccepted(at) => m.basis.report == OnPin && AsReportPinned(m, at) && Shows(rules, m, at)
       case Completed => m.last.Some? && m.last.value.verdict == Pass
       case _ => true
  }

  /** Only a worker outside a report-only round may write, and a call says which round it belongs to. */
  predicate CallAllowed(m: Monitor, call: RunCall) {
    && (call.readOnly <==> call.role == Reviewer || m.basis.report == OnPin)
    && match if call.phase.Corrected? then call.phase.base else call.phase
       case ReviewRound(n) => call.role == Reviewer && n == m.basis.rounds + 1
       case RiskFloorRound(n) => call.role == Reviewer && n == m.basis.rounds + 1
       case AutoFixRound(n) => call.role == Worker && 1 <= n == m.basis.rounds && m.basis.report == NoReport
       case ReportOnlyRound(n) => call.role == Worker && 1 <= n == m.basis.rounds && m.basis.report == OnPin
       case Corrected(_) => false
       case _ => call.role == Worker && m.basis.rounds == 0 && m.basis.report == NoReport
  }

  /** A snapshot shows the repository of the moment, and its parent files if it holds any. */
  predicate Shows(rules: Rules, m: Monitor, snap: GitSnapshot) {
    && m.repo.Some? && snap == Capture(m.repo.value, rules.ignored).(parentFiles := snap.parentFiles)
    && (snap.parentFiles.Some? ==> snap.parentFiles.value == m.repo.value.parents)
  }

  /** A worker's answer is taken; a report-only round's only if it was checked to have changed nothing. */
  predicate AnswerAllowed(m: Monitor, status: Status) {
    && m.answer.Some? && m.answer.value.role == Worker && m.answer.value.result.status == status
    && (m.basis.report == NoReport || m.checked)
  }

  /** The repository is as the review that asked for a report saw it, or as it was pinned for the report. */
  predicate AsReviewed(m: Monitor, snap: GitSnapshot) {
    m.last.Some? && m.last.value.verdict == FixRequired && EqualGitSnapshot(m.last.value.at, snap)
  }

  predicate AsReportPinned(m: Monitor, snap: GitSnapshot) {
    m.basis.reportPin.Some? && EqualGitSnapshot(m.basis.reportPin.value, snap)
  }

  /** Only a worker's answer that asks for no decision goes to review. */
  predicate ReadyForReview(answer: Option<Answer>) {
    answer.Some? && answer.value.role == Worker && answer.value.result.status != NeedsSolDecision
  }

  /** A resumed review is pinned anew: the stop record is the last thing written, it shows the files as
      at the review's start, and only parent-managed files were touched since. */
  predicate UpdateAllowed(rules: Rules, m: Monitor, start: Parents, stop: Parents, now: Parents, snap: GitSnapshot) {
    && m.basis.pinned && m.basis.pin.Some? && m.stop == Some(stop)
    && m.basis.pin.value.parentFiles == Some(start)
    && OnlyUpdatedWhileStopped(start, stop, now)
    && SameOutside(m.basis.pin.value, snap)
    && Shows(rules, m, snap) && m.repo.value.parents == now
  }

  /** A review result is taken: it is what the reviewer just answered, or an escalation in its place; the
      repository is as pinned; a pass needs a floor that is not high, decided on this very state and knowing of
      the worker's own risk, of every earlier review and decision, and of critical paths changed since the
      task's baseline. */
  predicate AcceptanceAllowed(rules: Rules, m: Monitor, verdict: Status, floor: Option<Floor>, at: GitSnapshot) {
    && m.basis.pinned && m.basis.pin.Some? && EqualGitSnapshot(m.basis.pin.value, at) && Shows(rules, m, at)
    && m.answer.Some? && m.answer.value.role == Reviewer
    && (verdict == m.answer.value.result.status || verdict == NeedsSolReview)
    && (verdict == Pass ==> floor.Some?)
    && (floor.Some? ==> FloorKnows(rules, m, floor.value, at) && (verdict == Pass ==> !FloorHigh(floor.value)))
  }

  predicate FloorKnows(rules: Rules, m: Monitor, floor: Floor, at: GitSnapshot) {
    && EqualGitSnapshot(floor.on, at)
    && m.basis.work.Some? && floor.workerHigh == (m.basis.work.value.risk == High)
    && floor.base == m.basis.baseline && floor.autoFixes == m.basis.rounds
    && (!floor.criticalPath ==> !CriticalAt(rules.critical, floor.base, floor.on))
    && (m.basis.reviews > 0 ==> floor.priorReview)
    && (m.basis.decisions > 0 ==> floor.decided)
  }

  function AnswerOf(role: Role, output: Option<Result>): Option<Answer> {
    if output.Some? then Some(Answer(role, output.value)) else None
  }

  function ResultOf(answer: Option<Answer>): Option<Result> {
    if answer.Some? then Some(answer.value.result) else None
  }

  function Step(m: Monitor, e: Event): Monitor {
    match e
    case CommandStarted(repo) =>
      m.(basis := m.basis.(taken := false), repo := Some(repo), last := None, answer := None)
    case TaskStarted => START.(repo := m.repo)
    case BaselineTaken(head) => m.(basis := m.basis.(baseline := head), last := None, answer := None)
    case Decided =>
      m.(basis := m.basis.(decisions := m.basis.decisions + 1, rounds := 0, asked := false, report := NoReport),
         last := None, answer := None)
    case FixTaken => m.(basis := m.basis.(rounds := 0, report := NoReport), last := None, answer := None)
    case AnswerTaken(status) =>
      m.(basis := m.basis.(report := NoReport, taken := true, asked := status == NeedsSolDecision),
         last := None, ready := true)
    case ModelRun(call, before, after, output) =>
      m.(stop := None, last := None, tainted := call.role == Worker && GuardBroken(before.parents, after.parents),
         answer := AnswerOf(call.role, output), calls := m.calls + 1, repo := Some(after), ready := false,
         checked := false)
    case GuardTripped => m.(tainted := false, last := None, answer := None)
    case WorkerEnded(snap) =>
      m.(basis := m.basis.(workerEnd := Some(snap), work := ResultOf(m.answer), pinned := false),
         last := None, answer := None)
    case ReviewPinned(snap) =>
      m.(basis := m.basis.(pin := Some(snap),
                           pinned := m.basis.workerEnd.Some? && EqualGitSnapshot(m.basis.workerEnd.value, snap)),
         stop := None, last := None)
    case StopRecorded(parents) => m.(stop := parents, last := None, answer := None)
    case ParentUpdate(_, _, _, snap) => m.(basis := m.basis.(pin := Some(snap)), last := None)
    case ReviewAccepted(verdict, _, at) =>
      m.(basis := m.basis.(reviews := m.basis.reviews + 1), last := Some(Accepted(verdict, at)), answer := None)
    case FixStarted(round, reportOnly) =>
      m.(basis := m.basis.(rounds := round, report := if reportOnly then Unpinned else NoReport),
         answer := None)
    case ReportOnlyPinned(snap) =>
      m.(basis := m.basis.(reportPin := Some(snap), report := OnPin), answer := None, checked := false)
    case ReportOnlyAccepted(_) => m.(last := None, checked := true)
    case Completed => m.(basis := m.basis.(complete := true))
  }

  /** The entries, and what they add up to before each of them and at the end. */
  datatype Book = Book(events: seq<Event>, monitors: seq<Monitor>)

  const BLANK := Book([], [START])

  ghost predicate Entry(rules: Rules, b: Book, i: nat)
    requires i < |b.events| && |b.monitors| == |b.events| + 1
  {
    Allowed(rules, b.monitors[i], b.events[i]) && b.monitors[i + 1] == Step(b.monitors[i], b.events[i])
  }

  /** A journal that starts blank and in which every entry was allowed when it was made. */
  ghost predicate Legal(rules: Rules, b: Book) {
    && |b.monitors| == |b.events| + 1 && b.monitors[0] == START
    && forall i: nat :: i < |b.events| ==> Entry(rules, b, i)
  }

  function Latest(b: Book): Monitor
    requires b.monitors != []
  {
    b.monitors[|b.monitors| - 1]
  }

  /** One more allowed entry keeps a journal legal. */
  lemma Extend(rules: Rules, b: Book, e: Event)
    requires Legal(rules, b) && Allowed(rules, Latest(b), e)
    ensures Legal(rules, Book(b.events + [e], b.monitors + [Step(Latest(b), e)]))
  {
    var longer := Book(b.events + [e], b.monitors + [Step(Latest(b), e)]);
    forall i: nat | i < |longer.events| ensures Entry(rules, longer, i) {
      if i < |b.events| {
        assert Entry(rules, b, i);
      }
    }
  }
}
