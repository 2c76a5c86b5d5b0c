/** What every legal journal satisfies over whole tasks, across any number of stops and resumes. */
module History {
  import opened Text
  import opened Packets
  import opened Snapshots
  import opened Journal

  // ---------------------------------------------------------------- looking back in a journal

  /** The latest entry before n that the current worker end, pin, stop record, accepted review or
      report-only pin comes from. */
  function LastWorkerEnd(events: seq<Event>, n: nat): Option<nat>
    requires n <= |events|
  {
    if n == 0 then None
    else match events[n - 1]
         case WorkerEnded(_) => Some(n - 1)
         case TaskStarted => None
         case _ => LastWorkerEnd(events, n - 1)
  }

  function LastPin(events: seq<Event>, n: nat): Option<nat>
    requires n <= |events|
  {
    if n == 0 then None
    else match events[n - 1]
         case ReviewPinned(_) => Some(n - 1)
         case ParentUpdate(_, _, _, _) => Some(n - 1)
         case TaskStarted => None
         case _ => LastPin(events, n - 1)
  }

  function LastStop(events: seq<Event>, n: nat): Option<nat>
    requires n <= |events|
  {
    if n == 0 then None
    else match events[n - 1]
         case StopRecorded(_) => Some(n - 1)
         case ModelRun(_, _, _, _) => None
         case ReviewPinned(_) => None
         case TaskStarted => None
         case _ => LastStop(events, n - 1)
  }

  function LastReportPin(events: seq<Event>, n: nat): Option<nat>
    requires n <= |events|
  {
    if n == 0 then None
    else match events[n - 1]
         case ReportOnlyPinned(_) => Some(n - 1)
         case TaskStarted => None
         case _ => LastReportPin(events, n - 1)
  }

  /** The repository as the latest call left it, or as the latest command found it. */
  function LastLook(events: seq<Event>, n: nat): Option<Repo>
    requires n <= |events|
  {
    if n == 0 then None
    else match events[n - 1]
         case CommandStarted(repo) => Some(repo)
         case ModelRun(_, _, after, _) => Some(after)
         case _ => LastLook(events, n - 1)
  }

  /** The head that the current task's changes are counted from. */
  function BaselineOf(events: seq<Event>, n: nat): Option<string>
    requires n <= |events|
  {
    if n == 0 then None
    else match events[n - 1]
         case BaselineTaken(head) => head
         case TaskStarted => None
         case _ => BaselineOf(events, n - 1)
  }

  lemma {:induction false} LooksAreRecorded(rules: Rules, b: Book, n: nat)
    requires Legal(rules, b) && n <= |b.events|
    ensures b.monitors[n].repo == LastLook(b.events, n)
    ensures b.monitors[n].basis.baseline == BaselineOf(b.events, n)
  {
    if n > 0 {
      LooksAreRecorded(rules, b, n - 1);
      assert Entry(rules, b, n - 1);
    }
  }

  /** A snapshot is of the repository as it was at entry n. */
  predicate SeenAt(rules: Rules, events: seq<Event>, n: nat, snap: GitSnapshot)
    requires n <= |events|
  {
    LastLook(events, n).Some? && EqualGitSnapshot(snap, Capture(LastLook(events, n).value, rules.ignored))
  }

  /** Where the task that entry n belongs to starts. */
  function TaskStart(events: seq<Event>, n: nat): nat
    requires n <= |events|
    ensures TaskStart(events, n) <= n
    ensures forall k: nat :: TaskStart(events, n) <= k < n ==> !events[k].TaskStarted?
  {
    if n == 0 then 0
    else if events[n - 1].TaskStarted? then n
    else TaskStart(events, n - 1)
  }

  // ---------------------------------------------------------------- review integrity

  function SnapOf(e: Event): GitSnapshot
    requires e.WorkerEnded? || e.ReviewPinned? || e.ParentUpdate? || e.ReportOnlyPinned?
  {
    match e
    case WorkerEnded(snap) => snap
    case ReviewPinned(snap) => snap
    case ParentUpdate(_, _, _, snap) => snap
    case ReportOnlyPinned(snap) => snap
  }

  /** The monitor's worker end and pin are those of the latest entries. */
  lemma {:induction false} EndsAreRecorded(rules: Rules, b: Book, n: nat)
    requires Legal(rules, b) && n <= |b.events|
    ensures match LastWorkerEnd(b.events, n)
            case None => b.monitors[n].basis.workerEnd == None
            case Some(j) =>
              && j < n && b.events[j].WorkerEnded? && b.monitors[n].basis.workerEnd == Some(b.events[j].snap)
              && forall k: nat :: j < k < n ==> !b.events[k].WorkerEnded? && !b.events[k].TaskStarted?
  {
    if n > 0 {
      EndsAreRecorded(rules, b, n - 1);
      assert Entry(rules, b, n - 1);
    }
  }

  lemma {:induction false} PinsAreRecorded(rules: Rules, b: Book, n: nat)
    requires Legal(rules, b) && n <= |b.events|
    ensures match LastPin(b.events, n)
            case None => b.monitors[n].basis.pin == None
            case Some(q) =>
              && q < n && (b.events[q].ReviewPinned? || b.events[q].ParentUpdate?)
              && b.monitors[n].basis.pin == Some(SnapOf(b.events[q]))
              && forall k: nat :: q < k < n ==>
                   !b.events[k].ReviewPinned? && !b.events[k].ParentUpdate? && !b.events[k].TaskStarted?
  {
    if n > 0 {
      PinsAreRecorded(rules, b, n - 1);
      assert Entry(rules, b, n - 1);
    }
  }

  lemma PinsAreWellCaptured(rules: Rules, b: Book, n: nat)
    requires Legal(rules, b) && n <= |b.events| && b.monitors[n].basis.pin.Some?
    ensures WellCaptured(b.monitors[n].basis.pin.value, rules.ignored)
  {
    PinsAreRecorded(rules, b, n);
    assert Entry(rules, b, LastPin(b.events, n).value);
  }

  /** The monitor's stop record is the latest one; since then no call was made and no review started, and
      an update made since then did change something. */
  lemma {:induction false} StopsAreRecorded(rules: Rules, b: Book, n: nat)
    requires Legal(rules, b) && n <= |b.events|
    ensures match LastStop(b.events, n)
            case None => b.monitors[n].stop == None
            case Some(s) =>
              && s < n && b.events[s].StopRecorded? && b.monitors[n].stop == b.events[s].parents
              && forall k: nat :: s < k < n ==>
                   && !b.events[k].ModelRun? && !b.events[k].ReviewPinned? && !b.events[k].TaskStarted?
                   && (b.events[k].ParentUpdate? ==>
                        b.events[s].parents == Some(b.events[k].stop) && b.events[k].now != b.events[k].stop)
  {
    if n > 0 {
      StopsAreRecorded(rules, b, n - 1);
      assert Entry(rules, b, n - 1);
    }
  }

  lemma UnchangedAreEqual(a: Parents, b: Parents, c: Parents)
    requires forall p :: p in a.Keys + b.Keys + c.Keys ==> Find(b, p) == Find(a, p)
    ensures a == b
  {
    forall p ensures p in a <==> p in b {
      if p in a + b {
        assert p in a.Keys + b.Keys + c.Keys && Find(b, p) == Find(a, p);
      }
    }
    forall p | p in a ensures a[p] == b[p] {
      assert p in a.Keys + b.Keys + c.Keys && Find(b, p) == Find(a, p);
    }
  }

  /** Parent files accepted at a resume: at the pin q and at the later stop s the repository held the same
      ones, no call was made since that stop, and a command started since found the changed ones. */
  ghost predicate UpdatedWhileStopped(b: Book, q: nat, s: nat, g: nat, k: nat) {
    && q < s < g < k < |b.events| && b.events[k].ParentUpdate?
    && (b.events[q].ReviewPinned? || b.events[q].ParentUpdate?) && b.events[s].StopRecorded?
    && ParentsAt(b, q) == ParentsAt(b, s) == Some(b.events[k].stop)
    && b.events[g].CommandStarted? && b.events[g].repo.parents == b.events[k].now != b.events[k].stop
    && ParentsAt(b, k) == Some(b.events[k].now)
    && (forall p :: p in b.events[k].stop ==> p in b.events[k].now)
    && (forall i: nat :: q < i < k ==>
         !b.events[i].ReviewPinned? && !b.events[i].ParentUpdate? && !b.events[i].TaskStarted?)
    && (forall i: nat :: s < i < k ==> !b.events[i].ModelRun?)
  }

  /** The parent files in the repository at entry n. */
  function ParentsAt(b: Book, n: nat): Option<Parents>
    requires n <= |b.events|
  {
    var look := LastLook(b.events, n);
    if look.Some? then Some(look.value.parents) else None
  }

  /** Without a call, only the start of a command can find another repository. */
  lemma {:induction false} ChangedBetweenCommands(b: Book, s: nat, k: nat) returns (g: nat)
    requires s < k <= |b.events| && ParentsAt(b, s) != ParentsAt(b, k)
    requires forall i: nat :: s <= i < k ==> !b.events[i].ModelRun?
    ensures s <= g < k && b.events[g].CommandStarted? && ParentsAt(b, k) == Some(b.events[g].repo.parents)
  {
    if b.events[k - 1].CommandStarted? {
      g := k - 1;
    } else {
      g := ChangedBetweenCommands(b, s, k - 1);
    }
  }

  /** Every accepted change of parent files fell into a gap between commands while the task was stopped:
      nothing changed between the review's pin and the stop, no call followed the stop, and nothing was
      deleted. */
  lemma UpdatesHappenWhileStopped(rules: Rules, b: Book, k: nat) returns (q: nat, s: nat, g: nat)
    requires Legal(rules, b) && k < |b.events| && b.events[k].ParentUpdate?
    ensures LastPin(b.events, k) == Some(q) && LastStop(b.events, k) == Some(s)
    ensures UpdatedWhileStopped(b, q, s, g, k)
  {
    assert Entry(rules, b, k);
    PinsAreRecorded(rules, b, k);
    StopsAreRecorded(rules, b, k);
    q, s := LastPin(b.events, k).value, LastStop(b.events, k).value;
    UnchangedAreEqual(b.events[k].start, b.events[k].stop, b.events[k].now);
    assert Entry(rules, b, q);
    assert Entry(rules, b, s);
    LooksAreRecorded(rules, b, q);
    LooksAreRecorded(rules, b, s);
    LooksAreRecorded(rules, b, k);
    g := ChangedBetweenCommands(b, s, k);
  }

  /** Entry k let parent file p change. */
  predicate Updates(e: Event, p: ParentPath) {
    e.ParentUpdate? && Find(e.now, p) != Find(e.stop, p)
  }

  ghost predicate Explained(b: Book, j: nat, n: nat, was: GitSnapshot, at: GitSnapshot) {
    && n <= |b.events| && SameOutside(was, at)
    && forall p :: Find(was.worktree.parents, p) != Find(at.worktree.parents, p) ==>
         exists k: nat :: j < k < n && Updates(b.events[k], p)
  }

  /** One accepted update explains exactly what it changed. */
  lemma UpdateExplains(rules: Rules, b: Book, j: nat, n: nat, was: GitSnapshot, pin: GitSnapshot)
    requires n < |b.events| && b.events[n].ParentUpdate? && j < n
    requires Explained(b, j, n, was, pin)
    requires WellCaptured(pin, rules.ignored) && b.monitors != [] && n < |b.monitors|
    requires b.monitors[n].basis.pin == Some(pin)
    requires Allowed(rules, b.monitors[n], b.events[n])
    ensures Explained(b, j, n + 1, was, b.events[n].snap)
  {
    var e := b.events[n];
    UnchangedAreEqual(e.start, e.stop, e.now);
    forall p | Find(was.worktree.parents, p) != Find(e.snap.worktree.parents, p)
      ensures exists k: nat :: j < k < n + 1 && Updates(b.events[k], p)
    {
      if Find(was.worktree.parents, p) != Find(pin.worktree.parents, p) {
        var k: nat :| j < k < n && Updates(b.events[k], p);
        assert j < k < n + 1;
      } else {
        assert Updates(b.events[n], p);
      }
    }
  }

  lemma StaysExplained(b: Book, j: nat, n: nat, was: GitSnapshot, at: GitSnapshot)
    requires Explained(b, j, n, was, at) && n < |b.events|
    ensures Explained(b, j, n + 1, was, at)
  {
    forall p | Find(was.worktree.parents, p) != Find(at.worktree.parents, p)
      ensures exists k: nat :: j < k < n + 1 && Updates(b.events[k], p)
    {
      var k: nat :| j < k < n && Updates(b.events[k], p);
      assert j < k < n + 1;
    }
  }

  /** What an entry other than a fresh pin leaves of a pinned review. */
  lemma PinnedStays(rules: Rules, b: Book, n: nat)
    requires Legal(rules, b) && n < |b.events| && b.monitors[n + 1].basis.pinned && !b.events[n].ReviewPinned?
    ensures b.monitors[n].basis.pinned && b.monitors[n + 1].basis.workerEnd == b.monitors[n].basis.workerEnd
    ensures LastWorkerEnd(b.events, n + 1) == LastWorkerEnd(b.events, n)
    ensures !b.events[n].ParentUpdate? ==> b.monitors[n + 1].basis.pin == b.monitors[n].basis.pin
    ensures b.events[n].ParentUpdate? ==> b.monitors[n + 1].basis.pin == Some(b.events[n].snap)
  {
    assert Entry(rules, b, n);
  }

  lemma FreshPinIsExplained(rules: Rules, b: Book, n: nat)
    requires Legal(rules, b) && n < |b.events| && b.monitors[n + 1].basis.pinned && b.events[n].ReviewPinned?
    ensures LastWorkerEnd(b.events, n + 1).Some?
    ensures b.monitors[n + 1].basis.pin.Some? && b.monitors[n + 1].basis.workerEnd.Some?
    ensures EqualGitSnapshot(b.monitors[n + 1].basis.workerEnd.value, b.monitors[n + 1].basis.pin.value)
  {
    assert Entry(rules, b, n);
    EndsAreRecorded(rules, b, n + 1);
  }

  /** A pinned review rests on the worker's end, up to what was accepted since. */
  lemma {:induction false} PinnedIsExplained(rules: Rules, b: Book, n: nat)
    requires Legal(rules, b) && n <= |b.events| && b.monitors[n].basis.pinned
    ensures LastWorkerEnd(b.events, n).Some? && b.monitors[n].basis.pin.Some? && b.monitors[n].basis.workerEnd.Some?
    ensures Explained(b, LastWorkerEnd(b.events, n).value, n, b.monitors[n].basis.workerEnd.value,
      b.monitors[n].basis.pin.value)
  {
    assert n > 0;
    if b.events[n - 1].ReviewPinned? {
      FreshPinIsExplained(rules, b, n - 1);
    } else {
      PinnedStays(rules, b, n - 1);
      PinnedIsExplained(rules, b, n - 1);
      EndsAreRecorded(rules, b, n - 1);
      var j, was, pin := LastWorkerEnd(b.events, n - 1).value, b.monitors[n - 1].basis.workerEnd.value,
        b.monitors[n - 1].basis.pin.value;
      if b.events[n - 1].ParentUpdate? {
        assert Entry(rules, b, n - 1);
        PinsAreWellCaptured(rules, b, n - 1);
        UpdateExplains(rules, b, j, n - 1, was, pin);
      } else {
        StaysExplained(b, j, n - 1, was, pin);
      }
    }
  }

  /** The same of the snapshots: the one of the worker's end and the one the review was accepted on. */
  lemma ListedIntegrity(rules: Rules, b: Book, i: nat)
    requires Legal(rules, b) && i < |b.events| && b.events[i].ReviewAccepted?
    ensures LastWorkerEnd(b.events, i).Some?
    ensures var j := LastWorkerEnd(b.events, i).value;
            && j < i && b.events[j].WorkerEnded? && Explained(b, j, i, b.events[j].snap, b.events[i].at)
            && SeenAt(rules, b.events, j, b.events[j].snap) && SeenAt(rules, b.events, i, b.events[i].at)
            && (forall k: nat :: j < k < i ==> !b.events[k].WorkerEnded? && !b.events[k].TaskStarted?)
  {
    assert Entry(rules, b, i);
    EndsAreRecorded(rules, b, i);
    PinnedIsExplained(rules, b, i);
    LooksAreRecorded(rules, b, i);
    assert Entry(rules, b, LastWorkerEnd(b.events, i).value);
    LooksAreRecorded(rules, b, LastWorkerEnd(b.events, i).value);
  }

  /** An accepted review is about the worker's own result: head, index and every listed file outside the
      parent-managed ones are in the repository as they were at the worker's end, and a parent file that differs
      there is one that git ignores, or was changed while the task was stopped, after the worker's end. */
  lemma ReviewIntegrity(rules: Rules, b: Book, i: nat)
    requires Legal(rules, b) && i < |b.events| && b.events[i].ReviewAccepted?
    ensures LastWorkerEnd(b.events, i).Some?
    ensures var j := LastWorkerEnd(b.events, i).value;
            && j < i && b.events[j].WorkerEnded? && LastLook(b.events, j).Some? && LastLook(b.events, i).Some?
            && (forall k: nat :: j < k < i ==> !b.events[k].WorkerEnded? && !b.events[k].TaskStarted?)
            && var was, now := LastLook(b.events, j).value, LastLook(b.events, i).value;
               && was.head == now.head && was.index == now.index && was.outside == now.outside
               && forall p :: Find(was.parents, p) != Find(now.parents, p) ==>
                    p in rules.ignored || exists k: nat :: j < k < i && Updates(b.events[k], p)
  {
    ListedIntegrity(rules, b, i);
    var j := LastWorkerEnd(b.events, i).value;
    var was, now := LastLook(b.events, j).value, LastLook(b.events, i).value;
    forall p | Find(was.parents, p) != Find(now.parents, p) && p !in rules.ignored
      ensures exists k: nat :: j < k < i && Updates(b.events[k], p)
    {
      assert Find(Listed(was.parents, rules.ignored), p) != Find(Listed(now.parents, rules.ignored), p);
    }
  }

  /** A review is accepted although p changed since the worker's end at j, and no accepted update changed it. */
  ghost predicate ChangesUnseen(rules: Rules, b: Book, j: nat, i: nat, p: ParentPath) {
    && Legal(rules, b) && j < i < |b.events| && b.events[i].ReviewAccepted? && LastWorkerEnd(b.events, i) == Some(j)
    && LastLook(b.events, j).Some? && LastLook(b.events, i).Some?
    && Find(LastLook(b.events, j).value.parents, p) != Find(LastLook(b.events, i).value.parents, p)
    && forall k: nat :: j < k < i ==> !Updates(b.events[k], p)
  }

  /** One more allowed entry. */
  lemma Write(rules: Rules, b: Book, e: Event) returns (longer: Book)
    requires Legal(rules, b) && Allowed(rules, Latest(b), e)
    ensures Legal(rules, longer) && longer.events == b.events + [e] && Latest(longer) == Step(Latest(b), e)
  {
    Extend(rules, b, e);
    longer := Book(b.events + [e], b.monitors + [Step(Latest(b), e)]);
  }

  /** A worker answers and leaves the repository alone, and its end is pinned for review. */
  function PinnedEvents(repo: Repo, snap: GitSnapshot, work: Result): seq<Event> {
    [CommandStarted(repo), TaskStarted, ModelRun(RunCall(Worker, WorkerNew, "", false), repo, repo, Some(work)),
     AnswerTaken(Implemented),
     WorkerEnded(snap), ReviewPinned(snap)]
  }

  lemma PinnedJournal(rules: Rules, repo: Repo, work: Result) returns (b: Book)
    requires work.status == Implemented && PlanFile !in repo.parents
    ensures Legal(rules, b) && b.events == PinnedEvents(repo, Capture(repo, rules.ignored), work)
    ensures var m := Latest(b);
            && !m.tainted && !m.basis.complete && !m.basis.asked && m.basis.report == NoReport && m.basis.pinned
            && m.basis.rounds == 0 && m.repo == Some(repo) && m.basis.pin == Some(Capture(repo, rules.ignored))
  {
    b := Write(rules, BLANK, CommandStarted(repo));
    b := Write(rules, b, TaskStarted);
    b := Write(rules, b, ModelRun(RunCall(Worker, WorkerNew, "", false), repo, repo, Some(work)));
    b := Write(rules, b, AnswerTaken(Implemented));
    b := Write(rules, b, WorkerEnded(Capture(repo, rules.ignored)));
    b := Write(rules, b, ReviewPinned(Capture(repo, rules.ignored)));
  }

  /** A reviewer that creates an ignored file, and whose review is accepted all the same: no stop and no update
      is in the journal. */
  lemma IgnoredChangeIsUnseen(rules: Rules, p: ParentPath, content: string) returns (b: Book, repo: Repo)
    requires p in rules.ignored
    ensures ChangesUnseen(rules, b, 4, 7, p)
    ensures b.events == PinnedEvents(repo, Capture(repo, rules.ignored), EMPTY_RESULT.(status := Implemented)) +
      [ModelRun(RunCall(Reviewer, ReviewRound(1), "", true), repo, repo.(parents := map[p := content]),
                Some(EMPTY_RESULT.(status := NeedsSolReview))),
       ReviewAccepted(NeedsSolReview, None, Capture(repo, rules.ignored))]
  {
    repo := Repo("", "", map[], map[], {});
    var changed := repo.(parents := map[p := content]);
    assert Listed(changed.parents, rules.ignored) == Listed(repo.parents, rules.ignored) == map[];
    b := PinnedJournal(rules, repo, EMPTY_RESULT.(status := Implemented));
    b := ReviewedJournal(rules, b, repo, changed, EMPTY_RESULT.(status := NeedsSolReview));
    LookedAt(b, repo, changed);
  }

  /** A pinned review is accepted as long as the snapshot stays as it was. */
  lemma ReviewedJournal(rules: Rules, pinned: Book, repo: Repo, changed: Repo, review: Result) returns (b: Book)
    requires Legal(rules, pinned) && review.status == NeedsSolReview
    requires var m := Latest(pinned);
             && !m.tainted && !m.basis.complete && !m.basis.asked && m.basis.report == NoReport && m.basis.pinned
             && m.basis.rounds == 0 && m.repo == Some(repo) && m.basis.pin == Some(Capture(repo, rules.ignored))
    requires Capture(changed, rules.ignored) == Capture(repo, rules.ignored)
    ensures Legal(rules, b)
    ensures b.events == pinned.events +
      [ModelRun(RunCall(Reviewer, ReviewRound(1), "", true), repo, changed, Some(review)),
                                         ReviewAccepted(NeedsSolReview, None, Capture(repo, rules.ignored))]
  {
    b := Write(rules, pinned, ModelRun(RunCall(Reviewer, ReviewRound(1), "", true), repo, changed, Some(review)));
    b := Write(rules, b, ReviewAccepted(NeedsSolReview, None, Capture(repo, rules.ignored)));
  }

  lemma LookedAt(b: Book, repo: Repo, changed: Repo)
    requires |b.events| == 8 && b.events[2].ModelRun? && b.events[2].after == repo && b.events[3].AnswerTaken?
    requires b.events[4].WorkerEnded? && b.events[5].ReviewPinned?
    requires b.events[6].ModelRun? && b.events[6].after == changed
    ensures LastWorkerEnd(b.events, 7) == Some(4)
    ensures LastLook(b.events, 4) == Some(repo) && LastLook(b.events, 7) == Some(changed)
  {
    assert LastWorkerEnd(b.events, 5) == LastWorkerEnd(b.events, 6) == Some(4);
    assert LastLook(b.events, 3) == Some(repo);
  }

  /** Exactly the parent files that git ignores can change during a review without anybody noticing. */
  lemma UnseenExactly(rules: Rules, p: ParentPath)
    ensures (exists b: Book, j: nat, i: nat :: ChangesUnseen(rules, b, j, i, p)) <==> p in rules.ignored
  {
    if b: Book, j: nat, i: nat :| ChangesUnseen(rules, b, j, i, p) {
      ReviewIntegrity(rules, b, i);
    }
    if p in rules.ignored {
      var b, _ := IgnoredChangeIsUnseen(rules, p, "");
    }
  }

  // ---------------------------------------------------------------- the risk floor

  predicate Asks(e: Event) {
    e.AnswerTaken? && e.status == NeedsSolDecision
  }

  /** What the counters of a task say about its entries. */
  lemma {:induction false} DecisionsAreCounted(rules: Rules, b: Book, n: nat)
    requires Legal(rules, b) && n <= |b.events| && b.monitors[n].basis.decisions == 0
    ensures forall k: nat :: TaskStart(b.events, n) <= k < n ==> !b.events[k].Decided?
  {
    if n > 0 {
      assert Entry(rules, b, n - 1);
      if !b.events[n - 1].TaskStarted? {
        DecisionsAreCounted(rules, b, n - 1);
      }
    }
  }

  lemma {:induction false} ReviewsAreCounted(rules: Rules, b: Book, n: nat)
    requires Legal(rules, b) && n <= |b.events| && b.monitors[n].basis.reviews == 0
    ensures b.monitors[n].last == None
    ensures forall k: nat :: TaskStart(b.events, n) <= k < n ==>
      !b.events[k].ReviewAccepted? && !b.events[k].FixStarted?
  {
    if n > 0 {
      assert Entry(rules, b, n - 1);
      if !b.events[n - 1].TaskStarted? {
        ReviewsAreCounted(rules, b, n - 1);
      }
    }
  }

  /** A pass is acted on at once. */
  lemma PassIsLatest(rules: Rules, b: Book, n: nat)
    requires Legal(rules, b) && n <= |b.events| && !b.monitors[n].basis.complete
    requires b.monitors[n].last.Some? && b.monitors[n].last.value.verdict == Pass
    ensures 0 < n && b.events[n - 1].ReviewAccepted? && b.events[n - 1].verdict == Pass
  {
    assert Entry(rules, b, n - 1);
  }

  lemma {:induction false} AskingIsCounted(rules: Rules, b: Book, n: nat)
    requires Legal(rules, b) && n <= |b.events| && b.monitors[n].basis.decisions == 0 && !b.monitors[n].basis.asked
    ensures forall k: nat :: TaskStart(b.events, n) <= k < n ==> !Asks(b.events[k])
  {
    if n > 0 {
      assert Entry(rules, b, n - 1);
      AskedIsUnanswered(rules, b, n - 1);
      if !b.events[n - 1].TaskStarted? {
        AskingIsCounted(rules, b, n - 1);
      }
    }
  }

  /** While a decision is asked for, the latest answer is the one that asks for it. */
  lemma {:induction false} AskedIsUnanswered(rules: Rules, b: Book, n: nat)
    requires Legal(rules, b) && n <= |b.events|
    ensures b.monitors[n].basis.asked && b.monitors[n].answer.Some? ==>
              b.monitors[n].answer.value.role == Worker && b.monitors[n].answer.value.result.status == NeedsSolDecision
  {
    if n > 0 {
      AskedIsUnanswered(rules, b, n - 1);
      assert Entry(rules, b, n - 1);
    }
  }

  /** A task completes only on the first review ever accepted for it, a pass the reviewer just gave, with a
      risk floor that was low: a low-risk worker result, no automatic fix, no decision asked for or taken, and
      no critical path changed between the task's baseline and the very repository the review was accepted on. */
  lemma RiskFloorOfCompletion(rules: Rules, b: Book, i: nat)
    requires Legal(rules, b) && i < |b.events| && b.events[i].Completed?
    ensures 0 < i && b.events[i - 1].ReviewAccepted? && b.events[i - 1].verdict == Pass && TaskStart(b.events, i) < i
    ensures b.events[i - 1].floor.Some? && !FloorHigh(b.events[i - 1].floor.value)
    ensures SeenAt(rules, b.events, i - 1, b.events[i - 1].at)
    ensures !CriticalAt(rules.critical, BaselineOf(b.events, i - 1), b.events[i - 1].at)
    ensures forall k: nat :: TaskStart(b.events, i) <= k < i - 1 ==> !b.events[k].ReviewAccepted?
    ensures forall k: nat :: TaskStart(b.events, i) <= k < i ==>
              !b.events[k].FixStarted? && !b.events[k].Decided? && !Asks(b.events[k])
  {
    assert Entry(rules, b, i);
    PassIsLatest(rules, b, i);
    assert Entry(rules, b, i - 1);
    DecisionsAreCounted(rules, b, i - 1);
    ReviewsAreCounted(rules, b, i - 1);
    LooksAreRecorded(rules, b, i - 1);
    AskedIsUnanswered(rules, b, i - 1);
    AskingIsCounted(rules, b, i - 1);
  }

  /** Once a task is complete only refused commands and a new task follow. */
  lemma {:induction false} CompletionIsFinal(rules: Rules, b: Book, i: nat, n: nat)
    requires Legal(rules, b) && i < n <= |b.events| && b.events[i].Completed?
    requires forall k: nat :: i < k < n ==> !b.events[k].TaskStarted?
    ensures b.monitors[n].basis.complete
    ensures forall k: nat :: i < k < n ==> b.events[k].CommandStarted?
  {
    assert Entry(rules, b, n - 1);
    if i < n - 1 {
      CompletionIsFinal(rules, b, i, n - 1);
    }
  }

  /** A task that ever needed an automatic fix, asked for a decision or was given one never completes. */
  lemma FixedTasksNeverComplete(rules: Rules, b: Book, k: nat, i: nat)
    requires Legal(rules, b) && k < i < |b.events|
    requires b.events[k].FixStarted? || b.events[k].Decided? || Asks(b.events[k])
    requires forall m: nat :: k < m <= i ==> !b.events[m].TaskStarted?
    ensures !b.events[i].Completed?
  {
    if b.events[i].Completed? {
      RiskFloorOfCompletion(rules, b, i);
      if TaskStart(b.events, i) > k {
        TaskStartsAtStart(b.events, i);
      }
    }
  }

  /** A worker that asked for a decision is not called, nor is a reviewer, before one was taken. */
  lemma AskedTasksWait(rules: Rules, b: Book, k: nat, i: nat)
    requires Legal(rules, b) && k < i < |b.events| && Asks(b.events[k]) && b.events[i].ModelRun?
    requires forall m: nat :: k < m < i ==> !b.events[m].TaskStarted?
    ensures exists d: nat :: k < d < i && b.events[d].Decided?
  {
    assert Entry(rules, b, i);
    if forall d: nat :: k < d < i ==> !b.events[d].Decided? {
      AskingLasts(rules, b, k, i);
    }
  }

  lemma {:induction false} AskingLasts(rules: Rules, b: Book, k: nat, n: nat)
    requires Legal(rules, b) && k < n <= |b.events| && Asks(b.events[k])
    requires forall m: nat :: k < m < n ==> !b.events[m].TaskStarted? && !b.events[m].Decided?
    ensures b.monitors[n].basis.asked
  {
    assert Entry(rules, b, n - 1);
    if k < n - 1 {
      AskingLasts(rules, b, k, n - 1);
      AskedIsUnanswered(rules, b, n - 1);
    }
  }

  /** A decision is taken only in a task whose worker asked for one. */
  lemma {:induction false} DecisionsAreAskedFor(rules: Rules, b: Book, n: nat) returns (k: nat)
    requires Legal(rules, b) && n <= |b.events| && (b.monitors[n].basis.asked || b.monitors[n].basis.decisions > 0)
    ensures TaskStart(b.events, n) <= k < n && Asks(b.events[k])
  {
    assert Entry(rules, b, n - 1);
    if Asks(b.events[n - 1]) {
      k := n - 1;
    } else {
      k := DecisionsAreAskedFor(rules, b, n - 1);
    }
  }

  lemma {:induction false} TaskStartsAtStart(events: seq<Event>, n: nat)
    requires n <= |events|
    ensures TaskStart(events, n) == 0 || events[TaskStart(events, n) - 1].TaskStarted?
  {
    if n > 0 && !events[n - 1].TaskStarted? {
      TaskStartsAtStart(events, n - 1);
    }
  }

  // ---------------------------------------------------------------- fix rounds

  /** A new task, a decision or an explicit fix starts the rounds anew. */
  predicate StartsRounds(e: Event) {
    e.TaskStarted? || e.Decided? || e.FixTaken?
  }

  /** The fix rounds entered since then. */
  function RoundsOf(events: seq<Event>, n: nat): nat
    requires n <= |events|
  {
    if n == 0 || StartsRounds(events[n - 1]) then 0
    else RoundsOf(events, n - 1) + if events[n - 1].FixStarted? then 1 else 0
  }

  lemma {:induction false} RoundsAreCounted(rules: Rules, b: Book, n: nat)
    requires Legal(rules, b) && n <= |b.events|
    ensures b.monitors[n].basis.rounds == RoundsOf(b.events, n) <= rules.maxAutoFixRounds
  {
    if n > 0 {
      RoundsAreCounted(rules, b, n - 1);
      assert Entry(rules, b, n - 1);
    }
  }

  /** Fix rounds are numbered one by one from the start of the work on, over any stops and resumes, and never go past
      the limit; each answers a review that asked for a fix. */
  lemma RoundsAreNumbered(rules: Rules, b: Book, i: nat) returns (r: nat)
    requires Legal(rules, b) && i < |b.events| && b.events[i].FixStarted?
    ensures b.events[i].round == RoundsOf(b.events, i) + 1 <= rules.maxAutoFixRounds
    ensures r < i && b.events[r].ReviewAccepted? && b.events[r].verdict == FixRequired
    ensures forall k: nat :: r < k < i ==> !b.events[k].ModelRun? && !b.events[k].StopRecorded?
  {
    assert Entry(rules, b, i);
    RoundsAreCounted(rules, b, i);
    r := LastReviewIsRecorded(rules, b, i);
  }

  /** Whoever may write to the repository is a worker, and no report-only round is under way. */
  lemma OnlyWorkersWrite(rules: Rules, b: Book, i: nat, f: nat)
    requires Legal(rules, b) && i < |b.events| && b.events[i].ModelRun? && !b.events[i].call.readOnly
    ensures b.events[i].call.role == Worker && !InReportRound(b, f, i)
  {
    assert Entry(rules, b, i);
    if InReportRound(b, f, i) {
      var _ := ReportRoundIsPinned(rules, b, f, i);
    }
  }

  /** A call's name tells its round: a fix belongs to the round entered last, a review to the one it may lead to. */
  lemma CallsNameTheirRound(rules: Rules, b: Book, i: nat)
    requires Legal(rules, b) && i < |b.events| && b.events[i].ModelRun?
    ensures var phase := b.events[i].call.phase;
            match if phase.Corrected? then phase.base else phase
            case ReviewRound(n) => b.events[i].call.role == Reviewer && n == RoundsOf(b.events, i) + 1
            case RiskFloorRound(n) => b.events[i].call.role == Reviewer && n == RoundsOf(b.events, i) + 1
            case AutoFixRound(n) => b.events[i].call.role == Worker && 1 <= n == RoundsOf(b.events, i)
            case ReportOnlyRound(n) => b.events[i].call.role == Worker && 1 <= n == RoundsOf(b.events, i)
            case Corrected(_) => false
            case _ => b.events[i].call.role == Worker && RoundsOf(b.events, i) == 0
  {
    assert Entry(rules, b, i);
    RoundsAreCounted(rules, b, i);
  }

  /** So of two rounds of the same work the later one has the higher number, and all numbers between occur. */
  lemma {:induction false} EarlierRoundsExist(rules: Rules, b: Book, n: nat, round: nat) returns (k: nat)
    requires Legal(rules, b) && n <= |b.events| && 1 <= round <= RoundsOf(b.events, n)
    ensures k < n && b.events[k].FixStarted? && b.events[k].round == round
    ensures forall m: nat :: k < m < n ==> !StartsRounds(b.events[m])
    ensures RoundsOf(b.events, k) == round - 1
  {
    if b.events[n - 1].FixStarted? && round == RoundsOf(b.events, n) {
      k := n - 1;
      var _ := RoundsAreNumbered(rules, b, k);
    } else {
      k := EarlierRoundsExist(rules, b, n - 1, round);
    }
  }

  /** A review is accepted knowing exactly how many rounds came before it. */
  lemma FloorsCountRounds(rules: Rules, b: Book, i: nat)
    requires Legal(rules, b) && i < |b.events| && b.events[i].ReviewAccepted? && b.events[i].floor.Some?
    ensures b.events[i].floor.value.autoFixes == RoundsOf(b.events, i)
    ensures b.events[i].verdict == Pass ==> RoundsOf(b.events, i) == 0
  {
    assert Entry(rules, b, i);
    RoundsAreCounted(rules, b, i);
  }

  // ---------------------------------------------------------------- report-only rounds

  /** The review accepted just now is still the last word on the repository. */
  lemma {:induction false} LastReviewIsRecorded(rules: Rules, b: Book, n: nat) returns (r: nat)
    requires Legal(rules, b) && n <= |b.events| && b.monitors[n].last.Some?
    ensures r < n && b.events[r].ReviewAccepted?
    ensures b.monitors[n].last == Some(Accepted(b.events[r].verdict, b.events[r].at))
    ensures forall k: nat :: r < k < n ==>
      b.events[k].FixStarted? || b.events[k].ReportOnlyPinned? || b.events[k].Completed?
  {
    assert Entry(rules, b, n - 1);
    if b.events[n - 1].ReviewAccepted? {
      r := n - 1;
    } else {
      r := LastReviewIsRecorded(rules, b, n - 1);
    }
  }

  /** Entry f started a report-only round that is still under way at n. */
  ghost predicate InReportRound(b: Book, f: nat, n: nat) {
    && f < n <= |b.events| && b.events[f].FixStarted? && b.events[f].reportOnly
    && forall k: nat :: f < k < n ==>
         && !b.events[k].TaskStarted? && !b.events[k].FixStarted? && !b.events[k].FixTaken?
         && !b.events[k].Decided? && !b.events[k].AnswerTaken?
  }

  /** The one pin of the round, if it was taken yet. */
  ghost predicate PinnedOnceAt(b: Book, f: nat, j: nat, n: nat) {
    && f < j < n <= |b.events| && b.events[j].ReportOnlyPinned?
    && forall k: nat :: f < k < n && k != j ==> !b.events[k].ReportOnlyPinned?
  }

  lemma {:induction false} ReportRoundIsPinned(rules: Rules, b: Book, f: nat, n: nat) returns (j: nat)
    requires Legal(rules, b) && InReportRound(b, f, n)
    ensures b.monitors[n].basis.report != NoReport
    ensures b.monitors[n].basis.report == Unpinned ==> forall k: nat :: f < k < n ==> !b.events[k].ReportOnlyPinned?
    ensures b.monitors[n].basis.report == OnPin ==>
              PinnedOnceAt(b, f, j, n) && b.monitors[n].basis.reportPin == Some(b.events[j].snap)
  {
    assert Entry(rules, b, n - 1);
    j := n - 1;
    if f < n - 1 {
      var before := ReportRoundIsPinned(rules, b, f, n - 1);
      if !b.events[n - 1].ReportOnlyPinned? { j := before; }
    }
  }

  lemma CheckedStays(rules: Rules, m: Monitor, e: Event)
    requires Allowed(rules, m, e) && !e.ReportOnlyAccepted?
    requires var now := Step(m, e); now.checked && now.answer.Some? && now.basis.report == OnPin
    ensures m.checked && m.answer.Some? && m.basis.report == OnPin
    ensures Step(m, e).repo == m.repo && Step(m, e).basis.reportPin == m.basis.reportPin
  {
  }

  /** A checked answer left the repository as pinned for the report. */
  lemma {:induction false} CheckedIsAsPinned(rules: Rules, b: Book, n: nat)
    requires Legal(rules, b) && n <= |b.events|
    requires b.monitors[n].checked && b.monitors[n].answer.Some? && b.monitors[n].basis.report == OnPin
    ensures b.monitors[n].repo.Some?
    ensures AsReportPinned(b.monitors[n], Capture(b.monitors[n].repo.value, rules.ignored))
  {
    assert Entry(rules, b, n - 1);
    if !b.events[n - 1].ReportOnlyAccepted? {
      CheckedStays(rules, b.monitors[n - 1], b.events[n - 1]);
      CheckedIsAsPinned(rules, b, n - 1);
    }
  }

  /** The answer of a report-only round is taken, for review or as a request for a decision, only when the
      worker's call left the repository exactly as the review that asked for the report saw it: as pinned
      once, right after that review, and never anew, whatever stops, resumes and corrections follow. */
  lemma ReportOnlyInvariance(rules: Rules, b: Book, f: nat, i: nat) returns (r: nat, j: nat, c: nat)
    requires Legal(rules, b) && i < |b.events| && InReportRound(b, f, i) && b.events[i].AnswerTaken?
    ensures r < f < j < c < i && PinnedOnceAt(b, f, j, i)
    ensures b.events[r].ReviewAccepted? && b.events[r].verdict == FixRequired
    ensures EqualGitSnapshot(b.events[r].at, b.events[j].snap)
    ensures b.events[c].ModelRun? && b.events[c].call.role == Worker && LastLook(b.events, i) == Some(b.events[c].after)
    ensures EqualGitSnapshot(b.events[j].snap, Capture(b.events[c].after, rules.ignored))
    ensures forall k: nat :: c < k < i ==> !b.events[k].ModelRun? && !b.events[k].CommandStarted?
  {
    assert Entry(rules, b, i);
    j := ReportRoundIsPinned(rules, b, f, i);
    if b.monitors[i].basis.report == Unpinned {
      UnpinnedIsUnanswered(rules, b, i);
    }
    CheckedIsAsPinned(rules, b, i);
    c := AnswersComeFromCalls(rules, b, i);
    LooksAreRecorded(rules, b, i);
    r := RoundComesFromReview(rules, b, f, j);
  }

  /** The pin of a report-only round shows what the review before the round was accepted on. */
  lemma RoundComesFromReview(rules: Rules, b: Book, f: nat, j: nat) returns (r: nat)
    requires Legal(rules, b) && j < |b.events| && InReportRound(b, f, j) && b.events[j].ReportOnlyPinned?
    ensures r < f && b.events[r].ReviewAccepted? && b.events[r].verdict == FixRequired
    ensures EqualGitSnapshot(b.events[r].at, b.events[j].snap)
  {
    assert Entry(rules, b, j);
    r := LastReviewIsRecorded(rules, b, j);
    if f < r {
      var _ := ReportRoundIsPinned(rules, b, f, j);
      var _ := ReportRoundIsPinned(rules, b, f, r);
      assert Entry(rules, b, r);
      UnpinnedIsUnanswered(rules, b, r);
    }
  }

  lemma {:induction false} UnpinnedIsUnanswered(rules: Rules, b: Book, n: nat)
    requires Legal(rules, b) && n <= |b.events| && b.monitors[n].basis.report == Unpinned
    ensures b.monitors[n].answer == None
  {
    assert Entry(rules, b, n - 1);
    if !b.events[n - 1].FixStarted? {
      UnpinnedIsUnanswered(rules, b, n - 1);
    }
  }

  // ---------------------------------------------------------------- parent files and answers

  /** A worker call that broke the parent-file contract is the end of its command: the very next entry is
      the guard's, and nothing it answered is ever reviewed. */
  lemma GuardTripsAtOnce(rules: Rules, b: Book, i: nat)
    requires Legal(rules, b) && i + 1 < |b.events| && b.events[i].ModelRun?
    requires b.events[i].call.role == Worker && !ParentsLeftAlone(b.events[i].before, b.events[i].after)
    ensures b.events[i + 1].GuardTripped?
  {
    assert Entry(rules, b, i);
    assert Entry(rules, b, i + 1);
  }

  /** The latest call, if its answer is still unused. */
  lemma {:induction false} AnswersComeFromCalls(rules: Rules, b: Book, n: nat) returns (c: nat)
    requires Legal(rules, b) && n <= |b.events| && b.monitors[n].answer.Some?
    ensures c < n && b.events[c].ModelRun?
    ensures b.events[c].output == Some(b.monitors[n].answer.value.result)
    ensures b.events[c].call.role == b.monitors[n].answer.value.role
    ensures forall k: nat :: c < k < n ==>
      (b.events[k].ReviewPinned? || b.events[k].ParentUpdate? || b.events[k].AnswerTaken?
                                            || b.events[k].ReportOnlyAccepted? || b.events[k].Completed?)
    ensures LastLook(b.events, n) == Some(b.events[c].after)
  {
    assert Entry(rules, b, n - 1);
    if b.events[n - 1].ModelRun? {
      c := n - 1;
    } else {
      c := AnswersComeFromCalls(rules, b, n - 1);
    }
  }

  /** With a plan in place all parent-managed files are as they were; without one there is still none. */
  predicate ParentsLeftAlone(before: Repo, after: Repo) {
    (PlanFile in before.parents ==> after.parents == before.parents) &&
      (PlanFile in after.parents ==> PlanFile in before.parents)
  }

  /** What goes to review is the answer of a worker call that kept the parent-file contract, and no other
      call or stop lies between. */
  lemma ReviewedWorkIsGuarded(rules: Rules, b: Book, i: nat) returns (c: nat)
    requires Legal(rules, b) && i < |b.events| && b.events[i].WorkerEnded?
    ensures c < i && b.events[c].ModelRun? && b.events[c].call.role == Worker && b.events[c].output.Some?
    ensures b.events[c].output.value.status != NeedsSolDecision
    ensures ParentsLeftAlone(b.events[c].before, b.events[c].after)
    ensures EqualGitSnapshot(b.events[i].snap, Capture(b.events[c].after, rules.ignored))
    ensures forall k: nat :: c < k < i ==>
      !b.events[k].ModelRun? && !b.events[k].StopRecorded? && !b.events[k].GuardTripped?
  {
    assert Entry(rules, b, i);
    c := AnswersComeFromCalls(rules, b, i);
    LooksAreRecorded(rules, b, i);
    if GuardBroken(b.events[c].before.parents, b.events[c].after.parents) {
      GuardTripsIfFollowed(rules, b, c, i);
    }
  }

  /** The work under review is what the worker answered when its end was pinned. */
  lemma {:induction false} WorkIsRecorded(rules: Rules, b: Book, n: nat)
    requires Legal(rules, b) && n <= |b.events|
    ensures match LastWorkerEnd(b.events, n)
            case None => b.monitors[n].basis.work == None
            case Some(j) =>
              j < n && b.events[j].WorkerEnded? && b.monitors[n].basis.work == ResultOf(b.monitors[j].answer)
  {
    if n > 0 {
      WorkIsRecorded(rules, b, n - 1);
      assert Entry(rules, b, n - 1);
    }
  }

  /** A completed task's work came from a worker call that declared no high risk, asked for no decision and kept
      the parent-file contract, and the completing review is of that work. */
  lemma CompletedWorkWasLowRisk(rules: Rules, b: Book, i: nat) returns (c: nat, j: nat)
    requires Legal(rules, b) && i < |b.events| && b.events[i].Completed?
    ensures c < j < i - 1 && LastWorkerEnd(b.events, i - 1) == Some(j) && b.events[j].WorkerEnded?
    ensures b.events[c].ModelRun? && b.events[c].call.role == Worker && b.events[c].output.Some?
    ensures b.events[c].output.value.risk != High && b.events[c].output.value.status != NeedsSolDecision
    ensures ParentsLeftAlone(b.events[c].before, b.events[c].after)
    ensures forall k: nat :: c < k < j ==> !b.events[k].ModelRun? && !b.events[k].StopRecorded?
  {
    RiskFloorOfCompletion(rules, b, i);
    assert Entry(rules, b, i - 1);
    WorkIsRecorded(rules, b, i - 1);
    j := LastWorkerEnd(b.events, i - 1).value;
    assert Entry(rules, b, j);
    c := AnswersComeFromCalls(rules, b, j);
    if GuardBroken(b.events[c].before.parents, b.events[c].after.parents) {
      GuardTripsIfFollowed(rules, b, c, j);
    }
  }

  lemma GuardTripsIfFollowed(rules: Rules, b: Book, c: nat, i: nat)
    requires Legal(rules, b) && c < i < |b.events| && b.events[c].ModelRun? && b.events[c].call.role == Worker
    requires GuardBroken(b.events[c].before.parents, b.events[c].after.parents) && !b.events[i].GuardTripped?
    ensures exists k: nat :: c < k < i && b.events[k].GuardTripped?
  {
    GuardTripsAtOnce(rules, b, c);
    assert c < c + 1 < i || c + 1 == i;
  }

  /** An accepted verdict is what the reviewer answered last, or an escalation instead of it; a pass only
      ever comes from the reviewer. */
  lemma VerdictsComeFromReviewers(rules: Rules, b: Book, i: nat) returns (c: nat)
    requires Legal(rules, b) && i < |b.events| && b.events[i].ReviewAccepted?
    ensures c < i && b.events[c].ModelRun? && b.events[c].call.role == Reviewer && b.events[c].output.Some?
    ensures b.events[i].verdict == b.events[c].output.value.status || b.events[i].verdict == NeedsSolReview
    ensures EqualGitSnapshot(b.events[i].at, Capture(b.events[c].after, rules.ignored))
    ensures forall k: nat :: c < k < i ==>
      !b.events[k].ModelRun? && !b.events[k].StopRecorded? && !b.events[k].ReviewAccepted?
  {
    assert Entry(rules, b, i);
    c := AnswersComeFromCalls(rules, b, i);
    LooksAreRecorded(rules, b, i);
  }

  // ---------------------------------------------------------------- the books

  /** Calls made for the current task. */
  function CallsOf(events: seq<Event>, n: nat): nat
    requires n <= |events|
  {
    if n == 0 || events[n - 1].TaskStarted? then 0
    else CallsOf(events, n - 1) + if events[n - 1].ModelRun? then 1 else 0
  }

  lemma {:induction false} CallsAreCounted(rules: Rules, b: Book, n: nat)
    requires Legal(rules, b) && n <= |b.events|
    ensures b.monitors[n].calls == CallsOf(b.events, n)
  {
    if n > 0 {
      CallsAreCounted(rules, b, n - 1);
      assert Entry(rules, b, n - 1);
    }
  }

  /** The monitors are a function of the entries: they add no freedom to a journal. */
  lemma {:induction false} MonitorsAreDetermined(rules: Rules, a: Book, b: Book, n: nat)
    requires Legal(rules, a) && Legal(rules, b) && a.events == b.events && n <= |a.events|
    ensures a.monitors[n] == b.monitors[n]
  {
    if n > 0 {
      MonitorsAreDetermined(rules, a, b, n - 1);
      assert Entry(rules, a, n - 1) && Entry(rules, b, n - 1);
    }
  }
}
