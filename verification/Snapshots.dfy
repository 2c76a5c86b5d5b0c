/** The repository as the workflow observes it: three-axis snapshots and the parent-managed
    metadata files (glm-worker/internal/state/snapshot.go, workflow/planfile.go). */
module Snapshots {
  import opened Text

  /** The parent-managed files: three at the repository root and everything in the task directory. */
  datatype ParentPath = PlanFile | RulesFile | HistoryFile | TaskFile(name: string)

  /** The parent-managed files that exist, with their contents; a path that is not a key is a file
      that does not exist. */
  type Parents = map<ParentPath, string>

  function Find(parents: Parents, path: ParentPath): Option<string> {
    if path in parents then Some(parents[path]) else None
  }

  /** Working tree contents that git lists, apart from and among the parent-managed files. Digests are
      taken to be injective, so a digest is the content it stands for. */
  datatype Worktree = Worktree(outside: map<string, string>, parents: Parents)

  /** outside: the files git lists that are not parent-managed; parents: all parent-managed ones, listed or not. */
  datatype Repo = Repo(head: string, index: string, outside: map<string, string>, parents: Parents,
    tracked: set<ParentPath>)

  datatype GitSnapshot = GitSnapshot(
    head: string, index: string, worktree: Worktree,
    excludingParent: Option<map<string, string>>, parentFiles: Option<Parents>)

  /** What git lists of the parent-managed files; ignored ones never reach a worktree digest. */
  function Listed(parents: Parents, ignored: set<ParentPath>): Parents {
    map p | p in parents && p !in ignored :: parents[p]
  }

  function Capture(repo: Repo, ignored: set<ParentPath>): GitSnapshot {
    GitSnapshot(repo.head, repo.index, Worktree(repo.outside, Listed(repo.parents, ignored)), Some(repo.outside), None)
  }

  predicate EqualGitSnapshot(a: GitSnapshot, b: GitSnapshot) {
    a.head == b.head && a.index == b.index && a.worktree == b.worktree
  }

  /** Head, index and everything outside the parent-managed files agree. */
  predicate SameOutside(a: GitSnapshot, b: GitSnapshot) {
    a.head == b.head && a.index == b.index && a.worktree.outside == b.worktree.outside
  }

  datatype SnapshotComparison = SnapshotComparison(
    matched: bool, headMatch: bool, indexMatch: bool, worktreeMatch: bool, parentUpdateAccepted: bool)

  function CompareGitSnapshot(previous: GitSnapshot, current: GitSnapshot): SnapshotComparison {
    SnapshotComparison(EqualGitSnapshot(previous, current), previous.head == current.head,
                       previous.index == current.index, previous.worktree == current.worktree, false)
  }

  /** A snapshot's axes fit together, and fit the parent files recorded with it. */
  predicate WellCaptured(s: GitSnapshot, ignored: set<ParentPath>) {
    && s.excludingParent == Some(s.worktree.outside)
    && (s.parentFiles.Some? ==> s.worktree.parents == Listed(s.parentFiles.value, ignored))
  }

  /** A worker call broke the parent-file contract: with a plan it changed any of the files, without
      one it created the plan. */
  predicate GuardBroken(before: Parents, after: Parents) {
    if PlanFile in before then before != after else PlanFile in after
  }

  /** A stopped review may go on with the current files: nothing changed between its start and the stop,
      nothing was deleted since, and something was changed since. */
  predicate OnlyUpdatedWhileStopped(start: Parents, stop: Parents, now: Parents) {
    && (forall p :: p in start.Keys + stop.Keys + now.Keys ==> Find(stop, p) == Find(start, p))
    && (forall p :: p in stop ==> p in now)
    && (exists p :: p in start.Keys + stop.Keys + now.Keys && Find(now, p) != Find(stop, p))
  }
}
