/** The parent-managed files as they are stored: sorted lists of states, compared entry by entry
    (glm-worker/internal/state/snapshot.go, workflow/planfile.go). They stand for the maps the workflow
    reasons about. */
module ParentFiles {
  import opened Text
  import opened Snapshots
  import opened Sorting

  const RULES: string := "IMPLEMENTATION_RULES.md"
  const PLAN: string := "IMPLEMENTATION_PLAN.local.md"
  const HISTORY: string := "IMPLEMENTATION_HISTORY.md"
  const TASKS: string := "IMPLEMENTATION_TASKS/"

  function NameOf(p: ParentPath): string {
    match p
    case PlanFile => PLAN
    case RulesFile => RULES
    case HistoryFile => HISTORY
    case TaskFile(name) => TASKS + name
  }

  /** No two files share a name: the sixteenth character tells the four kinds apart. */
  lemma NamesDiffer(p: ParentPath, q: ParentPath)
    ensures NameOf(p) == NameOf(q) ==> p == q
  {
    assert PLAN[15] == 'P' && RULES[15] == 'R' && HISTORY[15] == 'H' && TASKS[15] == 'T';
    if p.TaskFile? && q.TaskFile? && NameOf(p) == NameOf(q) {
      assert NameOf(p)[|TASKS|..] == p.name && NameOf(q)[|TASKS|..] == q.name;
    }
  }

  /** One file's state; a missing file has no digest. */
  datatype FileState = FileState(path: string, there: bool, digest: string)

  function StateOf(parents: Parents, p: ParentPath): FileState {
    if p in parents then FileState(NameOf(p), true, parents[p]) else FileState(NameOf(p), false, "")
  }

  /** The root files are always listed, present or not; of the task directory only what is there. */
  predicate IsListed(parents: Parents, p: ParentPath) {
    p in parents || !p.TaskFile?
  }

  /** A root file, or a task file done already. */
  predicate Done(p: ParentPath, tasks: set<ParentPath>) {
    !p.TaskFile? || p in tasks
  }

  predicate StateBefore(a: FileState, b: FileState) {
    Less(a.path, b.path)
  }

  ghost predicate Represents(states: seq<FileState>, parents: Parents) {
    && (forall i, j :: 0 <= i < j < |states| ==> Less(states[i].path, states[j].path))
    && (forall p :: IsListed(parents, p) ==> StateOf(parents, p) in states)
    && (forall s :: s in states ==> exists p :: IsListed(parents, p) && s == StateOf(parents, p))
  }

  /** The root files first, then the task directory in any order. */
  method ListStates(parents: Parents) returns (found: seq<FileState>)
    ensures forall p :: IsListed(parents, p) ==> StateOf(parents, p) in found
    ensures forall s :: s in found ==>
      exists p :: Done(p, set q | q in parents && q.TaskFile?) && s == StateOf(parents, p)
    ensures forall i, j :: 0 <= i < j < |found| ==> found[i].path != found[j].path
  {
    found := [StateOf(parents, RulesFile), StateOf(parents, PlanFile), StateOf(parents, HistoryFile)];
    RootNamesDiffer(parents);
    var left := set p | p in parents && p.TaskFile?;
    ghost var tasks := left;
    while left != {}
      invariant left <= tasks
      invariant forall p :: Done(p, tasks - left) ==> StateOf(parents, p) in found
      invariant forall s :: s in found ==> exists p :: Done(p, tasks - left) && s == StateOf(parents, p)
      invariant forall i, j :: 0 <= i < j < |found| ==> found[i].path != found[j].path
    {
      var p :| p in left;
      forall s | s in found ensures s.path != NameOf(p) {
        var q :| Done(q, tasks - left) && s == StateOf(parents, q);
        NamesDiffer(p, q);
      }
      found := AddState(found, parents, p, tasks, left);
      left := left - {p};
    }
  }

  method ReadParentFileStates(parents: Parents) returns (states: seq<FileState>)
    ensures Represents(states, parents)
  {
    var found := ListStates(parents);
    StateBeforeOrders();
    states := Sort(found, StateBefore);
    SortedStates(found, states);
    forall s | s in states ensures exists p :: IsListed(parents, p) && s == StateOf(parents, p) {
      var p :| Done(p, set q | q in parents && q.TaskFile?) && s == StateOf(parents, p);
      assert IsListed(parents, p);
    }
  }

  lemma RootNamesDiffer(parents: Parents)
    ensures RULES != PLAN && PLAN != HISTORY && RULES != HISTORY
  {
    assert PLAN[15] == 'P' && RULES[15] == 'R' && HISTORY[15] == 'H';
  }

  method AddState(found: seq<FileState>, parents: Parents, p: ParentPath, ghost tasks: set<ParentPath>,
        ghost left: set<ParentPath>)
    returns (added: seq<FileState>)
    requires p in left && left <= tasks && forall s :: s in found ==> s.path != NameOf(p)
    requires forall q :: Done(q, tasks - left) ==> StateOf(parents, q) in found
    requires forall s :: s in found ==> exists q :: Done(q, tasks - left) && s == StateOf(parents, q)
    requires forall i, j :: 0 <= i < j < |found| ==> found[i].path != found[j].path
    ensures forall q :: Done(q, tasks - (left - {p})) ==> StateOf(parents, q) in added
    ensures forall s :: s in added ==> exists q :: Done(q, tasks - (left - {p})) && s == StateOf(parents, q)
    ensures forall i, j :: 0 <= i < j < |added| ==> added[i].path != added[j].path
  {
    added := found + [StateOf(parents, p)];
    forall s | s in added ensures exists q :: Done(q, tasks - (left - {p})) && s == StateOf(parents, q) {
      if s in found {
        var q :| Done(q, tasks - left) && s == StateOf(parents, q);
        assert Done(q, tasks - (left - {p}));
      } else {
        assert p in tasks - (left - {p});
      }
    }
    forall i, j | 0 <= i < j < |added| ensures added[i].path != added[j].path {
      assert added[i] in found;
    }
  }

  lemma StateBeforeOrders()
    ensures Orders(StateBefore)
  {
    LessOrders();
    forall a, b, c | !StateBefore(a, b) && !StateBefore(b, c) ensures !StateBefore(a, c) {
      assert !Less(a.path, b.path) && !Less(b.path, c.path);
    }
  }

  /** A list of states with distinct paths, once sorted, ascends by path and holds the same states. */
  lemma SortedStates(found: seq<FileState>, states: seq<FileState>)
    requires Sorted(states, StateBefore) && multiset(states) == multiset(found)
    requires forall i, j :: 0 <= i < j < |found| ==> found[i].path != found[j].path
    ensures forall i, j :: 0 <= i < j < |states| ==> Less(states[i].path, states[j].path)
    ensures forall s :: s in states <==> s in found
  {
    SameElements(states, found);
    forall i, j | 0 <= i < j < |states| ensures Less(states[i].path, states[j].path) {
      OnceEach(found, states, i, j);
      LessIsAsymmetric(states[i].path, states[j].path);
      assert !StateBefore(states[j], states[i]);
    }
  }

  lemma OnceEach(found: seq<FileState>, states: seq<FileState>, i: nat, j: nat)
    requires multiset(states) == multiset(found) && i < j < |states|
    requires forall i, j :: 0 <= i < j < |found| ==> found[i].path != found[j].path
    ensures states[i].path != states[j].path
  {
    assert states == states[..i] + [states[i]] + states[i + 1..j] + [states[j]] + states[j + 1..];
    assert multiset(states)[states[i]] >= 1 && multiset(states)[states[j]] >= 1;
    assert states[i] in multiset(found) && states[j] in multiset(found);
    var k :| 0 <= k < |found| && found[k] == states[i];
    var m :| 0 <= m < |found| && found[m] == states[j];
    if k == m {
      assert multiset(states)[states[i]] >= 2;
      AtMostOnce(found, k);
    }
  }

  lemma AtMostOnce(found: seq<FileState>, k: nat)
    requires k < |found| && forall i, j :: 0 <= i < j < |found| ==> found[i].path != found[j].path
    ensures multiset(found)[found[k]] == 1
  {
    assert found == found[..k] + [found[k]] + found[k + 1..];
    assert found[k] !in found[..k] && found[k] !in found[k + 1..];
  }

  // ---------------------------------------------------------------- comparing and looking up

  method SameParentFileStates(a: seq<FileState>, b: seq<FileState>) returns (same: bool)
    ensures same <==> a == b
  {
    if |a| != |b| { return false; }
    for i := 0 to |a|
      invariant a[..i] == b[..i]
    {
      if a[i] != b[i] { return false; }
    }
    return true;
  }

  /** Comparing the lists entry by entry compares the files themselves. */
  lemma SameListsSameFiles(a: seq<FileState>, b: seq<FileState>, m: Parents, n: Parents)
    requires Represents(a, m) && Represents(b, n)
    ensures a == b <==> m == n
  {
    if a == b {
      forall p | IsListed(m, p) || IsListed(n, p) ensures StateOf(m, p) == StateOf(n, p) {
        ListedState(a, m, p);
        ListedState(b, n, p);
      }
      forall p ensures p in m <==> p in n {
        if p in m || p in n { assert StateOf(m, p) == StateOf(n, p); }
      }
      forall p | p in m && p in n ensures m[p] == n[p] {
        assert StateOf(m, p) == StateOf(n, p);
      }
    }
    if m == n {
      SameStates(a, b, m);
    }
  }

  /** What a list says of a path is what the files say. */
  lemma ListedState(a: seq<FileState>, m: Parents, p: ParentPath)
    requires Represents(a, m)
    ensures forall s :: s in a && s.path == NameOf(p) ==> s == StateOf(m, p)
    ensures (exists s :: s in a && s.path == NameOf(p)) <==> IsListed(m, p)
  {
    forall s | s in a && s.path == NameOf(p) ensures s == StateOf(m, p) && IsListed(m, p) {
      var q :| IsListed(m, q) && s == StateOf(m, q);
      NamesDiffer(p, q);
    }
  }

  lemma SameStates(a: seq<FileState>, b: seq<FileState>, m: Parents)
    requires Represents(a, m) && Represents(b, m)
    ensures a == b
  {
    AscendingStates(a);
    AscendingStates(b);
    forall s ensures multiset(a)[s] == multiset(b)[s] {
      CountsOf(a, s);
      CountsOf(b, s);
      if s in a {
        var p :| IsListed(m, p) && s == StateOf(m, p);
      }
      if s in b {
        var p :| IsListed(m, p) && s == StateOf(m, p);
      }
    }
    assert multiset(a) == multiset(b);
    SortedIsUnique(a, b, StateBefore);
  }

  lemma AscendingStates(a: seq<FileState>)
    requires forall i, j :: 0 <= i < j < |a| ==> Less(a[i].path, a[j].path)
    ensures Sorted(a, StateBefore) && Separates(StateBefore, a)
    ensures forall i, j :: 0 <= i < j < |a| ==> a[i].path != a[j].path
  {
    LessOrders();
    forall s, t | s in a && t in a && s != t ensures StateBefore(s, t) || StateBefore(t, s) {
      var i :| 0 <= i < |a| && a[i] == s;
      var j :| 0 <= j < |a| && a[j] == t;
    }
  }

  lemma CountsOf(a: seq<FileState>, s: FileState)
    requires forall i, j :: 0 <= i < j < |a| ==> a[i].path != a[j].path
    ensures multiset(a)[s] == if s in a then 1 else 0
  {
    if s in a {
      var k :| 0 <= k < |a| && a[k] == s;
      AtMostOnce(a, k);
    }
  }

  /** The first entry of a path; a path that is not listed has no file. */
  function LookUp(states: seq<FileState>, path: string): FileState {
    if states == [] then FileState(path, false, "")
    else if states[0].path == path then states[0]
    else LookUp(states[1..], path)
  }

  method FindParentFileState(states: seq<FileState>, path: string) returns (s: FileState)
    ensures s == LookUp(states, path)
  {
    for i := 0 to |states|
      invariant LookUp(states, path) == LookUp(states[i..], path)
    {
      if states[i].path == path { return states[i]; }
    }
    return FileState(path, false, "");
  }

  lemma {:induction false} LookUpTells(states: seq<FileState>, path: string)
    ensures LookUp(states, path).path == path
    ensures LookUp(states, path) in states ||
      (LookUp(states, path) == FileState(path, false, "") && forall t :: t in states ==> t.path != path)
  {
    if states != [] { LookUpTells(states[1..], path); }
  }

  /** Looking a path up in the list is looking it up among the files. */
  lemma LookUpIsState(states: seq<FileState>, parents: Parents, p: ParentPath)
    requires Represents(states, parents)
    ensures LookUp(states, NameOf(p)) == StateOf(parents, p)
  {
    LookUpTells(states, NameOf(p));
    ListedState(states, parents, p);
  }

  // ---------------------------------------------------------------- describing changes

  datatype Change = Modified(path: string) | Created(path: string) | Deleted(path: string)

  /** How a file's states differ, if they do. */
  function ChangeOf(before: FileState, after: FileState): Option<Change> {
    if before == after then None
    else if before.there && after.there then Some(Modified(after.path))
    else if !before.there && after.there then Some(Created(after.path))
    else Some(Deleted(after.path))
  }

  function ChangeAt(before: seq<FileState>, after: seq<FileState>, path: string): Option<Change> {
    ChangeOf(LookUp(before, path), LookUp(after, path))
  }

  method PathsOf(before: seq<FileState>, after: seq<FileState>) returns (paths: seq<string>)
    ensures Ascending(paths)
    ensures forall s :: s in before || s in after ==> s.path in paths
  {
    var seen: seq<string> := [];
    var all := before + after;
    for i := 0 to |all|
      invariant Distinct(seen)
      invariant forall k :: 0 <= k < i ==> all[k].path in seen
    {
      if all[i].path !in seen { seen := seen + [all[i].path]; }
    }
    forall s | s in before || s in after ensures s.path in seen {
      assert s in all;
    }
    LessOrders();
    paths := Sort(seen, Less);
    SameElements(paths, seen);
    SortedKeepsDistinct(seen, paths);
    SortedDistinctAscends(paths);
  }

  function ChangesOf(before: seq<FileState>, after: seq<FileState>, paths: seq<string>): seq<Change> {
    if paths == [] then []
    else
      var change := ChangeAt(before, after, paths[|paths| - 1]);
      ChangesOf(before, after, paths[..|paths| - 1]) + if change.Some? then [change.value] else []
  }

  lemma {:induction false} ChangesAre(before: seq<FileState>, after: seq<FileState>, paths: seq<string>)
    requires Ascending(paths)
    ensures forall i, j :: 0 <= i < j < |ChangesOf(before, after, paths)| ==>
      Less(ChangesOf(before, after, paths)[i].path, ChangesOf(before, after, paths)[j].path)
    ensures forall c :: c in ChangesOf(before, after, paths) <==>
      c.path in paths && ChangeAt(before, after, c.path) == Some(c)
  {
    if paths != [] {
      var rest, last := paths[..|paths| - 1], paths[|paths| - 1];
      ChangesAre(before, after, rest);
      LookUpTells(after, last);
      forall c | c in ChangesOf(before, after, rest) ensures Less(c.path, last) {
        var k :| 0 <= k < |rest| && rest[k] == c.path;
        assert Less(paths[k], paths[|paths| - 1]);
      }
      assert paths == rest + [last];
    }
  }

  /** One entry per changed path, in path order. */
  method DescribeParentFileChanges(before: seq<FileState>, after: seq<FileState>) returns (changes: seq<Change>)
    ensures forall i, j :: 0 <= i < j < |changes| ==> Less(changes[i].path, changes[j].path)
    ensures forall c :: c in changes <==> ChangeAt(before, after, c.path) == Some(c)
  {
    var paths := PathsOf(before, after);
    changes := [];
    for i := 0 to |paths|
      invariant changes == ChangesOf(before, after, paths[..i])
    {
      assert paths[..i + 1][..i] == paths[..i];
      var b := FindParentFileState(before, paths[i]);
      var a := FindParentFileState(after, paths[i]);
      var change := ChangeOf(b, a);
      if change.Some? {
        changes := changes + [change.value];
      }
    }
    assert paths[..|paths|] == paths;
    ChangesAre(before, after, paths);
    forall c | c in changes || ChangeAt(before, after, c.path) == Some(c)
      ensures c in changes <==> ChangeAt(before, after, c.path) == Some(c)
    {
      LookUpTells(before, c.path);
      LookUpTells(after, c.path);
    }
  }

  /** Nothing is described exactly when the files are the same. */
  lemma NoChangesMeansSame(before: seq<FileState>, after: seq<FileState>, m: Parents, n: Parents)
    requires Represents(before, m) && Represents(after, n)
    ensures (forall p :: ChangeAt(before, after, NameOf(p)) == None) <==> m == n
  {
    forall p ensures ChangeAt(before, after, NameOf(p)) == ChangeOf(StateOf(m, p), StateOf(n, p)) {
      LookUpIsState(before, m, p);
      LookUpIsState(after, n, p);
    }
    if forall p :: ChangeAt(before, after, NameOf(p)) == None {
      forall p ensures (p in m <==> p in n) && (p in m && p in n ==> m[p] == n[p]) {
        assert ChangeAt(before, after, NameOf(p)) == ChangeOf(StateOf(m, p), StateOf(n, p));
      }
    }
  }

  /** And what is described is what happened to the files. */
  lemma ChangesTellWhatHappened(before: seq<FileState>, after: seq<FileState>, m: Parents, n: Parents, p: ParentPath)
    requires Represents(before, m) && Represents(after, n)
    ensures ChangeAt(before, after, NameOf(p)) == Some(Created(NameOf(p))) <==> p !in m && p in n
    ensures ChangeAt(before, after, NameOf(p)) == Some(Deleted(NameOf(p))) <==> p in m && p !in n
    ensures ChangeAt(before, after, NameOf(p)) == Some(Modified(NameOf(p))) <==> p in m && p in n && m[p] != n[p]
  {
    LookUpIsState(before, m, p);
    LookUpIsState(after, n, p);
  }
}
