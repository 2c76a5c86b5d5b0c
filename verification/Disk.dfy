/** Two settings files written together or not at all (tools/merge-json/main.go). */
module Disk {
  import opened Text
  import opened Json
  import opened Install
  import opened MergeJson

  type Path = string

  /** What a file holds: settings, baselines, or neither. */
  datatype Content = SettingsContent(settings: Object) | StateContent(state: Baselines) | Garbage(text: string)

  datatype File = File(content: Content, mode: nat, readable: bool)

  type Files = map<Path, File>

  const PRIVATE := 0x180  // read and write for the owner only: octal 600

  function Mode(mode: nat): nat {
    if mode == 0 then PRIVATE else mode
  }

  datatype Plan = Plan(path: Path, content: Content, mode: nat)

  /** What was at a planned path before the first write, if it could be read. */
  datatype Restore = Restore(path: Path, kept: Option<File>)

  datatype Commit = Committed | RolledBack | RollbackFailed

  function Written(files: Files, plan: Plan): Files {
    files[plan.path := File(plan.content, Mode(plan.mode), true)]
  }

  function AllWritten(files: Files, plans: seq<Plan>): Files {
    if plans == [] then files else Written(AllWritten(files, plans[..|plans| - 1]), plans[|plans| - 1])
  }

  lemma FewWritten(files: Files, a: Plan, b: Plan)
    ensures AllWritten(files, []) == files && AllWritten(files, [a]) == Written(files, a)
    ensures AllWritten(files, [a, b]) == Written(Written(files, a), b)
  {
    assert [a][..0] == [] && [a, b][..1] == [a];
  }

  function PathsOf(plans: seq<Plan>): set<Path> {
    set p | p in plans :: p.path
  }

  function Captured(files: Files, path: Path): Option<File> {
    if path in files && files[path].readable then Some(files[path]) else None
  }

  /** What a rollback that succeeds leaves: a file that could not be read counts as absent. */
  function AfterRollback(files: Files, paths: set<Path>): Files {
    map p | p in files && (p in paths ==> files[p].readable) ::
      if p in paths then files[p].(mode := Mode(files[p].mode)) else files[p]
  }

  predicate Restorable(f: File) {
    f.readable && f.mode != 0
  }

  /** A rollback is exact precisely when every planned path was absent, or held a file that can be read
      and whose permission bits are not all clear. */
  lemma RollbackIsExact(files: Files, paths: set<Path>)
    ensures AfterRollback(files, paths) == files <==> forall p :: p in paths && p in files ==> Restorable(files[p])
  {
    if AfterRollback(files, paths) == files {
      forall p | p in paths && p in files ensures Restorable(files[p]) {
        assert p in AfterRollback(files, paths) && AfterRollback(files, paths)[p] == files[p];
      }
    }
  }

  /** Of the commit on its own: a file without read permission is gone after a rollback that succeeded, and one
      without any permission bits comes back readable by its owner. */
  lemma RollbackCanDelete()
    ensures AfterRollback(map["settings.json" := File(Garbage("{}"), PRIVATE, false)], {"settings.json"}) == map[]
    ensures AfterRollback(map["settings.json" := File(Garbage("{}"), 0, true)], {"settings.json"}) ==
              map["settings.json" := File(Garbage("{}"), PRIVATE, true)]
  {
  }

  class FileSystem {
    var files: Files
    ghost var failures: seq<Path> // noted by the two operations below, and by nothing else

    /** Written beside the target and renamed over it: all of it or nothing. */
    method WriteAtomic(path: Path, content: Content, mode: nat) returns (ok: bool)
      modifies this
      ensures files == if ok then Written(old(files), Plan(path, content, mode)) else old(files)
      ensures failures == old(failures) + if ok then [] else [path]
    {
      ok := *;
      if ok { files := files[path := File(content, Mode(mode), true)]; } else { failures := failures + [path]; }
    }

    /** A path that does not exist needs no removal. */
    method Remove(path: Path) returns (ok: bool)
      modifies this
      ensures files == if ok then old(files) - {path} else old(files)
      ensures path !in old(files) ==> ok
      ensures failures == old(failures) + if ok then [] else [path]
    {
      ok := *;
      if path !in files { ok := true; }
      if ok { files := files - {path}; } else { failures := failures + [path]; }
    }

    method CaptureFileRestore(path: Path) returns (kept: Option<File>)
      ensures kept == Captured(files, path)
    {
      kept := if path in files && files[path].readable then Some(files[path]) else None;
    }

    /** Each planned path once, in the order of the plan. */
    method CaptureAll(plans: seq<Plan>) returns (restores: seq<Restore>)
      ensures forall p :: p in PathsOf(plans) <==> exists i :: 0 <= i < |restores| && restores[i].path == p
      ensures forall i :: 0 <= i < |restores| ==> restores[i].kept == Captured(files, restores[i].path)
      ensures forall i, j :: 0 <= i < j < |restores| ==> restores[i].path != restores[j].path
    {
      restores := [];
      var seen: set<Path> := {};
      for i := 0 to |plans|
        invariant seen == PathsOf(plans[..i])
        invariant forall p :: p in seen <==> exists j :: 0 <= j < |restores| && restores[j].path == p
        invariant forall j :: 0 <= j < |restores| ==> restores[j].kept == Captured(files, restores[j].path)
        invariant forall j, k :: 0 <= j < k < |restores| ==> restores[j].path != restores[k].path
      {
        var path := plans[i].path;
        assert PathsOf(plans[..i + 1]) == PathsOf(plans[..i]) + {path};
        if path !in seen {
          ghost var before := restores;
          var kept := CaptureFileRestore(path);
          restores := restores + [Restore(path, kept)];
          seen := seen + {path};
          assert restores[|before|].path == path;
          assert forall j :: 0 <= j < |before| ==> restores[j] == before[j];
        }
      }
      assert plans[..|plans|] == plans;
    }

    /** The failures since. */
    twostate predicate Failed(path: Path)
      reads this
    {
      |old(failures)| <= |failures| && path in failures[|old(failures)|..]
    }

    /** Put one path back. */
    method RestoreFile(entry: Restore, ghost was: Files) returns (ok: bool)
      requires entry.kept == Captured(was, entry.path)
      modifies this
      ensures files - {entry.path} == old(files) - {entry.path}
      ensures failures == old(failures) + if ok then [] else [entry.path]
      ensures ok ==> PutBack(files, was, entry.path)
    {
      if entry.kept == None {
        ok := Remove(entry.path);
      } else {
        ok := WriteAtomic(entry.path, entry.kept.value.content, entry.kept.value.mode);
      }
    }

    /** Put every planned path back, going on past failures: each path is back unless its own step failed. */
    method RollbackFiles(restores: seq<Restore>, ghost was: Files, ghost paths: set<Path>) returns (ok: bool)
      requires forall p :: p in paths <==> exists i :: 0 <= i < |restores| && restores[i].path == p
      requires forall i :: 0 <= i < |restores| ==> restores[i].kept == Captured(was, restores[i].path)
      requires forall i, j :: 0 <= i < j < |restores| ==> restores[i].path != restores[j].path
      requires files - paths == was - paths
      modifies this
      ensures files - paths == was - paths
      ensures old(failures) <= failures && (ok <==> failures == old(failures))
      ensures forall p :: p in paths && !Failed(p) ==> PutBack(files, was, p)
      ensures ok ==> files == AfterRollback(was, paths)
    {
      ok := true;
      for i := 0 to |restores|
        invariant files - paths == was - paths && old(failures) <= failures && (ok <==> failures == old(failures))
        invariant forall j :: 0 <= j < i && !Failed(restores[j].path) ==> PutBack(files, was, restores[j].path)
      {
        ghost var before, sofar := files, failures;
        assert restores[i].path in paths;
        var done := RestoreFile(restores[i], was);
        ok := ok && done;
        OthersStay(before, files, was, paths, restores[i].path);
        assert failures[|old(failures)|..] == sofar[|old(failures)|..] + if done then [] else [restores[i].path];
      }
      forall p | p in paths && !Failed(p) ensures PutBack(files, was, p) {
        var i :| 0 <= i < |restores| && restores[i].path == p;
      }
      if ok { AllPutBack(files, was, paths); }
    }

    /** Write the planned files in order; if one fails, put all of them back. Which answer is given depends on nothing
        but the failures: none, the one write that broke the plan off, or that and steps of the rollback. */
    method CommitTransaction(plans: seq<Plan>) returns (r: Commit)
      modifies this
      ensures old(failures) <= failures
      ensures r == Committed <==> failures == old(failures)
      ensures r == RolledBack <==> |failures| == |old(failures)| + 1
      ensures r == Committed ==> files == AllWritten(old(files), plans)
      ensures r == RolledBack ==> files == AfterRollback(old(files), PathsOf(plans))
      ensures r != Committed ==> failures[|old(failures)|] in PathsOf(plans)
      ensures r == RollbackFailed ==> forall p :: p in PathsOf(plans) && p !in failures[|old(failures)| + 1..] ==>
        PutBack(files, old(files), p)
      ensures files - PathsOf(plans) == old(files) - PathsOf(plans)
    {
      ghost var was, paths := files, PathsOf(plans);
      var restores := CaptureAll(plans);
      for i := 0 to |plans|
        invariant files == AllWritten(was, plans[..i]) && files - paths == was - paths && failures == old(failures)
      {
        ghost var before := files;
        var ok := WriteAtomic(plans[i].path, plans[i].content, plans[i].mode);
        if !ok {
          ghost var failed := failures;
          var restored := RollbackFiles(restores, was, paths);
          assert failures[|failed| - 1] == plans[i].path;
          return if restored then RolledBack else RollbackFailed;
        }
        assert plans[..i + 1][..i] == plans[..i];
        assert plans[i].path in paths;
        assert files - paths == before - paths;
      }
      assert plans[..|plans|] == plans;
      return Committed;
    }
  }

  /** A path holds what it held, with the mode a rewrite gives it. */
  predicate PutBack(files: Files, was: Files, path: Path) {
    if path in was && was[path].readable
    then path in files && files[path] == was[path].(mode := Mode(was[path].mode))
    else path !in files
  }

  lemma OthersStay(before: Files, files: Files, was: Files, paths: set<Path>, path: Path)
    requires path in paths && before - paths == was - paths
    requires files - {path} == before - {path}
    ensures files - paths == was - paths
    ensures forall p :: p != path && PutBack(before, was, p) ==> PutBack(files, was, p)
  {
    assert files - paths == files - {path} - paths;
    assert before - paths == before - {path} - paths;
    forall p | p != path && PutBack(before, was, p) ensures PutBack(files, was, p) {
      assert p in files <==> p in files - {path};
      assert p in before <==> p in before - {path};
    }
  }

  lemma AllPutBack(files: Files, was: Files, paths: set<Path>)
    requires forall p :: p in paths ==> PutBack(files, was, p)
    requires files - paths == was - paths
    ensures files == AfterRollback(was, paths)
  {
    forall p | p !in paths ensures p in files <==> p in was {
      assert p in files <==> p in files - paths;
      assert p in was <==> p in was - paths;
    }
    forall p | p !in paths && p in files ensures files[p] == was[p] {
      assert (files - paths)[p] == (was - paths)[p];
    }
  }
}
