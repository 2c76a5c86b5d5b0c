/** One run of the settings installer over its two files (tools/merge-json/main.go). */
module Installer {
  import opened Text
  import opened Json
  import opened Install
  import opened MergeJson
  import opened Disk

  /** Refused: an input could not be used, and nothing was written. */
  datatype Outcome = Done(changed: bool) | Refused | CommitFailed(restored: bool)

  class Installer {
    const disk: FileSystem
    const targetPath: Path
    const statePath: Path

    constructor (disk: FileSystem, targetPath: Path, statePath: Path)
      ensures this.disk == disk && this.targetPath == targetPath && this.statePath == statePath
    {
      this.disk, this.targetPath, this.statePath := disk, targetPath, statePath;
    }

    /** Both files are absent or hold what they should. */
    ghost predicate Usable(files: Files) {
      && (targetPath in files ==> files[targetPath].readable && files[targetPath].content.SettingsContent?)
      && (statePath in files ==> files[statePath].readable && files[statePath].content.StateContent?)
    }

    /** What the two files say; an absent one says nothing. */
    ghost function InstalledIn(files: Files): Installed
      requires Usable(files)
    {
      Installed(if targetPath in files then files[targetPath].content.settings else map[],
                if statePath in files then files[statePath].content.state else map[])
    }

    method ReadObjectOrEmpty() returns (r: Option<(Object, nat)>)
      ensures r.Some? <==>
        (targetPath in disk.files ==>
          disk.files[targetPath].readable && disk.files[targetPath].content.SettingsContent?)
      ensures r.Some? ==>
        r.value.0 == if targetPath in disk.files then disk.files[targetPath].content.settings else map[]
      ensures r.Some? ==> r.value.1 == if targetPath in disk.files then disk.files[targetPath].mode else PRIVATE
    {
      if targetPath !in disk.files { return Some((map[], PRIVATE)); }
      var file := disk.files[targetPath];
      if !file.readable || !file.content.SettingsContent? { return None; }
      return Some((file.content.settings, file.mode));
    }

    method LoadOverrideState() returns (r: Option<Baselines>)
      ensures r.Some? <==>
        (statePath in disk.files ==> disk.files[statePath].readable && disk.files[statePath].content.StateContent?)
      ensures r.Some? ==> r.value == if statePath in disk.files then disk.files[statePath].content.state else map[]
    {
      if statePath !in disk.files { return Some(map[]); }
      var file := disk.files[statePath];
      if !file.readable || !file.content.StateContent? { return None; }
      return Some(file.content.state);
    }

    /** Restore the last overrides, merge, remember what the new overrides cover, and patch. The new baselines
        are compared with the last ones as the merge has left them in memory. */
    method Merged(before: Installed, fragment: Object, o: EnvOverride) returns (after: Installed)
      ensures after == InstallStep(before, fragment, PatchOf(o))
    {
      var target := new Settings(before.settings);
      target.RestoreEnvBaselines(before.state);
      target.DeepMerge(fragment);
      var state := target.SnapshotEnvBaselines(o);
      target.ApplyEnvPatch(o);
      var changed := state != Aged(before.state, fragment);
      after := Installed(target.entries, if changed then state else before.state);
    }

    function PlanWrites(before: Installed, after: Installed, mode: nat): seq<Plan> {
      (if before.settings == after.settings then [] else [Plan(targetPath, SettingsContent(after.settings), mode)])
      + if before.state == after.state then [] else [Plan(statePath, StateContent(after.state), PRIVATE)]
    }

    /** Contents as before; the files themselves too, unless one had no permission bits at all. */
    ghost predicate PutBackAll(was: Files, files: Files)
      requires Usable(was)
    {
      && Usable(files) && InstalledIn(files) == InstalledIn(was) && files.Keys == was.Keys
      && ((forall p :: p in {targetPath, statePath} && p in was ==> was[p].mode != 0) ==> files == was)
    }

    /** The files at p are those of before, up to the mode that a rewrite gives. */
    ghost predicate Kept(was: Files, files: Files, p: Path) {
      && (p in files <==> p in was)
      && (p in was ==> files[p] == was[p] || files[p] == was[p].(mode := Mode(was[p].mode)))
    }

    /** Which answer is given depends on nothing but the failed steps: none, the one write that failed, or that and
        steps of the rollback, in which case the files whose own step did not fail are those of before. */
    twostate predicate AnswersFor(r: Outcome)
      reads disk
    {
      && old(disk.failures) <= disk.failures
      && (r.Done? <==> disk.failures == old(disk.failures))
      && (r == CommitFailed(true) <==> |disk.failures| == |old(disk.failures)| + 1)
      && (r == CommitFailed(false) ==> forall p :: p in {targetPath, statePath} ==>
           p in disk.failures[|old(disk.failures)| + 1..] || Kept(old(disk.files), disk.files, p))
    }

    /** Write what changed, both files or none. */
    method Write(before: Installed, after: Installed, mode: nat) returns (r: Outcome)
      requires statePath != targetPath && Usable(disk.files) && before == InstalledIn(disk.files) && before != after
      modifies disk
      ensures r == Done(before.settings != after.settings) || r.CommitFailed?
      ensures disk.files - {targetPath, statePath} == old(disk.files) - {targetPath, statePath}
      ensures r.Done? ==> Usable(disk.files) && InstalledIn(disk.files) == after
      ensures r.CommitFailed? && r.restored ==> PutBackAll(old(disk.files), disk.files)
      ensures AnswersFor(r)
    {
      var plans := PlanWrites(before, after, mode);
      PlansAre(disk.files, after, mode);
      ghost var was := disk.files;
      var committed := disk.CommitTransaction(plans);
      RestAfterPlans(was, disk.files, PathsOf(plans));
      if committed == Committed {
        return Done(before.settings != after.settings);
      }
      if committed == RolledBack { RollbackPutsBack(was, PathsOf(plans)); }
      if committed == RollbackFailed { RestIsKept(was, disk.files, PathsOf(plans)); }
      return CommitFailed(committed == RolledBack);
    }

    lemma RestIsKept(was: Files, files: Files, paths: set<Path>)
      requires Usable(was) && files - paths == was - paths
      ensures forall p :: p in {targetPath, statePath} && (p !in paths || PutBack(files, was, p)) ==>
        Kept(was, files, p)
    {
      forall p | p in {targetPath, statePath} && (p !in paths || PutBack(files, was, p)) ensures Kept(was, files, p) {
        if p !in paths {
          assert p in files <==> p in files - paths;
          assert p in was <==> p in was - paths;
          assert p in files ==> files[p] == (files - paths)[p];
          assert p in was ==> was[p] == (was - paths)[p];
        }
      }
    }

    lemma SettingsWritten(files: Files, settings: Object, mode: nat)
      requires statePath != targetPath && Usable(files)
      ensures var written := Written(files, Plan(targetPath, SettingsContent(settings), mode));
              Usable(written) && InstalledIn(written) == InstalledIn(files).(settings := settings)
    {
    }

    lemma StateWritten(files: Files, state: Baselines, mode: nat)
      requires statePath != targetPath && Usable(files)
      ensures var written := Written(files, Plan(statePath, StateContent(state), mode));
              Usable(written) && InstalledIn(written) == InstalledIn(files).(state := state)
    {
    }

    /** The planned writes make exactly the planned change. */
    lemma PlansAre(files: Files, after: Installed, mode: nat)
      requires statePath != targetPath && Usable(files)
      ensures PathsOf(PlanWrites(InstalledIn(files), after, mode)) <= {targetPath, statePath}
      ensures Usable(AllWritten(files, PlanWrites(InstalledIn(files), after, mode)))
      ensures InstalledIn(AllWritten(files, PlanWrites(InstalledIn(files), after, mode))) == after
    {
      var before := InstalledIn(files);
      var first := Plan(targetPath, SettingsContent(after.settings), mode);
      var second := Plan(statePath, StateContent(after.state), PRIVATE);
      SettingsWritten(files, after.settings, mode);
      FewWritten(files, first, second);
      FewWritten(files, second, second);
      if before.settings == after.settings {
        StateWritten(files, after.state, PRIVATE);
        assert PlanWrites(before, after, mode) == if before.state == after.state then [] else [second];
      } else {
        StateWritten(Written(files, first), after.state, PRIVATE);
        assert PlanWrites(before, after, mode) == if before.state == after.state then [first] else [first, second];
      }
    }

    lemma RestAfterPlans(was: Files, files: Files, paths: set<Path>)
      requires paths <= {targetPath, statePath} && files - paths == was - paths
      ensures files - {targetPath, statePath} == was - {targetPath, statePath}
    {
      assert files - {targetPath, statePath} == files - paths - {targetPath, statePath};
      assert was - {targetPath, statePath} == was - paths - {targetPath, statePath};
    }

    lemma RollbackPutsBack(was: Files, paths: set<Path>)
      requires Usable(was) && paths <= {targetPath, statePath}
      ensures PutBackAll(was, AfterRollback(was, paths))
    {
      RollbackIsExact(was, paths);
    }

    /** The installer refuses files that it cannot read, so of what a rollback can lose only the permission bits of a
        file that has none are left. */
    lemma OnlyClearedModesAreLost(was: Files, paths: set<Path>)
      requires Usable(was) && paths <= {targetPath, statePath}
      ensures AfterRollback(was, paths) == was <==> forall p :: p in paths && p in was ==> was[p].mode != 0
    {
      RollbackIsExact(was, paths);
    }

    ghost function InstallIn(files: Files, fragment: Object, overrideFile: OverrideFile): Installed
      requires Usable(files) && OverrideFits(overrideFile)
    {
      InstallStep(InstalledIn(files), fragment, PatchIn(overrideFile))
    }

    /** On success, and unless a step on the disk fails there is nothing else, the two files hold the install of the
        inputs; otherwise, unless the rollback fails too, they hold what they held. No other file is touched, and an
        install that would change nothing writes nothing. */
    method MergeFiles(fragment: Option<Object>, overrideFile: OverrideFile) returns (r: Outcome)
      requires statePath != targetPath
      modifies disk
      ensures disk.files - {targetPath, statePath} == old(disk.files) - {targetPath, statePath}
      ensures r.Refused? ==> disk.files == old(disk.files)
      ensures !r.Refused? <==> Usable(old(disk.files)) && fragment.Some? && OverrideFits(overrideFile)
      ensures r.Done? ==> Usable(disk.files)
      ensures r.Done? ==> InstalledIn(disk.files) == InstallIn(old(disk.files), fragment.value, overrideFile)
      ensures r.Done? ==> (r.changed <==> InstalledIn(disk.files).settings != InstalledIn(old(disk.files)).settings)
      ensures r.Done? ==> FollowsFile(InstalledIn(disk.files).settings,
        Managed(InstalledIn(old(disk.files)), fragment.value), overrideFile)
      ensures r.CommitFailed? && r.restored ==> PutBackAll(old(disk.files), disk.files)
      ensures !r.Refused? ==> AnswersFor(r)
      ensures !r.Refused? ==>
        InstallIn(old(disk.files), fragment.value, overrideFile) == InstalledIn(old(disk.files)) ==>
        r == Done(false) && disk.files == old(disk.files)
    {
      var target := ReadObjectOrEmpty();
      if target == None || fragment == None { return Refused; }
      var o := ParseEnvOverride(overrideFile);
      if o == None { return Refused; }
      var state := LoadOverrideState();
      if state == None { return Refused; }
      var before := Installed(target.value.0, state.value);
      var after := Merged(before, fragment.value, o.value);
      FileTakesEffect(before, fragment.value, overrideFile);
      if after == before { return Done(false); }
      r := Write(before, after, target.value.1);
    }
  }
}
