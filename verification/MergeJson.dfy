/** The settings installer: in-place merge, restore, snapshot and patch, and the two-file commit with
    rollback (tools/merge-json/main.go). */
module MergeJson {
  import opened Text
  import opened Json
  import opened Install

  datatype EnvOverride = EnvOverride(sets: map<string, string>, deletes: seq<string>)

  const NO_OVERRIDE := EnvOverride(map[], [])

  /** Deletes are applied before sets. */
  function PatchOf(o: EnvOverride): Patch {
    map k | k in o.sets.Keys + (set d | d in o.deletes) :: if k in o.sets then Some(o.sets[k]) else None
  }

  /** What reading the override file gives. */
  datatype OverrideFile = Missing | Unreadable | Broken | Value(json: Json)

  /** An object with nothing but env, and that an object of strings and nulls. */
  predicate OverrideFits(file: OverrideFile) {
    file.Missing? ||
    (file.Value? && file.json.Obj? && file.json.m.Keys <= {ENV} &&
     (ENV in file.json.m ==>
        file.json.m[ENV].Obj? && forall k :: k in file.json.m[ENV].m ==>
          file.json.m[ENV].m[k].Str? || file.json.m[ENV].m[k].Null?))
  }

  function PatchIn(file: OverrideFile): Patch
    requires OverrideFits(file)
  {
    if file.Missing? || ENV !in file.json.m then map[]
    else map k | k in file.json.m[ENV].m :: if file.json.m[ENV].m[k].Str? then Some(file.json.m[ENV].m[k].s) else None
  }

  /** What the override file says of a key, if anything. */
  function Says(file: OverrideFile, key: string): Option<Json>
    requires OverrideFits(file)
  {
    if file.Missing? || ENV !in file.json.m then None else Install.Find(file.json.m[ENV].m, key)
  }

  /** The file has taken effect: a string it names is in env, a null it names is not, and everything else is as
      managed. */
  ghost predicate FollowsFile(after: Object, managed: Object, file: OverrideFile)
    requires OverrideFits(file)
  {
    && (forall k :: Install.Find(EnvOf(after), k) ==
         match Says(file, k)
         case None => Install.Find(EnvOf(managed), k)
         case Some(Str(s)) => Some(Str(s))
         case Some(_) => None)
    && forall k :: k != ENV ==> Install.Find(after, k) == Install.Find(managed, k)
  }

  lemma FileTakesEffect(before: Installed, fragment: Object, file: OverrideFile)
    requires OverrideFits(file)
    ensures FollowsFile(InstallStep(before, fragment, PatchIn(file)).settings, Managed(before, fragment), file)
  {
    OverridesTakeEffect(before, fragment, PatchIn(file));
    forall k ensures k in PatchIn(file) <==> Says(file, k).Some? {
    }
  }

  method ParseEnvOverride(file: OverrideFile) returns (o: Option<EnvOverride>)
    ensures o.Some? <==> OverrideFits(file)
    ensures o.Some? ==> PatchOf(o.value) == PatchIn(file)
  {
    match file {
      case Missing => o := Some(NO_OVERRIDE);
      case Unreadable => o := None;
      case Broken => o := None;
      case Value(json) =>
        if !json.Obj? { return None; }
        var keys := json.m.Keys;
        while keys != {}
          invariant keys <= json.m.Keys
          invariant json.m.Keys - keys <= {ENV}
        {
          var key :| key in keys;
          if key != ENV { return None; }
          keys := keys - {key};
        }
        if ENV !in json.m {
          o := Some(NO_OVERRIDE);
        } else if !json.m[ENV].Obj? {
          o := None;
        } else {
          o := ParseEntries(json.m[ENV].m);
        }
    }
  }

  method ParseEntries(entries: Object) returns (o: Option<EnvOverride>)
    ensures o.Some? <==> forall k :: k in entries ==> entries[k].Str? || entries[k].Null?
    ensures o.Some? ==> PatchOf(o.value) == map k | k in entries :: if entries[k].Str? then Some(entries[k].s) else None
  {
    var parsed := NO_OVERRIDE;
    var keys := entries.Keys;
    while keys != {}
      invariant keys <= entries.Keys
      invariant forall k :: k in entries.Keys - keys ==> entries[k].Str? || entries[k].Null?
      invariant forall k :: k in parsed.sets <==> k in entries.Keys - keys && entries[k].Str?
      invariant forall k :: k in parsed.sets ==> entries[k] == Str(parsed.sets[k])
      invariant forall k :: k in parsed.deletes <==> k in entries.Keys - keys && entries[k].Null?
    {
      var key :| key in keys;
      match entries[key] {
        case Str(s) => parsed := parsed.(sets := parsed.sets[key := s]);
        case Null => parsed := parsed.(deletes := parsed.deletes + [key]);
        case _ => return None;
      }
      keys := keys - {key};
    }
    return Some(parsed);
  }

  // ---------------------------------------------------------------- settings changed in place

  class Settings {
    var entries: Object

    constructor (entries: Object)
      ensures this.entries == entries
    {
      this.entries := entries;
    }

    /** Keys may come in any order. */
    method DeepMerge(fragment: Object)
      modifies this
      ensures entries == Merge(old(entries), fragment)
      decreases Obj(fragment)
    {
      var keys := fragment.Keys;
      while keys != {}
        invariant keys <= fragment.Keys
        invariant forall k :: k in entries <==> k in old(entries) || k in fragment.Keys - keys
        invariant forall k :: k in entries ==>
          entries[k] == if k in fragment.Keys - keys then Merge(old(entries), fragment)[k] else old(entries)[k]
      {
        var key :| key in keys;
        if BothObjects(entries, fragment, key) {
          var child := new Settings(entries[key].m);
          child.DeepMerge(fragment[key].m);
          entries := entries[key := Obj(child.entries)];
        } else {
          entries := entries[key := fragment[key]];
        }
        keys := keys - {key};
      }
    }

    function EnsureEnvMap(): Object
      reads this
    {
      EnvOf(entries)
    }

    /** Every key the last override owned goes back to what it was. */
    method RestoreEnvBaselines(state: Baselines)
      modifies this
      ensures entries == Restored(old(entries), state)
    {
      if state == map[] { return; }
      var env := EnsureEnvMap();
      ghost var was := env;
      var keys := state.Keys;
      while keys != {}
        invariant keys <= state.Keys && entries == old(entries)
        invariant forall k :: k in env <==> if k in state.Keys - keys then state[k].Some? else k in was
        invariant forall k :: k in env ==> env[k] == if k in state.Keys - keys then state[k].value else was[k]
      {
        var key :| key in keys;
        if state[key].Some? {
          env := env[key := state[key].value];
        } else {
          env := env - {key};
        }
        keys := keys - {key};
      }
      assert env == RestoredEnv(was, state);
      entries := entries[ENV := Obj(env)];
    }

    /** What each key the override names is before the override. */
    method SnapshotEnvBaselines(o: EnvOverride) returns (state: Baselines)
      ensures state == Snapshot(entries, PatchOf(o))
    {
      state := map[];
      if o.sets == map[] && o.deletes == [] { return; }
      var env := EnsureEnvMap();
      var keys := o.sets.Keys;
      while keys != {}
        invariant keys <= o.sets.Keys
        invariant state.Keys == o.sets.Keys - keys
        invariant forall k :: k in state ==> state[k] == Install.Find(env, k)
      {
        var key :| key in keys;
        state := state[key := Install.Find(env, key)];
        keys := keys - {key};
      }
      for i := 0 to |o.deletes|
        invariant forall k :: k in state <==> k in o.sets || k in o.deletes[..i]
        invariant forall k :: k in state ==> state[k] == Install.Find(env, k)
      {
        state := state[o.deletes[i] := Install.Find(env, o.deletes[i])];
      }
      assert o.deletes[..|o.deletes|] == o.deletes;
    }

    method ApplyEnvPatch(o: EnvOverride)
      modifies this
      ensures entries == Patched(old(entries), PatchOf(o))
    {
      if o.sets == map[] && o.deletes == [] {
        assert PatchOf(o) == map[];
        return;
      }
      var env := EnsureEnvMap();
      ghost var was := env;
      env := DropDeletes(env, o.deletes);
      env := AddSets(env, o.sets);
      PatchIsNotEmpty(o);
      assert env == PatchedEnv(was, PatchOf(o));
      entries := entries[ENV := Obj(env)];
    }

    static method DropDeletes(env: Object, deletes: seq<string>) returns (dropped: Object)
      ensures dropped == env - set d | d in deletes
    {
      dropped := env;
      for i := 0 to |deletes|
        invariant dropped == env - set d | d in deletes[..i]
      {
        dropped := dropped - {deletes[i]};
      }
      assert deletes[..|deletes|] == deletes;
    }

    static method AddSets(env: Object, sets: map<string, string>) returns (added: Object)
      ensures added == env + map k | k in sets :: Str(sets[k])
    {
      added := env;
      var keys := sets.Keys;
      while keys != {}
        invariant keys <= sets.Keys
        invariant forall k :: k in added <==> k in env || k in sets.Keys - keys
        invariant forall k :: k in added ==> added[k] == if k in sets.Keys - keys then Str(sets[k]) else env[k]
      {
        var key :| key in keys;
        added := added[key := Str(sets[key])];
        keys := keys - {key};
      }
    }
  }

  lemma PatchIsNotEmpty(o: EnvOverride)
    requires o.sets != map[] || o.deletes != []
    ensures PatchOf(o) != map[]
  {
    if o.deletes != [] {
      assert o.deletes[0] in PatchOf(o);
    } else {
      var key :| key in o.sets;
      assert key in PatchOf(o);
    }
  }
}
