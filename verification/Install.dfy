/** What installing settings with local env overrides means: the baselines kept beside the settings make
    every override removable (tools/merge-json/main.go). */
module Install {
  import opened Text
  import opened Json

  /** What an overridden key was before: absent, or a value. */
  type Baselines = map<string, Option<Json>>

  /** An override sets a key to a string or deletes it. */
  type Patch = map<string, Option<string>>

  const ENV := "env"

  function EnvOf(settings: Object): Object {
    if ENV in settings && settings[ENV].Obj? then settings[ENV].m else map[]
  }

  function RestoredEnv(env: Object, state: Baselines): Object {
    map k | k in env.Keys + state.Keys && (k in state ==> state[k].Some?) ::
      if k in state then state[k].value else env[k]
  }

  function Restored(settings: Object, state: Baselines): Object {
    if state == map[] then settings else settings[ENV := Obj(RestoredEnv(EnvOf(settings), state))]
  }

  function Find(env: Object, key: string): Option<Json> {
    if key in env then Some(env[key]) else None
  }

  function Snapshot(settings: Object, patch: Patch): Baselines {
    map k | k in patch :: Find(EnvOf(settings), k)
  }

  function PatchedEnv(env: Object, patch: Patch): Object {
    map k | k in env.Keys + patch.Keys && (k in patch ==> patch[k].Some?) ::
      if k in patch then Str(patch[k].value) else env[k]
  }

  function Patched(settings: Object, patch: Patch): Object {
    if patch == map[] then settings else settings[ENV := Obj(PatchedEnv(EnvOf(settings), patch))]
  }

  /** The settings file and the baselines beside it. */
  datatype Installed = Installed(settings: Object, state: Baselines)

  /** What an installer without overrides would have at the same point. */
  function Managed(before: Installed, fragment: Object): Object {
    Merge(Restored(before.settings, before.state), fragment)
  }

  /** The fragment's env extends the object that the baseline of this key holds. */
  predicate BothHoldObjects(state: Baselines, fragment: Object, key: string) {
    && key in state && state[key].Some? && state[key].value.Obj?
    && key in EnvOf(fragment) && EnvOf(fragment)[key].Obj?
  }

  /** The baselines in memory after the merge. An object put back into env is the very object of the baseline,
      and the merge changes it in place. */
  function Aged(state: Baselines, fragment: Object): Baselines {
    map k | k in state ::
      if BothHoldObjects(state, fragment, k) then Some(Obj(Merge(state[k].value.m, EnvOf(fragment)[k].m))) else state[k]
  }

  /** New baselines are written only when they differ from the last ones as the merge has changed them. */
  function InstallStep(before: Installed, fragment: Object, patch: Patch): Installed {
    var merged := Managed(before, fragment);
    var state := Snapshot(merged, patch);
    Installed(Patched(merged, patch), if state == Aged(before.state, fragment) then before.state else state)
  }

  /** The written baselines stay behind: the same keys are overridden again, and all that the fragment changes
      of them is objects it extends. */
  ghost predicate GoesStale(state: Baselines, fragment: Object, patch: Patch) {
    NothingElse(state, fragment, patch) && exists k :: Extends(state, fragment, k)
  }

  ghost predicate NothingElse(state: Baselines, fragment: Object, patch: Patch) {
    && patch.Keys == state.Keys
    && forall k :: k in state && k in EnvOf(fragment) ==>
         BothHoldObjects(state, fragment, k) || state[k] == Some(EnvOf(fragment)[k])
  }

  ghost predicate Extends(state: Baselines, fragment: Object, key: string) {
    BothHoldObjects(state, fragment, key) && !Contains(state[key].value.m, EnvOf(fragment)[key].m)
  }

  // ---------------------------------------------------------------- local edits between installs

  datatype Edit =
    | SetKey(key: string, value: Json) | DropKey(key: string)
    | SetEnv(key: string, value: Json) | DropEnv(key: string)

  /** Edits that leave the overridden keys alone and do not replace env as a whole. */
  predicate LeavesOverrides(edit: Edit, state: Baselines) {
    match edit
    case SetKey(key, _) => key != ENV
    case DropKey(key) => key != ENV
    case SetEnv(key, _) => key !in state
    case DropEnv(key) => key !in state
  }

  function Edited(settings: Object, edit: Edit): Object {
    match edit
    case SetKey(key, value) => settings[key := value]
    case DropKey(key) => settings - {key}
    case SetEnv(key, value) => settings[ENV := Obj(EnvOf(settings)[key := value])]
    case DropEnv(key) =>
      if ENV in settings && settings[ENV].Obj? then settings[ENV := Obj(settings[ENV].m - {key})] else settings
  }

  // ---------------------------------------------------------------- histories

  datatype Event = Installs(fragment: Object, patch: Patch) | Edits(edit: Edit)

  function Next(before: Installed, e: Event): Installed {
    match e
    case Installs(fragment, patch) => InstallStep(before, fragment, patch)
    case Edits(edit) => before.(settings := Edited(before.settings, edit))
  }

  /** The same event for an installer that knows no overrides. */
  function PlainNext(settings: Object, e: Event): Object {
    match e
    case Installs(fragment, _) => Merge(settings, fragment)
    case Edits(edit) => Edited(settings, edit)
  }

  /** The state after the first n events. */
  function After(start: Installed, events: seq<Event>, n: nat): Installed
    requires n <= |events|
  {
    if n == 0 then start else Next(After(start, events, n - 1), events[n - 1])
  }

  function PlainAfter(start: Object, events: seq<Event>, n: nat): Object
    requires n <= |events|
  {
    if n == 0 then start else PlainNext(PlainAfter(start, events, n - 1), events[n - 1])
  }

  /** Equal, but for an empty env object in place of none. */
  predicate UpToEmptyEnv(a: Object, b: Object) {
    a == b || (ENV !in b && a == b[ENV := Obj(map[])])
  }

  /** Taking the overrides back gives the plain settings. */
  predicate Traceless(inst: Installed, plain: Object) {
    UpToEmptyEnv(Restored(inst.settings, inst.state), plain)
  }

  /** What an override needs: env is an object or absent. */
  predicate EnvFits(settings: Object) {
    ENV in settings ==> settings[ENV].Obj?
  }

  predicate OverridesEnv(e: Event) {
    e.Installs? && e.patch != map[]
  }

  /** No override among the first n events was installed over an env that is not an object. */
  ghost predicate WellUsed(start: Object, events: seq<Event>, n: nat)
    requires n <= |events|
  {
    forall i: nat :: i < n && OverridesEnv(events[i]) ==> EnvFits(PlainAfter(start, events, i + 1))
  }

  /** None of the first n events was an install that left the written baselines behind. */
  ghost predicate NeverStale(start: Object, events: seq<Event>, n: nat)
    requires n <= |events|
  {
    forall i: nat {:trigger After(Installed(start, map[]), events, i)} ::
      i < n ==> KeepsUp(After(Installed(start, map[]), events, i), events[i])
  }

  ghost predicate KeepsUp(inst: Installed, e: Event) {
    e.Installs? ==> !GoesStale(inst.state, e.fragment, e.patch)
  }

  ghost predicate EditsLeaveOverrides(start: Installed, events: seq<Event>) {
    forall i: nat :: i < |events| && events[i].Edits? ==> LeavesOverrides(events[i].edit, After(start, events, i).state)
  }

  ghost predicate AlwaysTraceless(start: Object, events: seq<Event>, n: nat)
    requires n <= |events|
  {
    forall k: nat :: k <= n ==> Traceless(After(Installed(start, map[]), events, k), PlainAfter(start, events, k))
  }

  // ---------------------------------------------------------------- one install

  /** Settings in which a patch has taken effect: each key it sets holds its string, each key it deletes is gone, and
      the rest of env, and of the settings, is managed. */
  ghost predicate TakesEffect(after: Object, managed: Object, patch: Patch) {
    && (forall k :: k in patch ==>
         Find(EnvOf(after), k) == if patch[k].Some? then Some(Str(patch[k].value)) else None)
    && (forall k :: k !in patch ==> Find(EnvOf(after), k) == Find(EnvOf(managed), k))
    && (forall k :: k != ENV ==> Find(after, k) == Find(managed, k))
    && if patch == map[] then after == managed else ENV in after && after[ENV].Obj?
  }

  /** An install puts its overrides into effect over the managed settings ... */
  lemma OverridesTakeEffect(before: Installed, fragment: Object, patch: Patch)
    ensures TakesEffect(InstallStep(before, fragment, patch).settings, Managed(before, fragment), patch)
  {
    var managed := Managed(before, fragment);
    forall k ensures Find(PatchedEnv(EnvOf(managed), patch), k) ==
        if k !in patch then Find(EnvOf(managed), k) else if patch[k].Some? then Some(Str(patch[k].value)) else None
    {
    }
  }

  /** ... and there is nothing else it could leave. */
  lemma EffectIsUnique(a: Object, b: Object, managed: Object, patch: Patch)
    requires TakesEffect(a, managed, patch) && TakesEffect(b, managed, patch)
    ensures a == b
  {
    forall k ensures Find(a, k) == Find(b, k) {
      if k == ENV && patch != map[] {
        SameObject(EnvOf(a), EnvOf(b), patch);
      }
    }
    FoundAlike(a, b);
  }

  lemma SameObject(a: Object, b: Object, patch: Patch)
    requires forall k :: k in patch ==> Find(a, k) == Find(b, k)
    requires forall k :: k !in patch ==> Find(a, k) == Find(b, k)
    ensures a == b
  {
    forall k ensures Find(a, k) == Find(b, k) {
    }
    FoundAlike(a, b);
  }

  /** Objects in which the same is found are the same. */
  lemma FoundAlike(a: Object, b: Object)
    requires forall k :: Find(a, k) == Find(b, k)
    ensures a == b
  {
    forall k ensures k in a <==> k in b {
      assert Find(a, k) == Find(b, k);
    }
    forall k | k in a ensures a[k] == b[k] {
      assert Find(a, k) == Find(b, k);
    }
  }

  /** Patch and restore cancel out on env. */
  lemma RestoreUndoesPatch(env: Object, patch: Patch, state: Baselines)
    requires state == map k | k in patch :: Find(env, k)
    ensures RestoredEnv(PatchedEnv(env, patch), state) == env
  {
  }

  /** What becomes of env in a merge. */
  lemma MergedEnv(before: Installed, fragment: Object)
    requires before.state != map[] && (ENV in fragment ==> fragment[ENV].Obj?)
    ensures EnvOf(Managed(before, fragment)) ==
      Merge(RestoredEnv(EnvOf(before.settings), before.state), EnvOf(fragment))
  {
    var taken := Restored(before.settings, before.state);
    var env := RestoredEnv(EnvOf(before.settings), before.state);
    assert taken[ENV] == Obj(env);
    if ENV in fragment {
      assert BothObjects(taken, fragment, ENV);
    } else {
      assert Merge(env, map[]) == env;
    }
  }

  lemma MergedAt(env: Object, fragment: Object, key: string)
    ensures Find(Merge(env, fragment), key) ==
              if key !in fragment then Find(env, key)
              else if BothObjects(env, fragment, key) then Some(Obj(Merge(env[key].m, fragment[key].m)))
              else Some(fragment[key])
  {
  }

  /** What an overridden key is in the merged settings. */
  lemma MergedBaseline(before: Installed, fragment: Object, key: string)
    requires key in before.state && (ENV in fragment ==> fragment[ENV].Obj?)
    ensures Find(EnvOf(Managed(before, fragment)), key) ==
              if BothHoldObjects(before.state, fragment, key) || key !in EnvOf(fragment)
              then Aged(before.state, fragment)[key] else Some(EnvOf(fragment)[key])
  {
    var env := RestoredEnv(EnvOf(before.settings), before.state);
    assert Find(env, key) == before.state[key];
    MergedEnv(before, fragment);
    MergedAt(env, EnvOf(fragment), key);
  }

  /** A baseline ages exactly when the fragment extends it. */
  lemma AgesExactly(state: Baselines, fragment: Object, key: string)
    requires key in state
    ensures Aged(state, fragment)[key] != state[key] <==> Extends(state, fragment, key)
  {
    if BothHoldObjects(state, fragment, key) {
      MergeOfContained(state[key].value.m, EnvOf(fragment)[key].m);
    }
  }

  lemma AgedAnew(state: Baselines, fragment: Object)
    ensures Aged(state, fragment) == state <==> forall k :: k in state ==> !Extends(state, fragment, k)
  {
    forall k | k in state ensures Aged(state, fragment)[k] != state[k] <==> Extends(state, fragment, k) {
      AgesExactly(state, fragment, k);
    }
  }

  /** New baselines agree with the aged ones exactly when the same keys are overridden and what the fragment says
      of them is the same or an extension. */
  lemma SnapshotIsAged(before: Installed, fragment: Object, patch: Patch)
    requires before.state != map[] && (ENV in fragment ==> fragment[ENV].Obj?)
    ensures Snapshot(Managed(before, fragment), patch) == Aged(before.state, fragment) <==>
              NothingElse(before.state, fragment, patch)
  {
    var merged := Managed(before, fragment);
    forall k | k in before.state
      ensures Find(EnvOf(merged), k) == Aged(before.state, fragment)[k] <==>
                (k in EnvOf(fragment) ==>
                   BothHoldObjects(before.state, fragment, k) || before.state[k] == Some(EnvOf(fragment)[k]))
    {
      MergedBaseline(before, fragment, k);
    }
    var taken, aged := Snapshot(merged, patch), Aged(before.state, fragment);
    assert taken.Keys == patch.Keys && aged.Keys == before.state.Keys;
    if taken == aged {
      forall k | k in before.state ensures Find(EnvOf(merged), k) == aged[k] {
        assert k in aged && taken[k] == aged[k];
      }
    } else if NothingElse(before.state, fragment, patch) {
      forall k | k in patch ensures taken[k] == aged[k] {
        assert k in patch.Keys;
      }
    }
  }

  /** An install leaves the written baselines behind exactly when GoesStale says so. */
  lemma StaleExactly(before: Installed, fragment: Object, patch: Patch)
    ensures GoesStale(before.state, fragment, patch) <==>
              InstallStep(before, fragment, patch).state != Snapshot(Managed(before, fragment), patch)
  {
    AgedAnew(before.state, fragment);
    if before.state != map[] && (ENV in fragment ==> fragment[ENV].Obj?) {
      SnapshotIsAged(before, fragment, patch);
    } else {
      assert Aged(before.state, fragment) == before.state;
    }
  }

  /** New baselines are written exactly when they differ from those the merge has changed. */
  lemma WrittenWhenChanged(before: Installed, fragment: Object, patch: Patch)
    ensures InstallStep(before, fragment, patch).state == before.state <==>
              Snapshot(Managed(before, fragment), patch) == Aged(before.state, fragment)
  {
    StaleExactly(before, fragment, patch);
    AgedAnew(before.state, fragment);
    if Snapshot(Managed(before, fragment), patch) == before.state {
      if before.state != map[] && (ENV in fragment ==> fragment[ENV].Obj?) {
        forall k | k in before.state ensures !Extends(before.state, fragment, k) {
          MergedBaseline(before, fragment, k);
          AgesExactly(before.state, fragment, k);
          assert k in Snapshot(Managed(before, fragment), patch);
        }
      }
    }
  }

  /** Taking back the overrides just installed leaves the merged settings, with env made an object. */
  lemma RestoreAfterInstall(before: Installed, fragment: Object, patch: Patch)
    requires !GoesStale(before.state, fragment, patch)
    ensures var merged := Managed(before, fragment);
            var after := InstallStep(before, fragment, patch);
            Restored(after.settings, after.state) ==
              if patch == map[] then merged else merged[ENV := Obj(EnvOf(merged))]
  {
    var merged := Managed(before, fragment);
    var after := InstallStep(before, fragment, patch);
    StaleExactly(before, fragment, patch);
    RestoreUndoesPatch(EnvOf(merged), patch, after.state);
    if patch != map[] {
      var key :| key in patch;
      assert key in after.state;
    }
  }

  lemma MergeUpToEmptyEnv(a: Object, b: Object, fragment: Object)
    requires UpToEmptyEnv(a, b)
    ensures UpToEmptyEnv(Merge(a, fragment), Merge(b, fragment))
  {
    if a != b {
      if ENV in fragment {
        if fragment[ENV].Obj? { MergeIntoNothing(fragment[ENV].m); }
        assert Merge(a, fragment) == Merge(b, fragment);
      } else {
        assert Merge(a, fragment) == Merge(b, fragment)[ENV := Obj(map[])];
      }
    }
  }

  /** With baselines left behind the plain settings do not come back: an extended object comes back as it was
      before it was extended. */
  lemma StaleLeavesTrace(before: Installed, plain: Object, fragment: Object, patch: Patch)
    requires Traceless(before, plain) && GoesStale(before.state, fragment, patch)
    ensures EnvFits(Merge(plain, fragment)) && !Traceless(InstallStep(before, fragment, patch), Merge(plain, fragment))
  {
    StaleExactly(before, fragment, patch);
    var k :| Extends(before.state, fragment, k);
    var after, bare := InstallStep(before, fragment, patch), Merge(plain, fragment);
    MergeUpToEmptyEnv(Restored(before.settings, before.state), plain, fragment);
    assert ENV in fragment && fragment[ENV].Obj?;
    assert Managed(before, fragment) == bare;
    MergedBaseline(before, fragment, k);
    MergeOfContained(before.state[k].value.m, EnvOf(fragment)[k].m);
    assert EnvOf(bare)[k] == Aged(before.state, fragment)[k].value != before.state[k].value;
    assert EnvOf(Restored(after.settings, after.state))[k] == before.state[k].value;
  }

  /** An override leaves no trace exactly when env was an object or absent and the baselines kept up. */
  lemma InstallStaysTraceless(before: Installed, plain: Object, fragment: Object, patch: Patch)
    requires Traceless(before, plain)
    ensures Traceless(InstallStep(before, fragment, patch), Merge(plain, fragment)) <==>
              (patch == map[] || EnvFits(Merge(plain, fragment))) && !GoesStale(before.state, fragment, patch)
  {
    if GoesStale(before.state, fragment, patch) {
      StaleLeavesTrace(before, plain, fragment, patch);
    } else {
      FreshStaysTraceless(before, plain, fragment, patch);
    }
  }

  lemma FreshStaysTraceless(before: Installed, plain: Object, fragment: Object, patch: Patch)
    requires Traceless(before, plain) && !GoesStale(before.state, fragment, patch)
    ensures Traceless(InstallStep(before, fragment, patch), Merge(plain, fragment)) <==>
              (patch == map[] || EnvFits(Merge(plain, fragment)))
  {
    RestoreAfterInstall(before, fragment, patch);
    MergeUpToEmptyEnv(Restored(before.settings, before.state), plain, fragment);
    var merged, bare := Managed(before, fragment), Merge(plain, fragment);
    if patch != map[] {
      var taken := merged[ENV := Obj(EnvOf(merged))];
      if EnvFits(bare) {
        if merged == bare && ENV in bare { assert taken == bare; }
        if merged == bare && ENV !in bare { assert taken == bare[ENV := Obj(map[])]; }
        if merged != bare { assert taken == bare[ENV := Obj(map[])]; }
      } else {
        assert taken[ENV] != bare[ENV];
      }
    }
  }

  lemma EditStaysTraceless(before: Installed, plain: Object, edit: Edit)
    requires Traceless(before, plain) && LeavesOverrides(edit, before.state)
    ensures Traceless(before.(settings := Edited(before.settings, edit)), Edited(plain, edit))
  {
    var taken := Restored(before.settings, before.state);
    EditCommutesWithRestore(before, edit);
    if taken != plain && ENV !in plain && taken == plain[ENV := Obj(map[])] {
      match edit {
        case SetKey(key, value) => assert Edited(taken, edit) == Edited(plain, edit)[ENV := Obj(map[])];
        case DropKey(key) => assert Edited(taken, edit) == Edited(plain, edit)[ENV := Obj(map[])];
        case SetEnv(key, value) => assert Edited(taken, edit) == Edited(plain, edit);
        case DropEnv(key) => assert taken[ENV].m - {key} == map[];
                             assert Edited(taken, edit) == plain[ENV := Obj(map[])];
      }
    }
  }

  lemma EditCommutesWithRestore(before: Installed, edit: Edit)
    requires LeavesOverrides(edit, before.state)
    ensures Restored(Edited(before.settings, edit), before.state) ==
      Edited(Restored(before.settings, before.state), edit)
  {
    if before.state != map[] {
      var env := EnvOf(before.settings);
      match edit {
        case SetKey(_, _) =>
        case DropKey(_) =>
        case SetEnv(key, value) =>
          assert RestoredEnv(env[key := value], before.state) == RestoredEnv(env, before.state)[key := value];
        case DropEnv(key) =>
          assert RestoredEnv(env - {key}, before.state) == RestoredEnv(env, before.state) - {key};
          assert EnvOf(Edited(before.settings, edit)) == env - {key};
      }
    }
  }

  // ---------------------------------------------------------------- whole histories

  /** One event keeps the state traceless, except an override over an env that is not an object and an install
      that leaves the baselines behind. */
  lemma EventStaysTraceless(inst: Installed, plain: Object, e: Event)
    requires Traceless(inst, plain) && (e.Edits? ==> LeavesOverrides(e.edit, inst.state))
    ensures Traceless(Next(inst, e), PlainNext(plain, e)) <==>
              (OverridesEnv(e) ==> EnvFits(PlainNext(plain, e))) && KeepsUp(inst, e)
  {
    match e {
      case Installs(fragment, patch) => InstallStaysTraceless(inst, plain, fragment, patch);
      case Edits(edit) => EditStaysTraceless(inst, plain, edit);
    }
  }

  /** Over any history of installs and local edits, taking the overrides back always gives exactly the
      settings of an installer without overrides, if and only if no override was ever installed over an
      env that is not an object and no install left the baselines behind. */
  lemma {:induction false} OverridesLeaveNoTrace(start: Object, events: seq<Event>, n: nat)
    requires n <= |events| && EditsLeaveOverrides(Installed(start, map[]), events)
    ensures AlwaysTraceless(start, events, n) <==> WellUsed(start, events, n) && NeverStale(start, events, n)
  {
    var first := Installed(start, map[]);
    if n == 0 {
      assert Traceless(After(first, events, 0), PlainAfter(start, events, 0));
    } else {
      OverridesLeaveNoTrace(start, events, n - 1);
      var inst, plain := After(first, events, n - 1), PlainAfter(start, events, n - 1);
      if Traceless(inst, plain) {
        EventStaysTraceless(inst, plain, events[n - 1]);
      }
      OneMoreUsed(start, events, n);
      OneMoreFresh(start, events, n);
      OneMoreTraceless(start, events, n);
    }
  }

  /** The conditions of n events are those of one event less and of the last. */
  lemma OneMoreUsed(start: Object, events: seq<Event>, n: nat)
    requires 0 < n <= |events|
    ensures WellUsed(start, events, n) <==>
              WellUsed(start, events, n - 1) && (OverridesEnv(events[n - 1]) ==> EnvFits(PlainAfter(start, events, n)))
  {
  }

  lemma OneMoreFresh(start: Object, events: seq<Event>, n: nat)
    requires 0 < n <= |events|
    ensures NeverStale(start, events, n) <==>
              NeverStale(start, events, n - 1) && KeepsUp(After(Installed(start, map[]), events, n - 1), events[n - 1])
  {
  }

  lemma OneMoreTraceless(start: Object, events: seq<Event>, n: nat)
    requires 0 < n <= |events|
    ensures AlwaysTraceless(start, events, n) <==>
              AlwaysTraceless(start, events, n - 1) &&
              Traceless(After(Installed(start, map[]), events, n), PlainAfter(start, events, n))
  {
  }

  /** One install without overrides ends all of them: the settings are the plain ones again. */
  lemma InstallWithoutOverrides(start: Object, events: seq<Event>, fragment: Object)
    requires EditsLeaveOverrides(Installed(start, map[]), events)
    requires WellUsed(start, events, |events|) && NeverStale(start, events, |events|)
    ensures var after := InstallStep(After(Installed(start, map[]), events, |events|), fragment, map[]);
            after.state == map[] && UpToEmptyEnv(after.settings, Merge(PlainAfter(start, events, |events|), fragment))
  {
    OverridesLeaveNoTrace(start, events, |events|);
    var inst := After(Installed(start, map[]), events, |events|);
    MergeUpToEmptyEnv(Restored(inst.settings, inst.state), PlainAfter(start, events, |events|), fragment);
  }

  /** Settings with one object in env, and an override of its key. */
  function Single(key: string, value: Json): Object {
    map[ENV := Obj(map[key := value])]
  }

  lemma FirstOverride(key: string, inner: Object, value: string)
    ensures InstallStep(Installed(Single(key, Obj(inner)), map[]), map[], map[key := Some(value)]) ==
              Installed(Single(key, Str(value)), map[key := Some(Obj(inner))])
  {
    var start, patch := Single(key, Obj(inner)), map[key := Some(value)];
    assert Merge(start, map[]) == start;
    assert Snapshot(start, patch) == map[key := Some(Obj(inner))];
    assert key in Snapshot(start, patch);
    assert PatchedEnv(EnvOf(start), patch) == map[key := Str(value)];
    assert Patched(start, patch) == Single(key, Str(value));
  }

  lemma MergeSingle(key: string, a: Object, b: Object)
    ensures Merge(map[key := Obj(a)], map[key := Obj(b)]) == map[key := Obj(Merge(a, b))]
  {
    assert BothObjects(map[key := Obj(a)], map[key := Obj(b)], key);
  }

  lemma RestoreSingle(key: string, inner: Object, value: string)
    ensures Restored(Single(key, Str(value)), map[key := Some(Obj(inner))]) == Single(key, Obj(inner))
  {
    var state: Baselines := map[key := Some(Obj(inner))];
    assert key in state;
    assert RestoredEnv(EnvOf(Single(key, Str(value))), state) == map[key := Obj(inner)];
  }

  lemma PatchSingle(key: string, inner: Json, value: string)
    ensures Patched(Single(key, inner), map[key := Some(value)]) == Single(key, Str(value))
  {
    var patch: Patch := map[key := Some(value)];
    assert key in patch;
    assert PatchedEnv(EnvOf(Single(key, inner)), patch) == map[key := Str(value)];
  }

  lemma SingleGoesStale(key: string, inner: Object, more: Object, value: string)
    requires !Contains(inner, more)
    ensures GoesStale(map[key := Some(Obj(inner))], Single(key, Obj(more)), map[key := Some(value)])
  {
    assert key in EnvOf(Single(key, Obj(more)));
    assert Extends(map[key := Some(Obj(inner))], Single(key, Obj(more)), key);
  }

  /** An object under an overridden key that the next fragment extends: the second install writes nothing at
      all, and what taking the override back gives lacks the extension. */
  lemma ExtensionIsLost(key: string, inner: Object, more: Object, value: string)
    requires !Contains(inner, more)
    ensures var first := Installed(Single(key, Str(value)), map[key := Some(Obj(inner))]);
            && InstallStep(first, Single(key, Obj(more)), map[key := Some(value)]) == first
            && Restored(first.settings, first.state) == Single(key, Obj(inner))
            && Merge(Single(key, Obj(inner)), Single(key, Obj(more))) == Single(key, Obj(Merge(inner, more)))
            && Merge(inner, more) != inner
  {
    var first := Installed(Single(key, Str(value)), map[key := Some(Obj(inner))]);
    RestoreSingle(key, inner, value);
    MergeSingle(key, inner, more);
    MergeSingle(ENV, map[key := Obj(inner)], map[key := Obj(more)]);
    SingleGoesStale(key, inner, more, value);
    StaleExactly(first, Single(key, Obj(more)), map[key := Some(value)]);
    PatchSingle(key, Obj(Merge(inner, more)), value);
    MergeOfContained(inner, more);
  }

  /** So it is with a managed object {"a": 1} that the next fragment extends by "b". */
  lemma OverrideCanLeaveTrace()
    ensures var start := Single("K", Obj(map["a" := Number("1")]));
            var first := Installs(map[], map["K" := Some("x")]);
            var second := Installs(Single("K", Obj(map["b" := Number("2")])), map["K" := Some("x")]);
            !AlwaysTraceless(start, [first, second], 2) && WellUsed(start, [first, second], 2)
  {
    var inner, more := map["a" := Number("1")], map["b" := Number("2")];
    assert "b" in more && "b" !in inner && !Contains(inner, more);
    LeavesTrace("K", inner, more, "x");
  }

  lemma LeavesTrace(key: string, inner: Object, more: Object, value: string)
    requires !Contains(inner, more)
    ensures var start := Single(key, Obj(inner));
            var first := Installs(map[], map[key := Some(value)]);
            var second := Installs(Single(key, Obj(more)), map[key := Some(value)]);
            !AlwaysTraceless(start, [first, second], 2) && WellUsed(start, [first, second], 2)
  {
    var start := Single(key, Obj(inner));
    var first := Installs(map[], map[key := Some(value)]);
    var second := Installs(Single(key, Obj(more)), map[key := Some(value)]);
    var events, origin := [first, second], Installed(start, map[]);
    FirstOverride(key, inner, value);
    assert After(origin, events, 1) == Next(After(origin, events, 0), first);
    SingleGoesStale(key, inner, more, value);
    assert !KeepsUp(After(origin, events, 1), events[1]);
    OverridesLeaveNoTrace(start, events, 2);
    SinglesAreWellUsed(key, inner, more, value);
  }

  lemma SinglesAreWellUsed(key: string, inner: Object, more: Object, value: string)
    ensures var first := Installs(map[], map[key := Some(value)]);
            var second := Installs(Single(key, Obj(more)), map[key := Some(value)]);
            WellUsed(Single(key, Obj(inner)), [first, second], 2)
  {
    var start := Single(key, Obj(inner));
    var first := Installs(map[], map[key := Some(value)]);
    var second := Installs(Single(key, Obj(more)), map[key := Some(value)]);
    var events := [first, second];
    assert PlainAfter(start, events, 1) == Merge(PlainAfter(start, events, 0), map[]);
    assert Merge(start, map[]) == start;
    assert PlainAfter(start, events, 2) == Merge(start, Single(key, Obj(more)));
    MergeSingle(ENV, map[key := Obj(inner)], map[key := Obj(more)]);
  }

  /** An env that is not an object is lost for good to the first override, even after it is taken back. */
  lemma NonObjectEnvIsLost(env: Json, patch: Patch)
    requires !env.Obj? && patch != map[]
    ensures var used := InstallStep(Installed(map[ENV := env], map[]), map[], patch);
            InstallStep(used, map[], map[]) == Installed(map[ENV := Obj(map[])], map[])
    ensures Merge(map[ENV := env], map[]) == map[ENV := env]
  {
    var start := Installed(map[ENV := env], map[]);
    var used := InstallStep(start, map[], patch);
    assert Managed(start, map[]) == map[ENV := env];
    RestoreAfterInstall(start, map[], patch);
    assert Restored(used.settings, used.state) == map[ENV := Obj(map[])];
    assert Managed(used, map[]) == map[ENV := Obj(map[])];
  }

  /** Making env an object first does not change what a merge that is already done does. */
  lemma MergeWithEnvObject(merged: Object, fragment: Object)
    requires Merge(merged, fragment) == merged
    ensures var again := Merge(merged[ENV := Obj(EnvOf(merged))], fragment);
            && EnvOf(again) == EnvOf(merged) && again.Keys + {ENV} == merged.Keys + {ENV}
            && forall k :: k in merged && k != ENV ==> again[k] == merged[k]
  {
    var taken := merged[ENV := Obj(EnvOf(merged))];
    var again := Merge(taken, fragment);
    assert fragment.Keys <= Merge(merged, fragment).Keys;
    if ENV in fragment && fragment[ENV].Obj? {
      assert merged[ENV] == Merge(merged, fragment)[ENV];
      assert taken == merged;
    }
    forall k | k in merged && k != ENV ensures again[k] == merged[k] {
      assert Merge(merged, fragment)[k] == merged[k];
    }
  }

  /** Installing the same thing twice changes nothing the second time, whatever was there. */
  lemma InstallIsIdempotent(before: Installed, fragment: Object, patch: Patch)
    ensures InstallStep(InstallStep(before, fragment, patch), fragment, patch) == InstallStep(before, fragment, patch)
  {
    if GoesStale(before.state, fragment, patch) {
      StaleInstallIsIdempotent(before, fragment, patch);
    } else {
      FreshInstallIsIdempotent(before, fragment, patch);
    }
  }

  lemma FreshInstallIsIdempotent(before: Installed, fragment: Object, patch: Patch)
    requires !GoesStale(before.state, fragment, patch)
    ensures InstallStep(InstallStep(before, fragment, patch), fragment, patch) == InstallStep(before, fragment, patch)
  {
    var merged, after := Managed(before, fragment), InstallStep(before, fragment, patch);
    RestoreAfterInstall(before, fragment, patch);
    StaleExactly(before, fragment, patch);
    MergeIsIdempotent(Restored(before.settings, before.state), fragment);
    if patch != map[] {
      MergeWithEnvObject(merged, fragment);
      SamePatched(Merge(merged[ENV := Obj(EnvOf(merged))], fragment), merged, patch);
    }
    StaleExactly(after, fragment, patch);
  }

  /** Baselines left behind lead the second install to the same merged settings. */
  lemma StaleInstallIsIdempotent(before: Installed, fragment: Object, patch: Patch)
    requires GoesStale(before.state, fragment, patch)
    ensures InstallStep(InstallStep(before, fragment, patch), fragment, patch) == InstallStep(before, fragment, patch)
  {
    var merged, after := Managed(before, fragment), InstallStep(before, fragment, patch);
    StaleExactly(before, fragment, patch);
    StaleExactly(after, fragment, patch);
    SameMergedAgain(before, fragment, patch);
  }

  lemma SameMergedAgain(before: Installed, fragment: Object, patch: Patch)
    requires GoesStale(before.state, fragment, patch)
    requires InstallStep(before, fragment, patch).state == before.state
    ensures Managed(InstallStep(before, fragment, patch), fragment) == Managed(before, fragment)
  {
    var merged, after := Managed(before, fragment), InstallStep(before, fragment, patch);
    var taken := Restored(after.settings, after.state);
    var k0 :| Extends(before.state, fragment, k0);
    assert ENV in fragment && fragment[ENV].Obj?;
    SameEnvAgain(before, fragment, patch);
    MergeIsIdempotent(Restored(before.settings, before.state), fragment);
    forall k | k != ENV ensures Find(Merge(taken, fragment), k) == Find(merged, k) {
      assert Find(taken, k) == Find(merged, k);
      MergedAt(taken, fragment, k);
      MergedAt(merged, fragment, k);
    }
    MergedAt(taken, fragment, ENV);
    MergedAt(Restored(before.settings, before.state), fragment, ENV);
    FoundAlike(Merge(taken, fragment), merged);
  }

  lemma SameEnvAgain(before: Installed, fragment: Object, patch: Patch)
    requires GoesStale(before.state, fragment, patch) && ENV in fragment && fragment[ENV].Obj?
    requires InstallStep(before, fragment, patch).state == before.state
    ensures EnvOf(Managed(InstallStep(before, fragment, patch), fragment)) == EnvOf(Managed(before, fragment))
  {
    var after, env := InstallStep(before, fragment, patch), EnvOf(Managed(before, fragment));
    var taken := RestoredEnv(EnvOf(after.settings), before.state);
    var k0 :| Extends(before.state, fragment, k0);
    assert k0 in patch.Keys && patch != map[];
    MergedEnv(before, fragment);
    MergedEnv(after, fragment);
    MergeIsIdempotent(RestoredEnv(EnvOf(before.settings), before.state), EnvOf(fragment));
    forall k ensures Find(Merge(taken, EnvOf(fragment)), k) == Find(env, k) {
      if k in before.state {
        MergedBaseline(before, fragment, k);
        MergedBaseline(after, fragment, k);
      } else {
        assert k !in patch.Keys;
        assert Find(taken, k) == Find(env, k);
        MergedAt(taken, EnvOf(fragment), k);
        MergedAt(env, EnvOf(fragment), k);
      }
    }
    FoundAlike(Merge(taken, EnvOf(fragment)), env);
  }

  lemma SamePatched(a: Object, b: Object, patch: Patch)
    requires patch != map[] && EnvOf(a) == EnvOf(b) && a.Keys + {ENV} == b.Keys + {ENV}
    requires forall k :: k in b && k != ENV ==> k in a && a[k] == b[k]
    ensures Patched(a, patch) == Patched(b, patch) && Snapshot(a, patch) == Snapshot(b, patch)
  {
    var env := Obj(PatchedEnv(EnvOf(a), patch));
    assert a[ENV := env].Keys == b[ENV := env].Keys;
    assert a[ENV := env] == b[ENV := env];
  }
}
