/** JSON values and the recursive merge of objects (tools/merge-json/main.go). Numbers keep their text. */
module Json {
  import opened Text

  datatype Json = Null | Bool(b: bool) | Number(text: string) | Str(s: string) | Arr(items: seq<Json>) | Obj(m: Object)

  type Object = map<string, Json>

  predicate BothObjects(target: Object, fragment: Object, key: string) {
    key in target && key in fragment && target[key].Obj? && fragment[key].Obj?
  }

  /** Objects found on both sides are merged; everywhere else the fragment wins. */
  function Merge(target: Object, fragment: Object): Object
    decreases Obj(fragment)
  {
    map k | k in target.Keys + fragment.Keys ::
      if k !in fragment then target[k]
      else if BothObjects(target, fragment, k) then Obj(Merge(target[k].m, fragment[k].m))
      else fragment[k]
  }

  /** Every leaf of the fragment is in the merged object. */
  ghost predicate Contains(target: Object, fragment: Object)
    decreases Obj(fragment)
  {
    forall k :: k in fragment ==>
      && k in target
      && if fragment[k].Obj? then target[k].Obj? && Contains(target[k].m, fragment[k].m) else target[k] == fragment[k]
  }

  lemma {:induction false} ContainsItself(fragment: Object)
    ensures Contains(fragment, fragment)
    decreases Obj(fragment)
  {
    forall k | k in fragment && fragment[k].Obj? ensures Contains(fragment[k].m, fragment[k].m) {
      ContainsItself(fragment[k].m);
    }
  }

  lemma {:induction false} MergeContains(target: Object, fragment: Object)
    ensures Contains(Merge(target, fragment), fragment)
    decreases Obj(fragment)
  {
    forall k | k in fragment && fragment[k].Obj? ensures Contains(Merge(target, fragment)[k].m, fragment[k].m) {
      if BothObjects(target, fragment, k) {
        MergeContains(target[k].m, fragment[k].m);
      } else {
        ContainsItself(fragment[k].m);
      }
    }
  }

  /** Merging changes nothing exactly when the fragment is already contained. */
  lemma {:induction false} MergeOfContained(target: Object, fragment: Object)
    ensures Merge(target, fragment) == target <==> Contains(target, fragment)
    decreases Obj(fragment)
  {
    if Merge(target, fragment) == target {
      MergeContains(target, fragment);
    }
    if Contains(target, fragment) {
      forall k | k in fragment && fragment[k].Obj? ensures Merge(target[k].m, fragment[k].m) == target[k].m {
        MergeOfContained(target[k].m, fragment[k].m);
      }
    }
  }

  lemma MergeIsIdempotent(target: Object, fragment: Object)
    ensures Merge(Merge(target, fragment), fragment) == Merge(target, fragment)
  {
    MergeContains(target, fragment);
    MergeOfContained(Merge(target, fragment), fragment);
  }

  /** What lies at a path of keys. */
  function At(o: Object, path: seq<string>): Option<Json>
    requires path != []
    decreases |path|
  {
    if path[0] !in o then None
    else if |path| == 1 then Some(o[path[0]])
    else if o[path[0]].Obj? then At(o[path[0]].m, path[1..])
    else None
  }

  /** On the way to the path lies something that is no object. */
  predicate Blocked(o: Object, path: seq<string>)
    requires path != []
    decreases |path|
  {
    |path| > 1 && path[0] in o && (!o[path[0]].Obj? || Blocked(o[path[0]].m, path[1..]))
  }

  function MergeOver(below: Option<Json>, above: Json): Json {
    if below.Some? && below.value.Obj? && above.Obj? then Obj(Merge(below.value.m, above.m)) else above
  }

  /** A merge at every depth: what the fragment names wins, objects are merged with what they cover, what the fragment
      blocks is gone, and everything else stays as it was. */
  lemma {:induction false} MergeAlongPaths(target: Object, fragment: Object, path: seq<string>)
    requires path != []
    ensures At(fragment, path).Some? ==>
              At(Merge(target, fragment), path) == Some(MergeOver(At(target, path), At(fragment, path).value))
    ensures Blocked(fragment, path) ==> At(Merge(target, fragment), path) == None
    ensures At(fragment, path) == None && !Blocked(fragment, path) ==>
              At(Merge(target, fragment), path) == At(target, path)
    decreases |path|
  {
    var k := path[0];
    if |path| > 1 && k in fragment && fragment[k].Obj? {
      var below: Object := if BothObjects(target, fragment, k) then target[k].m else map[];
      MergeAlongPaths(below, fragment[k].m, path[1..]);
      MergeIntoNothing(fragment[k].m);
    }
  }

  /** A merge into nothing is a copy. */
  lemma MergeIntoNothing(fragment: Object)
    ensures Merge(map[], fragment) == fragment
  {
  }
}
