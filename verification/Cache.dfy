/** The stored index: what is accepted back, and that it is what was stored
    (glm-worker/internal/reposearch/cache.go). */
module Cache {
  import opened Text
  import opened Sorting
  import opened Tokenizer
  import opened Ranking
  import opened Index

  datatype CacheData = CacheData(
    schemaVersion: int, repoRoot: string, tokenizerVersion: int, enumerationVersion: int, excludeDirs: seq<string>,
    fingerprint: Fingerprint, indexedFiles: int, indexedBytes: int, skippedFiles: int, docs: seq<Doc>)

  /** The repository at hand: its root, and whether a relative path stays inside it. */
  datatype Root = Root(path: string, within: string -> bool)

  // ---------------------------------------------------------------- term frequencies

  /** The occurrences a frequency map stands for. */
  ghost predicate IsBag(f: map<string, int>, bag: multiset<string>) {
    forall t :: bag[t] == CountOf(f, t)
  }

  /** Counts are positive and add up to the field's length. */
  ghost predicate ValidTF(f: map<string, int>, length: int) {
    && (forall t :: t in f ==> f[t] > 0)
    && exists bag :: IsBag(f, bag) && |bag| == length
  }

  lemma SmallerBag(a: multiset<string>, b: multiset<string>)
    requires a <= b
    ensures |a| <= |b|
  {
    assert b == a + (b - a);
  }

  lemma BagIsUnique(f: map<string, int>, a: multiset<string>, b: multiset<string>)
    requires IsBag(f, a) && IsBag(f, b)
    ensures a == b
  {
  }

  /** Add the counts up in any order, stopping as soon as they are too many. */
  method ValidTermFrequencies(f: map<string, int>, length: int) returns (ok: bool)
    ensures ok <==> ValidTF(f, length)
  {
    var keys := f.Keys;
    var sum := 0;
    ghost var bag: multiset<string> := multiset{};
    while keys != {}
      invariant keys <= f.Keys && sum == |bag| && (keys == f.Keys || sum <= length)
      invariant forall t :: t in f.Keys - keys ==> f[t] > 0
      invariant forall t :: bag[t] == if t in keys then 0 else CountOf(f, t)
    {
      var t :| t in keys;
      if f[t] <= 0 { return false; }
      sum := sum + f[t];
      bag := bag[t := f[t]];
      keys := keys - {t};
      if sum > length {
        TooManyCounts(f, length, bag);
        return false;
      }
    }
    assert IsBag(f, bag);
    ok := sum == length;
    forall other | IsBag(f, other) ensures |other| == sum {
      BagIsUnique(f, bag, other);
    }
  }

  lemma TooManyCounts(f: map<string, int>, length: int, bag: multiset<string>)
    requires |bag| > length && forall t :: bag[t] == 0 || bag[t] == CountOf(f, t)
    ensures !ValidTF(f, length)
  {
    forall other | IsBag(f, other) ensures |other| != length {
      forall t ensures bag[t] <= other[t] {
        assert other[t] == CountOf(f, t);
      }
      SmallerBag(bag, other);
    }
  }

  /** What counting tokens gives is valid. */
  lemma CountedIsValid(f: map<string, int>, tokens: seq<string>)
    requires Counts(f, tokens)
    ensures ValidTF(f, |tokens|)
  {
    assert IsBag(f, multiset(tokens)) && |multiset(tokens)| == |tokens|;
    forall t | t in f ensures f[t] > 0 {
      assert t in tokens && t in multiset(tokens);
    }
  }

  /** A valid map never counts a token more often than the field is long. */
  lemma ValidIsBounded(f: map<string, int>, length: int, t: string)
    requires ValidTF(f, length) && t in f
    ensures 0 < f[t] <= length
  {
    var bag :| IsBag(f, bag) && |bag| == length;
    var one := multiset{}[t := f[t]];
    assert |one| == f[t];
    assert bag[t] == f[t];
    SmallerBag(one, bag);
  }

  // ---------------------------------------------------------------- acceptance

  ghost predicate AcceptedDoc(d: Doc, root: Root, dirs: set<string>) {
    && d.path != "" && d.contentLength >= 0 && d.pathLength >= 0
    && !Excluded(d.path, dirs) && root.within(d.path)
    && ValidTF(d.contentTF, d.contentLength) && ValidTF(d.pathTF, d.pathLength)
  }

  ghost predicate IsSortedSet(names: seq<string>, s: set<string>) {
    Ascending(names) && forall n :: n in names <==> n in s
  }

  ghost predicate HeaderMatches(c: CacheData, root: Root, fp: Fingerprint, settings: Settings) {
    && c.schemaVersion == SCHEMA_VERSION && c.repoRoot == root.path
    && c.tokenizerVersion == TOKENIZER_VERSION && c.enumerationVersion == ENUMERATION_VERSION
    && IsSortedSet(c.excludeDirs, settings.excludeDirs) && c.fingerprint == fp
    && c.indexedFiles == |c.docs| && c.skippedFiles >= 0
    && c.indexedBytes >= 0 && c.indexedFiles <= settings.maxFiles && c.indexedBytes <= settings.maxTotalBytes
  }

  ghost predicate Matches(c: CacheData, root: Root, fp: Fingerprint, settings: Settings) {
    && HeaderMatches(c, root, fp, settings)
    && (forall i :: 0 <= i < |c.docs| ==> AcceptedDoc(c.docs[i], root, settings.excludeDirs))
    && forall i :: 0 < i < |c.docs| ==> Less(c.docs[i - 1].path, c.docs[i].path)
  }

  method SortedExcludeDirs(dirs: set<string>) returns (names: seq<string>)
    ensures IsSortedSet(names, dirs)
  {
    var found: seq<string> := [];
    var left := dirs;
    while left != {}
      invariant left <= dirs && Distinct(found) && forall n :: n in found <==> n in dirs - left
    {
      var n :| n in left;
      assert n !in found;
      found := found + [n];
      left := left - {n};
    }
    LessOrders();
    names := Sort(found, Less);
    SortedKeepsDistinct(found, names);
    SortedDistinctAscends(names);
    SameElements(names, found);
  }

  lemma SortedSetIsUnique(a: seq<string>, b: seq<string>, s: set<string>)
    requires IsSortedSet(a, s) && IsSortedSet(b, s)
    ensures a == b
  {
    var fp: Fingerprint := map p | p in s :: Missing;
    EnumerationIsUnique(a, b, fp);
  }

  method HeaderMatchesRepository(c: CacheData, root: Root, fp: Fingerprint, settings: Settings) returns (ok: bool)
    ensures ok <==> HeaderMatches(c, root, fp, settings)
  {
    var names := SortedExcludeDirs(settings.excludeDirs);
    if IsSortedSet(c.excludeDirs, settings.excludeDirs) {
      SortedSetIsUnique(c.excludeDirs, names, settings.excludeDirs);
    }
    if c.schemaVersion != SCHEMA_VERSION || c.repoRoot != root.path { return false; }
    if c.tokenizerVersion != TOKENIZER_VERSION || c.enumerationVersion != ENUMERATION_VERSION { return false; }
    if c.excludeDirs != names { return false; }
    if c.fingerprint != fp { return false; }
    if c.indexedFiles != |c.docs| || c.indexedFiles < 0 || c.skippedFiles < 0 { return false; }
    return !(c.indexedBytes < 0 || c.indexedFiles > settings.maxFiles || c.indexedBytes > settings.maxTotalBytes);
  }

  method DocAccepted(d: Doc, root: Root, dirs: set<string>) returns (ok: bool)
    ensures ok <==> AcceptedDoc(d, root, dirs)
  {
    if d.path == "" { return false; }
    if d.contentLength < 0 || d.pathLength < 0 { return false; }
    var excluded := ExcludedPath(d.path, dirs);
    if excluded { return false; }
    if !root.within(d.path) { return false; }
    var content := ValidTermFrequencies(d.contentTF, d.contentLength);
    if !content { return false; }
    ok := ValidTermFrequencies(d.pathTF, d.pathLength);
  }

  method CacheMatchesRepository(c: CacheData, root: Root, fp: Fingerprint, settings: Settings) returns (ok: bool)
    ensures ok <==> Matches(c, root, fp, settings)
  {
    ok := HeaderMatchesRepository(c, root, fp, settings);
    if !ok { return; }
    for i := 0 to |c.docs|
      invariant forall k :: 0 <= k < i ==> AcceptedDoc(c.docs[k], root, settings.excludeDirs)
      invariant forall k :: 0 < k < i ==> Less(c.docs[k - 1].path, c.docs[k].path)
    {
      var fine := DocAccepted(c.docs[i], root, settings.excludeDirs);
      if !fine { return false; }
      if i > 0 && !Less(c.docs[i - 1].path, c.docs[i].path) { return false; }
    }
  }

  /** The index in a cache file, if it is about this very state of this repository and within limits. */
  method LoadIndex(settings: Settings, file: Option<CacheData>, root: Root, fp: Fingerprint)
    returns (index: Option<BuiltIndex>)
    ensures index.Some? <==> !settings.cacheDisabled && file.Some? && Matches(file.value, root, fp, settings)
    ensures index.Some? ==> index.value == Stored(file.value)
  {
    if settings.cacheDisabled || file == None { return None; }
    var ok := CacheMatchesRepository(file.value, root, fp, settings);
    return if ok then Some(Stored(file.value)) else None;
  }

  function Stored(c: CacheData): BuiltIndex {
    BuiltIndex(c.docs, c.indexedFiles, c.indexedBytes, c.skippedFiles)
  }

  predicate DocBefore(x: Doc, y: Doc) {
    Less(x.path, y.path)
  }

  /** What is written for an index: its documents sorted by path. */
  method CacheFor(settings: Settings, root: Root, fp: Fingerprint, index: BuiltIndex) returns (c: CacheData)
    ensures Sorted(c.docs, DocBefore) && multiset(c.docs) == multiset(index.docs)
    ensures c == CacheData(SCHEMA_VERSION, root.path, TOKENIZER_VERSION, ENUMERATION_VERSION,
      c.excludeDirs, fp, |index.docs|, index.indexedBytes, index.skipped, c.docs)
    ensures IsSortedSet(c.excludeDirs, settings.excludeDirs)
  {
    var names := SortedExcludeDirs(settings.excludeDirs);
    DocBeforeOrders();
    var docs := Sort(index.docs, DocBefore);
    assert |docs| == |multiset(docs)| == |multiset(index.docs)| == |index.docs|;
    c := CacheData(SCHEMA_VERSION, root.path, TOKENIZER_VERSION, ENUMERATION_VERSION, names, fp,
      |docs|, index.indexedBytes, index.skipped, docs);
  }

  lemma DocBeforeOrders()
    ensures Orders(DocBefore)
  {
    LessOrders();
    forall x, y, z | !DocBefore(x, y) && !DocBefore(y, z) ensures !DocBefore(x, z) {
      assert !Less(x.path, y.path) && !Less(y.path, z.path);
    }
  }

  // ---------------------------------------------------------------- round trip

  /** An index as the rebuild leaves it is accepted back: its documents are valid and in order. */
  ghost predicate Storable(index: BuiltIndex, root: Root, settings: Settings) {
    && index.indexed == |index.docs| && index.skipped >= 0 && index.indexedBytes >= 0
    && (forall i :: 0 <= i < |index.docs| ==> AcceptedDoc(index.docs[i], root, settings.excludeDirs))
    && forall i, j :: 0 <= i < j < |index.docs| ==> Less(index.docs[i].path, index.docs[j].path)
  }

  /** Storing an index and loading it for the same state gives it back unchanged, whatever the limits were
      when it was stored, exactly when it fits the limits now. */
  lemma StoredComesBack(index: BuiltIndex, c: CacheData, root: Root, fp: Fingerprint, stored: Settings, now: Settings)
    requires Storable(index, root, now) && stored.excludeDirs == now.excludeDirs
    requires Sorted(c.docs, DocBefore) && multiset(c.docs) == multiset(index.docs)
    requires c == CacheData(SCHEMA_VERSION, root.path, TOKENIZER_VERSION, ENUMERATION_VERSION,
      c.excludeDirs, fp, |index.docs|, index.indexedBytes, index.skipped, c.docs)
    requires IsSortedSet(c.excludeDirs, stored.excludeDirs)
    ensures Stored(c) == index
    ensures Matches(c, root, fp, now) <==> index.indexed <= now.maxFiles && index.indexedBytes <= now.maxTotalBytes
  {
    SortingKeeps(index.docs, c.docs);
  }

  /** Documents in ascending order are sorted already. */
  lemma SortingKeeps(docs: seq<Doc>, sorted: seq<Doc>)
    requires forall i, j :: 0 <= i < j < |docs| ==> Less(docs[i].path, docs[j].path)
    requires Sorted(sorted, DocBefore) && multiset(sorted) == multiset(docs)
    ensures sorted == docs
  {
    LessOrders();
    forall x, y | x in docs && y in docs && x != y ensures DocBefore(x, y) || DocBefore(y, x) {
      var i :| 0 <= i < |docs| && docs[i] == x;
      var j :| 0 <= j < |docs| && docs[j] == y;
      assert i < j || j < i;
    }
    SortedIsUnique(docs, sorted, DocBefore);
  }

  /** Any accepted cache, whoever wrote it, can be ranked without dividing by zero. */
  lemma AcceptedCanBeRanked(c: CacheData, root: Root, fp: Fingerprint, settings: Settings)
    requires Matches(c, root, fp, settings)
    ensures Ranked(c.docs)
  {
    forall i | 0 <= i < |c.docs| ensures Consistent(c.docs[i], Content) && Consistent(c.docs[i], Path) {
      var d := c.docs[i];
      assert AcceptedDoc(d, root, settings.excludeDirs);
      forall t | t in d.contentTF ensures 0 < d.contentTF[t] <= d.contentLength {
        ValidIsBounded(d.contentTF, d.contentLength, t);
      }
      forall t | t in d.pathTF ensures 0 < d.pathTF[t] <= d.pathLength { ValidIsBounded(d.pathTF, d.pathLength, t); }
    }
  }
}
