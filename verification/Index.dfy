/** The search index: enumeration, rebuild, and the validated cache
    (glm-worker/internal/reposearch/enumerate.go, document.go, cache.go). */
module Index {
  import opened Text
  import opened Sorting
  import opened Tokenizer
  import opened Ranking

  const SCHEMA_VERSION := 2
  const TOKENIZER_VERSION := 1
  const ENUMERATION_VERSION := 1

  const REGULAR := "100644"
  const EXECUTABLE := "100755"

  /** One line of git's index listing. */
  datatype Tracked = Tracked(mode: string, path: string)

  /** How a file appears to the search: missing, skipped for its kind, size or bytes, readable, or not. */
  datatype FileState = Missing | Skipped | Readable(content: string, bytes: nat) | Unreadable

  datatype Corpus = Corpus(tracked: seq<Tracked>, untracked: seq<string>, files: map<string, FileState>)

  function FileAt(corpus: Corpus, path: string): FileState {
    if path in corpus.files then corpus.files[path] else Missing
  }

  datatype Settings = Settings(
    cacheDisabled: bool, limit: nat, maxFiles: nat, maxTotalBytes: nat, pathWeight: real, excludeDirs: set<string>)

  // ---------------------------------------------------------------- which files

  /** A directory on the way to the file is excluded; the file's own name does not count. */
  predicate Excluded(path: string, dirs: set<string>) {
    var parts := Split(path, '/');
    exists i :: 0 <= i < |parts| - 1 && parts[i] in dirs
  }

  /** The name is a directory on the way: between the start or a slash, and a slash. */
  predicate OnTheWay(path: string, before: string, name: string, rest: string) {
    && path == before + name + ['/'] + rest && '/' !in name
    && (before == "" || before[|before| - 1] == '/')
  }

  /** Excluded are exactly the paths with such a directory on the way. */
  lemma ExcludedExactly(path: string, dirs: set<string>)
    ensures Excluded(path, dirs) <==>
              exists before: string, name: string, rest: string :: name in dirs && OnTheWay(path, before, name, rest)
  {
    var parts := Split(path, '/');
    if i :| 0 <= i < |parts| - 1 && parts[i] in dirs {
      var before, rest := DirectoryAt(path, i);
    }
    if before: string, name: string, rest: string :| name in dirs && OnTheWay(path, before, name, rest) {
      DirectoryIsPart(path, before, name, rest);
    }
  }

  lemma DirectoryAt(path: string, i: nat) returns (before: string, rest: string)
    requires i < |Split(path, '/')| - 1
    ensures OnTheWay(path, before, Split(path, '/')[i], rest)
  {
    var parts := Split(path, '/');
    JoinSplit(path, '/');
    rest := Join(parts[i + 1..], '/');
    assert parts[i..] == [parts[i]] + parts[i + 1..];
    JoinConcat([parts[i]], parts[i + 1..], '/');
    if i == 0 {
      before := "";
      assert parts[i..] == parts;
    } else {
      before := Join(parts[..i], '/') + ['/'];
      assert parts == parts[..i] + parts[i..];
      JoinConcat(parts[..i], parts[i..], '/');
    }
  }

  lemma DirectoryIsPart(path: string, before: string, name: string, rest: string)
    requires OnTheWay(path, before, name, rest)
    ensures exists i :: 0 <= i < |Split(path, '/')| - 1 && Split(path, '/')[i] == name
  {
    SplitAt(name, rest, '/');
    SplitPrepend(name, rest, '/');
    if before != "" {
      var outer := before[..|before| - 1];
      assert path == outer + ['/'] + (name + ['/'] + rest);
      SplitAt(outer, name + ['/'] + rest, '/');
      assert Split(path, '/')[|Split(outer, '/')|] == name;
    } else {
      assert path == name + ['/'] + rest;
      assert Split(path, '/')[0] == name;
    }
  }

  method ExcludedPath(path: string, dirs: set<string>) returns (excluded: bool)
    ensures excluded <==> Excluded(path, dirs)
  {
    var parts := Split(path, '/');
    for i := 0 to |parts| - 1
      invariant forall k :: 0 <= k < i ==> parts[k] !in dirs
    {
      if parts[i] in dirs { return true; }
    }
    return false;
  }

  predicate RegularMode(mode: string) {
    mode == REGULAR || mode == EXECUTABLE
  }

  predicate Listed(corpus: Corpus, path: string) {
    || (exists i :: 0 <= i < |corpus.tracked| && corpus.tracked[i].path == path && RegularMode(corpus.tracked[i].mode))
    || (path in corpus.untracked && !DirectoryEntry(path))
  }

  /** Nested repositories are listed with a trailing slash. */
  predicate DirectoryEntry(path: string) {
    path != "" && path[|path| - 1] == '/'
  }

  predicate Wanted(corpus: Corpus, dirs: set<string>, path: string) {
    path != "" && Listed(corpus, path) && !Excluded(path, dirs)
  }

  /** What identifies the state of the searched files; digests of it are taken to be injective. */
  type Fingerprint = map<string, FileState>

  function FingerprintOf(corpus: Corpus, dirs: set<string>): Fingerprint {
    map p | p in (set i | 0 <= i < |corpus.tracked| :: corpus.tracked[i].path) + (set q | q in corpus.untracked) &&
      Wanted(corpus, dirs, p) ::
      FileAt(corpus, p)
  }

  lemma FingerprintCovers(corpus: Corpus, dirs: set<string>, path: string)
    ensures path in FingerprintOf(corpus, dirs) <==> Wanted(corpus, dirs, path)
    ensures Wanted(corpus, dirs, path) ==> FingerprintOf(corpus, dirs)[path] == FileAt(corpus, path)
  {
  }

  method TrackedPaths(corpus: Corpus) returns (paths: seq<string>)
    ensures forall p :: p in paths <==>
      exists i :: 0 <= i < |corpus.tracked| && corpus.tracked[i].path == p && RegularMode(corpus.tracked[i].mode)
  {
    paths := [];
    for n := 0 to |corpus.tracked|
      invariant forall p :: p in paths <==>
        exists i :: 0 <= i < n && corpus.tracked[i].path == p && RegularMode(corpus.tracked[i].mode)
    {
      var entry := corpus.tracked[n];
      if RegularMode(entry.mode) && entry.path !in paths {
        paths := paths + [entry.path];
      }
    }
  }

  method UntrackedPaths(corpus: Corpus) returns (paths: seq<string>)
    ensures forall p :: p in paths <==> p in corpus.untracked && p != "" && !DirectoryEntry(p)
  {
    paths := [];
    for n := 0 to |corpus.untracked|
      invariant forall p :: p in paths <==> p in corpus.untracked[..n] && p != "" && !DirectoryEntry(p)
    {
      if corpus.untracked[n] != "" && !DirectoryEntry(corpus.untracked[n]) {
        paths := paths + [corpus.untracked[n]];
      }
    }
    assert corpus.untracked[..|corpus.untracked|] == corpus.untracked;
  }

  /** Add the wanted ones of some listed paths, each once. */
  method AddPaths(listed: seq<string>, dirs: set<string>, paths: seq<string>) returns (added: seq<string>)
    requires Distinct(paths)
    ensures Distinct(added)
    ensures forall p :: p in added <==> p in paths || (p in listed && p != "" && !Excluded(p, dirs))
  {
    added := paths;
    for n := 0 to |listed|
      invariant Distinct(added)
      invariant forall p :: p in added <==> p in paths || (p in listed[..n] && p != "" && !Excluded(p, dirs))
    {
      var excluded := ExcludedPath(listed[n], dirs);
      if listed[n] != "" && listed[n] !in added && !excluded {
        added := added + [listed[n]];
      }
    }
    assert listed[..|listed|] == listed;
  }

  /** The ascending list of a fingerprint's paths. */
  ghost predicate Enumerates(paths: seq<string>, fp: Fingerprint) {
    Ascending(paths) && forall p :: p in paths <==> p in fp
  }

  /** Every wanted file once, in ascending order. */
  method EnumerateFiles(corpus: Corpus, dirs: set<string>) returns (paths: seq<string>)
    ensures Enumerates(paths, FingerprintOf(corpus, dirs))
  {
    var tracked := TrackedPaths(corpus);
    var untracked := UntrackedPaths(corpus);
    var found := AddPaths(tracked, dirs, []);
    found := AddPaths(untracked, dirs, found);
    assert forall p :: p in found <==> Wanted(corpus, dirs, p);
    LessOrders();
    paths := Sort(found, Less);
    SortedKeepsDistinct(found, paths);
    SortedDistinctAscends(paths);
    SameElements(paths, found);
    forall p ensures p in paths <==> p in FingerprintOf(corpus, dirs) {
      FingerprintCovers(corpus, dirs, p);
    }
  }

  lemma EnumerationIsUnique(a: seq<string>, b: seq<string>, fp: Fingerprint)
    requires Enumerates(a, fp) && Enumerates(b, fp)
    ensures a == b
  {
    AscendingIsSorted(a);
    AscendingIsSorted(b);
    LessOrders();
    forall p ensures multiset(a)[p] == multiset(b)[p] {
      AscendingCounts(a, p);
      AscendingCounts(b, p);
    }
    assert multiset(a) == multiset(b);
    SortedIsUnique(a, b, Less);
  }

  lemma AscendingCounts(s: seq<string>, p: string)
    requires Ascending(s)
    ensures multiset(s)[p] == if p in s then 1 else 0
  {
    forall i, j | 0 <= i < j < |s| ensures s[i] != s[j] {
      LessIsAsymmetric(s[i], s[j]);
    }
    DistinctCountsOne(s, p);
    assert p in s <==> multiset(s)[p] > 0;
  }

  // ---------------------------------------------------------------- what an index holds

  datatype BuiltIndex = BuiltIndex(docs: seq<Doc>, indexed: int, indexedBytes: int, skipped: int)

  /** The statistics of one file. */
  ghost predicate DocOf(a: Alphabet, d: Doc, path: string, content: string) {
    && d.path == path
    && d.contentLength == |Tokens(a, content)| && Counts(d.contentTF, Tokens(a, content))
    && d.pathLength == |Tokens(a, path)| && Counts(d.pathTF, Tokens(a, path))
  }

  /** The readable ones among paths, and what they hold in all. */
  function ReadablePaths(paths: seq<string>, fp: Fingerprint): seq<string>
    requires forall p :: p in paths ==> p in fp
  {
    if paths == [] then []
    else ReadablePaths(paths[..|paths| - 1], fp) + if fp[paths[|paths| - 1]].Readable? then [paths[|paths| - 1]] else []
  }

  function ReadBytes(paths: seq<string>, fp: Fingerprint): nat
    requires forall p :: p in paths ==> p in fp
  {
    if paths == [] then 0
    else
      ReadBytes(paths[..|paths| - 1], fp)
      + (if fp[paths[|paths| - 1]].Readable? then fp[paths[|paths| - 1]].bytes else 0)
  }

  /** An index of exactly the files behind a fingerprint, in the order of paths. */
  ghost predicate IndexOver(a: Alphabet, index: BuiltIndex, paths: seq<string>, fp: Fingerprint)
    requires forall p :: p in paths ==> p in fp
  {
    var readable := ReadablePaths(paths, fp);
    && |index.docs| == |readable| == index.indexed
    && (forall i :: 0 <= i < |readable| ==>
          && readable[i] in fp && fp[readable[i]].Readable?
          && DocOf(a, index.docs[i], readable[i], fp[readable[i]].content))
    && index.indexedBytes == ReadBytes(paths, fp)
    && index.skipped == |paths| - |readable|
  }

  ghost predicate IndexOf(a: Alphabet, index: BuiltIndex, fp: Fingerprint) {
    exists paths :: Enumerates(paths, fp) && IndexOver(a, index, paths, fp)
  }

  lemma CountsDetermine(f: map<string, int>, g: map<string, int>, tokens: seq<string>)
    requires Counts(f, tokens) && Counts(g, tokens)
    ensures f == g
  {
  }

  /** A fingerprint has one index. */
  lemma IndexIsUnique(a: Alphabet, x: BuiltIndex, y: BuiltIndex, fp: Fingerprint)
    requires IndexOf(a, x, fp) && IndexOf(a, y, fp)
    ensures x == y
  {
    var p :| Enumerates(p, fp) && IndexOver(a, x, p, fp);
    var q :| Enumerates(q, fp) && IndexOver(a, y, q, fp);
    EnumerationIsUnique(p, q, fp);
    var readable := ReadablePaths(p, fp);
    forall i | 0 <= i < |readable| ensures x.docs[i] == y.docs[i] {
      CountsDetermine(x.docs[i].contentTF, y.docs[i].contentTF, Tokens(a, fp[readable[i]].content));
      CountsDetermine(x.docs[i].pathTF, y.docs[i].pathTF, Tokens(a, readable[i]));
    }
  }
}
