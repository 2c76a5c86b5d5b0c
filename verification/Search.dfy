/** Searching a repository that others may change meanwhile
    (glm-worker/internal/reposearch/reposearch.go, document.go, score.go). */
module Search {
  import opened Text
  import opened Sorting
  import opened Tokenizer
  import opened Ranking
  import opened Snippets
  import opened Index
  import opened Cache

  const MAX_SEARCH_ATTEMPTS := 2

  datatype CacheStatus = Hit | Rebuilt | WriteWarning

  datatype Report = Report(results: seq<Result>, status: CacheStatus, indexed: int, skipped: int)

  datatype Build = Built(index: BuiltIndex) | LimitExceeded | BuildFailed

  datatype Attempt = Found(report: Report) | Raced | AttemptLimit | AttemptFailed

  datatype Answer = Answered(report: Report) | EmptyQuery | IndexRace | IndexLimit | Failed

  /** A search within limits has only these ways to read the files behind a fingerprint. */
  ghost predicate Buildable(paths: seq<string>, fp: Fingerprint, root: Root, settings: Settings)
    requires forall p :: p in paths ==> p in fp
  {
    && |paths| <= settings.maxFiles && ReadBytes(paths, fp) <= settings.maxTotalBytes
    && forall p :: p in paths ==> root.within(p) && !fp[p].Unreadable?
  }

  /** The snippet of a result: of the file as it is, or none when it cannot be shown. */
  ghost predicate Snipped(a: Alphabet, corpus: Corpus, root: Root, query: seq<string>, bare: Result, r: Result) {
    && r == bare.(line := r.line, snippet := r.snippet)
    && if root.within(bare.path) && FileAt(corpus, bare.path).Readable?
       then Shows(a, FileAt(corpus, bare.path).content, query, r.line, r.snippet)
       else r.line == 0 && r.snippet == ""
  }

  ghost predicate AllSnipped(a: Alphabet, corpus: Corpus, root: Root, query: seq<string>,
        top: seq<Result>, results: seq<Result>) {
    |results| == |top| && forall i :: 0 <= i < |top| ==> Snipped(a, corpus, root, query, top[i], results[i])
  }

  /** What a report says about a state of the repository. */
  ghost predicate ReportOf(a: Alphabet, ln: real -> real, corpus: Corpus, root: Root,
        query: seq<string>, settings: Settings,
                           report: Report, index: BuiltIndex, top: seq<Result>)
    requires Ranking.Ranked(index.docs)
  {
    && IndexOf(a, index, FingerprintOf(corpus, settings.excludeDirs))
    && IsTop(top, Qualifying(ln, index.docs, |index.docs|, query, settings.pathWeight), settings.limit)
    && AllSnipped(a, corpus, root, query, top, report.results)
    && report.indexed == index.indexed && report.skipped == index.skipped
  }

  class Searcher {
    const alphabet: Alphabet
    const ln: real -> real
    const root: Root
    var corpus: Corpus
    var changes: nat
    var cache: Option<CacheData>
    ghost var failures: nat // what could not be observed, and cancellations; noted where they happen and nowhere else

    constructor (alphabet: Alphabet, ln: real -> real, root: Root, corpus: Corpus)
      ensures this.alphabet == alphabet && this.ln == ln && this.root == root && this.corpus == corpus
      ensures Sound() && cache == None
    {
      this.alphabet, this.ln, this.root, this.corpus, changes, cache := alphabet, ln, root, corpus, 0, None;
      failures := 0;
    }

    /** What the cache file holds is the index of the state it names. */
    ghost predicate Sound()
      reads `cache
    {
      cache.Some? ==> IndexOf(alphabet, Stored(cache.value), cache.value.fingerprint)
    }

    /** Anyone may change the repository at any time. */
    method Drift()
      modifies `corpus, `changes
      ensures changes >= old(changes) && (changes == old(changes) ==> corpus == old(corpus))
    {
      var moved: bool := *;
      if moved {
        corpus := *;
        changes := changes + 1;
      }
    }

    method ReadSearchableFile(path: string) returns (state: FileState)
      modifies `corpus, `changes, `failures
      ensures failures == old(failures) + if state.Unreadable? then 1 else 0
      ensures changes >= old(changes) && (changes == old(changes) ==> corpus == old(corpus))
      ensures state == FileAt(corpus, path)
    {
      Drift();
      state := FileAt(corpus, path);
      failures := failures + if state.Unreadable? then 1 else 0;
    }

    /** Whether the search was called off. */
    method Cancelled() returns (cancelled: bool)
      modifies `failures
      ensures failures == old(failures) + if cancelled then 1 else 0
    {
      cancelled := *;
      failures := failures + if cancelled then 1 else 0;
    }

    method ComputeFingerprint(dirs: set<string>) returns (fp: Option<Fingerprint>)
      modifies `corpus, `changes, `failures
      ensures failures == old(failures) + if fp == None then 1 else 0
      ensures changes >= old(changes) && (changes == old(changes) ==> corpus == old(corpus))
      ensures fp.Some? ==> fp.value == FingerprintOf(corpus, dirs)
    {
      Drift();
      var ok: bool := *;
      fp := if ok then Some(FingerprintOf(corpus, dirs)) else None;
      failures := failures + if ok then 0 else 1;
    }

    /** Equal fingerprints are taken to mean that nothing changed in between. */
    method FingerprintUnchanged(dirs: set<string>, before: Fingerprint, since: nat) returns (same: Option<bool>)
      requires changes >= since && (changes == since ==> FingerprintOf(corpus, dirs) == before)
      modifies `corpus, `changes, `failures
      ensures failures == old(failures) + if same == None then 1 else 0
      ensures changes >= old(changes) && (changes == old(changes) ==> corpus == old(corpus))
      ensures same.Some? && same.value ==> changes == since && FingerprintOf(corpus, dirs) == before
      ensures same.Some? && !same.value ==> changes > since
    {
      var now := ComputeFingerprint(dirs);
      same := if now == None then None else Some(now.value == before && changes == since);
    }

    // -------------------------------------------------------------- rebuild

    method MakeDoc(path: string, content: string) returns (d: Doc)
      ensures DocOf(alphabet, d, path, content)
      ensures ValidTF(d.contentTF, d.contentLength) && ValidTF(d.pathTF, d.pathLength)
    {
      var contentTokens := Tokenize(alphabet, content);
      var pathTokens := Tokenize(alphabet, path);
      var contentTF := TermFrequencies(contentTokens);
      var pathTF := TermFrequencies(pathTokens);
      CountedIsValid(contentTF, contentTokens);
      CountedIsValid(pathTF, pathTokens);
      d := Doc(path, |contentTokens|, |pathTokens|, contentTF, pathTF);
    }

    method ListFiles(dirs: set<string>) returns (paths: Option<seq<string>>)
      modifies `corpus, `changes, `failures
      ensures failures == old(failures) + if paths == None then 1 else 0
      ensures changes >= old(changes) && (changes == old(changes) ==> corpus == old(corpus))
      ensures paths.Some? ==> Enumerates(paths.value, FingerprintOf(corpus, dirs))
      ensures paths.Some? ==> forall p :: p in paths.value ==> p != "" && !Excluded(p, dirs)
    {
      Drift();
      var ok: bool := *;
      if !ok {
        failures := failures + 1;
        return None;
      }
      var listed := EnumerateFiles(corpus, dirs);
      forall p | p in listed ensures p != "" && !Excluded(p, dirs) {
        FingerprintCovers(corpus, dirs, p);
      }
      paths := Some(listed);
    }

    /** What reading the first n paths has gathered, if nothing changed meanwhile. */
    ghost predicate Gathered(index: BuiltIndex, paths: seq<string>, n: nat, fp: Fingerprint)
      requires n <= |paths| && forall p :: p in paths ==> p in fp
    {
      && IndexOver(alphabet, index, paths[..n], fp)
      && forall p :: p in paths[..n] ==> root.within(p) && !fp[p].Unreadable?
    }

    /** What holds of it in any case. */
    ghost predicate Partial(index: BuiltIndex, paths: seq<string>, n: nat, settings: Settings)
      requires n <= |paths|
    {
      && Storable(index, root, settings)
      && forall i :: 0 <= i < |index.docs| ==> index.docs[i].path in paths[..n]
    }

    lemma PartialGrows(index: BuiltIndex, paths: seq<string>, n: nat, settings: Settings, d: Doc, bytes: nat)
      requires Ascending(paths) && n < |paths| && Partial(index, paths, n, settings)
      requires d.path == paths[n] && AcceptedDoc(d, root, settings.excludeDirs)
      ensures Partial(BuiltIndex(index.docs + [d], index.indexed + 1, index.indexedBytes + bytes, index.skipped),
        paths, n + 1, settings)
    {
      var docs := index.docs + [d];
      forall i, j | 0 <= i < j < |docs| ensures Less(docs[i].path, docs[j].path) {
        if j == |index.docs| {
          assert docs[i].path in paths[..n];
          var k :| 0 <= k < n && paths[..n][k] == docs[i].path;
          assert Less(paths[k], paths[n]);
        }
      }
      assert paths[..n + 1] == paths[..n] + [paths[n]];
    }

    lemma PartialSkips(index: BuiltIndex, paths: seq<string>, n: nat, settings: Settings)
      requires n < |paths| && Partial(index, paths, n, settings)
      ensures Partial(index.(skipped := index.skipped + 1), paths, n + 1, settings)
    {
      assert paths[..n + 1] == paths[..n] + [paths[n]];
    }

    /** One more readable file. */
    lemma GatherReadable(index: BuiltIndex, paths: seq<string>, n: nat, fp: Fingerprint, d: Doc)
      requires n < |paths| && (forall p :: p in paths ==> p in fp) && Gathered(index, paths, n, fp)
      requires fp[paths[n]].Readable? && root.within(paths[n]) && DocOf(alphabet, d, paths[n], fp[paths[n]].content)
      ensures Gathered(BuiltIndex(index.docs + [d], index.indexed + 1, index.indexedBytes +
        fp[paths[n]].bytes, index.skipped), paths, n + 1, fp)
    {
      assert paths[..n + 1][..n] == paths[..n] && paths[..n + 1] == paths[..n] + [paths[n]];
      assert ReadablePaths(paths[..n + 1], fp) == ReadablePaths(paths[..n], fp) + [paths[n]];
    }

    /** One more file that is missing or of no searchable kind. */
    lemma GatherSkipped(index: BuiltIndex, paths: seq<string>, n: nat, fp: Fingerprint)
      requires n < |paths| && (forall p :: p in paths ==> p in fp) && Gathered(index, paths, n, fp)
      requires !fp[paths[n]].Readable? && !fp[paths[n]].Unreadable? && root.within(paths[n])
      ensures Gathered(index.(skipped := index.skipped + 1), paths, n + 1, fp)
    {
      assert paths[..n + 1][..n] == paths[..n] && paths[..n + 1] == paths[..n] + [paths[n]];
      assert ReadablePaths(paths[..n + 1], fp) == ReadablePaths(paths[..n], fp);
    }

    /** A build fails only when something could not be observed, or a file lies outside the root. */
    twostate predicate Noted(r: Build)
      reads this
    {
      && failures >= old(failures) && (!r.BuildFailed? ==> failures == old(failures))
      && (r.BuildFailed? ==> failures > old(failures) || Outside())
    }

    ghost predicate Outside() {
      exists p: string :: !root.within(p)
    }

    /** Read one file into the index. */
    method IndexFile(index: BuiltIndex, paths: seq<string>, n: nat, settings: Settings,
          ghost fp: Fingerprint, ghost since: nat)
      returns (r: Build)
      requires Ascending(paths) && n < |paths| && Partial(index, paths, n, settings) && paths[n] != ""
      requires !Excluded(paths[n], settings.excludeDirs)
      requires forall p :: p in paths ==> p in fp
      requires changes >= since
      requires (changes == since ==> FingerprintOf(corpus, settings.excludeDirs) == fp && Gathered(index, paths, n, fp))
      modifies `corpus, `changes, `failures
      ensures changes >= old(changes) && (changes == old(changes) ==> corpus == old(corpus))
      ensures r.Built? ==> Partial(r.index, paths, n + 1, settings)
      ensures changes == since && r.Built? ==> Gathered(r.index, paths, n + 1, fp)
      ensures changes == since && !r.Built? ==> !Buildable(paths, fp, root, settings)
      ensures r.Built? && index.indexedBytes <= settings.maxTotalBytes ==>
        r.index.indexedBytes <= settings.maxTotalBytes
      ensures Noted(r)
    {
      if !root.within(paths[n]) {
        assert Outside();
        return BuildFailed;
      }
      var state := ReadSearchableFile(paths[n]);
      if changes == since { FingerprintCovers(corpus, settings.excludeDirs, paths[n]); }
      match state {
        case Unreadable => return BuildFailed;
        case Missing =>
          PartialSkips(index, paths, n, settings);
          if changes == since { GatherSkipped(index, paths, n, fp); }
          return Built(index.(skipped := index.skipped + 1));
        case Skipped =>
          PartialSkips(index, paths, n, settings);
          if changes == since { GatherSkipped(index, paths, n, fp); }
          return Built(index.(skipped := index.skipped + 1));
        case Readable(content, bytes) =>
          r := AddFile(index, paths, n, settings, content, bytes, fp, changes == since);
      }
    }

    method AddFile(index: BuiltIndex, paths: seq<string>, n: nat, settings: Settings, content: string,
          bytes: nat, ghost fp: Fingerprint, ghost same: bool)
      returns (r: Build)
      requires Ascending(paths) && n < |paths| && Partial(index, paths, n, settings)
      requires paths[n] != "" && !Excluded(paths[n], settings.excludeDirs) && root.within(paths[n])
      requires forall p :: p in paths ==> p in fp
      requires same ==> Gathered(index, paths, n, fp) && fp[paths[n]] == Readable(content, bytes)
      ensures r.Built? ==> Partial(r.index, paths, n + 1, settings) && r.index.indexedBytes <= settings.maxTotalBytes
      ensures same && r.Built? ==> Gathered(r.index, paths, n + 1, fp)
      ensures same && !r.Built? ==> !Buildable(paths, fp, root, settings)
      ensures !r.BuildFailed?
    {
      if index.indexedBytes + bytes > settings.maxTotalBytes {
        if same { BytesGrow(paths, n, fp); }
        return LimitExceeded;
      }
      var d := MakeDoc(paths[n], content);
      PartialGrows(index, paths, n, settings, d, bytes);
      if same { GatherReadable(index, paths, n, fp, d); }
      return Built(BuiltIndex(index.docs + [d], index.indexed + 1, index.indexedBytes + bytes, index.skipped));
    }

    lemma BytesGrow(paths: seq<string>, n: nat, fp: Fingerprint)
      requires n < |paths| && forall p :: p in paths ==> p in fp
      ensures ReadBytes(paths[..n], fp) +
        (if fp[paths[n]].Readable? then fp[paths[n]].bytes else 0) <= ReadBytes(paths, fp)
      decreases |paths|
    {
      if n == |paths| - 1 {
      } else {
        var rest := paths[..|paths| - 1];
        BytesGrow(rest, n, fp);
        assert rest[..n] == paths[..n];
      }
    }

    /** Index every wanted file; too many, too large or unreadable ones yield no index at all. If nothing
        changed meanwhile the index is exact, and it exists exactly when the files can be read in full. */
    method RebuildIndex(settings: Settings) returns (r: Build, ghost paths: Option<seq<string>>)
      modifies `corpus, `changes, `failures
      ensures changes >= old(changes) && (changes == old(changes) ==> corpus == old(corpus))
      ensures r.Built? ==> Storable(r.index, root, settings) && paths.Some?
      ensures changes == old(changes) && paths.Some? ==>
        Enumerates(paths.value, FingerprintOf(corpus, settings.excludeDirs))
      ensures changes == old(changes) && paths.Some? ==>
        (r.Built? <==> Buildable(paths.value, FingerprintOf(corpus, settings.excludeDirs), root, settings))
      ensures changes == old(changes) && r.Built? ==>
        IndexOf(alphabet, r.index, FingerprintOf(corpus, settings.excludeDirs))
      ensures Noted(r)
      ensures failures == old(failures) ==> paths.Some?
    {
      var listed := ListFiles(settings.excludeDirs);
      paths := listed;
      if listed == None { return BuildFailed, paths; }
      if |listed.value| > settings.maxFiles { return LimitExceeded, paths; }
      ghost var since, fp := changes, FingerprintOf(corpus, settings.excludeDirs);
      r := IndexFiles(listed.value, settings, fp, since);
    }

    method IndexFiles(paths: seq<string>, settings: Settings, ghost fp: Fingerprint, ghost since: nat)
      returns (r: Build)
      requires Enumerates(paths, fp) && |paths| <= settings.maxFiles && changes == since
      requires forall p :: p in paths ==> p != "" && !Excluded(p, settings.excludeDirs)
      requires FingerprintOf(corpus, settings.excludeDirs) == fp
      modifies `corpus, `changes, `failures
      ensures changes >= since && (changes == since ==> corpus == old(corpus))
      ensures r.Built? ==> Storable(r.index, root, settings)
      ensures changes == since ==> (r.Built? <==> Buildable(paths, fp, root, settings))
      ensures changes == since && r.Built? ==> IndexOf(alphabet, r.index, fp)
      ensures Noted(r)
    {
      var index := BuiltIndex([], 0, 0, 0);
      for n := 0 to |paths|
        invariant changes >= since && (changes == since ==> corpus == old(corpus))
        invariant Partial(index, paths, n, settings) && index.indexedBytes <= settings.maxTotalBytes
        invariant failures == old(failures)
        invariant changes == since ==> Gathered(index, paths, n, fp)
      {
        assert paths[n] in paths;
        r := IndexFile(index, paths, n, settings, fp, since);
        if !r.Built? { return; }
        index := r.index;
      }
      if changes == since { AllGathered(index, paths, fp, settings); }
      r := Built(index);
    }

    lemma AllGathered(index: BuiltIndex, paths: seq<string>, fp: Fingerprint, settings: Settings)
      requires Enumerates(paths, fp) && |paths| <= settings.maxFiles
      requires Gathered(index, paths, |paths|, fp) && index.indexedBytes <= settings.maxTotalBytes
      ensures IndexOf(alphabet, index, fp) && Buildable(paths, fp, root, settings)
    {
      assert paths[..|paths|] == paths;
    }

    // -------------------------------------------------------------- one attempt

    /** Show each result's best line; a file that cannot be shown keeps an empty snippet. */
    method AttachSnippets(top: seq<Result>, query: seq<string>) returns (results: seq<Result>)
      requires forall i :: 0 <= i < |top| ==> top[i].line == 0 && top[i].snippet == ""
      modifies `corpus, `changes, `failures
      ensures changes >= old(changes) && (changes == old(changes) ==> corpus == old(corpus))
      ensures changes == old(changes) ==> AllSnipped(alphabet, corpus, root, query, top, results)
      ensures failures >= old(failures)
    {
      results := [];
      for n := 0 to |top|
        invariant changes >= old(changes) && (changes == old(changes) ==> corpus == old(corpus))
        invariant |results| == n && failures >= old(failures)
        invariant changes == old(changes) ==>
          forall i :: 0 <= i < n ==> Snipped(alphabet, corpus, root, query, top[i], results[i])
      {
        var r := AttachSnippet(top[n], query);
        results := results + [r];
      }
    }

    method AttachSnippet(bare: Result, query: seq<string>) returns (r: Result)
      requires bare.line == 0 && bare.snippet == ""
      modifies `corpus, `changes, `failures
      ensures changes >= old(changes) && (changes == old(changes) ==> corpus == old(corpus))
      ensures Snipped(alphabet, corpus, root, query, bare, r)
      ensures failures >= old(failures)
    {
      if !root.within(bare.path) { return bare; }
      var state := ReadSearchableFile(bare.path);
      if !state.Readable? { return bare; }
      var number, snippet := BestLine(alphabet, state.content, query);
      r := bare.(line := number, snippet := snippet);
    }

    /** The files behind a fingerprint cannot be indexed: they are too many, too large, or not readable. */
    ghost predicate Unbuildable(paths: seq<string>, fp: Fingerprint, settings: Settings) {
      Enumerates(paths, fp) && !Buildable(paths, fp, root, settings)
    }

    /** The index to search: the cached one if it is about this state, otherwise a new one. */
    method FindIndex(settings: Settings, fp: Fingerprint)
      returns (r: Build, hit: bool, ghost paths: Option<seq<string>>)
      requires Sound() && FingerprintOf(corpus, settings.excludeDirs) == fp
      modifies `corpus, `changes, `failures
      ensures changes >= old(changes) && (changes == old(changes) ==> corpus == old(corpus))
      ensures r.Built? ==> Ranking.Ranked(r.index.docs) && (!hit ==> Storable(r.index, root, settings))
      ensures r.Built? && changes == old(changes) ==> IndexOf(alphabet, r.index, fp)
      ensures hit ==> r.Built? && cache.Some? && Matches(cache.value, root, fp, settings)
      ensures hit ==> r.index == Stored(cache.value)
      ensures hit <==> !settings.cacheDisabled && cache.Some? && Matches(cache.value, root, fp, settings)
      ensures changes == old(changes) && !r.Built? && paths.Some? ==> Unbuildable(paths.value, fp, settings)
      ensures Noted(r)
      ensures !r.Built? && failures == old(failures) ==> paths.Some?
    {
      paths := None;
      var loaded := LoadIndex(settings, cache, root, fp);
      if loaded.Some? {
        AcceptedCanBeRanked(cache.value, root, fp, settings);
        return Built(loaded.value), true, paths;
      }
      hit := false;
      r, paths := RebuildIndex(settings);
      if r.Built? { StorableCanBeRanked(r.index, settings); }
    }

    lemma StorableCanBeRanked(index: BuiltIndex, settings: Settings)
      requires Storable(index, root, settings)
      ensures Ranking.Ranked(index.docs)
    {
      forall i | 0 <= i < |index.docs| ensures Consistent(index.docs[i], Content) && Consistent(index.docs[i], Path) {
        var d := index.docs[i];
        assert AcceptedDoc(d, root, settings.excludeDirs);
        forall t | t in d.contentTF ensures 0 < d.contentTF[t] <= d.contentLength {
          ValidIsBounded(d.contentTF, d.contentLength, t);
        }
        forall t | t in d.pathTF ensures 0 < d.pathTF[t] <= d.pathLength { ValidIsBounded(d.pathTF, d.pathLength, t); }
      }
    }

    /** Keep a new index for later searches, if that is wanted and works. */
    method WriteIndex(settings: Settings, fp: Fingerprint, index: BuiltIndex) returns (status: CacheStatus)
      requires Sound() && Storable(index, root, settings) && IndexOf(alphabet, index, fp)
      modifies `cache
      ensures Sound() && (status == Rebuilt || (status == WriteWarning && cache == old(cache)))
      ensures cache != old(cache) ==> cache.Some? && cache.value.fingerprint == fp && Stored(cache.value) == index
    {
      var ok: bool := *;
      if settings.cacheDisabled { return Rebuilt; }
      if !ok { return WriteWarning; }
      var data := CacheFor(settings, root, fp, index);
      StoredComesBack(index, data, root, fp, settings, settings);
      cache := Some(data);
      return Rebuilt;
    }

    /** One search of one state: the state is looked at before, after the index and after the snippets,
        and a change in between gives no result and writes nothing. */
    method AttemptSearch(query: seq<string>, settings: Settings)
      returns (r: Attempt, ghost index: BuiltIndex, ghost top: seq<Result>, ghost seen: bool)
      requires Sound()
      modifies this
      ensures Sound() && (!r.Found? ==> cache == old(cache))
      ensures r.Found? ==> Ranking.Ranked(index.docs)
      ensures r.Found? ==> ReportOf(alphabet, ln, corpus, root, query, settings, r.report, index, top)
      ensures r.Found? && r.report.status == Hit ==> cache == old(cache) && cache.Some? && index == Stored(cache.value)
      ensures changes >= old(changes) && (r.Raced? ==> changes > old(changes))
      ensures seen && changes == old(changes) && !r.Found? ==>
        exists paths :: Unbuildable(paths, FingerprintOf(corpus, settings.excludeDirs), settings)
      ensures failures >= old(failures) && (r.AttemptFailed? ==> failures > old(failures) || Outside())
      ensures failures == old(failures) ==> seen
    {
      index, top, seen := BuiltIndex([], 0, 0, 0), [], false;
      var before := ComputeFingerprint(settings.excludeDirs);
      if before == None { return AttemptFailed, index, top, seen; }
      var since := changes;
      ghost var paths;
      var build, hit;
      build, hit, paths := FindIndex(settings, before.value);
      if !build.Built? { return if build.LimitExceeded? then AttemptLimit else AttemptFailed, index, top, paths.Some?; }
      index := build.index;
      r, top, seen := ReportOn(query, settings, before.value, since, build.index, hit);
    }

    /** Rank, show and keep an index, as long as the state is still the one it is about. */
    method ReportOn(query: seq<string>, settings: Settings, before: Fingerprint, since: nat,
          index: BuiltIndex, hit: bool)
      returns (r: Attempt, ghost top: seq<Result>, ghost seen: bool)
      requires Sound() && Ranking.Ranked(index.docs) && changes >= since
      requires changes == since ==> FingerprintOf(corpus, settings.excludeDirs) == before
      requires changes == since ==> IndexOf(alphabet, index, before)
      requires if hit then cache.Some? && index == Stored(cache.value) else Storable(index, root, settings)
      modifies this
      ensures Sound() && (!r.Found? ==> cache == old(cache))
      ensures r.Found? ==> ReportOf(alphabet, ln, corpus, root, query, settings, r.report, index, top)
      ensures r.Found? && r.report.status == Hit ==> cache == old(cache) && hit
      ensures changes >= old(changes) && (r.Raced? ==> changes > since)
      ensures seen ==> r.Found? || r.Raced?
      ensures failures >= old(failures) && (r.AttemptFailed? ==> failures > old(failures)) && !r.AttemptLimit?
      ensures seen <==> !r.AttemptFailed?
    {
      top := [];
      var same := FingerprintUnchanged(settings.excludeDirs, before, since);
      if same == None || !same.value { return if same == None then AttemptFailed else Raced, top, same.Some?; }
      var best := RankDocuments(ln, index.docs, query, settings.limit, settings.pathWeight);
      top := best;
      BareResults(index.docs, query, settings, best);
      var results := AttachSnippets(best, query);
      same := FingerprintUnchanged(settings.excludeDirs, before, since);
      if same == None || !same.value { return if same == None then AttemptFailed else Raced, top, same.Some?; }
      var status := Hit;
      if !hit { status := WriteIndex(settings, before, index); }
      return Found(Report(results, status, index.indexed, index.skipped)), top, true;
    }

    lemma BareResults(docs: seq<Doc>, query: seq<string>, settings: Settings, top: seq<Result>)
      requires Ranking.Ranked(docs)
      requires IsTop(top, Qualifying(ln, docs, |docs|, query, settings.pathWeight), settings.limit)
      ensures forall i :: 0 <= i < |top| ==> top[i].line == 0 && top[i].snippet == ""
    {
      var qualifying := Qualifying(ln, docs, |docs|, query, settings.pathWeight);
      var all: seq<Result> :| Sorted(all, Before) && multiset(all) == multiset(qualifying) &&
        top == if |all| > settings.limit then all[..settings.limit] else all;
      SameElements(all, qualifying);
      forall i | 0 <= i < |top| ensures top[i].line == 0 && top[i].snippet == "" {
        assert top[i] == all[i] && all[i] in all;
        QualifyingIsAFilter(ln, docs, |docs|, query, settings.pathWeight, top[i]);
      }
    }

    ghost predicate CannotIndex(settings: Settings)
      reads `corpus
    {
      exists paths :: Unbuildable(paths, FingerprintOf(corpus, settings.excludeDirs), settings)
    }

    /** Search, and once more if the repository changed meanwhile; a second change is reported. */
    method Search(text: string, settings: Settings) returns (r: Answer, ghost index: BuiltIndex, ghost top: seq<Result>)
      requires Sound()
      modifies this
      ensures Sound() && (!r.Answered? ==> cache == old(cache))
      ensures r == EmptyQuery <==> Tokens(alphabet, text) == []
      ensures r.Answered? ==> Ranking.Ranked(index.docs)
      ensures r.Answered? ==>
        ReportOf(alphabet, ln, corpus, root, Tokens(alphabet, text), settings, r.report, index, top)
      ensures r == IndexRace ==> changes >= old(changes) + MAX_SEARCH_ATTEMPTS
      ensures r == Failed ==> failures > old(failures) || Outside()
      ensures changes == old(changes) && failures == old(failures) ==>
        r == EmptyQuery || r.Answered? || CannotIndex(settings)
    {
      index, top := BuiltIndex([], 0, 0, 0), [];
      var query := Tokenize(alphabet, text);
      if query == [] { return EmptyQuery, index, top; }
      for attempt := 0 to MAX_SEARCH_ATTEMPTS
        invariant Sound() && cache == old(cache) && changes >= old(changes) + attempt && failures >= old(failures)
        invariant changes == old(changes) ==> attempt == 0
      {
        var cancelled := Cancelled();
        if cancelled { return Failed, index, top; }
        var found;
        ghost var seen;
        found, index, top, seen := AttemptSearch(query, settings);
        match found {
          case Found(report) => return Answered(report), index, top;
          case AttemptLimit => return IndexLimit, index, top;
          case AttemptFailed => return Failed, index, top;
          case Raced =>
        }
      }
      return IndexRace, index, top;
    }
  }

  // ---------------------------------------------------------------- what reports agree on

  lemma SnippedIsUnique(a: Alphabet, corpus: Corpus, root: Root, query: seq<string>, bare: Result, r: Result, s: Result)
    requires Snipped(a, corpus, root, query, bare, r) && Snipped(a, corpus, root, query, bare, s)
    ensures r == s
  {
    if root.within(bare.path) && FileAt(corpus, bare.path).Readable? {
      ShowsIsUnique(a, FileAt(corpus, bare.path).content, query, r.line, r.snippet, s.line, s.snippet);
    }
  }

  /** A document of an index is that of its file. */
  lemma IndexedFile(a: Alphabet, corpus: Corpus, dirs: set<string>, index: BuiltIndex, i: nat)
    requires IndexOf(a, index, FingerprintOf(corpus, dirs)) && i < |index.docs|
    ensures FileAt(corpus, index.docs[i].path).Readable?
    ensures DocOf(a, index.docs[i], index.docs[i].path, FileAt(corpus, index.docs[i].path).content)
    ensures forall j :: 0 <= j < |index.docs| && j != i ==> index.docs[j].path != index.docs[i].path
  {
    var fp := FingerprintOf(corpus, dirs);
    var paths :| Enumerates(paths, fp) && IndexOver(a, index, paths, fp);
    var readable := ReadablePaths(paths, fp);
    ReadableAscends(paths, fp);
    FingerprintCovers(corpus, dirs, readable[i]);
    forall j | 0 <= j < |index.docs| && j != i ensures index.docs[j].path != index.docs[i].path {
      LessIsAsymmetric(readable[i], readable[j]);
    }
  }

  lemma {:induction false} ReadableAscends(paths: seq<string>, fp: Fingerprint)
    requires Ascending(paths) && forall p :: p in paths ==> p in fp
    ensures Ascending(ReadablePaths(paths, fp))
    ensures forall p :: p in ReadablePaths(paths, fp) ==> p in paths
  {
    if paths != [] {
      var rest, last := paths[..|paths| - 1], paths[|paths| - 1];
      ReadableAscends(rest, fp);
      var readable := ReadablePaths(rest, fp);
      forall i | 0 <= i < |readable| ensures Less(readable[i], last) {
        assert readable[i] in rest;
        var k :| 0 <= k < |rest| && rest[k] == readable[i];
        assert Less(paths[k], paths[|paths| - 1]);
      }
    }
  }

  lemma DocsAreDistinct(a: Alphabet, corpus: Corpus, dirs: set<string>, index: BuiltIndex)
    requires IndexOf(a, index, FingerprintOf(corpus, dirs))
    ensures forall i, j :: 0 <= i < j < |index.docs| ==> index.docs[i].path != index.docs[j].path
  {
    forall i, j | 0 <= i < j < |index.docs| ensures index.docs[i].path != index.docs[j].path {
      IndexedFile(a, corpus, dirs, index, i);
    }
  }

  lemma SameSnippets(a: Alphabet, corpus: Corpus, root: Root, query: seq<string>, top: seq<Result>,
        x: seq<Result>, y: seq<Result>)
    requires AllSnipped(a, corpus, root, query, top, x) && AllSnipped(a, corpus, root, query, top, y)
    ensures x == y
  {
    forall i | 0 <= i < |top| ensures x[i] == y[i] {
      SnippedIsUnique(a, corpus, root, query, top[i], x[i], y[i]);
    }
  }

  /** A cached index and a rebuilt one give the same report, but for its status. */
  lemma HitsAgreeWithRebuilds(a: Alphabet, ln: real -> real, corpus: Corpus, root: Root,
        query: seq<string>, settings: Settings, x: Report, xIndex: BuiltIndex, xTop: seq<Result>,
        y: Report, yIndex: BuiltIndex, yTop: seq<Result>)
    requires Ranking.Ranked(xIndex.docs) && ReportOf(a, ln, corpus, root, query, settings, x, xIndex, xTop)
    requires Ranking.Ranked(yIndex.docs) && ReportOf(a, ln, corpus, root, query, settings, y, yIndex, yTop)
    ensures x == y.(status := x.status)
  {
    IndexIsUnique(a, xIndex, yIndex, FingerprintOf(corpus, settings.excludeDirs));
    DocsAreDistinct(a, corpus, settings.excludeDirs, xIndex);
    RankingIsUnique(ln, xIndex.docs, query, settings.limit, settings.pathWeight, xTop, yTop);
    SameSnippets(a, corpus, root, query, xTop, x.results, y.results);
  }

  /** Scores and snippets agree: a result shows a line exactly when its content scored. */
  lemma SnippetsAgreeWithScores(a: Alphabet, ln: real -> real, corpus: Corpus, root: Root,
        query: seq<string>, settings: Settings,
                                report: Report, index: BuiltIndex, top: seq<Result>, i: nat)
    requires Proper(a) && PositiveAboveOne(ln) && settings.pathWeight >= 0.0
    requires Ranking.Ranked(index.docs) && ReportOf(a, ln, corpus, root, query, settings, report, index, top)
    requires i < |report.results| && root.within(report.results[i].path)
    ensures report.results[i].line > 0 <==> report.results[i].contentScore > 0.0
  {
    var qualifying := Qualifying(ln, index.docs, |index.docs|, query, settings.pathWeight);
    var all: seq<Result> :| Sorted(all, Before) && multiset(all) == multiset(qualifying) &&
      top == if |all| > settings.limit then all[..settings.limit] else all;
    SameElements(all, qualifying);
    assert top[i] == all[i] && all[i] in all;
    QualifyingIsAFilter(ln, index.docs, |index.docs|, query, settings.pathWeight, top[i]);
    var k: nat :| k < |index.docs| && top[i] == Scored(ln, index.docs, k, query, settings.pathWeight);
    assert Snipped(a, corpus, root, query, top[i], report.results[i]);
    QualifiesExactly(ln, index.docs, k, query, settings.pathWeight);
    IndexedFile(a, corpus, settings.excludeDirs, index, k);
    SnippetTellsContent(a, FileAt(corpus, top[i].path).content, query, report.results[i].line,
      report.results[i].snippet);
  }

  /** A cache hit can outlive a lower file limit: the cache compares the indexed files with it, the rebuild
      all enumerated ones. They disagree exactly when the limit lies between the two. */
  lemma HitsCanExceedLimits(a: Alphabet, c: CacheData, root: Root, fp: Fingerprint, settings: Settings,
        paths: seq<string>)
    requires Enumerates(paths, fp) && IndexOver(a, Stored(c), paths, fp)
    requires forall p :: p in paths ==> root.within(p) && !fp[p].Unreadable?
    requires Matches(c, root, fp, settings.(maxFiles := |c.docs|, maxTotalBytes := c.indexedBytes))
    ensures (Matches(c, root, fp, settings) && !Buildable(paths, fp, root, settings)) <==>
              c.indexedFiles <= settings.maxFiles < c.indexedFiles + c.skippedFiles &&
                c.indexedBytes <= settings.maxTotalBytes
    ensures Buildable(paths, fp, root, settings) ==> Matches(c, root, fp, settings)
  {
  }

  const BINARIES := Corpus([Tracked(REGULAR, "a.bin"), Tracked(REGULAR, "b.bin")], [],
                           map["a.bin" := Skipped, "b.bin" := Skipped])

  /** Nothing but a directory on the way excludes a file. */
  lemma TopLevelIsWanted(corpus: Corpus, dirs: set<string>, i: nat)
    requires i < |corpus.tracked| && RegularMode(corpus.tracked[i].mode)
    requires corpus.tracked[i].path != "" && '/' !in corpus.tracked[i].path
    ensures Wanted(corpus, dirs, corpus.tracked[i].path)
  {
    SplitPrepend(corpus.tracked[i].path, "", '/');
  }

  lemma OnlyBinaries(dirs: set<string>, p: string)
    requires Wanted(BINARIES, dirs, p)
    ensures p in ["a.bin", "b.bin"]
  {
    var i :| 0 <= i < |BINARIES.tracked| && BINARIES.tracked[i].path == p;
    assert i == 0 || i == 1;
  }

  lemma BinariesAreListed(dirs: set<string>)
    ensures FingerprintOf(BINARIES, dirs) == BINARIES.files
  {
    TopLevelIsWanted(BINARIES, dirs, 0);
    TopLevelIsWanted(BINARIES, dirs, 1);
    forall p ensures p in FingerprintOf(BINARIES, dirs) <==> p in ["a.bin", "b.bin"] {
      FingerprintCovers(BINARIES, dirs, p);
      if p in FingerprintOf(BINARIES, dirs) { OnlyBinaries(dirs, p); }
    }
  }

  lemma {:induction false} SkippedCountNothing(paths: seq<string>, fp: Fingerprint)
    requires forall p :: p in paths ==> p in fp && fp[p].Skipped?
    ensures ReadablePaths(paths, fp) == [] && ReadBytes(paths, fp) == 0
  {
    if paths != [] {
      SkippedCountNothing(paths[..|paths| - 1], fp);
    }
  }

  /** Two files without text, and one file allowed: the cache stored under the default limits still answers, a
      rebuild refuses. */
  lemma HitOutlivesLimit(a: Alphabet, dirs: set<string>, names: seq<string>)
    requires IsSortedSet(names, dirs)
    ensures var root, fp, paths := Root("/repo", p => true), FingerprintOf(BINARIES, dirs), ["a.bin", "b.bin"];
            var usual := Settings(false, 20, 50_000, 0x1000_0000, 0.5, dirs);
            var c := CacheData(SCHEMA_VERSION, "/repo", TOKENIZER_VERSION, ENUMERATION_VERSION, names, fp, 0, 0, 2, []);
            && Enumerates(paths, fp) && IndexOver(a, Stored(c), paths, fp) && Buildable(paths, fp, root, usual)
            && Matches(c, root, fp, usual.(maxFiles := 1)) && !Buildable(paths, fp, root, usual.(maxFiles := 1))
  {
    BinariesAreListed(dirs);
    var paths := ["a.bin", "b.bin"];
    assert Less(paths[0], paths[1]);
    SkippedCountNothing(paths, BINARIES.files);
  }
}
