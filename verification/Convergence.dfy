/** What changed between two review rounds, and what changes nothing that matters
    (glm-worker/internal/state/convergence.go). Digests are taken to be injective, so a digest is the content
    it stands for. */
module Convergence {
  import opened Text
  import Lines

  // ---------------------------------------------------------------- comments and blank lines

  datatype CommentKind = Slash | Hash | NoComment

  predicate LineSpace(c: char) {
    c == ' ' || c == '\t' || c == '\r'
  }

  function TrimLineEnd(line: string): string {
    if line != [] && LineSpace(line[|line| - 1]) then TrimLineEnd(line[..|line| - 1]) else line
  }

  function TrimIndent(line: string): string {
    if line != [] && (line[0] == ' ' || line[0] == '\t') then TrimIndent(line[1..]) else line
  }

  predicate Letter(c: char) {
    'a' <= c <= 'z' || 'A' <= c <= 'Z'
  }

  /** A word directly followed by a colon, as tools expect it. */
  predicate Directive(rest: string) {
    exists i :: 1 <= i < |rest| && rest[i] == ':' && Letter(rest[0]) && forall k :: 1 <= k < i ==>
      Letter(rest[k]) || '0' <= rest[k] <= '9'
  }

  method RoundDirectiveComment(rest: string) returns (directive: bool)
    ensures directive <==> Directive(rest)
  {
    if rest == [] || !Letter(rest[0]) { return false; }
    for i := 1 to |rest|
      invariant forall k :: 1 <= k < i ==> rest[k] != ':' && (Letter(rest[k]) || '0' <= rest[k] <= '9')
    {
      if rest[i] == ':' { return true; }
      if !(Letter(rest[i]) || '0' <= rest[i] <= '9') { return false; }
    }
    return false;
  }

  function Marker(kind: CommentKind): string {
    if kind == Slash then "//" else "#"
  }

  /** A line that is nothing but a comment no tool reads. */
  predicate CommentLine(line: string, kind: CommentKind) {
    var text := TrimIndent(line);
    kind != NoComment && Marker(kind) <= text
    && var rest := text[|Marker(kind)|..];
       !(kind == Hash && ("!" <= rest || "-*-" <= rest)) && !Directive(rest)
  }

  method RoundCommentLine(line: string, kind: CommentKind) returns (comment: bool)
    ensures comment <==> CommentLine(line, kind)
  {
    if kind == NoComment { return false; }
    var text := TrimIndent(line);
    if !(Marker(kind) <= text) { return false; }
    var rest := text[|Marker(kind)|..];
    if kind == Hash && ("!" <= rest || "-*-" <= rest) { return false; }
    var directive := RoundDirectiveComment(rest);
    return !directive;
  }

  predicate Keeps(line: string, kind: CommentKind) {
    TrimLineEnd(line) != [] && !CommentLine(TrimLineEnd(line), kind)
  }

  function Keeper(kind: CommentKind): string -> bool {
    line => Keeps(line, kind)
  }

  /** The lines that matter, without trailing blanks. */
  function KeptBy(lines: seq<string>, keeps: string -> bool): seq<string> {
    if lines == [] then []
    else
      KeptBy(lines[..|lines| - 1], keeps)
      + (if keeps(lines[|lines| - 1]) then [TrimLineEnd(lines[|lines| - 1])] else [])
  }

  function Kept(lines: seq<string>, kind: CommentKind): seq<string> {
    KeptBy(lines, Keeper(kind))
  }

  lemma {:induction false} LineEndIsBlank(line: string)
    ensures TrimLineEnd(line) <= line && forall i :: |TrimLineEnd(line)| <= i < |line| ==> LineSpace(line[i])
    ensures TrimLineEnd(line) != [] ==> !LineSpace(TrimLineEnd(line)[|TrimLineEnd(line)| - 1])
  {
    if line != [] && LineSpace(line[|line| - 1]) { LineEndIsBlank(line[..|line| - 1]); }
  }

  function Dropper(kind: CommentKind): string -> bool {
    line => !Keeps(line, kind)
  }

  /** A line from its first character to its last that is not blank. */
  predicate WithoutLineEnd(kept: string, line: string) {
    && kept != [] && kept <= line && !LineSpace(kept[|kept| - 1])
    && forall i :: |kept| <= i < |line| ==> LineSpace(line[i])
  }

  /** The kept lines are, in order, exactly the lines that are neither blank nor a mere comment, indentation
      included. */
  lemma {:induction false} KeptPicks(lines: seq<string>, kind: CommentKind) returns (at: seq<nat>)
    ensures Lines.Picks(Dropper(kind), lines, at) && |at| == |Kept(lines, kind)|
    ensures forall k :: 0 <= k < |at| ==> WithoutLineEnd(Kept(lines, kind)[k], lines[at[k]])
  {
    at := [];
    if lines != [] {
      var rest := KeptPicks(lines[..|lines| - 1], kind);
      Lines.OneMorePick(Dropper(kind), lines, rest);
      LineEndIsBlank(lines[|lines| - 1]);
      at := if Dropper(kind)(lines[|lines| - 1]) then rest else rest + [|lines| - 1];
      OneMoreKept(lines, kind, rest, at);
    }
  }

  lemma OneMoreKept(lines: seq<string>, kind: CommentKind, rest: seq<nat>, at: seq<nat>)
    requires lines != [] && |rest| == |Kept(lines[..|lines| - 1], kind)|
    requires forall k :: 0 <= k < |rest| ==>
      rest[k] < |lines| - 1 && WithoutLineEnd(Kept(lines[..|lines| - 1], kind)[k], lines[..|lines| - 1][rest[k]])
    requires at == if Keeps(lines[|lines| - 1], kind) then rest + [|lines| - 1] else rest
    ensures |at| == |Kept(lines, kind)|
    ensures forall k :: 0 <= k < |at| ==> WithoutLineEnd(Kept(lines, kind)[k], lines[at[k]])
  {
    var before, last := Kept(lines[..|lines| - 1], kind), lines[|lines| - 1];
    LineEndIsBlank(last);
    assert Kept(lines, kind) == before + if Keeps(last, kind) then [TrimLineEnd(last)] else [];
  }

  function Normalized(content: string, kind: CommentKind): string {
    Join(Kept(Split(content, '\n'), kind), '\n')
  }

  method NormalizeRoundContent(content: string, kind: CommentKind) returns (normal: string)
    ensures normal == Normalized(content, kind)
  {
    var lines := Split(content, '\n');
    var kept := [];
    for i := 0 to |lines|
      invariant kept == Kept(lines[..i], kind)
    {
      assert lines[..i + 1][..i] == lines[..i];
      var trimmed := TrimLineEnd(lines[i]);
      if trimmed != [] {
        var comment := RoundCommentLine(trimmed, kind);
        if !comment { kept := kept + [trimmed]; }
      }
    }
    assert lines[..|lines|] == lines;
    normal := Join(kept, '\n');
  }

  lemma {:induction false} TrimLineEndShape(line: string)
    ensures TrimLineEnd(line) <= line && TrimLineEnd(TrimLineEnd(line)) == TrimLineEnd(line)
  {
    if line != [] && LineSpace(line[|line| - 1]) { TrimLineEndShape(line[..|line| - 1]); }
  }

  lemma {:induction false} KeptByLines(lines: seq<string>, keeps: string -> bool)
    requires forall i :: 0 <= i < |lines| ==> '\n' !in lines[i]
    requires forall line :: keeps(line) <==> keeps(TrimLineEnd(line))
    ensures forall i :: 0 <= i < |KeptBy(lines, keeps)| ==>
              '\n' !in KeptBy(lines, keeps)[i] && keeps(KeptBy(lines, keeps)[i]) &&
                TrimLineEnd(KeptBy(lines, keeps)[i]) == KeptBy(lines, keeps)[i]
  {
    if lines != [] {
      KeptByLines(lines[..|lines| - 1], keeps);
      TrimLineEndShape(lines[|lines| - 1]);
    }
  }

  lemma {:induction false} KeptByTwice(lines: seq<string>, keeps: string -> bool)
    requires forall i :: 0 <= i < |lines| ==> keeps(lines[i]) && TrimLineEnd(lines[i]) == lines[i]
    ensures KeptBy(lines, keeps) == lines
  {
    if lines != [] {
      KeptByTwice(lines[..|lines| - 1], keeps);
    }
  }

  lemma KeeperIgnoresLineEnds(kind: CommentKind)
    ensures forall line :: Keeper(kind)(line) <==> Keeper(kind)(TrimLineEnd(line))
  {
    forall line ensures Keeper(kind)(line) <==> Keeper(kind)(TrimLineEnd(line)) {
      TrimLineEndShape(line);
    }
  }

  lemma KeptLines(lines: seq<string>, kind: CommentKind)
    requires forall i :: 0 <= i < |lines| ==> '\n' !in lines[i]
    ensures forall i :: 0 <= i < |Kept(lines, kind)| ==>
              '\n' !in Kept(lines, kind)[i] && Keeper(kind)(Kept(lines, kind)[i]) &&
                TrimLineEnd(Kept(lines, kind)[i]) == Kept(lines, kind)[i]
    ensures [] !in Kept(lines, kind)
  {
    KeeperIgnoresLineEnds(kind);
    KeptByLines(lines, Keeper(kind));
    assert !Keeper(kind)([]);
  }

  lemma SplitNormalized(content: string, kind: CommentKind)
    ensures var kept := Kept(Split(content, '\n'), kind);
            Split(Normalized(content, kind), '\n') == if kept == [] then [[]] else kept
  {
    var kept := Kept(Split(content, '\n'), kind);
    KeptLines(Split(content, '\n'), kind);
    if kept != [] { SplitJoin(kept, '\n'); }
  }

  /** Two contents normalise alike exactly when the lines that matter are the same. */
  lemma NormalizedTellsKept(a: string, b: string, kind: CommentKind)
    ensures Normalized(a, kind) == Normalized(b, kind) <==> Kept(Split(a, '\n'), kind) == Kept(Split(b, '\n'), kind)
  {
    SplitNormalized(a, kind);
    SplitNormalized(b, kind);
    KeptLines(Split(a, '\n'), kind);
    KeptLines(Split(b, '\n'), kind);
  }

  /** Normalising is done once and for all. */
  lemma NormalizedIsNormal(content: string, kind: CommentKind)
    ensures Normalized(Normalized(content, kind), kind) == Normalized(content, kind)
  {
    var kept := Kept(Split(content, '\n'), kind);
    SplitNormalized(content, kind);
    KeptLines(Split(content, '\n'), kind);
    KeptByTwice(kept, Keeper(kind));
    assert !Keeper(kind)([]) && [[]][..0] == Kept([], kind);
  }

  // ---------------------------------------------------------------- records of a round

  datatype PathClass = Document | Code | OtherFile

  /** How a path's contents may be read: its class, its comments, and the texts that make stripping unsafe. */
  datatype Language = Language(pathClass: PathClass, kind: CommentKind, guards: seq<string>)

  /** One changed path: its content and its meaning, where known. */
  datatype PathState = PathState(path: string, pathClass: PathClass, deleted: bool, full: Option<string>,
    semantic: Option<string>)

  predicate At(content: string, part: string, i: nat) {
    i + |part| <= |content| && content[i..i + |part|] == part
  }

  predicate Contains(content: string, part: string) {
    exists i: nat :: i <= |content| && At(content, part, i)
  }

  /** The meaning of a content: itself for a document, its normal form for code that holds no text which may
      look like a comment, and unknown otherwise. */
  function Meaning(content: string, language: Language): Option<string> {
    if content == [] || language.pathClass == Document then Some(content)
    else if language.pathClass != Code || Contains(content, "\\\n") ||
      (exists i :: 0 <= i < |language.guards| && Contains(content, language.guards[i])) then None
    else Some(Normalized(content, language.kind))
  }

  datatype Snapshot = Snapshot(head: string, index: string, worktree: string)

  datatype Round = Round(baseline: bool, snapshot: Snapshot, paths: seq<PathState>, captureFailed: bool)

  datatype DeltaClass = Baseline | Initial | SameSnapshot | CommentFormat | DocChange | SemanticChange | Unknown

  datatype Delta = Delta(verdict: DeltaClass, changed: nat, semantic: nat, docs: nat)

  type PathIndex = map<string, PathState>

  /** The last entry of a path counts. */
  function IndexOf(paths: seq<PathState>): PathIndex {
    if paths == [] then map[] else IndexOf(paths[..|paths| - 1])[paths[|paths| - 1].path := paths[|paths| - 1]]
  }

  method RoundPathIndex(paths: seq<PathState>) returns (index: PathIndex)
    ensures index == IndexOf(paths)
  {
    index := map[];
    for i := 0 to |paths|
      invariant index == IndexOf(paths[..i])
    {
      assert paths[..i + 1][..i] == paths[..i];
      index := index[paths[i].path := paths[i]];
    }
    assert paths[..|paths|] == paths;
  }

  // ---------------------------------------------------------------- the rule, path by path

  /** Known to be the same on both sides. */
  predicate Unchanged(prev: PathIndex, curr: PathIndex, p: string) {
    p in prev && p in curr && curr[p].full.Some? && prev[p].full == curr[p].full
  }

  predicate IsDoc(prev: PathIndex, curr: PathIndex, p: string) {
    (p in curr && curr[p].pathClass == Document) || (p in prev && prev[p].pathClass == Document)
  }

  /** Present on both sides with the same known meaning. */
  predicate SameMeaning(prev: PathIndex, curr: PathIndex, p: string) {
    && p in prev && p in curr && !prev[p].deleted && !curr[p].deleted
    && prev[p].semantic.Some? && prev[p].semantic == curr[p].semantic
  }

  function Changed(prev: PathIndex, curr: PathIndex): set<string> {
    set p | p in prev.Keys + curr.Keys && !Unchanged(prev, curr, p)
  }

  function DocPaths(prev: PathIndex, curr: PathIndex): set<string> {
    set p | p in Changed(prev, curr) && IsDoc(prev, curr, p)
  }

  function SemanticPaths(prev: PathIndex, curr: PathIndex): set<string> {
    set p | p in Changed(prev, curr) && !IsDoc(prev, curr, p) && !SameMeaning(prev, curr, p)
  }

  /** Semantic if any path is, else a document change if any, else comments and format only; nothing known to
      have changed is unknown. */
  function ClassOf(prev: PathIndex, curr: PathIndex): DeltaClass {
    if Changed(prev, curr) == {} then Unknown
    else if SemanticPaths(prev, curr) != {} then SemanticChange
    else if DocPaths(prev, curr) != {} then DocChange
    else CommentFormat
  }

  function DeltaOf(prev: PathIndex, curr: PathIndex): Delta {
    if Changed(prev, curr) == {} then Delta(Unknown, 0, 0, 0)
    else Delta(ClassOf(prev, curr), |Changed(prev, curr)|, |SemanticPaths(prev, curr)|, |DocPaths(prev, curr)|)
  }

  // ---------------------------------------------------------------- the loops, in any order

  /** What has been counted over the paths done so far. */
  ghost predicate Counted(delta: Delta, prev: PathIndex, curr: PathIndex, done: set<string>) {
    && delta.changed == |Changed(prev, curr) * done|
    && delta.docs == |DocPaths(prev, curr) * done|
    && delta.semantic == |SemanticPaths(prev, curr) * done|
    && delta.verdict ==
         if delta.semantic > 0 then SemanticChange else if delta.docs > 0 then DocChange else CommentFormat
  }

  /** One more path. */
  function Account(delta: Delta, prev: PathIndex, curr: PathIndex, p: string): Delta {
    if Unchanged(prev, curr, p) then delta
    else if IsDoc(prev, curr, p) then
      delta.(changed := delta.changed + 1, docs := delta.docs + 1,
             verdict := if delta.verdict == SemanticChange then SemanticChange else DocChange)
    else if SameMeaning(prev, curr, p) then delta.(changed := delta.changed + 1)
    else delta.(changed := delta.changed + 1, semantic := delta.semantic + 1, verdict := SemanticChange)
  }

  lemma AccountCounts(delta: Delta, prev: PathIndex, curr: PathIndex, done: set<string>, p: string)
    requires Counted(delta, prev, curr, done) && p !in done && p in prev.Keys + curr.Keys
    ensures Counted(Account(delta, prev, curr, p), prev, curr, done + {p})
  {
    AddOne(Changed(prev, curr), done, p);
    AddOne(DocPaths(prev, curr), done, p);
    AddOne(SemanticPaths(prev, curr), done, p);
  }

  lemma AddOne(s: set<string>, done: set<string>, p: string)
    requires p !in done
    ensures |s * (done + {p})| == |s * done| + if p in s then 1 else 0
  {
    if p in s {
      assert s * (done + {p}) == s * done + {p};
    } else {
      assert s * (done + {p}) == s * done;
    }
  }

  function AddDocPath(delta: Delta): Delta {
    delta.(docs := delta.docs + 1, verdict := if delta.verdict != SemanticChange then DocChange else delta.verdict)
  }

  /** The loops' counters after the paths of a list, in that order. */
  function Tally(prev: PathIndex, curr: PathIndex, order: seq<string>): Delta {
    if order == [] then Delta(CommentFormat, 0, 0, 0)
    else Account(Tally(prev, curr, order[..|order| - 1]), prev, curr, order[|order| - 1])
  }

  predicate Once(order: seq<string>) {
    forall i, j :: 0 <= i < j < |order| ==> order[i] != order[j]
  }

  function Elements(order: seq<string>): set<string> {
    if order == [] then {} else Elements(order[..|order| - 1]) + {order[|order| - 1]}
  }

  lemma {:induction false} ElementsAre(order: seq<string>)
    ensures forall p :: p in Elements(order) <==> p in order
  {
    if order != [] { ElementsAre(order[..|order| - 1]); }
  }

  lemma NothingCounted(prev: PathIndex, curr: PathIndex)
    ensures Counted(Delta(CommentFormat, 0, 0, 0), prev, curr, {})
  {
    assert Changed(prev, curr) * {} == {} && DocPaths(prev, curr) * {} == {} && SemanticPaths(prev, curr) * {} == {};
  }

  lemma {:induction false} TallyCounts(prev: PathIndex, curr: PathIndex, order: seq<string>)
    requires Once(order) && forall p :: p in order ==> p in prev.Keys + curr.Keys
    ensures Counted(Tally(prev, curr, order), prev, curr, Elements(order))
  {
    if order == [] {
      NothingCounted(prev, curr);
    } else {
      var rest, last := order[..|order| - 1], order[|order| - 1];
      TallyCounts(prev, curr, rest);
      ElementsAre(rest);
      AccountCounts(Tally(prev, curr, rest), prev, curr, Elements(rest), last);
    }
  }

  /** Every order of the paths gives the counts and the class of the rule. */
  lemma OrderDoesNotMatter(prev: PathIndex, curr: PathIndex, order: seq<string>)
    requires Once(order) && forall p :: p in order <==> p in prev.Keys + curr.Keys
    ensures DeltaOf(prev, curr) == var tally := Tally(prev, curr, order);
      if tally.changed == 0 then Delta(Unknown, 0, 0, 0) else tally
  {
    TallyCounts(prev, curr, order);
    ElementsAre(order);
    assert Elements(order) == prev.Keys + curr.Keys;
    AllPaths(prev, curr);
  }

  method CountPath(delta: Delta, prev: PathIndex, curr: PathIndex, p: string) returns (d: Delta)
    requires p in curr
    ensures d == Account(delta, prev, curr, p)
  {
    if p in prev && prev[p].full == curr[p].full && curr[p].full.Some? { return delta; }
    d := delta.(changed := delta.changed + 1);
    if curr[p].pathClass == Document || (p in prev && prev[p].pathClass == Document) {
      d := AddDocPath(d);
    } else if !SameMeaning(prev, curr, p) {
      d := d.(semantic := d.semantic + 1, verdict := SemanticChange);
    }
  }

  method CountGonePath(delta: Delta, prev: PathIndex, curr: PathIndex, p: string) returns (d: Delta)
    requires p in prev && p !in curr
    ensures d == Account(delta, prev, curr, p)
  {
    d := delta.(changed := delta.changed + 1);
    if prev[p].pathClass == Document {
      d := AddDocPath(d);
    } else {
      d := d.(semantic := d.semantic + 1, verdict := SemanticChange);
    }
  }

  method CountCurrent(prev: PathIndex, curr: PathIndex) returns (delta: Delta, ghost order: seq<string>)
    ensures delta == Tally(prev, curr, order) && Once(order) && forall p :: p in order <==> p in curr
  {
    delta, order := Delta(CommentFormat, 0, 0, 0), [];
    var left := curr.Keys;
    while left != {}
      invariant delta == Tally(prev, curr, order) && Once(order)
      invariant left <= curr.Keys && forall p :: p in order <==> p in curr && p !in left
    {
      var p :| p in left;
      assert p !in order && (order + [p])[..|order|] == order;
      delta := CountPath(delta, prev, curr, p);
      left, order := left - {p}, order + [p];
    }
  }

  method CountGone(before: Delta, prev: PathIndex, curr: PathIndex, ghost first: seq<string>)
    returns (delta: Delta, ghost order: seq<string>)
    requires before == Tally(prev, curr, first) && Once(first) && forall p :: p in first <==> p in curr
    ensures delta == Tally(prev, curr, order) && Once(order) && forall p :: p in order <==> p in prev || p in curr
  {
    delta, order := before, first;
    var left := prev.Keys - curr.Keys;
    while left != {}
      invariant delta == Tally(prev, curr, order) && Once(order)
      invariant left <= prev.Keys - curr.Keys && forall p :: p in order <==> (p in prev || p in curr) && p !in left
    {
      var p :| p in left;
      assert p !in order && (order + [p])[..|order|] == order;
      delta := CountGonePath(delta, prev, curr, p);
      left, order := left - {p}, order + [p];
    }
  }

  predicate SnapshotsEqual(a: Snapshot, b: Snapshot) {
    a.index != "" && a.worktree != "" && a == b
  }

  /** The class and counts are those of the rule, in whatever order the maps are walked. */
  method CompareRoundRecords(prev: Option<Round>, curr: Option<Round>) returns (delta: Delta)
    ensures delta.verdict == Baseline <==> curr.Some? && curr.value.baseline
    ensures delta.verdict == Initial <==> curr.Some? && !curr.value.baseline && prev == None
    ensures delta.verdict == SameSnapshot <==>
              curr.Some? && !curr.value.baseline && prev.Some? &&
                SnapshotsEqual(prev.value.snapshot, curr.value.snapshot)
    ensures curr.Some? && !curr.value.baseline && prev.Some? &&
            !SnapshotsEqual(prev.value.snapshot, curr.value.snapshot) ==>
              delta == if prev.value.captureFailed || curr.value.captureFailed then Delta(Unknown, 0, 0, 0)
                       else DeltaOf(IndexOf(prev.value.paths), IndexOf(curr.value.paths))
    ensures curr == None ==> delta == Delta(Unknown, 0, 0, 0)
  {
    if curr == None { return Delta(Unknown, 0, 0, 0); }
    if curr.value.baseline { return Delta(Baseline, 0, 0, 0); }
    if prev == None { return Delta(Initial, 0, 0, 0); }
    if SnapshotsEqual(prev.value.snapshot, curr.value.snapshot) { return Delta(SameSnapshot, 0, 0, 0); }
    if prev.value.captureFailed || curr.value.captureFailed { return Delta(Unknown, 0, 0, 0); }
    delta := ComparePaths(prev.value.paths, curr.value.paths);
  }

  method ComparePaths(prev: seq<PathState>, curr: seq<PathState>) returns (delta: Delta)
    ensures delta == DeltaOf(IndexOf(prev), IndexOf(curr))
  {
    var previous := RoundPathIndex(prev);
    var current := RoundPathIndex(curr);
    ghost var order;
    delta, order := CountCurrent(previous, current);
    delta, order := CountGone(delta, previous, current, order);
    OrderDoesNotMatter(previous, current, order);
    if delta.changed == 0 { return Delta(Unknown, 0, 0, 0); }
  }

  lemma AllPaths(prev: PathIndex, curr: PathIndex)
    ensures Changed(prev, curr) * (prev.Keys + curr.Keys) == Changed(prev, curr)
    ensures DocPaths(prev, curr) * (prev.Keys + curr.Keys) == DocPaths(prev, curr)
    ensures SemanticPaths(prev, curr) * (prev.Keys + curr.Keys) == SemanticPaths(prev, curr)
    ensures |Changed(prev, curr)| == 0 <==> Changed(prev, curr) == {}
    ensures |DocPaths(prev, curr)| == 0 <==> DocPaths(prev, curr) == {}
    ensures |SemanticPaths(prev, curr)| == 0 <==> SemanticPaths(prev, curr) == {}
  {
  }

  // ---------------------------------------------------------------- what the classes mean

  /** Comments and format only: every changed path is there on both sides, is no document, and means the same. */
  lemma CommentFormatMeans(prev: PathIndex, curr: PathIndex)
    ensures ClassOf(prev, curr) == CommentFormat <==>
              Changed(prev, curr) != {} && forall p :: p in Changed(prev, curr) ==>
                !IsDoc(prev, curr, p) && SameMeaning(prev, curr, p)
  {
    if ClassOf(prev, curr) == CommentFormat {
      forall p | p in Changed(prev, curr) ensures !IsDoc(prev, curr, p) && SameMeaning(prev, curr, p) {
        assert p !in DocPaths(prev, curr) && p !in SemanticPaths(prev, curr);
      }
    }
  }

  /** What the other classes mean: something changed in meaning, or else in a document, or nothing is known to have
      changed. */
  lemma OtherClassesMean(prev: PathIndex, curr: PathIndex)
    ensures ClassOf(prev, curr) == SemanticChange <==>
              exists p :: p in prev.Keys + curr.Keys && !Unchanged(prev, curr, p) && !IsDoc(prev, curr, p) &&
                !SameMeaning(prev, curr, p)
    ensures ClassOf(prev, curr) == DocChange <==>
              (exists p :: p in prev.Keys + curr.Keys && !Unchanged(prev, curr, p) && IsDoc(prev, curr, p)) &&
                forall p :: p in prev.Keys + curr.Keys && !Unchanged(prev, curr, p) && !IsDoc(prev, curr, p) ==>
                  SameMeaning(prev, curr, p)
    ensures ClassOf(prev, curr) == Unknown <==> forall p :: p in prev.Keys + curr.Keys ==> Unchanged(prev, curr, p)
  {
    if p :| p in SemanticPaths(prev, curr) {
      assert p in Changed(prev, curr);
    }
    if p :| p in DocPaths(prev, curr) {
      assert p in Changed(prev, curr);
    }
    forall p | p in prev.Keys + curr.Keys && !Unchanged(prev, curr, p)
      ensures p in Changed(prev, curr) && (p in DocPaths(prev, curr) <==> IsDoc(prev, curr, p))
      ensures p in SemanticPaths(prev, curr) <==> !IsDoc(prev, curr, p) && !SameMeaning(prev, curr, p)
    {
    }
    if p :| p in Changed(prev, curr) {
      assert !Unchanged(prev, curr, p);
    }
  }

  /** Of several entries of a path the last one counts. */
  lemma {:induction false} LastEntryCounts(paths: seq<PathState>, k: nat)
    requires k < |paths| && forall i :: k < i < |paths| ==> paths[i].path != paths[k].path
    ensures paths[k].path in IndexOf(paths) && IndexOf(paths)[paths[k].path] == paths[k]
  {
    if k < |paths| - 1 { LastEntryCounts(paths[..|paths| - 1], k); }
  }

  /** A path as observed: a regular file's content, its meaning by its language. */
  ghost predicate Observed(s: PathState, content: Option<string>, language: Language) {
    && s.pathClass == language.pathClass && s.full == content
    && s.semantic == if content.Some? then Meaning(content.value, language) else None
  }

  lemma NothingIsNormal(kind: CommentKind)
    ensures Normalized([], kind) == []
  {
    assert Split([], '\n') == [[]];
  }

  /** So in code only lines that do not matter have changed. */
  lemma CommentFormatKeepsLines(prev: PathIndex, curr: PathIndex, p: string, was: Option<string>,
        now: Option<string>, language: Language)
    requires ClassOf(prev, curr) == CommentFormat && p in Changed(prev, curr)
    requires p in prev ==> Observed(prev[p], was, language)
    requires p in curr ==> Observed(curr[p], now, language)
    ensures was.Some? && now.Some? && was != now
    ensures language.pathClass == Code
    ensures Kept(Split(was.value, '\n'), language.kind) == Kept(Split(now.value, '\n'), language.kind)
  {
    CommentFormatMeans(prev, curr);
    assert SameMeaning(prev, curr, p);
    NothingIsNormal(language.kind);
    NormalizedTellsKept(was.value, now.value, language.kind);
  }
}
