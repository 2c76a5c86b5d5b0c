/** The typed result of one model call, its display lines and the parser that reads them back
    (glm-worker/internal/packet/result.go, validate.go). */
module Packets {
  import opened Text

  datatype Status = Implemented | NeedsSolDecision | Pass | FixRequired | NeedsSolReview | OtherStatus(name: string)

  datatype Risk = Low | High | OtherRisk(text: string)

  const REPORT_ONLY_TARGETS := "PACKET"
  const NONE_SENTINEL := "none"
  const MAX_FIELD_BYTES := 1536
  const MAX_PACKET_BYTES := 6 * 1024

  datatype Result = Result(
    status: Status, risk: Risk,
    summary: string, requirementCoverage: string, tests: string, unverified: string,
    decision: string, evidence: string, options: string, recommendation: string, testObligations: string,
    invariants: string, testEvidence: string, issues: string, residualRisk: string, solQuestion: string,
    targets: seq<string>, artifacts: seq<string>)

  const EMPTY_RESULT :=
    Result(OtherStatus(""), OtherRisk(""), "", "", "", "", "", "", "", "", "", "", "", "", "", "", [], [])

  function StatusName(s: Status): string {
    match s
    case Implemented => "IMPLEMENTED"
    case NeedsSolDecision => "NEEDS_SOL_DECISION"
    case Pass => "PASS"
    case FixRequired => "FIX_REQUIRED"
    case NeedsSolReview => "NEEDS_SOL_REVIEW"
    case OtherStatus(name) => name
  }

  function ParseStatus(name: string): Status {
    if name == "IMPLEMENTED" then Implemented
    else if name == "NEEDS_SOL_DECISION" then NeedsSolDecision
    else if name == "PASS" then Pass
    else if name == "FIX_REQUIRED" then FixRequired
    else if name == "NEEDS_SOL_REVIEW" then NeedsSolReview
    else OtherStatus(name)
  }

  function RiskName(r: Risk): string {
    match r
    case Low => "LOW"
    case High => "HIGH"
    case OtherRisk(text) => text
  }

  function ParseRisk(name: string): Risk {
    if name == "LOW" then Low else if name == "HIGH" then High else OtherRisk(name)
  }

  // ---------------------------------------------------------------- display

  /** The field names of the display, in the order the parser knows them. */
  datatype Key =
    | KStatus | KRisk | KSummary | KRequirementCoverage | KTests | KUnverified
    | KDecision | KEvidence | KOptions | KRecommendation | KTestObligations
    | KInvariants | KTestEvidence | KIssues | KResidualRisk | KSolQuestion | KTargets | KArtifacts

  function KeyName(k: Key): string {
    match k
    case KStatus => "STATUS"
    case KRisk => "RISK"
    case KSummary => "SUMMARY"
    case KRequirementCoverage => "REQUIREMENT_COVERAGE"
    case KTests => "TESTS"
    case KUnverified => "UNVERIFIED"
    case KDecision => "DECISION"
    case KEvidence => "EVIDENCE"
    case KOptions => "OPTIONS"
    case KRecommendation => "RECOMMENDATION"
    case KTestObligations => "TEST_OBLIGATIONS"
    case KInvariants => "INVARIANTS"
    case KTestEvidence => "TEST_EVIDENCE"
    case KIssues => "ISSUES"
    case KResidualRisk => "RESIDUAL_RISK"
    case KSolQuestion => "SOL_QUESTION"
    case KTargets => "TARGETS"
    case KArtifacts => "ARTIFACTS"
  }

  datatype Field = Field(key: Key, value: string)

  function JoinDisplayList(values: seq<string>): string {
    if values == [] then "none" else Join(values, ';')
  }

  function TargetsField(r: Result): Field { Field(KTargets, JoinDisplayList(r.targets)) }
  function ArtifactsField(r: Result): Field { Field(KArtifacts, JoinDisplayList(r.artifacts)) }

  function DisplayFields(r: Result): seq<Field> {
    match r.status
    case NeedsSolDecision =>
      [Field(KStatus, StatusName(r.status)), Field(KRisk, RiskName(r.risk)),
       Field(KDecision, r.decision), Field(KEvidence, r.evidence), Field(KOptions, r.options),
       Field(KRecommendation, r.recommendation), Field(KTestObligations, r.testObligations),
       TargetsField(r), ArtifactsField(r)]
    case Implemented =>
      [Field(KStatus, StatusName(r.status)), Field(KRisk, RiskName(r.risk)),
       Field(KSummary, r.summary), Field(KRequirementCoverage, r.requirementCoverage),
       Field(KTests, r.tests), Field(KUnverified, r.unverified)]
      + ImplementedLists(r)
    case _ =>
      [Field(KStatus, StatusName(r.status)), Field(KRisk, RiskName(r.risk)),
       Field(KSummary, r.summary), Field(KRequirementCoverage, r.requirementCoverage),
       Field(KInvariants, r.invariants), Field(KTestEvidence, r.testEvidence),
       Field(KIssues, r.issues), Field(KResidualRisk, r.residualRisk),
       TargetsField(r), ArtifactsField(r)]
      + (if r.solQuestion != "" then [Field(KSolQuestion, r.solQuestion)] else [])
  }

  /** An implemented result shows its targets only when it names some. */
  function ImplementedLists(r: Result): seq<Field> {
    if r.targets != [] then [TargetsField(r), ArtifactsField(r)] else [ArtifactsField(r)]
  }

  function RenderField(f: Field): string {
    KeyName(f.key) + ": " + f.value
  }

  function Render(fields: seq<Field>): (lines: seq<string>)
    ensures |lines| == |fields|
    ensures forall i :: 0 <= i < |fields| ==> lines[i] == RenderField(fields[i])
  {
    if fields == [] then [] else [RenderField(fields[0])] + Render(fields[1..])
  }

  function DisplayLines(r: Result): seq<string> {
    Render(DisplayFields(r))
  }

  // ---------------------------------------------------------------- parsing

  /** Cut at the first occurrence of the separator. */
  function Cut(s: string, sep: char): (r: Option<(string, string)>)
    ensures r.None? <==> sep !in s
    ensures r.Some? ==> s == r.value.0 + [sep] + r.value.1 && sep !in r.value.0
  {
    if s == [] then None
    else if s[0] == sep then Some(([], s[1..]))
    else match Cut(s[1..], sep)
      case None => None
      case Some((before, after)) => Some(([s[0]] + before, after))
  }

  datatype ParseError = NoColon | EmptyKey | DuplicateKey | MissingStatus

  datatype Parsed<+T> = Good(result: T) | Bad(error: ParseError)

  /** What the parser's loop computes, line by line. */
  function ParseFields(lines: seq<string>, seen: map<string, string>): Parsed<map<string, string>> {
    if lines == [] then Good(seen)
    else match Cut(lines[0], ':')
      case None => Bad(NoColon)
      case Some((key, value)) =>
        if Trim(key) == "" then Bad(EmptyKey)
        else if Trim(key) in seen then Bad(DuplicateKey)
        else ParseFields(lines[1..], seen[Trim(key) := Trim(value)])
  }

  function Lookup(fields: map<string, string>, k: Key): string {
    if KeyName(k) in fields then fields[KeyName(k)] else ""
  }

  /** One piece of a displayed list: nothing when blank, else its trimmed text. */
  function Piece(part: string): seq<string> {
    if Trim(part) != "" then [Trim(part)] else []
  }

  /** The list elements a displayed value stands for. */
  function KeptElements(parts: seq<string>): seq<string> {
    if parts == [] then []
    else KeptElements(parts[..|parts| - 1]) + Piece(parts[|parts| - 1])
  }

  function DisplayList(value: string): seq<string> {
    if value == "" || value == NONE_SENTINEL then [] else KeptElements(Split(value, ';'))
  }

  method SplitDisplayList(value: string) returns (result: seq<string>)
    ensures result == DisplayList(value)
  {
    result := [];
    if value != "" && value != NONE_SENTINEL {
      result := KeepElements(Split(value, ';'));
    }
  }

  method KeepElements(parts: seq<string>) returns (result: seq<string>)
    ensures result == KeptElements(parts)
  {
    result := [];
    var i := 0;
    while i < |parts|
      invariant 0 <= i <= |parts|
      invariant result == KeptElements(parts[..i])
    {
      var trimmed := Trim(parts[i]);
      assert parts[..i + 1][..i] == parts[..i];
      assert KeptElements(parts[..i + 1]) == KeptElements(parts[..i]) + Piece(parts[i]);
      if trimmed != "" {
        result := result + [trimmed];
      }
      i := i + 1;
    }
    assert parts[..|parts|] == parts;
  }

  function FromFields(fields: map<string, string>): Parsed<Result> {
    if Lookup(fields, KStatus) == "" then Bad(MissingStatus)
    else Good(Result(
      ParseStatus(Lookup(fields, KStatus)), ParseRisk(Lookup(fields, KRisk)),
      Lookup(fields, KSummary), Lookup(fields, KRequirementCoverage), Lookup(fields, KTests),
      Lookup(fields, KUnverified), Lookup(fields, KDecision), Lookup(fields, KEvidence),
      Lookup(fields, KOptions), Lookup(fields, KRecommendation), Lookup(fields, KTestObligations),
      Lookup(fields, KInvariants), Lookup(fields, KTestEvidence), Lookup(fields, KIssues),
      Lookup(fields, KResidualRisk), Lookup(fields, KSolQuestion),
      DisplayList(Lookup(fields, KTargets)), DisplayList(Lookup(fields, KArtifacts))))
  }

  /** The whole parser as a function of the lines. */
  function ParsedLines(lines: seq<string>): Parsed<Result> {
    match ParseFields(lines, map[])
    case Bad(e) => Bad(e)
    case Good(fields) => FromFields(fields)
  }

  method FromDisplayLines(lines: seq<string>) returns (r: Parsed<Result>)
    ensures r == ParsedLines(lines)
  {
    var fields: map<string, string> := map[];
    for i := 0 to |lines|
      invariant ParseFields(lines, map[]) == ParseFields(lines[i..], fields)
    {
      assert lines[i..][1..] == lines[i + 1..];
      var cut := Cut(lines[i], ':');
      if cut.None? { return Bad(NoColon); }
      var key := Trim(cut.value.0);
      if key == "" { return Bad(EmptyKey); }
      if key in fields { return Bad(DuplicateKey); }
      fields := fields[key := Trim(cut.value.1)];
    }
    assert lines[|lines|..] == [];
    if Lookup(fields, KStatus) == "" { return Bad(MissingStatus); }
    var targets := SplitDisplayList(Lookup(fields, KTargets));
    var artifacts := SplitDisplayList(Lookup(fields, KArtifacts));
    r := Good(Result(
      ParseStatus(Lookup(fields, KStatus)), ParseRisk(Lookup(fields, KRisk)),
      Lookup(fields, KSummary), Lookup(fields, KRequirementCoverage), Lookup(fields, KTests),
      Lookup(fields, KUnverified), Lookup(fields, KDecision), Lookup(fields, KEvidence),
      Lookup(fields, KOptions), Lookup(fields, KRecommendation), Lookup(fields, KTestObligations),
      Lookup(fields, KInvariants), Lookup(fields, KTestEvidence), Lookup(fields, KIssues),
      Lookup(fields, KResidualRisk), Lookup(fields, KSolQuestion), targets, artifacts));
  }

  // ---------------------------------------------------------------- round trip

  /** Which keys a status shows. */
  predicate Displays(r: Result, k: Key) {
    match k
    case KStatus | KRisk | KArtifacts => true
    case KTargets => r.status != Implemented || r.targets != []
    case KDecision | KEvidence | KOptions | KRecommendation | KTestObligations => r.status == NeedsSolDecision
    case KTests | KUnverified => r.status == Implemented
    case KSummary | KRequirementCoverage => r.status != NeedsSolDecision
    case KSolQuestion => r.status != NeedsSolDecision && r.status != Implemented && r.solQuestion != ""
    case _ => r.status != NeedsSolDecision && r.status != Implemented
  }

  /** The text a key stands for. */
  function ValueOf(r: Result, k: Key): string {
    match k
    case KStatus => StatusName(r.status)
    case KRisk => RiskName(r.risk)
    case KSummary => r.summary
    case KRequirementCoverage => r.requirementCoverage
    case KTests => r.tests
    case KUnverified => r.unverified
    case KDecision => r.decision
    case KEvidence => r.evidence
    case KOptions => r.options
    case KRecommendation => r.recommendation
    case KTestObligations => r.testObligations
    case KInvariants => r.invariants
    case KTestEvidence => r.testEvidence
    case KIssues => r.issues
    case KResidualRisk => r.residualRisk
    case KSolQuestion => r.solQuestion
    case KTargets => JoinDisplayList(r.targets)
    case KArtifacts => JoinDisplayList(r.artifacts)
  }

  /** What a display keeps of a key: the trimmed text if the status shows it. */
  function Kept(r: Result, k: Key): string {
    if Displays(r, k) then Trim(ValueOf(r, k)) else ""
  }

  /** Exactly what survives a display and a parse: the fields shown for the status, trimmed,
      with lists cut at every semicolon. */
  function Normalised(r: Result): Result {
    Result(ParseStatus(Kept(r, KStatus)), ParseRisk(Kept(r, KRisk)),
           Kept(r, KSummary), Kept(r, KRequirementCoverage), Kept(r, KTests), Kept(r, KUnverified),
           Kept(r, KDecision), Kept(r, KEvidence), Kept(r, KOptions), Kept(r, KRecommendation),
           Kept(r, KTestObligations), Kept(r, KInvariants), Kept(r, KTestEvidence), Kept(r, KIssues),
           Kept(r, KResidualRisk), Kept(r, KSolQuestion),
           DisplayList(Kept(r, KTargets)), DisplayList(Kept(r, KArtifacts)))
  }

  predicate DistinctKeys(fields: seq<Field>) {
    forall i, j :: 0 <= i < j < |fields| ==> fields[i].key != fields[j].key
  }

  /** Length and first letter, which already tell the key names apart. */
  function KeyCode(k: Key): (nat, char) {
    match k
    case KStatus => (6, 'S')
    case KRisk => (4, 'R')
    case KSummary => (7, 'S')
    case KRequirementCoverage => (20, 'R')
    case KTests => (5, 'T')
    case KUnverified => (10, 'U')
    case KDecision => (8, 'D')
    case KEvidence => (8, 'E')
    case KOptions => (7, 'O')
    case KRecommendation => (14, 'R')
    case KTestObligations => (16, 'T')
    case KInvariants => (10, 'I')
    case KTestEvidence => (13, 'T')
    case KIssues => (6, 'I')
    case KResidualRisk => (13, 'R')
    case KSolQuestion => (12, 'S')
    case KTargets => (7, 'T')
    case KArtifacts => (9, 'A')
  }

  lemma KeyNameCode(k: Key)
    ensures |KeyName(k)| == KeyCode(k).0 && KeyName(k)[0] == KeyCode(k).1
  {}

  lemma KeyNamesDiffer(a: Key, b: Key)
    requires KeyName(a) == KeyName(b)
    ensures a == b
  {
    KeyNameCode(a);
    KeyNameCode(b);
  }

  /** Key names have no colon and no blank at either end. */
  lemma KeyNameShape(k: Key)
    ensures Trimmed(KeyName(k))
    ensures Cut(KeyName(k), ':').None?
  {
    KeyNameNoColon(k);
  }

  lemma KeyNameNoColon(k: Key)
    ensures ':' !in KeyName(k)
  {
  }

  lemma {:induction false} CutPrepend(a: string, b: string, sep: char)
    requires sep !in a
    ensures Cut(a + [sep] + b, sep) == Some((a, b))
  {
    var s := a + [sep] + b;
    if a == [] {
      assert s[1..] == b;
    } else {
      assert s[1..] == a[1..] + [sep] + b;
      CutPrepend(a[1..], b, sep);
      assert [a[0]] + a[1..] == a;
    }
  }

  /** A rendered field is cut back into its key and, once trimmed, its value. */
  lemma CutRendered(f: Field)
    ensures Cut(RenderField(f), ':') == Some((KeyName(f.key), " " + f.value))
    ensures Trim(KeyName(f.key)) == KeyName(f.key) != ""
    ensures Trim(" " + f.value) == Trim(f.value)
  {
    KeyNameNoColon(f.key);
    CutPrepend(KeyName(f.key), " " + f.value, ':');
    assert RenderField(f) == KeyName(f.key) + [':'] + (" " + f.value);
    KeyNameShape(f.key);
    TrimIsTrimmed(KeyName(f.key));
    KeyNameCode(f.key);
    TrimSkipsLeadingSpace(f.value);
  }

  /** What parsing the rendered fields adds to the fields already seen. */
  function Stored(fields: seq<Field>, seen: map<string, string>): map<string, string> {
    if fields == [] then seen
    else Stored(fields[1..], seen[KeyName(fields[0].key) := Trim(fields[0].value)])
  }

  lemma {:induction false} ParseRendered(fields: seq<Field>, seen: map<string, string>)
    requires DistinctKeys(fields)
    requires forall i :: 0 <= i < |fields| ==> KeyName(fields[i].key) !in seen
    ensures ParseFields(Render(fields), seen) == Good(Stored(fields, seen))
  {
    if fields != [] {
      var f := fields[0];
      CutRendered(f);
      var seen' := seen[KeyName(f.key) := Trim(f.value)];
      forall i | 0 <= i < |fields[1..]| ensures KeyName(fields[1..][i].key) !in seen' {
        if KeyName(fields[1..][i].key) == KeyName(f.key) {
          KeyNamesDiffer(fields[1..][i].key, f.key);
        }
      }
      ParseRendered(fields[1..], seen');
      assert Render(fields)[1..] == Render(fields[1..]);
    }
  }

  predicate HasKey(fields: seq<Field>, k: Key) {
    exists i :: 0 <= i < |fields| && fields[i].key == k
  }

  /** A key that is not shown reads as before ... */
  lemma {:induction false} LookupAbsent(fields: seq<Field>, seen: map<string, string>, k: Key)
    ensures !HasKey(fields, k) ==> Lookup(Stored(fields, seen), k) == Lookup(seen, k)
  {
    if fields != [] && !HasKey(fields, k) {
      var f, tail := fields[0], fields[1..];
      assert forall i :: 0 <= i < |tail| ==> tail[i] == fields[i + 1];
      LookupAbsent(tail, seen[KeyName(f.key) := Trim(f.value)], k);
      if KeyName(f.key) == KeyName(k) {
        KeyNamesDiffer(f.key, k);
      }
    }
  }

  /** ... and, among distinct keys, a shown one reads as its trimmed value. */
  lemma {:induction false} LookupStored(fields: seq<Field>, seen: map<string, string>, k: Key)
    requires DistinctKeys(fields)
    ensures forall i :: 0 <= i < |fields| && fields[i].key == k ==>
      Lookup(Stored(fields, seen), k) == Trim(fields[i].value)
  {
    if fields != [] {
      var f, tail := fields[0], fields[1..];
      var seen' := seen[KeyName(f.key) := Trim(f.value)];
      assert forall i :: 1 <= i < |fields| ==> fields[i] == tail[i - 1];
      LookupStored(tail, seen', k);
      if f.key == k {
        assert !HasKey(tail, k);
        LookupAbsent(tail, seen', k);
      }
    }
  }

  /** The display shows each of the status's keys once ... */
  lemma DisplayFieldsDistinct(r: Result)
    ensures DistinctKeys(DisplayFields(r))
  {
    if r.status == NeedsSolDecision {
      DecisionKeysDistinct(r);
    } else if r.status == Implemented {
      ImplementedKeysDistinct(r);
    } else {
      ReviewKeysDistinct(r);
    }
  }

  lemma DecisionKeysDistinct(r: Result)
    requires r.status == NeedsSolDecision
    ensures DistinctKeys(DisplayFields(r))
  {
  }

  lemma ImplementedKeysDistinct(r: Result)
    requires r.status == Implemented
    ensures DistinctKeys(DisplayFields(r))
  {
  }

  lemma ReviewKeysDistinct(r: Result)
    requires r.status != Implemented && r.status != NeedsSolDecision
    ensures DistinctKeys(DisplayFields(r))
  {
    var shown := DisplayFields(r.(solQuestion := ""));
    assert |shown| == 10 && DistinctKeys(shown);
    assert DisplayFields(r) == shown || DisplayFields(r) == shown + [Field(KSolQuestion, r.solQuestion)];
  }

  /** ... with its own text ... */
  lemma DisplayFieldsTexts(r: Result)
    ensures forall i :: 0 <= i < |DisplayFields(r)| ==> DisplayFields(r)[i].value == ValueOf(r, DisplayFields(r)[i].key)
  {
  }

  /** ... shows no other key ... */
  lemma DisplayFieldsSound(r: Result)
    ensures forall i :: 0 <= i < |DisplayFields(r)| ==> Displays(r, DisplayFields(r)[i].key)
  {
  }

  /** ... and leaves none out. */
  lemma DisplayFieldsComplete(r: Result, k: Key)
    requires Displays(r, k)
    ensures HasKey(DisplayFields(r), k)
  {
    var position := match k
      case KStatus => 0
      case KRisk => 1
      case KSummary | KDecision => 2
      case KRequirementCoverage | KEvidence => 3
      case KTests | KInvariants | KOptions => 4
      case KUnverified | KTestEvidence | KRecommendation => 5
      case KIssues | KTestObligations => 6
      case KResidualRisk => 7
      case KTargets => if r.status == Implemented then 6 else if r.status == NeedsSolDecision then 7 else 8
      case KArtifacts => |DisplayFields(r.(solQuestion := ""))| - 1
      case KSolQuestion => 10;
    assert DisplayFields(r)[position].key == k;
  }

  /** Every key reads back as its trimmed text when the status shows it, else as empty. */
  lemma LookupDisplayed(r: Result, k: Key)
    ensures Lookup(Stored(DisplayFields(r), map[]), k) == Kept(r, k)
  {
    DisplayFieldsDistinct(r);
    DisplayFieldsTexts(r);
    DisplayFieldsSound(r);
    if Displays(r, k) { DisplayFieldsComplete(r, k); }
    LookupAbsent(DisplayFields(r), map[], k);
    LookupStored(DisplayFields(r), map[], k);
  }

  /** Parsing what was displayed gives the normalised result, whatever the free texts hold: colons,
      semicolons, blanks. The one thing needed is a status that is not blank. */
  lemma DisplayRoundTrip(r: Result)
    requires Trim(StatusName(r.status)) != ""
    ensures ParsedLines(DisplayLines(r)) == Good(Normalised(r))
  {
    DisplayFieldsDistinct(r);
    ParseRendered(DisplayFields(r), map[]);
    FromDisplayed(r, Stored(DisplayFields(r), map[]));
  }

  lemma FromDisplayed(r: Result, stored: map<string, string>)
    requires Trim(StatusName(r.status)) != ""
    requires stored == Stored(DisplayFields(r), map[])
    ensures FromFields(stored) == Good(Normalised(r))
  {
    forall k: Key ensures Lookup(stored, k) == Kept(r, k) {
      LookupDisplayed(r, k);
    }
  }

  // ---------------------------------------------------------------- normal form

  /** A list the display can carry unchanged. */
  predicate NormalList(xs: seq<string>) {
    && (forall i :: 0 <= i < |xs| ==> xs[i] != "" && Trimmed(xs[i]) && ';' !in xs[i])
    && xs != [NONE_SENTINEL]
  }

  predicate Canonical(r: Result) {
    && ParseStatus(Trim(StatusName(r.status))) == r.status
    && ParseRisk(Trim(RiskName(r.risk))) == r.risk
  }

  /** A result the display can carry unchanged: trimmed texts, nothing outside the shown fields. */
  predicate NormalForm(r: Result) {
    && Canonical(r)
    && NormalList(r.targets) && NormalList(r.artifacts)
    && forall k: Key :: k != KTargets && k != KArtifacts ==>
         Trimmed(ValueOf(r, k)) && (!Displays(r, k) ==> ValueOf(r, k) == "")
  }

  lemma {:induction false} KeptElementsOfNormal(xs: seq<string>)
    requires forall i :: 0 <= i < |xs| ==> xs[i] != "" && Trimmed(xs[i])
    ensures KeptElements(xs) == xs
  {
    if xs != [] {
      KeptElementsOfNormal(xs[..|xs| - 1]);
      TrimIsTrimmed(xs[|xs| - 1]);
      assert xs == xs[..|xs| - 1] + [xs[|xs| - 1]];
    }
  }

  lemma {:induction false} JoinTrimmed(xs: seq<string>, sep: char)
    requires xs != [] && !IsSpace(sep)
    requires forall i :: 0 <= i < |xs| ==> xs[i] != "" && Trimmed(xs[i])
    ensures Join(xs, sep) != "" && Trimmed(Join(xs, sep))
    ensures |xs| > 1 ==> sep in Join(xs, sep)
  {
    if |xs| > 1 {
      JoinTrimmed(xs[1..], sep);
      var all := Join(xs, sep);
      assert all == xs[0] + [sep] + Join(xs[1..], sep);
      assert all[|xs[0]|] == sep;
    }
  }

  /** A normal list survives display and parse. */
  lemma NormalListRoundTrip(xs: seq<string>)
    requires NormalList(xs)
    ensures DisplayList(Trim(JoinDisplayList(xs))) == xs
  {
    if xs == [] {
      TrimIsTrimmed(NONE_SENTINEL);
    } else {
      NonEmptyRoundTrip(xs);
      TrimIsTrimmed(Join(xs, ';'));
    }
  }

  lemma NonEmptyRoundTrip(xs: seq<string>)
    requires NormalList(xs) && xs != []
    ensures Trimmed(Join(xs, ';')) && DisplayList(Join(xs, ';')) == xs
  {
    JoinTrimmed(xs, ';');
    SplitJoin(xs, ';');
    KeptElementsOfNormal(xs);
    NotTheSentinel(xs);
  }

  lemma NotTheSentinel(xs: seq<string>)
    requires xs != [] && xs != [NONE_SENTINEL] && (|xs| > 1 ==> ';' in Join(xs, ';'))
    ensures Join(xs, ';') != NONE_SENTINEL
  {
    if |xs| == 1 { assert xs == [xs[0]]; }
  }

  lemma KeptOfNormal(r: Result, k: Key)
    requires NormalForm(r) && k != KTargets && k != KArtifacts
    ensures Kept(r, k) == ValueOf(r, k) == Trim(ValueOf(r, k))
  {
    TrimIsTrimmed(ValueOf(r, k));
  }

  lemma ListsOfNormal(r: Result)
    requires NormalForm(r)
    ensures DisplayList(Kept(r, KTargets)) == r.targets && DisplayList(Kept(r, KArtifacts)) == r.artifacts
  {
    NormalListRoundTrip(r.targets);
    NormalListRoundTrip(r.artifacts);
    KeptLists(r);
  }

  lemma KeptLists(r: Result)
    ensures Kept(r, KTargets) == if Displays(r, KTargets) then Trim(JoinDisplayList(r.targets)) else ""
    ensures Displays(r, KTargets) || r.targets == []
    ensures Kept(r, KArtifacts) == Trim(JoinDisplayList(r.artifacts))
  {
  }

  lemma NormalisedValue(r: Result, k: Key)
    requires k != KTargets && k != KArtifacts && k != KStatus && k != KRisk
    ensures ValueOf(Normalised(r), k) == Kept(r, k)
  {
  }

  lemma NormalisedStatus(r: Result)
    requires Canonical(r)
    ensures Normalised(r).status == r.status && Normalised(r).risk == r.risk
  {
  }

  /** Display and parse change nothing of a result in normal form. */
  lemma NormalFormIsFixed(r: Result)
    requires NormalForm(r)
    ensures Normalised(r) == r
  {
    var n := Normalised(r);
    NormalisedStatus(r);
    ListsOfNormal(r);
    forall k: Key | k != KTargets && k != KArtifacts ensures ValueOf(n, k) == ValueOf(r, k) {
      KeptOfNormal(r, k);
      if k != KStatus && k != KRisk { NormalisedValue(r, k); }
    }
    SameResult(n, r);
  }

  lemma SameResult(a: Result, b: Result)
    requires a.status == b.status && a.risk == b.risk && a.targets == b.targets && a.artifacts == b.artifacts
    requires forall k: Key :: k != KTargets && k != KArtifacts ==> ValueOf(a, k) == ValueOf(b, k)
    ensures a == b
  {
    assert ValueOf(a, KSummary) == ValueOf(b, KSummary);
    assert ValueOf(a, KRequirementCoverage) == ValueOf(b, KRequirementCoverage);
    assert ValueOf(a, KTests) == ValueOf(b, KTests);
    assert ValueOf(a, KUnverified) == ValueOf(b, KUnverified);
    assert ValueOf(a, KDecision) == ValueOf(b, KDecision);
    assert ValueOf(a, KEvidence) == ValueOf(b, KEvidence);
    assert ValueOf(a, KOptions) == ValueOf(b, KOptions);
    assert ValueOf(a, KRecommendation) == ValueOf(b, KRecommendation);
    assert ValueOf(a, KTestObligations) == ValueOf(b, KTestObligations);
    assert ValueOf(a, KInvariants) == ValueOf(b, KInvariants);
    assert ValueOf(a, KTestEvidence) == ValueOf(b, KTestEvidence);
    assert ValueOf(a, KIssues) == ValueOf(b, KIssues);
    assert ValueOf(a, KResidualRisk) == ValueOf(b, KResidualRisk);
    assert ValueOf(a, KSolQuestion) == ValueOf(b, KSolQuestion);
  }

  // The pieces of a displayed list are trimmed and free of semicolons; the one list that does not
  // come back from a second display is the list holding just the sentinel.

  lemma {:induction false} KeptElementsShape(parts: seq<string>)
    requires forall i :: 0 <= i < |parts| ==> ';' !in parts[i]
    ensures forall i :: 0 <= i < |KeptElements(parts)| ==>
      KeptElements(parts)[i] != "" && Trimmed(KeptElements(parts)[i]) && ';' !in KeptElements(parts)[i]
  {
    if parts != [] {
      var part := parts[|parts| - 1];
      KeptElementsShape(parts[..|parts| - 1]);
      TrimIsTrimmed(part);
      TrimRemovesOnly(part, ';');
    }
  }

  lemma {:induction false} TrimLeftRemovesOnly(s: string, c: char)
    requires c !in s
    ensures c !in TrimLeft(s)
  {
    if s != [] && IsSpace(s[0]) { TrimLeftRemovesOnly(s[1..], c); }
  }

  lemma TrimRemovesOnly(s: string, c: char)
    requires c !in s
    ensures c !in Trim(s)
  {
    TrimLeftRemovesOnly(s, c);
    TrimRightShape(TrimLeft(s));
  }

  lemma DisplayListNormal(value: string)
    ensures NormalList(DisplayList(value)) <==> DisplayList(value) != [NONE_SENTINEL]
  {
    if value != "" && value != NONE_SENTINEL {
      KeptElementsShape(Split(value, ';'));
    }
  }

  /** Parsing what is displayed leaves every text trimmed and every field that is not shown empty. */
  lemma NormalisedTexts(r: Result, k: Key)
    requires !r.status.OtherStatus? && k != KTargets && k != KArtifacts
    ensures var n := Normalised(r);
      Canonical(n) && n.status == r.status && Trimmed(ValueOf(n, k)) && (!Displays(n, k) ==> ValueOf(n, k) == "")
  {
    NormalisedNames(r);
    if k == KStatus || k == KRisk {
      TrimIsTrimmed(ValueOf(Normalised(r), k));
    } else {
      NormalisedValue(r, k);
      TrimIsTrimmed(ValueOf(r, k));
    }
  }

  lemma NormalisedNames(r: Result)
    requires !r.status.OtherStatus?
    ensures var n := Normalised(r);
      Canonical(n) && n.status == r.status && Trimmed(StatusName(n.status)) && Trimmed(RiskName(n.risk))
  {
    KnownStatusReadsBack(r.status);
    RiskReadsBack(r.risk);
    assert Kept(r, KStatus) == Trim(StatusName(r.status)) && Kept(r, KRisk) == Trim(RiskName(r.risk));
  }

  lemma KnownStatusReadsBack(s: Status)
    requires !s.OtherStatus?
    ensures Trimmed(StatusName(s)) && Trim(StatusName(s)) == StatusName(s) != "" && ParseStatus(StatusName(s)) == s
  {
    TrimIsTrimmed(StatusName(s));
  }

  lemma ParsedRiskName(text: string)
    ensures RiskName(ParseRisk(text)) == text
  {
  }

  lemma RiskReadsBack(risk: Risk)
    ensures var p := ParseRisk(Trim(RiskName(risk))); Trimmed(RiskName(p)) && ParseRisk(Trim(RiskName(p))) == p
  {
    var text := Trim(RiskName(risk));
    TrimIsTrimmed(RiskName(risk));
    TrimIsTrimmed(text);
    ParsedRiskName(text);
  }

  /** For a known status, one display and parse reaches a normal form, so a second one changes
      nothing, exactly when neither list reads back as the bare sentinel. */
  lemma NormalisedIsNormal(r: Result)
    requires !r.status.OtherStatus?
    ensures NormalForm(Normalised(r)) <==>
      Normalised(r).targets != [NONE_SENTINEL] && Normalised(r).artifacts != [NONE_SENTINEL]
  {
    var n := Normalised(r);
    NormalisedLists(r);
    forall k: Key | k != KTargets && k != KArtifacts
      ensures Canonical(n) && Trimmed(ValueOf(n, k)) && (!Displays(n, k) ==> ValueOf(n, k) == "")
    {
      NormalisedTexts(r, k);
    }
    NormalisedTexts(r, KStatus);
  }

  lemma NormalisedLists(r: Result)
    ensures NormalList(Normalised(r).targets) <==> Normalised(r).targets != [NONE_SENTINEL]
    ensures NormalList(Normalised(r).artifacts) <==> Normalised(r).artifacts != [NONE_SENTINEL]
  {
    DisplayListNormal(Kept(r, KTargets));
    DisplayListNormal(Kept(r, KArtifacts));
  }
}
