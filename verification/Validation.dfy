/** The semantic contract of a result, per role (glm-worker/internal/packet/validate.go). */
module Validation {
  import opened Text
  import opened Packets

  /** Constraint: the model may correct it in one more call. Mismatch: the schema was broken. */
  datatype Verdict = Valid | Constraint | Mismatch

  // ---------------------------------------------------------------- targets

  /** Simple case folding, exact when compared with a word of ASCII letters: besides the ASCII
      pairs only the Kelvin sign and the long s fold to an ASCII letter. */
  function Fold(c: char): char {
    if 'A' <= c <= 'Z' then c - 'A' + 'a'
    else if c == '\U{212A}' then 'k'
    else if c == '\U{17F}' then 's'
    else c
  }

  predicate EqualFold(a: string, b: string) {
    |a| == |b| && forall i :: 0 <= i < |a| ==> Fold(a[i]) == Fold(b[i])
  }

  predicate ReadsAs(target: string, word: string) {
    EqualFold(Trim(target), word)
  }

  predicate IsReportOnlyFix(r: Result) {
    r.status == FixRequired && |r.targets| == 1 && r.targets[0] == REPORT_ONLY_TARGETS
  }

  /** One element, on its own: not blank, and a reserved word only in its exact spelling and place. */
  predicate ElementOk(r: Result, target: string) {
    && Trim(target) != ""
    && (ReadsAs(target, NONE_SENTINEL) ==> target == NONE_SENTINEL)
    && (ReadsAs(target, REPORT_ONLY_TARGETS) ==> IsReportOnlyFix(r) && target == REPORT_ONLY_TARGETS)
  }

  predicate DistinctTrimmed(targets: seq<string>) {
    forall i, j :: 0 <= i < j < |targets| ==> Trim(targets[i]) != Trim(targets[j])
  }

  /** The canonical form of a target list. */
  predicate TargetsOk(r: Result) {
    && (r.targets == [] ==> r.status == Implemented)
    && (forall i :: 0 <= i < |r.targets| ==> ElementOk(r, r.targets[i]))
    && DistinctTrimmed(r.targets)
    && (NONE_SENTINEL in r.targets ==> |r.targets| == 1 && r.status != NeedsSolReview)
  }

  method ValidateTargets(r: Result) returns (ok: bool)
    ensures ok <==> TargetsOk(r)
  {
    if r.targets == [] {
      return r.status == Implemented;
    }
    var seen: set<string> := {};
    var hasNone := false;
    var i := 0;
    while i < |r.targets|
      invariant 0 <= i <= |r.targets|
      invariant seen == set k | 0 <= k < i :: Trim(r.targets[k])
      invariant forall k :: 0 <= k < i ==> ElementOk(r, r.targets[k])
      invariant DistinctTrimmed(r.targets[..i])
      invariant hasNone <==> NONE_SENTINEL in r.targets[..i]
    {
      var element := r.targets[i];
      var trimmed := Trim(element);
      if trimmed == "" {
        assert !ElementOk(r, r.targets[i]);
        return false;
      }
      if trimmed in seen {
        return false;
      }
      seen := seen + {trimmed};
      if EqualFold(trimmed, NONE_SENTINEL) {
        if element != NONE_SENTINEL {
          assert !ElementOk(r, r.targets[i]);
          return false;
        }
        hasNone := true;
      }
      if EqualFold(trimmed, REPORT_ONLY_TARGETS)
        && !(r.status == FixRequired && element == REPORT_ONLY_TARGETS && |r.targets| == 1) {
        assert !ElementOk(r, r.targets[i]);
        return false;
      }
      NoneReadsAsNone(element);
      assert r.targets[..i + 1] == r.targets[..i] + [element];
      i := i + 1;
    }
    assert r.targets[..|r.targets|] == r.targets;
    return !(hasNone && (|r.targets| > 1 || r.status == NeedsSolReview));
  }

  lemma NoneReadsAsNone(element: string)
    ensures element == NONE_SENTINEL ==> ReadsAs(element, NONE_SENTINEL)
  {
    TrimIsTrimmed(NONE_SENTINEL);
  }

  /** The reserved word cannot slip past the branch that reads it: in a valid fix request a target
      that spells it, in any case and with any blanks, is the whole list and selects the
      report-only round. */
  lemma ReservedWordSelectsReportOnly(r: Result, i: nat)
    requires TargetsOk(r) && r.status == FixRequired && i < |r.targets|
    ensures ReadsAs(r.targets[i], REPORT_ONLY_TARGETS) <==> IsReportOnlyFix(r)
  {
    if IsReportOnlyFix(r) {
      TrimIsTrimmed(REPORT_ONLY_TARGETS);
      assert r.targets[i] == REPORT_ONLY_TARGETS;
    } else {
      assert ElementOk(r, r.targets[i]);
    }
  }

  // ---------------------------------------------------------------- fields

  function Utf8Bytes(c: char): nat {
    if c < '\U{80}' then 1 else if c < '\U{800}' then 2 else if c < '\U{10000}' then 3 else 4
  }

  function ByteCount(s: string): nat {
    if s == [] then 0 else ByteCount(s[..|s| - 1]) + Utf8Bytes(s[|s| - 1])
  }

  predicate OneLine(s: string) {
    '\n' !in s && '\r' !in s
  }

  predicate TextOk(s: string) {
    Trim(s) != "" && OneLine(s) && ByteCount(s) <= MAX_FIELD_BYTES
  }

  predicate ListedOk(s: string) {
    OneLine(s) && ByteCount(s) <= MAX_FIELD_BYTES
  }

  function ByteSize(r: Result): nat {
    ByteCount(Join(DisplayLines(r), '\n'))
  }

  predicate AllListedOk(listed: seq<string>) {
    forall i :: 0 <= i < |listed| ==> ListedOk(listed[i])
  }

  predicate AllTextsOk(texts: seq<string>) {
    forall i :: 0 <= i < |texts| ==> TextOk(texts[i])
  }

  /** Required texts present and on one line, list elements on one line, everything within bounds. */
  predicate FieldsOk(r: Result, texts: seq<string>) {
    AllTextsOk(texts) && AllListedOk(r.targets) && AllListedOk(r.artifacts) && ByteSize(r) <= MAX_PACKET_BYTES
  }

  lemma ListedConcat(a: seq<string>, b: seq<string>)
    ensures AllListedOk(a + b) <==> AllListedOk(a) && AllListedOk(b)
  {
    assert forall i :: 0 <= i < |a| ==> (a + b)[i] == a[i];
    assert forall i :: 0 <= i < |b| ==> (a + b)[|a| + i] == b[i];
  }

  method ValidateFields(r: Result, texts: seq<string>) returns (ok: bool)
    ensures ok <==> FieldsOk(r, texts)
  {
    ok := ValidateTexts(texts);
    if ok {
      ok := ValidateListed(r.targets + r.artifacts);
      ListedConcat(r.targets, r.artifacts);
      ok := ok && ByteSize(r) <= MAX_PACKET_BYTES;
    }
  }

  method ValidateTexts(texts: seq<string>) returns (ok: bool)
    ensures ok <==> AllTextsOk(texts)
  {
    for i := 0 to |texts|
      invariant forall k :: 0 <= k < i ==> TextOk(texts[k])
    {
      if Trim(texts[i]) == "" || !OneLine(texts[i]) || ByteCount(texts[i]) > MAX_FIELD_BYTES {
        assert !TextOk(texts[i]);
        return false;
      }
    }
    return true;
  }

  method ValidateListed(listed: seq<string>) returns (ok: bool)
    ensures ok <==> AllListedOk(listed)
  {
    for i := 0 to |listed|
      invariant forall k :: 0 <= k < i ==> ListedOk(listed[k])
    {
      if !ListedOk(listed[i]) {
        return false;
      }
    }
    return true;
  }

  // ---------------------------------------------------------------- roles

  function ImplementedTexts(r: Result): seq<string> {
    [r.summary, r.requirementCoverage, r.tests, r.unverified]
  }

  function DecisionTexts(r: Result): seq<string> {
    [r.decision, r.evidence, r.options, r.recommendation, r.testObligations]
  }

  function ReviewerTexts(r: Result): seq<string> {
    [r.summary, r.requirementCoverage, r.invariants, r.testEvidence, r.issues, r.residualRisk]
  }

  function RequiredTexts(r: Result): seq<string> {
    match r.status
    case Implemented => ImplementedTexts(r)
    case NeedsSolDecision => DecisionTexts(r)
    case _ => ReviewerTexts(r)
  }

  predicate WorkerStatus(s: Status) { s == Implemented || s == NeedsSolDecision }

  predicate ReviewerStatus(s: Status) { s == Pass || s == FixRequired || s == NeedsSolReview }

  /** PASS is low risk, both escalations are high risk, the rest declare one of the two. */
  predicate RiskFits(r: Result) {
    match r.status
    case Pass => r.risk == Low
    case NeedsSolDecision | NeedsSolReview => r.risk == High
    case _ => r.risk == Low || r.risk == High
  }

  predicate ContentOk(r: Result) {
    && RiskFits(r)
    && FieldsOk(r, RequiredTexts(r))
    && (r.status == NeedsSolReview ==> Trim(r.solQuestion) != "")
    && TargetsOk(r)
  }

  function WorkerVerdict(r: Result): Verdict {
    if !WorkerStatus(r.status) then Mismatch else if ContentOk(r) then Valid else Constraint
  }

  function ReviewerVerdict(r: Result): Verdict {
    if !ReviewerStatus(r.status) then Mismatch else if ContentOk(r) then Valid else Constraint
  }

  method ValidateWorkerResult(r: Result) returns (v: Verdict)
    ensures v == WorkerVerdict(r)
  {
    match r.status {
      case Implemented =>
        if r.risk != Low && r.risk != High { return Constraint; }
      case NeedsSolDecision =>
        if r.risk != High { return Constraint; }
      case _ =>
        return Mismatch;
    }
    var ok := ValidateFields(r, if r.status == Implemented then ImplementedTexts(r) else DecisionTexts(r));
    if !ok { return Constraint; }
    ok := ValidateTargets(r);
    return if ok then Valid else Constraint;
  }

  method ValidateReviewerResult(r: Result) returns (v: Verdict)
    ensures v == ReviewerVerdict(r)
  {
    match r.status {
      case Pass =>
        if r.risk != Low { return Constraint; }
      case FixRequired =>
        if r.risk != Low && r.risk != High { return Constraint; }
      case NeedsSolReview =>
        if r.risk != High { return Constraint; }
      case _ =>
        return Mismatch;
    }
    var ok := ValidateFields(r, ReviewerTexts(r));
    if !ok { return Constraint; }
    if r.status == NeedsSolReview && Trim(r.solQuestion) == "" { return Constraint; }
    ok := ValidateTargets(r);
    return if ok then Valid else Constraint;
  }
}
