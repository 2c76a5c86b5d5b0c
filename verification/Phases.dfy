/** The names phases are saved under, and telling a report-only round from its name alone
    (glm-worker/internal/workflow/workflow.go). */
module Phases {
  import opened Journal
  import opened Workflow

  const REPORT_ONLY: string := "worker-report-only-"
  const CORRECTED: string := "-result-correct"
  const COMPACTED: string := "-packet-compact"

  function Decimal(n: nat): (s: string)
    ensures s != [] && AllDigits(s)
  {
    if n < 10 then ['0' + n as char] else Decimal(n / 10) + ['0' + (n % 10) as char]
  }

  predicate AllDigits(s: string) {
    forall i :: 0 <= i < |s| ==> '0' <= s[i] <= '9'
  }

  function Name(phase: Phase): string {
    match phase
    case WorkerNew => "worker-new"
    case WorkerDecision => "worker-decision"
    case WorkerExplicitFix => "worker-explicit-fix"
    case ReviewRound(n) => "reviewer-" + Decimal(n)
    case RiskFloorRound(n) => "reviewer-" + Decimal(n) + "-risk-floor"
    case AutoFixRound(n) => "worker-auto-fix-" + Decimal(n)
    case ReportOnlyRound(n) => REPORT_ONLY + Decimal(n)
    case Corrected(base) => Name(base) + CORRECTED
  }

  predicate HasSuffix(s: string, suffix: string) {
    |s| >= |suffix| && s[|s| - |suffix|..] == suffix
  }

  function TrimSuffix(s: string, suffix: string): string {
    if HasSuffix(s, suffix) then s[..|s| - |suffix|] else s
  }

  /** A name as saved by this or an older version: the prefix, then a number once the correction and
      compaction marks, each at most once, are taken off. */
  predicate ReportOnlyFromName(name: string) {
    REPORT_ONLY <= name
    && var rest := TrimSuffix(TrimSuffix(name[|REPORT_ONLY|..], CORRECTED), COMPACTED);
       rest != "" && AllDigits(rest)
  }

  lemma TrimAppended(s: string, suffix: string)
    ensures TrimSuffix(s + suffix, suffix) == s
  {
  }

  /** A number carries no mark. */
  lemma DigitsKeepNoMark(s: string, mark: string)
    requires AllDigits(s) && mark != "" && mark[0] == '-'
    ensures TrimSuffix(s, mark) == s
  {
    if |s| >= |mark| {
      assert s[|s| - |mark|..][0] != mark[0];
    }
  }

  lemma MarkedKeepsOther(s: string, mark: string, other: string)
    requires |mark| == |other| && mark != other
    ensures TrimSuffix(s + mark, other) == s + mark
  {
    assert (s + mark)[|s + mark| - |other|..] == mark;
  }

  /** The accepted names, exactly. */
  lemma ReportOnlyNames(name: string)
    ensures ReportOnlyFromName(name) <==>
      exists digits, compacted, corrected :: IsReportOnlyName(name, digits, compacted, corrected)
  {
    if ReportOnlyFromName(name) {
      var rest := name[|REPORT_ONLY|..];
      var inner := TrimSuffix(rest, CORRECTED);
      var digits := TrimSuffix(inner, COMPACTED);
      assert rest == inner + if HasSuffix(rest, CORRECTED) then CORRECTED else "";
      assert inner == digits + if HasSuffix(inner, COMPACTED) then COMPACTED else "";
      assert IsReportOnlyName(name, digits, HasSuffix(inner, COMPACTED), HasSuffix(rest, CORRECTED));
    }
    forall digits, compacted, corrected | IsReportOnlyName(name, digits, compacted, corrected)
      ensures ReportOnlyFromName(name)
    {
      NamesAreRecognised(name, digits, compacted, corrected);
    }
  }

  predicate IsReportOnlyName(name: string, digits: string, compacted: bool, corrected: bool) {
    && digits != "" && AllDigits(digits)
    && name == REPORT_ONLY + (digits + (if compacted then COMPACTED else "") + if corrected then CORRECTED else "")
  }

  lemma NamesAreRecognised(name: string, digits: string, compacted: bool, corrected: bool)
    requires IsReportOnlyName(name, digits, compacted, corrected)
    ensures ReportOnlyFromName(name)
  {
    var inner := digits + if compacted then COMPACTED else "";
    var rest := inner + if corrected then CORRECTED else "";
    assert name[|REPORT_ONLY|..] == rest;
    assert COMPACTED[1] != CORRECTED[1];
    DigitsKeepNoMark(digits, CORRECTED);
    DigitsKeepNoMark(digits, COMPACTED);
    MarkedKeepsOther(digits, COMPACTED, CORRECTED);
    TrimAppended(inner, CORRECTED);
    TrimAppended(digits, COMPACTED);
    assert TrimSuffix(rest, CORRECTED) == inner;
    assert TrimSuffix(inner, COMPACTED) == digits;
  }

  /** Other rounds' names differ from a report-only one's at their first or eighth character. */
  lemma {:induction false} OtherNames(phase: Phase)
    ensures |Name(phase)| > 8
    ensures Name(phase)[0] == 'r' || Name(phase)[7] in {'n', 'd', 'e', 'a'} || REPORT_ONLY <= Name(phase)
    ensures REPORT_ONLY <= Name(phase) ==> Root(phase).ReportOnlyRound?
  {
    assert REPORT_ONLY[0] == 'w' && REPORT_ONLY[7] == 'r';
    assert REPORT_ONLY <= Name(phase) ==> Name(phase)[0] == REPORT_ONLY[0] && Name(phase)[7] == REPORT_ONLY[7];
    match phase {
      case Corrected(base) =>
        OtherNames(base);
        assert Name(phase)[0] == Name(base)[0] && Name(phase)[7] == Name(base)[7];
      case _ =>
    }
  }

  function Root(phase: Phase): Phase {
    if phase.Corrected? then Root(phase.base) else phase
  }

  /** A twice corrected name no longer ends in a number. */
  lemma {:induction false} NestedNames(phase: Phase)
    requires phase.Corrected? && Root(phase).ReportOnlyRound?
    ensures REPORT_ONLY <= Name(phase) && |Name(phase)| >= |REPORT_ONLY| + |CORRECTED|
    ensures !AllDigits(Name(phase)[|REPORT_ONLY|..])
    ensures TrimSuffix(Name(phase)[|REPORT_ONLY|..], COMPACTED) == Name(phase)[|REPORT_ONLY|..]
  {
    if phase.base.Corrected? { NestedNames(phase.base); }
    var inner := Name(phase.base)[|REPORT_ONLY|..];
    var rest := Name(phase)[|REPORT_ONLY|..];
    assert rest == inner + CORRECTED && rest[|inner|] == '-';
    assert COMPACTED[1] != CORRECTED[1];
    MarkedKeepsOther(inner, CORRECTED, COMPACTED);
  }

  lemma TwiceCorrected(phase: Phase)
    requires phase.Corrected? && phase.base.Corrected? && Root(phase).ReportOnlyRound?
    ensures !ReportOnlyFromName(Name(phase))
  {
    NestedNames(phase.base);
    MarkedIsNoNumber(Name(phase.base));
  }

  lemma DropAppended(s: string, t: string, n: nat)
    requires n <= |s|
    ensures (s + t)[n..] == s[n..] + t
  {
  }

  lemma MarkedIsNoNumber(name: string)
    requires REPORT_ONLY <= name && !AllDigits(name[|REPORT_ONLY|..])
    requires TrimSuffix(name[|REPORT_ONLY|..], COMPACTED) == name[|REPORT_ONLY|..]
    ensures !ReportOnlyFromName(name + CORRECTED)
  {
    DropAppended(name, CORRECTED, |REPORT_ONLY|);
    TrimAppended(name[|REPORT_ONLY|..], CORRECTED);
  }

  /** Saved under its name, a phase is taken for a report-only round exactly when it is one. */
  lemma NamesTellReportOnly(phase: Phase)
    ensures ReportOnlyFromName(Name(phase)) <==> ReportOnlyFromPhase(phase)
  {
    OtherNames(phase);
    if phase.ReportOnlyRound? {
      NamesAreRecognised(Name(phase), Decimal(phase.round), false, false);
    } else if phase.Corrected? && phase.base.ReportOnlyRound? {
      NamesAreRecognised(Name(phase), Decimal(phase.base.round), false, true);
    } else if phase.Corrected? && Root(phase).ReportOnlyRound? {
      TwiceCorrected(phase);
    }
  }
}
