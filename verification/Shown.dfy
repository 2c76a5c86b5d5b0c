/** When the text shown for a result, one field a line, reads back as the result
    (glm-worker/internal/packet/result.go, validate.go). */
module Shown {
  import opened Text
  import opened Packets
  import opened Validation
  import opened ResultLists

  function ShownText(r: Result): string {
    Join(DisplayLines(r), '\n')
  }

  // ---------------------------------------------------------------- splitting

  /** A prefix without separators stays with the first piece. */
  lemma {:induction false} SplitPrefix(a: string, b: string, sep: char)
    requires sep !in a
    ensures Split(a + b, sep) == [a + Split(b, sep)[0]] + Split(b, sep)[1..]
  {
    if a == [] {
      assert a + b == b && a + Split(b, sep)[0] == Split(b, sep)[0];
    } else {
      assert (a + b)[1..] == a[1..] + b;
      SplitPrefix(a[1..], b, sep);
      assert [a[0]] + (a[1..] + Split(b, sep)[0]) == a + Split(b, sep)[0];
    }
  }

  /** Only the last line is cut any further. */
  lemma {:induction false} SplitLastLine(lines: seq<string>, last: string, sep: char)
    requires forall i :: 0 <= i < |lines| ==> sep !in lines[i]
    ensures Split(Join(lines + [last], sep), sep) == lines + Split(last, sep)
  {
    if lines != [] {
      var all := lines + [last];
      assert all[1..] == lines[1..] + [last];
      SplitLastLine(lines[1..], last, sep);
      SplitPrepend(lines[0], Join(all[1..], sep), sep);
    }
  }

  // ---------------------------------------------------------------- parsing on

  lemma {:induction false} ParseOn(a: seq<string>, b: seq<string>, seen: map<string, string>)
    requires ParseFields(a, seen).Good?
    ensures ParseFields(a + b, seen) == ParseFields(b, ParseFields(a, seen).result)
  {
    if a == [] {
      assert a + b == b;
    } else {
      assert (a + b)[1..] == a[1..] + b;
      var cut := Cut(a[0], ':').value;
      ParseOn(a[1..], b, seen[Trim(cut.0) := Trim(cut.1)]);
    }
  }

  /** A key never changes once it was read, and every line read has a visible key. */
  lemma {:induction false} ParsedStays(lines: seq<string>, seen: map<string, string>, key: string)
    requires ParseFields(lines, seen).Good? && key in seen
    ensures key in ParseFields(lines, seen).result && ParseFields(lines, seen).result[key] == seen[key]
    ensures lines != [] ==> Trim(lines[0]) != ""
  {
    if lines != [] {
      var cut := Cut(lines[0], ':').value;
      ParsedStays(lines[1..], seen[Trim(cut.0) := Trim(cut.1)], key);
      assert ':' in lines[0];
      KeepsVisible(lines[0], ':');
    }
  }

  // ---------------------------------------------------------------- trimming

  lemma KeepsVisible(s: string, c: char)
    requires c in s && !IsSpace(c)
    ensures c in Trim(s)
  {
    TrimLeftKeeps(s, c);
    TrimRightKeeps(TrimLeft(s), c);
  }

  lemma {:induction false} TrimLeftOn(a: string, b: string)
    ensures TrimLeft(a + b) == if TrimLeft(a) == [] then TrimLeft(b) else TrimLeft(a) + b
  {
    if a == [] {
      assert a + b == b;
    } else if IsSpace(a[0]) {
      assert (a + b)[1..] == a[1..] + b;
      TrimLeftOn(a[1..], b);
    }
  }

  lemma {:induction false} TrimRightOn(a: string, b: string)
    requires Trim(b) != ""
    ensures TrimRight(a + b) == a + TrimRight(b)
  {
    if b == [] || !IsSpace(b[|b| - 1]) {
      assert b == [] || (a + b)[|a + b| - 1] == b[|b| - 1];
    } else {
      assert (a + b)[..|a + b| - 1] == a + b[..|b| - 1];
      assert b == b[..|b| - 1] + [b[|b| - 1]];
      TrimSkipsTrailingSpace(b[..|b| - 1], b[|b| - 1]);
      TrimRightOn(a, b[..|b| - 1]);
    }
  }

  lemma {:induction false} TrimLeftOnly(s: string, c: char)
    requires c in TrimLeft(s)
    ensures c in s
  {
    if s != [] && IsSpace(s[0]) { TrimLeftOnly(s[1..], c); }
  }

  /** Text behind a line's end makes a difference. */
  lemma TrimGrows(a: string, b: string)
    requires '\n' !in a && Trim(b) != ""
    ensures Trim(a + ['\n'] + b) != Trim(a)
  {
    TrimLeftOn(a, ['\n'] + b);
    assert a + ['\n'] + b == a + (['\n'] + b);
    if TrimLeft(a) == [] {
      assert (['\n'] + b)[1..] == b;
    } else {
      var kept := TrimLeft(a) + ['\n'];
      assert TrimLeft(a) + (['\n'] + b) == kept + b;
      TrimRightOn(kept, b);
      assert kept[|TrimLeft(a)|] == '\n' && '\n' in kept + TrimRight(b);
      if '\n' in Trim(a) {
        TrimRightShape(TrimLeft(a));
        TrimLeftOnly(a, '\n');
      }
    }
  }

  // ---------------------------------------------------------------- the shown text

  lemma KeyNamesAreOneLine(k: Key)
    ensures '\n' !in KeyName(k)
  {
  }

  lemma LinesAreLines(fields: seq<Field>)
    requires forall i :: 0 <= i < |fields| ==> '\n' !in fields[i].value
    ensures forall i :: 0 <= i < |fields| ==> '\n' !in Render(fields)[i]
  {
    forall i | 0 <= i < |fields| ensures '\n' !in Render(fields)[i] {
      KeyNamesAreOneLine(fields[i].key);
    }
  }

  /** The lines of a text whose last field takes several are those of its first piece, and more. */
  lemma LinesOfPieces(fields: seq<Field>, k: Key, value: string)
    ensures Render(fields) + Split(RenderField(Field(k, value)), '\n') ==
              Render(fields + [Field(k, Split(value, '\n')[0])]) + Split(value, '\n')[1..]
  {
    var pieces := Split(value, '\n');
    KeyNamesAreOneLine(k);
    SplitPrefix(KeyName(k) + ": ", value, '\n');
    RenderOn(fields, Field(k, pieces[0]));
  }

  lemma SeveralPieces(value: string)
    requires '\n' in value
    ensures |Split(value, '\n')| > 1
  {
    JoinSplit(value, '\n');
  }

  /** A second piece that can be read at all makes the text another one. */
  lemma PiecesDiffer(value: string)
    requires |Split(value, '\n')| > 1 && Trim(Split(value, '\n')[1]) != ""
    ensures Trim(Split(value, '\n')[0]) != Trim(value)
  {
    var pieces := Split(value, '\n');
    JoinSplit(value, '\n');
    BeyondFirst(pieces);
    TrimGrows(pieces[0], Join(pieces[1..], '\n'));
  }

  /** What is read first stays, and nothing follows it that cannot be read. */
  lemma HeadIsRead(fields: seq<Field>, last: Field, rest: seq<string>)
    requires DistinctKeys(fields + [last])
    ensures var read := ParseFields(Render(fields + [last]) + rest, map[]);
            read.Good? ==> Lookup(read.result, last.key) == Trim(last.value) && (rest != [] ==> Trim(rest[0]) != "")
  {
    var head := fields + [last];
    ParseRendered(head, map[]);
    ParseOn(Render(head), rest, map[]);
    if ParseFields(Render(head) + rest, map[]).Good? {
      StoredHas(head, map[], |fields|);
      ParsedStays(rest, Stored(head, map[]), KeyName(last.key));
      LookupStored(head, map[], last.key);
      assert head[|fields|] == last;
    }
  }

  /** A last field that takes several lines never reads back whole. */
  lemma SecondLineIsLost(fields: seq<Field>, k: Key, value: string)
    requires DistinctKeys(fields + [Field(k, value)]) && '\n' in value
    ensures var lines := Render(fields) + Split(RenderField(Field(k, value)), '\n');
            ParseFields(lines, map[]).Good? ==> Lookup(ParseFields(lines, map[]).result, k) != Trim(value)
  {
    var pieces := Split(value, '\n');
    SeveralPieces(value);
    LinesOfPieces(fields, k, value);
    DistinctHead(fields, Field(k, value), Field(k, pieces[0]));
    HeadIsRead(fields, Field(k, pieces[0]), pieces[1..]);
    if Trim(pieces[1]) != "" { PiecesDiffer(value); }
  }

  lemma DistinctHead(fields: seq<Field>, f: Field, g: Field)
    requires DistinctKeys(fields + [f]) && f.key == g.key
    ensures DistinctKeys(fields + [g])
  {
    var a, b := fields + [f], fields + [g];
    forall i, j | 0 <= i < j < |b| ensures b[i].key != b[j].key {
      assert a[i].key == b[i].key && a[j].key == b[j].key;
    }
  }

  lemma {:induction false} StoredHas(fields: seq<Field>, seen: map<string, string>, i: nat)
    requires i < |fields|
    ensures KeyName(fields[i].key) in Stored(fields, seen)
  {
    if i == 0 {
      StoredKeeps(fields[1..], seen[KeyName(fields[0].key) := Trim(fields[0].value)], KeyName(fields[0].key));
    } else {
      StoredHas(fields[1..], seen[KeyName(fields[0].key) := Trim(fields[0].value)], i - 1);
    }
  }

  lemma {:induction false} StoredKeeps(fields: seq<Field>, seen: map<string, string>, key: string)
    requires key in seen
    ensures key in Stored(fields, seen)
  {
    if fields != [] {
      StoredKeeps(fields[1..], seen[KeyName(fields[0].key) := Trim(fields[0].value)], key);
    }
  }

  lemma {:induction false} RenderOn(fields: seq<Field>, f: Field)
    ensures Render(fields + [f]) == Render(fields) + [RenderField(f)]
  {
    if fields != [] {
      assert (fields + [f])[1..] == fields[1..] + [f];
      RenderOn(fields[1..], f);
    }
  }

  lemma BeyondFirst(pieces: seq<string>)
    requires |pieces| > 1 && Trim(pieces[1]) != ""
    ensures Trim(Join(pieces[1..], '\n')) != ""
  {
    var c := Trim(pieces[1])[0];
    TrimIsTrimmed(pieces[1]);
    TrimRightShape(TrimLeft(pieces[1]));
    TrimLeftOnly(pieces[1], c);
    assert pieces[1] <= Join(pieces[1..], '\n');
    KeepsVisible(Join(pieces[1..], '\n'), c);
  }

  /** The shown text reads back exactly when the one field shown last, and not checked for line ends, is on one
      line. */
  lemma ShownTextComesBack(r: Result)
    requires Trim(StatusName(r.status)) != ""
    requires forall k: Key :: Displays(r, k) && k != KSolQuestion ==> '\n' !in ValueOf(r, k)
    ensures ParsedLines(Split(ShownText(r), '\n')) == Good(Normalised(r)) <==>
              (Displays(r, KSolQuestion) ==> '\n' !in r.solQuestion)
  {
    DisplayFieldsTexts(r);
    DisplayFieldsSound(r);
    if Displays(r, KSolQuestion) && '\n' in r.solQuestion {
      QuestionIsLost(r);
    } else {
      LinesAreLines(DisplayFields(r));
      SplitJoin(DisplayLines(r), '\n');
      DisplayRoundTrip(r);
    }
  }

  lemma QuestionIsLost(r: Result)
    requires forall k: Key :: Displays(r, k) && k != KSolQuestion ==> '\n' !in ValueOf(r, k)
    requires Displays(r, KSolQuestion) && '\n' in r.solQuestion
    ensures ParsedLines(Split(ShownText(r), '\n')) != Good(Normalised(r))
  {
    var fields, last := DisplayFields(r.(solQuestion := "")), Field(KSolQuestion, r.solQuestion);
    assert DisplayFields(r) == fields + [last];
    DisplayFieldsTexts(r);
    DisplayFieldsSound(r);
    DisplayFieldsDistinct(r);
    forall i | 0 <= i < |fields| ensures '\n' !in fields[i].value {
      assert fields[i] == DisplayFields(r)[i];
    }
    LinesAreLines(fields);
    RenderOn(fields, last);
    SplitLastLine(Render(fields), RenderField(last), '\n');
    SecondLineIsLost(fields, KSolQuestion, r.solQuestion);
    NormalisedValue(r, KSolQuestion);
  }

  // ---------------------------------------------------------------- validated results

  lemma {:induction false} JoinOnOneLine(parts: seq<string>, sep: char)
    requires sep != '\n' && forall i :: 0 <= i < |parts| ==> '\n' !in parts[i]
    ensures '\n' !in Join(parts, sep)
  {
    if |parts| > 1 { JoinOnOneLine(parts[1..], sep); }
  }

  lemma ListsAreOneLine(values: seq<string>)
    requires AllListedOk(values)
    ensures '\n' !in JoinDisplayList(values)
  {
    assert forall i :: 0 <= i < |values| ==> ListedOk(values[i]);
    JoinOnOneLine(values, ';');
  }

  lemma TextsAreOneLine(r: Result, k: Key)
    requires (WorkerStatus(r.status) || ReviewerStatus(r.status)) && ContentOk(r)
    requires Displays(r, k) && k !in {KStatus, KRisk, KTargets, KArtifacts, KSolQuestion}
    ensures '\n' !in ValueOf(r, k)
  {
    var texts := RequiredTexts(r);
    var i := match k
      case KSummary | KDecision => 0
      case KRequirementCoverage | KEvidence => 1
      case KTests | KInvariants | KOptions => 2
      case KUnverified | KTestEvidence | KRecommendation => 3
      case KIssues | KTestObligations => 4
      case _ => 5;
    assert TextOk(texts[i]);
  }

  lemma DisplayedIsOneLine(r: Result, k: Key)
    requires (WorkerStatus(r.status) || ReviewerStatus(r.status)) && ContentOk(r)
    requires Displays(r, k) && k != KSolQuestion
    ensures '\n' !in ValueOf(r, k)
  {
    match k
    case KTargets => ListsAreOneLine(r.targets);
    case KArtifacts => ListsAreOneLine(r.artifacts);
    case KStatus => NamesAreOneLine(r);
    case KRisk => NamesAreOneLine(r);
    case _ => TextsAreOneLine(r, k);
  }

  lemma NamesAreOneLine(r: Result)
    requires (WorkerStatus(r.status) || ReviewerStatus(r.status)) && RiskFits(r)
    ensures '\n' !in StatusName(r.status) && '\n' !in RiskName(r.risk)
  {
  }

  /** A validated result as shown reads back, but for the question of a reviewer that takes several lines: nothing
      keeps line ends out of it. */
  lemma ValidatedTextReadsBack(r: Result)
    requires WorkerVerdict(r) == Valid || ReviewerVerdict(r) == Valid
    ensures ParsedLines(Split(ShownText(r), '\n')) == Good(Normalised(r)) <==>
              (ReviewerStatus(r.status) ==> '\n' !in r.solQuestion)
  {
    KnownStatus(r);
    forall k: Key | Displays(r, k) && k != KSolQuestion ensures '\n' !in ValueOf(r, k) {
      DisplayedIsOneLine(r, k);
    }
    ShownTextComesBack(r);
    QuestionIsShown(r);
  }

  lemma QuestionIsShown(r: Result)
    requires WorkerStatus(r.status) || ReviewerStatus(r.status)
    ensures Displays(r, KSolQuestion) <==> ReviewerStatus(r.status) && r.solQuestion != ""
  {
  }

  // ---------------------------------------------------------------- a question on two lines

  const ASKED := EMPTY_RESULT.(
    status := NeedsSolReview, risk := High, summary := "x", requirementCoverage := "x", invariants := "x",
    testEvidence := "x", issues := "x", residualRisk := "x", solQuestion := "a\nb", targets := ["t"])

  lemma {:induction false} BytesAreFew(s: string)
    ensures ByteCount(s) <= 4 * |s|
  {
    if s != [] { BytesAreFew(s[..|s| - 1]); }
  }

  lemma {:induction false} JoinIsShort(parts: seq<string>, sep: char, most: nat)
    requires forall i :: 0 <= i < |parts| ==> |parts[i]| <= most
    ensures |Join(parts, sep)| <= |parts| * (most + 1)
  {
    if |parts| > 1 { JoinIsShort(parts[1..], sep, most); }
  }

  lemma SmallResult(r: Result)
    requires forall i :: 0 <= i < |DisplayFields(r)| ==> |DisplayFields(r)[i].value| <= 16
    ensures ByteSize(r) <= MAX_PACKET_BYTES
  {
    forall i | 0 <= i < |DisplayFields(r)| ensures |DisplayLines(r)[i]| <= 38 {
      KeyNamesAreShort(DisplayFields(r)[i].key);
    }
    assert |DisplayFields(r)| <= 11;
    JoinIsShort(DisplayLines(r), '\n', 38);
    BytesAreFew(ShownText(r));
  }

  lemma KeyNamesAreShort(k: Key)
    ensures |KeyName(k)| <= 20
  {
  }

  lemma AskedIsSmall()
    ensures ByteSize(ASKED) <= MAX_PACKET_BYTES
  {
    forall i | 0 <= i < |DisplayFields(ASKED)| ensures |DisplayFields(ASKED)[i].value| <= 16 {
      AskedIsShort(DisplayFields(ASKED)[i].key);
      DisplayFieldsTexts(ASKED);
    }
    SmallResult(ASKED);
  }

  lemma AskedIsShort(k: Key)
    ensures |ValueOf(ASKED, k)| <= 16
  {
  }

  lemma LettersAreTexts(s: string)
    requires |s| == 1 && !IsSpace(s[0]) && s[0] < '\U{80}'
    ensures TextOk(s) && Trim(s) == s && !ReadsAs(s, NONE_SENTINEL) && !ReadsAs(s, REPORT_ONLY_TARGETS)
  {
    TrimIsTrimmed(s);
    assert s[..0] == [];
  }

  lemma AskedHasTarget()
    ensures TargetsOk(ASKED)
  {
    LettersAreTexts("t");
    assert ElementOk(ASKED, "t");
  }

  lemma AskedHasTexts()
    ensures AllTextsOk(RequiredTexts(ASKED)) && AllListedOk(ASKED.targets) && AllListedOk(ASKED.artifacts)
    ensures Trim(ASKED.solQuestion) != ""
  {
    LettersAreTexts("x");
    LettersAreTexts("t");
    TrimIsTrimmed("a\nb");
  }

  lemma ValidEscalation(r: Result)
    requires r.status == NeedsSolReview && r.risk == High && TargetsOk(r) && Trim(r.solQuestion) != ""
    requires FieldsOk(r, RequiredTexts(r))
    ensures ReviewerVerdict(r) == Valid
  {
  }

  lemma LostQuestion(r: Result)
    requires ReviewerVerdict(r) == Valid && '\n' in r.solQuestion
    ensures ParsedLines(Split(ShownText(r), '\n')) != Good(Normalised(r))
  {
    ValidatedTextReadsBack(r);
  }

  lemma AskedOnTwoLines()
    ensures '\n' in ASKED.solQuestion
  {
    assert ASKED.solQuestion[1] == '\n';
  }

  lemma AskedIsValid()
    ensures ReviewerVerdict(ASKED) == Valid
  {
    AskedIsSmall();
    AskedHasTarget();
    AskedHasTexts();
    ValidEscalation(ASKED);
  }

  /** A question on two lines passes the validation and does not read back. */
  lemma TwoLinesAreLost()
    ensures ReviewerVerdict(ASKED) == Valid
    ensures ParsedLines(Split(ShownText(ASKED), '\n')) != Good(Normalised(ASKED))
  {
    AskedIsValid();
    AskedOnTwoLines();
    LostQuestion(ASKED);
  }
}
