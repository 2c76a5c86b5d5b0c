/** Which target and artifact lists survive being shown and read back
    (glm-worker/internal/packet/result.go, validate.go). */
module ResultLists {
  import opened Text
  import opened Packets
  import opened Validation

  function TrimAll(xs: seq<string>): seq<string> {
    if xs == [] then [] else TrimAll(xs[..|xs| - 1]) + [Trim(xs[|xs| - 1])]
  }

  lemma {:induction false} TrimAllAt(xs: seq<string>, i: nat)
    requires i < |xs|
    ensures |TrimAll(xs)| == |xs| && TrimAll(xs)[i] == Trim(xs[i])
  {
    if i < |xs| - 1 {
      TrimAllAt(xs[..|xs| - 1], i);
    } else if |xs| > 1 {
      TrimAllAt(xs[..|xs| - 1], 0);
    }
  }

  lemma {:induction false} TrimLeftKeeps(s: string, c: char)
    requires !IsSpace(c)
    ensures c in TrimLeft(s) <==> c in s
  {
    if s != [] && IsSpace(s[0]) { TrimLeftKeeps(s[1..], c); }
  }

  lemma {:induction false} TrimRightKeeps(s: string, c: char)
    requires !IsSpace(c)
    ensures c in TrimRight(s) <==> c in s
  {
    if s != [] && IsSpace(s[|s| - 1]) { TrimRightKeeps(s[..|s| - 1], c); }
  }

  lemma {:induction false} TrimLeftAppend(s: string, c: char)
    requires IsSpace(c)
    ensures TrimLeft(s + [c]) == if TrimLeft(s) == [] then [] else TrimLeft(s) + [c]
  {
    if s == [] {
      assert [c][1..] == [];
      assert s + [c] == [c];
    } else if IsSpace(s[0]) {
      TrimLeftAppend(s[1..], c);
      assert (s + [c])[1..] == s[1..] + [c];
    }
  }

  lemma TrimSkipsTrailingSpace(s: string, c: char)
    requires IsSpace(c)
    ensures Trim(s + [c]) == Trim(s)
  {
    TrimLeftAppend(s, c);
    assert TrimLeft(s) != [] ==> (TrimLeft(s) + [c])[..|TrimLeft(s)|] == TrimLeft(s);
  }

  lemma KeptOfLast(parts: seq<string>, x: string)
    ensures KeptElements(parts + [x]) == KeptElements(parts) + Piece(x)
  {
    assert (parts + [x])[..|parts|] == parts;
  }

  lemma {:induction false} KeptFromFront(a: string, parts: seq<string>)
    ensures KeptElements([a] + parts) == Piece(a) + KeptElements(parts)
  {
    var all := [a] + parts;
    if parts == [] {
      assert all[..0] == [];
    } else {
      var before, x := parts[..|parts| - 1], parts[|parts| - 1];
      assert all == ([a] + before) + [x] && parts == before + [x];
      KeptFromFront(a, before);
      KeptOfLast([a] + before, x);
      KeptOfLast(before, x);
      Associates(Piece(a), KeptElements(before), Piece(x));
    }
  }

  lemma Associates(a: seq<string>, b: seq<string>, c: seq<string>)
    ensures (a + b) + c == a + (b + c)
  {
  }

  /** What a displayed value stands for, its lone words aside. */
  function KeptOf(value: string): seq<string> {
    KeptElements(Split(value, ';'))
  }

  lemma {:induction false} SameUnderTrimLeft(f: string -> seq<string>, v: string)
    requires forall w: string :: w != [] && IsSpace(w[0]) ==> f(w) == f(w[1..])
    ensures f(TrimLeft(v)) == f(v)
  {
    if v != [] && IsSpace(v[0]) { SameUnderTrimLeft(f, v[1..]); }
  }

  lemma {:induction false} SameUnderTrimRight(f: string -> seq<string>, v: string)
    requires forall w: string :: w != [] && IsSpace(w[|w| - 1]) ==> f(w) == f(w[..|w| - 1])
    ensures f(TrimRight(v)) == f(v)
  {
    if v != [] && IsSpace(v[|v| - 1]) { SameUnderTrimRight(f, v[..|v| - 1]); }
  }

  lemma KeptSkipsLeading(v: string)
    requires v != [] && IsSpace(v[0])
    ensures KeptOf(v) == KeptOf(v[1..])
  {
    var rest := Split(v[1..], ';');
    assert Trim([v[0]] + rest[0]) == Trim(rest[0]) by {
      assert ([v[0]] + rest[0])[1..] == rest[0];
    }
    KeptFromFront([v[0]] + rest[0], rest[1..]);
    KeptFromFront(rest[0], rest[1..]);
    assert rest == [rest[0]] + rest[1..];
  }

  lemma SplitTrailing(w: string, c: char)
    requires c != ';'
    ensures Split(w + [c], ';') == Complete(w, ';') + [Rest(w, ';') + [c]]
  {
    SplitAppend(w, [c], ';');
    SplitPrepend(Rest(w, ';') + [c], [], ';');
  }

  lemma KeptSkipsTrailing(v: string)
    requires v != [] && IsSpace(v[|v| - 1])
    ensures KeptOf(v) == KeptOf(v[..|v| - 1])
  {
    var w, c := v[..|v| - 1], v[|v| - 1];
    assert v == w + [c];
    SplitTrailing(w, c);
    SplitWhole(w);
    TrimSkipsTrailingSpace(Rest(w, ';'), c);
    KeptSwapsLast(Complete(w, ';'), Rest(w, ';') + [c], Rest(w, ';'));
  }

  lemma SplitWhole(w: string)
    ensures Split(w, ';') == Complete(w, ';') + [Rest(w, ';')]
  {
  }

  lemma KeptSwapsLast(parts: seq<string>, x: string, y: string)
    requires Trim(x) == Trim(y)
    ensures KeptElements(parts + [x]) == KeptElements(parts + [y])
  {
    KeptOfLast(parts, x);
    KeptOfLast(parts, y);
  }

  /** Blanks around a displayed value do not matter. */
  lemma KeptIgnoresBlanks(v: string)
    ensures KeptOf(Trim(v)) == KeptOf(v)
  {
    forall w: string | w != [] && IsSpace(w[0]) ensures KeptOf(w) == KeptOf(w[1..]) {
      KeptSkipsLeading(w);
    }
    forall w: string | w != [] && IsSpace(w[|w| - 1]) ensures KeptOf(w) == KeptOf(w[..|w| - 1]) {
      KeptSkipsTrailing(w);
    }
    SameUnderTrimLeft(KeptOf, v);
    SameUnderTrimRight(KeptOf, TrimLeft(v));
  }

  lemma {:induction false} KeptOfWhole(xs: seq<string>)
    requires forall i :: 0 <= i < |xs| ==> Trim(xs[i]) != ""
    ensures KeptElements(xs) == TrimAll(xs)
  {
    if xs != [] { KeptOfWhole(xs[..|xs| - 1]); }
  }

  lemma KeptOfJoined(xs: seq<string>)
    requires xs != [] && forall i :: 0 <= i < |xs| ==> Trim(xs[i]) != "" && ';' !in xs[i]
    ensures KeptOf(Trim(Join(xs, ';'))) == TrimAll(xs)
  {
    var v := Join(xs, ';');
    SplitJoin(xs, ';');
    KeptOfWhole(xs);
    KeptIgnoresBlanks(v);
  }

  lemma KeptOfOne(x: string)
    requires Trimmed(x) && ';' !in x
    ensures KeptOf(x) == if x == [] then [] else [x]
  {
    SplitPrepend(x, [], ';');
    KeptOfLast([], x);
    assert [] + [x] == [x];
    TrimIsTrimmed(x);
  }

  lemma JoinedIsOne(xs: seq<string>, x: string)
    requires xs != [] && forall i :: 0 <= i < |xs| ==> Trim(xs[i]) != "" && ';' !in xs[i]
    requires Trim(Join(xs, ';')) == x && Trimmed(x) && ';' !in x
    ensures x != [] && TrimAll(xs) == [x]
  {
    KeptOfJoined(xs);
    KeptOfOne(x);
    TrimAllAt(xs, 0);
  }

  /** Short of the lone word, a displayed value is read back as what it stands for. */
  lemma ReadBack(value: string, parts: seq<string>)
    requires KeptOf(value) == parts && value != "" && value != NONE_SENTINEL
    ensures DisplayList(value) == parts
  {
  }

  lemma WholeComesBack(xs: seq<string>, value: string)
    requires xs != [] && forall i :: 0 <= i < |xs| ==> Trim(xs[i]) != "" && ';' !in xs[i]
    requires value == Trim(Join(xs, ';'))
    ensures if value == NONE_SENTINEL then TrimAll(xs) == [NONE_SENTINEL] else DisplayList(value) == TrimAll(xs)
  {
    KeptOfJoined(xs);
    if value == NONE_SENTINEL || value == "" {
      SentinelIsTrimmed();
      JoinedIsOne(xs, value);
    } else {
      ReadBack(value, TrimAll(xs));
    }
  }

  lemma SentinelIsTrimmed()
    ensures Trimmed(NONE_SENTINEL) && ';' !in NONE_SENTINEL && NONE_SENTINEL != ""
  {
  }

  lemma DisplayListHasNoSeparator(value: string, x: string)
    requires x in DisplayList(value)
    ensures ';' !in x
  {
    KeptElementsShape(Split(value, ';'));
  }

  lemma LoneNoneIsEmpty(xs: seq<string>)
    requires TrimAll(xs) == [NONE_SENTINEL]
    ensures DisplayList(Trim(JoinDisplayList(xs))) == []
  {
    assert xs != [];
    TrimAllAt(xs, 0);
    assert Join(xs, ';') == xs[0];
  }

  lemma ElementsHaveNoSeparator(xs: seq<string>, value: string, i: nat)
    requires DisplayList(value) == TrimAll(xs) && i < |xs|
    ensures ';' !in xs[i]
  {
    TrimAllAt(xs, i);
    DisplayListHasNoSeparator(value, TrimAll(xs)[i]);
    TrimLeftKeeps(xs[i], ';');
    TrimRightKeeps(TrimLeft(xs[i]), ';');
  }

  /** Shown and read back, a list without blank elements comes back trimmed exactly when no element holds a
      semicolon and it is not the lone word for an empty list. */
  lemma ListsComeBack(xs: seq<string>)
    requires xs != [] && forall i :: 0 <= i < |xs| ==> Trim(xs[i]) != ""
    ensures DisplayList(Trim(JoinDisplayList(xs))) == TrimAll(xs) <==>
              (forall i :: 0 <= i < |xs| ==> ';' !in xs[i]) && TrimAll(xs) != [NONE_SENTINEL]
  {
    if TrimAll(xs) == [NONE_SENTINEL] {
      LoneNoneIsEmpty(xs);
    } else if forall i :: 0 <= i < |xs| ==> ';' !in xs[i] {
      WholeComesBack(xs, Trim(JoinDisplayList(xs)));
    } else if DisplayList(Trim(JoinDisplayList(xs))) == TrimAll(xs) {
      forall i | 0 <= i < |xs| ensures ';' !in xs[i] {
        ElementsHaveNoSeparator(xs, Trim(JoinDisplayList(xs)), i);
      }
    }
  }

  /** One target with a semicolon does not come back. */
  lemma SemicolonsAreLost()
    ensures DisplayList(Trim(JoinDisplayList(["a;b"]))) != TrimAll(["a;b"])
  {
    var xs := ["a;b"];
    assert Trim(xs[0]) == "a;b" by { TrimIsTrimmed("a;b"); }
    assert ';' in xs[0] by { assert xs[0][1] == ';'; }
    ListsComeBack(xs);
  }

  lemma KnownStatus(r: Result)
    requires WorkerStatus(r.status) || ReviewerStatus(r.status)
    ensures Trim(StatusName(r.status)) != "" && Normalised(r).status == r.status
  {
    NormalisedNames(r);
    TrimIsTrimmed(StatusName(r.status));
  }

  lemma KnownRisk(r: Result)
    requires r.risk == Low || r.risk == High
    ensures Normalised(r).risk == r.risk
  {
    TrimIsTrimmed(RiskName(r.risk));
  }

  lemma TargetsComeBack(r: Result)
    requires TargetsOk(r)
    ensures Normalised(r).targets == TrimAll(r.targets) <==>
              (forall i :: 0 <= i < |r.targets| ==> ';' !in r.targets[i]) && TrimAll(r.targets) != [NONE_SENTINEL]
  {
    if r.targets == [] {
      assert !Displays(r, KTargets);
    } else {
      forall i | 0 <= i < |r.targets| ensures Trim(r.targets[i]) != "" {
        assert ElementOk(r, r.targets[i]);
      }
      ListsComeBack(r.targets);
      assert Displays(r, KTargets);
    }
  }

  /** A validated result comes back with its own status and risk, and its texts trimmed; its targets come
      back exactly when none of them holds a semicolon and they are not the lone word for an empty list. */
  lemma ValidatedResultsComeBack(r: Result)
    requires WorkerVerdict(r) == Valid || ReviewerVerdict(r) == Valid
    ensures ParsedLines(DisplayLines(r)) == Good(Normalised(r))
    ensures Normalised(r).status == r.status && Normalised(r).risk == r.risk
    ensures Normalised(r).targets == TrimAll(r.targets) <==>
              (forall i :: 0 <= i < |r.targets| ==> ';' !in r.targets[i]) && TrimAll(r.targets) != [NONE_SENTINEL]
  {
    KnownStatus(r);
    KnownRisk(r);
    DisplayRoundTrip(r);
    TargetsComeBack(r);
  }

  lemma ValidatedTextsComeBack(r: Result, k: Key)
    requires Displays(r, k) && k != KTargets && k != KArtifacts && k != KStatus && k != KRisk
    ensures ValueOf(Normalised(r), k) == Trim(ValueOf(r, k))
  {
    NormalisedValue(r, k);
  }
}
