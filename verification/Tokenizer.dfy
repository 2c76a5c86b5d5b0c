/** Query, content and path share one tokenizer (glm-worker/internal/reposearch/tokenize.go). */
module Tokenizer {
  import opened Text

  /** The character tables: letters and digits, the CJK scripts among them, and lower case. A newline is
      neither letter nor digit. */
  datatype Alphabet = Alphabet(word: char -> bool, cjk: char -> bool, lower: char -> char)

  predicate Proper(a: Alphabet) {
    !a.word('\n')
  }

  function Lowered(a: Alphabet, run: string): string {
    seq(|run|, i requires 0 <= i < |run| => a.lower(run[i]))
  }

  /** Every two neighbours of a run of CJK characters; a lone one is its own token. */
  function Grams(run: string): seq<string>
    requires run != []
  {
    if |run| == 1 then [run] else seq(|run| - 1, i requires 0 <= i < |run| - 1 => run[i..i + 2])
  }

  /** The tokens of one finished run. */
  function Flush(a: Alphabet, run: string): seq<string> {
    if run == [] then [] else if a.cjk(run[0]) then Grams(run) else [Lowered(a, run)]
  }

  predicate Breaks(a: Alphabet, run: string, c: char) {
    run != [] && a.cjk(c) != a.cjk(run[|run| - 1])
  }

  /** The tokens of a text that continues an unfinished run. */
  function Lex(a: Alphabet, run: string, text: string): seq<string>
    decreases |text|
  {
    if text == [] then Flush(a, run)
    else if !a.word(text[0]) then Flush(a, run) + Lex(a, [], text[1..])
    else if Breaks(a, run, text[0]) then Flush(a, run) + Lex(a, [text[0]], text[1..])
    else Lex(a, run + [text[0]], text[1..])
  }

  function Tokens(a: Alphabet, text: string): seq<string> {
    Lex(a, [], text)
  }

  // ---------------------------------------------------------------- the loops

  method CjkGrams(run: string) returns (grams: seq<string>)
    requires run != []
    ensures grams == Grams(run)
  {
    if |run| == 1 { return [run]; }
    grams := [];
    for i := 0 to |run| - 1
      invariant |grams| == i && forall k :: 0 <= k < i ==> grams[k] == run[k..k + 2]
    {
      grams := grams + [run[i..i + 2]];
    }
  }

  method FlushRun(a: Alphabet, run: string, tokens: seq<string>) returns (flushed: seq<string>)
    ensures flushed == tokens + Flush(a, run)
  {
    if run == [] { return tokens; }
    if a.cjk(run[0]) {
      var grams := CjkGrams(run);
      flushed := tokens + grams;
    } else {
      flushed := tokens + [Lowered(a, run)];
    }
  }

  method Tokenize(a: Alphabet, text: string) returns (tokens: seq<string>)
    ensures tokens == Tokens(a, text)
  {
    tokens := [];
    var run := [];
    for i := 0 to |text|
      invariant tokens + Lex(a, run, text[i..]) == Tokens(a, text)
    {
      assert text[i..][0] == text[i] && text[i..][1..] == text[i + 1..];
      ghost var before, pending := tokens, run;
      if !a.word(text[i]) {
        tokens := FlushRun(a, run, tokens);
        run := [];
      } else {
        if Breaks(a, run, text[i]) {
          tokens := FlushRun(a, run, tokens);
          run := [];
        }
        run := run + [text[i]];
        assert [] + [text[i]] == [text[i]];
      }
      assert tokens + Lex(a, run, text[i + 1..]) == before + Lex(a, pending, text[i..]);
    }
    assert text[|text|..] == [];
    tokens := FlushRun(a, run, tokens);
  }

  // ---------------------------------------------------------------- what the tokens are

  /** Characters i to j are a whole run: words of one script, bounded on both sides. */
  ghost predicate IsRun(a: Alphabet, text: string, i: nat, j: nat) {
    && i < j <= |text| && Uniform(a, text[i..j])
    && (0 < i ==> Apart(a, text[i - 1], text[i])) && (j < |text| ==> Apart(a, text[j], text[j - 1]))
  }

  predicate Uniform(a: Alphabet, run: string) {
    forall k :: 0 <= k < |run| ==> a.word(run[k]) && a.cjk(run[k]) == a.cjk(run[0])
  }

  /** c does not continue the run that d belongs to. */
  predicate Apart(a: Alphabet, c: char, d: char) {
    !a.word(c) || a.cjk(c) != a.cjk(d)
  }

  ghost predicate FromRun(a: Alphabet, text: string, t: string) {
    exists i: nat, j: nat :: IsRun(a, text, i, j) && t in Flush(a, text[i..j])
  }

  /** The tokens of a text are exactly those of its maximal runs. */
  lemma TokensComeFromRuns(a: Alphabet, text: string, t: string)
    ensures t in Tokens(a, text) <==> FromRun(a, text, t)
  {
    assert text[0..] == text;
    LexComesFromRuns(a, text, 0, 0, t);
  }

  ghost predicate RunFrom(a: Alphabet, text: string, i: nat, t: string) {
    exists s: nat, e: nat :: i <= s && IsRun(a, text, s, e) && t in Flush(a, text[s..e])
  }

  /** No run goes across i. */
  predicate Boundary(a: Alphabet, text: string, i: nat)
    requires i <= |text|
  {
    i == 0 || i == |text| || !a.word(text[i]) || Apart(a, text[i - 1], text[i])
  }

  /** Between two boundaries a uniform stretch is one run, and the only one. */
  lemma OneRun(a: Alphabet, text: string, i: nat, j: nat, s: nat, e: nat)
    requires i < j <= |text| && Uniform(a, text[i..j]) && Boundary(a, text, i)
    requires j < |text| ==> Apart(a, text[j], text[j - 1])
    ensures IsRun(a, text, i, j)
    ensures i <= s && IsRun(a, text, s, e) ==> (s == i && e == j) || s >= j
  {
    assert forall k :: i <= k < j ==> text[k] == text[i..j][k - i];
    if i <= s < j && IsRun(a, text, s, e) {
      assert forall k :: s <= k < e ==> text[k] == text[s..e][k - s];
    }
  }

  lemma RunsFromBoundary(a: Alphabet, text: string, i: nat, j: nat, t: string)
    requires i < j <= |text| && Uniform(a, text[i..j]) && Boundary(a, text, i)
    requires j < |text| ==> Apart(a, text[j], text[j - 1])
    ensures RunFrom(a, text, i, t) <==> t in Flush(a, text[i..j]) || RunFrom(a, text, j, t)
  {
    forall s: nat, e: nat | i <= s && IsRun(a, text, s, e) ensures (s == i && e == j) || s >= j {
      OneRun(a, text, i, j, s, e);
    }
    OneRun(a, text, i, j, i, j);
  }

  /** A character outside every run begins none. */
  lemma RunsSkipSeparator(a: Alphabet, text: string, j: nat, t: string)
    requires j < |text| && !a.word(text[j])
    ensures RunFrom(a, text, j, t) <==> RunFrom(a, text, j + 1, t)
  {
    forall s: nat, e: nat | j <= s && IsRun(a, text, s, e) ensures s >= j + 1 {
      assert text[s..e][0] == text[s];
    }
  }

  lemma LexAtEnd(a: Alphabet, text: string, i: nat, t: string)
    requires i <= |text| && Uniform(a, text[i..|text|]) && Boundary(a, text, i)
    ensures t in Lex(a, text[i..|text|], text[|text|..]) <==> RunFrom(a, text, i, t)
  {
    if i < |text| { RunsFromBoundary(a, text, i, |text|, t); }
  }

  /** One more word character goes on with the run, or begins the next one. */
  lemma OneCharacter(a: Alphabet, text: string, i: nat, j: nat)
    requires i <= j < |text| && Uniform(a, text[i..j]) && a.word(text[j])
    ensures Uniform(a, text[j..j + 1]) && (Breaks(a, text[i..j], text[j]) ==> i < j && Boundary(a, text, j))
    ensures !Breaks(a, text[i..j], text[j]) ==> (
              Uniform(a, text[i..j + 1]) && Lex(a, text[i..j], text[j..]) == Lex(a, text[i..j + 1], text[j + 1..]))
  {
    assert text[j..][0] == text[j] && text[j..][1..] == text[j + 1..];
    assert text[i..j + 1] == text[i..j] + [text[j]];
    assert i < j ==> text[i..j][j - i - 1] == text[j - 1];
  }

  lemma LexAtSeparator(a: Alphabet, text: string, i: nat, j: nat, t: string)
    requires i <= j < |text| && Uniform(a, text[i..j]) && Boundary(a, text, i) && !a.word(text[j])
    requires t in Lex(a, text[j + 1..j + 1], text[j + 1..]) <==> RunFrom(a, text, j + 1, t)
    ensures t in Lex(a, text[i..j], text[j..]) <==> RunFrom(a, text, i, t)
  {
    assert text[j + 1..j + 1] == [] && text[j..][0] == text[j] && text[j..][1..] == text[j + 1..];
    RunsSkipSeparator(a, text, j, t);
    if i < j { RunsFromBoundary(a, text, i, j, t); }
  }

  lemma LexAtBreak(a: Alphabet, text: string, i: nat, j: nat, t: string)
    requires i < j < |text| && Uniform(a, text[i..j]) && Boundary(a, text, i)
    requires a.word(text[j]) && Breaks(a, text[i..j], text[j])
    requires t in Lex(a, text[j..j + 1], text[j + 1..]) <==> RunFrom(a, text, j, t)
    ensures t in Lex(a, text[i..j], text[j..]) <==> RunFrom(a, text, i, t)
  {
    assert text[j..j + 1] == [text[j]] && text[j..][0] == text[j] && text[j..][1..] == text[j + 1..];
    assert text[i..j][j - i - 1] == text[j - 1];
    RunsFromBoundary(a, text, i, j, t);
  }

  /** With characters i to j read and not yet flushed, the rest yields the tokens of the runs from i on. */
  lemma {:induction false} LexComesFromRuns(a: Alphabet, text: string, i: nat, j: nat, t: string)
    requires i <= j <= |text| && Uniform(a, text[i..j]) && Boundary(a, text, i)
    ensures t in Lex(a, text[i..j], text[j..]) <==> RunFrom(a, text, i, t)
    decreases |text| - j
  {
    if j == |text| {
      LexAtEnd(a, text, i, t);
    } else {
      if !a.word(text[j]) {
        LexComesFromRuns(a, text, j + 1, j + 1, t);
        LexAtSeparator(a, text, i, j, t);
      } else if Breaks(a, text[i..j], text[j]) {
        OneCharacter(a, text, i, j);
        LexComesFromRuns(a, text, j, j + 1, t);
        LexAtBreak(a, text, i, j, t);
      } else {
        OneCharacter(a, text, i, j);
        LexComesFromRuns(a, text, i, j + 1, t);
      }
    }
  }

  // ---------------------------------------------------------------- what a token looks like

  /** A token of the run from i to j: the whole run in lower case, or two neighbours of a run of CJK characters, or a
      lone one. */
  ghost predicate TokenOfRun(a: Alphabet, text: string, i: nat, j: nat, t: string)
    requires i < j <= |text|
  {
    if !a.cjk(text[i]) then |t| == j - i && forall k :: 0 <= k < |t| ==> t[k] == a.lower(text[i + k])
    else if j == i + 1 then t == [text[i]]
    else exists k :: i <= k < j - 1 && t == [text[k], text[k + 1]]
  }

  /** The tokens of a text are these and no others. */
  lemma TokensAre(a: Alphabet, text: string, t: string)
    ensures t in Tokens(a, text) <==> exists i: nat, j: nat :: IsRun(a, text, i, j) && TokenOfRun(a, text, i, j, t)
  {
    TokensComeFromRuns(a, text, t);
    forall i: nat, j: nat | IsRun(a, text, i, j) ensures t in Flush(a, text[i..j]) <==> TokenOfRun(a, text, i, j, t) {
      RunTokens(a, text, i, j, t);
    }
  }

  lemma RunTokens(a: Alphabet, text: string, i: nat, j: nat, t: string)
    requires i < j <= |text|
    ensures t in Flush(a, text[i..j]) <==> TokenOfRun(a, text, i, j, t)
  {
    var run := text[i..j];
    assert run[0] == text[i];
    if a.cjk(text[i]) && j > i + 1 {
      forall k | 0 <= k < |run| - 1 ensures Grams(run)[k] == [text[i + k], text[i + k + 1]] {
        assert run[k..k + 2] == [run[k], run[k + 1]];
      }
      if t in Grams(run) {
        var k :| 0 <= k < |run| - 1 && Grams(run)[k] == t;
        assert i <= i + k < j - 1 && t == [text[i + k], text[i + k + 1]];
      }
      if k :| i <= k < j - 1 && t == [text[k], text[k + 1]] {
        assert Grams(run)[k - i] == t;
      }
    } else if a.cjk(text[i]) {
      assert run == [text[i]];
    } else if TokenOfRun(a, text, i, j, t) {
      assert t == Lowered(a, run);
    }
  }

  /** A text that is one run gives the run in lower case, or the neighbouring pairs in order. */
  lemma OneRunTokens(a: Alphabet, text: string)
    requires text != [] && Uniform(a, text)
    ensures var tokens := Tokens(a, text);
            if !a.cjk(text[0]) then
              |tokens| == 1 && |tokens[0]| == |text| && forall k :: 0 <= k < |text| ==> tokens[0][k] == a.lower(text[k])
            else if |text| == 1 then tokens == [text]
            else |tokens| == |text| - 1 && forall k :: 0 <= k < |tokens| ==> tokens[k] == [text[k], text[k + 1]]
  {
    LexReads(a, text, 0);
    assert text[..0] == [] && text[0..] == text;
  }

  lemma {:induction false} LexReads(a: Alphabet, text: string, i: nat)
    requires i <= |text| && Uniform(a, text)
    ensures Lex(a, text[..i], text[i..]) == Flush(a, text)
    decreases |text| - i
  {
    if i == |text| {
      assert text[..i] == text;
    } else {
      assert text[i..][0] == text[i] && text[i..][1..] == text[i + 1..] && text[..i] + [text[i]] == text[..i + 1];
      LexReads(a, text, i + 1);
    }
  }

  /** Where no run goes across, the tokens of a text are those of its two parts one after the other. */
  lemma TokensOfParts(a: Alphabet, text: string, i: nat)
    requires i <= |text| && Boundary(a, text, i)
    ensures Tokens(a, text) == Tokens(a, text[..i]) + Tokens(a, text[i..])
  {
    assert text[..i] + text[i..] == text;
    LexOfParts(a, [], text[..i], text[i..]);
  }

  /** The character that a run would have to go on with. */
  predicate Stops(a: Alphabet, before: string, c: char) {
    before == [] || !a.word(before[|before| - 1]) || Apart(a, c, before[|before| - 1])
  }

  lemma LexAtStop(a: Alphabet, run: string, v: string)
    requires run != [] ==> a.word(run[|run| - 1])
    requires v != [] ==> Stops(a, run, v[0])
    ensures Lex(a, run, v) == Flush(a, run) + Tokens(a, v)
  {
    assert Tokens(a, []) == [];
    if v != [] { assert [] + [v[0]] == [v[0]]; }
  }

  lemma {:induction false} LexOfParts(a: Alphabet, run: string, u: string, v: string)
    requires (v != [] ==> Stops(a, run + u, v[0])) && (run != [] ==> a.word(run[|run| - 1]))
    ensures Lex(a, run, u + v) == Lex(a, run, u) + Tokens(a, v)
    decreases |u|
  {
    if u == [] {
      assert u + v == v && run + u == run;
      LexAtStop(a, run, v);
    } else {
      assert (u + v)[1..] == u[1..] + v;
      var next := if !a.word(u[0]) then [] else if Breaks(a, run, u[0]) then [u[0]] else run + [u[0]];
      SameLast(run, u, next);
      LexOfParts(a, next, u[1..], v);
    }
  }

  lemma SameLast(run: string, u: string, next: string)
    requires u != [] && next in {[], [u[0]], run + [u[0]]}
    ensures next + u[1..] != [] ==> (next + u[1..])[|next + u[1..]| - 1] == (run + u)[|run + u| - 1]
  {
  }

  /** A character that is no word has no tokens. */
  lemma SeparatorsHaveNone(a: Alphabet, c: char)
    requires !a.word(c)
    ensures Tokens(a, [c]) == []
  {
    assert [c][1..] == [] && Lex(a, [], []) == [];
  }

  // ---------------------------------------------------------------- upper and lower case

  /** Lower case is final, and keeps letters letters and scripts scripts. */
  ghost predicate Folds(a: Alphabet) {
    forall c :: a.lower(a.lower(c)) == a.lower(c) && a.word(a.lower(c)) == a.word(c) && a.cjk(a.lower(c)) == a.cjk(c)
  }

  /** The texts differ in nothing but case, outside CJK characters. */
  ghost predicate SameButCase(a: Alphabet, s: string, t: string) {
    && |s| == |t|
    && forall i :: 0 <= i < |s| ==> a.lower(s[i]) == a.lower(t[i]) && (a.cjk(s[i]) ==> s[i] == t[i])
  }

  /** Case makes no difference to the tokens. */
  lemma CaseDoesNotMatter(a: Alphabet, s: string, t: string)
    requires Folds(a) && SameButCase(a, s, t)
    ensures Tokens(a, s) == Tokens(a, t)
  {
    LexFolds(a, [], [], s, t);
  }

  lemma SameScript(a: Alphabet, c: char, d: char)
    requires Folds(a) && a.lower(c) == a.lower(d)
    ensures a.word(c) == a.word(d) && a.cjk(c) == a.cjk(d)
  {
    assert a.word(a.lower(c)) == a.word(c) && a.word(a.lower(d)) == a.word(d);
    assert a.cjk(a.lower(c)) == a.cjk(c) && a.cjk(a.lower(d)) == a.cjk(d);
  }

  lemma FlushFolds(a: Alphabet, s: string, t: string)
    requires Folds(a) && SameButCase(a, s, t) && Uniform(a, s)
    ensures Flush(a, s) == Flush(a, t)
  {
    if s != [] {
      SameScript(a, s[0], t[0]);
      if a.cjk(s[0]) {
        assert s == t;
      } else {
        assert Lowered(a, s) == Lowered(a, t);
      }
    }
  }

  lemma {:induction false} LexFolds(a: Alphabet, r: string, q: string, s: string, t: string)
    requires Folds(a) && SameButCase(a, r, q) && Uniform(a, r) && SameButCase(a, s, t)
    ensures Lex(a, r, s) == Lex(a, q, t)
    decreases |s|
  {
    FlushFolds(a, r, q);
    if s != [] {
      SameScript(a, s[0], t[0]);
      if r != [] { SameScript(a, r[|r| - 1], q[|q| - 1]); }
      if !a.word(s[0]) {
        LexFolds(a, [], [], s[1..], t[1..]);
      } else if Breaks(a, r, s[0]) {
        LexFolds(a, [s[0]], [t[0]], s[1..], t[1..]);
      } else {
        LexFolds(a, r + [s[0]], q + [t[0]], s[1..], t[1..]);
      }
    }
  }

  // ---------------------------------------------------------------- tokens and lines

  /** A newline ends every run: the tokens before it and after it do not touch. */
  lemma {:induction false} LexSplitsAtNewline(a: Alphabet, run: string, head: string, tail: string)
    requires Proper(a)
    ensures Lex(a, run, head + ['\n'] + tail) == Lex(a, run, head) + Tokens(a, tail)
    decreases |head|
  {
    var text := head + ['\n'] + tail;
    if head == [] {
      assert text[1..] == tail;
    } else {
      assert text[1..] == head[1..] + ['\n'] + tail;
      if !a.word(head[0]) {
        LexSplitsAtNewline(a, [], head[1..], tail);
      } else if Breaks(a, run, head[0]) {
        LexSplitsAtNewline(a, [head[0]], head[1..], tail);
      } else {
        LexSplitsAtNewline(a, run + [head[0]], head[1..], tail);
      }
    }
  }

  function TokensOfLines(a: Alphabet, lines: seq<string>): seq<string> {
    if lines == [] then [] else Tokens(a, lines[0]) + TokensOfLines(a, lines[1..])
  }

  /** The tokens of a text are those of its lines, line by line. */
  lemma {:induction false} TokensSplitIntoLines(a: Alphabet, lines: seq<string>)
    requires Proper(a) && lines != []
    ensures Tokens(a, Join(lines, '\n')) == TokensOfLines(a, lines)
  {
    if |lines| == 1 {
      assert TokensOfLines(a, lines[1..]) == [];
    } else {
      TokensSplitIntoLines(a, lines[1..]);
      LexSplitsAtNewline(a, [], lines[0], Join(lines[1..], '\n'));
    }
  }

  // ---------------------------------------------------------------- term frequencies

  /** How often each token occurs, and nothing else. */
  ghost predicate Counts(frequencies: map<string, int>, tokens: seq<string>) {
    && (forall t :: t in frequencies <==> t in tokens)
    && (forall t :: t in frequencies ==> frequencies[t] == multiset(tokens)[t])
  }

  method TermFrequencies(tokens: seq<string>) returns (counts: map<string, int>)
    ensures Counts(counts, tokens)
  {
    counts := map[];
    for i := 0 to |tokens|
      invariant Counts(counts, tokens[..i])
    {
      var t := tokens[i];
      assert tokens[..i + 1] == tokens[..i] + [t];
      counts := counts[t := (if t in counts then counts[t] else 0) + 1];
    }
    assert tokens[..|tokens|] == tokens;
  }

  function CountOf(frequencies: map<string, int>, t: string): int {
    if t in frequencies then frequencies[t] else 0
  }

  /** The occurrences of a token in a text add up over its lines. */
  function LineCounts(a: Alphabet, lines: seq<string>, t: string): nat {
    if lines == [] then 0 else multiset(Tokens(a, lines[0]))[t] + LineCounts(a, lines[1..], t)
  }

  lemma {:induction false} CountsAddUpOverLines(a: Alphabet, text: string, t: string)
    requires Proper(a)
    ensures multiset(Tokens(a, text))[t] == LineCounts(a, Split(text, '\n'), t)
  {
    JoinSplit(text, '\n');
    TokensSplitIntoLines(a, Split(text, '\n'));
    LinesCount(a, Split(text, '\n'), t);
  }

  lemma {:induction false} LinesCount(a: Alphabet, lines: seq<string>, t: string)
    ensures multiset(TokensOfLines(a, lines))[t] == LineCounts(a, lines, t)
  {
    if lines != [] { LinesCount(a, lines[1..], t); }
  }
}
