/** The line a search result shows (glm-worker/internal/reposearch/score.go). */
module Snippets {
  import opened Text
  import opened Tokenizer

  const MAX_SNIPPET := 200

  /** Occurrences of the query's tokens in a line, repeated query tokens each time. */
  function LineScore(a: Alphabet, line: string, query: seq<string>): nat {
    if query == [] then 0
    else LineScore(a, line, query[..|query| - 1]) + multiset(Tokens(a, line))[query[|query| - 1]]
  }

  /** A line's score adds up over the query, and for one token is its number of occurrences. */
  lemma {:induction false} LineScoreAdds(a: Alphabet, line: string, p: seq<string>, q: seq<string>)
    ensures LineScore(a, line, p + q) == LineScore(a, line, p) + LineScore(a, line, q)
  {
    if q == [] {
      assert p + q == p;
    } else {
      assert (p + q)[..|p + q| - 1] == p + q[..|q| - 1];
      LineScoreAdds(a, line, p, q[..|q| - 1]);
    }
  }

  lemma LineScoreOfOne(a: Alphabet, line: string, token: string)
    ensures LineScore(a, line, []) == 0 && LineScore(a, line, [token]) == multiset(Tokens(a, line))[token]
  {
    assert [token][..0] == [];
  }

  method LineTokenScore(a: Alphabet, line: string, query: seq<string>) returns (total: nat)
    ensures total == LineScore(a, line, query)
  {
    var tokens := Tokenize(a, line);
    var counts := TermFrequencies(tokens);
    total := 0;
    for i := 0 to |query|
      invariant total == LineScore(a, line, query[..i])
    {
      assert query[..i + 1][..i] == query[..i];
      total := total + CountOf(counts, query[i]);
    }
    assert query[..|query|] == query;
  }

  /** At most 200 characters, the last three dots when something was cut off. */
  function TruncateSnippet(line: string): (s: string)
    ensures |s| <= MAX_SNIPPET
    ensures |line| <= MAX_SNIPPET ==> s == line
    ensures |line| > MAX_SNIPPET ==> |s| == MAX_SNIPPET && s[..MAX_SNIPPET - 3] == line[..MAX_SNIPPET - 3]
    ensures |line| > MAX_SNIPPET ==> s[MAX_SNIPPET - 3..] == "..."
  {
    if |line| <= MAX_SNIPPET then line else line[..MAX_SNIPPET - 3] + "..."
  }

  function TrimReturn(line: string): string {
    if line != [] && line[|line| - 1] == '\r' then line[..|line| - 1] else line
  }

  function SnippetOf(line: string): string {
    TruncateSnippet(Trim(TrimReturn(line)))
  }

  /** Line number n, counted from one, is the first with the highest count; zero stands for no line. */
  ghost predicate IsBest(a: Alphabet, lines: seq<string>, query: seq<string>, n: nat) {
    && n <= |lines|
    && (n == 0 <==> forall i :: 0 <= i < |lines| ==> LineScore(a, lines[i], query) == 0)
    && (n > 0 ==>
          && (forall i :: 0 <= i < n - 1 ==> LineScore(a, lines[i], query) < LineScore(a, lines[n - 1], query))
          && (forall i :: n <= i < |lines| ==> LineScore(a, lines[i], query) <= LineScore(a, lines[n - 1], query)))
  }

  /** The best line of a content and its snippet. */
  ghost predicate Shows(a: Alphabet, content: string, query: seq<string>, number: nat, snippet: string) {
    var lines := Split(content, '\n');
    IsBest(a, lines, query, number) && snippet == if number == 0 then "" else SnippetOf(lines[number - 1])
  }

  method BestLine(a: Alphabet, content: string, query: seq<string>) returns (number: nat, snippet: string)
    ensures Shows(a, content, query, number, snippet)
  {
    var lines := Split(content, '\n');
    var bestCount, bestText := 0, "";
    number := 0;
    for i := 0 to |lines|
      invariant number <= i && (number == 0 <==> bestCount == 0)
      invariant forall k :: 0 <= k < i ==> LineScore(a, lines[k], query) <= bestCount
      invariant number > 0 ==> bestText == lines[number - 1] && bestCount == LineScore(a, lines[number - 1], query)
      invariant forall k :: 0 <= k < number - 1 ==> LineScore(a, lines[k], query) < bestCount
    {
      var count := LineTokenScore(a, lines[i], query);
      if count > bestCount {
        number, bestText, bestCount := i + 1, lines[i], count;
      }
    }
    if bestCount == 0 { return 0, ""; }
    snippet := SnippetOf(bestText);
  }

  /** There is only one best line. */
  lemma BestIsUnique(a: Alphabet, lines: seq<string>, query: seq<string>, m: nat, n: nat)
    requires IsBest(a, lines, query, m) && IsBest(a, lines, query, n)
    ensures m == n
  {
    if 0 < m && 0 < n {
      assert LineScore(a, lines[m - 1], query) == LineScore(a, lines[n - 1], query);
    }
  }

  lemma ShowsIsUnique(a: Alphabet, content: string, query: seq<string>, m: nat, s: string, n: nat, t: string)
    requires Shows(a, content, query, m, s) && Shows(a, content, query, n, t)
    ensures m == n && s == t
  {
    BestIsUnique(a, Split(content, '\n'), query, m, n);
  }

  lemma {:induction false} LineScoreTells(a: Alphabet, line: string, query: seq<string>)
    ensures LineScore(a, line, query) > 0 <==> exists k :: 0 <= k < |query| && query[k] in Tokens(a, line)
  {
    if query != [] {
      var rest := query[..|query| - 1];
      LineScoreTells(a, line, rest);
      assert query[|query| - 1] in Tokens(a, line) <==> multiset(Tokens(a, line))[query[|query| - 1]] > 0;
      forall k | 0 <= k < |query| && query[k] in Tokens(a, line) && query[|query| - 1] !in Tokens(a, line)
        ensures exists m :: 0 <= m < |rest| && rest[m] in Tokens(a, line)
      {
        assert rest[k] in Tokens(a, line);
      }
      forall m | 0 <= m < |rest| && rest[m] in Tokens(a, line) ensures query[m] in Tokens(a, line) {
      }
    }
  }

  lemma {:induction false} TokenIsInSomeLine(a: Alphabet, lines: seq<string>, t: string)
    ensures LineCounts(a, lines, t) > 0 <==> exists i :: 0 <= i < |lines| && t in Tokens(a, lines[i])
  {
    if lines != [] {
      TokenIsInSomeLine(a, lines[1..], t);
      assert t in Tokens(a, lines[0]) <==> multiset(Tokens(a, lines[0]))[t] > 0;
      forall i | 0 <= i < |lines| && t in Tokens(a, lines[i]) && t !in Tokens(a, lines[0])
        ensures exists m :: 0 <= m < |lines[1..]| && t in Tokens(a, lines[1..][m])
      {
        assert lines[1..][i - 1] == lines[i];
      }
      forall m | 0 <= m < |lines[1..]| && t in Tokens(a, lines[1..][m]) ensures t in Tokens(a, lines[m + 1]) {
      }
    }
  }

  /** A line is shown exactly when the content holds a query token: ranking and snippets agree. */
  lemma SnippetTellsContent(a: Alphabet, content: string, query: seq<string>, number: nat, snippet: string)
    requires Proper(a) && Shows(a, content, query, number, snippet)
    ensures number > 0 <==> exists k :: 0 <= k < |query| && query[k] in Tokens(a, content)
  {
    var lines := Split(content, '\n');
    forall t: string ensures t in Tokens(a, content) <==> exists i :: 0 <= i < |lines| && t in Tokens(a, lines[i]) {
      CountsAddUpOverLines(a, content, t);
      TokenIsInSomeLine(a, lines, t);
      assert t in Tokens(a, content) <==> multiset(Tokens(a, content))[t] > 0;
    }
    forall i | 0 <= i < |lines|
      ensures LineScore(a, lines[i], query) > 0 <==> exists k :: 0 <= k < |query| && query[k] in Tokens(a, lines[i])
    {
      LineScoreTells(a, lines[i], query);
    }
  }
}
