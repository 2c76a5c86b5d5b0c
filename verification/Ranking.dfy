/** BM25 ranking over the reals (glm-worker/internal/reposearch/score.go). */
module Ranking {
  import opened Tokenizer
  import opened Sorting

  /** What the index keeps of a file. */
  datatype Doc = Doc(
    path: string, contentLength: int, pathLength: int, contentTF: map<string, int>, pathTF: map<string, int>)

  datatype Field = Content | Path

  datatype Result = Result(path: string, score: real, contentScore: real, pathScore: real, line: nat, snippet: string)

  const K1 := 1.2
  const B := 0.75

  function TF(d: Doc, field: Field): map<string, int> {
    if field == Content then d.contentTF else d.pathTF
  }

  function Length(d: Doc, field: Field): int {
    if field == Content then d.contentLength else d.pathLength
  }

  /** A token counts at least once and no more often than the field has tokens. */
  ghost predicate Consistent(d: Doc, field: Field) {
    Length(d, field) >= 0 && forall t :: t in TF(d, field) ==> 0 < TF(d, field)[t] <= Length(d, field)
  }

  ghost predicate AllConsistent(docs: seq<Doc>, field: Field) {
    forall i :: 0 <= i < |docs| ==> Consistent(docs[i], field)
  }

  /** The logarithm is used only for this. */
  ghost predicate PositiveAboveOne(ln: real -> real) {
    forall x :: x > 1.0 ==> ln(x) > 0.0
  }

  // ---------------------------------------------------------------- statistics

  function TotalLength(docs: seq<Doc>, field: Field): int {
    if docs == [] then 0 else TotalLength(docs[..|docs| - 1], field) + Length(docs[|docs| - 1], field)
  }

  function Average(docs: seq<Doc>, field: Field): real
    requires docs != []
  {
    TotalLength(docs, field) as real / |docs| as real
  }

  /** In how many documents a token occurs. */
  function Frequency(docs: seq<Doc>, field: Field, token: string): (n: nat)
    ensures n <= |docs|
  {
    if docs == [] then 0
    else Frequency(docs[..|docs| - 1], field, token) + if CountOf(TF(docs[|docs| - 1], field), token) > 0 then 1 else 0
  }

  lemma {:induction false} TotalCoversEach(docs: seq<Doc>, field: Field, i: nat)
    requires AllConsistent(docs, field) && i < |docs|
    ensures TotalLength(docs, field) >= Length(docs[i], field)
  {
    var rest := docs[..|docs| - 1];
    if i < |rest| {
      TotalCoversEach(rest, field, i);
    } else {
      TotalNotNegative(rest, field);
    }
  }

  lemma {:induction false} TotalNotNegative(docs: seq<Doc>, field: Field)
    requires AllConsistent(docs, field)
    ensures TotalLength(docs, field) >= 0
  {
    if docs != [] { TotalNotNegative(docs[..|docs| - 1], field); }
  }

  /** Where a token occurs, documents have a positive average length: nothing is divided by zero. */
  lemma AverageIsPositive(docs: seq<Doc>, field: Field, i: nat, token: string)
    requires AllConsistent(docs, field) && i < |docs| && CountOf(TF(docs[i], field), token) != 0
    ensures Average(docs, field) > 0.0 && Length(docs[i], field) > 0
  {
    TotalCoversEach(docs, field, i);
  }

  /** The average lies between the lengths. */
  lemma AverageLiesBetween(docs: seq<Doc>, field: Field, least: int, most: int)
    requires docs != [] && forall i :: 0 <= i < |docs| ==> least <= Length(docs[i], field) <= most
    ensures least as real <= Average(docs, field) <= most as real
  {
    TotalLiesBetween(docs, field, least, most);
    NoLessThan(TotalLength(docs, field), |docs|, least);
    NoMoreThan(TotalLength(docs, field), |docs|, most);
  }

  lemma NoLessThan(t: int, n: nat, least: int)
    requires n > 0 && t >= least * n
    ensures t as real / n as real >= least as real
  {
    var q, m, l := t as real / n as real, n as real, least as real;
    assert q * m == t as real && (least * n) as real == l * m;
    assert (q - l) * m == q * m - l * m >= 0.0;
  }

  lemma NoMoreThan(t: int, n: nat, most: int)
    requires n > 0 && t <= most * n
    ensures t as real / n as real <= most as real
  {
    var q, m, h := t as real / n as real, n as real, most as real;
    assert q * m == t as real && (most * n) as real == h * m;
    assert (h - q) * m == h * m - q * m >= 0.0;
  }

  lemma {:induction false} TotalLiesBetween(docs: seq<Doc>, field: Field, least: int, most: int)
    requires forall i :: 0 <= i < |docs| ==> least <= Length(docs[i], field) <= most
    ensures least * |docs| <= TotalLength(docs, field) <= most * |docs|
  {
    if docs != [] {
      var n := |docs| - 1;
      TotalLiesBetween(docs[..n], field, least, most);
      assert least * |docs| == least * n + least && most * |docs| == most * n + most;
    }
  }

  // ---------------------------------------------------------------- scores

  function Idf(ln: real -> real, count: nat, frequency: nat): real
    requires frequency <= count
  {
    ln(1.0 + ((count - frequency) as real + 0.5) / (frequency as real + 0.5))
  }

  function TermScore(idf: real, tf: int, length: int, average: real): real
    requires tf > 0 && length >= 0 && average > 0.0
  {
    NormIsPositive(length, average);
    idf * (tf as real * (K1 + 1.0)) / (tf as real + K1 * (1.0 - B + B * length as real / average))
  }

  lemma NormIsPositive(length: int, average: real)
    requires length >= 0 && average > 0.0
    ensures 1.0 - B + B * length as real / average > 0.0
  {
    QuotientNotNegative(B * length as real, average);
  }

  lemma QuotientNotNegative(x: real, y: real)
    requires x >= 0.0 && y > 0.0
    ensures x / y >= 0.0
  {
    assert x / y * y == x;
  }

  lemma QuotientPositive(x: real, y: real)
    requires x > 0.0 && y > 0.0
    ensures x / y > 0.0
  {
    assert x / y * y == x;
  }

  lemma TermScoreIsPositive(idf: real, tf: int, length: int, average: real)
    requires idf > 0.0 && tf > 0 && length >= 0 && average > 0.0
    ensures TermScore(idf, tf, length, average) > 0.0
  {
    NormIsPositive(length, average);
    var norm := 1.0 - B + B * length as real / average;
    assert K1 * norm > 0.0;
    assert idf * (tf as real * (K1 + 1.0)) > 0.0;
    QuotientPositive(idf * (tf as real * (K1 + 1.0)), tf as real + K1 * norm);
  }

  lemma IdfIsPositive(ln: real -> real, count: nat, frequency: nat)
    requires PositiveAboveOne(ln) && frequency <= count
    ensures Idf(ln, count, frequency) > 0.0
  {
    QuotientPositive((count - frequency) as real + 0.5, frequency as real + 0.5);
  }

  /** One field's BM25 of document i, its query tokens added in order, repeated ones each time. */
  function FieldScore(ln: real -> real, docs: seq<Doc>, field: Field, i: nat, tokens: seq<string>): real
    requires AllConsistent(docs, field) && i < |docs|
  {
    if tokens == [] then 0.0
    else
      var token := tokens[|tokens| - 1];
      var before := FieldScore(ln, docs, field, i, tokens[..|tokens| - 1]);
      var tf := CountOf(TF(docs[i], field), token);
      if tf == 0 then before
      else
        AverageIsPositive(docs, field, i, token);
        before + TermScore(Idf(ln, |docs|, Frequency(docs, field, token)), tf, Length(docs[i], field),
          Average(docs, field))
  }

  /** A field scores exactly when it holds a query token. */
  lemma {:induction false} FieldScoreTells(ln: real -> real, docs: seq<Doc>, field: Field, i: nat, tokens: seq<string>)
    requires PositiveAboveOne(ln) && AllConsistent(docs, field) && i < |docs|
    ensures FieldScore(ln, docs, field, i, tokens) >= 0.0
    ensures FieldScore(ln, docs, field, i, tokens) > 0.0 <==>
      exists k :: 0 <= k < |tokens| && tokens[k] in TF(docs[i], field)
  {
    if tokens != [] {
      var rest, token := tokens[..|tokens| - 1], tokens[|tokens| - 1];
      FieldScoreTells(ln, docs, field, i, rest);
      assert token in TF(docs[i], field) <==> CountOf(TF(docs[i], field), token) != 0;
      if token in TF(docs[i], field) {
        AverageIsPositive(docs, field, i, token);
        IdfIsPositive(ln, |docs|, Frequency(docs, field, token));
        TermScoreIsPositive(Idf(ln, |docs|, Frequency(docs, field, token)), TF(docs[i], field)[token],
          Length(docs[i], field), Average(docs, field));
      }
      forall k | 0 <= k < |tokens| && tokens[k] in TF(docs[i], field) && token !in TF(docs[i], field)
        ensures exists m :: 0 <= m < |rest| && rest[m] in TF(docs[i], field)
      {
        assert rest[k] in TF(docs[i], field);
      }
      forall m | 0 <= m < |rest| && rest[m] in TF(docs[i], field) ensures tokens[m] in TF(docs[i], field) {
      }
    }
  }

  // ---------------------------------------------------------------- what scores more

  /** A logarithm is all this. */
  ghost predicate Logarithmic(ln: real -> real) {
    PositiveAboveOne(ln) && forall x, y :: 0.0 < x < y ==> ln(x) < ln(y)
  }

  lemma CrossMore(a: real, b: real, c: real, d: real)
    requires b > 0.0 && d > 0.0 && a * d > c * b
    ensures a / b > c / d
  {
    var p, q := a / b, c / d;
    assert p * b == a && q * d == c;
    assert a * d == p * (b * d) && c * b == q * (b * d);
  }

  lemma IdfFalls(ln: real -> real, count: nat, rare: nat, common: nat)
    requires Logarithmic(ln) && rare < common <= count
    ensures Idf(ln, count, rare) > Idf(ln, count, common)
  {
    var n, r, c := count as real, rare as real, common as real;
    assert r < c <= n;
    assert (count - rare) as real == n - r && (count - common) as real == n - c;
    assert (n - r + 0.5) * (c + 0.5) - (n - c + 0.5) * (r + 0.5) == (n + 1.0) * (c - r);
    assert (n + 1.0) * (c - r) > 0.0;
    CrossMore(n - r + 0.5, r + 0.5, n - c + 0.5, c + 0.5);
    QuotientPositive(n - c + 0.5, c + 0.5);
  }

  /** The norm of a field by its length. */
  function Norm(length: int, average: real): real
    requires average > 0.0
  {
    K1 * (1.0 - B + B * length as real / average)
  }

  lemma TermRisesWithIdf(more: real, less: real, tf: int, length: int, average: real)
    requires more > less && tf > 0 && length >= 0 && average > 0.0
    ensures TermScore(more, tf, length, average) > TermScore(less, tf, length, average)
  {
    NormIsPositive(length, average);
    var c, t := Norm(length, average), tf as real;
    assert c > 0.0 && t > 0.0;
    var x := t * (K1 + 1.0) * (t + c);
    assert x > 0.0 && (more - less) * x > 0.0;
    assert (more * (t * (K1 + 1.0))) * (t + c) - (less * (t * (K1 + 1.0))) * (t + c) == (more - less) * x;
    CrossMore(more * (t * (K1 + 1.0)), t + c, less * (t * (K1 + 1.0)), t + c);
  }

  lemma TermRisesWithCount(idf: real, more: int, less: int, length: int, average: real)
    requires idf > 0.0 && more > less > 0 && length >= 0 && average > 0.0
    ensures TermScore(idf, more, length, average) > TermScore(idf, less, length, average)
  {
    NormIsPositive(length, average);
    var c, m, l, k := Norm(length, average), more as real, less as real, idf * (K1 + 1.0);
    assert c > 0.0 && k > 0.0 && m > l;
    assert k * c > 0.0 && (k * c) * (m - l) > 0.0;
    assert (k * m) * (l + c) - (k * l) * (m + c) == (k * c) * (m - l);
    assert idf * (m * (K1 + 1.0)) == k * m && idf * (l * (K1 + 1.0)) == k * l;
    CrossMore(k * m, m + c, k * l, l + c);
  }

  lemma TermFallsWithLength(idf: real, tf: int, short: int, long: int, average: real)
    requires idf > 0.0 && tf > 0 && 0 <= short < long && average > 0.0
    ensures TermScore(idf, tf, short, average) > TermScore(idf, tf, long, average)
  {
    NormIsPositive(short, average);
    NormIsPositive(long, average);
    NormRises(short, long, average);
    var a, t := idf * (tf as real * (K1 + 1.0)), tf as real;
    var x, y := t + Norm(short, average), t + Norm(long, average);
    assert tf as real * (K1 + 1.0) > 0.0;
    assert a > 0.0 && 0.0 < x < y && a * (y - x) > 0.0;
    assert a * y - a * x == a * (y - x);
    CrossMore(a, x, a, y);
  }

  lemma NormRises(short: int, long: int, average: real)
    requires 0 <= short < long && average > 0.0
    ensures Norm(short, average) < Norm(long, average)
  {
    var s, l := B * short as real, B * long as real;
    assert s < l && l * average - s * average == (l - s) * average > 0.0;
    CrossMore(l, average, s, average);
  }

  function Occurrences(d: Doc, field: Field, token: string): int {
    CountOf(TF(d, field), token)
  }

  /** What one query token adds to the field's score. */
  function Weight(ln: real -> real, docs: seq<Doc>, field: Field, i: nat, token: string): real
    requires AllConsistent(docs, field) && i < |docs|
  {
    FieldScore(ln, docs, field, i, [token])
  }

  lemma WeightIs(ln: real -> real, docs: seq<Doc>, field: Field, i: nat, token: string)
    requires AllConsistent(docs, field) && i < |docs|
    ensures Occurrences(docs[i], field, token) == 0 ==> Weight(ln, docs, field, i, token) == 0.0
    ensures Occurrences(docs[i], field, token) != 0 ==>
      && Average(docs, field) > 0.0 && Length(docs[i], field) > 0 && Occurrences(docs[i], field, token) > 0
      && Weight(ln, docs, field, i, token) ==
           TermScore(Idf(ln, |docs|, Frequency(docs, field, token)), Occurrences(docs[i], field, token),
             Length(docs[i], field), Average(docs, field))
  {
    var one := [token];
    assert one[..|one| - 1] == [] && FieldScore(ln, docs, field, i, []) == 0.0;
    if Occurrences(docs[i], field, token) != 0 { AverageIsPositive(docs, field, i, token); }
  }

  /** A score is the sum of what its query tokens add. */
  lemma ScoresAdd(ln: real -> real, docs: seq<Doc>, field: Field, i: nat, tokens: seq<string>)
    requires AllConsistent(docs, field) && i < |docs| && tokens != []
    ensures FieldScore(ln, docs, field, i, tokens) ==
      FieldScore(ln, docs, field, i, tokens[..|tokens| - 1]) + Weight(ln, docs, field, i, tokens[|tokens| - 1])
  {
    assert [tokens[|tokens| - 1]][..0] == [];
  }

  /** Token by token no less gives no less, and more when any gives more. */
  lemma {:induction false} MoreInSum(ln: real -> real, docs: seq<Doc>, field: Field, i: nat, j: nat,
        tokens: seq<string>)
    requires AllConsistent(docs, field) && i < |docs| && j < |docs|
    requires forall k :: 0 <= k < |tokens| ==>
      Weight(ln, docs, field, i, tokens[k]) >= Weight(ln, docs, field, j, tokens[k])
    ensures FieldScore(ln, docs, field, i, tokens) >= FieldScore(ln, docs, field, j, tokens)
    ensures (exists k :: 0 <= k < |tokens| &&
               Weight(ln, docs, field, i, tokens[k]) > Weight(ln, docs, field, j, tokens[k])) ==>
      FieldScore(ln, docs, field, i, tokens) > FieldScore(ln, docs, field, j, tokens)
  {
    if tokens != [] {
      ScoresAdd(ln, docs, field, i, tokens);
      ScoresAdd(ln, docs, field, j, tokens);
      MoreInSum(ln, docs, field, i, j, tokens[..|tokens| - 1]);
    }
  }

  /** A field of the same length with no query token less often, and one more often or only there, scores more. */
  lemma MoreOccurrencesScoreMore(ln: real -> real, docs: seq<Doc>, field: Field, i: nat, j: nat, tokens: seq<string>,
        s: string)
    requires Logarithmic(ln) && AllConsistent(docs, field) && i < |docs| && j < |docs|
    requires Length(docs[i], field) == Length(docs[j], field)
    requires forall u :: u in tokens ==> Occurrences(docs[i], field, u) >= Occurrences(docs[j], field, u)
    requires s in tokens && Occurrences(docs[i], field, s) > Occurrences(docs[j], field, s)
    ensures FieldScore(ln, docs, field, i, tokens) > FieldScore(ln, docs, field, j, tokens)
  {
    forall u | u in tokens
      ensures Weight(ln, docs, field, i, u) >= Weight(ln, docs, field, j, u)
      ensures Occurrences(docs[i], field, u) > Occurrences(docs[j], field, u) ==>
        Weight(ln, docs, field, i, u) > Weight(ln, docs, field, j, u)
    {
      MoreOften(ln, docs, field, i, j, u);
    }
    MoreInSum(ln, docs, field, i, j, tokens);
  }

  lemma MoreOften(ln: real -> real, docs: seq<Doc>, field: Field, i: nat, j: nat, u: string)
    requires Logarithmic(ln) && AllConsistent(docs, field) && i < |docs| && j < |docs|
    requires Length(docs[i], field) == Length(docs[j], field)
    requires Occurrences(docs[i], field, u) >= Occurrences(docs[j], field, u)
    ensures Weight(ln, docs, field, i, u) >= Weight(ln, docs, field, j, u)
    ensures Occurrences(docs[i], field, u) > Occurrences(docs[j], field, u) ==>
      Weight(ln, docs, field, i, u) > Weight(ln, docs, field, j, u)
  {
    WeightIs(ln, docs, field, i, u);
    WeightIs(ln, docs, field, j, u);
    IdfIsPositive(ln, |docs|, Frequency(docs, field, u));
    var idf, x, y := Idf(ln, |docs|, Frequency(docs, field, u)), Occurrences(docs[i], field, u),
      Occurrences(docs[j], field, u);
    if x > y > 0 {
      TermRisesWithCount(idf, x, y, Length(docs[i], field), Average(docs, field));
    } else if x > y {
      TermScoreIsPositive(idf, x, Length(docs[i], field), Average(docs, field));
    }
  }

  /** The same occurrences in a longer field score less. */
  lemma LongerScoresLess(ln: real -> real, docs: seq<Doc>, field: Field, i: nat, j: nat, tokens: seq<string>)
    requires Logarithmic(ln) && AllConsistent(docs, field) && i < |docs| && j < |docs|
    requires Length(docs[i], field) < Length(docs[j], field)
    requires forall u :: u in tokens ==> Occurrences(docs[i], field, u) == Occurrences(docs[j], field, u)
    requires exists u :: u in tokens && Occurrences(docs[i], field, u) > 0
    ensures FieldScore(ln, docs, field, i, tokens) > FieldScore(ln, docs, field, j, tokens)
  {
    forall u | u in tokens
      ensures Weight(ln, docs, field, i, u) >= Weight(ln, docs, field, j, u)
      ensures Occurrences(docs[i], field, u) > 0 ==> Weight(ln, docs, field, i, u) > Weight(ln, docs, field, j, u)
    {
      WeightIs(ln, docs, field, i, u);
      WeightIs(ln, docs, field, j, u);
      if Occurrences(docs[i], field, u) != 0 {
        IdfIsPositive(ln, |docs|, Frequency(docs, field, u));
        TermFallsWithLength(Idf(ln, |docs|, Frequency(docs, field, u)), Occurrences(docs[i], field, u),
          Length(docs[i], field), Length(docs[j], field), Average(docs, field));
      }
    }
    MoreInSum(ln, docs, field, i, j, tokens);
  }

  /** The query without one of its tokens. */
  function Without(tokens: seq<string>, s: string): seq<string> {
    if tokens == [] then []
    else Without(tokens[..|tokens| - 1], s) + if tokens[|tokens| - 1] == s then [] else [tokens[|tokens| - 1]]
  }

  lemma {:induction false} WithoutIs(tokens: seq<string>, s: string)
    ensures forall u :: u in Without(tokens, s) <==> u in tokens && u != s
    ensures forall u :: u != s ==> multiset(Without(tokens, s))[u] == multiset(tokens)[u]
  {
    if tokens != [] {
      WithoutIs(tokens[..|tokens| - 1], s);
      assert tokens == tokens[..|tokens| - 1] + [tokens[|tokens| - 1]];
    }
  }

  lemma OneMoreTime(n: nat, w: real)
    ensures (n + 1) as real * w == n as real * w + w
  {
  }

  lemma {:induction false} ScoreWithout(ln: real -> real, docs: seq<Doc>, field: Field, i: nat, tokens: seq<string>,
        s: string)
    requires AllConsistent(docs, field) && i < |docs|
    ensures FieldScore(ln, docs, field, i, tokens) ==
      FieldScore(ln, docs, field, i, Without(tokens, s)) + Total(multiset(tokens)[s], Weight(ln, docs, field, i, s))
  {
    if tokens != [] {
      ScoreWithout(ln, docs, field, i, tokens[..|tokens| - 1], s);
      if tokens[|tokens| - 1] == s {
        LastIsLeftOut(ln, docs, field, i, tokens);
      } else {
        LastIsKept(ln, docs, field, i, tokens, s);
      }
    }
  }

  lemma LastIsLeftOut(ln: real -> real, docs: seq<Doc>, field: Field, i: nat, tokens: seq<string>)
    requires AllConsistent(docs, field) && i < |docs| && tokens != []
    ensures var rest, s := tokens[..|tokens| - 1], tokens[|tokens| - 1];
            && FieldScore(ln, docs, field, i, tokens) ==
                 FieldScore(ln, docs, field, i, rest) + Weight(ln, docs, field, i, s)
            && Without(tokens, s) == Without(rest, s)
            && Total(multiset(tokens)[s], Weight(ln, docs, field, i, s)) ==
                 Total(multiset(rest)[s], Weight(ln, docs, field, i, s)) + Weight(ln, docs, field, i, s)
  {
    var rest, s := tokens[..|tokens| - 1], tokens[|tokens| - 1];
    ScoresAdd(ln, docs, field, i, tokens);
    assert tokens == rest + [s];
    OneMoreInQuery(rest, s, s);
    OneMoreTime(multiset(rest)[s], Weight(ln, docs, field, i, s));
  }

  lemma LastIsKept(ln: real -> real, docs: seq<Doc>, field: Field, i: nat, tokens: seq<string>, s: string)
    requires AllConsistent(docs, field) && i < |docs| && tokens != [] && tokens[|tokens| - 1] != s
    ensures var rest, u := tokens[..|tokens| - 1], tokens[|tokens| - 1];
            && FieldScore(ln, docs, field, i, tokens) ==
                 FieldScore(ln, docs, field, i, rest) + Weight(ln, docs, field, i, u)
            && FieldScore(ln, docs, field, i, Without(tokens, s)) ==
                 FieldScore(ln, docs, field, i, Without(rest, s)) + Weight(ln, docs, field, i, u)
            && multiset(tokens)[s] == multiset(rest)[s]
  {
    var rest, u := tokens[..|tokens| - 1], tokens[|tokens| - 1];
    ScoresAdd(ln, docs, field, i, tokens);
    assert tokens == rest + [u];
    OneMoreInQuery(rest, u, s);
    ScoresAdd(ln, docs, field, i, Without(rest, s) + [u]);
  }

  function Total(n: nat, w: real): real {
    n as real * w
  }

  lemma OneMoreInQuery(rest: seq<string>, u: string, s: string)
    ensures multiset(rest + [u])[s] == multiset(rest)[s] + if u == s then 1 else 0
    ensures Without(rest + [u], s) == Without(rest, s) + if u == s then [] else [u]
    ensures (Without(rest, s) + [u])[..|Without(rest, s) + [u]| - 1] == Without(rest, s)
  {
    assert (rest + [u])[..|rest + [u]| - 1] == rest;
  }

  lemma SameWeight(ln: real -> real, docs: seq<Doc>, field: Field, i: nat, j: nat, u: string)
    requires AllConsistent(docs, field) && i < |docs| && j < |docs|
    requires Length(docs[i], field) == Length(docs[j], field)
    requires Occurrences(docs[i], field, u) == Occurrences(docs[j], field, u)
    ensures Weight(ln, docs, field, i, u) == Weight(ln, docs, field, j, u)
  {
    WeightIs(ln, docs, field, i, u);
    WeightIs(ln, docs, field, j, u);
  }

  lemma SameSum(ln: real -> real, docs: seq<Doc>, field: Field, i: nat, j: nat, tokens: seq<string>)
    requires AllConsistent(docs, field) && i < |docs| && j < |docs|
    requires Length(docs[i], field) == Length(docs[j], field)
    requires forall u :: u in tokens ==> Occurrences(docs[i], field, u) == Occurrences(docs[j], field, u)
    ensures FieldScore(ln, docs, field, i, tokens) == FieldScore(ln, docs, field, j, tokens)
  {
    forall u | u in tokens ensures Weight(ln, docs, field, i, u) == Weight(ln, docs, field, j, u) {
      SameWeight(ln, docs, field, i, j, u);
    }
    MoreInSum(ln, docs, field, i, j, tokens);
    MoreInSum(ln, docs, field, j, i, tokens);
  }

  /** Of two fields of the same length that differ in one query token each, equally often there and in the query, the
      one with the rarer token scores more. */
  lemma RarerScoresMore(ln: real -> real, docs: seq<Doc>, field: Field, i: nat, j: nat, tokens: seq<string>,
        rare: string, common: string)
    requires Logarithmic(ln) && AllConsistent(docs, field) && i < |docs| && j < |docs|
    requires Length(docs[i], field) == Length(docs[j], field)
    requires Frequency(docs, field, rare) < Frequency(docs, field, common)
    requires rare in tokens && multiset(tokens)[rare] == multiset(tokens)[common]
    requires Occurrences(docs[i], field, rare) == Occurrences(docs[j], field, common) > 0
    requires Occurrences(docs[i], field, common) == Occurrences(docs[j], field, rare) == 0
    requires forall u :: u in tokens && u != rare && u != common ==>
      Occurrences(docs[i], field, u) == Occurrences(docs[j], field, u)
    ensures FieldScore(ln, docs, field, i, tokens) > FieldScore(ln, docs, field, j, tokens)
  {
    WithoutIs(tokens, rare);
    WithoutIs(Without(tokens, rare), common);
    SameSum(ln, docs, field, i, j, Without(Without(tokens, rare), common));
    ScoreParts(ln, docs, field, i, tokens, rare, common);
    ScoreParts(ln, docs, field, j, tokens, rare, common);
    WeightIs(ln, docs, field, i, common);
    WeightIs(ln, docs, field, j, rare);
    RarerWeighsMore(ln, docs, field, i, j, rare, common);
    MoreInTotal(multiset(tokens)[rare], Weight(ln, docs, field, i, rare), Weight(ln, docs, field, j, common));
  }

  lemma RarerWeighsMore(ln: real -> real, docs: seq<Doc>, field: Field, i: nat, j: nat, rare: string, common: string)
    requires Logarithmic(ln) && AllConsistent(docs, field) && i < |docs| && j < |docs|
    requires Length(docs[i], field) == Length(docs[j], field)
    requires Frequency(docs, field, rare) < Frequency(docs, field, common)
    requires Occurrences(docs[i], field, rare) == Occurrences(docs[j], field, common) > 0
    ensures Weight(ln, docs, field, i, rare) > Weight(ln, docs, field, j, common)
  {
    WeightIs(ln, docs, field, i, rare);
    WeightIs(ln, docs, field, j, common);
    IdfFalls(ln, |docs|, Frequency(docs, field, rare), Frequency(docs, field, common));
    TermRisesWithIdf(Idf(ln, |docs|, Frequency(docs, field, rare)), Idf(ln, |docs|, Frequency(docs, field, common)),
      Occurrences(docs[i], field, rare), Length(docs[i], field), Average(docs, field));
  }

  lemma MoreInTotal(n: nat, x: real, y: real)
    requires n > 0 && x > y
    ensures Total(n, x) > Total(n, y) && Total(n, 0.0) == 0.0
  {
    assert n as real * (x - y) > 0.0;
  }

  lemma ScoreParts(ln: real -> real, docs: seq<Doc>, field: Field, i: nat, tokens: seq<string>, s: string, t: string)
    requires AllConsistent(docs, field) && i < |docs| && s != t
    ensures FieldScore(ln, docs, field, i, tokens) ==
      FieldScore(ln, docs, field, i, Without(Without(tokens, s), t))
      + Total(multiset(tokens)[t], Weight(ln, docs, field, i, t))
      + Total(multiset(tokens)[s], Weight(ln, docs, field, i, s))
  {
    ScoreWithout(ln, docs, field, i, tokens, s);
    ScoreWithout(ln, docs, field, i, Without(tokens, s), t);
    WithoutIs(tokens, s);
  }

  /** The frequency of a token is the number of documents that hold it. */
  lemma {:induction false} FrequencyCounts(docs: seq<Doc>, field: Field, token: string)
    ensures Frequency(docs, field, token) == |Holders(docs, field, token)|
  {
    if docs != [] {
      FrequencyCounts(docs[..|docs| - 1], field, token);
      OneMoreHolder(docs, field, token);
    }
  }

  function Holders(docs: seq<Doc>, field: Field, token: string): set<nat> {
    set i: nat | i < |docs| && Occurrences(docs[i], field, token) > 0
  }

  lemma OneMoreHolder(docs: seq<Doc>, field: Field, token: string)
    requires docs != []
    ensures |Holders(docs, field, token)| == |Holders(docs[..|docs| - 1], field, token)| +
      if Occurrences(docs[|docs| - 1], field, token) > 0 then 1 else 0
  {
    var n, now, was := |docs| - 1, Holders(docs, field, token), Holders(docs[..|docs| - 1], field, token);
    forall i: nat ensures i in now <==> i in was || (i == n && Occurrences(docs[n], field, token) > 0) {
    }
    if Occurrences(docs[n], field, token) > 0 {
      assert now == was + {n} && n !in was;
    } else {
      assert now == was;
    }
  }

  // ---------------------------------------------------------------- the loops

  datatype Statistics = Statistics(average: real, frequencies: map<string, int>)

  ghost predicate StatisticsOf(s: Statistics, docs: seq<Doc>, field: Field, tokens: seq<string>)
    requires docs != []
  {
    s.average == Average(docs, field) && forall t :: t in tokens ==>
      t in s.frequencies && s.frequencies[t] == Frequency(docs, field, t)
  }

  method BuildFieldStatistics(docs: seq<Doc>, field: Field, tokens: seq<string>) returns (s: Statistics)
    requires docs != []
    ensures StatisticsOf(s, docs, field, tokens)
  {
    var total := 0;
    for i := 0 to |docs|
      invariant total == TotalLength(docs[..i], field)
    {
      assert docs[..i + 1][..i] == docs[..i];
      total := total + Length(docs[i], field);
    }
    assert docs[..|docs|] == docs;
    var frequencies: map<string, int> := map[];
    for k := 0 to |tokens|
      invariant forall t :: t in tokens[..k] ==> t in frequencies && frequencies[t] == Frequency(docs, field, t)
      invariant forall t :: t in frequencies ==> frequencies[t] == Frequency(docs, field, t)
    {
      if tokens[k] !in frequencies {
        var count := CountDocuments(docs, field, tokens[k]);
        frequencies := frequencies[tokens[k] := count];
      }
    }
    s := Statistics(total as real / |docs| as real, frequencies);
  }

  method CountDocuments(docs: seq<Doc>, field: Field, token: string) returns (count: nat)
    ensures count == Frequency(docs, field, token)
  {
    count := 0;
    for i := 0 to |docs|
      invariant count == Frequency(docs[..i], field, token)
    {
      assert docs[..i + 1][..i] == docs[..i];
      if CountOf(TF(docs[i], field), token) > 0 { count := count + 1; }
    }
    assert docs[..|docs|] == docs;
  }

  method Bm25FieldScore(ln: real -> real, docs: seq<Doc>, field: Field, i: nat, average: real,
        frequencies: map<string, int>, tokens: seq<string>)
    returns (score: real)
    requires AllConsistent(docs, field) && i < |docs| && average == Average(docs, field)
    requires forall t :: t in tokens ==> t in frequencies && frequencies[t] == Frequency(docs, field, t)
    ensures score == FieldScore(ln, docs, field, i, tokens)
  {
    score := 0.0;
    for k := 0 to |tokens|
      invariant score == FieldScore(ln, docs, field, i, tokens[..k])
    {
      assert tokens[..k + 1][..k] == tokens[..k];
      var tf := CountOf(TF(docs[i], field), tokens[k]);
      if tf != 0 {
        AverageIsPositive(docs, field, i, tokens[k]);
        score := score + TermScore(Idf(ln, |docs|, frequencies[tokens[k]]), tf, Length(docs[i], field), average);
      }
    }
    assert tokens[..|tokens|] == tokens;
  }

  // ---------------------------------------------------------------- ranking

  ghost predicate Ranked(docs: seq<Doc>) {
    AllConsistent(docs, Content) && AllConsistent(docs, Path)
  }

  function Scored(ln: real -> real, docs: seq<Doc>, i: nat, tokens: seq<string>, pathWeight: real): Result
    requires Ranked(docs) && i < |docs|
  {
    var content := FieldScore(ln, docs, Content, i, tokens);
    var path := pathWeight * FieldScore(ln, docs, Path, i, tokens);
    Result(docs[i].path, content + path, content, path, 0, "")
  }

  /** The scores of the first n documents that have one. */
  function Qualifying(ln: real -> real, docs: seq<Doc>, n: nat, tokens: seq<string>, pathWeight: real): seq<Result>
    requires Ranked(docs) && n <= |docs|
  {
    if n == 0 then []
    else Qualifying(ln, docs, n - 1, tokens, pathWeight)
         + (if Scored(ln, docs, n - 1, tokens, pathWeight).score <= 0.0 then []
            else [Scored(ln, docs, n - 1, tokens, pathWeight)])
  }

  /** Higher scores first, then paths ascending. */
  predicate Before(a: Result, b: Result) {
    a.score > b.score || (a.score == b.score && Less(a.path, b.path))
  }

  lemma BeforeOrders()
    ensures Orders(Before)
  {
    LessOrders();
    forall a, b, c | !Before(a, b) && !Before(b, c) ensures !Before(a, c) {
      if a.score == b.score == c.score {
        assert !Less(a.path, b.path) && !Less(b.path, c.path);
      }
    }
  }

  /** The best results of those that qualify, at most limit of them. */
  ghost predicate IsTop(results: seq<Result>, qualifying: seq<Result>, limit: nat) {
    exists all: seq<Result> :: Sorted(all, Before) && multiset(all) == multiset(qualifying)
                               && results == if |all| > limit then all[..limit] else all
  }

  method RankDocuments(ln: real -> real, docs: seq<Doc>, tokens: seq<string>, limit: nat, pathWeight: real)
    returns (results: seq<Result>)
    requires Ranked(docs)
    ensures IsTop(results, Qualifying(ln, docs, |docs|, tokens, pathWeight), limit)
  {
    if docs == [] {
      results := [];
      assert Sorted(results, Before) && multiset(results) == multiset(Qualifying(ln, docs, 0, tokens, pathWeight));
      return;
    }
    var scores := ScoreDocuments(ln, docs, tokens, pathWeight);
    BeforeOrders();
    var all := Sort(scores, Before);
    results := if |all| > limit then all[..limit] else all;
  }

  method ScoreDocument(ln: real -> real, docs: seq<Doc>, i: nat, content: Statistics, path: Statistics,
        tokens: seq<string>, pathWeight: real)
    returns (r: Result)
    requires Ranked(docs) && i < |docs|
    requires StatisticsOf(content, docs, Content, tokens) && StatisticsOf(path, docs, Path, tokens)
    ensures r == Scored(ln, docs, i, tokens, pathWeight)
  {
    var contentScore := Bm25FieldScore(ln, docs, Content, i, content.average, content.frequencies, tokens);
    var pathScore := Bm25FieldScore(ln, docs, Path, i, path.average, path.frequencies, tokens);
    r := Result(docs[i].path, contentScore + pathWeight * pathScore, contentScore, pathWeight * pathScore, 0, "");
  }

  method ScoreDocuments(ln: real -> real, docs: seq<Doc>, tokens: seq<string>, pathWeight: real)
    returns (results: seq<Result>)
    requires Ranked(docs) && docs != []
    ensures results == Qualifying(ln, docs, |docs|, tokens, pathWeight)
  {
    var content := BuildFieldStatistics(docs, Content, tokens);
    var path := BuildFieldStatistics(docs, Path, tokens);
    results := [];
    for i := 0 to |docs|
      invariant results == Qualifying(ln, docs, i, tokens, pathWeight)
    {
      var r := ScoreDocument(ln, docs, i, content, path, tokens, pathWeight);
      if r.score > 0.0 {
        results := results + [r];
      }
    }
  }

  ghost predicate HasToken(d: Doc, field: Field, tokens: seq<string>) {
    exists k :: 0 <= k < |tokens| && tokens[k] in TF(d, field)
  }

  /** A document is a result exactly when its content holds a query token, or its path does and paths count. */
  lemma QualifiesExactly(ln: real -> real, docs: seq<Doc>, i: nat, tokens: seq<string>, pathWeight: real)
    requires PositiveAboveOne(ln) && Ranked(docs) && i < |docs| && pathWeight >= 0.0
    ensures Scored(ln, docs, i, tokens, pathWeight).score > 0.0 <==>
              HasToken(docs[i], Content, tokens) || (pathWeight > 0.0 && HasToken(docs[i], Path, tokens))
    ensures Scored(ln, docs, i, tokens, pathWeight).contentScore > 0.0 <==> HasToken(docs[i], Content, tokens)
  {
    FieldScoreTells(ln, docs, Content, i, tokens);
    FieldScoreTells(ln, docs, Path, i, tokens);
    var path := FieldScore(ln, docs, Path, i, tokens);
    assert pathWeight > 0.0 && path > 0.0 ==> pathWeight * path > 0.0;
    assert pathWeight == 0.0 || path == 0.0 ==> pathWeight * path == 0.0;
  }

  function Sum(content: real, weight: real, path: real): real {
    content + weight * path
  }

  lemma MoreInAll(weight: real, c: real, d: real, x: real, y: real)
    requires weight >= 0.0 && c > d && x >= y
    ensures Sum(c, weight, x) > Sum(d, weight, y)
  {
    assert weight * (x - y) >= 0.0;
  }

  lemma ScoredIs(ln: real -> real, docs: seq<Doc>, i: nat, tokens: seq<string>, weight: real)
    requires Ranked(docs) && i < |docs|
    ensures Scored(ln, docs, i, tokens, weight).score ==
      Sum(FieldScore(ln, docs, Content, i, tokens), weight, FieldScore(ln, docs, Path, i, tokens))
  {
  }

  lemma HigherRanksBefore(a: Result, b: Result, x: real, y: real)
    requires a.score == x && b.score == y && x > y
    ensures Before(a, b)
  {
  }

  /** Of two documents with like paths the one whose content scores more ranks before the other. */
  lemma MoreContentRanksBefore(ln: real -> real, docs: seq<Doc>, i: nat, j: nat, tokens: seq<string>, weight: real)
    requires Ranked(docs) && i < |docs| && j < |docs| && weight >= 0.0
    requires FieldScore(ln, docs, Content, i, tokens) > FieldScore(ln, docs, Content, j, tokens)
    requires FieldScore(ln, docs, Path, i, tokens) >= FieldScore(ln, docs, Path, j, tokens)
    ensures Before(Scored(ln, docs, i, tokens, weight), Scored(ln, docs, j, tokens, weight))
  {
    var c, x := FieldScore(ln, docs, Content, i, tokens), FieldScore(ln, docs, Path, i, tokens);
    var d, y := FieldScore(ln, docs, Content, j, tokens), FieldScore(ln, docs, Path, j, tokens);
    ScoredIs(ln, docs, i, tokens, weight);
    ScoredIs(ln, docs, j, tokens, weight);
    MoreInAll(weight, c, d, x, y);
    HigherRanksBefore(Scored(ln, docs, i, tokens, weight), Scored(ln, docs, j, tokens, weight),
      Sum(c, weight, x), Sum(d, weight, y));
  }

  /** The qualifying results are those of the qualifying documents, one each. */
  lemma {:induction false} QualifyingIsAFilter(ln: real -> real, docs: seq<Doc>, n: nat,
        tokens: seq<string>, pathWeight: real, r: Result)
    requires Ranked(docs) && n <= |docs|
    ensures r in Qualifying(ln, docs, n, tokens, pathWeight) <==>
              exists i: nat :: i < n && r == Scored(ln, docs, i, tokens, pathWeight) && r.score > 0.0
  {
    if n > 0 {
      QualifyingIsAFilter(ln, docs, n - 1, tokens, pathWeight, r);
      if r in Qualifying(ln, docs, n, tokens, pathWeight) && r !in Qualifying(ln, docs, n - 1, tokens, pathWeight) {
        assert r == Scored(ln, docs, n - 1, tokens, pathWeight);
      }
    }
  }

  /** Results of documents with distinct paths are told apart by the ranking. */
  lemma ResultsAreSeparated(ln: real -> real, docs: seq<Doc>, tokens: seq<string>, pathWeight: real, all: seq<Result>)
    requires Ranked(docs) && forall i, j :: 0 <= i < j < |docs| ==> docs[i].path != docs[j].path
    requires multiset(all) == multiset(Qualifying(ln, docs, |docs|, tokens, pathWeight))
    ensures Separates(Before, all)
  {
    SameElements(all, Qualifying(ln, docs, |docs|, tokens, pathWeight));
    forall r, s | r in all && s in all && r != s ensures Before(r, s) || Before(s, r) {
      QualifyingIsAFilter(ln, docs, |docs|, tokens, pathWeight, r);
      QualifyingIsAFilter(ln, docs, |docs|, tokens, pathWeight, s);
      LessIsAsymmetric(r.path, s.path);
    }
  }

  lemma SameTop(a: seq<Result>, b: seq<Result>, qualifying: seq<Result>, limit: nat)
    requires forall all: seq<Result> :: multiset(all) == multiset(qualifying) ==> Separates(Before, all)
    requires IsTop(a, qualifying, limit) && IsTop(b, qualifying, limit)
    ensures a == b
  {
    var x: seq<Result> :| Sorted(x, Before) && multiset(x) == multiset(qualifying) &&
      a == if |x| > limit then x[..limit] else x;
    var y: seq<Result> :| Sorted(y, Before) && multiset(y) == multiset(qualifying) &&
      b == if |y| > limit then y[..limit] else y;
    SortedIsUnique(x, y, Before);
  }

  /** Documents of one index have distinct paths, so their results are told apart and the ranking is unique. */
  lemma RankingIsUnique(ln: real -> real, docs: seq<Doc>, tokens: seq<string>, limit: nat,
        pathWeight: real, a: seq<Result>, b: seq<Result>)
    requires Ranked(docs) && forall i, j :: 0 <= i < j < |docs| ==> docs[i].path != docs[j].path
    requires IsTop(a, Qualifying(ln, docs, |docs|, tokens, pathWeight), limit)
    requires IsTop(b, Qualifying(ln, docs, |docs|, tokens, pathWeight), limit)
    ensures a == b
  {
    var qualifying := Qualifying(ln, docs, |docs|, tokens, pathWeight);
    forall all: seq<Result> | multiset(all) == multiset(qualifying) ensures Separates(Before, all) {
      ResultsAreSeparated(ln, docs, tokens, pathWeight, all);
    }
    SameTop(a, b, qualifying, limit);
  }

  lemma RestRanksBelow(all: seq<Result>, n: nat, kept: Result, other: Result)
    requires Sorted(all, Before) && n <= |all| && kept in all[..n] && other in all && other !in all[..n]
    ensures !Before(other, kept)
  {
    assert all == all[..n] + all[n..];
    var i :| 0 <= i < n && all[..n][i] == kept;
    var j :| 0 <= j < |all[n..]| && all[n..][j] == other;
    assert all[i] == kept && all[n + j] == other;
  }

  /** The results come by falling score, and those of one score by path. */
  lemma TopIsOrdered(results: seq<Result>, qualifying: seq<Result>, limit: nat, i: nat, j: nat)
    requires IsTop(results, qualifying, limit) && i < j < |results|
    ensures results[i].score >= results[j].score
    ensures results[i].score == results[j].score ==> !Less(results[j].path, results[i].path)
  {
    var all: seq<Result> :| Sorted(all, Before) && multiset(all) == multiset(qualifying) &&
      results == if |all| > limit then all[..limit] else all;
    assert results[i] == all[i] && results[j] == all[j];
    assert !Before(all[j], all[i]);
  }

  /** Nothing left out ranks above anything kept. */
  lemma TopIsBest(results: seq<Result>, qualifying: seq<Result>, limit: nat, kept: Result, other: Result)
    requires IsTop(results, qualifying, limit) && kept in results && other in qualifying && other !in results
    ensures !Before(other, kept) && |results| == limit
  {
    var all: seq<Result> :| Sorted(all, Before) && multiset(all) == multiset(qualifying) &&
      results == if |all| > limit then all[..limit] else all;
    SameElements(all, qualifying);
    assert all[..|results|] == results;
    RestRanksBelow(all, |results|, kept, other);
  }
}
