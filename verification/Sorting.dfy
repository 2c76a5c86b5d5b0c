/** Sorting by a total order has one result; the byte order of strings is one. */
module Sorting {
  /** A comparison that sorts: values it does not tell apart form classes. */
  ghost predicate Orders<T(!new)>(before: (T, T) -> bool) {
    && (forall a, b :: before(a, b) ==> !before(b, a))
    && (forall a, b, c :: !before(a, b) && !before(b, c) ==> !before(a, c))
  }

  /** It tells all values of a list apart. */
  ghost predicate Separates<T(!new)>(before: (T, T) -> bool, s: seq<T>) {
    forall a, b :: a in s && b in s && a != b ==> before(a, b) || before(b, a)
  }

  ghost predicate Sorted<T(!new)>(s: seq<T>, before: (T, T) -> bool) {
    forall i, j :: 0 <= i < j < |s| ==> !before(s[j], s[i])
  }

  /** Put the value where it belongs; what the source's library sort does one by one or otherwise. */
  method Insert<T(==, !new)>(s: seq<T>, x: T, before: (T, T) -> bool) returns (r: seq<T>)
    requires Orders(before) && Sorted(s, before)
    ensures Sorted(r, before) && multiset(r) == multiset(s) + multiset{x}
  {
    var i := |s|;
    while i > 0 && before(x, s[i - 1])
      invariant 0 <= i <= |s|
      invariant forall k :: i <= k < |s| ==> before(x, s[k])
    {
      i := i - 1;
    }
    r := s[..i] + [x] + s[i..];
    assert s == s[..i] + s[i..];
    InsertedIsSorted(s, x, i, before);
  }

  lemma InsertedIsSorted<T(!new)>(s: seq<T>, x: T, n: nat, before: (T, T) -> bool)
    requires Orders(before) && Sorted(s, before) && n <= |s|
    requires forall k :: n <= k < |s| ==> before(x, s[k])
    requires n > 0 ==> !before(x, s[n - 1])
    ensures Sorted(s[..n] + [x] + s[n..], before)
  {
    var r := s[..n] + [x] + s[n..];
    forall i, j | 0 <= i < j < |r| ensures !before(r[j], r[i]) {
      if j == n && i < n - 1 {
        assert !before(s[n - 1], s[i]);
      }
    }
  }

  method Sort<T(==, !new)>(s: seq<T>, before: (T, T) -> bool) returns (r: seq<T>)
    requires Orders(before)
    ensures Sorted(r, before) && multiset(r) == multiset(s)
  {
    r := [];
    for i := 0 to |s|
      invariant Sorted(r, before) && multiset(r) == multiset(s[..i])
    {
      assert s[..i + 1] == s[..i] + [s[i]];
      r := Insert(r, s[i], before);
    }
    assert s[..|s|] == s;
  }

  lemma SameFirst<T(!new)>(a: seq<T>, b: seq<T>, before: (T, T) -> bool)
    requires Separates(before, a) && Sorted(a, before) && Sorted(b, before) && a != [] && b != []
    requires a[0] in b && b[0] in a
    ensures a[0] == b[0]
  {
    var i :| 0 <= i < |b| && b[i] == a[0];
    var j :| 0 <= j < |a| && a[j] == b[0];
    assert (i > 0 ==> !before(b[i], b[0])) && (j > 0 ==> !before(a[j], a[0]));
  }

  lemma SameElements<T(!new)>(a: seq<T>, b: seq<T>)
    requires multiset(a) == multiset(b)
    ensures |a| == |b| && (forall x :: x in a <==> x in b)
  {
    assert |a| == |multiset(a)| == |multiset(b)| == |b|;
    forall x ensures x in a <==> x in b {
      assert x in a <==> x in multiset(a);
      assert x in b <==> x in multiset(b);
    }
  }

  lemma SameRest<T>(a: seq<T>, b: seq<T>)
    requires multiset(a) == multiset(b) && a != [] && b != [] && a[0] == b[0]
    ensures multiset(a[1..]) == multiset(b[1..])
  {
    assert a == [a[0]] + a[1..] && b == [b[0]] + b[1..];
    assert multiset(a[1..]) == multiset(a) - multiset{a[0]};
    assert multiset(b[1..]) == multiset(b) - multiset{b[0]};
  }

  lemma {:induction false} SortedIsUnique<T(!new)>(a: seq<T>, b: seq<T>, before: (T, T) -> bool)
    requires Separates(before, a) && Sorted(a, before) && Sorted(b, before) && multiset(a) == multiset(b)
    ensures a == b
  {
    SameElements(a, b);
    if a != [] {
      assert a[0] in a && b[0] in b;
      SameFirst(a, b, before);
      SameRest(a, b);
      assert forall x :: x in a[1..] ==> x in a;
      SortedIsUnique(a[1..], b[1..], before);
      assert a == [a[0]] + a[1..] && b == [b[0]] + b[1..];
    }
  }

  /** The byte order of strings. */
  predicate Less(a: string, b: string) {
    b != [] && (a == [] || a[0] < b[0] || (a[0] == b[0] && Less(a[1..], b[1..])))
  }

  lemma {:induction false} LessIsAsymmetric(a: string, b: string)
    ensures !(Less(a, b) && Less(b, a))
    ensures a != b ==> Less(a, b) || Less(b, a)
  {
    if a != [] && b != [] && a[0] == b[0] {
      LessIsAsymmetric(a[1..], b[1..]);
      assert a == [a[0]] + a[1..] && b == [b[0]] + b[1..];
    }
  }

  lemma {:induction false} LessIsTransitive(a: string, b: string, c: string)
    requires Less(a, b) && Less(b, c)
    ensures Less(a, c)
  {
    if a != [] && a[0] == b[0] && b[0] == c[0] {
      LessIsTransitive(a[1..], b[1..], c[1..]);
    }
  }

  lemma LessOrders()
    ensures Orders(Less) && forall s :: Separates(Less, s)
  {
    forall a: string, b: string ensures (Less(a, b) ==> !Less(b, a)) && (a != b ==> Less(a, b) || Less(b, a)) {
      LessIsAsymmetric(a, b);
    }
    forall a: string, b: string, c: string | !Less(a, b) && !Less(b, c) ensures !Less(a, c) {
      LessIsAsymmetric(a, b);
      LessIsAsymmetric(b, c);
      LessIsAsymmetric(a, c);
      if a != b && b != c { LessIsTransitive(c, b, a); }
    }
  }

  /** Strictly ascending, so without duplicates. */
  ghost predicate Ascending(paths: seq<string>) {
    forall i, j :: 0 <= i < j < |paths| ==> Less(paths[i], paths[j])
  }

  lemma AscendingIsSorted(paths: seq<string>)
    ensures Ascending(paths) ==> Sorted(paths, Less)
  {
    forall a: string, b: string ensures !(Less(a, b) && Less(b, a)) { LessIsAsymmetric(a, b); }
  }

  /** A list of distinct strings, once sorted, ascends strictly. */
  lemma SortedDistinctAscends(paths: seq<string>)
    requires Sorted(paths, Less) && forall i, j :: 0 <= i < j < |paths| ==> paths[i] != paths[j]
    ensures Ascending(paths)
  {
    forall i, j | 0 <= i < j < |paths| ensures Less(paths[i], paths[j]) {
      LessIsAsymmetric(paths[i], paths[j]);
    }
  }

  predicate Distinct(paths: seq<string>) {
    forall i, j :: 0 <= i < j < |paths| ==> paths[i] != paths[j]
  }

  lemma SortedKeepsDistinct(a: seq<string>, b: seq<string>)
    requires Distinct(a) && multiset(a) == multiset(b)
    ensures Distinct(b)
  {
    forall i, j | 0 <= i < j < |b| ensures b[i] != b[j] {
      if b[i] == b[j] {
        TwiceCountsTwo(b, i, j);
        DistinctCountsOne(a, b[i]);
      }
    }
  }

  lemma TwiceCountsTwo(s: seq<string>, i: nat, j: nat)
    requires i < j < |s| && s[i] == s[j]
    ensures multiset(s)[s[i]] >= 2
  {
    assert s == s[..i] + [s[i]] + s[i + 1..j] + [s[j]] + s[j + 1..];
  }

  lemma {:induction false} DistinctCountsOne(s: seq<string>, x: string)
    requires Distinct(s)
    ensures multiset(s)[x] <= 1
  {
    if s != [] {
      assert s == s[..|s| - 1] + [s[|s| - 1]];
      DistinctCountsOne(s[..|s| - 1], x);
      if s[|s| - 1] == x {
        assert x !in s[..|s| - 1];
      }
    }
  }
}
