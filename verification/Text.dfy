/** String helpers shared by the packet printer, the round classifier, the search
    tokenizer and the stream readers: trimming, splitting on one separator, joining. */
module Text {
  datatype Option<+T> = None | Some(value: T)

  /** Equality of whole values, for those with maps deep inside: it spares the solver the comparison part by part. */
  ghost predicate Same<T>(a: T, b: T) {
    a == b
  }

  /** The characters the source's trimming functions remove. */
  predicate IsSpace(c: char) {
    || c == ' ' || '\t' <= c <= '\r'
    || c == '\U{85}' || c == '\U{A0}' || c == '\U{1680}'
    || '\U{2000}' <= c <= '\U{200A}'
    || c == '\U{2028}' || c == '\U{2029}' || c == '\U{202F}' || c == '\U{205F}' || c == '\U{3000}'
  }

  function TrimLeft(s: string): string {
    if s != [] && IsSpace(s[0]) then TrimLeft(s[1..]) else s
  }

  function TrimRight(s: string): string {
    if s != [] && IsSpace(s[|s| - 1]) then TrimRight(s[..|s| - 1]) else s
  }

  function Trim(s: string): string {
    TrimRight(TrimLeft(s))
  }

  predicate Trimmed(s: string) {
    s == [] || (!IsSpace(s[0]) && !IsSpace(s[|s| - 1]))
  }

  lemma {:induction false} TrimLeftShape(s: string)
    ensures TrimLeft(s) == [] || !IsSpace(TrimLeft(s)[0])
  {
    if s != [] && IsSpace(s[0]) { TrimLeftShape(s[1..]); }
  }

  lemma {:induction false} TrimRightShape(s: string)
    ensures TrimRight(s) <= s
    ensures TrimRight(s) == [] || !IsSpace(TrimRight(s)[|TrimRight(s)| - 1])
  {
    if s != [] && IsSpace(s[|s| - 1]) { TrimRightShape(s[..|s| - 1]); }
  }

  /** Trimming yields a trimmed text, and changes nothing that is already trimmed. */
  lemma TrimIsTrimmed(s: string)
    ensures Trimmed(Trim(s))
    ensures Trimmed(s) ==> Trim(s) == s
  {
    TrimLeftShape(s);
    TrimRightShape(TrimLeft(s));
  }

  /** A leading blank is invisible to Trim. */
  lemma TrimSkipsLeadingSpace(s: string)
    ensures Trim(" " + s) == Trim(s)
  {
    assert (" " + s)[1..] == s;
  }

  /** Cut the text at every occurrence of the separator, keeping empty pieces. */
  function Split(s: string, sep: char): (parts: seq<string>)
    ensures |parts| >= 1
    ensures forall i :: 0 <= i < |parts| ==> sep !in parts[i]
  {
    if s == [] then [[]]
    else
      var rest := Split(s[1..], sep);
      if s[0] == sep then [[]] + rest
      else [[s[0]] + rest[0]] + rest[1..]
  }

  function Join(parts: seq<string>, sep: char): string {
    if parts == [] then []
    else if |parts| == 1 then parts[0]
    else parts[0] + [sep] + Join(parts[1..], sep)
  }

  /** Joining the pieces gives the text back. */
  lemma {:induction false} JoinSplit(s: string, sep: char)
    ensures Join(Split(s, sep), sep) == s
  {
    if s != [] {
      JoinSplit(s[1..], sep);
      var rest := Split(s[1..], sep);
      if s[0] == sep {
        assert ([[]] + rest)[1..] == rest;
        assert s == [sep] + s[1..];
      } else {
        var parts := [[s[0]] + rest[0]] + rest[1..];
        assert parts[1..] == rest[1..];
        assert s == [s[0]] + s[1..];
        if |rest| == 1 {
          assert Join(rest, sep) == rest[0];
        } else {
          assert [s[0]] + (rest[0] + [sep] + Join(rest[1..], sep))
              == ([s[0]] + rest[0]) + [sep] + Join(rest[1..], sep);
        }
      }
    }
  }

  /** Splitting at one more separator prepends one more piece. */
  lemma {:induction false} SplitPrepend(a: string, b: string, sep: char)
    requires sep !in a
    ensures Split(a + [sep] + b, sep) == [a] + Split(b, sep)
    ensures Split(a, sep) == [a]
  {
    var whole := a + [sep] + b;
    if a == [] {
      assert whole[1..] == b;
    } else {
      assert whole[1..] == a[1..] + [sep] + b;
      SplitPrepend(a[1..], b, sep);
      var rest := Split(whole[1..], sep);
      assert rest[0] == a[1..] && rest[1..] == Split(b, sep);
      assert [a[0]] + a[1..] == a;
      assert Split(a[1..], sep)[1..] == [];
    }
  }

  /** Pieces free of the separator survive a join and a split. */
  lemma {:induction false} SplitJoin(parts: seq<string>, sep: char)
    requires |parts| >= 1
    requires forall i :: 0 <= i < |parts| ==> sep !in parts[i]
    ensures Split(Join(parts, sep), sep) == parts
  {
    SplitPrepend(parts[0], Join(parts[1..], sep), sep);
    if |parts| > 1 {
      SplitJoin(parts[1..], sep);
      assert parts == [parts[0]] + parts[1..];
    }
  }

  /** A separator cuts a text in two: the pieces are those of both sides. */
  lemma {:induction false} SplitAt(a: string, b: string, sep: char)
    ensures Split(a + [sep] + b, sep) == Split(a, sep) + Split(b, sep)
  {
    var whole := a + [sep] + b;
    if a == [] {
      assert whole[1..] == b;
    } else {
      assert whole[1..] == a[1..] + [sep] + b;
      SplitAt(a[1..], b, sep);
    }
  }

  lemma {:induction false} JoinConcat(a: seq<string>, b: seq<string>, sep: char)
    requires a != [] && b != []
    ensures Join(a + b, sep) == Join(a, sep) + [sep] + Join(b, sep)
  {
    if |a| == 1 {
      assert (a + b)[1..] == b;
    } else {
      assert (a + b)[1..] == a[1..] + b;
      JoinConcat(a[1..], b, sep);
    }
  }

  /** What follows the last separator. */
  function Rest(s: string, sep: char): string {
    Split(s, sep)[|Split(s, sep)| - 1]
  }

  /** The pieces that a separator ends. */
  function Complete(s: string, sep: char): seq<string> {
    Split(s, sep)[..|Split(s, sep)| - 1]
  }

  /** More text only ever continues the last piece. */
  lemma {:induction false} SplitAppend(s: string, t: string, sep: char)
    ensures Split(s + t, sep) == Complete(s, sep) + Split(Rest(s, sep) + t, sep)
  {
    if s == [] {
      assert s + t == t && Rest(s, sep) + t == t;
    } else {
      assert (s + t)[1..] == s[1..] + t;
      SplitAppend(s[1..], t, sep);
      var parts, rest := Split(s, sep), Split(s[1..], sep);
      if s[0] != sep && |rest| == 1 {
        assert Rest(s, sep) + t == [s[0]] + (rest[0] + t);
        assert ([s[0]] + (rest[0] + t))[1..] == rest[0] + t;
        assert Complete(s, sep) == [] && Complete(s[1..], sep) == [];
      } else {
        assert Rest(s, sep) == Rest(s[1..], sep);
      }
    }
  }

  function TakeLast(s: string, n: nat): string {
    if |s| <= n then s else s[|s| - n..]
  }

  /** Only the end of a text decides the end of its continuation. */
  lemma TakeLastAppend(s: string, t: string, n: nat)
    ensures TakeLast(TakeLast(s, n) + t, n) == TakeLast(s + t, n)
  {
  }
}
