/** Cutting a growing text into lines, piece by piece. */
module Lines {
  import opened Text

  /** Blank lines are passed over. */
  function NonBlank(blank: string -> bool, lines: seq<string>): seq<string> {
    if lines == [] then []
    else NonBlank(blank, lines[..|lines| - 1]) + if blank(lines[|lines| - 1]) then [] else [lines[|lines| - 1]]
  }

  lemma LastPiece(a: seq<string>, pieces: seq<string>, b: seq<string>, last: string)
    requires pieces != [] && a + pieces == b + [last]
    ensures b == a + pieces[..|pieces| - 1] && last == pieces[|pieces| - 1]
  {
    assert (a + pieces)[..|b|] == b && (a + pieces)[|b|] == last;
    assert (a + pieces)[..|b|] == a + pieces[..|pieces| - 1];
  }

  /** at holds where the lines are that are not blank, in order. */
  predicate Picks(blank: string -> bool, lines: seq<string>, at: seq<nat>) {
    && (forall k :: 0 <= k < |at| ==> at[k] < |lines| && !blank(lines[at[k]]))
    && (forall j, k :: 0 <= j < k < |at| ==> at[j] < at[k])
    && forall i: nat :: i < |lines| && !blank(lines[i]) ==> i in at
  }

  lemma OneMorePick(blank: string -> bool, lines: seq<string>, at: seq<nat>)
    requires lines != [] && Picks(blank, lines[..|lines| - 1], at)
    ensures Picks(blank, lines, if blank(lines[|lines| - 1]) then at else at + [|lines| - 1])
  {
    var rest, last := lines[..|lines| - 1], |lines| - 1;
    var all: seq<nat> := if blank(lines[last]) then at else at + [last];
    forall k | 0 <= k < |at| ensures at[k] < last && lines[at[k]] == rest[at[k]] {
    }
    forall i: nat | i < |lines| && !blank(lines[i]) ensures i in all {
      if i < last {
        assert rest[i] == lines[i];
      } else {
        assert all[|at|] == last;
      }
    }
  }

  /** The lines kept are those that are not blank, each once and in order. */
  lemma {:induction false} NonBlankPicks(blank: string -> bool, lines: seq<string>) returns (at: seq<nat>)
    ensures Picks(blank, lines, at) && |at| == |NonBlank(blank, lines)|
    ensures forall k :: 0 <= k < |at| ==> NonBlank(blank, lines)[k] == lines[at[k]]
  {
    at := [];
    if lines != [] {
      var rest := NonBlankPicks(blank, lines[..|lines| - 1]);
      OneMorePick(blank, lines, rest);
      at := if blank(lines[|lines| - 1]) then rest else rest + [|lines| - 1];
    }
  }

  /** What the done pieces leave of a text that others came before. */
  ghost predicate Remaining(before: seq<string>, all: string, done: seq<string>, pending: string) {
    before + Split(all, '\n') == done + Split(pending, '\n')
  }

  lemma TakePiece(before: seq<string>, all: string, done: seq<string>, pending: string, index: nat)
    requires Remaining(before, all, done, pending) && index < |pending| && '\n' !in pending[..index]
    requires pending[index] == '\n'
    ensures Remaining(before, all, done + [pending[..index]], pending[index + 1..])
  {
    assert pending == pending[..index] + ['\n'] + pending[index + 1..];
    SplitPrepend(pending[..index], pending[index + 1..], '\n');
  }

  lemma NoMorePieces(before: seq<string>, all: string, done: seq<string>, pending: string)
    requires Remaining(before, all, done, pending) && '\n' !in pending
    ensures pending == Rest(all, '\n') && done == before + Complete(all, '\n')
  {
    SplitPrepend(pending, [], '\n');
    LastPiece(before, Split(all, '\n'), done, pending);
  }

  lemma StreamGrows(stream: string, p: string)
    ensures Rest(stream + p, '\n') == Rest(Rest(stream, '\n') + p, '\n')
    ensures Complete(stream + p, '\n') == Complete(stream, '\n') + Complete(Rest(stream, '\n') + p, '\n')
  {
    SplitAppend(stream, p, '\n');
  }

  lemma OneMorePiece(blank: string -> bool, done: seq<string>, line: string)
    ensures NonBlank(blank, done + [line]) == NonBlank(blank, done) + if blank(line) then [] else [line]
  {
    assert (done + [line])[..|done|] == done;
  }

  lemma {:induction false} NonBlankConcat(blank: string -> bool, a: seq<string>, b: seq<string>)
    ensures NonBlank(blank, a + b) == NonBlank(blank, a) + NonBlank(blank, b)
  {
    if b == [] {
      assert a + b == a;
    } else {
      assert (a + b)[..|a + b| - 1] == a + b[..|b| - 1];
      NonBlankConcat(blank, a, b[..|b| - 1]);
    }
  }

  /** The first place of a character, or the length. */
  method IndexOf(s: string, c: char) returns (i: nat)
    ensures i <= |s| && c !in s[..i] && (i < |s| ==> s[i] == c)
  {
    i := 0;
    while i < |s| && s[i] != c
      invariant i <= |s| && c !in s[..i]
    {
      i := i + 1;
    }
  }
}
