/** Line-wise ingestion of a model call's output, delivered in arbitrary pieces
    (glm-worker/internal/runner/stream_events.go). Characters stand for bytes. */
module Stream {
  import opened Text
  import opened Lines

  const PLAIN_MAX := 64 * 1024
  const MAX_RECORDS := 50000

  /** How a line reads: nothing but blanks, a result event, any event at all, a mere progress event. */
  datatype Format = Format(blank: string -> bool, result: string -> bool, event: string -> bool,
    progress: string -> bool)

  /** One event in the task's log. */
  datatype EventRecord = EventRecord(seqNo: nat, line: string)

  // ---------------------------------------------------------------- what a list of lines amounts to

  function LastResult(f: Format, lines: seq<string>): string {
    if lines == [] then []
    else if f.result(lines[|lines| - 1]) then lines[|lines| - 1]
    else LastResult(f, lines[..|lines| - 1])
  }

  /** The lines that are no events, each with its line end. */
  function PlainText(f: Format, lines: seq<string>): string {
    if lines == [] then []
    else PlainText(f, lines[..|lines| - 1]) + if f.event(lines[|lines| - 1]) then [] else lines[|lines| - 1] + ['\n']
  }

  /** The lines worth a record. */
  function Reportable(f: Format, lines: seq<string>): seq<string> {
    if lines == [] then []
    else Reportable(f, lines[..|lines| - 1]) + if f.progress(lines[|lines| - 1]) then [] else [lines[|lines| - 1]]
  }

  function Numbered(lines: seq<string>, n: nat): seq<EventRecord>
    requires n <= |lines|
  {
    seq(n, i requires 0 <= i < n => EventRecord(i + 1, lines[i]))
  }

  /** The lines of a whole stream: its last one counts even without a line end. */
  function LinesOf(f: Format, stream: string): seq<string> {
    NonBlank(f.blank, Split(stream, '\n'))
  }

  function Concat(chunks: seq<string>): string {
    if chunks == [] then [] else Concat(chunks[..|chunks| - 1]) + chunks[|chunks| - 1]
  }

  /** The last result is the latest result line, or nothing. */
  lemma {:induction false} LastResultIs(f: Format, lines: seq<string>, k: nat)
    requires forall i :: k <= i < |lines| ==> !f.result(lines[i])
    requires k <= |lines| && (k > 0 ==> f.result(lines[k - 1]))
    ensures LastResult(f, lines) == if k == 0 then "" else lines[k - 1]
  {
    if k < |lines| { LastResultIs(f, lines[..|lines| - 1], k); }
  }

  /** The records are of the lines that show more than progress, in order. */
  lemma {:induction false} ReportableIs(f: Format, lines: seq<string>)
    ensures Reportable(f, lines) == NonBlank(f.progress, lines)
  {
    if lines != [] { ReportableIs(f, lines[..|lines| - 1]); }
  }

  /** The plain text is that of the lines that are no events, in order, each with its line end. */
  lemma {:induction false} PlainTextIs(f: Format, lines: seq<string>)
    ensures var kept := NonBlank(f.event, lines);
            PlainText(f, lines) == if kept == [] then "" else Join(kept, '\n') + ['\n']
  {
    if lines != [] {
      var rest, last := lines[..|lines| - 1], lines[|lines| - 1];
      PlainTextIs(f, rest);
      var before := NonBlank(f.event, rest);
      if f.event(last) {
        assert NonBlank(f.event, lines) == before && PlainText(f, lines) == PlainText(f, rest);
      } else {
        JoinOneMore(before, last, '\n');
        assert NonBlank(f.event, lines) == before + [last];
        assert PlainText(f, lines) == PlainText(f, rest) + (last + ['\n']);
        assert before != [] ==> PlainText(f, lines) == Join(before, '\n') + ['\n'] + last + ['\n'];
      }
    }
  }

  lemma {:induction false} JoinOneMore(parts: seq<string>, last: string, sep: char)
    ensures Join(parts + [last], sep) == if parts == [] then last else Join(parts, sep) + [sep] + last
  {
    if |parts| > 1 {
      assert (parts + [last])[1..] == parts[1..] + [last];
      JoinOneMore(parts[1..], last, sep);
    } else if parts == [] {
      assert parts + [last] == [last];
    } else {
      assert (parts + [last])[1..] == [last];
    }
  }

  /** One more line, and what it adds. */
  lemma OneMoreLine(f: Format, lines: seq<string>, line: string)
    ensures LastResult(f, lines + [line]) == if f.result(line) then line else LastResult(f, lines)
    ensures PlainText(f, lines + [line]) == PlainText(f, lines) + if f.event(line) then [] else line + ['\n']
    ensures Reportable(f, lines + [line]) == Reportable(f, lines) + if f.progress(line) then [] else [line]
  {
    assert (lines + [line])[..|lines|] == lines;
  }

  lemma LastLine(f: Format, stream: string)
    ensures LinesOf(f, stream) == NonBlank(f.blank, Complete(stream, '\n')) +
      if f.blank(Rest(stream, '\n')) then [] else [Rest(stream, '\n')]
  {
  }

  class Ingester {
    const format: Format
    var pending: string
    var closed: bool
    var resultLine: string
    var plain: string
    var log: seq<EventRecord>
    ghost var stream: string       // everything written so far
    ghost var lines: seq<string>   // the lines handled so far
    ghost var failed: bool         // an append failed; noted by AppendTaskEvent alone

    constructor (format: Format)
      ensures this.format == format && Valid() && stream == "" && lines == [] && !failed
    {
      this.format := format;
      pending, closed, resultLine, plain, log := "", false, "", "", [];
      stream, lines, failed := "", [], false;
    }

    ghost predicate Captured()
      reads this
    {
      resultLine == LastResult(format, lines) && plain == TakeLast(PlainText(format, lines), PLAIN_MAX)
    }

    ghost predicate Logged(reportable: seq<string>)
      reads this
    {
      && |log| <= |reportable| && |log| <= MAX_RECORDS && log == Numbered(reportable, |log|)
      && (!closed ==> |log| == |reportable| && !failed)
      && (closed && !failed ==> |log| == MAX_RECORDS)
    }

    /** The fields are what the handled lines amount to. */
    ghost predicate Handled()
      reads this
    {
      Captured() && Logged(Reportable(format, lines))
    }

    /** All complete lines are handled; the last one is pending. */
    ghost predicate Valid()
      reads this
    {
      Handled() && pending == Rest(stream, '\n') && lines == NonBlank(format.blank, Complete(stream, '\n'))
    }

    /** Appending to the event log may fail; it is then given up for this call. */
    method AppendTaskEvent(r: EventRecord) returns (ok: bool)
      modifies `log, `failed
      ensures log == (if ok then old(log) + [r] else old(log)) && failed == (old(failed) || !ok)
    {
      ok := *;
      if ok { log := log + [r]; } else { failed := true; }
    }

    method IngestLine(line: string)
      requires Handled()
      modifies `resultLine, `plain, `closed, `log, `lines, `failed
      ensures Handled() && lines == old(lines) + if format.blank(line) then [] else [line]
    {
      if format.blank(line) { return; }
      OneMoreLine(format, lines, line);
      if format.result(line) { resultLine := line; }
      CapturePlainSignal(line);
      LogLine(line, Reportable(format, lines));
      lines := lines + [line];
    }

    /** Log a line unless logging was given up, the log is full, or the line only shows progress. */
    method LogLine(line: string, ghost reportable: seq<string>)
      requires Logged(reportable)
      modifies `closed, `log, `failed
      ensures Logged(reportable + if format.progress(line) then [] else [line])
    {
      if closed { return; }
      if |log| >= MAX_RECORDS {
        closed := true;
      } else if !format.progress(line) {
        var ok := AppendTaskEvent(EventRecord(|log| + 1, line));
        if !ok { closed := true; }
      }
    }

    /** Keep the end of the text that is no event. */
    method CapturePlainSignal(line: string)
      requires plain == TakeLast(PlainText(format, lines), PLAIN_MAX)
      modifies `plain
      ensures plain == TakeLast(PlainText(format, lines + [line]), PLAIN_MAX)
    {
      OneMoreLine(format, lines, line);
      if format.event(line) { return; }
      TakeLastAppend(PlainText(format, lines), line + ['\n'], PLAIN_MAX);
      plain := plain + line + ['\n'];
      assert plain == old(plain) + (line + ['\n']);
      var excess := |plain| - PLAIN_MAX;
      if excess > 0 { plain := plain[excess..]; }
    }

    /** Take the complete lines off the pending text, one by one. */
    method IngestPending(ghost before: seq<string>)
      requires Handled() && lines == NonBlank(format.blank, before)
      modifies `pending, `resultLine, `plain, `closed, `log, `lines, `failed
      ensures Handled() && pending == Rest(old(pending), '\n')
      ensures lines == NonBlank(format.blank, before + Complete(old(pending), '\n'))
    {
      ghost var all, done := pending, before;
      var index := IndexOf(pending, '\n');
      while index < |pending|
        invariant 0 <= index <= |pending| && '\n' !in pending[..index] && (index < |pending| ==> pending[index] == '\n')
        invariant Remaining(before, all, done, pending)
        invariant Handled() && lines == NonBlank(format.blank, done)
        decreases |pending|
      {
        var line := pending[..index];
        TakePiece(before, all, done, pending, index);
        pending := pending[index + 1..];
        IngestLine(line);
        OneMorePiece(format.blank, done, line);
        done := done + [line];
        index := IndexOf(pending, '\n');
      }
      assert pending == pending[..index];
      NoMorePieces(before, all, done, pending);
    }

    method Write(p: string)
      requires Valid()
      modifies this
      ensures Valid() && stream == old(stream) + p
    {
      ghost var done := Complete(stream, '\n');
      StreamGrows(stream, p);
      stream := stream + p;
      pending := pending + p;
      IngestPending(done);
    }

    /** The last line of a stream may lack its line end. */
    method Flush()
      requires Valid()
      modifies this
      ensures Handled() && pending == "" && stream == old(stream) && lines == LinesOf(format, stream)
    {
      LastLine(format, stream);
      if !format.blank(pending) {
        IngestLine(pending);
      }
      pending := "";
    }
  }

  /** However a stream is cut into pieces, the outcome is that of the whole: the last result line, the last
      65536 bytes of plain lines, and, as long as appending works, the first 50000 records in order. */
  method IngestAll(format: Format, chunks: seq<string>) returns (g: Ingester)
    ensures fresh(g) && g.stream == Concat(chunks)
    ensures var lines := LinesOf(format, Concat(chunks));
            && g.resultLine == LastResult(format, lines)
            && g.plain == TakeLast(PlainText(format, lines), PLAIN_MAX)
            && |g.log| <= |Reportable(format, lines)| && g.log == Numbered(Reportable(format, lines), |g.log|)
            && |g.log| <= MAX_RECORDS
            && var all := |Reportable(format, lines)|;
            !g.failed ==> |g.log| == if all <= MAX_RECORDS then all else MAX_RECORDS
  {
    g := new Ingester(format);
    for i := 0 to |chunks|
      invariant fresh(g) && g.format == format && g.Valid() && g.stream == Concat(chunks[..i])
    {
      assert chunks[..i + 1][..i] == chunks[..i];
      g.Write(chunks[i]);
    }
    assert chunks[..|chunks|] == chunks;
    g.Flush();
  }
}
