/** Following a task's event log while its producer goes on writing
    (glm-worker/internal/app/watch.go). Characters stand for bytes. */
module Watch {
  import opened Text
  import opened Lines

  const BUFFER := 32 * 1024

  /** What others still do while the log is watched. */
  datatype Action = Append(text: string) | SetActive(active: bool) | SetTask(id: string) | RemoveLog

  datatype Reason = TaskSwitched(id: string) | TaskEnded

  datatype Ending = Exited(reason: Reason) | Removed | Stopped | ReadFailed

  /** The state directory as the watcher sees it: others act on it between any two of its steps. */
  class Scene {
    var log: string
    var present: bool
    var active: bool
    var taskId: string
    var future: seq<Action>
    ghost var errors: nat // reads that failed; noted by Watcher.Read alone

    /** Nobody has done anything. */
    twostate predicate Unmoved()
      reads this
    {
      log == old(log) && present == old(present) && active == old(active) && taskId == old(taskId)
    }

    /** Any number of the others' actions happen now; the log only grows. */
    method Progress()
      modifies this
      ensures old(log) <= log && |future| <= |old(future)| && errors == old(errors) && (present ==> old(present))
      ensures |future| == |old(future)| ==> Unmoved()
    {
      var more: bool := *;
      while more && future != []
        invariant old(log) <= log && |future| <= |old(future)| && errors == old(errors) && (present ==> old(present))
        invariant |future| == |old(future)| ==> Unmoved()
        decreases |future|
      {
        match future[0] {
          case Append(text) => log := log + text;
          case SetActive(b) => active := b;
          case SetTask(id) => taskId := id;
          case RemoveLog => present := false;
        }
        future := future[1..];
        more := *;
      }
    }
  }

  class Watcher {
    const scene: Scene
    const taskId: string
    const blank: string -> bool
    var position: nat
    var pending: string
    var printed: seq<string>

    constructor (scene: Scene, taskId: string, blank: string -> bool)
      ensures this.scene == scene && this.taskId == taskId && this.blank == blank && Following()
    {
      this.scene, this.taskId, this.blank := scene, taskId, blank;
      position, pending, printed := 0, "", [];
    }

    /** Every complete line read so far has been printed once, in order; the rest is carried over. */
    ghost predicate Following()
      reads this, scene
    {
      && position <= |scene.log|
      && pending == Rest(scene.log[..position], '\n')
      && printed == Due(scene.log[..position])
    }

    /** The lines to show of a log: the complete ones that are not blank. */
    ghost function Due(log: string): seq<string> {
      NonBlank(blank, Complete(log, '\n'))
    }

    /** What a read gave: some bytes from the read position, none at the end of the log, or an error. */
    ghost predicate Fits(chunk: Option<string>)
      reads this, scene
    {
      chunk.Some? ==>
        && position + |chunk.value| <= |scene.log| && chunk.value == scene.log[position..position + |chunk.value|]
        && (chunk.value == "" ==> position == |scene.log|)
    }

    method Read() returns (chunk: Option<string>)
      requires Following()
      modifies scene
      ensures Following() && Fits(chunk) && old(scene.log) <= scene.log && |scene.future| <= |old(scene.future)|
      ensures |scene.future| == |old(scene.future)| ==> scene.Unmoved()
      ensures scene.errors == old(scene.errors) + (if chunk == None then 1 else 0)
      ensures scene.present ==> old(scene.present)
    {
      scene.Progress();
      StillFollowing(old(scene.log), scene.log, position);
      var failed: bool := *;
      if failed {
        scene.errors := scene.errors + 1;
        return None;
      }
      var n: int := *;
      var available := |scene.log| - position;
      if n < 1 { n := 1; }
      if n > BUFFER { n := BUFFER; }
      if n > available { n := available; }
      chunk := Some(scene.log[position..position + n]);
    }

    /** Print the complete lines of the pending text. */
    method PrintLines(ghost before: seq<string>)
      requires printed == NonBlank(blank, before)
      modifies `pending, `printed
      ensures pending == Rest(old(pending), '\n')
      ensures printed == NonBlank(blank, before + Complete(old(pending), '\n'))
    {
      ghost var all, done := pending, before;
      var index := IndexOf(pending, '\n');
      while index < |pending|
        invariant 0 <= index <= |pending| && '\n' !in pending[..index] && (index < |pending| ==> pending[index] == '\n')
        invariant Remaining(before, all, done, pending)
        invariant printed == NonBlank(blank, done)
        decreases |pending|
      {
        var line := pending[..index];
        TakePiece(before, all, done, pending, index);
        pending := pending[index + 1..];
        OneMorePiece(blank, done, line);
        if !blank(line) { printed := printed + [line]; }
        done := done + [line];
        index := IndexOf(pending, '\n');
      }
      assert pending == pending[..index];
      NoMorePieces(before, all, done, pending);
    }

    /** Print what was read and carry the unfinished line over. */
    method Consume(chunk: string)
      requires Following() && Fits(Some(chunk))
      modifies this
      ensures Following() && position == old(position) + |chunk| && old(printed) <= printed
    {
      ghost var consumed := scene.log[..position];
      StreamGrows(consumed, chunk);
      assert scene.log[..position + |chunk|] == consumed + chunk;
      pending := pending + chunk;
      ghost var now := pending;
      PrintLines(Complete(consumed, '\n'));
      NonBlankConcat(blank, Complete(consumed, '\n'), Complete(now, '\n'));
      position := position + |chunk|;
    }

    /** Read on to the end of the log as it is then. */
    method Drain() returns (ok: bool)
      requires Following()
      modifies this, scene
      ensures Following() && old(scene.log) <= scene.log && |scene.future| <= |old(scene.future)|
      ensures ok ==> position == |scene.log|
      ensures scene.errors == old(scene.errors) + if ok then 0 else 1
      ensures |scene.future| == |old(scene.future)| ==> scene.Unmoved()
      ensures old(printed) <= printed && position >= old(position) && (scene.present ==> old(scene.present))
    {
      var chunk := Read();
      while chunk.Some? && chunk.value != ""
        invariant Following() && Fits(chunk) && old(scene.log) <= scene.log && |scene.future| <= |old(scene.future)|
        invariant old(printed) <= printed && position >= old(position) && (scene.present ==> old(scene.present))
        invariant |scene.future| == |old(scene.future)| ==> scene.Unmoved()
        invariant scene.errors == old(scene.errors) + if chunk == None then 1 else 0
        decreases |scene.future|, |scene.log| - position
      {
        Consume(chunk.value);
        chunk := Read();
      }
      ok := chunk.Some?;
    }

    lemma StillFollowing(was: string, now: string, n: nat)
      requires was <= now && n <= |was|
      ensures now[..n] == was[..n]
    {
    }

    /** Another task is followed now, or the own one is not active any more. */
    predicate Over()
      reads scene
    {
      (scene.taskId != "" && scene.taskId != taskId) || !scene.active
    }

    /** Has the task been switched, or left the active state? An unreadable id is no switch. */
    method WatchTerminal() returns (reason: Option<Reason>)
      requires Following()
      modifies scene
      ensures Following() && old(scene.log) <= scene.log && |scene.future| <= |old(scene.future)|
      ensures reason.Some? && reason.value.TaskSwitched? ==> reason.value.id != "" && reason.value.id != taskId
      ensures reason == Some(TaskEnded) ==> !scene.active
      ensures reason == None ==> scene.active
      ensures scene.errors == old(scene.errors) && (scene.present ==> old(scene.present))
      ensures |scene.future| == |old(scene.future)| ==> scene.Unmoved() && (reason.Some? <==> Over())
    {
      scene.Progress();
      StillFollowing(old(scene.log), scene.log, position);
      var current := scene.taskId;
      if current != "" && current != taskId { return Some(TaskSwitched(current)); }
      ghost var log := scene.log;
      scene.Progress();
      StillFollowing(log, scene.log, position);
      return if scene.active then None else Some(TaskEnded);
    }

    /** One round of polling: look at the status first, then read on. The lines due when the status was read
        are all printed before the loop is left. */
    method PollOnce() returns (ending: Option<Ending>, ghost seen: string)
      requires Following()
      modifies this, scene
      ensures ending == Some(Removed) ==> !scene.present
      ensures !old(scene.present) ==> ending == Some(Removed)
      ensures scene.errors == old(scene.errors) + if ending == Some(ReadFailed) then 1 else 0
      ensures |scene.future| == |old(scene.future)| ==> scene.Unmoved()
      ensures |scene.future| == |old(scene.future)| && old(scene.present) && ending != Some(ReadFailed) ==>
        (old(Over()) <==> ending.Some? && ending.value.Exited?)
      ensures Following() && old(scene.log) <= scene.log && old(printed) <= printed
      ensures |scene.future| <= |old(scene.future)|
      ensures ending.Some? && ending.value.Exited? ==> seen <= scene.log && Due(seen) <= printed
      ensures ending != Some(Stopped)
    {
      scene.Progress();
      StillFollowing(old(scene.log), scene.log, position);
      seen := scene.log;
      if !scene.present { return Some(Removed), seen; }
      var reason := WatchTerminal();
      seen := scene.log;
      var ok := Drain();
      if !ok { return Some(ReadFailed), seen; }
      if reason.Some? {
        DueGrows(seen, scene.log);
        assert scene.log[..position] == scene.log;
        return Some(Exited(reason.value)), seen;
      }
      return None, seen;
    }

    /** More log only ever adds lines. */
    lemma DueGrows(was: string, now: string)
      requires was <= now
      ensures Due(was) <= Due(now)
    {
      var more := now[|was|..];
      assert now == was + more;
      StreamGrows(was, more);
      NonBlankConcat(blank, Complete(was, '\n'), Complete(Rest(was, '\n') + more, '\n'));
    }

    /** Print what is there, look at the status, and then poll until the task ends, the log is removed, or the
        watcher is told to stop. On an exit from the polling loop every line due when the status was read has
        been printed, once and in order; on the first check only the lines due before it was read. */
    method WatchTaskEvents(polls: nat) returns (ending: Ending, ghost polled: bool, ghost seen: string)
      requires Following()
      modifies this, scene
      ensures Following() && old(printed) <= printed
      ensures ending == Removed ==> !scene.present
      ensures scene.errors == old(scene.errors) + if ending == ReadFailed then 1 else 0
      ensures |scene.future| == |old(scene.future)| && old(Over()) ==> ending.Exited? || ending.ReadFailed?
      ensures ending.Exited? && polled ==> seen <= scene.log && Due(seen) <= printed
      ensures ending.Exited? && !polled ==> position <= |seen| && printed == Due(seen[..position]) && seen <= scene.log
    {
      polled, seen := false, scene.log;
      var ok := Drain();
      if !ok { return ReadFailed, polled, seen; }
      ghost var drained := scene.log;
      var reason := WatchTerminal();
      seen := scene.log;
      if reason.Some? {
        StillFollowing(drained, seen, position);
        assert drained[..position] == drained;
        return Exited(reason.value), polled, seen;
      }
      polled := true;
      for i := 0 to polls
        invariant Following() && old(printed) <= printed && scene.errors == old(scene.errors)
        invariant |scene.future| <= |old(scene.future)| && (|scene.future| == |old(scene.future)| ==> !old(Over()))
      {
        var ended;
        ended, seen := PollOnce();
        if ended.Some? { return ended.value, polled, seen; }
      }
      ending := Stopped;
    }
  }

  /** The exit on the first check has shown everything due exactly when no line that is not blank was
      completed between reading the log and reading the status. */
  lemma FirstCheckIsComplete(blank: string -> bool, drained: string, gap: string)
    ensures NonBlank(blank, Complete(drained + gap, '\n')) == NonBlank(blank, Complete(drained, '\n')) <==>
              forall i :: 0 <= i < |Complete(Rest(drained, '\n') + gap, '\n')| ==>
                blank(Complete(Rest(drained, '\n') + gap, '\n')[i])
  {
    var added := Complete(Rest(drained, '\n') + gap, '\n');
    StreamGrows(drained, gap);
    NonBlankConcat(blank, Complete(drained, '\n'), added);
    AllBlank(blank, added);
  }

  lemma {:induction false} AllBlank(blank: string -> bool, lines: seq<string>)
    ensures NonBlank(blank, lines) == [] <==> forall i :: 0 <= i < |lines| ==> blank(lines[i])
  {
    if lines != [] {
      var rest, last := lines[..|lines| - 1], lines[|lines| - 1];
      AllBlank(blank, rest);
      assert NonBlank(blank, lines) == [] <==> NonBlank(blank, rest) == [] && blank(last);
      assert (forall i :: 0 <= i < |lines| ==> blank(lines[i])) <==>
        (forall i :: 0 <= i < |rest| ==> blank(rest[i])) && blank(last);
    }
  }

  /** A last event appended just before the task ended is lost to a watcher started just then. */
  lemma FirstCheckCanMissLines(blank: string -> bool, event: string)
    requires !blank(event) && '\n' !in event
    ensures NonBlank(blank, Complete("", '\n')) == []
    ensures NonBlank(blank, Complete("" + (event + ['\n']), '\n')) == [event]
  {
    assert event + ['\n'] == event + ['\n'] + [];
    SplitPrepend(event, [], '\n');
    assert Complete(event + ['\n'], '\n') == [event];
    assert [event][..0] == [];
    assert "" + (event + ['\n']) == event + ['\n'];
  }
}
