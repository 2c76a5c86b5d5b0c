/** Do the telemetry records account for every counted call? (glm-worker/internal/state/coverage.go) */
module Coverage {
  import opened Text
  import opened Journal
  import opened Store

  datatype Status = CompleteCoverage | Incomplete | Unreadable | HistoricalGap

  /** One task's counted calls against its records; no records when they cannot be read. */
  datatype TaskCoverage = TaskCoverage(archived: bool, statsCalls: nat, rawRecords: Option<nat>)

  function MissingCalls(c: TaskCoverage): nat {
    if c.rawRecords == None || c.statsCalls <= c.rawRecords.value then 0 else c.statsCalls - c.rawRecords.value
  }

  function ExcessRecords(c: TaskCoverage): nat {
    if c.rawRecords == None || c.rawRecords.value <= c.statsCalls then 0 else c.rawRecords.value - c.statsCalls
  }

  function Classification(c: TaskCoverage): Status {
    if c.rawRecords == None then Unreadable
    else if MissingCalls(c) > 0 then (if c.archived then HistoricalGap else Incomplete)
    else if ExcessRecords(c) > 0 then Incomplete
    else CompleteCoverage
  }

  datatype Totals = Totals(statsCalls: nat, rawRecords: nat, missing: nat, excess: nat, status: Status)

  function Count(records: Option<nat>): nat {
    if records.Some? then records.value else 0
  }

  /** Counted calls and records of all tasks, one by one and never netted against each other. */
  ghost predicate Sums(tasks: seq<TaskCoverage>, n: nat, t: Totals)
    requires n <= |tasks|
  {
    if n == 0 then t.statsCalls == t.rawRecords == t.missing == t.excess == 0
    else var c := tasks[n - 1];
         && t.statsCalls >= c.statsCalls && t.rawRecords >= Count(c.rawRecords)
         && t.missing >= MissingCalls(c) && t.excess >= ExcessRecords(c)
         && Sums(tasks, n - 1, Totals(t.statsCalls - c.statsCalls, t.rawRecords - Count(c.rawRecords),
                                      t.missing - MissingCalls(c), t.excess - ExcessRecords(c), t.status))
  }

  /** The report is complete exactly when every task's records are readable and as many as its counted
      calls, and no stray telemetry file is left over; unreadable exactly when some task's are. */
  method ComputeTelemetryCoverage(tasks: seq<TaskCoverage>, orphanFiles: nat) returns (t: Totals, usageKnown: bool)
    ensures Sums(tasks, |tasks|, t)
    ensures usageKnown <==> t.status == CompleteCoverage
    ensures t.status == Unreadable <==> exists i :: 0 <= i < |tasks| && tasks[i].rawRecords == None
    ensures t.status == CompleteCoverage <==>
              orphanFiles == 0 && forall i :: 0 <= i < |tasks| ==> tasks[i].rawRecords == Some(tasks[i].statsCalls)
    ensures t.status != HistoricalGap
  {
    t := Totals(0, 0, 0, 0, CompleteCoverage);
    for i := 0 to |tasks|
      invariant Sums(tasks, i, t)
      invariant t.status == Unreadable <==> exists k :: 0 <= k < i && tasks[k].rawRecords == None
      invariant t.status == CompleteCoverage <==>
        forall k :: 0 <= k < i ==> tasks[k].rawRecords == Some(tasks[k].statsCalls)
      invariant t.status != HistoricalGap
    {
      var c := tasks[i];
      var status := t.status;
      var verdict := Classification(c);
      if verdict == Unreadable {
        status := Unreadable;
      } else if verdict != CompleteCoverage && status == CompleteCoverage {
        status := Incomplete;
      }
      ghost var before := t;
      t := Totals(t.statsCalls + c.statsCalls, t.rawRecords + Count(c.rawRecords),
                  t.missing + MissingCalls(c), t.excess + ExcessRecords(c), status);
      SumsIgnoreStatus(tasks, i, before, before.(status := status));
    }
    if orphanFiles > 0 && t.status == CompleteCoverage {
      SumsIgnoreStatus(tasks, |tasks|, t, t.(status := Incomplete));
      t := t.(status := Incomplete);
    }
    usageKnown := t.status == CompleteCoverage;
  }

  lemma {:induction false} SumsIgnoreStatus(tasks: seq<TaskCoverage>, n: nat, t: Totals, u: Totals)
    requires n <= |tasks| && Sums(tasks, n, t) && u == t.(status := u.status)
    ensures Sums(tasks, n, u)
  {
    if n > 0 {
      var c := tasks[n - 1];
      SumsIgnoreStatus(tasks, n - 1,
        Totals(t.statsCalls - c.statsCalls, t.rawRecords - Count(c.rawRecords), t.missing - MissingCalls(c),
          t.excess - ExcessRecords(c), t.status),
        Totals(u.statsCalls - c.statsCalls, u.rawRecords - Count(c.rawRecords), u.missing - MissingCalls(c),
          u.excess - ExcessRecords(c), u.status));
    }
  }

  /** Differences are kept apart: with every record readable, calls less what is missing are records less
      what is in excess, and both are zero exactly when every task balances. */
  lemma {:induction false} DifferencesAreNotNetted(tasks: seq<TaskCoverage>, n: nat, t: Totals)
    requires n <= |tasks| && Sums(tasks, n, t)
    requires forall i :: 0 <= i < n ==> tasks[i].rawRecords.Some?
    ensures t.statsCalls - t.missing == t.rawRecords - t.excess
    ensures t.missing == 0 && t.excess == 0 <==>
      forall i :: 0 <= i < n ==> tasks[i].rawRecords == Some(tasks[i].statsCalls)
  {
    if n > 0 {
      var c := tasks[n - 1];
      DifferencesAreNotNetted(tasks, n - 1,
        Totals(t.statsCalls - c.statsCalls, t.rawRecords - Count(c.rawRecords), t.missing - MissingCalls(c),
          t.excess - ExcessRecords(c), t.status));
    }
  }

  /** The records of a task's own calls in its telemetry log, probes and events aside. */
  function TaskRecords(log: Log): nat {
    match log
    case Empty => 0
    case Line(before, record) => TaskRecords(before) + if record.TaskRecord? then 1 else 0
  }

  lemma {:induction false} RecordsAreCalls(log: Log)
    ensures TaskRecords(log) == |TaskCalls(log)|
  {
    if log.Line? { RecordsAreCalls(log.before); }
  }

  /** A task whose books balance, as the workflow keeps them across all its commands, is complete. */
  lemma BalancedBooksAreComplete(log: Log, modelCalls: nat, runs: seq<RunCall>, archived: bool)
    requires TaskCalls(log) == runs && modelCalls == |runs|
    ensures Classification(TaskCoverage(archived, modelCalls, Some(TaskRecords(log)))) == CompleteCoverage
  {
    RecordsAreCalls(log);
  }
}
