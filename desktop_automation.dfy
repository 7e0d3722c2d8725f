/** The repeated-run driver of the Desktop automation and its consistency
    checks: each run is started, processes every Desktop file and is ended
    in the ledger, and the runs' counters are compared with one another. */
module Consistency {
  import opened Wrappers
  import opened Text
  import opened Filesystem
  import opened Ledger
  import opened Orchestrator

  /** The four counters `compare_run_results` looks at agree. */
  predicate SameCounters(run1: RunStats, run2: RunStats)
  {
    && run1.totalFiles == run2.totalFiles
    && run1.successfulMoves == run2.successfulMoves
    && run1.skippedFiles == run2.skippedFiles
    && run1.failed == run2.failed
  }

  /** `compare_run_results`: 100 when the four counters agree, 0 otherwise. */
  function CompareRunResults(run1: RunStats, run2: RunStats): (r: real)
    ensures r == 100.0 <==> SameCounters(run1, run2)
    ensures r == 0.0 || r == 100.0
  {
    if run1.totalFiles != run2.totalFiles then 0.0
    else if run1.successfulMoves != run2.successfulMoves then 0.0
    else if run1.skippedFiles != run2.skippedFiles then 0.0
    else if run1.failed != run2.failed then 0.0
    else 100.0
  }

  /** A run always matches itself, and the comparison does not depend on
      which run comes first. */
  lemma CompareReflexiveSymmetric(run1: RunStats, run2: RunStats)
    ensures CompareRunResults(run1, run1) == 100.0
    ensures CompareRunResults(run1, run2) == CompareRunResults(run2, run1)
  {
  }

  /** The consistency `run_automation` reports: 100 to begin with, then the
      minimum with the comparison of each run with the one before it. */
  function OverallConsistency(runs: seq<RunStats>): real
  {
    if |runs| <= 1 then 100.0
    else Min(OverallConsistency(runs[..|runs| - 1]), CompareRunResults(runs[|runs| - 2], runs[|runs| - 1]))
  }

  /** Every run matches the run before it. */
  predicate ConsecutiveMatch(runs: seq<RunStats>)
  {
    forall k :: 0 <= k < |runs| - 1 ==> SameCounters(runs[k], runs[k + 1])
  }

  /** Every later run matches the first. */
  predicate AllMatchFirst(runs: seq<RunStats>)
  {
    forall k :: 0 < k < |runs| ==> SameCounters(runs[0], runs[k])
  }

  /** The overall consistency is 0 or 100, and it is 100 exactly when every
      run matches the run before it. */
  lemma {:induction false} OverallConsistencyIff(runs: seq<RunStats>)
    ensures OverallConsistency(runs) == 0.0 || OverallConsistency(runs) == 100.0
    ensures OverallConsistency(runs) == 100.0 <==> ConsecutiveMatch(runs)
  {
    if |runs| > 1 {
      var init := runs[..|runs| - 1];
      OverallConsistencyIff(init);
      assert forall k :: 0 <= k < |init| ==> init[k] == runs[k];
    }
  }

  /** Matching the run before, all along the chain, reaches back to the first run. */
  lemma {:induction false} ChainReachesFirst(runs: seq<RunStats>, k: nat)
    requires ConsecutiveMatch(runs) && k < |runs|
    ensures SameCounters(runs[0], runs[k])
  {
    if k > 0 {
      ChainReachesFirst(runs, k - 1);
    }
  }

  /** The running check of `run_automation` and the check of
      `analyze_consistency` against the first run agree. */
  lemma ConsecutiveIffAllMatchFirst(runs: seq<RunStats>)
    ensures ConsecutiveMatch(runs) <==> AllMatchFirst(runs)
  {
    if ConsecutiveMatch(runs) {
      forall k | 0 < k < |runs|
        ensures SameCounters(runs[0], runs[k])
      {
        ChainReachesFirst(runs, k);
      }
    }
  }

  /** `analyze_consistency`: None for no runs, otherwise whether every later
      run matches the first. */
  method AnalyzeConsistency(runs: seq<RunStats>) returns (r: Option<bool>)
    ensures r.None? <==> |runs| == 0
    ensures r.Some? ==> (r.value <==> AllMatchFirst(runs))
  {
    if |runs| == 0 {
      return None;
    }
    var firstRun := runs[0];
    var allConsistent := true;
    for i := 1 to |runs|
      invariant allConsistent <==> forall k :: 0 < k < i ==> SameCounters(firstRun, runs[k])
    {
      var consistency := CompareRunResults(firstRun, runs[i]);
      if consistency < 100.0 {
        allConsistent := false;
      }
    }
    r := Some(allConsistent);
  }

  /** The counters of one Desktop run add up, and nothing is ever skipped. */
  predicate StatsSound(s: RunStats)
  {
    && s.totalFiles == s.processed + s.failed
    && s.processed == s.successfulMoves + s.skippedFiles
    && s.skippedFiles == 0
  }

  /** Every run's counters add up. */
  predicate AllSound(runs: seq<RunStats>)
  {
    forall k :: 0 <= k < |runs| ==> StatsSound(runs[k])
  }

  /** Each run lists exactly the files the run before it did not move. */
  predicate RunsChained(runs: seq<RunStats>)
  {
    forall k :: 0 <= k < |runs| - 1 ==> runs[k + 1].totalFiles == runs[k].totalFiles - runs[k].successfulMoves
  }

  /** With two runs or more, perfect consistency happens exactly when no run
      moved a single file: a move shrinks the next run's total. */
  lemma PerfectConsistencyIffNothingMoved(runs: seq<RunStats>)
    requires |runs| >= 2
    requires AllSound(runs) && RunsChained(runs)
    ensures OverallConsistency(runs) == 100.0 <==> forall k :: 0 <= k < |runs| ==> runs[k].successfulMoves == 0
  {
    OverallConsistencyIff(runs);
    var n := |runs|;
    if ConsecutiveMatch(runs) {
      forall k | 0 <= k < n
        ensures runs[k].successfulMoves == 0
      {
        if k < n - 1 {
          assert SameCounters(runs[k], runs[k + 1]);
        } else {
          assert SameCounters(runs[k - 1], runs[k]);
        }
      }
    }
  }

  /** Request failures of one run: the two halves of `start_run`, the
      per-file failures, and `end_run`. */
  datatype RunFaults = RunFaults(startRead: bool, startWrite: bool, files: string -> Faults, endRun: bool)

  /** The number of runs among the first `n` whose `start_run` writes its row. */
  function StartedRuns(faults: nat -> RunFaults, n: nat): (r: nat)
    ensures r <= n
    ensures (forall k :: 1 <= k <= n ==> !faults(k).startWrite) ==> r == n
  {
    if n == 0 then 0 else StartedRuns(faults, n - 1) + (if faults(n).startWrite then 0 else 1)
  }

  /** A sound run that lists what the last run left keeps the list sound
      and chained. */
  lemma ExtendRuns(runs: seq<RunStats>, s: RunStats)
    requires AllSound(runs) && RunsChained(runs) && StatsSound(s)
    requires |runs| > 0 ==> s.totalFiles == runs[|runs| - 1].totalFiles - runs[|runs| - 1].successfulMoves
    ensures AllSound(runs + [s]) && RunsChained(runs + [s])
  {
  }

  /** Appending a run to the list takes the minimum with its comparison to
      the run before it. */
  lemma OverallConsistencyAppend(runs: seq<RunStats>, s: RunStats)
    requires |runs| > 0
    ensures OverallConsistency(runs + [s])
         == Min(OverallConsistency(runs), CompareRunResults(runs[|runs| - 1], s))
  {
    assert (runs + [s])[..|runs|] == runs;
  }

  /** The counters `end_run` stores for a run. */
  function RunTotalsOf(s: RunStats): RunTotals
  {
    RunTotals(s.totalFiles, s.successfulMoves, s.failed, s.skippedFiles)
  }

  /** The `runs` table and its id high-water mark after one run numbered
      `runNumber`: nothing when the insert of `start_run` fails; otherwise one
      new row with the next id and the next run number (1 when the number
      query fails), completed with the run's counters and the note
      "Run <runNumber>" unless `end_run` fails. */
  function LoggedRun(rows: seq<RunRow>, runSeq: nat, stats: RunStats, runNumber: nat, f: RunFaults): (seq<RunRow>, nat)
  {
    if f.startWrite then (rows, runSeq)
    else
      var number := if f.startRead then 1 else NextRunNumber(rows);
      var row := if f.endRun then RunRow(runSeq + 1, number, None, None)
                 else RunRow(runSeq + 1, number, Some(RunTotalsOf(stats)), Some("Run " + NatToString(runNumber)));
      (rows + [row], runSeq + 1)
  }

  /** The `runs` table after the runs whose counters are `stats`, the run
      at position `k` numbered `k + 1`. */
  function LoggedRuns(rows: seq<RunRow>, runSeq: nat, stats: seq<RunStats>, faults: nat -> RunFaults): (seq<RunRow>, nat)
  {
    if |stats| == 0 then (rows, runSeq)
    else
      var p := LoggedRuns(rows, runSeq, stats[..|stats| - 1], faults);
      LoggedRun(p.0, p.1, stats[|stats| - 1], |stats|, faults(|stats|))
  }

  /** `start_run` followed by `end_run` with the id it returned leaves the
      `runs` table as `LoggedRun` says: the update matches the new row only,
      and a failed start leaves no id for the update to match. */
  lemma StartThenEnd(rows: seq<RunRow>, runSeq: nat, stats: RunStats, runNumber: nat, f: RunFaults,
                     runId: Option<nat>, started: seq<RunRow>, ended: seq<RunRow>)
    requires RunIdsIncreasing(rows, runSeq)
    requires f.startWrite ==> runId.None? && started == rows
    requires !f.startWrite ==>
      runId == Some(runSeq + 1) && started == rows + [RunRow(runSeq + 1, if f.startRead then 1 else NextRunNumber(rows), None, None)]
    requires ended == if f.endRun then started else UpdateRun(started, runId, RunTotalsOf(stats), "Run " + NatToString(runNumber))
    ensures ended == LoggedRun(rows, runSeq, stats, runNumber, f).0
  {
    if !f.endRun {
      var notes := "Run " + NatToString(runNumber);
      if f.startWrite {
        UpdateRunUnknownId(rows, runId, RunTotalsOf(stats), notes);
      } else {
        var r := UpdateRun(started, runId, RunTotalsOf(stats), notes);
        assert forall i :: 0 <= i < |rows| ==> r[i] == rows[i] by {
          forall i | 0 <= i < |rows|
            ensures r[i] == rows[i]
          {
            assert started[i] == rows[i] && rows[i].id <= runSeq;
          }
        }
        assert r == LoggedRun(rows, runSeq, stats, runNumber, f).0;
      }
    }
  }

  /** A run that is not started changes nothing, so a failed start is not
      seen by any later run. */
  lemma UnstartedRunLogsNothing(rows: seq<RunRow>, runSeq: nat, stats: RunStats, runNumber: nat, f: RunFaults)
    requires f.startWrite
    ensures LoggedRun(rows, runSeq, stats, runNumber, f) == (rows, runSeq)
  {
  }

  /** The ledger writes of a run succeed. */
  predicate LedgerHealthy(f: RunFaults)
  {
    !f.startRead && !f.startWrite && !f.endRun
  }

  /** `SELECT MAX(run_number)` over one more row. */
  lemma MaxRunNumberAppend(rows: seq<RunRow>, r: RunRow)
    ensures MaxRunNumber(rows + [r]) == if r.runNumber > MaxRunNumber(rows) then r.runNumber else MaxRunNumber(rows)
  {
    assert (rows + [r])[..|rows|] == rows;
  }

  /** Completed rows for the runs with counters `stats`: consecutive ids
      after `runSeq`, consecutive run numbers from `first`, each row holding
      its run's counters and "Run <k>". */
  function CompletedRows(runSeq: nat, first: nat, stats: seq<RunStats>): (r: seq<RunRow>)
    ensures |r| == |stats|
    ensures forall k :: 0 <= k < |stats| ==>
      r[k] == RunRow(runSeq + k + 1, first + k, Some(RunTotalsOf(stats[k])), Some("Run " + NatToString(k + 1)))
  {
    seq(|stats|, k requires 0 <= k < |stats| =>
      RunRow(runSeq + k + 1, first + k, Some(RunTotalsOf(stats[k])), Some("Run " + NatToString(k + 1))))
  }

  /** The completed row of the last of the runs `stats`. */
  function LastRow(runSeq: nat, first: nat, stats: seq<RunStats>): (r: RunRow)
    requires |stats| > 0
    ensures r == CompletedRows(runSeq, first, stats)[|stats| - 1]
  {
    RunRow(runSeq + |stats|, first + |stats| - 1, Some(RunTotalsOf(stats[|stats| - 1])), Some("Run " + NatToString(|stats|)))
  }

  lemma CompletedRowsAppend(runSeq: nat, first: nat, stats: seq<RunStats>)
    requires |stats| > 0
    ensures CompletedRows(runSeq, first, stats)
         == CompletedRows(runSeq, first, stats[..|stats| - 1]) + [LastRow(runSeq, first, stats)]
  {
  }

  /** After completed rows numbered from the next free number on, the next
      free number has moved on by the number of rows. */
  lemma {:induction false} NextAfterCompleted(rows: seq<RunRow>, runSeq: nat, stats: seq<RunStats>)
    ensures NextRunNumber(rows + CompletedRows(runSeq, NextRunNumber(rows), stats)) == NextRunNumber(rows) + |stats|
  {
    if |stats| == 0 {
      assert rows + CompletedRows(runSeq, NextRunNumber(rows), stats) == rows;
    } else {
      var init := stats[..|stats| - 1];
      NextAfterCompleted(rows, runSeq, init);
      var p := rows + CompletedRows(runSeq, NextRunNumber(rows), init);
      var row := LastRow(runSeq, NextRunNumber(rows), stats);
      CompletedRowsAppend(runSeq, NextRunNumber(rows), stats);
      AppendLast(rows, CompletedRows(runSeq, NextRunNumber(rows), init), row);
      MaxRunNumberAppend(p, row);
    }
  }

  /** A run whose ledger writes succeed appends one completed row. */
  lemma HealthyRun(rows: seq<RunRow>, runSeq: nat, s: RunStats, runNumber: nat, f: RunFaults)
    requires LedgerHealthy(f)
    ensures LoggedRun(rows, runSeq, s, runNumber, f)
         == (rows + [RunRow(runSeq + 1, NextRunNumber(rows), Some(RunTotalsOf(s)), Some("Run " + NatToString(runNumber)))],
             runSeq + 1)
  {
  }

  /** The last of the runs, when its ledger writes succeed, appends its
      completed row to the table the earlier runs left. */
  lemma HealthyRunAfter(rows: seq<RunRow>, runSeq: nat, stats: seq<RunStats>, faults: nat -> RunFaults, p: seq<RunRow>, first: nat)
    requires |stats| > 0 && LedgerHealthy(faults(|stats|))
    requires LoggedRuns(rows, runSeq, stats[..|stats| - 1], faults) == (p, runSeq + |stats| - 1)
    requires NextRunNumber(p) == first + |stats| - 1
    ensures LoggedRuns(rows, runSeq, stats, faults) == (p + [LastRow(runSeq, first, stats)], runSeq + |stats|)
  {
    HealthyRun(p, runSeq + |stats| - 1, stats[|stats| - 1], |stats|, faults(|stats|));
  }

  /** One more run whose ledger writes succeed extends the completed rows
      by one. */
  lemma HealthyRunsStep(rows: seq<RunRow>, runSeq: nat, stats: seq<RunStats>, faults: nat -> RunFaults)
    requires |stats| > 0 && LedgerHealthy(faults(|stats|))
    requires LoggedRuns(rows, runSeq, stats[..|stats| - 1], faults)
          == (rows + CompletedRows(runSeq, NextRunNumber(rows), stats[..|stats| - 1]), runSeq + |stats| - 1)
    ensures LoggedRuns(rows, runSeq, stats, faults)
         == (rows + CompletedRows(runSeq, NextRunNumber(rows), stats), runSeq + |stats|)
  {
    var init := stats[..|stats| - 1];
    var p := rows + CompletedRows(runSeq, NextRunNumber(rows), init);
    NextAfterCompleted(rows, runSeq, init);
    HealthyRunAfter(rows, runSeq, stats, faults, p, NextRunNumber(rows));
    CompletedRowsAppend(runSeq, NextRunNumber(rows), stats);
    AppendLast(rows, CompletedRows(runSeq, NextRunNumber(rows), init), LastRow(runSeq, NextRunNumber(rows), stats));
  }

  /** When every ledger write succeeds, the runs append one completed row
      each, in order, after the rows already there. */
  lemma {:induction false} HealthyRunsLogged(rows: seq<RunRow>, runSeq: nat, stats: seq<RunStats>, faults: nat -> RunFaults)
    requires forall k :: 1 <= k <= |stats| ==> LedgerHealthy(faults(k))
    ensures LoggedRuns(rows, runSeq, stats, faults)
         == (rows + CompletedRows(runSeq, NextRunNumber(rows), stats), runSeq + |stats|)
  {
    if |stats| == 0 {
      assert rows + CompletedRows(runSeq, NextRunNumber(rows), stats) == rows;
    } else {
      HealthyRunsLogged(rows, runSeq, stats[..|stats| - 1], faults);
      HealthyRunsStep(rows, runSeq, stats, faults);
    }
  }

  /** Appending after a concatenation appends to its second part. */
  lemma AppendLast<T>(front: seq<T>, middle: seq<T>, last: T)
    ensures (front + middle) + [last] == front + (middle + [last])
  {
  }

  /** The runs table after one more run, and how many rows it holds. */
  lemma LoggedRunsExtend(rows: seq<RunRow>, runSeq: nat, runs: seq<RunStats>, s: RunStats, faults: nat -> RunFaults)
    ensures var p := LoggedRuns(rows, runSeq, runs, faults);
      LoggedRuns(rows, runSeq, runs + [s], faults) == LoggedRun(p.0, p.1, s, |runs| + 1, faults(|runs| + 1))
  {
    assert (runs + [s])[..|runs|] == runs;
  }

  /** Every run whose `start_run` insert succeeds leaves exactly one row. */
  lemma {:induction false} LoggedRunsCount(rows: seq<RunRow>, runSeq: nat, stats: seq<RunStats>, faults: nat -> RunFaults)
    ensures |LoggedRuns(rows, runSeq, stats, faults).0| == |rows| + StartedRuns(faults, |stats|)
  {
    if |stats| > 0 {
      LoggedRunsCount(rows, runSeq, stats[..|stats| - 1], faults);
    }
  }

  /** One pass of the run loop: start the run, process the Desktop, end the
      run with its totals and the note "Run <n>". */
  method RunOnce(o: FileOrchestrator, runNumber: nat, f: RunFaults) returns (stats: RunStats)
    requires o.Valid()
    modifies o.disk, o.ledger
    ensures o.Valid()
    ensures StatsSound(stats)
    ensures stats.totalFiles == |old(RootFileNames(o.disk.State()))|
    ensures |RootFileNames(o.disk.State())| == stats.totalFiles - stats.successfulMoves
    ensures (o.ledger.runs, o.ledger.runSeq)
         == LoggedRun(old(o.ledger.runs), old(o.ledger.runSeq), stats, runNumber, f)
  {
    ghost var rows, runSeq := o.ledger.runs, o.ledger.runSeq;
    var runId, number := o.ledger.StartRun(f.startRead, f.startWrite);
    ghost var started := o.ledger.runs;
    var results;
    stats, results := o.ProcessAllFiles(runId, f.files);
    o.ledger.EndRun(runId, RunTotalsOf(stats), "Run " + NatToString(runNumber), f.endRun);
    StartThenEnd(rows, runSeq, stats, runNumber, f, runId, started, o.ledger.runs);
  }

  /** The run loop of `run_automation`: exactly `runLimit` runs, each
      started, processed and ended once; every run after the first lists
      only what the run before left on the Desktop, so the reported
      consistency is 100 exactly when no run moved anything. */
  method RunAutomation(o: FileOrchestrator, runLimit: nat, faults: nat -> RunFaults)
    returns (runs: seq<RunStats>, consistency: real)
    requires o.Valid()
    modifies o.disk, o.ledger
    ensures o.Valid()
    ensures |runs| == runLimit
    ensures AllSound(runs)
    ensures |runs| > 0 ==> runs[0].totalFiles == |old(RootFileNames(o.disk.State()))|
    ensures RunsChained(runs)
    ensures consistency == OverallConsistency(runs)
    ensures runLimit >= 2 ==> (consistency == 100.0 <==> forall k :: 0 <= k < runLimit ==> runs[k].successfulMoves == 0)
    ensures (o.ledger.runs, o.ledger.runSeq) == LoggedRuns(old(o.ledger.runs), old(o.ledger.runSeq), runs, faults)
    ensures |o.ledger.runs| == |old(o.ledger.runs)| + StartedRuns(faults, runLimit)
  {
    runs := [];
    consistency := 100.0;
    var previous: Option<RunStats> := None;
    ghost var firstTotal := |RootFileNames(o.disk.State())|;
    for runNumber := 1 to runLimit + 1
      invariant o.Valid()
      invariant |runs| == runNumber - 1
      invariant previous == if |runs| == 0 then None else Some(runs[|runs| - 1])
      invariant AllSound(runs) && RunsChained(runs)
      invariant |runs| > 0 ==> runs[0].totalFiles == firstTotal
      invariant |RootFileNames(o.disk.State())|
        == if |runs| == 0 then firstTotal else runs[|runs| - 1].totalFiles - runs[|runs| - 1].successfulMoves
      invariant consistency == OverallConsistency(runs)
      invariant (o.ledger.runs, o.ledger.runSeq) == LoggedRuns(old(o.ledger.runs), old(o.ledger.runSeq), runs, faults)
    {
      var stats := RunOnce(o, runNumber, faults(runNumber));
      LoggedRunsExtend(old(o.ledger.runs), old(o.ledger.runSeq), runs, stats, faults);
      if previous.Some? {
        var c := CompareRunResults(previous.value, stats);
        consistency := Min(consistency, c);
        OverallConsistencyAppend(runs, stats);
      }
      ExtendRuns(runs, stats);
      previous := Some(stats);
      runs := runs + [stats];
    }
    if runLimit >= 2 {
      PerfectConsistencyIffNothingMoved(runs);
    }
    LoggedRunsCount(old(o.ledger.runs), old(o.ledger.runSeq), runs, faults);
  }
}
