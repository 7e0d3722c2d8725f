/** The run ledger: the three tables of `automation.db` held in memory.
    `processed_files` is keyed by its unique file name, `runs` and
    `run_details` keep insertion order, and the AUTOINCREMENT counters are
    explicit because `clear_database` does not reset them. */
module Ledger {
  import opened Wrappers
  import opened Config

  /** The outcome of a placement action, as stored in the ledger. */
  datatype ActionStatus = Success | Skipped | Error

  /** A `processed_files` row (timestamps are not modelled). */
  datatype ProcessedRow = ProcessedRow(
    id: nat,
    category: Category,
    confidence: real,
    sourcePath: string,
    destinationPath: string,
    status: ActionStatus)

  /** The four counters written by `end_run`. */
  datatype RunTotals = RunTotals(totalFiles: int, successfulMoves: int, failedMoves: int, skippedFiles: int)

  /** A `runs` row: the counters and notes stay NULL until `end_run`. */
  datatype RunRow = RunRow(id: nat, runNumber: nat, totals: Option<RunTotals>, notes: Option<string>)

  /** A `run_details` row (the JSON of the classification is not modelled). */
  datatype DetailRow = DetailRow(runId: nat, filename: string, actionTaken: string, actionStatus: ActionStatus)

  /** `SELECT MAX(run_number) FROM runs`, with NULL read as 0. */
  function MaxRunNumber(runs: seq<RunRow>): (r: nat)
    ensures forall i :: 0 <= i < |runs| ==> runs[i].runNumber <= r
    ensures |runs| > 0 ==> exists i :: 0 <= i < |runs| && runs[i].runNumber == r
    ensures |runs| == 0 ==> r == 0
  {
    if |runs| == 0 then 0
    else
      var m := MaxRunNumber(runs[..|runs| - 1]);
      var last := runs[|runs| - 1].runNumber;
      assert forall i :: 0 <= i < |runs| - 1 ==> runs[..|runs| - 1][i] == runs[i];
      if last > m then last else m
  }

  /** The number `get_run_number` hands out when the query succeeds: one past
      every stored run number, so 1 for an empty table. */
  function NextRunNumber(runs: seq<RunRow>): (n: nat)
    ensures n >= 1
    ensures forall i :: 0 <= i < |runs| ==> runs[i].runNumber < n
    ensures n == 1 <==> forall i :: 0 <= i < |runs| ==> runs[i].runNumber == 0
  {
    MaxRunNumber(runs) + 1
  }

  /** `UPDATE runs SET ... WHERE id = ?`: the row with that id, if any, gets
      the counters and notes; a NULL id matches no row. */
  function UpdateRun(runs: seq<RunRow>, runId: Option<nat>, totals: RunTotals, notes: string): (r: seq<RunRow>)
    ensures |r| == |runs|
    ensures forall i :: 0 <= i < |runs| ==> r[i].id == runs[i].id && r[i].runNumber == runs[i].runNumber
    ensures forall i :: 0 <= i < |runs| && runId != Some(runs[i].id) ==> r[i] == runs[i]
    ensures forall i :: 0 <= i < |runs| && runId == Some(runs[i].id) ==>
      r[i].totals == Some(totals) && r[i].notes == Some(notes)
  {
    seq(|runs|, i requires 0 <= i < |runs| =>
      if runId == Some(runs[i].id) then runs[i].(totals := Some(totals), notes := Some(notes)) else runs[i])
  }

  /** Ending a run whose id is unknown, or NULL because `start_run` failed,
      leaves the table as it was. */
  lemma UpdateRunUnknownId(runs: seq<RunRow>, runId: Option<nat>, totals: RunTotals, notes: string)
    requires forall i :: 0 <= i < |runs| ==> runId != Some(runs[i].id)
    ensures UpdateRun(runs, runId, totals, notes) == runs
  {
    var r := UpdateRun(runs, runId, totals, notes);
    assert forall i :: 0 <= i < |runs| ==> r[i] == runs[i];
  }

  /** Run ids are positive, strictly increasing in insertion order, and never
      above the AUTOINCREMENT high-water mark. */
  predicate RunIdsIncreasing(runs: seq<RunRow>, runSeq: nat)
  {
    && (forall i :: 0 <= i < |runs| ==> 0 < runs[i].id <= runSeq)
    && (forall i, j :: 0 <= i < j < |runs| ==> runs[i].id < runs[j].id)
  }

  /** With increasing ids at most one row matches an id, so `end_run`
      completes exactly one row for the id `start_run` returned. */
  lemma UpdateRunTouchesOneRow(runs: seq<RunRow>, runSeq: nat, k: nat, totals: RunTotals, notes: string)
    requires RunIdsIncreasing(runs, runSeq) && k < |runs|
    ensures var r := UpdateRun(runs, Some(runs[k].id), totals, notes);
      && r[k] == runs[k].(totals := Some(totals), notes := Some(notes))
      && forall i :: 0 <= i < |runs| && i != k ==> r[i] == runs[i]
  {
    var r := UpdateRun(runs, Some(runs[k].id), totals, notes);
    forall i | 0 <= i < |runs| && i != k
      ensures r[i] == runs[i]
    {
      if i < k {
        assert runs[i].id < runs[k].id;
      } else {
        assert runs[k].id < runs[i].id;
      }
    }
  }

  /** `StateManager`: the database behind the automation. */
  class StateManager {
    var processedFiles: map<string, ProcessedRow>
    var runs: seq<RunRow>
    var runDetails: seq<DetailRow>
    /** AUTOINCREMENT high-water marks of `runs` and `processed_files`. */
    var runSeq: nat
    var fileSeq: nat

    predicate Valid()
      reads this
    {
      && RunIdsIncreasing(runs, runSeq)
      && (forall f :: f in processedFiles ==> 0 < processedFiles[f].id <= fileSeq)
    }

    /** `init_database` on a new database file: three empty tables. */
    constructor()
      ensures Valid()
      ensures processedFiles == map[] && runs == [] && runDetails == []
      ensures runSeq == 0 && fileSeq == 0
    {
      processedFiles := map[];
      runs := [];
      runDetails := [];
      runSeq := 0;
      fileSeq := 0;
    }

    /** `get_run_number`: max plus one, or 1 when the query fails. */
    method GetRunNumber(fault: bool) returns (n: nat)
      ensures n == if fault then 1 else NextRunNumber(runs)
    {
      if fault {
        return 1;
      }
      n := MaxRunNumber(runs) + 1;
    }

    /** `start_run`: a new runs row with a fresh id and the next number;
        `(None, None)` and no change when the insert fails. */
    method StartRun(readFault: bool, writeFault: bool) returns (runId: Option<nat>, runNumber: Option<nat>)
      requires Valid()
      modifies this
      ensures Valid()
      ensures writeFault ==> runId.None? && runNumber.None? && unchanged(this)
      ensures !writeFault ==>
        && runSeq == old(runSeq) + 1
        && runId == Some(runSeq)
        && runNumber == Some(if readFault then 1 else NextRunNumber(old(runs)))
        && runs == old(runs) + [RunRow(runSeq, runNumber.value, None, None)]
        && processedFiles == old(processedFiles) && runDetails == old(runDetails) && fileSeq == old(fileSeq)
      ensures forall i :: 0 <= i < |old(runs)| ==> runId != Some(old(runs)[i].id)
    {
      var number := GetRunNumber(readFault);
      if writeFault {
        return None, None;
      }
      runSeq := runSeq + 1;
      runs := runs + [RunRow(runSeq, number, None, None)];
      runId, runNumber := Some(runSeq), Some(number);
    }

    /** `end_run`: the counters and notes of the row with that id. */
    method EndRun(runId: Option<nat>, totals: RunTotals, notes: string, fault: bool)
      requires Valid()
      modifies this
      ensures Valid()
      ensures runs == if fault then old(runs) else UpdateRun(old(runs), runId, totals, notes)
      ensures processedFiles == old(processedFiles) && runDetails == old(runDetails)
      ensures runSeq == old(runSeq) && fileSeq == old(fileSeq)
    {
      if !fault {
        runs := UpdateRun(runs, runId, totals, notes);
      }
    }

    /** `is_file_processed`: a row for that name exists; false when the query fails. */
    method IsFileProcessed(filename: string, fault: bool) returns (b: bool)
      ensures b <==> !fault && filename in processedFiles
    {
      b := !fault && filename in processedFiles;
    }

    /** `record_file_movement`: INSERT OR REPLACE on the unique file name, so
        the old row, if any, gives way to a new row with a fresh id. */
    method RecordFileMovement(filename: string, category: Category, confidence: real,
                              sourcePath: string, destinationPath: string, status: ActionStatus, fault: bool)
      requires Valid()
      modifies this
      ensures Valid()
      ensures fault ==> unchanged(this)
      ensures !fault ==>
        && fileSeq == old(fileSeq) + 1
        && processedFiles == old(processedFiles)[filename := ProcessedRow(fileSeq, category, confidence, sourcePath, destinationPath, status)]
      ensures runs == old(runs) && runDetails == old(runDetails) && runSeq == old(runSeq)
    {
      if !fault {
        fileSeq := fileSeq + 1;
        processedFiles := processedFiles[filename := ProcessedRow(fileSeq, category, confidence, sourcePath, destinationPath, status)];
      }
    }

    /** `record_run_detail`: one more row, nothing replaced. */
    method RecordRunDetail(runId: nat, filename: string, actionTaken: string, actionStatus: ActionStatus, fault: bool)
      requires Valid()
      modifies this
      ensures Valid()
      ensures runDetails == if fault then old(runDetails) else old(runDetails) + [DetailRow(runId, filename, actionTaken, actionStatus)]
      ensures processedFiles == old(processedFiles) && runs == old(runs)
      ensures runSeq == old(runSeq) && fileSeq == old(fileSeq)
    {
      if !fault {
        runDetails := runDetails + [DetailRow(runId, filename, actionTaken, actionStatus)];
      }
    }

    /** `clear_database`: all three tables emptied; the id counters go on. */
    method ClearDatabase()
      requires Valid()
      modifies this
      ensures Valid()
      ensures processedFiles == map[] && runs == [] && runDetails == []
      ensures runSeq == old(runSeq) && fileSeq == old(fileSeq)
    {
      processedFiles := map[];
      runs := [];
      runDetails := [];
    }
  }
}
