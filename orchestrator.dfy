/** The placement engine: classify each regular file of the Desktop and move
    it into the folder of its category, recording the outcome in the ledger. */
module Orchestrator {
  import opened Wrappers
  import opened Text
  import opened Config
  import opened Parser
  import opened Classifier
  import opened Filesystem
  import opened Ledger

  /** The Desktop folder of each category. */
  function TargetFolderName(c: Category): string
  {
    match c
    case UniversityDocs => "University Docs"
    case TechnicalWork => "Technical Work"
    case CapstoneWork => "Capstone Work"
  }

  /** `get_target_folder`: a folder directly under the Desktop for each of
      the three categories, and none for anything else. */
  function GetTargetFolder(category: Option<Category>): (r: Option<Dir>)
    ensures r.Some? <==> category.Some?
    ensures r.Some? ==> r.value == Folder(TargetFolderName(category.value))
  {
    match category
    case None => None
    case Some(c) => Some(Folder(TargetFolderName(c)))
  }

  /** Different categories go to different folders, none of them hidden. */
  lemma TargetFoldersDistinct(c1: Category, c2: Category)
    ensures c1 != c2 ==> TargetFolderName(c1) != TargetFolderName(c2)
    ensures !StartsWithDot(TargetFolderName(c1))
  {
  }

  /** A path as `move_file` reports it: a folder or a file. */
  datatype PathRef = DirRef(dir: Dir) | FileRef(loc: Loc)

  /** The decisions of `move_file`, in order: a missing source is an error;
      the target folder is created when missing; a file already in the target
      is skipped; a name taken in the target is an error; then the move, which
      fails when the target is no directory or the operating system refuses. */
  function MoveOutcome(s: DiskState, src: Loc, target: Dir, fault: bool): (ActionStatus, PathRef, DiskState)
  {
    if !LocExists(s, src) then (Error, DirRef(target), s)
    else
      var s1 := EnsureDir(s, target);
      if src.dir == target then (Skipped, DirRef(target), s1)
      else
        var dst := Loc(target, src.name);
        if LocExists(s1, dst) then (Error, FileRef(dst), s1)
        else if fault || !IsDir(s1, target) || src !in s1.files then (Error, FileRef(dst), s1)
        else (Success, FileRef(dst), Relocate(s1, src, dst))
  }

  /** A missing source is an error and nothing on disk changes. */
  lemma MoveMissingSource(s: DiskState, src: Loc, target: Dir, fault: bool)
    requires !LocExists(s, src)
    ensures MoveOutcome(s, src, target, fault).0 == Error
    ensures MoveOutcome(s, src, target, fault).2 == s
  {
  }

  /** A file already in the target folder is skipped and stays where it is. */
  lemma MoveIntoOwnFolder(s: DiskState, src: Loc, fault: bool)
    requires src in s.files
    ensures MoveOutcome(s, src, src.dir, fault).0 == Skipped
    ensures MoveOutcome(s, src, src.dir, fault).2.files == s.files
  {
  }

  /** A name already taken in the target is an error: no file is altered,
      though the target folder has been created by then. */
  lemma MoveCollision(s: DiskState, src: Loc, target: Dir, fault: bool)
    requires src in s.files && src.dir != target
    requires LocExists(EnsureDir(s, target), Loc(target, src.name))
    ensures MoveOutcome(s, src, target, fault).0 == Error
    ensures MoveOutcome(s, src, target, fault).2 == EnsureDir(s, target)
    ensures MoveOutcome(s, src, target, fault).2.files == s.files
  {
  }

  /** The move succeeds exactly when the source is a file outside the target,
      the name is free there, the target is a directory and nothing fails;
      then the source is gone, target/name holds the same file, and every
      other file is where it was. */
  lemma MoveSuccess(s: DiskState, src: Loc, target: Dir, fault: bool)
    ensures var (st, _, s') := MoveOutcome(s, src, target, fault);
      var dst := Loc(target, src.name);
      && (st == Success <==>
            src in s.files && src.dir != target && !LocExists(EnsureDir(s, target), dst)
            && !fault && IsDir(EnsureDir(s, target), target))
      && (st == Success ==>
            && src !in s'.files
            && dst in s'.files && s'.files[dst] == s.files[src]
            && (forall l :: l != src && l != dst ==> (l in s'.files <==> l in s.files))
            && (forall l :: l in s.files && l != src && l != dst ==> s'.files[l] == s.files[l]))
      && (st != Success ==> s'.files == s.files)
  {
  }

  /** Every outcome keeps the Desktop well formed. */
  lemma MoveKeepsWellFormed(s: DiskState, src: Loc, target: Dir, fault: bool)
    requires WellFormed(s)
    ensures WellFormed(MoveOutcome(s, src, target, fault).2)
  {
    EnsureDirPreserves(s, target);
  }

  /** No file is lost or duplicated: the same number of files, holding the
      same entries, before and after any outcome. */
  lemma MoveKeepsEveryFile(s: DiskState, src: Loc, target: Dir, fault: bool)
    ensures var s' := MoveOutcome(s, src, target, fault).2;
      |s'.files| == |s.files| && s'.files.Values == s.files.Values
  {
    if MoveOutcome(s, src, target, fault).0 == Success {
      RelocateKeepsEntries(EnsureDir(s, target), src, Loc(target, src.name));
    }
  }

  /** Moving a file that was just moved into its folder is skipped and
      changes nothing: placement is idempotent per file. */
  lemma MoveIdempotent(s: DiskState, src: Loc, target: Dir, fault: bool, fault2: bool)
    requires MoveOutcome(s, src, target, fault).0 == Success
    ensures var s' := MoveOutcome(s, src, target, fault).2;
      MoveOutcome(s', Loc(target, src.name), target, fault2).0 == Skipped
      && MoveOutcome(s', Loc(target, src.name), target, fault2).2 == s'
  {
    var s1 := EnsureDir(s, target);
    var s' := MoveOutcome(s, src, target, fault).2;
    assert IsDir(s1, target);
    assert s'.folders == s1.folders;
    assert DirPathExists(s', target);
  }

  /** Moving a Desktop file into a category folder never skips, and the
      Desktop listing loses that one name exactly when the move succeeds. */
  lemma MoveFromDesktop(s: DiskState, src: Loc, target: Dir, fault: bool)
    requires src.dir == Root && target.Folder?
    ensures var (st, _, s') := MoveOutcome(s, src, target, fault);
      && st != Skipped
      && (st == Success ==>
            src in s.files && RootFileNames(s') == RootFileNames(s) - {src.name})
      && (st != Success ==> RootFileNames(s') == RootFileNames(s))
  {
    var (st, _, s') := MoveOutcome(s, src, target, fault);
    if st == Success {
      MoveSuccess(s, src, target, fault);
      forall n ensures n in RootFileNames(s') <==> n in RootFileNames(s) - {src.name} {
        assert Loc(Root, n) != Loc(target, src.name);
      }
    } else {
      MoveSuccess(s, src, target, fault);
    }
  }

  /** A move into a category folder leaves every other Desktop file as it was. */
  lemma MoveKeepsOthers(s: DiskState, src: Loc, target: Dir, fault: bool)
    requires target.Folder?
    ensures forall l: Loc :: l.dir == Root && l != src ==> FileAt(MoveOutcome(s, src, target, fault).2, l) == FileAt(s, l)
  {
    MoveSuccess(s, src, target, fault);
  }

  /** Injected failures of one file's writes. */
  datatype Faults = Faults(move: bool, recordMovement: bool, recordDetail: bool)

  /** What `move_file` returns (the message text is not modelled). */
  datatype MoveResult = MoveResult(status: ActionStatus, source: string, destination: string)

  /** What `process_file` returns for one file: the confidence and the
      `move_file` result are there only once a move was attempted (the reason
      text is not modelled). */
  datatype ProcessResult = ProcessResult(
    filename: string,
    category: Option<Category>,
    confidence: Option<real>,
    classificationStatus: ClassStatus,
    movementStatus: ActionStatus,
    movement: Option<MoveResult>,
    overallStatus: ActionStatus)

  /** The counters of `process_all_files`. */
  datatype RunStats = RunStats(totalFiles: nat, processed: nat, successfulMoves: nat, skippedFiles: nat, failed: nat)

  /** Python truthiness of an optional run id. */
  predicate RunIdGiven(runId: Option<nat>)
  {
    runId.Some? && runId.value != 0
  }

  /** The data at a location, absent when no regular file is there. */
  function FileAt(s: DiskState, l: Loc): Option<FileData>
  {
    if l in s.files then Some(s.files[l].data) else None
  }

  /** `PathText` of a reported path. */
  function PathText(desktop: string, p: PathRef): string
  {
    match p
    case DirRef(d) => DirText(desktop, d)
    case FileRef(l) => LocText(desktop, l)
  }

  /** The effect of `process_file` on one file: its result, the Desktop, the
      two ledger tables it may write and the id counter of `processed_files`. */
  datatype Step = Step(
    result: ProcessResult,
    disk: DiskState,
    processedFiles: map<string, ProcessedRow>,
    runDetails: seq<DetailRow>,
    fileSeq: nat)

  /** `process_file` after a successful classification `c`: move the file to
      the folder of its category; record the movement (with the next row id)
      only when it succeeded or was skipped; record a run detail whenever a
      run id is given. */
  function PlaceOutcome(desktop: string, s: DiskState, processed: map<string, ProcessedRow>,
                        details: seq<DetailRow>, fileSeq: nat, src: Loc, c: Classification,
                        runId: Option<nat>, faults: Faults): Step
    requires c.category.Some?
  {
    var category := c.category.value;
    var (st, dest, s') := MoveOutcome(s, src, Folder(TargetFolderName(category)), faults.move);
    var recorded := st != Error && !faults.recordMovement;
    var processed' :=
      if recorded
      then processed[c.filename := ProcessedRow(fileSeq + 1, category, c.confidence,
                                                 LocText(desktop, src), PathText(desktop, dest), st)]
      else processed;
    var details' :=
      if RunIdGiven(runId) && !faults.recordDetail
      then details + [DetailRow(runId.value, c.filename, "Move to " + CategoryKey(category), st)]
      else details;
    var m := MoveResult(st, LocText(desktop, src), PathText(desktop, dest));
    Step(ProcessResult(c.filename, c.category, Some(c.confidence), c.status, st, Some(m), if st == Error then Error else Success),
         s', processed', details', if recorded then fileSeq + 1 else fileSeq)
  }

  /** `process_file`: classify, then place. A classification error stops
      before any move or record. */
  function ProcessOutcome(desktop: string, s: DiskState, processed: map<string, ProcessedRow>,
                          details: seq<DetailRow>, fileSeq: nat, src: Loc,
                          runId: Option<nat>, faults: Faults): Step
  {
    var c := Classify(src.name, FileAt(s, src));
    ErrorIffMissing(src.name, FileAt(s, src));
    if c.status == ClassError then
      Step(ProcessResult(c.filename, None, None, ClassError, Skipped, None, Error), s, processed, details, fileSeq)
    else
      PlaceOutcome(desktop, s, processed, details, fileSeq, src, c, runId, faults)
  }

  /** Placing a classified file: the file counts as processed exactly when
      its movement succeeded or was skipped; the Desktop stays well formed; a
      Desktop file is never skipped, and leaves the listing exactly when it
      was moved. */
  lemma PlaceOutcomeFacts(desktop: string, s: DiskState, processed: map<string, ProcessedRow>,
                          details: seq<DetailRow>, fileSeq: nat, src: Loc, c: Classification,
                          runId: Option<nat>, faults: Faults)
    requires WellFormed(s) && c.category.Some?
    ensures var o := PlaceOutcome(desktop, s, processed, details, fileSeq, src, c, runId, faults);
      && (o.result.overallStatus == Success <==> o.result.movementStatus in {Success, Skipped})
      && WellFormed(o.disk)
      && (o.result.movementStatus == Success ==> src in s.files)
      && (src.dir == Root ==>
            && o.result.movementStatus != Skipped
            && RootFileNames(o.disk) ==
                 (if o.result.movementStatus == Success then RootFileNames(s) - {src.name} else RootFileNames(s)))
  {
    var target := Folder(TargetFolderName(c.category.value));
    MoveKeepsWellFormed(s, src, target, faults.move);
    MoveSuccess(s, src, target, faults.move);
    if src.dir == Root {
      MoveFromDesktop(s, src, target, faults.move);
    }
  }

  /** Processing one file: a classification error happens exactly when the
      file is missing, and then nothing changes and the movement counts as
      skipped; otherwise the placement facts hold. */
  lemma ProcessOutcomeFacts(desktop: string, s: DiskState, processed: map<string, ProcessedRow>,
                            details: seq<DetailRow>, fileSeq: nat, src: Loc,
                            runId: Option<nat>, faults: Faults)
    requires WellFormed(s)
    ensures var o := ProcessOutcome(desktop, s, processed, details, fileSeq, src, runId, faults);
      && o.result.filename == src.name
      && (o.result.classificationStatus == ClassError <==> src !in s.files)
      && (src !in s.files ==>
            && o.result.overallStatus == Error && o.result.movementStatus == Skipped
            && o.disk == s && o.processedFiles == processed && o.runDetails == details)
      && (src in s.files ==>
            (o.result.overallStatus == Success <==> o.result.movementStatus in {Success, Skipped}))
      && WellFormed(o.disk)
      && (src.dir == Root && src in s.files ==> o.result.movementStatus != Skipped)
      && (src.dir == Root ==>
            RootFileNames(o.disk) ==
              (if o.result.movementStatus == Success then RootFileNames(s) - {src.name} else RootFileNames(s)))
  {
    var c := Classify(src.name, FileAt(s, src));
    ErrorIffMissing(src.name, FileAt(s, src));
    if c.status != ClassError {
      PlaceOutcomeFacts(desktop, s, processed, details, fileSeq, src, c, runId, faults);
    }
  }

  /** Processing one file reports the classification of that file as it is
      on disk, and the result of its move once one was attempted. */
  lemma ProcessOutcomeClassification(desktop: string, s: DiskState, processed: map<string, ProcessedRow>,
                                     details: seq<DetailRow>, fileSeq: nat, src: Loc,
                                     runId: Option<nat>, faults: Faults)
    ensures var o := ProcessOutcome(desktop, s, processed, details, fileSeq, src, runId, faults);
      && o.result.category == Classify(src.name, FileAt(s, src)).category
      && o.result.classificationStatus == Classify(src.name, FileAt(s, src)).status
      && o.result.confidence == (if src in s.files then Some(Classify(src.name, FileAt(s, src)).confidence) else None)
      && (o.result.movement.Some? <==> src in s.files)
      && (o.result.movement.Some? ==>
            o.result.movement.value.status == o.result.movementStatus
            && o.result.movement.value.source == LocText(desktop, src))
  {
    ErrorIffMissing(src.name, FileAt(s, src));
  }

  /** Processing one file leaves every other file of the Desktop as it was. */
  lemma ProcessOutcomeKeepsOthers(desktop: string, s: DiskState, processed: map<string, ProcessedRow>,
                                  details: seq<DetailRow>, fileSeq: nat, src: Loc,
                                  runId: Option<nat>, faults: Faults)
    ensures var o := ProcessOutcome(desktop, s, processed, details, fileSeq, src, runId, faults);
      forall l: Loc :: l.dir == Root && l != src ==> FileAt(o.disk, l) == FileAt(s, l)
  {
    var c := Classify(src.name, FileAt(s, src));
    ErrorIffMissing(src.name, FileAt(s, src));
    if c.status != ClassError {
      MoveKeepsOthers(s, src, Folder(TargetFolderName(c.category.value)), faults.move);
    }
  }

  /** `FileOrchestrator`: the Desktop, its path and the ledger it writes to. */
  class FileOrchestrator {
    const desktopPath: string
    const disk: Disk
    const ledger: StateManager

    predicate Valid()
      reads this, disk, ledger
    {
      WellFormed(disk.State()) && ledger.Valid()
    }

    constructor(desktopPath: string, disk: Disk, ledger: StateManager)
      requires WellFormed(disk.State()) && ledger.Valid()
      ensures Valid()
      ensures this.desktopPath == desktopPath && this.disk == disk && this.ledger == ledger
    {
      this.desktopPath := desktopPath;
      this.disk := disk;
      this.ledger := ledger;
    }

    /** `ensure_folder_exists`: creates the folder when the path does not
        exist, and says whether it did. */
    method EnsureFolderExists(d: Dir) returns (created: bool)
      modifies disk
      ensures created <==> !DirPathExists(old(disk.State()), d)
      ensures disk.State() == EnsureDir(old(disk.State()), d)
    {
      if d.Root? || d.name in disk.folders || Loc(Root, d.name) in disk.files {
        return false;
      }
      disk.Mkdir(d.name);
      return true;
    }

    /** `is_file_in_target`: the parent of the file is the target folder. */
    function IsFileInTarget(src: Loc, target: Dir): (b: bool)
    {
      src.dir == target
    }

    /** `move_file` of a file (never a folder) to a target directory. */
    method MoveFile(src: Loc, target: Dir, fault: bool) returns (r: MoveResult)
      requires !(src.dir == Root && src.name in disk.folders)
      modifies disk
      ensures var (st, dest, s') := MoveOutcome(old(disk.State()), src, target, fault);
        && r == MoveResult(st, LocText(desktopPath, src), PathText(desktopPath, dest))
        && disk.State() == s'
    {
      var source := LocText(desktopPath, src);
      if src !in disk.files {
        return MoveResult(Error, source, DirText(desktopPath, target));
      }
      var _ := EnsureFolderExists(target);
      if IsFileInTarget(src, target) {
        return MoveResult(Skipped, source, DirText(desktopPath, target));
      }
      var dst := Loc(target, src.name);
      var dstText := LocText(desktopPath, dst);
      if dst in disk.files || (dst.dir == Root && dst.name in disk.folders) {
        return MoveResult(Error, source, dstText);
      }
      if fault || !(target.Root? || target.name in disk.folders) || src !in disk.files {
        return MoveResult(Error, source, dstText);
      }
      disk.Rename(src, dst);
      return MoveResult(Success, source, dstText);
    }

    /** `process_file` on the Desktop and the ledger. */
    method ProcessFile(src: Loc, runId: Option<nat>, faults: Faults) returns (r: ProcessResult)
      requires Valid()
      requires !(src.dir == Root && src.name in disk.folders)
      modifies disk, ledger
      ensures Valid()
      ensures Step(r, disk.State(), ledger.processedFiles, ledger.runDetails, ledger.fileSeq)
           == ProcessOutcome(desktopPath, old(disk.State()), old(ledger.processedFiles),
                             old(ledger.runDetails), old(ledger.fileSeq), src, runId, faults)
      ensures ledger.runs == old(ledger.runs) && ledger.runSeq == old(ledger.runSeq)
    {
      var data := if src in disk.files then Some(disk.files[src].data) else None;
      var c := ClassifyDocument(src.name, data);
      ErrorIffMissing(src.name, data);
      if c.status == ClassError {
        return ProcessResult(c.filename, None, None, ClassError, Skipped, None, Error);
      }
      r := PlaceClassified(src, c, runId, faults);
    }

    /** The placement half of `process_file`, for a classified file. */
    method PlaceClassified(src: Loc, c: Classification, runId: Option<nat>, faults: Faults) returns (r: ProcessResult)
      requires Valid() && c.category.Some?
      requires !(src.dir == Root && src.name in disk.folders)
      modifies disk, ledger
      ensures Valid()
      ensures Step(r, disk.State(), ledger.processedFiles, ledger.runDetails, ledger.fileSeq)
           == PlaceOutcome(desktopPath, old(disk.State()), old(ledger.processedFiles),
                           old(ledger.runDetails), old(ledger.fileSeq), src, c, runId, faults)
      ensures ledger.runs == old(ledger.runs) && ledger.runSeq == old(ledger.runSeq)
    {
      var target := GetTargetFolder(c.category).value;
      MoveKeepsWellFormed(disk.State(), src, target, faults.move);
      var m := MoveFile(src, target, faults.move);
      RecordPlacement(c.filename, c.category.value, c.confidence, m, runId, faults);
      var overall := if m.status in {Success, Skipped} then Success else Error;
      r := ProcessResult(c.filename, c.category, Some(c.confidence), c.status, m.status, Some(m), overall);
    }

    /** `process_file` on a file listed in the Desktop, as `process_all_files`
        calls it: the file exists, so it is classified; it is never skipped;
        it counts as processed exactly when it was moved, and then its name
        leaves the Desktop listing while every other Desktop file stays as it
        was. */
    method ProcessDesktopFile(src: Loc, runId: Option<nat>, faults: Faults) returns (r: ProcessResult)
      requires Valid()
      requires src.dir == Root && src in disk.files
      modifies disk, ledger
      ensures Valid()
      ensures Step(r, disk.State(), ledger.processedFiles, ledger.runDetails, ledger.fileSeq)
           == ProcessOutcome(desktopPath, old(disk.State()), old(ledger.processedFiles),
                             old(ledger.runDetails), old(ledger.fileSeq), src, runId, faults)
      ensures r.filename == src.name && r.classificationStatus != ClassError
      ensures r.category == Classify(src.name, FileAt(old(disk.State()), src)).category
      ensures forall l: Loc :: l.dir == Root && l != src ==> FileAt(disk.State(), l) == FileAt(old(disk.State()), l)
      ensures r.movementStatus != Skipped
      ensures r.overallStatus == Success <==> r.movementStatus == Success
      ensures RootFileNames(disk.State()) ==
        if r.movementStatus == Success then old(RootFileNames(disk.State())) - {src.name}
        else old(RootFileNames(disk.State()))
      ensures ledger.runs == old(ledger.runs) && ledger.runSeq == old(ledger.runSeq)
    {
      ProcessOutcomeFacts(desktopPath, disk.State(), ledger.processedFiles, ledger.runDetails, ledger.fileSeq,
                          src, runId, faults);
      ProcessOutcomeClassification(desktopPath, disk.State(), ledger.processedFiles, ledger.runDetails, ledger.fileSeq,
                                   src, runId, faults);
      ProcessOutcomeKeepsOthers(desktopPath, disk.State(), ledger.processedFiles, ledger.runDetails, ledger.fileSeq,
                                src, runId, faults);
      r := ProcessFile(src, runId, faults);
    }

    /** The ledger writes of `process_file` after a move. */
    method RecordPlacement(filename: string, category: Category, confidence: real, m: MoveResult,
                           runId: Option<nat>, faults: Faults)
      requires ledger.Valid()
      modifies ledger
      ensures ledger.Valid()
      ensures ledger.processedFiles ==
        if m.status != Error && !faults.recordMovement
        then old(ledger.processedFiles)[filename := ProcessedRow(old(ledger.fileSeq) + 1, category, confidence,
                                                                 m.source, m.destination, m.status)]
        else old(ledger.processedFiles)
      ensures ledger.fileSeq ==
        if m.status != Error && !faults.recordMovement then old(ledger.fileSeq) + 1 else old(ledger.fileSeq)
      ensures ledger.runDetails ==
        if RunIdGiven(runId) && !faults.recordDetail
        then old(ledger.runDetails) + [DetailRow(runId.value, filename, "Move to " + CategoryKey(category), m.status)]
        else old(ledger.runDetails)
      ensures ledger.runs == old(ledger.runs) && ledger.runSeq == old(ledger.runSeq)
    {
      if m.status in {Success, Skipped} {
        ledger.RecordFileMovement(filename, category, confidence, m.source, m.destination, m.status, faults.recordMovement);
      }
      if RunIdGiven(runId) {
        ledger.RecordRunDetail(runId.value, filename, "Move to " + CategoryKey(category), m.status, faults.recordDetail);
      }
    }

    /** The regular files directly in the Desktop whose name does not start
        with a dot, each once, in an order the directory listing chooses. */
    method ListDesktop() returns (listing: seq<Loc>)
      ensures forall i :: 0 <= i < |listing| ==>
        listing[i].dir == Root && listing[i].name in RootFileNames(disk.State())
      ensures forall i, j :: 0 <= i < j < |listing| ==> listing[i].name != listing[j].name
      ensures forall n :: n in RootFileNames(disk.State()) ==> Loc(Root, n) in listing
      ensures |listing| == |RootFileNames(disk.State())|
    {
      var all := RootFileNames(disk.State());
      var remaining := all;
      listing := [];
      while remaining != {}
        invariant remaining <= all
        invariant forall i :: 0 <= i < |listing| ==> listing[i].dir == Root && listing[i].name in all - remaining
        invariant forall n :: n in all - remaining ==> Loc(Root, n) in listing
        invariant forall i, j :: 0 <= i < j < |listing| ==> listing[i].name != listing[j].name
        invariant |listing| + |remaining| == |all|
        decreases |remaining|
      {
        var n :| n in remaining;
        listing := listing + [Loc(Root, n)];
        remaining := remaining - {n};
      }
    }

    /** One turn of the loop of `process_all_files`: the `i`-th listed file
        is processed and counted, which extends the pass over the listing by
        one file. */
    method VisitListed(listing: seq<Loc>, i: nat, runId: Option<nat>, faults: string -> Faults,
                       t: RunStats, results: seq<ProcessResult>,
                       ghost s0: DiskState, ghost p0: map<string, ProcessedRow>, ghost d0: seq<DetailRow>,
                       ghost f0: nat) returns (t': RunStats, results': seq<ProcessResult>)
      requires Valid()
      requires ListsOnce(listing, RootFileNames(s0)) && i < |listing|
      requires DesktopPass(desktopPath, s0, p0, d0, f0, listing[..i], runId, faults)
            == Pass(results, disk.State(), ledger.processedFiles, ledger.runDetails, ledger.fileSeq)
      requires PassNames(s0, listing, i, results, disk.State())
      requires PassCounts(results, t, |listing|) && ResultsSound(s0, results)
      modifies disk, ledger
      ensures Valid()
      ensures DesktopPass(desktopPath, s0, p0, d0, f0, listing[..i + 1], runId, faults)
           == Pass(results', disk.State(), ledger.processedFiles, ledger.runDetails, ledger.fileSeq)
      ensures PassNames(s0, listing, i + 1, results', disk.State())
      ensures PassCounts(results', t', |listing|) && ResultsSound(s0, results')
      ensures ledger.runs == old(ledger.runs) && ledger.runSeq == old(ledger.runSeq)
    {
      var src := listing[i];
      ghost var s := disk.State();
      ListedStillThere(s0, listing, i, results, s);
      PassExtend(desktopPath, s0, p0, d0, f0, listing, i, runId, faults, results,
                 disk.State(), ledger.processedFiles, ledger.runDetails, ledger.fileSeq);
      var result := ProcessDesktopFile(src, runId, faults(src.name));
      results' := results + [result];
      t' := Tally(t, result);
      PassCountsStep(results, t, |listing|, result, t');
      PassNamesStep(s0, listing, i, results, s, result, disk.State());
      ResultsSoundAppend(s0, results, result);
    }

    /** The counting in the loop of `process_all_files`: an overall success
        counts as processed and by its movement status, anything else as failed. */
    static method Tally(t: RunStats, result: ProcessResult) returns (t': RunStats)
      ensures t'.totalFiles == t.totalFiles
      ensures t'.processed == t.processed + (if result.overallStatus == Success then 1 else 0)
      ensures t'.failed == t.failed + (if result.overallStatus != Success then 1 else 0)
      ensures t'.successfulMoves == t.successfulMoves
        + (if result.overallStatus == Success && result.movementStatus == Success then 1 else 0)
      ensures t'.skippedFiles == t.skippedFiles
        + (if result.overallStatus == Success && result.movementStatus == Skipped then 1 else 0)
    {
      t' := t;
      if result.overallStatus == Success {
        t' := t'.(processed := t'.processed + 1);
        if result.movementStatus == Success {
          t' := t'.(successfulMoves := t'.successfulMoves + 1);
        } else if result.movementStatus == Skipped {
          t' := t'.(skippedFiles := t'.skippedFiles + 1);
        }
      } else {
        t' := t'.(failed := t'.failed + 1);
      }
    }

    /** `process_all_files`: the listed Desktop files are processed in turn,
        as `DesktopPass` states; each visible Desktop file exactly once. Every
        file counts as processed or as failed, nothing is ever skipped because
        a Desktop file is never inside a category folder, each result carries
        the classification of the file as it was on the Desktop, and exactly
        the moved names leave the Desktop. */
    method ProcessAllFiles(runId: Option<nat>, faults: string -> Faults) returns (stats: RunStats, results: seq<ProcessResult>)
      requires Valid()
      modifies disk, ledger
      ensures Valid()
      ensures DesktopPass(desktopPath, old(disk.State()), old(ledger.processedFiles), old(ledger.runDetails),
                          old(ledger.fileSeq), DesktopListing(results), runId, faults)
           == Pass(results, disk.State(), ledger.processedFiles, ledger.runDetails, ledger.fileSeq)
      ensures stats.totalFiles == |results| == |RootFileNames(old(disk.State()))|
      ensures ResultNames(results) == RootFileNames(old(disk.State()))
      ensures forall i, j :: 0 <= i < j < |results| ==> results[i].filename != results[j].filename
      ensures ResultsSound(old(disk.State()), results)
      ensures stats.processed == CountProcessed(results) && stats.failed == CountFailed(results)
      ensures stats.successfulMoves == CountMovement(results, Success)
      ensures stats.skippedFiles == CountMovement(results, Skipped) == 0
      ensures stats.totalFiles == stats.processed + stats.failed
      ensures stats.processed == stats.successfulMoves + stats.skippedFiles
      ensures RootFileNames(disk.State()) == RootFileNames(old(disk.State())) - MovedNames(results)
      ensures |RootFileNames(disk.State())| == |RootFileNames(old(disk.State()))| - stats.successfulMoves
      ensures ledger.runs == old(ledger.runs) && ledger.runSeq == old(ledger.runSeq)
    {
      var listing := ListDesktop();
      ghost var s0, p0, d0, f0 := disk.State(), ledger.processedFiles, ledger.runDetails, ledger.fileSeq;
      assert ListsOnce(listing, RootFileNames(s0));
      stats := RunStats(|listing|, 0, 0, 0, 0);
      results := [];
      for i := 0 to |listing|
        invariant Valid()
        invariant DesktopPass(desktopPath, s0, p0, d0, f0, listing[..i], runId, faults)
               == Pass(results, disk.State(), ledger.processedFiles, ledger.runDetails, ledger.fileSeq)
        invariant PassNames(s0, listing, i, results, disk.State())
        invariant PassCounts(results, stats, |listing|) && ResultsSound(s0, results)
        invariant ledger.runs == old(ledger.runs) && ledger.runSeq == old(ledger.runSeq)
      {
        stats, results := VisitListed(listing, i, runId, faults, stats, results, s0, p0, d0, f0);
      }
      PassComplete(s0, listing, results, disk.State(), stats);
      PassCovers(desktopPath, s0, p0, d0, f0, listing, results, runId, faults,
                 Pass(results, disk.State(), ledger.processedFiles, ledger.runDetails, ledger.fileSeq));
    }
  }

  /** The listing holds each of the names once, as files of the Desktop. */
  ghost predicate ListsOnce(listing: seq<Loc>, names: set<string>)
  {
    && |listing| == |names|
    && (forall j :: 0 <= j < |listing| ==> listing[j].dir == Root && listing[j].name in names)
    && (forall i, j :: 0 <= i < j < |listing| ==> listing[i].name != listing[j].name)
    && (forall n :: n in names ==> Loc(Root, n) in listing)
  }

  /** What `process_all_files` has done to the Desktop after the first `i`
      listed files, leaving it as `s`: the results follow the listing, exactly
      the moved names are gone, and the files still to come are as they were. */
  ghost predicate PassNames(s0: DiskState, listing: seq<Loc>, i: nat, results: seq<ProcessResult>, s: DiskState)
  {
    && i <= |listing| && |results| == i
    && (forall j :: 0 <= j < i ==> results[j].filename == listing[j].name)
    && WellFormed(s)
    && RootFileNames(s) == RootFileNames(s0) - MovedNames(results)
    && |RootFileNames(s)| == |RootFileNames(s0)| - CountMovement(results, Success)
    && (forall j :: i <= j < |listing| ==> FileAt(s, listing[j]) == FileAt(s0, listing[j]))
  }

  /** The counters of `process_all_files` after the `results`, out of `n` files. */
  ghost predicate PassCounts(results: seq<ProcessResult>, t: RunStats, n: nat)
  {
    && t.totalFiles == n
    && t.processed == CountProcessed(results) && t.failed == CountFailed(results)
    && t.processed + t.failed == |results|
    && t.successfulMoves == CountMovement(results, Success)
    && t.skippedFiles == CountMovement(results, Skipped) == 0
    && t.processed == t.successfulMoves + t.skippedFiles
  }

  /** The next listed file is still on the Desktop, as it was before the pass. */
  lemma ListedStillThere(s0: DiskState, listing: seq<Loc>, i: nat, results: seq<ProcessResult>, s: DiskState)
    requires ListsOnce(listing, RootFileNames(s0)) && i < |listing|
    requires PassNames(s0, listing, i, results, s)
    ensures listing[i] == Loc(Root, listing[i].name) && listing[i] in s.files && WellFormed(s)
    ensures FileAt(s, listing[i]) == FileAt(s0, listing[i])
  {
    assert FileAt(s, listing[i]) == FileAt(s0, listing[i]);
  }

  /** Counting one more result keeps the counters of `process_all_files`. */
  lemma PassCountsStep(results: seq<ProcessResult>, t: RunStats, n: nat, r: ProcessResult, t': RunStats)
    requires PassCounts(results, t, n)
    requires r.movementStatus != Skipped && (r.overallStatus == Success <==> r.movementStatus == Success)
    requires t'.totalFiles == t.totalFiles
    requires t'.processed == t.processed + (if r.overallStatus == Success then 1 else 0)
    requires t'.failed == t.failed + (if r.overallStatus != Success then 1 else 0)
    requires t'.successfulMoves == t.successfulMoves + (if r.overallStatus == Success && r.movementStatus == Success then 1 else 0)
    requires t'.skippedFiles == t.skippedFiles + (if r.overallStatus == Success && r.movementStatus == Skipped then 1 else 0)
    ensures PassCounts(results + [r], t', n)
  {
    TallyAppend(results, r);
  }

  /** Processing the next listed file keeps what the pass has done to the Desktop. */
  lemma PassNamesStep(s0: DiskState, listing: seq<Loc>, i: nat, results: seq<ProcessResult>, s: DiskState,
                      r: ProcessResult, s': DiskState)
    requires ListsOnce(listing, RootFileNames(s0)) && i < |listing|
    requires PassNames(s0, listing, i, results, s)
    requires WellFormed(s')
    requires r.filename == listing[i].name
    requires r.overallStatus == Success <==> r.movementStatus == Success
    requires RootFileNames(s') ==
      if r.movementStatus == Success then RootFileNames(s) - {listing[i].name} else RootFileNames(s)
    requires forall l: Loc :: l.dir == Root && l != listing[i] ==> FileAt(s', l) == FileAt(s, l)
    ensures PassNames(s0, listing, i + 1, results + [r], s')
  {
    LaterFilesStep(s0, listing, i, s, s');
    MovedNamesStep(s0, listing, i, results, s, r, s');
    FilenamesStep(listing, i, results, r);
  }

  /** The results keep following the listing, one result per listed file. */
  lemma FilenamesStep(listing: seq<Loc>, i: nat, results: seq<ProcessResult>, r: ProcessResult)
    requires i < |listing| && |results| == i
    requires forall j :: 0 <= j < i ==> results[j].filename == listing[j].name
    requires r.filename == listing[i].name
    ensures forall j :: 0 <= j < i + 1 ==> (results + [r])[j].filename == listing[j].name
  {
  }

  /** The files listed after the one processed are still as they were. */
  lemma LaterFilesStep(s0: DiskState, listing: seq<Loc>, i: nat, s: DiskState, s': DiskState)
    requires ListsOnce(listing, RootFileNames(s0)) && i < |listing|
    requires forall j :: i <= j < |listing| ==> FileAt(s, listing[j]) == FileAt(s0, listing[j])
    requires forall l: Loc :: l.dir == Root && l != listing[i] ==> FileAt(s', l) == FileAt(s, l)
    ensures forall j :: i + 1 <= j < |listing| ==> FileAt(s', listing[j]) == FileAt(s0, listing[j])
  {
    forall j | i + 1 <= j < |listing|
      ensures FileAt(s', listing[j]) == FileAt(s0, listing[j])
    {
      assert listing[j] != listing[i];
    }
  }

  /** The name of the processed file leaves the Desktop exactly when it moved. */
  lemma MovedNamesStep(s0: DiskState, listing: seq<Loc>, i: nat, results: seq<ProcessResult>, s: DiskState,
                       r: ProcessResult, s': DiskState)
    requires i < |listing| && |results| == i
    requires forall a, b :: 0 <= a < b < |listing| ==> listing[a].name != listing[b].name
    requires forall j :: 0 <= j < i ==> results[j].filename == listing[j].name
    requires RootFileNames(s) == RootFileNames(s0) - MovedNames(results)
    requires |RootFileNames(s)| == |RootFileNames(s0)| - CountMovement(results, Success)
    requires listing[i].name in RootFileNames(s0)
    requires r.filename == listing[i].name
    requires r.overallStatus == Success <==> r.movementStatus == Success
    requires RootFileNames(s') ==
      if r.movementStatus == Success then RootFileNames(s) - {listing[i].name} else RootFileNames(s)
    ensures RootFileNames(s') == RootFileNames(s0) - MovedNames(results + [r])
    ensures |RootFileNames(s')| == |RootFileNames(s0)| - CountMovement(results + [r], Success)
  {
    TallyAppend(results, r);
    var n := listing[i].name;
    assert n in RootFileNames(s) by {
      MovedNamesProcessed(results);
      forall j | 0 <= j < i
        ensures results[j].filename != n
      {
      }
    }
  }

  /** Once every listed file is processed, the results follow the listing
      and name every Desktop file once. */
  lemma PassComplete(s0: DiskState, listing: seq<Loc>, results: seq<ProcessResult>, s: DiskState, t: RunStats)
    requires ListsOnce(listing, RootFileNames(s0))
    requires PassNames(s0, listing, |listing|, results, s) && PassCounts(results, t, |listing|)
    ensures DesktopListing(results) == listing
    ensures t.totalFiles == |results| == |RootFileNames(s0)|
    ensures ResultNames(results) == RootFileNames(s0)
    ensures forall i, j :: 0 <= i < j < |results| ==> results[i].filename != results[j].filename
    ensures t.processed == CountProcessed(results) && t.failed == CountFailed(results)
    ensures t.successfulMoves == CountMovement(results, Success)
    ensures t.skippedFiles == CountMovement(results, Skipped) == 0
    ensures t.totalFiles == t.processed + t.failed
    ensures t.processed == t.successfulMoves + t.skippedFiles
    ensures RootFileNames(s) == RootFileNames(s0) - MovedNames(results)
    ensures |RootFileNames(s)| == |RootFileNames(s0)| - t.successfulMoves
  {
    DesktopListedResults(listing, results, RootFileNames(s0));
  }

  /** The pass over the whole listing is the pass over the listing read back
      from its results. */
  lemma PassCovers(desktop: string, s0: DiskState, p0: map<string, ProcessedRow>, d0: seq<DetailRow>, f0: nat,
                   listing: seq<Loc>, results: seq<ProcessResult>, runId: Option<nat>, faults: string -> Faults, p: Pass)
    requires DesktopPass(desktop, s0, p0, d0, f0, listing[..|listing|], runId, faults) == p
    requires DesktopListing(results) == listing
    ensures DesktopPass(desktop, s0, p0, d0, f0, DesktopListing(results), runId, faults) == p
  {
    assert listing[..|listing|] == listing;
  }

  /** Only the names of processed files can have been moved. */
  lemma {:induction false} MovedNamesProcessed(results: seq<ProcessResult>)
    ensures MovedNames(results) <= ResultNames(results)
  {
    if |results| > 0 {
      var init := results[..|results| - 1];
      MovedNamesProcessed(init);
      assert ResultNames(init) <= ResultNames(results) by {
        forall n | n in ResultNames(init) ensures n in ResultNames(results) {
          var j :| 0 <= j < |init| && init[j].filename == n;
          assert results[j].filename == n;
        }
      }
      assert results[|results| - 1].filename in ResultNames(results);
    }
  }

  /** The result of a Desktop file: classified, never skipped, with the
      category of the file as it was on the Desktop `s0`. */
  ghost predicate SoundResult(s0: DiskState, r: ProcessResult)
  {
    && r.classificationStatus != ClassError
    && r.movementStatus != Skipped
    && r.category == Classify(r.filename, FileAt(s0, Loc(Root, r.filename))).category
  }

  /** Every result of the pass is sound. */
  ghost predicate ResultsSound(s0: DiskState, results: seq<ProcessResult>)
  {
    |results| == 0 || (ResultsSound(s0, results[..|results| - 1]) && SoundResult(s0, results[|results| - 1]))
  }

  lemma ResultsSoundAppend(s0: DiskState, results: seq<ProcessResult>, r: ProcessResult)
    requires ResultsSound(s0, results) && SoundResult(s0, r)
    ensures ResultsSound(s0, results + [r])
  {
    assert (results + [r])[..|results|] == results;
  }

  /** Each result of a sound pass is sound. */
  lemma {:induction false} ResultsSoundAt(s0: DiskState, results: seq<ProcessResult>, j: nat)
    requires ResultsSound(s0, results) && j < |results|
    ensures SoundResult(s0, results[j])
  {
    if j < |results| - 1 {
      ResultsSoundAt(s0, results[..|results| - 1], j);
    }
  }

  /** The Desktop files as `process_all_files` visited them, read back from its results. */
  function DesktopListing(results: seq<ProcessResult>): (listing: seq<Loc>)
    ensures |listing| == |results|
    ensures forall j :: 0 <= j < |results| ==> listing[j] == Loc(Root, results[j].filename)
  {
    seq(|results|, j requires 0 <= j < |results| => Loc(Root, results[j].filename))
  }

  /** The names of the processed files. */
  function ResultNames(results: seq<ProcessResult>): set<string>
  {
    set j | 0 <= j < |results| :: results[j].filename
  }

  /** The state `process_all_files` builds up: the results so far, the
      Desktop, and the ledger tables and counter `process_file` writes. */
  datatype Pass = Pass(
    results: seq<ProcessResult>,
    disk: DiskState,
    processedFiles: map<string, ProcessedRow>,
    runDetails: seq<DetailRow>,
    fileSeq: nat)

  /** `process_file` applied to each file of a listing in turn, each call
      seeing the Desktop and the ledger the previous calls left. */
  function DesktopPass(desktop: string, s: DiskState, processed: map<string, ProcessedRow>,
                       details: seq<DetailRow>, fileSeq: nat, listing: seq<Loc>,
                       runId: Option<nat>, faults: string -> Faults): Pass
  {
    if |listing| == 0 then Pass([], s, processed, details, fileSeq)
    else
      var p := DesktopPass(desktop, s, processed, details, fileSeq, listing[..|listing| - 1], runId, faults);
      var src := listing[|listing| - 1];
      var o := ProcessOutcome(desktop, p.disk, p.processedFiles, p.runDetails, p.fileSeq, src, runId, faults(src.name));
      Pass(p.results + [o.result], o.disk, o.processedFiles, o.runDetails, o.fileSeq)
  }

  /** The pass over one more listed file is the pass so far followed by
      `process_file` on that file. */
  lemma PassExtend(desktop: string, s0: DiskState, p0: map<string, ProcessedRow>, d0: seq<DetailRow>, f0: nat,
                   listing: seq<Loc>, i: nat, runId: Option<nat>, faults: string -> Faults,
                   results: seq<ProcessResult>, s: DiskState, processed: map<string, ProcessedRow>,
                   details: seq<DetailRow>, fileSeq: nat)
    requires i < |listing|
    requires DesktopPass(desktop, s0, p0, d0, f0, listing[..i], runId, faults) == Pass(results, s, processed, details, fileSeq)
    ensures var o := ProcessOutcome(desktop, s, processed, details, fileSeq, listing[i], runId, faults(listing[i].name));
      DesktopPass(desktop, s0, p0, d0, f0, listing[..i + 1], runId, faults)
        == Pass(results + [o.result], o.disk, o.processedFiles, o.runDetails, o.fileSeq)
  {
    assert listing[..i + 1][..i] == listing[..i];
  }

  /** The results counted as processed: overall success. */
  function CountProcessed(results: seq<ProcessResult>): nat
  {
    if |results| == 0 then 0
    else CountProcessed(results[..|results| - 1]) + (if results[|results| - 1].overallStatus == Success then 1 else 0)
  }

  /** The results counted as failed: anything but overall success. */
  function CountFailed(results: seq<ProcessResult>): nat
  {
    if |results| == 0 then 0
    else CountFailed(results[..|results| - 1]) + (if results[|results| - 1].overallStatus != Success then 1 else 0)
  }

  /** The processed results whose movement ended with status `st`. */
  function CountMovement(results: seq<ProcessResult>, st: ActionStatus): nat
  {
    if |results| == 0 then 0
    else
      var r := results[|results| - 1];
      CountMovement(results[..|results| - 1], st) + (if r.overallStatus == Success && r.movementStatus == st then 1 else 0)
  }

  /** The names of the files that were moved. */
  function MovedNames(results: seq<ProcessResult>): set<string>
  {
    if |results| == 0 then {}
    else
      var r := results[|results| - 1];
      MovedNames(results[..|results| - 1]) + (if r.movementStatus == Success then {r.filename} else {})
  }

  lemma TallyAppend(results: seq<ProcessResult>, r: ProcessResult)
    ensures CountProcessed(results + [r]) == CountProcessed(results) + (if r.overallStatus == Success then 1 else 0)
    ensures CountFailed(results + [r]) == CountFailed(results) + (if r.overallStatus != Success then 1 else 0)
    ensures forall st :: (CountMovement(results + [r], st)
      == CountMovement(results, st) + (if r.overallStatus == Success && r.movementStatus == st then 1 else 0))
    ensures MovedNames(results + [r]) == MovedNames(results) + (if r.movementStatus == Success then {r.filename} else {})
  {
    assert (results + [r])[..|results|] == results;
  }

  /** The results follow the listing, which holds every visible Desktop file once. */
  lemma DesktopListedResults(listing: seq<Loc>, results: seq<ProcessResult>, names: set<string>)
    requires |results| == |listing| == |names|
    requires forall j :: 0 <= j < |listing| ==> listing[j].dir == Root && listing[j].name in names
    requires forall i, j :: 0 <= i < j < |listing| ==> listing[i].name != listing[j].name
    requires forall n :: n in names ==> Loc(Root, n) in listing
    requires forall j :: 0 <= j < |results| ==> results[j].filename == listing[j].name
    ensures DesktopListing(results) == listing
    ensures ResultNames(results) == names
    ensures forall i, j :: 0 <= i < j < |results| ==> results[i].filename != results[j].filename
  {
    forall n | n in names
      ensures n in ResultNames(results)
    {
      var j :| 0 <= j < |listing| && listing[j] == Loc(Root, n);
      assert results[j].filename == n;
    }
  }
}
