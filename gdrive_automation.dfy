/** The Google Drive variant of the automation: file names only, unweighted
    scores, and placement by replacing a file's parents in an abstract drive.
    Drive ids are numbers here; 0 stands for the `root` alias of My Drive. */
module Drive {
  import opened Wrappers
  import opened Text
  import opened Config
  import opened Classifier
  import opened Ledger
  import opened Orchestrator

  /** The id that the `'root' in parents` query refers to. */
  const RootId: nat := 0

  /** The `pageSize` of the listing request. */
  const PageSize: nat := 100

  /** A Drive item: its name, whether its MIME type is the folder type, its
      parent folders and whether it sits in the trash. */
  datatype DriveItem = DriveItem(name: string, isFolder: bool, parents: set<nat>, trashed: bool)

  /** One entry of a listing: `id`, `name` and the folder-ness of `mimeType`. */
  datatype DriveFile = DriveFile(id: nat, name: string, isFolder: bool)

  /** A folder that `find_folder_by_name` can return for this name. */
  predicate IsLiveFolder(item: DriveItem, name: string)
  {
    item.isFolder && !item.trashed && item.name == name
  }

  /** Some live folder of the drive bears this name. */
  predicate HasLiveFolder(items: map<nat, DriveItem>, name: string)
  {
    exists i :: i in items && IsLiveFolder(items[i], name)
  }

  /** The items the root listing query matches: not trashed, with the root
      among their parents. */
  function RootItems(items: map<nat, DriveItem>): (r: set<nat>)
    ensures forall i :: i in r <==> i in items && RootId in items[i].parents && !items[i].trashed
  {
    set i | i in items && RootId in items[i].parents && !items[i].trashed
  }

  /** The listing entry of an item. */
  function EntryOf(items: map<nat, DriveItem>, id: nat): DriveFile
    requires id in items
  {
    DriveFile(id, items[id].name, items[id].isFolder)
  }

  /** The drive as `GoogleDriveManager` exposes it. */
  class DriveStore {
    var items: map<nat, DriveItem>
    /** The id the next created folder receives. */
    var nextId: nat

    predicate Valid()
      reads this
    {
      RootId < nextId && forall i :: i in items ==> RootId < i < nextId
    }

    constructor(items0: map<nat, DriveItem>, nextId0: nat)
      requires RootId < nextId0 && forall i :: i in items0 ==> RootId < i < nextId0
      ensures Valid()
      ensures items == items0 && nextId == nextId0
    {
      items := items0;
      nextId := nextId0;
    }

    /** `find_folder_by_name` with the default parent: some live folder with
        that name anywhere in the drive (the API's order decides which), or
        None when there is none or the request fails. */
    method FindFolderByName(name: string, fault: bool) returns (id: Option<nat>)
      ensures fault ==> id.None?
      ensures id.Some? ==> id.value in items && IsLiveFolder(items[id.value], name)
      ensures !fault && id.None? ==> !HasLiveFolder(items, name)
    {
      if fault {
        return None;
      }
      var found := set i | i in items && IsLiveFolder(items[i], name);
      if found == {} {
        assert forall i :: i in items && IsLiveFolder(items[i], name) ==> i in found;
        return None;
      }
      var i :| i in found;
      id := Some(i);
    }

    /** `create_folder` with the default parent: a new folder in My Drive. */
    method CreateFolder(name: string, fault: bool) returns (id: Option<nat>)
      requires Valid()
      modifies this
      ensures Valid()
      ensures fault ==> id.None? && items == old(items) && nextId == old(nextId)
      ensures !fault ==>
        && id == Some(old(nextId))
        && items == old(items)[old(nextId) := DriveItem(name, true, {RootId}, false)]
        && nextId == old(nextId) + 1
    {
      if fault {
        return None;
      }
      items := items[nextId := DriveItem(name, true, {RootId}, false)];
      id := Some(nextId);
      nextId := nextId + 1;
    }

    /** `get_or_create_folder`: an existing folder of that name is reused;
        otherwise one is created. Nothing already in the drive changes. */
    method GetOrCreateFolder(name: string, findFault: bool, createFault: bool) returns (id: Option<nat>)
      requires Valid()
      modifies this
      ensures Valid()
      ensures id.Some? ==> id.value in items && IsLiveFolder(items[id.value], name)
      ensures id.None? ==> createFault
      ensures !findFault && HasLiveFolder(old(items), name) ==> items == old(items) && nextId == old(nextId)
      ensures forall i :: i in old(items) ==> i in items && items[i] == old(items)[i]
    {
      id := FindFolderByName(name, findFault);
      if id.None? {
        id := CreateFolder(name, createFault);
      }
    }

    /** `is_file_in_folder`: the folder is among the file's parents; false
        when the request fails. */
    method IsFileInFolder(fileId: nat, folderId: nat, fault: bool) returns (b: bool)
      ensures b <==> !fault && fileId in items && folderId in items[fileId].parents
    {
      b := !fault && fileId in items && folderId in items[fileId].parents;
    }

    /** `move_file`: every previous parent removed, the new one added; false
        and no change when the request fails or the new parent is no folder. */
    method MoveFile(fileId: nat, newParentId: nat, fault: bool) returns (ok: bool)
      requires Valid()
      modifies this
      ensures Valid() && nextId == old(nextId)
      ensures ok <==> !fault && fileId in old(items) && newParentId in old(items) && old(items)[newParentId].isFolder
      ensures items == if ok then old(items)[fileId := old(items)[fileId].(parents := {newParentId})] else old(items)
    {
      ok := !fault && fileId in items && newParentId in items && items[newParentId].isFolder;
      if ok {
        items := items[fileId := items[fileId].(parents := {newParentId})];
      }
    }

    /** `list_files_in_folder(only_root=True)`: one page of at most 100
        distinct root items, in an order the API chooses; every root item
        when there are no more than 100; nothing when the request fails. */
    method ListRoot(fault: bool) returns (listing: seq<DriveFile>)
      ensures fault ==> listing == []
      ensures |listing| <= PageSize
      ensures forall j :: 0 <= j < |listing| ==>
        listing[j].id in RootItems(items) && listing[j] == EntryOf(items, listing[j].id)
      ensures forall j, k :: 0 <= j < k < |listing| ==> listing[j].id != listing[k].id
      ensures !fault && |RootItems(items)| <= PageSize ==>
        forall i :: i in RootItems(items) ==> EntryOf(items, i) in listing
    {
      if fault {
        return [];
      }
      var all := RootItems(items);
      var remaining := all;
      listing := [];
      while remaining != {} && |listing| < PageSize
        invariant remaining <= all
        invariant forall j :: 0 <= j < |listing| ==>
          listing[j].id in all - remaining && listing[j] == EntryOf(items, listing[j].id)
        invariant forall i :: i in all - remaining ==> EntryOf(items, i) in listing
        invariant forall j, k :: 0 <= j < k < |listing| ==> listing[j].id != listing[k].id
        invariant |listing| + |remaining| == |all|
        invariant |listing| <= PageSize
        decreases |remaining|
      {
        var i :| i in remaining;
        listing := listing + [EntryOf(items, i)];
        remaining := remaining - {i};
      }
    }
  }

  /** One raw hit count of `classify_file_from_drive`: keyword hits in the
      file name with `_` and `-` as spaces, unweighted, content unused. */
  function DriveScore(fileName: string, c: Category): real
  {
    KeywordScore(FilenameText(fileName), Keywords(c)) as real
  }

  /** The hit counts of all three categories. */
  function DriveScores(fileName: string): (s: map<Category, real>)
    ensures forall c :: c in s <==> c in CategoryOrder
    ensures forall c :: c in s ==> s[c] >= 0.0
  {
    map c | c in CategoryOrder :: DriveScore(fileName, c)
  }

  /** `sum(scores.values())`. */
  function DriveTotal(fileName: string): (t: real)
    ensures t >= 0.0
  {
    var scores := DriveScores(fileName);
    TotalNonNegative(CategoryOrder, scores);
    Total(CategoryOrder, scores)
  }

  /** `min(best / (total + 1), 1.0)`. */
  function DriveConfidence(best: real, total: real): real
    requires total >= 0.0
  {
    Min(best / (total + 1.0), 1.0)
  }

  /** The result of `classify_file_from_drive` (its status is always success). */
  datatype DriveClassification = DriveClassification(
    fileId: nat,
    filename: string,
    category: Category,
    confidence: real,
    allScores: map<Category, real>)

  /** `classify_file_from_drive`: the first top-scoring category, with
      confidence `min(best / (sum + 1), 1.0)`. */
  function DriveClassify(fileId: nat, fileName: string): DriveClassification
  {
    var scores := DriveScores(fileName);
    var best := FirstMax(CategoryOrder, scores);
    var confidence := DriveConfidence(scores[best], DriveTotal(fileName));
    DriveClassification(fileId, fileName, best, confidence, scores)
  }

  /** The scores are the unweighted file-name hit counts, and the winner is
      the first category in declaration order among those with the top score. */
  lemma DrivePicksFirstTopScore(fileId: nat, fileName: string)
    ensures var r := DriveClassify(fileId, fileName);
      && (forall c :: c in CategoryOrder ==> r.allScores[c] == DriveScore(fileName, c))
      && (forall c :: c in CategoryOrder ==> r.allScores[c] <= r.allScores[r.category])
      && (forall j :: 0 <= j < |CategoryOrder| && CategoryOrder[j] == r.category ==>
            forall i :: 0 <= i < j ==> r.allScores[CategoryOrder[i]] < r.allScores[r.category])
  {
    var scores := DriveScores(fileName);
    FirstMaxIsFirstMaximum(CategoryOrder, scores);
  }

  /** For a best score within the sum, the Drive formula, with its `min`
      and without a zero guard, gives the Desktop's raw confidence. */
  lemma DriveConfidenceIsRaw(best: real, total: real)
    requires 0.0 <= best <= total
    ensures DriveConfidence(best, total) == RawConfidence(best, total)
  {
    var q := best / (total + 1.0);
    assert q * (total + 1.0) == best;
  }

  /** The confidence is the Desktop's `best / (total + 1)` formula applied to
      the Drive scores, so it lies in [0, 1) and the `min` with 1.0 never
      changes it. */
  lemma DriveConfidenceInRange(fileId: nat, fileName: string)
    ensures var r := DriveClassify(fileId, fileName);
      && r.confidence == RawConfidence(r.allScores[r.category], DriveTotal(fileName))
      && 0.0 <= r.confidence < 1.0
  {
    var scores := DriveScores(fileName);
    var best := FirstMax(CategoryOrder, scores);
    BestWithinTotal(scores);
    DriveConfidenceIsRaw(scores[best], DriveTotal(fileName));
    ConfidenceInRange(scores[best], DriveTotal(fileName));
  }

  /** The winner's score is at most the sum of all scores. */
  lemma BestWithinTotal(s: map<Category, real>)
    requires AllScored(CategoryOrder, s) && forall c :: c in CategoryOrder ==> s[c] >= 0.0
    ensures 0.0 <= s[FirstMax(CategoryOrder, s)] <= Total(CategoryOrder, s)
  {
    TotalBoundsEach(CategoryOrder, s, MaxFrom(CategoryOrder, s, 1, 0));
  }

  /** A file name alone leads the Drive and the Desktop classifier to the
      same category: with empty content every Desktop score is 1.5 times the
      Drive score, which keeps their order. */
  lemma DriveAgreesWithDesktop(fileId: nat, fileName: string)
    ensures ClassifyText(fileName, "").category == Some(DriveClassify(fileId, fileName).category)
  {
    var s := ScoresOf(FilenameText(fileName), "");
    var t := DriveScores(fileName);
    forall c | c in CategoryOrder
      ensures s[c] == FilenameWeight * t[c]
    {
      KeywordsNonEmpty(c);
      KeywordScoreOfEmptyText(Keywords(c));
    }
    MaxFromRespectsOrder(CategoryOrder, s, t, 1, 0);
  }

  /** The folder ids recorded by `setup_folders` name live folders with the
      category's folder name. */
  predicate FolderIdsSound(items: map<nat, DriveItem>, folderIds: map<Category, Option<nat>>)
  {
    forall c :: c in folderIds && folderIds[c].Some? ==>
      folderIds[c].value in items && IsLiveFolder(items[folderIds[c].value], TargetFolderName(c))
  }

  /** Request failures of one `process_file` call: the parent check, the
      move, and the run-detail insert. */
  datatype DriveFaults = DriveFaults(check: bool, move: bool, detail: bool)

  /** The result of `process_file`: the category once classified, and the
      confidence only for a file that was moved (the reason text is not
      modelled). */
  datatype DriveResult = DriveResult(fileId: nat, filename: string, category: Option<Category>,
                                     confidence: Option<real>, status: ActionStatus)

  /** The result with the drive and the run details after a call. */
  datatype DriveStep = DriveStep(result: DriveResult, items: map<nat, DriveItem>, runDetails: seq<DetailRow>)

  /** The run details after `record_run_detail` when a run id is given. */
  function NoteDetail(details: seq<DetailRow>, runId: Option<nat>, filename: string, category: Category,
                      status: ActionStatus, fault: bool): seq<DetailRow>
  {
    if RunIdGiven(runId) && !fault
    then details + [DetailRow(runId.value, filename, "Move to " + CategoryKey(category), status)]
    else details
  }

  /** `process_file` after classification: no folder id is an error; a file
      already in its folder is skipped; otherwise the move decides. */
  function DrivePlaceOutcome(items: map<nat, DriveItem>, folderIds: map<Category, Option<nat>>,
                             details: seq<DetailRow>, f: DriveFile, c: DriveClassification,
                             runId: Option<nat>, faults: DriveFaults): DriveStep
  {
    var category := c.category;
    if category !in folderIds || folderIds[category].None? then
      DriveStep(DriveResult(f.id, f.name, Some(category), None, Error), items, details)
    else
      var target := folderIds[category].value;
      if !faults.check && f.id in items && target in items[f.id].parents then
        DriveStep(DriveResult(f.id, f.name, Some(category), None, Skipped), items,
                  NoteDetail(details, runId, f.name, category, Skipped, faults.detail))
      else if !faults.move && f.id in items && target in items && items[target].isFolder then
        DriveStep(DriveResult(f.id, f.name, Some(category), Some(c.confidence), Success), items[f.id := items[f.id].(parents := {target})],
                  NoteDetail(details, runId, f.name, category, Success, faults.detail))
      else
        DriveStep(DriveResult(f.id, f.name, Some(category), None, Error), items,
                  NoteDetail(details, runId, f.name, category, Error, faults.detail))
  }

  /** `process_file` of a listed item whose file name classifies as `c`:
      folders and dot names are skipped before anything else. */
  function DriveOutcome(items: map<nat, DriveItem>, folderIds: map<Category, Option<nat>>,
                        details: seq<DetailRow>, f: DriveFile, c: DriveClassification,
                        runId: Option<nat>, faults: DriveFaults): DriveStep
  {
    if f.isFolder || StartsWithDot(f.name) then
      DriveStep(DriveResult(f.id, f.name, None, None, Skipped), items, details)
    else
      DrivePlaceOutcome(items, folderIds, details, f, c, runId, faults)
  }

  /** What one `process_file` call does: folders and dot names change
      nothing; only a success changes the drive, by giving the file its
      category folder as only parent, which takes it out of the root; at most
      one run detail is added, with the call's status, and only for a run id. */
  lemma DriveOutcomeFacts(items: map<nat, DriveItem>, folderIds: map<Category, Option<nat>>,
                          details: seq<DetailRow>, f: DriveFile, c: DriveClassification,
                          runId: Option<nat>, faults: DriveFaults)
    requires RootId !in items
    ensures var st := DriveOutcome(items, folderIds, details, f, c, runId, faults);
      && st.result.fileId == f.id && st.result.filename == f.name
      && st.result.category == (if f.isFolder || StartsWithDot(f.name) then None else Some(c.category))
      && st.result.confidence == (if st.result.status == Success then Some(c.confidence) else None)
      && (f.isFolder || StartsWithDot(f.name) ==> st.result.status == Skipped && st.items == items && st.runDetails == details)
      && (st.result.status != Success ==> st.items == items)
      && (st.result.status == Success ==>
            && st.result.category.Some?
            && var target := folderIds[st.result.category.value].value;
            && f.id in items && target in items && target != RootId
            && st.items == items[f.id := items[f.id].(parents := {target})])
      && RootItems(st.items) == RootItems(items) - (if st.result.status == Success then {f.id} else {})
      && st.items.Keys == items.Keys
      && (FolderIdsSound(items, folderIds) ==> FolderIdsSound(st.items, folderIds))
      && (st.runDetails == details ||
            (RunIdGiven(runId) && st.runDetails == details + [DetailRow(runId.value, f.name,
              "Move to " + CategoryKey(st.result.category.value), st.result.status)]))
  {
    var st := DriveOutcome(items, folderIds, details, f, c, runId, faults);
    if st.result.status == Success {
      var target := folderIds[st.result.category.value].value;
      assert RootItems(st.items) == RootItems(items) - {f.id} by {
        forall i ensures i in RootItems(st.items) <==> i in RootItems(items) - {f.id} {
          if i == f.id {
            assert st.items[i].parents == {target};
          }
        }
      }
    }
  }

  /** Moving is idempotent: a file just moved into its category folder is
      skipped, and left where it is, when processed again. */
  lemma DriveMoveIdempotent(items: map<nat, DriveItem>, folderIds: map<Category, Option<nat>>,
                            details: seq<DetailRow>, f: DriveFile, c: DriveClassification, runId: Option<nat>,
                            faults: DriveFaults, again: DriveFaults)
    requires DriveOutcome(items, folderIds, details, f, c, runId, faults).result.status == Success
    requires !again.check
    ensures var st := DriveOutcome(items, folderIds, details, f, c, runId, faults);
      var st2 := DriveOutcome(st.items, folderIds, st.runDetails, f, c, runId, again);
      && st2.result.status == Skipped
      && st2.items == st.items
  {
  }

  /** With sound folder ids, a file that is not yet in its category folder
      is moved exactly when the move request does not fail. */
  lemma DriveMoveSucceedsUnlessFault(items: map<nat, DriveItem>, folderIds: map<Category, Option<nat>>,
                                     details: seq<DetailRow>, f: DriveFile, c: DriveClassification,
                                     runId: Option<nat>, faults: DriveFaults)
    requires FolderIdsSound(items, folderIds)
    requires forall c :: c in folderIds && folderIds[c].Some?
    requires !f.isFolder && !StartsWithDot(f.name) && f.id in items
    requires forall c :: folderIds[c].value !in items[f.id].parents
    ensures DriveOutcome(items, folderIds, details, f, c, runId, faults).result.status == Success <==> !faults.move
  {
  }

  /** `process_all_files` counters, as `compare_results` reads them. */
  datatype DriveStats = DriveStats(totalFiles: nat, successfulMoves: nat, skippedFiles: nat, errors: nat)

  /** `compare_results`: 100 when the four counters agree, 0 otherwise. */
  function CompareResults(run1: DriveStats, run2: DriveStats): (r: real)
    ensures r == 100.0 <==> run1 == run2
    ensures r == 0.0 || r == 100.0
  {
    if run1.totalFiles != run2.totalFiles then 0.0
    else if run1.successfulMoves != run2.successfulMoves then 0.0
    else if run1.skippedFiles != run2.skippedFiles then 0.0
    else if run1.errors != run2.errors then 0.0
    else 100.0
  }

  /** The listing with dot names filtered out, order kept. */
  function Visible(listing: seq<DriveFile>): (r: seq<DriveFile>)
    ensures forall f :: f in r <==> f in listing && !StartsWithDot(f.name)
    ensures |r| <= |listing|
  {
    if |listing| == 0 then []
    else
      var last := listing[|listing| - 1];
      Visible(listing[..|listing| - 1]) + (if StartsWithDot(last.name) then [] else [last])
  }

  /** The ids of the files a run moved. */
  function SuccessIds(results: seq<DriveResult>): set<nat>
  {
    if |results| == 0 then {}
    else
      var last := results[|results| - 1];
      SuccessIds(results[..|results| - 1]) + (if last.status == Success then {last.fileId} else {})
  }

  /** The ids of every processed file. */
  function ResultIds(results: seq<DriveResult>): set<nat>
  {
    set j | 0 <= j < |results| :: results[j].fileId
  }

  /** `GoogleDriveAutomation` after authentication: the drive, the ledger and
      the folder ids found or created by `setup_folders`. */
  class GoogleDriveAutomation {
    const store: DriveStore
    const ledger: StateManager
    var folderIds: map<Category, Option<nat>>

    predicate Valid()
      reads this, store, ledger
    {
      store.Valid() && ledger.Valid() && FolderIdsSound(store.items, folderIds)
    }

    constructor(store0: DriveStore, ledger0: StateManager)
      requires store0.Valid() && ledger0.Valid()
      ensures Valid()
      ensures store == store0 && ledger == ledger0 && folderIds == map[]
    {
      store := store0;
      ledger := ledger0;
      folderIds := map[];
    }

    /** `setup_folders`: one folder id (or None when creating it failed) per
        category, each naming a live folder with the category's folder name. */
    method SetupFolders(findFault: Category -> bool, createFault: Category -> bool)
      requires Valid()
      modifies this, store
      ensures Valid()
      ensures forall c :: c in folderIds
      ensures forall c :: folderIds[c].None? ==> createFault(c)
      ensures forall i :: i in old(store.items) ==> i in store.items && store.items[i] == old(store.items)[i]
    {
      for i := 0 to |CategoryOrder|
        invariant Valid()
        invariant forall c :: c in CategoryOrder[..i] ==> c in folderIds && (folderIds[c].None? ==> createFault(c))
        invariant forall id :: id in old(store.items) ==> id in store.items && store.items[id] == old(store.items)[id]
      {
        var c := CategoryOrder[i];
        var id := store.GetOrCreateFolder(TargetFolderName(c), findFault(c), createFault(c));
        folderIds := folderIds[c := id];
      }
      assert CategoryOrder[..|CategoryOrder|] == CategoryOrder;
      CategoryOrderComplete();
    }

    /** The `scores` loop of `classify_file_from_drive`. */
    method ScoreFileName(fileName: string) returns (scores: map<Category, real>)
      ensures scores == DriveScores(fileName)
    {
      var filenameText := FilenameText(fileName);
      scores := map[];
      for i := 0 to |CategoryOrder|
        invariant forall c :: c in scores <==> c in CategoryOrder[..i]
        invariant forall c :: c in scores ==> scores[c] == DriveScore(fileName, c)
      {
        var c := CategoryOrder[i];
        var matches := CalculateKeywordScore(filenameText, Keywords(c));
        scores := scores[c := matches as real];
      }
      assert CategoryOrder[..|CategoryOrder|] == CategoryOrder;
      assert forall c :: c in scores ==> scores[c] == DriveScores(fileName)[c];
    }

    /** `classify_file_from_drive` (the MIME type it is passed is not used). */
    method ClassifyFileFromDrive(fileId: nat, fileName: string) returns (r: DriveClassification)
      ensures r == DriveClassify(fileId, fileName)
    {
      var scores := ScoreFileName(fileName);
      var best := FirstMax(CategoryOrder, scores);
      var confidence := DriveConfidence(scores[best], DriveTotal(fileName));
      r := DriveClassification(fileId, fileName, best, confidence, scores);
    }

    /** `process_file` from the folder lookup on. */
    method PlaceDriveFile(f: DriveFile, c: DriveClassification, runId: Option<nat>, faults: DriveFaults) returns (r: DriveResult)
      requires Valid()
      modifies store, ledger
      ensures Valid()
      ensures DriveStep(r, store.items, ledger.runDetails)
        == DrivePlaceOutcome(old(store.items), folderIds, old(ledger.runDetails), f, c, runId, faults)
      ensures store.nextId == old(store.nextId)
      ensures ledger.runs == old(ledger.runs) && ledger.runSeq == old(ledger.runSeq)
    {
      var category := c.category;
      if category !in folderIds || folderIds[category].None? {
        return DriveResult(f.id, f.name, Some(category), None, Error);
      }
      var target := folderIds[category].value;
      var inFolder := store.IsFileInFolder(f.id, target, faults.check);
      var status: ActionStatus;
      if inFolder {
        status := Skipped;
      } else {
        var ok := store.MoveFile(f.id, target, faults.move);
        status := if ok then Success else Error;
      }
      if RunIdGiven(runId) {
        ledger.RecordRunDetail(runId.value, f.name, "Move to " + CategoryKey(category), status, faults.detail);
      }
      r := DriveResult(f.id, f.name, Some(category), if status == Success then Some(c.confidence) else None, status);
    }

    /** `process_file` for one listed item. */
    method ProcessFile(f: DriveFile, runId: Option<nat>, faults: DriveFaults) returns (r: DriveResult)
      requires Valid()
      modifies store, ledger
      ensures Valid()
      ensures DriveStep(r, store.items, ledger.runDetails)
        == DriveOutcome(old(store.items), folderIds, old(ledger.runDetails), f,
                        DriveClassify(f.id, f.name), runId, faults)
      ensures store.nextId == old(store.nextId)
      ensures ledger.runs == old(ledger.runs) && ledger.runSeq == old(ledger.runSeq)
    {
      if f.isFolder || StartsWithDot(f.name) {
        return DriveResult(f.id, f.name, None, None, Skipped);
      }
      var c := ClassifyFileFromDrive(f.id, f.name);
      r := PlaceDriveFile(f, c, runId, faults);
    }

    /** One step of `process_all_files`: a folder is skipped, and a success
        takes exactly that item out of the root. */
    method ProcessRootFile(f: DriveFile, runId: Option<nat>, faults: DriveFaults) returns (r: DriveResult)
      requires Valid()
      modifies store, ledger
      ensures Valid()
      ensures DriveStep(r, store.items, ledger.runDetails)
        == DriveOutcome(old(store.items), folderIds, old(ledger.runDetails), f,
                        DriveClassify(f.id, f.name), runId, faults)
      ensures r.fileId == f.id && r.filename == f.name
      ensures f.isFolder ==> r.status == Skipped
      ensures RootItems(store.items) == old(RootItems(store.items)) - (if r.status == Success then {f.id} else {})
      ensures ledger.runs == old(ledger.runs) && ledger.runSeq == old(ledger.runSeq)
    {
      DriveOutcomeFacts(store.items, folderIds, ledger.runDetails, f, DriveClassify(f.id, f.name), runId, faults);
      r := ProcessFile(f, runId, faults);
    }

    /** The counting in the loop of `process_all_files`: each result adds
        one to the counter of its status. */
    static method DriveTally(t: DriveStats, result: DriveResult) returns (t': DriveStats)
      ensures t'.totalFiles == t.totalFiles
      ensures t'.successfulMoves == t.successfulMoves + (if result.status == Success then 1 else 0)
      ensures t'.skippedFiles == t.skippedFiles + (if result.status == Skipped then 1 else 0)
      ensures t'.errors == t.errors + (if result.status == Error then 1 else 0)
    {
      t' := t;
      if result.status == Success {
        t' := t'.(successfulMoves := t'.successfulMoves + 1);
      } else if result.status == Skipped {
        t' := t'.(skippedFiles := t'.skippedFiles + 1);
      } else if result.status == Error {
        t' := t'.(errors := t'.errors + 1);
      }
    }

    /** One turn of the loop of `process_all_files`: the `i`-th file is
        processed and counted, which extends the run over the files by one. */
    method VisitFile(files: seq<DriveFile>, i: nat, runId: Option<nat>, faults: nat -> DriveFaults,
                     t: DriveStats, results: seq<DriveResult>,
                     ghost items0: map<nat, DriveItem>, ghost d0: seq<DetailRow>, ghost before: set<nat>)
      returns (t': DriveStats, results': seq<DriveResult>)
      requires Valid() && i < |files|
      requires DriveRun(items0, folderIds, d0, files[..i], runId, faults)
            == DriveRunState(results, store.items, ledger.runDetails)
      requires FilesDone(files, i, results, before, store.items) && DriveCounted(results, t, |files|)
      modifies store, ledger
      ensures Valid()
      ensures DriveRun(items0, folderIds, d0, files[..i + 1], runId, faults)
           == DriveRunState(results', store.items, ledger.runDetails)
      ensures FilesDone(files, i + 1, results', before, store.items) && DriveCounted(results', t', |files|)
      ensures ledger.runs == old(ledger.runs) && ledger.runSeq == old(ledger.runSeq)
    {
      var f := files[i];
      ghost var items := store.items;
      DriveRunExtend(items0, folderIds, d0, files, i, runId, faults, results, store.items, ledger.runDetails);
      var result := ProcessRootFile(f, runId, faults(f.id));
      results' := results + [result];
      t' := DriveTally(t, result);
      DriveCountedStep(results, t, |files|, result, t');
      FilesDoneStep(files, i, results, before, items, result, store.items);
    }

    /** The loop of `process_all_files` over the filtered listing: the files
        are processed in turn, as `DriveRun` states, each counter counts the
        results of its status, folders are skipped, and exactly the moved
        items leave the root. */
    method ProcessFiles(files: seq<DriveFile>, runId: Option<nat>, faults: nat -> DriveFaults)
      returns (stats: DriveStats, results: seq<DriveResult>)
      requires Valid()
      modifies store, ledger
      ensures Valid()
      ensures DriveRun(old(store.items), folderIds, old(ledger.runDetails), files, runId, faults)
           == DriveRunState(results, store.items, ledger.runDetails)
      ensures stats.totalFiles == |results| == |files|
      ensures stats.successfulMoves == CountStatus(results, Success)
      ensures stats.skippedFiles == CountStatus(results, Skipped)
      ensures stats.errors == CountStatus(results, Error)
      ensures stats.successfulMoves + stats.skippedFiles + stats.errors == stats.totalFiles
      ensures forall j :: 0 <= j < |files| ==> results[j].fileId == files[j].id && results[j].filename == files[j].name
      ensures forall j :: 0 <= j < |files| ==> files[j].isFolder ==> results[j].status == Skipped
      ensures RootItems(store.items) == old(RootItems(store.items)) - SuccessIds(results)
      ensures ledger.runs == old(ledger.runs) && ledger.runSeq == old(ledger.runSeq)
    {
      ghost var items0, d0 := store.items, ledger.runDetails;
      ghost var before := RootItems(store.items);
      stats := DriveStats(|files|, 0, 0, 0);
      results := [];
      for i := 0 to |files|
        invariant Valid()
        invariant DriveRun(items0, folderIds, d0, files[..i], runId, faults)
               == DriveRunState(results, store.items, ledger.runDetails)
        invariant FilesDone(files, i, results, before, store.items) && DriveCounted(results, stats, |files|)
        invariant ledger.runs == old(ledger.runs) && ledger.runSeq == old(ledger.runSeq)
      {
        stats, results := VisitFile(files, i, runId, faults, stats, results, items0, d0, before);
      }
      DriveRunWhole(items0, folderIds, d0, files, runId, faults, DriveRunState(results, store.items, ledger.runDetails));
      DriveCountedTotal(results, stats, |files|);
    }

    /** `process_all_files`: the visible root items of one listing page, each
        processed once, as `DriveRun` states; each counter counts the results
        of its status, folders (the category folders among them) count as
        skipped, and exactly the moved items leave the root. */
    method ProcessAllFiles(runId: Option<nat>, listFault: bool, faults: nat -> DriveFaults)
      returns (stats: DriveStats, results: seq<DriveResult>)
      requires Valid()
      modifies store, ledger
      ensures Valid()
      ensures stats.totalFiles == |results| <= PageSize
      ensures forall j :: 0 <= j < |results| ==>
        && results[j].fileId in old(store.items) && results[j].fileId in old(RootItems(store.items))
        && !StartsWithDot(results[j].filename)
        && (old(store.items)[results[j].fileId].isFolder ==> results[j].status == Skipped)
      ensures DriveRun(old(store.items), folderIds, old(ledger.runDetails), DriveListing(old(store.items), results),
                       runId, faults)
           == DriveRunState(results, store.items, ledger.runDetails)
      ensures stats.successfulMoves == CountStatus(results, Success)
      ensures stats.skippedFiles == CountStatus(results, Skipped)
      ensures stats.errors == CountStatus(results, Error)
      ensures stats.successfulMoves + stats.skippedFiles + stats.errors == stats.totalFiles
      ensures !listFault && old(|RootItems(store.items)|) <= PageSize ==>
        forall i :: i in old(RootItems(store.items)) && !StartsWithDot(old(store.items)[i].name) ==> i in ResultIds(results)
      ensures RootItems(store.items) == old(RootItems(store.items)) - SuccessIds(results)
      ensures ledger.runs == old(ledger.runs) && ledger.runSeq == old(ledger.runSeq)
    {
      ghost var items0 := store.items;
      var listing := store.ListRoot(listFault);
      var files := Visible(listing);
      stats, results := ProcessFiles(files, runId, faults);
      ListedResults(items0, listing, files, results);
    }
  }

  /** The state `process_all_files` builds up: the results so far, the drive
      and the run details. */
  datatype DriveRunState = DriveRunState(results: seq<DriveResult>, items: map<nat, DriveItem>, runDetails: seq<DetailRow>)

  /** `process_file` applied to each file in turn, each call seeing the drive
      and the run details the previous calls left, with the category its file
      name classifies as. */
  function DriveRun(items: map<nat, DriveItem>, folderIds: map<Category, Option<nat>>, details: seq<DetailRow>,
                    files: seq<DriveFile>, runId: Option<nat>, faults: nat -> DriveFaults): DriveRunState
  {
    if |files| == 0 then DriveRunState([], items, details)
    else
      var p := DriveRun(items, folderIds, details, files[..|files| - 1], runId, faults);
      var f := files[|files| - 1];
      var st := DriveOutcome(p.items, folderIds, p.runDetails, f, DriveClassify(f.id, f.name), runId, faults(f.id));
      DriveRunState(p.results + [st.result], st.items, st.runDetails)
  }

  /** The run over one more file is the run so far followed by `process_file`
      on that file. */
  lemma DriveRunExtend(items0: map<nat, DriveItem>, folderIds: map<Category, Option<nat>>, d0: seq<DetailRow>,
                       files: seq<DriveFile>, i: nat, runId: Option<nat>, faults: nat -> DriveFaults,
                       results: seq<DriveResult>, items: map<nat, DriveItem>, details: seq<DetailRow>)
    requires i < |files|
    requires DriveRun(items0, folderIds, d0, files[..i], runId, faults) == DriveRunState(results, items, details)
    ensures var st := DriveOutcome(items, folderIds, details, files[i], DriveClassify(files[i].id, files[i].name),
                                   runId, faults(files[i].id));
      DriveRun(items0, folderIds, d0, files[..i + 1], runId, faults) == DriveRunState(results + [st.result], st.items, st.runDetails)
  {
    assert files[..i + 1][..i] == files[..i];
  }

  /** The run over every prefix ends as the run over the whole sequence. */
  lemma DriveRunWhole(items0: map<nat, DriveItem>, folderIds: map<Category, Option<nat>>, d0: seq<DetailRow>,
                      files: seq<DriveFile>, runId: Option<nat>, faults: nat -> DriveFaults, p: DriveRunState)
    requires DriveRun(items0, folderIds, d0, files[..|files|], runId, faults) == p
    ensures DriveRun(items0, folderIds, d0, files, runId, faults) == p
  {
    assert files[..|files|] == files;
  }

  /** The results whose status is `s`. */
  function CountStatus(results: seq<DriveResult>, s: ActionStatus): nat
  {
    if |results| == 0 then 0
    else CountStatus(results[..|results| - 1], s) + (if results[|results| - 1].status == s then 1 else 0)
  }

  /** Every result has one of the three statuses. */
  lemma {:induction false} CountStatusTotal(results: seq<DriveResult>)
    ensures CountStatus(results, Success) + CountStatus(results, Skipped) + CountStatus(results, Error) == |results|
  {
    if |results| > 0 {
      CountStatusTotal(results[..|results| - 1]);
    }
  }

  /** The counters of `process_all_files` after the `results`, out of `n` files. */
  predicate DriveCounted(results: seq<DriveResult>, t: DriveStats, n: nat)
  {
    && t.totalFiles == n
    && t.successfulMoves == CountStatus(results, Success)
    && t.skippedFiles == CountStatus(results, Skipped)
    && t.errors == CountStatus(results, Error)
  }

  /** Counting one more result keeps the counters of `process_all_files`. */
  lemma DriveCountedStep(results: seq<DriveResult>, t: DriveStats, n: nat, r: DriveResult, t': DriveStats)
    requires DriveCounted(results, t, n)
    requires t'.totalFiles == t.totalFiles
    requires t'.successfulMoves == t.successfulMoves + (if r.status == Success then 1 else 0)
    requires t'.skippedFiles == t.skippedFiles + (if r.status == Skipped then 1 else 0)
    requires t'.errors == t.errors + (if r.status == Error then 1 else 0)
    ensures DriveCounted(results + [r], t', n)
  {
    assert (results + [r])[..|results|] == results;
  }

  /** Once every file is counted, the counters add up to the number of files. */
  lemma DriveCountedTotal(results: seq<DriveResult>, t: DriveStats, n: nat)
    requires DriveCounted(results, t, n) && |results| == n
    ensures t.successfulMoves + t.skippedFiles + t.errors == t.totalFiles
  {
    CountStatusTotal(results);
  }

  /** What `process_all_files` has done after the first `i` files: the
      results follow the files, folders are skipped, and exactly the moved
      items have left the root `before`. */
  predicate FilesDone(files: seq<DriveFile>, i: nat, results: seq<DriveResult>, before: set<nat>,
                      items: map<nat, DriveItem>)
  {
    && i <= |files| && |results| == i
    && (forall j :: 0 <= j < i ==> results[j].fileId == files[j].id && results[j].filename == files[j].name)
    && (forall j :: 0 <= j < i ==> files[j].isFolder ==> results[j].status == Skipped)
    && RootItems(items) == before - SuccessIds(results)
  }

  /** Processing the next file keeps what the run has done. */
  lemma FilesDoneStep(files: seq<DriveFile>, i: nat, results: seq<DriveResult>, before: set<nat>,
                      items: map<nat, DriveItem>, r: DriveResult, items': map<nat, DriveItem>)
    requires i < |files| && FilesDone(files, i, results, before, items)
    requires r.fileId == files[i].id && r.filename == files[i].name
    requires files[i].isFolder ==> r.status == Skipped
    requires RootItems(items') == RootItems(items) - (if r.status == Success then {files[i].id} else {})
    ensures FilesDone(files, i + 1, results + [r], before, items')
  {
    SuccessIdsAppend(results, r);
  }

  /** The listing entries of the processed items, read back from the results. */
  function DriveListing(items: map<nat, DriveItem>, results: seq<DriveResult>): (files: seq<DriveFile>)
    requires forall j :: 0 <= j < |results| ==> results[j].fileId in items
    ensures |files| == |results|
    ensures forall j :: 0 <= j < |results| ==> files[j] == EntryOf(items, results[j].fileId)
  {
    seq(|results|, j requires 0 <= j < |results| => EntryOf(items, results[j].fileId))
  }

  lemma SuccessIdsAppend(results: seq<DriveResult>, r: DriveResult)
    ensures SuccessIds(results + [r]) == SuccessIds(results) + (if r.status == Success then {r.fileId} else {})
  {
    assert (results + [r])[..|results|] == results;
  }

  /** The results of a run follow the visible entries of its listing. */
  lemma ListedResults(items: map<nat, DriveItem>, listing: seq<DriveFile>, files: seq<DriveFile>, results: seq<DriveResult>)
    requires files == Visible(listing) && |results| == |files| && |listing| <= PageSize
    requires forall j :: 0 <= j < |listing| ==>
      listing[j].id in RootItems(items) && listing[j] == EntryOf(items, listing[j].id)
    requires forall j :: 0 <= j < |results| ==> results[j].fileId == files[j].id && results[j].filename == files[j].name
    requires forall j :: 0 <= j < |results| ==> files[j].isFolder ==> results[j].status == Skipped
    ensures |results| <= PageSize
    ensures forall j :: 0 <= j < |results| ==>
      && results[j].fileId in items && results[j].fileId in RootItems(items)
      && !StartsWithDot(results[j].filename)
      && (items[results[j].fileId].isFolder ==> results[j].status == Skipped)
    ensures DriveListing(items, results) == files
    ensures (|RootItems(items)| <= PageSize && forall i :: i in RootItems(items) ==> EntryOf(items, i) in listing) ==>
      forall i :: i in RootItems(items) && !StartsWithDot(items[i].name) ==> i in ResultIds(results)
  {
    forall j | 0 <= j < |results|
      ensures results[j].fileId in RootItems(items) && !StartsWithDot(results[j].filename)
      ensures files[j] == EntryOf(items, results[j].fileId)
    {
      ListedEntry(items, listing, files, j);
    }
    if |RootItems(items)| <= PageSize && forall i :: i in RootItems(items) ==> EntryOf(items, i) in listing {
      ListedCovers(items, listing, files, results);
    }
  }

  /** Each visible entry is a root item, listed as it is. */
  lemma ListedEntry(items: map<nat, DriveItem>, listing: seq<DriveFile>, files: seq<DriveFile>, j: nat)
    requires files == Visible(listing) && j < |files|
    requires forall k :: 0 <= k < |listing| ==>
      listing[k].id in RootItems(items) && listing[k] == EntryOf(items, listing[k].id)
    ensures files[j].id in RootItems(items) && files[j] == EntryOf(items, files[j].id) && !StartsWithDot(files[j].name)
  {
    assert files[j] in listing;
  }

  /** When one page holds every root item, each visible one is processed. */
  lemma ListedCovers(items: map<nat, DriveItem>, listing: seq<DriveFile>, files: seq<DriveFile>, results: seq<DriveResult>)
    requires files == Visible(listing) && |results| == |files|
    requires forall i :: i in RootItems(items) ==> EntryOf(items, i) in listing
    requires forall j :: 0 <= j < |results| ==> results[j].fileId == files[j].id
    ensures forall i :: i in RootItems(items) && !StartsWithDot(items[i].name) ==> i in ResultIds(results)
  {
    forall i | i in RootItems(items) && !StartsWithDot(items[i].name)
      ensures i in ResultIds(results)
    {
      assert EntryOf(items, i) in files;
      var j :| 0 <= j < |files| && files[j] == EntryOf(items, i);
      assert results[j].fileId == i;
    }
  }
}
