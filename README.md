# Desktop and Google Drive document sorter — a Dafny model

This project models the core of a document sorter that classifies files by keyword matching and then moves each one into a category folder: `University Docs`, `Technical Work` or `Capstone Work`. It covers three things.

- **The Desktop pipeline.**
  - Extract the text of a file.
  - Score the three categories, weighting file-name hits 1.5 and content hits 1.0.
  - Pick the first top-scoring category and compute a confidence.
  - Move the file into the category folder, with idempotency and collision checks.
  - Record the move and a per-run detail row in the SQLite ledger.
  - The whole pass over the Desktop runs `run_limit` times, and the run counters are compared to report a consistency figure.
- **The Google Drive pipeline.** The same classification, applied to the file name only, runs over the files in the Drive root. A file is moved by replacing its parents with the category folder.
- **The ledger.** It holds run numbers and run ids, updates each run's totals, and keeps the processed-files and run-details tables.

Modules, one per file:

- `config.dfy`: categories, keyword lists and weights.
- `text.dfy`: lowercase, `str.count`, `in`, `" ".join`, path suffix.
- `file_parser.dfy`: extraction per format.
- `classifier.dfy`: scoring, first maximum, confidence, matched keywords.
- `filesystem.dfy`: Desktop files and folders, as a `Disk` object.
- `state_manager.dfy`: the ledger, as the `StateManager` class.
- `orchestrator.dfy`: `FileOrchestrator`.
- `gdrive_automation.dfy`: a Drive store and `GoogleDriveAutomation`.
- `desktop_automation.dfy`: the run loop and consistency analysis.

How the model is built:

- Each step-by-step operation is a method. Its `ensures` ties the result and the new state to a specification function.
- The properties are proved as lemmas about those functions.
- Failures of I/O (a read that fails, a database write that raises, an API call that errors) are boolean parameters. Each such failure takes the same branch as the source's `except` clause.
- The order of a directory listing is left unspecified.

What is proved about the run loop of the model, in which the ledger is kept apart from the Desktop files (see "Left out" for the program's own ledger file):

- A later run lists only the files the previous run failed to move.
- Nothing is ever counted as skipped on the Desktop, because a file on the Desktop is never already in its target folder.
- So with two or more runs, the reported consistency is 100 exactly when no run moved a single file (`Consistency.PerfectConsistencyIffNothingMoved`).

## Model

| member | source | states |
|---|---|---|
| Config.CategoryOrderComplete | config.py:10-41 | there are exactly three categories, iterated in declaration order, each once |
| Config.EnrollmentListedTwice | config.py:13-16 | "enrollment" appears twice in the university keyword list |
| Config.KeywordsNonEmpty | config.py:12-37 | no keyword is the empty string |
| Text.Lower | classifier.py:11-13 | lowercasing keeps the length and lowercases each character |
| Text.LowerIdempotent | classifier.py:11-13 | lowercasing twice equals lowercasing once, and leaves no upper-case letter |
| Text.LowerOfLowercase | classifier.py:25 | a keyword already in lower case is unchanged by `lower()` |
| Text.CountBound | classifier.py:27 | non-overlapping occurrences of a non-empty pattern fit in the text: count times pattern length is at most the text length |
| Text.CountPositiveIffContains | classifier.py:27 | `count` is positive exactly when the pattern occurs in the text, so `count` and `in` agree |
| Text.CountOfPrefixWord | config.py:14-16 | a keyword that no occurrence of itself can overlap is counted at least as often as any longer keyword that starts with it |
| Text.ReplaceChar | classifier.py:79 | `replace` of one character keeps the length and swaps exactly that character |
| Text.JoinSplit | file_parser.py:30 | a `" ".join` splits at any piece boundary into the join of both halves with the separator between |
| Text.JoinLength | file_parser.py:30 | a join is as long as its pieces plus one separator between each pair |
| Text.LastDot | file_parser.py:113 | finds the last dot of a name, or -1 when there is none |
| Text.SuffixShape | file_parser.py:113 | a path suffix is empty, or a dot followed by at least one non-dot character and ending the name |
| Text.NatToString | desktop_automation.py:81 | the run number is written in decimal: the digits spell exactly `n`, with no leading zero except for 0 itself |
| Parser.DispatchMatchesSupportedExtensions | file_parser.py:116-130 | the extraction dispatch knows exactly the six supported extensions |
| Parser.Extract | file_parser.py:101-132 | a missing file gives no result; otherwise the name is returned unchanged; an unsupported extension gives empty content |
| Parser.RowPiecesNonEmpty | file_parser.py:56-59 | a spreadsheet row gives one non-empty piece per truthy cell and nothing for the others |
| Parser.LastDotLower | file_parser.py:113 | lowercasing a name does not move its last dot |
| Parser.DispatchIgnoresCase | file_parser.py:113 | the suffix is compared in lower case, so a file's suffix and that of its lowercased name dispatch alike |
| Parser.UpperCasePdfIsPdf | file_parser.py:113-117 | a name ending in ".PDF" is read as a PDF |
| Parser.ExtractTextFromPdf | file_parser.py:22-33 | the page texts joined by spaces, or "" when the file cannot be read |
| Parser.ExtractTextFromDocx | file_parser.py:36-46 | the paragraph texts joined by spaces, or "" when the file cannot be read |
| Parser.ExtractTextFromXlsx | file_parser.py:49-63 | the truthy cells of every row of every sheet, in order, joined by spaces, or "" on a read error |
| Parser.ExtractTextFromPptx | file_parser.py:66-78 | the texts of the shapes that have text, slide by slide, joined by spaces, or "" on a read error |
| Parser.ExtractTextFromText | file_parser.py:81-98 | the whole file for Markdown and plain text, or "" when it cannot be read |
| Parser.ExtractContent | file_parser.py:101-132 | the extraction method computes exactly the dispatch specification |
| Classifier.CalculateKeywordScore | classifier.py:16-29 | the loop sums, over the keywords, the non-overlapping occurrences of each lowercased keyword in the lowercased text |
| Classifier.KeywordScoreAppend | classifier.py:24-27 | the score of two keyword lists placed end to end is the sum of their scores |
| Classifier.KeywordScoreOfEmptyText | classifier.py:16-29 | empty text scores zero against non-empty keywords |
| Classifier.KeywordScoreCountsListing | classifier.py:24-27 | every listed keyword's occurrences count towards the score |
| Classifier.KeywordScoreCountsTwoListings | classifier.py:24-27 | a keyword listed twice contributes its occurrences once per listing |
| Classifier.EnrollmentCountsTwice | classifier.py:24-27 | every occurrence of "enrollment" adds at least 2 to the university score |
| Classifier.CoursesCountsTwice | config.py:14-16 | every occurrence of "courses" also holds "course", so it adds at least 2 to the university score |
| Classifier.FilenameWeighsMore | classifier.py:86-94 | the same text scores 1.5 times as much as a file name as it does as content |
| Classifier.ScoresOf | classifier.py:86-94 | the score table has exactly the three categories, none negative |
| Classifier.MaxFromIsFirstMax | classifier.py:104 | the scan for the maximum ends at the first index holding the top score |
| Classifier.FirstMaxIsFirstMaximum | classifier.py:104 | `max(scores, key=scores.get)` is a top score with no equal score before it |
| Classifier.FirstMaxUnique | classifier.py:104 | only one index is the first maximum, and it is the one chosen |
| Classifier.MaxFromRespectsOrder | classifier.py:104 | two score tables that order the categories alike have the same first maximum |
| Classifier.TotalOfCategories | classifier.py:108 | the total is the sum of the three scores |
| Classifier.TotalBoundsEach | classifier.py:105-110 | each non-negative score lies between 0 and the total |
| Classifier.TotalNonNegative | classifier.py:108 | the total of non-negative scores is non-negative |
| Classifier.ConfidenceInRange | classifier.py:107-115 | best/(total+1) lies in [0, 1) when best is within the total, so the clamp leaves it as it is |
| Classifier.ErrorIffMissing | classifier.py:53-76 | the status is error and the category absent exactly when the file is missing, with zero confidence and empty matches and scores |
| Classifier.ClassifyConfidenceInRange | classifier.py:107-115 | every confidence lies in [0, 1) |
| Classifier.ClassifyPicksFirstTopScore | classifier.py:103-123 | the category has the top score and no earlier category ties it; low confidence exactly when the confidence is below 0.3 |
| Classifier.ZeroScoresGiveFirstCategory | classifier.py:104-120 | all-zero scores give University Docs, confidence 0 and low confidence |
| Classifier.NoHitsGivesFirstCategory | classifier.py:86-120 | no keyword hit anywhere gives University Docs, confidence 0 and low confidence |
| Classifier.HitsAreMatched | classifier.py:96-101 | a keyword counted in the file name or the content is listed as matched |
| Classifier.MatchedContainsAllOccurring | classifier.py:97-100 | every keyword occurring in the joined text is listed as matched |
| Classifier.MatchedAreOccurring | classifier.py:96-100 | every keyword listed as matched is a keyword of the category that occurs in the joined text |
| Classifier.MatchedWithoutHit | classifier.py:96-101 | a keyword can be listed as matched across the space that joins file name and content while scoring in neither |
| Classifier.CollectMatched | classifier.py:97-101 | the loop collects, in order, the keywords occurring in the joined text |
| Classifier.ScoreCategories | classifier.py:83-101 | the loop fills exactly the score table and, per category, the matched keywords |
| Classifier.ClassifyDocument | classifier.py:32-133 | the classification method computes exactly the classification specification |
| Classifier.ClassifyAll | classifier.py:136-151 | one result per input file |
| Classifier.ClassifyAllInOrder | classifier.py:146-151 | the result at each position is the classification of the file at that position |
| Classifier.BatchClassify | classifier.py:136-151 | the batch loop returns the classifications in input order |
| Filesystem.EnsureDir | orchestrator.py:48-54 | making the folder changes no file, leaves the folder present unless a file holds its name, and changes nothing when it already exists |
| Filesystem.RelocateKeepsEntries | orchestrator.py:113-114 | a rename keeps the number of files and their contents |
| Filesystem.RootFileNames | orchestrator.py:232-233 | the Desktop listing is exactly the files directly on the Desktop whose names do not start with a dot |
| Filesystem.EnsureDirPreserves | orchestrator.py:48-54 | making a folder keeps the disk well formed and is idempotent |
| Filesystem.Disk.Mkdir | orchestrator.py:52 | the folder set gains the name and nothing else changes |
| Filesystem.Disk.Rename | orchestrator.py:114 | the disk after the move is the relocation of the source entry |
| Orchestrator.GetTargetFolder | orchestrator.py:26-46 | a folder exactly for a known category, named after its mapping |
| Orchestrator.TargetFoldersDistinct | orchestrator.py:36-40 | different categories map to different folders, and none is hidden |
| Orchestrator.MoveMissingSource | orchestrator.py:81-88 | a missing source is an error and changes nothing |
| Orchestrator.MoveIntoOwnFolder | orchestrator.py:93-100 | a file already in its target folder is skipped and no file changes |
| Orchestrator.MoveCollision | orchestrator.py:102-110 | a name already taken in the target is an error; only the folder may be created |
| Orchestrator.MoveSuccess | orchestrator.py:62-127 | success exactly when the source exists outside the target, the name is free and nothing fails; then only that one file moves, otherwise no file changes |
| Orchestrator.MoveKeepsWellFormed | orchestrator.py:62-127 | every move outcome leaves the disk well formed |
| Orchestrator.MoveKeepsEveryFile | orchestrator.py:112-127 | no move loses or duplicates a file's contents |
| Orchestrator.MoveIdempotent | orchestrator.py:93-100 | moving a moved file again is skipped and changes nothing |
| Orchestrator.MoveFromDesktop | orchestrator.py:62-127 | a Desktop file is never skipped; success removes exactly its name from the Desktop listing |
| Orchestrator.MoveKeepsOthers | orchestrator.py:62-127 | a move changes no Desktop file other than its source |
| Orchestrator.PlaceOutcomeFacts | orchestrator.py:164-212 | overall success exactly when the move succeeded or was skipped; the disk stays well formed; the Desktop listing loses just the moved file |
| Orchestrator.ProcessOutcomeFacts | orchestrator.py:129-212 | a classification error means a missing file, which is reported as an error with the move skipped and changes nothing; otherwise as for placement |
| Orchestrator.ProcessOutcomeClassification | orchestrator.py:147-212 | the result carries the category, status and confidence of the classification of the file as it is on disk; the `move_file` result is there exactly when the file exists, with the reported movement status and the file's own path as source |
| Orchestrator.ProcessOutcomeKeepsOthers | orchestrator.py:129-212 | processing one file leaves every other Desktop file as it was |
| Orchestrator.FileOrchestrator.constructor | orchestrator.py:15-24 | over a well-formed disk and a valid ledger, keeps the Desktop path, shares the given ledger and starts valid |
| Orchestrator.FileOrchestrator.EnsureFolderExists | orchestrator.py:48-54 | reports creation exactly when the folder was missing, and makes it |
| Orchestrator.FileOrchestrator.MoveFile | orchestrator.py:62-127 | status, source, destination and the new disk are those of the move specification |
| Orchestrator.FileOrchestrator.ProcessFile | orchestrator.py:129-212 | result (filename, category, confidence, statuses and the `move_file` result), disk and ledger tables are those of the processing specification; the runs table is untouched |
| Orchestrator.FileOrchestrator.PlaceClassified | orchestrator.py:164-212 | result, disk and ledger tables are those of the placement specification |
| Orchestrator.FileOrchestrator.ProcessDesktopFile | orchestrator.py:129-212 | result, disk and ledger tables are those of the processing specification; the category is that of the file as listed; it is never skipped, succeeds exactly when moved, and only its own name can leave the Desktop |
| Orchestrator.FileOrchestrator.RecordPlacement | orchestrator.py:180-199 | a processed-file row is upserted for a move that succeeded or was skipped, and a detail row is added when a run id is given |
| Orchestrator.FileOrchestrator.ListDesktop | orchestrator.py:232-233 | lists each visible Desktop file exactly once |
| Orchestrator.FileOrchestrator.ProcessAllFiles | orchestrator.py:214-260 | results, disk and ledger tables are those of `process_file` applied to the listed files in turn; one result per visible Desktop file, each named once and carrying the file's own classification; each counter counts the results of its kind, nothing is skipped; the Desktop keeps exactly the files not moved |
| Orchestrator.FileOrchestrator.VisitListed | orchestrator.py:244-255 | one turn of the loop extends the pass over the listing by the next file and keeps the counters and the Desktop account |
| Orchestrator.FileOrchestrator.Tally | orchestrator.py:248-255 | an overall success counts as processed and by its movement status; anything else counts as failed |
| Orchestrator.PassExtend | orchestrator.py:244-246 | the pass over one more file is the pass so far followed by `process_file` on that file |
| Orchestrator.ListedStillThere | orchestrator.py:232-245 | a file listed at the start is still on the Desktop, unchanged, when its turn comes |
| Orchestrator.PassCountsStep | orchestrator.py:248-255 | counting one more result keeps every counter equal to the results of its kind |
| Orchestrator.PassNamesStep | orchestrator.py:244-246 | processing the next listed file keeps the results in listing order and removes exactly the moved names from the Desktop |
| Orchestrator.MovedNamesStep | orchestrator.py:244-246 | the processed file's name leaves the Desktop exactly when it was moved |
| Orchestrator.LaterFilesStep | orchestrator.py:244-246 | the files listed after the one processed are still as they were at the start |
| Orchestrator.PassComplete | orchestrator.py:232-260 | after the whole listing, the results name every visible Desktop file once and the counters add up |
| Orchestrator.MovedNamesProcessed | orchestrator.py:244-255 | only processed files can have been moved |
| Orchestrator.ResultsSoundAt | orchestrator.py:244-246 | every result of the pass is classified, not skipped, and carries its file's category |
| Orchestrator.TallyAppend | orchestrator.py:248-255 | one more result adds one to exactly the counter of its kind |
| Orchestrator.DesktopListedResults | orchestrator.py:232-246 | results that follow the listing name each visible Desktop file exactly once |
| Ledger.MaxRunNumber | state_manager.py:89-92 | `MAX(run_number)`: an upper bound reached by some row, or 0 on an empty table |
| Ledger.NextRunNumber | state_manager.py:84-95 | the next run number is at least 1 and above every recorded run number |
| Ledger.UpdateRun | state_manager.py:115-128 | the row whose id matches gets the totals and notes; every other row is unchanged |
| Ledger.UpdateRunUnknownId | state_manager.py:121-125 | an update for an id no row has changes nothing |
| Ledger.UpdateRunTouchesOneRow | state_manager.py:121-125 | with distinct ids, exactly the run's own row is updated |
| Ledger.StateManager.constructor | state_manager.py:15-82 | a fresh database has empty tables |
| Ledger.StateManager.GetRunNumber | state_manager.py:84-95 | the next run number, or 1 when the query fails |
| Ledger.StateManager.StartRun | state_manager.py:97-113 | inserts one row with a fresh id, never reused, and the next run number; on failure returns no id and changes nothing |
| Ledger.StateManager.EndRun | state_manager.py:115-128 | the matching run row gets the totals and notes, unless the update fails |
| Ledger.StateManager.IsFileProcessed | state_manager.py:130-141 | true exactly when the file has a row and the query succeeds |
| Ledger.StateManager.RecordFileMovement | state_manager.py:143-159 | `INSERT OR REPLACE` keyed by file name, with a fresh row id, unless the write fails |
| Ledger.StateManager.RecordRunDetail | state_manager.py:161-175 | appends one detail row, unless the write fails |
| Ledger.StateManager.ClearDatabase | state_manager.py:204-213 | all three tables are emptied; the id sequences go on |
| Drive.RootItems | gdrive_manager.py:159-164 | the root query matches exactly the untrashed items whose parents include the root |
| Drive.DriveStore.FindFolderByName | gdrive_manager.py:72-99 | a found id is an untrashed folder with that name; none is found only when there is none or the call fails |
| Drive.DriveStore.CreateFolder | gdrive_manager.py:101-129 | a new folder in the root with a fresh id, or nothing on failure |
| Drive.DriveStore.GetOrCreateFolder | gdrive_manager.py:131-145 | returns an existing folder when one is found, creating nothing; otherwise creates one; no id only when creation fails |
| Drive.DriveStore.IsFileInFolder | gdrive_manager.py:250-271 | true exactly when the folder is among the file's parents and the call succeeds |
| Drive.DriveStore.MoveFile | gdrive_manager.py:217-248 | on success the file's parents become exactly the new folder; success exactly when the call succeeds and both exist, the target a folder |
| Drive.DriveStore.ListRoot | gdrive_manager.py:147-176 | at most one page of distinct root items; all of them when they fit in the page; nothing on failure |
| Drive.DriveScores | gdrive_automation.py:85-98 | one non-negative hit count per category |
| Drive.DrivePicksFirstTopScore | gdrive_automation.py:85-101 | the scores are the unweighted file-name hit counts; the category is the first with the top score |
| Drive.DriveConfidenceIsRaw | gdrive_automation.py:102 | `min(best/(total+1), 1.0)` equals best/(total+1) for a best score within the total |
| Drive.DriveConfidenceInRange | gdrive_automation.py:100-102 | the Drive confidence is best/(total+1) and lies in [0, 1) |
| Drive.DriveAgreesWithDesktop | gdrive_automation.py:85-102 | for the same file name with no content, the Drive and Desktop classifiers pick the same category |
| Drive.DriveOutcomeFacts | gdrive_automation.py:126-202 | folders and dot-files are skipped untouched with no category; only a success changes the store, giving the file exactly the target as parent, and only a success carries the confidence; the root loses just that file; at most one detail row is added |
| Drive.DriveMoveIdempotent | gdrive_automation.py:149-165 | processing a moved file again is skipped and changes nothing |
| Drive.DriveMoveSucceedsUnlessFault | gdrive_automation.py:167-202 | with all folders set up and the file outside them, the move succeeds exactly when the API call does |
| Drive.CompareResults | gdrive_automation.py:368-378 | 100 exactly when the two runs' counters agree, 0 otherwise |
| Drive.Visible | gdrive_automation.py:218 | keeps exactly the listed files whose names do not start with a dot |
| Drive.GoogleDriveAutomation.constructor | gdrive_automation.py:38-55 | starts with no folder ids, over the given store and ledger |
| Drive.GoogleDriveAutomation.SetupFolders | gdrive_automation.py:57-64 | every category gets a folder id entry, missing only when creation failed; no existing item changes |
| Drive.GoogleDriveAutomation.ScoreFileName | gdrive_automation.py:85-98 | the loop computes exactly the hit counts |
| Drive.GoogleDriveAutomation.ClassifyFileFromDrive | gdrive_automation.py:66-111 | the method computes exactly the Drive classification specification |
| Drive.GoogleDriveAutomation.PlaceDriveFile | gdrive_automation.py:138-202 | result, store and detail rows are those of the placement specification |
| Drive.GoogleDriveAutomation.ProcessFile | gdrive_automation.py:113-202 | result (id, name, category, the confidence of a moved file, status), store and detail rows are those of the processing specification for the file name's classification |
| Drive.GoogleDriveAutomation.ProcessRootFile | gdrive_automation.py:113-202 | result, store and detail rows are those of the processing specification; a folder is skipped; the root loses exactly the file when it is moved |
| Drive.GoogleDriveAutomation.ProcessFiles | gdrive_automation.py:220-247 | results, store and detail rows are those of `process_file` applied to the files in turn; each counter counts the results of its status, and they add up to the total; folders are skipped; the root loses exactly the moved files |
| Drive.GoogleDriveAutomation.ProcessAllFiles | gdrive_automation.py:204-247 | every result is a visible root item, and all of them are processed when they fit in a page; results, store and detail rows are those of the run over the listed items; each counter counts the results of its status; the root loses exactly the moved files |
| Drive.GoogleDriveAutomation.VisitFile | gdrive_automation.py:228-242 | one turn of the loop extends the run over the files by the next file and keeps the counters |
| Drive.GoogleDriveAutomation.DriveTally | gdrive_automation.py:237-242 | each result adds one to the counter of its status |
| Drive.DriveRunExtend | gdrive_automation.py:228-235 | the run over one more file is the run so far followed by `process_file` on that file |
| Drive.CountStatusTotal | gdrive_automation.py:237-242 | every result has exactly one of the three statuses, so the counts add up to the number of results |
| Drive.DriveCountedStep | gdrive_automation.py:237-242 | counting one more result keeps every counter equal to the results of its status |
| Drive.DriveCountedTotal | gdrive_automation.py:220-247 | once every file is counted, the counters add up to the total |
| Drive.FilesDoneStep | gdrive_automation.py:228-235 | processing the next file keeps the results in file order, skips folders, and removes exactly the moved items from the root |
| Drive.ListedResults | gdrive_automation.py:214-218 | the results follow the visible entries of the listing page, and cover every visible root item when one page holds them all |
| Consistency.CompareRunResults | desktop_automation.py:138-155 | 100 exactly when total, moved, skipped and failed all agree, 0 otherwise |
| Consistency.CompareReflexiveSymmetric | desktop_automation.py:138-155 | a run matches itself, and the comparison is symmetric |
| Consistency.OverallConsistencyIff | desktop_automation.py:101-105 | the running minimum is 0 or 100, and 100 exactly when every run matches the one before |
| Consistency.ConsecutiveIffAllMatchFirst | desktop_automation.py:166-178 | every run matching its predecessor is the same as every run matching the first |
| Consistency.AnalyzeConsistency | desktop_automation.py:158-183 | None for no runs, otherwise whether every later run matches the first |
| Consistency.PerfectConsistencyIffNothingMoved | desktop_automation.py:62-113 | with chained runs and sound counters, consistency is 100 exactly when no run moved a file |
| Consistency.StartedRuns | state_manager.py:97-113 | at most one ledger row per run, and one for every run when no `start_run` fails |
| Consistency.OverallConsistencyAppend | desktop_automation.py:101-105 | a new run lowers the consistency to its comparison with the run before when that is smaller |
| Consistency.RunOnce | desktop_automation.py:65-82 | one run has sound counters, lists what is on the Desktop and leaves what it did not move; the runs table becomes exactly `LoggedRun`: one new row with the next id and number, completed with the run's totals and "Run <n>" unless `end_run` fails, and nothing when `start_run` fails |
| Consistency.RunAutomation | desktop_automation.py:26-135 | exactly `run_limit` runs, each listing what the previous one left; consistency is 100 exactly when nothing moved; the runs table becomes exactly `LoggedRuns` of the runs' counters, one row per run whose `start_run` succeeded |
| Consistency.StartThenEnd | desktop_automation.py:65-82 | `start_run` followed by `end_run` with its id updates only the row just started, and nothing when the start failed |
| Consistency.UnstartedRunLogsNothing | state_manager.py:97-113 | a run whose `start_run` insert fails leaves the runs table and its id sequence unchanged |
| Consistency.HealthyRunsLogged | desktop_automation.py:62-82 | when every ledger write succeeds, run k adds one row with the next id, the next run number, its totals and the note "Run k", in order |
| Consistency.HealthyRunsStep | desktop_automation.py:62-82 | one more run with healthy ledger writes adds its completed row after the rows of the earlier runs |
| Consistency.NextAfterCompleted | state_manager.py:84-95 | after k completed rows numbered from the next free number, the next free number has moved on by k |
| Consistency.LoggedRunsCount | state_manager.py:97-113 | the runs table gains exactly one row per run whose `start_run` insert succeeds |
| Consistency.LoggedRunsExtend | desktop_automation.py:62-82 | the runs table after one more run is `LoggedRun` applied to the table the earlier runs left |
| Consistency.MaxRunNumberAppend | state_manager.py:89-92 | `MAX(run_number)` over one more row is the larger of the old maximum and the new number |

## Left out

- The GUI front ends, the demos, the dataset generators and the reset scripts are not part of this model.
- OAuth authentication and the Google API client are left out. Each Drive call is a store operation that takes a failure flag.
- SQLite itself is left out: connections, autocommit and timeouts. Each table is a sequence or a map. Timestamps are left out (`datetime.now()`).
- The console output and the human-readable `reason`, `reasoning` and `message` texts are left out.
- The JSON dump of the classification stored in a detail row is left out.
- Scores and confidences are exact reals. IEEE rounding of `best / (total + 1)` is not modelled.
- `lower()` is ASCII lowercasing. Unicode case mapping and encodings are not modelled.
- Text extraction by PyPDF2, python-docx, openpyxl and python-pptx is left out. Each library's output is an input: a page, paragraph, cell or shape list, or a read failure.
- The unused `weight` and `description` fields of the keyword table are left out.
- The `mime_type` parameter of `classify_file_from_drive` is unused by the source and is left out.
- The Desktop listing keeps only regular files. Subfolders are never move sources, so moving a directory is not modelled.
- Nested folder paths are not modelled. A category folder is always created directly on the Desktop or in the Drive root.
- The ledger file `automation.db` is kept apart from the Desktop files in the model; the program itself does not do this.
  - The program creates it on the Desktop (state_manager.py:23, desktop_automation.py:44), and the listing of orchestrator.py:232-233 includes it.
  - Its ".db" suffix is not supported, so its content is "". "automation" is a Technical Work keyword (config.py:23), so its name scores 1.5 and gets confidence 1.5 / 2.5 = 0.6. Run 1 therefore moves it into "Technical Work".
  - Every later `sqlite3.connect` then opens a new, empty file at the old path. Each ledger write after that fails inside its `except`.
  - So the run-loop properties above hold for the model, not for the program as written. In the program, run 1 always moves at least one file, the ledger itself.
- Spreadsheet cells are text, integers or empty. openpyxl's float, boolean and date cells are not modelled. For those, file_parser.py:58-59 writes `str(2.5)` or a date text, and skips falsy `0.0` and `False`.
- Filesystem.EnsureDir: a failing `mkdir` is not modelled. The `mkdir` in `ensure_folder_exists` (orchestrator.py:52) sits outside the `try` of `move_file`, so such a failure escapes `process_all_files` altogether.
- Drive.DriveStore.ListRoot: only the first page of 100 results is modelled. With more than 100 root items, the model does not fix which ones are returned.
- Drive.DriveStore.FindFolderByName: when several folders share the name, the model returns any one of them. The API's order is not modelled.
- Trashing, downloading and metadata calls of the Drive manager are not used by the core and are left out.
- `classify_file_from_drive` imports `normalize_text` from the parser module, which does not define it. The model uses the classifier's lowercasing, which is evidently what was meant.
- The `status: "success"` field of the Drive classification is constant and is left out.
- The multi-run loop of `run_gdrive_automation` repeats the Desktop loop's aggregation with `compare_results`. Only the comparison and a single pass are modelled for Drive.
- `overall_accuracy` and `total_files_across_runs` are left out. The loop never updates them.
- Orchestrator.FileOrchestrator.ListDesktop: the order of `iterdir()` is left unspecified. The contract states only which files are listed.
