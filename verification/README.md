# Goose verification

Models of the parts of goose whose correctness depends on order and state, and
proofs about them. Each `.dfy` file is one module.

| file | what it models |
|---|---|
| `ModelSlots.dfy` | how request tasks and evictions share, load, unload and run local models: a step relation over any number of tasks, their locks and notifiers |
| `Downloader.dfy`, `DownloadSession.dfy` | one resumable download, and a session over all files of a model, against any server that answers ranges as RFC 9110 allows, from where they were asked |
| `DownloadRegistry.dfy` | the table that guards which download task may run, with all its callers and tasks interleaved |
| `Ledger.dfy`, `LedgerHistory.dfy`, `RepeatedIngest.dfy` | findings, events and candidates; what every history of operations keeps; what repeating an operation does |
| `LedgerTrail.dfy` | the audit trail when a crash or an error falls between the statement that writes a finding's row and the one that writes its event |
| `ResumableScan.dfy`, `ScanOutcome.dfy`, `ScanTrail.dfy` | work units and the scan as a machine of single statements that can fail, crash and resume; what a completed scan leaves behind; when its audit trail replays |
| `ConcurrentScans.dfy` | any number of workers on one assessment, each with its own plan, skipped categories and tree |
| `Assessments.dfy` | the status of an assessment under its worker, cancels, pauses and resumes |
| `JsonScanner.dfy` | the bracket scanner that finds JSON in generated text, against a printer for the JSON grammar |
| `MediaMarker.dfy` | image markers: extraction, the newline join of texts, the splitter |
| `ShardNames.dfy`, `ShardSets.dfy` | shard file names, their order, and the check of a complete set |
| `TokenBuckets.dfy` | the proxy's budget and rate limit, with restarts |
| `ModelList.dfy` | merging search results by repository |
| `HfProgress.dfy` | progress of a Hugging Face download |
| `Strings.dfy`, `Options.dfy` | Rust's str searches and trims; optional values |

Concurrent code is modelled as steps, one for what a task does between two points
at which another can run. Environments are parameters: the HTTP server is any
function from a request to an honest answer, an engine's hits are any function of
its name and digest, JSON parsing and base64 decoding are any functions, the clock
is an argument. Code that changes variables or rows is a method with loops, proved
equal to a function on values; the results are about those functions.

Some properties one might expect hold only under a condition. Each is proved under
its exact condition, and where an input on which it fails is not plain from that,
the input is given too:

- The audit trail replays exactly when every gap that a lost event opened was
  closed again (`LedgerTrail.TrailReplaysExactly`); for a scan, exactly when no
  interruption fell between a row and its event (`ScanTrail.TrailReplaysExactly`).
  `LedgerTrail.LostOpeningFails` and `ScanTrail.CrashSpoilsTrail` show runs in which
  one did, `LedgerTrail.TwoLossesCanCancel` one in which two losses make up for
  each other. Closing goes by an older listing, and keeps the trail exactly when the
  finding still is in the state that was listed (`LedgerTrail.ListedCloseReplays`).
- Skipping an engine is sound over any number of workers with any options as long as
  no unit is begun for another digest while a worker is at it
  (`ConcurrentScans.SkipIsSoundForAll`); `ConcurrentScans.DisturbedSkipIsUnsound`
  shows a run in which one is, and a skip that is not.
- A resumed download is byte for byte the remote content exactly when the length of
  a partial file that was promoted at once is right, or the last reply ran to the
  end of the content (`Downloader.DeliversRemote`). The code checks neither the
  status of HEAD nor the range that a 206 encloses: `Downloader.WrongHeadTruncates`
  and `Downloader.ShortRangeTruncates` are downloads that succeed with too little.
- A resumed scan is ended by its own worker and by later cancels only, exactly when
  no finish of the old run's worker or of an earlier canceller is still to be
  written (`Assessments.ResumedRunIsItsOwn`). `Assessments.OldWorkerReachesResumedRun`
  and `Assessments.OldCancelReachesResumedRun` are runs in which one is.
- A request that leaves the load loop generates exactly unless its slot was emptied
  for good before it took the slot (`ModelSlots.GeneratesExactly`); after a finished
  eviction a slot is loaded exactly if a later load was stored there to stay
  (`ModelSlots.EvictionEmpties`).
- A complete shard set is accepted exactly up to 99999 shards: names are sorted as
  text, and shard 100000 sorts before shard 10001 (`ShardSets.CompleteSetIsAccepted`,
  `ShardNames.SixDigitsComeFirst`).
- The splitter yields one marker per image exactly when no other text of the
  message contains the marker (`MediaMarker.MarkersMatchImages`).
- A download is refused while the one accepted last has not exited, so one whose
  directories could not be created stays refused whatever is done afterwards
  (`DownloadRegistry.RefusedExactlyUntilExit`, `DownloadRegistry.NeverStartedBlocks`).
- The total shown by a Hugging Face download falls exactly when a new file's size
  hides a larger one that showed (`HfProgress.TotalFallsOnlyAtStart`).

## Model

| member | source | states |
|---|---|---|
| ModelSlots.EveryRunIsSafe | crates/goose-local-inference/src/lib.rs:726-891 | in every state any interleaving of requests and evictions reaches: at most one slot is Loading and its loader holds the cold-load lock; at most one is Loaded; no load overlaps a load, a generation or a loaded model; at most one generation runs, on the loaded model of its request; a load leaves its slot Loaded or, failed, Empty; the second look never finds Loading; an un-notified waiter's slot is Loading |
| ModelSlots.StepKeepsInv | crates/goose-local-inference/src/lib.rs:726-891 | each step of each task keeps the inductive invariant from which safety follows |
| ModelSlots.EvictKeepsInv | crates/goose-local-inference/src/lib.rs:215-237 | evicting, also while loads and generations run, keeps the invariant |
| ModelSlots.EvictionEmpties | crates/goose-local-inference/src/lib.rs:215-237 | when an eviction has finished, whatever other tasks did meanwhile, a slot of its model is Loaded if and only if since it began a model was stored there and not emptied for good after that |
| ModelSlots.GeneratesExactly | crates/goose-local-inference/src/lib.rs:726-858 | a request that leaves the load loop generates once it has its slot, if and only if no unload or eviction emptied the slot for good in between |
| ModelSlots.StoreKeepsInv | crates/goose-local-inference/src/lib.rs:759-830 | storing the result of a load, success or failure, and waking the waiters keeps the invariant |
| ModelSlots.NoDeadlock | crates/goose-local-inference/src/lib.rs:727-851 | while any task is unfinished, some task can take a step: the locks and notifiers form no cycle of waiting |
| ModelSlots.StuckMeansFinished | crates/goose-local-inference/src/lib.rs:722-893 | a reachable state without a possible step has every task finished: no wakeup is lost |
| ModelSlots.StepLowersWeight | crates/goose-local-inference/src/lib.rs:726-891 | each step leaves strictly fewer steps, also the one that wakes all waiters |
| ModelSlots.RunsAreBounded | crates/goose-local-inference/src/lib.rs:726-891 | after the last submission the number of steps is bounded, so tasks cannot wake and reload each other for ever |
| Downloader.DownloadOneFile | crates/goose-download-manager/src/lib.rs:425-658 | against any honest server: it succeeds exactly when in the GETs that took place no cancel was seen, none was refused for good and at most ten failed transiently, and otherwise fails with what the last one was; success leaves a destination with exactly the content Delivers allows, as long as the last reply reached, and no partial file; bytes are counted exactly, no report exceeds the total if the file fits it, at most 22 GETs and 362 s of delay |
| Downloader.DeliversRemote | crates/goose-download-manager/src/lib.rs:445-657 | a download that starts from a prefix of the content ends as the content, if and only if a promoted file's HEAD length was right or the last reply ran to the end |
| Downloader.WrongHeadTruncates | crates/goose-download-manager/src/lib.rs:445-458 | a download that succeeds with one byte of two, because HEAD said one |
| Downloader.ShortRangeTruncates | crates/goose-download-manager/src/lib.rs:525-657 | a download that succeeds with two bytes of three, because a 206 enclosed a part of the rest |
| Downloader.CompleteDelivers | crates/goose-download-manager/src/lib.rs:468-657 | a partial file of kept bytes first and remote bytes after is one that Delivers allows |
| Downloader.TryOnce | crates/goose-download-manager/src/lib.rs:468-654 | one pass through the loop makes one GET and ends with exactly what it came to, or goes on with fewer retries left or from the start |
| Downloader.Receive | crates/goose-download-manager/src/lib.rs:468-654 | the loop ends, complete exactly if all went well, with content as far as the last reply reached |
| Downloader.HandleReply | crates/goose-download-manager/src/lib.rs:474-653 | what follows a reply is determined by it: a status that is not transient stops with that status, transient failures retry, 416 starts over unless the file is complete; the partial file stays kept bytes followed by remote bytes, the next GET asks from its length, and the count moves by as much as the file |
| Downloader.BeginBody | crates/goose-download-manager/src/lib.rs:525-557 | a 200 to a range request forgets the partial bytes and their count, a 206 keeps them; an unknown total is learnt exactly when announced, and added to the shown one |
| Downloader.ReceiveBody | crates/goose-download-manager/src/lib.rs:559-634 | chunks are appended at the right offset whatever length the file had, also when the stream breaks; a stream that ends cleanly brings the file to the end of the enclosed range; a cancel is noticed exactly at the chunk that polls it |
| Downloader.BackOff | crates/goose-download-manager/src/lib.rs:481-493 | after ten retries a failure is final, with 362 s spent; before that it is counted and slept for, and only a cancel seen asleep stops |
| Downloader.DelaysGrow | crates/goose-download-manager/src/lib.rs:486-489 | delays never shrink and never exceed 60 s |
| Downloader.TotalDelayBound | crates/goose-download-manager/src/lib.rs:313-315 | ten retries ask for 362 s in all, fewer for no more |
| Downloader.File.OpenAt | crates/goose-download-manager/src/lib.rs:559-568 | opening cuts or zero-fills the partial file to the bytes that count |
| DownloadSession.CountOnDisk | crates/goose-download-manager/src/lib.rs:380-394 | the count starts as the sum of what earlier sessions left, destinations first |
| DownloadSession.OnDiskUpdate | crates/goose-download-manager/src/lib.rs:461-466 | changing one file changes the sum by the difference of its sizes, and no file is larger than the sum, so subtracting never saturates |
| DownloadSession.FetchFile | crates/goose-download-manager/src/lib.rs:407-418 | fetching one of many files touches only it and keeps the count equal to the bytes on disk |
| DownloadSession.ResolveTotal | crates/goose-download-manager/src/lib.rs:356-378 | the total is replaced by the sum of all HEAD sizes exactly when every one is known |
| DownloadSession.RoomForFile | crates/goose-download-manager/src/lib.rs:397-419 | while no file on disk is longer than its remote file, the next file still fits into the total |
| DownloadSession.DownloadFilesSequentially | crates/goose-download-manager/src/lib.rs:345-422 | it succeeds exactly when it came to every file and all went well for each, and otherwise stopped at a cancelled flag or at the last GET; finished files are untouched, new ones as Fetched says; the count equals the bytes on disk; with all sizes known and nothing too long on disk no report exceeds the total it is shown with |
| DownloadSession.SessionDelivers | crates/goose-download-manager/src/lib.rs:397-419 | after a session in which all went well a file is its remote content, if and only if its promoted length was right or its last reply ran to the end |
| DownloadRegistry.OneLiveTaskPerId | crates/goose-download-manager/src/lib.rs:126-311 | over all interleavings: at most one live task per id, and every write and clean-up of a task comes before the next start of that id |
| DownloadRegistry.RefusedExactlyUntilExit | crates/goose-download-manager/src/lib.rs:227-236 | over all interleavings a start is refused while the download accepted last for that id has not exited; if nobody reserved that id, only then |
| DownloadRegistry.NeverStartedBlocks | crates/goose-download-manager/src/lib.rs:254-261 | after a failed directory creation the id stays refused for ever, whatever is cancelled, cleared or reserved |
| DownloadRegistry.StepKeepsInv | crates/goose-download-manager/src/lib.rs:126-164 | every table operation and every task step keeps: a live task's entry is there, not exited and refuses starts |
| DownloadRegistry.DownloadManager.ReserveDownload | crates/goose-download-manager/src/lib.rs:126-142 | reserving succeeds exactly where no download is busy and changes that entry only |
| DownloadRegistry.DownloadManager.BeginDownload | crates/goose-download-manager/src/lib.rs:221-252 | accepting succeeds exactly where no download is busy and enters a fresh entry |
| DownloadRegistry.DownloadManager.CancelDownload | crates/goose-download-manager/src/lib.rs:152-164 | cancelling changes the status of an existing entry and nothing else |
| DownloadRegistry.DownloadManager.ClearCompleted | crates/goose-download-manager/src/lib.rs:660-671 | an entry is removed only when ended and its task exited |
| DownloadRegistry.DownloadManager.FinishTask | crates/goose-download-manager/src/lib.rs:276-306 | success overwrites the status, failure keeps Cancelled, both mark the exit |
| Ledger.Store.Upsert | crates/achilles-store/src/store.rs:898-1014 | a hit inserts an open finding or refreshes the row of its key, reopening only a fixed one, with an event for each change of state |
| Ledger.Store.UpsertCand | crates/achilles-store/src/store.rs:1026-1088 | one candidate per assessment and fingerprint; its status survives a repeat |
| Ledger.Store.Confirm | crates/achilles-store/src/store.rs:1090-1112 | confirming upserts the finding and then marks the candidate |
| Ledger.Store.Ingest | crates/achilles-store/src/scan.rs:128-151 | the unsuppressed hits are ingested in order and counted |
| Ledger.Store.ConfirmPendingCandidates | crates/achilles-store/src/store.rs:1186-1196 | every pending candidate of the assessment is confirmed, no other |
| Ledger.Store.CloseAbsentFindingsExcept | crates/achilles-store/src/store.rs:1615-1674 | lists the open findings not seen, then closes and counts those, except skipped categories |
| Ledger.Store.CloseFinding | crates/achilles-store/src/store.rs:1636-1672 | one listed row is closed whatever it has become, with an event from the listed state |
| Ledger.Store.TriageFinding | crates/achilles-store/src/store.rs:1406-1486 | each error in its order and without effect; otherwise the new state, the reason only where it fits, an event only on a change |
| Ledger.ClosedRows | crates/achilles-store/src/store.rs:1636-1672 | closing treats each row by what it was, whatever the other rows are |
| Ledger.CandidateKept | crates/achilles-store/src/store.rs:1041-1063 | updating a candidate changes what no key finds |
| LedgerHistory.EveryHistoryReplays | crates/achilles-store/src/store.rs:898-1014 | after any history of complete upserts, ingests, confirmations, closings and triage: the events of each finding chain from its opening to its state, reasons fit states, keys are unique |
| LedgerTrail.TrailReplaysExactly | crates/achilles-store/src/store.rs:926-968 | after any history of changes, each complete or interrupted between its row and its event, the trail replays if and only if every gap a lost event opened was closed by losing a change that led back |
| LedgerTrail.OneLossBreaksTheTrail | crates/achilles-store/src/store.rs:1646-1671 | as long as no finding lost two events, the trail replays if and only if none was lost |
| LedgerTrail.LostOpeningStays | crates/achilles-store/src/store.rs:973-1012 | a lost opening event is never made good, whatever follows |
| LedgerTrail.LostOpeningFails | crates/achilles-store/src/store.rs:973-1012 | the input: a first hit whose event is lost, and the same hit again |
| LedgerTrail.TwoLossesCanCancel | crates/achilles-store/src/store.rs:1646-1671 | a run in which a closing and the reopening after it both lose their events, and the trail replays |
| LedgerTrail.ListedCloseReplays | crates/achilles-store/src/store.rs:1623-1672 | closing a row that was listed earlier keeps a trail replaying if and only if the finding still is in the listed state |
| LedgerTrail.RowsStayOk | crates/achilles-store/src/store.rs:926-958 | interruptions spoil neither the uniqueness of keys nor the fit of reasons |
| LedgerTrail.OperationIsChanges | crates/achilles-store/src/store.rs:1090-1112 | each operation, with all its rows, is a sequence of such changes |
| LedgerHistory.CloseIsIdempotent | crates/achilles-store/src/store.rs:1615-1674 | closing again closes nothing and changes nothing |
| LedgerHistory.LookupUpserted | crates/achilles-store/src/store.rs:906-971 | an upsert changes the row of its key and no other |
| LedgerHistory.LookupClosed | crates/achilles-store/src/store.rs:1623-1653 | what closing does to the row of any key |
| RepeatedIngest.IngestIsIdempotent | crates/achilles-store/src/scan.rs:128-151 | ingesting a list again, duplicates and suppressed hits included, changes no row and adds no event |
| RepeatedIngest.HitsCommute | crates/achilles-store/src/store.rs:1026-1112 | hits on different fingerprints can be ingested in either order once one of them was seen |
| RepeatedIngest.LaterHitWins | crates/achilles-store/src/store.rs:1026-1112 | of two hits on one fingerprint only the later one shows |
| ResumableScan.WorkUnits.BeginWorkUnit | crates/achilles-store/src/store.rs:1222-1283 | skips exactly a unit done for the same digest, otherwise marks it running for the new one |
| ResumableScan.WorkUnits.FinishWorkUnit | crates/achilles-store/src/store.rs:1285-1309 | sets the status and keeps the digest |
| ResumableScan.WorkUnits.ReclaimStaleUnits | crates/achilles-store/src/store.rs:1209-1220 | exactly the running units become pending |
| ResumableScan.SkipIsSound | crates/achilles-store/src/scan.rs:171-208 | with one worker at a time, over any run of resumes, errors, crashes between any two statements and triage: when an engine is skipped, every unsuppressed hit of that engine and digest is in candidates and findings and safe from closing |
| ConcurrentScans.SkipIsSoundForAll | crates/achilles-store/src/scan.rs:359-422 | over any interleaving of any number of workers, each with options and a tree of its own, with errors, crashes and triage: as long as no unit is begun for another digest while a worker is at it, a unit can be skipped only if every unsuppressed hit of its engine and digest is in candidates and findings |
| ConcurrentScans.ActKeepsOk | crates/achilles-store/src/scan.rs:171-208 | a step of one worker that does not disturb another keeps what each of them and each finished unit rests on |
| ConcurrentScans.FinishTakesLastDigest | crates/achilles-store/src/store.rs:1285-1309 | a worker that is done with a unit makes it skippable for the digest it was last begun for, whoever began it |
| ConcurrentScans.DisturbedSkipIsUnsound | crates/achilles-store/src/scan.rs:359-422 | an input: of two workers on one engine the second has a changed tree, the first finishes, and the unit can be skipped for hits nobody recorded |
| ResumableScan.FirstFinishMarksSecondDigest | crates/achilles-store/src/store.rs:1285-1309 | if two workers begin one unit, the finish of the first makes it skippable for the digest of the second and for no other |
| ResumableScan.StepKeepsInv | crates/achilles-store/src/scan.rs:666-719 | every statement of a scan, failure, crash and triage keeps: a unit done for a digest has its hits on record |
| ScanOutcome.CompletedScan | crates/achilles-store/src/scan.rs:1394-1417 | a completed scan of an unchanged tree, however often interrupted, leaves open or confirmed exactly the hits that were not dismissed and the open findings of skipped categories |
| ScanOutcome.CompletedScanStates | crates/achilles-store/src/store.rs:926-971 | dismissed findings stay so, fixed ones that are hit reopen, open ones neither hit nor skipped are closed as absent; keys stay unique and reasons fit |
| ScanTrail.TrailReplaysExactly | crates/achilles-store/src/scan.rs:171-208 | whenever no event is due, over any crashes, failures and resumes, a scan's audit trail replays if and only if no interruption fell between a row and its event |
| ScanTrail.CrashSpoilsTrail | crates/achilles-store/src/scan.rs:359-376 | every scan whose first hit is new has a run that crashes after its row and is completed later, with a trail that does not replay |
| ScanOutcome.CompletedScanFingerprints | crates/achilles-store/src/scan.rs:684-695 | candidates are exactly the hits, findings the hits and what was there |
| ScanOutcome.InterruptionsDoNotMatter | crates/achilles-store/src/scan.rs:359-376 | two completed scans of the same tree agree on open findings, candidates and findings, whatever interrupted them |
| ScanOutcome.ResumeCompletes | crates/achilles-store/src/scan.rs:359-376 | from wherever a scan has got to, one undisturbed resume completes it |
| Assessments.Assessment.FinishAssessment | crates/achilles-store/src/store.rs:510-551 | finishing takes effect on a live assessment only |
| Assessments.Assessment.SetLiveStatus | crates/achilles-store/src/store.rs:553-573 | so does pausing or continuing |
| Assessments.Assessment.ReopenAssessment | crates/achilles-store/src/store.rs:1320-1336 | reopening fails exactly for completed and queued assessments and otherwise clears time and error |
| Assessments.Assessment.CancelScan | crates/achilles-store/src/scan.rs:492-514 | undisturbed, a cancel leaves an ended assessment and never changes one |
| Assessments.Assessment.PauseScan | crates/achilles-store/src/scan.rs:516-552 | pausing needs a registered scan unless the assessment has ended, which it never changes |
| Assessments.CompletedIsForever | crates/achilles-store/src/store.rs:519-523 | no interleaving changes a completed assessment |
| Assessments.EndedUntilReopened | crates/achilles-store/src/store.rs:519-565 | an ended assessment stays as it is until a resume reopens it |
| Assessments.LeavingAnEndedStatus | crates/achilles-store/src/store.rs:1322-1327 | only Cancelled, Partial and Failed are left, by a resume, with time and error cleared |
| Assessments.FirstFinishWins | crates/achilles-store/src/store.rs:519-537 | of all finishes between two reopenings the first sets status, time and error; without one the assessment is still live |
| Assessments.FinishedExactlyWhenNotLive | crates/achilles-store/src/store.rs:510-573 | over all interleavings a finishing time is recorded exactly while the status is not live, and a live assessment has no error |
| Assessments.CancelEnds | crates/achilles-store/src/scan.rs:496-513 | once a canceller has written, the assessment has ended, by it or an earlier finish |
| Assessments.LiveExactlyWithoutDecidedFinish | crates/achilles-store/src/store.rs:519-523 | a live assessment that nobody decides to end stays live whatever else happens, if and only if no finish was decided on before |
| Assessments.ResumedRunIsItsOwn | crates/achilles-store/src/scan.rs:443-514 | so a resumed run is ended by its own worker and later cancels only, if and only if at the resume no write of the old worker or of an earlier canceller is still to come |
| Assessments.OldWorkerReachesResumedRun | crates/achilles-store/src/scan.rs:443-475 | an input: a cancelled worker that left the registry reports after the row, still running, was resumed, and ends the resumed run |
| Assessments.OldCancelReachesResumedRun | crates/achilles-store/src/scan.rs:492-514 | an input: a cancel checked before its worker failed is written after the resume, and ends the resumed run |
| JsonScanner.ScanEndsWithJson | crates/goose-local-inference/src/native_tool_parsing.rs:98-133 | for every JSON object or array inside any text, the scan from its opening bracket ends exactly at its end, though it counts one bracket kind |
| JsonScanner.JsonPasses | crates/goose-local-inference/src/native_tool_parsing.rs:104-131 | inside an open bracket, every JSON text with its strings, escapes and brackets leaves the scanner as it was |
| JsonScanner.EmbeddedJsonIsFound | crates/goose-local-inference/src/native_tool_parsing.rs:91-137 | every object or array the parser accepts is among the candidates, whatever text surrounds it |
| JsonScanner.ScanFrom | crates/goose-local-inference/src/native_tool_parsing.rs:101-132 | the loop finds the end that the specification defines |
| JsonScanner.JsonCandidates | crates/goose-local-inference/src/native_tool_parsing.rs:91-137 | the candidates are the whole text, then the cuts at braces, then those at brackets, each if it parses |
| MediaMarker.SplitMediaMarkerText | crates/goose-local-inference/src/lib.rs:417-438 | nothing without a marker; otherwise the parts as specified, one newline stripped on each side of a marker |
| MediaMarker.SplitUndoesJoin | crates/goose-local-inference/src/lib.rs:417-438 | splitting the newline join of non-empty marker-free texts and markers gives the list back with adjacent texts merged |
| MediaMarker.MarkersMatchExactly | crates/goose-local-inference/src/lib.rs:417-438 | the split has as many markers as the list, if and only if no text contains the marker |
| MediaMarker.ExtractImagesFromMessages | crates/goose-local-inference/src/multimodal.rs:85-117 | decoded images in order, each replaced by the marker, others by the failure text |
| MediaMarker.MarkersMatchImages | crates/goose-local-inference/src/lib.rs:478-535 | after extraction, text clean-up and splitting there is one marker per decoded image, if and only if no other text of the message contains the marker |
| MediaMarker.ReparsedInOrder | crates/goose-local-inference/src/lib.rs:478-535 | in that case the parts come back in the order of the message, adjacent texts merged, also when there is no image |
| MediaMarker.MediaMarkerSurvives | crates/goose-local-inference/src/lib.rs:537-553 | the usual marker is one the clean-up of texts leaves alone |
| ShardNames.ParseUndoesPrint | crates/goose-local-inference/src/hf_models.rs:350-370 | index and total parsed from a printed name, in any directory, are the printed ones, as far as they fit u32 |
| ShardNames.NamesAreOrdered | crates/goose-local-inference/src/hf_models.rs:832-833 | names of up to 99999 shards sort by index |
| ShardNames.SixDigitsComeFirst | crates/goose-local-inference/src/hf_models.rs:832-833 | shard 100000 sorts before shard 10001 |
| ShardSets.Resolve | crates/goose-local-inference/src/hf_models.rs:784-874 | a single file wins; otherwise the sorted shards or the first error in order |
| ShardSets.ValidateShards | crates/goose-local-inference/src/hf_models.rs:835-874 | the checks of total, count, totals and indices, each with its error |
| ShardSets.AcceptedSetIsComplete | crates/goose-local-inference/src/hf_models.rs:835-874 | an accepted set has each index from 1 to its size exactly once and comes back in order |
| ShardSets.CompleteSetIsAccepted | crates/goose-local-inference/src/hf_models.rs:832-874 | a complete set in any listing order is accepted, as shards 1 to the last, if and only if it has at most 99999 shards |
| ShardSets.SortedSorts | crates/goose-local-inference/src/hf_models.rs:832-833 | sorting orders the names and keeps them all |
| TokenBuckets.TokenBucket.Check | oidc-proxy/src/index.js:17-48 | budget first, then rate; an allowed request is counted, recorded and stored |
| TokenBuckets.BudgetHolds | oidc-proxy/src/index.js:9-44 | over any requests, restarts and deaths within a request, no more requests are allowed in all than the budget |
| TokenBuckets.PruningChangesNoAnswer | oidc-proxy/src/index.js:29-36 | while the clock does not go back, the pruned list answers as the whole history would, also under changing limits |
| TokenBuckets.RateHolds | oidc-proxy/src/index.js:28-39 | between restarts no window of 1000 ms holds more allowed requests than the rate |
| ModelList.DedupeModels | crates/goose-local-inference/src/hf_models.rs:1897-1910 | the loop computes the specified fold |
| ModelList.MergeModelInfo | crates/goose-local-inference/src/hf_models.rs:1912-1937 | files and variants with a new key are added at the end, the larger count of downloads is kept |
| ModelList.ReposInOrder | crates/goose-local-inference/src/hf_models.rs:1897-1910 | each repository once, in the order of first occurrence |
| ModelList.EntryHoldsAll | crates/goose-local-inference/src/hf_models.rs:1912-1937 | an entry has the most downloads of its results and, for every filename and variant key, the first item any of them listed |
| ModelList.EntryKeys | crates/goose-local-inference/src/hf_models.rs:1915-1936 | its filenames and variant keys are the union of theirs |
| ModelList.DedupeIsIdempotent | crates/goose-local-inference/src/hf_models.rs:1897-1910 | merging a merged list changes nothing |
| HfProgress.HfDownloadProgress.OnProgress | crates/goose-local-inference/src/hf_models.rs:2307-2360 | each event's effect on the current file and on what is shown |
| HfProgress.HfDownloadProgress.Finish | crates/goose-local-inference/src/hf_models.rs:2272-2286 | a finished file adds the larger of its listed and its observed size |
| HfProgress.ShownNeverFalls | crates/goose-local-inference/src/hf_models.rs:2272-2305 | over any events, also where sums saturate or wrap, the bytes shown never fall and never exceed the total shown; until a cancel both are the computed ones |
| HfProgress.TotalFallsOnlyAtStart | crates/goose-local-inference/src/hf_models.rs:2313-2318 | exactly when the computed total falls |
| HfProgress.FilesAddUp | crates/goose-local-inference/src/hf_models.rs:2272-2305 | after files whose events stay within their sizes, the computed bytes are the sum of the sizes, or the largest u64 |

## Left out

- ModelSlots.EveryRunIsSafe: speaks of one runtime. The code holds it by a weak reference, and a generation keeps its backend and slot alive but not the runtime, so a runtime created after the last other reference was dropped starts with empty slots beside a generation that still runs.
- ModelSlots.RunsAreBounded: counts steps, not time; that a load, a generation or a progress message returns at all is assumed.
- Local models: the async locks' fairness (any grant order is allowed), the two lock guards that are dropped one after the other on leaving the load loop (one step here), the probes is_model_loaded and loaded_model_ids, and everything inside load_model and generate.
- Downloader.DownloadOneFile: local disk operations other than removing a partial file always succeed; statuses are 200, 206, or refusals outside 2xx; a 206 starts where it was asked to; a stream that ends cleanly has sent all that its body encloses, as the code compares no lengths after the last chunk; the remote content is fixed; progress percent, speed and remaining time are not modelled.
- DownloadSession.DownloadFilesSequentially: destinations and partial paths are distinct files, and the sum of HEAD sizes is unbounded where the code adds in u64.
- DownloadRegistry.OneLiveTaskPerId: covers downloads whose entries change through the modelled operations; set_progress and update_progress, which the Hugging Face downloads use on their own ids, can mark an exit early and are not part of it.
- Ledger.Store.Upsert: evidence, which merges earlier agent passes and triage notes, and timestamps are not columns of the model; the other overwritten columns are one value. Repeats therefore leave every modelled column as it is.
- LedgerTrail.TrailReplaysExactly: changes come one after another; two callers that change one finding at the same time, each between its reading and its writing, are not modelled.
- ScanOutcome.CompletedScan: the assessment is new, one worker runs at a time, tree, plan and skipped categories are unchanged across resumes (the code takes the latter two from each resume's own request) and nobody triages meanwhile; suppression rules are a fixed predicate. ScanTrail.TrailReplaysExactly needs in addition a trail that replays at the start.
- ResumableScan.SkipIsSound: one worker at a time, with a plan and skipped categories that all resumes share; ConcurrentScans.SkipIsSoundForAll lifts both. Engines are functions of name and digest; a cancelled engine that returns a part of its hits is covered only if they are the first ones. Dependency hits, which have no work unit, are a source that always runs. The agent pass and candidates it rejects or escalates are not modelled.
- ConcurrentScans.SkipIsSoundForAll: says that hits are on record, not that they stay open; a worker that listed the open findings before can still close one that another worker has recorded since.
- scan.rs skips the sast category while sast candidates are pending; none can be, as all pending ones were just confirmed, so the branch is not in the model. diff_open_fingerprints would add only easy members.
- Assessments.FirstFinishWins: the stats column, which merge_stats changes in any status, and the phases are not modelled; what finishing writes to the engagement is not either.
- JsonScanner.ScanEndsWithJson: depth is unbounded where the code has an i32; the parser is any function from text to an optional value.
- MediaMarker.MarkersMatchImages: tool calls and responses are non-empty texts of their own, as their fixed beginnings make them; the JSON wrapping of parts is not modelled.
- ShardSets.Resolve: the filters that select the files of a quantization, sizes, download URLs and the choice of a projector file are not modelled; the library sort is an insertion sort.
- TokenBuckets.BudgetHolds: requests are handled one at a time and an answer waits for the stored count, as Durable Objects' gates provide; counts are unbounded. The rate is not claimed across restarts, which forget the times.
- HfProgress.ShownNeverFalls: covers one download from its start; init, complete and fail, which reset or end the entry, and the floating-point percent are not modelled.
- The scan engines, SQL, HTTP clients, OIDC checks, command line and user interface: outside the model.
