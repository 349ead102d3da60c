# Verified models of eco's acquisition and index state

A Dafny model of the parts of eco that carry state through an experiment and have to stay consistent:
the scan engine, the run table, the search index with its synchronisation to SciLog and the elog, the
DAQ client's concurrent tables, the symbol table of the answer checker and the alias tree. Verify it with
`dafny verify dfyconfig.toml`.

What the source changes in place is a class or a method with loops here; each is proved against a function
on values, and what the source promises is proved of that function, mostly for every run, history or
interleaving. What the outside world decides (devices, strategies, the file system, servers, clocks, other
threads) is a parameter or an event, so every claim holds for all its choices.

## The parts

- **Scan engine.** `ScanModel` has the state of a step scan and of an adaptive driver and one step as a
  function; `StepScan` has the objects, with the todo list and `scan_values_all` being one list object;
  `ScanRuns`, `AdaptiveRuns`, `ScanNodes`, `ScanControl` and `ScanPause` are about all runs: which lists
  agree, how much is planned and counted, mesh nodes, termination, pausing, stopping and resuming.
  `SavedScan` is the file a paused scan is saved to.
  `ScanMesh` and `NodeIndex` are the mesh; `GridPlan` builds the plan of a grid; `Counters` converts the
  objects given as counters.
- **Run table.** `RunTable` has cells and the merge, `RunStore` the store and its cache file, `RunReads` the
  agreement with the rows last read over any history, `RunHistory` the same when a file's time determines its
  content, `RunSessions` several sessions sharing one file.
- **Search index.** `IndexTable` is the shared table, `SciLog` the SciLog fetch, `SciLogSync` one
  update and updates on snapshots, `SciLogInstants` updates that read each logbook at its own instant, `Elog`
  the elog update, `AskIndex` the incremental build and the indexing of notes, `CommandLog` and `DatedChunks`
  the two parsers.
- **DAQ client.** `Debounce` has the debounced upload as a transition system of calls, timers and a lock,
  `DebounceHistory` which calls it fails to cancel; `Acquisitions` has the table of acquisitions under way.
- **`SymbolCheck`** is the three-valued attribute lookup, **`AliasTree`** the heap tree of aliases.

## What does not hold as documented

The model follows the code. In these places a promise fails; each has an exact condition or an example.

- A stop requested before a pause leaves the scan hanging at its checkpoint (`ScanPause.StopThenPauseHangs`,
  `ScanPause.HangsIffPausedLast`), although `request_stop` is documented to make a paused scan exit.
- An end-of-step callback that raises leaves a `scan_info` entry behind; a scan started again after it has
  one entry too many and shifted ones (`ScanRuns.RecordedAndQueuedAreThePlan`, `ScanRuns.RaisingCallbackShiftsEntries`).
- A step that raises after an adaptive driver has queued further steps leaves the expected number of steps
  too high until the next step ends (`AdaptiveRuns.ExpectedStaysMaxPoints`,
  `AdaptiveRuns.RaisingAfterPlanningExpectsMore`).
- A resumed grid scan takes its labels from the start of the saved plan: they are right exactly when the plan
  repeats itself after the steps done, as after complete passes (`ScanPause.ResumedLabelsRightIff`,
  `ScanPause.ResumedLabelIsWrong`). Targets and exposures are right.
- Column types and table are read from the cache file at different moments; a merge under outdated types
  makes old values unreadable (`RunSessions.LoadIsTypedIffTypesCurrent`,
  `RunSessions.TypedThroughoutIffLoadsCurrent`, `RunSessions.OutdatedTypesSpoilTheFile`,
  `RunSessions.OutdatedTypesExample`). A session that has loaded no table may show outdated or no values
  (`RunSessions.UnloadedSessionRightIff`).
- Fresh logbooks are read at different instants but get one watermark; a post can be missed for good
  (`SciLogInstants.CompleteIffNoneLate`, `SciLogSync.CompleteIffNoLatecomer`, `SciLogSync.MissedPostStaysMissed`).
- A docs directory whose label changed keeps its rows under the old label, and a file that was indexed as a
  note gets no rows as a doc (`AskIndex.FreshIffReadOrSameRole`, `AskIndex.RelabelledDocsStayOld`,
  `AskIndex.NoteNeverBecomesDoc`).
- A status file that changes while the later of its two file times stays is not read again
  (`RunReads.PresentIffReadOrSame`, `RunSessions.NewSessionShows`).
- Targets and exposures of types that JSON lacks, such as numpy's integers, are saved as text and come back
  as text (`SavedScan.ResumedFromFileIff`).
- An expired timer can remove a newer call's table entry, after which that call is not cancelled by the next
  one: a burst may upload more than its last call (`DebounceHistory.StaysArmedIffOrphaned`,
  `DebounceHistory.BurstUploadsTwice`). No upload is lost or doubled.
- The last entry of the table of acquisitions need not be the one started last, and two stops without a
  number can pick the same one (`Acquisitions.UnnumberedStopEndsLatestIff`,
  `Acquisitions.RacingStartsAreOutOfOrder`, `Acquisitions.SecondOfTwoStopsFails`).
- A module is denied although modules of the table lie below it, where a directory of modules is no package
  (`SymbolCheck.DenialJustifiedIff`, `SymbolCheck.DirectoryWithoutInitIsDenied`), and so are names that every
  object or module has, as `__class__` (`SymbolCheck.NamesOfEveryObjectAreDenied`).
- `get_all` with a joiner other than a dot uses it only after the first name
  (`AliasTree.OtherJoinerAgreesIffShallow`).
- `dated_chunks` does not count the blank lines it puts between paragraphs, so a chunk may exceed `max_chars`
  (`DatedChunks.TextsFitIff`, `DatedChunks.TwoParagraphsExceedTheLimit`).

## Model

| member | source | states |
|---|---|---|
| ScanRuns.RunKeepsBoundary | eco/acquisition/scan.py:367-548 | at every step boundary of every run (rejected, repeated and raising steps, steps added by an adaptive driver) done followed by queued is the plan made so far, with its exposures; all four scan_info lists and the grid plan keep their lengths and entry i describes step i |
| ScanRuns.RunKeepsLists | eco/acquisition/scan.py:515-546 | the part of that about the parallel lists, from a start with or without a grid: readbacks are those of the accepted attempts, in order |
| ScanRuns.StepKeepsLists | eco/acquisition/scan.py:515-546 | one attempt, whatever the outside world does in it, keeps the parallel lists in agreement |
| ScanRuns.StepKeepsGrid | eco/acquisition/scan.py:493-495 | one attempt keeps the plan of cells as long as done and queued steps together, and labels an accepted step with its plan entry |
| ScanRuns.RecordedAndQueuedAreThePlan | eco/acquisition/scan.py:206-207 | recorded values followed by the shared list scan_values_all are the whole plan if and only if no step raised between being recorded and being accepted |
| ScanRuns.RaisingCallbackShiftsEntries | eco/acquisition/scan.py:515-546 | a run of two steps in which a callback raises once: the first step is recorded twice |
| ScanRuns.FixedPlanStays | eco/acquisition/scan.py:367-548 | without an adaptive driver no run adds to the plan |
| ScanRuns.NewScanPlans | eco/acquisition/scan.py:150-211 | a scan can be built exactly when the exposures match the values; it starts with the plan repeated, exposures and grid plan repeated with it |
| ScanRuns.NearestCellOfGridPoint | eco/acquisition/adaptive.py:310-311 | the nearest cell of a target on the axes is the cell at that target |
| ScanRuns.RunKeepsOnGrid | eco/acquisition/adaptive.py:449-458 | in fixed and growing grid scans every planned target stays the position of its cell in the plan of cells |
| ScanRuns.GridLabelsAreTargets | eco/acquisition/scan.py:493-495 | every accepted step carries the cell whose position it targeted, and the plan of cells covers exactly the steps done and queued |
| StepScan.StepScan.constructor | eco/acquisition/scan.py:150-211 | the new scan's state, the todo list and scan_values_all being one list object |
| StepScan.StepScan.AppendScanInfo | eco/acquisition/scan.py:646-652 | all four scan_info lists grow by the step's entry |
| StepScan.StepScan.RemoveLastScanInfoEntry | eco/acquisition/scan.py:654-660 | all four scan_info lists lose their last entry |
| StepScan.StepScan.DoNextStep | eco/acquisition/scan.py:367-548 | the object's new state and outcome are those of one step, with the lists shared and changed in place |
| StepScan.StepScan.Accept | eco/acquisition/scan.py:538-543 | an accepted step moves from the queue to done with its exposure and readback |
| StepScan.AdaptiveDriver.OnStart | eco/acquisition/adaptive.py:314-333 | the mesh gets the grid's spacing and the scan its expected number of steps |
| StepScan.AdaptiveDriver.Remaining | eco/acquisition/adaptive.py:410-420 | how many points count limit and time budget still allow |
| StepScan.AdaptiveDriver.Enqueue | eco/acquisition/adaptive.py:448-458 | targets, exposures and cells are appended to the scan's own lists, the copy of the plan in scan_info follows |
| StepScan.AdaptiveDriver.Refill | eco/acquisition/adaptive.py:422-460 | a refill queues the next batch, or ends the planning when limits, strategy or revisits leave none |
| StepScan.AdaptiveDriver.OnStepEnd | eco/acquisition/adaptive.py:335-347 | the driver's and the scan's new state after the end-of-step callback, raising included |
| ScanModel.CallbacksKeepHead | eco/acquisition/scan.py:522-540 | end-of-step callbacks only append: the step under way stays first in the queue |
| ScanModel.Nearest | eco/acquisition/adaptive.py:310-311 | the first of the positions nearest to a value |
| ScanModel.Unmeasured | eco/acquisition/adaptive.py:433-437 | exactly the planned steps whose cell has not been measured |
| AdaptiveRuns.PlanStaysWithinMaxPoints | eco/acquisition/adaptive.py:410-428 | an adaptive scan never plans more than max_points steps in total |
| AdaptiveRuns.InitialStepsWithin | eco/acquisition/adaptive.py:290-297 | the first plan respects max_points and is the beginning of what the strategy planned |
| AdaptiveRuns.AcceptedStepsAreCountedOnce | eco/acquisition/adaptive.py:335-368 | data points and skipped steps are the accepted steps with and without feedback, plus those that raised after counting: at once, after further steps were queued, or behind the callbacks |
| AdaptiveRuns.PointsAndSkippedAreTheStepsDone | eco/acquisition/adaptive.py:335-368 | data points and skipped steps add up to the steps done if and only if no step raised after being counted |
| AdaptiveRuns.ExpectedStaysMaxPoints | eco/acquisition/adaptive.py:462-470 | without a time budget, until the driver is done, the scan expects max_points steps and as many more as were planned since it was last said how many to expect; so it expects max_points if and only if none were, as always when no step raised between planning and that |
| AdaptiveRuns.ExpectedNeverExceedsMaxPoints | eco/acquisition/adaptive.py:462-470 | with any time budget, in every run, it never expects more than max_points steps and those; never more than max_points when no step raised between planning and saying what to expect |
| AdaptiveRuns.RaisingAfterPlanningExpectsMore | eco/acquisition/adaptive.py:459-470 | a step that plans one more and raises then: the scan expects one step more than max_points |
| AdaptiveRuns.ExpectsMaxPointsIffTimeAllows | eco/acquisition/adaptive.py:410-420 | after an accepted step it expects exactly max_points if and only if the time allows the points left, or they are all queued |
| AdaptiveRuns.StartExpects | eco/acquisition/adaptive.py:314-333 | the start callback makes that true and keeps the plan |
| AdaptiveRuns.ScanEnds | eco/acquisition/scan.py:747-768 | a scan goes on for at most as many attempts as planned steps and rejections; with max_points that bound is known beforehand |
| AdaptiveRuns.ScanEndsOnTime | eco/acquisition/adaptive.py:410-428 | once the time budget is used up nothing more is planned: the scan goes on for at most as many attempts as steps are queued then, and rejections |
| AdaptiveRuns.RefillAvoidsMeasuredCells | eco/acquisition/adaptive.py:433-437 | with avoid_revisits a refill plans only cells that no step of the plan targeted |
| ScanNodes.MeshIndexIdentifiesPoint | eco/acquisition/scan.py:496-505 | after any run two recorded steps have the same mesh index if and only if their points have the same key |
| ScanNodes.NewScanHasNoNodes | eco/acquisition/adaptive.py:318-326 | a new scan's mesh is empty, also after the driver set its resolution |
| ScanControl.ScanAll | eco/acquisition/scan.py:747-775 | the loop ends once no step is rejected any more, whether the plan is fixed or limited by max_points or by a time budget; ended without a stop or an exception it has done the whole plan in order |
| ScanControl.EmptyQueueMeansAllDone | eco/acquisition/scan.py:376-377 | an empty queue means that every planned step was done once, in order, with its exposure |
| ScanPause.PausedScanCompletesAtMostOneStep | eco/acquisition/scan.py:582-585 | after a pause, in every interleaving, at most one more step is completed until somebody resumes; none if the scan was at its checkpoint |
| ScanPause.StoppedScanCompletesAtMostOneStep | eco/acquisition/scan.py:595-600 | after a stop request only a step already started is completed, whatever follows |
| ScanPause.HangsIffPausedLast | eco/acquisition/scan.py:582-600 | a scan at its checkpoint cannot go on if and only if the last of pause, resume and stop was a pause |
| ScanPause.StoppedScanEnds | eco/acquisition/scan.py:595-600 | a stop that no pause follows ends the scan: until it has left its loop its thread can go on, at most three times |
| ScanPause.StopThenPauseHangs | eco/acquisition/scan.py:595-600 | a stop requested and then a pause: the scan never leaves its checkpoint |
| ScanPause.ResumedScanCompletesThePlan | eco/acquisition/scan_tasks.py:37-72 | the scan rebuilt from a snapshot, run to its end, and the first one together do the plan once, in order, with its exposures |
| SavedScan.ResumedFromFileIff | eco/acquisition/scan_tasks.py:37-72 | the scan rebuilt from the saved file is that one if and only if every remaining target and exposure is of a type that JSON has; else there are texts among its targets or exposures |
| ScanPause.PausedSnapshotStaysCurrent | eco/acquisition/scan.py:602-620 | a snapshot of a scan paused at its checkpoint stays what is left to do until somebody resumes |
| ScanPause.SnapshotDuringAStepRepeatsIt | eco/acquisition/scan.py:602-620 | a snapshot taken during a step repeats that step if and only if the step is accepted |
| ScanPause.ResumedRunLabelsFromTheStart | eco/acquisition/scan_tasks.py:62-69 | in every run of a resumed grid scan step i is labelled with entry i of the saved plan, while it does what the first scan would have done as step done + i |
| ScanPause.ResumedLabelsRightIff | eco/acquisition/scan_tasks.py:62-69 | a resumed scan done to its end has all labels right if and only if the saved plan of cells repeats itself after the steps done: fixed and growing grids, whatever their cells |
| ScanPause.PassesRepeatIff | eco/acquisition/scan.py:161-171 | a grid measured in passes repeats itself if and only if a pass was complete |
| ScanPause.DistinctCellsRepeatIff | eco/acquisition/adaptive.py:433-437 | a plan without repeated cells does so only if nothing was done or nothing is left |
| ScanPause.ResumedLabelIsWrong | eco/acquisition/scan.py:602-620 | a grid of two cells, left after its first step: the resumed scan measures the second cell and labels it as the first |
| ScanMesh.RoundHalfEven | eco/acquisition/mesh.py:75-81 | rounding to the nearest integer, the even one at a tie |
| ScanMesh.SameNodeIffSameKey | eco/acquisition/mesh.py:83-91 | after any adds and changes of resolution, over any points added while the resolution stays, two get the same node if and only if their keys agree, and a node with that key |
| ScanMesh.KeysStayFound | eco/acquisition/mesh.py:70-91 | every node's key finds a node with that key after adds and changes of resolution in any order |
| ScanMesh.NumberedByFirstVisit | eco/acquisition/mesh.py:83-91 | a point with a new key gets the number of different keys before it |
| ScanMesh.AddKeepsOneNodePerKey | eco/acquisition/mesh.py:83-91 | every node's key finds a node with that key, and no two nodes share one |
| ScanMesh.ResolutionChangeKeepsNodes | eco/acquisition/mesh.py:70-73 | after a change of resolution every node's new key still finds a node with that key |
| ScanMesh.ScanMesh.Add | eco/acquisition/mesh.py:83-91 | the node returned and the mesh's new state |
| ScanMesh.ScanMesh.SetResolution | eco/acquisition/mesh.py:70-73 | nodes stay, the index is rebuilt for the new keys, a later node winning |
| GridPlan.CellHasItsStep | eco/acquisition/scan.py:1601-1602 | every cell of the grid is measured in the step whose number is the cell read as a mixed-radix number |
| GridPlan.StepHasItsCell | eco/acquisition/scan.py:1601-1602 | every step measures a cell of the grid, the one whose number is the step's: steps and cells are one to one |
| GridPlan.LastMovesFastest | eco/acquisition/scan.py:1601-1602 | from step to step the cell counts on like an odometer, the last dimension fastest |
| GridPlan.FirstMovesFastest | eco/acquisition/scan.py:1603-1604 | first_fastest counts on with the first dimension fastest |
| GridPlan.BothOrdersMeasureEachCellOnce | eco/acquisition/scan.py:1599-1604 | either order measures each cell exactly once, the one is a permutation of the other, and no other order has a plan |
| GridPlan.PlanScan | eco/acquisition/scan.py:1702-1745 | refused exactly for unequal simultaneous axes or an unknown order; else one step per cell with the targets of that cell |
| GridPlan.OneTargetPerAdjustable | eco/acquisition/scan.py:1732-1761 | each step has one target per flattened adjustable: that adjustable's own position at its dimension's index |
| GridPlan.PlanMesh | eco/acquisition/scan.py:1585-1608 | a mesh scan over what is an adjustable: each step's targets are the position of its cell |
| GridPlan.MeshScanStartsOnGrid | eco/acquisition/scan.py:1606-1615 | the scan built from a mesh plan, repeated or not, starts with every target at its planned cell, as GridLabelsAreTargets needs |
| GridPlan.ScanLabelsAreTargets | eco/acquisition/scan.py:1732-1745 | in every run of a scan over any axes, also of adjustables that move together, repeated or not, every accepted step is labelled with the cell whose targets it measured |
| GridPlan.NodeOfCell | eco/acquisition/mesh.py:107-113 | a cell's node is at its targets if every dimension moves one adjustable; if one moves several together there is none |
| Counters.AsCounters | eco/acquisition/counters.py:778-815 | the counters and each object's place are the numbering of the objects' counters by first appearance |
| Counters.EachCounterOnce | eco/acquisition/counters.py:778-815 | every counter is there once, in order of first appearance; two objects share one if and only if they become the same |
| Counters.PlainDetectorsShareOneCounter | eco/acquisition/counters.py:795-812 | every counter comes from an object; all plain detectors are in one counter, each once and nothing else |
| Counters.MergeOptions | eco/acquisition/counters.py:813-824 | more options than objects are refused; else each counter gets the options of its objects |
| Counters.SetBySomeObject | eco/acquisition/counters.py:822-824 | an option of a counter is set if and only if one of its objects sets it |
| Counters.LastObjectDecides | eco/acquisition/counters.py:822-824 | of several objects of a counter that set an option the last one decides |
| Counters.SettledCountersStay | eco/acquisition/scan.py:118-120 | counters that are their own counters keep their order and each its own options |
| Counters.ConvertingAgainChangesNothing | eco/acquisition/scan.py:1895-1898 | converting the result of a conversion again gives the same counters |
| Counters.FindCounter | eco/acquisition/counters.py:828-842 | the first counter that reads an object, and under which channel; none if and only if no counter reads it |
| Counters.CounterReadsItsObject | eco/acquisition/counters.py:828-842 | the counter an object was converted to is one that find_counter recognises as reading it |
| RunTable.MergeKeepsTypes | eco/acquisition/run_store.py:288-314 | a merge keeps number columns numbers and JSON columns encoded text, whatever the new runs bring |
| RunTable.MergeShowsRows | eco/acquisition/run_store.py:288-314 | after a merge a read run shows exactly its new row and every other run what it showed before, although columns changed type or appeared |
| RunTable.TypedUnderOtherMetadata | eco/acquisition/run_store.py:205-230 | a table fits other column types if and only if they agree on every column that holds a value |
| RunStore.Store.ToJsonColumn | eco/acquisition/run_store.py:277-286 | a column's cells become JSON text, missing ones stay missing |
| RunStore.Store.PromoteNames | eco/acquisition/run_store.py:293-297 | exactly the columns for which a new run brings something else than a number are turned into JSON text |
| RunStore.Store.Merge | eco/acquisition/run_store.py:288-314 | the merged table and the new column types |
| RunStore.Store.ReadNew | eco/acquisition/run_store.py:320-343 | exactly the new and changed files are read; those that fail are remembered with their time, those that parse are forgotten there |
| RunStore.Store.Refresh | eco/acquisition/run_store.py:316-348 | the session's and the cache file's new state |
| RunStore.Store.Table | eco/acquisition/run_store.py:371-415 | every asked column's decoded value for every run |
| RunStore.FindRuns | eco/acquisition/run_store.py:161-185 | every run of any directory, from the first directory that has it, with the later of its files' times |
| RunReads.TableShowsLastReads | eco/acquisition/run_store.py:316-354 | over every history, however files and their times change and whenever the cache file cannot be written, the decoded table is cell by cell the row of each run's last successful read |
| RunReads.RefreshShowsReads | eco/acquisition/run_store.py:316-354 | one refresh shows the rows it reads and for every other run what was shown before |
| RunReads.SameReadsSameTable | eco/acquisition/run_store.py:316-354 | histories with the same last reads show the same table, however the runs were batched into refreshes |
| RunReads.RefreshAgainReadsNothing | eco/acquisition/run_store.py:320-326 | after any history a second refresh on an unchanged disk reads nothing and changes nothing |
| RunReads.PresentIffReadOrSame | eco/acquisition/run_store.py:320-326 | after a refresh a run shows its present file if and only if it was read now or the row read last is the same |
| RunHistory.TableIsLastGoodRead | eco/acquisition/run_store.py:316-354 | in particular, over any history of files appearing, changing and failing in which the file time determines the content, the decoded table is cell by cell the file each run was last good with, in every column that can be asked for |
| RunHistory.BatchingDoesNotMatter | eco/acquisition/run_store.py:316-354 | for such histories: when the runs were last good at the same times the table is the same, however they were batched into refreshes |
| RunHistory.RefreshKeepsConsistent | eco/acquisition/run_store.py:316-348 | one such refresh keeps session and cache file in agreement with the files the runs were last good with |
| RunSessions.InterleavedSessionsKeepTable | eco/acquisition/run_store.py:205-260 | in every interleaving of sessions opening, loading, merging and renaming, whatever is on disk, cache file and loaded tables stay typed and show exactly the rows that were loaded and read, provided no table is loaded under outdated types |
| RunSessions.TypedThroughoutIffLoadsCurrent | eco/acquisition/run_store.py:205-260 | in every interleaving cache file and loaded tables stay typed throughout if and only if no table is loaded under outdated types |
| RunSessions.LoadIsTypedIffTypesCurrent | eco/acquisition/run_store.py:205-230 | a load is typed if and only if the session's column types are right for the file; it then shows what the file shows |
| RunSessions.NewSessionShows | eco/acquisition/run_store.py:316-348 | after any such interleaving a fresh session's refresh shows every run on disk that can be read, also those a rename dropped, with its present row, unless the file has a row of the same file time, which it then shows; and every other run of the file |
| RunSessions.NewSessionRestoresEveryRun | eco/acquisition/run_store.py:316-348 | when the file time determines the content, every readable run on disk with its present values |
| RunSessions.OutdatedTypesSpoilTheFile | eco/acquisition/run_store.py:223-260 | loading under outdated types and merging writes a file whose old values cannot be decoded |
| RunSessions.OutdatedTypesExample | eco/acquisition/run_store.py:205-230 | a run of two sessions from an empty store: one opens it before the other stores a run, its types are outdated when it loads the table, and the value is lost to it |
| RunSessions.UnloadedSessionRightIff | eco/acquisition/run_store.py:388-398 | a session that has loaded no table shows what it saw of a run when it opened the file if and only if it knows no such column, or the file still holds the value and the types agree on its column or the value is missing; a run that another rename dropped shows nothing |
| Debounce.AlwaysInvariant | eco/acquisition/daq_client.py:1242-1256 | the relation of table, timers, lock and uploads holds under every interleaving |
| Debounce.NewestIsNeverCancelled | eco/acquisition/daq_client.py:1242-1256 | under every interleaving the newest call of a key is never cancelled and no call uploads twice |
| Debounce.QuietMeansNewestUploaded | eco/acquisition/daq_client.py:1242-1256 | once nothing is pending every call was uploaded once or cancelled for a newer one of its key; the newest of each key was uploaded |
| Debounce.NotQuietCanGoOn | eco/acquisition/daq_client.py:1242-1256 | while something is pending something other than a new call can happen |
| Debounce.EveryEventMakesProgress | eco/acquisition/daq_client.py:1242-1256 | every event but a new call brings the protocol closer to nothing pending |
| Debounce.ExpiredTimerRemovesSuccessor | eco/acquisition/daq_client.py:1247-1250 | when an expired timer removes an entry that is not its own, it is a newer call's, which is out of reach from then on |
| Debounce.OutOfReachIsNeverCancelled | eco/acquisition/daq_client.py:1243-1245 | such a call is never cancelled any more |
| DebounceHistory.StaysArmedIffOrphaned | eco/acquisition/daq_client.py:1242-1256 | over every history, when a call cancels the one of its key before it, that one stays armed if and only if it has not expired and an older timer of the key removed the entry after that call had put its own there |
| DebounceHistory.BurstUploadsTwice | eco/acquisition/daq_client.py:1242-1256 | three calls in a burst, the first one expiring just before the second: the third leaves the second armed, and both upload |
| Debounce.Client.DebouncedAppendAux | eco/acquisition/daq_client.py:1211-1256 | one call does exactly the call's events of the transition system |
| Debounce.Client.Fire | eco/acquisition/daq_client.py:1247-1250 | an expired timer does exactly the timer's events |
| Acquisitions.EveryAcquisitionOnce | eco/acquisition/daq_client.py:738-850 | under every interleaving of starts and stops, each in its two steps, every acquisition with a number is about to be put in the table, under way or requested, exactly one of these, from the pulse and with the name of its start |
| Acquisitions.OwnPulsesIffNotEnded | eco/acquisition/daq_client.py:576-608 | an acquisition of some pulses requests its own pulses if and only if no other call ended it in between |
| Acquisitions.InOrderIffNotOvertaken | eco/acquisition/daq_client.py:785-786 | the acquisition put in last has the highest number under way if and only if none of those under way overtook it between drawing a number and putting its entry in |
| Acquisitions.UnnumberedStopEndsLatestIff | eco/acquisition/daq_client.py:812-817 | a stop without a number ends the one with the highest number if and only if none overtook the one put in last and no other call ended that before the stop took it |
| Acquisitions.RacingStartsAreOutOfOrder | eco/acquisition/daq_client.py:785-786 | two starts that race: the one put in last has the lower number |
| Acquisitions.SecondOfTwoStopsFails | eco/acquisition/daq_client.py:815-817 | from an empty table two starts that race and two stops without a number: both stops pick the same entry, the second finds it gone, and the other acquisition stays under way |
| Acquisitions.Daq.Start | eco/acquisition/daq_client.py:738-789 | the table's new state and the number given out |
| Acquisitions.Daq.Stop | eco/acquisition/daq_client.py:791-831 | the table's new state and the pulses requested, or why there are none |
| Acquisitions.Daq.AcquirePulses | eco/acquisition/daq_client.py:576-608 | undisturbed it requests exactly its own pulses and leaves the others as they were; when the last pulse would be pulse 0 it runs to the current one |
| SciLog.Paragraphs | eco/logs_scilog.py:269-293 | paging returns what one unlimited read would, deleted posts left out |
| SciLog.WrittenRows | eco/logs_scilog.py:481-497 | after writing, a fetched post has exactly its own rows, once, and every other post the rows it had |
| SciLog.WrittenKeepsOthers | eco/logs_scilog.py:481-497 | rows that are not from SciLog stay as they are, in order |
| SciLog.ShareOfCommonRead | eco/logs_scilog.py:470-474 | a logbook's share of the common read from the oldest watermark on is what its own read would give |
| SciLog.CollectPosts | eco/logs_scilog.py:450-479 | fresh logbooks are read completely, known ones together; per logbook exactly its posts after its watermark |
| SciLog.FindNewest | eco/logs_scilog.py:480-480 | the newest of all posts and watermarks |
| SciLog.Store.ForgetUnreadable | eco/logs_scilog.py:530-547 | rows and watermarks of unreadable logbooks go, nothing else |
| SciLog.Store.ForgetPosts | eco/logs_scilog.py:511-518 | rows of these posts go, nothing else |
| SciLog.Store.IndexLogbooks | eco/logs_scilog.py:432-504 | the index after an update |
| SciLogSync.UpdateSynchronises | eco/logs_scilog.py:432-504 | an update that sees one snapshot keeps the index synchronised and indexes every post of a chosen logbook |
| SciLogSync.EveryChosenLogbookIsComplete | eco/logs_scilog.py:432-504 | over any updates with changing choices each post up to its watermark is indexed with exactly its own rows and no other post at all, chosen logbooks completely; nothing of unreadable logbooks remains; other rows are untouched |
| SciLogSync.CompleteIffNoLatecomer | eco/logs_scilog.py:451-502 | one update without one snapshot: every post up to its watermark is indexed if and only if none reached a logbook after it was read while the read of another one already showed a post no older |
| SciLogInstants.ReadsSynchronise | eco/logs_scilog.py:451-502 | such an update without a latecomer leaves the index synchronised with the server at any later instant |
| SciLogInstants.StaysSynchronised | eco/logs_scilog.py:432-504 | over any updates without latecomers, whatever is chosen and readable and whenever each logbook is read, the index stays synchronised: each post up to its watermark has exactly its own rows and no other post any |
| SciLogInstants.ChosenLogbooksAreComplete | eco/logs_scilog.py:432-504 | over such updates every logbook chosen last is indexed as far as it was read |
| SciLogInstants.CompleteIffNoneLate | eco/logs_scilog.py:432-504 | over any updates among logbooks that stay readable, in the end every post up to its watermark is indexed if and only if no update had a latecomer |
| SciLogInstants.OlderRowsMakeNoDifference | eco/logs_scilog.py:530-547 | rows of the older fetch do not matter to these claims: the first update gives the same index as without them |
| SciLogSync.LatecomersArePassedOver | eco/logs_scilog.py:480-502 | the new watermark passes over exactly those posts |
| SciLogSync.MissedPostStaysMissed | eco/logs_scilog.py:470-474 | a missed post is never fetched while its logbook stays readable |
| SciLogSync.ReadsAtDifferentInstantsLoseAPost | eco/logs_scilog.py:453-469 | two fresh logbooks and two posts for which this happens |
| SciLogSync.LegacyRowsAreDropped | eco/logs_scilog.py:530-547 | rows of the older fetch, which name no logbook, are gone after the first update |
| Elog.WindowReachesBack | eco/logs_elog.py:286-293 | the days asked for reach back past the previous update if the read starts within a day |
| Elog.LaterReadCanMiss | eco/logs_elog.py:286-293 | a day is the limit: what a later read misses |
| Elog.TurnRows | eco/logs_elog.py:294-305 | after a logbook's turn an entry has one copy if it was read again, none if only the full read dropped it, else the rows it had |
| Elog.UpdateMissesNothing | eco/logs_elog.py:268-310 | an update, rebuilding or not, misses no entry of its logbooks and keeps one copy each; other logbooks' entries go, other items stay |
| Elog.EveryEntryOnce | eco/logs_elog.py:268-344 | over any number of updates at any times no entry is indexed twice and every entry of a logbook just updated is indexed once |
| Elog.Store.UpdateBook | eco/logs_elog.py:284-306 | the index after one logbook's turn, full or partial |
| Elog.Store.Update | eco/logs_elog.py:268-310 | the index after an update |
| AskIndex.BuildKeeps | eco/logs_ask.py:372-396 | a build keeps every file's rows tied to its stamp, those of notes included, and leaves no row of docs, api or examples of an unlisted file |
| AskIndex.CallsKeep | eco/logs_ask.py:372-396 | over builds and notes indexed in any order, with any files and labels, and whatever each call extracts them to, every file with a stamp has exactly the rows and the stamp of its last reading |
| AskIndex.FreshIffReadOrSame | eco/logs_ask.py:372-396 | after any builds and notes and one more of either, a listed readable file has the rows of a fresh extraction if and only if the last listing of it that was read now, or its last reading if it was skipped, gave the same; a file that cannot be extracted keeps its rows and is tried again |
| AskIndex.FreshIffReadOrSameRole | eco/logs_ask.py:372-396 | when the stamp determines the content, failing or not, it has the rows of its present content if and only if the role it was last read in gives the same |
| AskIndex.FailureIsRetried | eco/logs_ask.py:389-391 | a file that was to be read and failed keeps its rows, and has those of the next call that lists it and can extract it, although its stamp is the same |
| AskIndex.RelabelledDocsStayOld | eco/logs_ask.py:382-383 | two builds from an empty index: a file listed under a new label keeps the row with the old one |
| AskIndex.NoteNeverBecomesDoc | eco/logs_ask.py:494-530 | a file indexed as a note and then listed as a doc keeps the note's row and gets none of its own |
| AskIndex.BuildLeavesOutside | eco/logs_ask.py:404-427 | items that belong neither to a listed file nor to docs, api or examples stay, in order |
| AskIndex.BuildAgainChangesNothing | eco/logs_ask.py:372-396 | after any builds and notes, building again reads nothing and changes nothing |
| AskIndex.AllIndexedRows | eco/logs_ask.py:372-396 | each file's rows and stamp after the loop: those of the last listing that was read, else as before |
| AskIndex.LastListingWins | eco/logs_ask.py:378-395 | of several listings of a file the last one that can be extracted decides |
| AskIndex.Store.Forget | eco/logs_ask.py:417-427 | rows and stamps that go, and what stays |
| AskIndex.Store.IndexFiles | eco/logs_ask.py:372-396 | the index after the loop over all sources |
| AskIndex.Store.BuildIndex | eco/logs_ask.py:430-488 | the index after a build |
| AskIndex.Store.IndexDocuments | eco/logs_ask.py:494-530 | the index after notes are indexed |
| CommandLog.CommandEpisodes | eco/logs_ask.py:217-245 | one episode per kept input, in order, made of exactly the records up to the next input, kept or not |
| CommandLog.EpisodesTellTheWorst | eco/logs_ask.py:234-242 | an episode's status is the worst of its records, its flag that of the first record that bad, its session the last started above it, its outcome within the limit |
| CommandLog.WorstStatusAndItsFlag | eco/logs_ask.py:236-239 | the same for any records told to an episode |
| CommandLog.OutcomeKeepsItsBeginning | eco/logs_ask.py:240-242 | what the outcome says after some records is the beginning of what it says in the end |
| CommandLog.KeptInputsInOrder | eco/logs_ask.py:229-233 | the kept inputs are all those with code that is not skipped, each once, in order |
| DatedChunks.GroupsAreACutting | eco/logs_sources.py:93-117 | every paragraph comes out once, in order, dated by the last date at or above it; a chunk ends only before a date or where the next paragraph would exceed the limit |
| DatedChunks.OnlyOneCutting | eco/logs_sources.py:93-117 | a division into chunks has these properties if and only if it is the one computed |
| DatedChunks.GroupsFit | eco/logs_sources.py:113-114 | only a single paragraph may exceed the limit |
| DatedChunks.TextsFitIff | eco/logs_sources.py:113-114 | the texts of chunks of several paragraphs are within the limit if and only if at every paragraph that joins a chunk there is room for the blank lines too |
| DatedChunks.TwoParagraphsExceedTheLimit | eco/logs_sources.py:100-103 | two paragraphs for which they do |
| DatedChunks.DatedChunks | eco/logs_sources.py:93-117 | the loop returns the texts and times of that cutting |
| SymbolCheck.Mro | eco/ei_check.py:295-318 | the worklist ends and visits exactly the known classes reachable through bases, each once; its flag is set if and only if something reachable is beyond judging |
| SymbolCheck.Attribute | eco/ei_check.py:320-337 | absent is answered if and only if the class is known, nothing reachable supplies the name and nothing is beyond judging; present if and only if something reachable supplies it |
| SymbolCheck.Members | eco/ei_check.py:339-346 | exactly the names that Attribute calls present, without those that begin with two underscores |
| SymbolCheck.ModuleMember | eco/ei_check.py:489-498 | absent is answered for what is neither a module of the table nor defined in the module; a class only if an entry of it is from that module |
| SymbolCheck.DenialJustifiedIff | eco/ei_check.py:489-498 | what the table shows absent is denied; a denial is justified if and only if the table covers the name: of a class any that not every object has, of a module of the table any that not every module has and below which no module lies |
| SymbolCheck.PackagesKnownJustifies | eco/ei_check.py:282-293 | with every package in the table a denial about its modules is justified if and only if the name is none that every module has |
| SymbolCheck.NamesOfEveryObjectAreDenied | eco/ei_check.py:320-337 | a class that adds nothing to `object`: that it has a `__class__` is denied |
| SymbolCheck.DirectoryWithoutInitIsDenied | eco/ei_check.py:489-498 | a directory of modules that is no package is denied though modules lie in it |
| SymbolCheck.StepFrom | eco/ei_check.py:548-573 | one step of a walk denies exactly by the rules of modules and classes, and leads on only where the table leads |
| SymbolCheck.WalkStatic | eco/ei_check.py:546-577 | a walk reports the first attribute denied, after every attribute before it was shown to lead on, and stops early only where the table leaves a doubt; the report is justified if and only if the table covers the name |
| SymbolCheck.NothingWithoutClass | eco/ei_check.py:320-325 | a class has entries to judge if and only if it is in the table and no plain base |
| SymbolCheck.BasesCount | eco/ei_check.py:295-318 | what a reachable base has, or is beyond judging in it, counts for the class |
| AliasTree.Alias.constructor | eco/aliases/aliases.py:11-16 | a new alias is a tree of its own |
| AliasTree.Alias.Append | eco/aliases/aliases.py:18-29 | refused exactly for a name a child has; else two trees are one with links agreeing in both directions if the alias had no parent; if it had one, or the node is below it, no forest has the node any more |
| AliasTree.Alias.PopObject | eco/aliases/aliases.py:31-34 | the child and its parent link go, the rest stays a forest |
| AliasTree.GetFullName | eco/aliases/aliases.py:60-77 | the names on the way up to the root or the base, joined; for an empty joiner the list of names |
| AliasTree.GetAll | eco/aliases/aliases.py:36-58 | fails exactly where a channel lacks its type; else lists each place with a channel of a wanted type, in pre-order |
| AliasTree.ListingAgreesWithNames | eco/aliases/aliases.py:36-77 | from a root the listing has every node below it exactly once, under exactly the name found by walking up |
| AliasTree.ListingByTypeIsFiltered | eco/aliases/aliases.py:45-51 | asking for some types gives the full listing without the others |
| AliasTree.OtherJoinerAgreesIffShallow | eco/aliases/aliases.py:48-53 | the listed name is the full name with that joiner if and only if the joiner is a dot or the path has at most two names |
| AliasTree.FullNamesAreDistinct | eco/aliases/aliases.py:60-77 | when no alias has the joiner in it all full names of a tree are different, for every joiner that keeps names apart |
| AliasTree.JoinerSeparatesIff | eco/aliases/aliases.py:74-75 | a joiner keeps lists of names without it apart if and only if no proper beginning of it is also its end, as for every single character |

## Left out

- ScanPause.ResumedScanCompletesThePlan: for remaining values that JSON has; SavedScan.ResumedFromFileIff says that only those come back. Grid positions that are an array are saved as one text, which is not modelled.
- AdaptiveRuns.ScanEnds: the bound is known beforehand only with max_points or a fixed plan; ScanEndsOnTime has the bound for a time budget.
- AdaptiveRuns.ExpectedStaysMaxPoints: only without a time budget; ExpectsMaxPointsIffTimeAllows says when it is so with one.
- ScanControl.ScanAll: waiting at the checkpoint while paused is in ScanPause, not in this loop; the callbacks and the return to initial values after the loop are not modelled.
- RunSessions.InterleavedSessionsKeepTable: requires that no table is loaded under outdated column types; TypedThroughoutIffLoadsCurrent says that nothing less will do.
- RunSessions.NewSessionRestoresEveryRun: requires that a file's time determines its content; RunSessions.NewSessionShows does not.
- AskIndex.FreshIffReadOrSameRole: requires that a file's stamp determines its content where extraction succeeds; AskIndex.FreshIffReadOrSame does not.
- SymbolCheck.DenialJustifiedIff: the names of `type`, which a class has when it is followed as itself and not as an instance, are not distinguished.
- RunStore.Store.Table: a selection of runs and the time column are left out.
- RunHistory.TableIsLastGoodRead: requires that a file's time determines its content; RunReads.TableShowsLastReads does not.
- RunHistory.BatchingDoesNotMatter: requires that a file's time determines its content; RunReads.SameReadsSameTable does not.
- RunHistory.RefreshKeepsConsistent: requires that a file's time determines its content; RunReads.RefreshShowsReads does not.
- SciLogSync.EveryChosenLogbookIsComplete: requires that each update sees one snapshot; SciLogInstants.CompleteIffNoneLate says what happens without.
- SciLogInstants.CompleteIffNoneLate: among logbooks that stay readable; a logbook that becomes unreadable in between is forgotten and, when chosen again, read completely.
- SciLog.Paragraphs: the limit of 100000 posts per read is a parameter that the synchronisation claims take as not reached; posts are neither edited nor deleted on the server between updates.
- Elog.EveryEntryOnce: entries are neither edited nor deleted on the server, and each read starts within a day of computing its window.
- GridPlan.PlanScan: an unknown scanning order fails in the source with an unbound name; here it is an error with a text of its own.
- Acquisitions.Daq.AcquirePulses: nothing comes in between; OwnPulsesIffNotEnded says what happens otherwise, where the source fails already on reading the start from the table if the acquisition was ended by then.
- Acquisitions.UnnumberedStopEndsLatestIff: picking the last entry is one step; that Python may refuse it when the table changes size at that moment is not modelled.
- ScanRuns.StepKeepsLists: no exception falls between queuing a planned target and its exposure, as a keyboard interrupt could.
- Scan steps: moving, settling, counting and their times; step windows for following counters; `step_info` contents other than grid and mesh index.
- Adaptive driver: learning of motion and exposure times, rounding of exposures, fits; the strategy's answers and feedback are arbitrary.
- Targets that are no numbers.
- Classification of an object as a counter (`as_counter`), the names of counters and detectors.
- Run table: an unreadable cache file; the time and source columns' contents; JSON text is represented by the value it encodes, numbers are exact.
- The regular expressions that find dates, commands to skip and warnings, and splitting text at blank lines: functions or inputs that the parsers take.
- `rebuild` of SciLog logbooks, web pages; kernel logs other than as files with stamps; which files of a directory are notes and what text is found in them.
- Checks of keyword arguments and signatures and the walk over live objects in the answer checker.
- DAQ requests to the broker, scan parameters stored with an acquisition, waiting for pulses.
- Everything that talks to devices, servers, databases or the terminal.
