# Folder merger — a verified model of the merge engine

The program merges several source folders into one destination folder
`<chosen>/<first source>_merged`. A preview pass first counts the
directories, files and bytes that will be processed. Then every source is
walked top-down, in the order the user picked them. Each walked directory is
mapped onto the destination and created when it is missing ("Created
folder"). Each file is copied under its own name when that name is free
("Copied file"), and otherwise under the first free name `base_1.ext`,
`base_2.ext`, ... ("Copied file with rename"). A counter of processed
directories and files is reported after each item. A cancel flag is polled
before every source, directory and file, and an `OSError` aborts the run
and is logged as "Error".

The model:

- `Paths` — paths as component lists, `os.path.relpath`/`os.path.join` and
  the destination mapping.
- `Storage` — the destination disk as a map from paths to entries;
  `os.makedirs` and `shutil.copy2` with their failures; a `Volume` object
  the engine changes in place.
- `Sources` — the source trees as `os.walk` yields them, and their
  structural counts.
- `Estimator` — `calculate_preview`, a loop method proved to return those
  counts.
- `Collision` — `os.path.splitext` and the rename loop.
- `Engine` — `merge_folders` as methods over the disk, the log list, the
  progress sink and the cancel flag. Each method is proved equal to a
  recursive specification function (`Merge`, `WalkLoop`, `CopyFiles`,
  `FileStep`).
- `EngineProperties`, `Reports`, `LogOrder`, `Cancellation` — what a merge
  promises, proved about `Merge`: it never overwrites, it only appends to
  the log, progress counts run 1, 2, ... in walk order up to the preview's
  total, the log lines follow the same walk order, and cancellation only
  truncates a run.
- `Controller` — the sequential part of `start_merge` and its background
  run: destination name, preview, creation of the destination, the log's
  first and last lines.

The cancel flag is modelled as a schedule: the value it has at its n-th
poll. The lemmas about cancellation assume that once set it stays set
(`Monotone`), which is how `threading.Event.set` is used by the Cancel
button.

## Model

| member | source | states |
|---|---|---|
| Estimator.CalculatePreview | mergefolders.py:19-33 | the three totals are the number of files, of walked directories (each source root included) and the sum of the sizes that can be read, over all sources |
| Sources.WalkCounts | mergefolders.py:24-27 | the walk visits each listable directory once and yields each of its files once: its length, file count and byte count are the tree's |
| Sources.WalkSubdirsCounts | mergefolders.py:24-27 | the same counts for the walks of a directory's subdirectories in listing order |
| Sources.VisitsSumsConcat | mergefolders.py:23-32 | file and byte totals add up over consecutive parts of a walk |
| Sources.SourcesSumsConcat | mergefolders.py:23-32 | directory, file and byte totals add up over consecutive groups of sources |
| Sources.Walk | mergefolders.py:40 | the walk of an unlistable directory is empty; otherwise it starts with the directory itself and its files, and every directory it visits lies at or below the walked one |
| Sources.WalkSubdirs | mergefolders.py:40 | every directory the subdirectories' walks visit lies strictly below the parent |
| Paths.CommonPrefixLength | mergefolders.py:43 | the length of the longest common leading part of two paths, with the next components different |
| Paths.RelPathCases | mergefolders.py:43 | `relpath` of a path below `start` is the remainder below `start`; any other path starts by climbing with `..` |
| Paths.MapDestInside | mergefolders.py:44 | the mapped directory lies in the destination, with the relative path below it |
| Paths.RelPathOfDescendant | mergefolders.py:43 | `relpath` of a directory below the walked folder is its path below that folder |
| Paths.MapDestReroots | mergefolders.py:43-44 | a walked directory lands at the destination joined with its path below the source root, the source root itself at the destination |
| Paths.MapDestInjective | mergefolders.py:43-44 | two directories of one source never map to the same destination |
| Storage.WithDirs | mergefolders.py:46 | after a successful `makedirs` the path exists |
| Storage.WithDirsAdds | mergefolders.py:46 | `makedirs` keeps every existing entry and adds only directories on the way to the path |
| Storage.WithDirsFails | mergefolders.py:46 | on a tree, `makedirs` fails exactly when the path is missing and an existing ancestor is a file |
| Storage.WithDirsWellFormed | mergefolders.py:46 | `makedirs` keeps the disk a tree |
| Storage.WithCopy | mergefolders.py:57 | `copy2` onto a missing path succeeds exactly when the source is readable and the parent is an existing directory, and then adds just that file |
| Storage.WithCopyWellFormed | mergefolders.py:57 | `copy2` keeps the disk a tree |
| Storage.Volume.Exists | mergefolders.py:45 | `os.path.exists` answers whether the path has an entry |
| Storage.Volume.MakeDirs | mergefolders.py:46 | the disk becomes what `makedirs` yields, or stays as it was and the error is returned |
| Storage.Volume.Copy2 | mergefolders.py:57 | the disk becomes what `copy2` yields, or stays as it was and the error is returned |
| Collision.LastDot | mergefolders.py:60 | the index of the last dot, or none when the name has no dot |
| Collision.SplitExt | mergefolders.py:60 | base and extension put back together give the name; there is an extension exactly when some non-dot character precedes a dot, and it is one dot followed by no other dot |
| Collision.SplitExtExamples | mergefolders.py:60 | a leading dot starts no extension (`.bashrc`), and only the last dot does (`a.tar.gz`) |
| Collision.NatToString | mergefolders.py:62 | the decimal text of the counter has at least one character, and at least two from 10 on |
| Collision.NatToStringDigits | mergefolders.py:62 | the text is made of decimal digits, the last one being the counter's last digit |
| Collision.NatToStringInjective | mergefolders.py:62 | different counters give different decimal texts |
| Collision.CandidateInjective | mergefolders.py:62 | different counters give different candidate names |
| Collision.CandidateLayout | mergefolders.py:62 | the new name is the base, `_`, the counter's decimal text and the extension, in that order |
| Collision.CandidatePathInDir | mergefolders.py:63 | the candidate path lies directly in the destination directory and ends with the candidate name |
| Collision.CandidateExamples | mergefolders.py:62 | the counter is written in decimal between base and extension |
| Collision.FirstFreeFrom | mergefolders.py:61-67 | the first index from `i` on whose candidate is free: every index before it is taken |
| Collision.Resolved | mergefolders.py:60-67 | the renamed destination does not exist |
| Collision.ResolveCollision | mergefolders.py:60-67 | the loop ends; it returns the smallest `i >= 1` whose `base_i.ext` is free, and that path |
| Collision.FirstFreeUnique | mergefolders.py:61-67 | any index whose candidate is free while all smaller ones are taken is the one the loop finds |
| Collision.RepeatedCollisionIncreases | mergefolders.py:61-67 | once the first renamed copy exists, the next collision on that name gets a larger index |
| Engine.CancelEvent.IsSet | mergefolders.py:38 | a poll answers the flag's value at that poll and counts the poll |
| Engine.LogList.Append | mergefolders.py:47 | `logs.append` adds the line at the end and changes nothing else in the log |
| Engine.ProgressSink.Report | mergefolders.py:49 | `on_progress` adds the report at the end of the reports made so far |
| Engine.MergeFolders | mergefolders.py:35-71 | the disk, the log, the progress reports, the polls and the error afterwards are those of the specification `Merge` |
| Engine.WalkFolder | mergefolders.py:40-71 | the walk of one source ends in the state `WalkLoop` gives, stopping at a set flag or an error |
| Engine.VisitDirectory | mergefolders.py:41-71 | one walked directory ends in the state `DirStep` gives |
| Engine.MakeDestRoot | mergefolders.py:45-47 | the destination directory step ends in the state `EnsureDir` gives |
| Engine.CopyFilesOf | mergefolders.py:51-71 | the file loop of one directory ends in the state `CopyFiles` gives |
| Engine.CopyFile | mergefolders.py:54-71 | one file ends in the state `FileStep` gives |
| EngineProperties.EnsureDirLogsCreation | mergefolders.py:45-49 | "Created folder" is logged exactly when the directory was missing and `makedirs` succeeded; afterwards it exists; an existing directory changes nothing; on a tree the step fails exactly when an ancestor is a file |
| EngineProperties.FileStepNeverOverwrites | mergefolders.py:54-71 | a file step succeeds exactly when the source is readable and the destination directory exists; it then adds one file at a path that did not exist, under the plain name exactly when that was free, logs one copy line naming it, and counts one item; on failure nothing changes |
| EngineProperties.FileStepProgresses | mergefolders.py:54-71 | a file step only appends to the log and the reports, keeps existing entries, does not lower the counter and keeps the disk a tree |
| EngineProperties.CopyFilesProgresses | mergefolders.py:51-71 | the same for the file loop of a directory |
| EngineProperties.EnsureDirProgresses | mergefolders.py:45-47 | the same for creating a destination directory |
| EngineProperties.DirStepProgresses | mergefolders.py:41-71 | the same for one walked directory |
| EngineProperties.WalkLoopProgresses | mergefolders.py:40-71 | the same for the walk of one source |
| EngineProperties.SourcesLoopProgresses | mergefolders.py:37-71 | the same for the loop over the sources |
| EngineProperties.MergeOnlyAdds | mergefolders.py:35-71 | a merge only appends to the log and the reports, never changes or removes an existing entry, and keeps the disk a tree |
| EngineProperties.FreshWritesCompose | mergefolders.py:35-71 | runs that each write only fresh, distinct entries compose into one that does |
| EngineProperties.FileStepFresh | mergefolders.py:54-71 | a file step writes only an entry that was absent |
| EngineProperties.CopyFilesFresh | mergefolders.py:51-71 | the file loop writes only absent entries, no two the same |
| EngineProperties.DirStepFresh | mergefolders.py:41-71 | one walked directory writes only absent entries, no two the same |
| EngineProperties.WalkLoopFresh | mergefolders.py:40-71 | the walk of one source writes only absent entries, no two the same |
| EngineProperties.SourcesLoopFresh | mergefolders.py:37-71 | the loop over the sources writes only absent entries, no two the same |
| EngineProperties.MergeNeverOverwrites | mergefolders.py:45-71 | every line a merge logs is a folder creation or a copy of an entry absent before and present after, no two lines name the same entry, and every prior entry is unchanged |
| EngineProperties.WalkLoopInert | mergefolders.py:41-42 | once the flag was seen set or an error aborted the run, the walk loop changes nothing but one more poll |
| EngineProperties.SourcesLoopInert | mergefolders.py:38-39 | the same for the loop over the sources |
| Reports.Numbered | mergefolders.py:48-49 | one report per item |
| Reports.NumberedAt | mergefolders.py:48-49 | the k-th report carries the k-th item and the count `n + k + 1` |
| Reports.NumberedConcat | mergefolders.py:48-49 | the reports of consecutive items continue each other's counts |
| Reports.NumberedPrefix | mergefolders.py:48-49 | reporting a prefix of the items gives a prefix of the reports |
| Reports.NumberedPast | mergefolders.py:48-49 | reports of a group followed by part of the next group are reports of a prefix of both |
| Reports.ReportedCompose | mergefolders.py:37-71 | a run reporting its items in order, followed by a run reporting the next items, reports all of them in order |
| Reports.ReportedIntro | mergefolders.py:37-71 | reporting the first `k` items in order, stopping only when halted, is what `Reported` asks |
| Reports.ReportedHalted | mergefolders.py:37-71 | a halted run that goes no further has reported a prefix of any longer item list |
| Reports.ReportedStep | mergefolders.py:37-71 | one loop turn followed by the rest of the loop reports the turn's items and then the rest's |
| Reports.CopyFilesReported | mergefolders.py:51-71 | the file loop reports its files in order, numbered on from the counter, all of them unless halted |
| Reports.DirStepReported | mergefolders.py:41-71 | a walked directory reports itself and then its files, numbered on from the counter |
| Reports.WalkLoopReported | mergefolders.py:40-71 | the walk of one source reports its directories and files in walk order |
| Reports.SourcesLoopReported | mergefolders.py:37-71 | the loop over the sources reports every source's items in order |
| Reports.MergeReportsInOrder | mergefolders.py:36-71 | a merge reports the first `processed` items in walk order with counts 1, 2, ...; unless halted it reports all of them |
| Reports.FileItemsCount | mergefolders.py:51-71 | one report per file |
| Reports.WalkItemsCount | mergefolders.py:40-71 | a walk has one item per directory and per file |
| Reports.SourceItemsCount | mergefolders.py:37-71 | the items of all sources number the preview's directories plus files |
| Reports.CountKindConcat | mergefolders.py:48-71 | items of a kind add up over consecutive groups |
| Reports.NumberedKinds | mergefolders.py:48-71 | numbering keeps each item's kind, so the reports of a kind number the items of that kind |
| Reports.FileItemsKinds | mergefolders.py:51-71 | the items of a directory's files are all file items, one per file |
| Reports.WalkItemsKinds | mergefolders.py:40-71 | a walk has one folder item per directory and one file item per file |
| Reports.SourceItemsKinds | mergefolders.py:37-71 | the items of all sources hold as many folder items as the preview counts directories and as many file items as it counts files |
| Reports.NumberedSourceKinds | mergefolders.py:37-71 | reporting every item of the sources reports the preview's directory count as folders and its file count as files |
| Reports.FinishedRunReportsAll | mergefolders.py:35-71 | with a flag that stays set once set, a run without an error whose flag is clear at the end reported every item, numbered 1, 2, ... |
| Reports.UncancelledRunMatchesPreview | mergefolders.py:35-71 | with a flag nobody sets, a run without an error reports every item, its counter ends at `total_files + total_dirs`, and it reports `total_dirs` folders and `total_files` files |
| LogOrder.EmbedsConcat | mergefolders.py:35-71 | log lines standing for reports, followed by more such lines, stand for the concatenated reports |
| LogOrder.EmbedsKeepsFiles | mergefolders.py:54-71 | when the lines stand for the reports, the copy lines name exactly the reported files, in order |
| LogOrder.JournaledCompose | mergefolders.py:35-71 | two consecutive stretches of a run whose lines follow their reports make one such stretch |
| LogOrder.FileStepJournaled | mergefolders.py:54-71 | a file step logs one copy line naming the file it reports, or nothing when it fails |
| LogOrder.CopyFilesJournaled | mergefolders.py:51-71 | the file loop logs one copy line per reported file, in the order of the reports |
| LogOrder.DirStepJournaled | mergefolders.py:43-71 | a walked directory logs its "Created folder" line, if any, for its own report, then the copy lines for its files' reports |
| LogOrder.WalkLoopJournaled | mergefolders.py:40-71 | the walk of one source logs in the order it reports |
| LogOrder.SourcesLoopJournaled | mergefolders.py:37-71 | the loop over the sources logs in the order it reports |
| LogOrder.MergeLogsFollowReports | mergefolders.py:35-71 | for any flag schedule, the lines a merge appends stand for its new reports in order, a folder line only for a reported directory, and one copy line per reported file |
| LogOrder.NumberedKeys | mergefolders.py:48-71 | numbering items does not change what they stand for |
| LogOrder.MergeLogsInOrder | mergefolders.py:35-71 | with a flag that stays set once set, the appended lines follow the walk: a directory's "Created folder" line comes before its files' lines, and the copy lines name exactly the first reported files, in walk order |
| Cancellation.ProgressedTransitive | mergefolders.py:35-71 | being further along is transitive |
| Cancellation.CopyFilesBehind | mergefolders.py:51-53 | a run of the file loop that may stop earlier stays behind one that does not, and equals it when not stopped |
| Cancellation.DirStepBehind | mergefolders.py:41-71 | the same for one walked directory |
| Cancellation.WalkLoopBehind | mergefolders.py:40-42 | the same for the walk of one source |
| Cancellation.SourcesLoopBehind | mergefolders.py:37-39 | the same for the loop over the sources |
| Cancellation.CancelOnlyTruncates | mergefolders.py:37-53 | a cancelled run's log and reports are prefixes of the uncancelled run's, its disk is part of that run's and its counter no larger; a run the flag did not stop is the uncancelled run |
| Controller.MergedDestNamed | mergefolders.py:91-92 | the destination lies directly in the chosen folder, named after the first selected folder's last component followed by `_merged` |
| Controller.StartMerge | mergefolders.py:83-102 | the outcome and the disk are those of `Session`: warnings for no folders or no destination, nothing when the preview is declined, otherwise the destination is made and the merge runs |
| Controller.RunMerge | mergefolders.py:116-123 | the background run's log, reports and disk are those of `Launch`, the error logged last |
| Controller.SessionLog | mergefolders.py:98-123 | a session that does not reach the merge leaves the disk alone; one that does starts the log with "Destination created", ends it with "Error" exactly when the run failed, logs only writes between, keeps every prior entry and leaves the destination existing |
| Controller.SessionMatchesPreview | mergefolders.py:102-120 | a finished, unfailed, uncancelled session reported exactly `total_items` items, numbered 1 to `total_items`: `total_dirs` folders and `total_files` files |

## Left out

- The tkinter interface (windows, dialogs, labels, fonts, `select_folders`, the finish dialogs): the dialogs' answers are inputs of `Controller.Session`.
- Threading and `root.after`: the merge runs as one sequential computation. The cancel flag set by another thread is a schedule of values, one per poll.
- Timing (`time.perf_counter`, the elapsed minutes and seconds): clocks are not modelled.
- `format_bytes`: floating-point text for the preview dialog only.
- The progress bar's `min(processed_count, total_items)` and the status texts are not modelled; the model keeps the reported events. Their counts stay within the total only because the model gives the preview and the merge the same source trees.
- The source trees are assumed not to change between the preview and the merge, nor during the merge. In the program the preview can go stale, which is what the `min` at line 108 guards against.
- Log lines and error messages are datatype values, not formatted text.
- Symbolic links, file metadata kept by `copy2`, and file sizes beyond the byte length of the contents.
- `Storage.WithCopy`, `Storage.WithDirsFails`, `EngineProperties.EnsureDirLogsCreation`, `EngineProperties.FileStepNeverOverwrites`: their "exactly when" failure conditions describe the model's disk. It fails only for an unreadable source, a file in the way or a missing parent. No write permission on the destination, a full disk and a name too long once `_N` is appended are left out.
- `Storage.WithCopy`: only copies onto a missing path, the only way the engine calls `copy2`.
- `Engine.MergeFolders`: requires every source folder to lie apart from the destination, in both directions. When the destination is inside a source, the original walks the folders it is creating. When a source is inside the destination, it copies into directories of that source the walk may not have listed yet: with destination `/a` and source `/a/b`, the files of `/a/b/b/c` land in `/a/b/c`. The model's source trees are fixed before the run, so it covers neither case.
- `Controller.StartMerge`: has the same requirement, for the same reason.
- `Engine.MergeFolders` is split into one method per loop (`WalkFolder`, `CopyFilesOf`) and per step (`VisitDirectory`, `MakeDestRoot`, `CopyFile`). They run the same statements in the same order.
- Exceptions other than `OSError` from the disk (for example `KeyboardInterrupt`) are not modelled. An `OSError` aborts the run and is logged.
- `Controller.Session`: a failing `os.makedirs` of the destination raises in the interface thread. The model ends the session there with `DestinationFailed`.
- The cancellation lemmas assume the flag stays set once set (`Monotone`). The engine methods are proved for any schedule.
