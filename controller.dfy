/**
 * The sequential part of `start_merge` and of its background run: pick the
 * `<first source>_merged` destination, show the preview, create the
 * destination, start the log with "Destination created", run the merge,
 * log the exception that aborted it, and read the flag once more to tell a
 * cancelled run. The dialogs' answers and the flag's schedule are inputs.
 */
module Controller {
  import opened Wrappers
  import opened Paths
  import opened Storage
  import opened Sources
  import opened Estimator
  import opened Engine
  import opened EngineProperties
  import opened Reports

  datatype Outcome =
    | NoFoldersSelected                 // "Please select folders to merge."
    | NoDestinationChosen               // "Please select a destination folder."
    | Declined                          // the preview dialog was closed without starting
    | DestinationFailed(error: IoError) // `os.makedirs` of the destination raised
    | Finished(logs: seq<LogEntry>, reports: seq<ProgressEvent>, totalItems: nat, failed: bool, canceled: bool)

  /** `f"{os.path.basename(folder)}_merged"`; the basename of the root is empty. */
  function MergedName(folder: Path): Name
  {
    (if folder == [] then "" else folder[|folder| - 1]) + "_merged"
  }

  /** The destination folder: the chosen folder joined with the merged name
      of the first selected source. */
  function MergedDest(chosen: Path, selected: seq<Source>): Path
    requires selected != []
  {
    Join(chosen, [MergedName(selected[0].root)])
  }

  /** The destination sits directly in the chosen folder and is named after
      the first selected folder's last component with "_merged" appended. */
  lemma MergedDestNamed(chosen: Path, selected: seq<Source>)
    requires selected != []
    ensures var r := MergedDest(chosen, selected);
      var name := r[|r| - 1];
      var root := selected[0].root;
      && r != [] && Parent(r) == chosen
      && |name| >= 7 && name[|name| - 7..] == "_merged"
      && (root == [] ==> name == "_merged")
      && (root != [] ==> name[..|name| - 7] == root[|root| - 1])
  {
  }

  /** What a session ends with and the disk it leaves, given the selected
      sources, the chosen folder (`None` when the dialog was dismissed),
      the answer to the preview and the flag's schedule. */
  function Session(fs: FileSystem, selected: seq<Source>, chosen: Option<Path>, proceed: bool, cancel: Schedule): (Outcome, FileSystem)
  {
    if selected == [] then (NoFoldersSelected, fs)
    else if chosen.None? then (NoDestinationChosen, fs)
    else if !proceed then (Declined, fs)
    else
      var dest := MergedDest(chosen.value, selected);
      match WithDirs(fs, dest)
      case Failure(e) => (DestinationFailed(e), fs)
      case Success(fs1) => Launch(fs1, selected, dest, cancel, SourcesFiles(selected) + SourcesDirs(selected))
  }

  /** The run once the destination exists: the log opens with "Destination
      created", the merge runs, an error it raised is logged last, and the
      flag is read once more. */
  function Launch(fs: FileSystem, selected: seq<Source>, dest: Path, cancel: Schedule, totalItems: nat): (Outcome, FileSystem)
  {
    var r := Merge(fs, [DestinationCreated(dest)], [], 0, cancel, selected, dest);
    var logs := if r.error.Some? then r.logs + [Error(r.error.value)] else r.logs;
    (Finished(logs, r.events, totalItems, r.error.Some?, cancel(r.polls)), r.fs)
  }

  /** `start_merge`, then the background run. */
  method StartMerge(selected: seq<Source>, chosen: Option<Path>, proceed: bool, vol: Volume, schedule: Schedule)
    returns (outcome: Outcome)
    requires chosen.Some? ==> forall k :: 0 <= k < |selected| ==> Apart(selected[k].root, MergedDest(chosen.value, selected))
    modifies vol
    ensures (outcome, vol.entries) == Session(old(vol.entries), selected, chosen, proceed, schedule)
  {
    if |selected| == 0 {
      return NoFoldersSelected;
    }
    if chosen.None? {
      return NoDestinationChosen;
    }
    var dest := MergedDest(chosen.value, selected);
    var totalFiles, totalDirs, totalBytes := CalculatePreview(selected);
    if !proceed {
      return Declined;
    }
    var present := vol.Exists(dest);
    if !present {
      var err := vol.MakeDirs(dest);
      if err.Some? {
        return DestinationFailed(err.value);
      }
    }
    outcome := RunMerge(selected, dest, vol, schedule, totalFiles + totalDirs);
  }

  /** `_run_merge` with the log set up before it and the flag read of
      `_finish` after it. */
  method RunMerge(selected: seq<Source>, dest: Path, vol: Volume, schedule: Schedule, totalItems: nat)
    returns (outcome: Outcome)
    requires forall k :: 0 <= k < |selected| ==> Apart(selected[k].root, dest)
    modifies vol
    ensures (outcome, vol.entries) == Launch(old(vol.entries), selected, dest, schedule, totalItems)
  {
    var logs := new LogList([DestinationCreated(dest)]);
    var cancelEvent := new CancelEvent(schedule);
    var onProgress := new ProgressSink();
    var error := MergeFolders(selected, dest, vol, logs, cancelEvent, onProgress);
    if error.Some? {
      logs.Append(Error(error.value));
    }
    var canceled := cancelEvent.IsSet();
    outcome := Finished(logs.lines, onProgress.events, totalItems, error.Some?, canceled);
  }

  /** Only a started session touches the disk, and then only by adding to
      it; its log opens with "Destination created" whether or not the
      folder existed, the destination exists afterwards, every later line
      records an entry the merge wrote, and the run failed exactly when the
      last line is an error. */
  lemma SessionLog(fs: FileSystem, selected: seq<Source>, chosen: Option<Path>, proceed: bool, cancel: Schedule)
    ensures var (o, fs') := Session(fs, selected, chosen, proceed, cancel);
      && (!o.Finished? ==> fs' == fs)
      && (o.Finished? ==>
            && selected != [] && chosen.Some? && proceed
            && var dest := MergedDest(chosen.value, selected);
            && Extends(fs, fs') && dest in fs'
            && |o.logs| >= 1 && o.logs[0] == DestinationCreated(dest)
            && (o.failed <==> o.logs[|o.logs| - 1].Error?)
            && forall i :: 1 <= i < |o.logs| - (if o.failed then 1 else 0) ==> Writes(o.logs[i]))
  {
    if selected != [] && chosen.Some? && proceed {
      var dest := MergedDest(chosen.value, selected);
      var d := WithDirs(fs, dest);
      WithDirsAdds(fs, dest);
      if d.Success? {
        var fs1 := d.value;
        var start := [DestinationCreated(dest)];
        MergeNeverOverwrites(fs1, start, [], 0, cancel, selected, dest);
        var r := Merge(fs1, start, [], 0, cancel, selected, dest);
        assert r.logs[0] == DestinationCreated(dest);
      }
    }
  }

  /** A session that finishes without an error and with the flag clear at
      its last read reported every directory and file, numbered 1, 2, ...,
      up to the preview's `total_files + total_dirs`: the progress bar
      reaches its maximum. Folders and files are each reported as often as
      the preview counted them. */
  lemma SessionMatchesPreview(fs: FileSystem, selected: seq<Source>, chosen: Option<Path>, proceed: bool, cancel: Schedule)
    requires Monotone(cancel)
    ensures var (o, _) := Session(fs, selected, chosen, proceed, cancel);
      o.Finished? && !o.failed && !o.canceled ==>
        && |o.reports| == o.totalItems
        && (forall k :: 0 <= k < |o.reports| ==> o.reports[k].processed == k + 1)
        && CountReports(o.reports, FolderItem) == SourcesDirs(selected)
        && CountReports(o.reports, FileItem) == SourcesFiles(selected)
  {
    if selected != [] && chosen.Some? && proceed {
      var dest := MergedDest(chosen.value, selected);
      var d := WithDirs(fs, dest);
      if d.Success? {
        var start := [DestinationCreated(dest)];
        var r := Merge(d.value, start, [], 0, cancel, selected, dest);
        FinishedRunReportsAll(d.value, start, [], 0, cancel, selected, dest);
        if r.error.None? && !cancel(r.polls) {
          assert r.events == Numbered(SourceItems(selected), 0);
          SourceItemsCount(selected);
          NumberedSourceKinds(selected);
        }
      }
    }
  }
}
