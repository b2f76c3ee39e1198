/**
 * The merge engine (`merge_folders`): for each source folder in order,
 * walk it top-down; map each directory onto the destination, creating it
 * when missing; copy each file under its own name or, when that name is
 * taken, under the first free `base_i.ext`; count and report every folder
 * and file; poll the cancel flag before each folder, directory and file.
 *
 * The engine is a method over the objects it changes in place (the disk,
 * the log list, the progress sink and the cancel flag), proved equal to
 * the recursive specification `Merge` below; the properties of `Merge` are
 * proved in module EngineProperties.
 */
module Engine {
  import opened Wrappers
  import opened Paths
  import opened Storage
  import opened Sources
  import opened Collision

  datatype LogEntry =
    | DestinationCreated(path: Path)
    | CreatedFolder(path: Path)
    | CopiedFile(source: Path, target: Path)
    | CopiedFileWithRename(source: Path, target: Path)
    | Error(error: IoError)

  datatype ItemKind = FolderItem | FileItem

  /** The arguments of one `on_progress(item_type, path, base_folder,
      processed_count)` call. */
  datatype ProgressEvent = ProgressEvent(kind: ItemKind, path: Path, folder: Path, processed: nat)

  /** What the value of the cancel flag is at its n-th poll. */
  type Schedule = nat -> bool

  /** Everything a merge changes or observes: the disk, the log, the
      progress reports, the `processed` counter, how often the cancel flag
      has been polled, and the error that aborted the run, if any. */
  datatype Run = Run(fs: FileSystem, logs: seq<LogEntry>, events: seq<ProgressEvent>, processed: nat, polls: nat, error: Option<IoError>)

  function Poll(st: Run): Run
  {
    st.(polls := st.polls + 1)
  }

  /** `processed += 1` and the progress report that carries the new count. */
  function Advance(st: Run, kind: ItemKind, path: Path, folder: Path): Run
  {
    var n := st.processed + 1;
    st.(processed := n, events := st.events + [ProgressEvent(kind, path, folder, n)])
  }

  /** One file of a walked directory (mergefolders.py lines 54-71). */
  function FileStep(st: Run, folder: Path, root: Path, destRoot: Path, f: SourceFile): Run
  {
    var src := Join(root, [f.name]);
    var dst := Join(destRoot, [f.name]);
    if dst !in st.fs then
      match WithCopy(st.fs, src, f.data, f.readable, dst)
      case Failure(e) => st.(error := Some(e))
      case Success(fs') => Advance(st.(fs := fs', logs := st.logs + [CopiedFile(src, dst)]), FileItem, src, folder)
    else
      var target := Resolved(st.fs, destRoot, f.name);
      match WithCopy(st.fs, src, f.data, f.readable, target)
      case Failure(e) => st.(error := Some(e))
      case Success(fs') => Advance(st.(fs := fs', logs := st.logs + [CopiedFileWithRename(src, target)]), FileItem, src, folder)
  }

  /** The file loop of one directory; a set flag ends this loop only. */
  function CopyFiles(st: Run, cancel: Schedule, folder: Path, root: Path, destRoot: Path, files: seq<SourceFile>): Run
    decreases |files|
  {
    if st.error.Some? || files == [] then st
    else if cancel(st.polls) then Poll(st)
    else CopyFiles(FileStep(Poll(st), folder, root, destRoot, files[0]), cancel, folder, root, destRoot, files[1..])
  }

  /** The destination of a walked directory (mergefolders.py lines 43-44). */
  function DestRoot(folder: Path, dest: Path, v: Visit): Path
  {
    MapDest(dest, RelPath(Join(folder, v.rel), folder))
  }

  /** `os.makedirs` of a missing destination directory, logged as
      "Created folder" (mergefolders.py lines 45-47). */
  function EnsureDir(st: Run, destRoot: Path): Run
  {
    if destRoot in st.fs then st
    else
      match WithDirs(st.fs, destRoot)
      case Failure(e) => st.(error := Some(e))
      case Success(fs') => st.(fs := fs', logs := st.logs + [CreatedFolder(destRoot)])
  }

  /** One walked directory: create its destination when missing, report
      it, then its files (mergefolders.py lines 43-71). */
  function DirStep(st: Run, cancel: Schedule, folder: Path, dest: Path, v: Visit): Run
  {
    var root := Join(folder, v.rel);
    var destRoot := DestRoot(folder, dest, v);
    var st' := EnsureDir(st, destRoot);
    if st'.error.Some? then st'
    else CopyFiles(Advance(st', FolderItem, root, folder), cancel, folder, root, destRoot, v.files)
  }

  /** The walk loop of one source folder; a set flag ends this loop only. */
  function WalkLoop(st: Run, cancel: Schedule, folder: Path, dest: Path, visits: seq<Visit>): Run
    decreases |visits|
  {
    if st.error.Some? || visits == [] then st
    else if cancel(st.polls) then Poll(st)
    else WalkLoop(DirStep(Poll(st), cancel, folder, dest, visits[0]), cancel, folder, dest, visits[1..])
  }

  // One turn of each loop, as the loop methods below take it: a set flag
  // ends the loop with one more poll, an error ends it at once, otherwise
  // the loop goes on from the state the step left.

  lemma CopyFilesUnfold(st: Run, next: Run, cancel: Schedule, folder: Path, root: Path, destRoot: Path, files: seq<SourceFile>, m: nat)
    requires m < |files| && st.error.None? && !cancel(st.polls)
    requires next == FileStep(Poll(st), folder, root, destRoot, files[m])
    ensures CopyFiles(st, cancel, folder, root, destRoot, files[m..]) == CopyFiles(next, cancel, folder, root, destRoot, files[m + 1..])
    ensures next.error.Some? ==> CopyFiles(next, cancel, folder, root, destRoot, files[m + 1..]) == next
  {
    assert files[m..][1..] == files[m + 1..];
  }

  lemma CopyFilesStop(st: Run, cancel: Schedule, folder: Path, root: Path, destRoot: Path, files: seq<SourceFile>, m: nat)
    requires m < |files| && st.error.None? && cancel(st.polls)
    ensures CopyFiles(st, cancel, folder, root, destRoot, files[m..]) == Poll(st)
  {
  }

  lemma WalkLoopUnfold(st: Run, next: Run, cancel: Schedule, folder: Path, dest: Path, visits: seq<Visit>, j: nat)
    requires j < |visits| && st.error.None? && !cancel(st.polls)
    requires next == DirStep(Poll(st), cancel, folder, dest, visits[j])
    ensures WalkLoop(st, cancel, folder, dest, visits[j..]) == WalkLoop(next, cancel, folder, dest, visits[j + 1..])
    ensures next.error.Some? ==> WalkLoop(next, cancel, folder, dest, visits[j + 1..]) == next
  {
    assert visits[j..][1..] == visits[j + 1..];
  }

  lemma WalkLoopStop(st: Run, cancel: Schedule, folder: Path, dest: Path, visits: seq<Visit>, j: nat)
    requires j < |visits| && st.error.None? && cancel(st.polls)
    ensures WalkLoop(st, cancel, folder, dest, visits[j..]) == Poll(st)
  {
  }

  /** The loop over the source folders; a set flag ends the merge. */
  function SourcesLoop(st: Run, cancel: Schedule, dest: Path, sources: seq<Source>): Run
    decreases |sources|
  {
    if st.error.Some? || sources == [] then st
    else if cancel(st.polls) then Poll(st)
    else
      var st' := WalkLoop(Poll(st), cancel, sources[0].root, dest, Walk(sources[0].tree, []));
      SourcesLoop(st', cancel, dest, sources[1..])
  }

  lemma SourcesLoopUnfold(st: Run, next: Run, cancel: Schedule, dest: Path, sources: seq<Source>, k: nat)
    requires k < |sources| && st.error.None? && !cancel(st.polls)
    requires next == WalkLoop(Poll(st), cancel, sources[k].root, dest, Walk(sources[k].tree, []))
    ensures SourcesLoop(st, cancel, dest, sources[k..]) == SourcesLoop(next, cancel, dest, sources[k + 1..])
    ensures next.error.Some? ==> SourcesLoop(next, cancel, dest, sources[k + 1..]) == next
  {
    assert sources[k..][1..] == sources[k + 1..];
  }

  lemma SourcesLoopStop(st: Run, cancel: Schedule, dest: Path, sources: seq<Source>, k: nat)
    requires k < |sources| && st.error.None? && cancel(st.polls)
    ensures SourcesLoop(st, cancel, dest, sources[k..]) == Poll(st)
  {
  }

  /** The whole of `merge_folders`, starting with `processed = 0`. */
  function Merge(fs: FileSystem, logs: seq<LogEntry>, events: seq<ProgressEvent>, polls: nat,
                 cancel: Schedule, sources: seq<Source>, dest: Path): Run
  {
    SourcesLoop(Run(fs, logs, events, 0, polls, None), cancel, dest, sources)
  }

  /** The `logs` list the caller owns and the engine appends to. */
  class LogList {
    var lines: seq<LogEntry>

    constructor (initial: seq<LogEntry>)
      ensures lines == initial
    {
      lines := initial;
    }

    method Append(e: LogEntry)
      modifies this
      ensures lines == old(lines) + [e]
    {
      lines := lines + [e];
    }
  }

  /** The `on_progress` callback, as the sequence of calls made to it. */
  class ProgressSink {
    var events: seq<ProgressEvent>

    constructor ()
      ensures events == []
    {
      events := [];
    }

    method Report(e: ProgressEvent)
      modifies this
      ensures events == old(events) + [e]
    {
      events := events + [e];
    }
  }

  /** The `threading.Event` another thread may set: `schedule` says what
      each successive `is_set()` returns. */
  class CancelEvent {
    const schedule: Schedule
    var polls: nat

    constructor (schedule: Schedule)
      ensures this.schedule == schedule && polls == 0
    {
      this.schedule := schedule;
      polls := 0;
    }

    method IsSet() returns (b: bool)
      modifies this
      ensures b == schedule(old(polls)) && polls == old(polls) + 1
    {
      b := schedule(polls);
      polls := polls + 1;
    }
  }

  ghost function Snapshot(vol: Volume, logs: LogList, sink: ProgressSink, cancelEvent: CancelEvent,
                          processed: nat, error: Option<IoError>): Run
    reads vol, logs, sink, cancelEvent
  {
    Run(vol.entries, logs.lines, sink.events, processed, cancelEvent.polls, error)
  }

  /** `merge_folders`. A returned error is the exception that aborted it;
      everything done before stays done. */
  method MergeFolders(sourceFolders: seq<Source>, destFolder: Path, vol: Volume, logs: LogList,
                      cancelEvent: CancelEvent, onProgress: ProgressSink) returns (error: Option<IoError>)
    requires forall k :: 0 <= k < |sourceFolders| ==> Apart(sourceFolders[k].root, destFolder)
    modifies vol, logs, cancelEvent, onProgress
    ensures var r := Merge(old(vol.entries), old(logs.lines), old(onProgress.events), old(cancelEvent.polls),
                           cancelEvent.schedule, sourceFolders, destFolder);
      && vol.entries == r.fs && logs.lines == r.logs && onProgress.events == r.events
      && cancelEvent.polls == r.polls && error == r.error
  {
    var processed: nat := 0;
    error := None;
    ghost var cancel := cancelEvent.schedule;
    ghost var goal := Merge(vol.entries, logs.lines, onProgress.events, cancelEvent.polls, cancel, sourceFolders, destFolder);
    var k := 0;
    while k < |sourceFolders|
      invariant 0 <= k <= |sourceFolders| && error == None
      invariant SourcesLoop(Snapshot(vol, logs, onProgress, cancelEvent, processed, error), cancel, destFolder, sourceFolders[k..]) == goal
    {
      ghost var st := Snapshot(vol, logs, onProgress, cancelEvent, processed, error);
      var stop := cancelEvent.IsSet();
      if stop {
        SourcesLoopStop(st, cancel, destFolder, sourceFolders, k);
        break;
      }
      var folder := sourceFolders[k].root;
      var walk := Walk(sourceFolders[k].tree, []);
      assert Snapshot(vol, logs, onProgress, cancelEvent, processed, error) == Poll(st);
      processed, error := WalkFolder(folder, walk, destFolder, vol, logs, cancelEvent, onProgress, processed);
      SourcesLoopUnfold(st, Snapshot(vol, logs, onProgress, cancelEvent, processed, error), cancel, destFolder, sourceFolders, k);
      if error.Some? {
        return;
      }
      k := k + 1;
    }
  }

  /** The walk of one source folder (mergefolders.py lines 40-71), given the
      directories `os.walk` yields for it. */
  method WalkFolder(folder: Path, visits: seq<Visit>, destFolder: Path, vol: Volume, logs: LogList,
                    cancelEvent: CancelEvent, onProgress: ProgressSink, processed0: nat)
    returns (processed: nat, error: Option<IoError>)
    modifies vol, logs, cancelEvent, onProgress
    ensures Snapshot(vol, logs, onProgress, cancelEvent, processed, error)
         == WalkLoop(old(Snapshot(vol, logs, onProgress, cancelEvent, processed0, None)), cancelEvent.schedule,
                     folder, destFolder, visits)
  {
    processed, error := processed0, None;
    ghost var cancel := cancelEvent.schedule;
    ghost var goal := WalkLoop(Snapshot(vol, logs, onProgress, cancelEvent, processed, error), cancel, folder, destFolder, visits);
    var j := 0;
    while j < |visits|
      invariant 0 <= j <= |visits| && error == None
      invariant WalkLoop(Snapshot(vol, logs, onProgress, cancelEvent, processed, error), cancel, folder, destFolder, visits[j..]) == goal
    {
      ghost var st := Snapshot(vol, logs, onProgress, cancelEvent, processed, error);
      var stop := cancelEvent.IsSet();
      if stop {
        WalkLoopStop(st, cancel, folder, destFolder, visits, j);
        break;
      }
      assert Snapshot(vol, logs, onProgress, cancelEvent, processed, error) == Poll(st);
      processed, error := VisitDirectory(folder, destFolder, visits[j], vol, logs, cancelEvent, onProgress, processed);
      WalkLoopUnfold(st, Snapshot(vol, logs, onProgress, cancelEvent, processed, error), cancel, folder, destFolder, visits, j);
      if error.Some? {
        return;
      }
      j := j + 1;
    }
  }

  /** One walked directory (mergefolders.py lines 43-71). */
  method VisitDirectory(folder: Path, destFolder: Path, v: Visit, vol: Volume, logs: LogList,
                        cancelEvent: CancelEvent, onProgress: ProgressSink, processed0: nat)
    returns (processed: nat, error: Option<IoError>)
    modifies vol, logs, cancelEvent, onProgress
    ensures Snapshot(vol, logs, onProgress, cancelEvent, processed, error)
         == DirStep(old(Snapshot(vol, logs, onProgress, cancelEvent, processed0, None)), cancelEvent.schedule,
                    folder, destFolder, v)
  {
    processed := processed0;
    var root := Join(folder, v.rel);
    var relPath := RelPath(root, folder);
    var destRoot := MapDest(destFolder, relPath);
    error := MakeDestRoot(destRoot, vol, logs, cancelEvent, onProgress, processed);
    if error.Some? {
      return;
    }
    processed := processed + 1;
    onProgress.Report(ProgressEvent(FolderItem, root, folder, processed));
    processed, error := CopyFilesOf(folder, root, destRoot, v.files, vol, logs, cancelEvent, onProgress, processed);
  }

  /** Create the destination directory when missing (mergefolders.py lines
      45-47). */
  method MakeDestRoot(destRoot: Path, vol: Volume, logs: LogList, cancelEvent: CancelEvent,
                      onProgress: ProgressSink, processed: nat) returns (error: Option<IoError>)
    modifies vol, logs
    ensures Snapshot(vol, logs, onProgress, cancelEvent, processed, error)
         == EnsureDir(old(Snapshot(vol, logs, onProgress, cancelEvent, processed, None)), destRoot)
  {
    var present := vol.Exists(destRoot);
    error := None;
    if !present {
      error := vol.MakeDirs(destRoot);
      if error.Some? {
        return;
      }
      logs.Append(CreatedFolder(destRoot));
    }
  }

  /** The file loop of one walked directory (mergefolders.py lines 51-71). */
  method CopyFilesOf(folder: Path, root: Path, destRoot: Path, files: seq<SourceFile>, vol: Volume, logs: LogList,
                     cancelEvent: CancelEvent, onProgress: ProgressSink, processed0: nat)
    returns (processed: nat, error: Option<IoError>)
    modifies vol, logs, cancelEvent, onProgress
    ensures Snapshot(vol, logs, onProgress, cancelEvent, processed, error)
         == CopyFiles(old(Snapshot(vol, logs, onProgress, cancelEvent, processed0, None)), cancelEvent.schedule,
                      folder, root, destRoot, files)
  {
    processed, error := processed0, None;
    ghost var cancel := cancelEvent.schedule;
    ghost var goal := CopyFiles(Snapshot(vol, logs, onProgress, cancelEvent, processed, error), cancel, folder, root, destRoot, files);
    var m := 0;
    while m < |files|
      invariant 0 <= m <= |files| && error == None
      invariant CopyFiles(Snapshot(vol, logs, onProgress, cancelEvent, processed, error), cancel, folder, root, destRoot, files[m..]) == goal
    {
      ghost var st := Snapshot(vol, logs, onProgress, cancelEvent, processed, error);
      var stop := cancelEvent.IsSet();
      if stop {
        CopyFilesStop(st, cancel, folder, root, destRoot, files, m);
        break;
      }
      assert Snapshot(vol, logs, onProgress, cancelEvent, processed, error) == Poll(st);
      processed, error := CopyFile(folder, root, destRoot, files[m], vol, logs, cancelEvent, onProgress, processed);
      CopyFilesUnfold(st, Snapshot(vol, logs, onProgress, cancelEvent, processed, error), cancel, folder, root, destRoot, files, m);
      if error.Some? {
        return;
      }
      m := m + 1;
    }
  }

  /** One file (mergefolders.py lines 54-71), with the rename loop of lines
      60-67 in ResolveCollision. */
  method CopyFile(folder: Path, root: Path, destRoot: Path, f: SourceFile, vol: Volume, logs: LogList,
                  cancelEvent: CancelEvent, onProgress: ProgressSink, processed0: nat)
    returns (processed: nat, error: Option<IoError>)
    modifies vol, logs, onProgress
    ensures Snapshot(vol, logs, onProgress, cancelEvent, processed, error)
         == FileStep(old(Snapshot(vol, logs, onProgress, cancelEvent, processed0, None)), folder, root, destRoot, f)
  {
    processed := processed0;
    var name := f.name;
    var sourcePath := Join(root, [name]);
    var destinationPath := Join(destRoot, [name]);
    var present := vol.Exists(destinationPath);
    if !present {
      error := vol.Copy2(sourcePath, f.data, f.readable, destinationPath);
      if error.Some? {
        return;
      }
      logs.Append(CopiedFile(sourcePath, destinationPath));
    } else {
      var index, newDestinationPath := ResolveCollision(vol.entries, destRoot, name);
      error := vol.Copy2(sourcePath, f.data, f.readable, newDestinationPath);
      if error.Some? {
        return;
      }
      logs.Append(CopiedFileWithRename(sourcePath, newDestinationPath));
    }
    processed := processed + 1;
    onProgress.Report(ProgressEvent(FileItem, sourcePath, folder, processed));
  }
}
