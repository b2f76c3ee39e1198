/**
 * What the cancel flag does to a merge: it only cuts the run short. A run
 * the flag stopped has done a prefix of what the same run does when nobody
 * sets the flag; a run the flag did not stop is that run.
 */
module Cancellation {
  import opened Wrappers
  import opened Paths
  import opened Storage
  import opened Sources
  import opened Engine
  import opened EngineProperties

  /** `x`, reached with the flag, is `y`, reached without it, cut short:
      `y` carried `x` further, and they agree unless the flag stopped `x`. */
  ghost predicate Behind(x: Run, y: Run, cancel: Schedule)
  {
    Progressed(x, y) && (!Stopped(x, cancel) ==> Agree(x, y))
  }

  lemma ProgressedTransitive(a: Run, b: Run, c: Run)
    requires Progressed(a, b) && Progressed(b, c)
    ensures Progressed(a, c)
  {
  }

  lemma {:induction false} CopyFilesBehind(a: Run, b: Run, cancel: Schedule, folder: Path, root: Path, destRoot: Path, files: seq<SourceFile>)
    requires Agree(a, b)
    ensures Behind(CopyFiles(a, cancel, folder, root, destRoot, files), CopyFiles(b, Never, folder, root, destRoot, files), cancel)
    decreases |files|
  {
    if a.error.None? && files != [] {
      if cancel(a.polls) {
        CopyFilesProgresses(b, Never, folder, root, destRoot, files);
      } else {
        var a1 := FileStep(Poll(a), folder, root, destRoot, files[0]);
        var b1 := FileStep(Poll(b), folder, root, destRoot, files[0]);
        assert Agree(a1, b1);
        CopyFilesBehind(a1, b1, cancel, folder, root, destRoot, files[1..]);
      }
    }
  }

  lemma DirStepBehind(a: Run, b: Run, cancel: Schedule, folder: Path, dest: Path, v: Visit)
    requires Agree(a, b)
    ensures Behind(DirStep(a, cancel, folder, dest, v), DirStep(b, Never, folder, dest, v), cancel)
  {
    var root := Join(folder, v.rel);
    var destRoot := DestRoot(folder, dest, v);
    var a1, b1 := EnsureDir(a, destRoot), EnsureDir(b, destRoot);
    assert Agree(a1, b1);
    if a1.error.None? {
      CopyFilesBehind(Advance(a1, FolderItem, root, folder), Advance(b1, FolderItem, root, folder),
                      cancel, folder, root, destRoot, v.files);
    }
  }

  lemma {:induction false} WalkLoopBehind(a: Run, b: Run, cancel: Schedule, folder: Path, dest: Path, visits: seq<Visit>)
    requires Monotone(cancel) && Agree(a, b)
    ensures Behind(WalkLoop(a, cancel, folder, dest, visits), WalkLoop(b, Never, folder, dest, visits), cancel)
    decreases |visits|
  {
    if a.error.None? && visits != [] {
      if cancel(a.polls) {
        WalkLoopProgresses(b, Never, folder, dest, visits);
      } else {
        var a1 := DirStep(Poll(a), cancel, folder, dest, visits[0]);
        var b1 := DirStep(Poll(b), Never, folder, dest, visits[0]);
        DirStepBehind(Poll(a), Poll(b), cancel, folder, dest, visits[0]);
        if Stopped(a1, cancel) {
          WalkLoopInert(a1, cancel, folder, dest, visits[1..]);
          WalkLoopProgresses(b1, Never, folder, dest, visits[1..]);
          ProgressedTransitive(a1, b1, WalkLoop(b1, Never, folder, dest, visits[1..]));
        } else {
          WalkLoopBehind(a1, b1, cancel, folder, dest, visits[1..]);
        }
      }
    }
  }

  lemma {:induction false} SourcesLoopBehind(a: Run, b: Run, cancel: Schedule, dest: Path, sources: seq<Source>)
    requires Monotone(cancel) && Agree(a, b)
    ensures Behind(SourcesLoop(a, cancel, dest, sources), SourcesLoop(b, Never, dest, sources), cancel)
    decreases |sources|
  {
    if a.error.None? && sources != [] {
      if cancel(a.polls) {
        SourcesLoopProgresses(b, Never, dest, sources);
      } else {
        var walk := Walk(sources[0].tree, []);
        var a1 := WalkLoop(Poll(a), cancel, sources[0].root, dest, walk);
        var b1 := WalkLoop(Poll(b), Never, sources[0].root, dest, walk);
        WalkLoopBehind(Poll(a), Poll(b), cancel, sources[0].root, dest, walk);
        if Stopped(a1, cancel) {
          SourcesLoopInert(a1, cancel, dest, sources[1..]);
          SourcesLoopProgresses(b1, Never, dest, sources[1..]);
          ProgressedTransitive(a1, b1, SourcesLoop(b1, Never, dest, sources[1..]));
        } else {
          SourcesLoopBehind(a1, b1, cancel, dest, sources[1..]);
        }
      }
    }
  }

  /** Setting the flag only truncates a merge: the cancelled run's log and
      reports are prefixes of the uncancelled run's, its disk is contained
      in that run's disk, and its counter is no larger; a run the flag did
      not stop ends exactly as the uncancelled one, error included. */
  lemma CancelOnlyTruncates(fs: FileSystem, logs: seq<LogEntry>, events: seq<ProgressEvent>, polls: nat, polls': nat,
                            cancel: Schedule, sources: seq<Source>, dest: Path)
    requires Monotone(cancel)
    ensures var r := Merge(fs, logs, events, polls, cancel, sources, dest);
      var full := Merge(fs, logs, events, polls', Never, sources, dest);
      && r.logs <= full.logs && r.events <= full.events && Extends(r.fs, full.fs) && r.processed <= full.processed
      && (!Stopped(r, cancel) ==>
            r.fs == full.fs && r.logs == full.logs && r.events == full.events
            && r.processed == full.processed && r.error == full.error)
  {
    SourcesLoopBehind(Run(fs, logs, events, 0, polls, None), Run(fs, logs, events, 0, polls', None), cancel, dest, sources);
  }
}
