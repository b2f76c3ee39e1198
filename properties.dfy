/**
 * What the merge engine guarantees, proved about its specification
 * `Engine.Merge` (which `Engine.MergeFolders` is proved to compute).
 */
module EngineProperties {
  import opened Wrappers
  import opened Paths
  import opened Storage
  import opened Sources
  import opened Collision
  import opened Engine

  /** The flag stays set once set (a `threading.Event` nobody clears). */
  ghost predicate Monotone(cancel: Schedule)
  {
    forall i, j :: i <= j && cancel(i) ==> cancel(j)
  }

  /** A flag that is never set. */
  function Never(i: nat): bool
  {
    false
  }

  /** The run has stopped: an error aborted it, or its last poll saw the
      flag set. */
  ghost predicate Halted(r: Run, cancel: Schedule)
  {
    r.error.Some? || (r.polls > 0 && cancel(r.polls - 1))
  }

  /** The run was stopped by the flag: its last poll saw it set. */
  ghost predicate Stopped(r: Run, cancel: Schedule)
  {
    r.error.None? && r.polls > 0 && cancel(r.polls - 1)
  }

  /** Two states that differ at most in the number of polls. */
  ghost predicate Agree(a: Run, b: Run)
  {
    a.fs == b.fs && a.logs == b.logs && a.events == b.events && a.processed == b.processed && a.error == b.error
  }

  /** `b` is `a` carried further: the log and the reports only grew, no
      entry of the disk changed, the counter did not go down, and a tree
      stayed a tree. */
  ghost predicate Progressed(a: Run, b: Run)
  {
    && a.logs <= b.logs
    && a.events <= b.events
    && Extends(a.fs, b.fs)
    && a.processed <= b.processed
    && (WellFormed(a.fs) ==> WellFormed(b.fs))
  }

  // ---------------------------------------------------------------------
  // The log and the reports only grow; existing entries are never touched.

  lemma FileStepProgresses(st: Run, folder: Path, root: Path, destRoot: Path, f: SourceFile)
    ensures Progressed(st, FileStep(st, folder, root, destRoot, f))
  {
    var dst := Join(destRoot, [f.name]);
    var src := Join(root, [f.name]);
    if WellFormed(st.fs) {
      if dst !in st.fs {
        WithCopyWellFormed(st.fs, src, f.data, f.readable, dst);
      } else {
        WithCopyWellFormed(st.fs, src, f.data, f.readable, Resolved(st.fs, destRoot, f.name));
      }
    }
  }

  lemma {:induction false} CopyFilesProgresses(st: Run, cancel: Schedule, folder: Path, root: Path, destRoot: Path, files: seq<SourceFile>)
    ensures Progressed(st, CopyFiles(st, cancel, folder, root, destRoot, files))
    decreases |files|
  {
    if st.error.None? && files != [] && !cancel(st.polls) {
      var s1 := FileStep(Poll(st), folder, root, destRoot, files[0]);
      FileStepProgresses(Poll(st), folder, root, destRoot, files[0]);
      CopyFilesProgresses(s1, cancel, folder, root, destRoot, files[1..]);
    }
  }

  lemma EnsureDirProgresses(st: Run, destRoot: Path)
    ensures Progressed(st, EnsureDir(st, destRoot))
  {
    if destRoot !in st.fs {
      WithDirsAdds(st.fs, destRoot);
      if WellFormed(st.fs) {
        WithDirsWellFormed(st.fs, destRoot);
      }
    }
  }

  lemma DirStepProgresses(st: Run, cancel: Schedule, folder: Path, dest: Path, v: Visit)
    ensures Progressed(st, DirStep(st, cancel, folder, dest, v))
  {
    var root := Join(folder, v.rel);
    var destRoot := DestRoot(folder, dest, v);
    var s1 := EnsureDir(st, destRoot);
    EnsureDirProgresses(st, destRoot);
    if s1.error.None? {
      CopyFilesProgresses(Advance(s1, FolderItem, root, folder), cancel, folder, root, destRoot, v.files);
    }
  }

  lemma {:induction false} WalkLoopProgresses(st: Run, cancel: Schedule, folder: Path, dest: Path, visits: seq<Visit>)
    ensures Progressed(st, WalkLoop(st, cancel, folder, dest, visits))
    decreases |visits|
  {
    if st.error.None? && visits != [] && !cancel(st.polls) {
      var s1 := DirStep(Poll(st), cancel, folder, dest, visits[0]);
      DirStepProgresses(Poll(st), cancel, folder, dest, visits[0]);
      WalkLoopProgresses(s1, cancel, folder, dest, visits[1..]);
    }
  }

  lemma {:induction false} SourcesLoopProgresses(st: Run, cancel: Schedule, dest: Path, sources: seq<Source>)
    ensures Progressed(st, SourcesLoop(st, cancel, dest, sources))
    decreases |sources|
  {
    if st.error.None? && sources != [] && !cancel(st.polls) {
      var s1 := WalkLoop(Poll(st), cancel, sources[0].root, dest, Walk(sources[0].tree, []));
      WalkLoopProgresses(Poll(st), cancel, sources[0].root, dest, Walk(sources[0].tree, []));
      SourcesLoopProgresses(s1, cancel, dest, sources[1..]);
    }
  }

  /** A merge only appends to the log and to the progress reports, never
      changes or removes an entry that was on the disk, and keeps the disk
      a tree. */
  lemma MergeOnlyAdds(fs: FileSystem, logs: seq<LogEntry>, events: seq<ProgressEvent>, polls: nat,
                      cancel: Schedule, sources: seq<Source>, dest: Path)
    ensures var r := Merge(fs, logs, events, polls, cancel, sources, dest);
      && logs <= r.logs && events <= r.events
      && Extends(fs, r.fs)
      && (WellFormed(fs) ==> WellFormed(r.fs))
  {
    SourcesLoopProgresses(Run(fs, logs, events, 0, polls, None), cancel, dest, sources);
  }

  // ---------------------------------------------------------------------
  // One directory and one file.

  /** "Created folder" is logged exactly when the destination directory was
      missing and `os.makedirs` made it; afterwards it exists. On a tree,
      making it fails exactly when an existing ancestor is a file. */
  lemma EnsureDirLogsCreation(st: Run, destRoot: Path)
    requires st.error.None?
    ensures var r := EnsureDir(st, destRoot);
      && r.events == st.events && r.processed == st.processed && r.polls == st.polls
      && (r.logs == st.logs || r.logs == st.logs + [CreatedFolder(destRoot)])
      && (r.logs == st.logs + [CreatedFolder(destRoot)] <==> destRoot !in st.fs && r.error.None?)
      && (r.error.None? ==> destRoot in r.fs)
      && (destRoot in st.fs ==> r == st)
      && (WellFormed(st.fs) ==> (r.error.Some? <==> destRoot !in st.fs && BlockedByFile(st.fs, destRoot)))
  {
    if WellFormed(st.fs) {
      WithDirsFails(st.fs, destRoot);
    }
  }

  /** The entry a log line says the merge wrote. */
  predicate Writes(e: LogEntry)
  {
    e.CreatedFolder? || e.CopiedFile? || e.CopiedFileWithRename?
  }

  function Written(e: LogEntry): Path
    requires Writes(e)
  {
    if e.CreatedFolder? then e.path else e.target
  }

  /** Copying one file never overwrites: it writes one entry that did not
      exist, inside the destination directory, holding the source's bytes;
      under the file's own name exactly when that name was free. It fails
      exactly when the source is unreadable or the destination directory is
      not a directory. */
  lemma FileStepNeverOverwrites(st: Run, folder: Path, root: Path, destRoot: Path, f: SourceFile)
    requires st.error.None?
    ensures var r := FileStep(st, folder, root, destRoot, f);
      var dst := Join(destRoot, [f.name]);
      && (r.error.None? <==> f.readable && destRoot in st.fs && st.fs[destRoot] == Directory)
      && (r.error.Some? ==> r.fs == st.fs && r.logs == st.logs && r.events == st.events && r.processed == st.processed)
      && (r.error.None? ==>
            && |r.logs| == |st.logs| + 1 && r.logs[..|st.logs|] == st.logs
            && var e := r.logs[|st.logs|];
            && (e.CopiedFile? || e.CopiedFileWithRename?)
            && e.source == Join(root, [f.name])
            && (e.CopiedFile? <==> dst !in st.fs)
            && (e.CopiedFile? ==> e.target == dst)
            && e.target !in st.fs
            && e.target != [] && Parent(e.target) == destRoot
            && r.fs == st.fs[e.target := File(f.data)]
            && r.processed == st.processed + 1)
  {
    var dst := Join(destRoot, [f.name]);
    var t := Resolved(st.fs, destRoot, f.name);
    assert Parent(dst) == destRoot;
    var (base, ext) := SplitExt(f.name);
    assert t == destRoot + [Candidate(base, ext, FirstFreeFrom(st.fs, destRoot, base, ext, 1))];
    assert Parent(t) == destRoot;
  }

  // ---------------------------------------------------------------------
  // Nothing is ever written twice or over an existing entry.

  /** Every line the run from `a` to `b` appended names an entry it wrote:
      one that did not exist at `a` and exists at `b`, and no two lines
      name the same entry. */
  ghost predicate FreshWrites(a: Run, b: Run)
  {
    && (forall i :: |a.logs| <= i < |b.logs| ==>
          Writes(b.logs[i]) && Written(b.logs[i]) !in a.fs && Written(b.logs[i]) in b.fs)
    && (forall i, j :: |a.logs| <= i < j < |b.logs| && Writes(b.logs[i]) && Writes(b.logs[j]) ==>
          Written(b.logs[i]) != Written(b.logs[j]))
  }

  lemma FreshWritesCompose(a: Run, b: Run, c: Run)
    requires Progressed(a, b) && Progressed(b, c) && FreshWrites(a, b) && FreshWrites(b, c)
    ensures Progressed(a, c) && FreshWrites(a, c)
  {
    forall i | |a.logs| <= i < |b.logs|
      ensures c.logs[i] == b.logs[i]
    {
    }
  }

  lemma FileStepFresh(st: Run, folder: Path, root: Path, destRoot: Path, f: SourceFile)
    ensures FreshWrites(st, FileStep(st, folder, root, destRoot, f))
  {
    if st.error.None? {
      FileStepNeverOverwrites(st, folder, root, destRoot, f);
    }
  }

  lemma {:induction false} CopyFilesFresh(st: Run, cancel: Schedule, folder: Path, root: Path, destRoot: Path, files: seq<SourceFile>)
    ensures FreshWrites(st, CopyFiles(st, cancel, folder, root, destRoot, files))
    decreases |files|
  {
    if st.error.None? && files != [] && !cancel(st.polls) {
      var s1 := FileStep(Poll(st), folder, root, destRoot, files[0]);
      FileStepProgresses(Poll(st), folder, root, destRoot, files[0]);
      FileStepFresh(Poll(st), folder, root, destRoot, files[0]);
      CopyFilesProgresses(s1, cancel, folder, root, destRoot, files[1..]);
      CopyFilesFresh(s1, cancel, folder, root, destRoot, files[1..]);
      FreshWritesCompose(Poll(st), s1, CopyFiles(s1, cancel, folder, root, destRoot, files[1..]));
    }
  }

  lemma DirStepFresh(st: Run, cancel: Schedule, folder: Path, dest: Path, v: Visit)
    ensures FreshWrites(st, DirStep(st, cancel, folder, dest, v))
  {
    var root := Join(folder, v.rel);
    var destRoot := DestRoot(folder, dest, v);
    var s1 := EnsureDir(st, destRoot);
    EnsureDirProgresses(st, destRoot);
    if st.error.None? {
      EnsureDirLogsCreation(st, destRoot);
    }
    assert FreshWrites(st, s1);
    if s1.error.None? {
      var s2 := Advance(s1, FolderItem, root, folder);
      CopyFilesProgresses(s2, cancel, folder, root, destRoot, v.files);
      CopyFilesFresh(s2, cancel, folder, root, destRoot, v.files);
      FreshWritesCompose(st, s2, CopyFiles(s2, cancel, folder, root, destRoot, v.files));
    }
  }

  lemma {:induction false} WalkLoopFresh(st: Run, cancel: Schedule, folder: Path, dest: Path, visits: seq<Visit>)
    ensures FreshWrites(st, WalkLoop(st, cancel, folder, dest, visits))
    decreases |visits|
  {
    if st.error.None? && visits != [] && !cancel(st.polls) {
      var s1 := DirStep(Poll(st), cancel, folder, dest, visits[0]);
      DirStepProgresses(Poll(st), cancel, folder, dest, visits[0]);
      DirStepFresh(Poll(st), cancel, folder, dest, visits[0]);
      WalkLoopProgresses(s1, cancel, folder, dest, visits[1..]);
      WalkLoopFresh(s1, cancel, folder, dest, visits[1..]);
      FreshWritesCompose(Poll(st), s1, WalkLoop(s1, cancel, folder, dest, visits[1..]));
    }
  }

  lemma {:induction false} SourcesLoopFresh(st: Run, cancel: Schedule, dest: Path, sources: seq<Source>)
    ensures FreshWrites(st, SourcesLoop(st, cancel, dest, sources))
    decreases |sources|
  {
    if st.error.None? && sources != [] && !cancel(st.polls) {
      var walk := Walk(sources[0].tree, []);
      var s1 := WalkLoop(Poll(st), cancel, sources[0].root, dest, walk);
      WalkLoopProgresses(Poll(st), cancel, sources[0].root, dest, walk);
      WalkLoopFresh(Poll(st), cancel, sources[0].root, dest, walk);
      SourcesLoopProgresses(s1, cancel, dest, sources[1..]);
      SourcesLoopFresh(s1, cancel, dest, sources[1..]);
      FreshWritesCompose(Poll(st), s1, SourcesLoop(s1, cancel, dest, sources[1..]));
    }
  }

  /** A merge never overwrites: every line it logs is a "Created folder" or
      a copy whose entry did not exist before the merge and exists after
      it, no two lines name the same entry, and every entry that existed
      before is unchanged. */
  lemma MergeNeverOverwrites(fs: FileSystem, logs: seq<LogEntry>, events: seq<ProgressEvent>, polls: nat,
                             cancel: Schedule, sources: seq<Source>, dest: Path)
    ensures var r := Merge(fs, logs, events, polls, cancel, sources, dest);
      && logs <= r.logs
      && Extends(fs, r.fs)
      && (forall i :: |logs| <= i < |r.logs| ==> Writes(r.logs[i]) && Written(r.logs[i]) !in fs && Written(r.logs[i]) in r.fs)
      && (forall i, j :: |logs| <= i < j < |r.logs| && Writes(r.logs[i]) && Writes(r.logs[j]) ==>
            Written(r.logs[i]) != Written(r.logs[j]))
  {
    var st := Run(fs, logs, events, 0, polls, None);
    SourcesLoopProgresses(st, cancel, dest, sources);
    SourcesLoopFresh(st, cancel, dest, sources);
  }

  // ---------------------------------------------------------------------
  // Once the flag is seen set (or an error aborted the run), the loops
  // around do nothing more than poll it once.

  lemma WalkLoopInert(st: Run, cancel: Schedule, folder: Path, dest: Path, visits: seq<Visit>)
    requires Monotone(cancel) && Halted(st, cancel)
    ensures var r := WalkLoop(st, cancel, folder, dest, visits);
      Agree(st, r) && Halted(r, cancel) && r.polls <= st.polls + 1
  {
    if st.error.None? && visits != [] {
      assert cancel(st.polls - 1);
    }
  }

  lemma SourcesLoopInert(st: Run, cancel: Schedule, dest: Path, sources: seq<Source>)
    requires Monotone(cancel) && Halted(st, cancel)
    ensures var r := SourcesLoop(st, cancel, dest, sources);
      Agree(st, r) && Halted(r, cancel) && r.polls <= st.polls + 1
  {
    if st.error.None? && sources != [] {
      assert cancel(st.polls - 1);
    }
  }
}
