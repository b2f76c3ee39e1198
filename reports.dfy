/**
 * What the progress reports say: every walked directory and every copied
 * file is reported once, in walk order, with the running count 1, 2, 3, ...;
 * a run the flag does not stop reports exactly as many items as the preview
 * counted.
 */
module Reports {
  import opened Wrappers
  import opened Paths
  import opened Storage
  import opened Sources
  import opened Engine
  import opened EngineProperties

  /** One item the merge reports, without its count. */
  datatype Item = Item(kind: ItemKind, path: Path, folder: Path)

  /** The reports for `items` when `n` items were processed before. */
  function Numbered(items: seq<Item>, n: nat): (r: seq<ProgressEvent>)
    ensures |r| == |items|
    decreases |items|
  {
    if items == [] then []
    else [ProgressEvent(items[0].kind, items[0].path, items[0].folder, n + 1)] + Numbered(items[1..], n + 1)
  }

  /** The k-th report carries the k-th item and the count `n + k + 1`. */
  lemma {:induction false} NumberedAt(items: seq<Item>, n: nat, k: nat)
    requires k < |items|
    ensures Numbered(items, n)[k] == ProgressEvent(items[k].kind, items[k].path, items[k].folder, n + k + 1)
    decreases k
  {
    if k > 0 {
      NumberedAt(items[1..], n + 1, k - 1);
    }
  }

  lemma {:induction false} NumberedConcat(a: seq<Item>, b: seq<Item>, n: nat)
    ensures Numbered(a + b, n) == Numbered(a, n) + Numbered(b, n + |a|)
    decreases |a|
  {
    if a == [] {
      assert a + b == b;
    } else {
      var e := ProgressEvent(a[0].kind, a[0].path, a[0].folder, n + 1);
      assert (a + b)[0] == a[0] && (a + b)[1..] == a[1..] + b;
      assert Numbered(a + b, n) == [e] + Numbered(a[1..] + b, n + 1);
      NumberedConcat(a[1..], b, n + 1);
      assert Numbered(a, n) == [e] + Numbered(a[1..], n + 1);
    }
  }

  /** The files of one directory, in listing order. */
  function FileItems(root: Path, folder: Path, files: seq<SourceFile>): seq<Item>
    decreases |files|
  {
    if files == [] then []
    else [Item(FileItem, Join(root, [files[0].name]), folder)] + FileItems(root, folder, files[1..])
  }

  /** A walked directory, then its files. */
  function VisitItems(folder: Path, v: Visit): seq<Item>
  {
    [Item(FolderItem, Join(folder, v.rel), folder)] + FileItems(Join(folder, v.rel), folder, v.files)
  }

  function WalkItems(folder: Path, visits: seq<Visit>): seq<Item>
    decreases |visits|
  {
    if visits == [] then [] else VisitItems(folder, visits[0]) + WalkItems(folder, visits[1..])
  }

  /** Everything a merge of `sources` reports when nothing stops it. */
  function SourceItems(sources: seq<Source>): seq<Item>
    decreases |sources|
  {
    if sources == [] then []
    else WalkItems(sources[0].root, Walk(sources[0].tree, [])) + SourceItems(sources[1..])
  }

  /** The first `k` of `a + b` are the first `k` of `a`, or all of `a`
      followed by the first `k - |a|` of `b`. */
  lemma NumberedPrefix(a: seq<Item>, b: seq<Item>, n: nat, k: nat)
    requires k <= |a| + |b|
    ensures k <= |a| ==> Numbered((a + b)[..k], n) == Numbered(a[..k], n)
    ensures |a| <= k ==> Numbered((a + b)[..k], n) == Numbered(a, n) + Numbered(b[..k - |a|], n + |a|)
  {
    if k <= |a| {
      assert (a + b)[..k] == a[..k];
    } else {
      assert (a + b)[..k] == a + b[..k - |a|];
      NumberedConcat(a, b[..k - |a|], n);
    }
  }

  lemma NumberedPast(before: seq<ProgressEvent>, a: seq<Item>, b: seq<Item>, n: nat, j: nat)
    requires j <= |b|
    ensures (before + Numbered(a, n)) + Numbered(b[..j], n + |a|) == before + Numbered((a + b)[..|a| + j], n)
  {
    assert (a + b)[..|a| + j] == a + b[..j];
    NumberedConcat(a, b[..j], n);
  }

  /** The run from `a` to `r` reported the first `r.processed - a.processed`
      of `items`, numbered on from `a.processed`; unless it halted, it
      reported all of them. */
  ghost predicate Reported(a: Run, r: Run, items: seq<Item>, cancel: Schedule)
  {
    && a.processed <= r.processed <= a.processed + |items|
    && r.events == a.events + Numbered(items[..r.processed - a.processed], a.processed)
    && (Halted(r, cancel) || r.processed == a.processed + |items|)
  }

  /** Reporting `head` and then a prefix of `rest` is reporting a prefix of
      `head + rest`. */
  lemma ReportedCompose(a: Run, b: Run, r: Run, head: seq<Item>, rest: seq<Item>, cancel: Schedule)
    requires b.processed == a.processed + |head| && b.events == a.events + Numbered(head, a.processed)
    requires Reported(b, r, rest, cancel)
    ensures Reported(a, r, head + rest, cancel)
  {
    var j := r.processed - b.processed;
    NumberedPast(a.events, head, rest, a.processed, j);
    ReportedIntro(a, r, head + rest, |head| + j, cancel);
  }

  lemma ReportedIntro(a: Run, r: Run, items: seq<Item>, k: nat, cancel: Schedule)
    requires a.processed + k == r.processed && k <= |items|
    requires r.events == a.events + Numbered(items[..k], a.processed)
    requires Halted(r, cancel) || k == |items|
    ensures Reported(a, r, items, cancel)
  {
  }

  /** Reporting a prefix of `head` is reporting a prefix of `head + rest`
      when the run halted. */
  lemma ReportedHalted(a: Run, r: Run, head: seq<Item>, rest: seq<Item>, cancel: Schedule)
    requires Reported(a, r, head, cancel) && Halted(r, cancel)
    ensures Reported(a, r, head + rest, cancel)
  {
    NumberedPrefix(head, rest, a.processed, r.processed - a.processed);
  }

  /** One step of a loop: `head` reported up to `s1`; from there either
      nothing more (the run had halted) or a prefix of `rest`. */
  lemma ReportedStep(st: Run, s1: Run, r: Run, head: seq<Item>, rest: seq<Item>, cancel: Schedule)
    requires Reported(Poll(st), s1, head, cancel)
    requires Halted(s1, cancel) ==> Agree(s1, r) && Halted(r, cancel)
    requires !Halted(s1, cancel) ==> Reported(s1, r, rest, cancel)
    ensures Reported(st, r, head + rest, cancel)
  {
    var a := Poll(st);
    if Halted(s1, cancel) {
      ReportedHalted(a, s1, head, rest, cancel);
    } else {
      assert head[..|head|] == head;
      ReportedCompose(a, s1, r, head, rest, cancel);
    }
  }

  lemma {:induction false} CopyFilesReported(st: Run, cancel: Schedule, folder: Path, root: Path, destRoot: Path, files: seq<SourceFile>)
    ensures Reported(st, CopyFiles(st, cancel, folder, root, destRoot, files), FileItems(root, folder, files), cancel)
    decreases |files|
  {
    var items := FileItems(root, folder, files);
    if st.error.None? && files != [] && !cancel(st.polls) {
      var s1 := FileStep(Poll(st), folder, root, destRoot, files[0]);
      FileStepNeverOverwrites(Poll(st), folder, root, destRoot, files[0]);
      if s1.error.None? {
        CopyFilesReported(s1, cancel, folder, root, destRoot, files[1..]);
        ReportedCompose(st, s1, CopyFiles(s1, cancel, folder, root, destRoot, files[1..]),
                        [items[0]], FileItems(root, folder, files[1..]), cancel);
      } else {
        assert items[..0] == [];
      }
    } else {
      assert items[..0] == [];
    }
  }

  lemma DirStepReported(st: Run, cancel: Schedule, folder: Path, dest: Path, v: Visit)
    ensures Reported(st, DirStep(st, cancel, folder, dest, v), VisitItems(folder, v), cancel)
  {
    var root := Join(folder, v.rel);
    var destRoot := DestRoot(folder, dest, v);
    var items := VisitItems(folder, v);
    assert items[..0] == [];
    if st.error.None? {
      var s1 := EnsureDir(st, destRoot);
      EnsureDirLogsCreation(st, destRoot);
      if s1.error.None? {
        var s2 := Advance(s1, FolderItem, root, folder);
        CopyFilesReported(s2, cancel, folder, root, destRoot, v.files);
        ReportedCompose(st, s2, CopyFiles(s2, cancel, folder, root, destRoot, v.files),
                        [items[0]], FileItems(root, folder, v.files), cancel);
      }
    }
  }

  lemma {:induction false} WalkLoopReported(st: Run, cancel: Schedule, folder: Path, dest: Path, visits: seq<Visit>)
    requires Monotone(cancel)
    ensures Reported(st, WalkLoop(st, cancel, folder, dest, visits), WalkItems(folder, visits), cancel)
    decreases |visits|
  {
    assert WalkItems(folder, visits)[..0] == [];
    if st.error.None? && visits != [] && !cancel(st.polls) {
      var head := VisitItems(folder, visits[0]);
      var rest := WalkItems(folder, visits[1..]);
      var s1 := DirStep(Poll(st), cancel, folder, dest, visits[0]);
      var r1 := WalkLoop(s1, cancel, folder, dest, visits[1..]);
      assert WalkLoop(st, cancel, folder, dest, visits) == r1;
      assert WalkItems(folder, visits) == head + rest;
      DirStepReported(Poll(st), cancel, folder, dest, visits[0]);
      if Halted(s1, cancel) {
        WalkLoopInert(s1, cancel, folder, dest, visits[1..]);
      } else {
        WalkLoopReported(s1, cancel, folder, dest, visits[1..]);
      }
      ReportedStep(st, s1, r1, head, rest, cancel);
    }
  }

  lemma {:induction false} SourcesLoopReported(st: Run, cancel: Schedule, dest: Path, sources: seq<Source>)
    requires Monotone(cancel)
    ensures Reported(st, SourcesLoop(st, cancel, dest, sources), SourceItems(sources), cancel)
    decreases |sources|
  {
    assert SourceItems(sources)[..0] == [];
    if st.error.None? && sources != [] && !cancel(st.polls) {
      var walk := Walk(sources[0].tree, []);
      var head := WalkItems(sources[0].root, walk);
      var rest := SourceItems(sources[1..]);
      var s1 := WalkLoop(Poll(st), cancel, sources[0].root, dest, walk);
      var r1 := SourcesLoop(s1, cancel, dest, sources[1..]);
      assert SourcesLoop(st, cancel, dest, sources) == r1;
      assert SourceItems(sources) == head + rest;
      WalkLoopReported(Poll(st), cancel, sources[0].root, dest, walk);
      if Halted(s1, cancel) {
        SourcesLoopInert(s1, cancel, dest, sources[1..]);
      } else {
        SourcesLoopReported(s1, cancel, dest, sources[1..]);
      }
      ReportedStep(st, s1, r1, head, rest, cancel);
    }
  }

  /** A merge reports, in walk order, the first `processed` of its items,
      each with the count of items processed so far including itself; when
      neither the flag nor an error stopped it, it reported every directory
      and every file of every source. */
  lemma MergeReportsInOrder(fs: FileSystem, logs: seq<LogEntry>, events: seq<ProgressEvent>, polls: nat,
                            cancel: Schedule, sources: seq<Source>, dest: Path)
    requires Monotone(cancel)
    ensures var r := Merge(fs, logs, events, polls, cancel, sources, dest);
      && r.processed <= |SourceItems(sources)|
      && r.events == events + Numbered(SourceItems(sources)[..r.processed], 0)
      && (forall k :: |events| <= k < |r.events| ==> r.events[k].processed == k - |events| + 1)
      && (Halted(r, cancel) || r.processed == |SourceItems(sources)|)
  {
    var st := Run(fs, logs, events, 0, polls, None);
    SourcesLoopReported(st, cancel, dest, sources);
    var r := Merge(fs, logs, events, polls, cancel, sources, dest);
    var items := SourceItems(sources)[..r.processed];
    forall k | |events| <= k < |r.events|
      ensures r.events[k].processed == k - |events| + 1
    {
      NumberedAt(items, 0, k - |events|);
    }
  }

  lemma {:induction false} WalkItemsCount(folder: Path, visits: seq<Visit>)
    ensures |WalkItems(folder, visits)| == |visits| + VisitsFiles(visits)
    decreases |visits|
  {
    if visits != [] {
      var v := visits[0];
      WalkItemsCount(folder, visits[1..]);
      VisitsSumsConcat([v], visits[1..]);
      assert [v] + visits[1..] == visits;
      assert [v][..0] == [];
      assert |FileItems(Join(folder, v.rel), folder, v.files)| == |v.files| by {
        FileItemsCount(Join(folder, v.rel), folder, v.files);
      }
    }
  }

  lemma {:induction false} FileItemsCount(root: Path, folder: Path, files: seq<SourceFile>)
    ensures |FileItems(root, folder, files)| == |files|
    decreases |files|
  {
    if files != [] {
      FileItemsCount(root, folder, files[1..]);
    }
  }

  /** Everything a merge reports, counted: the preview's directories plus
      its files. */
  lemma {:induction false} SourceItemsCount(sources: seq<Source>)
    ensures |SourceItems(sources)| == SourcesDirs(sources) + SourcesFiles(sources)
    decreases |sources|
  {
    if sources != [] {
      var s := sources[0];
      SourceItemsCount(sources[1..]);
      WalkItemsCount(s.root, Walk(s.tree, []));
      WalkCounts(s.tree, []);
      SourcesSumsConcat([s], sources[1..]);
      assert [s] + sources[1..] == sources;
      assert [s][..0] == [];
    }
  }

  /** How many of `items` are of `kind`. */
  function CountKind(items: seq<Item>, kind: ItemKind): nat
    decreases |items|
  {
    if items == [] then 0 else (if items[0].kind == kind then 1 else 0) + CountKind(items[1..], kind)
  }

  /** How many of `events` report an item of `kind`. */
  function CountReports(events: seq<ProgressEvent>, kind: ItemKind): nat
    decreases |events|
  {
    if events == [] then 0 else (if events[0].kind == kind then 1 else 0) + CountReports(events[1..], kind)
  }

  lemma {:induction false} CountKindConcat(a: seq<Item>, b: seq<Item>, kind: ItemKind)
    ensures CountKind(a + b, kind) == CountKind(a, kind) + CountKind(b, kind)
    decreases |a|
  {
    if a == [] {
      assert a + b == b;
    } else {
      assert (a + b)[0] == a[0] && (a + b)[1..] == a[1..] + b;
      CountKindConcat(a[1..], b, kind);
    }
  }

  /** Numbering the items keeps their kinds. */
  lemma {:induction false} NumberedKinds(items: seq<Item>, n: nat, kind: ItemKind)
    ensures CountReports(Numbered(items, n), kind) == CountKind(items, kind)
    decreases |items|
  {
    if items != [] {
      NumberedKinds(items[1..], n + 1, kind);
    }
  }

  /** The files of a directory are all file items. */
  lemma {:induction false} FileItemsKinds(root: Path, folder: Path, files: seq<SourceFile>)
    ensures CountKind(FileItems(root, folder, files), FileItem) == |files|
    ensures CountKind(FileItems(root, folder, files), FolderItem) == 0
    decreases |files|
  {
    if files != [] {
      FileItemsKinds(root, folder, files[1..]);
    }
  }

  /** A walk has one folder item per directory and one file item per file. */
  lemma {:induction false} WalkItemsKinds(folder: Path, visits: seq<Visit>)
    ensures CountKind(WalkItems(folder, visits), FolderItem) == |visits|
    ensures CountKind(WalkItems(folder, visits), FileItem) == VisitsFiles(visits)
    decreases |visits|
  {
    if visits != [] {
      var v := visits[0];
      var root := Join(folder, v.rel);
      var files := FileItems(root, folder, v.files);
      WalkItemsKinds(folder, visits[1..]);
      FileItemsKinds(root, folder, v.files);
      CountKindConcat([Item(FolderItem, root, folder)], files, FolderItem);
      CountKindConcat([Item(FolderItem, root, folder)], files, FileItem);
      CountKindConcat(VisitItems(folder, v), WalkItems(folder, visits[1..]), FolderItem);
      CountKindConcat(VisitItems(folder, v), WalkItems(folder, visits[1..]), FileItem);
      VisitsSumsConcat([v], visits[1..]);
      assert [v] + visits[1..] == visits;
      assert [v][..0] == [];
    }
  }

  /** The items of all sources: as many folder items as the preview counts
      directories, as many file items as it counts files. */
  lemma {:induction false} SourceItemsKinds(sources: seq<Source>)
    ensures CountKind(SourceItems(sources), FolderItem) == SourcesDirs(sources)
    ensures CountKind(SourceItems(sources), FileItem) == SourcesFiles(sources)
    decreases |sources|
  {
    if sources != [] {
      var s := sources[0];
      var walk := Walk(s.tree, []);
      SourceItemsKinds(sources[1..]);
      WalkItemsKinds(s.root, walk);
      WalkCounts(s.tree, []);
      CountKindConcat(WalkItems(s.root, walk), SourceItems(sources[1..]), FolderItem);
      CountKindConcat(WalkItems(s.root, walk), SourceItems(sources[1..]), FileItem);
      SourcesSumsConcat([s], sources[1..]);
      assert [s] + sources[1..] == sources;
      assert [s][..0] == [];
    }
  }

  /** Reporting every item of the sources reports the preview's directories
      as folders and its files as files. */
  lemma NumberedSourceKinds(sources: seq<Source>)
    ensures CountReports(Numbered(SourceItems(sources), 0), FolderItem) == SourcesDirs(sources)
    ensures CountReports(Numbered(SourceItems(sources), 0), FileItem) == SourcesFiles(sources)
  {
    SourceItemsKinds(sources);
    NumberedKinds(SourceItems(sources), 0, FolderItem);
    NumberedKinds(SourceItems(sources), 0, FileItem);
  }

  /** A merge that raises no error and leaves the flag clear reported every
      item, numbered 1, 2, ... */
  lemma FinishedRunReportsAll(fs: FileSystem, logs: seq<LogEntry>, events: seq<ProgressEvent>, polls: nat,
                              cancel: Schedule, sources: seq<Source>, dest: Path)
    requires Monotone(cancel)
    ensures var r := Merge(fs, logs, events, polls, cancel, sources, dest);
      r.error.None? && !cancel(r.polls) ==>
        && r.events == events + Numbered(SourceItems(sources), 0)
        && forall k :: |events| <= k < |r.events| ==> r.events[k].processed == k - |events| + 1
  {
    MergeReportsInOrder(fs, logs, events, polls, cancel, sources, dest);
    var r := Merge(fs, logs, events, polls, cancel, sources, dest);
    if r.error.None? && !cancel(r.polls) {
      if r.polls > 0 {
        assert !cancel(r.polls - 1);
      }
      var items := SourceItems(sources);
      assert items[..|items|] == items;
    }
  }

  /** With a flag nobody sets, a merge that raises no error reports every
      directory and file in walk order and its counter ends at the preview's
      `total_files + total_dirs`, so the progress bar reaches its maximum;
      it reports as many folders as the preview counted directories and as
      many files as it counted files. */
  lemma UncancelledRunMatchesPreview(fs: FileSystem, logs: seq<LogEntry>, events: seq<ProgressEvent>, polls: nat,
                                     sources: seq<Source>, dest: Path)
    ensures var r := Merge(fs, logs, events, polls, Never, sources, dest);
      r.error.None? ==>
        && r.events == events + Numbered(SourceItems(sources), 0)
        && r.processed == SourcesFiles(sources) + SourcesDirs(sources)
        && CountReports(r.events[|events|..], FolderItem) == SourcesDirs(sources)
        && CountReports(r.events[|events|..], FileItem) == SourcesFiles(sources)
  {
    MergeReportsInOrder(fs, logs, events, polls, Never, sources, dest);
    SourceItemsCount(sources);
    NumberedSourceKinds(sources);
    var items := SourceItems(sources);
    assert items[..|items|] == items;
    var r := Merge(fs, logs, events, polls, Never, sources, dest);
    if r.error.None? {
      assert r.events[|events|..] == Numbered(items, 0);
    }
  }
}
