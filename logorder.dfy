/**
 * The order of the log. Every line a merge appends stands for one of its
 * progress reports, and the lines come in the order of those reports: a
 * "Copied file" line (with or without rename) stands for the report of the
 * file it copied, and every reported file has exactly one; a "Created
 * folder" line stands for the report of the walked directory that maps onto
 * it, and a directory whose destination already existed has none. Since
 * the reports follow the walk (module Reports), so does the log: a
 * directory's "Created folder" line comes before the lines of its files.
 */
module LogOrder {
  import opened Wrappers
  import opened Paths
  import opened Storage
  import opened Sources
  import opened Engine
  import opened EngineProperties
  import opened Reports

  /** What a log line or a report is about. */
  datatype Key = DirKey(dir: Path) | FileKey(source: Path) | NoKey

  function LogKey(e: LogEntry): Key
  {
    match e
    case CreatedFolder(p) => DirKey(p)
    case CopiedFile(s, _) => FileKey(s)
    case CopiedFileWithRename(s, _) => FileKey(s)
    case _ => NoKey
  }

  /** A reported directory stands for the destination directory it maps
      onto, a reported file for its source path. */
  function ItemKey(it: Item, dest: Path): Key
  {
    if it.kind == FolderItem then DirKey(MapDest(dest, RelPath(it.path, it.folder)))
    else FileKey(it.path)
  }

  function EventItem(e: ProgressEvent): Item
  {
    Item(e.kind, e.path, e.folder)
  }

  function LogKeys(logs: seq<LogEntry>): seq<Key>
  {
    seq(|logs|, i requires 0 <= i < |logs| => LogKey(logs[i]))
  }

  function ItemKeys(items: seq<Item>, dest: Path): seq<Key>
  {
    seq(|items|, i requires 0 <= i < |items| => ItemKey(items[i], dest))
  }

  function EventKeys(events: seq<ProgressEvent>, dest: Path): seq<Key>
  {
    seq(|events|, i requires 0 <= i < |events| => ItemKey(EventItem(events[i]), dest))
  }

  /** `l` is `e` with some directory keys left out. */
  ghost predicate Embeds(l: seq<Key>, e: seq<Key>)
    decreases |e|
  {
    if e == [] then l == []
    else
      || (e[0].DirKey? && Embeds(l, e[1..]))
      || (l != [] && l[0] == e[0] && Embeds(l[1..], e[1..]))
  }

  lemma {:induction false} EmbedsConcat(l1: seq<Key>, e1: seq<Key>, l2: seq<Key>, e2: seq<Key>)
    requires Embeds(l1, e1) && Embeds(l2, e2)
    ensures Embeds(l1 + l2, e1 + e2)
    decreases |e1|
  {
    if e1 == [] {
      assert l1 + l2 == l2 && e1 + e2 == e2;
    } else {
      assert (e1 + e2)[0] == e1[0] && (e1 + e2)[1..] == e1[1..] + e2;
      if e1[0].DirKey? && Embeds(l1, e1[1..]) {
        EmbedsConcat(l1, e1[1..], l2, e2);
      } else {
        assert (l1 + l2)[0] == l1[0] && (l1 + l2)[1..] == l1[1..] + l2;
        EmbedsConcat(l1[1..], e1[1..], l2, e2);
      }
    }
  }

  /** The source paths of the file keys, in order. */
  function Files(ks: seq<Key>): seq<Path>
    decreases |ks|
  {
    if ks == [] then [] else (if ks[0].FileKey? then [ks[0].source] else []) + Files(ks[1..])
  }

  /** Leaving out directory keys keeps every file key, in order. */
  lemma {:induction false} EmbedsKeepsFiles(l: seq<Key>, e: seq<Key>)
    requires Embeds(l, e)
    ensures Files(l) == Files(e)
    decreases |e|
  {
    if e != [] {
      if e[0].DirKey? && Embeds(l, e[1..]) {
        EmbedsKeepsFiles(l, e[1..]);
      } else {
        EmbedsKeepsFiles(l[1..], e[1..]);
      }
    }
  }

  /** From `a` to `r` the log and the reports only grew, and the new lines
      stand for the new reports, in their order. */
  ghost predicate Journaled(a: Run, r: Run, dest: Path)
  {
    && a.logs <= r.logs && a.events <= r.events
    && Embeds(LogKeys(r.logs[|a.logs|..]), EventKeys(r.events[|a.events|..], dest))
  }

  lemma JournaledStill(a: Run, r: Run, dest: Path)
    requires r.logs == a.logs && r.events == a.events
    ensures Journaled(a, r, dest)
  {
    assert LogKeys(r.logs[|a.logs|..]) == [];
    assert EventKeys(r.events[|a.events|..], dest) == [];
  }

  lemma KeysConcat(l1: seq<LogEntry>, l2: seq<LogEntry>, e1: seq<ProgressEvent>, e2: seq<ProgressEvent>, dest: Path)
    ensures LogKeys(l1 + l2) == LogKeys(l1) + LogKeys(l2)
    ensures EventKeys(e1 + e2, dest) == EventKeys(e1, dest) + EventKeys(e2, dest)
  {
  }

  lemma JournaledCompose(a: Run, b: Run, c: Run, dest: Path)
    requires Journaled(a, b, dest) && Journaled(b, c, dest)
    ensures Journaled(a, c, dest)
  {
    var l1, l2 := b.logs[|a.logs|..], c.logs[|b.logs|..];
    var e1, e2 := b.events[|a.events|..], c.events[|b.events|..];
    assert c.logs[|a.logs|..] == l1 + l2;
    assert c.events[|a.events|..] == e1 + e2;
    KeysConcat(l1, l2, e1, e2, dest);
    EmbedsConcat(LogKeys(l1), EventKeys(e1, dest), LogKeys(l2), EventKeys(e2, dest));
  }

  /** One new line standing for one new report. */
  lemma JournaledOne(a: Run, r: Run, line: LogEntry, event: ProgressEvent, dest: Path)
    requires r.logs == a.logs + [line] && r.events == a.events + [event]
    requires LogKey(line) == ItemKey(EventItem(event), dest)
    ensures Journaled(a, r, dest)
  {
    assert r.logs[|a.logs|..] == [line];
    assert r.events[|a.events|..] == [event];
    var k := LogKey(line);
    assert Embeds([], []);
    assert [k][1..] == [];
  }

  /** A file step logs the copy of the file it reports. */
  lemma FileStepJournaled(st: Run, folder: Path, root: Path, destRoot: Path, f: SourceFile, dest: Path)
    requires st.error.None?
    ensures Journaled(st, FileStep(st, folder, root, destRoot, f), dest)
  {
    var r := FileStep(st, folder, root, destRoot, f);
    FileStepNeverOverwrites(st, folder, root, destRoot, f);
    if r.error.Some? {
      JournaledStill(st, r, dest);
    } else {
      var src := Join(root, [f.name]);
      JournaledOne(st, r, r.logs[|st.logs|], ProgressEvent(FileItem, src, folder, st.processed + 1), dest);
    }
  }

  lemma {:induction false} CopyFilesJournaled(st: Run, cancel: Schedule, folder: Path, root: Path, destRoot: Path,
                                             files: seq<SourceFile>, dest: Path)
    ensures Journaled(st, CopyFiles(st, cancel, folder, root, destRoot, files), dest)
    decreases |files|
  {
    var r := CopyFiles(st, cancel, folder, root, destRoot, files);
    if st.error.Some? || files == [] || cancel(st.polls) {
      JournaledStill(st, r, dest);
    } else {
      var s1 := FileStep(Poll(st), folder, root, destRoot, files[0]);
      FileStepJournaled(Poll(st), folder, root, destRoot, files[0], dest);
      JournaledStill(st, Poll(st), dest);
      JournaledCompose(st, Poll(st), s1, dest);
      CopyFilesJournaled(s1, cancel, folder, root, destRoot, files[1..], dest);
      JournaledCompose(st, s1, r, dest);
    }
  }

  /** A walked directory logs its creation, if any, then its files' copies,
      as it reports the directory and then its files. */
  lemma DirStepJournaled(st: Run, cancel: Schedule, folder: Path, dest: Path, v: Visit)
    requires st.error.None?
    ensures Journaled(st, DirStep(st, cancel, folder, dest, v), dest)
  {
    var root := Join(folder, v.rel);
    var destRoot := DestRoot(folder, dest, v);
    var s1 := EnsureDir(st, destRoot);
    EnsureDirLogsCreation(st, destRoot);
    if s1.error.Some? {
      JournaledStill(st, s1, dest);
    } else {
      var s2 := Advance(s1, FolderItem, root, folder);
      var event := ProgressEvent(FolderItem, root, folder, s2.processed);
      assert s2.events == st.events + [event];
      assert ItemKey(EventItem(event), dest) == DirKey(destRoot);
      if s1.logs == st.logs {
        assert s2.logs[|st.logs|..] == [];
        assert s2.events[|st.events|..] == [event];
        assert EventKeys([event], dest) == [DirKey(destRoot)];
        assert Embeds([], [DirKey(destRoot)]) by {
          assert [DirKey(destRoot)][1..] == [];
        }
      } else {
        JournaledOne(st, s2, CreatedFolder(destRoot), event, dest);
      }
      CopyFilesJournaled(s2, cancel, folder, root, destRoot, v.files, dest);
      JournaledCompose(st, s2, DirStep(st, cancel, folder, dest, v), dest);
    }
  }

  lemma {:induction false} WalkLoopJournaled(st: Run, cancel: Schedule, folder: Path, dest: Path, visits: seq<Visit>)
    ensures Journaled(st, WalkLoop(st, cancel, folder, dest, visits), dest)
    decreases |visits|
  {
    var r := WalkLoop(st, cancel, folder, dest, visits);
    if st.error.Some? || visits == [] || cancel(st.polls) {
      JournaledStill(st, r, dest);
    } else {
      var s1 := DirStep(Poll(st), cancel, folder, dest, visits[0]);
      DirStepJournaled(Poll(st), cancel, folder, dest, visits[0]);
      JournaledStill(st, Poll(st), dest);
      JournaledCompose(st, Poll(st), s1, dest);
      WalkLoopJournaled(s1, cancel, folder, dest, visits[1..]);
      JournaledCompose(st, s1, r, dest);
    }
  }

  lemma {:induction false} SourcesLoopJournaled(st: Run, cancel: Schedule, dest: Path, sources: seq<Source>)
    ensures Journaled(st, SourcesLoop(st, cancel, dest, sources), dest)
    decreases |sources|
  {
    var r := SourcesLoop(st, cancel, dest, sources);
    if st.error.Some? || sources == [] || cancel(st.polls) {
      JournaledStill(st, r, dest);
    } else {
      var walk := Walk(sources[0].tree, []);
      var s1 := WalkLoop(Poll(st), cancel, sources[0].root, dest, walk);
      WalkLoopJournaled(Poll(st), cancel, sources[0].root, dest, walk);
      JournaledStill(st, Poll(st), dest);
      JournaledCompose(st, Poll(st), s1, dest);
      SourcesLoopJournaled(s1, cancel, dest, sources[1..]);
      JournaledCompose(st, s1, r, dest);
    }
  }

  /** For any flag schedule: the lines a merge appends stand for its new
      reports in the same order, with one copy line per reported file. */
  lemma MergeLogsFollowReports(fs: FileSystem, logs: seq<LogEntry>, events: seq<ProgressEvent>, polls: nat,
                               cancel: Schedule, sources: seq<Source>, dest: Path)
    ensures var r := Merge(fs, logs, events, polls, cancel, sources, dest);
      && logs <= r.logs && events <= r.events
      && Embeds(LogKeys(r.logs[|logs|..]), EventKeys(r.events[|events|..], dest))
      && Files(LogKeys(r.logs[|logs|..])) == Files(EventKeys(r.events[|events|..], dest))
  {
    var r := Merge(fs, logs, events, polls, cancel, sources, dest);
    SourcesLoopJournaled(Run(fs, logs, events, 0, polls, None), cancel, dest, sources);
    EmbedsKeepsFiles(LogKeys(r.logs[|logs|..]), EventKeys(r.events[|events|..], dest));
  }

  lemma NumberedKeys(items: seq<Item>, n: nat, dest: Path)
    ensures EventKeys(Numbered(items, n), dest) == ItemKeys(items, dest)
  {
    forall k | 0 <= k < |items|
      ensures EventKeys(Numbered(items, n), dest)[k] == ItemKeys(items, dest)[k]
    {
      NumberedAt(items, n, k);
    }
  }

  /** With a flag that stays set once set, the lines a merge appends follow
      the walk: they are the keys of the first `processed` items of the
      sources, in walk order, with the directories whose destination
      already existed left out; the copy lines name exactly the reported
      files, in walk order. */
  lemma MergeLogsInOrder(fs: FileSystem, logs: seq<LogEntry>, events: seq<ProgressEvent>, polls: nat,
                         cancel: Schedule, sources: seq<Source>, dest: Path)
    requires Monotone(cancel)
    ensures var r := Merge(fs, logs, events, polls, cancel, sources, dest);
      && logs <= r.logs
      && r.processed <= |SourceItems(sources)|
      && Embeds(LogKeys(r.logs[|logs|..]), ItemKeys(SourceItems(sources)[..r.processed], dest))
      && Files(LogKeys(r.logs[|logs|..])) == Files(ItemKeys(SourceItems(sources)[..r.processed], dest))
  {
    var r := Merge(fs, logs, events, polls, cancel, sources, dest);
    MergeLogsFollowReports(fs, logs, events, polls, cancel, sources, dest);
    MergeReportsInOrder(fs, logs, events, polls, cancel, sources, dest);
    var items := SourceItems(sources)[..r.processed];
    assert r.events[|events|..] == Numbered(items, 0);
    NumberedKeys(items, 0, dest);
  }
}
