/**
 * The source trees as `os.walk` sees them: each directory lists its files
 * and its subdirectories in the order the walk yields them. A directory
 * that cannot be listed (missing, unreadable) is skipped by the walk
 * without an error.
 */
module Sources {
  import opened Wrappers
  import opened Paths

  /** A file entry: its name, its contents, whether `os.path.getsize` can
      read its size and whether `shutil.copy2` can read it. */
  datatype SourceFile = SourceFile(name: Name, data: seq<bv8>, statable: bool, readable: bool)

  datatype DirTree =
    | Unlistable
    | Listed(files: seq<SourceFile>, subdirs: seq<Subdir>)

  datatype Subdir = Subdir(name: Name, tree: DirTree)

  /** One selected source folder: its absolute path and its contents. */
  datatype Source = Source(root: Path, tree: DirTree)

  /** One `(root, dirs, files)` triple of `os.walk`, with `root` given
      relative to the walked folder. */
  datatype Visit = Visit(rel: Path, files: seq<SourceFile>)

  /** Top-down walk: a directory first, then each subdirectory's walk in
      listing order. */
  function Walk(t: DirTree, rel: Path): (r: seq<Visit>)
    ensures t.Unlistable? <==> r == []
    ensures t.Listed? ==> r[0] == Visit(rel, t.files)
    ensures forall k :: 0 <= k < |r| ==> IsPrefix(rel, r[k].rel)
    decreases t, 1
  {
    match t
    case Unlistable => []
    case Listed(files, subdirs) => [Visit(rel, files)] + WalkSubdirs(subdirs, rel)
  }

  function WalkSubdirs(subdirs: seq<Subdir>, rel: Path): (r: seq<Visit>)
    ensures forall k :: 0 <= k < |r| ==> |rel| < |r[k].rel| && IsPrefix(rel, r[k].rel)
    decreases subdirs, 0
  {
    if subdirs == [] then []
    else Walk(subdirs[0].tree, rel + [subdirs[0].name]) + WalkSubdirs(subdirs[1..], rel)
  }

  /** `os.path.getsize`: `None` when it raises `OSError`. */
  function GetSize(f: SourceFile): Option<nat>
  {
    if f.statable then Some(|f.data|) else None
  }

  function SizeOrZero(f: SourceFile): nat
  {
    match GetSize(f)
    case Some(n) => n
    case None => 0
  }

  // Structural counts of a tree: the reference the walk-based counts are
  // checked against.

  function TreeDirs(t: DirTree): nat
    decreases t, 1
  {
    match t
    case Unlistable => 0
    case Listed(_, subdirs) => 1 + SubdirsDirs(subdirs)
  }

  function SubdirsDirs(subdirs: seq<Subdir>): nat
    decreases subdirs, 0
  {
    if subdirs == [] then 0 else TreeDirs(subdirs[0].tree) + SubdirsDirs(subdirs[1..])
  }

  function TreeFiles(t: DirTree): nat
    decreases t, 1
  {
    match t
    case Unlistable => 0
    case Listed(files, subdirs) => |files| + SubdirsFiles(subdirs)
  }

  function SubdirsFiles(subdirs: seq<Subdir>): nat
    decreases subdirs, 0
  {
    if subdirs == [] then 0 else TreeFiles(subdirs[0].tree) + SubdirsFiles(subdirs[1..])
  }

  function TreeBytes(t: DirTree): nat
    decreases t, 1
  {
    match t
    case Unlistable => 0
    case Listed(files, subdirs) => FilesBytes(files) + SubdirsBytes(subdirs)
  }

  function SubdirsBytes(subdirs: seq<Subdir>): nat
    decreases subdirs, 0
  {
    if subdirs == [] then 0 else TreeBytes(subdirs[0].tree) + SubdirsBytes(subdirs[1..])
  }

  // Sums over a sequence, taken from the back so that a loop extends them
  // one element at a time.

  /** Readable bytes of a list of files; an unreadable size counts 0. */
  function FilesBytes(files: seq<SourceFile>): nat
  {
    if files == [] then 0 else FilesBytes(files[..|files| - 1]) + SizeOrZero(files[|files| - 1])
  }

  function VisitsFiles(visits: seq<Visit>): nat
  {
    if visits == [] then 0 else VisitsFiles(visits[..|visits| - 1]) + |visits[|visits| - 1].files|
  }

  function VisitsBytes(visits: seq<Visit>): nat
  {
    if visits == [] then 0 else VisitsBytes(visits[..|visits| - 1]) + FilesBytes(visits[|visits| - 1].files)
  }

  function SourcesDirs(sources: seq<Source>): nat
  {
    if sources == [] then 0 else SourcesDirs(sources[..|sources| - 1]) + TreeDirs(sources[|sources| - 1].tree)
  }

  function SourcesFiles(sources: seq<Source>): nat
  {
    if sources == [] then 0 else SourcesFiles(sources[..|sources| - 1]) + TreeFiles(sources[|sources| - 1].tree)
  }

  function SourcesBytes(sources: seq<Source>): nat
  {
    if sources == [] then 0 else SourcesBytes(sources[..|sources| - 1]) + TreeBytes(sources[|sources| - 1].tree)
  }

  lemma {:induction false} VisitsSumsConcat(a: seq<Visit>, b: seq<Visit>)
    ensures VisitsFiles(a + b) == VisitsFiles(a) + VisitsFiles(b)
    ensures VisitsBytes(a + b) == VisitsBytes(a) + VisitsBytes(b)
    decreases |b|
  {
    if b == [] {
      assert a + b == a;
    } else {
      var b' := b[..|b| - 1];
      VisitsSumsConcat(a, b');
      assert (a + b)[..|a + b| - 1] == a + b';
    }
  }

  lemma {:induction false} SourcesSumsConcat(a: seq<Source>, b: seq<Source>)
    ensures SourcesDirs(a + b) == SourcesDirs(a) + SourcesDirs(b)
    ensures SourcesFiles(a + b) == SourcesFiles(a) + SourcesFiles(b)
    ensures SourcesBytes(a + b) == SourcesBytes(a) + SourcesBytes(b)
    decreases |b|
  {
    if b == [] {
      assert a + b == a;
    } else {
      var b' := b[..|b| - 1];
      SourcesSumsConcat(a, b');
      assert (a + b)[..|a + b| - 1] == a + b';
    }
  }

  /** The walk visits every listable directory once and yields every file
      of it once: its length, file count and readable byte count are the
      tree's. */
  lemma {:induction false} WalkCounts(t: DirTree, rel: Path)
    ensures |Walk(t, rel)| == TreeDirs(t)
    ensures VisitsFiles(Walk(t, rel)) == TreeFiles(t)
    ensures VisitsBytes(Walk(t, rel)) == TreeBytes(t)
    decreases t, 1
  {
    match t
    case Unlistable =>
    case Listed(files, subdirs) =>
      WalkSubdirsCounts(subdirs, rel);
      var head := [Visit(rel, files)];
      VisitsSumsConcat(head, WalkSubdirs(subdirs, rel));
      assert head[..0] == [];
  }

  lemma {:induction false} WalkSubdirsCounts(subdirs: seq<Subdir>, rel: Path)
    ensures |WalkSubdirs(subdirs, rel)| == SubdirsDirs(subdirs)
    ensures VisitsFiles(WalkSubdirs(subdirs, rel)) == SubdirsFiles(subdirs)
    ensures VisitsBytes(WalkSubdirs(subdirs, rel)) == SubdirsBytes(subdirs)
    decreases subdirs, 0
  {
    if subdirs != [] {
      WalkCounts(subdirs[0].tree, rel + [subdirs[0].name]);
      WalkSubdirsCounts(subdirs[1..], rel);
      VisitsSumsConcat(Walk(subdirs[0].tree, rel + [subdirs[0].name]), WalkSubdirs(subdirs[1..], rel));
    }
  }
}
