/**
 * The filesystem as a map from paths to entries, with the three calls the
 * merge engine makes on it: `os.path.exists` (map membership),
 * `os.makedirs(p, exist_ok=True)` and `shutil.copy2`.
 */
module Storage {
  import opened Wrappers
  import opened Paths

  datatype Node = Directory | File(data: seq<bv8>)

  type FileSystem = map<Path, Node>

  /** The `OSError`s the calls can raise. */
  datatype IoError =
    | PermissionDenied(path: Path)   // errno 13: the source file cannot be read
    | NotADirectory(path: Path)      // errno 20: a component on the way is a file
    | NoSuchFile(path: Path)         // errno 2: the parent directory is missing

  function Parent(p: Path): Path
    requires p != []
  {
    p[..|p| - 1]
  }

  /** A filesystem is a tree: the root is a directory and every other entry
      sits in a directory. */
  ghost predicate WellFormed(fs: FileSystem)
  {
    && [] in fs && fs[[]] == Directory
    && forall p :: p in fs && p != [] ==> Parent(p) in fs && fs[Parent(p)] == Directory
  }

  /** `fs2` keeps every entry of `fs1` unchanged. */
  ghost predicate Extends(fs1: FileSystem, fs2: FileSystem)
  {
    forall p :: p in fs1 ==> p in fs2 && fs2[p] == fs1[p]
  }

  /** Some proper ancestor of `p` is a file. */
  ghost predicate BlockedByFile(fs: FileSystem, p: Path)
  {
    exists k :: 0 <= k < |p| && p[..k] in fs && fs[p[..k]].File?
  }

  /** `os.makedirs(p, exist_ok=True)`: create `p` and every missing ancestor;
      fails when an existing ancestor is a file. An existing `p` is left
      alone (the engine only calls it on a missing path). */
  function WithDirs(fs: FileSystem, p: Path): (r: Result<FileSystem, IoError>)
    ensures r.Success? ==> p in r.value
    decreases |p|
  {
    if p in fs then Success(fs)
    else if p == [] then Success(fs[p := Directory])
    else
      var q := Parent(p);
      match WithDirs(fs, q)
      case Failure(e) => Failure(e)
      case Success(fs') =>
        if fs'[q].Directory? then Success(fs'[p := Directory])
        else Failure(NotADirectory(p))
  }

  /** Creating directories keeps every existing entry and adds only
      directories on the way to `p`. */
  lemma {:induction false} WithDirsAdds(fs: FileSystem, p: Path)
    ensures WithDirs(fs, p).Success? ==> Extends(fs, WithDirs(fs, p).value)
    ensures WithDirs(fs, p).Success? ==>
      forall q :: q in WithDirs(fs, p).value && q !in fs ==> IsPrefix(q, p) && WithDirs(fs, p).value[q] == Directory
    decreases |p|
  {
    if p !in fs && p != [] {
      WithDirsAdds(fs, Parent(p));
    }
  }

  /** In a tree every ancestor of an existing entry is a directory. */
  lemma {:induction false} AncestorsAreDirectories(fs: FileSystem, p: Path, k: nat)
    requires WellFormed(fs) && p in fs && k < |p|
    ensures p[..k] in fs && fs[p[..k]] == Directory
    decreases |p| - k
  {
    var q := Parent(p);
    if k < |q| {
      AncestorsAreDirectories(fs, q, k);
      assert q[..k] == p[..k];
    } else {
      assert q == p[..k];
    }
  }

  /** A proper ancestor of `p` is a file exactly when one of its parent's
      is, or its parent itself is. */
  lemma BlockedByFileStep(fs: FileSystem, p: Path)
    requires p != []
    ensures BlockedByFile(fs, p) <==> BlockedByFile(fs, Parent(p)) || (Parent(p) in fs && fs[Parent(p)].File?)
  {
    var q := Parent(p);
    if BlockedByFile(fs, p) {
      var k :| 0 <= k < |p| && p[..k] in fs && fs[p[..k]].File?;
      assert p[..k] == q[..k];
    }
    if BlockedByFile(fs, q) {
      var k :| 0 <= k < |q| && q[..k] in fs && fs[q[..k]].File?;
      assert p[..k] == q[..k];
    }
    assert p[..|q|] == q;
  }

  lemma PresentNotBlocked(fs: FileSystem, p: Path)
    requires WellFormed(fs) && p in fs
    ensures !BlockedByFile(fs, p)
  {
    if BlockedByFile(fs, p) {
      var k :| 0 <= k < |p| && p[..k] in fs && fs[p[..k]].File?;
      AncestorsAreDirectories(fs, p, k);
    }
  }

  /** Creating the directories fails exactly when the path is missing and an
      existing ancestor is a file. */
  lemma {:induction false} WithDirsFails(fs: FileSystem, p: Path)
    requires WellFormed(fs)
    ensures WithDirs(fs, p).Failure? <==> p !in fs && BlockedByFile(fs, p)
    decreases |p|
  {
    if p !in fs && p != [] {
      var q := Parent(p);
      WithDirsFails(fs, q);
      WithDirsAdds(fs, q);
      BlockedByFileStep(fs, p);
      if q in fs {
        PresentNotBlocked(fs, q);
      }
    }
  }

  /** Creating directories keeps the filesystem a tree. */
  lemma {:induction false} WithDirsWellFormed(fs: FileSystem, p: Path)
    requires WellFormed(fs)
    ensures WithDirs(fs, p).Success? ==> WellFormed(WithDirs(fs, p).value)
    decreases |p|
  {
    if p !in fs && p != [] {
      WithDirsWellFormed(fs, Parent(p));
      WithDirsAdds(fs, Parent(p));
    }
  }

  /** `shutil.copy2(src, dst)` of a source file with contents `data` onto a
      path that does not exist yet. */
  function WithCopy(fs: FileSystem, src: Path, data: seq<bv8>, readable: bool, dst: Path): (r: Result<FileSystem, IoError>)
    requires dst !in fs
    ensures r.Success? <==> readable && dst != [] && Parent(dst) in fs && fs[Parent(dst)] == Directory
    ensures r.Success? ==> r.value == fs[dst := File(data)]
  {
    if !readable then Failure(PermissionDenied(src))
    else if dst == [] || Parent(dst) !in fs then Failure(NoSuchFile(dst))
    else if fs[Parent(dst)].File? then Failure(NotADirectory(dst))
    else Success(fs[dst := File(data)])
  }

  /** Copying keeps the filesystem a tree. */
  lemma WithCopyWellFormed(fs: FileSystem, src: Path, data: seq<bv8>, readable: bool, dst: Path)
    requires dst !in fs && WellFormed(fs)
    ensures WithCopy(fs, src, data, readable, dst).Success? ==> WellFormed(WithCopy(fs, src, data, readable, dst).value)
  {
  }

  /** The disk the merge writes to. */
  class Volume {
    var entries: FileSystem

    constructor (fs: FileSystem)
      ensures entries == fs
    {
      entries := fs;
    }

    method Exists(p: Path) returns (b: bool)
      ensures b <==> p in entries
    {
      b := p in entries;
    }

    method MakeDirs(p: Path) returns (error: Option<IoError>)
      modifies this
      ensures var r := WithDirs(old(entries), p);
        if r.Success? then error == None && entries == r.value
        else error == Some(r.error) && entries == old(entries)
    {
      var r := WithDirs(entries, p);
      if r.Success? {
        entries := r.value;
        error := None;
      } else {
        error := Some(r.error);
      }
    }

    method Copy2(src: Path, data: seq<bv8>, readable: bool, dst: Path) returns (error: Option<IoError>)
      requires dst !in entries
      modifies this
      ensures var r := WithCopy(old(entries), src, data, readable, dst);
        if r.Success? then error == None && entries == r.value
        else error == Some(r.error) && entries == old(entries)
    {
      var r := WithCopy(entries, src, data, readable, dst);
      if r.Success? {
        entries := r.value;
        error := None;
      } else {
        error := Some(r.error);
      }
    }
  }
}
