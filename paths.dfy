/**
 * Paths as lists of name components, and the mapping of a walked source
 * directory onto the destination (`os.path.relpath` followed by
 * `os.path.join`).
 */
module Paths {

  type Name = string

  /** An absolute path as its components, `[]` being the filesystem root;
      a relative path in the same form, `[]` standing for ".". */
  type Path = seq<Name>

  const ParentName: Name := ".."

  predicate IsPrefix(a: Path, b: Path)
  {
    |a| <= |b| && b[..|a|] == a
  }

  /** Neither path lies inside the other. */
  predicate Apart(a: Path, b: Path)
  {
    !IsPrefix(a, b) && !IsPrefix(b, a)
  }

  /** `os.path.join` of a directory and a relative path. */
  function Join(dir: Path, rel: Path): (r: Path)
    ensures |r| == |dir| + |rel| && r[..|dir|] == dir && r[|dir|..] == rel
  {
    dir + rel
  }

  /** Length of the longest common leading part of two paths. */
  function CommonPrefixLength(a: Path, b: Path): (n: nat)
    ensures n <= |a| && n <= |b|
    ensures a[..n] == b[..n]
    ensures n < |a| && n < |b| ==> a[n] != b[n]
  {
    if a == [] || b == [] || a[0] != b[0] then 0
    else
      var m := CommonPrefixLength(a[1..], b[1..]);
      assert a[..m + 1] == [a[0]] + a[1..][..m];
      assert b[..m + 1] == [b[0]] + b[1..][..m];
      m + 1
  }

  /** `n` parent steps `..`. */
  function Ups(n: nat): (r: Path)
    ensures |r| == n
  {
    seq(n, _ => ParentName)
  }

  /** `os.path.relpath(path, start)` for normalised absolute paths: climb
      from `start` to the common ancestor, then descend to `path`. */
  function RelPath(path: Path, start: Path): Path
  {
    var n := CommonPrefixLength(path, start);
    Ups(|start| - n) + path[n..]
  }

  /** `relpath` of a path below `start` is what lies below `start`; any
      other path starts by climbing with "..". */
  lemma RelPathCases(path: Path, start: Path)
    ensures IsPrefix(start, path) ==> RelPath(path, start) == path[|start|..]
    ensures !IsPrefix(start, path) ==> RelPath(path, start) != [] && RelPath(path, start)[0] == ParentName
  {
    var n := CommonPrefixLength(path, start);
    if IsPrefix(start, path) {
      assert n == |start|;
    }
  }

  /** The destination directory of a walked directory whose path relative
      to the current source root is `rel` (mergefolders.py line 44). */
  function MapDest(dest: Path, rel: Path): Path
  {
    if rel == [] then dest else Join(dest, rel)
  }

  /** The mapped directory lies in the destination, `rel` below it. */
  lemma MapDestInside(dest: Path, rel: Path)
    ensures IsPrefix(dest, MapDest(dest, rel)) && MapDest(dest, rel)[|dest|..] == rel
  {
  }

  lemma RelPathOfDescendant(start: Path, rel: Path)
    ensures RelPath(Join(start, rel), start) == rel
  {
    var n := CommonPrefixLength(Join(start, rel), start);
    assert n == |start|;
  }

  /** A walked directory is mapped to the destination root itself when it
      is the source root, and otherwise to the destination joined with its
      path below the source root; different directories of one source get
      different destinations. */
  lemma MapDestReroots(folder: Path, rel: Path, dest: Path)
    ensures MapDest(dest, RelPath(Join(folder, rel), folder)) == Join(dest, rel)
    ensures rel == [] ==> MapDest(dest, RelPath(folder, folder)) == dest
  {
    RelPathOfDescendant(folder, rel);
    RelPathOfDescendant(folder, []);
    assert Join(folder, []) == folder;
    assert Join(dest, []) == dest;
  }

  lemma MapDestInjective(folder: Path, rel1: Path, rel2: Path, dest: Path)
    requires MapDest(dest, RelPath(Join(folder, rel1), folder)) == MapDest(dest, RelPath(Join(folder, rel2), folder))
    ensures rel1 == rel2
  {
    MapDestReroots(folder, rel1, dest);
    MapDestReroots(folder, rel2, dest);
    assert rel1 == Join(dest, rel1)[|dest|..];
  }
}
