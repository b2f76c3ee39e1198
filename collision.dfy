/**
 * Collision resolution: `os.path.splitext` of the file name, then the
 * candidates `base_1ext`, `base_2ext`, ... until one is free in the
 * destination directory.
 */
module Collision {
  import opened Wrappers
  import opened Paths
  import opened Storage

  /** Index of the last '.' of `s`, as `str.rfind` finds it. */
  function LastDot(s: string): (r: Option<nat>)
    ensures r.Some? ==> r.value < |s| && s[r.value] == '.' && forall k :: r.value < k < |s| ==> s[k] != '.'
    ensures r.None? ==> forall k :: 0 <= k < |s| ==> s[k] != '.'
  {
    if s == [] then None
    else if s[|s| - 1] == '.' then Some(|s| - 1)
    else LastDot(s[..|s| - 1])
  }

  predicate AllDots(s: string)
  {
    forall k :: 0 <= k < |s| ==> s[k] == '.'
  }

  /** The name has a character other than '.' somewhere before a '.'. */
  ghost predicate HasStem(name: Name)
  {
    exists i, j :: 0 <= i < j < |name| && name[i] != '.' && name[j] == '.'
  }

  /** `os.path.splitext` of a single name: the extension runs from the last
      dot to the end, unless only dots precede that dot (`.bashrc`,
      `..x`), in which case there is no extension. */
  function SplitExt(name: Name): (r: (Name, Name))
    ensures r.0 + r.1 == name
    ensures r.1 != [] <==> HasStem(name)
    ensures r.1 != [] ==> r.1[0] == '.' && forall k :: 1 <= k < |r.1| ==> r.1[k] != '.'
  {
    match LastDot(name)
    case None => (name, [])
    case Some(d) =>
      if AllDots(name[..d]) then
        (name, [])
      else
        var i :| 0 <= i < d && name[..d][i] != '.';
        assert name[i] != '.' && name[d] == '.';
        (name[..d], name[d..])
  }

  function DigitChar(d: nat): char
    requires d < 10
  {
    "0123456789"[d]
  }

  /** Decimal rendering of a count, as `f"{i}"`. */
  function NatToString(n: nat): (s: string)
    ensures |s| >= 1 && (n >= 10 ==> |s| >= 2)
    decreases n
  {
    if n < 10 then [DigitChar(n)] else NatToString(n / 10) + [DigitChar(n % 10)]
  }

  /** The text is made of decimal digits only, the last one being `n % 10`. */
  lemma {:induction false} NatToStringDigits(n: nat)
    ensures var s := NatToString(n);
      && (forall k :: 0 <= k < |s| ==> '0' <= s[k] <= '9')
      && s[|s| - 1] == DigitChar(n % 10)
    decreases n
  {
    if n >= 10 {
      NatToStringDigits(n / 10);
    }
  }

  lemma {:induction false} NatToStringInjective(a: nat, b: nat)
    requires NatToString(a) == NatToString(b)
    ensures a == b
    decreases a
  {
    var s := NatToString(a);
    if a >= 10 && b >= 10 {
      assert NatToString(a / 10) == s[..|s| - 1] == NatToString(b / 10);
      NatToStringInjective(a / 10, b / 10);
      assert DigitChar(a % 10) == s[|s| - 1] == DigitChar(b % 10);
    } else if a < 10 && b < 10 {
      assert DigitChar(a) == DigitChar(b);
    }
  }

  /** `f"{base}_{i}{extension}"`. */
  function Candidate(base: Name, ext: Name, i: nat): Name
  {
    base + "_" + NatToString(i) + ext
  }

  /** The new name is the base, '_', the counter in decimal and the
      extension, in that order. */
  lemma CandidateLayout(base: Name, ext: Name, i: nat)
    ensures var r := Candidate(base, ext, i);
      && |r| == |base| + 1 + |NatToString(i)| + |ext|
      && r[..|base|] == base && r[|base|] == '_' && r[|r| - |ext|..] == ext
      && r[|base| + 1..|r| - |ext|] == NatToString(i)
  {
  }

  lemma CandidateInjective(base: Name, ext: Name, i: nat, j: nat)
    requires Candidate(base, ext, i) == Candidate(base, ext, j)
    ensures i == j
  {
    var c := Candidate(base, ext, i);
    var si, sj := NatToString(i), NatToString(j);
    assert |si| == |sj|;
    assert si == c[|base| + 1..|base| + 1 + |si|] == sj;
    NatToStringInjective(i, j);
  }

  /** The candidate path in `dir` whose index is `i`. */
  function CandidatePath(dir: Path, base: Name, ext: Name, i: nat): Path
  {
    dir + [Candidate(base, ext, i)]
  }

  /** A candidate lies directly in the destination directory. */
  lemma CandidatePathInDir(dir: Path, base: Name, ext: Name, i: nat)
    ensures var r := CandidatePath(dir, base, ext, i);
      r != [] && Parent(r) == dir && r[|r| - 1] == Candidate(base, ext, i)
  {
  }

  /** Existing entries that are candidates with index at least `i`: a finite
      set that shrinks each time the search passes a taken candidate. */
  ghost function TakenFrom(fs: FileSystem, dir: Path, base: Name, ext: Name, i: nat): set<Path>
  {
    set p | p in fs && exists j: nat :: i <= j && p == CandidatePath(dir, base, ext, j)
  }

  lemma TakenShrinks(fs: FileSystem, dir: Path, base: Name, ext: Name, i: nat)
    requires CandidatePath(dir, base, ext, i) in fs
    ensures TakenFrom(fs, dir, base, ext, i + 1) < TakenFrom(fs, dir, base, ext, i)
  {
    var p := CandidatePath(dir, base, ext, i);
    assert p in TakenFrom(fs, dir, base, ext, i);
    if p in TakenFrom(fs, dir, base, ext, i + 1) {
      var j: nat :| i + 1 <= j && p == CandidatePath(dir, base, ext, j);
      assert [Candidate(base, ext, i)] == p[|dir|..] == [Candidate(base, ext, j)];
      CandidateInjective(base, ext, i, j);
    }
  }

  /** The first free candidate index from `i` on. */
  function FirstFreeFrom(fs: FileSystem, dir: Path, base: Name, ext: Name, i: nat): (r: nat)
    ensures i <= r && CandidatePath(dir, base, ext, r) !in fs
    ensures forall j :: i <= j < r ==> CandidatePath(dir, base, ext, j) in fs
    decreases TakenFrom(fs, dir, base, ext, i)
  {
    if CandidatePath(dir, base, ext, i) !in fs then i
    else
      TakenShrinks(fs, dir, base, ext, i);
      FirstFreeFrom(fs, dir, base, ext, i + 1)
  }

  /** The renamed destination for `name` in `dir`. */
  function Resolved(fs: FileSystem, dir: Path, name: Name): (r: Path)
    ensures r !in fs
  {
    var (base, ext) := SplitExt(name);
    CandidatePath(dir, base, ext, FirstFreeFrom(fs, dir, base, ext, 1))
  }

  /** The rename loop of mergefolders.py lines 60-67. The chosen index is the
      smallest i >= 1 whose candidate is free. */
  method ResolveCollision(fs: FileSystem, dir: Path, name: Name) returns (i: nat, target: Path)
    ensures var (base, ext) := SplitExt(name);
      && i >= 1
      && target == CandidatePath(dir, base, ext, i)
      && target !in fs
      && (forall j :: 1 <= j < i ==> CandidatePath(dir, base, ext, j) in fs)
    ensures target == Resolved(fs, dir, name)
  {
    var (base, extension) := SplitExt(name);
    i := 1;
    var newName := Candidate(base, extension, i);
    target := Join(dir, [newName]);
    while target in fs
      invariant i >= 1 && target == CandidatePath(dir, base, extension, i)
      invariant forall j :: 1 <= j < i ==> CandidatePath(dir, base, extension, j) in fs
      invariant FirstFreeFrom(fs, dir, base, extension, i) == FirstFreeFrom(fs, dir, base, extension, 1)
      decreases TakenFrom(fs, dir, base, extension, i)
    {
      TakenShrinks(fs, dir, base, extension, i);
      i := i + 1;
      newName := Candidate(base, extension, i);
      target := Join(dir, [newName]);
    }
  }

  /** The smallest free index is unique: any index with a free candidate and
      every smaller one taken is the one the search finds. */
  lemma FirstFreeUnique(fs: FileSystem, dir: Path, base: Name, ext: Name, i: nat)
    requires 1 <= i && CandidatePath(dir, base, ext, i) !in fs
    requires forall j :: 1 <= j < i ==> CandidatePath(dir, base, ext, j) in fs
    ensures FirstFreeFrom(fs, dir, base, ext, 1) == i
  {
  }

  /** A second collision on the same name in the same directory, once the
      first renamed copy exists, gets a strictly larger index. */
  lemma RepeatedCollisionIncreases(fs: FileSystem, dir: Path, base: Name, ext: Name, n: Node)
    ensures var i := FirstFreeFrom(fs, dir, base, ext, 1);
      var fs' := fs[CandidatePath(dir, base, ext, i) := n];
      FirstFreeFrom(fs', dir, base, ext, 1) > i
  {
  }

  /** How names are split: a leading dot does not start an extension, and
      only the last dot does. */
  lemma SplitExtExamples()
    ensures SplitExt(".bashrc") == (".bashrc", "")
    ensures SplitExt("notes.txt") == ("notes", ".txt")
    ensures SplitExt("a.tar.gz") == ("a.tar", ".gz")
  {
    var n := "notes.txt";
    assert n[5] == '.' && n[6] != '.' && n[7] != '.' && n[8] != '.';
    assert LastDot(n) == Some(5);
    assert n[..5] == "notes" && n[5..] == ".txt" && n[..5][0] != '.';
    var t := "a.tar.gz";
    assert t[5] == '.' && t[6] != '.' && t[7] != '.';
    assert LastDot(t) == Some(5);
    assert t[..5] == "a.tar" && t[5..] == ".gz" && t[..5][0] != '.';
  }

  /** The index is written in decimal between the base and the extension. */
  lemma CandidateExamples()
    ensures Candidate("notes", ".txt", 1) == "notes_1.txt"
    ensures Candidate(".bashrc", "", 12) == ".bashrc_12"
  {
  }
}
