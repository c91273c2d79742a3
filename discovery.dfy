/** Discovery of the project file `.kak-debug.yaml` by walking from the
    working directory up towards the filesystem root (src/config.py:55-67).

    An absolute path is the list of its components below the root; the root
    itself is the empty list, and it is the only path that is its own parent,
    as `Path("/").parent == Path("/")` in Python. The filesystem is reduced to
    the set of directories that hold a `.kak-debug.yaml`. */
module Discovery {
  import opened Values

  type Path = seq<string>

  function Parent(p: Path): (q: Path)
    ensures p == [] ==> q == p
    ensures p != [] ==> |q| == |p| - 1 && q == p[..|p| - 1]
  {
    if p == [] then p else p[..|p| - 1]
  }

  /** `p.parent == p` holds exactly at the root. */
  predicate IsRoot(p: Path) {
    Parent(p) == p
  }

  /** `a` is `p` or one of its ancestors. */
  predicate AncestorOrSelf(a: Path, p: Path) {
    |a| <= |p| && a == p[..|a|]
  }

  /** How `str(path)` writes an absolute path: `/` for the root, else each
      component preceded by `/`. */
  function PathText(p: Path): string {
    if p == [] then "/" else Slashed(p)
  }

  function Slashed(p: Path): string {
    if p == [] then "" else "/" + p[0] + Slashed(p[1..])
  }

  /** The directory whose project file is read: the nearest directory at or
      above `cwd`, other than the root, that holds the file. */
  function ProjectDir(cwd: Path, present: set<Path>): (r: Option<Path>)
    ensures r.Some? ==> AncestorOrSelf(r.value, cwd) && !IsRoot(r.value) && r.value in present
    ensures r.Some? ==> forall k :: |r.value| < k <= |cwd| ==> cwd[..k] !in present
    ensures r.None? <==> forall k :: 0 < k <= |cwd| ==> cwd[..k] !in present
    decreases |cwd|
  {
    if cwd == [] then None
    else if cwd in present then
      assert cwd[..|cwd|] == cwd;
      Some(cwd)
    else
      var r := ProjectDir(Parent(cwd), present);
      assert forall k :: 0 < k < |cwd| ==> Parent(cwd)[..k] == cwd[..k];
      assert cwd[..|cwd|] == cwd;
      r
  }

  /** The loop and the root check of `get_project_config`: the loop stops at
      the first directory holding the file or at the root, and reaching the
      root means "not found" even when the root holds the file. */
  method FindProjectDir(cwd: Path, present: set<Path>) returns (r: Option<Path>)
    ensures r == ProjectDir(cwd, present)
  {
    var cur := cwd;
    while cur !in present && !IsRoot(cur)
      invariant ProjectDir(cur, present) == ProjectDir(cwd, present)
      decreases |cur|
    {
      cur := Parent(cur);
    }
    if IsRoot(cur) {
      return None;
    }
    return Some(cur);
  }

  /** Whether the root holds the file never matters. */
  lemma {:induction false} RootFileIgnored(cwd: Path, present: set<Path>)
    ensures ProjectDir(cwd, present) == ProjectDir(cwd, present - {[]})
    decreases |cwd|
  {
    if cwd != [] && cwd !in present {
      RootFileIgnored(Parent(cwd), present);
    }
  }

  /** Started at the root, the search finds nothing. */
  lemma RootCwdFindsNothing(present: set<Path>)
    ensures ProjectDir([], present) == None
  {
  }

  /** A file at `/a/b` is found from `/a/b/c/d` two levels up, in preference
      to one at `/a`. */
  lemma NearestWins()
    ensures ProjectDir(["a", "b", "c", "d"], {["a"], ["a", "b"]}) == Some(["a", "b"])
  {
    var cwd: Path := ["a", "b", "c", "d"];
    assert Parent(cwd) == ["a", "b", "c"];
    assert Parent(Parent(cwd)) == ["a", "b"];
  }
}
