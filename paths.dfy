/**
 * The part of Python's `os.path` (POSIX flavour) that the logger uses to place
 * its files: `isabs`, `join` of two components and `basename`.
 */
module Paths {

  type Path = string

  /** `os.path.isabs`: a POSIX path is absolute when it starts with a slash. */
  predicate IsAbs(p: Path) {
    |p| > 0 && p[0] == '/'
  }

  /** What `os.path.join` puts in front of a relative component: `a` itself, with
      one slash added unless `a` is empty or already ends with one. */
  function WithSeparator(a: Path): (x: Path)
    ensures |a| <= |x| <= |a| + 1 && x[..|a|] == a
    ensures x == "" || x[|x| - 1] == '/'
    ensures |x| == |a| + 1 <==> a != "" && a[|a| - 1] != '/'
  {
    if a == "" || a[|a| - 1] == '/' then a else a + "/"
  }

  /** `os.path.join(a, b)`: an absolute `b` discards `a`; otherwise a separator is
      inserted unless `a` is empty or already ends with one. */
  function Join(a: Path, b: Path): (r: Path)
    ensures IsAbs(b) ==> r == b
    ensures !IsAbs(b) ==> r == WithSeparator(a) + b
    ensures !IsAbs(b) ==> |r| >= |b| && r[|r| - |b|..] == b
    ensures !IsAbs(b) && IsAbs(a) ==> IsAbs(r)
    ensures !IsAbs(b) ==> |r| >= |a| && r[..|a|] == a
  {
    if IsAbs(b) then b else WithSeparator(a) + b
  }

  /** The position just after the last slash of `p`, or 0 when `p` has none
      (`p.rfind('/') + 1`). */
  function AfterLastSlash(p: Path): (i: nat)
    ensures i <= |p|
    ensures i > 0 ==> p[i - 1] == '/'
    ensures forall j :: i <= j < |p| ==> p[j] != '/'
  {
    if p == [] then 0
    else if p[|p| - 1] == '/' then |p|
    else AfterLastSlash(p[..|p| - 1])
  }

  /** `os.path.basename`: everything after the last slash. */
  function Basename(p: Path): (r: Path)
    ensures |r| <= |p| && r == p[|p| - |r|..]
    ensures '/' !in r
    ensures '/' !in p ==> r == p
  {
    p[AfterLastSlash(p)..]
  }

  /** Joining a directory with a plain file name (no slash) gives a path
      whose basename is that file name, whatever the directory is. */
  lemma BasenameOfJoin(dir: Path, name: Path)
    requires '/' !in name
    ensures Basename(Join(dir, name)) == name
  {
    var p := Join(dir, name);
    var x := WithSeparator(dir);
    assert p == x + name;
    assert x != [] ==> p[|x| - 1] == '/';
    assert forall j :: |x| <= j < |p| ==> p[j] == name[j - |x|];
    assert AfterLastSlash(p) == |x|;
  }
}
