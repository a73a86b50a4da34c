/**
  File-system paths as the watcher sees them.

  A path is its sequence of components, optionally below the root directory.
  Two paths are equal exactly when their components are, which is how Rust's
  `Path` compares paths (`a//b` and `a/b` are the same path).
 */
module Paths {
  import opened Wrappers

  /** One component of a path; a name that is not valid Unicode is kept as raw bytes. */
  datatype Name = Text(text: string) | Raw(bytes: seq<bv8>)

  datatype Path = Path(rooted: bool, names: seq<Name>)

  /** `Path::to_str` succeeds: every component is Unicode. */
  predicate IsUnicode(p: Path) {
    forall i | 0 <= i < |p.names| :: p.names[i].Text?
  }

  /** The path's text is the empty string: no root and no component. */
  predicate IsEmpty(p: Path) {
    !p.rooted && |p.names| == 0
  }

  /** `PathBuf::push` of a single component. */
  function Push(p: Path, n: Name): (r: Path)
    ensures r.rooted == p.rooted
    ensures |r.names| == |p.names| + 1 && r.names[|p.names|] == n
  {
    Path(p.rooted, p.names + [n])
  }

  /** `Path::parent`: the path without its last component; none for "" and "/". */
  function Parent(p: Path): (r: Option<Path>)
    ensures r.None? <==> |p.names| == 0
    ensures r.Some? ==> Push(r.value, p.names[|p.names| - 1]) == p
  {
    if |p.names| == 0 then None
    else Some(Path(p.rooted, p.names[..|p.names| - 1]))
  }

  /** The parent of a path as a set of directories: empty when there is no path or no parent. */
  function ParentSet(p: Option<Path>): (r: set<Path>)
    ensures |r| <= 1
    ensures forall d :: d in r <==> p.Some? && Parent(p.value) == Some(d)
  {
    if p.Some? && Parent(p.value).Some? then {Parent(p.value).value} else {}
  }

  /** Parent undoes Push, whatever the path and the pushed name. */
  lemma ParentOfPush(p: Path, n: Name)
    ensures Parent(Push(p, n)) == Some(p)
  {
    assert (p.names + [n])[..|p.names|] == p.names;
  }

  /** A path with no parent is the empty path or the root alone. */
  lemma NoParentIsEmptyOrRoot(p: Path)
    ensures Parent(p).None? <==> IsEmpty(p) || p == Path(true, [])
  {
  }
}
