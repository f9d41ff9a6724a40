/** Filesystem paths, as pathlib joins them. */
module Paths {

  type Path = string

  /** `base / name` for a relative `name` without separators of its own at either end. */
  function Join(base: Path, name: string): (p: Path)
    ensures |p| == |base| + 1 + |name|
    ensures p[..|base|] == base && p[|base|] == '/' && p[|base| + 1..] == name
  {
    base + "/" + name
  }

  /** Under one base, different names give different paths. */
  lemma JoinInjective(base: Path, a: string, b: string)
    requires Join(base, a) == Join(base, b)
    ensures a == b
  {
    assert a == Join(base, a)[|base| + 1..];
  }

  /**
   * A directory and every ancestor its path names: what
   * `mkdir(parents=True)` leaves in place. An ancestor is the path cut
   * just before one of its separators, not counting a leading one.
   */
  function Lineage(path: Path): (r: set<Path>)
    ensures path in r
    ensures forall d :: d in r ==> d <= path
  {
    {path} + set i | 0 < i < |path| && path[i] == '/' :: path[..i]
  }

  /** Making `base / name` with its parents also makes `base` and every ancestor of `base`. */
  lemma {:induction false} LineageOfJoin(base: Path, name: string)
    requires base != ""
    ensures Lineage(base) <= Lineage(Join(base, name))
  {
    var p := Join(base, name);
    forall d | d in Lineage(base) ensures d in Lineage(p) {
      if d == base {
        assert p[..|base|] == base && p[|base|] == '/';
      } else {
        var i :| 0 < i < |base| && base[i] == '/' && d == base[..i];
        assert p[i] == '/' && p[..i] == d;
      }
    }
  }
}
