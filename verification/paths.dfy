/**
 * Paths as sequences of components. Rust's `Path::starts_with` compares whole
 * components, so `/a/bc` is not under `/a/b`; a component-wise prefix test
 * captures exactly that.
 */
module Paths {

  type Path = seq<string>

  /** `k.starts_with(p)`: `p` is a component-wise prefix of `k` (or equal to it). */
  predicate IsUnder(k: Path, p: Path) {
    |p| <= |k| && k[..|p|] == p
  }

  /** `k` is a proper descendant of `p`. */
  predicate StrictlyUnder(k: Path, p: Path) {
    IsUnder(k, p) && k != p
  }

  lemma StrictlyUnderLonger(k: Path, p: Path)
    requires StrictlyUnder(k, p)
    ensures |p| < |k|
  {
  }

  lemma UnderTransitive(a: Path, b: Path, c: Path)
    requires IsUnder(a, b) && IsUnder(b, c)
    ensures IsUnder(a, c)
  {
    assert a[..|c|] == a[..|b|][..|c|];
  }

  lemma StrictlyUnderTransitive(a: Path, b: Path, c: Path)
    requires StrictlyUnder(a, b) && IsUnder(b, c)
    ensures StrictlyUnder(a, c)
  {
    UnderTransitive(a, b, c);
    StrictlyUnderLonger(a, b);
  }

  /** A child path built by `Path::join` with one component lies strictly under its parent. */
  lemma JoinIsStrictlyUnder(p: Path, name: string)
    ensures StrictlyUnder(p + [name], p)
  {
    assert (p + [name])[..|p|] == p;
  }
}
