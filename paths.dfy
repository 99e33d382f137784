/**
 * `pathlib.Path` as far as the backend uses it: an anchor ("/" for an absolute
 * path, "" for a relative one) and the names below it.
 */
module Paths {
  import Strings

  datatype Path = Path(anchor: string, parts: seq<string>)

  /** `p / name`, for a single name without a separator. */
  function Child(p: Path, name: string): (r: Path)
    ensures r.anchor == p.anchor && |r.parts| == |p.parts| + 1
  {
    Path(p.anchor, p.parts + [name])
  }

  /** `p.parent`: the path without its last name; the anchor is its own parent. */
  function Parent(p: Path): (r: Path)
    ensures r.anchor == p.anchor
    ensures p.parts != [] ==> |r.parts| == |p.parts| - 1
    ensures p.parts == [] ==> r == p
  {
    if p.parts == [] then p else Path(p.anchor, p.parts[..|p.parts| - 1])
  }

  /** `str(p)`: the anchor, then the names joined by "/"; the empty relative path is ".". */
  function Text(p: Path): string {
    if p.anchor == "" && p.parts == [] then "." else p.anchor + Strings.Join(p.parts, '/')
  }

  /** `p` lies strictly below `base`. */
  predicate Below(p: Path, base: Path) {
    p.anchor == base.anchor && |base.parts| < |p.parts| && p.parts[..|base.parts|] == base.parts
  }

  /** The parent of `p / name` is `p`, and `p / name` lies below `p`. */
  lemma ParentChild(p: Path, name: string)
    ensures Parent(Child(p, name)) == p
    ensures Below(Child(p, name), p)
  {
    assert (p.parts + [name])[..|p.parts|] == p.parts;
  }

  /** Joining is injective: different names under one directory give different paths. */
  lemma ChildInjective(p: Path, a: string, b: string)
    requires Child(p, a) == Child(p, b)
    ensures a == b
  {
    assert Child(p, a).parts[|p.parts|] == a;
  }

  /** A path below a path below `base` is below `base`. */
  lemma {:induction false} BelowTransitive(p: Path, q: Path, base: Path)
    requires Below(p, q) && Below(q, base)
    ensures Below(p, base)
  {
    assert p.parts[..|base.parts|] == p.parts[..|q.parts|][..|base.parts|];
  }
}
