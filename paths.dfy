/**
 * Paths as the workspace package handles them: plain strings joined with
 * path/filepath.Join. Join is modelled without Go's lexical cleaning.
 */
module Paths {

  type Path = string

  /** filepath.Join of two elements: an empty element is dropped, otherwise one '/' separates them. */
  function Join(a: Path, b: Path): (r: Path)
    ensures b == "" ==> r == a
    ensures a == "" ==> r == b
    ensures b != "" ==> r != ""
    ensures a != "" && b != "" ==> |r| == |a| + 1 + |b|
  {
    if b == "" then a else if a == "" then b else a + "/" + b
  }

  /** Two non-empty elements are joined as a, then one '/', then b. */
  lemma JoinShape(a: Path, b: Path)
    requires a != "" && b != ""
    ensures var r := Join(a, b); r[..|a|] == a && r[|a|] == '/' && r[|a| + 1..] == b
  {
  }

  /**
   * The directories that must exist for p to exist: p itself and every prefix
   * of p that ends just before a '/' (a leading '/' names the root, which always exists).
   */
  function Prefixes(p: Path): (r: set<Path>)
    ensures p in r
    ensures forall q :: q in r ==> |q| <= |p|
    ensures p != "" ==> "" !in r
  {
    {p} + set i | 0 < i < |p| && p[i] == '/' :: p[..i]
  }

  /** Every prefix of a prefix of p is a prefix of p. */
  lemma PrefixesClosed(p: Path, q: Path)
    requires q in Prefixes(p)
    ensures Prefixes(q) <= Prefixes(p)
  {
    forall x | x in Prefixes(q)
      ensures x in Prefixes(p)
    {
      if x != q && q != p {
        var j :| 0 < j < |q| && q[j] == '/' && x == q[..j];
        var i :| 0 < i < |p| && p[i] == '/' && q == p[..i];
        assert p[j] == '/' && p[..j] == x;
      } else if x != q {
        assert q == p;
      }
    }
  }

  /** Joining a single component (no '/') to a directory adds exactly one new prefix. */
  lemma PrefixesOfJoin(a: Path, s: Path)
    requires s != "" && '/' !in s
    ensures Prefixes(Join(a, s)) == if a == "" then {s} else Prefixes(a) + {Join(a, s)}
  {
    var p := Join(a, s);
    if a != "" {
      assert p == a + "/" + s;
      forall x | x in Prefixes(p)
        ensures x in Prefixes(a) + {p}
      {
        if x != p {
          var i :| 0 < i < |p| && p[i] == '/' && x == p[..i];
          if i < |a| {
            assert a[i] == '/' && x == a[..i];
          } else if i == |a| {
            assert x == a;
          } else {
            assert false;
          }
        }
      }
      forall x | x in Prefixes(a) + {p}
        ensures x in Prefixes(p)
      {
        if x == a {
          assert p[|a|] == '/' && p[..|a|] == a;
        } else if x != p {
          var i :| 0 < i < |a| && a[i] == '/' && x == a[..i];
          assert p[i] == '/' && p[..i] == x;
        }
      }
    }
  }

  /** Joining different non-empty components to the same directory gives different paths. */
  lemma JoinInjective(a: Path, x: Path, y: Path)
    requires x != "" && y != ""
    requires Join(a, x) == Join(a, y)
    ensures x == y
  {
    if a != "" {
      assert x == Join(a, x)[|a| + 1..];
      assert y == Join(a, y)[|a| + 1..];
    }
  }
}
