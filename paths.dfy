/**
 * The small part of Node's `path` module the installer relies on: joining a
 * directory and one file name with the separator, and the last component of
 * a path. Normalisation (`..`, repeated separators) is not modelled.
 */
module Paths {

  const Sep: char := '/'

  /** `path.join(dir, name)` for a directory and a single component. */
  function Join(dir: string, name: string): string {
    dir + [Sep] + name
  }

  /** `p` lies directly or indirectly inside directory `dir`. */
  predicate IsUnder(dir: string, p: string) {
    |dir| < |p| && p[..|dir| + 1] == dir + [Sep]
  }

  /** The last component of `p`: everything after its last separator. */
  function BaseName(p: string): (b: string)
    ensures Sep !in b
    ensures |b| <= |p| && b == p[|p| - |b|..]
    ensures |b| < |p| ==> p[|p| - |b| - 1] == Sep
    decreases |p|
  {
    if |p| == 0 || p[|p| - 1] == Sep then ""
    else BaseName(p[..|p| - 1]) + [p[|p| - 1]]
  }

  /** A joined path lies under its directory, and what follows the directory is the name. */
  lemma JoinIsUnder(dir: string, name: string)
    ensures IsUnder(dir, Join(dir, name))
    ensures Join(dir, name)[|dir| + 1..] == name
  {
  }

  /** The last component of a joined path is the name, when the name is a single component. */
  lemma {:induction false} BaseNameOfJoin(dir: string, name: string)
    requires Sep !in name
    ensures BaseName(Join(dir, name)) == name
    decreases |name|
  {
    var p := Join(dir, name);
    if name == [] {
      assert p[|p| - 1] == Sep;
    } else {
      var last := name[|name| - 1];
      var init := name[..|name| - 1];
      assert p[..|p| - 1] == Join(dir, init);
      assert p[|p| - 1] == last;
      BaseNameOfJoin(dir, init);
      assert init + [last] == name;
    }
  }

  /** Joining under one directory is injective in the name. */
  lemma JoinInjective(dir: string, a: string, b: string)
    requires Join(dir, a) == Join(dir, b)
    ensures a == b
  {
    JoinIsUnder(dir, a);
    JoinIsUnder(dir, b);
  }

  /** Two sibling directories whose names differ in their first character share no path. */
  lemma {:induction false} SiblingsDisjoint(root: string, d1: string, d2: string, p: string)
    requires |d1| > 0 && |d2| > 0 && d1[0] != d2[0]
    requires IsUnder(Join(root, d1), p)
    ensures !IsUnder(Join(root, d2), p)
  {
    assert p[|root| + 1] == Join(root, d1)[|root| + 1] == d1[0];
    assert Join(root, d2)[|root| + 1] == d2[0];
  }

  /** Putting text in front of a joined path is joining under the longer directory. */
  lemma JoinAfterPrefix(pre: string, dir: string, name: string)
    ensures pre + Join(dir, name) == Join(pre + dir, name)
  {
    assert pre + (dir + [Sep] + name) == (pre + dir) + [Sep] + name;
  }

  /** Every separator of a path comes before its last component. */
  lemma SepBeforeBaseName(p: string, k: int)
    requires 0 <= k < |p| && p[k] == Sep
    ensures k < |p| - |BaseName(p)|
  {
    var b := BaseName(p);
    assert forall j :: |p| - |b| <= j < |p| ==> p[j] == b[j - (|p| - |b|)];
  }

  /** Dropping a prefix that ends before the last component keeps the last component. */
  lemma {:induction false} BaseNameOfSuffix(p: string, i: nat)
    requires i <= |p| - |BaseName(p)|
    ensures BaseName(p[i..]) == BaseName(p)
    decreases |p|
  {
    var q := p[i..];
    if |p| == 0 || p[|p| - 1] == Sep {
      if |q| > 0 {
        assert q[|q| - 1] == p[|p| - 1];
      }
    } else {
      var init := p[..|p| - 1];
      assert BaseName(p) == BaseName(init) + [p[|p| - 1]];
      assert q[..|q| - 1] == init[i..];
      assert q[|q| - 1] == p[|p| - 1];
      BaseNameOfSuffix(init, i);
    }
  }
}
