/**
 Paths as the purge command compares them.

 A path is a cleaned absolute path, written as the sequence of its components
 (already case-folded where the platform folds case).  The root is the empty
 sequence, so lexical nesting is Dafny's prefix order on sequences.
 */
module PurgePaths {

  type Path = seq<string>

  /** What filepath.Clean leaves of one component of an absolute path. */
  predicate CleanName(name: string) {
    name != "" && name != "." && name != ".." && '/' !in name
  }

  predicate Clean(p: Path) {
    forall i | 0 <= i < |p| :: CleanName(p[i])
  }

  predicate AllClean(ps: seq<Path>) {
    forall i | 0 <= i < |ps| :: Clean(ps[i])
  }

  /** Number of leading components that two paths share. */
  function CommonLength(a: Path, b: Path): (n: nat)
    ensures n <= |a| && n <= |b| && a[..n] == b[..n]
    ensures n < |a| && n < |b| ==> a[n] != b[n]
  {
    if a == [] || b == [] || a[0] != b[0] then 0 else
      var n := 1 + CommonLength(a[1..], b[1..]);
      assert a[..n] == [a[0]] + a[1..][..n - 1];
      assert b[..n] == [b[0]] + b[1..][..n - 1];
      n
  }

  function Ups(n: nat): (r: seq<string>)
    ensures |r| == n && forall i | 0 <= i < n :: r[i] == ".."
  {
    seq(n, _ => "..")
  }

  /** Components of filepath.Rel(base, target): climb out of base, then descend. */
  function RelComponents(base: Path, target: Path): seq<string> {
    var n := CommonLength(base, target);
    Ups(|base| - n) + target[n..]
  }

  function Join(components: seq<string>): string {
    if components == [] then "."
    else if |components| == 1 then components[0]
    else components[0] + "/" + Join(components[1..])
  }

  function Rel(base: Path, target: Path): string {
    Join(RelComponents(base, target))
  }

  /** samePurgePath on cleaned, folded paths. */
  predicate SamePurgePath(left: Path, right: Path) {
    left == right
  }

  /** containsPurgePath, as the source computes it: by looking at the text of Rel. */
  predicate ContainsPurgePath(parent: Path, child: Path)
  {
    var relative := Rel(parent, child);
    relative != "." && relative != ".." && !("../" <= relative)
  }

  lemma JoinStart(components: seq<string>)
    requires components != []
    requires components[0] != "" && '/' !in components[0]
    ensures Join(components) == "." <==> components == ["."]
    ensures Join(components) == ".." || "../" <= Join(components) <==> components[0] == ".."
  {
    var first, text := components[0], Join(components);
    assert first <= text;
    assert forall i | 0 <= i < |first| :: first[i] != '/' && text[i] == first[i];
    assert "../" <= text ==> text[2] == '/' && text[1] == '.';
    if |components| > 1 {
      assert text[|first|] == '/';
      if "../" <= text {
        assert first == "..";
      }
      if first == ".." {
        assert text[..3] == "../";
      }
    }
  }

  /** The text test of the source is exactly strict nesting of components. */
  lemma ContainsIsStrictPrefix(parent: Path, child: Path)
    requires Clean(parent) && Clean(child)
    ensures ContainsPurgePath(parent, child) <==> parent < child
  {
    var n := CommonLength(parent, child);
    var parts := RelComponents(parent, child);
    if n < |parent| {
      assert parts[0] == "..";
      JoinStart(parts);
    } else {
      assert parent == child[..n];
      if n < |child| {
        assert parts[0] == child[n] && CleanName(child[n]);
        JoinStart(parts);
      }
    }
  }

  lemma PrefixCases(a: Path, p: Path)
    requires a <= p
    ensures a == p || a < p
    ensures a == p[..|a|]
  {
    if |a| == |p| {
      assert a == p;
    }
  }

  /** Prefix trichotomy: two ancestors of one path are nested. */
  lemma AncestorsNest(a: Path, b: Path, p: Path)
    requires a <= p && b <= p
    ensures a < b || a == b || b < a
  {
    assert a == p[..|a|] && b == p[..|b|];
  }
}
