/**
 The file system a purge runs against: a prefix-closed tree of nodes whose
 primitives may fail at any call.  No other process writes to it and no
 component is followed through a symbolic link.
 */
module FileSystem {
  import opened PurgePaths

  datatype Kind = Dir | File | Symlink

  type Tree = map<Path, Kind>

  ghost predicate WellFormed(t: Tree) {
    && (forall p | p in t :: Clean(p))
    && (forall p {:trigger Parent(p)} | p in t && p != [] :: Parent(p) in t && t[Parent(p)] == Dir)
  }

  function Parent(p: Path): Path
    requires p != []
  {
    p[..|p| - 1]
  }

  ghost predicate HasChildren(t: Tree, p: Path) {
    exists q :: q in t && p < q
  }

  ghost predicate SubTree(after: Tree, before: Tree) {
    forall p | p in after :: p in before && after[p] == before[p]
  }

  /** The tree once every logged path has been deleted from `origin`. */
  ghost function After(origin: Tree, log: seq<Path>): (t: Tree)
    ensures forall q :: q in t <==> q in origin && q !in log
  {
    map q | q in origin && q !in log :: origin[q]
  }

  lemma {:induction false} AncestorPresent(t: Tree, p: Path, n: nat)
    requires WellFormed(t) && p in t && n < |p|
    ensures p[..n] in t && t[p[..n]] == Dir
    decreases |p|
  {
    assert Parent(p) in t && t[Parent(p)] == Dir;
    if n < |p| - 1 {
      assert p[..n] == Parent(p)[..n];
      AncestorPresent(t, Parent(p), n);
    } else {
      assert p[..n] == Parent(p);
    }
  }

  /** Some longest path under `p` is a leaf of the tree. */
  lemma {:induction false} LeafExists(t: Tree, p: Path, top: Path) returns (leaf: Path)
    requires top in t && p <= top
    ensures leaf in t && p <= leaf && !HasChildren(t, leaf)
    decreases |t|
  {
    if HasChildren(t, top) {
      var q :| q in t && top < q;
      var rest := map r | r in t && r != top :: t[r];
      assert rest.Keys == t.Keys - {top};
      leaf := LeafExists(rest, top + [q[|top|]], q);
      assert forall r | r in t && leaf < r :: r in rest;
    } else {
      leaf := top;
    }
  }

  lemma RemoveLeaf(t: Tree, leaf: Path)
    requires WellFormed(t) && leaf in t && !HasChildren(t, leaf)
    ensures WellFormed(t - {leaf})
  {
    var rest := t - {leaf};
    forall q | q in rest && q != []
      ensures Parent(q) in rest && rest[Parent(q)] == Dir
    {
      assert Parent(q) < q;
    }
  }

  lemma AfterOneMore(origin: Tree, log: seq<Path>, p: Path)
    ensures After(origin, log + [p]) == After(origin, log) - {p}
  {
  }

  function ChildNames(t: Tree, p: Path): (names: set<string>)
    ensures forall name :: name in names <==> p + [name] in t
  {
    var children := set q | q in t && |q| == |p| + 1 && p <= q;
    var names := set q | q in children :: q[|p|];
    assert forall q | q in children :: q == p + [q[|p|]];
    assert forall name | p + [name] in t :: p + [name] in children && (p + [name])[|p|] == name;
    names
  }

  datatype Outcome = Done | Missing | Failed

  datatype Entry = Entry(name: string, kind: Kind)

  datatype Info = Found(kind: Kind) | Absent | Unreadable

  class Disk {
    var tree: Tree
    // Every single-node deletion so far, in order, and the tree before them.
    ghost var deleted: seq<Path>
    ghost const origin: Tree
    // Operations so far that failed although the tree allowed them.
    ghost var faults: nat

    ghost predicate Valid()
      reads this
    {
      WellFormed(tree) && tree == After(origin, deleted)
    }

    constructor (t: Tree)
      requires WellFormed(t)
      ensures Valid() && tree == t && origin == t && deleted == [] && faults == 0
    {
      tree, deleted, origin, faults := t, [], t, 0;
    }

    method Lstat(p: Path) returns (info: Info)
      modifies this`faults
      ensures info.Absent? ==> p !in tree
      ensures info.Found? ==> p in tree && info.kind == tree[p]
      ensures faults == if info.Unreadable? then old(faults) + 1 else old(faults)
    {
      if * {
        faults := faults + 1;
        info := Unreadable;
      } else {
        info := if p in tree then Found(tree[p]) else Absent;
      }
    }

    /** The entries of a directory, in some order, or a failure. */
    method ReadDir(p: Path) returns (ok: bool, entries: seq<Entry>)
      modifies this`faults
      ensures forall e | e in entries :: p + [e.name] in tree && e.kind == tree[p + [e.name]]
      ensures ok ==> forall name | p + [name] in tree :: Entry(name, tree[p + [name]]) in entries
      ensures faults == if ok then old(faults) else old(faults) + 1
    {
      entries := [];
      if * {
        faults := faults + 1;
        return false, [];
      }
      var left := ChildNames(tree, p);
      while left != {}
        invariant forall name | name in left :: p + [name] in tree
        invariant forall e | e in entries :: p + [e.name] in tree && e.kind == tree[p + [e.name]]
        invariant forall name | p + [name] in tree :: name in left || Entry(name, tree[p + [name]]) in entries
        decreases left
      {
        var name :| name in left;
        entries := entries + [Entry(name, tree[p + [name]])];
        left := left - {name};
      }
      ok := true;
    }

    /** The only way a node disappears: one leaf at a time. */
    method DeleteLeaf(p: Path)
      requires Valid() && p in tree && !HasChildren(tree, p)
      modifies this
      ensures Valid() && deleted == old(deleted) + [p] && tree == old(tree) - {p} && faults == old(faults)
    {
      RemoveLeaf(tree, p);
      AfterOneMore(origin, deleted, p);
      tree, deleted := tree - {p}, deleted + [p];
    }

    /** os.Remove: one node, never a directory that still has entries. */
    method Remove(p: Path) returns (outcome: Outcome)
      requires Valid()
      modifies this
      ensures Valid()
      ensures outcome.Done? ==> p in old(tree) && !HasChildren(old(tree), p) && tree == old(tree) - {p}
      ensures outcome.Missing? ==> p !in old(tree)
      ensures !outcome.Done? ==> tree == old(tree)
      ensures deleted == if outcome.Done? then old(deleted) + [p] else old(deleted)
      ensures faults == old(faults) || (faults == old(faults) + 1 && outcome.Failed?)
      ensures outcome.Failed? && faults == old(faults) ==> p in old(tree) && HasChildren(old(tree), p)
    {
      if * {
        faults := faults + 1;
        return Failed;
      }
      if p !in tree {
        return Missing;
      }
      if exists q :: q in tree && p < q {
        return Failed;
      }
      DeleteLeaf(p);
      return Done;
    }

    /** os.RemoveAll: bottom-up deletion that may stop part way. */
    method RemoveAll(p: Path) returns (ok: bool)
      requires Valid()
      modifies this
      ensures Valid() && old(deleted) <= deleted
      ensures SubTree(tree, old(tree))
      ensures forall q | q in old(tree) && !(p <= q) :: q in tree
      ensures ok ==> forall q | q in tree :: !(p <= q)
      ensures faults == if ok then old(faults) else old(faults) + 1
    {
      while exists q :: q in tree && p <= q
        invariant Valid() && old(deleted) <= deleted
        invariant SubTree(tree, old(tree))
        invariant forall q | q in old(tree) && !(p <= q) :: q in tree
        invariant faults == old(faults)
        decreases |tree|
      {
        if * {
          faults := faults + 1;
          return false;
        }
        ghost var top :| top in tree && p <= top;
        ghost var bottom := LeafExists(tree, p, top);
        var leaf :| leaf in tree && p <= leaf && !exists q :: q in tree && leaf < q;
        DeleteLeaf(leaf);
      }
      ok := true;
    }
  }
}
