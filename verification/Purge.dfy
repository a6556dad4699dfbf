/**
 Recursive deletion around protected paths (removePurgePath).
 */
module Purge {
  import opened PurgePaths
  import opened FileSystem

  // ----- What a purge is allowed to leave ------------------------------------

  /** At or below a protected path. */
  ghost predicate Within(p: Path, protected: seq<Path>) {
    exists i :: 0 <= i < |protected| && protected[i] <= p
  }

  /** Properly above a protected path. */
  ghost predicate Above(p: Path, protected: seq<Path>) {
    exists i :: 0 <= i < |protected| && p < protected[i]
  }

  ghost predicate Kept(p: Path, protected: seq<Path>) {
    Within(p, protected) || Above(p, protected)
  }

  /** The specification of removePurgePath. */
  ghost function Survivors(t: Tree, root: Path, protected: seq<Path>): Tree {
    map p | p in t && (!(root <= p) || Kept(p, protected)) :: t[p]
  }

  /** Under `root` only protected nodes and directories leading to them remain. */
  ghost predicate Settled(t: Tree, root: Path, protected: seq<Path>) {
    forall p | p in t && root <= p ::
      Within(p, protected) || (Above(p, protected) && t[p] == Dir)
  }

  /** What holds however a removal below `root` ends: it only deletes there, and nothing kept. */
  ghost predicate Spared(before: Tree, after: Tree, root: Path, protected: seq<Path>) {
    && SubTree(after, before)
    && forall p | p in before && (!(root <= p) || Kept(p, protected)) :: p in after
  }

  /** Below `root` something that is no directory stands where a protected path leads through. */
  ghost predicate Blocked(t: Tree, root: Path, protected: seq<Path>) {
    exists p :: p in t && root <= p && t[p] != Dir && Above(p, protected) && !Within(p, protected)
  }

  /** Sparing deletions neither make nor remove an obstacle. */
  lemma BlockedStays(before: Tree, after: Tree, root: Path, elsewhere: Path, protected: seq<Path>)
    requires Spared(before, after, elsewhere, protected)
    ensures Blocked(before, root, protected) <==> Blocked(after, root, protected)
  {
    if Blocked(before, root, protected) {
      var p :| p in before && root <= p && before[p] != Dir && Above(p, protected) && !Within(p, protected);
      assert p in after && after[p] == before[p];
    }
  }

  lemma SparedThenSpared(a: Tree, b: Tree, c: Tree, root: Path, child: Path, protected: seq<Path>)
    requires Spared(a, b, root, protected) && Spared(b, c, child, protected) && root <= child
    ensures Spared(a, c, root, protected)
  {
  }

  lemma SettledStays(before: Tree, after: Tree, root: Path, protected: seq<Path>)
    requires SubTree(after, before) && Settled(before, root, protected)
    ensures Settled(after, root, protected)
  {
  }

  lemma SettledIsSurvivors(before: Tree, after: Tree, root: Path, protected: seq<Path>)
    requires Spared(before, after, root, protected) && Settled(after, root, protected)
    ensures after == Survivors(before, root, protected)
  {
    assert after.Keys == Survivors(before, root, protected).Keys;
  }

  /** A second run, whether it succeeds or fails, finds nothing to delete. */
  lemma RerunChangesNothing(t: Tree, after: Tree, root: Path, protected: seq<Path>)
    requires Spared(Survivors(t, root, protected), after, root, protected)
    ensures after == Survivors(t, root, protected)
  {
    assert after.Keys == Survivors(t, root, protected).Keys;
  }

  /** Nothing can be kept below a path that neither lies in nor leads to a protected one. */
  lemma UnprotectedSubtree(root: Path, p: Path, protected: seq<Path>)
    requires root <= p && !Within(root, protected) && !Above(root, protected)
    ensures !Kept(p, protected)
  {
    forall i | 0 <= i < |protected|
      ensures !(protected[i] <= p) && !(p < protected[i])
    {
      if protected[i] <= p {
        AncestorsNest(root, protected[i], p);
        assert false;
      }
    }
  }

  // ----- The predicates of the source ----------------------------------------

  /** containsPurgePath, known to decide strict nesting. */
  method Contains(parent: Path, child: Path) returns (r: bool)
    requires Clean(parent) && Clean(child)
    ensures r <==> parent < child
  {
    ContainsIsStrictPrefix(parent, child);
    return ContainsPurgePath(parent, child);
  }

  /** isPurgePathWithinAny, and the same loop at the head of removePurgePath. */
  method IsPurgePathWithinAny(path: Path, protected: seq<Path>) returns (r: bool)
    requires Clean(path) && AllClean(protected)
    ensures r <==> Within(path, protected)
  {
    for i := 0 to |protected|
      invariant forall j | 0 <= j < i :: !(protected[j] <= path)
    {
      var contained := Contains(protected[i], path);
      if SamePurgePath(path, protected[i]) || contained {
        return true;
      }
    }
    return false;
  }

  method ContainsAny(path: Path, protected: seq<Path>) returns (r: bool)
    requires Clean(path) && AllClean(protected)
    ensures r <==> Above(path, protected)
  {
    for i := 0 to |protected|
      invariant forall j | 0 <= j < i :: !(path < protected[j])
    {
      var contains := Contains(path, protected[i]);
      if contains {
        return true;
      }
    }
    return false;
  }

  /** The scan over candidates inside the directory loop, with its early exit. */
  method ClassifyChild(child: Path, protected: seq<Path>) returns (isProtected: bool, protectsDescendant: bool)
    requires Clean(child) && AllClean(protected)
    ensures isProtected <==> Within(child, protected)
    ensures !isProtected ==> (protectsDescendant <==> Above(child, protected))
  {
    isProtected, protectsDescendant := false, false;
    for i := 0 to |protected|
      invariant !isProtected
      invariant forall j | 0 <= j < i :: !(protected[j] <= child)
      invariant protectsDescendant <==> exists j :: 0 <= j < i && child < protected[j]
    {
      var contained := Contains(protected[i], child);
      if SamePurgePath(child, protected[i]) || contained {
        isProtected := true;
        return;
      }
      var contains := Contains(child, protected[i]);
      if contains {
        protectsDescendant := true;
      }
    }
  }

  function Deepest(protected: seq<Path>): (n: nat)
    ensures forall i | 0 <= i < |protected| :: |protected[i]| <= n
  {
    if protected == [] then 0 else
      var n := Deepest(protected[1..]);
      assert forall i | 1 <= i < |protected| :: protected[i] == protected[1..][i - 1];
      if |protected[0]| > n then |protected[0]| else n
  }

  /** How much deeper the recursion can go: it only enters ancestors of protected paths. */
  function Reach(depth: int, protected: seq<Path>): nat {
    if depth <= Deepest(protected) then Deepest(protected) + 1 - depth else 0
  }

  // ----- removePurgePath -------------------------------------------------------

  method RemovePurgePath(disk: Disk, path: Path, protected: seq<Path>) returns (ok: bool)
    requires disk.Valid() && Clean(path) && AllClean(protected)
    modifies disk
    ensures disk.Valid() && old(disk.deleted) <= disk.deleted
    ensures old(disk.faults) <= disk.faults
    ensures ok <==> disk.faults == old(disk.faults) && !Blocked(old(disk.tree), path, protected)
    ensures Spared(old(disk.tree), disk.tree, path, protected)
    ensures ok ==> Settled(disk.tree, path, protected)
    ensures ok ==> disk.tree == Survivors(old(disk.tree), path, protected)
    decreases Reach(|path|, protected), 3
  {
    ok := RemoveUnlessProtected(disk, path, protected);
    if ok {
      SettledIsSurvivors(old(disk.tree), disk.tree, path, protected);
    }
  }

  method RemoveUnlessProtected(disk: Disk, path: Path, protected: seq<Path>) returns (ok: bool)
    requires disk.Valid() && Clean(path) && AllClean(protected)
    modifies disk
    ensures disk.Valid() && old(disk.deleted) <= disk.deleted
    ensures old(disk.faults) <= disk.faults
    ensures ok <==> disk.faults == old(disk.faults) && !Blocked(old(disk.tree), path, protected)
    ensures Spared(old(disk.tree), disk.tree, path, protected)
    ensures ok ==> Settled(disk.tree, path, protected)
    decreases Reach(|path|, protected), 2
  {
    var within := IsPurgePathWithinAny(path, protected);
    if within {
      assert forall p | path <= p :: Within(p, protected);
      return true;
    }
    var info := disk.Lstat(path);
    if info.Absent? {
      NothingBelowAbsent(disk.tree, path);
      return true;
    }
    if info.Unreadable? {
      return false;
    }
    var containsProtected := ContainsAny(path, protected);
    if info.kind != Dir {
      LeafHasNoChildren(disk.tree, path);
      if containsProtected {
        return false;
      }
      UnprotectedUnblocked(disk.tree, path, protected);
      var outcome := RemoveLast(disk, path, protected);
      return outcome;
    }
    var listed, entries := disk.ReadDir(path);
    if !listed {
      return false;
    }
    ghost var listing := disk.tree;
    EntriesBlocked(listing, path, entries, protected);
    ok := RemoveEntries(disk, path, entries, protected);
    if ok {
      EntriesCover(listing, disk.tree, path, entries, protected);
    }
    if !ok || containsProtected {
      forall p | ok && p in disk.tree && path <= p && p != path ensures path < p {
        PrefixCases(path, p);
      }
      return;
    }
    NothingKeptBelow(disk.tree, path, protected);
    ok := RemoveLast(disk, path, protected);
  }

  lemma UnprotectedUnblocked(t: Tree, path: Path, protected: seq<Path>)
    requires !Within(path, protected) && !Above(path, protected)
    ensures !Blocked(t, path, protected)
  {
    forall p | path <= p ensures !Kept(p, protected) {
      UnprotectedSubtree(path, p, protected);
    }
  }

  /** Emptied of everything unprotected, an unprotected directory is empty. */
  lemma NothingKeptBelow(t: Tree, path: Path, protected: seq<Path>)
    requires !Within(path, protected) && !Above(path, protected)
    requires forall p | p in t && path < p :: Within(p, protected) || Above(p, protected)
    ensures !HasChildren(t, path)
  {
    forall p | p in t && path < p ensures false {
      UnprotectedSubtree(path, p, protected);
    }
  }

  method RemoveLast(disk: Disk, path: Path, protected: seq<Path>) returns (ok: bool)
    requires disk.Valid() && Clean(path) && !Within(path, protected) && !Above(path, protected)
    requires path in disk.tree
    modifies disk
    ensures disk.Valid() && old(disk.deleted) <= disk.deleted
    ensures Spared(old(disk.tree), disk.tree, path, protected)
    ensures old(disk.faults) <= disk.faults
    ensures ok <==> disk.faults == old(disk.faults) && !HasChildren(old(disk.tree), path)
    ensures ok ==> forall p | p in disk.tree :: !(path <= p)
  {
    UnprotectedSubtree(path, path, protected);
    var outcome := disk.Remove(path);
    ok := outcome.Done?;
    forall p | p in disk.tree && path <= p ensures !ok {
      PrefixCases(path, p);
    }
  }

  lemma NothingBelowAbsent(t: Tree, path: Path)
    requires WellFormed(t) && path !in t
    ensures forall p | p in t :: !(path <= p)
  {
    forall p | p in t ensures !(path <= p) {
      if path <= p {
        PrefixCases(path, p);
        AncestorPresent(t, p, |path|);
      }
    }
  }

  /** The first `n` entries of the directory `path` have been dealt with. */
  ghost predicate EntriesSettled(t: Tree, path: Path, entries: seq<Entry>, n: nat, protected: seq<Path>) {
    forall j | 0 <= j < n && j < |entries| :: Settled(t, path + [entries[j].name], protected)
  }

  ghost predicate NoneBlocked(t: Tree, path: Path, entries: seq<Entry>, n: nat, protected: seq<Path>) {
    forall j | 0 <= j < n && j < |entries| :: !Blocked(t, path + [entries[j].name], protected)
  }

  /** An obstacle below a directory is an obstacle below one of its entries. */
  lemma EntriesBlocked(t: Tree, path: Path, entries: seq<Entry>, protected: seq<Path>)
    requires WellFormed(t) && path in t && t[path] == Dir
    requires forall name | path + [name] in t :: Entry(name, t[path + [name]]) in entries
    ensures Blocked(t, path, protected) <==> !NoneBlocked(t, path, entries, |entries|, protected)
  {
    if Blocked(t, path, protected) {
      var p :| p in t && path <= p && t[p] != Dir && Above(p, protected) && !Within(p, protected);
      PrefixCases(path, p);
      var name := p[|path|];
      assert path + [name] == p[..|path| + 1];
      if |path| + 1 < |p| {
        AncestorPresent(t, p, |path| + 1);
      } else {
        assert path + [name] == p;
      }
      var j :| 0 <= j < |entries| && entries[j] == Entry(name, t[path + [name]]);
      assert Blocked(t, path + [entries[j].name], protected);
    }
    if !NoneBlocked(t, path, entries, |entries|, protected) {
      var j :| 0 <= j < |entries| && Blocked(t, path + [entries[j].name], protected);
      var p :| p in t && path + [entries[j].name] <= p && t[p] != Dir && Above(p, protected) && !Within(p, protected);
      assert path <= p;
    }
  }

  /** What is no directory has nothing below it. */
  lemma LeafHasNoChildren(t: Tree, path: Path)
    requires WellFormed(t) && path in t && t[path] != Dir
    ensures !HasChildren(t, path)
  {
    forall p | p in t && path < p ensures false {
      PrefixCases(path, p);
      AncestorPresent(t, p, |path|);
    }
  }

  lemma OneMoreEntry(before: Tree, after: Tree, path: Path, entries: seq<Entry>, n: nat, protected: seq<Path>)
    requires n < |entries| && EntriesSettled(before, path, entries, n, protected) && SubTree(after, before)
    requires Settled(after, path + [entries[n].name], protected)
    ensures EntriesSettled(after, path, entries, n + 1, protected)
  {
    forall j | 0 <= j < n ensures Settled(after, path + [entries[j].name], protected) {
      SettledStays(before, after, path + [entries[j].name], protected);
    }
  }

  /** The entry loop of removePurgePath, over the listing of the directory `path`. */
  method RemoveEntries(disk: Disk, path: Path, entries: seq<Entry>, protected: seq<Path>) returns (ok: bool)
    requires disk.Valid() && AllClean(protected) && path in disk.tree
    requires forall i | 0 <= i < |entries| :: Clean(path + [entries[i].name])
    requires forall e | e in entries :: path + [e.name] in disk.tree && disk.tree[path + [e.name]] == e.kind
    modifies disk
    ensures disk.Valid() && old(disk.deleted) <= disk.deleted
    ensures Spared(old(disk.tree), disk.tree, path, protected) && path in disk.tree
    ensures old(disk.faults) <= disk.faults
    ensures ok <==> disk.faults == old(disk.faults) && NoneBlocked(old(disk.tree), path, entries, |entries|, protected)
    ensures ok ==> EntriesSettled(disk.tree, path, entries, |entries|, protected)
    decreases Reach(|path|, protected), 1
  {
    ghost var before := disk.tree;
    for i := 0 to |entries|
      invariant disk.Valid() && old(disk.deleted) <= disk.deleted
      invariant path in disk.tree
      invariant Spared(before, disk.tree, path, protected)
      invariant EntriesSettled(disk.tree, path, entries, i, protected)
      invariant disk.faults == old(disk.faults) && NoneBlocked(before, path, entries, i, protected)
    {
      ghost var middle := disk.tree;
      var child := path + [entries[i].name];
      BlockedStays(before, middle, child, path, protected);
      var done := RemoveEntry(disk, child, entries[i].kind, protected);
      SparedThenSpared(before, middle, disk.tree, path, child, protected);
      if !done {
        return false;
      }
      OneMoreEntry(middle, disk.tree, path, entries, i, protected);
    }
    ok := true;
  }

  method RemoveEntry(disk: Disk, child: Path, kind: Kind, protected: seq<Path>) returns (ok: bool)
    requires disk.Valid() && Clean(child) && AllClean(protected)
    requires child in disk.tree ==> disk.tree[child] == kind
    requires Above(child, protected) ==> child in disk.tree
    modifies disk
    ensures disk.Valid() && old(disk.deleted) <= disk.deleted
    ensures Spared(old(disk.tree), disk.tree, child, protected)
    ensures old(disk.faults) <= disk.faults
    ensures ok <==> disk.faults == old(disk.faults) && !Blocked(old(disk.tree), child, protected)
    ensures ok ==> Settled(disk.tree, child, protected)
    decreases Reach(|child| - 1, protected), 0
  {
    var isProtected, protectsDescendant := ClassifyChild(child, protected);
    if isProtected {
      assert forall p | p in disk.tree && child <= p :: Within(p, protected);
      return true;
    }
    if protectsDescendant {
      if kind == Symlink {
        return false;
      }
      ok := RemovePurgePath(disk, child, protected);
      return;
    }
    UnprotectedUnblocked(disk.tree, child, protected);
    forall p | p in disk.tree && child <= p ensures !Kept(p, protected) {
      UnprotectedSubtree(child, p, protected);
    }
    ok := disk.RemoveAll(child);
  }

  lemma EntriesCover(before: Tree, after: Tree, path: Path, entries: seq<Entry>, protected: seq<Path>)
    requires WellFormed(before) && SubTree(after, before)
    requires forall name | path + [name] in before :: Entry(name, before[path + [name]]) in entries
    requires EntriesSettled(after, path, entries, |entries|, protected)
    ensures forall p | p in after && path < p ::
      Within(p, protected) || (Above(p, protected) && after[p] == Dir)
  {
    forall p | p in after && path < p
      ensures Within(p, protected) || (Above(p, protected) && after[p] == Dir)
    {
      var name := p[|path|];
      assert path + [name] == p[..|path| + 1];
      if |path| + 1 < |p| {
        AncestorPresent(before, p, |path| + 1);
      } else {
        assert path + [name] == p;
      }
      var j :| 0 <= j < |entries| && entries[j] == Entry(name, before[path + [name]]);
      assert path + [entries[j].name] <= p;
    }
  }
}
