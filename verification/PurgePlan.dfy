/**
 The order in which targets are purged (dataPurgeTargets): duplicates dropped,
 longest paths first, the configuration entry last.
 */
module PurgePlan {
  import opened Options
  import opened PurgePaths

  /** A candidate as listed by the source; None stands for a blank path. */
  datatype Candidate = Candidate(name: string, path: Option<Path>)

  datatype Target = Target(name: string, path: Path)

  const CONFIGURATION := "configuration"

  /** Length of the path text; folding is assumed to preserve it. */
  function TextLength(p: Path): (n: nat)
    ensures n >= 1
  {
    if |p| <= 1 then (if p == [] then 1 else 1 + |p[0]|) else TextLength(p[..|p| - 1]) + 1 + |p[|p| - 1]|
  }

  lemma {:induction false} DescendantIsLonger(p: Path, q: Path)
    requires Clean(q) && p < q
    ensures TextLength(p) < TextLength(q)
    decreases |q|
  {
    var up := q[..|q| - 1];
    assert CleanName(q[|q| - 1]);
    PrefixCases(p, q);
    if |p| < |up| {
      assert p == up[..|p|];
      DescendantIsLonger(p, up);
    } else {
      assert p == up;
    }
  }

  /** The comparator handed to sort.SliceStable. */
  predicate Less(a: Target, b: Target) {
    if a.name == CONFIGURATION then false
    else if b.name == CONFIGURATION then true
    else TextLength(a.path) > TextLength(b.path)
  }

  ghost predicate Sorted(s: seq<Target>) {
    forall i, j | 0 <= i < j < |s| :: !Less(s[j], s[i])
  }

  lemma LastStaysLast(r: seq<Target>, rest: seq<Target>, t: Target, last: Target)
    requires Sorted(r) && multiset(r) == multiset(rest) + multiset{t}
    requires Sorted(rest + [last]) && Less(t, last)
    ensures Sorted(r + [last])
  {
    forall i | 0 <= i < |r| ensures !Less(last, r[i]) {
      assert r[i] in multiset(rest) + multiset{t};
      if r[i] != t {
        var k :| 0 <= k < |rest| && rest[k] == r[i];
        assert (rest + [last])[k] == r[i] && (rest + [last])[|rest|] == last;
      }
    }
  }

  /** One round of the insertion sort behind sort.SliceStable. */
  function Insert(t: Target, s: seq<Target>): (r: seq<Target>)
    requires Sorted(s)
    ensures Sorted(r) && multiset(r) == multiset(s) + multiset{t}
  {
    if s == [] then [t] else
      var last, rest := s[|s| - 1], s[..|s| - 1];
      assert s == rest + [last];
      if Less(t, last) then
        var r := Insert(t, rest);
        LastStaysLast(r, rest, t, last);
        r + [last]
      else
        s + [t]
  }

  function StableSort(s: seq<Target>): (r: seq<Target>)
    ensures Sorted(r) && multiset(r) == multiset(s)
  {
    if s == [] then [] else
      assert s == s[..|s| - 1] + [s[|s| - 1]];
      Insert(s[|s| - 1], StableSort(s[..|s| - 1]))
  }

  /** The targets that rank the same as `p`, in their order. */
  function Ties(s: seq<Target>, p: Target): seq<Target> {
    if s == [] then [] else
      var rest, last := Ties(s[..|s| - 1], p), s[|s| - 1];
      if Less(last, p) || Less(p, last) then rest else rest + [last]
  }

  lemma TiesAppend(s: seq<Target>, t: Target, p: Target)
    ensures Ties(s + [t], p) == Ties(s, p) + Ties([t], p)
  {
    assert (s + [t])[..|s|] == s && [t][..0] == [];
  }

  lemma {:induction false} InsertStable(t: Target, s: seq<Target>, p: Target)
    requires Sorted(s)
    ensures Ties(Insert(t, s), p) == Ties(s, p) + Ties([t], p)
  {
    if s == [] {
      assert Ties(s, p) == [];
    } else {
      var last, rest := s[|s| - 1], s[..|s| - 1];
      assert s == rest + [last];
      TiesAppend(rest, last, p);
      if Less(t, last) {
        InsertStable(t, rest, p);
        TiesAppend(Insert(t, rest), last, p);
        OneTies(t, last, p);
      } else {
        TiesAppend(s, t, p);
      }
    }
  }

  /** Targets that rank differently do not both rank the same as a third. */
  lemma OneTies(t: Target, last: Target, p: Target)
    requires Less(t, last)
    ensures Ties([t], p) == [] || Ties([last], p) == []
  {
  }

  lemma SortLast(rest: seq<Target>, last: Target)
    ensures StableSort(rest + [last]) == Insert(last, StableSort(rest))
  {
    assert (rest + [last])[..|rest|] == rest;
  }

  /** Targets that rank the same keep their order. */
  lemma {:induction false} SortIsStable(s: seq<Target>, p: Target)
    ensures Ties(StableSort(s), p) == Ties(s, p)
  {
    if s != [] {
      var last, rest := s[|s| - 1], s[..|s| - 1];
      assert s == rest + [last];
      calc {
        Ties(StableSort(s), p);
        { SortLast(rest, last); }
        Ties(Insert(last, StableSort(rest)), p);
        { InsertStable(last, StableSort(rest), p); }
        Ties(StableSort(rest), p) + Ties([last], p);
        { SortIsStable(rest, p); }
        Ties(rest, p) + Ties([last], p);
        { TiesAppend(rest, last, p); }
        Ties(s, p);
      }
    }
  }

  /** The candidate that a target stands for: the first one with its path. */
  ghost predicate FirstWithPath(all: seq<Candidate>, i: nat, t: Target) {
    && i < |all| && all[i] == Candidate(t.name, Some(t.path))
    && forall j | 0 <= j < i :: all[j].path != Some(t.path)
  }

  ghost predicate Represented(all: seq<Candidate>, t: Target) {
    exists i: nat :: FirstWithPath(all, i, t)
  }

  ghost predicate Covered(c: Candidate, targets: seq<Target>) {
    c.path.Some? ==> exists k :: 0 <= k < |targets| && targets[k].path == c.path.value
  }

  ghost predicate DistinctPaths(s: seq<Target>) {
    forall i, j | 0 <= i < j < |s| :: s[i].path != s[j].path
  }

  method DropDuplicates(all: seq<Candidate>) returns (targets: seq<Target>)
    ensures DistinctPaths(targets)
    ensures forall k | 0 <= k < |targets| :: Represented(all, targets[k])
    ensures forall i | 0 <= i < |all| :: Covered(all[i], targets)
  {
    targets := [];
    var seen: set<Path> := {};
    for n := 0 to |all|
      invariant DistinctPaths(targets)
      invariant forall k | 0 <= k < |targets| :: targets[k].path in seen
      invariant forall p | p in seen :: exists k :: 0 <= k < |targets| && targets[k].path == p
      invariant forall i | 0 <= i < n && all[i].path.Some? :: all[i].path.value in seen
      invariant forall k | 0 <= k < |targets| :: Represented(all, targets[k])
    {
      if all[n].path.None? || all[n].path.value in seen {
        continue;
      }
      var target := Target(all[n].name, all[n].path.value);
      assert FirstWithPath(all, n, target);
      ghost var before := targets;
      seen := seen + {target.path};
      targets := targets + [target];
      assert targets[|before|] == target;
      forall p | p in seen ensures exists k :: 0 <= k < |targets| && targets[k].path == p {
        if p != target.path {
          var k :| 0 <= k < |before| && before[k].path == p;
          assert targets[k].path == p;
        }
      }
    }
  }

  lemma {:induction false} InsertDistinct(t: Target, s: seq<Target>)
    requires Sorted(s) && DistinctPaths(s) && forall i | 0 <= i < |s| :: s[i].path != t.path
    ensures DistinctPaths(Insert(t, s))
  {
    if s != [] && Less(t, s[|s| - 1]) {
      var last, rest := s[|s| - 1], s[..|s| - 1];
      InsertDistinct(t, rest);
      var r := Insert(t, rest);
      forall i | 0 <= i < |r| ensures r[i].path != last.path {
        assert r[i] in multiset(rest) + multiset{t};
      }
    }
  }

  lemma {:induction false} SortDistinct(s: seq<Target>)
    requires DistinctPaths(s)
    ensures DistinctPaths(StableSort(s))
  {
    if s != [] {
      var last, rest := s[|s| - 1], s[..|s| - 1];
      SortDistinct(rest);
      var r := StableSort(rest);
      forall i | 0 <= i < |r| ensures r[i].path != last.path {
        assert r[i] in multiset(rest);
      }
      InsertDistinct(last, r);
    }
  }

  /** Only one candidate carries the configuration name, as in the source's list. */
  ghost predicate OneConfiguration(all: seq<Candidate>) {
    forall i, j | 0 <= i < |all| && 0 <= j < |all| && all[i].name == CONFIGURATION && all[j].name == CONFIGURATION :: i == j
  }

  /** No target runs before one of its own descendants, except that configuration runs last. */
  ghost predicate ChildrenFirst(r: seq<Target>) {
    forall i, j | 0 <= i < j < |r| && r[i].path < r[j].path :: r[j].name == CONFIGURATION
  }

  lemma SortedOrder(all: seq<Candidate>, r: seq<Target>)
    requires OneConfiguration(all) && Sorted(r) && DistinctPaths(r)
    requires forall k | 0 <= k < |r| :: Represented(all, r[k]) && Clean(r[k].path)
    ensures ChildrenFirst(r)
    ensures forall k | 0 <= k < |r| && r[k].name == CONFIGURATION :: k == |r| - 1
  {
    forall i, j | 0 <= i < j < |r| && r[i].path < r[j].path ensures r[j].name == CONFIGURATION {
      DescendantIsLonger(r[i].path, r[j].path);
      assert !Less(r[j], r[i]);
    }
    forall k | 0 <= k < |r| - 1 ensures r[k].name != CONFIGURATION {
      assert !Less(r[|r| - 1], r[k]) && r[k].path != r[|r| - 1].path;
      assert Represented(all, r[k]) && Represented(all, r[|r| - 1]);
    }
  }

  method OrderTargets(all: seq<Candidate>) returns (targets: seq<Target>)
    requires forall i | 0 <= i < |all| && all[i].path.Some? :: Clean(all[i].path.value)
    requires OneConfiguration(all)
    ensures DistinctPaths(targets)
    ensures forall k | 0 <= k < |targets| :: Represented(all, targets[k])
    ensures forall i | 0 <= i < |all| :: Covered(all[i], targets)
    ensures ChildrenFirst(targets)
    ensures forall k | 0 <= k < |targets| && targets[k].name == CONFIGURATION :: k == |targets| - 1
  {
    var unique := DropDuplicates(all);
    targets := StableSort(unique);
    SortDistinct(unique);
    forall k | 0 <= k < |targets| ensures Represented(all, targets[k]) && Clean(targets[k].path) {
      assert targets[k] in multiset(unique);
    }
    forall i | 0 <= i < |all| ensures Covered(all[i], targets) {
      if all[i].path.Some? {
        assert Covered(all[i], unique);
        var k :| 0 <= k < |unique| && unique[k].path == all[i].path.value;
        assert unique[k] in multiset(targets);
      }
    }
    SortedOrder(all, targets);
  }

  /** The locations that the source lists, in its order. */
  function Candidates(root: Option<Path>, userData: Option<Path>, cache: Option<Path>, logs: Option<Path>, config: Option<Path>): seq<Candidate> {
    [Candidate("application data", root), Candidate("managed DSH user data", userData), Candidate("cache", cache),
     Candidate("logs", logs), Candidate(CONFIGURATION, config)]
  }

  /**
   Every listed path exactly once, under the first name it is listed with; the
   configuration entry last; no other target before its own descendant.
   */
  method DataPurgeTargets(root: Option<Path>, userData: Option<Path>, cache: Option<Path>, logs: Option<Path>, config: Option<Path>)
    returns (targets: seq<Target>)
    requires forall c | c in Candidates(root, userData, cache, logs, config) && c.path.Some? :: Clean(c.path.value)
    ensures DistinctPaths(targets)
    ensures forall k | 0 <= k < |targets| :: Represented(Candidates(root, userData, cache, logs, config), targets[k])
    ensures forall c | c in Candidates(root, userData, cache, logs, config) :: Covered(c, targets)
    ensures ChildrenFirst(targets)
    ensures forall k | 0 <= k < |targets| && targets[k].name == CONFIGURATION :: k == |targets| - 1
  {
    var all := Candidates(root, userData, cache, logs, config);
    targets := OrderTargets(all);
  }
}
