/**
 The two-pass purge (removePurgeTargets): data first, then the lock file, then
 the configuration file, then the emptied roots.
 */
module PurgeTargets {
  import opened PurgePaths
  import opened FileSystem
  import opened Purge

  /** The plan of one purge: `held` is [lockPath] when the manager lock is held, else []. */
  datatype Plan = Plan(targets: seq<Path>, config: Path, held: seq<Path>, users: seq<Path>)
  {
    ghost predicate Valid() {
      AllClean(targets) && Clean(config) && AllClean(held) && |held| <= 1 && AllClean(users)
    }

    /** Protected during the first pass. */
    function Guarded(): seq<Path> {
      [config] + held + users
    }
  }

  ghost predicate Targeted(p: Path, plan: Plan) {
    Within(p, plan.targets)
  }

  /** Survives a successful purge although it is targeted. */
  ghost predicate Preserved(p: Path, plan: Plan) {
    || Within(p, plan.users)
    || (Above(p, plan.users) && p != plan.config && p !in plan.held)
  }

  /** The specification of removePurgeTargets. */
  ghost function PurgeResult(t: Tree, plan: Plan): Tree {
    map p | p in t && ((!Targeted(p, plan) && p != plan.config && p !in plan.held) || Preserved(p, plan)) :: t[p]
  }

  /** No file or link is left under a target outside the registered user directories. */
  ghost predicate NoStray(t: Tree, plan: Plan) {
    forall p | p in t && Targeted(p, plan) :: Within(p, plan.users) || t[p] == Dir
  }

  /** At every deletion logged since `from`: the configuration is present or nothing stray is left. */
  ghost predicate CrashSafe(origin: Tree, log: seq<Path>, from: nat, plan: Plan) {
    forall k | from <= k <= |log| ::
      plan.config in After(origin, log[..k]) || NoStray(After(origin, log[..k]), plan)
  }

  lemma CrashSafeWhilePresent(origin: Tree, log: seq<Path>, from: nat, plan: Plan)
    requires plan.config in After(origin, log)
    ensures CrashSafe(origin, log, from, plan)
  {
  }

  lemma CrashSafeOneMore(origin: Tree, log: seq<Path>, p: Path, from: nat, plan: Plan)
    requires CrashSafe(origin, log, from, plan)
    requires plan.config in After(origin, log + [p]) || NoStray(After(origin, log + [p]), plan)
    ensures CrashSafe(origin, log + [p], from, plan)
  {
    var longer := log + [p];
    forall k | from <= k <= |longer|
      ensures plan.config in After(origin, longer[..k]) || NoStray(After(origin, longer[..k]), plan)
    {
      if k <= |log| {
        assert longer[..k] == log[..k];
      } else {
        assert longer[..k] == longer;
      }
    }
  }

  lemma CrashSafeOnceClean(origin: Tree, log: seq<Path>, longer: seq<Path>, from: nat, plan: Plan)
    requires CrashSafe(origin, log, from, plan) && log <= longer
    requires NoStray(After(origin, log), plan)
    ensures CrashSafe(origin, longer, from, plan)
  {
    forall k | from <= k <= |longer|
      ensures plan.config in After(origin, longer[..k]) || NoStray(After(origin, longer[..k]), plan)
    {
      if k <= |log| {
        assert longer[..k] == log[..k];
      } else {
        assert log <= longer[..k];
        assert SubTree(After(origin, longer[..k]), After(origin, log));
      }
    }
  }

  // ----- Stages ------------------------------------------------------------------

  ghost predicate PassSpared(before: Tree, after: Tree, targets: seq<Path>, protected: seq<Path>) {
    && SubTree(after, before)
    && forall p | p in before && (!Within(p, targets) || Kept(p, protected)) :: p in after
  }

  /** The first `n` targets are settled, the configuration entry aside. */
  ghost predicate TargetsSettled(t: Tree, plan: Plan, n: nat, protected: seq<Path>) {
    forall i | 0 <= i < n && i < |plan.targets| && plan.targets[i] != plan.config :: Settled(t, plan.targets[i], protected)
  }

  ghost predicate PassSettled(t: Tree, plan: Plan, protected: seq<Path>) {
    TargetsSettled(t, plan, |plan.targets|, protected)
  }

  lemma TargetsStaySettled(before: Tree, after: Tree, plan: Plan, n: nat, protected: seq<Path>)
    requires TargetsSettled(before, plan, n, protected) && SubTree(after, before)
    ensures TargetsSettled(after, plan, n, protected)
  {
    forall i | 0 <= i < n && i < |plan.targets| && plan.targets[i] != plan.config
      ensures Settled(after, plan.targets[i], protected)
    {
      SettledStays(before, after, plan.targets[i], protected);
    }
  }

  lemma OneTargetSpared(a: Tree, b: Tree, c: Tree, targets: seq<Path>, i: nat, protected: seq<Path>)
    requires PassSpared(a, b, targets, protected) && i < |targets| && Spared(b, c, targets[i], protected)
    ensures PassSpared(a, c, targets, protected)
  {
  }

  // ----- What can stand in the way --------------------------------------------------

  ghost predicate AnyBlocked(t: Tree, plan: Plan, n: nat, protected: seq<Path>) {
    exists i :: 0 <= i < n && i < |plan.targets| && plan.targets[i] != plan.config && Blocked(t, plan.targets[i], protected)
  }

  /** A guard that has something below it cannot be removed. */
  ghost predicate Stuck(t: Tree, guard: Path, users: seq<Path>) {
    guard in t && HasChildren(t, guard) && !Within(guard, users)
  }

  /** The lock file goes first, so it is not in the way of the configuration. */
  ghost predicate GuardsStuck(t: Tree, plan: Plan) {
    || (exists h :: h in plan.held && Stuck(t, h, plan.users))
    || (plan.config in t && !Within(plan.config, plan.users)
        && exists q :: q in t && plan.config < q && (q in plan.held ==> Within(q, plan.users)))
  }

  /** A purge that cannot succeed, although every operation works. */
  ghost predicate Obstructed(t: Tree, plan: Plan) {
    AnyBlocked(t, plan, |plan.targets|, plan.Guarded()) || GuardsStuck(t, plan)
  }

  /** Plain files as guards, and only directories above protected paths: nothing is in the way. */
  lemma PlainPlanUnobstructed(t: Tree, plan: Plan)
    requires WellFormed(t)
    requires forall g | g in [plan.config] + plan.held && g in t :: t[g] != Dir
    requires forall p | p in t && Above(p, plan.Guarded()) :: t[p] == Dir
    ensures !Obstructed(t, plan)
  {
    assert plan.config == ([plan.config] + plan.held)[0];
    if plan.config in t {
      LeafHasNoChildren(t, plan.config);
    }
    forall h | h in plan.held && h in t ensures !HasChildren(t, h) {
      LeafHasNoChildren(t, h);
    }
  }

  lemma BlockedInPass(before: Tree, after: Tree, plan: Plan, protected: seq<Path>, root: Path)
    requires PassSpared(before, after, plan.targets, protected)
    ensures Blocked(before, root, protected) <==> Blocked(after, root, protected)
  {
    if Blocked(before, root, protected) {
      var p :| p in before && root <= p && before[p] != Dir && Above(p, protected) && !Within(p, protected);
      assert p in after && after[p] == before[p];
    }
  }

  /** The first pass leaves the guards and everything below them. */
  lemma StuckStays(before: Tree, after: Tree, plan: Plan)
    requires PassSpared(before, after, plan.targets, plan.Guarded())
    ensures GuardsStuck(before, plan) <==> GuardsStuck(after, plan)
  {
    assert plan.Guarded()[0] == plan.config;
    assert forall i | 0 <= i < |plan.held| :: plan.Guarded()[1 + i] == plan.held[i];
    forall g, p | (g == plan.config || g in plan.held) && g <= p ensures Kept(p, plan.Guarded()) {
      assert Within(p, plan.Guarded());
    }
  }

  /** What is no directory and leads to user data is user data itself, once the first pass and the guards are done. */
  lemma PassedIsUsers(before: Tree, after: Tree, plan: Plan, i: nat, p: Path)
    requires SubTree(after, before) && i < |plan.targets| && plan.targets[i] != plan.config
    requires !Blocked(before, plan.targets[i], plan.Guarded())
    requires Within(plan.config, plan.users) || Gone(after, plan.config)
    requires forall k | 0 <= k < |plan.held| :: Within(plan.held[k], plan.users) || Gone(after, plan.held[k])
    requires p in after && plan.targets[i] <= p && after[p] != Dir && Above(p, plan.users)
    ensures Within(p, plan.users)
  {
    var j :| 0 <= j < |plan.users| && p < plan.users[j];
    assert plan.Guarded()[1 + |plan.held| + j] == plan.users[j];
    assert Within(p, plan.Guarded());
    GuardedIsUsers(after, plan, p);
  }

  /** Once the guards are gone, what the first pass did not find in the way of user data is not there. */
  lemma SecondPassUnblocked(before: Tree, after: Tree, plan: Plan)
    requires SubTree(after, before) && !AnyBlocked(before, plan, |plan.targets|, plan.Guarded())
    requires Within(plan.config, plan.users) || Gone(after, plan.config)
    requires forall i | 0 <= i < |plan.held| :: Within(plan.held[i], plan.users) || Gone(after, plan.held[i])
    ensures !AnyBlocked(after, plan, |plan.targets|, plan.users)
  {
    forall i, p | 0 <= i < |plan.targets| && plan.targets[i] != plan.config
                  && p in after && plan.targets[i] <= p && after[p] != Dir && Above(p, plan.users)
      ensures Within(p, plan.users)
    {
      PassedIsUsers(before, after, plan, i, p);
    }
  }

  /** One round of the loop over the targets; the configuration entry itself is skipped. */
  method PurgeTarget(disk: Disk, plan: Plan, i: nat, protected: seq<Path>, ghost before: Tree) returns (ok: bool)
    requires disk.Valid() && plan.Valid() && AllClean(protected) && i < |plan.targets|
    requires PassSpared(before, disk.tree, plan.targets, protected) && TargetsSettled(disk.tree, plan, i, protected)
    modifies disk
    ensures disk.Valid() && old(disk.deleted) <= disk.deleted
    ensures PassSpared(before, disk.tree, plan.targets, protected)
    ensures old(disk.faults) <= disk.faults
    ensures ok <==> disk.faults == old(disk.faults)
                    && (plan.targets[i] == plan.config || !Blocked(before, plan.targets[i], protected))
    ensures ok ==> TargetsSettled(disk.tree, plan, i + 1, protected)
  {
    if SamePurgePath(plan.targets[i], plan.config) {
      return true;
    }
    BlockedInPass(before, disk.tree, plan, protected, plan.targets[i]);
    ok := RemovePurgePath(disk, plan.targets[i], protected);
    OneTargetSpared(before, old(disk.tree), disk.tree, plan.targets, i, protected);
    TargetsStaySettled(old(disk.tree), disk.tree, plan, i, protected);
  }

  method PurgePass(disk: Disk, plan: Plan, protected: seq<Path>) returns (ok: bool)
    requires disk.Valid() && plan.Valid() && AllClean(protected)
    modifies disk
    ensures disk.Valid() && old(disk.deleted) <= disk.deleted
    ensures PassSpared(old(disk.tree), disk.tree, plan.targets, protected)
    ensures old(disk.faults) <= disk.faults
    ensures ok <==> disk.faults == old(disk.faults) && !AnyBlocked(old(disk.tree), plan, |plan.targets|, protected)
    ensures ok ==> PassSettled(disk.tree, plan, protected)
  {
    ghost var before := disk.tree;
    for i := 0 to |plan.targets|
      invariant disk.Valid() && old(disk.deleted) <= disk.deleted
      invariant PassSpared(before, disk.tree, plan.targets, protected)
      invariant TargetsSettled(disk.tree, plan, i, protected)
      invariant disk.faults == old(disk.faults) && !AnyBlocked(before, plan, i, protected)
    {
      var done := PurgeTarget(disk, plan, i, protected, before);
      if !done {
        return false;
      }
    }
    ok := true;
  }

  ghost predicate Gone(t: Tree, p: Path) {
    forall q | q in t :: !(p <= q)
  }

  /** Removal of the lock file or the configuration file, unless user-owned. */
  method RemoveGuard(disk: Disk, p: Path, users: seq<Path>) returns (ok: bool)
    requires disk.Valid() && Clean(p) && AllClean(users)
    modifies disk
    ensures disk.Valid()
    ensures SubTree(disk.tree, old(disk.tree))
    ensures forall q | q in old(disk.tree) && (q != p || Within(p, users)) :: q in disk.tree
    ensures disk.deleted == old(disk.deleted) || disk.deleted == old(disk.deleted) + [p]
    ensures ok ==> Within(p, users) || Gone(disk.tree, p)
    ensures old(disk.faults) <= disk.faults
    ensures ok <==> disk.faults == old(disk.faults) && !Stuck(old(disk.tree), p, users)
    ensures !ok ==> disk.tree == old(disk.tree) && disk.deleted == old(disk.deleted)
  {
    var within := IsPurgePathWithinAny(p, users);
    if within {
      return true;
    }
    var outcome := disk.Remove(p);
    if outcome.Failed? {
      return false;
    }
    assert p !in disk.tree;
    NothingBelowAbsent(disk.tree, p);
    return true;
  }

  /** Protected in the first pass, and still there once the guards are gone: then it is user data. */
  lemma GuardedIsUsers(t: Tree, plan: Plan, p: Path)
    requires p in t && Within(p, plan.Guarded())
    requires Within(plan.config, plan.users) || Gone(t, plan.config)
    requires forall i | 0 <= i < |plan.held| :: Within(plan.held[i], plan.users) || Gone(t, plan.held[i])
    ensures Within(p, plan.users)
  {
    var j :| 0 <= j < |plan.Guarded()| && plan.Guarded()[j] <= p;
    if j == 0 {
      UserOwned(plan.config, p, plan.users);
    } else if j <= |plan.held| {
      assert plan.Guarded()[j] == plan.held[j - 1];
      UserOwned(plan.held[j - 1], p, plan.users);
    } else {
      assert plan.Guarded()[j] == plan.users[j - 1 - |plan.held|];
    }
  }

  /** After the first pass and the guards, only user data and directories are left. */
  lemma GuardsGone(t: Tree, plan: Plan)
    requires PassSettled(t, plan, plan.Guarded())
    requires Within(plan.config, plan.users) || Gone(t, plan.config)
    requires forall i | 0 <= i < |plan.held| :: Within(plan.held[i], plan.users) || Gone(t, plan.held[i])
    ensures NoStray(t, plan)
  {
    forall p | p in t && Targeted(p, plan) ensures Within(p, plan.users) || t[p] == Dir {
      var i :| 0 <= i < |plan.targets| && plan.targets[i] <= p;
      if plan.targets[i] == plan.config {
        UserOwned(plan.config, p, plan.users);
      } else {
        assert Settled(t, plan.targets[i], plan.Guarded());
        if Within(p, plan.Guarded()) {
          GuardedIsUsers(t, plan, p);
        }
      }
    }
  }

  lemma UserOwned(top: Path, p: Path, users: seq<Path>)
    requires Within(top, users) && top <= p
    ensures Within(p, users)
  {
  }

  ghost predicate NeverDeleted(before: Tree, after: Tree, plan: Plan) {
    SubTree(after, before) && PurgeResult(before, plan).Keys <= after.Keys
  }

  lemma PassNeverDeletes(a: Tree, b: Tree, c: Tree, plan: Plan, protected: seq<Path>)
    requires NeverDeleted(a, b, plan) && PassSpared(b, c, plan.targets, protected)
    requires forall p | p in a && Preserved(p, plan) :: Kept(p, protected)
    ensures NeverDeleted(a, c, plan)
  {
  }

  lemma GuardedCoversUsers(p: Path, plan: Plan)
    ensures Kept(p, plan.users) ==> Kept(p, plan.Guarded())
  {
    assert forall i | 0 <= i < |plan.users| :: plan.Guarded()[1 + |plan.held| + i] == plan.users[i];
  }

  lemma FinalExact(before: Tree, after: Tree, plan: Plan)
    requires NeverDeleted(before, after, plan) && PassSettled(after, plan, plan.users)
    requires Within(plan.config, plan.users) || Gone(after, plan.config)
    requires forall i | 0 <= i < |plan.held| :: Within(plan.held[i], plan.users) || Gone(after, plan.held[i])
    ensures after == PurgeResult(before, plan)
  {
    forall p | p in after ensures p in PurgeResult(before, plan) {
      if Targeted(p, plan) && !Within(p, plan.users) {
        var i :| 0 <= i < |plan.targets| && plan.targets[i] <= p;
        if plan.targets[i] == plan.config {
          UserOwned(plan.config, p, plan.users);
        }
      }
    }
    assert after.Keys == PurgeResult(before, plan).Keys;
  }

  method RemovePurgeTargets(disk: Disk, plan: Plan) returns (ok: bool)
    requires disk.Valid() && plan.Valid()
    modifies disk
    ensures disk.Valid() && old(disk.deleted) <= disk.deleted
    ensures NeverDeleted(old(disk.tree), disk.tree, plan)
    ensures old(disk.faults) <= disk.faults
    ensures ok <==> disk.faults == old(disk.faults) && !Obstructed(old(disk.tree), plan)
    ensures ok ==> disk.tree == PurgeResult(old(disk.tree), plan)
    ensures plan.config in old(disk.tree) ==> CrashSafe(disk.origin, disk.deleted, |old(disk.deleted)|, plan)
  {
    ghost var from, present := |disk.deleted|, plan.config in disk.tree;
    forall p ensures Kept(p, plan.users) ==> Kept(p, plan.Guarded()) {
      GuardedCoversUsers(p, plan);
    }
    ok := PurgePass(disk, plan, plan.Guarded());
    assert plan.Guarded()[0] == plan.config;
    assert Within(plan.config, plan.Guarded());
    if present {
      CrashSafeWhilePresent(disk.origin, disk.deleted, from, plan);
    }
    if !ok {
      return;
    }
    StuckStays(old(disk.tree), disk.tree, plan);
    ok := RemoveGuards(disk, plan, from, present);
    if !ok {
      return;
    }
    GuardsGone(disk.tree, plan);
    SecondPassUnblocked(old(disk.tree), disk.tree, plan);
    ghost var clean, log := disk.tree, disk.deleted;
    ok := PurgePass(disk, plan, plan.users);
    PassNeverDeletes(old(disk.tree), clean, disk.tree, plan, plan.users);
    if present {
      CrashSafeOnceClean(disk.origin, log, disk.deleted, from, plan);
    }
    if ok {
      FinalExact(old(disk.tree), disk.tree, plan);
    }
  }

  /** Closing the lock changes no file, and may fail. */
  method ReleaseLock(disk: Disk) returns (ok: bool)
    modifies disk`faults
    ensures disk.faults == if ok then old(disk.faults) else old(disk.faults) + 1
  {
    ok := true;
    if * {
      disk.faults := disk.faults + 1;
      ok := false;
    }
  }

  /** What the crash property needs while a guard goes: present, or everything else is gone. */
  lemma GuardDeleted(disk: Disk, log: seq<Path>, guard: Path, plan: Plan, from: nat)
    requires disk.Valid() && CrashSafe(disk.origin, log, from, plan)
    requires disk.deleted == log || disk.deleted == log + [guard]
    requires plan.config in disk.tree || NoStray(disk.tree, plan)
    ensures CrashSafe(disk.origin, disk.deleted, from, plan)
  {
    if disk.deleted != log {
      CrashSafeOneMore(disk.origin, log, guard, from, plan);
    }
  }

  /** The tree without the lock file, unless it is user data. */
  ghost predicate LockRemoved(before: Tree, after: Tree, plan: Plan) {
    && SubTree(after, before)
    && forall p | p in before :: p in after <==> (p in plan.held ==> Within(p, plan.users))
  }

  lemma StuckSplit(before: Tree, after: Tree, plan: Plan)
    requires LockRemoved(before, after, plan) && forall h | h in plan.held :: !Stuck(before, h, plan.users)
    ensures GuardsStuck(before, plan) <==> Stuck(after, plan.config, plan.users)
  {
  }

  /** The lock is released, then its file removed. */
  method RemoveLock(disk: Disk, plan: Plan, ghost from: nat, ghost present: bool) returns (ok: bool)
    requires disk.Valid() && plan.Valid() && PassSettled(disk.tree, plan, plan.Guarded())
    requires present ==> plan.config in disk.tree && CrashSafe(disk.origin, disk.deleted, from, plan)
    modifies disk
    ensures disk.Valid() && old(disk.deleted) <= disk.deleted && SubTree(disk.tree, old(disk.tree))
    ensures forall p | p in old(disk.tree) && (p !in plan.held || Within(p, plan.users)) :: p in disk.tree
    ensures present ==> CrashSafe(disk.origin, disk.deleted, from, plan)
    ensures present && plan.config !in disk.tree ==> NoStray(disk.tree, plan)
    ensures old(disk.faults) <= disk.faults
    ensures ok <==> disk.faults == old(disk.faults) && forall h | h in plan.held :: !Stuck(old(disk.tree), h, plan.users)
    ensures ok ==> LockRemoved(old(disk.tree), disk.tree, plan)
    ensures ok ==> forall i | 0 <= i < |plan.held| :: Within(plan.held[i], plan.users) || Gone(disk.tree, plan.held[i])
  {
    ok := true;
    if |plan.held| == 1 {
      ok := ReleaseLock(disk);
      if ok {
        ok := RemoveGuard(disk, plan.held[0], plan.users);
        TargetsStaySettled(old(disk.tree), disk.tree, plan, |plan.targets|, plan.Guarded());
        if present && plan.config !in disk.tree {
          assert plan.config == plan.held[0];
          GuardsGone(disk.tree, plan);
        }
        if present {
          GuardDeleted(disk, old(disk.deleted), plan.held[0], plan, from);
        }
      }
    }
  }

  method RemoveConfig(disk: Disk, plan: Plan, ghost from: nat, ghost present: bool) returns (ok: bool)
    requires disk.Valid() && plan.Valid() && PassSettled(disk.tree, plan, plan.Guarded())
    requires forall i | 0 <= i < |plan.held| :: Within(plan.held[i], plan.users) || Gone(disk.tree, plan.held[i])
    requires present ==> CrashSafe(disk.origin, disk.deleted, from, plan)
    modifies disk
    ensures disk.Valid() && old(disk.deleted) <= disk.deleted && SubTree(disk.tree, old(disk.tree))
    ensures forall p | p in old(disk.tree) && (p != plan.config || Within(p, plan.users)) :: p in disk.tree
    ensures present ==> CrashSafe(disk.origin, disk.deleted, from, plan)
    ensures old(disk.faults) <= disk.faults
    ensures ok <==> disk.faults == old(disk.faults) && !Stuck(old(disk.tree), plan.config, plan.users)
    ensures ok ==> Within(plan.config, plan.users) || Gone(disk.tree, plan.config)
  {
    ok := RemoveGuard(disk, plan.config, plan.users);
    TargetsStaySettled(old(disk.tree), disk.tree, plan, |plan.targets|, plan.Guarded());
    if present && ok {
      if plan.config !in disk.tree {
        GuardsGone(disk.tree, plan);
      }
      GuardDeleted(disk, old(disk.deleted), plan.config, plan, from);
    }
  }

  /** Between the passes: release the lock, then remove lock file and configuration in that order. */
  method RemoveGuards(disk: Disk, plan: Plan, ghost from: nat, ghost present: bool) returns (ok: bool)
    requires disk.Valid() && plan.Valid() && PassSettled(disk.tree, plan, plan.Guarded())
    requires present ==> plan.config in disk.tree && CrashSafe(disk.origin, disk.deleted, from, plan)
    modifies disk
    ensures disk.Valid() && old(disk.deleted) <= disk.deleted
    ensures SubTree(disk.tree, old(disk.tree))
    ensures forall p | p in old(disk.tree) && ((p != plan.config && p !in plan.held) || Within(p, plan.users)) :: p in disk.tree
    ensures present ==> CrashSafe(disk.origin, disk.deleted, from, plan)
    ensures old(disk.faults) <= disk.faults
    ensures ok <==> disk.faults == old(disk.faults) && !GuardsStuck(old(disk.tree), plan)
    ensures ok ==> PassSettled(disk.tree, plan, plan.Guarded())
    ensures ok ==> Within(plan.config, plan.users) || Gone(disk.tree, plan.config)
    ensures ok ==> forall i | 0 <= i < |plan.held| :: Within(plan.held[i], plan.users) || Gone(disk.tree, plan.held[i])
  {
    ok := RemoveLock(disk, plan, from, present);
    TargetsStaySettled(old(disk.tree), disk.tree, plan, |plan.targets|, plan.Guarded());
    if ok {
      ghost var unlocked := disk.tree;
      StuckSplit(old(disk.tree), unlocked, plan);
      ok := RemoveConfig(disk, plan, from, present);
      TargetsStaySettled(unlocked, disk.tree, plan, |plan.targets|, plan.Guarded());
    }
  }

  // ----- Validation ----------------------------------------------------------------

  /** No registered user directory is a target or lies above one. */
  ghost predicate Validated(plan: Plan) {
    forall i | 0 <= i < |plan.targets| :: !Within(plan.targets[i], plan.users)
  }

  method ValidateProtectedUserDirectories(targets: seq<Path>, users: seq<Path>) returns (ok: bool)
    requires AllClean(targets) && AllClean(users)
    ensures ok <==> forall i | 0 <= i < |targets| :: !Within(targets[i], users)
  {
    for i := 0 to |users|
      invariant forall k, j | 0 <= k < i && 0 <= j < |targets| :: !(users[k] <= targets[j])
    {
      for j := 0 to |targets|
        invariant forall m | 0 <= m < j :: !(users[i] <= targets[m])
      {
        ContainsIsStrictPrefix(users[i], targets[j]);
        if SamePurgePath(users[i], targets[j]) || ContainsPurgePath(users[i], targets[j]) {
          return false;
        }
      }
    }
    ok := true;
  }

  /** A validated purge removes the configuration and every target without user data below it. */
  lemma ValidatedPurge(t: Tree, plan: Plan)
    requires Validated(plan) && plan.config in plan.targets
    ensures plan.config !in PurgeResult(t, plan)
    ensures forall i | 0 <= i < |plan.targets| && !Above(plan.targets[i], plan.users) ::
      Gone(PurgeResult(t, plan), plan.targets[i])
  {
    var result := PurgeResult(t, plan);
    forall i, p | 0 <= i < |plan.targets| && !Above(plan.targets[i], plan.users) && p in result && plan.targets[i] <= p
      ensures false
    {
      UnprotectedSubtree(plan.targets[i], p, plan.users);
    }
  }

  /** The guards that a purge deletes although a user directory is registered below them. */
  ghost predicate ShadowsUser(g: Path, t: Tree, plan: Plan) {
    g in t && Targeted(g, plan) && Above(g, plan.users) && !Within(g, plan.users)
  }

  /**
   Under the targets exactly the user directories and what leads to them survive
   if and only if no user directory is registered below the configuration file or
   the held lock file.
   */
  lemma SurvivorsAreKeptIff(t: Tree, plan: Plan)
    ensures (forall p | p in t && Targeted(p, plan) :: p in PurgeResult(t, plan) <==> Kept(p, plan.users))
       <==> (!ShadowsUser(plan.config, t, plan) && forall h | h in plan.held :: !ShadowsUser(h, t, plan))
  {
    var result := PurgeResult(t, plan);
    if ShadowsUser(plan.config, t, plan) {
      assert plan.config !in result;
    }
    if h :| h in plan.held && ShadowsUser(h, t, plan) {
      assert h !in result;
    }
  }

  /** A validated purge plan for which a node above a registered user directory is deleted. */
  lemma ConfigurationAboveUserDirectory(plan: Plan, t: Tree)
    requires plan == Plan([["a"], ["a", "c"]], ["a", "c"], [], [["a", "c", "u"]])
    requires t == map[[] := Dir, ["a"] := Dir, ["a", "c"] := File]
    ensures plan.config in plan.targets && Validated(plan)
    ensures Kept(["a", "c"], plan.users) && Targeted(["a", "c"], plan)
    ensures ["a", "c"] !in PurgeResult(t, plan) && ["a"] in PurgeResult(t, plan)
  {
    var u := plan.users[0];
    assert ["a", "c"] == u[..2] && ["a"] == u[..1];
    assert plan.targets[0] == ["a", "c"][..1] && plan.targets[1] == plan.config;
  }

  /** The deleting half of `data purge --yes`: refuse, or purge. */
  method PurgeData(disk: Disk, plan: Plan) returns (refused: bool, ok: bool)
    requires disk.Valid() && plan.Valid() && plan.config in plan.targets
    modifies disk
    ensures disk.Valid()
    ensures refused <==> !Validated(plan)
    ensures refused ==> disk.tree == old(disk.tree) && disk.deleted == old(disk.deleted) && !ok
    ensures forall p | p in old(disk.tree) && Within(p, plan.users) :: p in disk.tree
    ensures ok <==> Validated(plan) && disk.faults == old(disk.faults) && !Obstructed(old(disk.tree), plan)
    ensures ok ==> disk.tree == PurgeResult(old(disk.tree), plan)
    ensures ok ==> plan.config !in disk.tree
    ensures ok ==> forall i | 0 <= i < |plan.targets| && !Above(plan.targets[i], plan.users) ::
      Gone(disk.tree, plan.targets[i])
  {
    var valid := ValidateProtectedUserDirectories(plan.targets, plan.users);
    if !valid {
      return true, false;
    }
    refused := false;
    ok := RemovePurgeTargets(disk, plan);
    if ok {
      ValidatedPurge(old(disk.tree), plan);
    }
  }
}
