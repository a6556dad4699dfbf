/**
 Membership of tab groups under one tab-group-change event, which Chrome delivers to
 the listeners of all connected groups one after another.
 */
module Membership {
  import opened Options

  type Tab = int

  datatype Group = Group(id: Option<int>, members: set<Tab>)

  /** _onTabGroupChanged of one group; `reserved` says that another group lists the tab. */
  function Changed(g: Group, t: Tab, groupId: int, reserved: bool): Group {
    var inOurs := g.id == Some(groupId);
    if inOurs == (t in g.members) then g
    else if inOurs then (if reserved then g else g.(members := g.members + {t}))
    else g.(members := g.members - {t})
  }

  predicate Reserved(gs: seq<Group>, i: nat, t: Tab) {
    exists j :: 0 <= j < |gs| && j != i && t in gs[j].members
  }

  /** The listener of group `i` runs; if its relay closes meanwhile, its members are cleared. */
  function Listen(gs: seq<Group>, i: nat, t: Tab, groupId: int, closes: bool): seq<Group>
    requires i < |gs|
  {
    var g := Changed(gs[i], t, groupId, Reserved(gs, i, t));
    gs[i := if closes && g != gs[i] then g.(members := {}) else g]
  }

  /** All listeners run in the given order. */
  function Dispatch(gs: seq<Group>, order: seq<nat>, t: Tab, groupId: int, closing: set<nat>): (r: seq<Group>)
    requires forall k | 0 <= k < |order| :: order[k] < |gs|
    ensures |r| == |gs|
  {
    if order == [] then gs else
      var last := order[|order| - 1];
      Listen(Dispatch(gs, order[..|order| - 1], t, groupId, closing), last, t, groupId, last in closing)
  }

  ghost predicate Disjoint(gs: seq<Group>) {
    forall i, j | 0 <= i < j < |gs| :: gs[i].members !! gs[j].members
  }

  ghost predicate DistinctIds(gs: seq<Group>) {
    forall i, j | 0 <= i < j < |gs| :: gs[i].id.Some? ==> gs[i].id != gs[j].id
  }

  /** Whatever the order, and whichever relays close on the way, no tab ends up in two groups. */
  lemma {:induction false} DispatchKeepsDisjoint(gs: seq<Group>, order: seq<nat>, t: Tab, groupId: int, closing: set<nat>)
    requires Disjoint(gs) && forall k | 0 <= k < |order| :: order[k] < |gs|
    ensures Disjoint(Dispatch(gs, order, t, groupId, closing))
  {
    if order != [] {
      var front, last := order[..|order| - 1], order[|order| - 1];
      DispatchKeepsDisjoint(gs, front, t, groupId, closing);
      ListenKeepsDisjoint(Dispatch(gs, front, t, groupId, closing), last, t, groupId, last in closing);
    }
  }

  lemma ListenKeepsDisjoint(gs: seq<Group>, i: nat, t: Tab, groupId: int, closes: bool)
    requires Disjoint(gs) && i < |gs|
    ensures Disjoint(Listen(gs, i, t, groupId, closes))
  {
  }

  /** A listener touches its own group alone: the tab joins, leaves or stays, and if the relay closes over it, all leave. */
  lemma ListenOutcome(gs: seq<Group>, i: nat, t: Tab, groupId: int, closes: bool)
    requires i < |gs|
    ensures
      var r := Listen(gs, i, t, groupId, closes);
      var moves := (gs[i].id == Some(groupId)) != (t in gs[i].members)
                   && !(gs[i].id == Some(groupId) && exists j :: 0 <= j < |gs| && j != i && t in gs[j].members);
      && (forall j | 0 <= j < |gs| && j != i :: r[j] == gs[j]) && r[i].id == gs[i].id
      && r[i].members ==
         if !moves then gs[i].members
         else if closes then {}
         else if t in gs[i].members then gs[i].members - {t} else gs[i].members + {t}
  {
  }

  // ----- The exact outcome -----------------------------------------------------------

  ghost predicate NoRepeats(order: seq<nat>) {
    forall a, b | 0 <= a < b < |order| :: order[a] != order[b]
  }

  /** Nobody but group `i` listed the tab when its listener ran. */
  ghost predicate Unclaimed(gs: seq<Group>, order: seq<nat>, i: nat, t: Tab) {
    forall j | 0 <= j < |gs| && j != i && t in gs[j].members :: RunsBefore(order, j, i)
  }

  ghost predicate RunsBefore(order: seq<nat>, j: nat, i: nat) {
    exists a, b :: 0 <= a < b < |order| && order[a] == j && order[b] == i
  }

  /** Where the tab belongs afterwards. */
  ghost predicate Belongs(gs: seq<Group>, order: seq<nat>, i: nat, t: Tab, groupId: int)
    requires i < |gs|
  {
    gs[i].id == Some(groupId) && (t in gs[i].members || Unclaimed(gs, order, i, t))
  }

  /**
   The tab is listed afterwards exactly by the group it moved into, and there only if
   every other group that listed it was told earlier; all other members stay.
   */
  lemma {:induction false} DispatchOutcome(gs: seq<Group>, order: seq<nat>, t: Tab, groupId: int, i: nat)
    requires NoRepeats(order) && DistinctIds(gs) && i < |gs|
    requires forall k | 0 <= k < |order| :: order[k] < |gs|
    ensures
      var r := Dispatch(gs, order, t, groupId, {});
      && r[i].id == gs[i].id && r[i].members - {t} == gs[i].members - {t}
      && (i !in order ==> r[i] == gs[i])
      && (i in order ==> (t in r[i].members <==> Belongs(gs, order, i, t, groupId)))
  {
    if order != [] {
      var front, last := order[..|order| - 1], order[|order| - 1];
      var before := Dispatch(gs, front, t, groupId, {});
      forall j | 0 <= j < |gs|
        ensures before[j].id == gs[j].id && before[j].members - {t} == gs[j].members - {t}
        ensures j !in front ==> before[j] == gs[j]
        ensures j in front ==> (t in before[j].members <==> Belongs(gs, front, j, t, groupId))
      {
        DispatchOutcome(gs, front, t, groupId, j);
      }
      assert last !in front;
      if i == last {
        if gs[i].id == Some(groupId) && t !in gs[i].members {
          LastListener(gs, order, t, groupId, before);
        }
      } else if i in front {
        EarlierListener(gs, order, i, t);
      }
    }
  }

  /** For the last listener the tab is free exactly when all its other holders ran before. */
  lemma LastListener(gs: seq<Group>, order: seq<nat>, t: Tab, groupId: int, before: seq<Group>)
    requires order != [] && NoRepeats(order) && DistinctIds(gs) && |before| == |gs|
    requires forall k | 0 <= k < |order| :: order[k] < |gs|
    requires gs[order[|order| - 1]].id == Some(groupId)
    requires forall j | 0 <= j < |gs| && j !in order[..|order| - 1] :: before[j] == gs[j]
    requires forall j | 0 <= j < |gs| && j in order[..|order| - 1] ::
      t in before[j].members <==> Belongs(gs, order[..|order| - 1], j, t, groupId)
    ensures !Reserved(before, order[|order| - 1], t) <==> Unclaimed(gs, order, order[|order| - 1], t)
  {
    var front, last := order[..|order| - 1], order[|order| - 1];
    forall j | 0 <= j < |gs| && j != last
      ensures t in before[j].members <==> t in gs[j].members && !RunsBefore(order, j, last)
    {
      assert gs[j].id != Some(groupId);
      if j in front {
        var a :| 0 <= a < |front| && front[a] == j;
        assert order[a] == j && order[|order| - 1] == last;
      } else {
        assert forall a | 0 <= a < |order| - 1 :: order[a] == front[a];
      }
    }
  }

  /** Later listeners do not change what was free for an earlier one. */
  lemma EarlierListener(gs: seq<Group>, order: seq<nat>, i: nat, t: Tab)
    requires order != [] && NoRepeats(order) && i in order[..|order| - 1]
    ensures Unclaimed(gs, order, i, t) <==> Unclaimed(gs, order[..|order| - 1], i, t)
  {
    var front := order[..|order| - 1];
    forall j: nat ensures RunsBefore(order, j, i) <==> RunsBefore(front, j, i) {
      if RunsBefore(order, j, i) {
        var a, b :| 0 <= a < b < |order| && order[a] == j && order[b] == i;
        assert b < |front|;
        assert front[a] == j && front[b] == i;
      }
      if RunsBefore(front, j, i) {
        var a, b :| 0 <= a < b < |front| && front[a] == j && front[b] == i;
        assert order[a] == j && order[b] == i;
      }
    }
  }

  class ConnectedTabGroup {
    var groupId: Option<int>
    var members: set<Tab>

    function View(): Group
      reads this
    {
      Group(groupId, members)
    }

    method OnTabGroupChanged(t: Tab, newGroup: int, reserved: bool)
      modifies this
      ensures View() == Changed(old(View()), t, newGroup, reserved)
    {
      var inOurGroup := groupId.Some? && groupId.value == newGroup;
      var wasInGroup := t in members;
      if inOurGroup == wasInGroup {
        return;
      }
      if inOurGroup {
        if reserved {
          return;
        }
        members := members + {t};
      } else {
        members := members - {t};
      }
    }
  }
}
