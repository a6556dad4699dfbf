/**
 One route's tab group between its relay and the ownership rows: which of its reports
 still reach an open route.  The group reports its tabs at the end of each change of
 membership, also when the change has just closed the relay, and with it the route.
 */
module GroupReports {
  import opened Options
  import Relay
  import Ownership

  type Tab = int

  datatype World = World(
    relay: Relay.World,
    rows: Ownership.State,
    route: Ownership.Route,
    group: Option<int>,           // the Chrome group, once it exists
    members: seq<Tab>)            // a Set in insertion order

  /** The route has just been opened. */
  function Start(left: seq<Ownership.Row>, route: Ownership.Route): World {
    World(Relay.Start, Ownership.OpenRoute(Ownership.Init(left), route), route, None, [])
  }

  predicate Closed(w: World) {
    w.relay.relay.closed
  }

  function Without(tabs: seq<Tab>, t: Tab): (r: seq<Tab>)
    ensures t !in r
  {
    if tabs == [] then []
    else if tabs[0] == t then Without(tabs[1..], t)
    else [tabs[0]] + Without(tabs[1..], t)
  }

  /** The relay moves on; closing it clears the group and releases the route on the spot. */
  function Follow(w: World, relay: Relay.World): World {
    if relay.relay.closed && !Closed(w)
    then w.(relay := relay, members := [], rows := Ownership.ReleaseRoute(w.rows, w.route))
    else w.(relay := relay)
  }

  function Report(w: World): World {
    if w.group.None? then w else w.(rows := Ownership.OnGroup(w.rows, w.route, w.group.value, w.members))
  }

  /** The tab entered the Chrome group of this route. */
  function Join(w: World, t: Tab, reserved: bool, debuggable: bool, lost: bool): World {
    if reserved then w else
      var joined := w.(members := w.members + [t]);
      Report(if debuggable then Follow(joined, Relay.Step(w.relay, Relay.UserAdds(t, lost))) else joined)
  }

  /** The tab left it. */
  function Leave(w: World, t: Tab, lost: bool): World {
    var parted := w.(members := Without(w.members, t));
    Report(if t in w.relay.relay.attached then Follow(parted, Relay.Step(w.relay, Relay.UserRemoves(t, lost))) else parted)
  }

  /** _onTabGroupChanged; its listener is gone once the relay is closed. */
  function Change(w: World, t: Tab, ours: bool, reserved: bool, debuggable: bool, lost: bool): World {
    var inOurs := w.group.Some? && ours;
    if Closed(w) || inOurs == (t in w.members) then w
    else if inOurs then Join(w, t, reserved, debuggable, lost)
    else Leave(w, t, lost)
  }

  /** The end of _groupTab: the tab is in the Chrome group, which may have been made for it. */
  function Gather(w: World, t: Tab, id: int): World {
    if Closed(w) then w else
      Report(w.(group := if w.group.None? then Some(id) else w.group, members := Ownership.Including(w.members, t)))
  }

  /** An attach command: accepted, it first asks for its ownership write. */
  function Ask(w: World, t: Tab): World {
    if Closed(w) || t !in w.relay.relay.owned then w else
      w.(relay := Relay.Step(w.relay, Relay.AttachCommand(t)), rows := Ownership.BeforeAttach(w.rows, w.route, t))
  }

  /** It resumes when its write has settled. */
  function Resume(w: World, write: nat): World {
    if write !in w.rows.tickets || !Ownership.IsSettled(w.rows, write) || w.rows.tickets[write].route != w.route then w else
      var ok := w.rows.writes[write].status.ok && w.route in w.rows.live;
      w.(rows := Ownership.Resume(w.rows, write),
         relay := Relay.Step(w.relay, Relay.SaveDone(w.rows.tickets[write].tab, ok)))
  }

  datatype Event =
    | RelayEvent(event: Relay.Event)
    | AttachAsked(tab: Tab)
    | AttachResumed(write: nat)
    | GroupChange(tab: Tab, ours: bool, reserved: bool, debuggable: bool, lost: bool)
    | Gathered(tab: Tab, id: int)
    | TabRemoved(tab: Tab)
    | RowsEvent(other: Ownership.Event)

  /** Attach commands and their resumption have events of their own. */
  predicate OfRelay(e: Relay.Event) {
    !e.AttachCommand? && !e.SaveDone?
  }

  /** What happens to the rows without this route: other routes, and Chrome's storage. */
  predicate OfOthers(route: Ownership.Route, tickets: map<nat, Ownership.Ticket>, e: Ownership.Event) {
    match e
    case Opened(r) => r != route
    case Released(r) => r != route
    case Grouped(r, _, _) => r != route
    case AttachAsked(r, _) => r != route
    case Resumed(write) => write in tickets && tickets[write].route != route
    case WriteIssued(_) => true
    case WriteSettled(_, _) => true
  }

  function Step(w: World, e: Event): World {
    match e
    case RelayEvent(x) => if OfRelay(x) then Follow(w, Relay.Step(w.relay, x)) else w
    case AttachAsked(t) => Ask(w, t)
    case AttachResumed(write) => Resume(w, write)
    case GroupChange(t, ours, reserved, debuggable, lost) => Change(w, t, ours, reserved, debuggable, lost)
    case Gathered(t, id) => Gather(w, t, id)
    case TabRemoved(t) => if Closed(w) then w else Report(w.(members := Without(w.members, t)))
    case RowsEvent(x) => if OfOthers(w.route, w.rows.tickets, x) then w.(rows := Ownership.Step(w.rows, x)) else w
  }

  function Run(w: World, es: seq<Event>): World {
    if es == [] then w else Step(Run(w, es[..|es| - 1]), es[|es| - 1])
  }

  // ----- Which reports come late ----------------------------------------------------------

  /** The tab that leaves takes the relay with it: its notice is refused, or nothing else is attached or pending. */
  predicate LeavesLast(r: Relay.State, t: Tab, lost: bool) {
    t in r.attached && (lost || (r.attached == {t} && r.pending == {}))
  }

  /** The tab that enters is announced to a socket that refuses the notice. */
  predicate JoinsInVain(r: Relay.State, t: Tab, lost: bool) {
    t !in r.attached && lost
  }

  predicate Late(w: World, e: Event) {
    && e.GroupChange? && !Closed(w) && w.group.Some?
    && if e.ours
       then e.tab !in w.members && !e.reserved && e.debuggable && JoinsInVain(w.relay.relay, e.tab, e.lost)
       else e.tab in w.members && LeavesLast(w.relay.relay, e.tab, e.lost)
  }

  ghost predicate HasRow(w: World) {
    Ownership.Listed(w.rows.table, w.route)
  }

  /** A row of the closed route is left among the ownership rows. */
  ghost predicate Stale(w: World) {
    Closed(w) && HasRow(w)
  }

  ghost predicate Inv(w: World) {
    && Relay.Consistent(w.relay.relay)
    && Ownership.TableInv(w.rows)
    && (Closed(w) <==> w.route !in w.rows.live)
    && (Closed(w) ==> w.members == [])
  }

  lemma LeaveCloses(r: Relay.State, t: Tab, lost: bool)
    requires Relay.Consistent(r) && !r.closed
    ensures Relay.DetachTab(r, t, lost).closed <==> LeavesLast(r, t, lost)
  {
    assert r.attached - {t} == {} && t in r.attached ==> r.attached == {t};
  }

  lemma JoinCloses(r: Relay.State, t: Tab, lost: bool)
    requires Relay.Consistent(r) && !r.closed
    ensures Relay.AttachTab(r, t, lost).closed <==> JoinsInVain(r, t, lost)
  {
  }

  // ----- One step ---------------------------------------------------------------------------

  lemma FollowInv(w: World, relay: Relay.World)
    requires Ownership.TableInv(w.rows) && (Closed(w) <==> w.route !in w.rows.live) && (Closed(w) ==> w.members == [])
    requires Relay.Consistent(relay.relay) && (Closed(w) ==> relay.relay.closed)
    ensures Inv(Follow(w, relay))
    ensures Closed(Follow(w, relay)) && !Closed(w) ==> !HasRow(Follow(w, relay))
    ensures Closed(w) || !Closed(Follow(w, relay)) ==> Follow(w, relay).rows == w.rows
  {
    Ownership.StepTable(w.rows, Ownership.Released(w.route));
    Ownership.RemoveListed(w.rows.table, w.route, w.route);
  }

  lemma ReportInv(w: World)
    requires Inv(w)
    ensures Inv(Report(w)) && Report(w).relay == w.relay
    ensures HasRow(Report(w)) <==> w.group.Some? || HasRow(w)
  {
    if w.group.Some? {
      Ownership.StepTable(w.rows, Ownership.Grouped(w.route, w.group.value, w.members));
      Ownership.PutListed(w.rows.table, w.route, Ownership.Row(w.group.value, w.members), w.route);
    }
  }

  lemma RelayStays(w: Relay.World, e: Relay.Event)
    requires Relay.Consistent(w.relay)
    ensures Relay.Consistent(Relay.Step(w, e).relay) && (w.relay.closed ==> Relay.Step(w, e).relay.closed)
  {
    Relay.StepConsistent(w, e);
    if w.relay.closed {
      Relay.ClosedRelayWindsDown(w, e);
    }
  }

  /** One step leaves a row of the closed route exactly if it was there or the step reports late. */
  ghost predicate Exact(w: World, e: Event) {
    Inv(Step(w, e)) && (Stale(Step(w, e)) <==> Stale(w) || Late(w, e))
  }

  lemma JoinExact(w: World, e: Event)
    requires Inv(w) && e.GroupChange? && !Closed(w) && w.group.Some? && e.ours && e.tab !in w.members
    ensures Exact(w, e)
  {
    if !e.reserved {
      var joined := w.(members := w.members + [e.tab]);
      var relay := Relay.Step(w.relay, Relay.UserAdds(e.tab, e.lost));
      RelayStays(w.relay, Relay.UserAdds(e.tab, e.lost));
      FollowInv(joined, relay);
      JoinCloses(w.relay.relay, e.tab, e.lost);
      ReportInv(Follow(joined, relay));
      ReportInv(joined);
    }
  }

  lemma LeaveExact(w: World, e: Event)
    requires Inv(w) && e.GroupChange? && !Closed(w) && !(w.group.Some? && e.ours) && e.tab in w.members
    ensures Exact(w, e)
  {
    var parted := w.(members := Without(w.members, e.tab));
    var relay := Relay.Step(w.relay, Relay.UserRemoves(e.tab, e.lost));
    RelayStays(w.relay, Relay.UserRemoves(e.tab, e.lost));
    FollowInv(parted, relay);
    LeaveCloses(w.relay.relay, e.tab, e.lost);
    ReportInv(Follow(parted, relay));
    ReportInv(parted);
  }

  lemma CommandExact(w: World, e: Event)
    requires Inv(w) && (e.AttachAsked? || e.AttachResumed?)
    ensures Exact(w, e)
  {
    match e {
      case AttachAsked(t) => Ownership.StepTable(w.rows, Ownership.AttachAsked(w.route, t));
      case AttachResumed(write) => Ownership.StepTable(w.rows, Ownership.Resumed(write));
    }
  }

  lemma RowsExact(w: World, x: Ownership.Event)
    requires Inv(w)
    ensures Exact(w, RowsEvent(x))
  {
    Ownership.StepTable(w.rows, x);
    if OfOthers(w.route, w.rows.tickets, x) {
      OthersKeepRow(w, x);
    }
  }

  lemma OthersKeepRow(w: World, x: Ownership.Event)
    requires Inv(w) && OfOthers(w.route, w.rows.tickets, x)
    ensures Ownership.Listed(Ownership.Step(w.rows, x).table, w.route) <==> HasRow(w)
    ensures w.route in Ownership.Step(w.rows, x).live <==> w.route in w.rows.live
  {
    match x {
      case Released(q) => Ownership.RemoveListed(w.rows.table, q, w.route);
      case Grouped(q, group, tabs) => Ownership.PutListed(w.rows.table, q, Ownership.Row(group, tabs), w.route);
      case AttachAsked(q, tab) =>
        var was := Ownership.Lookup(w.rows.table, q);
        Ownership.PutListed(w.rows.table, q, Ownership.Row(was.group, Ownership.Including(was.tabs, tab)), w.route);
      case _ =>
    }
  }

  lemma StepExact(w: World, e: Event)
    requires Inv(w)
    ensures Exact(w, e)
  {
    match e {
      case RelayEvent(x) =>
        RelayStays(w.relay, x);
        FollowInv(w, Relay.Step(w.relay, x));
      case AttachAsked(_) => CommandExact(w, e);
      case AttachResumed(_) => CommandExact(w, e);
      case GroupChange(t, ours, _, _, _) =>
        if !Closed(w) && (w.group.Some? && ours) != (t in w.members) {
          if w.group.Some? && ours { JoinExact(w, e); } else { LeaveExact(w, e); }
        }
      case Gathered(t, id) =>
        if !Closed(w) {
          ReportInv(w.(group := if w.group.None? then Some(id) else w.group, members := Ownership.Including(w.members, t)));
        }
      case TabRemoved(t) =>
        if !Closed(w) {
          ReportInv(w.(members := Without(w.members, t)));
        }
      case RowsEvent(x) => RowsExact(w, x);
    }
  }

  // ----- Who is a member, and what is reported -------------------------------------------------

  lemma WithoutIs(tabs: seq<Tab>, t: Tab, u: Tab)
    ensures u in Without(tabs, t) <==> u in tabs && u != t
  {
  }

  predicate Enters(w: World, e: Event, t: Tab) {
    || (e.Gathered? && e.tab == t)
    || (e.GroupChange? && e.tab == t && w.group.Some? && e.ours && !e.reserved)
  }

  predicate Exits(w: World, e: Event, t: Tab) {
    || e == TabRemoved(t)
    || (e.GroupChange? && e.tab == t && !(w.group.Some? && e.ours))
  }

  /** While the relay is open, a tab is a member from when it enters the Chrome group to when it leaves; then nothing is. */
  lemma MembersIff(w: World, e: Event, t: Tab)
    requires Inv(w) && !Closed(w)
    ensures !Closed(Step(w, e)) ==> (t in Step(w, e).members <==> Enters(w, e, t) || (t in w.members && !Exits(w, e, t)))
    ensures Closed(Step(w, e)) ==> Step(w, e).members == []
  {
    StepExact(w, e);
    match e {
      case GroupChange(_, _, _, _, _) =>
        if !Closed(Step(w, e)) { ChangeMembers(w, e, t); }
      case TabRemoved(u) => WithoutIs(w.members, u, t);
      case Gathered(_, _) =>
      case _ => assert !Closed(Step(w, e)) ==> Step(w, e).members == w.members;
    }
  }

  lemma ChangeMembers(w: World, e: Event, t: Tab)
    requires !Closed(w) && e.GroupChange? && !Closed(Step(w, e))
    ensures t in Step(w, e).members <==> Enters(w, e, t) || (t in w.members && !Exits(w, e, t))
  {
    WithoutIs(w.members, e.tab, t);
  }

  // ----- Attach commands ------------------------------------------------------------------------

  /** The route's own tickets were given out to its one socket. */
  ghost predicate OwnTickets(w: World) {
    forall k | k in w.rows.tickets && w.rows.tickets[k].route == w.route ::
      w.route in w.rows.live ==> w.rows.tickets[k].socket == w.rows.live[w.route]
  }

  lemma RowsKeepTickets(w: World, v: World)
    requires OwnTickets(w) && v.route == w.route
    requires forall k | k in v.rows.tickets :: k in w.rows.tickets && v.rows.tickets[k] == w.rows.tickets[k]
    requires w.route in v.rows.live ==> w.route in w.rows.live && v.rows.live[w.route] == w.rows.live[w.route]
    ensures OwnTickets(v)
  {
  }

  lemma OthersKeepTickets(w: World, x: Ownership.Event)
    requires OwnTickets(w) && OfOthers(w.route, w.rows.tickets, x)
    ensures OwnTickets(w.(rows := Ownership.Step(w.rows, x)))
  {
    Ownership.OpenIff(w.rows, x, w.route);
    if x.AttachAsked? {
      forall k | k in Ownership.Step(w.rows, x).tickets && k !in w.rows.tickets
        ensures Ownership.Step(w.rows, x).tickets[k].route != w.route
      {
        Ownership.TicketsIff(w.rows, x, k);
      }
    } else {
      RowsKeepTickets(w, w.(rows := Ownership.Step(w.rows, x)));
    }
  }

  lemma StepOwnTickets(w: World, e: Event)
    requires OwnTickets(w)
    ensures OwnTickets(Step(w, e))
  {
    match e {
      case RowsEvent(x) =>
        if OfOthers(w.route, w.rows.tickets, x) { OthersKeepTickets(w, x); }
      case AttachAsked(_) =>
      case GroupChange(_, _, _, _, _) =>
        ChangeTickets(w, e);
        RowsKeepTickets(w, Step(w, e));
      case _ => RowsKeepTickets(w, Step(w, e));
    }
  }

  /** No ticket is given out, and no other socket. */
  ghost predicate SameTickets(w: World, v: World) {
    && v.route == w.route && v.rows.tickets == w.rows.tickets
    && (w.route in v.rows.live ==> w.route in w.rows.live && v.rows.live[w.route] == w.rows.live[w.route])
  }

  lemma FollowTickets(w: World, relay: Relay.World)
    ensures SameTickets(w, Follow(w, relay)) && SameTickets(w, Report(w)) && SameTickets(w, Report(Follow(w, relay)))
  {
  }

  lemma ChangeTickets(w: World, e: Event)
    requires e.GroupChange?
    ensures SameTickets(w, Step(w, e))
  {
    var joined, parted := w.(members := w.members + [e.tab]), w.(members := Without(w.members, e.tab));
    FollowTickets(joined, Relay.Step(w.relay, Relay.UserAdds(e.tab, e.lost)));
    FollowTickets(parted, Relay.Step(w.relay, Relay.UserRemoves(e.tab, e.lost)));
  }

  lemma {:induction false} EveryRunOwnTickets(left: seq<Ownership.Row>, route: Ownership.Route, es: seq<Event>)
    ensures OwnTickets(Run(Start(left, route), es))
  {
    if es != [] {
      EveryRunOwnTickets(left, route, es[..|es| - 1]);
      StepOwnTickets(Run(Start(left, route), es[..|es| - 1]), es[|es| - 1]);
    }
  }

  /** An attach command is accepted for an owned tab of an open relay; then the relay waits and a write is asked for. */
  lemma AcceptedIff(w: World, t: Tab)
    requires Inv(w)
    ensures
      var v, accepted := Step(w, AttachAsked(t)), !Closed(w) && t in w.relay.relay.owned;
      && v.relay.saving == (if accepted then w.relay.saving + multiset{t} else w.relay.saving)
      && |v.rows.writes| == |w.rows.writes| + (if accepted then 1 else 0)
      && (accepted ==> |w.rows.writes| in v.rows.tickets && v.rows.tickets[|w.rows.writes|].tab == t
                       && IsListed(v, t))
  {
    if !Closed(w) && t in w.relay.relay.owned {
      var was := Ownership.Lookup(w.rows.table, w.route);
      Ownership.PutRow(w.rows.table, w.route, Ownership.Row(was.group, Ownership.Including(was.tabs, t)), w.route);
    }
  }

  predicate IsListed(w: World, t: Tab) {
    t in Ownership.Lookup(w.rows.table, w.route).tabs
  }

  /** An attach goes to Chrome in step with the record of it: after a successful write, over the open route. */
  lemma HandedOverIff(w: World, k: nat)
    requires Inv(w) && OwnTickets(w)
    requires k in w.rows.tickets && w.rows.tickets[k].route == w.route && Ownership.IsSettled(w.rows, k)
    requires w.rows.tickets[k].tab in w.relay.saving
    ensures
      var v, t := Step(w, AttachResumed(k)), w.rows.tickets[k].tab;
      var goes := w.rows.writes[k].status.ok && !Closed(w);
      && v.relay.calls == (if goes then w.relay.calls + multiset{t} else w.relay.calls)
      && |v.rows.attaches| == |w.rows.attaches| + (if goes then 1 else 0)
      && v.relay.saving == w.relay.saving - multiset{t} && k !in v.rows.tickets
  {
  }

  /** The event changes the membership, or claims to. */
  predicate ReportsTabs(w: World, e: Event) {
    match e
    case GroupChange(t, ours, reserved, _, _) =>
      (w.group.Some? && ours) != (t in w.members) && !(w.group.Some? && ours && reserved)
    case Gathered(_, _) => true
    case TabRemoved(_) => true
    case _ => false
  }

  /** Every change of membership puts the group and its present members into the route's row. */
  lemma ReportIsCurrent(w: World, e: Event)
    requires Inv(w) && !Closed(w) && ReportsTabs(w, e) && Step(w, e).group.Some?
    ensures Ownership.Lookup(Step(w, e).rows.table, w.route) == Ownership.Row(Step(w, e).group.value, Step(w, e).members)
  {
    var before := BeforeReport(w, e);
    assert Step(w, e) == Report(before);
    ReportRow(before);
  }

  lemma BeforeReport(w: World, e: Event) returns (before: World)
    requires Inv(w) && !Closed(w) && ReportsTabs(w, e)
    ensures Step(w, e) == Report(before) && Ownership.TableInv(before.rows) && before.route == w.route
  {
    match e {
      case GroupChange(t, ours, _, debuggable, lost) =>
        if w.group.Some? && ours {
          before := w.(members := w.members + [t]);
          if debuggable {
            RelayStays(w.relay, Relay.UserAdds(t, lost));
            FollowInv(before, Relay.Step(w.relay, Relay.UserAdds(t, lost)));
            before := Follow(before, Relay.Step(w.relay, Relay.UserAdds(t, lost)));
          }
        } else {
          before := w.(members := Without(w.members, t));
          if t in w.relay.relay.attached {
            RelayStays(w.relay, Relay.UserRemoves(t, lost));
            FollowInv(before, Relay.Step(w.relay, Relay.UserRemoves(t, lost)));
            before := Follow(before, Relay.Step(w.relay, Relay.UserRemoves(t, lost)));
          }
        }
      case Gathered(t, id) =>
        before := w.(group := if w.group.None? then Some(id) else w.group, members := Ownership.Including(w.members, t));
      case TabRemoved(t) => before := w.(members := Without(w.members, t));
    }
  }

  lemma ReportRow(w: World)
    requires Ownership.TableInv(w.rows) && w.group.Some?
    ensures Ownership.Lookup(Report(w).rows.table, w.route) == Ownership.Row(w.group.value, w.members)
  {
    Ownership.PutRow(w.rows.table, w.route, Ownership.Row(w.group.value, w.members), w.route);
  }

  // ----- Theorems ---------------------------------------------------------------------------

  lemma StartInv(left: seq<Ownership.Row>, route: Ownership.Route)
    ensures Inv(Start(left, route)) && !Stale(Start(left, route))
  {
  }

  lemma {:induction false} EveryRunInv(left: seq<Ownership.Row>, route: Ownership.Route, es: seq<Event>)
    ensures Inv(Run(Start(left, route), es))
  {
    if es == [] {
      StartInv(left, route);
    } else {
      EveryRunInv(left, route, es[..|es| - 1]);
      StepExact(Run(Start(left, route), es[..|es| - 1]), es[|es| - 1]);
    }
  }

  ghost predicate LateAt(w: World, es: seq<Event>, k: nat) {
    k < |es| && Late(Run(w, es[..k]), es[k])
  }

  lemma LateLast(w: World, front: seq<Event>, e: Event)
    ensures (exists k :: LateAt(w, front + [e], k)) <==> (exists k :: LateAt(w, front, k)) || Late(Run(w, front), e)
  {
    var es := front + [e];
    assert es[..|front|] == front;
    forall k | 0 <= k < |front| ensures LateAt(w, es, k) <==> LateAt(w, front, k) {
      assert es[..k] == front[..k];
    }
    if Late(Run(w, front), e) {
      assert LateAt(w, es, |front|);
    }
  }

  /**
   In every run a row outlives its route if and only if a tab that left the group took the
   relay with it, or a tab that entered it was announced to a refusing socket.
   */
  lemma {:induction false} RowOutlivesRouteIff(left: seq<Ownership.Row>, route: Ownership.Route, es: seq<Event>)
    ensures Stale(Run(Start(left, route), es)) <==> exists k :: LateAt(Start(left, route), es, k)
  {
    var w := Start(left, route);
    if es == [] {
      StartInv(left, route);
    } else {
      var front, e := es[..|es| - 1], es[|es| - 1];
      RowOutlivesRouteIff(left, route, front);
      EveryRunInv(left, route, front);
      StepExact(Run(w, front), e);
      assert front + [e] == es;
      LateLast(w, front, e);
    }
  }

  lemma RunLast(w: World, es: seq<Event>, e: Event)
    ensures Run(w, es + [e]) == Step(Run(w, es), e)
  {
    assert (es + [e])[..|es|] == es;
  }

  /** A tab is announced, attached behind its write, and gathered into a new group. */
  const AttachOneTab := [
    RelayEvent(Relay.UserAdds(1, false)), AttachAsked(1),
    RowsEvent(Ownership.WriteIssued(0)), RowsEvent(Ownership.WriteSettled(0, true)),
    RowsEvent(Ownership.WriteIssued(1)), RowsEvent(Ownership.WriteSettled(1, true)), AttachResumed(1),
    RelayEvent(Relay.ChromeAttaches(1, true)), RelayEvent(Relay.Deliver(false))]

  lemma AskedForOneTab(left: seq<Ownership.Row>, route: Ownership.Route) returns (w: World)
    ensures w == Run(Start(left, route), AttachOneTab[..2])
    ensures w.relay == Relay.Start.(relay := Relay.Fresh.(owned := {1}), saving := multiset{1})
    ensures w.group == None && w.members == [] && w.route == route
    ensures
      && w.rows.table == [(route, Ownership.Row(-1, [1]))]
      && w.rows.live == map[route := 0] && w.rows.tickets == map[1 := Ownership.Ticket(route, 0, 1)]
      && w.rows.writes == [Ownership.Write([], -1, Ownership.Waiting), Ownership.Write(w.rows.table, 0, Ownership.Waiting)]
  {
    var es := AttachOneTab;
    var start := Start(left, route);
    assert es[..2] == es[..1] + [es[1]] && es[..1] == [] + [es[0]];
    RunLast(start, [], es[0]);
    RunLast(start, es[..1], es[1]);
    assert Ownership.Lookup([], route) == Ownership.Row(-1, []) && Ownership.Including([], 1) == [1];
    w := Run(start, es[..2]);
  }

  lemma RowsStep(w: World, x: Ownership.Event)
    requires OfOthers(w.route, w.rows.tickets, x)
    ensures Step(w, RowsEvent(x)) == w.(rows := Ownership.Step(w.rows, x))
  {
  }

  lemma WriteSucceeds(start: World, es: seq<Event>, k: nat)
    requires Ownership.Ready(Run(start, es).rows, k)
    ensures
      var w := Run(start, es);
      Run(start, es + [RowsEvent(Ownership.WriteIssued(k))] + [RowsEvent(Ownership.WriteSettled(k, true))]) ==
        w.(rows := Ownership.Settle(Ownership.Issue(w.rows, k), k, true))
  {
    var w := Run(start, es);
    RunLast(start, es, RowsEvent(Ownership.WriteIssued(k)));
    RowsStep(w, Ownership.WriteIssued(k));
    RunLast(start, es + [RowsEvent(Ownership.WriteIssued(k))], RowsEvent(Ownership.WriteSettled(k, true)));
    RowsStep(w.(rows := Ownership.Issue(w.rows, k)), Ownership.WriteSettled(k, true));
  }

  /** The recovery's write and the attach command's own write succeed, one after the other. */
  lemma BothWritesSucceed(s: Ownership.State)
    requires |s.writes| == 2 && s.writes[0].status == Ownership.Waiting && s.writes[0].after == -1
    requires s.writes[1].status == Ownership.Waiting && s.writes[1].after == 0
    ensures Ownership.Ready(s, 0)
    ensures
      var first := Ownership.Settle(Ownership.Issue(s, 0), 0, true);
      var v := Ownership.Settle(Ownership.Issue(first, 1), 1, true);
      && Ownership.Ready(first, 1)
      && v.table == s.table && v.live == s.live && v.tickets == s.tickets
      && |v.writes| == 2 && v.writes[1].status == Ownership.Settled(true)
  {
    Ownership.WriteSucceeds(s, 0);
    Ownership.WriteSucceeds(Ownership.Settle(Ownership.Issue(s, 0), 0, true), 1);
  }

  lemma WritesDone(left: seq<Ownership.Row>, route: Ownership.Route) returns (w: World)
    ensures w == Run(Start(left, route), AttachOneTab[..6])
    ensures w.relay == Relay.Start.(relay := Relay.Fresh.(owned := {1}), saving := multiset{1})
    ensures w.group == None && w.members == [] && w.route == route
    ensures
      && w.rows.table == [(route, Ownership.Row(-1, [1]))]
      && w.rows.live == map[route := 0] && w.rows.tickets == map[1 := Ownership.Ticket(route, 0, 1)]
      && |w.rows.writes| == 2 && w.rows.writes[1].status == Ownership.Settled(true)
  {
    var es, start := AttachOneTab, Start(left, route);
    var asked := AskedForOneTab(left, route);
    BothWritesSucceed(asked.rows);
    assert es[..4] == es[..2] + [es[2]] + [es[3]] && es[..6] == es[..4] + [es[4]] + [es[5]];
    WriteSucceeds(start, es[..2], 0);
    WriteSucceeds(start, es[..4], 1);
    w := Run(start, es[..6]);
  }

  /** From the resumed attach command to the delivered reply. */
  lemma RelayAttaches(w: Relay.World)
    requires w == Relay.Start.(relay := Relay.Fresh.(owned := {1}), saving := multiset{1})
    ensures
      var v := Relay.Step(Relay.Step(Relay.Step(w, Relay.SaveDone(1, true)), Relay.ChromeAttaches(1, true)), Relay.Deliver(false));
      !v.relay.closed && v.relay.attached == {1} && v.relay.pending == {} && v.relay.hasEverAttached
  {
    var called := Relay.Step(w, Relay.SaveDone(1, true));
    assert called.calls == multiset{1};
    var replied := Relay.Step(called, Relay.ChromeAttaches(1, true));
    assert replied.inbox == [Relay.AttachReply(1, true)] && replied.relay == w.relay;
  }

  lemma ResumedOneTab(left: seq<Ownership.Row>, route: Ownership.Route) returns (w: World)
    ensures w == Run(Start(left, route), AttachOneTab[..7])
    ensures w.relay == Relay.Step(Relay.Start.(relay := Relay.Fresh.(owned := {1}), saving := multiset{1}), Relay.SaveDone(1, true))
    ensures w.group == None && w.members == [] && w.route == route && !Closed(w)
    ensures w.rows.table == [(route, Ownership.Row(-1, [1]))] && w.rows.live == map[route := 0]
  {
    var done := WritesDone(left, route);
    assert AttachOneTab[..7] == AttachOneTab[..6] + [AttachOneTab[6]];
    RunLast(Start(left, route), AttachOneTab[..6], AttachOneTab[6]);
    w := Run(Start(left, route), AttachOneTab[..7]);
  }

  lemma FollowOpen(w: World, x: Relay.Event)
    requires OfRelay(x) && !Relay.Step(w.relay, x).relay.closed
    ensures Step(w, RelayEvent(x)) == w.(relay := Relay.Step(w.relay, x))
  {
  }

  lemma AttachedOneTab(left: seq<Ownership.Row>, route: Ownership.Route) returns (w: World)
    ensures w == Run(Start(left, route), AttachOneTab)
    ensures !Closed(w) && w.relay.relay.attached == {1} && w.relay.relay.pending == {} && w.relay.relay.hasEverAttached
    ensures w.group == None && w.members == [] && w.route == route
    ensures w.rows.table == [(route, Ownership.Row(-1, [1]))] && w.rows.live == map[route := 0]
  {
    var es, start := AttachOneTab, Start(left, route);
    var resumed := ResumedOneTab(left, route);
    RelayAttaches(Relay.Start.(relay := Relay.Fresh.(owned := {1}), saving := multiset{1}));
    assert es[..8] == es[..7] + [es[7]] && es == es[..8] + [es[8]];
    RunLast(start, es[..7], es[7]);
    RunLast(start, es[..8], es[8]);
    FollowOpen(resumed, Relay.ChromeAttaches(1, true));
    FollowOpen(Step(resumed, es[7]), Relay.Deliver(false));
    w := Run(start, es);
  }

  /** Dragging the only attached tab out of the group leaves a row for the closed route. */
  lemma DragOutLeavesRow(left: seq<Ownership.Row>, route: Ownership.Route, id: int)
    ensures
      var es := AttachOneTab + [Gathered(1, id)] + [GroupChange(1, false, false, true, false)];
      var w := Run(Start(left, route), es);
      Closed(w) && w.rows.live == map[] && w.rows.table == [(route, Ownership.Row(id, []))]
  {
    var start, gathered, out := Start(left, route), Gathered(1, id), GroupChange(1, false, false, true, false);
    var w0 := AttachedOneTab(left, route);
    RunLast(start, AttachOneTab, gathered);
    RunLast(start, AttachOneTab + [gathered], out);
    EveryRunInv(left, route, AttachOneTab + [gathered]);
    var w1 := Step(w0, gathered);
    assert Ownership.Including([], 1) == [1];
    assert w1.members == [1] && w1.group == Some(id) && w1.rows.table == [(route, Ownership.Row(id, [1]))];
    LastOut(w1, out);
  }

  lemma LastOut(w: World, out: Event)
    requires Inv(w) && out == GroupChange(1, false, false, true, false)
    requires !Closed(w) && w.relay.relay.attached == {1} && w.relay.relay.pending == {}
    requires w.members == [1] && w.group.Some? && |w.rows.table| == 1 && w.rows.table[0].0 == w.route && w.rows.live == map[w.route := 0]
    ensures
      var v := Step(w, out);
      Closed(v) && v.rows.live == map[] && v.rows.table == [(w.route, Ownership.Row(w.group.value, []))]
  {
    var parted := w.(members := Without(w.members, 1));
    var followed := Follow(parted, Relay.Step(w.relay, Relay.UserRemoves(1, false)));
    LeaveCloses(w.relay.relay, 1, false);
    assert Closed(followed) && followed.members == [] && followed.group == w.group && followed.route == w.route;
    assert followed.rows.table == Ownership.Remove(w.rows.table, w.route) == [];
    assert Ownership.Put([], w.route, Ownership.Row(w.group.value, [])) == [(w.route, Ownership.Row(w.group.value, []))];
    assert Step(w, out) == Report(followed);
  }

  // ----- The group object --------------------------------------------------------------------

  class TabGroup {
    const extension: Relay.Extension
    const store: Ownership.OwnershipStore
    const route: Ownership.Route
    var group: Option<int>
    var members: seq<Tab>

    ghost function View(): World
      reads this, extension, extension.relay, store
    {
      World(extension.View(), store.View(), route, group, members)
    }

    constructor (e: Relay.Extension, s: Ownership.OwnershipStore, r: Ownership.Route)
      ensures extension == e && store == s && route == r && group == None && members == []
    {
      extension, store, route, group, members := e, s, r, None, [];
    }

    /** The relay's onclose, called from within the relay: the group is cleared and the route released. */
    method ConnectionClosed()
      modifies this, store
      ensures View() == old(View()).(members := [], rows := Ownership.ReleaseRoute(old(store.View()), route))
    {
      members := [];
      store.Release(route);
    }

    /** Lets the relay take an event, with the re-entrant close. */
    method RelayTakes(e: Relay.Event)
      modifies this, extension, extension.relay, store
      ensures View() == Follow(old(View()), Relay.Step(old(extension.View()), e))
    {
      var wasClosed := extension.relay.closed;
      extension.Take(e);
      if extension.relay.closed && !wasClosed {
        ConnectionClosed();
      }
    }

    method ReportTabs()
      modifies store
      ensures View() == Report(old(View()))
    {
      if group.Some? {
        store.GroupChanged(route, group.value, members);
      }
    }

    method OnTabGroupChanged(t: Tab, ours: bool, reserved: bool, debuggable: bool, lost: bool)
      modifies this, extension, extension.relay, store
      ensures View() == Change(old(View()), t, ours, reserved, debuggable, lost)
    {
      var inOurGroup, wasInGroup := group.Some? && ours, t in members;
      if extension.relay.closed || inOurGroup == wasInGroup {
        return;
      }
      if inOurGroup {
        JoinGroup(t, reserved, debuggable, lost);
      } else {
        LeaveGroup(t, lost);
      }
    }

    method JoinGroup(t: Tab, reserved: bool, debuggable: bool, lost: bool)
      modifies this, extension, extension.relay, store
      ensures View() == Join(old(View()), t, reserved, debuggable, lost)
    {
      if reserved {
        return;
      }
      members := members + [t];
      if debuggable {
        RelayTakes(Relay.UserAdds(t, lost));
      }
      ReportTabs();
    }

    method LeaveGroup(t: Tab, lost: bool)
      modifies this, extension, extension.relay, store
      ensures View() == Leave(old(View()), t, lost)
    {
      members := Without(members, t);
      if t in extension.relay.attached {
        RelayTakes(Relay.UserRemoves(t, lost));
      }
      ReportTabs();
    }

    method GroupTab(t: Tab, id: int)
      modifies this, store
      ensures View() == Gather(old(View()), t, id)
    {
      if extension.relay.closed {
        return;
      }
      if group.None? {
        group := Some(id);
      }
      members := Ownership.Including(members, t);
      ReportTabs();
    }

    method OnTabRemoved(t: Tab)
      modifies this, store
      ensures View() == Step(old(View()), TabRemoved(t))
    {
      if !extension.relay.closed {
        members := Without(members, t);
        ReportTabs();
      }
    }

    method AskAttach(t: Tab)
      modifies extension, extension.relay, store
      ensures View() == Ask(old(View()), t)
    {
      if !extension.relay.closed && t in extension.relay.owned {
        extension.Take(Relay.AttachCommand(t));
        store.AskAttach(route, t);
      }
    }

    method ResumeAttach(write: nat)
      modifies extension, extension.relay, store
      ensures View() == Resume(old(View()), write)
    {
      if write !in store.tickets || write >= |store.writes| || !store.writes[write].status.Settled? {
        return;
      }
      var ticket := store.tickets[write];
      if ticket.route != route {
        return;
      }
      var ok := store.writes[write].status.ok && route in store.live;
      store.ResumeAttach(write);
      extension.Take(Relay.SaveDone(ticket.tab, ok));
    }

    method Take(e: Event)
      modifies this, extension, extension.relay, store
      ensures View() == Step(old(View()), e)
    {
      match e {
        case RelayEvent(x) =>
          if OfRelay(x) { RelayTakes(x); }
        case AttachAsked(t) => AskAttach(t);
        case AttachResumed(write) => ResumeAttach(write);
        case GroupChange(t, ours, reserved, debuggable, lost) => OnTabGroupChanged(t, ours, reserved, debuggable, lost);
        case Gathered(t, id) => GroupTab(t, id);
        case TabRemoved(t) => OnTabRemoved(t);
        case RowsEvent(x) => RowsTake(x);
      }
    }

    /** Another route, or Chrome's storage, moves on. */
    method RowsTake(x: Ownership.Event)
      modifies store
      ensures View() == Step(old(View()), RowsEvent(x))
    {
      if OfOthers(route, store.tickets, x) {
        store.Take(x);
      }
    }

    method Drive(es: seq<Event>, ghost left: seq<Ownership.Row>)
      requires View() == Start(left, route)
      modifies this, extension, extension.relay, store
      ensures View() == Run(Start(left, route), es) && Inv(View())
      ensures Stale(View()) <==> exists k :: LateAt(Start(left, route), es, k)
    {
      for i := 0 to |es|
        invariant View() == Run(Start(left, route), es[..i])
      {
        assert es[..i + 1] == es[..i] + [es[i]];
        RunLast(Start(left, route), es[..i], es[i]);
        Take(es[i]);
      }
      assert es[..|es|] == es;
      EveryRunInv(left, route, es);
      RowOutlivesRouteIff(left, route, es);
    }
  }
}
