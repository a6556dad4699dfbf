/**
 The route manager behind one native port (createRoutes): opening, closing and
 losing routes.  Each event is one uninterrupted segment; `throws` flags say that
 the native port refused a message, and a port that refused once keeps refusing.
 */
module Routes {
  import opened GroupStyle

  type Route = string
  type Token = nat

  const LIMIT := 9

  datatype Phase = AwaitRecovery | AwaitTab

  /** An `open` request that is waiting. */
  datatype Call = Call(route: Route, phase: Phase)

  datatype State = State(
    connected: bool,
    broken: bool,                    // the native port has thrown
    channels: map<Route, Token>,     // live sockets, by the open request that made them
    groups: map<Route, Style>,
    openings: set<Route>,
    tokens: map<Route, Token>,
    calls: map<Token, Call>,
    next: Token,
    installed: seq<Token>)           // open requests that installed a channel, in order

  const Fresh := State(true, false, map[], map[], {}, map[], map[], 0, [])

  // ----- Native port and sockets -----------------------------------------------------

  function Disconnect(s: State): State {
    if !s.connected then s else
      s.(connected := false, channels := map[], groups := s.groups - s.channels.Keys)
  }

  /** notify: errors of the port end the manager. */
  function Notify(s: State, throws: bool): State {
    if !s.connected then s
    else if s.broken || throws then Disconnect(s.(broken := true))
    else s
  }

  /** releaseLocal of a live socket, with the group's onclose. */
  function ReleaseLocal(s: State, r: Route): State {
    s.(channels := s.channels - {r}, groups := s.groups - {r})
  }

  /** How the port treats one message: too large to post, posted, or refused. */
  datatype Fate = TooLarge | Posted | Refused

  /** socket.send of the live socket of a route; `throws` concerns the error notice. */
  function SendWire(s: State, r: Route, fate: Fate, throws: bool): State {
    if fate == TooLarge then Notify(ReleaseLocal(s, r), throws)
    else if s.broken || fate == Refused then Notify(ReleaseLocal(s.(broken := true), r), throws)
    else s
  }

  function CloseSocket(s: State, r: Route, throws: bool): State {
    if r in s.channels then Notify(ReleaseLocal(s, r), throws) else s
  }

  // ----- receive ----------------------------------------------------------------------

  /** The finally block of an open request. */
  function Finish(s: State, r: Route): State {
    s.(openings := s.openings - {r}, tokens := s.tokens - {r})
  }

  /** The catch block of an open request, then its finally block. */
  function Reject(s: State, r: Route, throws: bool): State {
    Finish(Notify(if r in s.channels then ReleaseLocal(s, r) else s, throws), r)
  }

  predicate MayOpen(s: State, r: Route) {
    r !in s.channels && r !in s.openings && |s.channels| + |s.openings| < LIMIT
  }

  function Open(s: State, r: Route, supported: bool, throws: bool): State {
    if !supported || !MayOpen(s, r) then Reject(s, r, throws) else
      s.(openings := s.openings + {r}, tokens := s.tokens[r := s.next],
         calls := s.calls[s.next := Call(r, AwaitRecovery)], next := s.next + 1)
  }

  /** The request still holds its route's token. */
  predicate HoldsToken(s: State, token: Token, r: Route) {
    r in s.tokens && s.tokens[r] == token
  }

  predicate Current(s: State, token: Token, r: Route) {
    s.connected && HoldsToken(s, token, r)
  }

  /**
   The channel is registered; then the group's constructor sends the handshake: the new
   tab, and a constant message that `refused` says the port refuses.
   */
  function Handshake(s: State, r: Route, token: Token, first: Fate, refused: bool, throws: bool): State {
    var registered := s.(channels := s.channels[r := token], installed := s.installed + [token]);
    var seeded := SendWire(registered, r, first, throws);
    if r in seeded.channels then SendWire(seeded, r, if refused then Refused else Posted, throws) else seeded
  }

  function Install(s: State, r: Route, token: Token, title: string, first: Fate, refused: bool, throws: bool): State {
    var style := UniqueStyle(if title == "" then "Untitled" else title, s.groups.Values);
    var greeted := Handshake(s, r, token, first, refused, throws);
    greeted.(groups := greeted.groups[r := style])
  }

  function Recovered(s: State, token: Token, ok: bool, throws: bool): State
    requires token in s.calls
  {
    var r := s.calls[token].route;
    var resumed := s.(calls := s.calls - {token});
    if !ok then Reject(resumed, r, throws)
    else if !Current(s, token, r) then Finish(resumed, r)
    else s.(calls := s.calls[token := Call(r, AwaitTab)])
  }

  function TabCreated(s: State, token: Token, ok: bool, title: string, first: Fate, refused: bool, throws: bool): State
    requires token in s.calls
  {
    var r := s.calls[token].route;
    var resumed := s.(calls := s.calls - {token});
    if !ok then Reject(resumed, r, throws)
    else if !Current(s, token, r) then Finish(resumed, r)
    else Finish(Install(resumed, r, token, title, first, refused, throws), r)
  }

  function CloseRoute(s: State, r: Route, throws: bool): State {
    CloseSocket(s.(tokens := s.tokens - {r}), r, throws)
  }

  /** A wire message for a route without a channel is answered with an error. */
  function WireMissing(s: State, r: Route, throws: bool): State {
    if r in s.channels then s else Notify(s, throws)
  }

  datatype Event =
    | OpenRequest(route: Route, supported: bool, throws: bool)
    | RecoveryDone(token: Token, ok: bool, throws: bool)
    | CreateDone(token: Token, ok: bool, title: string, first: Fate, refused: bool, throws: bool)
    | CloseRequest(route: Route, throws: bool)
    | WireRequest(route: Route, throws: bool)
    | RelaySends(route: Route, fate: Fate, throws: bool)
    | RelayCloses(route: Route, throws: bool)
    | PortLost

  function Step(s: State, e: Event): State {
    match e
    case OpenRequest(r, supported, throws) => Open(s, r, supported, throws)
    case RecoveryDone(token, ok, throws) =>
      if token in s.calls && s.calls[token].phase == AwaitRecovery then Recovered(s, token, ok, throws) else s
    case CreateDone(token, ok, title, first, refused, throws) =>
      if token in s.calls && s.calls[token].phase == AwaitTab
      then TabCreated(s, token, ok, title, first, refused, throws) else s
    case CloseRequest(r, throws) => CloseRoute(s, r, throws)
    case WireRequest(r, throws) => WireMissing(s, r, throws)
    case RelaySends(r, fate, throws) => if r in s.channels then SendWire(s, r, fate, throws) else s
    case RelayCloses(r, throws) => CloseSocket(s, r, throws)
    case PortLost => Disconnect(s)
  }

  function Run(s: State, es: seq<Event>): State {
    if es == [] then s else Step(Run(s, es[..|es| - 1]), es[|es| - 1])
  }

  lemma RunLast(es: seq<Event>, e: Event)
    ensures Run(Fresh, es + [e]) == Step(Run(Fresh, es), e)
  {
    assert (es + [e])[..|es|] == es;
  }

  // ----- Invariant of the tables --------------------------------------------------------

  ghost predicate Inv(s: State) {
    && s.tokens.Keys <= s.openings
    && s.channels.Keys !! s.openings
    && |s.channels| + |s.openings| <= LIMIT
    && (forall r | r in s.tokens :: s.tokens[r] < s.next)
    && (forall k | k in s.calls :: k < s.next)
    && (forall i | 0 <= i < |s.installed| :: s.installed[i] < s.next && s.installed[i] !in s.calls)
  }

  /** Only channels and groups go, or the port. */
  ghost predicate Shrinks(s: State, v: State) {
    && v.channels.Keys <= s.channels.Keys
    && v.openings == s.openings && v.tokens == s.tokens && v.calls == s.calls && v.next == s.next
    && v.installed == s.installed
  }

  lemma FewerKeys<K, V, W>(a: map<K, V>, b: map<K, W>)
    requires a.Keys <= b.Keys
    ensures |a| <= |b|
  {
    assert b.Keys == a.Keys + (b.Keys - a.Keys);
    assert |a| == |a.Keys| && |b| == |b.Keys|;
  }

  lemma ShrinksInv(s: State, v: State)
    requires Inv(s) && Shrinks(s, v)
    ensures Inv(v)
  {
    FewerKeys(v.channels, s.channels);
  }

  lemma FinishInv(s: State, r: Route)
    requires Inv(s)
    ensures Inv(Finish(s, r))
  {
  }

  lemma NotifyShrinks(s: State, r: Route, throws: bool)
    ensures Shrinks(s, Disconnect(s)) && Shrinks(s, Notify(s, throws)) && Shrinks(s, ReleaseLocal(s, r))
  {
  }

  lemma PortShrinks(s: State, r: Route, fate: Fate, throws: bool)
    ensures Shrinks(s, Disconnect(s)) && Shrinks(s, Notify(s, throws)) && Shrinks(s, ReleaseLocal(s, r))
    ensures Shrinks(s, SendWire(s, r, fate, throws)) && Shrinks(s, CloseSocket(s, r, throws))
  {
    NotifyShrinks(s, r, throws);
    NotifyShrinks(ReleaseLocal(s, r), r, throws);
    NotifyShrinks(s.(broken := true), r, throws);
    NotifyShrinks(ReleaseLocal(s.(broken := true), r), r, throws);
  }

  lemma RejectInv(s: State, r: Route, throws: bool)
    requires Inv(s)
    ensures Inv(Reject(s, r, throws))
  {
    var released := if r in s.channels then ReleaseLocal(s, r) else s;
    PortShrinks(s, r, Posted, throws);
    ShrinksInv(s, released);
    PortShrinks(released, r, Posted, throws);
    ShrinksInv(released, Notify(released, throws));
    FinishInv(Notify(released, throws), r);
  }

  /** A new request takes a slot and a token. */
  lemma AdmitInv(s: State, r: Route)
    requires Inv(s) && MayOpen(s, r)
    ensures Inv(Open(s, r, true, false))
  {
    var v := Open(s, r, true, false);
    assert v.channels == s.channels && v.installed == s.installed && v.next == s.next + 1;
    assert |v.openings| == |s.openings| + 1;
    forall q | q in v.tokens ensures q in v.openings && v.tokens[q] < v.next {
      assert q == r || q in s.tokens;
    }
    forall k | k in v.calls ensures k < v.next {
      assert k == s.next || k in s.calls;
    }
  }

  lemma OpenInv(s: State, r: Route, supported: bool, throws: bool)
    requires Inv(s)
    ensures Inv(Open(s, r, supported, throws))
  {
    if !supported || !MayOpen(s, r) {
      RejectInv(s, r, throws);
    } else {
      AdmitInv(s, r);
    }
  }

  /** An open request that resumes without a claim to its route. */
  lemma ResumedInv(s: State, token: Token, r: Route, throws: bool)
    requires Inv(s)
    ensures Inv(Finish(s.(calls := s.calls - {token}), r))
    ensures Inv(Reject(s.(calls := s.calls - {token}), r, throws))
  {
    var resumed := s.(calls := s.calls - {token});
    assert Inv(resumed);
    FinishInv(resumed, r);
    RejectInv(resumed, r, throws);
  }

  /** The slot moves from the openings to the channels. */
  lemma InstallInv(s: State, token: Token, title: string, first: Fate, refused: bool, throws: bool)
    requires Inv(s) && token in s.calls && Current(s, token, s.calls[token].route)
    ensures Inv(TabCreated(s, token, true, title, first, refused, throws))
  {
    var r := s.calls[token].route;
    var resumed := s.(calls := s.calls - {token});
    var moved := Finish(resumed.(channels := s.channels[r := token], installed := s.installed + [token]), r);
    assert |moved.channels| == |s.channels| + 1 && |moved.openings| == |s.openings| - 1;
    assert Inv(moved);
    var done := TabCreated(s, token, true, title, first, refused, throws);
    HandshakeShrinks(resumed, r, token, first, refused, throws);
    assert Shrinks(moved, done);
    ShrinksInv(moved, done);
  }

  lemma HandshakeShrinks(s: State, r: Route, token: Token, first: Fate, refused: bool, throws: bool)
    ensures
      var registered := s.(channels := s.channels[r := token], installed := s.installed + [token]);
      Shrinks(registered, Handshake(s, r, token, first, refused, throws))
  {
    var registered := s.(channels := s.channels[r := token], installed := s.installed + [token]);
    PortShrinks(registered, r, first, throws);
    PortShrinks(SendWire(registered, r, first, throws), r, if refused then Refused else Posted, throws);
  }

  lemma RecoveredInv(s: State, token: Token, ok: bool, throws: bool)
    requires Inv(s) && token in s.calls
    ensures Inv(Recovered(s, token, ok, throws))
  {
    ResumedInv(s, token, s.calls[token].route, throws);
  }

  lemma TabCreatedInv(s: State, token: Token, ok: bool, title: string, first: Fate, refused: bool, throws: bool)
    requires Inv(s) && token in s.calls
    ensures Inv(TabCreated(s, token, ok, title, first, refused, throws))
  {
    var r := s.calls[token].route;
    if ok && Current(s, token, r) {
      InstallInv(s, token, title, first, refused, throws);
    } else {
      ResumedInv(s, token, r, throws);
    }
  }

  lemma PortEventInv(s: State, e: Event)
    requires Inv(s) && !e.OpenRequest? && !e.RecoveryDone? && !e.CreateDone?
    ensures Inv(Step(s, e))
  {
    match e {
      case CloseRequest(r, throws) =>
        var closed := s.(tokens := s.tokens - {r});
        assert Inv(closed);
        PortShrinks(closed, r, Posted, throws);
        ShrinksInv(closed, CloseSocket(closed, r, throws));
      case WireRequest(r, throws) =>
        PortShrinks(s, r, Posted, throws);
        ShrinksInv(s, WireMissing(s, r, throws));
      case RelaySends(r, fate, throws) =>
        PortShrinks(s, r, fate, throws);
        ShrinksInv(s, SendWire(s, r, fate, throws));
      case RelayCloses(r, throws) =>
        PortShrinks(s, r, Posted, throws);
        ShrinksInv(s, CloseSocket(s, r, throws));
      case PortLost =>
        PortShrinks(s, "", Posted, false);
        ShrinksInv(s, Disconnect(s));
    }
  }

  lemma StepInv(s: State, e: Event)
    requires Inv(s)
    ensures Inv(Step(s, e))
  {
    match e {
      case OpenRequest(r, supported, throws) => OpenInv(s, r, supported, throws);
      case RecoveryDone(token, ok, throws) =>
        if token in s.calls && s.calls[token].phase == AwaitRecovery {
          RecoveredInv(s, token, ok, throws);
        }
      case CreateDone(token, ok, title, first, refused, throws) =>
        if token in s.calls && s.calls[token].phase == AwaitTab {
          TabCreatedInv(s, token, ok, title, first, refused, throws);
        }
      case _ => PortEventInv(s, e);
    }
  }

  /** In every interleaving: tokens only for openings, channels apart from openings, nine routes at most. */
  lemma {:induction false} EveryRunInv(es: seq<Event>)
    ensures Inv(Run(Fresh, es))
    ensures |Run(Fresh, es).channels| + |Run(Fresh, es).openings| <= 9
  {
    if es != [] {
      EveryRunInv(es[..|es| - 1]);
      StepInv(Run(Fresh, es[..|es| - 1]), es[|es| - 1]);
    }
  }

  // ----- When channels go, and when the port is lost ------------------------------------------------

  /** A message to the port would be refused. */
  predicate PortFails(s: State, throws: bool) {
    s.broken || throws
  }

  /** The event releases the live channel of its route. */
  predicate Releases(s: State, e: Event) {
    match e
    case CloseRequest(r, _) => r in s.channels
    case RelayCloses(r, _) => r in s.channels
    case RelaySends(r, fate, _) => r in s.channels && (fate == TooLarge || PortFails(s, fate == Refused))
    case OpenRequest(r, supported, _) => r in s.channels
    case _ => false
  }

  /** The event sends a notice about an error or a close. */
  predicate Notifies(s: State, e: Event) {
    match e
    case OpenRequest(r, supported, _) => !supported || !MayOpen(s, r)
    case WireRequest(r, _) => r !in s.channels
    case RecoveryDone(k, ok, _) => k in s.calls && s.calls[k].phase == AwaitRecovery && !ok
    case CreateDone(k, ok, _, _, _, _) => k in s.calls && s.calls[k].phase == AwaitTab && !ok
    case _ => Releases(s, e)
  }

  /** The port turned out to refuse messages. */
  predicate Breaks(s: State, e: Event) {
    e.RelaySends? && e.route in s.channels && e.fate == Refused
  }

  /** What is left of the tables once the event has released its route and told the port. */
  ghost predicate LeftAs(s: State, v: State, released: bool, r: Route, lost: bool) {
    && (v.connected <==> !lost)
    && (!lost ==>
          && v.channels == (if released then s.channels - {r} else s.channels)
          && v.groups == (if released then s.groups - {r} else s.groups))
    && (lost ==> v.channels == map[] && v.groups == s.groups - s.channels.Keys)
  }

  lemma NotifyLeaves(s: State, released: bool, r: Route, throws: bool)
    requires s.connected && (released ==> r in s.channels)
    ensures
      var t := if released then ReleaseLocal(s, r) else s;
      LeftAs(s, Notify(t, throws), released, r, PortFails(s, throws))
  {
    var t := if released then ReleaseLocal(s, r) else s;
    assert released ==> t.groups - t.channels.Keys == s.groups - s.channels.Keys;
  }

  lemma SendLeaves(s: State, r: Route, fate: Fate, throws: bool)
    requires s.connected && r in s.channels
    ensures
      var released := fate == TooLarge || PortFails(s, fate == Refused);
      LeftAs(s, SendWire(s, r, fate, throws), released, r, released && PortFails(s, throws || fate == Refused))
  {
    NotifyLeaves(s, true, r, throws);
    NotifyLeaves(s.(broken := true), true, r, throws);
  }

  lemma OpenLeaves(s: State, r: Route, supported: bool, throws: bool)
    requires s.connected
    ensures
      var rejected := !supported || !MayOpen(s, r);
      LeftAs(s, Open(s, r, supported, throws), r in s.channels, r, rejected && PortFails(s, throws))
  {
    NotifyLeaves(s, r in s.channels, r, throws);
  }

  /** While nothing is installed: exactly a released route loses its channel and its group, and a refused notice ends it all. */
  lemma ChannelsAfter(s: State, e: Event)
    requires s.connected && !e.RecoveryDone? && !e.CreateDone? && !e.PortLost?
    ensures
      var lost := Notifies(s, e) && (PortFails(s, e.throws) || Breaks(s, e));
      LeftAs(s, Step(s, e), Releases(s, e), e.route, lost)
  {
    match e {
      case OpenRequest(r, supported, throws) => OpenLeaves(s, r, supported, throws);
      case CloseRequest(r, throws) =>
        var closed := s.(tokens := s.tokens - {r});
        NotifyLeaves(closed, r in s.channels, r, throws);
      case WireRequest(r, throws) => NotifyLeaves(s, false, r, throws);
      case RelaySends(r, fate, throws) =>
        if r in s.channels { SendLeaves(s, r, fate, throws); }
      case RelayCloses(r, throws) => NotifyLeaves(s, r in s.channels, r, throws);
    }
  }

  /** A port that has refused a message is remembered to refuse them all. */
  lemma PortStaysBroken(s: State, e: Event)
    requires s.connected && !e.RecoveryDone? && !e.CreateDone? && !e.PortLost?
    ensures Step(s, e).broken <==> s.broken || (Notifies(s, e) && e.throws) || Breaks(s, e)
  {
    match e {
      case OpenRequest(r, _, throws) =>
        NotifyBreaks(s, throws);
        NotifyBreaks(ReleaseLocal(s, r), throws);
      case CloseRequest(r, throws) => NotifyBreaks(ReleaseLocal(s.(tokens := s.tokens - {r}), r), throws);
      case WireRequest(_, throws) => NotifyBreaks(s, throws);
      case RelaySends(r, _, throws) =>
        NotifyBreaks(ReleaseLocal(s, r), throws);
        NotifyBreaks(ReleaseLocal(s.(broken := true), r), throws);
      case RelayCloses(r, throws) => NotifyBreaks(ReleaseLocal(s, r), throws);
    }
  }

  lemma NotifyBreaks(s: State, throws: bool)
    requires s.connected
    ensures Notify(s, throws).broken <==> s.broken || throws
  {
  }

  /** A live route that is asked to close is gone, with its group, whatever the port does. */
  lemma CloseReleases(es: seq<Event>, r: Route, throws: bool)
    requires Run(Fresh, es).connected && r in Run(Fresh, es).channels
    ensures
      var v := Run(Fresh, es + [CloseRequest(r, throws)]);
      r !in v.channels && r !in v.groups && r !in v.tokens
  {
    RunLast(es, CloseRequest(r, throws));
  }

  // ----- How an open request proceeds ------------------------------------------------------------

  /** The reply that the waiting request k expects. */
  predicate Awaits(s: State, k: Token, phase: Phase) {
    k in s.calls && s.calls[k].phase == phase
  }

  predicate Admits(s: State, e: Event) {
    e.OpenRequest? && e.supported && MayOpen(s, e.route)
  }

  /** A recovered request that still holds its token goes on to create its tab. */
  predicate GoesOn(s: State, e: Event) {
    e.RecoveryDone? && e.ok && Awaits(s, e.token, AwaitRecovery) && Current(s, e.token, s.calls[e.token].route)
  }

  /** The request of this route comes to its end, or is refused at once. */
  predicate EndsOpening(s: State, e: Event, r: Route) {
    match e
    case OpenRequest(q, _, _) => q == r && !Admits(s, e)
    case RecoveryDone(k, _, _) => Awaits(s, k, AwaitRecovery) && s.calls[k].route == r && !GoesOn(s, e)
    case CreateDone(k, _, _, _, _, _) => Awaits(s, k, AwaitTab) && s.calls[k].route == r
    case _ => false
  }

  /** A request is admitted for a free route while fewer than nine are open or opening. */
  lemma AdmittedIff(s: State, e: Event)
    requires e.OpenRequest?
    ensures Admits(s, e) <==>
      e.supported && e.route !in s.channels && e.route !in s.openings && |s.channels| + |s.openings| < 9
  {
  }

  /** A request holds its slot from admission to its end, and its token no longer than its route is not closed. */
  lemma SlotsAfter(s: State, e: Event, r: Route)
    ensures r in Step(s, e).openings <==> (Admits(s, e) && e.route == r) || (r in s.openings && !EndsOpening(s, e, r))
    ensures r in Step(s, e).tokens <==>
      (Admits(s, e) && e.route == r) || (r in s.tokens && !EndsOpening(s, e, r) && !(e.CloseRequest? && e.route == r))
    ensures r in Step(s, e).tokens ==>
      Step(s, e).tokens[r] == if Admits(s, e) && e.route == r then s.next else s.tokens[r]
  {
    if !e.OpenRequest? && !e.RecoveryDone? && !e.CreateDone? {
      PortEventKeeps(s, e);
    } else if e.OpenRequest? {
      OpenKeeps(s, e);
    } else {
      ReplyKeeps(s, e);
    }
  }

  /** What the events of the port and the relays leave alone. */
  lemma PortEventKeeps(s: State, e: Event)
    requires !e.OpenRequest? && !e.RecoveryDone? && !e.CreateDone?
    ensures
      var v := Step(s, e);
      && v.openings == s.openings && v.calls == s.calls && v.next == s.next && v.installed == s.installed
      && v.tokens == if e.CloseRequest? then s.tokens - {e.route} else s.tokens
  {
    match e {
      case CloseRequest(r, throws) => PortShrinks(s.(tokens := s.tokens - {r}), r, Posted, throws);
      case WireRequest(r, throws) => PortShrinks(s, r, Posted, throws);
      case RelaySends(r, fate, throws) => PortShrinks(s, r, fate, throws);
      case RelayCloses(r, throws) => PortShrinks(s, r, Posted, throws);
      case PortLost => PortShrinks(s, "", Posted, false);
    }
  }

  lemma RejectSlots(s: State, r: Route, throws: bool)
    ensures Reject(s, r, throws).openings == s.openings - {r}
  {
    PortShrinks(s, r, Posted, throws);
    PortShrinks(ReleaseLocal(s, r), r, Posted, throws);
  }

  lemma OpenKeeps(s: State, e: Event)
    requires e.OpenRequest?
    ensures
      var v := Step(s, e);
      if Admits(s, e) then
        v.openings == s.openings + {e.route} && v.tokens == s.tokens[e.route := s.next]
        && v.calls == s.calls[s.next := Call(e.route, AwaitRecovery)] && v.next == s.next + 1 && v.installed == s.installed
      else
        v.openings == s.openings - {e.route} && v.tokens == s.tokens - {e.route}
        && v.calls == s.calls && v.next == s.next && v.installed == s.installed
  {
    RejectKeeps(s, e.route, e.throws);
    RejectSlots(s, e.route, e.throws);
  }

  /** A waiting request is woken by the reply it expects: it goes on, or gives up its slot and its token. */
  lemma ReplyKeeps(s: State, e: Event)
    requires e.RecoveryDone? || e.CreateDone?
    ensures
      var v := Step(s, e);
      if !Awaits(s, e.token, if e.RecoveryDone? then AwaitRecovery else AwaitTab) then v == s
      else
        var r := s.calls[e.token].route;
        if GoesOn(s, e) then v == s.(calls := s.calls[e.token := Call(r, AwaitTab)])
        else
          v.openings == s.openings - {r} && v.tokens == s.tokens - {r} && v.calls == s.calls - {e.token}
          && v.next == s.next && v.installed == s.installed + (if Installs(s, e) then [e.token] else [])
  {
    if e.token in s.calls {
      var r, resumed := s.calls[e.token].route, s.(calls := s.calls - {e.token});
      RejectKeeps(resumed, r, e.throws);
      RejectSlots(resumed, r, e.throws);
      if Installs(s, e) {
        HandshakeShrinks(resumed, r, e.token, e.first, e.refused, e.throws);
      }
    }
  }

  /** A failed request releases its route and is reported; one that lost its token ends in silence. */
  lemma FailedRequest(s: State, e: Event)
    requires s.connected && (e.RecoveryDone? || e.CreateDone?)
    requires Awaits(s, e.token, if e.RecoveryDone? then AwaitRecovery else AwaitTab) && !Installs(s, e) && !GoesOn(s, e)
    ensures
      var r := s.calls[e.token].route;
      LeftAs(s, Step(s, e), !e.ok && r in s.channels, r, !e.ok && PortFails(s, e.throws))
  {
    var r, resumed := s.calls[e.token].route, s.(calls := s.calls - {e.token});
    NotifyLeaves(resumed, r in s.channels, r, e.throws);
  }

  /** An installed route has its channel and a group named after its client, if the handshake goes through. */
  lemma InstalledAs(s: State, e: Event)
    requires Installs(s, e) && !s.broken
    ensures
      var r, v := s.calls[e.token].route, Step(s, e);
      if e.first == Posted && !e.refused
      then v.connected && v.channels == s.channels[r := e.token]
           && v.groups == s.groups[r := UniqueStyle(if e.title == "" then "Untitled" else e.title, s.groups.Values)]
      else if e.first == TooLarge && !e.throws then v.connected && v.channels == s.channels - {r}
      else !v.connected
  {
    var r, resumed := s.calls[e.token].route, s.(calls := s.calls - {e.token});
    HandshakeOutcome(resumed, r, e.token, e.first, e.refused, e.throws);
    InstallIs(s, e);
  }

  lemma InstallIs(s: State, e: Event)
    requires Installs(s, e)
    ensures
      var r, resumed, v := s.calls[e.token].route, s.(calls := s.calls - {e.token}), Step(s, e);
      var greeted := Handshake(resumed, r, e.token, e.first, e.refused, e.throws);
      && v.connected == greeted.connected && v.channels == greeted.channels
      && v.groups == greeted.groups[r := UniqueStyle(if e.title == "" then "Untitled" else e.title, s.groups.Values)]
  {
    var r, resumed := s.calls[e.token].route, s.(calls := s.calls - {e.token});
    assert Current(resumed, e.token, r);
    assert Step(s, e) == Finish(Install(resumed, r, e.token, e.title, e.first, e.refused, e.throws), r);
  }

  /** Losing the port loses every channel, and the groups of the live ones. */
  lemma PortLossDisconnects(s: State)
    requires s.connected
    ensures LeftAs(s, Step(s, PortLost), false, "", true)
  {
  }

  // ----- Closed or displaced requests -----------------------------------------------------

  /** A request that has lost, or never gets back, its route's token. */
  ghost predicate Displaced(s: State, token: Token, r: Route) {
    && token < s.next
    && (token in s.calls ==> s.calls[token].route == r)
    && !HoldsToken(s, token, r)
  }

  ghost predicate OnlyOthersInstall(s: State, v: State, token: Token) {
    s.installed <= v.installed && forall i | |s.installed| <= i < |v.installed| :: v.installed[i] != token
  }

  lemma OpenDisplaced(s: State, q: Route, supported: bool, throws: bool, token: Token, r: Route)
    requires Displaced(s, token, r)
    ensures var v := Open(s, q, supported, throws); Displaced(v, token, r) && OnlyOthersInstall(s, v, token)
  {
    RejectKeeps(s, q, throws);
  }

  lemma ResumeDisplaced(s: State, k: Token, ok: bool, throws: bool, token: Token, r: Route)
    requires Displaced(s, token, r) && k in s.calls
    ensures var v := Recovered(s, k, ok, throws); Displaced(v, token, r) && OnlyOthersInstall(s, v, token)
  {
    RejectKeeps(s.(calls := s.calls - {k}), s.calls[k].route, throws);
  }

  lemma CreateDisplaced(s: State, k: Token, ok: bool, title: string, first: Fate, refused: bool, throws: bool, token: Token, r: Route)
    requires Displaced(s, token, r) && k in s.calls
    ensures var v := TabCreated(s, k, ok, title, first, refused, throws); Displaced(v, token, r) && OnlyOthersInstall(s, v, token)
  {
    var q, resumed := s.calls[k].route, s.(calls := s.calls - {k});
    RejectKeeps(resumed, q, throws);
    HandshakeShrinks(resumed, q, k, first, refused, throws);
  }

  lemma PortEventDisplaced(s: State, e: Event, token: Token, r: Route)
    requires Displaced(s, token, r) && !e.OpenRequest? && !e.RecoveryDone? && !e.CreateDone?
    ensures Displaced(Step(s, e), token, r) && OnlyOthersInstall(s, Step(s, e), token)
  {
    match e {
      case CloseRequest(q, throws) => PortShrinks(s.(tokens := s.tokens - {q}), q, Posted, throws);
      case WireRequest(q, throws) => PortShrinks(s, q, Posted, throws);
      case RelaySends(q, fate, throws) => PortShrinks(s, q, fate, throws);
      case RelayCloses(q, throws) => PortShrinks(s, q, Posted, throws);
      case PortLost => PortShrinks(s, "", Posted, false);
    }
  }

  lemma StepDisplaced(s: State, e: Event, token: Token, r: Route)
    requires Displaced(s, token, r)
    ensures Displaced(Step(s, e), token, r) && OnlyOthersInstall(s, Step(s, e), token)
  {
    match e {
      case OpenRequest(q, supported, throws) => OpenDisplaced(s, q, supported, throws, token, r);
      case RecoveryDone(k, ok, throws) =>
        if k in s.calls { ResumeDisplaced(s, k, ok, throws, token, r); }
      case CreateDone(k, ok, title, first, refused, throws) =>
        if k in s.calls { CreateDisplaced(s, k, ok, title, first, refused, throws, token, r); }
      case _ => PortEventDisplaced(s, e, token, r);
    }
  }

  /** A rejected request touches only the entries of its own route. */
  lemma RejectKeeps(s: State, r: Route, throws: bool)
    ensures Reject(s, r, throws).calls == s.calls && Reject(s, r, throws).next == s.next
    ensures Reject(s, r, throws).tokens == s.tokens - {r} && Reject(s, r, throws).installed == s.installed
  {
  }

  /** A waiting request whose token was taken away never installs a channel, however its route is reused. */
  lemma {:induction false} DisplacedNeverInstalls(es: seq<Event>, more: seq<Event>, token: Token)
    requires token in Run(Fresh, es).calls
    requires !HoldsToken(Run(Fresh, es), token, Run(Fresh, es).calls[token].route)
    ensures token !in Run(Fresh, es + more).installed
    ensures Displaced(Run(Fresh, es + more), token, Run(Fresh, es).calls[token].route)
  {
    var r := Run(Fresh, es).calls[token].route;
    if more == [] {
      assert es + more == es;
      EveryRunInv(es);
    } else {
      var front := more[..|more| - 1];
      DisplacedNeverInstalls(es, front, token);
      assert (es + more)[..|es + more| - 1] == es + front;
      StepDisplaced(Run(Fresh, es + front), more[|more| - 1], token, r);
    }
  }

  lemma {:induction false} EveryRunDisconnected(es: seq<Event>)
    ensures !Run(Fresh, es).connected ==> Run(Fresh, es).channels == map[]
  {
    if es != [] {
      EveryRunDisconnected(es[..|es| - 1]);
      StepDisconnects(Run(Fresh, es[..|es| - 1]), es[|es| - 1]);
    }
  }

  lemma NotifyDisconnects(s: State, throws: bool)
    requires !s.connected ==> s.channels == map[]
    ensures !Notify(s, throws).connected ==> Notify(s, throws).channels == map[]
    ensures Notify(s, throws).connected ==> s.connected
    ensures Notify(s, throws).installed == s.installed
  {
  }

  /** How a step treats a connection: once lost, it stays lost, without channels. */
  ghost predicate StaysLost(s: State, v: State) {
    && (!v.connected ==> v.channels == map[])
    && (!s.connected ==> !v.connected && v.installed == s.installed)
  }

  lemma ReleaseDisconnects(s: State, r: Route, fate: Fate, throws: bool)
    requires !s.connected ==> s.channels == map[]
    ensures StaysLost(s, Notify(ReleaseLocal(s, r), throws)) && StaysLost(s, Disconnect(s))
    ensures StaysLost(s, SendWire(s, r, fate, throws)) && StaysLost(s, CloseSocket(s, r, throws))
    ensures StaysLost(s, Reject(s, r, throws))
  {
    NotifyDisconnects(s, throws);
    NotifyDisconnects(ReleaseLocal(s, r), throws);
    NotifyDisconnects(ReleaseLocal(s.(broken := true), r), throws);
  }

  lemma CreateDisconnects(s: State, token: Token, ok: bool, title: string, first: Fate, refused: bool, throws: bool)
    requires (!s.connected ==> s.channels == map[]) && token in s.calls
    ensures StaysLost(s, TabCreated(s, token, ok, title, first, refused, throws))
  {
    var r, resumed := s.calls[token].route, s.(calls := s.calls - {token});
    ReleaseDisconnects(resumed, r, Posted, throws);
    if s.connected {
      HandshakeDisconnects(resumed, r, token, first, refused, throws);
    }
  }

  lemma HandshakeDisconnects(s: State, r: Route, token: Token, first: Fate, refused: bool, throws: bool)
    requires s.connected
    ensures var v := Handshake(s, r, token, first, refused, throws); !v.connected ==> v.channels == map[]
  {
    var registered := s.(channels := s.channels[r := token], installed := s.installed + [token]);
    ReleaseDisconnects(registered, r, first, throws);
    ReleaseDisconnects(SendWire(registered, r, first, throws), r, if refused then Refused else Posted, throws);
  }

  lemma StepDisconnects(s: State, e: Event)
    requires !s.connected ==> s.channels == map[]
    ensures StaysLost(s, Step(s, e))
  {
    match e {
      case OpenRequest(r, _, throws) => ReleaseDisconnects(s, r, Posted, throws);
      case RecoveryDone(k, _, throws) =>
        if k in s.calls { ReleaseDisconnects(s.(calls := s.calls - {k}), s.calls[k].route, Posted, throws); }
      case CreateDone(k, ok, title, first, refused, throws) =>
        if k in s.calls { CreateDisconnects(s, k, ok, title, first, refused, throws); }
      case CloseRequest(r, throws) => ReleaseDisconnects(s.(tokens := s.tokens - {r}), r, Posted, throws);
      case WireRequest(_, throws) => NotifyDisconnects(s, throws);
      case RelaySends(r, fate, throws) => ReleaseDisconnects(s, r, fate, throws);
      case RelayCloses(r, throws) => ReleaseDisconnects(s, r, Posted, throws);
      case PortLost => ReleaseDisconnects(s, "", Posted, false);
    }
  }

  /** After a disconnect, in every continuation: no reconnection, no channel, nothing installed any more. */
  lemma {:induction false} DisconnectIsFinal(es: seq<Event>, more: seq<Event>)
    requires !Run(Fresh, es).connected
    ensures !Run(Fresh, es + more).connected && Run(Fresh, es + more).channels == map[]
    ensures Run(Fresh, es + more).installed == Run(Fresh, es).installed
  {
    EveryRunDisconnected(es + more);
    if more == [] {
      assert es + more == es;
    } else {
      var front, e := more[..|more| - 1], more[|more| - 1];
      DisconnectIsFinal(es, front);
      assert es + more == es + front + [e];
      RunLast(es + front, e);
      StepDisconnects(Run(Fresh, es + front), e);
    }
  }

  /** Closing a route, and asking for it again, both take the waiting request's token away. */
  lemma CloseAndReopenDisplace(s: State, r: Route, supported: bool, throws: bool)
    requires r in s.openings
    ensures r !in Step(s, CloseRequest(r, throws)).tokens
    ensures r !in Step(s, OpenRequest(r, supported, throws)).tokens
  {
    RejectKeeps(s, r, throws);
    PortShrinks(s.(tokens := s.tokens - {r}), r, Posted, throws);
  }

  // ----- Groups ------------------------------------------------------------------------------

  ghost predicate DistinctStyles(groups: map<Route, Style>) {
    forall p, q | p in groups && q in groups && p != q ::
      groups[p].title != groups[q].title && groups[p].color != groups[q].color
  }

  /** While connected every group belongs to a live route, with a title and a colour of its own. */
  ghost predicate GroupsInv(s: State) {
    s.connected ==> !s.broken && s.groups.Keys <= s.channels.Keys && DistinctStyles(s.groups)
  }

  lemma PortGroups(s: State, r: Route, fate: Fate, throws: bool)
    requires GroupsInv(s)
    ensures GroupsInv(Disconnect(s)) && GroupsInv(Notify(s, throws)) && GroupsInv(ReleaseLocal(s, r))
    ensures GroupsInv(SendWire(s, r, fate, throws)) && GroupsInv(CloseSocket(s, r, throws))
  {
  }

  lemma ValuesCount(m: map<Route, Style>)
    ensures |m.Values| <= |m|
    decreases |m|
  {
    if m.Keys != {} {
      var r :| r in m;
      var rest := m - {r};
      assert rest.Keys == m.Keys - {r};
      ValuesCount(rest);
      assert m.Values == rest.Values + {m[r]};
    } else {
      assert m.Values == {};
    }
  }

  /** The three ways a handshake over a working port can end. */
  lemma HandshakeOutcome(s: State, r: Route, token: Token, first: Fate, refused: bool, throws: bool)
    requires s.connected && !s.broken
    ensures var v := Handshake(s, r, token, first, refused, throws);
      if first == Posted && !refused
      then v.connected && !v.broken && v.groups == s.groups && v.channels == s.channels[r := token]
      else if first == TooLarge && !throws
      then v.connected && v.channels == s.channels - {r}
      else !v.connected
  {
    var registered := s.(channels := s.channels[r := token], installed := s.installed + [token]);
    assert registered.channels - {r} == s.channels - {r};
  }

  lemma NewGroupDistinct(s: State, r: Route, title: string)
    requires s.groups.Keys <= s.channels.Keys && DistinctStyles(s.groups) && |s.channels| < LIMIT
    ensures DistinctStyles(s.groups[r := UniqueStyle(title, s.groups.Values)])
  {
    FewerKeys(s.groups, s.channels);
    ValuesCount(s.groups);
    assert forall q | q in s.groups :: s.groups[q] in s.groups.Values;
  }

  /** The request installs its route. */
  predicate Installs(s: State, e: Event) {
    && e.CreateDone? && e.ok && e.token in s.calls && s.calls[e.token].phase == AwaitTab
    && Current(s, e.token, s.calls[e.token].route)
  }

  /** The tab's announcement exceeds the native message limit, on a port that otherwise works. */
  predicate Leaks(s: State, e: Event) {
    Installs(s, e) && e.first == TooLarge && !e.throws
  }

  /** An installing request keeps the groups in order exactly when its announcement fits the port. */
  lemma InstallGroupsIff(s: State, e: Event)
    requires Inv(s) && GroupsInv(s) && Installs(s, e)
    ensures GroupsInv(Step(s, e)) <==> !Leaks(s, e)
  {
    var r, resumed := s.calls[e.token].route, s.(calls := s.calls - {e.token});
    assert r in s.openings && |s.openings| >= 1;
    HandshakeOutcome(resumed, r, e.token, e.first, e.refused, e.throws);
    NewGroupDistinct(resumed, r, if e.title == "" then "Untitled" else e.title);
  }

  lemma OtherGroups(s: State, e: Event)
    requires GroupsInv(s) && !e.CreateDone?
    ensures GroupsInv(Step(s, e))
  {
    match e {
      case OpenRequest(r, supported, throws) => RejectGroups(s, r, throws);
      case RecoveryDone(k, ok, throws) =>
        if k in s.calls { RejectGroups(s.(calls := s.calls - {k}), s.calls[k].route, throws); }
      case CloseRequest(r, throws) => PortGroups(s.(tokens := s.tokens - {r}), r, Posted, throws);
      case WireRequest(r, throws) => PortGroups(s, r, Posted, throws);
      case RelaySends(r, fate, throws) => PortGroups(s, r, fate, throws);
      case RelayCloses(r, throws) => PortGroups(s, r, Posted, throws);
      case PortLost => PortGroups(s, "", Posted, false);
    }
  }

  lemma RejectGroups(s: State, r: Route, throws: bool)
    requires GroupsInv(s)
    ensures GroupsInv(Reject(s, r, throws))
  {
    PortGroups(s, r, Posted, throws);
    PortGroups(ReleaseLocal(s, r), r, Posted, throws);
  }

  lemma StepGroupsIff(s: State, e: Event)
    requires Inv(s) && GroupsInv(s)
    ensures GroupsInv(Step(s, e)) <==> !Leaks(s, e)
  {
    if !e.CreateDone? {
      OtherGroups(s, e);
    } else if Installs(s, e) {
      InstallGroupsIff(s, e);
    } else if e.token in s.calls && s.calls[e.token].phase == AwaitTab {
      RejectGroups(s.(calls := s.calls - {e.token}), s.calls[e.token].route, e.throws);
    }
  }

  /** The groups are in order after every step of the run. */
  ghost predicate GroupsThroughout(es: seq<Event>) {
    GroupsInv(Run(Fresh, es)) && (es == [] || GroupsThroughout(es[..|es| - 1]))
  }

  /** No step of the run leaks. */
  predicate NeverLeaks(es: seq<Event>) {
    es == [] || (!Leaks(Run(Fresh, es[..|es| - 1]), es[|es| - 1]) && NeverLeaks(es[..|es| - 1]))
  }

  /**
   Throughout a run live groups belong to channels and look different, if and only if the
   announcement of every installed tab fits the native message limit or finds the port lost.
   */
  lemma {:induction false} EveryRunGroupsIff(es: seq<Event>)
    ensures GroupsThroughout(es) <==> NeverLeaks(es)
  {
    if es != [] {
      var front, e := es[..|es| - 1], es[|es| - 1];
      EveryRunGroupsIff(front);
      if GroupsThroughout(front) {
        EveryRunInv(front);
        StepGroupsIff(Run(Fresh, front), e);
      }
    }
  }

  lemma WaitingForTab() returns (s: State)
    ensures s == Step(Step(Fresh, OpenRequest("r", true, false)), RecoveryDone(0, true, false))
    ensures s.connected && !s.broken && s.calls == map[0 := Call("r", AwaitTab)] && s.tokens == map["r" := 0]
  {
    var one := Step(Fresh, OpenRequest("r", true, false));
    assert one.calls == map[0 := Call("r", AwaitRecovery)] && one.tokens == map["r" := 0];
    s := Step(one, RecoveryDone(0, true, false));
  }

  /** An oversized handshake leaves a group without a route behind. */
  lemma OversizedHandshakeLeaksGroup(title: string)
    ensures
      var waiting := Step(Step(Fresh, OpenRequest("r", true, false)), RecoveryDone(0, true, false));
      var s := Step(waiting, CreateDone(0, true, title, TooLarge, false, false));
      s.connected && "r" in s.groups && "r" !in s.channels
  {
    var waiting := WaitingForTab();
    HandshakeOutcome(waiting.(calls := waiting.calls - {0}), "r", 0, TooLarge, false, false);
  }

  // ----- The manager object ---------------------------------------------------------------

  class RouteManager {
    var connected: bool
    var broken: bool
    var channels: map<Route, Token>
    var groups: map<Route, Style>
    var openings: set<Route>
    var tokens: map<Route, Token>
    var calls: map<Token, Call>
    var next: Token
    var installed: seq<Token>

    ghost function View(): State
      reads this
    {
      State(connected, broken, channels, groups, openings, tokens, calls, next, installed)
    }

    constructor ()
      ensures View() == Fresh
    {
      connected, broken, channels, groups := true, false, map[], map[];
      openings, tokens, calls, next, installed := {}, map[], map[], 0, [];
    }

    method Release(r: Route)
      modifies this
      ensures View() == ReleaseLocal(old(View()), r)
    {
      channels := channels - {r};
      groups := groups - {r};
    }

    method DisconnectPort()
      modifies this
      ensures View() == Disconnect(old(View()))
    {
      if !connected {
        return;
      }
      connected := false;
      var left := channels.Keys;
      while left != {}
        invariant left == channels.Keys <= old(channels).Keys
        invariant groups == old(groups) - (old(channels).Keys - left)
        invariant View() == old(View()).(connected := false, channels := channels, groups := groups)
        decreases left
      {
        var r :| r in left;
        assert old(channels).Keys - (left - {r}) == (old(channels).Keys - left) + {r};
        Release(r);
        left := left - {r};
      }
      assert channels == map[];
      assert old(channels).Keys - {} == old(channels).Keys;
    }

    /** A port that has thrown throws again. */
    method Post(throws: bool) returns (threw: bool)
      modifies this`broken
      ensures threw == (old(broken) || throws) && broken == threw
    {
      if throws {
        broken := true;
      }
      threw := broken;
    }

    method NotifyPort(throws: bool)
      modifies this
      ensures View() == Notify(old(View()), throws)
    {
      if connected {
        var threw := Post(throws);
        if threw {
          DisconnectPort();
        }
      }
    }

    /** The socket's close. */
    method CloseChannel(r: Route, throws: bool)
      modifies this
      ensures View() == CloseSocket(old(View()), r, throws)
    {
      if r in channels {
        Release(r);
        NotifyPort(throws);
      }
    }

    /** The catch and finally blocks of an open request. */
    method RejectOpen(r: Route, throws: bool)
      modifies this
      ensures View() == Reject(old(View()), r, throws)
    {
      if r in channels {
        Release(r);
      }
      NotifyPort(throws);
      FinishOpen(r);
    }

    method FinishOpen(r: Route)
      modifies this
      ensures View() == Finish(old(View()), r)
    {
      openings := openings - {r};
      tokens := tokens - {r};
    }

    method ReceiveOpen(r: Route, supported: bool, throws: bool)
      modifies this
      ensures View() == Open(old(View()), r, supported, throws)
    {
      if !supported || r in channels || r in openings || |channels| + |openings| >= LIMIT {
        RejectOpen(r, throws);
        return;
      }
      openings := openings + {r};
      var token := next;
      next := next + 1;
      tokens := tokens[r := token];
      calls := calls[token := Call(r, AwaitRecovery)];
    }

    method ResumeAfterRecovery(token: Token, ok: bool, throws: bool)
      requires token in calls
      modifies this
      ensures View() == Recovered(old(View()), token, ok, throws)
    {
      var r := calls[token].route;
      if !ok {
        calls := calls - {token};
        RejectOpen(r, throws);
        return;
      }
      if !connected || !(r in tokens && tokens[r] == token) {
        calls := calls - {token};
        FinishOpen(r);
        return;
      }
      calls := calls[token := Call(r, AwaitTab)];
    }

    method ReceiveClose(r: Route, throws: bool)
      modifies this
      ensures View() == CloseRoute(old(View()), r, throws)
    {
      tokens := tokens - {r};
      CloseChannel(r, throws);
    }

    /** socket.send: size check, post, and on any failure the route is released and the error reported. */
    method SendOverWire(r: Route, fate: Fate, throws: bool)
      modifies this
      ensures View() == SendWire(old(View()), r, fate, throws)
    {
      if fate == TooLarge {
        Release(r);
        NotifyPort(throws);
        return;
      }
      var threw := Post(fate == Refused);
      if threw {
        Release(r);
        NotifyPort(throws);
      }
    }

    /** Registers the channel and seeds the group; a lost handshake closes the socket on the spot. */
    method Greet(r: Route, token: Token, first: Fate, refused: bool, throws: bool)
      modifies this
      ensures View() == Handshake(old(View()), r, token, first, refused, throws)
    {
      channels := channels[r := token];
      installed := installed + [token];
      SendOverWire(r, first, throws);
      if r in channels {
        SendOverWire(r, if refused then Refused else Posted, throws);
      }
    }

    method ResumeAfterCreate(token: Token, ok: bool, title: string, first: Fate, refused: bool, throws: bool)
      requires token in calls
      modifies this
      ensures View() == TabCreated(old(View()), token, ok, title, first, refused, throws)
    {
      var r := calls[token].route;
      calls := calls - {token};
      if !ok {
        RejectOpen(r, throws);
        return;
      }
      if connected && r in tokens && tokens[r] == token {
        InstallRoute(r, token, title, first, refused, throws);
      }
      FinishOpen(r);
    }

    method InstallRoute(r: Route, token: Token, title: string, first: Fate, refused: bool, throws: bool)
      modifies this
      ensures View() == Install(old(View()), r, token, title, first, refused, throws)
    {
      var style := UniqueStyle(if title == "" then "Untitled" else title, groups.Values);
      Greet(r, token, first, refused, throws);
      groups := groups[r := style];
    }

    /** The end of an awaited call. */
    method TakeReply(e: Event)
      requires e.RecoveryDone? || e.CreateDone?
      modifies this
      ensures View() == Step(old(View()), e)
    {
      if e.token in calls {
        match e {
          case RecoveryDone(token, ok, throws) =>
            if calls[token].phase == AwaitRecovery {
              ResumeAfterRecovery(token, ok, throws);
            }
          case CreateDone(token, ok, title, first, refused, throws) =>
            if calls[token].phase == AwaitTab {
              ResumeAfterCreate(token, ok, title, first, refused, throws);
            }
        }
      }
    }

    method Take(e: Event)
      modifies this
      ensures View() == Step(old(View()), e)
    {
      match e {
        case OpenRequest(r, supported, throws) => ReceiveOpen(r, supported, throws);
        case RecoveryDone(_, _, _) => TakeReply(e);
        case CreateDone(_, _, _, _, _, _) => TakeReply(e);
        case CloseRequest(r, throws) => ReceiveClose(r, throws);
        case WireRequest(r, throws) =>
          if r !in channels {
            NotifyPort(throws);
          }
        case RelaySends(r, fate, throws) =>
          if r in channels {
            SendOverWire(r, fate, throws);
          }
        case RelayCloses(r, throws) => CloseChannel(r, throws);
        case PortLost => DisconnectPort();
      }
    }

    method Drive(es: seq<Event>)
      requires View() == Fresh
      modifies this
      ensures View() == Run(Fresh, es) && Inv(View())
      ensures !connected ==> channels == map[]
    {
      for i := 0 to |es|
        invariant View() == Run(Fresh, es[..i])
      {
        assert es[..i + 1][..i] == es[..i];
        Take(es[i]);
      }
      assert es[..|es|] == es;
      EveryRunInv(es);
      EveryRunDisconnected(es);
    }
  }
}
