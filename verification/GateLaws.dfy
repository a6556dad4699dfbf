/**
 What the click gate does with each event: which presses are gated, when a running
 agent's click is cancelled, what becomes of the selected tab's state, and how a
 queued event proceeds; and what this means for the presses handed to Chrome.
 */
module GateLaws {
  import opened Options
  import opened ActionIndicator
  import opened ClickGate
  import InputOrder

  // ----- Which presses are gated ---------------------------------------------------------

  /** The last tool state announced before the relay was closed: running, and with a click. */
  function LastTool(es: seq<Event>): Option<(bool, bool)> {
    if es == [] then None else
      var front := es[..|es| - 1];
      match es[|es| - 1]
      case ToolState(running, click) => if CloseRelay in front then LastTool(front) else Some((running, click))
      case _ => LastTool(front)
  }

  /** Of every mouse event that arrived before the close: its tab, and whether it is a press during an announced click. */
  function Arrivals(es: seq<Event>): seq<(Tab, bool)> {
    if es == [] then [] else
      var front := es[..|es| - 1];
      match es[|es| - 1]
      case Arrive(t, pressed) =>
        if CloseRelay in front then Arrivals(front)
        else Arrivals(front) + [(t, pressed && LastTool(front) == Some((true, true)))]
      case _ => Arrivals(front)
  }

  lemma {:induction false} ClosedByEvent(es: seq<Event>)
    ensures Run(es).closed <==> CloseRelay in es
    ensures Run(es).indicator.closed <==> CloseRelay in es
  {
    if es != [] {
      var front, e := es[..|es| - 1], es[|es| - 1];
      ClosedByEvent(front);
      StepClosed(Run(front), e);
      assert es == front + [e];
    }
  }

  /** Only an announced tool state changes the mode. */
  lemma ModeBy(w: World, e: Event)
    ensures
      var v := Step(w, e).indicator;
      if e.ToolState? && !w.closed then v.running == e.running && v.clickMode == (e.running && e.click)
      else v.running == w.indicator.running && v.clickMode == w.indicator.clickMode
  {
    if ChainEvent(e) && Expects(w, e) {
      ChainModeBy(w, e);
    }
  }

  lemma ChainModeBy(w: World, e: Event)
    requires ChainEvent(e) && Expects(w, e)
    ensures Act(w, e).indicator.running == w.indicator.running && Act(w, e).indicator.clickMode == w.indicator.clickMode
  {
    match e {
      case StartHead(t) => KeepsMode(w.indicator, t, 0);
      case SetupReply(t, _) => KeepsMode(w.indicator, t, w.tails[t].phase.id);
      case ArrivalReply(t, _) => KeepsMode(w.indicator, t, w.tails[t].phase.id);
      case Dispatch(_) =>
      case ChromeReply(t, _) => KeepsMode(w.indicator, t, 0);
    }
  }

  lemma {:induction false} ClickModeIsLastTool(es: seq<Event>)
    ensures Run(es).indicator.running <==> LastTool(es).Some? && LastTool(es).value.0
    ensures Run(es).indicator.clickMode <==> LastTool(es) == Some((true, true))
  {
    if es != [] {
      var front, e := es[..|es| - 1], es[|es| - 1];
      ClickModeIsLastTool(front);
      ClosedByEvent(front);
      ModeBy(Run(front), e);
    }
  }

  /** Number n arrived on this tab, and is gated exactly if it was a press during an announced click. */
  predicate AsArrived(arrivals: seq<(Tab, bool)>, t: Tab, n: nat, gated: bool) {
    n < |arrivals| && arrivals[n] == (t, gated)
  }

  ghost predicate ItemsAsArrived(arrivals: seq<(Tab, bool)>, t: Tab, items: seq<Item>) {
    forall i | 0 <= i < |items| :: AsArrived(arrivals, t, items[i].n, items[i].gated)
  }

  ghost predicate MarkedAsArrived(w: World, arrivals: seq<(Tab, bool)>) {
    && w.arrivals == |arrivals|
    && (forall t | t in w.tails :: ItemsAsArrived(arrivals, t, w.tails[t].items))
    && (forall i | 0 <= i < |w.log| :: AsArrived(arrivals, w.log[i].tab, w.log[i].n, w.log[i].gated))
  }

  lemma ArriveMarks(w: World, t: Tab, pressed: bool, arrivals: seq<(Tab, bool)>)
    requires MarkedAsArrived(w, arrivals) && !w.closed
    ensures MarkedAsArrived(Step(w, Arrive(t, pressed)), arrivals + [(t, pressed && w.indicator.clickMode)])
  {
    var v := Step(w, Arrive(t, pressed));
    var more := arrivals + [(t, pressed && w.indicator.clickMode)];
    forall u | u in v.tails ensures ItemsAsArrived(more, u, v.tails[u].items) {
      assert u in w.tails ==> ItemsAsArrived(arrivals, u, w.tails[u].items);
    }
    forall i | 0 <= i < |v.log| ensures AsArrived(more, v.log[i].tab, v.log[i].n, v.log[i].gated) {
      assert i < |w.log| ==> AsArrived(arrivals, w.log[i].tab, w.log[i].n, w.log[i].gated);
    }
  }

  /** A chain event keeps the items of each chain, or drops the first. */
  lemma ChainItems(w: World, e: Event, t: Tab)
    requires !e.Arrive? && t in Step(w, e).tails
    ensures t in w.tails
    ensures
      var items, was := Step(w, e).tails[t].items, w.tails[t].items;
      items == was || (was != [] && items == was[1..])
  {
  }

  lemma OtherMarks(w: World, e: Event, arrivals: seq<(Tab, bool)>)
    requires MarkedAsArrived(w, arrivals) && (e.Arrive? ==> w.closed)
    ensures MarkedAsArrived(Step(w, e), arrivals)
  {
    var v := Step(w, e);
    if !e.Arrive? {
      forall t | t in v.tails ensures ItemsAsArrived(arrivals, t, v.tails[t].items) {
        ChainItems(w, e, t);
        assert ItemsAsArrived(arrivals, t, w.tails[t].items);
      }
      StepLog(w, e);
      NoNewArrival(w, e);
      if e.Dispatch? && e.tab in w.tails {
        assert ItemsAsArrived(arrivals, e.tab, w.tails[e.tab].items);
      }
    }
  }

  lemma NoNewArrival(w: World, e: Event)
    requires !e.Arrive?
    ensures Step(w, e).arrivals == w.arrivals
    ensures !e.Dispatch? ==> Step(w, e).log == w.log
  {
  }

  /** Every queued and every handed-over event is gated exactly if it was a press during an announced click. */
  lemma {:induction false} GatedAsAnnounced(es: seq<Event>)
    ensures MarkedAsArrived(Run(es), Arrivals(es))
  {
    if es != [] {
      var front, e := es[..|es| - 1], es[|es| - 1];
      GatedAsAnnounced(front);
      ClosedByEvent(front);
      ClickModeIsLastTool(front);
      if e.Arrive? && !Run(front).closed {
        ArriveMarks(Run(front), e.tab, e.pressed, Arrivals(front));
      } else {
        OtherMarks(Run(front), e, Arrivals(front));
      }
    }
  }

  // ----- Selection and cancellation ----------------------------------------------------------

  /** The tab that an event selects: by other input, by a direct mouse event, by a press at the gate, or once taken by Chrome. */
  function Selects(w: World, e: Event): Option<Tab> {
    match e
    case OtherInput(t) => if w.closed then None else Some(t)
    case Arrive(t, pressed) => if !w.closed && t !in w.tails && !(pressed && w.indicator.clickMode) then Some(t) else None
    case StartHead(t) => if EntersGate(w, t) then Some(t) else None
    case ChromeReply(t, ok) => if TakenUngated(w, t, ok) then Some(t) else None
    case _ => None
  }

  predicate IsWaiting(w: World, t: Tab) {
    t in w.indicator.tabs && w.indicator.tabs[t].waiting
  }

  /** The page failed to prepare, was not ready, or the ground has moved. */
  predicate Fails(w: World, e: Event) {
    match e
    case SetupReply(t, setup) =>
      t in w.tails && w.tails[t].phase.Preparing?
      && (setup.SetupFailed? || !OnGround(w, t, w.tails[t].phase.id, w.tails[t].phase.epoch))
    case ArrivalReply(t, ready) =>
      t in w.tails && w.tails[t].phase.Moving? && (!ready || !OnGround(w, t, w.tails[t].phase.id, w.tails[t].phase.epoch))
    case _ => false
  }

  /** The relay's tab still has the state object and epoch, and nothing was cancelled. */
  predicate OnGround(w: World, t: Tab, id: nat, epoch: nat) {
    && !w.indicator.closed && t in w.indicator.tabs && !w.indicator.cancelled
    && w.indicator.tabs[t].id == id && w.indicator.tabs[t].epoch == epoch
  }

  /** What cancels the agent's click: a waiting tab navigates or is left for another, or its wait fails. */
  predicate Cancels(w: World, e: Event) {
    || (e.Navigated? && IsWaiting(w, e.tab))
    || (Selects(w, e).Some? && w.indicator.current.Some? && w.indicator.current != Selects(w, e)
        && IsWaiting(w, w.indicator.current.value))
    || Fails(w, e)
  }

  lemma ChainCancelledIff(w: World, e: Event)
    requires ChainEvent(e)
    ensures Step(w, e).indicator.cancelled <==> w.indicator.cancelled || Cancels(w, e)
  {
    if e.tab in w.tails {
      SelectAges(w.indicator, e.tab, e.tab);
      BeginDecision(w.indicator, e.tab);
    }
  }

  /** Cancelled after a step: a wait was disturbed or failed, or it was and no running state was announced. */
  lemma CancelledIff(w: World, e: Event)
    ensures Step(w, e).indicator.cancelled <==>
      Cancels(w, e) || (w.indicator.cancelled && !(e.ToolState? && e.running && !w.closed))
  {
    if ChainEvent(e) {
      ChainCancelledIff(w, e);
    } else if e.OtherInput? || e.Arrive? {
      SelectAges(w.indicator, e.tab, e.tab);
    } else if e.Navigated? {
      InvalidateAges(w.indicator, e.tab, e.tab);
    }
  }

  /** The tab selected last stays current until another is. */
  lemma CurrentIs(w: World, e: Event)
    ensures Step(w, e).indicator.current == if Selects(w, e).Some? then Selects(w, e) else w.indicator.current
  {
    if ChainEvent(e) {
      if e.tab in w.tails {
        SelectAges(w.indicator, e.tab, e.tab);
        BeginDecision(w.indicator, e.tab);
      }
    } else if e.OtherInput? || e.Arrive? {
      SelectAges(w.indicator, e.tab, e.tab);
    }
  }

  /** Attached from the report of the attach to that of the detach, unless the relay closes. */
  lemma AttachedIff(w: World, e: Event, t: Tab)
    ensures t in Step(w, e).attached <==>
      e != CloseRelay && ((e == Attached(t) && !w.closed) || (t in w.attached && e != Detached(t)))
  {
    if ChainEvent(e) {
      ChainKeepsRoute(w, e);
    }
  }

  // ----- The state of a tab ------------------------------------------------------------------

  /** The event ends the tab's wait: its page failed it, or let the press through. */
  predicate EndsWait(w: World, e: Event, t: Tab) {
    match e
    case SetupReply(u, setup) => u == t && Expects(w, e) && (Fails(w, e) || !setup.Prepared?)
    case ArrivalReply(u, _) => u == t && Expects(w, e)
    case _ => false
  }

  /** The tab is left for another, or navigates. */
  predicate Ages(w: World, e: Event, t: Tab) {
    e == Navigated(t) || (Selects(w, e).Some? && Selects(w, e).value != t && w.indicator.current == Some(t))
  }

  predicate Forgets(w: World, e: Event, t: Tab) {
    e == CloseRelay || e == Detached(t) || (e == DetachAsked(t) && !w.closed)
  }

  /** A tab's state after a step: forgotten, renewed by a re-attach, or changed in what the event is about. */
  function TabAfter(w: World, e: Event, t: Tab): Option<TabState> {
    var s := w.indicator;
    if Forgets(w, e, t) then None
    else if e == Installed(t) && !s.closed then Some(TabState(s.nextId, 0, false, false, None))
    else if t !in s.tabs then None
    else
      var was := s.tabs[t];
      if e == ContextFound(t) then Some(was.(context := true))
      else if Ages(w, e, t) then Some(was.(epoch := was.epoch + 1, clickEpoch := None))
      else if e == StartHead(t) && EntersGate(w, t) && was.context then Some(was.(clickEpoch := Some(was.epoch), waiting := true))
      else if EndsWait(w, e, t) && was.id == w.tails[t].phase.id then Some(was.(waiting := false))
      else Some(was)
  }

  ghost predicate TabIs(s: ActionIndicator.State, t: Tab, x: Option<TabState>) {
    (t in s.tabs <==> x.Some?) && (t in s.tabs ==> s.tabs[t] == x.value)
  }

  lemma StartTabAfter(w: World, u: Tab, t: Tab)
    requires Expects(w, StartHead(u))
    ensures TabIs(Step(w, StartHead(u)).indicator, t, TabAfter(w, StartHead(u), t))
  {
    var s := w.indicator;
    if EntersGate(w, u) {
      SelectAges(s, u, t);
      BeginMarks(s, u, t);
      assert Step(w, StartHead(u)).indicator == BeginClick(s, u);
    } else {
      BeginDecision(s, u);
      assert Step(w, StartHead(u)).indicator == s;
    }
  }

  lemma SetupTabAfter(w: World, e: Event, t: Tab)
    requires e.SetupReply? && Expects(w, e)
    ensures TabIs(Step(w, e).indicator, t, TabAfter(w, e, t))
  {
    EndMarks(w.indicator, e.tab, w.tails[e.tab].phase.id, t);
  }

  lemma ArrivalTabAfter(w: World, e: Event, t: Tab)
    requires e.ArrivalReply? && Expects(w, e)
    ensures TabIs(Step(w, e).indicator, t, TabAfter(w, e, t))
  {
    EndMarks(w.indicator, e.tab, w.tails[e.tab].phase.id, t);
  }

  lemma TakenTabAfter(w: World, e: Event, t: Tab)
    requires (e.Dispatch? || e.ChromeReply?) && Expects(w, e)
    ensures TabIs(Step(w, e).indicator, t, TabAfter(w, e, t))
  {
    SelectAges(w.indicator, e.tab, t);
    assert Step(w, e).indicator == if Selects(w, e).Some? then Select(w.indicator, e.tab) else w.indicator;
  }

  lemma SelectedTabAfter(w: World, e: Event, t: Tab)
    requires e.Arrive? || e.OtherInput?
    ensures TabIs(Step(w, e).indicator, t, TabAfter(w, e, t))
  {
    SelectAges(w.indicator, e.tab, t);
    assert Step(w, e).indicator == if Selects(w, e).Some? then Select(w.indicator, e.tab) else w.indicator;
  }

  lemma InstalledTabAfter(w: World, u: Tab, t: Tab)
    ensures TabIs(Step(w, Installed(u)).indicator, t, TabAfter(w, Installed(u), t))
    ensures TabIs(Step(w, ContextFound(u)).indicator, t, TabAfter(w, ContextFound(u), t))
  {
    LifecycleMarks(w.indicator, u, t);
  }

  lemma DetachedTabAfter(w: World, u: Tab, t: Tab)
    ensures TabIs(Step(w, Detached(u)).indicator, t, TabAfter(w, Detached(u), t))
    ensures TabIs(Step(w, DetachAsked(u)).indicator, t, TabAfter(w, DetachAsked(u), t))
  {
    LifecycleMarks(w.indicator, u, t);
  }

  lemma EveryTabAfter(w: World, e: Event, t: Tab)
    ensures TabIs(Step(w, e).indicator, t, TabAfter(w, e, t))
  {
    match e {
      case StartHead(u) =>
        if Expects(w, e) { StartTabAfter(w, u, t); }
      case SetupReply(_, _) =>
        if Expects(w, e) { SetupTabAfter(w, e, t); }
      case ArrivalReply(_, _) =>
        if Expects(w, e) { ArrivalTabAfter(w, e, t); }
      case Dispatch(_) =>
        if Expects(w, e) { TakenTabAfter(w, e, t); }
      case ChromeReply(_, _) =>
        if Expects(w, e) { TakenTabAfter(w, e, t); }
      case Arrive(_, _) => SelectedTabAfter(w, e, t);
      case OtherInput(_) => SelectedTabAfter(w, e, t);
      case Navigated(u) => InvalidateAges(w.indicator, u, t);
      case Attached(_) =>
      case ToolState(_, _) =>
      case CloseRelay =>
      case Installed(u) => InstalledTabAfter(w, u, t);
      case ContextFound(u) => InstalledTabAfter(w, u, t);
      case Detached(u) => DetachedTabAfter(w, u, t);
      case DetachAsked(u) => DetachedTabAfter(w, u, t);
    }
  }

  // ----- A queued event on its way -----------------------------------------------------------

  /** Where the head of a chain goes from here; None if the chain ends. */
  function Next(w: World, e: Event): Option<Phase>
    requires ChainEvent(e) && Expects(w, e) && w.tails[e.tab].items != []
  {
    var t, c := e.tab, w.tails[e.tab];
    match e
    case StartHead(_) =>
      if w.closed || t !in w.attached || (c.items[0].gated && w.indicator.cancelled) then None
      else if !c.items[0].gated || t !in w.indicator.tabs || !w.indicator.tabs[t].context then Some(Cleared(None))
      else Some(Preparing(w.indicator.tabs[t].id, w.indicator.tabs[t].epoch, w.clock))
    case SetupReply(_, setup) =>
      if Fails(w, e) then None
      else if setup.Prepared? then Some(Moving(c.phase.id, c.phase.epoch, c.phase.began))
      else Some(Cleared(Some(Wait(c.phase.id, c.phase.epoch, c.phase.began, w.clock))))
    case ArrivalReply(_, _) =>
      if Fails(w, e) then None else Some(Cleared(Some(Wait(c.phase.id, c.phase.epoch, c.phase.began, w.clock))))
    case Dispatch(_) => if w.closed || t !in w.attached then None else Some(Sent)
    case ChromeReply(_, ok) => if !ok || |c.items| == 1 then None else Some(Queued)
  }

  /** Every queued event proceeds exactly as far as the route, the gate and Chrome let it. */
  lemma ChainProceeds(w: World, e: Event)
    requires ChainEvent(e) && Expects(w, e) && w.tails[e.tab].items != []
    ensures
      var v, t, next := Step(w, e), e.tab, Next(w, e);
      && (t in v.tails <==> next.Some?)
      && (next.Some? ==> v.tails[t].phase == next.value
                         && v.tails[t].items == if e.ChromeReply? then w.tails[t].items[1..] else w.tails[t].items)
      && v.log == w.log +
         (if next == Some(Sent)
          then [HandOver(t, w.tails[t].items[0].n, w.tails[t].items[0].gated, w.tails[t].phase.wait, w.clock)] else [])
      && (if next.Some? then v.ended == w.ended
          else |v.ended| == |w.ended| + 1 && v.ended[|w.ended|].0 == t && v.ended[|w.ended|].1.arrived == w.tails[t].arrived
               && v.ended[|w.ended|].1.handed == w.tails[t].handed)
  {
    BeginDecision(w.indicator, e.tab);
  }

  /** A new mouse event queues behind its tab's chain, starts a chain if gated, and otherwise goes straight to Chrome. */
  lemma ArrivalProceeds(w: World, t: Tab, pressed: bool)
    requires !w.closed
    ensures
      var v, gated := Step(w, Arrive(t, pressed)), pressed && w.indicator.clickMode;
      var was := if t in w.tails then w.tails[t].items else [];
      && (t in v.tails <==> t in w.tails || gated)
      && (t in v.tails ==> v.tails[t].items == was + [Item(w.arrivals, gated)]
                           && v.tails[t].phase == if t in w.tails then w.tails[t].phase else Queued)
      && v.log == w.log + (if t in v.tails then [] else [HandOver(t, w.arrivals, false, None, w.clock)])
  {
  }

  /** A gated press whose tab is attached and known goes through, if the page answers and nothing disturbs it. */
  lemma PressGoesThrough(w: World, t: Tab, viaArrival: bool)
    requires t in w.tails && w.tails[t].phase.Queued? && w.tails[t].items != [] && w.tails[t].items[0].gated
    requires Open(w, t) && !w.indicator.closed && !w.indicator.cancelled && t in w.indicator.tabs && w.indicator.tabs[t].context
    requires w.indicator.current == Some(t)
    ensures
      var one := Step(w, StartHead(t));
      var two := Step(one, SetupReply(t, if viaArrival then Prepared else Unavailable));
      var three := if viaArrival then Step(two, ArrivalReply(t, true)) else two;
      var four := Step(three, Dispatch(t));
      |four.log| == |w.log| + 1 && four.log[|w.log|].n == w.tails[t].items[0].n && four.log[|w.log|].tab == t
  {
    var one := Step(w, StartHead(t));
    ChainProceeds(w, StartHead(t));
    CancelledIff(w, StartHead(t));
    BeginMarks(w.indicator, t, t);
    StepClosed(w, StartHead(t));
    ChainKeepsRoute(w, StartHead(t));
    var setup := SetupReply(t, if viaArrival then Prepared else Unavailable);
    assert OnGround(one, t, w.indicator.tabs[t].id, w.indicator.tabs[t].epoch);
    ChainProceeds(one, setup);
    ChainKeepsRoute(one, setup);
    var two := Step(one, setup);
    if viaArrival {
      assert two.indicator == one.indicator;
      ChainProceeds(two, ArrivalReply(t, true));
      ChainKeepsRoute(two, ArrivalReply(t, true));
      ChainProceeds(Step(two, ArrivalReply(t, true)), Dispatch(t));
    } else {
      ChainProceeds(two, Dispatch(t));
    }
  }

  lemma ChainKeepsRoute(w: World, e: Event)
    requires ChainEvent(e)
    ensures Step(w, e).closed == w.closed && Step(w, e).attached == w.attached
  {
  }

  // ----- How a gated press came to be handed over -----------------------------------------------

  /** At step k event n of the tab entered the gate: uncancelled, over the open route, and waiting since if the page was known. */
  ghost predicate StartedAt(es: seq<Event>, k: nat, t: Tab, n: nat, began: Option<nat>) {
    && k < |es| && es[k] == StartHead(t)
    && var w := Run(es[..k]);
       && t in w.tails && w.tails[t].phase.Queued? && w.tails[t].items != []
       && w.tails[t].items[0] == Item(n, true) && Open(w, t) && !w.indicator.cancelled
       && began == if t in w.indicator.tabs && w.indicator.tabs[t].context then Some(k) else None
  }

  ghost predicate Started(es: seq<Event>, t: Tab, n: nat, began: Option<nat>) {
    exists k: nat :: StartedAt(es, k, t, n, began)
  }

  function BeganOf(phase: Phase): Option<nat> {
    match phase
    case Preparing(_, _, began) => Some(began)
    case Moving(_, _, began) => Some(began)
    case Cleared(Some(wait)) => Some(wait.began)
    case _ => None
  }

  ghost predicate HeadStarted(es: seq<Event>, t: Tab, c: Chain) {
    c.items != [] && c.items[0].gated && !c.phase.Queued? && !c.phase.Sent? ==>
      Started(es, t, c.items[0].n, BeganOf(c.phase))
  }

  /** The page's answer at the last check let the press through. */
  ghost predicate PassedCheck(es: seq<Event>, t: Tab, wait: Wait) {
    && wait.checked < |es| && es[wait.checked] in {SetupReply(t, Unavailable), ArrivalReply(t, true)}
    && OnGround(Run(es[..wait.checked]), t, wait.id, wait.epoch)
  }

  ghost predicate CheckPassed(es: seq<Event>, t: Tab, phase: Phase) {
    phase.Cleared? && phase.wait.Some? ==> PassedCheck(es, t, phase.wait.value)
  }

  ghost predicate Entered(es: seq<Event>, x: HandOver) {
    x.gated ==>
      && Started(es, x.tab, x.n, if x.wait.Some? then Some(x.wait.value.began) else None)
      && (x.wait.Some? ==> PassedCheck(es, x.tab, x.wait.value))
  }

  ghost predicate AllEntered(es: seq<Event>) {
    && (forall t | t in Run(es).tails :: HeadStarted(es, t, Run(es).tails[t]) && CheckPassed(es, t, Run(es).tails[t].phase))
    && (forall i | 0 <= i < |Run(es).log| :: Entered(es, Run(es).log[i]))
  }

  lemma StartStays(es: seq<Event>, e: Event, t: Tab, n: nat, began: Option<nat>)
    requires Started(es, t, n, began)
    ensures Started(es + [e], t, n, began)
  {
    var k: nat :| StartedAt(es, k, t, n, began);
    assert (es + [e])[..k] == es[..k];
    assert StartedAt(es + [e], k, t, n, began);
  }

  lemma CheckStays(es: seq<Event>, e: Event, t: Tab, wait: Wait)
    requires PassedCheck(es, t, wait)
    ensures PassedCheck(es + [e], t, wait)
  {
    assert (es + [e])[..wait.checked] == es[..wait.checked];
  }

  lemma HeadStays(es: seq<Event>, e: Event, t: Tab, c: Chain)
    requires HeadStarted(es, t, c) && CheckPassed(es, t, c.phase)
    ensures HeadStarted(es + [e], t, c) && CheckPassed(es + [e], t, c.phase)
  {
    if c.items != [] && c.items[0].gated && !c.phase.Queued? && !c.phase.Sent? {
      StartStays(es, e, t, c.items[0].n, BeganOf(c.phase));
    }
    if c.phase.Cleared? && c.phase.wait.Some? {
      CheckStays(es, e, t, c.phase.wait.value);
    }
  }

  lemma EnteredStays(es: seq<Event>, e: Event, x: HandOver)
    requires Entered(es, x)
    ensures Entered(es + [e], x)
  {
    if x.gated {
      StartStays(es, e, x.tab, x.n, if x.wait.Some? then Some(x.wait.value.began) else None);
      if x.wait.Some? {
        CheckStays(es, e, x.tab, x.wait.value);
      }
    }
  }

  lemma HeadStarts(es: seq<Event>, t: Tab)
    requires Expects(Run(es), StartHead(t)) && Run(es).tails[t].items != [] && t in Step(Run(es), StartHead(t)).tails
    ensures
      var c := Step(Run(es), StartHead(t)).tails[t];
      HeadStarted(es + [StartHead(t)], t, c) && CheckPassed(es + [StartHead(t)], t, c.phase)
  {
    var w, longer, c := Run(es), es + [StartHead(t)], Step(Run(es), StartHead(t)).tails[t];
    ChainProceeds(w, StartHead(t));
    RunBasics(es);
    assert longer[..|es|] == es && longer[|es|] == StartHead(t);
    if w.tails[t].items[0].gated {
      assert w.tails[t].items[0] == Item(c.items[0].n, true);
      assert StartedAt(longer, |es|, t, c.items[0].n, BeganOf(c.phase));
    }
  }

  /** The chain of the event's own tab. */
  lemma OwnChainEntered(es: seq<Event>, e: Event)
    requires ChainEvent(e) && Expects(Run(es), e) && Run(es).tails[e.tab].items != []
    requires HeadStarted(es, e.tab, Run(es).tails[e.tab]) && CheckPassed(es, e.tab, Run(es).tails[e.tab].phase)
    requires e.tab in Step(Run(es), e).tails
    ensures
      var c := Step(Run(es), e).tails[e.tab];
      HeadStarted(es + [e], e.tab, c) && CheckPassed(es + [e], e.tab, c.phase)
  {
    var w, t, c := Run(es), e.tab, Step(Run(es), e).tails[e.tab];
    if e.StartHead? {
      HeadStarts(es, t);
    } else {
      ChainProceeds(w, e);
      RunBasics(es);
      HeadStays(es, e, t, w.tails[t]);
      assert (es + [e])[..|es|] == es && (es + [e])[|es|] == e;
    }
  }

  lemma ArrivalKeepsHead(w: World, u: Tab, pressed: bool, t: Tab)
    requires t in Step(w, Arrive(u, pressed)).tails
    ensures
      var c := Step(w, Arrive(u, pressed)).tails[t];
      c.phase.Queued? || (t in w.tails && c.phase == w.tails[t].phase && (w.tails[t].items != [] ==> w.tails[t].items <= c.items))
  {
  }

  lemma StepChainEntered(es: seq<Event>, e: Event, t: Tab)
    requires AllEntered(es) && t in Step(Run(es), e).tails
    ensures
      var c := Step(Run(es), e).tails[t];
      HeadStarted(es + [e], t, c) && CheckPassed(es + [e], t, c.phase)
  {
    var w := Run(es);
    InputOrder.EveryRunOrderly(es);
    if t in w.tails {
      HeadStays(es, e, t, w.tails[t]);
      assert InputOrder.ChainOrdered(w, t, w.tails[t]);
    }
    if ChainEvent(e) {
      if Expects(w, e) {
        if e.tab == t { OwnChainEntered(es, e); } else { OtherChains(w, e, t); }
      }
    } else if e.Arrive? {
      ArrivalKeepsHead(w, e.tab, e.pressed, t);
    } else {
      assert Step(w, e).tails == w.tails;
    }
  }

  lemma StepLogEntered(es: seq<Event>, e: Event, i: nat)
    requires AllEntered(es) && i < |Step(Run(es), e).log|
    ensures Entered(es + [e], Step(Run(es), e).log[i])
  {
    var w := Run(es);
    StepLog(w, e);
    if i < |w.log| {
      EnteredStays(es, e, w.log[i]);
    } else if e.Dispatch? && e.tab in w.tails && w.tails[e.tab].items != [] {
      HeadStays(es, e, e.tab, w.tails[e.tab]);
    }
  }

  /**
   Every gated press handed to Chrome had entered the gate uncancelled and over the open route; it
   skipped the wait only if the page was not known then, and otherwise ended it with the page's
   consent, uncancelled, on the ground it began on.
   */
  lemma {:induction false} EveryPressEntered(es: seq<Event>)
    ensures AllEntered(es)
  {
    if es != [] {
      var front, e := es[..|es| - 1], es[|es| - 1];
      EveryPressEntered(front);
      assert es == front + [e];
      forall t | t in Run(es).tails
        ensures HeadStarted(es, t, Run(es).tails[t]) && CheckPassed(es, t, Run(es).tails[t].phase)
      {
        StepChainEntered(front, e, t);
      }
      forall i | 0 <= i < |Run(es).log| ensures Entered(es, Run(es).log[i]) {
        StepLogEntered(front, e, i);
      }
    }
  }
}
