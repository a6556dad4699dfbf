/**
 Mouse input of one relay: the per-tab promise chain of RelayConnection and the
 click gate it runs through.  Each event is one uninterrupted segment.
 */
module ClickGate {
  import opened Options
  import opened ActionIndicator

  /** A wait on the page: for which document state, and the steps at which it began and was last checked. */
  datatype Wait = Wait(id: nat, epoch: nat, began: nat, checked: nat)

  datatype Phase =
    | Queued
    | Preparing(id: nat, epoch: nat, began: nat)
    | Moving(id: nat, epoch: nat, began: nat)
    | Cleared(wait: Option<Wait>)
    | Sent

  datatype Item = Item(n: nat, gated: bool)

  /** A chain of pending mouse events of one tab; `phase` belongs to the first item. */
  datatype Chain = Chain(items: seq<Item>, phase: Phase, arrived: seq<nat>, handed: seq<nat>)

  datatype HandOver = HandOver(tab: Tab, n: nat, gated: bool, wait: Option<Wait>, at: nat)

  datatype World = World(
    closed: bool,
    attached: set<Tab>,
    indicator: ActionIndicator.State,
    tails: map<Tab, Chain>,
    arrivals: nat,
    clock: nat,                       // steps taken so far
    log: seq<HandOver>,               // mouse events handed to Chrome
    ended: seq<(Tab, Chain)>)         // finished or broken chains

  const Start := World(false, {}, Fresh, map[], 0, 0, [], [])

  datatype Setup = SetupFailed | Unavailable | Prepared

  datatype Event =
    | Arrive(tab: Tab, pressed: bool)
    | StartHead(tab: Tab)
    | SetupReply(tab: Tab, setup: Setup)
    | ArrivalReply(tab: Tab, ready: bool)
    | Dispatch(tab: Tab)
    | ChromeReply(tab: Tab, ok: bool)
    | Attached(tab: Tab)
    | Detached(tab: Tab)
    | DetachAsked(tab: Tab)
    | Installed(tab: Tab)
    | ContextFound(tab: Tab)
    | Navigated(tab: Tab)
    | OtherInput(tab: Tab)
    | ToolState(running: bool, click: bool)
    | CloseRelay

  function Put(w: World, t: Tab, c: Chain): World {
    w.(tails := w.tails[t := c])
  }

  /** The chain's promise settled: rejected, or fulfilled with nothing queued behind it. */
  function EndChain(w: World, t: Tab): World
    requires t in w.tails
  {
    w.(tails := w.tails - {t}, ended := w.ended + [(t, w.tails[t])])
  }

  predicate Open(w: World, t: Tab) {
    !w.closed && t in w.attached
  }

  function OnArrive(w: World, t: Tab, pressed: bool): World {
    if w.closed then w else
      var n := w.arrivals;
      var counted := w.(arrivals := n + 1);
      var gated := pressed && w.indicator.clickMode;
      if t in w.tails then
        var c := w.tails[t];
        Put(counted, t, c.(items := c.items + [Item(n, gated)], arrived := c.arrived + [n]))
      else if gated then
        Put(counted, t, Chain([Item(n, true)], Queued, [n], []))
      else
        counted.(indicator := Select(w.indicator, t), log := w.log + [HandOver(t, n, false, None, w.clock)])
  }

  function OnStart(w: World, t: Tab): World
    requires t in w.tails
  {
    var c := w.tails[t];
    if !Open(w, t) || c.items == [] then EndChain(w, t)
    else if !c.items[0].gated then Put(w, t, c.(phase := Cleared(None)))
    else
      var next := w.(indicator := BeginClick(w.indicator, t));
      match BeginOutcome(w.indicator, t)
      case Refused => EndChain(next, t)
      case Unguarded => Put(next, t, c.(phase := Cleared(None)))
      case Waiting(id, epoch) => Put(next, t, c.(phase := Preparing(id, epoch, w.clock)))
  }

  function Interrupt(w: World, t: Tab, id: nat): World
    requires t in w.tails
  {
    EndChain(w.(indicator := AbandonClick(w.indicator, t, id)), t)
  }

  function ClearClick(w: World, t: Tab, id: nat, epoch: nat, began: nat): World
    requires t in w.tails
  {
    Put(w.(indicator := StopWaiting(w.indicator, t, id)), t,
        w.tails[t].(phase := Cleared(Some(Wait(id, epoch, began, w.clock)))))
  }

  function OnSetup(w: World, t: Tab, setup: Setup): World
    requires t in w.tails && w.tails[t].phase.Preparing?
  {
    var Preparing(id, epoch, began) := w.tails[t].phase;
    if setup.SetupFailed? || !StillCurrent(w.indicator, t, id, epoch) then Interrupt(w, t, id)
    else if setup.Unavailable? then ClearClick(w, t, id, epoch, began)
    else Put(w, t, w.tails[t].(phase := Moving(id, epoch, began)))
  }

  function OnArrival(w: World, t: Tab, ready: bool): World
    requires t in w.tails && w.tails[t].phase.Moving?
  {
    var Moving(id, epoch, began) := w.tails[t].phase;
    if !ready || !StillCurrent(w.indicator, t, id, epoch) then Interrupt(w, t, id)
    else ClearClick(w, t, id, epoch, began)
  }

  function OnDispatch(w: World, t: Tab): World
    requires t in w.tails && w.tails[t].phase.Cleared?
  {
    var c := w.tails[t];
    if !Open(w, t) || c.items == [] then EndChain(w, t)
    else
      var x := HandOver(t, c.items[0].n, c.items[0].gated, c.phase.wait, w.clock);
      Put(w.(log := w.log + [x]), t, c.(phase := Sent, handed := c.handed + [x.n]))
  }

  function OnChromeReply(w: World, t: Tab, ok: bool): World
    requires t in w.tails && w.tails[t].phase.Sent?
  {
    var c := w.tails[t];
    if !ok || c.items == [] then EndChain(w, t)
    else
      var drawn := if c.items[0].gated then w else w.(indicator := Select(w.indicator, t));
      var rest := c.(items := c.items[1..], phase := Queued);
      if rest.items == [] then EndChain(Put(drawn, t, rest), t) else Put(drawn, t, rest)
  }

  predicate Expects(w: World, e: Event) {
    match e
    case StartHead(t) => t in w.tails && w.tails[t].phase.Queued?
    case SetupReply(t, _) => t in w.tails && w.tails[t].phase.Preparing?
    case ArrivalReply(t, _) => t in w.tails && w.tails[t].phase.Moving?
    case Dispatch(t) => t in w.tails && w.tails[t].phase.Cleared?
    case ChromeReply(t, _) => t in w.tails && w.tails[t].phase.Sent?
    case _ => true
  }

  function Act(w: World, e: Event): World
    requires Expects(w, e)
  {
    match e
    case Arrive(t, pressed) => OnArrive(w, t, pressed)
    case StartHead(t) => OnStart(w, t)
    case SetupReply(t, setup) => OnSetup(w, t, setup)
    case ArrivalReply(t, ready) => OnArrival(w, t, ready)
    case Dispatch(t) => OnDispatch(w, t)
    case ChromeReply(t, ok) => OnChromeReply(w, t, ok)
    case Attached(t) => if w.closed then w else w.(attached := w.attached + {t})
    case Detached(t) => w.(attached := w.attached - {t}, indicator := Detach(w.indicator, t))
    case DetachAsked(t) => if w.closed then w else w.(indicator := Detach(w.indicator, t))
    case Installed(t) => w.(indicator := Install(w.indicator, t))
    case ContextFound(t) => w.(indicator := GainContext(w.indicator, t))
    case Navigated(t) => w.(indicator := Invalidate(w.indicator, t))
    case OtherInput(t) => if w.closed then w else w.(indicator := Select(w.indicator, t))
    case ToolState(running, click) => if w.closed then w else w.(indicator := SetRunning(w.indicator, running, click))
    case CloseRelay => w.(closed := true, attached := {}, indicator := Close(w.indicator))
  }

  function Step(w: World, e: Event): World {
    if Expects(w, e) then Act(w, e).(clock := w.clock + 1) else w.(clock := w.clock + 1)
  }

  function Run(es: seq<Event>): World {
    if es == [] then Start else Step(Run(es[..|es| - 1]), es[|es| - 1])
  }

  // ----- Held ground: what a finished wait proves -----------------------------------

  ghost predicate HoldsAt(es: seq<Event>, k: nat, t: Tab, id: nat, epoch: nat) {
    k <= |es| && Holds(Run(es[..k]).indicator, t, id, epoch)
  }

  /** From the step that began the wait to the step that last checked it, nothing moved. */
  ghost predicate HeldThroughout(es: seq<Event>, t: Tab, wait: Wait) {
    && wait.began < wait.checked < |es|
    && forall k | wait.began < k <= wait.checked :: HoldsAt(es, k, t, wait.id, wait.epoch)
  }

  /** What one segment can do to the ground a wait stands on. */
  lemma ChainAdvances(w: World, e: Event, t: Tab, id: nat, epoch: nat)
    requires Expects(w, e) && ChainEvent(e)
    ensures Advances(w.indicator, Act(w, e).indicator, t, id, epoch)
  {
    var s := w.indicator;
    match e {
      case StartHead(u) => BeginAdvances(s, u, t, id, epoch);
      case SetupReply(u, _) => EndAdvances(s, u, w.tails[u].phase.id, t, id, epoch);
      case ArrivalReply(u, _) => EndAdvances(s, u, w.tails[u].phase.id, t, id, epoch);
      case Dispatch(_) =>
      case ChromeReply(u, _) => SelectionAdvances(s, u, t, id, epoch);
    }
  }

  lemma StepAdvances(w: World, e: Event, t: Tab, id: nat, epoch: nat)
    ensures Advances(w.indicator, Step(w, e).indicator, t, id, epoch)
  {
    var s := w.indicator;
    if ChainEvent(e) {
      if Expects(w, e) { ChainAdvances(w, e, t, id, epoch); }
    } else {
      match e {
        case Arrive(u, _) => SelectionAdvances(s, u, t, id, epoch);
        case Detached(u) => LifecycleAdvances(s, u, t, id, epoch);
        case DetachAsked(u) => LifecycleAdvances(s, u, t, id, epoch);
        case Installed(u) => LifecycleAdvances(s, u, t, id, epoch);
        case ContextFound(u) => LifecycleAdvances(s, u, t, id, epoch);
        case Navigated(u) => SelectionAdvances(s, u, t, id, epoch);
        case OtherInput(u) => SelectionAdvances(s, u, t, id, epoch);
        case CloseRelay => LifecycleAdvances(s, 0, t, id, epoch);
        case _ =>
      }
    }
  }

  lemma RunStep(es: seq<Event>, k: nat)
    requires k < |es|
    ensures Run(es[..k + 1]) == Step(Run(es[..k]), es[k])
  {
    assert es[..k + 1][..k] == es[..k];
  }

  lemma StepClosed(w: World, e: Event)
    ensures e.CloseRelay? ==> Step(w, e).closed && Step(w, e).indicator.closed
    ensures !e.CloseRelay? ==> Step(w, e).closed == w.closed && Step(w, e).indicator.closed == w.indicator.closed
    ensures Step(w, e).clock == w.clock + 1
  {
    if Expects(w, e) && !e.CloseRelay? {
      ActClosed(w, e);
    }
  }

  predicate ChainEvent(e: Event) {
    e.StartHead? || e.SetupReply? || e.ArrivalReply? || e.Dispatch? || e.ChromeReply?
  }

  lemma ChainClosed(w: World, e: Event)
    requires Expects(w, e) && ChainEvent(e)
    ensures Act(w, e).closed == w.closed && Act(w, e).indicator.closed == w.indicator.closed
  {
    match e {
      case StartHead(t) => StaysOpen(w.indicator, t, 0);
      case SetupReply(t, _) => StaysOpen(w.indicator, t, w.tails[t].phase.id);
      case ArrivalReply(t, _) => StaysOpen(w.indicator, t, w.tails[t].phase.id);
      case Dispatch(_) =>
      case ChromeReply(t, _) => StaysOpen(w.indicator, t, 0);
    }
  }

  lemma ActClosed(w: World, e: Event)
    requires Expects(w, e) && !e.CloseRelay?
    ensures Act(w, e).closed == w.closed && Act(w, e).indicator.closed == w.indicator.closed
  {
    if ChainEvent(e) {
      ChainClosed(w, e);
    }
  }

  lemma {:induction false} RunBasics(es: seq<Event>)
    ensures Run(es).clock == |es|
    ensures ActionIndicator.Inv(Run(es).indicator)
    ensures Run(es).indicator.closed == Run(es).closed
  {
    if es != [] {
      var w, e := Run(es[..|es| - 1]), es[|es| - 1];
      RunBasics(es[..|es| - 1]);
      StepAdvances(w, e, 0, 0, 0);
      StepClosed(w, e);
    }
  }

  lemma GroundAdvances(es: seq<Event>, k: nat, t: Tab, id: nat, epoch: nat)
    requires k < |es|
    ensures Advances(Run(es[..k]).indicator, Run(es[..k + 1]).indicator, t, id, epoch)
    ensures ActionIndicator.Inv(Run(es[..k]).indicator)
  {
    RunBasics(es[..k]);
    RunStep(es, k);
    StepAdvances(Run(es[..k]), es[k], t, id, epoch);
  }

  ghost predicate LostAt(es: seq<Event>, k: nat, t: Tab, id: nat, epoch: nat) {
    k <= |es| && Lost(Run(es[..k]).indicator, t, id, epoch)
  }

  lemma GroundMoves(es: seq<Event>, k: nat, t: Tab, id: nat, epoch: nat)
    requires k < |es|
    ensures LostAt(es, k, t, id, epoch) ==> LostAt(es, k + 1, t, id, epoch)
    ensures HoldsAt(es, k, t, id, epoch) ==> HoldsAt(es, k + 1, t, id, epoch) || LostAt(es, k + 1, t, id, epoch)
  {
    GroundAdvances(es, k, t, id, epoch);
  }

  /** Ground held at one step and not lost at a later one was held at every step between. */
  lemma {:induction false} WindowHeld(es: seq<Event>, i: nat, j: nat, t: Tab, id: nat, epoch: nat)
    requires i <= j <= |es| && HoldsAt(es, i, t, id, epoch) && !LostAt(es, j, t, id, epoch)
    ensures forall k | i <= k <= j :: HoldsAt(es, k, t, id, epoch)
    decreases j - i
  {
    if i < j {
      GroundMoves(es, j - 1, t, id, epoch);
      WindowHeld(es, i, j - 1, t, id, epoch);
      assert HoldsAt(es, j - 1, t, id, epoch);
    }
  }

  ghost predicate PhaseGrounded(es: seq<Event>, t: Tab, phase: Phase) {
    match phase
    case Preparing(id, epoch, began) => began < |es| && HoldsAt(es, began + 1, t, id, epoch)
    case Moving(id, epoch, began) => began < |es| && HoldsAt(es, began + 1, t, id, epoch)
    case Cleared(Some(wait)) => HeldThroughout(es, t, wait)
    case _ => true
  }

  /** Only a gated press waits. */
  ghost predicate GatedHead(c: Chain) {
    c.phase.Preparing? || c.phase.Moving? || (c.phase.Cleared? && c.phase.wait.Some?) ==>
      c.items != [] && c.items[0].gated
  }

  /** What holds of a press when it is handed to Chrome. */
  ghost predicate Justified(es: seq<Event>, x: HandOver) {
    && x.at < |es|
    && (x.gated ==> Open(Run(es[..x.at]), x.tab))
    && (x.wait.Some? ==> x.gated && x.wait.value.checked < x.at && HeldThroughout(es, x.tab, x.wait.value))
  }

  ghost predicate Grounded(es: seq<Event>) {
    && (forall t | t in Run(es).tails :: PhaseGrounded(es, t, Run(es).tails[t].phase))
    && (forall t | t in Run(es).tails :: GatedHead(Run(es).tails[t]))
    && (forall i | 0 <= i < |Run(es).log| :: Justified(es, Run(es).log[i]))
  }

  /** Facts about the past stay true as the run goes on. */
  lemma HeldStays(es: seq<Event>, e: Event, t: Tab, wait: Wait)
    requires HeldThroughout(es, t, wait)
    ensures HeldThroughout(es + [e], t, wait)
  {
    var longer := es + [e];
    forall k | wait.began < k <= wait.checked ensures HoldsAt(longer, k, t, wait.id, wait.epoch) {
      assert longer[..k] == es[..k];
      assert HoldsAt(es, k, t, wait.id, wait.epoch);
    }
  }

  lemma PhaseStays(es: seq<Event>, e: Event, t: Tab, phase: Phase)
    requires PhaseGrounded(es, t, phase)
    ensures PhaseGrounded(es + [e], t, phase)
  {
    match phase {
      case Preparing(_, _, began) => assert (es + [e])[..began + 1] == es[..began + 1];
      case Moving(_, _, began) => assert (es + [e])[..began + 1] == es[..began + 1];
      case Cleared(Some(wait)) => HeldStays(es, e, t, wait);
      case _ =>
    }
  }

  lemma JustifiedStays(es: seq<Event>, e: Event, x: HandOver)
    requires Justified(es, x)
    ensures Justified(es + [e], x)
  {
    assert (es + [e])[..x.at] == es[..x.at];
    if x.wait.Some? {
      HeldStays(es, e, x.tab, x.wait.value);
    }
  }

  /** Where the phase of a chain can come from. */
  ghost predicate PhaseOrigin(w: World, e: Event, t: Tab, phase: Phase) {
    match phase
    case Preparing(id, epoch, began) =>
      || (t in w.tails && w.tails[t].phase == phase)
      || (e == StartHead(t) && Open(w, t) && began == w.clock && BeginOutcome(w.indicator, t) == Waiting(id, epoch)
          && Step(w, e).indicator == BeginClick(w.indicator, t))
    case Moving(id, epoch, began) =>
      t in w.tails && w.tails[t].phase in {phase, Preparing(id, epoch, began)}
    case Cleared(Some(wait)) =>
      t in w.tails && (
        || w.tails[t].phase == phase
        || (wait.checked == w.clock && StillCurrent(w.indicator, t, wait.id, wait.epoch)
            && w.tails[t].phase in {Preparing(wait.id, wait.epoch, wait.began), Moving(wait.id, wait.epoch, wait.began)}))
    case _ => true
  }

  ghost predicate PhaseKept(w: World, e: Event, t: Tab) {
    t in Step(w, e).tails ==>
      PhaseOrigin(w, e, t, Step(w, e).tails[t].phase) && GatedHead(Step(w, e).tails[t])
  }

  lemma StartPhase(w: World, t: Tab)
    requires Expects(w, StartHead(t)) && GatedHead(w.tails[t])
    ensures PhaseKept(w, StartHead(t), t)
  {
  }

  lemma SetupPhase(w: World, t: Tab, setup: Setup)
    requires Expects(w, SetupReply(t, setup)) && GatedHead(w.tails[t])
    ensures PhaseKept(w, SetupReply(t, setup), t)
  {
  }

  lemma ArrivalPhase(w: World, t: Tab, ready: bool)
    requires Expects(w, ArrivalReply(t, ready)) && GatedHead(w.tails[t])
    ensures PhaseKept(w, ArrivalReply(t, ready), t)
  {
  }

  lemma HandOverPhase(w: World, e: Event)
    requires (e.Dispatch? || e.ChromeReply?) && Expects(w, e) && GatedHead(w.tails[e.tab])
    ensures PhaseKept(w, e, e.tab)
  {
  }

  lemma ArrivePhase(w: World, u: Tab, pressed: bool, t: Tab)
    requires t in w.tails ==> GatedHead(w.tails[t])
    ensures PhaseKept(w, Arrive(u, pressed), t)
  {
  }

  /** A chain event changes no other tab's chain. */
  lemma OtherChains(w: World, e: Event, t: Tab)
    requires ChainEvent(e) && Expects(w, e) && e.tab != t
    ensures t in Step(w, e).tails <==> t in w.tails
    ensures t in w.tails ==> Step(w, e).tails[t] == w.tails[t]
  {
  }

  lemma StepPhase(w: World, e: Event, t: Tab)
    requires t in w.tails ==> GatedHead(w.tails[t])
    ensures PhaseKept(w, e, t)
  {
    if ChainEvent(e) {
      if Expects(w, e) && e.tab != t {
        OtherChains(w, e, t);
      } else if Expects(w, e) {
        match e {
          case StartHead(_) => StartPhase(w, t);
          case SetupReply(_, setup) => SetupPhase(w, t, setup);
          case ArrivalReply(_, ready) => ArrivalPhase(w, t, ready);
          case Dispatch(_) => HandOverPhase(w, e);
          case ChromeReply(_, _) => HandOverPhase(w, e);
        }
      }
    } else if e.Arrive? {
      ArrivePhase(w, e.tab, e.pressed, t);
    } else {
      assert Step(w, e).tails == w.tails;
    }
  }

  lemma StepLog(w: World, e: Event)
    ensures
      var log := Step(w, e).log;
      || log == w.log
      || (exists n :: log == w.log + [HandOver(e.tab, n, false, None, w.clock)])
      || (e.Dispatch? && e.tab in w.tails && w.tails[e.tab].phase.Cleared? && Open(w, e.tab) && w.tails[e.tab].items != []
          && var head := w.tails[e.tab].items[0];
             log == w.log + [HandOver(e.tab, head.n, head.gated, w.tails[e.tab].phase.wait, w.clock)])
  {
  }

  /** A wait that passes its last check now held its ground all along. */
  lemma CheckedWaitHeld(es: seq<Event>, e: Event, t: Tab, wait: Wait)
    requires wait.checked == |es| && StillCurrent(Run(es).indicator, t, wait.id, wait.epoch)
    requires wait.began < |es| && HoldsAt(es, wait.began + 1, t, wait.id, wait.epoch)
    ensures HeldThroughout(es + [e], t, wait)
  {
    var longer := es + [e];
    assert longer[..|es|] == es && longer[..wait.began + 1] == es[..wait.began + 1];
    WindowHeld(longer, wait.began + 1, wait.checked, t, wait.id, wait.epoch);
  }

  /** A wait that begins now stands on the present ground. */
  lemma BegunGrounded(es: seq<Event>, t: Tab, id: nat, epoch: nat)
    requires Open(Run(es), t) && BeginOutcome(Run(es).indicator, t) == Waiting(id, epoch)
    requires Step(Run(es), StartHead(t)).indicator == BeginClick(Run(es).indicator, t)
    ensures HoldsAt(es + [StartHead(t)], |es| + 1, t, id, epoch)
  {
    var longer := es + [StartHead(t)];
    RunBasics(es);
    BeginHolds(Run(es).indicator, t);
    assert longer[..|es|] == es && longer[..|es| + 1] == longer;
  }

  lemma OriginGrounded(es: seq<Event>, e: Event, t: Tab, phase: Phase)
    requires PhaseOrigin(Run(es), e, t, phase)
    requires t in Run(es).tails ==> PhaseGrounded(es, t, Run(es).tails[t].phase)
    ensures PhaseGrounded(es + [e], t, phase)
  {
    var w := Run(es);
    RunBasics(es);
    if t in w.tails {
      PhaseStays(es, e, t, w.tails[t].phase);
    }
    match phase {
      case Preparing(id, epoch, _) =>
        if !(t in w.tails && w.tails[t].phase == phase) {
          BegunGrounded(es, t, id, epoch);
        }
      case Cleared(Some(wait)) =>
        if w.tails[t].phase != phase {
          CheckedWaitHeld(es, e, t, wait);
        }
      case _ =>
    }
  }

  lemma StepPhaseGrounded(es: seq<Event>, e: Event, t: Tab)
    requires Grounded(es) && t in Run(es + [e]).tails
    ensures PhaseGrounded(es + [e], t, Run(es + [e]).tails[t].phase)
    ensures GatedHead(Run(es + [e]).tails[t])
  {
    assert (es + [e])[..|es|] == es;
    StepPhase(Run(es), e, t);
    OriginGrounded(es, e, t, Run(es + [e]).tails[t].phase);
  }

  lemma StepJustified(es: seq<Event>, e: Event, i: nat)
    requires Grounded(es) && i < |Run(es + [e]).log|
    ensures Justified(es + [e], Run(es + [e]).log[i])
  {
    var w, longer := Run(es), es + [e];
    assert longer[..|es|] == es;
    StepLog(w, e);
    RunBasics(es);
    if i < |w.log| {
      JustifiedStays(es, e, w.log[i]);
    } else if e.Dispatch? && e.tab in w.tails {
      assert PhaseGrounded(es, e.tab, w.tails[e.tab].phase) && GatedHead(w.tails[e.tab]);
      PhaseStays(es, e, e.tab, w.tails[e.tab].phase);
    }
  }

  lemma StepGrounded(es: seq<Event>, e: Event)
    requires Grounded(es)
    ensures Grounded(es + [e])
  {
    forall t | t in Run(es + [e]).tails
      ensures PhaseGrounded(es + [e], t, Run(es + [e]).tails[t].phase) && GatedHead(Run(es + [e]).tails[t])
    {
      StepPhaseGrounded(es, e, t);
    }
    forall i | 0 <= i < |Run(es + [e]).log| ensures Justified(es + [e], Run(es + [e]).log[i]) {
      StepJustified(es, e, i);
    }
  }

  lemma {:induction false} EveryRunGrounded(es: seq<Event>)
    ensures Grounded(es)
  {
    if es != [] {
      EveryRunGrounded(es[..|es| - 1]);
      StepGrounded(es[..|es| - 1], es[|es| - 1]);
      assert es[..|es| - 1] + [es[|es| - 1]] == es;
    }
  }

  /** A gated press of tab `u` enters the gate, which selects its tab. */
  predicate EntersGate(w: World, u: Tab) {
    && u in w.tails && w.tails[u].phase.Queued? && Open(w, u)
    && w.tails[u].items != [] && w.tails[u].items[0].gated && !w.indicator.cancelled
  }

  /** Chrome took an ungated event of tab `u`, which selects its tab. */
  predicate TakenUngated(w: World, u: Tab, ok: bool) {
    ok && u in w.tails && w.tails[u].phase.Sent? && w.tails[u].items != [] && !w.tails[u].items[0].gated
  }

  /** The events that take the ground away from a wait on tab `t`. */
  predicate Disturbs(w: World, e: Event, t: Tab) {
    match e
    case Navigated(u) => u == t
    case Detached(u) => u == t
    case DetachAsked(u) => u == t && !w.closed
    case Installed(u) => u == t
    case OtherInput(u) => u != t
    case Arrive(u, pressed) => u != t && u !in w.tails && !(pressed && w.indicator.clickMode)
    case StartHead(u) => u != t && EntersGate(w, u)
    case ChromeReply(u, ok) => u != t && TakenUngated(w, u, ok)
    case CloseRelay => true
    case _ => false
  }

  ghost predicate Undisturbed(es: seq<Event>, t: Tab, wait: Wait) {
    forall k | 0 <= k < |es| && wait.began < k < wait.checked :: !Disturbs(Run(es[..k]), es[k], t)
  }

  lemma SelectionLoses(s: ActionIndicator.State, u: Tab, t: Tab, id: nat, epoch: nat)
    requires ActionIndicator.Inv(s) && Holds(s, t, id, epoch) && u != t
    ensures !Holds(Select(s, u), t, id, epoch) && !Holds(BeginClick(s.(cancelled := false), u), t, id, epoch)
  {
  }

  lemma ChainDisturbedLoses(w: World, e: Event, t: Tab, id: nat, epoch: nat)
    requires ActionIndicator.Inv(w.indicator) && ChainEvent(e)
    requires Disturbs(w, e, t) && Holds(w.indicator, t, id, epoch)
    ensures !Holds(Step(w, e).indicator, t, id, epoch)
  {
    SelectionLoses(w.indicator, e.tab, t, id, epoch);
    if e.StartHead? {
      assert w.indicator.(cancelled := false) == w.indicator;
      assert Step(w, e).indicator == BeginClick(w.indicator, e.tab);
    } else {
      assert Step(w, e).indicator == Select(w.indicator, e.tab);
    }
  }

  lemma DisturbedLoses(w: World, e: Event, t: Tab, id: nat, epoch: nat)
    requires ActionIndicator.Inv(w.indicator) && w.indicator.closed == w.closed
    requires Disturbs(w, e, t) && Holds(w.indicator, t, id, epoch)
    ensures !Holds(Step(w, e).indicator, t, id, epoch)
  {
    if ChainEvent(e) {
      ChainDisturbedLoses(w, e, t, id, epoch);
    } else if e.OtherInput? || e.Arrive? {
      SelectionLoses(w.indicator, e.tab, t, id, epoch);
    }
  }

  /**
   A gated press reaches Chrome only over an open relay and an attached tab; if it
   waited on the page, the tab kept its document state and epoch, stayed selected and
   was not disturbed from the start of the wait to the last check, whatever tool states
   were announced meanwhile.
   */
  lemma GatedPressIsJustified(es: seq<Event>, i: nat)
    requires i < |Run(es).log| && Run(es).log[i].gated
    ensures var x := Run(es).log[i];
      x.at < |es| && Open(Run(es[..x.at]), x.tab)
    ensures var x := Run(es).log[i];
      x.wait.Some? ==>
        && x.wait.value.checked < x.at
        && HeldThroughout(es, x.tab, x.wait.value)
        && Undisturbed(es, x.tab, x.wait.value)
  {
    EveryRunGrounded(es);
    var x := Run(es).log[i];
    assert Justified(es, x);
    if x.wait.Some? {
      var wait := x.wait.value;
      forall k | 0 <= k < |es| && wait.began < k < wait.checked ensures !Disturbs(Run(es[..k]), es[k], x.tab) {
        assert HoldsAt(es, k, x.tab, wait.id, wait.epoch) && HoldsAt(es, k + 1, x.tab, wait.id, wait.epoch);
        RunStep(es, k);
        RunBasics(es[..k]);
        if Disturbs(Run(es[..k]), es[k], x.tab) {
          DisturbedLoses(Run(es[..k]), es[k], x.tab, wait.id, wait.epoch);
        }
      }
    }
  }

  // ----- The relay's mouse input, as its fields change --------------------------------

  class MouseInput {
    const indicator: Indicator
    var closed: bool
    var attached: set<Tab>
    var tails: map<Tab, Chain>
    var arrivals: nat
    var clock: nat
    var log: seq<HandOver>
    var ended: seq<(Tab, Chain)>

    function View(): World
      reads this, indicator
    {
      World(closed, attached, indicator.View(), tails, arrivals, clock, log, ended)
    }

    constructor (i: Indicator)
      requires i.View() == Fresh
      ensures indicator == i && View() == Start
    {
      indicator := i;
      closed, attached, tails, arrivals, clock, log, ended := false, {}, map[], 0, 0, [], [];
    }

    /** The chain's task settled; nothing queued behind a rejected task runs. */
    method Settle(t: Tab)
      requires t in tails
      modifies this
      ensures View() == EndChain(old(View()), t)
    {
      ended := ended + [(t, tails[t])];
      tails := tails - {t};
    }

    /** Input.dispatchMouseEvent arrives. */
    method MouseEvent(t: Tab, pressed: bool)
      modifies this, indicator
      ensures View() == OnArrive(old(View()), t, pressed)
    {
      if closed {
        return;
      }
      var n := arrivals;
      arrivals := arrivals + 1;
      var gated := pressed && indicator.clickMode;
      if t in tails {
        var c := tails[t];
        tails := tails[t := c.(items := c.items + [Item(n, gated)], arrived := c.arrived + [n])];
      } else if gated {
        tails := tails[t := Chain([Item(n, true)], Queued, [n], [])];
      } else {
        indicator.SelectTab(t);
        log := log + [HandOver(t, n, false, None, clock)];
      }
    }

    /** The task at the head of the chain starts. */
    method StartTask(t: Tab)
      requires t in tails
      modifies this, indicator
      ensures View() == OnStart(old(View()), t)
    {
      var c := tails[t];
      if closed || t !in attached || c.items == [] {
        Settle(t);
        return;
      }
      if !c.items[0].gated {
        tails := tails[t := c.(phase := Cleared(None))];
        return;
      }
      var outcome := indicator.BeforeClick(t);
      match outcome {
        case Refused => Settle(t);
        case Unguarded => tails := tails[t := c.(phase := Cleared(None))];
        case Waiting(id, epoch) => tails := tails[t := c.(phase := Preparing(id, epoch, clock))];
      }
    }

    method Interrupted(t: Tab, id: nat)
      requires t in tails
      modifies this, indicator
      ensures View() == Interrupt(old(View()), t, id)
    {
      indicator.EndWait(t, id, true);
      Settle(t);
    }

    method WaitDone(t: Tab, id: nat, epoch: nat, began: nat)
      requires t in tails
      modifies this, indicator
      ensures View() == ClearClick(old(View()), t, id, epoch, began)
    {
      indicator.EndWait(t, id, false);
      tails := tails[t := tails[t].(phase := Cleared(Some(Wait(id, epoch, began, clock))))];
    }

    /** The page answered, or failed to answer, the preparation of the click. */
    method SetupReplied(t: Tab, setup: Setup)
      requires t in tails && tails[t].phase.Preparing?
      modifies this, indicator
      ensures View() == OnSetup(old(View()), t, setup)
    {
      var Preparing(id, epoch, began) := tails[t].phase;
      if setup.SetupFailed? || !StillCurrent(indicator.View(), t, id, epoch) {
        Interrupted(t, id);
      } else if setup.Unavailable? {
        WaitDone(t, id, epoch, began);
      } else {
        tails := tails[t := tails[t].(phase := Moving(id, epoch, began))];
      }
    }

    method ArrivalReplied(t: Tab, ready: bool)
      requires t in tails && tails[t].phase.Moving?
      modifies this, indicator
      ensures View() == OnArrival(old(View()), t, ready)
    {
      var Moving(id, epoch, began) := tails[t].phase;
      if !ready || !StillCurrent(indicator.View(), t, id, epoch) {
        Interrupted(t, id);
      } else {
        WaitDone(t, id, epoch, began);
      }
    }

    /** The second check, and the call into Chrome. */
    method DispatchHead(t: Tab)
      requires t in tails && tails[t].phase.Cleared?
      modifies this
      ensures View() == OnDispatch(old(View()), t)
    {
      var c := tails[t];
      if closed || t !in attached || c.items == [] {
        Settle(t);
        return;
      }
      log := log + [HandOver(t, c.items[0].n, c.items[0].gated, c.phase.wait, clock)];
      tails := tails[t := c.(phase := Sent, handed := c.handed + [c.items[0].n])];
    }

    method ChromeReplied(t: Tab, ok: bool)
      requires t in tails && tails[t].phase.Sent?
      modifies this, indicator
      ensures View() == OnChromeReply(old(View()), t, ok)
    {
      var c := tails[t];
      if !ok || c.items == [] {
        Settle(t);
        return;
      }
      if !c.items[0].gated {
        indicator.SelectTab(t);
      }
      tails := tails[t := c.(items := c.items[1..], phase := Queued)];
      if tails[t].items == [] {
        Settle(t);
      }
    }

    /** The next segment of a chain, if it is the one that is due. */
    method TakeChain(e: Event)
      requires ChainEvent(e)
      modifies this, indicator
      ensures View() == if Expects(old(View()), e) then Act(old(View()), e) else old(View())
    {
      if e.tab !in tails {
        return;
      }
      var phase := tails[e.tab].phase;
      match e {
        case StartHead(t) =>
          if phase.Queued? { StartTask(t); }
        case SetupReply(t, setup) =>
          if phase.Preparing? { SetupReplied(t, setup); }
        case ArrivalReply(t, ready) =>
          if phase.Moving? { ArrivalReplied(t, ready); }
        case Dispatch(t) =>
          if phase.Cleared? { DispatchHead(t); }
        case ChromeReply(t, ok) =>
          if phase.Sent? { ChromeReplied(t, ok); }
      }
    }

    method TakeOther(e: Event)
      requires !ChainEvent(e)
      modifies this, indicator
      ensures View() == Act(old(View()), e)
    {
      match e {
        case Arrive(t, pressed) => MouseEvent(t, pressed);
        case Attached(t) =>
          if !closed { attached := attached + {t}; }
        case Detached(t) =>
          attached := attached - {t};
          indicator.DetachTab(t);
        case DetachAsked(t) =>
          if !closed { indicator.DetachTab(t); }
        case Installed(t) => indicator.AttachDone(t);
        case ContextFound(t) => indicator.ContextFound(t);
        case Navigated(t) => indicator.InvalidateTab(t);
        case OtherInput(t) =>
          if !closed { indicator.SelectTab(t); }
        case ToolState(running, click) =>
          if !closed { indicator.RunningState(running, click); }
        case CloseRelay =>
          closed, attached := true, {};
          indicator.CloseAll();
      }
    }

    method Take(e: Event)
      modifies this, indicator
      ensures View() == Step(old(View()), e)
    {
      if ChainEvent(e) {
        TakeChain(e);
      } else {
        TakeOther(e);
      }
      clock := clock + 1;
    }

    /** What the theorems say of the objects themselves. */
    method Drive(es: seq<Event>)
      requires View() == Start
      modifies this, indicator
      ensures View() == Run(es)
      ensures forall i | 0 <= i < |log| :: Justified(es, log[i])
    {
      for i := 0 to |es|
        invariant View() == Run(es[..i])
      {
        assert es[..i + 1][..i] == es[..i];
        Take(es[i]);
      }
      assert es[..|es|] == es;
      EveryRunGrounded(es);
    }
  }
}
