/**
 Attachment bookkeeping of one RelayConnection, as a state machine.

 Every function below is one uninterrupted segment of the single-threaded
 source.  The flag `lost` says that the socket refused the message sent in the
 middle of the segment, which closes the relay before the segment goes on.
 */
module Relay {

  type Tab = int

  datatype State = State(
    owned: set<Tab>,
    attached: set<Tab>,
    hasEverAttached: bool,
    closed: bool,
    pending: set<Tab>,          // waiting to be re-attached
    recent: set<Tab>,           // in the re-attach cool-down
    detaches: multiset<Tab>,    // chrome.debugger.detach calls scheduled and not yet executed
    closeNotices: nat)          // calls of onclose

  const Fresh := State({}, {}, false, false, {}, {}, multiset{}, 0)

  function OnClose(r: State): State {
    if r.closed then r else
      r.(closed := true, pending := {}, recent := {},
         detaches := r.detaches + multiset(r.attached),
         owned := r.owned - r.attached, attached := {},
         closeNotices := r.closeNotices + 1)
  }

  function Send(r: State, lost: bool): State {
    if lost then OnClose(r) else r
  }

  function CheckLast(r: State): State {
    if r.hasEverAttached && r.attached == {} && r.pending == {} then OnClose(r) else r
  }

  function NotifyAttached(r: State, t: Tab): State {
    r.(attached := r.attached + {t}, hasEverAttached := true, pending := r.pending - {t})
  }

  function NotifyDetached(r: State, t: Tab): State {
    r.(attached := r.attached - {t}, owned := r.owned - {t})
  }

  function AttachTab(r: State, t: Tab, lost: bool): State {
    if r.closed || t in r.attached then r else Send(r.(owned := r.owned + {t}), lost)
  }

  function DetachTab(r: State, t: Tab, lost: bool): State {
    if r.closed || t !in r.attached then r else
      CheckLast(Send(NotifyDetached(r.(detaches := r.detaches + multiset{t}), t), lost))
  }

  predicate MayReattach(r: State, t: Tab) {
    !r.closed && t !in r.recent
  }

  /** chrome.debugger.onDetach, with the re-attach decision. */
  function OnDetachEvent(r: State, t: Tab, targetClosed: bool, lost: bool): State {
    if r.closed || t !in r.attached then r else
      var after := NotifyDetached(Send(r, lost), t);
      if targetClosed && MayReattach(after, t)
      then after.(recent := after.recent + {t}, pending := after.pending + {t})
      else CheckLast(after)
  }

  /** chrome.tabs.onCreated for a tab opened by an attached tab. */
  function OnPopup(r: State, opener: Tab, t: Tab, lost: bool): State {
    if r.closed || opener !in r.attached then r else Send(r.(owned := r.owned + {t}), lost)
  }

  function OnProbeFailed(r: State, t: Tab): State {
    CheckLast(r.(pending := r.pending - {t}))
  }

  function OnProbeFound(r: State, t: Tab, lost: bool): State {
    if r.closed || t !in r.pending then r
    else if t in r.attached then r.(pending := r.pending - {t})
    else AttachTab(r, t, lost)
  }

  function OnVerifyTimer(r: State, t: Tab): State {
    if r.closed || t !in r.pending then r else
      var after := r.(pending := r.pending - {t});
      if t in after.attached then after else CheckLast(after)
  }

  function OnCooldownTimer(r: State, t: Tab): State {
    r.(recent := r.recent - {t})
  }

  /** Chrome answered an attach command. */
  function OnAttachReply(r: State, t: Tab): State {
    if r.closed then r.(detaches := r.detaches + multiset{t}) else NotifyAttached(r, t)
  }

  function OnCreateReply(r: State, t: Tab): State {
    if r.closed then r else r.(owned := r.owned + {t})
  }

  // ----- Chrome and the command queue around the relay ---------------------------

  /** Chrome's answers and events reach the extension in the order they happened. */
  datatype Message = AttachReply(tab: Tab, ok: bool) | DetachEvent(tab: Tab, targetClosed: bool)

  datatype World = World(
    relay: State,
    physical: set<Tab>,       // debuggers Chrome really has attached
    inbox: seq<Message>,      // undelivered, oldest first
    saving: multiset<Tab>,    // attach commands waiting for their ownership write
    calls: multiset<Tab>)     // attach calls Chrome has not executed yet

  const Start := World(Fresh, {}, [], multiset{}, multiset{})

  datatype Event =
    | AttachCommand(tab: Tab)
    | DetachCommand(tab: Tab)
    | SaveDone(tab: Tab, ok: bool)
    | ChromeAttaches(tab: Tab, ok: bool)
    | ChromeDetaches(tab: Tab, targetClosed: bool)
    | ChromeRunsDetach(tab: Tab)
    | Deliver(lost: bool)
    | Respond(lost: bool)
    | UserAdds(tab: Tab, lost: bool)
    | UserRemoves(tab: Tab, lost: bool)
    | Popup(opener: Tab, tab: Tab, lost: bool)
    | Created(tab: Tab)
    | ProbeFailed(tab: Tab)
    | ProbeFound(tab: Tab, lost: bool)
    | VerifyTimer(tab: Tab)
    | CooldownTimer(tab: Tab)
    | Close

  function Handle(r: State, m: Message, lost: bool): State {
    match m
    case AttachReply(t, ok) => if ok then OnAttachReply(r, t) else r
    case DetachEvent(t, targetClosed) => OnDetachEvent(r, t, targetClosed, lost)
  }

  /** Events that only the relay takes part in. */
  function Segment(r: State, e: Event): State {
    match e
    case Respond(lost) => Send(r, lost)
    case UserAdds(t, lost) => AttachTab(r, t, lost)
    case UserRemoves(t, lost) => DetachTab(r, t, lost)
    case Popup(opener, t, lost) => OnPopup(r, opener, t, lost)
    case Created(t) => OnCreateReply(r, t)
    case ProbeFailed(t) => OnProbeFailed(r, t)
    case ProbeFound(t, lost) => OnProbeFound(r, t, lost)
    case VerifyTimer(t) => OnVerifyTimer(r, t)
    case CooldownTimer(t) => OnCooldownTimer(r, t)
    case Close => OnClose(r)
    case _ => r
  }

  function Step(w: World, e: Event): World {
    match e
    case AttachCommand(t) =>
      if w.relay.closed || t !in w.relay.owned then w else w.(saving := w.saving + multiset{t})
    case DetachCommand(t) =>
      if w.relay.closed || t !in w.relay.owned then w
      else w.(relay := w.relay.(detaches := w.relay.detaches + multiset{t}))
    case SaveDone(t, ok) =>
      if t !in w.saving then w
      else if !ok || w.relay.closed then w.(saving := w.saving - multiset{t})
      else w.(saving := w.saving - multiset{t}, calls := w.calls + multiset{t})
    case ChromeAttaches(t, ok) =>
      if t !in w.calls then w
      else if !ok || t in w.physical
      then w.(calls := w.calls - multiset{t}, inbox := w.inbox + [AttachReply(t, false)])
      else w.(calls := w.calls - multiset{t}, inbox := w.inbox + [AttachReply(t, true)], physical := w.physical + {t})
    case ChromeDetaches(t, targetClosed) =>
      if t !in w.physical then w
      else w.(physical := w.physical - {t}, inbox := w.inbox + [DetachEvent(t, targetClosed)])
    case ChromeRunsDetach(t) =>
      if t !in w.relay.detaches then w
      else w.(physical := w.physical - {t}, relay := w.relay.(detaches := w.relay.detaches - multiset{t}))
    case Deliver(lost) =>
      if w.inbox == [] then w
      else w.(inbox := w.inbox[1..], relay := Handle(w.relay, w.inbox[0], lost))
    case _ => w.(relay := Segment(w.relay, e))
  }

  function Run(w: World, es: seq<Event>): World {
    if es == [] then w else Step(Run(w, es[..|es| - 1]), es[|es| - 1])
  }

  // ----- Invariants --------------------------------------------------------------

  /** A relay that lost its last tab is closed, a closed relay is empty, onclose fires once. */
  ghost predicate Consistent(r: State) {
    && (r.hasEverAttached && r.attached == {} && r.pending == {} ==> r.closed)
    && (r.attached != {} ==> r.hasEverAttached)
    && (r.closed ==> r.attached == {} && r.pending == {} && r.recent == {})
    && r.closeNotices == (if r.closed then 1 else 0)
  }

  datatype Standing = Silent | SaysAttached | SaysDetached

  function About(m: Message, t: Tab): Standing {
    match m
    case AttachReply(u, ok) => if u == t && ok then SaysAttached else Silent
    case DetachEvent(u, _) => if u == t then SaysDetached else Silent
  }

  /** What the newest undelivered message says about a tab. */
  function Newest(inbox: seq<Message>, t: Tab): Standing {
    if inbox == [] then Silent
    else if About(inbox[|inbox| - 1], t) != Silent then About(inbox[|inbox| - 1], t)
    else Newest(inbox[..|inbox| - 1], t)
  }

  /** Somebody is going to release this physical attachment. */
  ghost predicate Accounted(w: World, t: Tab) {
    match Newest(w.inbox, t)
    case SaysAttached => true
    case SaysDetached => false
    case Silent => t in w.relay.attached || t in w.relay.detaches
  }

  ghost predicate Inv(w: World) {
    Consistent(w.relay) && forall t | t in w.physical :: Accounted(w, t)
  }

  lemma NewestAppend(inbox: seq<Message>, m: Message, t: Tab)
    ensures Newest(inbox + [m], t) == if About(m, t) != Silent then About(m, t) else Newest(inbox, t)
  {
    assert (inbox + [m])[..|inbox|] == inbox;
  }

  lemma {:induction false} NewestTail(inbox: seq<Message>, t: Tab)
    requires inbox != []
    ensures Newest(inbox, t) == if Newest(inbox[1..], t) != Silent then Newest(inbox[1..], t) else About(inbox[0], t)
  {
    if |inbox| > 1 && About(inbox[|inbox| - 1], t) == Silent {
      var front := inbox[..|inbox| - 1];
      NewestTail(front, t);
      assert front[1..] == inbox[1..][..|inbox| - 2];
    }
  }

  lemma {:induction false} NewestWitness(inbox: seq<Message>, t: Tab)
    requires Newest(inbox, t) == SaysAttached
    ensures AttachReply(t, true) in inbox
  {
    if About(inbox[|inbox| - 1], t) == Silent {
      NewestWitness(inbox[..|inbox| - 1], t);
    }
  }

  /** Consistent but for the check for the last tab. */
  ghost predicate Tidy(r: State) {
    && (r.closed ==> r.attached == {} && r.pending == {} && r.recent == {})
    && (r.attached != {} ==> r.hasEverAttached)
    && r.closeNotices == (if r.closed then 1 else 0)
  }

  lemma CheckLastConsistent(r: State, lost: bool)
    requires Tidy(r)
    ensures Consistent(CheckLast(r)) && Consistent(OnClose(r)) && Tidy(Send(r, lost))
  {
  }

  lemma DetachConsistent(r: State, t: Tab, lost: bool)
    requires Consistent(r)
    ensures Consistent(DetachTab(r, t, lost))
  {
    if !r.closed && t in r.attached {
      var dropped := NotifyDetached(r.(detaches := r.detaches + multiset{t}), t);
      CheckLastConsistent(dropped, lost);
      CheckLastConsistent(Send(dropped, lost), false);
    }
  }

  lemma TimerConsistent(r: State, t: Tab, lost: bool)
    requires Consistent(r)
    ensures Consistent(OnProbeFailed(r, t)) && Consistent(OnProbeFound(r, t, lost)) && Consistent(OnVerifyTimer(r, t))
  {
    CheckLastConsistent(r.(pending := r.pending - {t}), false);
  }

  lemma SegmentConsistent(r: State, e: Event)
    requires Consistent(r)
    ensures Consistent(Segment(r, e))
  {
    match e {
      case UserRemoves(t, lost) => DetachConsistent(r, t, lost);
      case ProbeFailed(t) => TimerConsistent(r, t, false);
      case ProbeFound(t, lost) => TimerConsistent(r, t, lost);
      case VerifyTimer(t) => TimerConsistent(r, t, false);
      case _ =>
    }
  }

  lemma HandleConsistent(r: State, m: Message, lost: bool)
    requires Consistent(r)
    ensures Consistent(Handle(r, m, lost))
  {
  }

  ghost predicate Tracks(r: State, t: Tab) {
    t in r.attached || t in r.detaches
  }

  lemma CloseTracks(r: State, t: Tab)
    requires Tracks(r, t)
    ensures Tracks(OnClose(r), t)
  {
    assert t in r.attached ==> t in multiset(r.attached);
  }

  lemma DetachTracks(r: State, u: Tab, lost: bool, t: Tab)
    requires Tracks(r, t)
    ensures Tracks(DetachTab(r, u, lost), t)
  {
    if !r.closed && u in r.attached {
      var before := NotifyDetached(r.(detaches := r.detaches + multiset{u}), u);
      CloseTracks(before, t);
      CloseTracks(Send(before, lost), t);
    }
  }

  /** No relay segment forgets an attachment. */
  lemma SegmentTracks(r: State, e: Event, t: Tab)
    requires Tracks(r, t)
    ensures Tracks(Segment(r, e), t)
  {
    CloseTracks(r, t);
    match e {
      case UserAdds(u, _) => CloseTracks(r.(owned := r.owned + {u}), t);
      case UserRemoves(u, lost) => DetachTracks(r, u, lost, t);
      case Popup(_, u, _) => CloseTracks(r.(owned := r.owned + {u}), t);
      case ProbeFailed(u) => CloseTracks(r.(pending := r.pending - {u}), t);
      case ProbeFound(u, _) => CloseTracks(r.(owned := r.owned + {u}), t);
      case VerifyTimer(u) => CloseTracks(r.(pending := r.pending - {u}), t);
      case _ =>
    }
  }

  /** A delivered message makes the relay forget only a tab that it reports detached. */
  lemma HandleTracks(r: State, m: Message, lost: bool, t: Tab)
    requires About(m, t) == SaysAttached || (Tracks(r, t) && About(m, t) == Silent)
    ensures Tracks(Handle(r, m, lost), t)
  {
    if Tracks(r, t) && m.DetachEvent? {
      CloseTracks(r, t);
      var after := NotifyDetached(Send(r, lost), m.tab);
      if Tracks(after, t) { CloseTracks(after, t); }
    }
  }

  /** A message about one tab is added; what was known of the others stays. */
  lemma InboxAccounted(w: World, next: World, m: Message, t: Tab)
    requires next.inbox == w.inbox + [m] && next.relay == w.relay
    requires About(m, t) == SaysAttached || (About(m, t) == Silent && Accounted(w, t))
    ensures Accounted(next, t)
  {
    NewestAppend(w.inbox, m, t);
  }

  lemma ChromeAccounted(w: World, e: Event, t: Tab)
    requires Inv(w) && (e.ChromeAttaches? || e.ChromeDetaches?) && t in Step(w, e).physical
    ensures Accounted(Step(w, e), t)
  {
    var next := Step(w, e);
    if next != w {
      var m := next.inbox[|w.inbox|];
      assert next.inbox == w.inbox + [m];
      assert t in w.physical ==> Accounted(w, t);
      InboxAccounted(w, next, m, t);
    }
  }

  lemma DeliverAccounted(w: World, lost: bool, t: Tab)
    requires Inv(w) && w.inbox != [] && t in w.physical
    ensures Accounted(Step(w, Deliver(lost)), t)
  {
    assert Accounted(w, t);
    NewestTail(w.inbox, t);
    if Newest(w.inbox[1..], t) == Silent {
      HandleTracks(w.relay, w.inbox[0], lost, t);
    }
  }

  lemma StepAccounted(w: World, e: Event, t: Tab)
    requires Inv(w) && t in Step(w, e).physical
    ensures Accounted(Step(w, e), t)
  {
    assert t in w.physical ==> Accounted(w, t);
    match e {
      case AttachCommand(_) =>
      case DetachCommand(_) =>
      case SaveDone(_, _) =>
      case ChromeAttaches(_, _) => ChromeAccounted(w, e, t);
      case ChromeDetaches(_, _) => ChromeAccounted(w, e, t);
      case ChromeRunsDetach(_) =>
      case Deliver(lost) =>
        if w.inbox != [] { DeliverAccounted(w, lost, t); }
      case _ =>
        if Newest(w.inbox, t) == Silent {
          SegmentTracks(w.relay, e, t);
        }
    }
  }

  lemma StepConsistent(w: World, e: Event)
    requires Consistent(w.relay)
    ensures Consistent(Step(w, e).relay)
  {
    SegmentConsistent(w.relay, e);
    if e.Deliver? && w.inbox != [] {
      HandleConsistent(w.relay, w.inbox[0], e.lost);
    }
  }

  lemma StepInv(w: World, e: Event)
    requires Inv(w)
    ensures Inv(Step(w, e))
  {
    StepConsistent(w, e);
    forall t | t in Step(w, e).physical ensures Accounted(Step(w, e), t) {
      StepAccounted(w, e, t);
    }
  }

  // ----- Theorems over every run -------------------------------------------------

  lemma {:induction false} EveryRunInv(es: seq<Event>)
    ensures Inv(Run(Start, es))
  {
    if es != [] {
      EveryRunInv(es[..|es| - 1]);
      StepInv(Run(Start, es[..|es| - 1]), es[|es| - 1]);
    }
  }

  /** Every physical attachment is held, or about to be released, or about to be reported. */
  lemma AttachmentsAccounted(es: seq<Event>, t: Tab)
    requires t in Run(Start, es).physical
    ensures
      var w := Run(Start, es);
      t in w.relay.attached || t in w.relay.detaches || AttachReply(t, true) in w.inbox
  {
    EveryRunInv(es);
    var w := Run(Start, es);
    assert Accounted(w, t);
    if Newest(w.inbox, t) == SaysAttached {
      NewestWitness(w.inbox, t);
    }
  }

  lemma LifecycleConsistent(es: seq<Event>)
    ensures Consistent(Run(Start, es).relay)
  {
    EveryRunInv(es);
  }

  /** Nothing is on its way between the relay and Chrome any more. */
  predicate Drained(w: World) {
    w.inbox == [] && |w.saving| == 0 && |w.calls| == 0 && |w.relay.detaches| == 0
  }

  lemma DrainedIsReleased(w: World)
    requires Inv(w) && w.relay.closed && Drained(w)
    ensures w.physical == {}
  {
    assert w.relay.detaches == multiset{};
    assert forall t | t in w.physical :: Newest(w.inbox, t) == Silent;
    assert forall t :: t !in w.physical;
  }

  /** Outstanding work, weighted so that every hand-over makes it smaller. */
  function Work(w: World): nat {
    7 * |w.saving| + 6 * |w.calls| + 3 * |w.physical| + 2 * |w.inbox| + |w.relay.detaches|
  }

  lemma ClosedRelayIsIdle(r: State, e: Event)
    requires Consistent(r) && r.closed
    ensures Segment(r, e) == r
  {
  }

  lemma ChromeWindsDown(w: World, e: Event)
    requires w.relay.closed && (e.SaveDone? || e.ChromeAttaches? || e.ChromeDetaches?)
    ensures Step(w, e).relay == w.relay
    ensures Step(w, e) == w || Work(Step(w, e)) < Work(w)
  {
  }

  lemma ReleaseWindsDown(w: World, e: Event)
    requires w.relay.closed && (e.ChromeRunsDetach? || e.Deliver?)
    ensures Step(w, e).relay.closed
    ensures Step(w, e) == w || Work(Step(w, e)) < Work(w)
  {
    if e.ChromeRunsDetach? && e.tab in w.relay.detaches {
      var next := Step(w, e);
      assert |next.relay.detaches| == |w.relay.detaches| - 1;
      assert next.physical <= w.physical;
      FewerMembers(next.physical, w.physical);
    }
  }

  lemma FewerMembers(a: set<Tab>, b: set<Tab>)
    requires a <= b
    ensures |a| <= |b|
  {
    assert b == a + (b - a);
  }

  /** After close every event either does nothing or uses up outstanding work. */
  lemma ClosedRelayWindsDown(w: World, e: Event)
    requires Consistent(w.relay) && w.relay.closed
    ensures Step(w, e).relay.closed
    ensures Step(w, e) == w || Work(Step(w, e)) < Work(w)
  {
    if e.SaveDone? || e.ChromeAttaches? || e.ChromeDetaches? {
      ChromeWindsDown(w, e);
    } else if e.ChromeRunsDetach? || e.Deliver? {
      ReleaseWindsDown(w, e);
    } else {
      ClosedRelayIsIdle(w.relay, e);
    }
  }

  /** A run in which no event is without effect. */
  ghost predicate Busy(w: World, es: seq<Event>) {
    forall k | 0 <= k < |es| :: Step(Run(w, es[..k]), es[k]) != Run(w, es[..k])
  }

  /** After close only finitely much can still happen, in whatever order it happens. */
  lemma {:induction false} ClosedRunsAreShort(w: World, es: seq<Event>)
    requires Inv(w) && w.relay.closed && Busy(w, es)
    ensures Inv(Run(w, es)) && Run(w, es).relay.closed
    ensures |es| + Work(Run(w, es)) <= Work(w)
  {
    if es != [] {
      var front := es[..|es| - 1];
      assert forall k | 0 <= k < |front| :: front[..k] == es[..k];
      ClosedRunsAreShort(w, front);
      StepInv(Run(w, front), es[|es| - 1]);
      ClosedRelayWindsDown(Run(w, front), es[|es| - 1]);
      assert es[..|es| - 1] == front && Step(Run(w, front), es[|es| - 1]) != Run(w, front);
    }
  }

  lemma SomeMember(m: multiset<Tab>) returns (t: Tab)
    requires |m| > 0
    ensures t in m
  {
    assert (forall u :: u !in m) ==> m == multiset{};
    t :| t in m;
  }

  lemma NonEmpty(s: set<Tab>)
    requires s != {}
    ensures exists t :: t in s
  {
    assert (forall u :: u !in s) ==> s == {};
  }

  /** Work already under way, as opposed to a command, a user action or Chrome detaching on its own. */
  predicate UnderWay(e: Event) {
    e.SaveDone? || e.ChromeAttaches? || e.ChromeRunsDetach? || e.Deliver?
  }

  /** Every kind of work under way uses up some of it. */
  lemma WorkMoves(w: World, t: Tab)
    ensures w.inbox != [] ==> |Step(w, Deliver(false)).inbox| < |w.inbox|
    ensures t in w.relay.detaches ==> |Step(w, ChromeRunsDetach(t)).relay.detaches| < |w.relay.detaches|
    ensures t in w.calls ==> |Step(w, ChromeAttaches(t, true)).inbox| > |w.inbox|
    ensures t in w.saving ==> |Step(w, SaveDone(t, true)).saving| < |w.saving|
  {
  }

  /** While something is on its way, it can move on. */
  lemma NotDrainedCanStep(w: World) returns (e: Event)
    requires !Drained(w)
    ensures UnderWay(e) && Step(w, e) != w
  {
    if w.inbox != [] {
      WorkMoves(w, 0);
      e := Deliver(false);
    } else if |w.relay.detaches| > 0 {
      var t := SomeMember(w.relay.detaches);
      WorkMoves(w, t);
      e := ChromeRunsDetach(t);
    } else if |w.calls| > 0 {
      var t := SomeMember(w.calls);
      WorkMoves(w, t);
      e := ChromeAttaches(t, true);
    } else {
      var t := SomeMember(w.saving);
      WorkMoves(w, t);
      e := SaveDone(t, true);
    }
  }

  /** Nothing that is under way can still have an effect. */
  ghost predicate Quiet(w: World) {
    forall e | UnderWay(e) :: Step(w, e) == w
  }

  lemma QuietIffDrained(w: World)
    ensures Quiet(w) <==> Drained(w)
  {
    if !Drained(w) {
      var e := NotDrainedCanStep(w);
    } else {
      assert w.saving == multiset{} && w.calls == multiset{} && w.relay.detaches == multiset{};
    }
  }

  lemma {:induction false} RunConcat(w: World, es: seq<Event>, more: seq<Event>)
    ensures Run(w, es + more) == Run(Run(w, es), more)
  {
    if more == [] {
      assert es + more == es;
    } else {
      RunConcat(w, es, more[..|more| - 1]);
      assert (es + more)[..|es + more| - 1] == es + more[..|more| - 1];
    }
  }

  /**
   After close and drain no attachment remains: whatever happens after a close, only
   boundedly much of it has any effect, and as soon as the work that was under way is
   done - be it after none, some or all of the bound - no debugger is attached.
   */
  lemma CloseReleasesEverything(es: seq<Event>, more: seq<Event>)
    requires Run(Start, es).relay.closed && Busy(Run(Start, es), more)
    ensures |more| <= Work(Run(Start, es))
    ensures Quiet(Run(Start, es + more)) ==> Run(Start, es + more).physical == {}
  {
    EveryRunInv(es);
    ClosedRunsAreShort(Run(Start, es), more);
    RunConcat(Start, es, more);
    var w := Run(Start, es + more);
    QuietIffDrained(w);
    if Quiet(w) {
      DrainedIsReleased(w);
    }
  }

  /** And the drain can always be completed, by nothing but the work under way. */
  lemma {:induction false} DrainCompletes(w: World) returns (more: seq<Event>)
    requires Inv(w) && w.relay.closed
    ensures Busy(w, more) && forall k | 0 <= k < |more| :: UnderWay(more[k])
    ensures Drained(Run(w, more)) && Run(w, more).physical == {}
    decreases Work(w)
  {
    if Drained(w) {
      more := [];
      DrainedIsReleased(w);
    } else {
      var e := NotDrainedCanStep(w);
      StepInv(w, e);
      ClosedRelayWindsDown(w, e);
      var rest := DrainCompletes(Step(w, e));
      more := [e] + rest;
      RunFirst(w, e, rest);
      BusyFirst(w, e, rest);
    }
  }

  lemma RunFirst(w: World, e: Event, rest: seq<Event>)
    ensures Run(w, [e] + rest) == Run(Step(w, e), rest)
  {
    RunConcat(w, [e], rest);
    assert [e][..0] == [];
  }

  lemma BusyFirst(w: World, e: Event, rest: seq<Event>)
    requires Step(w, e) != w && Busy(Step(w, e), rest)
    ensures Busy(w, [e] + rest)
  {
    var es := [e] + rest;
    forall k | 0 <= k < |es| ensures Step(Run(w, es[..k]), es[k]) != Run(w, es[..k]) {
      if k > 0 {
        assert es[..k] == [e] + rest[..k - 1] && es[k] == rest[k - 1];
        RunFirst(w, e, rest[..k - 1]);
      } else {
        assert es[..k] == [] && es[k] == e;
      }
    }
  }

  lemma SplitOff(s: set<Tab>, t: Tab)
    requires t in s
    ensures multiset(s) == multiset(s - {t}) + multiset{t}
  {
  }

  // ----- The connection object -----------------------------------------------------

  class RelayConnection {
    var owned: set<Tab>
    var attached: set<Tab>
    var hasEverAttached: bool
    var closed: bool
    var pending: set<Tab>
    var recent: set<Tab>
    var detaches: multiset<Tab>
    var closeNotices: nat

    ghost function View(): State
      reads this
    {
      State(owned, attached, hasEverAttached, closed, pending, recent, detaches, closeNotices)
    }

    constructor ()
      ensures View() == Fresh
    {
      owned, attached, hasEverAttached, closed := {}, {}, false, false;
      pending, recent, detaches, closeNotices := {}, {}, multiset{}, 0;
    }

    method HandleClose()
      modifies this
      ensures View() == OnClose(old(View()))
    {
      if closed {
        return;
      }
      closed := true;
      pending, recent := {}, {};
      ReleaseAll();
      closeNotices := closeNotices + 1;
    }

    /** Schedules a detach call for every attached tab. */
    method ReleaseAll()
      modifies this
      ensures View() == old(View()).(attached := {}, owned := old(owned) - old(attached),
                                     detaches := old(detaches) + multiset(old(attached)))
    {
      while attached != {}
        invariant attached <= old(attached)
        invariant owned == old(owned) - (old(attached) - attached)
        invariant detaches + multiset(attached) == old(detaches) + multiset(old(attached))
        invariant hasEverAttached == old(hasEverAttached) && closed == old(closed)
        invariant pending == old(pending) && recent == old(recent) && closeNotices == old(closeNotices)
        decreases attached
      {
        NonEmpty(attached);
        var t :| t in attached;
        SplitOff(attached, t);
        detaches := detaches + multiset{t};
        NotifyTabDetached(t);
      }
      assert multiset(attached) == multiset{};
      assert old(attached) - attached == old(attached);
    }

    method NotifyTabDetached(t: Tab)
      modifies this
      ensures View() == NotifyDetached(old(View()), t)
    {
      attached := attached - {t};
      owned := owned - {t};
    }

    method NotifyTabAttached(t: Tab)
      modifies this
      ensures View() == NotifyAttached(old(View()), t)
    {
      attached := attached + {t};
      hasEverAttached := true;
      pending := pending - {t};
    }

    /** A message the socket refuses closes the relay before the caller goes on. */
    method SendMessage(lost: bool)
      modifies this
      ensures View() == Send(old(View()), lost)
    {
      if lost {
        HandleClose();
      }
    }

    method CheckLastTabDetached()
      modifies this
      ensures View() == CheckLast(old(View()))
    {
      if hasEverAttached && attached == {} && pending == {} {
        HandleClose();
      }
    }

    method Attach(t: Tab, lost: bool)
      modifies this
      ensures View() == AttachTab(old(View()), t, lost)
    {
      if closed || t in attached {
        return;
      }
      owned := owned + {t};
      SendMessage(lost);
    }

    method Detach(t: Tab, lost: bool)
      modifies this
      ensures View() == DetachTab(old(View()), t, lost)
    {
      if closed || t !in attached {
        return;
      }
      detaches := detaches + multiset{t};
      NotifyTabDetached(t);
      SendMessage(lost);
      CheckLastTabDetached();
    }

    method OnDebuggerDetach(t: Tab, targetClosed: bool, lost: bool)
      modifies this
      ensures View() == OnDetachEvent(old(View()), t, targetClosed, lost)
    {
      if closed || t !in attached {
        return;
      }
      SendMessage(lost);
      NotifyTabDetached(t);
      if targetClosed {
        var scheduled := MaybeScheduleReattach(t);
        if scheduled {
          return;
        }
      }
      CheckLastTabDetached();
    }

    method PopupOpened(opener: Tab, t: Tab, lost: bool)
      modifies this
      ensures View() == OnPopup(old(View()), opener, t, lost)
    {
      if closed || opener !in attached {
        return;
      }
      owned := owned + {t};
      SendMessage(lost);
    }

    method MaybeScheduleReattach(t: Tab) returns (scheduled: bool)
      modifies this
      ensures scheduled <==> MayReattach(old(View()), t)
      ensures View() == if scheduled
                        then old(View()).(recent := old(recent) + {t}, pending := old(pending) + {t})
                        else old(View())
    {
      if closed || t in recent {
        return false;
      }
      recent := recent + {t};
      pending := pending + {t};
      return true;
    }

    method ReattachProbe(t: Tab, found: bool, lost: bool)
      modifies this
      ensures View() == if found then OnProbeFound(old(View()), t, lost) else OnProbeFailed(old(View()), t)
    {
      if !found {
        pending := pending - {t};
        CheckLastTabDetached();
        return;
      }
      if closed || t !in pending {
        return;
      }
      if t in attached {
        pending := pending - {t};
        return;
      }
      Attach(t, lost);
    }

    method VerifyReattach(t: Tab)
      modifies this
      ensures View() == OnVerifyTimer(old(View()), t)
    {
      if closed || t !in pending {
        return;
      }
      pending := pending - {t};
      if t !in attached {
        CheckLastTabDetached();
      }
    }

    method AttachReplied(t: Tab)
      modifies this
      ensures View() == OnAttachReply(old(View()), t)
    {
      if closed {
        detaches := detaches + multiset{t};
      } else {
        NotifyTabAttached(t);
      }
    }

    /** A step of the re-attach procedure. */
    method TakeTimer(e: Event)
      requires e.ProbeFailed? || e.ProbeFound? || e.VerifyTimer? || e.CooldownTimer?
      modifies this
      ensures View() == Segment(old(View()), e)
    {
      match e {
        case ProbeFailed(t) => ReattachProbe(t, false, false);
        case ProbeFound(t, lost) => ReattachProbe(t, true, lost);
        case VerifyTimer(t) => VerifyReattach(t);
        case CooldownTimer(t) => recent := recent - {t};
      }
    }

    /** An event that only the relay takes part in. */
    method TakeSegment(e: Event)
      modifies this
      ensures View() == Segment(old(View()), e)
    {
      if e.ProbeFailed? || e.ProbeFound? || e.VerifyTimer? || e.CooldownTimer? {
        TakeTimer(e);
        return;
      }
      match e {
        case Respond(lost) => SendMessage(lost);
        case UserAdds(t, lost) => Attach(t, lost);
        case UserRemoves(t, lost) => Detach(t, lost);
        case Popup(opener, t, lost) => PopupOpened(opener, t, lost);
        case Created(t) =>
          if !closed { owned := owned + {t}; }
        case Close => HandleClose();
        case _ =>
      }
    }

    method TakeMessage(m: Message, lost: bool)
      modifies this
      ensures View() == Handle(old(View()), m, lost)
    {
      match m {
        case AttachReply(t, ok) =>
          if ok {
            AttachReplied(t);
          }
        case DetachEvent(t, targetClosed) => OnDebuggerDetach(t, targetClosed, lost);
      }
    }
  }

  /** A relay connection with its commands under way and the debuggers of Chrome around it. */
  class Extension {
    const relay: RelayConnection
    var physical: set<Tab>
    var inbox: seq<Message>
    var saving: multiset<Tab>
    var calls: multiset<Tab>

    ghost function View(): World
      reads this, relay
    {
      World(relay.View(), physical, inbox, saving, calls)
    }

    constructor ()
      ensures View() == Start && fresh(relay)
    {
      relay := new RelayConnection();
      physical, inbox, saving, calls := {}, [], multiset{}, multiset{};
    }

    /** _handleCommand of an attach or a detach, up to its await. */
    method TakeCommand(t: Tab, attach: bool)
      modifies this, relay
      ensures View() == Step(old(View()), if attach then AttachCommand(t) else DetachCommand(t))
    {
      if relay.closed || t !in relay.owned {
        return;
      }
      if attach {
        saving := saving + multiset{t};
      } else {
        relay.detaches := relay.detaches + multiset{t};
      }
    }

    /** The rest of an attach command: refused after a failed write or a close, else handed to Chrome. */
    method ResumeAttach(t: Tab, ok: bool)
      modifies this
      ensures View() == Step(old(View()), SaveDone(t, ok))
    {
      if t !in saving {
        return;
      }
      saving := saving - multiset{t};
      if ok && !relay.closed {
        calls := calls + multiset{t};
      }
    }

    method ExecuteAttach(t: Tab, ok: bool)
      modifies this
      ensures View() == Step(old(View()), ChromeAttaches(t, ok))
    {
      if t !in calls {
        return;
      }
      calls := calls - multiset{t};
      var works := ok && t !in physical;
      inbox := inbox + [AttachReply(t, works)];
      if works {
        physical := physical + {t};
      }
    }

    method ExecuteDetach(t: Tab)
      modifies this, relay
      ensures View() == Step(old(View()), ChromeRunsDetach(t))
    {
      if t in relay.detaches {
        relay.detaches := relay.detaches - multiset{t};
        physical := physical - {t};
      }
    }

    /** Chrome does something to its debuggers. */
    method TakeChrome(e: Event)
      requires e.ChromeAttaches? || e.ChromeDetaches? || e.ChromeRunsDetach?
      modifies this, relay
      ensures View() == Step(old(View()), e)
    {
      match e {
        case ChromeAttaches(t, ok) => ExecuteAttach(t, ok);
        case ChromeRunsDetach(t) => ExecuteDetach(t);
        case ChromeDetaches(t, targetClosed) =>
          if t in physical {
            physical := physical - {t};
            inbox := inbox + [DetachEvent(t, targetClosed)];
          }
      }
    }

    method DeliverNext(lost: bool)
      modifies this, relay
      ensures View() == Step(old(View()), Deliver(lost))
    {
      if inbox != [] {
        var m := inbox[0];
        inbox := inbox[1..];
        relay.TakeMessage(m, lost);
      }
    }

    method Take(e: Event)
      modifies this, relay
      ensures View() == Step(old(View()), e)
    {
      match e {
        case AttachCommand(t) => TakeCommand(t, true);
        case DetachCommand(t) => TakeCommand(t, false);
        case SaveDone(t, ok) => ResumeAttach(t, ok);
        case ChromeAttaches(_, _) => TakeChrome(e);
        case ChromeDetaches(_, _) => TakeChrome(e);
        case ChromeRunsDetach(_) => TakeChrome(e);
        case Deliver(lost) => DeliverNext(lost);
        case _ => relay.TakeSegment(e);
      }
    }

    /** What the theorems say of the objects themselves. */
    method Drive(es: seq<Event>)
      requires View() == Start
      modifies this, relay
      ensures View() == Run(Start, es)
      ensures Consistent(relay.View())
      ensures forall t | t in physical :: t in relay.attached || t in relay.detaches || AttachReply(t, true) in inbox
      ensures relay.closed && Drained(View()) ==> physical == {}
    {
      for i := 0 to |es|
        invariant View() == Run(Start, es[..i])
      {
        assert es[..i + 1][..i] == es[..i];
        Take(es[i]);
      }
      assert es[..|es|] == es;
      EveryRunInv(es);
      forall t | t in physical ensures t in relay.attached || t in relay.detaches || AttachReply(t, true) in inbox {
        AttachmentsAccounted(es, t);
      }
      if relay.closed && Drained(View()) {
        DrainedIsReleased(View());
      }
    }
  }
}
