/**
 What each event does to a relay, field by field and tab by tab, and what follows for
 whole runs: which detach leads to a re-attach, what closes the relay, which tabs it
 owns, holds and releases.
 */
module RelayFates {
  import opened Options
  import opened Relay

  /** The message that a delivery hands over. */
  predicate Delivers(w: World, e: Event, m: Message) {
    e.Deliver? && w.inbox != [] && w.inbox[0] == m
  }

  predicate DeliversDetach(w: World, e: Event, t: Tab, targetClosed: bool) {
    Delivers(w, e, DetachEvent(t, targetClosed)) && t in w.relay.attached
  }

  predicate DeliversAttach(w: World, e: Event, t: Tab) {
    Delivers(w, e, AttachReply(t, true))
  }

  /** The tab stops being attached, by the user's or by Chrome's doing. */
  predicate Drops(w: World, e: Event, t: Tab) {
    (e.UserRemoves? && e.tab == t) || Delivers(w, e, DetachEvent(t, true)) || Delivers(w, e, DetachEvent(t, false))
  }

  /** No tab is attached and waiting to be re-attached at once. */
  ghost predicate Apart(r: State) {
    r.attached !! r.pending
  }

  ghost predicate Open(w: World) {
    !w.relay.closed && Consistent(w.relay) && Apart(w.relay)
  }

  /** A relay whose tabs are pending has been attached before. */
  ghost predicate Tracked(w: World) {
    Consistent(w.relay) && Apart(w.relay) && (w.relay.pending != {} ==> w.relay.hasEverAttached)
  }

  // ----- Closing ---------------------------------------------------------------------------

  /** The event sends a message that the socket refuses. */
  predicate SendsInVain(w: World, e: Event) {
    match e
    case Respond(lost) => lost
    case UserAdds(t, lost) => lost && t !in w.relay.attached
    case UserRemoves(t, lost) => lost && t in w.relay.attached
    case Popup(opener, _, lost) => lost && opener in w.relay.attached
    case ProbeFound(t, lost) => lost && t in w.relay.pending
    case Deliver(lost) =>
      lost && w.inbox != [] && w.inbox[0].DetachEvent? && w.inbox[0].tab in w.relay.attached
    case _ => false
  }

  /** The event takes away the last tab that is attached or pending. */
  predicate TakesLast(w: World, e: Event) {
    match e
    case UserRemoves(t, _) => w.relay.attached == {t} && w.relay.pending == {}
    case ProbeFailed(t) => w.relay.attached == {} && w.relay.pending == {t}
    case VerifyTimer(t) => w.relay.attached == {} && w.relay.pending == {t}
    case Deliver(_) =>
      && w.inbox != [] && w.inbox[0].DetachEvent? && w.relay.pending == {}
      && var DetachEvent(t, targetClosed) := w.inbox[0];
         w.relay.attached == {t} && !(targetClosed && t !in w.relay.recent)
    case _ => false
  }

  lemma UserClosesIff(w: World, t: Tab, lost: bool)
    requires Open(w)
    ensures Step(w, UserAdds(t, lost)).relay.closed <==> lost && t !in w.relay.attached
    ensures Step(w, UserRemoves(t, lost)).relay.closed <==>
      t in w.relay.attached && (lost || (w.relay.attached == {t} && w.relay.pending == {}))
  {
    assert w.relay.attached - {t} == {} && t in w.relay.attached ==> w.relay.attached == {t};
  }

  lemma TimerClosesIff(w: World, t: Tab, lost: bool)
    requires Tracked(w) && !w.relay.closed
    ensures Step(w, ProbeFailed(t)).relay.closed <==> w.relay.attached == {} && w.relay.pending == {t}
    ensures Step(w, VerifyTimer(t)).relay.closed <==> w.relay.attached == {} && w.relay.pending == {t}
    ensures Step(w, ProbeFound(t, lost)).relay.closed <==> lost && t in w.relay.pending
  {
    assert w.relay.pending - {t} == {} ==> w.relay.pending <= {t};
  }

  lemma SegmentClosesIff(w: World, e: Event)
    requires Tracked(w) && !w.relay.closed && !e.Deliver?
    ensures Step(w, e).relay.closed <==> e.Close? || SendsInVain(w, e) || TakesLast(w, e)
  {
    match e {
      case UserAdds(t, lost) => UserClosesIff(w, t, lost);
      case UserRemoves(t, lost) => UserClosesIff(w, t, lost);
      case ProbeFailed(t) => TimerClosesIff(w, t, false);
      case VerifyTimer(t) => TimerClosesIff(w, t, false);
      case ProbeFound(t, lost) => TimerClosesIff(w, t, lost);
      case _ =>
    }
  }

  lemma DeliveryClosesIff(w: World, lost: bool)
    requires Open(w)
    ensures Step(w, Deliver(lost)).relay.closed <==> SendsInVain(w, Deliver(lost)) || TakesLast(w, Deliver(lost))
  {
    if w.inbox != [] && w.inbox[0].DetachEvent? {
      var t := w.inbox[0].tab;
      assert t in w.relay.attached && w.relay.attached - {t} == {} ==> w.relay.attached == {t};
    }
  }

  /** An open relay is closed by a refused message, by losing its last tab, or on demand; by nothing else. */
  lemma ClosesIff(w: World, e: Event)
    requires Tracked(w) && !w.relay.closed
    ensures Step(w, e).relay.closed <==> e.Close? || SendsInVain(w, e) || TakesLast(w, e)
  {
    if e.Deliver? {
      DeliveryClosesIff(w, e.lost);
    } else {
      SegmentClosesIff(w, e);
    }
  }

  // ----- One tab ---------------------------------------------------------------------------

  /** The wait for a re-attach is over. */
  predicate EndsWait(w: World, e: Event, t: Tab) {
    DeliversAttach(w, e, t) || e == ProbeFailed(t) || e == VerifyTimer(t)
  }

  /** The tab becomes the relay's: added, created, opened by an attached tab, or found again. */
  predicate Gains(w: World, e: Event, t: Tab) {
    match e
    case UserAdds(u, _) => u == t && t !in w.relay.attached
    case Created(u) => u == t
    case Popup(opener, u, _) => u == t && opener in w.relay.attached
    case ProbeFound(u, _) => u == t && u in w.relay.pending
    case _ => false
  }

  /** What becomes of a tab at a step that leaves the relay open. */
  ghost predicate Fate(w: World, e: Event, t: Tab) {
    FateIn(w, e, Step(w, e).relay, t)
  }

  ghost predicate FateIn(w: World, e: Event, v: State, t: Tab) {
    var r := w.relay;
    // attached: its attach was just reported, or it was and nothing dropped it
    && (t in v.attached <==> DeliversAttach(w, e, t) || (t in r.attached && !Drops(w, e, t)))
    // pending: its target was closed outside the cool-down, or it was and nothing ended the wait
    && (t in v.pending <==>
          (DeliversDetach(w, e, t, true) && t !in r.recent) || (t in r.pending && !EndsWait(w, e, t)))
    // in the cool-down: its target was closed, or it was and the timer has not run out
    && (t in v.recent <==> DeliversDetach(w, e, t, true) || (t in r.recent && e != CooldownTimer(t)))
    // owned: gained, or it was and was not dropped while attached
    && (t in v.owned <==> Gains(w, e, t) || (t in r.owned && !(t in r.attached && Drops(w, e, t))))
    && (v.hasEverAttached <==> r.hasEverAttached || (e.Deliver? && w.inbox != [] && w.inbox[0].AttachReply? && w.inbox[0].ok))
  }

  lemma UserFate(w: World, u: Tab, lost: bool, t: Tab)
    requires Tracked(w) && !w.relay.closed
    ensures !Step(w, UserAdds(u, lost)).relay.closed ==> Fate(w, UserAdds(u, lost), t)
    ensures !Step(w, UserRemoves(u, lost)).relay.closed ==> Fate(w, UserRemoves(u, lost), t)
  {
  }

  lemma PopupFate(w: World, opener: Tab, u: Tab, lost: bool, t: Tab)
    requires Tracked(w) && !w.relay.closed
    ensures !Step(w, Popup(opener, u, lost)).relay.closed ==> Fate(w, Popup(opener, u, lost), t)
    ensures !Step(w, Respond(lost)).relay.closed ==> Fate(w, Respond(lost), t)
    ensures Fate(w, Created(u), t)
  {
  }

  lemma ProbeFate(w: World, u: Tab, lost: bool, t: Tab)
    requires Tracked(w) && !w.relay.closed
    ensures !Step(w, ProbeFailed(u)).relay.closed ==> Fate(w, ProbeFailed(u), t)
    ensures !Step(w, ProbeFound(u, lost)).relay.closed ==> Fate(w, ProbeFound(u, lost), t)
  {
  }

  lemma TimerFate(w: World, u: Tab, t: Tab)
    requires Tracked(w) && !w.relay.closed
    ensures !Step(w, VerifyTimer(u)).relay.closed ==> Fate(w, VerifyTimer(u), t)
    ensures Fate(w, CooldownTimer(u), t)
  {
  }

  lemma ReplyFate(w: World, lost: bool, t: Tab)
    requires Tracked(w) && !w.relay.closed && w.inbox != [] && w.inbox[0].AttachReply?
    ensures Fate(w, Deliver(lost), t)
  {
  }

  lemma DetachFate(w: World, lost: bool, t: Tab)
    requires Tracked(w) && !w.relay.closed && w.inbox != [] && w.inbox[0].DetachEvent?
    ensures !Step(w, Deliver(lost)).relay.closed ==> Fate(w, Deliver(lost), t)
  {
  }

  lemma CommandFate(w: World, e: Event, t: Tab)
    requires Tracked(w) && !w.relay.closed
    requires OfCommand(e)
    ensures Fate(w, e, t)
  {
    CommandKeeps(w, e);
    UntouchedFate(w, e, Step(w, e).relay, t);
  }

  lemma UntouchedFate(w: World, e: Event, v: State, t: Tab)
    requires OfCommand(e) && v == w.relay.(detaches := v.detaches)
    ensures FateIn(w, e, v, t)
  {
  }

  /** A command on its way, or Chrome acting on its debuggers. */
  predicate OfCommand(e: Event) {
    e.AttachCommand? || e.DetachCommand? || e.SaveDone? || e.ChromeAttaches? || e.ChromeDetaches? || e.ChromeRunsDetach?
  }

  lemma CommandKeeps(w: World, e: Event)
    requires OfCommand(e)
    ensures Step(w, e).relay == w.relay.(detaches := Step(w, e).relay.detaches)
  {
  }

  /** Every tab's fate at every step of an open relay. */
  lemma TabFate(w: World, e: Event, t: Tab)
    requires Tracked(w) && !w.relay.closed && !Step(w, e).relay.closed
    ensures Fate(w, e, t)
  {
    match e {
      case UserAdds(u, lost) => UserFate(w, u, lost, t);
      case UserRemoves(u, lost) => UserFate(w, u, lost, t);
      case Popup(opener, u, lost) => PopupFate(w, opener, u, lost, t);
      case Respond(lost) => PopupFate(w, 0, 0, lost, t);
      case Created(u) => PopupFate(w, 0, u, false, t);
      case ProbeFailed(u) => ProbeFate(w, u, false, t);
      case ProbeFound(u, lost) => ProbeFate(w, u, lost, t);
      case VerifyTimer(u) => TimerFate(w, u, t);
      case CooldownTimer(u) => TimerFate(w, u, t);
      case Deliver(lost) =>
        if w.inbox != [] {
          if w.inbox[0].AttachReply? { ReplyFate(w, lost, t); } else { DetachFate(w, lost, t); }
        }
      case Close =>
      case _ => CommandFate(w, e, t);
    }
  }

  function Count(b: bool): nat {
    if b then 1 else 0
  }

  /** The detach calls a step schedules for a tab. */
  function Schedules(w: World, e: Event, t: Tab): nat {
    var r := w.relay;
    if r.closed then (if DeliversAttach(w, e, t) then 1 else 0)
    else
      (if e.UserRemoves? && e.tab == t && t in r.attached then 1 else 0)
      + (if e == DetachCommand(t) && t in r.owned then 1 else 0)
      + (if Step(w, e).relay.closed && t in r.attached && !(e.UserRemoves? && e.tab == t) && !DropsQuietly(w, e, t) then 1 else 0)
  }

  /** Chrome reports the tab detached, and the socket takes the news. */
  predicate DropsQuietly(w: World, e: Event, t: Tab) {
    e.Deliver? && !e.lost && w.inbox != [] && w.inbox[0].DetachEvent? && w.inbox[0].tab == t
  }

  lemma CloseSchedules(r: State, t: Tab)
    requires !r.closed
    ensures OnClose(r).detaches[t] == r.detaches[t] + Count(t in r.attached)
  {
  }

  lemma UserSchedules(w: World, u: Tab, lost: bool, t: Tab)
    requires Tracked(w)
    ensures Step(w, UserRemoves(u, lost)).relay.detaches[t] == w.relay.detaches[t] + Schedules(w, UserRemoves(u, lost), t)
  {
    var r := w.relay;
    if !r.closed && u in r.attached {
      var dropped := NotifyDetached(r.(detaches := r.detaches + multiset{u}), u);
      CloseSchedules(dropped, t);
    }
  }

  lemma TimerSchedules(w: World, u: Tab, lost: bool, t: Tab)
    requires Tracked(w)
    ensures forall e | e in [ProbeFailed(u), ProbeFound(u, lost), VerifyTimer(u)] ::
      Step(w, e).relay.detaches[t] == w.relay.detaches[t] + Schedules(w, e, t)
  {
    var r := w.relay;
    if !r.closed {
      CloseSchedules(r.(owned := r.owned + {u}), t);
      CloseSchedules(r.(pending := r.pending - {u}), t);
    }
  }

  lemma SendSchedules(w: World, e: Event, t: Tab)
    requires Tracked(w) && (e.UserAdds? || e.Popup? || e.Respond? || e.Close?)
    ensures Step(w, e).relay.detaches[t] == w.relay.detaches[t] + Schedules(w, e, t)
  {
    if !w.relay.closed {
      CloseSchedules(w.relay, t);
      if !e.Respond? && !e.Close? {
        CloseSchedules(w.relay.(owned := w.relay.owned + {e.tab}), t);
      }
    }
  }

  lemma SegmentSchedules(w: World, e: Event, t: Tab)
    requires Tracked(w) && !e.Deliver? && !e.ChromeRunsDetach?
    ensures Step(w, e).relay.detaches[t] == w.relay.detaches[t] + Schedules(w, e, t)
  {
    match e {
      case UserRemoves(u, lost) => UserSchedules(w, u, lost, t);
      case ProbeFailed(u) => TimerSchedules(w, u, false, t);
      case ProbeFound(u, lost) => TimerSchedules(w, u, lost, t);
      case VerifyTimer(u) => TimerSchedules(w, u, false, t);
      case UserAdds(_, _) => SendSchedules(w, e, t);
      case Popup(_, _, _) => SendSchedules(w, e, t);
      case Respond(_) => SendSchedules(w, e, t);
      case Close => SendSchedules(w, e, t);
      case _ => QuietSchedules(w, e, t);
    }
  }

  lemma QuietSchedules(w: World, e: Event, t: Tab)
    requires OfCommand(e) || e.Created? || e.CooldownTimer?
    requires !e.ChromeRunsDetach?
    ensures Step(w, e).relay.detaches[t] == w.relay.detaches[t] + Schedules(w, e, t)
  {
  }

  lemma DetachSchedules(w: World, lost: bool, t: Tab)
    requires Tracked(w) && w.inbox != [] && w.inbox[0].DetachEvent?
    ensures Step(w, Deliver(lost)).relay.detaches[t] == w.relay.detaches[t] + Schedules(w, Deliver(lost), t)
  {
    var r, u := w.relay, w.inbox[0].tab;
    if !r.closed && u in r.attached {
      CloseSchedules(r, t);
      CloseSchedules(NotifyDetached(r, u), t);
    }
  }

  lemma DeliverySchedules(w: World, lost: bool, t: Tab)
    requires Tracked(w)
    ensures Step(w, Deliver(lost)).relay.detaches[t] == w.relay.detaches[t] + Schedules(w, Deliver(lost), t)
  {
    if w.inbox != [] && w.inbox[0].DetachEvent? {
      DetachSchedules(w, lost, t);
    }
  }

  /** One detach call for each tab dropped by the user, detached on command, attached too late, or held at the close. */
  lemma DetachesScheduled(w: World, e: Event, t: Tab)
    requires Tracked(w)
    ensures Step(w, e).relay.detaches[t] ==
      if e == ChromeRunsDetach(t) && t in w.relay.detaches then w.relay.detaches[t] - 1
      else w.relay.detaches[t] + Schedules(w, e, t)
  {
    if e.Deliver? {
      DeliverySchedules(w, e.lost, t);
    } else if !e.ChromeRunsDetach? {
      SegmentSchedules(w, e, t);
    }
  }

  /** A relay that closes gives up every tab it held attached, and no other. */
  lemma CloseDisowns(w: World, t: Tab)
    requires Tracked(w) && !w.relay.closed
    ensures t in Step(w, Close).relay.owned <==> t in w.relay.owned && t !in w.relay.attached
  {
  }

  /** Chrome attaches on a call, unless it is attached already, and detaches on a call or on its own. */
  lemma PhysicalIff(w: World, e: Event, t: Tab)
    ensures t in Step(w, e).physical <==>
      || (e == ChromeAttaches(t, true) && t in w.calls)
      || (t in w.physical && !(e.ChromeDetaches? && e.tab == t) && !(e == ChromeRunsDetach(t) && t in w.relay.detaches))
    ensures e.ChromeAttaches? && e.tab in w.calls ==>
      Step(w, e).inbox == w.inbox + [AttachReply(e.tab, e.ok && e.tab !in w.physical)]
  {
  }

  // ----- Commands on their way -----------------------------------------------------------------

  /** An owned tab's attach command waits for its write, then goes to Chrome while the relay is open. */
  lemma CommandsMove(w: World, e: Event, t: Tab)
    ensures Step(w, e).saving[t] + Count(e.SaveDone? && e.tab == t && t in w.saving) ==
      w.saving[t] + Count(e == AttachCommand(t) && !w.relay.closed && t in w.relay.owned)
    ensures Step(w, e).calls[t] + Count(e.ChromeAttaches? && e.tab == t && t in w.calls) ==
      w.calls[t] + Count(e == SaveDone(t, true) && t in w.saving && !w.relay.closed)
  {
  }

  // ----- Over runs -----------------------------------------------------------------------------

  lemma ClosedIsTracked(w: World)
    requires Consistent(w.relay) && w.relay.closed
    ensures Tracked(w)
  {
  }

  lemma StepTracked(w: World, e: Event)
    requires Tracked(w)
    ensures Tracked(Step(w, e))
  {
    StepConsistent(w, e);
    var v := Step(w, e).relay;
    if v.closed {
      ClosedIsTracked(Step(w, e));
    } else if w.relay.closed {
      ClosedRelayWindsDown(w, e);
    } else {
      forall t ensures !(t in v.attached && t in v.pending) && (t in v.pending ==> v.hasEverAttached) {
        TabFate(w, e, t);
      }
      if v.pending != {} {
        NonEmpty(v.pending);
      }
    }
  }

  lemma {:induction false} EveryRunTracked(es: seq<Event>)
    ensures Tracked(Run(Start, es))
  {
    if es != [] {
      EveryRunTracked(es[..|es| - 1]);
      StepTracked(Run(Start, es[..|es| - 1]), es[|es| - 1]);
    }
  }

  lemma RunLast(es: seq<Event>, e: Event)
    ensures Run(Start, es + [e]) == Step(Run(Start, es), e)
  {
    assert (es + [e])[..|es|] == es;
  }

  /**
   A detach of an attached tab is delivered to an open relay: a closed target outside the cool-down
   is waited for, anything else is final, and the relay closes exactly if nothing is left to wait for.
   */
  lemma DetachDecision(es: seq<Event>, t: Tab, targetClosed: bool)
    requires !Run(Start, es).relay.closed && DeliversDetach(Run(Start, es), Deliver(false), t, targetClosed)
    ensures
      var r, v := Run(Start, es).relay, Run(Start, es + [Deliver(false)]).relay;
      var waits := targetClosed && t !in r.recent;
      && (v.closed <==> r.attached == {t} && r.pending == {} && !waits)
      && (t in v.pending <==> waits) && t !in v.attached && (!v.closed && targetClosed ==> t in v.recent)
      && (!v.closed ==> forall u | u != t :: (u in v.attached <==> u in r.attached) && (u in v.pending <==> u in r.pending))
  {
    var w, e := Run(Start, es), Deliver(false);
    EveryRunTracked(es);
    RunLast(es, e);
    StepTracked(w, e);
    ClosesIff(w, e);
    var v := Step(w, e).relay;
    if !v.closed {
      forall u ensures Fate(w, e, u) {
        TabFate(w, e, u);
      }
      assert Fate(w, e, t);
      forall u | u != t ensures (u in v.attached <==> u in w.relay.attached) && (u in v.pending <==> u in w.relay.pending) {
        assert Fate(w, e, u);
      }
    }
  }

  /** Why an attached tab was last reported detached: because its target was closed, or not; None before the first time. */
  function LastDetach(es: seq<Event>, t: Tab): Option<bool> {
    if es == [] then None else
      var front, e := es[..|es| - 1], es[|es| - 1];
      if DeliversDetach(Run(Start, front), e, t, true) then Some(true)
      else if DeliversDetach(Run(Start, front), e, t, false) then Some(false)
      else LastDetach(front, t)
  }

  /** Only tabs whose target was closed are ever waited for. */
  lemma {:induction false} PendingHasReason(es: seq<Event>, t: Tab)
    requires t in Run(Start, es).relay.pending
    ensures LastDetach(es, t) == Some(true)
  {
    if es != [] {
      var front, e := es[..|es| - 1], es[|es| - 1];
      var w := Run(Start, front);
      EveryRunTracked(front);
      StepTracked(w, e);
      if w.relay.closed {
        ClosedRelayWindsDown(w, e);
      }
      TabFate(w, e, t);
      if !DeliversDetach(w, e, t, true) {
        PendingHasReason(front, t);
      }
    }
  }
}
