/**
 The part of ActionIndicator that decides whether a press may reach the page:
 tab selection, epochs and the cancelled flag.  Drawing is not modelled.
 */
module ActionIndicator {
  import opened Options

  type Tab = int

  /** `id` is the identity of the state object: a re-attached tab gets a new one. */
  datatype TabState = TabState(id: nat, epoch: nat, context: bool, waiting: bool, clickEpoch: Option<nat>)

  datatype State = State(
    tabs: map<Tab, TabState>,
    closed: bool,
    current: Option<Tab>,
    running: bool,
    clickMode: bool,
    cancelled: bool,
    nextId: nat)

  const Fresh := State(map[], false, None, false, false, false, 0)

  function Install(s: State, t: Tab): State {
    if s.closed then s else
      s.(tabs := s.tabs[t := TabState(s.nextId, 0, false, false, None)], nextId := s.nextId + 1)
  }

  /** A page context was found for the tab's document. */
  function GainContext(s: State, t: Tab): State {
    if t !in s.tabs then s else s.(tabs := s.tabs[t := s.tabs[t].(context := true)])
  }

  function Invalidate(s: State, t: Tab): State {
    if t !in s.tabs then s else
      var was := s.tabs[t];
      s.(tabs := s.tabs[t := was.(epoch := was.epoch + 1, clickEpoch := None)],
         cancelled := s.cancelled || was.waiting)
  }

  function Select(s: State, t: Tab): State {
    if s.current == Some(t) then s
    else if s.current.None? then s.(current := Some(t))
    else Invalidate(s.(current := Some(t)), s.current.value)
  }

  function SetRunning(s: State, running: bool, click: bool): State {
    s.(running := running, clickMode := running && click, cancelled := s.cancelled && !running)
  }

  function Detach(s: State, t: Tab): State {
    s.(tabs := s.tabs - {t})
  }

  function Close(s: State): State {
    s.(closed := true, tabs := map[])
  }

  // ----- beforeClick, cut at its awaits ------------------------------------------

  datatype Begin = Refused | Unguarded | Waiting(id: nat, epoch: nat)

  function BeginOutcome(s: State, t: Tab): Begin {
    if s.cancelled then Refused
    else if t !in s.tabs || !s.tabs[t].context then Unguarded
    else Waiting(s.tabs[t].id, s.tabs[t].epoch)
  }

  function BeginClick(s: State, t: Tab): State {
    if s.cancelled then s else
      var selected := Select(s, t);
      if BeginOutcome(s, t).Waiting?
      then selected.(tabs := selected.tabs[t := s.tabs[t].(clickEpoch := Some(s.tabs[t].epoch), waiting := true)])
      else selected
  }

  /** The closure `current` of beforeClick. */
  predicate StillCurrent(s: State, t: Tab, id: nat, epoch: nat) {
    !s.closed && t in s.tabs && s.tabs[t].id == id && s.tabs[t].epoch == epoch && !s.cancelled
  }

  function StopWaiting(s: State, t: Tab, id: nat): State {
    if t in s.tabs && s.tabs[t].id == id then s.(tabs := s.tabs[t := s.tabs[t].(waiting := false)]) else s
  }

  function AbandonClick(s: State, t: Tab, id: nat): State {
    StopWaiting(s.(cancelled := true), t, id)
  }

  // ----- What a wait relies on ---------------------------------------------------

  /** The tab shows the same document state, un-navigated, and is the selected one. */
  ghost predicate Holds(s: State, t: Tab, id: nat, epoch: nat) {
    !s.closed && t in s.tabs && s.tabs[t].id == id && s.tabs[t].epoch == epoch && s.current == Some(t) && id < s.nextId
  }

  /** The document state a wait was started for is gone for good. */
  ghost predicate Lost(s: State, t: Tab, id: nat, epoch: nat) {
    id < s.nextId && (s.closed || t !in s.tabs || s.tabs[t].id != id || s.tabs[t].epoch > epoch)
  }

  ghost predicate Inv(s: State) {
    forall t | t in s.tabs :: s.tabs[t].id < s.nextId
  }

  /** A change never brings a lost document state back, and gives up a held one only by losing it. */
  ghost predicate Advances(s: State, next: State, t: Tab, id: nat, epoch: nat) {
    && (Inv(s) ==> Inv(next))
    && (Inv(s) && Lost(s, t, id, epoch) ==> Lost(next, t, id, epoch))
    && (Inv(s) && Holds(s, t, id, epoch) ==> Holds(next, t, id, epoch) || Lost(next, t, id, epoch))
  }

  /** Only Close closes. */
  lemma StaysOpen(s: State, t: Tab, id: nat)
    ensures Select(s, t).closed == s.closed && BeginClick(s, t).closed == s.closed
    ensures StopWaiting(s, t, id).closed == s.closed && AbandonClick(s, t, id).closed == s.closed
  {
  }

  /** Only an announced tool state changes the mode. */
  lemma KeepsMode(s: State, t: Tab, id: nat)
    ensures Select(s, t).running == s.running && Select(s, t).clickMode == s.clickMode
    ensures BeginClick(s, t).running == s.running && BeginClick(s, t).clickMode == s.clickMode
    ensures StopWaiting(s, t, id).running == s.running && StopWaiting(s, t, id).clickMode == s.clickMode
    ensures AbandonClick(s, t, id).running == s.running && AbandonClick(s, t, id).clickMode == s.clickMode
  {
  }

  // ----- The selected tab, and what befalls a tab's state ------------------------------------

  /** What a selection or a navigation does to a tab's state. */
  predicate Aged(s: State, v: State, t: Tab, hit: bool) {
    && (t in v.tabs <==> t in s.tabs)
    && (t in s.tabs ==>
          v.tabs[t] == if hit then s.tabs[t].(epoch := s.tabs[t].epoch + 1, clickEpoch := None) else s.tabs[t])
  }

  lemma InvalidateAges(s: State, u: Tab, t: Tab)
    ensures Aged(s, Invalidate(s, u), t, t == u)
    ensures Invalidate(s, u).cancelled <==> s.cancelled || (u in s.tabs && s.tabs[u].waiting)
    ensures Invalidate(s, u).current == s.current
  {
  }

  /** Selecting another tab ages the one that was selected, and cancels its wait. */
  lemma SelectAges(s: State, u: Tab, t: Tab)
    ensures Select(s, u).current == Some(u)
    ensures Aged(s, Select(s, u), t, s.current == Some(t) && t != u)
    ensures Select(s, u).cancelled <==>
      s.cancelled || (s.current.Some? && s.current.value != u && s.current.value in s.tabs && s.tabs[s.current.value].waiting)
  {
    if s.current.Some? && s.current.value != u {
      InvalidateAges(s.(current := Some(u)), s.current.value, t);
    }
  }

  /** A press is refused after a cancellation, unguarded without a page context, and otherwise waits. */
  lemma BeginDecision(s: State, t: Tab)
    ensures BeginOutcome(s, t) ==
      if s.cancelled then Refused
      else if t in s.tabs && s.tabs[t].context then Waiting(s.tabs[t].id, s.tabs[t].epoch)
      else Unguarded
    ensures s.cancelled ==> BeginClick(s, t) == s
    ensures !s.cancelled ==> BeginClick(s, t).current == Some(t) && BeginClick(s, t).cancelled == Select(s, t).cancelled
  {
  }

  /** The waiting tab of a begun click is marked as such, and no other tab's state differs from a mere selection's. */
  lemma BeginMarks(s: State, t: Tab, u: Tab)
    requires !s.cancelled
    ensures u in BeginClick(s, t).tabs <==> u in s.tabs
    ensures u in s.tabs ==>
      BeginClick(s, t).tabs[u] ==
        if u == t && s.tabs[t].context then s.tabs[t].(clickEpoch := Some(s.tabs[t].epoch), waiting := true)
        else Select(s, t).tabs[u]
  {
    SelectAges(s, t, u);
    SelectAges(s, t, t);
  }

  /** The end of a wait touches that tab state alone, and cancels exactly if it was interrupted. */
  lemma EndMarks(s: State, t: Tab, id: nat, u: Tab)
    ensures StopWaiting(s, t, id).cancelled == s.cancelled && AbandonClick(s, t, id).cancelled
    ensures StopWaiting(s, t, id).current == s.current && AbandonClick(s, t, id).current == s.current
    ensures StopWaiting(s, t, id).tabs == AbandonClick(s, t, id).tabs && StopWaiting(s, t, id).tabs.Keys == s.tabs.Keys
    ensures u in s.tabs ==>
      StopWaiting(s, t, id).tabs[u] == if u == t && s.tabs[t].id == id then s.tabs[t].(waiting := false) else s.tabs[u]
  {
  }

  /** A re-attached tab starts with a fresh, unwaiting state; contexts and detaches touch their tab alone. */
  lemma LifecycleMarks(s: State, t: Tab, u: Tab)
    ensures u in Install(s, t).tabs <==> u in s.tabs || (u == t && !s.closed)
    ensures u in Install(s, t).tabs ==>
      Install(s, t).tabs[u] == if u == t && !s.closed then TabState(s.nextId, 0, false, false, None) else s.tabs[u]
    ensures u in GainContext(s, t).tabs <==> u in s.tabs
    ensures u in s.tabs ==> GainContext(s, t).tabs[u] == if u == t then s.tabs[t].(context := true) else s.tabs[u]
    ensures u in Detach(s, t).tabs <==> u in s.tabs && u != t
    ensures u in s.tabs && u != t ==> Detach(s, t).tabs[u] == s.tabs[u]
    ensures Close(s).tabs == map[] && Close(s).closed && Close(s).cancelled == s.cancelled
    ensures SetRunning(s, true, true).tabs == s.tabs == SetRunning(s, false, false).tabs
  {
  }

  lemma InstallAdvances(s: State, u: Tab, t: Tab, id: nat, epoch: nat)
    ensures Advances(s, Install(s, u), t, id, epoch) && Advances(s, GainContext(s, u), t, id, epoch)
  {
  }

  lemma LifecycleAdvances(s: State, u: Tab, t: Tab, id: nat, epoch: nat)
    ensures Advances(s, Install(s, u), t, id, epoch)
    ensures Advances(s, Detach(s, u), t, id, epoch)
    ensures Advances(s, Close(s), t, id, epoch)
    ensures Advances(s, GainContext(s, u), t, id, epoch)
  {
    InstallAdvances(s, u, t, id, epoch);
  }

  lemma InvalidateAdvances(s: State, u: Tab, t: Tab, id: nat, epoch: nat)
    ensures Advances(s, Invalidate(s, u), t, id, epoch)
  {
  }

  lemma SelectionAdvances(s: State, u: Tab, t: Tab, id: nat, epoch: nat)
    ensures Advances(s, Invalidate(s, u), t, id, epoch)
    ensures Advances(s, Select(s, u), t, id, epoch)
  {
    InvalidateAdvances(s, u, t, id, epoch);
    if s.current.Some? {
      InvalidateAdvances(s, s.current.value, t, id, epoch);
    }
  }

  /** Flags of a tab state other than identity and epoch do not matter to a wait. */
  lemma RetagAdvances(s: State, u: Tab, tag: TabState, t: Tab, id: nat, epoch: nat)
    requires u in s.tabs && tag.id == s.tabs[u].id && tag.epoch == s.tabs[u].epoch
    ensures Advances(s, s.(tabs := s.tabs[u := tag]), t, id, epoch)
  {
  }

  lemma BeginAdvances(s: State, u: Tab, t: Tab, id: nat, epoch: nat)
    ensures Advances(s, BeginClick(s, u), t, id, epoch)
  {
    var selected := Select(s, u);
    SelectionAdvances(s, u, t, id, epoch);
    if BeginOutcome(s, u).Waiting? {
      assert selected.tabs[u] == s.tabs[u];
      RetagAdvances(selected, u, s.tabs[u].(clickEpoch := Some(s.tabs[u].epoch), waiting := true), t, id, epoch);
    }
  }

  lemma EndAdvances(s: State, u: Tab, n: nat, t: Tab, id: nat, epoch: nat)
    ensures Advances(s, StopWaiting(s, u, n), t, id, epoch)
    ensures Advances(s, AbandonClick(s, u, n), t, id, epoch)
  {
    if u in s.tabs && s.tabs[u].id == n {
      RetagAdvances(s, u, s.tabs[u].(waiting := false), t, id, epoch);
    }
  }

  /** A begun wait stands on the selected tab's present document state. */
  lemma BeginHolds(s: State, t: Tab)
    requires Inv(s) && !s.closed && BeginOutcome(s, t).Waiting?
    ensures Holds(BeginClick(s, t), t, BeginOutcome(s, t).id, BeginOutcome(s, t).epoch)
  {
  }

  // ----- The object ----------------------------------------------------------------

  class Indicator {
    var tabs: map<Tab, TabState>
    var closed: bool
    var current: Option<Tab>
    var running: bool
    var clickMode: bool
    var cancelled: bool
    var nextId: nat

    function View(): State
      reads this
    {
      State(tabs, closed, current, running, clickMode, cancelled, nextId)
    }

    constructor ()
      ensures View() == Fresh
    {
      tabs, closed, current := map[], false, None;
      running, clickMode, cancelled, nextId := false, false, false, 0;
    }

    method AttachDone(t: Tab)
      modifies this
      ensures View() == Install(old(View()), t)
    {
      if closed {
        return;
      }
      tabs := tabs[t := TabState(nextId, 0, false, false, None)];
      nextId := nextId + 1;
    }

    method ContextFound(t: Tab)
      modifies this
      ensures View() == GainContext(old(View()), t)
    {
      if t in tabs {
        tabs := tabs[t := tabs[t].(context := true)];
      }
    }

    method InvalidateTab(t: Tab)
      modifies this
      ensures View() == Invalidate(old(View()), t)
    {
      if t !in tabs {
        return;
      }
      var state := tabs[t];
      tabs := tabs[t := state.(epoch := state.epoch + 1, clickEpoch := None)];
      if state.waiting {
        cancelled := true;
      }
    }

    method SelectTab(t: Tab)
      modifies this
      ensures View() == Select(old(View()), t)
    {
      if current == Some(t) {
        return;
      }
      var previous := current;
      current := Some(t);
      if previous.Some? {
        InvalidateTab(previous.value);
      }
    }

    method RunningState(now: bool, click: bool)
      modifies this
      ensures View() == SetRunning(old(View()), now, click)
    {
      running := now;
      clickMode := now && click;
      if now {
        cancelled := false;
      }
    }

    method DetachTab(t: Tab)
      modifies this
      ensures View() == Detach(old(View()), t)
    {
      tabs := tabs - {t};
    }

    method CloseAll()
      modifies this
      ensures View() == Close(old(View()))
    {
      closed := true;
      var left := tabs.Keys;
      while left != {}
        invariant tabs.Keys == left
        invariant View() == old(View()).(closed := true, tabs := tabs)
        decreases left
      {
        assert (forall u :: u !in left) ==> left == {};
        var t :| t in left;
        DetachTab(t);
        left := left - {t};
      }
      assert tabs == map[];
    }

    method BeforeClick(t: Tab) returns (outcome: Begin)
      modifies this
      ensures outcome == BeginOutcome(old(View()), t)
      ensures View() == BeginClick(old(View()), t)
    {
      if cancelled {
        return Refused;
      }
      var known, state := t in tabs, if t in tabs then tabs[t] else TabState(0, 0, false, false, None);
      SelectTab(t);
      if !known || !state.context {
        return Unguarded;
      }
      tabs := tabs[t := state.(clickEpoch := Some(state.epoch), waiting := true)];
      return Waiting(state.id, state.epoch);
    }

    /** The catch and finally blocks of beforeClick. */
    method EndWait(t: Tab, id: nat, interrupted: bool)
      modifies this
      ensures View() == if interrupted then AbandonClick(old(View()), t, id) else StopWaiting(old(View()), t, id)
    {
      if interrupted {
        cancelled := true;
      }
      if t in tabs && tabs[t].id == id {
        tabs := tabs[t := tabs[t].(waiting := false)];
      }
    }
  }
}
