/**
 The pet size slider's commits: one call at a time, and the latest value wins.
 */
module SizeCommit {
  import opened Options

  /** A value together with the request number it was scheduled under. */
  datatype Value = Value(request: nat, percent: int)

  datatype State = State(
    request: nat,
    pending: Option<Value>,
    timer: bool,
    inFlight: Option<Value>,
    disabled: bool,
    sent: seq<Value>,             // SetPetSize calls
    answered: nat,                // of these, calls that have been answered
    applied: seq<Value>,          // answers shown to the user, good or bad
    wanted: Option<int>,          // the last scheduled value unless cancelled since
    refused: bool)                // a commit of it found the slider disabled

  const Fresh := State(0, None, false, None, false, [], 0, [], None, false)

  function Cancel(s: State): State {
    s.(request := s.request + 1, pending := None, timer := false, wanted := None, refused := false)
  }

  function Commit(s: State): State {
    if s.inFlight.Some? || s.pending.None? then s else
      var v := s.pending.value;
      if v.request != s.request || s.disabled then s.(pending := None, refused := true)
      else s.(pending := None, inFlight := Some(v), sent := s.sent + [v])
  }

  function Schedule(s: State, percent: Option<int>, immediate: bool): State {
    var c := Cancel(s);
    if percent.None? || s.disabled then c else
      var p := c.(pending := Some(Value(c.request, percent.value)), wanted := percent);
      if immediate then Commit(p) else p.(timer := true)
  }

  function TimerFires(s: State): State {
    if s.timer then Commit(s.(timer := false)) else s
  }

  /** A SetPetSize call is answered; showing the answer may enable or disable the slider. */
  function Answer(s: State, disabled: bool): State {
    if s.inFlight.None? then s else
      var v := s.inFlight.value;
      var shown := if v.request == s.request then s.(applied := s.applied + [v], disabled := disabled) else s;
      var idle := shown.(inFlight := None, answered := s.answered + 1);
      if idle.pending.Some? && idle.pending.value.request == idle.request then Commit(idle) else idle
  }

  datatype Event =
    | Moved(percent: Option<int>, immediate: bool)
    | Timer
    | Answered(disabled: bool)
    | Cancelled
    | Enabled(on: bool)

  function Step(s: State, e: Event): State {
    match e
    case Moved(percent, immediate) => Schedule(s, percent, immediate)
    case Timer => TimerFires(s)
    case Answered(disabled) => Answer(s, disabled)
    case Cancelled => Cancel(s)
    case Enabled(on) => s.(disabled := !on)
  }

  function Run(es: seq<Event>): State {
    if es == [] then Fresh else Step(Run(es[..|es| - 1]), es[|es| - 1])
  }

  ghost predicate LastSent(s: State, percent: int) {
    s.sent != [] && s.sent[|s.sent| - 1] == Value(s.request, percent)
  }

  ghost predicate Inv(s: State) {
    // calls do not overlap
    && |s.sent| == s.answered + (if s.inFlight.Some? then 1 else 0)
    && (s.inFlight.Some? ==> s.sent[|s.sent| - 1] == s.inFlight.value && s.inFlight.value.request <= s.request)
    && (forall i | 0 <= i < |s.sent| :: s.sent[i].request <= s.request)
    // a pending value is the wanted one and something will pick it up
    && (s.pending.Some? ==>
          s.wanted == Some(s.pending.value.percent) && s.pending.value.request == s.request
          && (s.timer || s.inFlight.Some?) && !s.refused && !LastSent(s, s.pending.value.percent))
    // a wanted value is pending, refused or sent
    && (s.wanted.Some? && s.pending.None? && !s.refused ==> LastSent(s, s.wanted.value))
    && (s.refused ==> s.wanted.Some? && s.pending.None? && !LastSent(s, s.wanted.value))
    && (s.inFlight.Some? && s.inFlight.value.request == s.request ==> s.wanted == Some(s.inFlight.value.percent))
    && (s.wanted.None? ==> forall i | 0 <= i < |s.sent| :: s.sent[i].request < s.request || s.request == 0)
    && (s.pending.Some? || s.refused ==> forall i | 0 <= i < |s.sent| :: s.sent[i].request < s.request)
  }

  lemma CancelInv(s: State)
    requires Inv(s)
    ensures Inv(Cancel(s))
  {
  }

  /** A pending value may be committed, whether or not something else would have picked it up. */
  lemma CommitInv(s: State, driven: State)
    requires Inv(driven) && driven == s.(timer := true)
    ensures s.inFlight.None? || s.pending.None? ==> Inv(Commit(s))
  {
  }

  lemma ScheduleInv(s: State, percent: Option<int>, immediate: bool)
    requires Inv(s)
    ensures Inv(Schedule(s, percent, immediate))
  {
    var c := Cancel(s);
    CancelInv(s);
    if percent.Some? && !s.disabled {
      var p := c.(pending := Some(Value(c.request, percent.value)), wanted := percent);
      ScheduledInv(c, percent.value);
      CommitInv(p, p.(timer := true));
    }
  }

  lemma ScheduledInv(c: State, percent: int)
    requires Inv(c) && c.wanted.None? && c.request > 0
    ensures Inv(c.(pending := Some(Value(c.request, percent)), wanted := Some(percent), timer := true))
  {
  }

  lemma TimerInv(s: State)
    requires Inv(s)
    ensures Inv(TimerFires(s))
  {
    if s.timer {
      CommitInv(s.(timer := false), s);
    }
  }

  lemma AnswerInv(s: State, disabled: bool)
    requires Inv(s)
    ensures Inv(Answer(s, disabled))
  {
    if s.inFlight.Some? {
      var v := s.inFlight.value;
      var shown := if v.request == s.request then s.(applied := s.applied + [v], disabled := disabled) else s;
      var idle := shown.(inFlight := None, answered := s.answered + 1);
      assert Inv(idle.(timer := true));
      CommitInv(idle, idle.(timer := true));
    }
  }

  lemma StepInv(s: State, e: Event)
    requires Inv(s)
    ensures Inv(Step(s, e))
  {
    match e {
      case Moved(percent, immediate) => ScheduleInv(s, percent, immediate);
      case Timer => TimerInv(s);
      case Answered(disabled) => AnswerInv(s, disabled);
      case Cancelled => CancelInv(s);
      case Enabled(_) =>
    }
  }

  lemma {:induction false} EveryRunInv(es: seq<Event>)
    ensures Inv(Run(es))
  {
    if es != [] {
      EveryRunInv(es[..|es| - 1]);
      StepInv(Run(es[..|es| - 1]), es[|es| - 1]);
    }
  }

  /** At most one call is unanswered, and a value waiting to be sent has a timer or a call to drive it. */
  lemma CallsNeverOverlap(es: seq<Event>)
    ensures
      var s := Run(es);
      && s.answered <= |s.sent| <= s.answered + 1
      && (|s.sent| == s.answered + 1 <==> s.inFlight.Some?)
      && (s.pending.Some? ==> s.timer || s.inFlight.Some?)
  {
    EveryRunInv(es);
  }

  lemma AppliedByAnswer(s: State, e: Event)
    requires Inv(s) && Step(s, e).applied != s.applied
    ensures
      var v := Step(s, e);
      && e.Answered? && s.inFlight.Some? && s.inFlight.value.request == s.request
      && v.applied == s.applied + [s.inFlight.value]
      && s.wanted == Some(s.inFlight.value.percent) && v.wanted == s.wanted
  {
  }

  /** Only the answer for the value still wanted is shown; superseded answers never are. */
  lemma SupersededNeverApplied(es: seq<Event>, e: Event)
    requires Run(es + [e]).applied != Run(es).applied
    ensures
      var s, v := Run(es), Run(es + [e]);
      && e.Answered? && s.inFlight.Some? && s.inFlight.value.request == s.request
      && v.applied == s.applied + [s.inFlight.value]
      && s.wanted == Some(s.inFlight.value.percent) && v.wanted == s.wanted
  {
    EveryRunInv(es);
    assert (es + [e])[..|es|] == es;
    AppliedByAnswer(Run(es), e);
  }

  // ----- What each step does, read off the events -------------------------------------------

  /** The percent of the last move, unless the slider was disabled for it or it was cancelled since. */
  function Wanted(es: seq<Event>): Option<int> {
    if es == [] then None else
      var front := es[..|es| - 1];
      match es[|es| - 1]
      case Moved(percent, _) => if Run(front).disabled then None else percent
      case Cancelled => None
      case _ => Wanted(front)
  }

  /** On a slider that stays enabled this depends on the moves and cancellations alone. */
  function LastScheduled(es: seq<Event>): Option<int> {
    if es == [] then None else
      match es[|es| - 1]
      case Moved(percent, _) => percent
      case Cancelled => None
      case _ => LastScheduled(es[..|es| - 1])
  }

  lemma {:induction false} WantedIsLastMove(es: seq<Event>)
    ensures Run(es).wanted == Wanted(es)
  {
    if es != [] {
      WantedIsLastMove(es[..|es| - 1]);
    }
  }

  /** Only a switch and an answer that is shown enable or disable the slider. */
  lemma DisabledBy(s: State, e: Event)
    ensures Step(s, e).disabled <==>
      if e.Enabled? then !e.on
      else if e.Answered? && s.inFlight.Some? && s.inFlight.value.request == s.request then e.disabled
      else s.disabled
  {
  }

  /** The value a step hands to SetPetSize, if any. */
  function Sends(s: State, e: Event): Option<Value> {
    match e
    case Moved(Some(percent), immediate) =>
      if immediate && !s.disabled && s.inFlight.None? then Some(Value(s.request + 1, percent)) else None
    case Timer => if s.timer && !s.disabled && s.inFlight.None? then s.pending else None
    case Answered(_) => if s.inFlight.Some? && !Step(s, e).disabled then s.pending else None
    case _ => None
  }

  /** An immediate move, a due timer and an answer each send at once what they can; nothing else sends. */
  lemma SentBy(s: State, e: Event)
    requires Inv(s)
    ensures Step(s, e).sent == s.sent + (if Sends(s, e).Some? then [Sends(s, e).value] else [])
    ensures Sends(s, e).Some? ==> Step(s, e).inFlight == Sends(s, e) && Step(s, e).pending.None?
    ensures Sends(s, e).None? ==> Step(s, e).inFlight == if e.Answered? then None else s.inFlight
  {
  }

  /** The value left waiting by a step, and the timer that drives it. */
  lemma PendingAfter(s: State, e: Event)
    requires Inv(s)
    ensures Step(s, e).pending ==
      match e
      case Moved(percent, immediate) =>
        if percent.Some? && !s.disabled && !(immediate && s.inFlight.None?)
        then Some(Value(s.request + 1, percent.value)) else None
      case Cancelled => None
      case Timer => if s.timer && s.inFlight.None? then None else s.pending
      case Answered(_) => if s.inFlight.Some? then None else s.pending
      case Enabled(_) => s.pending
    ensures Step(s, e).timer <==>
      match e
      case Moved(percent, immediate) => percent.Some? && !s.disabled && !immediate
      case Cancelled => false
      case Timer => false
      case _ => s.timer
    ensures Step(s, e).request == if e.Moved? || e.Cancelled? then s.request + 1 else s.request
  {
  }

  /** A commit is refused exactly if its turn comes while the slider is disabled. */
  lemma RefusedBy(s: State, e: Event)
    requires Inv(s)
    ensures Step(s, e).refused <==>
      || (s.refused && !e.Moved? && !e.Cancelled?)
      || (e.Timer? && s.timer && s.inFlight.None? && s.pending.Some? && s.disabled)
      || (e.Answered? && s.inFlight.Some? && s.pending.Some? && Step(s, e).disabled)
  {
  }

  /** An answer to the value still current is shown, and no other. */
  lemma AppliedIff(s: State, e: Event)
    ensures Step(s, e).applied == s.applied +
      (if e.Answered? && s.inFlight.Some? && s.inFlight.value.request == s.request then [s.inFlight.value] else [])
    ensures Step(s, e).answered == if e.Answered? && s.inFlight.Some? then s.answered + 1 else s.answered
  {
  }

  ghost predicate Idle(s: State) {
    s.pending.None? && s.inFlight.None?
  }

  /** At rest, the last value sent is the last one scheduled exactly when its commit found the slider enabled. */
  lemma LatestWins(es: seq<Event>)
    requires Idle(Run(es)) && Wanted(es).Some?
    ensures LastSent(Run(es), Wanted(es).value) <==> !Run(es).refused
  {
    EveryRunInv(es);
    WantedIsLastMove(es);
  }

  predicate KeepsEnabled(e: Event) {
    e != Enabled(false) && e != Answered(true)
  }

  lemma StepStaysEnabled(s: State, e: Event)
    requires Inv(s) && !s.disabled && !s.refused && KeepsEnabled(e)
    ensures !Step(s, e).disabled && !Step(s, e).refused
  {
  }

  ghost predicate KeptEnabled(es: seq<Event>) {
    forall i | 0 <= i < |es| :: KeepsEnabled(es[i])
  }

  lemma {:induction false} KeptEnabledRun(es: seq<Event>)
    requires KeptEnabled(es)
    ensures !Run(es).disabled && !Run(es).refused && Wanted(es) == LastScheduled(es)
  {
    if es != [] {
      var front := es[..|es| - 1];
      KeptEnabledRun(front);
      EveryRunInv(front);
      StepStaysEnabled(Run(front), es[|es| - 1]);
    }
  }

  /** On a slider that stays enabled the last move, unless cancelled, is the last value sent once all is at rest. */
  lemma EnabledSliderDelivers(es: seq<Event>)
    requires KeptEnabled(es)
    ensures Run(es).wanted == LastScheduled(es)
    ensures Idle(Run(es)) && LastScheduled(es).Some? ==> LastSent(Run(es), LastScheduled(es).value)
  {
    EveryRunInv(es);
    KeptEnabledRun(es);
    WantedIsLastMove(es);
  }

  lemma AnswerAndTimerDeliver(s: State, percent: int)
    requires Inv(s) && !s.disabled && !s.refused && s.wanted == Some(percent)
    ensures
      var v := Step(Step(s, Answered(false)), Timer);
      LastSent(v, percent)
  {
    var v := Step(s, Answered(false));
    StepInv(s, Answered(false));
    StepStaysEnabled(s, Answered(false));
    assert v.wanted == s.wanted;
    SentBy(v, Timer);
  }

  /** And it comes to rest: an answer, if a call is out, and the timer are all it takes. */
  lemma DeliveryCompletes(es: seq<Event>)
    requires KeptEnabled(es) && LastScheduled(es).Some?
    ensures LastSent(Run(es + [Answered(false)] + [Timer]), LastScheduled(es).value)
  {
    EveryRunInv(es);
    KeptEnabledRun(es);
    WantedIsLastMove(es);
    AnswerAndTimerDeliver(Run(es), LastScheduled(es).value);
    assert (es + [Answered(false)])[..|es|] == es;
    assert (es + [Answered(false)] + [Timer])[..|es| + 1] == es + [Answered(false)];
  }

  class SizeSlider {
    var request: nat
    var pending: Option<Value>
    var timer: bool
    var inFlight: Option<Value>
    var disabled: bool
    var sent: seq<Value>
    var answered: nat
    var applied: seq<Value>
    ghost var wanted: Option<int>
    ghost var refused: bool

    ghost function View(): State
      reads this
    {
      State(request, pending, timer, inFlight, disabled, sent, answered, applied, wanted, refused)
    }

    constructor ()
      ensures View() == Fresh
    {
      request, pending, timer, inFlight, disabled := 0, None, false, None, false;
      sent, answered, applied, wanted, refused := [], 0, [], None, false;
    }

    method CancelSizeCommit()
      modifies this
      ensures View() == Cancel(old(View()))
    {
      request := request + 1;
      pending := None;
      if timer {
        timer := false;
      }
      wanted, refused := None, false;
    }

    method CommitSize()
      modifies this
      ensures View() == Commit(old(View()))
    {
      if inFlight.Some? || pending.None? {
        return;
      }
      var v := pending.value;
      pending := None;
      if v.request != request || disabled {
        refused := true;
        return;
      }
      inFlight := Some(v);
      sent := sent + [v];
    }

    method ScheduleSizeCommit(percent: Option<int>, immediate: bool)
      modifies this
      ensures View() == Schedule(old(View()), percent, immediate)
    {
      CancelSizeCommit();
      if percent.None? || disabled {
        return;
      }
      pending := Some(Value(request, percent.value));
      wanted := percent;
      if immediate {
        CommitSize();
        return;
      }
      timer := true;
    }

    method TimerFired()
      modifies this
      ensures View() == TimerFires(old(View()))
    {
      if timer {
        timer := false;
        CommitSize();
      }
    }

    /** The rest of commitSize after its await. */
    method CallAnswered(nowDisabled: bool)
      modifies this
      ensures View() == Answer(old(View()), nowDisabled)
    {
      if inFlight.None? {
        return;
      }
      if inFlight.value.request == request {
        applied := applied + [inFlight.value];
        disabled := nowDisabled;
      }
      inFlight := None;
      answered := answered + 1;
      if pending.Some? && pending.value.request == request {
        CommitSize();
      }
    }

    method Take(e: Event)
      modifies this
      ensures View() == Step(old(View()), e)
    {
      match e {
        case Moved(percent, immediate) => ScheduleSizeCommit(percent, immediate);
        case Timer => TimerFired();
        case Answered(disabled_) => CallAnswered(disabled_);
        case Cancelled => CancelSizeCommit();
        case Enabled(on) => disabled := !on;
      }
    }

    method Drive(es: seq<Event>)
      requires View() == Fresh
      modifies this
      ensures View() == Run(es) && Inv(View())
      ensures answered <= |sent| <= answered + 1
      ensures pending.Some? ==> timer || inFlight.Some?
      ensures KeptEnabled(es) && Idle(View()) && LastScheduled(es).Some? ==> LastSent(View(), LastScheduled(es).value)
    {
      for i := 0 to |es|
        invariant View() == Run(es[..i])
      {
        assert es[..i + 1][..i] == es[..i];
        Take(es[i]);
      }
      assert es[..|es|] == es;
      EveryRunInv(es);
      if KeptEnabled(es) {
        EnabledSliderDelivers(es);
      }
    }
  }
}
