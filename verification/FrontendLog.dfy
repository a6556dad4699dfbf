/**
 The frontend log: fifty entries per window, drops counted and reported, entries
 written in batches.
 */
module FrontendLog {

  const MAX_ENTRIES := 50
  const WINDOW := 60000

  datatype Level = Debug | Info | Warn | Error

  /** An entry a caller logged, or the report of a number of dropped ones. */
  datatype Entry = Logged(level: Level, message: string) | Drops(count: nat)

  datatype State = State(
    windowStartedAt: int,
    accepted: nat,
    dropped: nat,
    queue: seq<Entry>,
    timerPending: bool,
    batches: seq<seq<Entry>>,    // batches handed to write
    times: seq<int>)             // time of every queued entry

  function Init(now: int): State {
    State(now, 0, 0, [], false, [], [])
  }

  function Flush(s: State): State {
    s.(timerPending := false, queue := [], batches := if s.queue == [] then s.batches else s.batches + [s.queue])
  }

  function Push(s: State, e: Entry, time: int): State {
    s.(queue := s.queue + [e], accepted := s.accepted + 1, times := s.times + [time])
  }

  /** A new window starts when the old one is more than a minute old. */
  function Roll(s: State, time: int): State {
    if time - s.windowStartedAt <= WINDOW then s else
      var rolled := s.(windowStartedAt := time, accepted := 0);
      if s.dropped > 0 then Push(rolled, Drops(s.dropped), time).(dropped := 0) else rolled
  }

  function Record(s: State, level: Level, message: string, time: int): State {
    var r := Roll(s, time);
    if r.accepted >= MAX_ENTRIES then r.(dropped := r.dropped + 1) else
      var p := Push(r, Logged(level, message), time);
      if level == Error then Flush(p) else p.(timerPending := true)
  }

  datatype Event = Call(level: Level, message: string, time: int) | FlushNow

  function Step(s: State, e: Event): State {
    match e
    case Call(level, message, time) => Record(s, level, message, time)
    case FlushNow => Flush(s)
  }

  function Run(start: int, es: seq<Event>): State {
    if es == [] then Init(start) else Step(Run(start, es[..|es| - 1]), es[|es| - 1])
  }

  // ----- The entries, without queue, timer and batches ------------------------------------

  /** Reference: which entries are admitted, as if each were written at once. */
  datatype Meter = Meter(start: int, accepted: nat, dropped: nat, out: seq<Entry>)

  function Admit(m: Meter, level: Level, message: string, time: int): Meter {
    var expired := time - m.start > WINDOW;
    var report := if expired && m.dropped > 0 then [Drops(m.dropped)] else [];
    var start, used := if expired then time else m.start, if expired then |report| else m.accepted;
    var dropped := if report != [] then 0 else m.dropped;
    if used < MAX_ENTRIES
    then Meter(start, used + 1, dropped, m.out + report + [Logged(level, message)])
    else Meter(start, used, dropped + 1, m.out + report)
  }

  function Admitted(start: int, es: seq<Event>): Meter {
    if es == [] then Meter(start, 0, 0, []) else
      var before, e := Admitted(start, es[..|es| - 1]), es[|es| - 1];
      if e.Call? then Admit(before, e.level, e.message, e.time) else before
  }

  function Concat(batches: seq<seq<Entry>>): seq<Entry> {
    if batches == [] then [] else Concat(batches[..|batches| - 1]) + batches[|batches| - 1]
  }

  /** Everything ever queued, in order. */
  function History(s: State): seq<Entry> {
    Concat(s.batches) + s.queue
  }

  function Metered(s: State): Meter {
    Meter(s.windowStartedAt, s.accepted, s.dropped, History(s))
  }

  lemma FlushHistory(s: State)
    ensures Metered(Flush(s)) == Metered(s)
  {
    if s.queue != [] {
      assert (s.batches + [s.queue])[..|s.batches|] == s.batches;
    }
  }

  lemma PushHistory(s: State, e: Entry, time: int)
    ensures History(Push(s, e, time)) == History(s) + [e]
  {
    assert Concat(s.batches) + (s.queue + [e]) == History(s) + [e];
  }

  /** What a new window adds to the entries. */
  lemma RollAdmits(s: State, time: int)
    ensures
      var r := Roll(s, time);
      && History(r) == History(s) + (if time - s.windowStartedAt > WINDOW && s.dropped > 0 then [Drops(s.dropped)] else [])
      && |r.times| - |s.times| == |History(r)| - |History(s)|
  {
    if time - s.windowStartedAt > WINDOW {
      var rolled := s.(windowStartedAt := time, accepted := 0);
      assert History(rolled) == History(s);
      PushHistory(rolled, Drops(s.dropped), time);
    }
  }

  lemma RecordAdmits(s: State, level: Level, message: string, time: int)
    ensures Metered(Record(s, level, message, time)) == Admit(Metered(s), level, message, time)
    ensures |s.times| == |History(s)| ==>
      |Record(s, level, message, time).times| == |History(Record(s, level, message, time))|
  {
    var r := Roll(s, time);
    var p := Push(r, Logged(level, message), time);
    RollAdmits(s, time);
    PushHistory(r, Logged(level, message), time);
    FlushHistory(p);
    assert History(p.(timerPending := true)) == History(p) && History(r.(dropped := r.dropped + 1)) == History(r);
  }

  /** The timer runs exactly while entries wait, and no empty batch is written. */
  ghost predicate Timed(s: State) {
    (s.timerPending <==> s.queue != []) && forall i | 0 <= i < |s.batches| :: s.batches[i] != []
  }

  lemma StepTimed(s: State, e: Event)
    requires Timed(s)
    ensures Timed(Step(s, e))
  {
  }

  /** However the flushes fall, the batches followed by the queue are the admitted entries in order. */
  lemma {:induction false} BatchingKeepsEntries(start: int, es: seq<Event>)
    ensures Metered(Run(start, es)) == Admitted(start, es)
    ensures Timed(Run(start, es)) && |Run(start, es).times| == |History(Run(start, es))|
  {
    if es != [] {
      var s, e := Run(start, es[..|es| - 1]), es[|es| - 1];
      BatchingKeepsEntries(start, es[..|es| - 1]);
      StepTimed(s, e);
      match e {
        case Call(level, message, time) => RecordAdmits(s, level, message, time);
        case FlushNow => FlushHistory(s);
      }
    }
  }

  /** What a call adds to the entries: perhaps a report, and the entry itself unless it is dropped. */
  function Added(s: State, e: Event): seq<Entry>
    requires e.Call?
  {
    Admit(Metered(s), e.level, e.message, e.time).out[|History(s)|..]
  }

  lemma AddedIs(s: State, e: Event)
    requires e.Call?
    ensures
      var r := Roll(s, e.time);
      var report := if e.time - s.windowStartedAt > WINDOW && s.dropped > 0 then [Drops(s.dropped)] else [];
      Added(s, e) == report + (if r.accepted < MAX_ENTRIES then [Logged(e.level, e.message)] else [])
  {
  }

  /** A call is dropped exactly when fifty entries have been accepted and the minute of the window is not over. */
  lemma DroppedIff(s: State, e: Event)
    requires e.Call? && s.accepted <= MAX_ENTRIES
    ensures
      var v, over := Step(s, e), e.time - s.windowStartedAt > 60000;
      && (Added(s, e) == [] <==> s.accepted == 50 && !over)
      && v.dropped == (if Added(s, e) == [] then s.dropped + 1 else if over then 0 else s.dropped)
      && v.accepted == (if over then |Added(s, e)| else if Added(s, e) == [] then 50 else s.accepted + 1)
      && v.windowStartedAt == (if over then e.time else s.windowStartedAt)
  {
    AddedIs(s, e);
  }

  /** A call's entries wait with the others, unless an error is accepted: then all go at once, in one batch. */
  lemma CallFlushes(s: State, e: Event)
    requires e.Call?
    ensures
      var v, waiting := Step(s, e), s.queue + Added(s, e);
      if e.level == Error && Added(s, e) != []
      then v.queue == [] && v.batches == s.batches + [waiting]
      else v.queue == waiting && v.batches == s.batches
  {
    var r := Roll(s, e.time);
    AddedIs(s, e);
    RollQueue(s, e.time);
    if r.accepted < MAX_ENTRIES {
      assert Push(r, Logged(e.level, e.message), e.time).queue == s.queue + Added(s, e);
    } else {
      assert r == s && Added(s, e) == [];
    }
  }

  /** A flush hands over exactly what waits. */
  lemma FlushHandsOver(s: State)
    ensures
      var v := Step(s, FlushNow);
      && v.queue == [] && !v.timerPending && v.batches == s.batches + (if s.queue != [] then [s.queue] else [])
      && v.accepted == s.accepted && v.dropped == s.dropped && v.times == s.times
  {
  }

  lemma RollQueue(s: State, time: int)
    ensures
      var r := Roll(s, time);
      && r.batches == s.batches
      && r.queue == s.queue + (if time - s.windowStartedAt > WINDOW && s.dropped > 0 then [Drops(s.dropped)] else [])
  {
  }

  // ----- Accounting ---------------------------------------------------------------------

  /** Record calls of a run. */
  function CallCount(es: seq<Event>): nat {
    if es == [] then 0 else CallCount(es[..|es| - 1]) + (if es[|es| - 1].Call? then 1 else 0)
  }

  function CallsIn(es: seq<Entry>): nat {
    if es == [] then 0 else CallsIn(es[..|es| - 1]) + (if es[|es| - 1].Logged? then 1 else 0)
  }

  function DropsIn(es: seq<Entry>): nat {
    if es == [] then 0 else DropsIn(es[..|es| - 1]) + (if es[|es| - 1].Drops? then es[|es| - 1].count else 0)
  }

  /** Calls accepted, dropped and reported, or dropped and not yet reported. */
  function Total(m: Meter): nat {
    CallsIn(m.out) + DropsIn(m.out) + m.dropped
  }

  lemma Appended(es: seq<Entry>, e: Entry)
    ensures CallsIn(es + [e]) == CallsIn(es) + (if e.Logged? then 1 else 0)
    ensures DropsIn(es + [e]) == DropsIn(es) + (if e.Drops? then e.count else 0)
  {
    assert (es + [e])[..|es|] == es;
  }

  lemma AdmitTotal(m: Meter, level: Level, message: string, time: int)
    ensures Total(Admit(m, level, message, time)) == Total(m) + 1
  {
    var report := if time - m.start > WINDOW && m.dropped > 0 then [Drops(m.dropped)] else [];
    if report != [] {
      Appended(m.out, Drops(m.dropped));
    } else {
      assert m.out + report == m.out;
    }
    Appended(m.out + report, Logged(level, message));
  }

  lemma {:induction false} TotalIsCallCount(start: int, es: seq<Event>)
    ensures Total(Admitted(start, es)) == CallCount(es)
  {
    if es != [] {
      TotalIsCallCount(start, es[..|es| - 1]);
      var m, e := Admitted(start, es[..|es| - 1]), es[|es| - 1];
      if e.Call? {
        AdmitTotal(m, e.level, e.message, e.time);
      }
    }
  }

  // ----- Rate limit ----------------------------------------------------------------------

  ghost predicate Monotone(start: int, es: seq<Event>) {
    && (forall i | 0 <= i < |es| && es[i].Call? :: start <= es[i].time)
    && (forall i, j | 0 <= i < j < |es| && es[i].Call? && es[j].Call? :: es[i].time <= es[j].time)
  }

  /** The entries of the current window, and how far back the ones before the previous window lie. */
  ghost predicate Windowed(times: seq<int>, accepted: nat, start: int, now: int) {
    && start <= now && accepted <= MAX_ENTRIES && accepted <= |times|
    && (forall i | 0 <= i < |times| :: times[i] <= now)
    && (forall i | |times| - accepted <= i < |times| :: start <= times[i])
    && (forall i | 0 <= i < |times| - accepted :: times[i] <= start)
    && (forall i | 0 <= i < |times| - accepted - MAX_ENTRIES :: times[i] + WINDOW < start)
  }

  /** Any entry comes more than a minute after the hundredth before it. */
  ghost predicate Spaced(times: seq<int>) {
    forall i, j | 0 <= i && i + 2 * MAX_ENTRIES <= j < |times| :: times[i] + WINDOW < times[j]
  }

  lemma OneMoreSpaced(times: seq<int>, accepted: nat, start: int, time: int)
    requires Windowed(times, accepted, start, time) && Spaced(times) && accepted < MAX_ENTRIES
    ensures Windowed(times + [time], accepted + 1, start, time) && Spaced(times + [time])
  {
  }

  lemma LaterWindow(times: seq<int>, accepted: nat, start: int, now: int, time: int)
    requires Windowed(times, accepted, start, now) && now <= time
    ensures Windowed(times, accepted, start, time)
    ensures time - start > WINDOW ==> Windowed(times, 0, time, time)
  {
  }

  ghost predicate Limited(s: State, now: int) {
    Windowed(s.times, s.accepted, s.windowStartedAt, now) && Spaced(s.times)
  }

  lemma RollLimited(s: State, now: int, time: int)
    requires Limited(s, now) && now <= time
    ensures Limited(Roll(s, time), time)
  {
    LaterWindow(s.times, s.accepted, s.windowStartedAt, now, time);
    if time - s.windowStartedAt > WINDOW && s.dropped > 0 {
      OneMoreSpaced(s.times, 0, time, time);
    }
  }

  /** What record does to the entries once the window is settled. */
  ghost predicate Accepts(r: State, v: State, time: int) {
    && v.windowStartedAt == r.windowStartedAt
    && if r.accepted < MAX_ENTRIES
       then v.times == r.times + [time] && v.accepted == r.accepted + 1
       else v.times == r.times && v.accepted == r.accepted
  }

  lemma RecordAccepts(s: State, level: Level, message: string, time: int)
    ensures Accepts(Roll(s, time), Record(s, level, message, time), time)
  {
  }

  lemma AcceptsLimited(r: State, v: State, time: int)
    requires Limited(r, time) && Accepts(r, v, time)
    ensures Limited(v, time)
  {
    if r.accepted < MAX_ENTRIES {
      OneMoreSpaced(r.times, r.accepted, r.windowStartedAt, time);
    }
  }

  /** Time of the last call so far. */
  function Now(start: int, es: seq<Event>): int {
    if es == [] then start
    else if es[|es| - 1].Call? then es[|es| - 1].time
    else Now(start, es[..|es| - 1])
  }

  lemma {:induction false} NowIsLatest(start: int, es: seq<Event>, time: int)
    requires start <= time && forall i | 0 <= i < |es| && es[i].Call? :: es[i].time <= time
    ensures Now(start, es) <= time
  {
    if es != [] && !es[|es| - 1].Call? {
      NowIsLatest(start, es[..|es| - 1], time);
    }
  }

  lemma {:induction false} EveryRunSpaced(start: int, es: seq<Event>)
    requires Monotone(start, es)
    ensures Limited(Run(start, es), Now(start, es))
  {
    if es != [] {
      var front, e := es[..|es| - 1], es[|es| - 1];
      EveryRunSpaced(start, front);
      if e.Call? {
        NowIsLatest(start, front, e.time);
        var s := Run(start, front);
        RollLimited(s, Now(start, front), e.time);
        RecordAccepts(s, e.level, e.message, e.time);
        AcceptsLimited(Roll(s, e.time), Record(s, e.level, e.message, e.time), e.time);
      }
    }
  }

  // ----- Theorems --------------------------------------------------------------------------

  /** Every record call was accepted, or dropped and reported, or is in the drops still to report. */
  lemma NothingGetsLost(start: int, es: seq<Event>)
    ensures
      var s := Run(start, es);
      CallCount(es) == CallsIn(History(s)) + DropsIn(History(s)) + s.dropped
  {
    BatchingKeepsEntries(start, es);
    TotalIsCallCount(start, es);
  }

  /** With a monotone clock any interval of a minute accepts at most a hundred entries. */
  lemma AtMostHundredPerMinute(start: int, es: seq<Event>, i: nat, j: nat)
    requires Monotone(start, es)
    requires i <= j < |Run(start, es).times| && Run(start, es).times[j] - Run(start, es).times[i] <= 60000
    ensures j - i < 100
  {
    EveryRunSpaced(start, es);
  }

  class Log {
    var windowStartedAt: int
    var accepted: nat
    var dropped: nat
    var queue: seq<Entry>
    var timerPending: bool
    var batches: seq<seq<Entry>>
    var times: seq<int>

    ghost function View(): State
      reads this
    {
      State(windowStartedAt, accepted, dropped, queue, timerPending, batches, times)
    }

    constructor (now: int)
      ensures View() == Init(now)
    {
      windowStartedAt, accepted, dropped, queue, timerPending := now, 0, 0, [], false;
      batches, times := [], [];
    }

    /** The timer's callback, an explicit flush, or an error entry. */
    method FlushQueue()
      modifies this
      ensures View() == Flush(old(View()))
    {
      if timerPending {
        timerPending := false;
      }
      var batch := queue;
      queue := [];
      if |batch| == 0 {
        return;
      }
      batches := batches + [batch];
    }

    method RecordEntry(level: Level, message: string, now: int)
      modifies this
      ensures View() == Record(old(View()), level, message, now)
    {
      if now - windowStartedAt > WINDOW {
        windowStartedAt := now;
        accepted := 0;
        if dropped > 0 {
          queue := queue + [Drops(dropped)];
          times := times + [now];
          accepted := accepted + 1;
          dropped := 0;
        }
      }
      if accepted >= MAX_ENTRIES {
        dropped := dropped + 1;
        return;
      }
      accepted := accepted + 1;
      queue := queue + [Logged(level, message)];
      times := times + [now];
      if level == Error {
        FlushQueue();
      } else {
        timerPending := true;
      }
    }

    method Take(e: Event)
      modifies this
      ensures View() == Step(old(View()), e)
    {
      match e {
        case Call(level, message, time) => RecordEntry(level, message, time);
        case FlushNow => FlushQueue();
      }
    }

    method Drive(es: seq<Event>, ghost start: int)
      requires View() == Init(start)
      modifies this
      ensures View() == Run(start, es)
      ensures Concat(batches) + queue == Admitted(start, es).out
      ensures timerPending <==> queue != []
      ensures CallCount(es) == CallsIn(Concat(batches) + queue) + DropsIn(Concat(batches) + queue) + dropped
    {
      for i := 0 to |es|
        invariant View() == Run(start, es[..i])
      {
        assert es[..i + 1][..i] == es[..i];
        Take(es[i]);
      }
      assert es[..|es|] == es;
      BatchingKeepsEntries(start, es);
      NothingGetsLost(start, es);
    }
  }
}
