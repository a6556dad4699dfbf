/**
 The promises behind the mouse input chains: every queued event is a task of its own,
 chained to the task that was its tab's tail, and a settled task removes itself as the
 tail only if it still is the tail.  Rejections and removals may come at any later
 time.  What decides about a single event - the gate, the route, Chrome - is free.
 */
module InputTails {
  import opened Options

  type Tab = int

  datatype Status = Blocked | Running | Fulfilled | Rejected

  /** `after` is the tail it was chained to; `handed` says that Chrome was given the event. */
  datatype Task = Task(tab: Tab, after: Option<nat>, status: Status, handed: bool)

  type Tasks = map<nat, Task>   // by number of arrival

  datatype State = State(
    arrivals: nat,
    tasks: Tasks,
    tails: map<Tab, nat>,         // _inputTails
    log: seq<(Tab, nat)>)         // events handed to Chrome

  const Fresh := State(0, map[], map[], [])

  predicate Done(ts: Tasks, n: nat) {
    n in ts && ts[n].status in {Fulfilled, Rejected}
  }

  function SetStatus(s: State, n: nat, status: Status): State
    requires n in s.tasks
  {
    s.(tasks := s.tasks[n := s.tasks[n].(status := status)])
  }

  function Tail(s: State, t: Tab): Option<nat> {
    if t in s.tails then Some(s.tails[t]) else None
  }

  datatype Event =
    | Arrive(tab: Tab, gated: bool)
    | Start(n: nat)
    | Refuse(n: nat)                  // a check or the gate throws
    | HandOver(n: nat)
    | ChromeReply(n: nat, ok: bool)
    | PassOn(n: nat)                  // the promise it waits for was rejected
    | CleanUp(n: nat)                 // its `finally`

  function OnArrive(s: State, t: Tab, gated: bool): State {
    var counted := s.(arrivals := s.arrivals + 1);
    if gated || t in s.tails
    then counted.(tasks := s.tasks[s.arrivals := Task(t, Tail(s, t), Blocked, false)], tails := s.tails[t := s.arrivals])
    else counted.(log := s.log + [(t, s.arrivals)])
  }

  predicate MayStart(s: State, n: nat) {
    && n in s.tasks && s.tasks[n].status == Blocked
    && (s.tasks[n].after.Some? ==>
          s.tasks[n].after.value in s.tasks && s.tasks[s.tasks[n].after.value].status == Fulfilled)
  }

  predicate MustReject(s: State, n: nat) {
    && n in s.tasks && s.tasks[n].status == Blocked && s.tasks[n].after.Some?
    && s.tasks[n].after.value in s.tasks && s.tasks[s.tasks[n].after.value].status == Rejected
  }

  predicate IsRunning(s: State, n: nat, handed: bool) {
    n in s.tasks && s.tasks[n].status == Running && s.tasks[n].handed == handed
  }

  predicate IsSettledTail(s: State, n: nat) {
    Done(s.tasks, n) && Tail(s, s.tasks[n].tab) == Some(n)
  }

  function Step(s: State, e: Event): State {
    match e
    case Arrive(t, gated) => OnArrive(s, t, gated)
    case Start(n) => if MayStart(s, n) then SetStatus(s, n, Running) else s
    case Refuse(n) => if IsRunning(s, n, false) then SetStatus(s, n, Rejected) else s
    case HandOver(n) =>
      if IsRunning(s, n, false)
      then s.(tasks := s.tasks[n := s.tasks[n].(handed := true)], log := s.log + [(s.tasks[n].tab, n)]) else s
    case ChromeReply(n, ok) =>
      if IsRunning(s, n, true) then SetStatus(s, n, if ok then Fulfilled else Rejected) else s
    case PassOn(n) => if MustReject(s, n) then SetStatus(s, n, Rejected) else s
    case CleanUp(n) => if IsSettledTail(s, n) then s.(tails := s.tails - {s.tasks[n].tab}) else s
  }

  function Run(es: seq<Event>): State {
    if es == [] then Fresh else Step(Run(es[..|es| - 1]), es[|es| - 1])
  }

  // ----- Invariants ------------------------------------------------------------------------

  predicate OfTab(ts: Tasks, n: nat, t: Tab) {
    n in ts && ts[n].tab == t
  }

  /** All tasks of the tab that arrived before `n` are done. */
  ghost predicate OlderDone(ts: Tasks, t: Tab, n: nat) {
    forall m: nat | m < n && OfTab(ts, m, t) :: Done(ts, m)
  }

  predicate HasStatus(ts: Tasks, p: Option<nat>, status: Status) {
    p.None? || (p.value in ts && ts[p.value].status == status)
  }

  /** A task is chained to the newest older task of its tab, or all older ones are done. */
  ghost predicate Linked(ts: Tasks, n: nat)
    requires n in ts
  {
    match ts[n].after
    case None => OlderDone(ts, ts[n].tab, n)
    case Some(p) => p < n && OfTab(ts, p, ts[n].tab) && forall m: nat | m < n && OfTab(ts, m, ts[n].tab) :: m <= p
  }

  /** A task that got going has only done tasks before it, and a successful one right before it. */
  ghost predicate Ordered(ts: Tasks, n: nat)
    requires n in ts
  {
    && (ts[n].status != Blocked ==> OlderDone(ts, ts[n].tab, n))
    && (ts[n].status in {Running, Fulfilled} || ts[n].handed ==> HasStatus(ts, ts[n].after, Fulfilled))
    && (ts[n].status == Fulfilled ==> ts[n].handed)
    && (ts[n].handed ==> ts[n].status != Blocked)
  }

  ghost predicate TasksInv(ts: Tasks, arrivals: nat) {
    forall n | n in ts :: n < arrivals && Linked(ts, n) && Ordered(ts, n)
  }

  /** The tail is the newest task of its tab; without a tail all tasks of the tab are done. */
  ghost predicate TailsInv(ts: Tasks, tails: map<Tab, nat>) {
    && (forall t | t in tails :: OfTab(ts, tails[t], t))
    && (forall n | n in ts :: if ts[n].tab in tails then n <= tails[ts[n].tab] else Done(ts, n))
  }

  ghost predicate LogInv(ts: Tasks, log: seq<(Tab, nat)>, arrivals: nat) {
    && (forall i | 0 <= i < |log| :: log[i].1 < arrivals && OlderDone(ts, log[i].0, log[i].1))
    && (forall i | 0 <= i < |log| && log[i].1 in ts :: ts[log[i].1].handed)
    && (forall i, j | 0 <= i < j < |log| && log[i].0 == log[j].0 :: log[i].1 < log[j].1)
  }

  ghost predicate Inv(s: State) {
    TasksInv(s.tasks, s.arrivals) && TailsInv(s.tasks, s.tails) && LogInv(s.tasks, s.log, s.arrivals)
  }

  /** Tasks keep their place, and done ones their outcome. */
  ghost predicate Moves(ts: Tasks, vs: Tasks) {
    && ts.Keys == vs.Keys
    && forall n | n in ts ::
         && vs[n].tab == ts[n].tab && vs[n].after == ts[n].after
         && (Done(ts, n) ==> vs[n] == ts[n]) && (ts[n].handed ==> vs[n].handed)
  }

  lemma MovesKeepsDone(ts: Tasks, vs: Tasks, t: Tab, n: nat)
    requires Moves(ts, vs) && OlderDone(ts, t, n)
    ensures OlderDone(vs, t, n)
  {
    forall m: nat | m < n && OfTab(vs, m, t) ensures Done(vs, m) {
      assert OfTab(ts, m, t);
    }
  }

  lemma MovesKeepsLinks(ts: Tasks, vs: Tasks, n: nat)
    requires Moves(ts, vs) && n in ts && Linked(ts, n)
    ensures Linked(vs, n)
  {
    if ts[n].after.None? {
      MovesKeepsDone(ts, vs, ts[n].tab, n);
    } else {
      forall m: nat | m < n && OfTab(vs, m, vs[n].tab) ensures m <= vs[n].after.value {
        assert OfTab(ts, m, ts[n].tab);
      }
    }
  }

  lemma MovesKeepsOrder(ts: Tasks, vs: Tasks, n: nat)
    requires Moves(ts, vs) && n in ts && Ordered(ts, n) && vs[n] == ts[n]
    ensures Ordered(vs, n)
  {
    if ts[n].status != Blocked {
      MovesKeepsDone(ts, vs, ts[n].tab, n);
    }
  }

  lemma MovesKeepsLog(ts: Tasks, vs: Tasks, log: seq<(Tab, nat)>, arrivals: nat)
    requires Moves(ts, vs) && LogInv(ts, log, arrivals)
    ensures LogInv(vs, log, arrivals)
  {
    forall i | 0 <= i < |log| ensures OlderDone(vs, log[i].0, log[i].1) {
      MovesKeepsDone(ts, vs, log[i].0, log[i].1);
    }
  }

  /** One task moves on, as far as the order allows. */
  lemma OneTaskMoves(s: State, vs: Tasks, n: nat)
    requires Inv(s) && n in s.tasks && Moves(s.tasks, vs)
    requires vs == s.tasks[n := vs[n]] && Ordered(vs, n)
    ensures Inv(s.(tasks := vs))
  {
    forall k | k in vs ensures k < s.arrivals && Linked(vs, k) && Ordered(vs, k) {
      assert Linked(s.tasks, k) && Ordered(s.tasks, k);
      MovesKeepsLinks(s.tasks, vs, k);
      if k != n { MovesKeepsOrder(s.tasks, vs, k); }
    }
    MovesKeepsLog(s.tasks, vs, s.log, s.arrivals);
  }

  /** A task whose predecessor is done has only done tasks before it. */
  lemma OlderAreDone(ts: Tasks, arrivals: nat, n: nat)
    requires TasksInv(ts, arrivals) && n in ts
    requires ts[n].after.Some? ==> Done(ts, ts[n].after.value)
    ensures OlderDone(ts, ts[n].tab, n)
  {
    assert Linked(ts, n);
    if ts[n].after.Some? {
      var p := ts[n].after.value;
      assert Ordered(ts, p);
      forall m: nat | m < n && OfTab(ts, m, ts[n].tab) ensures Done(ts, m) {
        assert m == p || m < p;
      }
    }
  }

  lemma StatusInv(s: State, n: nat, status: Status)
    requires Inv(s) && n in s.tasks && !Done(s.tasks, n) && status != Blocked
    requires s.tasks[n].after.Some? ==> Done(s.tasks, s.tasks[n].after.value)
    requires status in {Running, Fulfilled} || s.tasks[n].handed ==> HasStatus(s.tasks, s.tasks[n].after, Fulfilled)
    requires status == Fulfilled ==> s.tasks[n].handed
    ensures Inv(SetStatus(s, n, status))
  {
    var vs := SetStatus(s, n, status).tasks;
    OlderAreDone(s.tasks, s.arrivals, n);
    assert Linked(s.tasks, n);
    MovesKeepsDone(s.tasks, vs, s.tasks[n].tab, n);
    OneTaskMoves(s, vs, n);
  }

  lemma LogAppend(ts: Tasks, log: seq<(Tab, nat)>, arrivals: nat, later: nat, t: Tab, n: nat)
    requires LogInv(ts, log, arrivals) && arrivals <= later && n < later
    requires OlderDone(ts, t, n) && (n in ts ==> ts[n].handed)
    requires forall i | 0 <= i < |log| && log[i].0 == t :: log[i].1 < n
    ensures LogInv(ts, log + [(t, n)], later)
  {
  }

  lemma HandOverInv(s: State, n: nat)
    requires Inv(s) && IsRunning(s, n, false)
    ensures Inv(Step(s, HandOver(n)))
  {
    var t, vs := s.tasks[n].tab, s.tasks[n := s.tasks[n].(handed := true)];
    assert Linked(s.tasks, n) && Ordered(s.tasks, n) && OfTab(s.tasks, n, t) && !Done(s.tasks, n);
    MovesKeepsDone(s.tasks, vs, t, n);
    OneTaskMoves(s, vs, n);
    forall i | 0 <= i < |s.log| && s.log[i].0 == t ensures s.log[i].1 < n {
      assert OlderDone(s.tasks, t, s.log[i].1);
      assert s.log[i].1 in s.tasks ==> s.tasks[s.log[i].1].handed;
    }
    LogAppend(vs, s.log, s.arrivals, s.arrivals, t, n);
  }

  /** A new task changes nothing for the older ones. */
  lemma NewTask(ts: Tasks, n: nat, task: Task, k: nat)
    requires k in ts && n !in ts && k < n && Linked(ts, k) && Ordered(ts, k)
    ensures Linked(ts[n := task], k) && Ordered(ts[n := task], k)
  {
    var vs := ts[n := task];
    assert forall m: nat, t | m < n :: OfTab(vs, m, t) <==> OfTab(ts, m, t);
    assert forall m: nat | m < n :: Done(vs, m) <==> Done(ts, m);
    if OlderDone(ts, ts[k].tab, k) {
      assert OlderDone(vs, ts[k].tab, k);
    }
  }

  lemma NewTaskLog(ts: Tasks, n: nat, task: Task, log: seq<(Tab, nat)>)
    requires LogInv(ts, log, n) && forall k | k in ts :: k < n
    ensures LogInv(ts[n := task], log, n + 1)
  {
    var vs := ts[n := task];
    forall i | 0 <= i < |log| ensures OlderDone(vs, log[i].0, log[i].1) {
      forall m: nat | m < log[i].1 && OfTab(vs, m, log[i].0) ensures Done(vs, m) {
        assert OlderDone(ts, log[i].0, log[i].1) && OfTab(ts, m, log[i].0);
      }
    }
  }

  /** The new task is linked to the tail it finds. */
  lemma NewTaskLinked(s: State, t: Tab)
    requires Inv(s)
    ensures
      var vs := OnArrive(s, t, true).tasks;
      s.arrivals in vs && Linked(vs, s.arrivals) && Ordered(vs, s.arrivals)
  {
    var vs, n := OnArrive(s, t, true).tasks, s.arrivals;
    forall m: nat | m < n && OfTab(vs, m, t) ensures if t in s.tails then m <= s.tails[t] else Done(vs, m) {
      assert OfTab(s.tasks, m, t);
    }
  }

  lemma QueueInv(s: State, t: Tab)
    requires Inv(s)
    ensures Inv(OnArrive(s, t, true))
  {
    var v, n := OnArrive(s, t, true), s.arrivals;
    NewTaskLinked(s, t);
    forall k | k in v.tasks ensures k < v.arrivals && Linked(v.tasks, k) && Ordered(v.tasks, k) {
      if k != n {
        NewTask(s.tasks, n, v.tasks[n], k);
      }
    }
    NewTaskLog(s.tasks, n, v.tasks[n], s.log);
    NewTaskTails(s.tasks, n, v.tasks[n], s.tails);
  }

  lemma NewTaskTails(ts: Tasks, n: nat, task: Task, tails: map<Tab, nat>)
    requires TailsInv(ts, tails) && forall k | k in ts :: k < n
    ensures TailsInv(ts[n := task], tails[task.tab := n])
  {
  }

  lemma DirectInv(s: State, t: Tab)
    requires Inv(s) && t !in s.tails
    ensures Inv(OnArrive(s, t, false))
  {
    assert OlderDone(s.tasks, t, s.arrivals);
    LogAppend(s.tasks, s.log, s.arrivals, s.arrivals + 1, t, s.arrivals);
  }

  lemma CleanUpInv(s: State, n: nat)
    requires Inv(s) && IsSettledTail(s, n)
    ensures Inv(Step(s, CleanUp(n)))
  {
    var v, t := Step(s, CleanUp(n)), s.tasks[n].tab;
    assert Ordered(s.tasks, n) && OlderDone(s.tasks, t, n);
    forall m | m in v.tasks && v.tasks[m].tab !in v.tails ensures Done(v.tasks, m) {
      assert s.tasks[m].tab == t ==> OfTab(s.tasks, m, t) && m <= n;
    }
  }

  lemma StepInv(s: State, e: Event)
    requires Inv(s)
    ensures Inv(Step(s, e))
  {
    match e {
      case Arrive(t, gated) =>
        if gated || t in s.tails { QueueInv(s, t); } else { DirectInv(s, t); }
      case Start(n) =>
        if MayStart(s, n) { assert Ordered(s.tasks, n); StatusInv(s, n, Running); }
      case Refuse(n) =>
        if IsRunning(s, n, false) { assert Ordered(s.tasks, n); StatusInv(s, n, Rejected); }
      case HandOver(n) =>
        if IsRunning(s, n, false) { HandOverInv(s, n); }
      case ChromeReply(n, ok) =>
        if IsRunning(s, n, true) { assert Ordered(s.tasks, n); StatusInv(s, n, if ok then Fulfilled else Rejected); }
      case PassOn(n) =>
        if MustReject(s, n) { assert Ordered(s.tasks, n); StatusInv(s, n, Rejected); }
      case CleanUp(n) =>
        if IsSettledTail(s, n) { CleanUpInv(s, n); }
    }
  }

  lemma {:induction false} EveryRunInv(es: seq<Event>)
    ensures Inv(Run(es))
  {
    if es != [] {
      EveryRunInv(es[..|es| - 1]);
      StepInv(Run(es[..|es| - 1]), es[|es| - 1]);
    }
  }

  // ----- Theorems --------------------------------------------------------------------------

  /** Per tab, events reach Chrome in the order in which they arrived. */
  lemma ArrivalOrderKept(es: seq<Event>, i: nat, j: nat)
    requires i < j < |Run(es).log| && Run(es).log[i].0 == Run(es).log[j].0
    ensures Run(es).log[i].1 < Run(es).log[j].1
  {
    EveryRunInv(es);
  }

  /** Task `n` was queued behind task `m`, directly or through others. */
  ghost predicate Behind(s: State, m: nat, n: nat)
    decreases n
  {
    && n in s.tasks && s.tasks[n].after.Some? && s.tasks[n].after.value < n
    && (s.tasks[n].after.value == m || Behind(s, m, s.tasks[n].after.value))
  }

  lemma {:induction false} NotBehindRejected(s: State, m: nat, n: nat)
    requires Inv(s) && Behind(s, m, n) && m in s.tasks && s.tasks[m].status == Rejected
    ensures s.tasks[n].status in {Blocked, Rejected} && !s.tasks[n].handed
    decreases n
  {
    var p := s.tasks[n].after.value;
    assert Ordered(s.tasks, n);
    if p != m {
      NotBehindRejected(s, m, p);
    }
  }

  /** Tasks keep their place in the chain, and done ones their outcome. */
  ghost predicate Keeps(ts: Tasks, vs: Tasks) {
    forall n | n in ts :: n in vs && vs[n].after == ts[n].after && (Done(ts, n) ==> vs[n].status == ts[n].status)
  }

  lemma StepKeeps(s: State, e: Event)
    requires Inv(s)
    ensures Keeps(s.tasks, Step(s, e).tasks)
  {
    match e {
      case Arrive(t, gated) =>
        assert s.arrivals !in s.tasks;
        OneKeeps(s.tasks, s.arrivals, Task(t, Tail(s, t), Blocked, false));
      case CleanUp(_) =>
      case _ =>
        if e.n in s.tasks && !Done(s.tasks, e.n) {
          OneKeeps(s.tasks, e.n, Step(s, e).tasks[e.n]);
        }
    }
  }

  lemma OneKeeps(ts: Tasks, n: nat, task: Task)
    requires n in ts ==> !Done(ts, n) && task.after == ts[n].after
    ensures Keeps(ts, ts[n := task])
  {
  }

  lemma KeepsTwice(ts: Tasks, us: Tasks, vs: Tasks)
    requires Keeps(ts, us) && Keeps(us, vs)
    ensures Keeps(ts, vs)
  {
  }

  lemma RunLast(es: seq<Event>, e: Event)
    ensures Run(es + [e]) == Step(Run(es), e)
  {
    assert (es + [e])[..|es|] == es;
  }

  lemma {:induction false} RunKeeps(es: seq<Event>, more: seq<Event>)
    ensures Keeps(Run(es).tasks, Run(es + more).tasks)
  {
    if more == [] {
      assert es + more == es;
    } else {
      var front, e := more[..|more| - 1], more[|more| - 1];
      RunKeeps(es, front);
      EveryRunInv(es + front);
      StepKeeps(Run(es + front), e);
      assert es + more == es + front + [e];
      RunLast(es + front, e);
      KeepsTwice(Run(es).tasks, Run(es + front).tasks, Run(es + more).tasks);
    }
  }

  lemma {:induction false} BehindStays(s: State, v: State, m: nat, n: nat)
    requires Keeps(s.tasks, v.tasks) && Behind(s, m, n)
    ensures Behind(v, m, n)
    decreases n
  {
    var p := s.tasks[n].after.value;
    if p != m {
      BehindStays(s, v, m, p);
    }
  }

  /** Whatever was queued behind an event that was refused or failed is never handed to Chrome, however the run goes on. */
  lemma NothingBehindARejection(es: seq<Event>, more: seq<Event>, m: nat, n: nat, i: nat)
    requires Behind(Run(es), m, n) && m in Run(es).tasks && Run(es).tasks[m].status == Rejected
    requires i < |Run(es + more).log|
    ensures Run(es + more).log[i].1 != n
  {
    EveryRunInv(es + more);
    RunKeeps(es, more);
    BehindStays(Run(es), Run(es + more), m, n);
    assert Done(Run(es).tasks, m);
    NotBehindRejected(Run(es + more), m, n);
  }

  /** An event handed over has all events it was queued behind handed over and answered: a prefix. */
  lemma {:induction false} HandedIsPrefix(s: State, m: nat, n: nat)
    requires Inv(s) && Behind(s, m, n) && s.tasks[n].handed
    ensures m in s.tasks && s.tasks[m].status == Fulfilled && s.tasks[m].handed
    decreases n
  {
    var p := s.tasks[n].after.value;
    assert Ordered(s.tasks, n) && Ordered(s.tasks, p);
    if p != m {
      HandedIsPrefix(s, m, p);
    }
  }

  lemma EveryRunHandsPrefixes(es: seq<Event>, m: nat, n: nat)
    requires Behind(Run(es), m, n) && Run(es).tasks[n].handed
    ensures m in Run(es).tasks && Run(es).tasks[m].status == Fulfilled && Run(es).tasks[m].handed
  {
    EveryRunInv(es);
    HandedIsPrefix(Run(es), m, n);
  }

  // ----- How events get through ------------------------------------------------------------------

  /** An ungated event of a tab without a tail goes straight to Chrome; any other becomes the tab's newest task. */
  lemma ArrivalProceeds(s: State, t: Tab, gated: bool)
    ensures
      var v := Step(s, Arrive(t, gated));
      && v.arrivals == s.arrivals + 1
      && if gated || t in s.tails
         then v.tails == s.tails[t := s.arrivals] && v.log == s.log && s.arrivals in v.tasks
              && v.tasks[s.arrivals].tab == t && v.tasks[s.arrivals].status == Blocked && !v.tasks[s.arrivals].handed
         else v.tails == s.tails && v.tasks == s.tasks && v.log == s.log + [(t, s.arrivals)]
  {
  }

  /** A task whose turn has come, once let through and taken by Chrome, is in the log, and its outcome is Chrome's answer. */
  lemma TurnGoesThrough(s: State, n: nat, ok: bool)
    requires MayStart(s, n) && !s.tasks[n].handed
    ensures
      var v := Step(Step(Step(s, Start(n)), HandOver(n)), ChromeReply(n, ok));
      v.log == s.log + [(s.tasks[n].tab, n)] && v.tasks[n].status == (if ok then Fulfilled else Rejected)
  {
    var one := Step(s, Start(n));
    assert IsRunning(one, n, false);
    var two := Step(one, HandOver(n));
    assert IsRunning(two, n, true);
  }

  /** One that is refused in its turn is rejected, and Chrome never sees it. */
  lemma TurnRefused(s: State, n: nat)
    requires MayStart(s, n) && !s.tasks[n].handed
    ensures
      var v := Step(Step(s, Start(n)), Refuse(n));
      v.log == s.log && v.tasks[n].status == Rejected && !v.tasks[n].handed
  {
    assert IsRunning(Step(s, Start(n)), n, false);
  }

  /** Its turn comes once the task before it has succeeded; if that failed, so does it. */
  lemma TurnComes(s: State, n: nat)
    requires Inv(s) && n in s.tasks && s.tasks[n].status == Blocked
    ensures
      var p := s.tasks[n].after;
      && (MayStart(s, n) <==> p.None? || s.tasks[p.value].status == Fulfilled)
      && (p.Some? && s.tasks[p.value].status == Rejected ==> Step(s, PassOn(n)).tasks[n].status == Rejected)
  {
    assert Linked(s.tasks, n);
  }

  /** A finished task gives up the tail only if it still is the tail. */
  lemma CleanUpIff(s: State, n: nat)
    requires Done(s.tasks, n)
    ensures
      var t := s.tasks[n].tab;
      Step(s, CleanUp(n)).tails == if t in s.tails && s.tails[t] == n then s.tails - {t} else s.tails
  {
  }

  // ----- The collapse ------------------------------------------------------------------------

  /** No rejection and no removal is on its way. */
  ghost predicate Quiet(s: State) {
    forall n :: !MustReject(s, n) && !IsSettledTail(s, n)
  }

  /** Then a rejection has taken everything behind it along. */
  lemma {:induction false} RejectionTakesAll(s: State, m: nat, n: nat)
    requires Inv(s) && Quiet(s) && Behind(s, m, n) && m in s.tasks && s.tasks[m].status == Rejected
    ensures s.tasks[n].status == Rejected
    decreases n
  {
    var p := s.tasks[n].after.value;
    NotBehindRejected(s, m, n);
    if p != m {
      RejectionTakesAll(s, m, p);
    }
    assert !MustReject(s, n);
  }

  /** Between the segments a tab has a tail exactly while it has an unsettled task. */
  lemma TailIffUnsettled(s: State, t: Tab)
    requires Inv(s) && Quiet(s)
    ensures t in s.tails <==> exists n: nat :: OfTab(s.tasks, n, t) && !Done(s.tasks, n)
  {
    if t in s.tails {
      assert !IsSettledTail(s, s.tails[t]);
      assert OfTab(s.tasks, s.tails[t], t) && !Done(s.tasks, s.tails[t]);
    }
  }

  /** Its unsettled tasks are its newest, all but the oldest of them wait, and each is queued behind the older ones. */
  lemma UnsettledFormOneChain(s: State, t: Tab, m: nat, n: nat)
    requires Inv(s) && OfTab(s.tasks, m, t) && OfTab(s.tasks, n, t) && m < n && !Done(s.tasks, m)
    ensures s.tasks[n].status == Blocked && Behind(s, m, n)
  {
    assert Ordered(s.tasks, n);
    UnsettledIsBehind(s, t, m, n);
  }

  lemma EveryRunCollapses(es: seq<Event>, t: Tab, m: nat, n: nat)
    requires Quiet(Run(es))
    ensures var s := Run(es); t in s.tails <==> exists k: nat :: OfTab(s.tasks, k, t) && !Done(s.tasks, k)
    ensures
      var s := Run(es);
      OfTab(s.tasks, m, t) && OfTab(s.tasks, n, t) && m < n && !Done(s.tasks, m) ==> s.tasks[n].status == Blocked && Behind(s, m, n)
    ensures
      var s := Run(es);
      Behind(s, m, n) && m in s.tasks && s.tasks[m].status == Rejected ==> s.tasks[n].status == Rejected
  {
    var s := Run(es);
    EveryRunInv(es);
    TailIffUnsettled(s, t);
    if OfTab(s.tasks, m, t) && OfTab(s.tasks, n, t) && m < n && !Done(s.tasks, m) {
      UnsettledFormOneChain(s, t, m, n);
    }
    if Behind(s, m, n) && m in s.tasks && s.tasks[m].status == Rejected {
      RejectionTakesAll(s, m, n);
    }
  }

  lemma {:induction false} UnsettledIsBehind(s: State, t: Tab, m: nat, n: nat)
    requires Inv(s) && OfTab(s.tasks, m, t) && OfTab(s.tasks, n, t) && m < n && !Done(s.tasks, m)
    ensures Behind(s, m, n)
    decreases n
  {
    assert Linked(s.tasks, n);
    var p := s.tasks[n].after.value;
    if p != m {
      UnsettledIsBehind(s, t, m, p);
    }
  }
}
