/**
 The relay's tab model (BrowserModel): which tab has which session id, what the CDP
 client is told about it, and where its commands are routed.
 */
module Sessions {
  import opened Options
  import opened GroupStyle

  type Tab = int

  /** An entry of _tabSessions; `number` is the N of its id pw-tab-N. */
  datatype Session = Session(tab: Tab, number: nat, children: set<string>)

  function Name(number: nat): string {
    "pw-tab-" + Decimal(number)
  }

  lemma NameInjective(a: nat, b: nat)
    requires Name(a) == Name(b)
    ensures a == b
  {
    assert Name(a)[7..] == Decimal(a) && Name(b)[7..] == Decimal(b);
    DecimalInjective(a, b);
  }

  datatype Emission = AttachedToTarget(number: nat) | DetachedFromTarget(number: nat)

  datatype State = State(
    client: bool,                 // a CDP client is connected
    known: set<Tab>,
    sessions: seq<Session>,       // a Map in insertion order, one entry per tab
    autoAttach: bool,
    nextId: nat,
    pending: multiset<Tab>,       // attach sequences waiting for the extension
    emitted: seq<Emission>)

  const Fresh := State(false, {}, [], false, 1, multiset{}, [])

  function IndexOf(ss: seq<Session>, t: Tab): (i: nat)
    ensures i <= |ss| && (i < |ss| ==> ss[i].tab == t)
    ensures forall j | 0 <= j < i :: ss[j].tab != t
  {
    if ss == [] then 0 else if ss[0].tab == t then 0 else 1 + IndexOf(ss[1..], t)
  }

  predicate Has(s: State, t: Tab) {
    IndexOf(s.sessions, t) < |s.sessions|
  }

  function Emit(s: State, m: Emission): State {
    if s.client then s.(emitted := s.emitted + [m]) else s
  }

  /** _attachTab up to its first await. */
  function BeginAttach(s: State, t: Tab): State {
    if Has(s, t) then s else s.(pending := s.pending + multiset{t})
  }

  function Free(ss: seq<Session>, tabs: set<Tab>): set<Tab> {
    set t | t in tabs && IndexOf(ss, t) == |ss|
  }

  function BeginAll(s: State, tabs: set<Tab>): State {
    s.(pending := s.pending + multiset(Free(s.sessions, tabs)))
  }

  lemma FreeSplit(ss: seq<Session>, tabs: set<Tab>, t: Tab)
    requires t in tabs
    ensures multiset(Free(ss, tabs)) ==
      multiset(Free(ss, tabs - {t})) + (if IndexOf(ss, t) == |ss| then multiset{t} else multiset{})
  {
    if IndexOf(ss, t) == |ss| {
      assert Free(ss, tabs) == Free(ss, tabs - {t}) + {t};
    } else {
      assert Free(ss, tabs) == Free(ss, tabs - {t});
    }
  }

  function PutSession(ss: seq<Session>, x: Session): seq<Session> {
    var i := IndexOf(ss, x.tab);
    if i < |ss| then ss[i := x] else ss + [x]
  }

  /** The extension answered the attach and the target query. */
  function EndAttach(s: State, t: Tab, ok: bool): State {
    if t !in s.pending then s
    else if !ok then s.(pending := s.pending - multiset{t})
    else
      Emit(s.(pending := s.pending - multiset{t}, nextId := s.nextId + 1,
              sessions := PutSession(s.sessions, Session(t, s.nextId, {}))), AttachedToTarget(s.nextId))
  }

  function DetachTab(s: State, t: Tab): State {
    var i := IndexOf(s.sessions, t);
    if i == |s.sessions| then s else
      Emit(s.(sessions := s.sessions[..i] + s.sessions[i + 1..]), DetachedFromTarget(s.sessions[i].number))
  }

  datatype ChildChange = ChildAttached(id: string) | ChildDetached(id: string)

  function Children(s: State, t: Tab, change: ChildChange): State {
    var i := IndexOf(s.sessions, t);
    if i == |s.sessions| then s else
      var was := s.sessions[i];
      s.(sessions := s.sessions[i := was.(children :=
        if change.ChildAttached? then was.children + {change.id} else was.children - {change.id})])
  }

  datatype Event =
    | Connect
    | TabCreated(tab: Tab)
    | TabRemoved(tab: Tab)
    | ChildEvent(tab: Tab, change: ChildChange)
    | DebuggerDetach(tab: Tab)
    | EnableAutoAttach
    | TargetCreated(tab: Tab)
    | AttachDone(tab: Tab, ok: bool)

  /** Commands of the CDP client arrive only once it is connected. */
  function Step(s: State, e: Event): State {
    match e
    case Connect => s.(client := true)
    case TabCreated(t) =>
      var seen := s.(known := s.known + {t});
      if s.autoAttach then BeginAttach(seen, t) else seen
    case TabRemoved(t) => DetachTab(s.(known := s.known - {t}), t)
    case ChildEvent(t, change) => Children(s, t, change)
    case DebuggerDetach(t) => DetachTab(s, t)
    case EnableAutoAttach => if !s.client then s else BeginAll(s.(autoAttach := true), s.known)
    case TargetCreated(t) => if !s.client then s else BeginAttach(s.(known := s.known + {t}), t)
    case AttachDone(t, ok) => EndAttach(s, t, ok)
  }

  function Run(es: seq<Event>): State {
    if es == [] then Fresh else Step(Run(es[..|es| - 1]), es[|es| - 1])
  }

  // ----- When attaches start and end ---------------------------------------------------------------

  /** The event starts an attach of the tab: auto-attach meets a tab without a session, or the client made one. */
  predicate Starts(s: State, e: Event, t: Tab) {
    && !Has(s, t)
    && match e
       case TabCreated(u) => u == t && s.autoAttach
       case EnableAutoAttach => s.client && t in s.known
       case TargetCreated(u) => u == t && s.client
       case _ => false
  }

  lemma FreeCount(ss: seq<Session>, tabs: set<Tab>, t: Tab)
    ensures multiset(Free(ss, tabs))[t] == if t in tabs && IndexOf(ss, t) == |ss| then 1 else 0
  {
  }

  /** Attaches under way: one more where the event starts one, one less where one is answered. */
  lemma PendingCount(s: State, e: Event, t: Tab)
    ensures Step(s, e).pending[t] + (if e.AttachDone? && e.tab == t && t in s.pending then 1 else 0) ==
      s.pending[t] + (if Starts(s, e, t) then 1 else 0)
  {
    FreeCount(s.sessions, s.known, t);
  }

  /** Known tabs and the two modes follow the events alone. */
  lemma KnownIff(s: State, e: Event, t: Tab)
    ensures t in Step(s, e).known <==>
      || e == TabCreated(t) || (e == TargetCreated(t) && s.client)
      || (t in s.known && e != TabRemoved(t))
    ensures Step(s, e).client <==> s.client || e == Connect
    ensures Step(s, e).autoAttach <==> s.autoAttach || (e == EnableAutoAttach && s.client)
  {
  }

  /** A tab has a session from an answered attach until it is removed or detached. */
  lemma HasIff(s: State, e: Event, t: Tab)
    requires Injective(s.sessions)
    ensures Has(Step(s, e), t) <==>
      || (e == AttachDone(t, true) && t in s.pending)
      || (Has(s, t) && e != TabRemoved(t) && e != DebuggerDetach(t))
  {
    match e {
      case AttachDone(u, ok) => AttachHas(s, u, ok, t);
      case TabRemoved(u) => DetachHas(s.(known := s.known - {u}), u, t);
      case DebuggerDetach(u) => DetachHas(s, u, t);
      case ChildEvent(u, change) => ChildrenHas(s, u, change, t);
      case _ => assert Step(s, e).sessions == s.sessions;
    }
  }

  lemma AttachHas(s: State, u: Tab, ok: bool, t: Tab)
    ensures Has(EndAttach(s, u, ok), t) <==> (t == u && ok && t in s.pending) || Has(s, t)
  {
    PutHas(s.sessions, Session(u, s.nextId, {}), t);
  }

  lemma DetachHas(s: State, u: Tab, t: Tab)
    requires Injective(s.sessions)
    ensures Has(DetachTab(s, u), t) <==> Has(s, t) && t != u
  {
    DropHas(s.sessions, u, t);
  }

  lemma PutHas(ss: seq<Session>, x: Session, t: Tab)
    ensures
      var put := PutSession(ss, x);
      IndexOf(put, t) < |put| <==> t == x.tab || IndexOf(ss, t) < |ss|
  {
    var put, i := PutSession(ss, x), IndexOf(ss, x.tab);
    assert put[i] == x;
    assert IndexOf(ss, t) < |ss| ==> put[IndexOf(ss, t)].tab == t;
    assert IndexOf(put, t) < |put| ==> put[IndexOf(put, t)] == x || ss[IndexOf(put, t)].tab == t;
  }

  ghost predicate HasTab(ss: seq<Session>, t: Tab) {
    exists i :: 0 <= i < |ss| && ss[i].tab == t
  }

  lemma HasByIndex(ss: seq<Session>, t: Tab)
    ensures IndexOf(ss, t) < |ss| <==> HasTab(ss, t)
  {
  }

  lemma DropHasTab(ss: seq<Session>, i: nat, t: Tab)
    requires Injective(ss) && i < |ss|
    ensures HasTab(ss[..i] + ss[i + 1..], t) <==> t != ss[i].tab && HasTab(ss, t)
  {
    var rest := ss[..i] + ss[i + 1..];
    if HasTab(rest, t) {
      var k :| 0 <= k < |rest| && rest[k].tab == t;
      assert rest[k] == ss[if k < i then k else k + 1];
    }
    if t != ss[i].tab && HasTab(ss, t) {
      var j :| 0 <= j < |ss| && ss[j].tab == t;
      assert rest[if j < i then j else j - 1] == ss[j];
    }
  }

  lemma DropHas(ss: seq<Session>, u: Tab, t: Tab)
    requires Injective(ss)
    ensures
      var i := IndexOf(ss, u);
      var rest := if i < |ss| then ss[..i] + ss[i + 1..] else ss;
      IndexOf(rest, t) < |rest| <==> t != u && IndexOf(ss, t) < |ss|
  {
    var i := IndexOf(ss, u);
    var rest := if i < |ss| then ss[..i] + ss[i + 1..] else ss;
    HasByIndex(ss, t);
    HasByIndex(rest, t);
    if i < |ss| {
      DropHasTab(ss, i, t);
    }
  }

  lemma ChildrenHas(s: State, u: Tab, change: ChildChange, t: Tab)
    ensures Has(Children(s, u, change), t) <==> Has(s, t)
  {
    var ss, vs := s.sessions, Children(s, u, change).sessions;
    assert |vs| == |ss| && forall j | 0 <= j < |ss| :: vs[j].tab == ss[j].tab;
  }

  /** Child ids come and go with their tab's own events, and a new session has none. */
  lemma ChildrenIff(s: State, e: Event, i: nat, id: string)
    requires Injective(s.sessions) && e.ChildEvent? && i < |s.sessions|
    ensures |Step(s, e).sessions| == |s.sessions|
    ensures id in Step(s, e).sessions[i].children <==>
      || (s.sessions[i].tab == e.tab && e.change == ChildAttached(id))
      || (id in s.sessions[i].children && !(s.sessions[i].tab == e.tab && e.change == ChildDetached(id)))
  {
    var k := IndexOf(s.sessions, e.tab);
    assert s.sessions[i].tab == e.tab ==> k == i;
  }

  // ----- What the client has been told -------------------------------------------------

  /** Numbers announced, and numbers announced but not withdrawn. */
  function Announced(ms: seq<Emission>): set<nat> {
    if ms == [] then {} else
      var rest, m := Announced(ms[..|ms| - 1]), ms[|ms| - 1];
      if m.AttachedToTarget? then rest + {m.number} else rest
  }

  function Standing(ms: seq<Emission>): set<nat> {
    if ms == [] then {} else
      var rest, m := Standing(ms[..|ms| - 1]), ms[|ms| - 1];
      if m.AttachedToTarget? then rest + {m.number} else rest - {m.number}
  }

  /** Every id is announced once, and withdrawn at most once, after its announcement. */
  ghost predicate Orderly(ms: seq<Emission>) {
    forall k | 0 <= k < |ms| ::
      if ms[k].AttachedToTarget? then ms[k].number !in Announced(ms[..k]) else ms[k].number in Standing(ms[..k])
  }

  function Live(ss: seq<Session>): set<nat> {
    set i | 0 <= i < |ss| :: ss[i].number
  }

  ghost predicate Injective(ss: seq<Session>) {
    forall i, j | 0 <= i < j < |ss| :: ss[i].tab != ss[j].tab && ss[i].number != ss[j].number
  }

  ghost predicate Inv(s: State) {
    && Injective(s.sessions)
    && Orderly(s.emitted)
    && (forall i | 0 <= i < |s.sessions| :: s.sessions[i].number < s.nextId)
    && (forall n | n in Announced(s.emitted) :: n < s.nextId)
    && Live(s.sessions) <= Standing(s.emitted)
    && (s.autoAttach || s.pending != multiset{} || s.sessions != [] ==> s.client)
  }

  lemma EmissionAppended(ms: seq<Emission>, m: Emission)
    ensures Announced(ms + [m]) == if m.AttachedToTarget? then Announced(ms) + {m.number} else Announced(ms)
    ensures Standing(ms + [m]) == if m.AttachedToTarget? then Standing(ms) + {m.number} else Standing(ms) - {m.number}
    ensures Orderly(ms) && (if m.AttachedToTarget? then m.number !in Announced(ms) else m.number in Standing(ms)) ==>
      Orderly(ms + [m])
  {
    var longer := ms + [m];
    assert longer[..|ms|] == ms;
    assert forall k | 0 <= k < |ms| :: longer[..k] == ms[..k] && longer[k] == ms[k];
  }

  /** Storing a session under a fresh number. */
  lemma PutInjective(ss: seq<Session>, x: Session)
    requires Injective(ss) && forall i | 0 <= i < |ss| :: ss[i].number < x.number
    ensures
      var put := PutSession(ss, x);
      Injective(put) && forall i | 0 <= i < |put| :: put[i].number <= x.number
  {
    var i := IndexOf(ss, x.tab);
    assert i == |ss| ==> forall j | 0 <= j < |ss| :: ss[j].tab != x.tab;
  }

  lemma AppendLive(ss: seq<Session>, x: Session)
    ensures Live(ss + [x]) == Live(ss) + {x.number}
  {
    var put := ss + [x];
    assert put[|ss|] == x && forall j | 0 <= j < |ss| :: put[j] == ss[j];
  }

  lemma ReplaceLive(ss: seq<Session>, i: nat, x: Session)
    requires Injective(ss) && i < |ss|
    ensures Live(ss[i := x]) == Live(ss) - {ss[i].number} + {x.number}
  {
    var put := ss[i := x];
    assert put[i] == x && forall j | 0 <= j < |ss| && j != i :: put[j] == ss[j] && ss[j].number != ss[i].number;
    forall n | n in Live(ss) && n != ss[i].number ensures n in Live(put) {
      var j :| 0 <= j < |ss| && ss[j].number == n;
      assert put[j].number == n;
    }
  }

  lemma PutLive(ss: seq<Session>, x: Session)
    requires Injective(ss)
    ensures
      var i := IndexOf(ss, x.tab);
      Live(PutSession(ss, x)) == (if i < |ss| then Live(ss) - {ss[i].number} else Live(ss)) + {x.number}
  {
    var i := IndexOf(ss, x.tab);
    if i < |ss| {
      ReplaceLive(ss, i, x);
    } else {
      AppendLive(ss, x);
    }
  }

  lemma EndAttachInv(s: State, t: Tab, ok: bool)
    requires Inv(s)
    ensures Inv(EndAttach(s, t, ok))
    ensures t in s.pending && ok ==>
      EndAttach(s, t, ok).emitted == s.emitted + [AttachedToTarget(s.nextId)]
  {
    if t in s.pending && ok {
      var x := Session(t, s.nextId, {});
      EmissionAppended(s.emitted, AttachedToTarget(s.nextId));
      PutInjective(s.sessions, x);
      PutLive(s.sessions, x);
    }
  }

  lemma DropInjective(ss: seq<Session>, i: nat)
    requires Injective(ss) && i < |ss|
    ensures Injective(ss[..i] + ss[i + 1..])
  {
    var rest := ss[..i] + ss[i + 1..];
    forall j, k | 0 <= j < k < |rest| ensures rest[j].tab != rest[k].tab && rest[j].number != rest[k].number {
      assert rest[j] == ss[if j < i then j else j + 1] && rest[k] == ss[if k < i then k else k + 1];
    }
  }

  lemma DropLive(ss: seq<Session>, i: nat)
    requires Injective(ss) && i < |ss|
    ensures Injective(ss[..i] + ss[i + 1..])
    ensures Live(ss[..i] + ss[i + 1..]) == Live(ss) - {ss[i].number}
  {
    var rest := ss[..i] + ss[i + 1..];
    DropInjective(ss, i);
    forall n | n in Live(ss) && n != ss[i].number ensures n in Live(rest) {
      var j :| 0 <= j < |ss| && ss[j].number == n;
      assert ss[j] == rest[if j < i then j else j - 1];
    }
    forall n | n in Live(rest) ensures n in Live(ss) && n != ss[i].number {
      var j :| 0 <= j < |rest| && rest[j].number == n;
      assert rest[j] == ss[if j < i then j else j + 1];
    }
  }

  lemma DetachInv(s: State, t: Tab)
    requires Inv(s)
    ensures Inv(DetachTab(s, t))
    ensures Has(s, t) ==>
      DetachTab(s, t).emitted == s.emitted + [DetachedFromTarget(s.sessions[IndexOf(s.sessions, t)].number)]
  {
    var i := IndexOf(s.sessions, t);
    if i < |s.sessions| {
      var n := s.sessions[i].number;
      assert n in Live(s.sessions);
      EmissionAppended(s.emitted, DetachedFromTarget(n));
      DropLive(s.sessions, i);
    }
  }

  lemma ChildrenInv(s: State, t: Tab, change: ChildChange)
    requires Inv(s)
    ensures Inv(Children(s, t, change)) && Live(Children(s, t, change).sessions) == Live(s.sessions)
  {
    var i := IndexOf(s.sessions, t);
    if i < |s.sessions| {
      var ss := Children(s, t, change).sessions;
      assert forall j | 0 <= j < |ss| :: ss[j].number == s.sessions[j].number && ss[j].tab == s.sessions[j].tab;
    }
  }

  lemma StepInv(s: State, e: Event)
    requires Inv(s)
    ensures Inv(Step(s, e))
  {
    match e {
      case TabRemoved(t) => DetachInv(s.(known := s.known - {t}), t);
      case ChildEvent(t, change) => ChildrenInv(s, t, change);
      case DebuggerDetach(t) => DetachInv(s, t);
      case AttachDone(t, ok) => EndAttachInv(s, t, ok);
      case _ =>
    }
  }

  lemma {:induction false} EveryRunInv(es: seq<Event>)
    ensures Inv(Run(es))
  {
    if es != [] {
      EveryRunInv(es[..|es| - 1]);
      StepInv(Run(es[..|es| - 1]), es[|es| - 1]);
    }
  }

  // ----- Announced and live sessions agree exactly without overlap -------------------------

  ghost predicate Balanced(s: State) {
    Standing(s.emitted) == Live(s.sessions)
  }

  /** An attach of a tab finishes after another attach of the same tab. */
  predicate Overwrites(s: State, e: Event) {
    e.AttachDone? && e.ok && e.tab in s.pending && Has(s, e.tab)
  }

  /** Announced, never withdrawn, and not held by any tab any more. */
  ghost predicate Orphaned(s: State, n: nat) {
    n in Standing(s.emitted) && n !in Live(s.sessions) && n < s.nextId
  }

  /** How one event moves the announced and the live numbers. */
  datatype Move = Same | Withdrawn(n: nat) | Added(n: nat) | Replaced(n: nat, new_: nat)

  ghost predicate Moves(s: State, v: State, m: Move) {
    && v.nextId >= s.nextId
    && match m
       case Same => Live(v.sessions) == Live(s.sessions) && v.emitted == s.emitted
       case Withdrawn(n) =>
         n in Live(s.sessions) && Live(v.sessions) == Live(s.sessions) - {n} && v.emitted == s.emitted + [DetachedFromTarget(n)]
       case Added(n) =>
         n == s.nextId && Live(v.sessions) == Live(s.sessions) + {n} && v.emitted == s.emitted + [AttachedToTarget(n)]
       case Replaced(n, new_) =>
         n in Live(s.sessions) && new_ == s.nextId && Live(v.sessions) == Live(s.sessions) - {n} + {new_}
         && v.emitted == s.emitted + [AttachedToTarget(new_)]
  }

  lemma DetachMoves(s: State, t: Tab) returns (m: Move)
    requires Inv(s)
    ensures Moves(s, DetachTab(s, t), m) && !m.Replaced?
  {
    DetachInv(s, t);
    m := Same;
    if Has(s, t) {
      DropLive(s.sessions, IndexOf(s.sessions, t));
      m := Withdrawn(s.sessions[IndexOf(s.sessions, t)].number);
    }
  }

  lemma AttachMoves(s: State, t: Tab) returns (m: Move)
    requires Inv(s) && t in s.pending
    ensures Moves(s, EndAttach(s, t, true), m) && (m.Replaced? <==> Has(s, t))
  {
    EndAttachInv(s, t, true);
    PutLive(s.sessions, Session(t, s.nextId, {}));
    m := if Has(s, t) then Replaced(s.sessions[IndexOf(s.sessions, t)].number, s.nextId) else Added(s.nextId);
  }

  predicate TouchesSessions(e: Event) {
    e.TabRemoved? || e.DebuggerDetach? || e.ChildEvent? || e.AttachDone?
  }

  lemma OtherEvents(s: State, e: Event)
    requires !TouchesSessions(e)
    ensures
      var v := Step(s, e);
      v.sessions == s.sessions && v.emitted == s.emitted && v.nextId == s.nextId
  {
  }

  lemma StepMoves(s: State, e: Event) returns (m: Move)
    requires Inv(s)
    ensures Moves(s, Step(s, e), m) && (m.Replaced? <==> Overwrites(s, e))
  {
    m := Same;
    match e {
      case TabRemoved(t) => m := DetachMoves(s.(known := s.known - {t}), t);
      case DebuggerDetach(t) => m := DetachMoves(s, t);
      case ChildEvent(t, change) => ChildrenInv(s, t, change);
      case AttachDone(t, ok) =>
        if t in s.pending && ok {
          m := AttachMoves(s, t);
        }
      case _ => OtherEvents(s, e);
    }
  }

  lemma MoveBalance(s: State, v: State, m: Move, orphan: nat)
    requires Live(s.sessions) <= Standing(s.emitted) && (forall n | n in Live(s.sessions) :: n < s.nextId)
    requires Moves(s, v, m)
    ensures Balanced(s) && !m.Replaced? ==> Balanced(v)
    ensures Orphaned(s, orphan) ==> Orphaned(v, orphan)
    ensures m.Replaced? ==> Orphaned(v, m.n)
  {
    match m {
      case Same =>
      case Withdrawn(n) => EmissionAppended(s.emitted, DetachedFromTarget(n));
      case Added(n) => EmissionAppended(s.emitted, AttachedToTarget(n));
      case Replaced(_, new_) => EmissionAppended(s.emitted, AttachedToTarget(new_));
    }
  }

  ghost predicate Torn(s: State) {
    exists n :: Orphaned(s, n)
  }

  lemma StepBalance(s: State, e: Event)
    requires Inv(s) && (Balanced(s) || Torn(s))
    ensures Balanced(Step(s, e)) <==> Balanced(s) && !Overwrites(s, e)
    ensures Balanced(Step(s, e)) || Torn(Step(s, e))
  {
    var m := StepMoves(s, e);
    var orphan :| Torn(s) ==> Orphaned(s, orphan);
    MoveBalance(s, Step(s, e), m, orphan);
  }

  ghost predicate NoOverlap(es: seq<Event>) {
    forall k | 0 <= k < |es| :: !Overwrites(Run(es[..k]), es[k])
  }

  lemma NoOverlapLast(front: seq<Event>, e: Event)
    ensures NoOverlap(front + [e]) <==> NoOverlap(front) && !Overwrites(Run(front), e)
  {
    var es := front + [e];
    assert forall k | 0 <= k < |front| :: front[..k] == es[..k] && front[k] == es[k];
    assert es[..|front|] == front && es[|front|] == e;
  }

  /** The client's view and the live sessions agree if and only if no attach overtook another of its tab. */
  lemma {:induction false} BalancedIffNoOverlap(es: seq<Event>)
    ensures Balanced(Run(es)) <==> NoOverlap(es)
    ensures Balanced(Run(es)) || Torn(Run(es))
  {
    if es != [] {
      var front, e := es[..|es| - 1], es[|es| - 1];
      BalancedIffNoOverlap(front);
      EveryRunInv(front);
      StepBalance(Run(front), e);
      assert front + [e] == es;
      NoOverlapLast(front, e);
    }
  }

  /** A client asks twice for a target in the same tab, and both attaches go through. */
  const OverlappingAttaches := [Connect, TargetCreated(1), TargetCreated(1), AttachDone(1, true), AttachDone(1, true)]

  lemma RunLast(es: seq<Event>, e: Event)
    ensures Run(es + [e]) == Step(Run(es), e)
  {
    assert (es + [e])[..|es|] == es;
  }

  lemma BothAttachesPending()
    ensures
      var s := Run(OverlappingAttaches[..3]);
      s.pending == multiset{1, 1} && s.sessions == [] && s.emitted == [] && s.client && s.nextId == 1
  {
    var es := OverlappingAttaches;
    assert es[..1] == [] + [es[0]] && es[..2] == es[..1] + [es[1]] && es[..3] == es[..2] + [es[2]];
    RunLast([], es[0]);
    RunLast(es[..1], es[1]);
    RunLast(es[..2], es[2]);
  }

  lemma FirstAttachDone(s: State)
    requires s.pending == multiset{1, 1} && s.sessions == [] && s.emitted == [] && s.client && s.nextId == 1
    ensures
      var v := EndAttach(s, 1, true);
      && v.sessions == [Session(1, 1, {})] && v.emitted == [AttachedToTarget(1)] && v.pending == multiset{1}
      && v.client && v.nextId == 2
  {
  }

  lemma SecondAttachDone(s: State)
    requires s.sessions == [Session(1, 1, {})] && s.emitted == [AttachedToTarget(1)] && s.pending == multiset{1}
    requires s.client && s.nextId == 2
    ensures
      var v := EndAttach(s, 1, true);
      v.sessions == [Session(1, 2, {})] && v.emitted == [AttachedToTarget(1)] + [AttachedToTarget(2)] && v.nextId == 3
  {
    assert IndexOf(s.sessions, 1) == 0;
  }

  lemma BothAttachesDone()
    ensures
      var s := Run(OverlappingAttaches);
      s.emitted == [AttachedToTarget(1)] + [AttachedToTarget(2)] && s.sessions == [Session(1, 2, {})] && s.nextId == 3
  {
    var es := OverlappingAttaches;
    BothAttachesPending();
    assert es[..4] == es[..3] + [es[3]] && es == es[..4] + [es[4]];
    RunLast(es[..3], es[3]);
    RunLast(es[..4], es[4]);
    FirstAttachDone(Run(es[..3]));
    SecondAttachDone(Run(es[..4]));
  }

  /** The first session stays announced although no tab holds it. */
  lemma OverlapLeavesOrphan()
    ensures Orphaned(Run(OverlappingAttaches), 1) && Torn(Run(OverlappingAttaches)) && !Balanced(Run(OverlappingAttaches))
  {
    BothAttachesDone();
    EmissionAppended([], AttachedToTarget(1));
    assert [] + [AttachedToTarget(1)] == [AttachedToTarget(1)];
    EmissionAppended([AttachedToTarget(1)], AttachedToTarget(2));
    assert Orphaned(Run(OverlappingAttaches), 1);
  }

  /** At most one attach of each tab is under way. */
  ghost predicate OneAtATime(s: State) {
    forall t | t in s.pending :: s.pending[t] == 1
  }

  ghost predicate Separate(s: State) {
    forall t | t in s.pending :: !Has(s, t)
  }

  lemma EndAttachSeparate(s: State, t: Tab, ok: bool)
    requires OneAtATime(s) && Separate(s)
    ensures Separate(EndAttach(s, t, ok))
  {
    var v := EndAttach(s, t, ok);
    if t in s.pending {
      forall u | u in v.pending ensures !Has(v, u) {
        assert u in s.pending && u != t;
        assert forall j | 0 <= j < |s.sessions| :: s.sessions[j].tab != u;
      }
    }
  }

  lemma DetachSeparate(s: State, t: Tab)
    requires Separate(s)
    ensures Separate(DetachTab(s, t))
  {
    var i, v := IndexOf(s.sessions, t), DetachTab(s, t);
    if i < |s.sessions| {
      forall u | u in v.pending ensures !Has(v, u) {
        assert forall j | 0 <= j < |s.sessions| :: s.sessions[j].tab != u;
      }
    }
  }

  lemma StepSeparate(s: State, e: Event)
    requires OneAtATime(s) && Separate(s)
    ensures Separate(Step(s, e)) && !Overwrites(s, e)
  {
    match e {
      case TabRemoved(t) => DetachSeparate(s.(known := s.known - {t}), t);
      case DebuggerDetach(t) => DetachSeparate(s, t);
      case AttachDone(t, ok) => EndAttachSeparate(s, t, ok);
      case ChildEvent(t, change) => ChildrenSeparate(s, t, change);
      case EnableAutoAttach => BeginSeparate(s.(autoAttach := true), s.known, 0);
      case TabCreated(t) => BeginSeparate(s.(known := s.known + {t}), {}, t);
      case TargetCreated(t) => BeginSeparate(s.(known := s.known + {t}), {}, t);
      case Connect =>
    }
  }

  lemma ChildrenSeparate(s: State, t: Tab, change: ChildChange)
    requires Separate(s)
    ensures Separate(Children(s, t, change))
  {
    var v := Children(s, t, change);
    forall u | u in v.pending ensures !Has(v, u) {
      assert forall j | 0 <= j < |s.sessions| :: s.sessions[j].tab != u;
    }
  }

  lemma BeginSeparate(s: State, tabs: set<Tab>, t: Tab)
    requires Separate(s)
    ensures Separate(BeginAttach(s, t)) && Separate(BeginAll(s, tabs))
  {
  }

  /** At every step of the run at most one attach of each tab is under way. */
  ghost predicate OneAtATimeThroughout(es: seq<Event>) {
    forall k | 0 <= k <= |es| :: OneAtATime(Run(es[..k]))
  }

  lemma OneAtATimeBefore(front: seq<Event>, e: Event)
    requires OneAtATimeThroughout(front + [e])
    ensures OneAtATimeThroughout(front) && OneAtATime(Run(front))
  {
    var es := front + [e];
    forall k | 0 <= k <= |front| ensures OneAtATime(Run(front[..k])) {
      assert front[..k] == es[..k] && OneAtATime(Run(es[..k]));
    }
    assert front[..|front|] == front;
  }

  /** Attaches that do not overlap per tab never overtake one another. */
  lemma {:induction false} SeparateAttachesNeverOverlap(es: seq<Event>)
    requires OneAtATimeThroughout(es)
    ensures Separate(Run(es)) && NoOverlap(es)
  {
    if es != [] {
      var front, e := es[..|es| - 1], es[|es| - 1];
      assert es == front + [e];
      OneAtATimeBefore(front, e);
      SeparateAttachesNeverOverlap(front);
      RunLast(front, e);
      StepSeparate(Run(front), e);
      NoOverlapLast(front, e);
    }
  }

  /** So the client's view and the live sessions agree. */
  lemma SeparateAttachesStayBalanced(es: seq<Event>)
    requires OneAtATimeThroughout(es)
    ensures NoOverlap(es) && Balanced(Run(es))
  {
    SeparateAttachesNeverOverlap(es);
    BalancedIffNoOverlap(es);
  }

  // ----- Routing -------------------------------------------------------------------------------

  predicate Owns(x: Session, id: string) {
    Name(x.number) == id || id in x.children
  }

  /** Child ids are unique across tabs and none looks like a relay id in use. */
  ghost predicate UniqueChildren(ss: seq<Session>) {
    && (forall i, j | 0 <= i < j < |ss| :: ss[i].children !! ss[j].children)
    && (forall i, j | 0 <= i < |ss| && 0 <= j < |ss| :: Name(ss[i].number) !in ss[j].children)
  }

  datatype Destination = NoTab | Destination(tab: Tab, child: Option<string>)

  /** The command goes to the tab itself under a relay id, and to the child session under a child id. */
  ghost predicate Reaches(x: Session, id: string, to: Destination)
    requires to.Destination?
  {
    && x.tab == to.tab && Owns(x, id)
    && to.child == if Name(x.number) == id then None else Some(id)
  }

  /** sendCommand's choice of tab: a relay id first, then a child id. */
  method SendCommand(ss: seq<Session>, id: string) returns (to: Destination)
    ensures to.NoTab? <==> forall i | 0 <= i < |ss| :: !Owns(ss[i], id)
    ensures to.Destination? ==> exists i :: 0 <= i < |ss| && Reaches(ss[i], id, to)
  {
    for i := 0 to |ss|
      invariant forall j | 0 <= j < i :: Name(ss[j].number) != id
    {
      if Name(ss[i].number) == id {
        return Destination(ss[i].tab, None);
      }
    }
    for i := 0 to |ss|
      invariant forall j | 0 <= j < i :: id !in ss[j].children
    {
      if id in ss[i].children {
        return Destination(ss[i].tab, Some(id));
      }
    }
    return NoTab;
  }

  /** With unique child ids at most one tab owns an id, so a command reaches its owner or nobody. */
  lemma OwnerIsUnique(ss: seq<Session>, id: string, i: nat, j: nat)
    requires Injective(ss) && UniqueChildren(ss)
    requires i < |ss| && j < |ss| && Owns(ss[i], id) && Owns(ss[j], id)
    ensures i == j
  {
    if Name(ss[i].number) == id && Name(ss[j].number) == id {
      NameInjective(ss[i].number, ss[j].number);
    }
  }

  // ----- The model object ------------------------------------------------------------------------

  class BrowserModel {
    var client: bool
    var known: set<Tab>
    var sessions: seq<Session>
    var autoAttach: bool
    var nextId: nat
    var pending: multiset<Tab>
    var emitted: seq<Emission>

    function View(): State
      reads this
    {
      State(client, known, sessions, autoAttach, nextId, pending, emitted)
    }

    constructor ()
      ensures View() == Fresh
    {
      client, known, sessions, autoAttach, nextId := false, {}, [], false, 1;
      pending, emitted := multiset{}, [];
    }

    method Say(m: Emission)
      modifies this
      ensures View() == Emit(old(View()), m)
    {
      if client {
        emitted := emitted + [m];
      }
    }

    method StartAttach(t: Tab)
      modifies this
      ensures View() == BeginAttach(old(View()), t)
    {
      if IndexOf(sessions, t) == |sessions| {
        pending := pending + multiset{t};
      }
    }

    method TurnOnAutoAttach()
      requires client
      modifies this
      ensures View() == Step(old(View()), EnableAutoAttach)
    {
      autoAttach := true;
      var left := known;
      while left != {}
        invariant pending + multiset(Free(sessions, left)) == old(pending) + multiset(Free(sessions, known))
        invariant View() == old(View()).(autoAttach := true, pending := pending)
        decreases left
      {
        assert (forall u :: u !in left) ==> left == {};
        var t :| t in left;
        FreeSplit(sessions, left, t);
        StartAttach(t);
        left := left - {t};
      }
      assert Free(sessions, {}) == {};
    }

    method FinishAttach(t: Tab, ok: bool)
      modifies this
      ensures View() == EndAttach(old(View()), t, ok)
    {
      if t !in pending {
        return;
      }
      pending := pending - multiset{t};
      if ok {
        var n := nextId;
        nextId := nextId + 1;
        sessions := PutSession(sessions, Session(t, n, {}));
        Say(AttachedToTarget(n));
      }
    }

    method Detach(t: Tab)
      modifies this
      ensures View() == DetachTab(old(View()), t)
    {
      var i := IndexOf(sessions, t);
      if i == |sessions| {
        return;
      }
      var n := sessions[i].number;
      sessions := sessions[..i] + sessions[i + 1..];
      Say(DetachedFromTarget(n));
    }

    method ChildChanged(t: Tab, change: ChildChange)
      modifies this
      ensures View() == Children(old(View()), t, change)
    {
      var i := IndexOf(sessions, t);
      if i == |sessions| {
        return;
      }
      var children := sessions[i].children;
      match change {
        case ChildAttached(id) => children := children + {id};
        case ChildDetached(id) => children := children - {id};
      }
      sessions := sessions[i := sessions[i].(children := children)];
    }

    method Take(e: Event)
      modifies this
      ensures View() == Step(old(View()), e)
    {
      match e {
        case Connect => client := true;
        case TabCreated(t) =>
          known := known + {t};
          if autoAttach {
            StartAttach(t);
          }
        case TabRemoved(t) =>
          known := known - {t};
          Detach(t);
        case ChildEvent(t, change) => ChildChanged(t, change);
        case DebuggerDetach(t) => Detach(t);
        case EnableAutoAttach =>
          if client {
            TurnOnAutoAttach();
          }
        case TargetCreated(t) =>
          if client {
            known := known + {t};
            StartAttach(t);
          }
        case AttachDone(t, ok) => FinishAttach(t, ok);
      }
    }

    method Drive(es: seq<Event>)
      requires View() == Fresh
      modifies this
      ensures View() == Run(es) && Inv(View())
      ensures Balanced(View()) <==> NoOverlap(es)
    {
      for i := 0 to |es|
        invariant View() == Run(es[..i])
      {
        assert es[..i + 1][..i] == es[..i];
        Take(es[i]);
      }
      assert es[..|es|] == es;
      EveryRunInv(es);
      BalancedIffNoOverlap(es);
    }

    /** Once the ids of child sessions are unique, a command reaches the one tab that owns its id, or fails. */
    method Route(id: string) returns (to: Destination)
      requires Inv(View()) && UniqueChildren(sessions)
      ensures to.NoTab? <==> forall i | 0 <= i < |sessions| :: !Owns(sessions[i], id)
      ensures to.Destination? ==>
        exists i :: 0 <= i < |sessions| && Reaches(sessions[i], id, to)
                    && forall j | 0 <= j < |sessions| && Owns(sessions[j], id) :: j == i
    {
      to := SendCommand(sessions, id);
      if to.Destination? {
        ghost var i :| 0 <= i < |sessions| && Reaches(sessions[i], id, to);
        forall j | 0 <= j < |sessions| && Owns(sessions[j], id) ensures j == i {
          OwnerIsUnique(sessions, id, i, j);
        }
      }
    }
  }
}
