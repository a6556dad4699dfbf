/**
 Ownership rows and the session-storage writes behind them.  Every change of the rows
 chains one write to a shared promise tail; a write is issued once the promise it was
 chained to has settled, Chrome may settle any issued write at any time, and a debugger
 is attached only after the write made for that attach has succeeded.
 */
module Ownership {

  type Route = string
  type Tab = int
  type Socket = nat

  datatype Row = Row(group: int, tabs: seq<Tab>)

  /** A JavaScript Map: entries in insertion order, one per route. */
  type Table = seq<(Route, Row)>

  function IndexOf(t: Table, r: Route): (i: nat)
    ensures i <= |t| && (i < |t| ==> t[i].0 == r)
    ensures forall j | 0 <= j < i :: t[j].0 != r
  {
    if t == [] then 0 else if t[0].0 == r then 0 else 1 + IndexOf(t[1..], r)
  }

  function Put(t: Table, r: Route, row: Row): Table {
    var i := IndexOf(t, r);
    if i < |t| then t[i := (r, row)] else t + [(r, row)]
  }

  function Remove(t: Table, r: Route): Table {
    var i := IndexOf(t, r);
    if i < |t| then t[..i] + t[i + 1..] else t
  }

  function Lookup(t: Table, r: Route): Row {
    var i := IndexOf(t, r);
    if i < |t| then t[i].1 else Row(-1, [])
  }

  function Values(t: Table): seq<Row> {
    seq(|t|, i requires 0 <= i < |t| => t[i].1)
  }

  ghost predicate Distinct(t: Table) {
    forall i, j | 0 <= i < j < |t| :: t[i].0 != t[j].0
  }

  function Including(tabs: seq<Tab>, tab: Tab): seq<Tab> {
    if tab in tabs then tabs else tabs + [tab]
  }

  /** An attach command that waits for its write. */
  datatype Ticket = Ticket(route: Route, socket: Socket, tab: Tab)

  datatype Attach = Attach(route: Route, socket: Socket, tab: Tab, write: nat)

  /** A write is chained, then issued to Chrome, then settled with or without success. */
  datatype Status = Waiting | Issued | Settled(ok: bool)

  /** `after` is the write whose promise this one was chained to, or -1 for a resolved one. */
  datatype Write = Write(table: Table, after: int, status: Status)

  datatype State = State(
    table: Table,
    live: map<Route, Socket>,
    nextSocket: Socket,
    writes: seq<Write>,           // in request order
    tail: int,                    // storageTail: the write it stands for
    settled: seq<nat>,            // writes in the order in which Chrome settled them
    stored: seq<Row>,             // what session storage holds
    tickets: map<nat, Ticket>,    // attach commands, by the write they wait for
    attaches: seq<Attach>)        // attach calls handed to Chrome

  /** Write 0 is the recovery of the previous session, which ends by storing no rows. */
  function Init(left: seq<Row>): State {
    State([], map[], 0, [Write([], -1, Waiting)], 0, [], left, map[], [])
  }

  /** saveOwnership: the rows are read now, the write is chained to the tail and becomes the tail. */
  function Save(s: State): State {
    s.(writes := s.writes + [Write(s.table, s.tail, Waiting)], tail := |s.writes|)
  }

  function OpenRoute(s: State, r: Route): State {
    if r in s.live then s else s.(live := s.live[r := s.nextSocket], nextSocket := s.nextSocket + 1)
  }

  function ReleaseRoute(s: State, r: Route): State {
    if r !in s.live then s else
      Save(Save(s.(live := s.live - {r}, table := Remove(s.table, r))))
  }

  /** The group's ongroup, which does not ask whether its route is still open. */
  function OnGroup(s: State, r: Route, group: int, tabs: seq<Tab>): State {
    Save(s.(table := Put(s.table, r, Row(group, tabs))))
  }

  /** The relay's beforeAttach, up to its await. */
  function BeforeAttach(s: State, r: Route, tab: Tab): State {
    if r !in s.live then s else
      var old_ := Lookup(s.table, r);
      var saved := Save(s.(table := Put(s.table, r, Row(old_.group, Including(old_.tabs, tab)))));
      saved.(tickets := saved.tickets[|s.writes| := Ticket(r, s.live[r], tab)])
  }

  predicate IsSettled(s: State, k: int) {
    0 <= k < |s.writes| && s.writes[k].status.Settled?
  }

  /** The promise the write was chained to has settled. */
  predicate Ready(s: State, k: nat) {
    k < |s.writes| && s.writes[k].status == Waiting && (s.writes[k].after < 0 || IsSettled(s, s.writes[k].after))
  }

  function Issue(s: State, k: nat): State {
    if !Ready(s, k) then s else s.(writes := s.writes[k := s.writes[k].(status := Issued)])
  }

  /** Chrome finishes some issued write, with or without success. */
  function Settle(s: State, k: nat, ok: bool): State {
    if k >= |s.writes| || s.writes[k].status != Issued then s else
      s.(writes := s.writes[k := s.writes[k].(status := Settled(ok))], settled := s.settled + [k],
         stored := if ok then Values(s.writes[k].table) else s.stored)
  }

  /** An attach command resumes once its write has settled. */
  function Resume(s: State, write: nat): State {
    if write !in s.tickets || !IsSettled(s, write) then s else
      var t := s.tickets[write];
      var resumed := s.(tickets := s.tickets - {write});
      if s.writes[write].status.ok && t.route in s.live && s.live[t.route] == t.socket
      then resumed.(attaches := s.attaches + [Attach(t.route, t.socket, t.tab, write)])
      else resumed
  }

  datatype Event =
    | Opened(route: Route)
    | Released(route: Route)
    | Grouped(route: Route, group: int, tabs: seq<Tab>)
    | AttachAsked(route: Route, tab: Tab)
    | WriteIssued(write: nat)
    | WriteSettled(write: nat, ok: bool)
    | Resumed(write: nat)

  function Step(s: State, e: Event): State {
    match e
    case Opened(r) => OpenRoute(s, r)
    case Released(r) => ReleaseRoute(s, r)
    case Grouped(r, group, tabs) => OnGroup(s, r, group, tabs)
    case AttachAsked(r, tab) => BeforeAttach(s, r, tab)
    case WriteIssued(k) => Issue(s, k)
    case WriteSettled(k, ok) => Settle(s, k, ok)
    case Resumed(write) => Resume(s, write)
  }

  function Run(left: seq<Row>, es: seq<Event>): State {
    if es == [] then Init(left) else Step(Run(left, es[..|es| - 1]), es[|es| - 1])
  }

  // ----- The promise tail ------------------------------------------------------------------

  /** Every write is chained to the one requested before it. */
  ghost predicate Chained(s: State) {
    && s.writes != [] && s.tail == |s.writes| - 1
    && forall k | 0 <= k < |s.writes| :: s.writes[k].after == k - 1
  }

  /** Whatever has been issued has only settled writes before it. */
  ghost predicate Pipelined(ws: seq<Write>) {
    forall j, k | 0 <= j < k < |ws| && ws[k].status != Waiting :: ws[j].status.Settled?
  }

  ghost predicate InOrder(s: State) {
    && |s.settled| <= |s.writes|
    && (forall i | 0 <= i < |s.settled| :: s.settled[i] == i)
    && (forall k | 0 <= k < |s.writes| :: s.writes[k].status.Settled? <==> k < |s.settled|)
  }

  ghost predicate QueueInv(s: State) {
    Chained(s) && Pipelined(s.writes) && InOrder(s)
  }

  ghost predicate Good(ws: seq<Write>, k: int) {
    0 <= k < |ws| && ws[k].status == Settled(true)
  }

  /** The last request among the writes that succeeded. */
  ghost predicate NewestGood(ws: seq<Write>, g: int) {
    Good(ws, g) && forall k | g < k < |ws| :: !Good(ws, k)
  }

  ghost predicate StorageInv(s: State, left: seq<Row>) {
    && (forall g | NewestGood(s.writes, g) :: s.stored == Values(s.writes[g].table))
    && ((forall g :: !Good(s.writes, g)) ==> s.stored == left)
  }

  /** The newest request was made for the present rows. */
  ghost predicate TableInv(s: State) {
    s.writes != [] && s.writes[|s.writes| - 1].table == s.table && Distinct(s.table)
  }

  lemma SaveQueue(s: State)
    requires QueueInv(s)
    ensures QueueInv(Save(s))
  {
  }

  lemma SaveStorage(s: State, left: seq<Row>)
    requires StorageInv(s, left)
    ensures StorageInv(Save(s), left)
  {
    var v := Save(s);
    assert forall k :: Good(v.writes, k) <==> Good(s.writes, k);
    assert forall g | NewestGood(v.writes, g) :: NewestGood(s.writes, g);
  }

  lemma IssueQueue(s: State, k: nat)
    requires QueueInv(s)
    ensures QueueInv(Issue(s, k))
  {
    if Ready(s, k) {
      assert k > 0 ==> s.writes[k - 1].status.Settled?;
    }
  }

  lemma IssueStorage(s: State, k: nat, left: seq<Row>)
    requires StorageInv(s, left)
    ensures StorageInv(Issue(s, k), left)
  {
    var v := Issue(s, k);
    assert forall g :: Good(v.writes, g) <==> Good(s.writes, g);
    assert forall g | NewestGood(v.writes, g) :: NewestGood(s.writes, g);
  }

  /** An issued write is the first that has not settled. */
  lemma IssuedIsFirst(s: State, k: nat)
    requires QueueInv(s) && k < |s.writes| && s.writes[k].status == Issued
    ensures k == |s.settled| && forall j | k < j < |s.writes| :: s.writes[j].status == Waiting
  {
    assert k > 0 ==> s.writes[k - 1].status.Settled?;
  }

  lemma SettleQueue(s: State, k: nat, ok: bool)
    requires QueueInv(s)
    ensures QueueInv(Settle(s, k, ok))
  {
    if k < |s.writes| && s.writes[k].status == Issued {
      IssuedIsFirst(s, k);
    }
  }

  lemma SettleStorage(s: State, k: nat, ok: bool, left: seq<Row>)
    requires QueueInv(s) && StorageInv(s, left)
    ensures StorageInv(Settle(s, k, ok), left)
  {
    if k < |s.writes| && s.writes[k].status == Issued {
      IssuedIsFirst(s, k);
      var v := Settle(s, k, ok);
      assert forall g :: Good(v.writes, g) <==> Good(s.writes, g) || (g == k && ok);
      if ok {
        assert Good(v.writes, k);
        assert forall g | NewestGood(v.writes, g) :: g == k;
      } else {
        assert forall g | NewestGood(v.writes, g) :: NewestGood(s.writes, g);
      }
    }
  }

  lemma StepQueue(s: State, e: Event)
    requires QueueInv(s)
    ensures QueueInv(Step(s, e))
  {
    match e {
      case Released(r) =>
        var removed := s.(live := s.live - {r}, table := Remove(s.table, r));
        SaveQueue(removed);
        SaveQueue(Save(removed));
      case Grouped(r, group, tabs) => SaveQueue(s.(table := Put(s.table, r, Row(group, tabs))));
      case AttachAsked(r, tab) =>
        var row := Row(Lookup(s.table, r).group, Including(Lookup(s.table, r).tabs, tab));
        SaveQueue(s.(table := Put(s.table, r, row)));
      case WriteIssued(k) => IssueQueue(s, k);
      case WriteSettled(k, ok) => SettleQueue(s, k, ok);
      case _ =>
    }
  }

  lemma StepStorage(s: State, e: Event, left: seq<Row>)
    requires QueueInv(s) && StorageInv(s, left)
    ensures StorageInv(Step(s, e), left)
  {
    match e {
      case Released(r) =>
        var removed := s.(live := s.live - {r}, table := Remove(s.table, r));
        SaveStorage(removed, left);
        SaveStorage(Save(removed), left);
      case Grouped(r, group, tabs) => SaveStorage(s.(table := Put(s.table, r, Row(group, tabs))), left);
      case AttachAsked(r, tab) =>
        var row := Row(Lookup(s.table, r).group, Including(Lookup(s.table, r).tabs, tab));
        SaveStorage(s.(table := Put(s.table, r, row)), left);
      case WriteIssued(k) => IssueStorage(s, k, left);
      case WriteSettled(k, ok) => SettleStorage(s, k, ok, left);
      case _ =>
    }
  }

  lemma TableStaysDistinct(t: Table, r: Route, row: Row)
    requires Distinct(t)
    ensures Distinct(Put(t, r, row)) && Distinct(Remove(t, r))
  {
    var i, rest := IndexOf(t, r), Remove(t, r);
    if i < |t| {
      assert forall j | 0 <= j < |rest| :: rest[j] == t[if j < i then j else j + 1];
    }
  }

  lemma StepTable(s: State, e: Event)
    requires TableInv(s)
    ensures TableInv(Step(s, e))
  {
    match e {
      case Released(r) => TableStaysDistinct(s.table, r, Row(0, []));
      case Grouped(r, group, tabs) => TableStaysDistinct(s.table, r, Row(group, tabs));
      case AttachAsked(r, tab) =>
        TableStaysDistinct(s.table, r, Row(Lookup(s.table, r).group, Including(Lookup(s.table, r).tabs, tab)));
      case _ =>
    }
  }

  // ----- Attach commands -------------------------------------------------------------------

  ghost predicate Lists(t: Table, r: Route, tab: Tab) {
    exists i :: 0 <= i < |t| && t[i].0 == r && tab in t[i].1.tabs
  }

  ghost predicate Backed(ws: seq<Write>, write: nat, r: Route, tab: Tab) {
    write < |ws| && Lists(ws[write].table, r, tab)
  }

  ghost predicate TicketInv(s: State) {
    && (forall k | k in s.tickets :: Backed(s.writes, k, s.tickets[k].route, s.tickets[k].tab))
    && (forall i | 0 <= i < |s.attaches| ::
          Backed(s.writes, s.attaches[i].write, s.attaches[i].route, s.attaches[i].tab)
          && Good(s.writes, s.attaches[i].write) && s.attaches[i].write !in s.tickets)
    && (forall i, j | 0 <= i < j < |s.attaches| :: s.attaches[i].write != s.attaches[j].write)
  }

  /** Writes keep their rows and their outcome, once they have one. */
  ghost predicate Later(ws: seq<Write>, vs: seq<Write>) {
    && |ws| <= |vs|
    && forall k | 0 <= k < |ws| :: vs[k].table == ws[k].table && (ws[k].status.Settled? ==> vs[k].status == ws[k].status)
  }

  lemma PutLists(t: Table, r: Route, row: Row, tab: Tab)
    requires tab in row.tabs && Distinct(t)
    ensures Lists(Put(t, r, row), r, tab) && Distinct(Put(t, r, row))
  {
    var i := IndexOf(t, r);
    assert Put(t, r, row)[i] == (r, row);
  }

  lemma LaterKeepsTickets(s: State, v: State)
    requires TicketInv(s) && Later(s.writes, v.writes) && v.tickets == s.tickets && v.attaches == s.attaches
    ensures TicketInv(v)
  {
    assert forall k: nat, r, tab | Backed(s.writes, k, r, tab) :: Backed(v.writes, k, r, tab);
    assert forall k | Good(s.writes, k) :: Good(v.writes, k);
  }

  lemma TicketBacked(s: State, r: Route, tab: Tab)
    requires TableInv(s) && TicketInv(s) && r in s.live
    ensures TicketInv(BeforeAttach(s, r, tab))
  {
    var v, row := BeforeAttach(s, r, tab), Lookup(s.table, r);
    LaterKeepsTickets(s, v.(tickets := s.tickets));
    PutLists(s.table, r, Row(row.group, Including(row.tabs, tab)), tab);
    assert v.writes[|s.writes|].table == Put(s.table, r, Row(row.group, Including(row.tabs, tab)));
    assert Backed(v.writes, |s.writes|, r, tab);
  }

  lemma ResumeTickets(s: State, write: nat)
    requires TicketInv(s)
    ensures TicketInv(Resume(s, write))
  {
  }

  lemma SaveLater(s: State)
    ensures Later(s.writes, Save(s).writes) && Later(s.writes, Save(Save(s)).writes)
  {
  }

  lemma ChromeLater(s: State, k: nat, ok: bool)
    ensures Later(s.writes, Issue(s, k).writes) && Later(s.writes, Settle(s, k, ok).writes)
  {
  }

  lemma WriteTickets(s: State, k: nat, ok: bool)
    requires TicketInv(s)
    ensures TicketInv(Issue(s, k)) && TicketInv(Settle(s, k, ok))
  {
    ChromeLater(s, k, ok);
    LaterKeepsTickets(s, Issue(s, k));
    LaterKeepsTickets(s, Settle(s, k, ok));
  }

  lemma RowTickets(s: State, live: map<Route, Socket>, table: Table)
    requires TicketInv(s)
    ensures var v := s.(live := live, table := table); TicketInv(Save(v)) && TicketInv(Save(Save(v)))
  {
    var v := s.(live := live, table := table);
    SaveLater(v);
    LaterKeepsTickets(s, Save(v));
    LaterKeepsTickets(s, Save(Save(v)));
  }

  lemma StepTickets(s: State, e: Event)
    requires TableInv(s) && TicketInv(s)
    ensures TicketInv(Step(s, e))
  {
    match e {
      case Opened(r) => LaterKeepsTickets(s, OpenRoute(s, r));
      case Released(r) => RowTickets(s, s.live - {r}, Remove(s.table, r));
      case Grouped(r, group, tabs) => RowTickets(s, s.live, Put(s.table, r, Row(group, tabs)));
      case AttachAsked(r, tab) =>
        if r in s.live {
          TicketBacked(s, r, tab);
        }
      case WriteIssued(k) => WriteTickets(s, k, false);
      case WriteSettled(k, ok) => WriteTickets(s, k, ok);
      case Resumed(write) => ResumeTickets(s, write);
    }
  }

  ghost predicate Inv(s: State, left: seq<Row>) {
    QueueInv(s) && StorageInv(s, left) && TableInv(s) && TicketInv(s)
  }

  lemma StepInv(s: State, e: Event, left: seq<Row>)
    requires Inv(s, left)
    ensures Inv(Step(s, e), left)
  {
    StepQueue(s, e);
    StepStorage(s, e, left);
    StepTable(s, e);
    StepTickets(s, e);
  }

  lemma {:induction false} EveryRunInv(left: seq<Row>, es: seq<Event>)
    ensures Inv(Run(left, es), left)
  {
    if es != [] {
      EveryRunInv(left, es[..|es| - 1]);
      StepInv(Run(left, es[..|es| - 1]), es[|es| - 1], left);
    }
  }

  /** A write that is ready is issued and succeeds. */
  lemma WriteSucceeds(s: State, k: nat)
    requires Ready(s, k)
    ensures
      var v := Settle(Issue(s, k), k, true);
      && v.writes == s.writes[k := s.writes[k].(status := Settled(true))]
      && v.table == s.table && v.live == s.live && v.tickets == s.tickets
  {
    assert Issue(s, k).writes[k].status == Issued;
  }

  // ----- Theorems ------------------------------------------------------------------------

  /** Whatever Chrome does, the tail lets at most one write be under way, the oldest unsettled one. */
  lemma OneWriteAtATime(left: seq<Row>, es: seq<Event>, j: nat, k: nat)
    requires j < |Run(left, es).writes| && k < |Run(left, es).writes|
    requires Run(left, es).writes[j].status == Issued
    ensures j == |Run(left, es).settled|
    ensures j < k ==> Run(left, es).writes[k].status == Waiting
    ensures k < j ==> Run(left, es).writes[k].status.Settled?
  {
    EveryRunInv(left, es);
    IssuedIsFirst(Run(left, es), j);
  }

  /** Writes settle in the order in which they were requested. */
  lemma SettledInRequestOrder(left: seq<Row>, es: seq<Event>)
    ensures
      var s := Run(left, es);
      && |s.settled| <= |s.writes|
      && (forall i | 0 <= i < |s.settled| :: s.settled[i] == i)
      && (forall k | 0 <= k < |s.writes| :: s.writes[k].status.Settled? <==> k < |s.settled|)
  {
    EveryRunInv(left, es);
  }

  /** Storage holds the rows of the newest request that succeeded, or what was left there. */
  lemma StorageIsNewestWrite(left: seq<Row>, es: seq<Event>, g: nat)
    ensures NewestGood(Run(left, es).writes, g) ==> Run(left, es).stored == Values(Run(left, es).writes[g].table)
    ensures (forall k :: !Good(Run(left, es).writes, k)) ==> Run(left, es).stored == left
  {
    EveryRunInv(left, es);
  }

  /** A drained queue whose last write succeeded stores exactly the current rows. */
  lemma DrainedStoresCurrentRows(left: seq<Row>, es: seq<Event>)
    requires |Run(left, es).settled| == |Run(left, es).writes|
    requires Good(Run(left, es).writes, |Run(left, es).writes| - 1)
    ensures Run(left, es).stored == Values(Run(left, es).table)
  {
    EveryRunInv(left, es);
    assert NewestGood(Run(left, es).writes, |Run(left, es).writes| - 1);
  }

  /** The queue never stalls: its oldest unsettled write is with Chrome or can be issued now. */
  lemma QueueNeverStalls(left: seq<Row>, es: seq<Event>)
    requires |Run(left, es).settled| < |Run(left, es).writes|
    ensures
      var s := Run(left, es);
      s.writes[|s.settled|].status == Issued || Ready(s, |s.settled|)
  {
    EveryRunInv(left, es);
  }

  /** Every attach call has its own write, successful before it and listing its tab under its route. */
  lemma AttachHasItsWrite(left: seq<Row>, es: seq<Event>, i: nat)
    requires i < |Run(left, es).attaches|
    ensures
      var s := Run(left, es);
      var a := s.attaches[i];
      && a.write < |s.writes| && s.writes[a.write].status == Settled(true)
      && Lists(s.writes[a.write].table, a.route, a.tab)
      && forall j | 0 <= j < |s.attaches| && j != i :: s.attaches[j].write != a.write
  {
    EveryRunInv(left, es);
    var s := Run(left, es);
    assert Backed(s.writes, s.attaches[i].write, s.attaches[i].route, s.attaches[i].tab);
  }

  /** At the moment of the call its write has succeeded and the socket that asked is still open. */
  lemma AttachOnOpenRoute(s: State, e: Event)
    requires |Step(s, e).attaches| > |s.attaches|
    ensures
      var a := Step(s, e).attaches[|s.attaches|];
      && e == Resumed(a.write) && a.write in s.tickets && s.tickets[a.write] == Ticket(a.route, a.socket, a.tab)
      && Good(s.writes, a.write)
      && a.route in s.live && s.live[a.route] == a.socket && Step(s, e).live == s.live
  {
  }

  // ----- What each row holds -------------------------------------------------------------------

  lemma FirstIndex(t: Table, r: Route, i: nat)
    requires i < |t| && t[i].0 == r && Distinct(t)
    ensures IndexOf(t, r) == i
  {
    assert IndexOf(t, r) <= i;
  }

  lemma PutRow(t: Table, q: Route, row: Row, r: Route)
    requires Distinct(t)
    ensures Lookup(Put(t, q, row), r) == if r == q then row else Lookup(t, r)
  {
    var after := Put(t, q, row);
    TableStaysDistinct(t, q, row);
    if r == q {
      FirstIndex(after, r, IndexOf(t, q));
    } else if Listed(t, r) {
      FirstIndex(after, r, IndexOf(t, r));
    } else {
      PutListed(t, q, row, r);
      assert IndexOf(after, r) == |after| && IndexOf(t, r) == |t|;
    }
  }

  lemma RemoveRow(t: Table, q: Route, r: Route)
    requires Distinct(t)
    ensures Lookup(Remove(t, q), r) == if r == q then Row(-1, []) else Lookup(t, r)
  {
    var i, k, after := IndexOf(t, q), IndexOf(t, r), Remove(t, q);
    TableStaysDistinct(t, q, Row(-1, []));
    RemoveListed(t, q, r);
    if r != q && k < |t| {
      assert Listed(t, r);
      FirstIndex(after, r, if i < k then k - 1 else k);
    } else {
      assert IndexOf(after, r) == |after|;
    }
  }

  /** The row of a route after a step: reported by its group, extended for an attach, or given up with the route. */
  function RowAfter(s: State, e: Event, r: Route): Row {
    var was := Lookup(s.table, r);
    match e
    case Grouped(q, group, tabs) => if q == r then Row(group, tabs) else was
    case AttachAsked(q, tab) =>
      if q == r && r in s.live then Row(was.group, if tab in was.tabs then was.tabs else was.tabs + [tab]) else was
    case Released(q) => if q == r && r in s.live then Row(-1, []) else was
    case _ => was
  }

  /** Every row holds what was last reported of its route, with the tabs attached since, for as long as the route is open. */
  lemma RowIs(s: State, e: Event, r: Route)
    requires TableInv(s)
    ensures Lookup(Step(s, e).table, r) == RowAfter(s, e, r)
  {
    match e {
      case Grouped(q, group, tabs) => PutRow(s.table, q, Row(group, tabs), r);
      case AttachAsked(q, tab) =>
        PutRow(s.table, q, Row(Lookup(s.table, q).group, Including(Lookup(s.table, q).tabs, tab)), r);
      case Released(q) => RemoveRow(s.table, q, r);
      case _ =>
    }
  }

  // ----- Which routes are open, what is requested and handed over ---------------------------------

  /** A route is open from its opening to its release, each time with a socket of its own. */
  lemma OpenIff(s: State, e: Event, r: Route)
    ensures r in Step(s, e).live <==> e == Opened(r) || (r in s.live && e != Released(r))
    ensures r in Step(s, e).live ==> Step(s, e).live[r] == if r in s.live then s.live[r] else s.nextSocket
  {
  }

  /** Requests per event: a report and an attach on an open route make one, a release two, nothing else any. */
  lemma RequestsMade(s: State, e: Event)
    ensures |Step(s, e).writes| == |s.writes| +
      match e
      case Grouped(_, _, _) => 1
      case AttachAsked(r, _) => if r in s.live then 1 else 0
      case Released(r) => if r in s.live then 2 else 0
      case _ => 0
    ensures forall k | |s.writes| <= k < |Step(s, e).writes| ::
      Step(s, e).writes[k].table == Step(s, e).table && Step(s, e).writes[k].status == Waiting
  {
  }

  /** Storage changes exactly when an issued write succeeds, and then holds the rows of that request. */
  lemma StoredBy(s: State, e: Event)
    ensures
      var settles := e.WriteSettled? && e.write < |s.writes| && s.writes[e.write].status == Issued;
      && Step(s, e).stored == (if settles && e.ok then Values(s.writes[e.write].table) else s.stored)
      && Step(s, e).settled == (if settles then s.settled + [e.write] else s.settled)
      && (settles ==> Step(s, e).writes[e.write].status == Settled(e.ok))
  {
  }

  /** An attach asked for on an open route waits for the write made for it, and for no other. */
  lemma TicketsIff(s: State, e: Event, k: nat)
    ensures k in Step(s, e).tickets <==>
      || (k in s.tickets && !(e == Resumed(k) && IsSettled(s, k)))
      || (e.AttachAsked? && e.route in s.live && k == |s.writes|)
    ensures e.AttachAsked? && e.route in s.live ==>
      Step(s, e).tickets[|s.writes|] == Ticket(e.route, s.live[e.route], e.tab)
  {
  }

  /** Once its write has succeeded, an attach command goes to Chrome exactly if its socket is still open. */
  lemma AttachesIff(s: State, e: Event)
    ensures Step(s, e).attaches == s.attaches +
      (if e.Resumed? && e.write in s.tickets && Good(s.writes, e.write) && Holds(s, s.tickets[e.write])
       then [Attach(s.tickets[e.write].route, s.tickets[e.write].socket, s.tickets[e.write].tab, e.write)] else [])
  {
  }

  predicate Holds(s: State, t: Ticket) {
    t.route in s.live && s.live[t.route] == t.socket
  }

  // ----- Sockets are never reused ------------------------------------------------------------------

  /** The socket was given out, and no open route has it any more. */
  ghost predicate Gone(s: State, socket: Socket) {
    socket < s.nextSocket && forall r | r in s.live :: s.live[r] != socket
  }

  ghost predicate SocketsInv(s: State) {
    && (forall r | r in s.live :: s.live[r] < s.nextSocket)
    && (forall q, r | q in s.live && r in s.live && q != r :: s.live[q] != s.live[r])
    && (forall k | k in s.tickets :: s.tickets[k].socket < s.nextSocket)
  }

  /** Fewer open routes, and tickets as before or for open sockets. */
  lemma FewerSockets(s: State, v: State, socket: Socket)
    requires SocketsInv(s) && v.nextSocket == s.nextSocket
    requires forall r | r in v.live :: r in s.live && v.live[r] == s.live[r]
    requires forall k | k in v.tickets :: v.tickets[k].socket < v.nextSocket
    ensures SocketsInv(v) && (Gone(s, socket) ==> Gone(v, socket))
  {
  }

  lemma OpenSockets(s: State, r: Route, socket: Socket)
    requires SocketsInv(s)
    ensures SocketsInv(OpenRoute(s, r)) && (Gone(s, socket) ==> Gone(OpenRoute(s, r), socket))
  {
  }

  lemma StepSockets(s: State, e: Event, socket: Socket)
    requires SocketsInv(s)
    ensures SocketsInv(Step(s, e))
    ensures Gone(s, socket) ==> Gone(Step(s, e), socket)
  {
    match e {
      case Opened(r) => OpenSockets(s, r, socket);
      case AttachAsked(r, tab) =>
        forall k | k in Step(s, e).tickets ensures Step(s, e).tickets[k].socket < s.nextSocket {
          TicketsIff(s, e, k);
        }
        FewerSockets(s, Step(s, e), socket);
      case _ => FewerSockets(s, Step(s, e), socket);
    }
  }

  lemma {:induction false} EveryRunSockets(left: seq<Row>, es: seq<Event>)
    ensures SocketsInv(Run(left, es))
  {
    if es != [] {
      EveryRunSockets(left, es[..|es| - 1]);
      StepSockets(Run(left, es[..|es| - 1]), es[|es| - 1], 0);
    }
  }

  /** Once the socket that asked for an attach is closed, the attach is never made, even if its route is opened again. */
  lemma {:induction false} ClosedSocketNeverAttaches(left: seq<Row>, es: seq<Event>, more: seq<Event>, socket: Socket)
    requires Gone(Run(left, es), socket)
    ensures Gone(Run(left, es + more), socket)
    ensures
      var was, now := Run(left, es).attaches, Run(left, es + more).attaches;
      was <= now && forall i | |was| <= i < |now| :: now[i].socket != socket
  {
    if more == [] {
      assert es + more == es;
    } else {
      var front, e := more[..|more| - 1], more[|more| - 1];
      ClosedSocketNeverAttaches(left, es, front, socket);
      EveryRunSockets(left, es + front);
      assert (es + more)[..|es + more| - 1] == es + front;
      StepSockets(Run(left, es + front), e, socket);
      AttachesIff(Run(left, es + front), e);
    }
  }

  // ----- Whose rows are stored ---------------------------------------------------------------

  ghost predicate Listed(t: Table, r: Route) {
    exists i :: 0 <= i < |t| && t[i].0 == r
  }

  lemma PutListed(t: Table, q: Route, row: Row, r: Route)
    ensures Listed(Put(t, q, row), r) <==> r == q || Listed(t, r)
  {
    var after := Put(t, q, row);
    assert after[IndexOf(t, q)].0 == q;
    if r != q && Listed(t, r) {
      var j :| 0 <= j < |t| && t[j].0 == r;
      assert after[j].0 == r;
    }
  }

  lemma RemoveListed(t: Table, q: Route, r: Route)
    requires Distinct(t)
    ensures Listed(Remove(t, q), r) <==> r != q && Listed(t, r)
  {
    var i, after := IndexOf(t, q), Remove(t, q);
    if Listed(after, r) {
      var j :| 0 <= j < |after| && after[j].0 == r;
      assert i < |t| ==> after[j] == t[if j < i then j else j + 1];
    }
    if r != q && Listed(t, r) {
      var j :| 0 <= j < |t| && t[j].0 == r;
      assert i < |t| ==> after[if j < i then j else j - 1] == t[j];
    }
  }

  // ----- The manager's rows and writes, as they change ---------------------------------------

  class OwnershipStore {
    var table: Table
    var live: map<Route, Socket>
    var nextSocket: Socket
    var writes: seq<Write>
    var tail: int
    var settled: seq<nat>
    var stored: seq<Row>
    var tickets: map<nat, Ticket>
    var attaches: seq<Attach>

    ghost function View(): State
      reads this
    {
      State(table, live, nextSocket, writes, tail, settled, stored, tickets, attaches)
    }

    constructor (left: seq<Row>)
      ensures View() == Init(left)
    {
      table, live, nextSocket := [], map[], 0;
      writes, tail, settled := [Write([], -1, Waiting)], 0, [];
      stored, tickets, attaches := left, map[], [];
    }

    method SaveOwnership() returns (write: nat)
      modifies this
      ensures View() == Save(old(View())) && write == |old(writes)|
    {
      write := |writes|;
      writes := writes + [Write(table, tail, Waiting)];
      tail := write;
    }

    method AskAttach(r: Route, tab: Tab)
      modifies this
      ensures View() == BeforeAttach(old(View()), r, tab)
    {
      if r !in live {
        return;
      }
      var row := Lookup(table, r);
      table := Put(table, r, Row(row.group, Including(row.tabs, tab)));
      var write := SaveOwnership();
      tickets := tickets[write := Ticket(r, live[r], tab)];
    }

    method GroupChanged(r: Route, group: int, tabs: seq<Tab>)
      modifies this
      ensures View() == OnGroup(old(View()), r, group, tabs)
    {
      table := Put(table, r, Row(group, tabs));
      var write := SaveOwnership();
    }

    /** The group's onclose and the socket's releaseLocal each delete the row and save. */
    method Release(r: Route)
      modifies this
      ensures View() == ReleaseRoute(old(View()), r)
    {
      if r in live {
        live := live - {r};
        table := Remove(table, r);
        var write := SaveOwnership();
        write := SaveOwnership();
      }
    }

    /** The promise that a write was chained to has settled. */
    method IssueWrite(k: nat)
      modifies this
      ensures View() == Issue(old(View()), k)
    {
      if k >= |writes| || writes[k].status != Waiting {
        return;
      }
      var after := writes[k].after;
      if after < 0 || (after < |writes| && writes[after].status.Settled?) {
        writes := writes[k := writes[k].(status := Issued)];
      }
    }

    method SettleWrite(k: nat, ok: bool)
      modifies this
      ensures View() == Settle(old(View()), k, ok)
    {
      if k >= |writes| || writes[k].status != Issued {
        return;
      }
      if ok {
        stored := Values(writes[k].table);
      }
      writes := writes[k := writes[k].(status := Settled(ok))];
      settled := settled + [k];
    }

    method ResumeAttach(write: nat)
      modifies this
      ensures View() == Resume(old(View()), write)
    {
      if write !in tickets || write >= |writes| || !writes[write].status.Settled? {
        return;
      }
      var t := tickets[write];
      tickets := tickets - {write};
      if writes[write].status.ok && t.route in live && live[t.route] == t.socket {
        attaches := attaches + [Attach(t.route, t.socket, t.tab, write)];
      }
    }

    method Take(e: Event)
      modifies this
      ensures View() == Step(old(View()), e)
    {
      match e {
        case Opened(r) =>
          if r !in live {
            live := live[r := nextSocket];
            nextSocket := nextSocket + 1;
          }
        case Released(r) => Release(r);
        case Grouped(r, group, tabs) => GroupChanged(r, group, tabs);
        case AttachAsked(r, tab) => AskAttach(r, tab);
        case WriteIssued(k) => IssueWrite(k);
        case WriteSettled(k, ok) => SettleWrite(k, ok);
        case Resumed(write) => ResumeAttach(write);
      }
    }

    method Drive(es: seq<Event>, ghost left: seq<Row>)
      requires View() == Init(left)
      modifies this
      ensures View() == Run(left, es) && Inv(View(), left)
    {
      for i := 0 to |es|
        invariant View() == Run(left, es[..i])
      {
        assert es[..i + 1][..i] == es[..i];
        Take(es[i]);
      }
      assert es[..|es|] == es;
      EveryRunInv(left, es);
    }
  }
}
