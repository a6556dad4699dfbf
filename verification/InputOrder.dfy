/**
 Order of mouse input: per tab, events reach Chrome in arrival order, and of each
 chain exactly a prefix is handed over.
 */
module InputOrder {
  import opened Options
  import opened ActionIndicator
  import opened ClickGate

  ghost predicate Increasing(s: seq<nat>) {
    forall i, j | 0 <= i < j < |s| :: s[i] < s[j]
  }

  function Numbers(items: seq<Item>): seq<nat> {
    seq(|items|, i requires 0 <= i < |items| => items[i].n)
  }

  /** Numbers of the chain's events that have not been handed over. */
  function Remaining(c: Chain): seq<nat> {
    Numbers(if c.phase.Sent? && c.items != [] then c.items[1..] else c.items)
  }

  ghost predicate Logged(log: seq<HandOver>, t: Tab, n: nat) {
    exists i :: 0 <= i < |log| && log[i].tab == t && log[i].n == n
  }

  ghost predicate LogOrdered(log: seq<HandOver>, arrivals: nat) {
    && (forall i | 0 <= i < |log| :: log[i].n < arrivals)
    && (forall i, j | 0 <= i < j < |log| && log[i].tab == log[j].tab :: log[i].n < log[j].n)
  }

  /** Everything already sent for the tab is older than everything still waiting. */
  ghost predicate Behind(log: seq<HandOver>, t: Tab, waiting: seq<nat>) {
    forall i, j | 0 <= i < |log| && log[i].tab == t && 0 <= j < |waiting| :: log[i].n < waiting[j]
  }

  ghost predicate ChainOrdered(w: World, t: Tab, c: Chain) {
    && c.items != []
    && c.arrived == c.handed + Remaining(c)
    && Increasing(c.arrived)
    && (forall i | 0 <= i < |c.arrived| :: c.arrived[i] < w.arrivals)
    && (forall i | 0 <= i < |c.handed| :: Logged(w.log, t, c.handed[i]))
    && Behind(w.log, t, Remaining(c))
  }

  /** A finished chain: exactly a prefix of what arrived was handed over. */
  ghost predicate PrefixHanded(log: seq<HandOver>, t: Tab, c: Chain) {
    && c.handed <= c.arrived
    && Increasing(c.arrived)
    && (forall i | 0 <= i < |c.handed| :: Logged(log, t, c.handed[i]))
    && (forall i | |c.handed| <= i < |c.arrived| :: !Logged(log, t, c.arrived[i]))
  }

  ghost predicate Older(old_: seq<nat>, new_: seq<nat>) {
    forall i, j | 0 <= i < |old_| && 0 <= j < |new_| :: old_[i] < new_[j]
  }

  ghost predicate EndedOrdered(w: World, t: Tab, c: Chain) {
    && PrefixHanded(w.log, t, c)
    && (forall i | 0 <= i < |c.arrived| :: c.arrived[i] < w.arrivals)
    && (t in w.tails ==> Older(c.arrived, Remaining(w.tails[t])))
  }

  ghost predicate Orderly(w: World) {
    && LogOrdered(w.log, w.arrivals)
    && (forall t | t in w.tails :: ChainOrdered(w, t, w.tails[t]))
    && (forall k | 0 <= k < |w.ended| :: EndedOrdered(w, w.ended[k].0, w.ended[k].1))
  }

  /** Same chains, same history. */
  ghost predicate SameInput(w: World, v: World) {
    w.tails == v.tails && w.log == v.log && w.ended == v.ended && w.arrivals == v.arrivals
  }

  lemma SameInputOrderly(w: World, v: World)
    requires Orderly(w) && SameInput(w, v)
    ensures Orderly(v)
  {
    forall t | t in v.tails ensures ChainOrdered(v, t, v.tails[t]) {
      assert ChainOrdered(w, t, w.tails[t]);
    }
    forall k | 0 <= k < |v.ended| ensures EndedOrdered(v, v.ended[k].0, v.ended[k].1) {
      assert EndedOrdered(w, w.ended[k].0, w.ended[k].1);
    }
  }

  /** A chain may change its phase, or drop its sent head, without touching the order. */
  lemma RephaseOrderly(w: World, t: Tab, c: Chain)
    requires Orderly(w) && t in w.tails
    requires c.items != [] && Remaining(c) == Remaining(w.tails[t])
    requires c.arrived == w.tails[t].arrived && c.handed == w.tails[t].handed
    ensures Orderly(Put(w, t, c))
  {
    var v := Put(w, t, c);
    assert ChainOrdered(w, t, w.tails[t]);
    forall u | u in v.tails ensures ChainOrdered(v, u, v.tails[u]) {
      assert u in w.tails ==> ChainOrdered(w, u, w.tails[u]);
    }
    forall k | 0 <= k < |v.ended| ensures EndedOrdered(v, v.ended[k].0, v.ended[k].1) {
      assert EndedOrdered(w, w.ended[k].0, w.ended[k].1);
    }
  }

  lemma EndOrderly(w: World, t: Tab)
    requires Orderly(w) && t in w.tails
    ensures Orderly(EndChain(w, t))
  {
    var v, c := EndChain(w, t), w.tails[t];
    assert ChainOrdered(w, t, c);
    forall u | u in v.tails ensures ChainOrdered(v, u, v.tails[u]) {
      assert ChainOrdered(w, u, w.tails[u]);
    }
    forall k | 0 <= k < |v.ended| ensures EndedOrdered(v, v.ended[k].0, v.ended[k].1) {
      if k < |w.ended| {
        assert EndedOrdered(w, w.ended[k].0, w.ended[k].1);
      } else {
        forall i | |c.handed| <= i < |c.arrived| ensures !Logged(w.log, t, c.arrived[i]) {
          assert c.arrived[i] == Remaining(c)[i - |c.handed|];
        }
      }
    }
  }

  /** The last event of a chain was answered: it ends with everything handed over. */
  lemma EndLastOrderly(w: World, t: Tab, c: Chain)
    requires Orderly(w) && t in w.tails
    requires c.items == [] && Remaining(w.tails[t]) == []
    requires c.arrived == w.tails[t].arrived && c.handed == w.tails[t].handed
    ensures Orderly(EndChain(Put(w, t, c), t))
  {
    var v := EndChain(Put(w, t, c), t);
    assert ChainOrdered(w, t, w.tails[t]);
    forall u | u in v.tails ensures ChainOrdered(v, u, v.tails[u]) {
      assert ChainOrdered(w, u, w.tails[u]);
    }
    forall k | 0 <= k < |v.ended| ensures EndedOrdered(v, v.ended[k].0, v.ended[k].1) {
      if k < |w.ended| {
        assert EndedOrdered(w, w.ended[k].0, w.ended[k].1);
      }
    }
  }

  lemma LoggedAppend(log: seq<HandOver>, x: HandOver, t: Tab, n: nat)
    ensures Logged(log + [x], t, n) <==> Logged(log, t, n) || (x.tab == t && x.n == n)
  {
    var longer := log + [x];
    if Logged(log, t, n) {
      var i :| 0 <= i < |log| && log[i].tab == t && log[i].n == n;
      assert longer[i] == log[i];
    }
    if x.tab == t && x.n == n {
      assert longer[|log|] == x;
    }
  }

  /** Handing over an event newer than all sent, and not dropped, keeps a finished chain as it was. */
  lemma EndedSurvives(w: World, v: World, x: HandOver, t: Tab, c: Chain)
    requires EndedOrdered(w, t, c) && v.log == w.log + [x] && v.arrivals >= w.arrivals
    requires x.tab == t ==> forall i | 0 <= i < |c.arrived| :: c.arrived[i] < x.n
    requires t in v.tails ==> Older(c.arrived, Remaining(v.tails[t]))
    ensures EndedOrdered(v, t, c)
  {
    forall n ensures Logged(v.log, t, n) <==> Logged(w.log, t, n) || (x.tab == t && x.n == n) {
      LoggedAppend(w.log, x, t, n);
    }
  }

  lemma OtherChainSurvives(w: World, v: World, x: HandOver, t: Tab, c: Chain)
    requires ChainOrdered(w, t, c) && v.log == w.log + [x] && v.arrivals >= w.arrivals && x.tab != t
    ensures ChainOrdered(v, t, c)
  {
    forall n ensures Logged(v.log, t, n) <==> Logged(w.log, t, n) {
      LoggedAppend(w.log, x, t, n);
    }
  }

  /** Another arrival makes everything known so far older, and nothing else. */
  lemma LaterArrivals(w: World, v: World)
    requires Orderly(w) && v.arrivals >= w.arrivals && v.log == w.log && v.ended == w.ended
    requires forall t | t in v.tails && t in w.tails :: Remaining(w.tails[t]) <= Remaining(v.tails[t])
    requires forall t, j | t in v.tails && 0 <= j < |Remaining(v.tails[t])| ::
      (t in w.tails && j < |Remaining(w.tails[t])|) || Remaining(v.tails[t])[j] >= w.arrivals
    ensures LogOrdered(v.log, v.arrivals)
    ensures forall k | 0 <= k < |v.ended| :: EndedOrdered(v, v.ended[k].0, v.ended[k].1)
  {
    forall k | 0 <= k < |v.ended| ensures EndedOrdered(v, v.ended[k].0, v.ended[k].1) {
      assert EndedOrdered(w, w.ended[k].0, w.ended[k].1);
    }
  }

  lemma LongerChain(w: World, t: Tab, c: Chain, gated: bool) returns (longer: Chain)
    requires ChainOrdered(w, t, c) && LogOrdered(w.log, w.arrivals)
    ensures longer == c.(items := c.items + [Item(w.arrivals, gated)], arrived := c.arrived + [w.arrivals])
    ensures Remaining(longer) == Remaining(c) + [w.arrivals]
    ensures ChainOrdered(w.(arrivals := w.arrivals + 1), t, longer)
  {
    longer := c.(items := c.items + [Item(w.arrivals, gated)], arrived := c.arrived + [w.arrivals]);
    assert Remaining(longer) == Remaining(c) + [w.arrivals];
  }

  lemma QueueOrderly(w: World, t: Tab, gated: bool)
    requires Orderly(w) && t in w.tails
    ensures
      var c, n := w.tails[t], w.arrivals;
      Orderly(Put(w.(arrivals := n + 1), t, c.(items := c.items + [Item(n, gated)], arrived := c.arrived + [n])))
  {
    assert ChainOrdered(w, t, w.tails[t]);
    var longer := LongerChain(w, t, w.tails[t], gated);
    var v := Put(w.(arrivals := w.arrivals + 1), t, longer);
    LaterArrivals(w, v);
    forall u | u in v.tails ensures ChainOrdered(v, u, v.tails[u]) {
      SameChain(w, v, u, longer);
    }
  }

  lemma SameChain(w: World, v: World, u: Tab, c: Chain)
    requires u in v.tails && v.log == w.log && v.arrivals == w.arrivals + 1
    requires
      || (v.tails[u] == c && ChainOrdered(w.(arrivals := w.arrivals + 1), u, c))
      || (u in w.tails && v.tails[u] == w.tails[u] && ChainOrdered(w, u, w.tails[u]))
    ensures ChainOrdered(v, u, v.tails[u])
  {
  }

  lemma NewChainOrderly(w: World, t: Tab)
    requires Orderly(w) && t !in w.tails
    ensures Orderly(Put(w.(arrivals := w.arrivals + 1), t, Chain([Item(w.arrivals, true)], Queued, [w.arrivals], [])))
  {
    var c := Chain([Item(w.arrivals, true)], Queued, [w.arrivals], []);
    var v := Put(w.(arrivals := w.arrivals + 1), t, c);
    assert Remaining(c) == [w.arrivals];
    LaterArrivals(w, v);
    forall u | u in v.tails ensures ChainOrdered(v, u, v.tails[u]) {
      SameChain(w, v, u, c);
    }
  }

  lemma DirectOrderly(w: World, v: World, x: HandOver)
    requires Orderly(w) && x.tab !in w.tails && x.n == w.arrivals
    requires v.tails == w.tails && v.ended == w.ended && v.arrivals == w.arrivals + 1 && v.log == w.log + [x]
    ensures Orderly(v)
  {
    forall u | u in v.tails ensures ChainOrdered(v, u, v.tails[u]) {
      assert ChainOrdered(w, u, w.tails[u]);
      OtherChainSurvives(w, v, x, u, w.tails[u]);
    }
    forall k | 0 <= k < |v.ended| ensures EndedOrdered(v, v.ended[k].0, v.ended[k].1) {
      assert EndedOrdered(w, w.ended[k].0, w.ended[k].1);
      EndedSurvives(w, v, x, v.ended[k].0, v.ended[k].1);
    }
  }

  /** The chain whose head is handed over. */
  lemma SentChain(w: World, v: World, t: Tab, c: Chain, x: HandOver)
    requires ChainOrdered(w, t, c) && !c.phase.Sent? && LogOrdered(w.log, w.arrivals)
    requires x.tab == t && x.n == c.items[0].n && v.log == w.log + [x] && v.arrivals == w.arrivals
    ensures ChainOrdered(v, t, c.(phase := Sent, handed := c.handed + [x.n]))
    ensures Remaining(c.(phase := Sent, handed := c.handed + [x.n])) == Remaining(c)[1..]
    ensures Remaining(c)[0] == x.n && x.n < w.arrivals
  {
    var sent := c.(phase := Sent, handed := c.handed + [x.n]);
    assert Remaining(c)[0] == x.n && Remaining(sent) == Remaining(c)[1..];
    assert c.arrived[|c.handed|] == x.n && c.arrived == sent.handed + Remaining(sent);
    forall i | 0 <= i < |sent.handed| ensures Logged(v.log, t, sent.handed[i]) {
      LoggedAppend(w.log, x, t, sent.handed[i]);
    }
    assert forall j | 0 <= j < |Remaining(sent)| :: Remaining(sent)[j] == c.arrived[|c.handed| + 1 + j];
  }

  /** The head of a chain is handed over. */
  lemma DispatchOrderly(w: World, t: Tab)
    requires Orderly(w) && t in w.tails && w.tails[t].phase.Cleared? && Open(w, t)
    ensures Orderly(OnDispatch(w, t))
  {
    var c := w.tails[t];
    assert ChainOrdered(w, t, c);
    var x := HandOver(t, c.items[0].n, c.items[0].gated, c.phase.wait, w.clock);
    var v := OnDispatch(w, t);
    SentChain(w, v, t, c, x);
    forall u | u in v.tails ensures ChainOrdered(v, u, v.tails[u]) {
      if u != t {
        assert ChainOrdered(w, u, w.tails[u]);
        OtherChainSurvives(w, v, x, u, w.tails[u]);
      }
    }
    forall k | 0 <= k < |v.ended| ensures EndedOrdered(v, v.ended[k].0, v.ended[k].1) {
      assert EndedOrdered(w, w.ended[k].0, w.ended[k].1);
      EndedSurvives(w, v, x, v.ended[k].0, v.ended[k].1);
    }
    assert LogOrdered(v.log, v.arrivals) by {
      assert Behind(w.log, t, Remaining(c));
    }
  }

  lemma ArriveOrderly(w: World, t: Tab, pressed: bool)
    requires Orderly(w)
    ensures Orderly(OnArrive(w, t, pressed))
  {
    var gated := pressed && w.indicator.clickMode;
    if w.closed {
    } else if t in w.tails {
      QueueOrderly(w, t, gated);
    } else if gated {
      NewChainOrderly(w, t);
    } else {
      DirectOrderly(w, OnArrive(w, t, pressed), HandOver(t, w.arrivals, false, None, w.clock));
    }
  }

  lemma StartOrderly(w: World, t: Tab)
    requires Orderly(w) && t in w.tails && w.tails[t].phase.Queued?
    ensures Orderly(OnStart(w, t))
  {
    assert ChainOrdered(w, t, w.tails[t]);
    StartInput(w, t);
    var v := OnStart(w, t);
    if t in v.tails {
      RephaseOrderly(w, t, v.tails[t]);
      SameInputOrderly(Put(w, t, v.tails[t]), v);
    } else {
      EndOrderly(w, t);
      SameInputOrderly(EndChain(w, t), v);
    }
  }

  /** Starting the head changes its phase, or ends the chain. */
  lemma StartInput(w: World, t: Tab)
    requires t in w.tails && w.tails[t].phase.Queued?
    ensures
      var v := OnStart(w, t);
      if t in v.tails
      then SameInput(Put(w, t, v.tails[t]), v) && v.tails[t] == w.tails[t].(phase := v.tails[t].phase) && !v.tails[t].phase.Sent?
      else SameInput(EndChain(w, t), v)
  {
  }

  lemma WaitOrderly(w: World, t: Tab, setup: Setup, ready: bool)
    requires Orderly(w) && t in w.tails
    ensures w.tails[t].phase.Preparing? ==> Orderly(OnSetup(w, t, setup))
    ensures w.tails[t].phase.Moving? ==> Orderly(OnArrival(w, t, ready))
  {
    assert ChainOrdered(w, t, w.tails[t]);
    EndOrderly(w, t);
    if w.tails[t].phase.Preparing? || w.tails[t].phase.Moving? {
      var v := if w.tails[t].phase.Preparing? then OnSetup(w, t, setup) else OnArrival(w, t, ready);
      if t in v.tails {
        RephaseOrderly(w, t, v.tails[t]);
        SameInputOrderly(Put(w, t, v.tails[t]), v);
      } else {
        SameInputOrderly(EndChain(w, t), v);
      }
    }
  }

  lemma ReplyOrderly(w: World, t: Tab, ok: bool)
    requires Orderly(w) && t in w.tails && w.tails[t].phase.Sent?
    ensures Orderly(OnChromeReply(w, t, ok))
  {
    var v, c := OnChromeReply(w, t, ok), w.tails[t];
    assert ChainOrdered(w, t, c);
    var rest := c.(items := c.items[1..], phase := Queued);
    assert Remaining(rest) == Remaining(c);
    if !ok {
      EndOrderly(w, t);
    } else if rest.items == [] {
      EndLastOrderly(w, t, rest);
      SameInputOrderly(EndChain(Put(w, t, rest), t), v);
    } else {
      RephaseOrderly(w, t, rest);
      SameInputOrderly(Put(w, t, rest), v);
    }
  }

  lemma StepOrderly(w: World, e: Event)
    requires Orderly(w)
    ensures Orderly(Step(w, e))
  {
    var v := if Expects(w, e) then Act(w, e) else w;
    if Expects(w, e) {
      match e {
        case Arrive(t, pressed) => ArriveOrderly(w, t, pressed);
        case StartHead(t) => StartOrderly(w, t);
        case SetupReply(t, setup) => WaitOrderly(w, t, setup, false);
        case ArrivalReply(t, ready) => WaitOrderly(w, t, Prepared, ready);
        case Dispatch(t) =>
          if Open(w, t) { DispatchOrderly(w, t); } else { EndOrderly(w, t); }
        case ChromeReply(t, ok) => ReplyOrderly(w, t, ok);
        case _ => SameInputOrderly(w, v);
      }
    }
    SameInputOrderly(v, Step(w, e));
  }

  lemma {:induction false} EveryRunOrderly(es: seq<Event>)
    ensures Orderly(Run(es))
  {
    if es != [] {
      EveryRunOrderly(es[..|es| - 1]);
      StepOrderly(Run(es[..|es| - 1]), es[|es| - 1]);
    }
  }

  /** Per tab, mouse events reach Chrome in the order in which they arrived. */
  lemma ArrivalOrderKept(es: seq<Event>, i: nat, j: nat)
    requires i < j < |Run(es).log| && Run(es).log[i].tab == Run(es).log[j].tab
    ensures Run(es).log[i].n < Run(es).log[j].n
  {
    EveryRunOrderly(es);
  }

  /** Of every chain, finished, broken or still running, exactly a prefix has been handed over. */
  lemma ChainsHandOverPrefixes(es: seq<Event>)
    ensures forall k | 0 <= k < |Run(es).ended| :: PrefixHanded(Run(es).log, Run(es).ended[k].0, Run(es).ended[k].1)
    ensures forall t | t in Run(es).tails :: PrefixHanded(Run(es).log, t, Run(es).tails[t])
  {
    EveryRunOrderly(es);
    var w := Run(es);
    forall k | 0 <= k < |w.ended| ensures PrefixHanded(w.log, w.ended[k].0, w.ended[k].1) {
      assert EndedOrdered(w, w.ended[k].0, w.ended[k].1);
    }
    forall t | t in w.tails ensures PrefixHanded(w.log, t, w.tails[t]) {
      var c := w.tails[t];
      assert ChainOrdered(w, t, c);
      forall i | |c.handed| <= i < |c.arrived| ensures !Logged(w.log, t, c.arrived[i]) {
        assert c.arrived[i] == Remaining(c)[i - |c.handed|];
      }
    }
  }

  /** A chain that ended stays as it ended: nothing that was queued behind a refusal is sent later. */
  lemma {:induction false} BrokenChainsStayBroken(es: seq<Event>, more: seq<Event>, k: nat)
    requires k < |Run(es).ended|
    ensures k < |Run(es + more).ended| && Run(es + more).ended[k] == Run(es).ended[k]
    ensures PrefixHanded(Run(es + more).log, Run(es).ended[k].0, Run(es).ended[k].1)
  {
    if more == [] {
      assert es + more == es;
    } else {
      var front := es + more[..|more| - 1];
      BrokenChainsStayBroken(es, more[..|more| - 1], k);
      assert (es + more)[..|es + more| - 1] == front;
      assert Run(es + more) == Step(Run(front), more[|more| - 1]);
      EndedGrows(Run(front), more[|more| - 1]);
    }
    ChainsHandOverPrefixes(es + more);
  }

  lemma EndedGrows(w: World, e: Event)
    ensures w.ended <= Step(w, e).ended
  {
  }
}
