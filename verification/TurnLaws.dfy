/** One order followed through the pass, and through runs of passes: the stop of a trailing
    order, and a main order that is rejected. */
module TurnLaws {
  import opened Numbers
  import opened Orders
  import opened Ledgers
  import opened Fills
  import opened FillLaws
  import opened Brokers
  import opened BookLaws
  import opened RunLaws
  import opened BracketLaws

  // ------------------------------------------------- the trailing stop

  /** An order without a parent, or whose parent has completed. */
  predicate NotHeld(all: seq<Order>, id: nat)
    requires 1 <= id <= |all|
  {
    all[id - 1].terms.parentId == 0 || ParentDone(all, all[id - 1].terms.parentId)
  }

  /** The stop of an order that is still alive. */
  predicate StopIs(all: seq<Order>, id: nat, stop: real)
    requires 1 <= id <= |all|
  {
    all[id - 1].Alive() ==> all[id - 1].trailStopPrice == stop
  }

  lemma TrailedSame(o: Order, p: Order, bar: Bar)
    requires o.terms == p.terms && o.trailStopPrice == p.trailStopPrice
    ensures Trailed(o, bar).trailStopPrice == Trailed(p, bar).trailStopPrice
  {
  }

  /** The bar that a call shows of a data feed, if any. */
  function BarOf(m: Snapshot, d: nat): Option<Bar> {
    if d < |m.feeds| then m.feeds[d] else None
  }

  /** The stop after a call: moved by its bar, and left alone without one. */
  function StopAfter(o: Order, m: Snapshot): real {
    match BarOf(m, o.terms.dataIndex)
    case None => o.trailStopPrice
    case Some(bar) => Trailed(o, bar).trailStopPrice
  }

  lemma StopAfterSame(o: Order, p: Order, m: Snapshot)
    requires o.terms == p.terms && o.trailStopPrice == p.trailStopPrice
    ensures StopAfter(o, m) == StopAfter(p, m)
  {
    hide Trailed;
    match BarOf(m, o.terms.dataIndex)
    case None =>
    case Some(bar) => TrailedSame(o, p, bar);
  }

  /** A turn that leaves a trailing order alive has moved its stop accordingly. */
  lemma TurnMovesStop(o: Order, all: seq<Order>, l: Ledger, m: Snapshot, cfg: Config, bar: Bar)
    requires o.Alive() && o.IsTrail() && o.terms.dataIndex < |m.feeds| && m.feeds[o.terms.dataIndex] == Some(bar)
    requires o.terms.parentId == 0 || ParentFilled(all, o.terms.parentId)
    ensures var s := OrderStep(o, all, l, m, cfg);
            s.order.Alive() ==> s.order.trailStopPrice == Trailed(o, bar).trailStopPrice
  {
    hide Sync, ParentFilled, TryFill, Trailed, SyncAcknowledged;
    var o1 := if Held(o) then o.(transmit := true) else o;
    var p := Acknowledged(o1);
    assert p.terms == o.terms && p.trailStopPrice == o.trailStopPrice && p.Alive();
    TrailedSame(o, p, bar);
    AttemptMovesStop(p, SyncAcknowledged(all, o1), l, bar, cfg, m.bar);
  }

  lemma TurnKeepsStop(o: Order, all: seq<Order>, l: Ledger, m: Snapshot, cfg: Config)
    requires o.Alive() && BarOf(m, o.terms.dataIndex) == None
    ensures var s := OrderStep(o, all, l, m, cfg);
            s.order.Alive() ==> s.order.trailStopPrice == o.trailStopPrice
  {
    hide Sync, ParentFilled, AttemptStep;
  }

  lemma TurnStops(o: Order, all: seq<Order>, l: Ledger, m: Snapshot, cfg: Config)
    requires o.Alive() && o.IsTrail() && (o.terms.parentId == 0 || ParentFilled(all, o.terms.parentId))
    ensures var s := OrderStep(o, all, l, m, cfg);
            s.order.Alive() ==> s.order.trailStopPrice == StopAfter(o, m)
  {
    hide OrderStep, Trailed, ParentFilled;
    match BarOf(m, o.terms.dataIndex)
    case None => TurnKeepsStop(o, all, l, m, cfg);
    case Some(bar) => TurnMovesStop(o, all, l, m, cfg, bar);
  }

  lemma AttemptMovesStop(o: Order, all: seq<Order>, l: Ledger, bar: Bar, cfg: Config, barIndex: nat)
    requires o.Alive() && o.IsTrail()
    ensures var s := AttemptStep(o, all, l, bar, cfg, barIndex);
            s.order.Alive() ==> s.order.trailStopPrice == Trailed(o, bar).trailStopPrice
  {
    hide Sync, TryFill, TrailLevel;
    TryFillEvolves(o, bar, cfg, barIndex, l);
  }

  /** In the pass the stop is the old one until the order's turn, and the new one after it. */
  ghost predicate StopMid(p: Pass, i: nat, id: nat, before: real, after: real) {
    1 <= id <= |p.all| && StopIs(p.all, id, if Has(p.pending, id, i) then before else after)
  }

  lemma HasNext(s: seq<Order>, t: seq<Order>, i: nat, id: nat)
    requires i < |s| && SameIds(s, t) && Increasing(s)
    ensures Has(t, id, i + 1) <==> Has(s, id, i) && s[i].id != id
  {
    if Has(s, id, i) && s[i].id != id {
      var j :| i <= j < |s| && s[j].id == id;
      assert t[j].id == id;
    }
    if Has(t, id, i + 1) {
      var j :| i + 1 <= j < |t| && t[j].id == id;
      assert s[j].id == id;
    }
  }

  /** Cancelling kills an order or leaves it alone. */
  lemma CancelKeepsStop(s: Lists, r: seq<Order>, which: Selector, id: nat, stop: real)
    requires CancelledIn(s, r, which) && 1 <= id <= |s.all| && StopIs(s.all, id, stop)
    ensures StopIs(r, id, stop)
  {
  }

  lemma TurnStop(p: Pass, i: nat, s: Step, m: Snapshot, cfg: Config, id: nat, o: Order)
    requires PassOk(p, i) && i < |p.pending| && s == OrderStep(p.pending[i], p.all, p.ledger, m, cfg)
    requires StopMid(p, i, id, o.trailStopPrice, StopAfter(o, m))
    requires p.all[id - 1].terms == o.terms && NotHeld(p.all, id) && o.IsTrail()
    ensures StopMid(AfterTurn(p, i, s), i + 1, id, o.trailStopPrice, StopAfter(o, m))
  {
    hide OrderStep, StopAfter, PassOk, Has;
    var turn := p.pending[i];
    PassOkParts(p, i);
    OrderStepFacts(turn, p.all, p.ledger, m, cfg);
    PendingOrder(p, i);
    var q := AfterTurn(p, i, s);
    HasNext(p.pending, q.pending, i, id);
    if turn.id == id {
      HasFirst(p.pending, i);
      CopyTerms(turn, p.all);
      if turn.Alive() {
        StopAfterSame(turn, o, m);
        ParentFilledAt(p.all, turn.terms.parentId);
        TurnStops(turn, p.all, p.ledger, m, cfg);
      }
    }
  }

  lemma PendingOrder(p: Pass, i: nat)
    requires PassOk(p, i)
    ensures Increasing(p.pending)
  {
  }

  lemma HasFirst(s: seq<Order>, i: nat)
    requires i < |s|
    ensures Has(s, s[i].id, i)
  {
  }

  lemma StopSameIds(p: Pass, q: Pass, i: nat, id: nat, before: real, after: real)
    requires StopMid(p, i, id, before, after) && SameIds(p.pending, q.pending) && |q.all| == |p.all|
    requires forall stop :: StopIs(p.all, id, stop) ==> StopIs(q.all, id, stop)
    ensures StopMid(q, i, id, before, after)
  {
    if Has(p.pending, id, i) {
      HasSameIds(p.pending, q.pending, id, i);
    }
    if Has(q.pending, id, i) {
      HasSameIds(q.pending, p.pending, id, i);
    }
  }

  lemma PassStepStop(p: Pass, i: nat, m: Snapshot, cfg: Config, id: nat, o: Order)
    requires PassOk(p, i) && i < |p.pending| && 1 <= id <= |p.all|
    requires StopMid(p, i, id, o.trailStopPrice, StopAfter(o, m))
    requires p.all[id - 1].terms == o.terms && NotHeld(p.all, id) && o.IsTrail()
    ensures StopMid(PassStep(p, i, m, cfg), i + 1, id, o.trailStopPrice, StopAfter(o, m))
  {
    hide OrderStep, CancelWhere, PassOk, StopAfter, StopMid, StopIs, CancelledIn;
    var turn := p.pending[i];
    var s := OrderStep(turn, p.all, p.ledger, m, cfg);
    PassOkParts(p, i);
    OrderStepFacts(turn, p.all, p.ledger, m, cfg);
    TurnStop(p, i, s, m, cfg, id, o);
    TurnOk(p, i, s);
    var t := AfterTurn(p, i, s);
    var q := PassStep(p, i, m, cfg);
    if s.fate == Attempted {
      CancelChildrenOk(t, i + 1, turn.id);
      var r := CancelWhere(Lists(t.all, t.pending), ChildrenOf(turn.id), 0);
      CancelSameIds(Lists(t.all, t.pending), ChildrenOf(turn.id));
      forall stop | StopIs(t.all, id, stop) ensures StopIs(r.all, id, stop) {
        CancelKeepsStop(Lists(t.all, t.pending), r.all, ChildrenOf(turn.id), id, stop);
      }
      assert SameIds(t.pending, q.pending);
      StopSameIds(t, q, i + 1, id, o.trailStopPrice, StopAfter(o, m));
    } else {
      StopSameIds(t, q, i + 1, id, o.trailStopPrice, StopAfter(o, m));
    }
  }

  lemma CancelSameIds(s: Lists, which: Selector)
    ensures SameIds(s.pending, CancelWhere(s, which, 0).pending)
  {
    CancelPending(s, which, 0);
  }

  lemma NotHeldStays(all: seq<Order>, all': seq<Order>, id: nat)
    requires Advances(all, all') && 1 <= id <= |all| && NotHeld(all, id)
    ensures id <= |all'| && all'[id - 1].terms == all[id - 1].terms && NotHeld(all', id)
  {
    AdvancesAt(all, all', id - 1);
    if all[id - 1].terms.parentId != 0 {
      ParentStaysDone(all, all', all[id - 1].terms.parentId);
    }
  }

  lemma {:induction false} RunPassStop(p: Pass, i: nat, m: Snapshot, cfg: Config, id: nat, o: Order)
    requires i <= |p.pending| && PassOk(p, i) && 1 <= id <= |p.all|
    requires StopMid(p, i, id, o.trailStopPrice, StopAfter(o, m))
    requires p.all[id - 1].terms == o.terms && NotHeld(p.all, id) && o.IsTrail()
    ensures StopIs(RunPass(p, i, m, cfg).all, id, StopAfter(o, m))
    decreases |p.pending| - i
  {
    hide PassOk, PassStep, NotHeld, Advances, StopAfter, StopIs;
    if i < |p.pending| {
      PassStepStop(p, i, m, cfg, id, o);
      PassStepOk(p, i, m, cfg);
      NotHeldStays(p.all, PassStep(p, i, m, cfg).all, id);
      RunPassStop(PassStep(p, i, m, cfg), i + 1, m, cfg, id, o);
    }
  }

  /** After a call, a trailing order that is still alive has the stop that its bar moved it to,
      or its old one if the call shows no bar of its feed. */
  lemma ProcessMovesStop(b: Broker, m: Snapshot, id: nat)
    requires BookOk(b) && 1 <= id <= |b.all| && b.all[id - 1].IsTrail() && NotHeld(b.all, id)
    ensures |Process(b, m).all| == |b.all|
    ensures StopIs(Process(b, m).all, id, StopAfter(b.all[id - 1], m))
  {
    hide RunPass, Sweep, PassOk, StopAfter, Advances, NotHeld;
    var o := b.all[id - 1];
    var p0 := Pass(b.all, b.pending, b.ledger, [], []);
    PassStarts(b);
    StartsBefore(b, id, StopAfter(o, m));
    RunPassStop(p0, 0, m, b.config, id, o);
    RunPassOk(p0, 0, m, b.config);
    var p := RunPass(p0, 0, m, b.config);
    SweepOk(p);
    CancelKeepsStop(Lists(p.all, p.still), Sweep(p).all, InGroups(p.groups), id, StopAfter(o, m));
  }

  lemma StartsBefore(b: Broker, id: nat, after: real)
    requires BookOk(b) && 1 <= id <= |b.all|
    ensures StopMid(Pass(b.all, b.pending, b.ledger, [], []), 0, id, b.all[id - 1].trailStopPrice, after)
  {
    if b.all[id - 1].Alive() {
      assert Has(b.pending, b.all[id - 1].id, 0);
    }
  }

  // -------------------------------------------------- the stop over a run

  lemma PrefixKeepsStop(all: seq<Order>, all': seq<Order>, id: nat, stop: real)
    requires all <= all' && 1 <= id <= |all| && StopIs(all, id, stop)
    ensures StopIs(all', id, stop)
  {
  }

  lemma SubmitExtends(b: Broker, side: Side, params: OrderParams, v: Verdict)
    ensures b.all <= Submit(b, side, params, v).all
  {
  }

  lemma ChildrenKeepStop(all: seq<Order>, main: nat, children: seq<nat>, id: nat, stop: real)
    requires 1 <= id <= |all| && StopIs(all, id, stop)
    ensures StopIs(WithChildren(all, main, children), id, stop)
  {
  }

  /** What happens between two calls leaves the stop alone. */
  lemma ApplyKeepsStop(b: Broker, e: Event, id: nat, stop: real)
    requires BookOk(b) && !e.ProcessEvent? && 1 <= id <= |b.all| && StopIs(b.all, id, stop)
    ensures id <= |Apply(b, e).all| && StopIs(Apply(b, e).all, id, stop)
  {
    hide Submit, WithChildren, CancelWhere, StopIs, WithPosition, PositionAt, BookOk;
    match e
    case SubmitEvent(side, params, v) =>
      SubmitExtends(b, side, params, v);
      PrefixKeepsStop(b.all, Submit(b, side, params, v).all, id, stop);
    case BracketEvent(side, lp, sp, d, vm, vl, vs) =>
      BracketKeepsStop(b, side, lp, sp, d, vm, vl, vs, id, stop);
    case CancelEvent(cid) =>
      BookOkParts(b);
      var s := Lists(b.all, b.pending);
      CancelBook(s, WithId(cid), 0);
      CancelKeepsStop(s, CancelWhere(s, WithId(cid), 0).all, WithId(cid), id, stop);
    case CloseEvent(d, v) =>
      var b1 := b.(ledger := b.ledger.(positions := WithPosition(b.ledger.positions, d)));
      var side := if PositionAt(b1.ledger.positions, d).IsLong() then Sell else Buy;
      SubmitExtends(b1, side, MarketParams(d), v);
      PrefixKeepsStop(b.all, Submit(b1, side, MarketParams(d), v).all, id, stop);
    case OcoGroupEvent =>
  }

  lemma BookOkParts(b: Broker)
    requires BookOk(b)
    ensures BookIds(b.all) && Increasing(b.pending) && Copies(b.pending, b.all, 0)
  {
  }

  lemma BracketKeepsStop(b: Broker, side: Side, limitPrice: real, stopPrice: real, dataIndex: nat,
                         vMain: Verdict, vLimit: Verdict, vStop: Verdict, id: nat, stop: real)
    requires 1 <= id <= |b.all| && StopIs(b.all, id, stop)
    ensures var c := Bracket(b, side, limitPrice, stopPrice, dataIndex, vMain, vLimit, vStop);
            id <= |c.all| && StopIs(c.all, id, stop)
  {
    hide Submit, WithChildren, StopIs;
    var group := b.nextOcoGroupId;
    var b0 := b.(nextOcoGroupId := group + 1);
    var main := SubmittedId(b0, vMain);
    var b1 := Submit(b0, side, MarketParams(dataIndex), vMain);
    var limit := SubmittedId(b1, vLimit);
    var b2 := Submit(b1, Opposite(side), TakeProfitParams(limitPrice, dataIndex, main, group), vLimit);
    var last := SubmittedId(b2, vStop);
    var b3 := Submit(b2, Opposite(side), StopLossParams(stopPrice, dataIndex, main, group), vStop);
    SubmitExtends(b0, side, MarketParams(dataIndex), vMain);
    SubmitExtends(b1, Opposite(side), TakeProfitParams(limitPrice, dataIndex, main, group), vLimit);
    SubmitExtends(b2, Opposite(side), StopLossParams(stopPrice, dataIndex, main, group), vStop);
    PrefixKeepsStop(b.all, b3.all, id, stop);
    ChildrenKeepStop(b3.all, main, [limit, last], id, stop);
  }

  /** The bars of data feed `d` that the calls of a run show, in order. */
  function Shown(es: seq<Event>, d: nat): seq<Bar> {
    if es == [] then []
    else
      var e := es[|es| - 1];
      Shown(es[..|es| - 1], d) +
      if e.ProcessEvent? && BarOf(e.market, d).Some? then [BarOf(e.market, d).value] else []
  }

  /** Over any run, whatever is submitted and cancelled between the calls: a trailing order
      that is not held and still alive has the stop of `TrailRun` over exactly the bars shown
      of its feed. */
  lemma {:induction false} StopFollowsBars(b: Broker, es: seq<Event>, id: nat, lot: real)
    requires BookOk(b) && LegalRun(b, es, lot) && 1 <= id <= |b.all| && b.all[id - 1].IsTrail() && NotHeld(b.all, id)
    ensures id <= |Run(b, es).all|
    ensures StopIs(Run(b, es).all, id, TrailRun(b.all[id - 1], Shown(es, b.all[id - 1].terms.dataIndex)).trailStopPrice)
  {
    hide Apply, BookOk, LegalEvent, NotHeld, Advances, StopIs, TrailRun, StopAfter, BarOf;
    var o := b.all[id - 1];
    var d := o.terms.dataIndex;
    if es == [] {
      StopNow(b.all, id);
    } else {
      var n := |es| - 1;
      var init, e := es[..n], es[n];
      StopFollowsBars(b, init, id, lot);
      RunOk(b, init, lot);
      var c := Run(b, init);
      ApplyOk(c, e, lot);
      NotHeldStays(b.all, c.all, id);
      var p := TrailRun(o, Shown(init, d));
      TrailRunTerms(o, Shown(init, d));
      if e.ProcessEvent? {
        ApplyProcess(c, e);
        ProcessMovesStop(c, e.market, id);
        AdvancesAt(c.all, Apply(c, e).all, id - 1);
        NextStop(c.all, Apply(c, e).all, id, p, e.market);
        ShownNext(o, es);
      } else {
        ApplyKeepsStop(c, e, id, p.trailStopPrice);
        assert Shown(es, d) == Shown(init, d);
      }
    }
  }

  lemma ApplyProcess(b: Broker, e: Event)
    requires e.ProcessEvent?
    ensures Apply(b, e) == Process(b, e.market)
  {
  }

  lemma ShownNext(o: Order, es: seq<Event>)
    requires es != [] && es[|es| - 1].ProcessEvent?
    ensures var d, n := o.terms.dataIndex, |es| - 1;
            TrailRun(o, Shown(es, d)).trailStopPrice == StopAfter(TrailRun(o, Shown(es[..n], d)), es[n].market)
  {
    hide Trailed, BarOf;
    var d, n := o.terms.dataIndex, |es| - 1;
    var bars := Shown(es[..n], d);
    TrailRunTerms(o, bars);
    match BarOf(es[n].market, d) {
      case None => assert Shown(es, d) == bars;
      case Some(bar) =>
        assert Shown(es, d) == bars + [bar];
        assert (bars + [bar])[..|bars|] == bars;
    }
  }

  lemma {:induction false} TrailRunTerms(o: Order, bars: seq<Bar>)
    ensures TrailRun(o, bars).terms == o.terms
  {
    hide TrailLevel;
    if bars != [] {
      TrailRunTerms(o, bars[..|bars| - 1]);
    }
  }

  lemma StopNow(all: seq<Order>, id: nat)
    requires 1 <= id <= |all|
    ensures StopIs(all, id, TrailRun(all[id - 1], []).trailStopPrice)
  {
  }

  lemma NextStop(all: seq<Order>, all': seq<Order>, id: nat, p: Order, m: Snapshot)
    requires 1 <= id <= |all| <= |all'| && Evolves(all[id - 1], all'[id - 1])
    requires StopIs(all, id, p.trailStopPrice) && p.terms == all[id - 1].terms
    requires StopIs(all', id, StopAfter(all[id - 1], m))
    ensures StopIs(all', id, StopAfter(p, m))
  {
    hide StopAfter;
    if all'[id - 1].Alive() {
      StopAfterSame(all[id - 1], p, m);
    }
  }

  /** Hence exactly when the stop of a pending order is the best level of the bars it has seen. */
  lemma PendingStopIff(b: Broker, es: seq<Event>, id: nat, lot: real)
    requires BookOk(b) && LegalRun(b, es, lot) && 1 <= id <= |b.all| && b.all[id - 1].IsTrail() && NotHeld(b.all, id)
    requires Shown(es, b.all[id - 1].terms.dataIndex) != [] && b.all[id - 1].trailStopPrice == 0.0
    requires id <= |Run(b, es).all| && Run(b, es).all[id - 1].Alive()
    ensures var o := b.all[id - 1];
            var bars := Shown(es, o.terms.dataIndex);
            IsBestLevel(o, bars, Run(b, es).all[id - 1].trailStopPrice) <==>
            !(IsBestLevel(o, bars, 0.0) && TrailLevel(o, bars[|bars| - 1]) != 0.0)
  {
    hide Run, LegalRun, BookOk, IsBestLevel, TrailLevel, NotHeld, TrailRun, Shown;
    StopFollowsBars(b, es, id, lot);
    TrailIsFoldIff(b.all[id - 1], Shown(es, b.all[id - 1].terms.dataIndex));
  }

  // ---------------------------------------------- a rejected main order

  /** A main order for a data feed that does not exist. */
  predicate OutOfRange(o: Order, m: Snapshot) {
    o.terms.parentId == 0 && o.terms.dataIndex >= |m.feeds|
  }

  /** Main order `a` is rejected at its turn, and its held child `c` stays alive. */
  ghost predicate RejectMid(p: Pass, i: nat, a: nat, c: nat, m: Snapshot) {
    && 1 <= a <= |p.all| && 1 <= c <= |p.all| && a != c
    && OutOfRange(p.all[a - 1], m) && p.all[c - 1].terms.parentId == a
    && (if Has(p.pending, a, i) then p.all[a - 1].Alive() else p.all[a - 1].status == Rejected)
    && p.all[c - 1].Alive() && HeldPass(p, c)
  }

  lemma CancelSpares(s: Lists, r: seq<Order>, which: Selector, k: nat)
    requires CancelledIn(s, r, which) && k < |s.all| && !which.Selects(s.all[k])
    ensures r[k] == s.all[k]
  {
  }

  lemma MainRejectedNow(o: Order, all: seq<Order>, l: Ledger, m: Snapshot, cfg: Config)
    requires BookIds(all) && CopyOf(o, all) && o.Alive() && OutOfRange(o, m)
    ensures var s := OrderStep(o, all, l, m, cfg);
            s.fate == Dropped && |s.all| == |all| && s.all[o.id - 1].status == Rejected
  {
    SyncAt(all, o.Reject());
  }

  lemma RejectTurn(p: Pass, i: nat, s: Step, m: Snapshot, cfg: Config, a: nat, c: nat)
    requires PassOk(p, i) && i < |p.pending| && RejectMid(p, i, a, c, m)
    requires s == OrderStep(p.pending[i], p.all, p.ledger, m, cfg)
    ensures var q := AfterTurn(p, i, s);
            && |q.all| == |p.all| && q.all[a - 1].terms == p.all[a - 1].terms && q.all[c - 1].terms == p.all[c - 1].terms
            && (if Has(q.pending, a, i + 1) then q.all[a - 1].Alive() else q.all[a - 1].status == Rejected)
            && q.all[c - 1].Alive()
            && (s.fate == Attempted ==> p.pending[i].id != a)
  {
    hide OrderStep, PassOk, Has;
    var o := p.pending[i];
    PassOkParts(p, i);
    OrderStepFacts(o, p.all, p.ledger, m, cfg);
    PendingOrder(p, i);
    HasNext(p.pending, AfterTurn(p, i, s).pending, i, a);
    CopyTerms(o, p.all);
    if o.id == a {
      HasFirst(p.pending, i);
      MainRejectedNow(o, p.all, p.ledger, m, cfg);
    } else if o.id == c {
      HeldIsKept(o, p.all, p.ledger, m, cfg);
    }
  }

  lemma RejectStep(p: Pass, i: nat, m: Snapshot, cfg: Config, a: nat, c: nat)
    requires PassOk(p, i) && i < |p.pending| && RejectMid(p, i, a, c, m)
    ensures RejectMid(PassStep(p, i, m, cfg), i + 1, a, c, m)
  {
    hide OrderStep, CancelWhere, PassOk, CancelledIn, HeldPass, Has;
    var o := p.pending[i];
    var s := OrderStep(o, p.all, p.ledger, m, cfg);
    PassOkParts(p, i);
    OrderStepFacts(o, p.all, p.ledger, m, cfg);
    RejectTurn(p, i, s, m, cfg, a, c);
    HeldPassStep(p, i, m, cfg, c);
    TurnOk(p, i, s);
    var t, q := AfterTurn(p, i, s), PassStep(p, i, m, cfg);
    if s.fate == Attempted {
      CancelChildrenOk(t, i + 1, o.id);
      var r := CancelWhere(Lists(t.all, t.pending), ChildrenOf(o.id), 0);
      CancelSameIds(Lists(t.all, t.pending), ChildrenOf(o.id));
      CancelSpares(Lists(t.all, t.pending), r.all, ChildrenOf(o.id), a - 1);
      CancelSpares(Lists(t.all, t.pending), r.all, ChildrenOf(o.id), c - 1);
      assert SameIds(t.pending, q.pending);
    }
    HasSame(t.pending, q.pending, i + 1, a);
  }

  lemma HasSame(s: seq<Order>, t: seq<Order>, i: nat, id: nat)
    requires SameIds(s, t)
    ensures Has(s, id, i) <==> Has(t, id, i)
  {
    if Has(s, id, i) {
      HasSameIds(s, t, id, i);
    }
    if Has(t, id, i) {
      HasSameIds(t, s, id, i);
    }
  }

  lemma {:induction false} RejectRun(p: Pass, i: nat, m: Snapshot, cfg: Config, a: nat, c: nat)
    requires i <= |p.pending| && PassOk(p, i) && RejectMid(p, i, a, c, m)
    ensures var q := RunPass(p, i, m, cfg);
            RejectMid(q, |q.pending|, a, c, m)
    decreases |p.pending| - i
  {
    hide PassOk, PassStep, RejectMid;
    if i < |p.pending| {
      RejectStep(p, i, m, cfg, a, c);
      PassStepOk(p, i, m, cfg);
      RejectRun(PassStep(p, i, m, cfg), i + 1, m, cfg, a, c);
    }
  }

  /** Every group that is remembered has completed a member since `all0`. */
  ghost predicate GroupsReal(all0: seq<Order>, all: seq<Order>, groups: seq<nat>) {
    && |all0| == |all|
    && forall g :: g in groups ==> exists k :: 0 <= k < |all| && JustCompleted(all0[k], all[k]) && all[k].terms.ocoGroupId == g
  }

  lemma GroupsStay(all0: seq<Order>, all: seq<Order>, all': seq<Order>, groups: seq<nat>)
    requires GroupsReal(all0, all, groups) && Advances(all, all') && |all'| == |all|
    ensures GroupsReal(all0, all', groups)
  {
    forall g | g in groups ensures exists k :: 0 <= k < |all'| && JustCompleted(all0[k], all'[k]) && all'[k].terms.ocoGroupId == g {
      var k :| 0 <= k < |all| && JustCompleted(all0[k], all[k]) && all[k].terms.ocoGroupId == g;
      AdvancesAt(all, all', k);
    }
  }

  lemma GroupAdded(all0: seq<Order>, all: seq<Order>, groups: seq<nat>, k: nat)
    requires GroupsReal(all0, all, groups) && k < |all| && JustCompleted(all0[k], all[k])
    ensures GroupsReal(all0, all, groups + [all[k].terms.ocoGroupId])
  {
  }

  lemma GroupsRealStep(all0: seq<Order>, p: Pass, i: nat, m: Snapshot, cfg: Config)
    requires PassOk(p, i) && i < |p.pending| && GroupsReal(all0, p.all, p.groups) && Advances(all0, p.all)
    ensures var q := PassStep(p, i, m, cfg); GroupsReal(all0, q.all, q.groups)
  {
    hide OrderStep, CancelWhere, Activate, PassOk, GroupsReal, Advances, CancelledIn;
    var o := p.pending[i];
    PassOkParts(p, i);
    var s := OrderStep(o, p.all, p.ledger, m, cfg);
    OrderStepFacts(o, p.all, p.ledger, m, cfg);
    TurnOk(p, i, s);
    GroupsStay(all0, p.all, s.all, p.groups);
    var t := AfterTurn(p, i, s);
    if s.fate == Attempted {
      CopyTerms(o, p.all);
      CopyTerms(s.order, s.all);
      AdvancesAt(all0, p.all, o.id - 1);
      if s.order.status == Completed {
        GroupAdded(all0, s.all, p.groups, o.id - 1);
      }
      var q := PassStep(p, i, m, cfg);
      CancelChildrenOk(t, i + 1, o.id);
      var r := CancelWhere(Lists(t.all, t.pending), ChildrenOf(o.id), 0);
      GroupsStay(all0, s.all, r.all, q.groups);
    }
  }

  lemma {:induction false} GroupsRealRun(all0: seq<Order>, p: Pass, i: nat, m: Snapshot, cfg: Config)
    requires i <= |p.pending| && PassOk(p, i) && GroupsReal(all0, p.all, p.groups) && Advances(all0, p.all)
    ensures var q := RunPass(p, i, m, cfg); GroupsReal(all0, q.all, q.groups)
    decreases |p.pending| - i
  {
    hide PassOk, PassStep, GroupsReal, Advances;
    if i < |p.pending| {
      GroupsRealStep(all0, p, i, m, cfg);
      PassStepOk(p, i, m, cfg);
      AdvancesTransitive(all0, p.all, PassStep(p, i, m, cfg).all);
      GroupsRealRun(all0, PassStep(p, i, m, cfg), i + 1, m, cfg);
    }
  }

  /** A main order that is rejected because its data feed does not exist leaves its held
      children alive, unless another member of their group completes in the same call. */
  lemma RejectedMainLeavesChildren(b: Broker, m: Snapshot, a: nat, c: nat)
    requires BookOk(b) && 1 <= a <= |b.all| && 1 <= c <= |b.all| && a != c
    requires b.all[a - 1].Alive() && OutOfRange(b.all[a - 1], m)
    requires b.all[c - 1].Alive() && b.all[c - 1].terms.parentId == a && HeldSafe(b.all, b.pending, c)
    ensures var all := Process(b, m).all;
            && |all| == |b.all| && all[a - 1].status == Rejected
            && (all[c - 1].Alive() ||
                exists k :: 0 <= k < |all| && JustCompleted(b.all[k], all[k]) &&
                  all[k].terms.ocoGroupId == b.all[c - 1].terms.ocoGroupId != 0)
  {
    hide RunPass, Sweep, PassOk, Advances, HeldSafe, GroupsReal, RejectMid;
    var p0 := Pass(b.all, b.pending, b.ledger, [], []);
    PassStarts(b);
    RejectStarts(b, m, a, c);
    RejectRun(p0, 0, m, b.config, a, c);
    AdvancesReflexive(b.all);
    GroupsStart(b.all);
    GroupsRealRun(b.all, p0, 0, m, b.config);
    RunPassOk(p0, 0, m, b.config);
    var p := RunPass(p0, 0, m, b.config);
    RejectEnds(p, a, c, m);
    AdvancesAt(b.all, p.all, c - 1);
    SweepRejected(b.all, p, a, c);
  }

  lemma RejectEnds(p: Pass, a: nat, c: nat, m: Snapshot)
    requires RejectMid(p, |p.pending|, a, c, m)
    ensures 1 <= a <= |p.all| && 1 <= c <= |p.all| && p.all[a - 1].status == Rejected && p.all[c - 1].Alive()
  {
    hide HeldPass;
  }

  lemma SweepRejected(all0: seq<Order>, p: Pass, a: nat, c: nat)
    requires PassOk(p, |p.pending|) && GroupsReal(all0, p.all, p.groups)
    requires 1 <= a <= |p.all| && 1 <= c <= |p.all| && p.all[a - 1].status == Rejected && p.all[c - 1].Alive()
    ensures var all := if p.groups == [] then p.all else Sweep(p).all;
            && |all| == |all0| && all[a - 1].status == Rejected
            && (all[c - 1].Alive() ||
                exists k :: 0 <= k < |all| && JustCompleted(all0[k], all[k]) &&
                  all[k].terms.ocoGroupId == p.all[c - 1].terms.ocoGroupId != 0)
  {
    hide Sweep, PassOk, Advances, GroupsReal, CancelledIn, JustCompleted;
    GroupsSize(all0, p.all, p.groups);
    if p.groups != [] {
      SweepOk(p);
      var r := Sweep(p);
      CancelledSize(Lists(p.all, p.still), r.all, InGroups(p.groups));
      AdvancesAt(p.all, r.all, a - 1);
      GroupsStay(all0, p.all, r.all, p.groups);
      if !r.all[c - 1].Alive() {
        SweptGroup(all0, p, r.all, c);
      }
    }
  }

  lemma CancelledSize(s: Lists, r: seq<Order>, which: Selector)
    requires CancelledIn(s, r, which)
    ensures |r| == |s.all|
  {
  }

  lemma GroupsSize(all0: seq<Order>, all: seq<Order>, groups: seq<nat>)
    requires GroupsReal(all0, all, groups)
    ensures |all0| == |all|
  {
  }

  lemma GroupsStart(all: seq<Order>)
    ensures GroupsReal(all, all, [])
  {
  }

  lemma SweptGroup(all0: seq<Order>, p: Pass, r: seq<Order>, c: nat)
    requires CancelledIn(Lists(p.all, p.still), r, InGroups(p.groups)) && 1 <= c <= |p.all| && p.all[c - 1].Alive()
    requires !r[c - 1].Alive() && GroupsReal(all0, r, p.groups)
    ensures exists k :: 0 <= k < |r| && JustCompleted(all0[k], r[k]) && r[k].terms.ocoGroupId == p.all[c - 1].terms.ocoGroupId != 0
  {
    assert InGroups(p.groups).Selects(p.all[c - 1]);
  }

  lemma RejectStarts(b: Broker, m: Snapshot, a: nat, c: nat)
    requires BookOk(b) && 1 <= a <= |b.all| && 1 <= c <= |b.all| && a != c
    requires b.all[a - 1].Alive() && OutOfRange(b.all[a - 1], m)
    requires b.all[c - 1].Alive() && b.all[c - 1].terms.parentId == a && HeldSafe(b.all, b.pending, c)
    ensures RejectMid(Pass(b.all, b.pending, b.ledger, [], []), 0, a, c, m)
  {
    assert Has(b.pending, b.all[a - 1].id, 0);
  }
}
