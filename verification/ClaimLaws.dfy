/** Candidate ids inside the broker: a trade carries the id of the completed order that
    opened it, and no other trade does. */
module ClaimLaws {
  import opened Numbers
  import opened Orders
  import opened Positions
  import opened Trades
  import opened Ledgers
  import opened Fills
  import opened Brokers
  import opened BookLaws
  import opened RunLaws
  import opened AccountLaws

  // ------------------------------------------------------------ counting

  function Count(s: seq<nat>, c: nat): nat {
    multiset(s)[c]
  }

  function One(b: bool): nat {
    if b then 1 else 0
  }

  lemma CountAppend(s: seq<nat>, t: seq<nat>, c: nat)
    ensures Count(s + t, c) == Count(s, c) + Count(t, c)
  {
  }

  lemma CountUpdate(s: seq<nat>, k: nat, x: nat, c: nat)
    requires k < |s|
    ensures Count(s[k := x], c) == Count(s, c) - One(s[k] == c) + One(x == c)
  {
    assert s == s[..k] + [s[k]] + s[k + 1..];
    assert s[k := x] == s[..k] + [x] + s[k + 1..];
  }

  lemma CountWithout(s: seq<nat>, k: nat, c: nat)
    requires k < |s|
    ensures Count(Without(s, k), c) == Count(s, c) - One(s[k] == c)
  {
    assert s == s[..k] + [s[k]] + s[k + 1..];
  }

  lemma {:induction false} CountPointwise(s: seq<nat>, t: seq<nat>, c: nat)
    requires |s| == |t| && forall k :: 0 <= k < |s| && s[k] == c ==> t[k] == c
    ensures Count(s, c) <= Count(t, c)
  {
    if s != [] {
      var n := |s| - 1;
      CountPointwise(s[..n], t[..n], c);
      assert s == s[..n] + [s[n]] && t == t[..n] + [t[n]];
    }
  }

  lemma CountIn(s: seq<nat>, c: nat)
    ensures c in s <==> Count(s, c) > 0
  {
    assert c in s <==> c in multiset(s);
  }

  /** An element counted once stands in one place. */
  lemma CountDistinct(s: seq<nat>, i: nat, j: nat)
    requires i < j < |s| && s[i] == s[j]
    ensures Count(s, s[i]) >= 2
  {
    assert s == s[..j] + [s[j]] + s[j + 1..];
    CountIn(s[..j], s[i]);
    assert s[..j][i] == s[i];
  }

  // ------------------------------------------------------ who carries ids

  function TradeIds(ts: seq<Entry>): seq<nat> {
    seq(|ts|, i requires 0 <= i < |ts| => ts[i].trade.candidateId)
  }

  function OrderIds(all: seq<Order>): seq<nat> {
    seq(|all|, i requires 0 <= i < |all| => all[i].terms.candidateId)
  }

  /** The ids of the completed orders, zero in the place of the others. */
  function DoneIds(all: seq<Order>): seq<nat> {
    seq(|all|, i requires 0 <= i < |all| => if all[i].status == Completed then all[i].terms.candidateId else 0)
  }

  /** How many trades, closed and open, carry the id. */
  function Carried(l: Ledger, c: nat): nat {
    Count(TradeIds(l.closedTrades), c) + Count(TradeIds(l.openTrades), c)
  }

  lemma DoneAreOrders(all: seq<Order>, c: nat)
    requires c > 0
    ensures Count(DoneIds(all), c) <= Count(OrderIds(all), c)
  {
    CountPointwise(DoneIds(all), OrderIds(all), c);
  }

  lemma FilledKeepsId(t: TradeState, size: real, price: real, comm: real, bar: nat, time: int)
    ensures t.Filled(size, price, comm, bar, time).candidateId == t.candidateId
  {
  }

  lemma OpeningCarries(l: Ledger, f: Fill, size: real, comm: real, c: nat)
    ensures var m := Opening(l, f, size, comm);
            m.closedTrades == l.closedTrades && Carried(m, c) == Carried(l, c) + One(f.candidateId == c)
  {
    hide TradeState.Filled;
    var t := Blank(l.nextTradeId, f.dataIndex, f.candidateId).Filled(size, f.price, comm, f.bar, f.time);
    FilledKeepsId(Blank(l.nextTradeId, f.dataIndex, f.candidateId), size, f.price, comm, f.bar, f.time);
    assert TradeIds(l.openTrades + [Entry(t, size)]) == TradeIds(l.openTrades) + [f.candidateId];
    CountAppend(TradeIds(l.openTrades), [f.candidateId], c);
  }

  lemma ClosingCarries(l: Ledger, k: nat, t: TradeState, c: nat)
    requires k < |l.openTrades| && t.candidateId == l.openTrades[k].trade.candidateId
    ensures var m := Closing(l, k, t);
            l.closedTrades <= m.closedTrades && Carried(m, c) == Carried(l, c)
  {
    var m := Closing(l, k, t);
    assert TradeIds(m.closedTrades) == TradeIds(l.closedTrades) + [t.candidateId];
    CountAppend(TradeIds(l.closedTrades), [t.candidateId], c);
    assert TradeIds(m.openTrades) == Without(TradeIds(l.openTrades), k);
    CountWithout(TradeIds(l.openTrades), k, c);
  }

  lemma ReplacingCarries(l: Ledger, k: nat, e: Entry, c: nat)
    requires k < |l.openTrades| && e.trade.candidateId == l.openTrades[k].trade.candidateId
    ensures Carried(l.(openTrades := l.openTrades[k := e]), c) == Carried(l, c)
  {
    assert TradeIds(l.openTrades[k := e]) == TradeIds(l.openTrades);
  }

  /** A fill gives its candidate id to at most one new trade and takes none away; closed
      trades stay where they are. */
  lemma PostCarries(l: Ledger, f: Fill, c: nat)
    ensures var m := Post(l, f);
            l.closedTrades <= m.closedTrades && Carried(l, c) <= Carried(m, c) <= Carried(l, c) + One(f.candidateId == c)
  {
    hide Post, UpdateTrades, Carried, PosIndex, WithPosition, PositionAt, PositionState.Filled;
    PostSplit(l, f);
    var ps := WithPosition(l.positions, f.dataIndex);
    var p := PositionAt(l.positions, f.dataIndex);
    var q := ps[PosIndex(ps, f.dataIndex) := p.Filled(f.size, f.price)];
    var m := l.(cash := l.cash - (f.size * f.price + f.commission), positions := q);
    SameTradesCarry(l, m, c);
    UpdateCarries(m, p.size, f, c);
  }

  lemma SameTradesCarry(l: Ledger, m: Ledger, c: nat)
    requires l.openTrades == m.openTrades && l.closedTrades == m.closedTrades
    ensures Carried(l, c) == Carried(m, c)
  {
  }

  lemma UpdateCarries(l: Ledger, oldSize: real, f: Fill, c: nat)
    ensures var m := UpdateTrades(l, oldSize, f);
            l.closedTrades <= m.closedTrades && Carried(l, c) <= Carried(m, c) <= Carried(l, c) + One(f.candidateId == c)
  {
    hide TradeState.Filled, Opening, Closing, OpenIndex, Carried, CloseCommission;
    OpeningCarries(l, f, f.size, f.commission, c);
    var k := OpenIndex(l.openTrades, f.dataIndex);
    if k < |l.openTrades| {
      var e := l.openTrades[k];
      var t := e.trade.Filled(f.size, f.price, f.commission, f.bar, f.time);
      FilledKeepsId(e.trade, f.size, f.price, f.commission, f.bar, f.time);
      ReplacingCarries(l, k, Entry(t, e.origSize + f.size), c);
      ReplacingCarries(l, k, Entry(t, e.origSize), c);
      ClosingCarries(l, k, t, c);
      if Abs(f.size) > Abs(e.trade.size) {
        var comm := CloseCommission(e.trade.size, f);
        var u := e.trade.Filled(-e.trade.size, f.price, comm, f.bar, f.time);
        FilledKeepsId(e.trade, -e.trade.size, f.price, comm, f.bar, f.time);
        ClosingCarries(l, k, u, c);
        OpeningCarries(Closing(l, k, u), f, f.size + e.trade.size, f.commission - comm, c);
      }
    }
  }

  // ------------------------------------------------------------- the pass

  /** No more trades carry the id than completed orders do, and the trades that were
      closed before still head the list. */
  ghost predicate Claimed(all: seq<Order>, l: Ledger, closed: seq<Entry>, c: nat) {
    closed <= l.closedTrades && Carried(l, c) <= Count(DoneIds(all), c)
  }

  lemma QuietKeepsIds(all: seq<Order>, all': seq<Order>)
    requires NoneCompletes(all, all')
    ensures DoneIds(all') == DoneIds(all) && OrderIds(all') == OrderIds(all)
  {
  }

  lemma ExecuteClaims(o: Order, s: Step, l: Ledger, all: seq<Order>, closed: seq<Entry>, c: nat)
    requires Executes(o, s, l, all) && Claimed(all, l, closed, c) && c > 0
    requires all[o.id - 1].terms == o.terms && all[o.id - 1].status == o.status
    ensures Claimed(s.all, s.ledger, closed, c)
  {
    hide Post, Carried;
    var e := s.order.execution;
    var bar: nat, time: int :| s.ledger == Post(l, ToFill(s.order, e.price, e.commission, bar, time));
    PostCarries(l, ToFill(s.order, e.price, e.commission, bar, time), c);
    assert DoneIds(s.all) == DoneIds(all)[o.id - 1 := o.terms.candidateId];
    CountUpdate(DoneIds(all), o.id - 1, o.terms.candidateId, c);
  }

  lemma TurnClaims(o: Order, all: seq<Order>, l: Ledger, m: Snapshot, cfg: Config, closed: seq<Entry>, c: nat)
    requires BookIds(all) && CopyOf(o, all) && Claimed(all, l, closed, c) && c > 0
    ensures var s := OrderStep(o, all, l, m, cfg);
            Claimed(s.all, s.ledger, closed, c)
  {
    hide OrderStep, Executes, Carried;
    var s := OrderStep(o, all, l, m, cfg);
    OrderStepMoney(o, all, l, m, cfg);
    OrderStepFacts(o, all, l, m, cfg);
    if s.order.status == Completed && o.status != Completed {
      var p: Order, all1: seq<Order> :| p.id == o.id && p.terms == o.terms && NoneCompletes(all, all1) &&
        CopyOf(p, all1) && Executes(p, s, l, all1);
      QuietKeepsIds(all, all1);
      ExecuteClaims(p, s, l, all1, closed, c);
    } else {
      OneMovesQuiet(all, s.all, o.id);
      QuietKeepsIds(all, s.all);
    }
  }

  lemma PassStepClaims(p: Pass, i: nat, m: Snapshot, cfg: Config, closed: seq<Entry>, c: nat)
    requires PassOk(p, i) && i < |p.pending| && Claimed(p.all, p.ledger, closed, c) && c > 0
    ensures var q := PassStep(p, i, m, cfg);
            Claimed(q.all, q.ledger, closed, c)
  {
    hide OrderStep, CancelWhere, Activate, Carried;
    var o := p.pending[i];
    PassOkParts(p, i);
    var s := OrderStep(o, p.all, p.ledger, m, cfg);
    TurnClaims(o, p.all, p.ledger, m, cfg, closed, c);
    OrderStepFacts(o, p.all, p.ledger, m, cfg);
    if s.fate == Attempted {
      TurnOk(p, i, s);
      var t := AfterTurn(p, i, s);
      CancelChildrenOk(t, i + 1, o.id);
      var r := CancelWhere(Lists(t.all, t.pending), ChildrenOf(o.id), 0);
      CancelledQuiet(Lists(t.all, t.pending), r.all, ChildrenOf(o.id));
      QuietKeepsIds(t.all, r.all);
    }
  }

  lemma {:induction false} RunPassClaims(p: Pass, i: nat, m: Snapshot, cfg: Config, closed: seq<Entry>, c: nat)
    requires i <= |p.pending| && PassOk(p, i) && Claimed(p.all, p.ledger, closed, c) && c > 0
    ensures var q := RunPass(p, i, m, cfg);
            Claimed(q.all, q.ledger, closed, c)
    decreases |p.pending| - i
  {
    hide PassOk, PassStep, Claimed;
    if i < |p.pending| {
      PassStepClaims(p, i, m, cfg, closed, c);
      PassStepOk(p, i, m, cfg);
      RunPassClaims(PassStep(p, i, m, cfg), i + 1, m, cfg, closed, c);
    }
  }

  /** A whole pass over the pending orders keeps the claims, forgets no closed trade, and
      submits nothing. */
  lemma ProcessClaims(b: Broker, m: Snapshot, c: nat)
    requires BookOk(b) && Carried(b.ledger, c) <= Count(DoneIds(b.all), c) && c > 0
    ensures var b' := Process(b, m);
            && b.ledger.closedTrades <= b'.ledger.closedTrades
            && Carried(b'.ledger, c) <= Count(DoneIds(b'.all), c)
            && OrderIds(b'.all) == OrderIds(b.all)
  {
    hide RunPass, Sweep, PassOk, Carried;
    var p0 := Pass(b.all, b.pending, b.ledger, [], []);
    PassStarts(b);
    RunPassClaims(p0, 0, m, b.config, b.ledger.closedTrades, c);
    RunPassOk(p0, 0, m, b.config);
    var p := RunPass(p0, 0, m, b.config);
    SweepOk(p);
    CancelledQuiet(Lists(p.all, p.still), Sweep(p).all, InGroups(p.groups));
    QuietKeepsIds(p.all, Sweep(p).all);
    SameTerms(b.all, p.all);
  }

  lemma SameTerms(all: seq<Order>, all': seq<Order>)
    requires Advances(all, all') && |all| == |all'|
    ensures OrderIds(all') == OrderIds(all)
  {
    forall k | 0 <= k < |all| ensures all[k].terms == all'[k].terms {
      assert Evolves(all[k], all'[k]);
    }
  }

  // --------------------------------------------------------- other events

  /** The order a verdict lets through. */
  function Admitted(v: Verdict, c: nat): nat {
    One(!v.rejected && v.candidateId == c)
  }

  predicate SameTrades(b: Broker, b': Broker) {
    b'.ledger.openTrades == b.ledger.openTrades && b'.ledger.closedTrades == b.ledger.closedTrades
  }

  lemma SubmitClaims(b: Broker, side: Side, params: OrderParams, v: Verdict, c: nat)
    requires c > 0
    ensures var b' := Submit(b, side, params, v);
            && SameTrades(b, b') && Count(DoneIds(b'.all), c) == Count(DoneIds(b.all), c)
            && Count(OrderIds(b'.all), c) == Count(OrderIds(b.all), c) + Admitted(v, c)
  {
    if !v.rejected {
      var o := NewOrder(b.nextOrderId, side, params, v);
      assert DoneIds(b.all + [o]) == DoneIds(b.all) + [0];
      assert OrderIds(b.all + [o]) == OrderIds(b.all) + [v.candidateId];
      CountAppend(DoneIds(b.all), [0], c);
      CountAppend(OrderIds(b.all), [v.candidateId], c);
    }
  }

  lemma BracketClaims(b: Broker, side: Side, lp: real, sp: real, d: nat, vm: Verdict, vl: Verdict, vs: Verdict, c: nat)
    requires c > 0
    ensures var b' := Bracket(b, side, lp, sp, d, vm, vl, vs);
            && SameTrades(b, b') && Count(DoneIds(b'.all), c) == Count(DoneIds(b.all), c)
            && Count(OrderIds(b'.all), c) == Count(OrderIds(b.all), c) + Admitted(vm, c) + Admitted(vl, c) + Admitted(vs, c)
  {
    hide Submit, WithChildren, Count;
    var group := b.nextOcoGroupId;
    var b0 := b.(nextOcoGroupId := group + 1);
    var main := SubmittedId(b0, vm);
    var b1 := Submit(b0, side, MarketParams(d), vm);
    SubmitClaims(b0, side, MarketParams(d), vm, c);
    var b2 := Submit(b1, Opposite(side), TakeProfitParams(lp, d, main, group), vl);
    SubmitClaims(b1, Opposite(side), TakeProfitParams(lp, d, main, group), vl, c);
    var b3 := Submit(b2, Opposite(side), StopLossParams(sp, d, main, group), vs);
    SubmitClaims(b2, Opposite(side), StopLossParams(sp, d, main, group), vs, c);
    ChildrenQuiet(b3.all, main, [SubmittedId(b1, vl), SubmittedId(b2, vs)]);
    QuietKeepsIds(b3.all, WithChildren(b3.all, main, [SubmittedId(b1, vl), SubmittedId(b2, vs)]));
  }

  lemma CancelClaims(b: Broker, id: nat)
    requires BookOk(b)
    ensures var b' := Cancel(b, id);
            SameTrades(b, b') && DoneIds(b'.all) == DoneIds(b.all) && OrderIds(b'.all) == OrderIds(b.all)
  {
    var s := Lists(b.all, b.pending);
    CancelBook(s, WithId(id), 0);
    CancelledQuiet(s, CancelWhere(s, WithId(id), 0).all, WithId(id));
    QuietKeepsIds(b.all, Cancel(b, id).all);
  }

  lemma CloseClaims(b: Broker, d: nat, v: Verdict, c: nat)
    requires c > 0
    ensures var b' := Close(b, d, v);
            && SameTrades(b, b') && Count(DoneIds(b'.all), c) == Count(DoneIds(b.all), c)
            && Count(OrderIds(b'.all), c) <= Count(OrderIds(b.all), c) + Admitted(v, c)
  {
    hide Submit, WithPosition, PositionAt;
    var b1 := b.(ledger := b.ledger.(positions := WithPosition(b.ledger.positions, d)));
    SubmitClaims(b1, Buy, MarketParams(d), v, c);
    SubmitClaims(b1, Sell, MarketParams(d), v, c);
  }
}
