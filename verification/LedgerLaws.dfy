/** Double entry: every fill keeps positions and trades in agreement and moves no money
    that the trades do not account for. */
module LedgerLaws {
  import opened Numbers
  import opened Positions
  import opened Trades
  import opened Ledgers

  lemma CostsUpdate(ps: seq<PositionState>, k: nat, p: PositionState)
    requires k < |ps|
    ensures Sum(Costs(ps[k := p])) == Sum(Costs(ps)) - ps[k].Cost() + p.Cost()
  {
    assert Costs(ps[k := p]) == Costs(ps)[k := p.Cost()];
    SumUpdate(Costs(ps), k, p.Cost());
  }

  lemma EntriesAppend(ts: seq<Entry>, e: Entry)
    ensures Sum(NetPnls(ts + [e])) == Sum(NetPnls(ts)) + e.trade.pnlComm
    ensures Sum(Commissions(ts + [e])) == Sum(Commissions(ts)) + e.trade.commission
  {
    assert NetPnls(ts + [e]) == NetPnls(ts) + [e.trade.pnlComm];
    assert Commissions(ts + [e]) == Commissions(ts) + [e.trade.commission];
    SumAppend(NetPnls(ts), e.trade.pnlComm);
    SumAppend(Commissions(ts), e.trade.commission);
  }

  lemma EntriesUpdate(ts: seq<Entry>, k: nat, e: Entry)
    requires k < |ts|
    ensures Sum(NetPnls(ts[k := e])) == Sum(NetPnls(ts)) - ts[k].trade.pnlComm + e.trade.pnlComm
    ensures Sum(Commissions(ts[k := e])) == Sum(Commissions(ts)) - ts[k].trade.commission + e.trade.commission
  {
    assert NetPnls(ts[k := e]) == NetPnls(ts)[k := e.trade.pnlComm];
    assert Commissions(ts[k := e]) == Commissions(ts)[k := e.trade.commission];
    SumUpdate(NetPnls(ts), k, e.trade.pnlComm);
    SumUpdate(Commissions(ts), k, e.trade.commission);
  }

  lemma EntriesWithout(ts: seq<Entry>, k: nat)
    requires k < |ts|
    ensures Sum(NetPnls(Without(ts, k))) == Sum(NetPnls(ts)) - ts[k].trade.pnlComm
    ensures Sum(Commissions(Without(ts, k))) == Sum(Commissions(ts)) - ts[k].trade.commission
  {
    assert NetPnls(Without(ts, k)) == NetPnls(ts)[..k] + NetPnls(ts)[k + 1..];
    assert Commissions(Without(ts, k)) == Commissions(ts)[..k] + Commissions(ts)[k + 1..];
    SumRemove(NetPnls(ts), k);
    SumRemove(Commissions(ts), k);
  }

  /** Where a data feed's position ends up when one position is rewritten. */
  lemma PositionAtUpdate(ps: seq<PositionState>, k: nat, p: PositionState, d: nat)
    requires k < |ps| && p.dataIndex == ps[k].dataIndex && k == PosIndex(ps, p.dataIndex)
    ensures PositionAt(ps[k := p], d) == if d == p.dataIndex then p else PositionAt(ps, d)
  {
    hide PosIndex, OpenIndex, Sum;
    var qs := ps[k := p];
    var i, j := PosIndex(ps, d), PosIndex(qs, d);
    assert i < |ps| ==> qs[i].dataIndex == d;
    assert j < |ps| ==> ps[j].dataIndex == d;
    assert i == j;
  }

  /** The position half of a fill. */
  lemma PostPositions(ps: seq<PositionState>, f: Fill, lot: real)
    requires EPS <= lot && PositionsOk(ps, lot) && OnGrid(f.size, lot)
    ensures var qs := WithPosition(ps, f.dataIndex);
            var k := PosIndex(qs, f.dataIndex);
            var p := PositionAt(ps, f.dataIndex);
            var q := p.Filled(f.size, f.price);
            var rs := qs[k := q];
            && qs[k] == p && Sound(p, lot)
            && PositionsOk(rs, lot)
            && (forall d: nat :: PositionAt(rs, d) == if d == f.dataIndex then q else PositionAt(ps, d))
            && Sum(Costs(rs)) == Sum(Costs(ps)) - p.Cost() + q.Cost()
  {
    hide PosIndex, OpenIndex, Sum;
    var qs := WithPosition(ps, f.dataIndex);
    var k := PosIndex(qs, f.dataIndex);
    var p := PositionAt(ps, f.dataIndex);
    var q := p.Filled(f.size, f.price);
    GridZero(lot);
    FilledCostBasis(p, f.size, f.price, lot);
    CostsUpdate(qs, k, q);
    if PosIndex(ps, f.dataIndex) == |ps| {
      assert qs[..|ps|] == ps;
      assert Costs(qs) == Costs(ps) + [0.0];
      SumAppend(Costs(ps), 0.0);
      forall d: nat ensures PositionAt(qs, d) == PositionAt(ps, d) {
        if PosIndex(ps, d) < |ps| {
          assert qs[PosIndex(ps, d)].dataIndex == d;
          assert PosIndex(qs, d) == PosIndex(ps, d);
        }
      }
    }
    forall d: nat ensures PositionAt(qs[k := q], d) == if d == f.dataIndex then q else PositionAt(ps, d) {
      PositionAtUpdate(qs, k, q, d);
    }
  }

  // ---------------------------------------- one trade against its position

  /** What a fill moves out of the position's cost and the cash: the net gain that the
      trades have to show. */
  function Gain(p: PositionState, q: PositionState, f: Fill): real {
    q.Cost() - p.Cost() - f.size * f.price - f.commission
  }

  /** An open trade carries the size and the price of the position. */
  ghost predicate Paired(t: TradeState, p: PositionState, lot: real) {
    && Running(t, lot) && Sound(p, lot)
    && t.dataIndex == p.dataIndex && t.size == p.size && t.price == p.avgPrice
  }

  ghost predicate Fillable(f: Fill, lot: real) {
    EPS <= lot && OnGrid(f.size, lot) && f.size != 0.0
  }

  lemma PairOpens(id: nat, p: PositionState, f: Fill, lot: real)
    requires Fillable(f, lot) && Sound(p, lot) && p.dataIndex == f.dataIndex && p.size == 0.0
    ensures var t := Blank(id, f.dataIndex, f.candidateId).Filled(f.size, f.price, f.commission, f.bar, f.time);
            var q := p.Filled(f.size, f.price);
            && Paired(t, q, lot) && t.pnlComm == Gain(p, q, f) && t.commission == f.commission
  {
    GridZero(lot);
    GridNearZero(0.0, lot);
    GridNearZero(f.size, lot);
    OpenTrade(id, f.dataIndex, f.candidateId, f.size, f.price, f.commission, f.bar, f.time, lot);
    FilledCostBasis(p, f.size, f.price, lot);
  }

  lemma PairGrows(t: TradeState, p: PositionState, f: Fill, lot: real)
    requires Fillable(f, lot) && Paired(t, p, lot)
    requires (p.size > 0.0 && f.size > 0.0) || (p.size < 0.0 && f.size < 0.0)
    ensures var u := t.Filled(f.size, f.price, f.commission, f.bar, f.time);
            var q := p.Filled(f.size, f.price);
            && Paired(u, q, lot) && u.pnlComm == t.pnlComm + Gain(p, q, f)
            && u.commission == t.commission + f.commission
  {
    GridNearZero(p.size, lot);
    GridAdd(p.size, f.size, lot);
    GridNearZero(p.size + f.size, lot);
    GrowTrade(t, f.size, f.price, f.commission, f.bar, f.time, lot);
    FilledCostBasis(p, f.size, f.price, lot);
  }

  lemma PairShrinks(t: TradeState, p: PositionState, f: Fill, lot: real)
    requires Fillable(f, lot) && Paired(t, p, lot)
    requires (p.size > 0.0 && -p.size <= f.size < 0.0) || (p.size < 0.0 && 0.0 < f.size <= -p.size)
    ensures var u := t.Filled(f.size, f.price, f.commission, f.bar, f.time);
            var q := p.Filled(f.size, f.price);
            && (if f.size == -p.size then Finished(u) && q.size == 0.0 else Paired(u, q, lot))
            && u.dataIndex == t.dataIndex
            && u.pnlComm == t.pnlComm + Gain(p, q, f)
            && u.commission == t.commission + f.commission
  {
    GridNearZero(p.size, lot);
    GridAdd(p.size, f.size, lot);
    GridNearZero(p.size + f.size, lot);
    ShrinkTrade(t, f.size, f.price, f.commission, f.bar, f.time, lot);
    FilledCostBasis(p, f.size, f.price, lot);
  }

  /** A reversal is split: the old trade closes with its share of the commission and a
      new one opens with the rest; together they show the whole gain. */
  lemma PairReverses(t: TradeState, id: nat, p: PositionState, f: Fill, lot: real)
    requires Fillable(f, lot) && Paired(t, p, lot)
    requires (p.size > 0.0 && f.size < -p.size) || (p.size < 0.0 && f.size > -p.size)
    ensures var closeComm := CloseCommission(t.size, f);
            var u := t.Filled(-t.size, f.price, closeComm, f.bar, f.time);
            var v := Blank(id, f.dataIndex, f.candidateId).Filled(f.size + t.size, f.price, f.commission - closeComm, f.bar, f.time);
            var q := p.Filled(f.size, f.price);
            && Finished(u) && v.dataIndex == f.dataIndex
            && (p.dataIndex == f.dataIndex ==> Paired(v, q, lot))
            && u.pnlComm + v.pnlComm == t.pnlComm + Gain(p, q, f)
            && u.commission + v.commission == t.commission + f.commission
  {
    var closeComm := CloseCommission(t.size, f);
    GridNearZero(p.size, lot);
    GridNeg(p.size, lot);
    GridAdd(f.size, p.size, lot);
    GridNearZero(p.size + f.size, lot);
    ShrinkTrade(t, -t.size, f.price, closeComm, f.bar, f.time, lot);
    OpenTrade(id, f.dataIndex, f.candidateId, f.size + t.size, f.price, f.commission - closeComm, f.bar, f.time, lot);
    FilledCostBasis(p, f.size, f.price, lot);
  }

  // ------------------------------------------------- the list of open trades

  /** The state between the two halves of a fill: the position of data feed `p.dataIndex`
      has been rewritten, the trades still mirror the position `p` that was there. */
  ghost predicate Between(l: Ledger, p: PositionState, lot: real) {
    && Sound(p, lot)
    && ClosedTradesOk(l.closedTrades)
    && (forall i, j :: 0 <= i < j < |l.openTrades| ==> l.openTrades[i].trade.dataIndex != l.openTrades[j].trade.dataIndex)
    && (forall i :: 0 <= i < |l.openTrades| ==>
          var t := l.openTrades[i].trade;
          Running(t, lot) && if t.dataIndex == p.dataIndex then Paired(t, p, lot) else Mirrors(t, l.positions))
    && (forall d: nat :: (if d == p.dataIndex then p else PositionAt(l.positions, d)).size != 0.0 ==>
          OpenIndex(l.openTrades, d) < |l.openTrades|)
  }

  /** What the trade half of a fill has to establish. */
  ghost predicate Follows(l: Ledger, m: Ledger, gain: real, comm: real, lot: real) {
    && m.positions == l.positions && m.cash == l.cash
    && OpenTradesOk(m.openTrades, m.positions, lot)
    && Covered(m.openTrades, m.positions)
    && ClosedTradesOk(m.closedTrades)
    && NetPnl(m) == NetPnl(l) + gain
    && CommissionPaid(m) == CommissionPaid(l) + comm
  }

  lemma OpenIndexIs(ts: seq<Entry>, d: nat, k: nat)
    requires k < |ts| && ts[k].trade.dataIndex == d && ts[k].trade.status == Open
    ensures OpenIndex(ts, d) <= k
  {
  }

  /** Replacing the trade of a data feed leaves every feed's trade findable. */
  lemma ReplaceCovers(ts: seq<Entry>, k: nat, e: Entry, d: nat)
    requires k < |ts| && e.trade.dataIndex == ts[k].trade.dataIndex && e.trade.status == ts[k].trade.status == Open
    requires OpenIndex(ts, d) < |ts|
    ensures OpenIndex(ts[k := e], d) < |ts|
  {
    hide PosIndex, OpenIndex, Sum;
    OpenIndexIs(ts[k := e], d, OpenIndex(ts, d));
  }

  lemma AppendCovers(ts: seq<Entry>, e: Entry, d: nat)
    requires e.trade.status == Open
    requires d == e.trade.dataIndex || OpenIndex(ts, d) < |ts|
    ensures OpenIndex(ts + [e], d) < |ts| + 1
  {
    hide PosIndex, OpenIndex, Sum;
    var us := ts + [e];
    if d == e.trade.dataIndex {
      assert us[|ts|] == e;
      OpenIndexIs(us, d, |ts|);
    } else {
      var i := OpenIndex(ts, d);
      assert us[i] == ts[i];
      OpenIndexIs(us, d, i);
    }
  }

  lemma WithoutCovers(ts: seq<Entry>, k: nat, d: nat)
    requires k < |ts| && d != ts[k].trade.dataIndex && OpenIndex(ts, d) < |ts|
    ensures OpenIndex(Without(ts, k), d) < |ts| - 1
  {
    hide PosIndex, OpenIndex, Sum;
    var i := OpenIndex(ts, d);
    var us := Without(ts, k);
    if i < k {
      assert us[i] == ts[i];
      OpenIndexIs(us, d, i);
    } else {
      assert us[i - 1] == ts[i];
      OpenIndexIs(us, d, i - 1);
    }
  }

  lemma ListAppends(l: Ledger, p: PositionState, e: Entry, nextId: nat, lot: real)
    requires Between(l, p, lot) && p.size == 0.0 && Paired(e.trade, PositionAt(l.positions, p.dataIndex), lot)
    requires e.trade.dataIndex == p.dataIndex
    ensures Follows(l, l.(openTrades := l.openTrades + [e], nextTradeId := nextId), e.trade.pnlComm, e.trade.commission, lot)
  {
    hide PosIndex, OpenIndex, Sum;
    var ts := l.openTrades + [e];
    EntriesAppend(l.openTrades, e);
    forall d: nat | PositionAt(l.positions, d).size != 0.0 ensures OpenIndex(ts, d) < |ts| {
      AppendCovers(l.openTrades, e, d);
    }
  }

  lemma ListReplaces(l: Ledger, p: PositionState, k: nat, e: Entry, lot: real)
    requires Between(l, p, lot) && k < |l.openTrades| && l.openTrades[k].trade.dataIndex == p.dataIndex == e.trade.dataIndex
    requires Paired(e.trade, PositionAt(l.positions, p.dataIndex), lot)
    ensures var t := l.openTrades[k].trade;
            Follows(l, l.(openTrades := l.openTrades[k := e]), e.trade.pnlComm - t.pnlComm, e.trade.commission - t.commission, lot)
  {
    hide PosIndex, OpenIndex, Sum;
    var ts := l.openTrades[k := e];
    EntriesUpdate(l.openTrades, k, e);
    forall d: nat | PositionAt(l.positions, d).size != 0.0 ensures OpenIndex(ts, d) < |ts| {
      ReplaceCovers(l.openTrades, k, e, d);
    }
  }

  /** Moving a finished trade to the closed list leaves the books of the other feeds
      as they are, and those of this feed as for a flat position. */
  lemma ListCloses(l: Ledger, p: PositionState, k: nat, t: TradeState, lot: real)
    requires Between(l, p, lot) && k < |l.openTrades| && l.openTrades[k].trade.dataIndex == p.dataIndex
    requires EPS <= lot && Finished(t)
    ensures var m := Closing(l, k, t);
            && Between(m, Flat(p.dataIndex), lot)
            && NetPnl(m) == NetPnl(l) - l.openTrades[k].trade.pnlComm + t.pnlComm
            && CommissionPaid(m) == CommissionPaid(l) - l.openTrades[k].trade.commission + t.commission
            && (PositionAt(l.positions, p.dataIndex).size == 0.0 ==>
                  OpenTradesOk(m.openTrades, m.positions, lot) && Covered(m.openTrades, m.positions))
  {
    hide PosIndex, OpenIndex, Sum;
    GridZero(lot);
    EntriesWithout(l.openTrades, k);
    EntriesAppend(l.closedTrades, Entry(t, l.openTrades[k].origSize));
    var m := Closing(l, k, t);
    assert forall i :: 0 <= i < |m.openTrades| ==>
        m.openTrades[i] in l.openTrades && m.openTrades[i].trade.dataIndex != p.dataIndex;
    forall d: nat | d != p.dataIndex && PositionAt(l.positions, d).size != 0.0
      ensures OpenIndex(m.openTrades, d) < |m.openTrades|
    {
      WithoutCovers(l.openTrades, k, d);
    }
  }

  // ------------------------------------------------------- the laws of a fill

  /** The trade half of a fill. */
  lemma TradesFollow(l: Ledger, p: PositionState, f: Fill, lot: real)
    requires Fillable(f, lot) && Between(l, p, lot) && p.dataIndex == f.dataIndex
    requires PositionAt(l.positions, f.dataIndex) == p.Filled(f.size, f.price)
    ensures Follows(l, UpdateTrades(l, p.size, f), Gain(p, p.Filled(f.size, f.price), f), f.commission, lot)
  {
    hide PosIndex, OpenIndex, Sum;
    GridNearZero(p.size, lot);
    if p.size == 0.0 {
      PairOpens(l.nextTradeId, p, f, lot);
      var t := Blank(l.nextTradeId, f.dataIndex, f.candidateId).Filled(f.size, f.price, f.commission, f.bar, f.time);
      ListAppends(l, p, Entry(t, f.size), l.nextTradeId + 1, lot);
    } else if Abs(f.size) > Abs(p.size) && !((p.size > 0.0 && f.size > 0.0) || (p.size < 0.0 && f.size < 0.0)) {
      TradesReverse(l, p, f, lot);
    } else {
      TradesInPlace(l, p, f, lot);
    }
  }

  lemma TradesInPlace(l: Ledger, p: PositionState, f: Fill, lot: real)
    requires Fillable(f, lot) && Between(l, p, lot) && p.dataIndex == f.dataIndex && p.size != 0.0
    requires PositionAt(l.positions, f.dataIndex) == p.Filled(f.size, f.price)
    requires (p.size > 0.0 && f.size > 0.0) || (p.size < 0.0 && f.size < 0.0) || Abs(f.size) <= Abs(p.size)
    ensures Follows(l, UpdateTrades(l, p.size, f), Gain(p, p.Filled(f.size, f.price), f), f.commission, lot)
  {
    hide PosIndex, OpenIndex, Sum;
    GridNearZero(p.size, lot);
    var k := OpenIndex(l.openTrades, f.dataIndex);
    var e := l.openTrades[k];
    var u := e.trade.Filled(f.size, f.price, f.commission, f.bar, f.time);
    if (p.size > 0.0 && f.size > 0.0) || (p.size < 0.0 && f.size < 0.0) {
      PairGrows(e.trade, p, f, lot);
      ListReplaces(l, p, k, Entry(u, e.origSize + f.size), lot);
    } else {
      PairShrinks(e.trade, p, f, lot);
      if f.size == -p.size {
        ListCloses(l, p, k, u, lot);
      } else {
        ListReplaces(l, p, k, Entry(u, e.origSize), lot);
      }
    }
  }

  lemma TradesReverse(l: Ledger, p: PositionState, f: Fill, lot: real)
    requires Fillable(f, lot) && Between(l, p, lot) && p.dataIndex == f.dataIndex
    requires PositionAt(l.positions, f.dataIndex) == p.Filled(f.size, f.price)
    requires (p.size > 0.0 && f.size < -p.size) || (p.size < 0.0 && f.size > -p.size)
    ensures Follows(l, UpdateTrades(l, p.size, f), Gain(p, p.Filled(f.size, f.price), f), f.commission, lot)
  {
    hide PosIndex, OpenIndex, Sum;
    GridNearZero(p.size, lot);
    var k := OpenIndex(l.openTrades, f.dataIndex);
    var t := l.openTrades[k].trade;
    PairReverses(t, l.nextTradeId, p, f, lot);
    var closeComm := CloseCommission(t.size, f);
    var u := t.Filled(-t.size, f.price, closeComm, f.bar, f.time);
    var rest := f.size + t.size;
    var v := Blank(l.nextTradeId, f.dataIndex, f.candidateId).Filled(rest, f.price, f.commission - closeComm, f.bar, f.time);
    ListCloses(l, p, k, u, lot);
    var m := Closing(l, k, u);
    ListAppends(m, Flat(p.dataIndex), Entry(v, rest), l.nextTradeId + 1, lot);
  }

  /** The laws of one fill: agreement is kept, no money appears or disappears, the
      commission is carried by the trades, and only the position filled moves. */
  lemma PostLaws(l: Ledger, f: Fill, lot: real)
    requires Agreement(l, lot) && OnGrid(f.size, lot) && f.size != 0.0
    ensures var m := Post(l, f);
            && Agreement(m, lot)
            && m.cash == l.cash - (f.size * f.price + f.commission)
            && m.cash + Invested(m) - NetPnl(m) == l.cash + Invested(l) - NetPnl(l)
            && CommissionPaid(m) == CommissionPaid(l) + f.commission
            && (forall d: nat :: PositionAt(m.positions, d).size ==
                  PositionAt(l.positions, d).size + if d == f.dataIndex then f.size else 0.0)
  {
    hide PosIndex, OpenIndex, Sum, UpdateTrades, PositionState.Filled, Post;
    var p := PositionAt(l.positions, f.dataIndex);
    var q := p.Filled(f.size, f.price);
    PostPositions(l.positions, f, lot);
    FilledCostBasis(p, f.size, f.price, lot);
    var ps := WithPosition(l.positions, f.dataIndex);
    var k := PosIndex(ps, f.dataIndex);
    var l1 := l.(cash := l.cash - (f.size * f.price + f.commission), positions := ps[k := q]);
    BetweenHalves(l, l1, p, lot);
    TradesFollow(l1, p, f, lot);
    PostSplit(l, f);
  }

  lemma BetweenHalves(l: Ledger, l1: Ledger, p: PositionState, lot: real)
    requires Agreement(l, lot) && p == PositionAt(l.positions, p.dataIndex)
    requires l1.openTrades == l.openTrades && l1.closedTrades == l.closedTrades
    requires forall d: nat :: d != p.dataIndex ==> PositionAt(l1.positions, d) == PositionAt(l.positions, d)
    ensures Between(l1, p, lot)
  {
    hide PosIndex, OpenIndex, Sum;
    GridZero(lot);
  }
}
