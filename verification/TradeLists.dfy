/** Which trades a fill makes, moves and stamps: the lists of `update_trades`, branch by branch. */
module TradeLists {
  import opened Numbers
  import opened Positions
  import opened Trades
  import opened Ledgers
  import opened LedgerLaws

  /** A new trade of the fill's feed and candidate, stamped with its bar and time. */
  predicate NewTrade(e: Entry, id: nat, f: Fill, size: real) {
    var t := e.trade;
    && t.id == id && t.dataIndex == f.dataIndex && t.candidateId == f.candidateId
    && t.status == Open && t.isOpen && !t.isClosed && t.justOpened
    && t.size == size && e.origSize == size && t.isLong == (size > 0.0)
    && t.price == f.price && t.entryPrice == f.price && t.value == size * f.price
    && t.pnl == 0.0 && t.pnlComm == -t.commission
    && t.entryBar == f.bar && t.entryTime == f.time && t.barLen == 0
  }

  /** A finished trade of the closed list: it was `was`, and left at the fill's price. */
  predicate LeftAt(e: Entry, was: Entry, f: Fill) {
    var t, u := was.trade, e.trade;
    && SameTrade(t, u) && u.isLong == t.isLong && e.origSize == was.origSize
    && u.status == Closed && u.size == 0.0 && u.value == 0.0 && !u.isOpen && u.isClosed && !u.justOpened
    && u.exitPrice == f.price && u.exitBar == f.bar && u.exitTime == f.time
    && u.pnl == t.pnl + t.size * (f.price - t.price) && u.pnlComm == u.pnl - u.commission
    && u.price == t.price && u.entryPrice == t.entryPrice
    && u.barLen == if f.bar >= t.entryBar then f.bar - t.entryBar else 0
  }

  /** The trade in hand: the open trade of the fill's feed, which the position mirrors. */
  ghost predicate InHand(l: Ledger, k: nat, size: real, f: Fill, lot: real) {
    && Fillable(f, lot) && k == OpenIndex(l.openTrades, f.dataIndex) < |l.openTrades|
    && Running(l.openTrades[k].trade, lot) && l.openTrades[k].trade.size == size
  }

  /** What a fill leaves alone in the books of trades. */
  predicate SameMoney(l: Ledger, m: Ledger) {
    m.cash == l.cash && m.positions == l.positions
  }

  lemma TradeFields(t: TradeState, size: real, price: real, comm: real, bar: nat, time: int, lot: real)
    requires EPS <= lot && OnGrid(t.size, lot) && OnGrid(size, lot) && size != 0.0
    ensures var u := t.Filled(size, price, comm, bar, time);
            && u.justOpened == (t.size == 0.0)
            && u.isLong == (if t.size == 0.0 then size > 0.0 else t.isLong)
            && u.barLen == (var first := if t.size == 0.0 then bar else t.entryBar; if bar >= first then bar - first else 0)
            && u.exitBar == (if u.isClosed then bar else t.exitBar)
  {
    GridNearZero(size, lot);
    GridNearZero(t.size, lot);
    GridAdd(t.size, size, lot);
    GridNearZero(t.size + size, lot);
  }

  lemma BlankFills(id: nat, f: Fill, size: real, comm: real, lot: real)
    requires EPS <= lot && OnGrid(size, lot) && size != 0.0
    ensures var t := Blank(id, f.dataIndex, f.candidateId).Filled(size, f.price, comm, f.bar, f.time);
            NewTrade(Entry(t, size), id, f, size) && t.commission == comm
  {
    hide TradeState.Filled;
    GridZero(lot);
    OpenTrade(id, f.dataIndex, f.candidateId, size, f.price, comm, f.bar, f.time, lot);
    TradeFields(Blank(id, f.dataIndex, f.candidateId), size, f.price, comm, f.bar, f.time, lot);
  }

  /** On a flat position a fill opens one trade, under the next id, with the whole commission. */
  lemma FillOpens(l: Ledger, f: Fill, lot: real)
    requires Fillable(f, lot)
    ensures var m := UpdateTrades(l, 0.0, f);
            && SameMoney(l, m) && m.closedTrades == l.closedTrades && m.nextTradeId == l.nextTradeId + 1
            && |m.openTrades| == |l.openTrades| + 1 && l.openTrades <= m.openTrades
            && var e := m.openTrades[|l.openTrades|]; NewTrade(e, l.nextTradeId, f, f.size) && e.trade.commission == f.commission
  {
    hide TradeState.Filled;
    BlankFills(l.nextTradeId, f, f.size, f.commission, lot);
  }

  /** A fill in the direction of the trade adds to it in place, and to its original size. */
  lemma FillGrows(l: Ledger, k: nat, size: real, f: Fill, lot: real)
    requires InHand(l, k, size, f, lot) && ((size > 0.0 && f.size > 0.0) || (size < 0.0 && f.size < 0.0))
    ensures var m, e := UpdateTrades(l, size, f), l.openTrades[k];
            && SameMoney(l, m) && m.closedTrades == l.closedTrades && m.nextTradeId == l.nextTradeId
            && |m.openTrades| == |l.openTrades| && m.openTrades == l.openTrades[k := m.openTrades[k]]
            && var d := m.openTrades[k];
            && SameTrade(e.trade, d.trade) && d.trade.isLong == e.trade.isLong && !d.trade.justOpened
            && d.trade.size == size + f.size && d.origSize == e.origSize + f.size
            && d.trade.commission == e.trade.commission + f.commission && d.trade.pnl == e.trade.pnl
            && d.trade.size * d.trade.price == size * e.trade.price + f.size * f.price
            && d.trade.barLen == if f.bar >= e.trade.entryBar then f.bar - e.trade.entryBar else 0
  {
    hide TradeState.Filled, OpenIndex;
    var t := l.openTrades[k].trade;
    GridNearZero(size, lot);
    GrowTrade(t, f.size, f.price, f.commission, f.bar, f.time, lot);
    TradeFields(t, f.size, f.price, f.commission, f.bar, f.time, lot);
  }

  /** A fill against the trade that does not take it whole reduces it in place. */
  lemma FillShrinks(l: Ledger, k: nat, size: real, f: Fill, lot: real)
    requires InHand(l, k, size, f, lot) && ((size > 0.0 && -size < f.size < 0.0) || (size < 0.0 && 0.0 < f.size < -size))
    ensures var m, e := UpdateTrades(l, size, f), l.openTrades[k];
            && SameMoney(l, m) && m.closedTrades == l.closedTrades && m.nextTradeId == l.nextTradeId
            && |m.openTrades| == |l.openTrades| && m.openTrades == l.openTrades[k := m.openTrades[k]]
            && var d := m.openTrades[k];
            && SameTrade(e.trade, d.trade) && d.trade.isLong == e.trade.isLong && !d.trade.justOpened
            && d.trade.size == size + f.size && d.trade.price == e.trade.price && d.origSize == e.origSize
            && d.trade.commission == e.trade.commission + f.commission
            && d.trade.pnl == e.trade.pnl + f.size * (e.trade.price - f.price)
            && d.trade.barLen == if f.bar >= e.trade.entryBar then f.bar - e.trade.entryBar else 0
  {
    hide TradeState.Filled, OpenIndex;
    var t := l.openTrades[k].trade;
    GridNearZero(size, lot);
    ShrinkTrade(t, f.size, f.price, f.commission, f.bar, f.time, lot);
    TradeFields(t, f.size, f.price, f.commission, f.bar, f.time, lot);
    Spread(f.size, t.price, f.price);
  }

  lemma Spread(size: real, p: real, q: real)
    ensures size * (p - q) == size * p - size * q
  {
  }

  lemma ClosesWhole(t: TradeState, f: Fill, comm: real, orig: real, lot: real)
    requires EPS <= lot && Running(t, lot)
    ensures var u := t.Filled(-t.size, f.price, comm, f.bar, f.time);
            LeftAt(Entry(u, orig), Entry(t, orig), f) && u.commission == t.commission + comm
  {
    hide TradeState.Filled;
    GridNeg(t.size, lot);
    ShrinkTrade(t, -t.size, f.price, comm, f.bar, f.time, lot);
    TradeFields(t, -t.size, f.price, comm, f.bar, f.time, lot);
    Spread(t.size, f.price, t.price);
    assert (-t.size) * t.price == -(t.size * t.price) && (-t.size) * f.price == -(t.size * f.price);
  }

  /** A fill of the opposite size moves the trade to the end of the closed list. */
  lemma FillCloses(l: Ledger, k: nat, size: real, f: Fill, lot: real)
    requires InHand(l, k, size, f, lot) && f.size == -size
    ensures var m, e := UpdateTrades(l, size, f), l.openTrades[k];
            && SameMoney(l, m) && m.openTrades == Without(l.openTrades, k) && m.nextTradeId == l.nextTradeId
            && |m.closedTrades| == |l.closedTrades| + 1 && l.closedTrades <= m.closedTrades
            && var c := m.closedTrades[|l.closedTrades|];
               LeftAt(c, e, f) && c.trade.commission == e.trade.commission + f.commission
  {
    hide TradeState.Filled, OpenIndex;
    GridNearZero(size, lot);
    ClosesWhole(l.openTrades[k].trade, f, f.commission, l.openTrades[k].origSize, lot);
  }

  /** A larger fill against the trade closes it and opens a new one with what is left over.
      Each of the two bears the commission in proportion to its share of the fill. */
  lemma FillReverses(l: Ledger, k: nat, size: real, f: Fill, lot: real)
    requires InHand(l, k, size, f, lot) && ((size > 0.0 && f.size < -size) || (size < 0.0 && f.size > -size))
    ensures var m, e := UpdateTrades(l, size, f), l.openTrades[k];
            && SameMoney(l, m) && m.nextTradeId == l.nextTradeId + 1
            && |m.closedTrades| == |l.closedTrades| + 1 && l.closedTrades <= m.closedTrades
            && |m.openTrades| == |l.openTrades| && Without(l.openTrades, k) <= m.openTrades
            && var c, o := m.closedTrades[|l.closedTrades|], m.openTrades[|l.openTrades| - 1];
            && LeftAt(c, e, f) && NewTrade(o, l.nextTradeId, f, size + f.size)
            && (c.trade.commission - e.trade.commission) * Abs(f.size) == Abs(size) * f.commission
            && o.trade.commission * Abs(f.size) == Abs(f.size + size) * f.commission
  {
    hide TradeState.Filled, OpenIndex;
    GridNearZero(size, lot);
    GridAdd(f.size, size, lot);
    var e := l.openTrades[k];
    var share := CloseCommission(size, f);
    ClosesWhole(e.trade, f, share, e.origSize, lot);
    BlankFills(l.nextTradeId, f, f.size + size, f.commission - share, lot);
    Shares(Abs(size), Abs(f.size), f.commission, share);
    assert Abs(f.size + size) == Abs(f.size) - Abs(size);
  }

  lemma Shares(part: real, whole: real, comm: real, share: real)
    requires whole != 0.0 && share == part / whole * comm
    ensures share * whole == part * comm && (comm - share) * whole == (whole - part) * comm
  {
    var q := part / whole;
    DivMul(part, whole);
    assert share * whole == (q * whole) * comm;
    assert (comm - share) * whole == comm * whole - share * whole;
    assert (whole - part) * comm == whole * comm - part * comm;
  }

  // ------------------------------------------------------- flat again

  /** Hence a fill that takes the whole position leaves it flat, with nothing invested and
      no open trade on its feed. */
  lemma WholeFillFlattens(l: Ledger, f: Fill, lot: real)
    requires Agreement(l, lot) && PositionAt(l.positions, f.dataIndex).size != 0.0
    requires f.size == -PositionAt(l.positions, f.dataIndex).size
    ensures var p := PositionAt(Post(l, f).positions, f.dataIndex);
            p.size == 0.0 && p.avgPrice == 0.0 && p.IsFlat()
    ensures OpenIndex(Post(l, f).openTrades, f.dataIndex) == |Post(l, f).openTrades|
  {
    hide Post, OpenIndex, PosIndex, PositionState.Filled, UpdateTrades, Sum;
    var p := PositionAt(l.positions, f.dataIndex);
    PositionOnGrid(l, f.dataIndex, lot);
    GridNeg(p.size, lot);
    PostLaws(l, f, lot);
    var m := Post(l, f);
    PositionOnGrid(m, f.dataIndex, lot);
    assert forall i :: 0 <= i < |m.openTrades| ==> Mirrors(m.openTrades[i].trade, m.positions) && m.openTrades[i].trade.size != 0.0;
  }

  lemma PositionOnGrid(l: Ledger, d: nat, lot: real)
    requires Agreement(l, lot)
    ensures Sound(PositionAt(l.positions, d), lot)
  {
    GridZero(lot);
  }
}
