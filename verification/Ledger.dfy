/** Cash, positions and trades: what one fill does to the broker's books
    (`broker.hpp`, `try_fill_order` from the execution on, `get_position`,
    `update_trades`), and the laws that keep the three in agreement. */
module Ledgers {
  import opened Numbers
  import opened Positions
  import opened Trades

  /** A trade with the size the notification reports as original. */
  datatype Entry = Entry(trade: TradeState, origSize: real)

  datatype Ledger = Ledger(
    cash: real,
    positions: seq<PositionState>,
    openTrades: seq<Entry>,
    closedTrades: seq<Entry>,
    nextTradeId: nat)

  /** A fill: what is known when an order executes. */
  datatype Fill = Fill(dataIndex: nat, size: real, price: real, commission: real, bar: nat, time: int, candidateId: nat)

  function PosIndex(ps: seq<PositionState>, d: nat): (k: nat)
    ensures k <= |ps|
    ensures k < |ps| ==> ps[k].dataIndex == d
    ensures forall j :: 0 <= j < k ==> ps[j].dataIndex != d
  {
    if ps == [] || ps[0].dataIndex == d then 0 else 1 + PosIndex(ps[1..], d)
  }

  function OpenIndex(ts: seq<Entry>, d: nat): (k: nat)
    ensures k <= |ts|
    ensures k < |ts| ==> ts[k].trade.dataIndex == d && ts[k].trade.status == Open
    ensures forall j :: 0 <= j < k ==> !(ts[j].trade.dataIndex == d && ts[j].trade.status == Open)
  {
    if ts == [] || (ts[0].trade.dataIndex == d && ts[0].trade.status == Open) then 0 else 1 + OpenIndex(ts[1..], d)
  }

  /** The position of a data feed; a feed never traded is flat. */
  function PositionAt(ps: seq<PositionState>, d: nat): PositionState {
    var k := PosIndex(ps, d);
    if k < |ps| then ps[k] else Flat(d)
  }

  /** `get_position`: a missing position is created flat at the end. */
  function WithPosition(ps: seq<PositionState>, d: nat): (qs: seq<PositionState>)
    ensures PosIndex(qs, d) < |qs|
    ensures PositionAt(qs, d) == PositionAt(ps, d)
  {
    var k := PosIndex(ps, d);
    if k < |ps| then ps
    else
      var qs := ps + [Flat(d)];
      assert qs[|ps|].dataIndex == d;
      assert PosIndex(qs, d) == |ps|;
      qs
  }

  function Without<T>(s: seq<T>, k: nat): seq<T>
    requires k < |s|
  {
    s[..k] + s[k + 1..]
  }

  function Opening(l: Ledger, f: Fill, size: real, comm: real): Ledger {
    var t := Blank(l.nextTradeId, f.dataIndex, f.candidateId).Filled(size, f.price, comm, f.bar, f.time);
    l.(openTrades := l.openTrades + [Entry(t, size)], nextTradeId := l.nextTradeId + 1)
  }

  function Closing(l: Ledger, k: nat, t: TradeState): Ledger
    requires k < |l.openTrades|
  {
    l.(closedTrades := l.closedTrades + [Entry(t, l.openTrades[k].origSize)], openTrades := Without(l.openTrades, k))
  }

  function CloseCommission(tradeSize: real, f: Fill): real
    requires f.size != 0.0
  {
    Abs(tradeSize) / Abs(f.size) * f.commission
  }

  /** `update_trades` for a data feed that has an open trade, at index `k`. */
  function UpdateEntry(l: Ledger, k: nat, oldSize: real, f: Fill): Ledger
    requires k < |l.openTrades|
  {
    var e := l.openTrades[k];
    if (oldSize > 0.0 && f.size > 0.0) || (oldSize < 0.0 && f.size < 0.0) then
      var t := e.trade.Filled(f.size, f.price, f.commission, f.bar, f.time);
      l.(openTrades := l.openTrades[k := Entry(t, e.origSize + f.size)])
    else if Abs(f.size) > Abs(e.trade.size) then
      var closeComm := CloseCommission(e.trade.size, f);
      var t := e.trade.Filled(-e.trade.size, f.price, closeComm, f.bar, f.time);
      Opening(Closing(l, k, t), f, f.size + e.trade.size, f.commission - closeComm)
    else
      var t := e.trade.Filled(f.size, f.price, f.commission, f.bar, f.time);
      if t.status == Closed then Closing(l, k, t)
      else l.(openTrades := l.openTrades[k := Entry(t, e.origSize)])
  }

  /** `update_trades`. */
  function UpdateTrades(l: Ledger, oldSize: real, f: Fill): Ledger {
    if NearZero(oldSize) then
      Opening(l, f, f.size, f.commission)
    else
      var k := OpenIndex(l.openTrades, f.dataIndex);
      if k == |l.openTrades| then l else UpdateEntry(l, k, oldSize, f)
  }

  /** Everything an execution does to the books. */
  function Post(l: Ledger, f: Fill): Ledger {
    var ps := WithPosition(l.positions, f.dataIndex);
    var k := PosIndex(ps, f.dataIndex);
    var l := l.(cash := l.cash - (f.size * f.price + f.commission), positions := ps[k := ps[k].Filled(f.size, f.price)]);
    UpdateTrades(l, ps[k].size, f)
  }

  /** A fill is its position half followed by its trade half. */
  lemma PostSplit(l: Ledger, f: Fill)
    ensures var ps := WithPosition(l.positions, f.dataIndex);
            var k := PosIndex(ps, f.dataIndex);
            var p := PositionAt(l.positions, f.dataIndex);
            Post(l, f) == UpdateTrades(
              l.(cash := l.cash - (f.size * f.price + f.commission), positions := ps[k := p.Filled(f.size, f.price)]), p.size, f)
  {
    var ps := WithPosition(l.positions, f.dataIndex);
    assert PositionAt(ps, f.dataIndex) == ps[PosIndex(ps, f.dataIndex)];
  }

  // ---------------------------------------------------------------- sums

  function Costs(ps: seq<PositionState>): seq<real> {
    seq(|ps|, i requires 0 <= i < |ps| => ps[i].Cost())
  }

  function NetPnls(ts: seq<Entry>): seq<real> {
    seq(|ts|, i requires 0 <= i < |ts| => ts[i].trade.pnlComm)
  }

  function Commissions(ts: seq<Entry>): seq<real> {
    seq(|ts|, i requires 0 <= i < |ts| => ts[i].trade.commission)
  }

  /** Money put into open positions. */
  function Invested(l: Ledger): real {
    Sum(Costs(l.positions))
  }

  /** Net profit of all trades, closed and open. */
  function NetPnl(l: Ledger): real {
    Sum(NetPnls(l.closedTrades)) + Sum(NetPnls(l.openTrades))
  }

  /** Commission carried by all trades. */
  function CommissionPaid(l: Ledger): real {
    Sum(Commissions(l.closedTrades)) + Sum(Commissions(l.openTrades))
  }

  // ----------------------------------------------------------- agreement

  /** A trade that is open on a data feed is a copy of the position there. */
  ghost predicate Mirrors(t: TradeState, ps: seq<PositionState>) {
    var p := PositionAt(ps, t.dataIndex);
    p.size == t.size && p.avgPrice == t.price
  }

  ghost predicate PositionsOk(ps: seq<PositionState>, lot: real) {
    && (forall i :: 0 <= i < |ps| ==> Sound(ps[i], lot))
    && (forall i, j :: 0 <= i < j < |ps| ==> ps[i].dataIndex != ps[j].dataIndex)
  }

  ghost predicate OpenTradesOk(ts: seq<Entry>, ps: seq<PositionState>, lot: real) {
    && (forall i :: 0 <= i < |ts| ==> Running(ts[i].trade, lot) && Mirrors(ts[i].trade, ps))
    && (forall i, j :: 0 <= i < j < |ts| ==> ts[i].trade.dataIndex != ts[j].trade.dataIndex)
  }

  ghost predicate Covered(ts: seq<Entry>, ps: seq<PositionState>) {
    forall d: nat :: PositionAt(ps, d).size != 0.0 ==> OpenIndex(ts, d) < |ts|
  }

  ghost predicate ClosedTradesOk(ts: seq<Entry>) {
    forall i :: 0 <= i < |ts| ==> Finished(ts[i].trade)
  }

  /** Positions and trades agree: every open trade is the copy of its position, and
      every position that is not flat has one. */
  ghost predicate Agreement(l: Ledger, lot: real) {
    && EPS <= lot
    && PositionsOk(l.positions, lot)
    && OpenTradesOk(l.openTrades, l.positions, lot)
    && Covered(l.openTrades, l.positions)
    && ClosedTradesOk(l.closedTrades)
  }
}
