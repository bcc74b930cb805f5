/** Round-trip trades (`trade.hpp`). */
module Trades {
  import opened Numbers

  datatype TradeStatus = Open | Closed

  /** A trade as a value. */
  datatype TradeState = TradeState(
    id: nat,
    dataIndex: nat,
    status: TradeStatus,
    size: real,
    entryPrice: real,
    price: real,
    exitPrice: real,
    value: real,
    commission: real,
    pnl: real,
    pnlComm: real,
    justOpened: bool,
    isOpen: bool,
    isClosed: bool,
    isLong: bool,
    entryBar: nat,
    exitBar: nat,
    barLen: nat,
    entryTime: int,
    exitTime: int,
    candidateId: nat)
  {
    /** First part of a fill: size, commission and the flags. */
    function Counted(fillSize: real, comm: real, bar: nat, time: int): TradeState {
      var opening := NearZero(size);
      var newSize := size + fillSize;
      var bar0 := if opening then bar else entryBar;
      this.(
        commission := commission + comm,
        size := newSize,
        justOpened := opening,
        entryBar := bar0,
        entryTime := if opening then time else entryTime,
        isLong := if opening then newSize > 0.0 else isLong,
        isOpen := !NearZero(newSize),
        isClosed := !opening && NearZero(newSize),
        barLen := if bar >= bar0 then bar - bar0 else 0)
    }

    /** Second part: a growing trade averages its price, a shrinking one realises a gain. */
    function Priced(oldSize: real, fillSize: real, fillPrice: real): TradeState
      requires Abs(size) > Abs(oldSize) ==> size != 0.0
    {
      if Abs(size) > Abs(oldSize) then
        var avg := (oldSize * price + fillSize * fillPrice) / size;
        this.(price := avg, entryPrice := avg)
      else if !NearZero(oldSize) then
        this.(pnl := pnl + -fillSize * (fillPrice - price))
      else
        this
    }

    /** Third part: the derived fields, and the stamps of an opening or a closing fill. */
    function Settled(fillPrice: real, bar: nat, time: int): TradeState {
      var t := if justOpened then this.(price := fillPrice, entryPrice := fillPrice) else this;
      var t := t.(pnlComm := pnl - commission, value := size * t.price);
      if isClosed then
        t.(exitPrice := fillPrice, size := 0.0, value := 0.0, status := Closed, exitBar := bar, exitTime := time, isOpen := false)
      else
        t.(status := Open)
    }

    /** The trade after a fill. */
    function Filled(fillSize: real, fillPrice: real, comm: real, bar: nat, time: int): TradeState {
      if NearZero(fillSize) then this
      else Counted(fillSize, comm, bar, time).Priced(size, fillSize, fillPrice).Settled(fillPrice, bar, time)
    }
  }

  /** A trade object before its first fill. */
  function Blank(id: nat, dataIndex: nat, candidateId: nat): TradeState {
    TradeState(id, dataIndex, Open, 0.0, 0.0, 0.0, 0.0, 0.0, 0.0, 0.0, 0.0,
               false, false, false, false, 0, 0, 0, 0, 0, candidateId)
  }

  /** What holds of a trade that has seen at least one fill and is still open. */
  ghost predicate Running(t: TradeState, lot: real) {
    && t.status == Open && OnGrid(t.size, lot) && t.size != 0.0
    && t.entryPrice == t.price && t.value == t.size * t.price
    && t.pnlComm == t.pnl - t.commission
    && t.isOpen && !t.isClosed
  }

  /** What holds of a trade that has been closed. */
  predicate Finished(t: TradeState) {
    && t.status == Closed && t.size == 0.0 && t.value == 0.0
    && t.pnlComm == t.pnl - t.commission
    && !t.isOpen && t.isClosed
  }

  /** The fields a later fill leaves alone. */
  predicate SameTrade(t: TradeState, u: TradeState) {
    && u.id == t.id && u.dataIndex == t.dataIndex && u.candidateId == t.candidateId
    && u.entryBar == t.entryBar && u.entryTime == t.entryTime
  }

  /** Opening a trade: the whole fill is exposure at the fill price, and only the
      commission has been lost so far. */
  lemma OpenTrade(id: nat, dataIndex: nat, cand: nat, fillSize: real, fillPrice: real, comm: real, bar: nat, time: int, lot: real)
    requires EPS <= lot && OnGrid(fillSize, lot) && fillSize != 0.0
    ensures var t := Blank(id, dataIndex, cand).Filled(fillSize, fillPrice, comm, bar, time);
            && Running(t, lot) && t.id == id && t.dataIndex == dataIndex && t.candidateId == cand
            && t.size == fillSize && t.price == fillPrice
            && t.pnl == 0.0 && t.commission == comm && t.justOpened
            && t.entryBar == bar && t.entryTime == time
  {
    GridNearZero(fillSize, lot);
    GridZero(lot);
    GridNearZero(0.0, lot);
    DivMul(fillSize * fillPrice, fillSize);
  }

  /** A fill in the direction of the trade raises its cost by what was paid. */
  lemma GrowTrade(t: TradeState, fillSize: real, fillPrice: real, comm: real, bar: nat, time: int, lot: real)
    requires EPS <= lot && Running(t, lot) && OnGrid(fillSize, lot)
    requires (t.size > 0.0 && fillSize > 0.0) || (t.size < 0.0 && fillSize < 0.0)
    ensures var u := t.Filled(fillSize, fillPrice, comm, bar, time);
            && Running(u, lot) && SameTrade(t, u) && u.size == t.size + fillSize
            && u.commission == t.commission + comm && u.pnl == t.pnl
            && u.price == (t.size * t.price + fillSize * fillPrice) / u.size
            && u.size * u.price == t.size * t.price + fillSize * fillPrice
  {
    GridNearZero(fillSize, lot);
    GridNearZero(t.size, lot);
    GridAdd(t.size, fillSize, lot);
    GridNearZero(t.size + fillSize, lot);
    DivMul(t.size * t.price + fillSize * fillPrice, t.size + fillSize);
  }

  /** A fill against the trade, up to its whole size, realises the difference between
      the fill price and the average price on what it closes. */
  lemma ShrinkTrade(t: TradeState, fillSize: real, fillPrice: real, comm: real, bar: nat, time: int, lot: real)
    requires EPS <= lot && Running(t, lot) && OnGrid(fillSize, lot)
    requires (t.size > 0.0 && -t.size <= fillSize < 0.0) || (t.size < 0.0 && 0.0 < fillSize <= -t.size)
    ensures var u := t.Filled(fillSize, fillPrice, comm, bar, time);
            && (if t.size + fillSize == 0.0 then Finished(u) && u.exitPrice == fillPrice && u.exitBar == bar && u.exitTime == time
                else Running(u, lot))
            && SameTrade(t, u) && u.size == t.size + fillSize && u.price == t.price && u.entryPrice == t.entryPrice
            && u.commission == t.commission + comm
            && u.pnl == t.pnl + fillSize * t.price - fillSize * fillPrice
  {
    GridNearZero(fillSize, lot);
    GridNearZero(t.size, lot);
    GridAdd(t.size, fillSize, lot);
    GridNearZero(t.size + fillSize, lot);
    assert -fillSize * (fillPrice - t.price) == fillSize * t.price - fillSize * fillPrice;
  }

  /** The object the broker holds while the trade is open. */
  class Trade {
    const id: nat
    const dataIndex: nat
    const candidateId: nat
    var status: TradeStatus
    var size: real
    var entryPrice: real
    var price: real
    var exitPrice: real
    var value: real
    var commission: real
    var pnl: real
    var pnlComm: real
    var justOpened: bool
    var isOpen: bool
    var isClosed: bool
    var isLong: bool
    var entryBar: nat
    var exitBar: nat
    var barLen: nat
    var entryTime: int
    var exitTime: int

    constructor (id: nat, dataIndex: nat, candidateId: nat)
      ensures Value() == Blank(id, dataIndex, candidateId)
    {
      this.id, this.dataIndex, this.candidateId := id, dataIndex, candidateId;
      status := Open;
      size, entryPrice, price, exitPrice, value := 0.0, 0.0, 0.0, 0.0, 0.0;
      commission, pnl, pnlComm := 0.0, 0.0, 0.0;
      justOpened, isOpen, isClosed, isLong := false, false, false, false;
      entryBar, exitBar, barLen, entryTime, exitTime := 0, 0, 0, 0, 0;
    }

    function Value(): TradeState
      reads this
    {
      TradeState(id, dataIndex, status, size, entryPrice, price, exitPrice, value, commission, pnl, pnlComm,
                 justOpened, isOpen, isClosed, isLong, entryBar, exitBar, barLen, entryTime, exitTime, candidateId)
    }

    method Update(fillSize: real, fillPrice: real, comm: real, bar: nat, time: int)
      modifies this
      ensures Value() == old(Value()).Filled(fillSize, fillPrice, comm, bar, time)
    {
      if NearZero(fillSize) {
        return;
      }
      var oldSize := size;
      ghost var counted := Value().Counted(fillSize, comm, bar, time);
      Count(fillSize, comm, bar, time);
      assert Value() == counted;
      Reprice(oldSize, fillSize, fillPrice);
      ghost var priced := Value();
      assert priced == counted.Priced(oldSize, fillSize, fillPrice);
      Settle(fillPrice, bar, time);
      assert Value() == priced.Settled(fillPrice, bar, time);
    }

    method Count(fillSize: real, comm: real, bar: nat, time: int)
      modifies `commission, `size, `justOpened, `entryBar, `entryTime, `isLong, `isOpen, `isClosed, `barLen
      ensures var t := old(Value()).Counted(fillSize, comm, bar, time);
              && size == t.size && commission == t.commission && justOpened == t.justOpened
              && entryBar == t.entryBar && entryTime == t.entryTime && isLong == t.isLong
              && isOpen == t.isOpen && isClosed == t.isClosed && barLen == t.barLen
    {
      var oldSize := size;
      commission := commission + comm;
      size := size + fillSize;
      justOpened := NearZero(oldSize);
      if justOpened {
        entryBar := bar;
        entryTime := time;
        isLong := size > 0.0;
      }
      isOpen := !NearZero(size);
      isClosed := !NearZero(oldSize) && !isOpen;
      barLen := if bar >= entryBar then bar - entryBar else 0;
    }

    method Reprice(oldSize: real, fillSize: real, fillPrice: real)
      requires Abs(size) > Abs(oldSize) ==> size != 0.0
      modifies this
      ensures Value() == old(Value()).Priced(oldSize, fillSize, fillPrice)
    {
      if Abs(size) > Abs(oldSize) {
        price := (oldSize * price + fillSize * fillPrice) / size;
        entryPrice := price;
      } else if !NearZero(oldSize) {
        pnl := pnl + -fillSize * (fillPrice - price);
      }
    }

    method Settle(fillPrice: real, bar: nat, time: int)
      modifies `price, `entryPrice, `value, `pnlComm, `exitPrice, `size, `status, `exitBar, `exitTime, `isOpen
      ensures var t := old(Value()).Settled(fillPrice, bar, time);
              && price == t.price && entryPrice == t.entryPrice && value == t.value && pnlComm == t.pnlComm
              && exitPrice == t.exitPrice && size == t.size && status == t.status
              && exitBar == t.exitBar && exitTime == t.exitTime && isOpen == t.isOpen
    {
      pnlComm := pnl - commission;
      value := size * price;
      if justOpened {
        price := fillPrice;
        entryPrice := fillPrice;
        value := size * price;
        pnlComm := pnl - commission;
      }
      if isClosed {
        Close(fillPrice, bar, time);
      } else {
        status := Open;
      }
    }

    method Close(fillPrice: real, bar: nat, time: int)
      modifies `exitPrice, `size, `value, `status, `exitBar, `exitTime, `isOpen
      ensures exitPrice == fillPrice && size == value == 0.0 && status == Closed
      ensures exitBar == bar && exitTime == time && !isOpen
    {
      exitPrice := fillPrice;
      size := 0.0;
      value := 0.0;
      status := Closed;
      exitBar := bar;
      exitTime := time;
      isOpen := false;
    }
  }
}
