/** The averaged position of one data feed (`position.hpp`). */
module Positions {
  import opened Numbers

  /** A position as a value. */
  datatype PositionState = PositionState(
    dataIndex: nat,
    size: real,
    avgPrice: real,
    price: real,
    priceOrig: real,
    upOpened: real,
    upClosed: real)
  {
    predicate IsFlat() {
      NearZero(size)
    }

    predicate IsLong() {
      size > EPS
    }

    predicate IsShort() {
      size < -EPS
    }

    function Cost(): real {
      size * avgPrice
    }

    function UnrealizedPnl(mark: real): real {
      size * (mark - avgPrice)
    }

    /** How much of a fill opens exposure. */
    function Opened(fillSize: real): real {
      var newSize := size + fillSize;
      if NearZero(size) then fillSize
      else if size > 0.0 then
        if fillSize > 0.0 then fillSize else if newSize >= 0.0 then 0.0 else newSize
      else
        if fillSize < 0.0 then fillSize else if newSize <= 0.0 then 0.0 else newSize
    }

    /** How much of a fill closes exposure. */
    function Closed(fillSize: real): real {
      var newSize := size + fillSize;
      if NearZero(size) then 0.0
      else if size > 0.0 then
        if fillSize > 0.0 then 0.0 else if newSize >= 0.0 then fillSize else -size
      else
        if fillSize < 0.0 then 0.0 else if newSize <= 0.0 then fillSize else -size
    }

    /** The position after a fill. */
    function Filled(fillSize: real, fillPrice: real): PositionState {
      var newSize := size + fillSize;
      var p := this.(priceOrig := price, upOpened := Opened(fillSize), upClosed := Closed(fillSize), size := newSize);
      if NearZero(newSize) then
        p.(size := 0.0, avgPrice := 0.0, price := 0.0)
      else if NearZero(size) then
        p.(avgPrice := fillPrice, price := fillPrice)
      else if (size > 0.0 && fillSize > 0.0) || (size < 0.0 && fillSize < 0.0) then
        var avg := (price * size + fillSize * fillPrice) / newSize;
        p.(avgPrice := avg, price := avg)
      else if (size > 0.0 && newSize < 0.0) || (size < 0.0 && newSize > 0.0) then
        p.(avgPrice := fillPrice, price := fillPrice)
      else
        p
    }
  }

  const FLAT := PositionState(0, 0.0, 0.0, 0.0, 0.0, 0.0, 0.0)

  function Flat(dataIndex: nat): PositionState {
    FLAT.(dataIndex := dataIndex)
  }

  /** What every position the broker builds satisfies. */
  ghost predicate Sound(p: PositionState, lot: real) {
    && OnGrid(p.size, lot)
    && p.price == p.avgPrice
    && (p.size == 0.0 ==> p.avgPrice == 0.0)
  }

  /** The cost basis law: whatever the direction of the fill, it is split into a closed
      and an opened part, the closed part leaves at the old average price and the
      opened part enters at the fill price. */
  lemma FilledCostBasis(p: PositionState, fillSize: real, fillPrice: real, lot: real)
    requires EPS <= lot && Sound(p, lot) && OnGrid(fillSize, lot)
    ensures var q := p.Filled(fillSize, fillPrice);
            && Sound(q, lot)
            && q.dataIndex == p.dataIndex
            && q.size == p.size + fillSize
            && q.upOpened + q.upClosed == fillSize
            && q.Cost() == p.Cost() + q.upOpened * fillPrice + q.upClosed * p.avgPrice
            && (q.upClosed != 0.0 ==> q.upClosed * p.size < 0.0 && Abs(q.upClosed) <= Abs(p.size))
            && (q.upOpened != 0.0 ==> q.upOpened * q.size > 0.0)
  {
    var newSize := p.size + fillSize;
    GridAdd(p.size, fillSize, lot);
    GridNearZero(newSize, lot);
    GridNearZero(p.size, lot);
    GridZero(lot);
    if newSize != 0.0 && p.size != 0.0 && ((p.size > 0.0) == (fillSize > 0.0)) {
      DivMul(p.price * p.size + fillSize * fillPrice, newSize);
    }
  }

  /** What else a fill writes: the price before it is remembered, and the average price is that of
      the fill where the fill opens or turns the position, and untouched where it only reduces it. */
  lemma FilledPrices(p: PositionState, fillSize: real, fillPrice: real, lot: real)
    requires EPS <= lot && Sound(p, lot) && OnGrid(fillSize, lot)
    ensures var q := p.Filled(fillSize, fillPrice);
            && q.priceOrig == p.price && q.price == q.avgPrice && q.UnrealizedPnl(q.avgPrice) == 0.0
            && (q.size == 0.0 ==> q.avgPrice == 0.0)
            && (q.size != 0.0 && p.size * q.size <= 0.0 ==> q.avgPrice == fillPrice)
            && (p.size * q.size > 0.0 && p.size * fillSize <= 0.0 ==> q.avgPrice == p.avgPrice)
  {
    FilledCostBasis(p, fillSize, fillPrice, lot);
    GridNearZero(p.size, lot);
    GridAdd(p.size, fillSize, lot);
    GridNearZero(p.size + fillSize, lot);
    Signs(p.size, p.size + fillSize);
    Signs(p.size, fillSize);
  }

  lemma Signs(x: real, y: real)
    ensures x * y > 0.0 <==> (x > 0.0 && y > 0.0) || (x < 0.0 && y < 0.0)
  {
  }

  /** The object the broker holds; its one update method rewrites the fields in place. */
  class Position {
    const dataIndex: nat
    var size: real
    var avgPrice: real
    var price: real
    var priceOrig: real
    var upOpened: real
    var upClosed: real

    constructor (dataIndex: nat)
      ensures this.dataIndex == dataIndex && Value() == Flat(dataIndex)
    {
      this.dataIndex := dataIndex;
      size, avgPrice, price, priceOrig, upOpened, upClosed := 0.0, 0.0, 0.0, 0.0, 0.0, 0.0;
    }

    function Value(): PositionState
      reads this
    {
      PositionState(dataIndex, size, avgPrice, price, priceOrig, upOpened, upClosed)
    }

    method Update(fillSize: real, fillPrice: real)
      modifies this
      ensures Value() == old(Value()).Filled(fillSize, fillPrice)
    {
      priceOrig := price;
      var oldSize := size;
      var newSize := oldSize + fillSize;
      if NearZero(oldSize) {
        upOpened := fillSize;
        upClosed := 0.0;
      } else if oldSize > 0.0 {
        if fillSize > 0.0 {
          upOpened := fillSize;
          upClosed := 0.0;
        } else if newSize >= 0.0 {
          upOpened := 0.0;
          upClosed := fillSize;
        } else {
          upOpened := newSize;
          upClosed := -oldSize;
        }
      } else {
        if fillSize < 0.0 {
          upOpened := fillSize;
          upClosed := 0.0;
        } else if newSize <= 0.0 {
          upOpened := 0.0;
          upClosed := fillSize;
        } else {
          upOpened := newSize;
          upClosed := -oldSize;
        }
      }
      size := newSize;
      if NearZero(size) {
        size := 0.0;
        avgPrice := 0.0;
        price := 0.0;
        return;
      }
      if NearZero(oldSize) {
        avgPrice := fillPrice;
        price := fillPrice;
      } else if (oldSize > 0.0 && fillSize > 0.0) || (oldSize < 0.0 && fillSize < 0.0) {
        avgPrice := (price * oldSize + fillSize * fillPrice) / size;
        price := avgPrice;
      } else if (oldSize > 0.0 && size < 0.0) || (oldSize < 0.0 && size > 0.0) {
        avgPrice := fillPrice;
        price := fillPrice;
      }
    }
  }
}
