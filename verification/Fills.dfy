/** When and at what price an order fills against a bar (`broker.hpp`, `try_fill_order`,
    `apply_slippage`, `update_trail_stop`; `commission.hpp`). */
module Fills {
  import opened Numbers
  import opened Orders
  import opened Ledgers

  /** The current bar of a data feed. */
  datatype Bar = Bar(time: int, open: real, high: real, low: real, close: real)

  datatype CommissionType = Percentage | Fixed | PerShare

  datatype CommissionInfo = CommissionInfo(typ: CommissionType, rate: real, minimum: real) {
    function Calculate(size: real, price: real): real {
      var comm := match typ
        case Percentage => Abs(size) * price * rate
        case Fixed => rate
        case PerShare => Abs(size) * rate;
      Max(comm, minimum)
    }
  }

  datatype Slippage = Slippage(perc: real, fixed: real, onOpen: bool, onLimit: bool, match_: bool, out: bool)

  datatype Config = Config(commission: CommissionInfo, slip: Slippage)

  /** Whether an order triggers on a bar; `Malformed` is a stop order without a stop price. */
  datatype Trigger = Untouched | Malformed | At(price: real)

  function LimitTrigger(side: Side, price: real, bar: Bar): Trigger {
    if side == Buy then
      if bar.low <= price then At(Min(price, bar.open)) else Untouched
    else
      if bar.high >= price then At(Max(price, bar.open)) else Untouched
  }

  predicate StopCrossed(side: Side, stop: real, bar: Bar) {
    if side == Buy then bar.high >= stop else bar.low <= stop
  }

  function StopTrigger(side: Side, stop: real, bar: Bar): Trigger {
    if !StopCrossed(side, stop, bar) then Untouched
    else if side == Buy then At(Max(stop, bar.open))
    else At(Min(stop, bar.open))
  }

  function TriggerOf(o: Order, bar: Bar): Trigger {
    match o.terms.typ
    case Market => At(bar.open)
    case Limit => LimitTrigger(o.terms.side, o.terms.price, bar)
    case Stop =>
      if o.terms.stopPrice == None then Malformed else StopTrigger(o.terms.side, o.terms.stopPrice.value, bar)
    case StopLimit =>
      if o.terms.stopPrice == None then Malformed
      else if StopCrossed(o.terms.side, o.terms.stopPrice.value, bar) then LimitTrigger(o.terms.side, o.terms.price, bar)
      else Untouched
    case StopTrail =>
      if o.trailStopPrice == 0.0 then Untouched else StopTrigger(o.terms.side, o.trailStopPrice, bar)
    case StopTrailLimit =>
      if o.trailStopPrice == 0.0 then Untouched
      else if StopCrossed(o.terms.side, o.trailStopPrice, bar) then LimitTrigger(o.terms.side, o.terms.price, bar)
      else Untouched
  }

  predicate LimitType(typ: OrderType) {
    typ in {Limit, StopLimit, StopTrailLimit}
  }

  /** `apply_slippage`: `None` when the slipped price leaves the bar and may not be moved back. */
  function Slip(price: real, side: Side, bar: Bar, s: Slippage): Option<real> {
    var adjusted :=
      if s.perc != 0.0 then price * (if side == Buy then 1.0 + s.perc else 1.0 - s.perc)
      else if s.fixed != 0.0 then price + (if side == Buy then s.fixed else -s.fixed)
      else price;
    if s.out || (bar.low <= adjusted <= bar.high) then Some(adjusted)
    else if !s.match_ then None
    else Some(if adjusted < bar.low then bar.low else if bar.high < adjusted then bar.high else adjusted)
  }

  /** The price of a fill, if the order fills on this bar. */
  function FillPrice(o: Order, bar: Bar, s: Slippage): Trigger {
    var t := TriggerOf(o, bar);
    if t.At? && (if LimitType(o.terms.typ) then s.onLimit else s.onOpen) then
      match Slip(t.price, o.terms.side, bar, s)
      case None => Untouched
      case Some(p) => At(p)
    else
      t
  }

  /** The outcome of `try_fill_order`: it reports true for a fill, but also when the order
      is rejected or refused for lack of cash. */
  datatype Attempt = Attempt(done: bool, order: Order, ledger: Ledger)

  function ToFill(o: Order, price: real, comm: real, bar: nat, time: int): Fill {
    Fill(o.terms.dataIndex, o.SignedSize(), price, comm, bar, time, o.terms.candidateId)
  }

  function TryFill(o: Order, bar: Bar, cfg: Config, barIndex: nat, l: Ledger): Attempt {
    match FillPrice(o, bar, cfg.slip)
    case Untouched => Attempt(false, o, l)
    case Malformed => Attempt(true, o.Reject(), l)
    case At(price) =>
      var comm := cfg.commission.Calculate(o.terms.size, price);
      if o.terms.side == Buy && o.terms.size * price + comm > l.cash then
        Attempt(true, o.MarginCall(), l)
      else
        Attempt(true, o.Execute(price, o.terms.size, comm), Post(l, ToFill(o, price, comm, barIndex, bar.time)))
  }

  /** The stop level a bar proposes for a trailing order. */
  function TrailLevel(o: Order, bar: Bar): real {
    var current := if o.terms.side == Buy then bar.low else bar.high;
    var dist := if o.terms.trailPercent > 0.0 then current * o.terms.trailPercent else o.terms.trailAmount;
    if o.terms.side == Sell then current - dist else current + dist
  }

  /** Whether `update_trail_stop` moves the stop; zero stands for "no stop yet". */
  predicate TrailMoves(o: Order, bar: Bar) {
    || o.trailStopPrice == 0.0
    || (if o.terms.side == Sell then TrailLevel(o, bar) > o.trailStopPrice else TrailLevel(o, bar) < o.trailStopPrice)
  }

  function Trailed(o: Order, bar: Bar): Order {
    if TrailMoves(o, bar) then o.(trailStopPrice := TrailLevel(o, bar)) else o
  }
}
