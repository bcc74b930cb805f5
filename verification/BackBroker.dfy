/** The broker object (`BackBroker`): its methods update vectors, positions and trades in
    place, and each is proved to do what the state machine of `Brokers` does. */
module BackBrokers {
  import opened Numbers
  import opened Orders
  import P = Positions
  import T = Trades
  import opened Ledgers
  import opened Fills
  import opened Brokers

  /** An open trade and the size the notification will report. */
  datatype OpenEntry = OpenEntry(trade: T.Trade, origSize: real)

  class BackBroker {
    const initialCash: real
    const config: Config
    var cash: real
    var nextOrderId: nat
    var nextTradeId: nat
    var nextOcoGroupId: nat
    var barIndex: nat
    var allOrders: seq<Order>
    var pendingOrders: seq<Order>
    var positions: seq<P.Position>
    var openTrades: seq<OpenEntry>
    var closedTrades: seq<Entry>

    constructor (cash: real, config: Config)
      ensures Valid() && fresh(Repr())
      ensures State() == Fresh(cash, config)
    {
      this.initialCash, this.config, this.cash := cash, config, cash;
      nextOrderId, nextTradeId, nextOcoGroupId, barIndex := 1, 1, 1, 0;
      allOrders, pendingOrders, positions, openTrades, closedTrades := [], [], [], [], [];
    }

    // ------------------------------------------------------ abstraction

    /** The objects the broker owns. */
    function Repr(): set<object>
      reads this
    {
      (set i | 0 <= i < |positions| :: positions[i] as object) + (set i | 0 <= i < |openTrades| :: openTrades[i].trade as object)
    }

    /** No position and no trade is stored twice. */
    ghost predicate Valid()
      reads this
    {
      && (forall i, j :: 0 <= i < j < |positions| ==> positions[i] != positions[j])
      && (forall i, j :: 0 <= i < j < |openTrades| ==> openTrades[i].trade != openTrades[j].trade)
    }

    function PositionValues(): seq<P.PositionState>
      reads this, Repr()
    {
      seq(|positions|, i requires 0 <= i < |positions| reads this, Repr() => positions[i].Value())
    }

    function EntryValues(): seq<Entry>
      reads this, Repr()
    {
      seq(|openTrades|, i requires 0 <= i < |openTrades| reads this, Repr() =>
        Entry(openTrades[i].trade.Value(), openTrades[i].origSize))
    }

    function Books(): Ledger
      reads this, Repr()
    {
      Ledger(cash, PositionValues(), EntryValues(), closedTrades, nextTradeId)
    }

    function State(): Broker
      reads this, Repr()
    {
      Broker(config, initialCash, allOrders, pendingOrders, Books(), nextOrderId, nextOcoGroupId)
    }

    // ------------------------------------------------ positions and trades

    method GetPosition(d: nat) returns (k: nat)
      requires Valid()
      modifies `positions
      ensures Valid() && fresh(Repr() - old(Repr()))
      ensures PositionValues() == WithPosition(old(PositionValues()), d)
      ensures EntryValues() == old(EntryValues())
      ensures k == PosIndex(PositionValues(), d) < |positions|
    {
      k := 0;
      while k < |positions|
        invariant k <= |positions|
        invariant forall j :: 0 <= j < k ==> positions[j].dataIndex != d
      {
        if positions[k].dataIndex == d {
          PosIndexIs(PositionValues(), d, k);
          return;
        }
        k := k + 1;
      }
      PosIndexIs(PositionValues(), d, k);
      var p := new P.Position(d);
      positions := positions + [p];
      assert PositionValues() == old(PositionValues()) + [P.Flat(d)];
    }

    method UpdatePosition(k: nat, fillSize: real, fillPrice: real)
      requires Valid() && k < |positions|
      modifies positions[k]
      ensures PositionValues() == old(PositionValues())[k := old(PositionValues())[k].Filled(fillSize, fillPrice)]
      ensures EntryValues() == old(EntryValues())
    {
      positions[k].Update(fillSize, fillPrice);
    }

    /** Position of the open trade of a data feed. */
    method FindTrade(d: nat) returns (k: nat)
      requires Valid()
      ensures k == OpenIndex(EntryValues(), d)
    {
      k := 0;
      while k < |openTrades|
        invariant k <= |openTrades|
        invariant forall j :: 0 <= j < k ==>
            !(openTrades[j].trade.dataIndex == d && openTrades[j].trade.status == T.Open)
      {
        if openTrades[k].trade.dataIndex == d && openTrades[k].trade.status == T.Open {
          break;
        }
        k := k + 1;
      }
      OpenIndexIs(EntryValues(), d, k);
    }

    method UpdateTrade(k: nat, size: real, price: real, comm: real, bar: nat, time: int)
      requires Valid() && k < |openTrades|
      modifies openTrades[k].trade
      ensures PositionValues() == old(PositionValues())
      ensures var e := old(EntryValues())[k];
              EntryValues() == old(EntryValues())[k := Entry(e.trade.Filled(size, price, comm, bar, time), e.origSize)]
    {
      openTrades[k].trade.Update(size, price, comm, bar, time);
    }

    method OpenNewTrade(f: Fill, size: real, comm: real)
      requires Valid()
      modifies `openTrades, `nextTradeId
      ensures Valid() && fresh(Repr() - old(Repr()))
      ensures PositionValues() == old(PositionValues())
      ensures Books() == Opening(old(Books()), f, size, comm)
    {
      var trade := new T.Trade(nextTradeId, f.dataIndex, f.candidateId);
      nextTradeId := nextTradeId + 1;
      trade.Update(size, f.price, comm, f.bar, f.time);
      openTrades := openTrades + [OpenEntry(trade, size)];
      assert EntryValues() == old(EntryValues()) + [Entry(trade.Value(), size)];
    }

    /** The trade at `k` has been closed: a copy goes to the closed list. */
    method RetireTrade(k: nat)
      requires Valid() && k < |openTrades|
      modifies `openTrades, `closedTrades
      ensures Valid() && Repr() <= old(Repr())
      ensures PositionValues() == old(PositionValues())
      ensures closedTrades == old(closedTrades) + [old(EntryValues())[k]]
      ensures EntryValues() == Without(old(EntryValues()), k)
    {
      closedTrades := closedTrades + [Entry(openTrades[k].trade.Value(), openTrades[k].origSize)];
      openTrades := openTrades[..k] + openTrades[k + 1..];
    }

    method UpdateTrades(oldSize: real, f: Fill)
      requires Valid()
      modifies `openTrades, `closedTrades, `nextTradeId, Repr()
      ensures Valid() && fresh(Repr() - old(Repr()))
      ensures PositionValues() == old(PositionValues())
      ensures Books() == Ledgers.UpdateTrades(old(Books()), oldSize, f)
    {
      hide UpdateEntry, Opening, PosIndex, OpenIndex;
      if NearZero(oldSize) {
        OpenNewTrade(f, f.size, f.commission);
      } else {
        var k := FindTrade(f.dataIndex);
        if k < |openTrades| {
          UpdateOpenTrade(k, oldSize, f);
        }
      }
    }

    method UpdateOpenTrade(k: nat, oldSize: real, f: Fill)
      requires Valid() && k < |openTrades|
      modifies `openTrades, `closedTrades, `nextTradeId, openTrades[k].trade
      ensures Valid() && fresh(Repr() - old(Repr()))
      ensures PositionValues() == old(PositionValues())
      ensures Books() == UpdateEntry(old(Books()), k, oldSize, f)
    {
      hide Opening, Closing, T.TradeState.Filled;
      assert Books().openTrades[k].trade == openTrades[k].trade.Value();
      if (oldSize > 0.0 && f.size > 0.0) || (oldSize < 0.0 && f.size < 0.0) {
        GrowTrade(k, f);
      } else if Abs(f.size) > Abs(openTrades[k].trade.size) {
        ReverseTrade(k, f);
      } else {
        ReduceTrade(k, f);
      }
    }

    method GrowTrade(k: nat, f: Fill)
      requires Valid() && k < |openTrades|
      modifies `openTrades, openTrades[k].trade
      ensures Valid() && Repr() <= old(Repr()) && PositionValues() == old(PositionValues())
      ensures var l := old(Books());
              var e := l.openTrades[k];
              var t := e.trade.Filled(f.size, f.price, f.commission, f.bar, f.time);
              Books() == l.(openTrades := l.openTrades[k := Entry(t, e.origSize + f.size)])
    {
      UpdateTrade(k, f.size, f.price, f.commission, f.bar, f.time);
      ghost var updated := EntryValues();
      openTrades := openTrades[k := openTrades[k].(origSize := openTrades[k].origSize + f.size)];
      assert EntryValues() == updated[k := updated[k].(origSize := updated[k].origSize + f.size)];
    }

    method ReverseTrade(k: nat, f: Fill)
      requires Valid() && k < |openTrades| && Abs(f.size) > Abs(openTrades[k].trade.size)
      modifies `openTrades, `closedTrades, `nextTradeId, openTrades[k].trade
      ensures Valid() && fresh(Repr() - old(Repr())) && PositionValues() == old(PositionValues())
      ensures var l := old(Books());
              var t := l.openTrades[k].trade;
              var closeComm := CloseCommission(t.size, f);
              var u := t.Filled(-t.size, f.price, closeComm, f.bar, f.time);
              Books() == Opening(Closing(l, k, u), f, f.size + t.size, f.commission - closeComm)
    {
      hide Opening, Closing, T.TradeState.Filled, PosIndex, OpenIndex;
      var tradeSize := openTrades[k].trade.size;
      var closeComm := Abs(tradeSize) / Abs(f.size) * f.commission;
      assert closeComm == CloseCommission(Books().openTrades[k].trade.size, f);
      CloseWhole(k, closeComm, f);
      OpenNewTrade(f, f.size + tradeSize, f.commission - closeComm);
    }

    method CloseWhole(k: nat, comm: real, f: Fill)
      requires Valid() && k < |openTrades|
      modifies `openTrades, `closedTrades, openTrades[k].trade
      ensures Valid() && Repr() <= old(Repr()) && PositionValues() == old(PositionValues())
      ensures var t := old(Books()).openTrades[k].trade;
              Books() == Closing(old(Books()), k, t.Filled(-t.size, f.price, comm, f.bar, f.time))
    {
      UpdateTrade(k, -openTrades[k].trade.size, f.price, comm, f.bar, f.time);
      RetireTrade(k);
      assert EntryValues() == Without(old(EntryValues()), k);
    }

    method ReduceTrade(k: nat, f: Fill)
      requires Valid() && k < |openTrades|
      modifies `openTrades, `closedTrades, openTrades[k].trade
      ensures Valid() && Repr() <= old(Repr()) && PositionValues() == old(PositionValues())
      ensures var l := old(Books());
              var e := l.openTrades[k];
              var t := e.trade.Filled(f.size, f.price, f.commission, f.bar, f.time);
              Books() == if t.status == T.Closed then Closing(l, k, t)
                         else l.(openTrades := l.openTrades[k := Entry(t, e.origSize)])
    {
      UpdateTrade(k, f.size, f.price, f.commission, f.bar, f.time);
      if openTrades[k].trade.status == T.Closed {
        RetireTrade(k);
      }
    }

    /** The part of `try_fill_order` after the order has executed. */
    method PostFill(f: Fill)
      requires Valid()
      modifies `cash, `positions, `openTrades, `closedTrades, `nextTradeId, Repr()
      ensures Valid() && fresh(Repr() - old(Repr()))
      ensures Books() == Post(old(Books()), f)
    {
      hide PosIndex, Ledgers.UpdateTrades, P.PositionState.Filled, Post;
      ghost var l := Books();
      ghost var ps := WithPosition(l.positions, f.dataIndex);
      cash := cash - (f.size * f.price + f.commission);
      assert Books() == l.(cash := cash);
      var k := GetPosition(f.dataIndex);
      var oldSize := positions[k].size;
      assert ps[k].size == oldSize;
      UpdatePosition(k, f.size, f.price);
      assert Books() == l.(cash := cash, positions := ps[k := ps[k].Filled(f.size, f.price)]);
      UpdateTrades(oldSize, f);
      PostSplit(l, f);
      assert ps[k] == PositionAt(ps, f.dataIndex);
    }

    // --------------------------------------------------------- the book

    method SyncOrder(o: Order)
      modifies `allOrders
      ensures allOrders == Sync(old(allOrders), o)
    {
      var k := FindOrder(allOrders, o.id);
      if k < |allOrders| {
        allOrders := allOrders[k := o];
      }
    }

    method IsParentFilled(parentId: nat) returns (r: bool)
      ensures r == ParentFilled(allOrders, parentId)
    {
      var k := FindOrder(allOrders, parentId);
      r := k < |allOrders| && allOrders[k].status == Completed;
    }

    method SubmitOrder(side: Side, params: OrderParams, v: Verdict) returns (id: nat)
      modifies `allOrders, `pendingOrders, `nextOrderId
      ensures State() == Submit(old(State()), side, params, v)
      ensures id == SubmittedId(old(State()), v)
    {
      if v.rejected {
        return 0;
      }
      var order := NewOrder(nextOrderId, side, params, v);
      nextOrderId := nextOrderId + 1;
      allOrders := allOrders + [order];
      pendingOrders := pendingOrders + [order];
      return order.id;
    }

    /** `buy_bracket` for a buy, `sell_bracket` for a sell. */
    method SubmitBracket(side: Side, limitPrice: real, stopPrice: real, d: nat, vMain: Verdict, vLimit: Verdict, vStop: Verdict)
      returns (mainId: nat, limitId: nat, stopId: nat)
      modifies `allOrders, `pendingOrders, `nextOrderId, `nextOcoGroupId
      ensures State() == Bracket(old(State()), side, limitPrice, stopPrice, d, vMain, vLimit, vStop)
    {
      hide Submit, WithChildren, PosIndex, OpenIndex, IdIndex, TakeProfitParams, StopLossParams, MarketParams, Opposite, SubmittedId;
      var group := nextOcoGroupId;
      nextOcoGroupId := nextOcoGroupId + 1;
      ghost var b0 := State();
      assert b0 == old(State()).(nextOcoGroupId := group + 1);
      mainId := SubmitOrder(side, MarketParams(d), vMain);
      ghost var b1 := State();
      limitId := SubmitOrder(Opposite(side), TakeProfitParams(limitPrice, d, mainId, group), vLimit);
      ghost var b2 := State();
      stopId := SubmitOrder(Opposite(side), StopLossParams(stopPrice, d, mainId, group), vStop);
      LinkChildren(mainId, [limitId, stopId]);
    }

    method LinkChildren(mainId: nat, children: seq<nat>)
      modifies `allOrders, `pendingOrders
      ensures var b := old(State());
              State() == b.(all := WithChildren(b.all, mainId, children), pending := WithChildren(b.pending, mainId, children))
    {
      allOrders := SetChildren(allOrders, mainId, children);
      pendingOrders := SetChildren(pendingOrders, mainId, children);
    }

    method NextOcoGroup() returns (group: nat)
      modifies `nextOcoGroupId
      ensures State() == Apply(old(State()), OcoGroupEvent) && group == old(nextOcoGroupId)
    {
      group := nextOcoGroupId;
      nextOcoGroupId := nextOcoGroupId + 1;
    }

    /** The loops that cancel pending orders and copy them to the book. */
    method CancelPendingWhere(which: Selector)
      modifies `allOrders, `pendingOrders
      ensures Lists(allOrders, pendingOrders) == CancelWhere(old(Lists(allOrders, pendingOrders)), which, 0)
    {
      hide Sync;
      var i := 0;
      while i < |pendingOrders|
        invariant i <= |pendingOrders|
        invariant CancelWhere(Lists(allOrders, pendingOrders), which, i) ==
                  CancelWhere(old(Lists(allOrders, pendingOrders)), which, 0)
      {
        var order := pendingOrders[i];
        if which.Selects(order) && order.Alive() {
          order := order.Cancel();
          pendingOrders := pendingOrders[i := order];
          SyncOrder(order);
        }
        i := i + 1;
      }
    }

    method CancelOrder(id: nat)
      modifies `allOrders, `pendingOrders
      ensures State() == Cancel(old(State()), id)
    {
      CancelPendingWhere(WithId(id));
    }

    /** `close`: the pre-order hook is asked about the whole position. */
    method ClosePosition(d: nat, hook: (Side, real) -> Verdict) returns (id: nat)
      requires Valid()
      modifies `positions, `allOrders, `pendingOrders, `nextOrderId
      ensures Valid() && fresh(Repr() - old(Repr()))
      ensures var p := PositionAt(old(PositionValues()), d);
              State() == Close(old(State()), d, hook(if p.IsLong() then Sell else Buy, Abs(p.size)))
    {
      hide PosIndex, Submit;
      var k := GetPosition(d);
      ghost var p := PositionValues()[k];
      assert p == PositionAt(PositionValues(), d);
      if NearZero(positions[k].size) {
        return 0;
      }
      var size := Abs(positions[k].size);
      if positions[k].size > EPS {
        id := SubmitOrder(Sell, MarketParams(d), hook(Sell, size));
      } else {
        id := SubmitOrder(Buy, MarketParams(d), hook(Buy, size));
      }
    }

    // -------------------------------------------------- one bar's pass

    method TryFillOrder(order: Order, bar: Bar) returns (filled: bool, o: Order)
      requires Valid()
      modifies `allOrders, `cash, `positions, `openTrades, `closedTrades, `nextTradeId, Repr()
      ensures Valid() && fresh(Repr() - old(Repr()))
      ensures var a := TryFill(order, bar, config, barIndex, old(Books()));
              && filled == a.done && o == a.order && Books() == a.ledger
              && allOrders == if a.done then Sync(old(allOrders), a.order) else old(allOrders)
    {
      hide FillPrice, Sync, Post, PosIndex, OpenIndex, CommissionInfo.Calculate;
      o := order;
      match FillPrice(order, bar, config.slip)
      case Untouched =>
        return false, order;
      case Malformed =>
        o := o.Reject();
        SyncOrder(o);
        return true, o;
      case At(price) =>
        var comm := config.commission.Calculate(o.terms.size, price);
        if o.terms.side == Buy && o.terms.size * price + comm > cash {
          o := o.MarginCall();
          SyncOrder(o);
          return true, o;
        }
        o := o.Execute(price, o.terms.size, comm);
        PostFill(ToFill(order, price, comm, barIndex, bar.time));
        SyncOrder(o);
        return true, o;
    }

    /** `update_trail_stop`. */
    method UpdateTrailStop(order: Order, bar: Bar) returns (o: Order)
      modifies `allOrders
      ensures Books() == old(Books())
      ensures if TrailMoves(order, bar) then o == Trailed(order, bar) && allOrders == Sync(old(allOrders), o)
              else o == order && allOrders == old(allOrders)
    {
      hide Sync, TrailLevel, PosIndex, OpenIndex;
      o := order;
      if TrailMoves(order, bar) {
        o := o.(trailStopPrice := TrailLevel(order, bar));
        SyncOrder(o);
      }
    }

    method Acknowledge(order: Order) returns (o: Order)
      modifies `allOrders
      ensures Books() == old(Books())
      ensures o == Acknowledged(order) && allOrders == SyncAcknowledged(old(allOrders), order)
    {
      o := order;
      if o.status == Created {
        o := o.Submit();
        SyncOrder(o);
        o := o.Accept();
        SyncOrder(o);
      }
    }

    method AttemptOrder(order: Order, bar: Bar) returns (o: Order, fate: Fate)
      requires Valid()
      modifies `allOrders, `cash, `positions, `openTrades, `closedTrades, `nextTradeId, Repr()
      ensures Valid() && fresh(Repr() - old(Repr()))
      ensures Step(o, allOrders, Books(), fate) == AttemptStep(order, old(allOrders), old(Books()), bar, config, barIndex)
    {
      hide TryFill, Sync, TrailMoves, PosIndex, OpenIndex;
      var filled;
      filled, o := TryFillOrder(order, bar);
      if filled {
        return o, Attempted;
      }
      fate := Kept;
      TryFillIdle(order, bar, config, barIndex, old(Books()));
      if o.IsTrail() {
        o := UpdateTrailStop(o, bar);
      }
    }

    /** The turn of one pending order in the loop of `process_orders`. */
    method TakeTurn(order: Order, feeds: seq<Option<Bar>>) returns (o: Order, fate: Fate)
      requires Valid()
      modifies `allOrders, `cash, `positions, `openTrades, `closedTrades, `nextTradeId, Repr()
      ensures Valid() && fresh(Repr() - old(Repr()))
      ensures Step(o, allOrders, Books(), fate) ==
              OrderStep(order, old(allOrders), old(Books()), Snapshot(feeds, barIndex), config)
    {
      hide AttemptStep, Sync, ParentFilled, Acknowledged, SyncAcknowledged, PosIndex, OpenIndex;
      o := order;
      if !o.Alive() {
        return o, Dropped;
      }
      if !o.transmit && o.terms.parentId != 0 {
        var released := IsParentFilled(o.terms.parentId);
        if !released {
          return o, Kept;
        }
        o := o.(transmit := true);
      }
      if o.terms.dataIndex >= |feeds| {
        o := o.Reject();
        SyncOrder(o);
        return o, Dropped;
      }
      if feeds[o.terms.dataIndex] == None {
        return o, Kept;
      }
      if o.terms.validUntilBar.Some? && barIndex > o.terms.validUntilBar.value {
        o := o.Expire();
        SyncOrder(o);
        return o, Dropped;
      }
      var bar := feeds[o.terms.dataIndex].value;
      o := Acknowledge(o);
      o, fate := AttemptOrder(o, bar);
    }

    method ActivateChildren(parentId: nat)
      modifies `pendingOrders
      ensures pendingOrders == Activate(old(pendingOrders), parentId)
    {
      var i := 0;
      while i < |pendingOrders|
        invariant i <= |pendingOrders| == |old(pendingOrders)|
        invariant pendingOrders[..i] == Activate(old(pendingOrders), parentId)[..i]
        invariant pendingOrders[i..] == old(pendingOrders)[i..]
      {
        var order := pendingOrders[i];
        assert order == old(pendingOrders)[i..][0];
        if order.terms.parentId == parentId && !order.transmit {
          order := order.(transmit := true);
        }
        pendingOrders := pendingOrders[i := order];
        i := i + 1;
      }
    }

    /** What follows an attempt that ended the order: its children are released or cancelled. */
    method SettleBracket(o: Order)
      modifies `allOrders, `pendingOrders
      ensures Books() == old(Books())
      ensures Lists(allOrders, pendingOrders) ==
              if o.status == Completed && o.childIds != [] then
                Lists(old(allOrders), Activate(old(pendingOrders), o.id))
              else if o.terms.parentId == 0 && o.childIds != [] && Failed(o) then
                CancelWhere(old(Lists(allOrders, pendingOrders)), ChildrenOf(o.id), 0)
              else
                old(Lists(allOrders, pendingOrders))
    {
      hide CancelWhere, Activate, PosIndex, OpenIndex;
      if o.status == Completed && o.childIds != [] {
        ActivateChildren(o.id);
      }
      if o.terms.parentId == 0 && o.childIds != [] && Failed(o) {
        CancelPendingWhere(ChildrenOf(o.id));
      }
    }

    /** One iteration of the loop in `process_orders`. */
    method ProcessOne(i: nat, feeds: seq<Option<Bar>>, still: seq<Order>, groups: seq<nat>)
      returns (still': seq<Order>, groups': seq<nat>)
      requires Valid() && i < |pendingOrders|
      modifies this, Repr()
      ensures Valid() && fresh(Repr() - old(Repr()))
      ensures barIndex == old(barIndex) && nextOrderId == old(nextOrderId) && nextOcoGroupId == old(nextOcoGroupId)
      ensures Pass(allOrders, pendingOrders, Books(), still', groups') ==
              PassStep(old(Pass(allOrders, pendingOrders, Books(), still, groups)), i, Snapshot(feeds, barIndex), config)
    {
      hide OrderStep, CancelWhere, Activate, PosIndex, OpenIndex;
      still', groups' := still, groups;
      ghost var before := Pass(allOrders, pendingOrders, Books(), still, groups);
      var order, fate := TakeTurn(pendingOrders[i], feeds);
      ghost var l := Books();
      pendingOrders := pendingOrders[i := order];
      assert Books() == l;
      match fate
      case Dropped =>
      case Kept =>
        still' := still' + [order];
      case Attempted =>
        if order.terms.ocoGroupId != 0 && order.status == Completed {
          groups' := groups' + [order.terms.ocoGroupId];
        }
        SettleBracket(order);
    }

    method ProcessOrders(feeds: seq<Option<Bar>>)
      requires Valid()
      modifies this, Repr()
      ensures Valid() && fresh(Repr() - old(Repr()))
      ensures barIndex == old(barIndex)
      ensures State() == Process(old(State()), Snapshot(feeds, barIndex))
    {
      hide PassStep, CancelWhere, PosIndex, OpenIndex;
      var still: seq<Order> := [];
      var groups: seq<nat> := [];
      ghost var m := Snapshot(feeds, barIndex);
      ghost var start := Pass(allOrders, pendingOrders, Books(), [], []);
      var i := 0;
      while i < |pendingOrders|
        invariant Valid() && fresh(Repr() - old(Repr()))
        invariant barIndex == old(barIndex) && nextOrderId == old(nextOrderId) && nextOcoGroupId == old(nextOcoGroupId)
        invariant i <= |pendingOrders| == |old(pendingOrders)|
        invariant RunPass(Pass(allOrders, pendingOrders, Books(), still, groups), i, m, config) == RunPass(start, 0, m, config)
      {
        still, groups := ProcessOne(i, feeds, still, groups);
        i := i + 1;
      }
      ghost var l := Books();
      pendingOrders := still;
      assert Books() == l;
      if groups != [] {
        CancelPendingWhere(InGroups(groups));
        pendingOrders := DropDead(pendingOrders);
        assert Books() == l;
      }
    }

    method Value(closes: seq<real>) returns (value: real)
      requires Valid()
      ensures value == PortfolioValue(State(), closes)
    {
      hide Sum, Mark;
      value := cash;
      NoMarks();
      var i := 0;
      ghost var marks := Marks(PositionValues(), closes);
      while i < |positions|
        invariant i <= |positions| == |marks|
        invariant value == cash + Sum(marks[..i])
      {
        var p := positions[i];
        MarkOf(p.Value(), closes);
        if !NearZero(p.size) && p.dataIndex < |closes| {
          value := value + p.size * closes[p.dataIndex];
        }
        assert PositionValues()[i] == p.Value();
        SumPrefix(marks, i);
        i := i + 1;
      }
      assert marks[..i] == marks;
      assert State().ledger == Books() && marks == Marks(State().ledger.positions, closes);
      ValueIs(State(), closes);
    }

    method SetBarIndex(bar: nat)
      modifies `barIndex
      ensures barIndex == bar && State() == old(State())
    {
      barIndex := bar;
    }
  }

  lemma NoMarks()
    ensures Sum([]) == 0.0
  {
  }

  lemma MarkOf(p: P.PositionState, closes: seq<real>)
    ensures Mark(p, closes) == if !NearZero(p.size) && p.dataIndex < |closes| then p.size * closes[p.dataIndex] else 0.0
  {
  }

  lemma SumPrefix(marks: seq<real>, i: nat)
    requires i < |marks|
    ensures Sum(marks[..i + 1]) == Sum(marks[..i]) + marks[i]
  {
    assert marks[..i + 1] == marks[..i] + [marks[i]];
    SumAppend(marks[..i], marks[i]);
  }

  lemma ValueIs(b: Broker, closes: seq<real>)
    ensures PortfolioValue(b, closes) == b.ledger.cash + Sum(Marks(b.ledger.positions, closes))
  {
  }

  /** `std::erase_if` on the dead orders. */
  method DropDead(orders: seq<Order>) returns (r: seq<Order>)
    ensures r == AliveOnly(orders)
  {
    r := [];
    var i := 0;
    while i < |orders|
      invariant i <= |orders|
      invariant AliveOnly(orders) == r + AliveOnly(orders[i..])
    {
      if orders[i].Alive() {
        r := r + [orders[i]];
      }
      i := i + 1;
    }
  }

  lemma TryFillIdle(o: Order, bar: Bar, cfg: Config, barIndex: nat, l: Ledger)
    ensures var a := TryFill(o, bar, cfg, barIndex, l); !a.done ==> a.order == o && a.ledger == l
  {
  }

  method FindOrder(orders: seq<Order>, id: nat) returns (k: nat)
    ensures k == IdIndex(orders, id)
  {
    k := 0;
    while k < |orders| && orders[k].id != id
      invariant k <= |orders|
      invariant forall j :: 0 <= j < k ==> orders[j].id != id
    {
      k := k + 1;
    }
    assert IdIndex(orders, id) <= k;
  }

  method SetChildren(orders: seq<Order>, id: nat, children: seq<nat>) returns (r: seq<Order>)
    ensures r == WithChildren(orders, id, children)
  {
    var k := FindOrder(orders, id);
    r := if k < |orders| then orders[k := orders[k].(childIds := children)] else orders;
  }

  lemma PosIndexIs(ps: seq<P.PositionState>, d: nat, k: nat)
    requires k <= |ps| && (k < |ps| ==> ps[k].dataIndex == d) && forall j :: 0 <= j < k ==> ps[j].dataIndex != d
    ensures PosIndex(ps, d) == k
  {
  }

  lemma OpenIndexIs(ts: seq<Entry>, d: nat, k: nat)
    requires k <= |ts| && (k < |ts| ==> ts[k].trade.dataIndex == d && ts[k].trade.status == T.Open)
    requires forall j :: 0 <= j < k ==> !(ts[j].trade.dataIndex == d && ts[j].trade.status == T.Open)
    ensures OpenIndex(ts, d) == k
  {
  }
}
