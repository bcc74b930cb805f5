/** Live mode: a venue reports the state of a round trip after each of its fills, and the
    broker recovers the fill from two successive reports (`broker.hpp`, `record_live_fill`
    and `apply_live_execution`). */
module LiveFills {
  import opened Numbers
  import opened Orders
  import opened Positions
  import opened Trades
  import opened Ledgers
  import opened Fills
  import opened Brokers
  import opened BackBrokers

  const TINY: real := 0.000000000001 // 1e-12

  /** The part of the broker that live fills touch. */
  datatype LiveBook = LiveBook(all: seq<Order>, pending: seq<Order>, ledger: Ledger, snapshots: map<nat, TradeState>)

  function PreviousSize(prev: Option<TradeState>): real {
    if prev.Some? then prev.value.size else 0.0
  }

  /** The price of the fill between two reports. */
  function RecoveredPrice(prev: Option<TradeState>, t: TradeState): real {
    match prev
    case None => t.entryPrice
    case Some(p) =>
      var fillAbs := Abs(t.size - p.size);
      if t.status == Closed && t.exitPrice > 0.0 then t.exitPrice
      else if (p.size > 0.0 && t.size > p.size) || (p.size < 0.0 && t.size < p.size) then
        if fillAbs > 0.0 then (t.entryPrice * Abs(t.size) - p.entryPrice * Abs(p.size)) / fillAbs else t.entryPrice
      else if Abs(t.size) < Abs(p.size) then
        if fillAbs > 0.0 then p.entryPrice + (if p.size > 0.0 then 1.0 else -1.0) * ((t.pnl - p.pnl) / fillAbs) else t.entryPrice
      else t.entryPrice
  }

  function RecoveredCommission(prev: Option<TradeState>, t: TradeState): real {
    t.commission - if prev.Some? then prev.value.commission else 0.0
  }

  predicate Terminal(o: Order, t: TradeState) {
    t.status == Closed || Abs(t.size) >= o.terms.size - TINY
  }

  function ExecuteLive(o: Order, size: real, price: real, comm: real, t: TradeState): Order {
    o.(execution := Execution(price, o.execution.size + Abs(size), o.execution.commission + comm),
       status := if Terminal(o, t) then Completed else Partial)
  }

  function LiveFillOf(o: Order, size: real, price: real, comm: real, t: TradeState, bar: nat): Fill {
    Fill(o.terms.dataIndex, size, price, comm, bar, if t.status == Closed then t.exitTime else t.entryTime, o.terms.candidateId)
  }

  function Erased(pending: seq<Order>, id: nat): seq<Order> {
    if pending == [] then []
    else if pending[0].id == id then Erased(pending[1..], id)
    else [pending[0]] + Erased(pending[1..], id)
  }

  /** `apply_live_execution` for the order at `k`. */
  function ApplyLive(b: LiveBook, k: nat, size: real, price: real, comm: real, t: TradeState, bar: nat): LiveBook
    requires k < |b.all|
  {
    var o := ExecuteLive(b.all[k], size, price, comm, t);
    var pending := Sync(b.pending, o);
    b.(ledger := Post(b.ledger, LiveFillOf(b.all[k], size, price, comm, t, bar)),
       all := b.all[k := o],
       pending := if Terminal(b.all[k], t) then Erased(pending, o.id) else pending)
  }

  function Previous(b: LiveBook, id: nat): Option<TradeState> {
    if id in b.snapshots then Some(b.snapshots[id]) else None
  }

  /** `record_live_fill`. */
  function RecordFill(b: LiveBook, t: TradeState, bar: nat): LiveBook {
    var k := IdIndex(b.all, t.id);
    if k == |b.all| then b
    else
      var prev := Previous(b, t.id);
      var delta := t.size - PreviousSize(prev);
      if Abs(delta) < TINY then b.(snapshots := b.snapshots[t.id := t])
      else
        var c := ApplyLive(b, k, delta, RecoveredPrice(prev, t), RecoveredCommission(prev, t), t, bar);
        c.(snapshots := if Terminal(b.all[k], t) then b.snapshots - {t.id} else b.snapshots[t.id := t])
  }

  class LiveBroker {
    const book: BackBroker
    var snapshots: map<nat, TradeState>

    constructor (book: BackBroker)
      ensures this.book == book && snapshots == map[]
    {
      this.book := book;
      snapshots := map[];
    }

    function Value(): LiveBook
      reads this, book, book.Repr()
    {
      LiveBook(book.allOrders, book.pendingOrders, book.Books(), snapshots)
    }

    method RecordLiveFill(t: TradeState)
      requires book.Valid() && this !in book.Repr()
      modifies this, book, book.Repr()
      ensures book.Valid()
      ensures Value() == RecordFill(old(Value()), t, old(book.barIndex))
    {
      hide RecoveredPrice, RecoveredCommission, ApplyLive, PosIndex, OpenIndex;
      var k := FindOrder(book.allOrders, t.id);
      if k == |book.allOrders| {
        return;
      }
      var order := book.allOrders[k];
      var prev := if t.id in snapshots then Some(snapshots[t.id]) else None;
      var delta := t.size - if prev.Some? then prev.value.size else 0.0;
      if Abs(delta) < TINY {
        snapshots := snapshots[t.id := t];
        return;
      }
      ApplyLiveExecution(k, delta, RecoveredPrice(prev, t), RecoveredCommission(prev, t), t);
      snapshots := if Terminal(order, t) then snapshots - {t.id} else snapshots[t.id := t];
    }

    method ApplyLiveExecution(k: nat, size: real, price: real, comm: real, t: TradeState)
      requires book.Valid() && k < |book.allOrders|
      modifies book, book.Repr()
      ensures book.Valid() && fresh(book.Repr() - old(book.Repr()))
      ensures var b := ApplyLive(old(Value()), k, size, price, comm, t, old(book.barIndex));
              book.allOrders == b.all && book.pendingOrders == b.pending && book.Books() == b.ledger
    {
      hide Post, Sync, PosIndex, OpenIndex;
      var order := book.allOrders[k];
      book.PostFill(LiveFillOf(order, size, price, comm, t, book.barIndex));
      ghost var l := book.Books();
      var o := ExecuteLive(order, size, price, comm, t);
      SetOrders(k, o, Terminal(order, t));
    }

    /** `cancel_order` in live mode, which throws for an unknown id; the request to the venue is
        not modelled. */
    method CancelOrder(id: nat) returns (known: bool)
      modifies book`allOrders, book`pendingOrders
      ensures known <==> IdIndex(old(book.allOrders), id) < |old(book.allOrders)|
      ensures var k := IdIndex(old(book.allOrders), id);
              if known then
                var o := old(book.allOrders)[k].Cancel();
                book.allOrders == old(book.allOrders)[k := o] && book.pendingOrders == Sync(old(book.pendingOrders), o)
              else book.allOrders == old(book.allOrders) && book.pendingOrders == old(book.pendingOrders)
    {
      var k := FindOrder(book.allOrders, id);
      known := k < |book.allOrders|;
      if known {
        SetOrders(k, book.allOrders[k].Cancel(), false);
      }
    }

    /** `sync_pending_order`, and the removal of a terminal order. */
    method SetOrders(k: nat, o: Order, terminal: bool)
      requires k < |book.allOrders|
      modifies book`allOrders, book`pendingOrders
      ensures book.allOrders == old(book.allOrders)[k := o]
      ensures var pending := Sync(old(book.pendingOrders), o);
              book.pendingOrders == if terminal then Erased(pending, o.id) else pending
    {
      book.allOrders := book.allOrders[k := o];
      var j := FindOrder(book.pendingOrders, o.id);
      if j < |book.pendingOrders| {
        book.pendingOrders := book.pendingOrders[j := o];
      }
      if terminal {
        var kept := DropId(book.pendingOrders, o.id);
        book.pendingOrders := kept;
      }
    }
  }

  /** `std::erase_if` on the orders with an id. */
  method DropId(orders: seq<Order>, id: nat) returns (r: seq<Order>)
    ensures r == Erased(orders, id)
  {
    r := [];
    var i := 0;
    while i < |orders|
      invariant i <= |orders|
      invariant Erased(orders, id) == r + Erased(orders[i..], id)
    {
      if orders[i].id != id {
        r := r + [orders[i]];
      }
      i := i + 1;
    }
  }

  // ------------------------------------------------------ what is recovered

  /** A fill as the venue saw it, and the bar at which the broker hears of it. */
  datatype VenueFill = VenueFill(size: real, price: real, commission: real, bar: nat, time: int, heardAt: nat)

  function After(t: TradeState, f: VenueFill): TradeState {
    t.Filled(f.size, f.price, f.commission, f.bar, f.time)
  }

  /** A fill that does not carry the trade through zero. */
  ghost predicate NonReversing(t: TradeState, f: VenueFill, lot: real) {
    && OnGrid(f.size, lot)
    && ((t.size > 0.0 && (f.size > 0.0 || -t.size <= f.size < 0.0)) || (t.size < 0.0 && (f.size < 0.0 || 0.0 < f.size <= -t.size)))
  }

  ghost predicate Recovers(prev: Option<TradeState>, t: TradeState, f: VenueFill) {
    && t.size - PreviousSize(prev) == f.size
    && RecoveredPrice(prev, t) == f.price
    && RecoveredCommission(prev, t) == f.commission
  }

  lemma FirstFillRecovered(id: nat, d: nat, cand: nat, f: VenueFill, lot: real)
    requires EPS <= lot && OnGrid(f.size, lot) && f.size != 0.0
    ensures var t := After(Blank(id, d, cand), f);
            Recovers(None, t, f) && Running(t, lot) && t.id == id && t.entryTime == f.time
  {
    hide TradeState.Filled;
    OpenTrade(id, d, cand, f.size, f.price, f.commission, f.bar, f.time, lot);
  }

  lemma QuotientIs(x: real, q: real, p: real)
    requires q != 0.0 && x == q * p
    ensures x / q == p
  {
  }

  /** Undoing the averaging of a fill in the direction of the trade. */
  lemma GrowPrice(size: real, price: real, fill: real, p: real, avg: real)
    requires (size > 0.0 && fill > 0.0) || (size < 0.0 && fill < 0.0)
    requires (size + fill) * avg == size * price + fill * p
    ensures (avg * Abs(size + fill) - price * Abs(size)) / Abs(fill) == p
  {
    var x := avg * Abs(size + fill) - price * Abs(size);
    if size > 0.0 {
      assert x == fill * p;
    } else {
      assert x == -fill * p;
    }
    QuotientIs(x, Abs(fill), p);
  }

  /** Undoing the profit of a fill against the trade. */
  lemma ShrinkPrice(size: real, price: real, fill: real, p: real, gain: real)
    requires (size > 0.0 && fill < 0.0) || (size < 0.0 && fill > 0.0)
    requires gain == fill * price - fill * p
    ensures price + (if size > 0.0 then 1.0 else -1.0) * (gain / Abs(fill)) == p
  {
    if size > 0.0 {
      assert gain == -fill * (p - price);
      QuotientIs(gain, -fill, p - price);
    } else {
      assert gain == fill * (price - p);
      QuotientIs(gain, fill, price - p);
    }
  }

  lemma GrowRecovered(t: TradeState, f: VenueFill, lot: real)
    requires EPS <= lot && Running(t, lot) && OnGrid(f.size, lot)
    requires (t.size > 0.0 && f.size > 0.0) || (t.size < 0.0 && f.size < 0.0)
    ensures Recovers(Some(t), After(t, f), f) && After(t, f).id == t.id && Running(After(t, f), lot)
    ensures After(t, f).entryTime == t.entryTime
  {
    hide TradeState.Filled;
    GrowTrade(t, f.size, f.price, f.commission, f.bar, f.time, lot);
    GrowPrice(t.size, t.price, f.size, f.price, After(t, f).price);
  }

  lemma ShrinkInverts(t: TradeState, u: TradeState, f: VenueFill)
    requires (t.size > 0.0 && -t.size <= f.size < 0.0) || (t.size < 0.0 && 0.0 < f.size <= -t.size)
    requires u.size == t.size + f.size && u.entryPrice == t.entryPrice && u.commission == t.commission + f.commission
    requires u.pnl - t.pnl == f.size * t.entryPrice - f.size * f.price
    requires u.status == Closed ==> u.exitPrice == f.price
    ensures Recovers(Some(t), u, f)
  {
    ShrinkPrice(t.size, t.entryPrice, f.size, f.price, u.pnl - t.pnl);
  }

  lemma ShrinkRecovered(t: TradeState, f: VenueFill, lot: real)
    requires EPS <= lot && Running(t, lot) && OnGrid(f.size, lot)
    requires (t.size > 0.0 && -t.size <= f.size < 0.0) || (t.size < 0.0 && 0.0 < f.size <= -t.size)
    ensures var u := After(t, f);
            && Recovers(Some(t), u, f) && u.id == t.id && u.size == t.size + f.size && u.entryTime == t.entryTime
            && if u.size == 0.0 then u.status == Closed && u.exitTime == f.time else Running(u, lot)
  {
    hide TradeState.Filled, Recovers, OnGrid;
    ShrinkTrade(t, f.size, f.price, f.commission, f.bar, f.time, lot);
    ShrinkInverts(t, After(t, f), f);
  }

  /** Two successive reports of a trade determine the fill between them. */
  lemma NextFillRecovered(t: TradeState, f: VenueFill, lot: real)
    requires EPS <= lot && Running(t, lot) && NonReversing(t, f, lot)
    ensures var u := After(t, f);
            && Recovers(Some(t), u, f) && u.id == t.id && u.entryTime == t.entryTime
            && (u.status == Open ==> Running(u, lot))
            && (u.status == Closed <==> f.size == -t.size)
            && (u.status == Closed ==> u.exitTime == f.time)
  {
    hide After, Recovers;
    if (t.size > 0.0 && f.size > 0.0) || (t.size < 0.0 && f.size < 0.0) {
      GrowRecovered(t, f, lot);
    } else {
      ShrinkRecovered(t, f, lot);
    }
  }

  // ------------------------------------------------------- a whole order

  function TradeAfter(start: TradeState, fs: seq<VenueFill>): TradeState {
    if fs == [] then start else After(TradeAfter(start, fs[..|fs| - 1]), fs[|fs| - 1])
  }

  /** The fills of one order: the first opens the trade, none reverses it, and the order is
      not terminal before the last. */
  ghost predicate OneOrder(o: Order, start: TradeState, fs: seq<VenueFill>, lot: real) {
    fs == [] ||
    var init, f := fs[..|fs| - 1], fs[|fs| - 1];
    && OneOrder(o, start, init, lot)
    && if init == [] then OnGrid(f.size, lot) && f.size != 0.0
       else !Terminal(o, TradeAfter(start, init)) && NonReversing(TradeAfter(start, init), f, lot)
  }

  /** The broker hears of each fill through the state of the trade after it. */
  function Heard(b: LiveBook, start: TradeState, fs: seq<VenueFill>): LiveBook {
    if fs == [] then b
    else RecordFill(Heard(b, start, fs[..|fs| - 1]), TradeAfter(start, fs), fs[|fs| - 1].heardAt)
  }

  /** The ledger that is told of every fill directly. */
  function Told(l: Ledger, o: Order, fs: seq<VenueFill>): Ledger {
    if fs == [] then l
    else
      var f := fs[|fs| - 1];
      Post(Told(l, o, fs[..|fs| - 1]), Fill(o.terms.dataIndex, f.size, f.price, f.commission, f.bar, f.time, o.terms.candidateId))
  }

  /** The ledger of the broker: each fill is stamped with the bar at which it is heard of, and
      with the entry of its trade, or its own time if it closes the trade. */
  function Booked(l: Ledger, o: Order, start: TradeState, fs: seq<VenueFill>): Ledger {
    if fs == [] then l
    else
      var f := fs[|fs| - 1];
      var time := if TradeAfter(start, fs).status == Closed then f.time else fs[0].time;
      Post(Booked(l, o, start, fs[..|fs| - 1]),
           Fill(o.terms.dataIndex, f.size, f.price, f.commission, f.heardAt, time, o.terms.candidateId))
  }

  function Filled(fs: seq<VenueFill>): real {
    if fs == [] then 0.0 else Filled(fs[..|fs| - 1]) + Abs(fs[|fs| - 1].size)
  }

  function Paid(fs: seq<VenueFill>): real {
    if fs == [] then 0.0 else Paid(fs[..|fs| - 1]) + fs[|fs| - 1].commission
  }

  /** Cash and positions after a fill depend on cash, positions, and the fill's size, price
      and commission only. */
  lemma PostMoney(l: Ledger, m: Ledger, f: Fill, g: Fill)
    requires l.cash == m.cash && l.positions == m.positions
    requires f.dataIndex == g.dataIndex && f.size == g.size && f.price == g.price && f.commission == g.commission
    ensures Post(l, f).cash == Post(m, g).cash && Post(l, f).positions == Post(m, g).positions
  {
    hide Post, UpdateTrades, PosIndex, PositionState.Filled, WithPosition, PositionAt;
    PostSplit(l, f);
    PostSplit(m, g);
    var ps := WithPosition(l.positions, f.dataIndex);
    var p := PositionAt(l.positions, f.dataIndex);
    var qs := ps[PosIndex(ps, f.dataIndex) := p.Filled(f.size, f.price)];
    TradesLeaveMoney(l.(cash := l.cash - (f.size * f.price + f.commission), positions := qs), p.size, f);
    TradesLeaveMoney(m.(cash := m.cash - (g.size * g.price + g.commission), positions := qs), p.size, g);
  }

  lemma TradesLeaveMoney(l: Ledger, oldSize: real, f: Fill)
    ensures var m := UpdateTrades(l, oldSize, f); m.cash == l.cash && m.positions == l.positions
  {
    hide TradeState.Filled, OpenIndex;
  }

  /** The trade in progress after any number of fills is running, or closed by the last. */
  lemma {:induction false} TradeRuns(o: Order, start: TradeState, fs: seq<VenueFill>, lot: real)
    requires EPS <= lot && start == Blank(o.id, o.terms.dataIndex, o.terms.candidateId) && OneOrder(o, start, fs, lot)
    ensures TradeAfter(start, fs).id == o.id
    ensures fs != [] && TradeAfter(start, fs).status == Open ==> Running(TradeAfter(start, fs), lot)
    ensures fs != [] ==> TradeAfter(start, fs).entryTime == fs[0].time
  {
    hide After;
    if fs != [] {
      var init, f := fs[..|fs| - 1], fs[|fs| - 1];
      if init == [] {
        assert TradeAfter(start, init) == start;
        FirstFillRecovered(o.id, o.terms.dataIndex, o.terms.candidateId, f, lot);
      } else {
        TradeRuns(o, start, init, lot);
        NextFillRecovered(TradeAfter(start, init), f, lot);
      }
    }
  }

  /** The book as it stands after some fills of the order at `k` have been recovered: the
      other orders are as they were, and the order is pending as a copy of the book, if it
      was pending, until it is terminal. */
  ghost predicate Tracks(b: LiveBook, b0: LiveBook, k: nat, start: TradeState, fs: seq<VenueFill>)
    requires k < |b0.all|
  {
    var o := b0.all[k];
    var t := TradeAfter(start, fs);
    && |b.all| == |b0.all| && b.all == b0.all[k := b.all[k]]
    && b.all[k].id == o.id && b.all[k].terms == o.terms && IdIndex(b.all, o.id) == k
    && b.ledger == Booked(b0.ledger, o, start, fs)
    && b.ledger.cash == Told(b0.ledger, o, fs).cash && b.ledger.positions == Told(b0.ledger, o, fs).positions
    && b.all[k].execution.size == o.execution.size + Filled(fs)
    && b.all[k].execution.commission == o.execution.commission + Paid(fs)
    && (fs != [] ==> b.all[k].execution.price == fs[|fs| - 1].price)
    && (fs != [] ==> b.all[k].status == if Terminal(o, t) then Completed else Partial)
    && b.pending == (if fs == [] then b0.pending
                     else if Terminal(o, t) then Erased(b0.pending, o.id)
                     else Sync(b0.pending, b.all[k]))
    && Previous(b, o.id) == if fs == [] || Terminal(o, t) then None else Some(t)
  }

  lemma SyncTwice(s: seq<Order>, o: Order, p: Order)
    requires o.id == p.id
    ensures Sync(Sync(s, o), p) == Sync(s, p)
  {
    var k := IdIndex(s, o.id);
    if k < |s| {
      SameIndex(s, k, o);
      assert s[k := o][k := p] == s[k := p];
    }
  }

  lemma {:induction false} ErasedSync(s: seq<Order>, o: Order)
    ensures Erased(Sync(s, o), o.id) == Erased(s, o.id)
  {
    if s != [] && s[0].id != o.id {
      ErasedSync(s[1..], o);
      var k := IdIndex(s, o.id);
      if k < |s| {
        assert s[k := o] == [s[0]] + s[1..][k - 1 := o];
      }
    } else if s != [] {
      assert s[0 := o] == [o] + s[1..];
    }
  }

  lemma {:induction false} ErasedIs(s: seq<Order>, id: nat)
    ensures forall x :: x in Erased(s, id) <==> x in s && x.id != id
  {
    if s != [] {
      ErasedIs(s[1..], id);
    }
  }

  lemma SameIndex(all: seq<Order>, k: nat, o: Order)
    requires k < |all| && IdIndex(all, o.id) == k
    ensures IdIndex(all[k := o], o.id) == k
  {
    var s := all[k := o];
    assert s[k].id == o.id;
    assert forall i :: 0 <= i < k ==> s[i].id == all[i].id != o.id;
  }

  lemma RecordTracks(b: LiveBook, b0: LiveBook, k: nat, start: TradeState, init: seq<VenueFill>, f: VenueFill, lot: real)
    requires EPS <= lot && k < |b0.all| && start == Blank(b0.all[k].id, b0.all[k].terms.dataIndex, b0.all[k].terms.candidateId)
    requires OneOrder(b0.all[k], start, init + [f], lot) && Tracks(b, b0, k, start, init)
    ensures Tracks(RecordFill(b, TradeAfter(start, init + [f]), f.heardAt), b0, k, start, init + [f])
  {
    hide Post, TradeState.Filled, RecoveredPrice, RecoveredCommission, IdIndex, Sync, Erased;
    var o := b0.all[k];
    var fs := init + [f];
    assert fs[..|fs| - 1] == init && fs[|fs| - 1] == f;
    assert init == [] ==> TradeAfter(start, init) == start;
    assert TradeAfter(start, fs) == After(TradeAfter(start, init), f);
    var t := TradeAfter(start, fs);
    var prev := Previous(b, o.id);
    if init == [] {
      FirstFillRecovered(o.id, o.terms.dataIndex, o.terms.candidateId, f, lot);
    } else {
      TradeRuns(o, start, init, lot);
      NextFillRecovered(TradeAfter(start, init), f, lot);
    }
    assert Recovers(prev, t, f) && t.id == o.id;
    TradeRuns(o, start, fs, lot);
    assert t.status == Closed ==> t.exitTime == f.time;
    NotTiny(f.size, lot);
    var o' := ExecuteLive(b.all[k], f.size, f.price, f.commission, t);
    SyncTwice(b0.pending, b.all[k], o');
    ErasedSync(b0.pending, o');
    SameIndex(b.all, k, o');
    PostMoney(b.ledger, Told(b0.ledger, o, init), LiveFillOf(b.all[k], f.size, f.price, f.commission, t, f.heardAt),
              Fill(o.terms.dataIndex, f.size, f.price, f.commission, f.bar, f.time, o.terms.candidateId));
  }

  lemma NotTiny(x: real, lot: real)
    requires EPS <= lot && OnGrid(x, lot) && x != 0.0
    ensures Abs(x) >= TINY
  {
    GridNearZero(x, lot);
  }

  /** Live fills are recovered exactly: hearing only the state of the trade after each fill,
      the broker ends with the cash and the positions of the fills themselves, and the order
      with their number of lots and their commission, completed exactly when it is filled
      or its trade is closed. */
  lemma {:induction false} LiveRecoversFills(b: LiveBook, k: nat, fs: seq<VenueFill>, lot: real)
    requires EPS <= lot && k < |b.all| && IdIndex(b.all, b.all[k].id) == k && b.all[k].id !in b.snapshots
    requires OneOrder(b.all[k], Blank(b.all[k].id, b.all[k].terms.dataIndex, b.all[k].terms.candidateId), fs, lot)
    ensures var o := b.all[k];
            var start := Blank(o.id, o.terms.dataIndex, o.terms.candidateId);
            Tracks(Heard(b, start, fs), b, k, start, fs)
  {
    hide RecordFill, Terminal, Post, NonReversing, TradeState.Filled;
    var o := b.all[k];
    var start := Blank(o.id, o.terms.dataIndex, o.terms.candidateId);
    if fs != [] {
      var init, f := fs[..|fs| - 1], fs[|fs| - 1];
      LiveRecoversFills(b, k, init, lot);
      assert fs == init + [f];
      RecordTracks(Heard(b, start, init), b, k, start, init, f, lot);
    }
  }

  /** In particular an order that was pending is off the pending list exactly when it is
      terminal, and until then it is pending as a copy of the book. */
  lemma LivePendingIff(b: LiveBook, k: nat, fs: seq<VenueFill>, lot: real)
    requires EPS <= lot && k < |b.all| && IdIndex(b.all, b.all[k].id) == k && b.all[k].id !in b.snapshots
    requires OneOrder(b.all[k], Blank(b.all[k].id, b.all[k].terms.dataIndex, b.all[k].terms.candidateId), fs, lot)
    requires fs != [] && IdIndex(b.pending, b.all[k].id) < |b.pending|
    ensures var start := Blank(b.all[k].id, b.all[k].terms.dataIndex, b.all[k].terms.candidateId);
            var c := Heard(b, start, fs);
            && |c.all| == |b.all|
            && if Terminal(b.all[k], TradeAfter(start, fs)) then forall x :: x in c.pending ==> x.id != b.all[k].id
               else c.all[k] in c.pending
  {
    hide Heard, OneOrder, TradeAfter, IdIndex, Told, Filled, Paid, Erased;
    LiveRecoversFills(b, k, fs, lot);
    ErasedIs(b.pending, b.all[k].id);
    var start := Blank(b.all[k].id, b.all[k].terms.dataIndex, b.all[k].terms.candidateId);
    SyncHolds(b.pending, Heard(b, start, fs).all[k]);
  }

  lemma SyncHolds(s: seq<Order>, o: Order)
    requires IdIndex(s, o.id) < |s|
    ensures o in Sync(s, o)
  {
    var k := IdIndex(s, o.id);
    assert s[k := o][k] == o;
  }

  /** The size traded by a sequence of fills. */
  function Net(fs: seq<VenueFill>): real {
    if fs == [] then 0.0 else Net(fs[..|fs| - 1]) + fs[|fs| - 1].size
  }

  /** The trade has the size of the fills, and is closed exactly when they cancel out. */
  lemma {:induction false} TradeIsNet(o: Order, start: TradeState, fs: seq<VenueFill>, lot: real)
    requires EPS <= lot && start == Blank(o.id, o.terms.dataIndex, o.terms.candidateId) && OneOrder(o, start, fs, lot)
    ensures TradeAfter(start, fs).size == Net(fs)
    ensures fs != [] ==> OnGrid(Net(fs), lot) && (TradeAfter(start, fs).status == Closed <==> Net(fs) == 0.0)
  {
    hide After, OnGrid;
    if fs != [] {
      var init, f := fs[..|fs| - 1], fs[|fs| - 1];
      TradeIsNet(o, start, init, lot);
      if init == [] {
        assert TradeAfter(start, init) == start;
        FirstFillRecovered(o.id, o.terms.dataIndex, o.terms.candidateId, f, lot);
      } else {
        TradeRuns(o, start, init, lot);
        NextFillRecovered(TradeAfter(start, init), f, lot);
        GridAdd(Net(init), f.size, lot);
      }
    }
  }

  /** Near the order's size means at or above it, on the grid. */
  lemma ReachesSize(x: real, size: real, lot: real)
    requires EPS <= lot && OnGrid(x, lot) && OnGrid(size, lot)
    ensures Abs(x) >= size - TINY <==> Abs(x) >= size
  {
    GridNeg(x, lot);
    GridNeg(size, lot);
    GridAdd(Abs(x), -size, lot);
    GridNearZero(Abs(x) - size, lot);
  }

  /** The order is completed exactly when its fills have reached its size, or have closed the
      trade, and partially filled until then. */
  lemma LiveCompletesIff(b: LiveBook, k: nat, fs: seq<VenueFill>, lot: real)
    requires EPS <= lot && k < |b.all| && IdIndex(b.all, b.all[k].id) == k && b.all[k].id !in b.snapshots
    requires OneOrder(b.all[k], Blank(b.all[k].id, b.all[k].terms.dataIndex, b.all[k].terms.candidateId), fs, lot)
    requires fs != [] && OnGrid(b.all[k].terms.size, lot)
    ensures var c := Heard(b, Blank(b.all[k].id, b.all[k].terms.dataIndex, b.all[k].terms.candidateId), fs);
            && |c.all| == |b.all|
            && c.all[k].status == if Net(fs) == 0.0 || Abs(Net(fs)) >= b.all[k].terms.size then Completed else Partial
  {
    hide Heard, OneOrder, TradeAfter, IdIndex, Told, Booked, Filled, Paid, Erased, OnGrid;
    var o := b.all[k];
    var start := Blank(o.id, o.terms.dataIndex, o.terms.candidateId);
    LiveRecoversFills(b, k, fs, lot);
    TradeIsNet(o, start, fs, lot);
    ReachesSize(Net(fs), o.terms.size, lot);
  }

  /** A report that closes a trade without an exit price: the price is the one at which the
      whole position makes the profit reported. */
  lemma ClosedWithoutExit(p: TradeState, t: TradeState)
    requires p.size != 0.0 && t.size == 0.0 && t.status == Closed && t.exitPrice <= 0.0
    ensures (RecoveredPrice(Some(p), t) - p.entryPrice) * p.size == t.pnl - p.pnl
  {
    var gain := t.pnl - p.pnl;
    var unit := gain / Abs(p.size);
    assert unit * Abs(p.size) == gain;
    if p.size < 0.0 {
      assert (-unit) * p.size == unit * Abs(p.size);
    }
  }

  /** A report of an unknown trade changes nothing; one of an unchanged size moves no money and
      no order, but is remembered for the next. */
  lemma ReportsWithoutFill(b: LiveBook, t: TradeState, bar: nat)
    ensures IdIndex(b.all, t.id) == |b.all| ==> RecordFill(b, t, bar) == b
    ensures var c := RecordFill(b, t, bar);
            IdIndex(b.all, t.id) < |b.all| && Abs(t.size - PreviousSize(Previous(b, t.id))) < 0.000000000001 ==>
              c.ledger == b.ledger && c.all == b.all && c.pending == b.pending && Previous(c, t.id) == Some(t)
  {
  }
}
