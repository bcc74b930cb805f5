/** What a call makes of an order whose turn is due: it is attempted, unless its validity has
    passed, and the attempt decides what becomes of it.  And what an order carries from its
    submission on. */
module DueOrders {
  import opened Numbers
  import opened Orders
  import opened Positions
  import opened Ledgers
  import opened LedgerLaws
  import opened TradeLists
  import opened Fills
  import opened Brokers
  import opened BookLaws
  import opened RunLaws
  import opened BracketLaws
  import opened TurnLaws

  // ------------------------------------------------------------ submission

  /** An accepted order carries every parameter it was submitted with, the size and the
      candidate of the verdict, and nothing else yet. */
  lemma SubmitCarries(b: Broker, side: Side, params: OrderParams, v: Verdict)
    requires !v.rejected
    ensures var c := Submit(b, side, params, v);
            && |c.all| == |b.all| + 1 && b.all <= c.all
            && |c.pending| == |b.pending| + 1 && b.pending <= c.pending
            && c.ledger == b.ledger && c.nextOcoGroupId == b.nextOcoGroupId
            && var o := c.all[|b.all|];
            && c.pending[|b.pending|] == o && o.id == b.nextOrderId == c.nextOrderId - 1
            && o.status == Created && o.childIds == [] && o.trailStopPrice == 0.0
            && o.execution.size == 0.0 && o.execution.price == 0.0 && o.execution.commission == 0.0
            && o.terms.side == side && o.terms.typ == params.typ && o.terms.price == params.price
            && o.terms.stopPrice == params.stopPrice && o.terms.dataIndex == params.dataIndex
            && o.terms.validUntilBar == params.validUntilBar
            && o.terms.trailAmount == params.trailAmount && o.terms.trailPercent == params.trailPercent
            && o.terms.ocoGroupId == params.ocoGroupId && o.terms.parentId == params.parentId
            && o.transmit == params.transmit
            && o.terms.size == v.finalSize && o.terms.candidateId == v.candidateId
  {
  }

  /** Closing a position that is not flat submits a market order on its feed.  Executed in full,
      at whatever price, it leaves the position flat, except for a long position of exactly the
      epsilon: that is neither flat nor long to the code, and is bought again. */
  lemma CloseFlattensIff(b: Broker, d: nat, v: Verdict, price: real, comm: real, bar: nat, time: int, lot: real)
    requires Agreement(b.ledger, lot) && PositionAt(b.ledger.positions, d).size != 0.0
    requires !v.rejected && v.finalSize == Abs(PositionAt(b.ledger.positions, d).size)
    ensures var c := Close(b, d, v);
            && |c.all| == |b.all| + 1 && b.all <= c.all && c.ledger == b.ledger
            && var o := c.all[|b.all|];
            && o.terms.typ == Market && o.terms.dataIndex == d && o.terms.parentId == 0 && o.transmit
            && (PositionAt(Post(c.ledger, ToFill(o, price, comm, bar, time)).positions, d).IsFlat() <==>
                  PositionAt(b.ledger.positions, d).size != EPS)
  {
    hide Post, PosIndex, OpenIndex;
    var p := PositionAt(b.ledger.positions, d);
    PositionOnGrid(b.ledger, d, lot);
    GridNearZero(p.size, lot);
    var o := Close(b, d, v).all[|b.all|];
    var f := ToFill(o, price, comm, bar, time);
    if p.size != EPS {
      WholeFillFlattens(b.ledger, f, lot);
    } else {
      PostLaws(b.ledger, f, lot);
    }
  }

  /** Closing a flat position submits nothing and moves nothing. */
  lemma CloseFlatIsNothing(b: Broker, d: nat, v: Verdict)
    requires PositionAt(b.ledger.positions, d).IsFlat()
    ensures var c := Close(b, d, v);
            && c.all == b.all && c.pending == b.pending && c.nextOrderId == b.nextOrderId
            && c.ledger == b.ledger.(positions := c.ledger.positions)
            && PositionAt(c.ledger.positions, d) == PositionAt(b.ledger.positions, d)
  {
  }

  // ------------------------------------------------------------- one turn

  /** The validity of an order has passed: it ends strictly before the bar. */
  predicate Overdue(o: Order, m: Snapshot) {
    o.terms.validUntilBar.Some? && o.terms.validUntilBar.value < m.bar
  }

  /** The order is refused: a buy that costs more than there is cash. */
  predicate Refused(o: Order, price: real, cfg: Config, cash: real) {
    o.terms.side == Buy && o.terms.size * price + cfg.commission.Calculate(o.terms.size, price) > cash
  }

  /** What an attempt makes of order `o`: it ends as `x`. */
  predicate Decided(o: Order, x: Order, bar: Bar, cfg: Config, cash: real) {
    match FillPrice(o, bar, cfg.slip)
    case Untouched => x.Alive()
    case Malformed => x.status == Rejected
    case At(price) =>
      if Refused(o, price, cfg, cash) then x.status == Margin
      else
        && x.status == Completed
        && x.execution == Execution(price, o.terms.size, cfg.commission.Calculate(o.terms.size, price))
  }

  lemma PriceSame(o: Order, p: Order, bar: Bar, s: Slippage)
    requires o.terms == p.terms && o.trailStopPrice == p.trailStopPrice
    ensures FillPrice(o, bar, s) == FillPrice(p, bar, s)
  {
  }

  /** The attempt on order `o`, which has been acknowledged and released since: the ledger and
      the order after the turn are those of the attempt. */
  predicate Attempts(o: Order, s: Step, bar: Bar, cfg: Config, barIndex: nat, l: Ledger) {
    var a := TryFill(Acknowledged(o.(transmit := true)), bar, cfg, barIndex, l);
    && s.ledger == a.ledger && (s.fate == Attempted <==> a.done)
    && (if a.done then s.order.(transmit := true) == a.order
        else s.order.status == (if o.status == Created then Accepted else o.status) && s.fate == Kept)
  }

  /** The turn of an order that is due: alive, not held by a parent that has not completed, with
      a bar of its feed.  It expires exactly if its validity has passed, and is attempted
      otherwise. */
  lemma DueTurn(o: Order, all: seq<Order>, l: Ledger, m: Snapshot, cfg: Config, bar: Bar)
    requires o.Alive() && (o.transmit || o.terms.parentId == 0 || ParentFilled(all, o.terms.parentId))
    requires o.terms.dataIndex < |m.feeds| && m.feeds[o.terms.dataIndex] == Some(bar)
    ensures var s := OrderStep(o, all, l, m, cfg);
            && (s.order.status == Expired <==> Overdue(o, m))
            && (Overdue(o, m) ==> s.ledger == l && s.fate == Dropped)
            && (!Overdue(o, m) ==> Attempts(o, s, bar, cfg, m.bar, l) && Decided(o, s.order, bar, cfg, l.cash))
  {
    hide Sync, ParentFilled, SyncAcknowledged, FillPrice, Post, TrailLevel, TrailMoves, CommissionInfo.Calculate;
    var p := Acknowledged(if Held(o) then o.(transmit := true) else o);
    var q := Acknowledged(o.(transmit := true));
    PriceSame(o, p, bar, cfg.slip);
    PriceSame(o, q, bar, cfg.slip);
    assert q == p.(transmit := true);
  }

  /** An order that is not due waits, or is rejected for a feed that does not exist. */
  lemma IdleTurn(o: Order, all: seq<Order>, l: Ledger, m: Snapshot, cfg: Config)
    requires o.Alive()
    ensures var s := OrderStep(o, all, l, m, cfg);
            var free := o.transmit || o.terms.parentId == 0 || ParentFilled(all, o.terms.parentId);
            && (!(free && o.terms.dataIndex < |m.feeds| && m.feeds[o.terms.dataIndex].Some?) ==> s.ledger == l)
            && (!free ==> s.order == o && s.fate == Kept && s.all == all)
            && (free && o.terms.dataIndex >= |m.feeds| ==> s.order.status == Rejected && s.fate == Dropped)
            && (free && o.terms.dataIndex < |m.feeds| && m.feeds[o.terms.dataIndex] == None ==>
                  s.order == o.(transmit := o.transmit || o.terms.parentId != 0) && s.fate == Kept && s.all == all)
  {
    hide Sync, ParentFilled;
  }

  // ------------------------------------------------- the turn in the pass

  /** The pass as it stands when the turn of the order at `n` comes. */
  function PassTo(p: Pass, i: nat, n: nat, m: Snapshot, cfg: Config): (r: Pass)
    requires i <= n <= |p.pending|
    ensures |r.pending| == |p.pending| && |r.all| == |p.all|
    decreases n - i
  {
    if i == n then p else PassTo(PassStep(p, i, m, cfg), i + 1, n, m, cfg)
  }

  lemma {:induction false} PassSplits(p: Pass, i: nat, n: nat, m: Snapshot, cfg: Config)
    requires i <= n <= |p.pending|
    ensures RunPass(p, i, m, cfg) == RunPass(PassTo(p, i, n, m, cfg), n, m, cfg)
    decreases n - i
  {
    hide PassStep;
    if i < n {
      PassSplits(PassStep(p, i, m, cfg), i + 1, n, m, cfg);
    }
  }

  /** Before its turn the order stands as at the start of the pass. */
  predicate Waiting(p: Pass, n: nat, o: Order) {
    && n < |p.pending| && Agree(p.pending[n], o)
    && 1 <= o.id <= |p.all| && p.all[o.id - 1].terms == o.terms && NotHeld(p.all, o.id)
  }

  /** The children cancelled in a turn are those of an order that has just failed; an order
      whose parent has completed is not among them. */
  lemma NotItsChild(p: Pass, i: nat, s: Step, m: Snapshot, cfg: Config, id: nat)
    requires PassOk(p, i) && i < |p.pending| && s == OrderStep(p.pending[i], p.all, p.ledger, m, cfg) && s.fate == Attempted
    requires 1 <= id <= |p.all| && NotHeld(p.all, id)
    ensures p.all[id - 1].terms.parentId != p.pending[i].id
  {
    hide OrderStep;
    var o := p.pending[i];
    PassOkParts(p, i);
    OrderStepFacts(o, p.all, p.ledger, m, cfg);
  }

  lemma WaitsOn(p: Pass, i: nat, n: nat, m: Snapshot, cfg: Config, o: Order)
    requires PassOk(p, i) && i < n < |p.pending| && Waiting(p, n, o)
    ensures Waiting(PassStep(p, i, m, cfg), n, o)
  {
    hide OrderStep, CancelWhere, PassOk, CancelledIn, Advances, NotHeld;
    var turn := p.pending[i];
    var s := OrderStep(turn, p.all, p.ledger, m, cfg);
    PassStepOk(p, i, m, cfg);
    NotHeldStays(p.all, PassStep(p, i, m, cfg).all, o.id);
    if s.fate == Attempted {
      var t := AfterTurn(p, i, s);
      NotItsChild(p, i, s, m, cfg, o.id);
      CancelPending(Lists(t.all, t.pending), ChildrenOf(turn.id), 0);
      StepKeepsId(p, i, m, cfg);
    }
  }

  lemma StepKeepsId(p: Pass, i: nat, m: Snapshot, cfg: Config)
    requires PassOk(p, i) && i < |p.pending|
    ensures OrderStep(p.pending[i], p.all, p.ledger, m, cfg).order.id == p.pending[i].id
  {
    hide OrderStep;
    PassOkParts(p, i);
    OrderStepFacts(p.pending[i], p.all, p.ledger, m, cfg);
  }

  lemma {:induction false} WaitsUntil(p: Pass, i: nat, n: nat, m: Snapshot, cfg: Config, o: Order)
    requires PassOk(p, i) && i <= n < |p.pending| && Waiting(p, n, o)
    ensures var q := PassTo(p, i, n, m, cfg); PassOk(q, n) && Waiting(q, n, o)
    decreases n - i
  {
    hide PassOk, PassStep, Waiting;
    if i < n {
      WaitsOn(p, i, n, m, cfg, o);
      PassStepOk(p, i, m, cfg);
      WaitsUntil(PassStep(p, i, m, cfg), i + 1, n, m, cfg, o);
    }
  }

  // ------------------------------------------------------------- on return

  /** What is known of an order whose turn is over: dead orders stay as they are, and an alive
      one can only be cancelled. */
  predicate Settled(x: Order, all: seq<Order>) {
    && 1 <= x.id <= |all|
    && if x.Alive() then all[x.id - 1].Alive() || all[x.id - 1].status == Canceled else Agree(x, all[x.id - 1])
  }

  lemma SettledMove(x: Order, all: seq<Order>, all': seq<Order>, id: nat)
    requires Settled(x, all) && OneMoves(all, all', id) && id != x.id
    ensures Settled(x, all')
  {
  }

  lemma SettledCancel(x: Order, s: Lists, r: seq<Order>, which: Selector)
    requires Settled(x, s.all) && CancelledIn(s, r, which)
    ensures Settled(x, r)
  {
  }

  lemma SettledStep(p: Pass, i: nat, m: Snapshot, cfg: Config, x: Order)
    requires PassOk(p, i) && i < |p.pending| && Settled(x, p.all) && p.pending[i].id != x.id
    ensures Settled(x, PassStep(p, i, m, cfg).all)
  {
    hide OrderStep, CancelWhere, PassOk, CancelledIn, Settled, OneMoves, Advances;
    var o := p.pending[i];
    var s := OrderStep(o, p.all, p.ledger, m, cfg);
    PassOkParts(p, i);
    OrderStepFacts(o, p.all, p.ledger, m, cfg);
    SettledMove(x, p.all, s.all, o.id);
    TurnOk(p, i, s);
    if s.fate == Attempted {
      var t := AfterTurn(p, i, s);
      CancelChildrenOk(t, i + 1, o.id);
      SettledCancel(x, Lists(t.all, t.pending), CancelWhere(Lists(t.all, t.pending), ChildrenOf(o.id), 0).all, ChildrenOf(o.id));
    }
  }

  predicate Visited(p: Pass, i: nat, id: nat) {
    forall j :: i <= j < |p.pending| ==> p.pending[j].id != id
  }

  lemma StaysVisited(p: Pass, i: nat, m: Snapshot, cfg: Config, id: nat)
    requires PassOk(p, i) && i < |p.pending| && Visited(p, i, id)
    ensures Visited(PassStep(p, i, m, cfg), i + 1, id)
  {
    hide OrderStep, CancelWhere, PassOk;
    StepKeepsId(p, i, m, cfg);
    var s := OrderStep(p.pending[i], p.all, p.ledger, m, cfg);
    var t := AfterTurn(p, i, s);
    CancelSameIds(Lists(t.all, t.pending), ChildrenOf(p.pending[i].id));
  }

  lemma {:induction false} SettledRun(p: Pass, i: nat, m: Snapshot, cfg: Config, x: Order)
    requires i <= |p.pending| && PassOk(p, i) && Settled(x, p.all) && Visited(p, i, x.id)
    ensures Settled(x, RunPass(p, i, m, cfg).all)
    decreases |p.pending| - i
  {
    hide PassOk, PassStep, Settled;
    if i < |p.pending| {
      SettledStep(p, i, m, cfg, x);
      StaysVisited(p, i, m, cfg, x.id);
      PassStepOk(p, i, m, cfg);
      SettledRun(PassStep(p, i, m, cfg), i + 1, m, cfg, x);
    }
  }

  /** After its turn the order is settled as the turn left it. */
  lemma TurnSettles(p: Pass, n: nat, m: Snapshot, cfg: Config)
    requires PassOk(p, n) && n < |p.pending| && NotHeld(p.all, p.pending[n].id)
    requires 1 <= p.pending[n].id <= |p.all|
    ensures var x := OrderStep(p.pending[n], p.all, p.ledger, m, cfg).order;
            && x.id == p.pending[n].id
            && Settled(x, PassStep(p, n, m, cfg).all) && Visited(PassStep(p, n, m, cfg), n + 1, x.id)
  {
    hide OrderStep, CancelWhere, PassOk, CancelledIn, Settled, OneMoves, Advances, NotHeld, CopyOf;
    var o := p.pending[n];
    var s := OrderStep(o, p.all, p.ledger, m, cfg);
    PassOkParts(p, n);
    OrderStepFacts(o, p.all, p.ledger, m, cfg);
    CopySettled(s.order, s.all);
    TurnOk(p, n, s);
    PendingOrder(p, n);
    var t := AfterTurn(p, n, s);
    if s.fate == Attempted {
      CancelChildrenOk(t, n + 1, o.id);
      SettledCancel(s.order, Lists(t.all, t.pending), CancelWhere(Lists(t.all, t.pending), ChildrenOf(o.id), 0).all, ChildrenOf(o.id));
      CancelSameIds(Lists(t.all, t.pending), ChildrenOf(o.id));
    }
  }

  lemma CopySettled(x: Order, all: seq<Order>)
    requires CopyOf(x, all)
    ensures Settled(x, all)
  {
  }

  /** The ledger an order meets at its turn in a call. */
  function LedgerAtTurn(b: Broker, m: Snapshot, n: nat): Ledger
    requires n < |b.pending|
  {
    PassTo(Pass(b.all, b.pending, b.ledger, [], []), 0, n, m, b.config).ledger
  }

  /** What a call makes of an order that is due: on return it is Expired if its validity has
      passed; and otherwise it is as the attempt against the ledger at its turn decides:
      completed at the price and the commission of its fill, refused, rejected, or still alive,
      if no sweep has cancelled it. */
  lemma DueOutcome(b: Broker, m: Snapshot, n: nat, bar: Bar)
    requires BookOk(b) && n < |b.pending| && b.pending[n].Alive()
    requires var o := b.pending[n];
             && o.terms.dataIndex < |m.feeds| && m.feeds[o.terms.dataIndex] == Some(bar)
             && 1 <= o.id <= |b.all| && NotHeld(b.all, o.id)
    ensures var o := b.pending[n];
            && o.id <= |Process(b, m).all|
            && var y := Process(b, m).all[o.id - 1];
            if Overdue(o, m) then y.status == Expired
            else Decided(o, y, bar, b.config, LedgerAtTurn(b, m, n).cash)
                 || (FillPrice(o, bar, b.config.slip) == Untouched && y.status == Canceled)
  {
    hide RunPass, Sweep, PassOk, PassTo, Settled, Decided, OrderStep, NotHeld, FillPrice, Advances, PassStep;
    var o := b.pending[n];
    var p0 := Pass(b.all, b.pending, b.ledger, [], []);
    PassStarts(b);
    CopyAtStart(b, n);
    WaitsUntil(p0, 0, n, m, b.config, o);
    PassSplits(p0, 0, n, m, b.config);
    var p := PassTo(p0, 0, n, m, b.config);
    var c := p.pending[n];
    var x := OrderStep(c, p.all, p.ledger, m, b.config).order;
    FreeToGo(p, n);
    DueTurn(c, p.all, p.ledger, m, b.config, bar);
    DecidedSame(c, o, x, bar, b.config, p.ledger.cash);
    TurnSettles(p, n, m, b.config);
    PassStepOk(p, n, m, b.config);
    SettledRun(PassStep(p, n, m, b.config), n + 1, m, b.config, x);
    OneTurn(p, n, m, b.config);
    RunPassOk(p0, 0, m, b.config);
    var q := RunPass(p0, 0, m, b.config);
    SweepOk(q);
    SettledCancel(x, Lists(q.all, q.still), Sweep(q).all, InGroups(q.groups));
    SettledDecides(o, x, Process(b, m).all, bar, b.config, p.ledger.cash);
  }

  lemma OneTurn(p: Pass, n: nat, m: Snapshot, cfg: Config)
    requires n < |p.pending|
    ensures RunPass(p, n, m, cfg) == RunPass(PassStep(p, n, m, cfg), n + 1, m, cfg)
  {
    hide PassStep;
  }

  lemma CopyAtStart(b: Broker, n: nat)
    requires BookOk(b) && n < |b.pending| && NotHeld(b.all, b.pending[n].id)
    requires 1 <= b.pending[n].id <= |b.all|
    ensures Waiting(Pass(b.all, b.pending, b.ledger, [], []), n, b.pending[n])
  {
    hide NotHeld;
    assert CopyOf(b.pending[n], b.all);
  }

  lemma FreeToGo(p: Pass, n: nat)
    requires PassOk(p, n) && n < |p.pending| && 1 <= p.pending[n].id <= |p.all| && NotHeld(p.all, p.pending[n].id)
    ensures p.pending[n].terms.parentId == 0 || ParentFilled(p.all, p.pending[n].terms.parentId)
  {
    PassOkParts(p, n);
    ParentFilledAt(p.all, p.pending[n].terms.parentId);
  }

  lemma DecidedSame(c: Order, o: Order, x: Order, bar: Bar, cfg: Config, cash: real)
    requires Agree(c, o)
    ensures Decided(c, x, bar, cfg, cash) == Decided(o, x, bar, cfg, cash)
  {
    hide FillPrice, CommissionInfo.Calculate;
    PriceSame(c, o, bar, cfg.slip);
  }

  lemma SettledDecides(o: Order, x: Order, all: seq<Order>, bar: Bar, cfg: Config, cash: real)
    requires Settled(x, all)
    ensures x.status == Expired ==> all[x.id - 1].status == Expired
    ensures Decided(o, x, bar, cfg, cash) ==>
              Decided(o, all[x.id - 1], bar, cfg, cash) || (FillPrice(o, bar, cfg.slip) == Untouched && all[x.id - 1].status == Canceled)
  {
    hide FillPrice, CommissionInfo.Calculate;
  }

  /** Hence a due sale that triggers is completed on return, and so is a due buy that triggers
      and can be paid for at its turn. */
  lemma DueCompletes(b: Broker, m: Snapshot, n: nat, bar: Bar)
    requires BookOk(b) && n < |b.pending| && b.pending[n].Alive() && !Overdue(b.pending[n], m)
    requires var o := b.pending[n];
             && o.terms.dataIndex < |m.feeds| && m.feeds[o.terms.dataIndex] == Some(bar)
             && 1 <= o.id <= |b.all| && NotHeld(b.all, o.id)
             && FillPrice(o, bar, b.config.slip).At?
             && (o.terms.side == Sell || !Refused(o, FillPrice(o, bar, b.config.slip).price, b.config, LedgerAtTurn(b, m, n).cash))
    ensures b.pending[n].id <= |Process(b, m).all| && Process(b, m).all[b.pending[n].id - 1].status == Completed
  {
    hide Process, LedgerAtTurn, FillPrice, BookOk, NotHeld;
    DueOutcome(b, m, n, bar);
  }
}
