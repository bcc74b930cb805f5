/** Double entry over whole runs: cash, positions, trades and orders tell the same story. */
module AccountLaws {
  import opened Numbers
  import opened Orders
  import opened Positions
  import opened Trades
  import opened Ledgers
  import opened LedgerLaws
  import opened Fills
  import opened FillLaws
  import opened Brokers
  import opened BookLaws
  import opened RunLaws

  // ------------------------------------------- what the executed orders say

  /** Money an order has taken out of the account. */
  function Outflow(o: Order): real {
    if o.status == Completed then o.SignedSize() * o.execution.price + o.execution.commission else 0.0
  }

  function Fee(o: Order): real {
    if o.status == Completed then o.execution.commission else 0.0
  }

  /** Size an order has added to the position of data feed `d`. */
  function Moved(o: Order, d: nat): real {
    if o.status == Completed && o.terms.dataIndex == d then o.SignedSize() else 0.0
  }

  function Outflows(all: seq<Order>): seq<real> {
    seq(|all|, i requires 0 <= i < |all| => Outflow(all[i]))
  }

  function Fees(all: seq<Order>): seq<real> {
    seq(|all|, i requires 0 <= i < |all| => Fee(all[i]))
  }

  function Moves(all: seq<Order>, d: nat): seq<real> {
    seq(|all|, i requires 0 <= i < |all| => Moved(all[i], d))
  }

  /** The ledger is the replay of the completed orders, and the trades account for every
      change of wealth. */
  ghost predicate Balanced(all: seq<Order>, l: Ledger, initial: real, lot: real) {
    && Agreement(l, lot)
    && l.cash + Invested(l) == initial + NetPnl(l)
    && l.cash == initial - Sum(Outflows(all))
    && CommissionPaid(l) == Sum(Fees(all))
    && (forall d: nat :: PositionAt(l.positions, d).size == Sum(Moves(all, d)))
  }

  ghost predicate SizesOk(all: seq<Order>, lot: real) {
    forall k :: 0 <= k < |all| ==> all[k].terms.size > 0.0 && OnGrid(all[k].terms.size, lot)
  }

  ghost predicate AccountOk(b: Broker, lot: real) {
    BookOk(b) && SizesOk(b.all, lot) && Balanced(b.all, b.ledger, b.initialCash, lot)
  }

  // ----------------------------------------------------- steps without a fill

  /** Nothing completes between two books. */
  predicate NoneCompletes(all: seq<Order>, all': seq<Order>) {
    && |all| == |all'|
    && forall k :: 0 <= k < |all| ==>
         && all[k].terms == all'[k].terms && (all[k].status == Completed <==> all'[k].status == Completed)
         && (all[k].status == Completed ==> all[k].execution == all'[k].execution)
  }

  lemma QuietReplay(all: seq<Order>, all': seq<Order>)
    requires NoneCompletes(all, all')
    ensures Outflows(all') == Outflows(all) && Fees(all') == Fees(all)
    ensures forall d: nat :: Moves(all', d) == Moves(all, d)
  {
    forall k | 0 <= k < |all| ensures Outflow(all'[k]) == Outflow(all[k]) && Fee(all'[k]) == Fee(all[k]) {
    }
    forall d: nat ensures Moves(all', d) == Moves(all, d) {
      assert forall k :: 0 <= k < |all| ==> Moved(all'[k], d) == Moved(all[k], d);
    }
  }

  lemma QuietKeepsBalance(all: seq<Order>, all': seq<Order>, l: Ledger, initial: real, lot: real)
    requires NoneCompletes(all, all') && Balanced(all, l, initial, lot) && SizesOk(all, lot)
    ensures Balanced(all', l, initial, lot) && SizesOk(all', lot)
  {
    hide Agreement, Sum, Outflows, Fees, Moves;
    QuietReplay(all, all');
  }

  lemma AppendKeepsBalance(all: seq<Order>, o: Order, l: Ledger, initial: real, lot: real)
    requires Balanced(all, l, initial, lot) && SizesOk(all, lot)
    requires o.status != Completed && o.terms.size > 0.0 && OnGrid(o.terms.size, lot)
    ensures Balanced(all + [o], l, initial, lot) && SizesOk(all + [o], lot)
  {
    hide Agreement, Sum;
    assert Outflows(all + [o]) == Outflows(all) + [0.0];
    SumAppend(Outflows(all), 0.0);
    assert Fees(all + [o]) == Fees(all) + [0.0];
    SumAppend(Fees(all), 0.0);
    forall d: nat ensures Sum(Moves(all + [o], d)) == Sum(Moves(all, d)) {
      assert Moves(all + [o], d) == Moves(all, d) + [0.0];
      SumAppend(Moves(all, d), 0.0);
    }
  }

  lemma FlatPositionKeepsBalance(all: seq<Order>, l: Ledger, d: nat, initial: real, lot: real)
    requires Balanced(all, l, initial, lot)
    ensures Balanced(all, l.(positions := WithPosition(l.positions, d)), initial, lot)
  {
    hide PosIndex, OpenIndex, Sum;
    var ps := WithPosition(l.positions, d);
    var m := l.(positions := ps);
    if PosIndex(l.positions, d) == |l.positions| {
      assert ps == l.positions + [Flat(d)];
      assert Costs(ps) == Costs(l.positions) + [0.0];
      SumAppend(Costs(l.positions), 0.0);
      GridZero(lot);
      forall e: nat ensures PositionAt(ps, e) == PositionAt(l.positions, e) {
        if PosIndex(l.positions, e) < |l.positions| {
          assert ps[PosIndex(l.positions, e)].dataIndex == e;
          assert PosIndex(ps, e) == PosIndex(l.positions, e);
        }
      }
      assert forall i :: 0 <= i < |l.openTrades| ==> Mirrors(l.openTrades[i].trade, l.positions);
    }
  }

  // --------------------------------------------------------------- a fill

  /** An order completes, and the ledger posts exactly its execution. */
  ghost predicate Executes(o: Order, s: Step, l: Ledger, all: seq<Order>) {
    && 1 <= o.id <= |all|
    && o.status != Completed && s.order.status == Completed && s.all == all[o.id - 1 := s.order]
    && s.order.terms == o.terms
    && exists bar: nat, time: int ::
         s.ledger == Post(l, ToFill(s.order, s.order.execution.price, s.order.execution.commission, bar, time))
  }

  lemma ExecuteKeepsBalance(o: Order, s: Step, l: Ledger, all: seq<Order>, initial: real, lot: real)
    requires Executes(o, s, l, all) && Balanced(all, l, initial, lot) && SizesOk(all, lot)
    requires all[o.id - 1].terms == o.terms && all[o.id - 1].status == o.status
    ensures Balanced(s.all, s.ledger, initial, lot) && SizesOk(s.all, lot)
  {
    hide Agreement, Sum, Post, PosIndex;
    var k := o.id - 1;
    var e := s.order.execution;
    var bar: nat, time: int :| s.ledger == Post(l, ToFill(s.order, e.price, e.commission, bar, time));
    var f := ToFill(s.order, e.price, e.commission, bar, time);
    SignedOnGrid(o, lot);
    PostLaws(l, f, lot);
    assert Outflows(s.all) == Outflows(all)[k := Outflow(s.order)];
    SumUpdate(Outflows(all), k, Outflow(s.order));
    assert Fees(s.all) == Fees(all)[k := Fee(s.order)];
    SumUpdate(Fees(all), k, Fee(s.order));
    forall d: nat ensures PositionAt(s.ledger.positions, d).size == Sum(Moves(s.all, d)) {
      assert Moves(s.all, d) == Moves(all, d)[k := Moved(s.order, d)];
      SumUpdate(Moves(all, d), k, Moved(s.order, d));
    }
  }

  lemma SignedOnGrid(o: Order, lot: real)
    requires o.terms.size > 0.0 && OnGrid(o.terms.size, lot)
    ensures OnGrid(o.SignedSize(), lot) && o.SignedSize() != 0.0
  {
    GridNeg(o.terms.size, lot);
  }

  lemma OneMovesQuiet(all: seq<Order>, all': seq<Order>, id: nat)
    requires OneMoves(all, all', id)
    requires all'[id - 1].status == Completed ==> all[id - 1].status == Completed
    ensures NoneCompletes(all, all')
  {
  }

  /** An attempt either leaves the ledger alone or posts exactly one execution. */
  lemma AttemptMoney(o: Order, all: seq<Order>, l: Ledger, bar: Bar, cfg: Config, barIndex: nat)
    requires BookIds(all) && o.Alive() && CopyOf(o, all)
    ensures var s := AttemptStep(o, all, l, bar, cfg, barIndex);
            if s.order.status == Completed then Executes(o, s, l, all) else s.ledger == l
  {
    hide TrailMoves, TrailLevel, Post, Sync, FillPrice, CommissionInfo.Calculate;
    var a := TryFill(o, bar, cfg, barIndex, l);
    SyncAt(all, a.order);
    var t := FillPrice(o, bar, cfg.slip);
    if a.done && a.order.status == Completed {
      assert a.ledger == Post(l, ToFill(a.order, a.order.execution.price, a.order.execution.commission, barIndex, bar.time));
    }
  }

  /** The same for a whole turn. */
  lemma OrderStepMoney(o: Order, all: seq<Order>, l: Ledger, m: Snapshot, cfg: Config)
    requires BookIds(all) && CopyOf(o, all)
    ensures var s := OrderStep(o, all, l, m, cfg);
            if s.order.status == Completed && o.status != Completed then
              exists p: Order, all1: seq<Order> :: p.id == o.id && p.terms == o.terms && NoneCompletes(all, all1) &&
                CopyOf(p, all1) && Executes(p, s, l, all1)
            else s.ledger == l
  {
    hide AttemptStep, Sync, ParentFilled, Acknowledged, SyncAcknowledged, Executes;
    if o.Alive() && !(Held(o) && !ParentFilled(all, o.terms.parentId)) {
      var o1 := if Held(o) then o.(transmit := true) else o;
      if o1.terms.dataIndex < |m.feeds| && m.feeds[o1.terms.dataIndex] != None {
        AcknowledgeFacts(o1, all);
        var p, all1 := Acknowledged(o1), SyncAcknowledged(all, o1);
        AttemptMoney(p, all1, l, m.feeds[o.terms.dataIndex].value, cfg, m.bar);
        OneMovesQuiet(all, all1, o.id);
      }
    }
  }

  lemma TurnKeepsBalance(o: Order, all: seq<Order>, l: Ledger, m: Snapshot, cfg: Config, initial: real, lot: real)
    requires BookIds(all) && CopyOf(o, all) && Balanced(all, l, initial, lot) && SizesOk(all, lot)
    ensures var s := OrderStep(o, all, l, m, cfg);
            Balanced(s.all, s.ledger, initial, lot) && SizesOk(s.all, lot)
  {
    hide OrderStep, Balanced, Executes;
    var s := OrderStep(o, all, l, m, cfg);
    OrderStepMoney(o, all, l, m, cfg);
    OrderStepFacts(o, all, l, m, cfg);
    if s.order.status == Completed && o.status != Completed {
      var p: Order, all1: seq<Order> :| p.id == o.id && p.terms == o.terms && NoneCompletes(all, all1) &&
        CopyOf(p, all1) && Executes(p, s, l, all1);
      QuietKeepsBalance(all, all1, l, initial, lot);
      ExecuteKeepsBalance(p, s, l, all1, initial, lot);
    } else {
      OneMovesQuiet(all, s.all, o.id);
      QuietKeepsBalance(all, s.all, l, initial, lot);
    }
  }

  // ------------------------------------------------------------- the pass

  lemma CancelledQuiet(s: Lists, r: seq<Order>, which: Selector)
    requires CancelledIn(s, r, which)
    ensures NoneCompletes(s.all, r)
  {
  }

  lemma PassStepKeepsBalance(p: Pass, i: nat, m: Snapshot, cfg: Config, initial: real, lot: real)
    requires PassOk(p, i) && i < |p.pending| && Balanced(p.all, p.ledger, initial, lot) && SizesOk(p.all, lot)
    ensures var q := PassStep(p, i, m, cfg);
            Balanced(q.all, q.ledger, initial, lot) && SizesOk(q.all, lot)
  {
    hide OrderStep, CancelWhere, Activate, Balanced, SizesOk;
    var o := p.pending[i];
    PassOkParts(p, i);
    var s := OrderStep(o, p.all, p.ledger, m, cfg);
    TurnKeepsBalance(o, p.all, p.ledger, m, cfg, initial, lot);
    OrderStepFacts(o, p.all, p.ledger, m, cfg);
    if s.fate == Attempted {
      TurnOk(p, i, s);
      var t := AfterTurn(p, i, s);
      CancelChildrenOk(t, i + 1, o.id);
      var r := CancelWhere(Lists(t.all, t.pending), ChildrenOf(o.id), 0);
      CancelledQuiet(Lists(t.all, t.pending), r.all, ChildrenOf(o.id));
      QuietKeepsBalance(t.all, r.all, t.ledger, initial, lot);
    }
  }

  lemma {:induction false} RunPassKeepsBalance(p: Pass, i: nat, m: Snapshot, cfg: Config, initial: real, lot: real)
    requires i <= |p.pending| && PassOk(p, i) && Balanced(p.all, p.ledger, initial, lot) && SizesOk(p.all, lot)
    ensures var q := RunPass(p, i, m, cfg);
            Balanced(q.all, q.ledger, initial, lot) && SizesOk(q.all, lot)
    decreases |p.pending| - i
  {
    hide PassOk, PassStep, Balanced, SizesOk;
    if i < |p.pending| {
      PassStepKeepsBalance(p, i, m, cfg, initial, lot);
      PassStepOk(p, i, m, cfg);
      RunPassKeepsBalance(PassStep(p, i, m, cfg), i + 1, m, cfg, initial, lot);
    }
  }

  lemma ProcessKeepsBalance(b: Broker, m: Snapshot, lot: real)
    requires AccountOk(b, lot)
    ensures AccountOk(Process(b, m), lot)
  {
    hide RunPass, Sweep, Advances, PassOk, Balanced, SizesOk;
    ProcessOk(b, m);
    var p0 := Pass(b.all, b.pending, b.ledger, [], []);
    PassStarts(b);
    RunPassKeepsBalance(p0, 0, m, b.config, b.initialCash, lot);
    RunPassOk(p0, 0, m, b.config);
    var p := RunPass(p0, 0, m, b.config);
    SweepOk(p);
    CancelledQuiet(Lists(p.all, p.still), Sweep(p).all, InGroups(p.groups));
    QuietKeepsBalance(p.all, Sweep(p).all, p.ledger, b.initialCash, lot);
  }

  // ----------------------------------------------------------- other events

  lemma SubmitKeepsBalance(b: Broker, side: Side, params: OrderParams, v: Verdict, lot: real)
    requires AccountOk(b, lot) && LegalVerdict(v, lot) && (v.rejected || params.parentId < b.nextOrderId)
    ensures AccountOk(Submit(b, side, params, v), lot)
  {
    hide Balanced, SizesOk, BookOk;
    SubmitOk(b, side, params, v);
    if !v.rejected {
      AppendKeepsBalance(b.all, NewOrder(b.nextOrderId, side, params, v), b.ledger, b.initialCash, lot);
    }
  }

  lemma ChildrenQuiet(all: seq<Order>, id: nat, children: seq<nat>)
    ensures NoneCompletes(all, WithChildren(all, id, children))
  {
    hide IdIndex;
  }

  lemma BracketKeepsBalance(b: Broker, side: Side, lp: real, sp: real, d: nat, vm: Verdict, vl: Verdict, vs: Verdict, lot: real)
    requires AccountOk(b, lot) && LegalVerdict(vm, lot) && LegalVerdict(vl, lot) && LegalVerdict(vs, lot)
    ensures AccountOk(Bracket(b, side, lp, sp, d, vm, vl, vs), lot)
  {
    hide Submit, WithChildren, Balanced, SizesOk;
    BracketOk(b, side, lp, sp, d, vm, vl, vs);
    var group := b.nextOcoGroupId;
    var b0 := b.(nextOcoGroupId := group + 1);
    var main := SubmittedId(b0, vm);
    var b1 := Submit(b0, side, MarketParams(d), vm);
    SubmitGrows(b0, side, MarketParams(d), vm);
    SubmitKeepsBalance(b0, side, MarketParams(d), vm, lot);
    var b2 := Submit(b1, Opposite(side), TakeProfitParams(lp, d, main, group), vl);
    SubmitGrows(b1, Opposite(side), TakeProfitParams(lp, d, main, group), vl);
    SubmitKeepsBalance(b1, Opposite(side), TakeProfitParams(lp, d, main, group), vl, lot);
    var b3 := Submit(b2, Opposite(side), StopLossParams(sp, d, main, group), vs);
    SubmitKeepsBalance(b2, Opposite(side), StopLossParams(sp, d, main, group), vs, lot);
    SubmitKeepsFrame(b0, side, MarketParams(d), vm);
    SubmitKeepsFrame(b1, Opposite(side), TakeProfitParams(lp, d, main, group), vl);
    SubmitKeepsFrame(b2, Opposite(side), StopLossParams(sp, d, main, group), vs);
    ChildrenQuiet(b3.all, main, [SubmittedId(b1, vl), SubmittedId(b2, vs)]);
    QuietKeepsBalance(b3.all, WithChildren(b3.all, main, [SubmittedId(b1, vl), SubmittedId(b2, vs)]), b3.ledger, b3.initialCash, lot);
  }

  lemma SubmitKeepsFrame(b: Broker, side: Side, params: OrderParams, v: Verdict)
    ensures var c := Submit(b, side, params, v);
            c.ledger == b.ledger && c.initialCash == b.initialCash && c.config == b.config
  {
  }

  lemma CloseKeepsBalance(b: Broker, d: nat, v: Verdict, lot: real)
    requires AccountOk(b, lot) && LegalVerdict(v, lot)
    ensures AccountOk(Close(b, d, v), lot)
  {
    hide Balanced, SizesOk, WithPosition, PositionAt;
    var b1 := b.(ledger := b.ledger.(positions := WithPosition(b.ledger.positions, d)));
    FlatPositionKeepsBalance(b.all, b.ledger, d, b.initialCash, lot);
    SubmitKeepsBalance(b1, Buy, MarketParams(d), v, lot);
    SubmitKeepsBalance(b1, Sell, MarketParams(d), v, lot);
  }

  lemma CancelKeepsBalance(b: Broker, id: nat, lot: real)
    requires AccountOk(b, lot)
    ensures AccountOk(Cancel(b, id), lot)
  {
    hide Balanced, SizesOk;
    CancelOk(b, id);
    var s := Lists(b.all, b.pending);
    CancelBook(s, WithId(id), 0);
    CancelledQuiet(s, CancelWhere(s, WithId(id), 0).all, WithId(id));
    QuietKeepsBalance(b.all, Cancel(b, id).all, b.ledger, b.initialCash, lot);
  }

  lemma ApplyKeepsBalance(b: Broker, e: Event, lot: real)
    requires AccountOk(b, lot) && LegalEvent(b, e, lot)
    ensures AccountOk(Apply(b, e), lot) && Apply(b, e).initialCash == b.initialCash && Apply(b, e).config == b.config
  {
    hide RunPass, Sweep, CancelWhere, AccountOk, WithPosition, PositionAt, WithChildren;
    match e
    case SubmitEvent(side, params, v) => SubmitKeepsBalance(b, side, params, v, lot);
    case BracketEvent(side, lp, sp, d, vm, vl, vs) => BracketKeepsBalance(b, side, lp, sp, d, vm, vl, vs, lot);
    case CancelEvent(id) => CancelKeepsBalance(b, id, lot);
    case CloseEvent(d, v) => CloseKeepsBalance(b, d, v, lot);
    case OcoGroupEvent => OcoGroupKeepsBalance(b, lot);
    case ProcessEvent(m) => ProcessKeepsBalance(b, m, lot);
  }

  lemma OcoGroupKeepsBalance(b: Broker, lot: real)
    requires AccountOk(b, lot)
    ensures AccountOk(b.(nextOcoGroupId := b.nextOcoGroupId + 1), lot)
  {
  }

  // ------------------------------------------------------------- over runs

  lemma FreshBalanced(cash: real, config: Config, lot: real)
    requires EPS <= lot
    ensures AccountOk(Fresh(cash, config), lot)
  {
    var l := Fresh(cash, config).ledger;
    assert Costs(l.positions) == [] && NetPnls(l.openTrades) == [] && Commissions(l.openTrades) == [];
    assert Outflows([]) == [] && Fees([]) == [];
  }

  /** Every reachable state is balanced. */
  lemma {:induction false} RunBalanced(cash: real, config: Config, es: seq<Event>, lot: real)
    requires EPS <= lot && LegalRun(Fresh(cash, config), es, lot)
    ensures var b := Run(Fresh(cash, config), es);
            AccountOk(b, lot) && b.initialCash == cash && b.config == config
  {
    hide AccountOk, Apply, LegalEvent;
    if es == [] {
      FreshBalanced(cash, config, lot);
    } else {
      RunBalanced(cash, config, es[..|es| - 1], lot);
      ApplyKeepsBalance(Run(Fresh(cash, config), es[..|es| - 1]), es[|es| - 1], lot);
    }
  }

  /** Positions and trades agree: a flat data feed has no open trade, any other has exactly
      one, and it carries the size and the average price of the position. */
  lemma PositionHasItsTrade(cash: real, config: Config, es: seq<Event>, d: nat, lot: real)
    requires EPS <= lot && LegalRun(Fresh(cash, config), es, lot)
    ensures var l := Run(Fresh(cash, config), es).ledger;
            var p := PositionAt(l.positions, d);
            var open := set i | 0 <= i < |l.openTrades| && l.openTrades[i].trade.dataIndex == d;
            && (p.size == 0.0 <==> open == {})
            && (p.size != 0.0 <==> |open| == 1)
            && (forall i :: i in open ==>
                  var t := l.openTrades[i].trade;
                  t.status == Open && t.size == p.size && t.price == t.entryPrice == p.avgPrice == p.price)
  {
    hide Run, LegalRun, PosIndex, Sum;
    RunBalanced(cash, config, es, lot);
    var l := Run(Fresh(cash, config), es).ledger;
    var p := PositionAt(l.positions, d);
    var open := set i | 0 <= i < |l.openTrades| && l.openTrades[i].trade.dataIndex == d;
    var k := OpenIndex(l.openTrades, d);
    if k < |l.openTrades| {
      assert Running(l.openTrades[k].trade, lot) && Mirrors(l.openTrades[k].trade, l.positions);
      assert open == {k};
    } else {
      assert p.size == 0.0;
      assert forall i :: 0 <= i < |l.openTrades| ==> l.openTrades[i].trade.status == Open;
    }
  }

  function Unrealized(ps: seq<PositionState>, closes: seq<real>): seq<real> {
    seq(|ps|, i requires 0 <= i < |ps| =>
      if ps[i].dataIndex < |closes| then ps[i].UnrealizedPnl(closes[ps[i].dataIndex]) else 0.0)
  }

  /** Every position that is not flat can be marked. */
  predicate Markable(ps: seq<PositionState>, closes: seq<real>) {
    forall i :: 0 <= i < |ps| ==> ps[i].IsFlat() || ps[i].dataIndex < |closes|
  }

  lemma MarkSplit(p: PositionState, closes: seq<real>, lot: real)
    requires EPS <= lot && Sound(p, lot) && (p.IsFlat() || p.dataIndex < |closes|)
    ensures Mark(p, closes) == p.Cost() + if p.dataIndex < |closes| then p.UnrealizedPnl(closes[p.dataIndex]) else 0.0
  {
    GridNearZero(p.size, lot);
  }

  lemma {:induction false} MarksSplit(ps: seq<PositionState>, closes: seq<real>, lot: real)
    requires EPS <= lot && Markable(ps, closes) && forall i :: 0 <= i < |ps| ==> Sound(ps[i], lot)
    ensures Sum(Marks(ps, closes)) == Sum(Costs(ps)) + Sum(Unrealized(ps, closes))
  {
    hide Mark, Sound, PositionState.Cost, PositionState.UnrealizedPnl, PositionState.IsFlat;
    if ps != [] {
      var n := |ps| - 1;
      MarksSplit(ps[..n], closes, lot);
      assert Marks(ps, closes)[..n] == Marks(ps[..n], closes);
      assert Costs(ps)[..n] == Costs(ps[..n]);
      assert Unrealized(ps, closes)[..n] == Unrealized(ps[..n], closes);
      MarkSplit(ps[n], closes, lot);
    }
  }

  /** The portfolio value of any reachable state is the initial cash plus the net profit
      of all trades, closed and open, plus the unrealised profit of the positions. */
  lemma ValueIsExplained(cash: real, config: Config, es: seq<Event>, closes: seq<real>, lot: real)
    requires EPS <= lot && LegalRun(Fresh(cash, config), es, lot)
    requires Markable(Run(Fresh(cash, config), es).ledger.positions, closes)
    ensures var b := Run(Fresh(cash, config), es);
            PortfolioValue(b, closes) == cash + NetPnl(b.ledger) + Sum(Unrealized(b.ledger.positions, closes))
  {
    hide Run, LegalRun, Sum;
    RunBalanced(cash, config, es, lot);
    var b := Run(Fresh(cash, config), es);
    MarksSplit(b.ledger.positions, closes, lot);
  }

  lemma {:induction false} ZeroSum(s: seq<real>)
    requires forall i :: 0 <= i < |s| ==> s[i] == 0.0
    ensures Sum(s) == 0.0
  {
    if s != [] {
      ZeroSum(s[..|s| - 1]);
    }
  }

  /** When every position is flat, the cash gained is exactly the net profit of the closed
      trades, and that is also what the completed orders have brought in. */
  lemma FlatCashIsClosedProfit(cash: real, config: Config, es: seq<Event>, lot: real)
    requires EPS <= lot && LegalRun(Fresh(cash, config), es, lot)
    requires forall d: nat :: PositionAt(Run(Fresh(cash, config), es).ledger.positions, d).size == 0.0
    ensures var b := Run(Fresh(cash, config), es);
            && b.ledger.openTrades == []
            && b.ledger.cash - cash == Sum(NetPnls(b.ledger.closedTrades)) == -Sum(Outflows(b.all))
  {
    hide Run, LegalRun, PosIndex;
    RunBalanced(cash, config, es, lot);
    var l := Run(Fresh(cash, config), es).ledger;
    assert forall i :: 0 <= i < |l.openTrades| ==> PositionAt(l.positions, l.openTrades[i].trade.dataIndex).size != 0.0;
    forall i | 0 <= i < |l.positions| ensures Costs(l.positions)[i] == 0.0 {
      PositionAtOwn(l.positions, i, lot);
    }
    ZeroSum(Costs(l.positions));
  }

  lemma PositionAtOwn(ps: seq<PositionState>, i: nat, lot: real)
    requires PositionsOk(ps, lot) && i < |ps|
    ensures PositionAt(ps, ps[i].dataIndex) == ps[i]
  {
    var k := PosIndex(ps, ps[i].dataIndex);
    assert k <= i;
  }

  // --------------------------------------------------------------- solvency

  /** Bars whose prices are ordered and not negative. */
  predicate GoodFeeds(m: Snapshot) {
    forall i :: 0 <= i < |m.feeds| && m.feeds[i].Some? ==> WellFormedBar(m.feeds[i].value) && m.feeds[i].value.low >= 0.0
  }

  predicate GoodMarket(es: seq<Event>) {
    forall i :: 0 <= i < |es| && es[i].ProcessEvent? ==> GoodFeeds(es[i].market)
  }

  predicate SolventConfig(cfg: Config) {
    CappedCommission(cfg.commission) && !cfg.slip.out
  }

  lemma TurnSolvent(o: Order, all: seq<Order>, l: Ledger, m: Snapshot, cfg: Config)
    requires l.cash >= 0.0 && o.terms.size > 0.0 && GoodFeeds(m) && SolventConfig(cfg)
    ensures OrderStep(o, all, l, m, cfg).ledger.cash >= 0.0
  {
    hide Sync, ParentFilled, TryFill, TrailMoves, TrailLevel, CappedCommission;
    if o.terms.dataIndex < |m.feeds| && m.feeds[o.terms.dataIndex].Some? {
      var bar := m.feeds[o.terms.dataIndex].value;
      var o1 := if Held(o) then o.(transmit := true) else o;
      FillSolvent(Acknowledged(o1), bar, cfg, m.bar, l);
    }
  }

  lemma {:induction false} RunPassSolvent(p: Pass, i: nat, m: Snapshot, cfg: Config, lot: real)
    requires i <= |p.pending| && PassOk(p, i) && SizesOk(p.all, lot)
    requires p.ledger.cash >= 0.0 && GoodFeeds(m) && SolventConfig(cfg)
    ensures RunPass(p, i, m, cfg).ledger.cash >= 0.0
    decreases |p.pending| - i
  {
    hide PassOk, OrderStep, CancelWhere, Activate, SizesOk, GoodFeeds, SolventConfig;
    if i < |p.pending| {
      var o := p.pending[i];
      PassOkParts(p, i);
      SizeOfCopy(o, p.all, lot);
      TurnSolvent(o, p.all, p.ledger, m, cfg);
      PassStepOk(p, i, m, cfg);
      SizesKept(p.all, PassStep(p, i, m, cfg).all, lot);
      RunPassSolvent(PassStep(p, i, m, cfg), i + 1, m, cfg, lot);
    }
  }

  lemma SizeOfCopy(o: Order, all: seq<Order>, lot: real)
    requires CopyOf(o, all) && SizesOk(all, lot)
    ensures o.terms.size > 0.0
  {
  }

  lemma SizesKept(all: seq<Order>, all': seq<Order>, lot: real)
    requires Advances(all, all') && |all| == |all'| && SizesOk(all, lot)
    ensures SizesOk(all', lot)
  {
    forall k | 0 <= k < |all'| ensures all'[k].terms.size > 0.0 && OnGrid(all'[k].terms.size, lot) {
      assert Evolves(all[k], all'[k]);
    }
  }

  /** With a capped percentage commission, ordered non-negative prices and slippage that
      stays inside the bar, cash never goes negative over any run. */
  lemma {:induction false} RunSolvent(cash: real, config: Config, es: seq<Event>, lot: real)
    requires EPS <= lot && LegalRun(Fresh(cash, config), es, lot)
    requires cash >= 0.0 && SolventConfig(config) && GoodMarket(es)
    ensures Run(Fresh(cash, config), es).ledger.cash >= 0.0
  {
    hide RunPass, Sweep, CancelWhere, WithPosition, PositionAt, WithChildren, LegalEvent, SolventConfig, GoodFeeds, Balanced;
    if es != [] {
      var init, e := es[..|es| - 1], es[|es| - 1];
      var b := Run(Fresh(cash, config), init);
      RunSolvent(cash, config, init, lot);
      RunBalanced(cash, config, init, lot);
      if e.ProcessEvent? {
        PassStarts(b);
        assert GoodFeeds(e.market);
        RunPassSolvent(Pass(b.all, b.pending, b.ledger, [], []), 0, e.market, config, lot);
      }
    }
  }
}
