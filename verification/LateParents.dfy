/** Why a parent has to be submitted before its children.  The code does not check it:
    `OrderParams::parent_id` may name an order that does not exist yet.  A bracket's main
    order that fails then cancels a child whose turn in the pass is already over. */
module LateParents {
  import opened Numbers
  import opened Orders
  import opened Ledgers
  import opened Fills
  import opened Brokers
  import opened BookLaws
  import opened RunLaws

  /** Cancelling the children of a failed main order keeps the orders already carried over
      in step with the book if and only if none of them is such a child. */
  lemma StaleIff(p: Pass, parentId: nat)
    requires BookIds(p.all) && Increasing(p.pending) && Copies(p.pending, p.all, 0)
    requires Copies(p.still, p.all, 0) && AllAlive(p.still)
    requires forall a :: 0 <= a < |p.still| ==> Has(p.pending, p.still[a].id, 0)
    ensures var r := CancelWhere(Lists(p.all, p.pending), ChildrenOf(parentId), 0);
            Copies(p.still, r.all, 0) <==> forall a :: 0 <= a < |p.still| ==> p.still[a].terms.parentId != parentId
  {
    hide CancelWhere, CancelledIn, CopyOf;
    var s := Lists(p.all, p.pending);
    var r := CancelWhere(s, ChildrenOf(parentId), 0);
    CancelBook(s, ChildrenOf(parentId), 0);
    CancelPending(s, ChildrenOf(parentId), 0);
    forall a | 0 <= a < |p.still|
      ensures CopyOf(p.still[a], r.all) <==> p.still[a].terms.parentId != parentId
    {
      var j :| 0 <= j < |p.pending| && p.pending[j].id == p.still[a].id;
      assert CopyOf(p.pending[j], p.all) && CopyOf(p.still[a], p.all) && CopyOf(r.pending[j], r.all);
      StaleCopy(p.still[a], p.pending[j], r.pending[j], p.all, r.all, parentId);
    }
  }

  lemma StaleCopy(o: Order, q: Order, q': Order, all: seq<Order>, all': seq<Order>, parentId: nat)
    requires o.Alive() && o.id == q.id && CopyOf(o, all) && CopyOf(q, all) && CopyOf(q', all')
    requires q' == if ChildrenOf(parentId).Selects(q) then q.Cancel() else q
    ensures CopyOf(o, all') <==> o.terms.parentId != parentId
  {
  }

  // ------------------------------------------------------- a run that fails

  const ACCEPT := Verdict(0, 1.0, false)

  const PLAIN := Config(CommissionInfo(Percentage, 0.0, 0.0), Slippage(0.0, 0.0, true, true, true, false))

  /** A sale far above the market, naming order 2 as its parent. */
  const EARLY_CHILD := MarketParams(0).(typ := Limit, price := 100.0, parentId := 2)

  const MARKET := Snapshot([Some(Bar(0, 10.0, 10.0, 10.0, 10.0))], 0)

  function First(): Order { NewOrder(1, Sell, EARLY_CHILD, ACCEPT) }

  function MainOrder(): Order { NewOrder(2, Buy, MarketParams(0), ACCEPT).(childIds := [3, 4]) }

  function TakeProfit(): Order { NewOrder(3, Sell, TakeProfitParams(20.0, 0, 2, 1), ACCEPT) }

  function StopLoss(): Order { NewOrder(4, Sell, StopLossParams(5.0, 0, 2, 1), ACCEPT) }

  function Submitted(): Broker {
    Bracket(Submit(Fresh(0.0, PLAIN), Sell, EARLY_CHILD, ACCEPT), Buy, 20.0, 5.0, 0, ACCEPT, ACCEPT, ACCEPT)
  }

  lemma SubmittedIs()
    ensures Submitted().all == Submitted().pending == [First(), MainOrder(), TakeProfit(), StopLoss()]
    ensures Submitted().ledger == Fresh(0.0, PLAIN).ledger && Submitted().config == PLAIN
  {
  }

  function Acked(): Order { First().Submit().Accept() }

  /** The early child is not touched by the bar and is carried over. */
  lemma FirstTurn(l: Ledger, rest: seq<Order>)
    ensures PassStep(Pass([First()] + rest, [First()] + rest, l, [], []), 0, MARKET, PLAIN) ==
            Pass([Acked()] + rest, [Acked()] + rest, l, [Acked()], [])
  {
    var all := [First()] + rest;
    assert all[0 := Acked()] == [Acked()] + rest;
  }

  /** The main order is refused, and every pending child is cancelled. */
  lemma SecondTurn(l: Ledger)
    requires l.cash == 0.0
    ensures var before := [Acked(), MainOrder(), TakeProfit(), StopLoss()];
            var after := [Acked().Cancel(), MainOrder().MarginCall(), TakeProfit().Cancel(), StopLoss().Cancel()];
            PassStep(Pass(before, before, l, [Acked()], []), 1, MARKET, PLAIN) == Pass(after, after, l, [Acked()], [])
  {
    hide OrderStep, CancelWhere;
    var before := [Acked(), MainOrder(), TakeProfit(), StopLoss()];
    var o := MainOrder().MarginCall();
    var s := OrderStep(MainOrder(), before, l, MARKET, PLAIN);
    MainRefused(before, l);
    ChildrenCancelled(o);
    assert before[1 := o] == [Acked(), o, TakeProfit(), StopLoss()];
  }

  lemma MainRefused(all: seq<Order>, l: Ledger)
    requires l.cash == 0.0 && all == [Acked(), MainOrder(), TakeProfit(), StopLoss()]
    ensures OrderStep(MainOrder(), all, l, MARKET, PLAIN) ==
            Step(MainOrder().MarginCall(), [Acked(), MainOrder().MarginCall(), TakeProfit(), StopLoss()], l, Attempted)
  {
    hide Sync;
    assert BookIds(all);
    var a := MainOrder().Submit().Accept();
    SyncAt(all, MainOrder().Submit());
    SyncAt(Sync(all, MainOrder().Submit()), a);
    SyncAt(Sync(Sync(all, MainOrder().Submit()), a), MainOrder().MarginCall());
    assert TryFill(a, MARKET.feeds[0].value, PLAIN, 0, l) == Attempt(true, a.MarginCall(), l);
  }

  lemma ChildrenCancelled(o: Order)
    requires o == MainOrder().MarginCall()
    ensures var mid := [Acked(), o, TakeProfit(), StopLoss()];
            var after := [Acked().Cancel(), o, TakeProfit().Cancel(), StopLoss().Cancel()];
            CancelWhere(Lists(mid, mid), ChildrenOf(2), 0) == Lists(after, after)
  {
    hide Sync;
    var mid := [Acked(), o, TakeProfit(), StopLoss()];
    var c1 := [Acked().Cancel(), o, TakeProfit(), StopLoss()];
    var c3 := [Acked().Cancel(), o, TakeProfit().Cancel(), StopLoss()];
    var c4 := [Acked().Cancel(), o, TakeProfit().Cancel(), StopLoss().Cancel()];
    SyncAt(mid, Acked().Cancel());
    SyncAt(c1, TakeProfit().Cancel());
    SyncAt(c3, StopLoss().Cancel());
    assert mid[0 := Acked().Cancel()] == c1 && c1[2 := TakeProfit().Cancel()] == c3 && c3[3 := StopLoss().Cancel()] == c4;
    assert CancelWhere(Lists(c4, c4), ChildrenOf(2), 4) == Lists(c4, c4);
    assert CancelWhere(Lists(c3, c3), ChildrenOf(2), 3) == Lists(c4, c4);
    assert CancelWhere(Lists(c1, c1), ChildrenOf(2), 2) == Lists(c4, c4);
    assert CancelWhere(Lists(c1, c1), ChildrenOf(2), 1) == Lists(c4, c4);
  }

  lemma DeadTurn(p: Pass, i: nat)
    requires i < |p.pending| && !p.pending[i].Alive()
    ensures PassStep(p, i, MARKET, PLAIN) == p
  {
    assert p.pending[i := p.pending[i]] == p.pending;
  }

  /** With no cash the main order of the bracket is refused.  Its early child is cancelled
      in the book but stays pending and alive, so it can still fill. */
  lemma EarlyChildSurvives()
    ensures var b := Process(Submitted(), MARKET);
            && b.all[0].status == Canceled
            && b.pending != [] && b.pending[0].id == 1 && b.pending[0].Alive()
            && Cleared(b.pending) != Cleared(AliveOnly(b.all))
  {
    hide PassStep, Submitted, First, MainOrder, TakeProfit, StopLoss;
    SubmittedIs();
    var l := Submitted().ledger;
    FirstTurn(l, [MainOrder(), TakeProfit(), StopLoss()]);
    SecondTurn(l);
    var all0 := [First(), MainOrder(), TakeProfit(), StopLoss()];
    var all1 := [Acked(), MainOrder(), TakeProfit(), StopLoss()];
    var all2 := [Acked().Cancel(), MainOrder().MarginCall(), TakeProfit().Cancel(), StopLoss().Cancel()];
    assert all0 == [First()] + [MainOrder(), TakeProfit(), StopLoss()];
    assert all1 == [Acked()] + [MainOrder(), TakeProfit(), StopLoss()];
    var p2 := Pass(all2, all2, l, [Acked()], []);
    DeadTurn(p2, 2);
    DeadTurn(p2, 3);
    assert RunPass(p2, 2, MARKET, PLAIN) == p2;
    assert RunPass(Pass(all0, all0, l, [], []), 0, MARKET, PLAIN) == p2;
    EndOfRun(all2);
    AckedIs();
  }

  lemma AckedIs()
    ensures Acked().id == 1 && Acked().Alive() && Acked().Cancel().status == Canceled
  {
  }

  lemma EndOfRun(all: seq<Order>)
    requires all == [Acked().Cancel(), MainOrder().MarginCall(), TakeProfit().Cancel(), StopLoss().Cancel()]
    ensures AliveOnly(all) == []
  {
    var a, m, t, s := Acked().Cancel(), MainOrder().MarginCall(), TakeProfit().Cancel(), StopLoss().Cancel();
    assert all == [] + [a] + [m] + [t] + [s];
    AliveOnlySnoc([], a);
    AliveOnlySnoc([] + [a], m);
    AliveOnlySnoc([] + [a] + [m], t);
    AliveOnlySnoc([] + [a] + [m] + [t], s);
  }
}
