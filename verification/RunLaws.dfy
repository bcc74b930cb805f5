/** Every event of a back-test keeps the book in order, hence so does every run. */
module RunLaws {
  import opened Numbers
  import opened Orders
  import opened Ledgers
  import opened Fills
  import opened Brokers
  import opened BookLaws

  // --------------------------------------------------------- legal events

  /** A hook that accepts answers with a positive whole number of lots. */
  ghost predicate LegalVerdict(v: Verdict, lot: real) {
    v.rejected || (v.finalSize > 0.0 && OnGrid(v.finalSize, lot))
  }

  /** What the broker expects of its callers: sizes are positive and on the grid, and a
      parent is an order that exists when its child is submitted. */
  ghost predicate LegalEvent(b: Broker, e: Event, lot: real) {
    match e
    case SubmitEvent(_, params, v) => LegalVerdict(v, lot) && (v.rejected || params.parentId < b.nextOrderId)
    case BracketEvent(_, _, _, _, vm, vl, vs) => LegalVerdict(vm, lot) && LegalVerdict(vl, lot) && LegalVerdict(vs, lot)
    case CancelEvent(_) => true
    case CloseEvent(_, v) => LegalVerdict(v, lot)
    case OcoGroupEvent => true
    case ProcessEvent(_) => true
  }

  ghost predicate LegalRun(b: Broker, es: seq<Event>, lot: real) {
    es == [] ||
    (LegalRun(b, es[..|es| - 1], lot) && LegalEvent(Run(b, es[..|es| - 1]), es[|es| - 1], lot))
  }

  // ---------------------------------------------------------- submissions

  lemma SubmitOk(b: Broker, side: Side, params: OrderParams, v: Verdict)
    requires BookOk(b) && (v.rejected || params.parentId < b.nextOrderId)
    ensures var c := Submit(b, side, params, v);
            BookOk(c) && Advances(b.all, c.all) && b.all <= c.all
  {
    if !v.rejected {
      var c := Submit(b, side, params, v);
      var o := NewOrder(b.nextOrderId, side, params, v);
      forall j | 0 <= j < |c.pending| ensures CopyOf(c.pending[j], c.all) {
        assert j < |b.pending| ==> CopyOf(b.pending[j], b.all);
      }
      forall k | 0 <= k < |c.all| && c.all[k].Alive() ensures Has(c.pending, c.all[k].id, 0) {
        HasAppend(b.pending, o, c.all[k].id);
      }
    }
  }

  lemma ChildrenSet(b: Broker, id: nat, children: seq<nat>, n: nat)
    requires BookOk(b) && n <= |b.all| && (id == 0 || id == n + 1)
    ensures var c := b.(all := WithChildren(b.all, id, children), pending := WithChildren(b.pending, id, children));
            BookOk(c) && Advances(b.all[..n], c.all)
  {
    hide IdIndex;
    var c := b.(all := WithChildren(b.all, id, children), pending := WithChildren(b.pending, id, children));
    ChildrenCopies(b.pending, b.all, id, children);
    forall k | 0 <= k < |c.all| && c.all[k].Alive() ensures Has(c.pending, c.all[k].id, 0) {
      assert Has(b.pending, b.all[k].id, 0);
      HasSameIds(b.pending, c.pending, b.all[k].id, 0);
    }
  }

  lemma ChildrenCopies(s: seq<Order>, all: seq<Order>, id: nat, children: seq<nat>)
    requires BookIds(all) && Increasing(s) && Copies(s, all, 0)
    ensures Copies(WithChildren(s, id, children), WithChildren(all, id, children), 0)
  {
    hide IdIndex;
    var t, all' := WithChildren(s, id, children), WithChildren(all, id, children);
    forall j | 0 <= j < |s| ensures CopyOf(t[j], all') {
      assert CopyOf(s[j], all);
    }
  }

  lemma BracketOk(b: Broker, side: Side, limitPrice: real, stopPrice: real, d: nat, vm: Verdict, vl: Verdict, vs: Verdict)
    requires BookOk(b)
    ensures var c := Bracket(b, side, limitPrice, stopPrice, d, vm, vl, vs);
            BookOk(c) && Advances(b.all, c.all)
  {
    hide Submit, WithChildren, Advances;
    var group := b.nextOcoGroupId;
    var b0 := b.(nextOcoGroupId := group + 1);
    var main := SubmittedId(b0, vm);
    var b1 := Submit(b0, side, MarketParams(d), vm);
    SubmitOk(b0, side, MarketParams(d), vm);
    SubmitGrows(b0, side, MarketParams(d), vm);
    var b2 := Submit(b1, Opposite(side), TakeProfitParams(limitPrice, d, main, group), vl);
    SubmitOk(b1, Opposite(side), TakeProfitParams(limitPrice, d, main, group), vl);
    SubmitGrows(b1, Opposite(side), TakeProfitParams(limitPrice, d, main, group), vl);
    var b3 := Submit(b2, Opposite(side), StopLossParams(stopPrice, d, main, group), vs);
    SubmitOk(b2, Opposite(side), StopLossParams(stopPrice, d, main, group), vs);
    assert b3.all[..|b.all|] == b.all;
    ChildrenSet(b3, main, [SubmittedId(b1, vl), SubmittedId(b2, vs)], |b.all|);
  }

  lemma SubmitGrows(b: Broker, side: Side, params: OrderParams, v: Verdict)
    ensures var c := Submit(b, side, params, v);
            c.nextOrderId == b.nextOrderId + if v.rejected then 0 else 1
  {
  }

  lemma CloseOk(b: Broker, d: nat, v: Verdict)
    requires BookOk(b)
    ensures BookOk(Close(b, d, v)) && Advances(b.all, Close(b, d, v).all)
  {
    hide PositionAt, WithPosition;
    var b1 := b.(ledger := b.ledger.(positions := WithPosition(b.ledger.positions, d)));
    SubmitOk(b1, Buy, MarketParams(d), v);
    SubmitOk(b1, Sell, MarketParams(d), v);
    AdvancesReflexive(b.all);
  }

  lemma CancelOk(b: Broker, id: nat)
    requires BookOk(b)
    ensures BookOk(Cancel(b, id)) && Advances(b.all, Cancel(b, id).all)
  {
    hide CancelledIn, Advances;
    var s := Lists(b.all, b.pending);
    var r := CancelWhere(s, WithId(id), 0);
    CancelBook(s, WithId(id), 0);
    CancelPending(s, WithId(id), 0);
    CancelledAdvances(s, r.all, WithId(id));
    ListedCancelled(s, r, WithId(id));
  }

  lemma ListedCancelled(s: Lists, r: Lists, which: Selector)
    requires Listed(s.all, s.pending) && SameIds(s.pending, r.pending) && CancelledIn(s, r.all, which)
    ensures Listed(r.all, r.pending)
  {
    forall k | 0 <= k < |r.all| && r.all[k].Alive() ensures Has(r.pending, r.all[k].id, 0) {
      assert r.all[k] == s.all[k];
      HasSameIds(s.pending, r.pending, s.all[k].id, 0);
    }
  }

  // ------------------------------------------------------------- the pass

  lemma {:induction false} AliveOnlyFacts(s: seq<Order>)
    ensures forall x :: x in AliveOnly(s) <==> x in s && x.Alive()
    ensures Increasing(s) ==> Increasing(AliveOnly(s))
  {
    if s != [] {
      AliveOnlyFacts(s[1..]);
      if Increasing(s) {
        forall x | x in s[1..] ensures s[0].id < x.id {
          var j :| 0 <= j < |s[1..]| && s[1..][j] == x;
          assert s[j + 1] == x;
        }
      }
    }
  }

  /** Clearing out the dead orders loses no alive one. */
  lemma AliveOnlyMirrors(s: seq<Order>, all: seq<Order>)
    requires BookIds(all) && Increasing(s) && Copies(s, all, 0) && Listed(all, s)
    ensures var t := AliveOnly(s);
            Increasing(t) && Copies(t, all, 0) && Listed(all, t) && AllAlive(t)
  {
    hide AliveOnly;
    AliveOnlyFacts(s);
    var t := AliveOnly(s);
    forall j | 0 <= j < |t| ensures CopyOf(t[j], all) {
      assert t[j] in s;
    }
    forall k | 0 <= k < |all| && all[k].Alive() ensures Has(t, all[k].id, 0) {
      var j :| 0 <= j < |s| && s[j].id == all[k].id;
      assert CopyOf(s[j], all);
      assert s[j] in t;
    }
  }

  /** The pass ends with a list that mirrors the book. */
  lemma PassEnds(p: Pass)
    requires PassOk(p, |p.pending|)
    ensures Listed(p.all, p.still)
  {
    forall k | 0 <= k < |p.all| && p.all[k].Alive() ensures Has(p.still, p.all[k].id, 0) {
    }
  }

  lemma SweepOk(p: Pass)
    requires PassOk(p, |p.pending|)
    ensures var r := Sweep(p);
            && BookIds(r.all) && ParentsEarlier(r.all) && Advances(p.all, r.all)
            && CancelledIn(Lists(p.all, p.still), r.all, InGroups(p.groups))
            && Increasing(r.pending) && Copies(r.pending, r.all, 0) && Listed(r.all, r.pending) && AllAlive(r.pending)
            && (forall x :: x in r.pending ==> !InGroups(p.groups).Selects(x))
  {
    hide CancelledIn, Advances, AliveOnly, Selector.Selects;
    var s := Lists(p.all, p.still);
    var which := InGroups(p.groups);
    var r := CancelWhere(s, which, 0);
    CancelBook(s, which, 0);
    CancelPending(s, which, 0);
    CancelledAdvances(s, r.all, which);
    PassEnds(p);
    ListedCancelled(s, r, which);
    AliveOnlyMirrors(r.pending, r.all);
    AliveOnlyFacts(r.pending);
  }

  /** `process_orders` keeps the invariant, and on return exactly the alive orders are
      pending. */
  lemma ProcessOk(b: Broker, m: Snapshot)
    requires BookOk(b)
    ensures var c := Process(b, m);
            BookOk(c) && Advances(b.all, c.all) && AllAlive(c.pending)
  {
    hide RunPass, Sweep, Advances;
    var p0 := Pass(b.all, b.pending, b.ledger, [], []);
    PassStarts(b);
    RunPassOk(p0, 0, m, b.config);
    var p := RunPass(p0, 0, m, b.config);
    PassEnds(p);
    SweepOk(p);
    AdvancesTransitive(b.all, p.all, Sweep(p).all);
  }

  lemma PassStarts(b: Broker)
    requires BookOk(b)
    ensures PassOk(Pass(b.all, b.pending, b.ledger, [], []), 0)
  {
  }

  function Cleared(s: seq<Order>): seq<Order> {
    seq(|s|, i requires 0 <= i < |s| => s[i].(transmit := true))
  }

  lemma {:induction false} AliveOnlySnoc(s: seq<Order>, o: Order)
    ensures AliveOnly(s + [o]) == AliveOnly(s) + if o.Alive() then [o] else []
  {
    if s == [] {
      assert [o][1..] == [];
    } else {
      assert (s + [o])[1..] == s[1..] + [o];
      AliveOnlySnoc(s[1..], o);
    }
  }

  /** Increasing, alive, copied from the book and complete: that leaves only one list. */
  lemma {:induction false} MirrorUnique(s: seq<Order>, all: seq<Order>)
    requires BookIds(all) && Increasing(s) && Copies(s, all, 0) && Listed(all, s) && AllAlive(s)
    ensures Cleared(s) == Cleared(AliveOnly(all))
    decreases |all|
  {
    if all == [] {
      assert s == [];
    } else {
      hide AliveOnly, Agree;
      var n := |all| - 1;
      var init := all[..n];
      assert all == init + [all[n]];
      AliveOnlySnoc(init, all[n]);
      if all[n].Alive() {
        MirrorLast(s, all);
        var k := |s| - 1;
        MirrorInit(s[..k], all, s);
        MirrorUnique(s[..k], init);
        assert Cleared(s) == Cleared(s[..k]) + [s[k].(transmit := true)];
      } else {
        forall j | 0 <= j < |s| ensures s[j].id != n + 1 {
          assert CopyOf(s[j], all);
          DeadNotListed(s[j], all);
        }
        MirrorInit(s, all, s);
        MirrorUnique(s, init);
      }
    }
  }

  lemma DeadNotListed(o: Order, all: seq<Order>)
    requires CopyOf(o, all) && o.Alive()
    ensures all[o.id - 1].Alive()
  {
  }

  /** The youngest alive order of the book ends the list. */
  lemma MirrorLast(s: seq<Order>, all: seq<Order>)
    requires all != [] && BookIds(all) && Increasing(s) && Copies(s, all, 0) && Listed(all, s) && all[|all| - 1].Alive()
    ensures s != [] && s[|s| - 1].(transmit := true) == all[|all| - 1].(transmit := true)
    ensures forall j :: 0 <= j < |s| ==> (s[j].id == |all| <==> j >= |s| - 1)
  {
    assert Has(s, |all|, 0);
    var j :| 0 <= j < |s| && s[j].id == |all|;
    assert CopyOf(s[|s| - 1], all);
    assert j == |s| - 1;
  }

  lemma MirrorInit(t: seq<Order>, all: seq<Order>, s: seq<Order>)
    requires all != [] && BookIds(all) && Copies(s, all, 0) && Listed(all, s) && t <= s
    requires forall j :: 0 <= j < |s| ==> (s[j].id == |all| <==> j >= |t|)
    ensures Copies(t, all[..|all| - 1], 0) && Listed(all[..|all| - 1], t)
  {
    var init := all[..|all| - 1];
    forall j | 0 <= j < |t| ensures CopyOf(t[j], init) {
      assert CopyOf(s[j], all);
    }
    forall k | 0 <= k < |init| && init[k].Alive() ensures Has(t, init[k].id, 0) {
      assert Has(s, all[k].id, 0);
      var j :| 0 <= j < |s| && s[j].id == all[k].id;
      assert t[j].id == init[k].id;
    }
  }

  /** On return from `process_orders` the pending list is exactly the list of the alive
      orders of the book, in id order, up to `transmit`. */
  lemma PendingMirrorsBook(b: Broker, m: Snapshot)
    requires BookOk(b)
    ensures var c := Process(b, m);
            Cleared(c.pending) == Cleared(AliveOnly(c.all))
  {
    hide Process;
    ProcessOk(b, m);
    MirrorUnique(Process(b, m).pending, Process(b, m).all);
  }

  // ----------------------------------------------------------------- runs

  lemma ApplyOk(b: Broker, e: Event, lot: real)
    requires BookOk(b) && LegalEvent(b, e, lot)
    ensures BookOk(Apply(b, e)) && Advances(b.all, Apply(b, e).all)
  {
    hide Submit, Bracket, Cancel, Close, Process, Advances;
    match e
    case SubmitEvent(side, params, v) => SubmitOk(b, side, params, v);
    case BracketEvent(side, lp, sp, d, vm, vl, vs) => BracketOk(b, side, lp, sp, d, vm, vl, vs);
    case CancelEvent(id) => CancelOk(b, id);
    case CloseEvent(d, v) => CloseOk(b, d, v);
    case OcoGroupEvent => AdvancesReflexive(b.all);
    case ProcessEvent(m) => ProcessOk(b, m);
  }

  /** In every reachable state the book is in order, and orders have only moved forward:
      a terminal order is never touched again, so it executes at most once. */
  lemma {:induction false} RunOk(b: Broker, es: seq<Event>, lot: real)
    requires BookOk(b) && LegalRun(b, es, lot)
    ensures BookOk(Run(b, es)) && Advances(b.all, Run(b, es).all)
  {
    hide BookOk, Advances, Apply;
    if es == [] {
      AdvancesReflexive(b.all);
    } else {
      var init := es[..|es| - 1];
      RunOk(b, init, lot);
      ApplyOk(Run(b, init), es[|es| - 1], lot);
      AdvancesTransitive(b.all, Run(b, init).all, Run(b, es).all);
    }
  }

  lemma FreshOk(cash: real, config: Config)
    ensures BookOk(Fresh(cash, config))
  {
  }

  /** From the start of a back-test: in every reachable state the book is in order, and the
      next call leaves exactly its alive orders pending, in id order, up to `transmit`. */
  lemma ReachableMirror(cash: real, config: Config, es: seq<Event>, m: Snapshot, lot: real)
    requires LegalRun(Fresh(cash, config), es, lot)
    ensures var b := Run(Fresh(cash, config), es);
            && BookOk(b)
            && Cleared(Process(b, m).pending) == Cleared(AliveOnly(Process(b, m).all))
  {
    hide BookOk, Run, LegalRun, Process;
    FreshOk(cash, config);
    RunOk(Fresh(cash, config), es, lot);
    PendingMirrorsBook(Run(Fresh(cash, config), es), m);
  }
}
