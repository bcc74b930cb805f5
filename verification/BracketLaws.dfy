/** Safety of one-cancels-other groups and of brackets, over whole runs. */
module BracketLaws {
  import opened Numbers
  import opened Orders
  import opened Ledgers
  import opened Fills
  import opened Brokers
  import opened BookLaws
  import opened RunLaws

  // -------------------------------------------------- one cancels the other

  predicate JustCompleted(before: Order, after: Order) {
    after.status == Completed && before.status != Completed
  }

  /** Every group that completed a member since `all0` is remembered. */
  predicate GroupsNoted(all0: seq<Order>, all: seq<Order>, groups: seq<nat>) {
    && |all0| == |all|
    && forall k :: 0 <= k < |all| && JustCompleted(all0[k], all[k]) && all[k].terms.ocoGroupId != 0 ==>
         all[k].terms.ocoGroupId in groups
  }

  lemma GroupsNotedStep(all0: seq<Order>, p: Pass, i: nat, m: Snapshot, cfg: Config)
    requires PassOk(p, i) && i < |p.pending| && GroupsNoted(all0, p.all, p.groups)
    ensures var q := PassStep(p, i, m, cfg); GroupsNoted(all0, q.all, q.groups)
  {
    hide OrderStep, CancelWhere, Activate;
    var o := p.pending[i];
    assert CopyOf(o, p.all);
    var s := OrderStep(o, p.all, p.ledger, m, cfg);
    OrderStepFacts(o, p.all, p.ledger, m, cfg);
    PassOkParts(p, i);
    TurnOk(p, i, s);
    var q := PassStep(p, i, m, cfg);
    GroupsNotedTurn(all0, p.all, s.all, p.groups, q.groups, o.id);
    if s.fate == Attempted {
      var t := AfterTurn(p, i, s);
      CancelChildrenOk(t, i + 1, o.id);
      CancelledCompletesNone(Lists(t.all, t.pending), CancelWhere(Lists(t.all, t.pending), ChildrenOf(o.id), 0).all, ChildrenOf(o.id));
    }
  }

  lemma GroupsNotedTurn(all0: seq<Order>, all: seq<Order>, all': seq<Order>, groups: seq<nat>, groups': seq<nat>, id: nat)
    requires GroupsNoted(all0, all, groups) && OneMoves(all, all', id)
    requires forall g :: g in groups ==> g in groups'
    requires var o := all'[id - 1];
             JustCompleted(all[id - 1], o) && o.terms.ocoGroupId != 0 ==> o.terms.ocoGroupId in groups'
    ensures GroupsNoted(all0, all', groups')
  {
    forall k | 0 <= k < |all'| && JustCompleted(all0[k], all'[k]) && all'[k].terms.ocoGroupId != 0
      ensures all'[k].terms.ocoGroupId in groups'
    {
      if k != id - 1 {
        assert all'[k] == all[k];
      }
    }
  }

  lemma CancelledCompletesNone(s: Lists, r: seq<Order>, which: Selector)
    requires CancelledIn(s, r, which)
    ensures forall k :: 0 <= k < |r| && r[k] != s.all[k] ==> r[k].status == Canceled
  {
  }

  lemma {:induction false} GroupsNotedRun(all0: seq<Order>, p: Pass, i: nat, m: Snapshot, cfg: Config)
    requires i <= |p.pending| && PassOk(p, i) && GroupsNoted(all0, p.all, p.groups)
    ensures var q := RunPass(p, i, m, cfg); GroupsNoted(all0, q.all, q.groups)
    decreases |p.pending| - i
  {
    hide PassOk, PassStep, GroupsNoted;
    if i < |p.pending| {
      GroupsNotedStep(all0, p, i, m, cfg);
      PassStepOk(p, i, m, cfg);
      GroupsNotedRun(all0, PassStep(p, i, m, cfg), i + 1, m, cfg);
    }
  }

  predicate NoneAlive(all: seq<Order>, group: nat) {
    forall j :: 0 <= j < |all| && all[j].terms.ocoGroupId == group ==> !all[j].Alive()
  }

  lemma SweepKills(p: Pass, group: nat)
    requires PassOk(p, |p.pending|) && group != 0 && group in p.groups
    ensures NoneAlive(Sweep(p).all, group)
  {
    hide Sweep;
    SweepOk(p);
    var r := Sweep(p);
    forall j | 0 <= j < |r.all| && r.all[j].Alive() ensures r.all[j].terms.ocoGroupId != group {
      var i := AliveIsListed(r.pending, r.all, j, 0);
      assert r.pending[i] in r.pending;
    }
  }

  /** The pending copy of an alive order. */
  lemma AliveIsListed(s: seq<Order>, all: seq<Order>, k: nat, from: nat) returns (i: nat)
    requires BookIds(all) && k < |all| && Has(s, all[k].id, from) && Copies(s, all, 0)
    ensures from <= i < |s| && s[i].id == all[k].id && s[i].terms == all[k].terms && s[i].status == all[k].status
  {
    i :| from <= i < |s| && s[i].id == all[k].id;
    assert CopyOf(s[i], all);
  }

  /** When a call completes a member of a group, no member is alive on return. */
  lemma OcoCall(b: Broker, m: Snapshot, k: nat)
    requires BookOk(b) && k < |b.all| && b.all[k].terms.ocoGroupId != 0
    requires b.all[k].status != Completed && Process(b, m).all[k].status == Completed
    ensures NoneAlive(Process(b, m).all, b.all[k].terms.ocoGroupId)
  {
    hide RunPass, Sweep, Advances, PassOk;
    var p0 := Pass(b.all, b.pending, b.ledger, [], []);
    PassStarts(b);
    GroupsNotedRun(b.all, p0, 0, m, b.config);
    RunPassOk(p0, 0, m, b.config);
    var p := RunPass(p0, 0, m, b.config);
    SweepOk(p);
    AdvancesAt(b.all, p.all, k);
    SweepCompletesNone(p, k);
    SweepKills(p, b.all[k].terms.ocoGroupId);
  }

  lemma AdvancesAt(all: seq<Order>, all': seq<Order>, k: nat)
    requires Advances(all, all') && k < |all|
    ensures k < |all'| && Evolves(all[k], all'[k])
  {
  }

  lemma SweepCompletesNone(p: Pass, k: nat)
    requires PassOk(p, |p.pending|) && k < |p.all|
    ensures k < |Sweep(p).all| && (Sweep(p).all[k].status == Completed ==> p.all[k].status == Completed)
  {
    hide Sweep;
    SweepOk(p);
  }

  /** Hence all completions of a group fall in one call: after it, the members of the
      group never change again, in any run.  Only orders added later can be different. */
  lemma OcoRun(b: Broker, m: Snapshot, es: seq<Event>, k: nat, j: nat, lot: real)
    requires BookOk(b) && k < |b.all| && b.all[k].terms.ocoGroupId != 0
    requires b.all[k].status != Completed && Process(b, m).all[k].status == Completed
    requires LegalRun(Process(b, m), es, lot)
    requires j < |Process(b, m).all| && Process(b, m).all[j].terms.ocoGroupId == b.all[k].terms.ocoGroupId
    ensures var final := Run(Process(b, m), es).all;
            j < |final| && final[j] == Process(b, m).all[j]
  {
    hide Process, Run, LegalRun;
    OcoCall(b, m, k);
    ProcessOk(b, m);
    RunOk(Process(b, m), es, lot);
    AdvancesAt(Process(b, m).all, Run(Process(b, m), es).all, j);
  }

  // ---------------------------------------------------------- held orders

  predicate ParentDone(all: seq<Order>, id: nat) {
    1 <= id <= |all| && all[id - 1].status == Completed
  }

  predicate Untransmitted(s: seq<Order>, id: nat) {
    forall j :: 0 <= j < |s| && s[j].id == id ==> !s[j].transmit
  }

  /** An order held behind a parent: either the parent has completed, or the order has
      not, and no pending copy of it has been released. */
  predicate HeldSafe(all: seq<Order>, pending: seq<Order>, id: nat) {
    && 1 <= id <= |all| && all[id - 1].terms.parentId != 0
    && (ParentDone(all, all[id - 1].terms.parentId) || (all[id - 1].status != Completed && Untransmitted(pending, id)))
  }

  lemma ParentStaysDone(all: seq<Order>, all': seq<Order>, id: nat)
    requires Advances(all, all') && ParentDone(all, id)
    ensures ParentDone(all', id)
  {
    AdvancesAt(all, all', id - 1);
  }

  lemma CancelledNotDone(s: Lists, r: seq<Order>, which: Selector, k: nat)
    requires CancelledIn(s, r, which) && k < |s.all|
    ensures s.all[k].status != Completed ==> r[k].status != Completed
  {
  }

  /** Cancelling orders releases none. */
  lemma HeldCancel(s: Lists, which: Selector, id: nat)
    requires BookIds(s.all) && Increasing(s.pending) && Copies(s.pending, s.all, 0) && ParentsEarlier(s.all)
    requires HeldSafe(s.all, s.pending, id)
    ensures var r := CancelWhere(s, which, 0); HeldSafe(r.all, r.pending, id)
  {
    hide Selector.Selects, Copies, Increasing, CancelledIn, Advances, ParentsEarlier;
    CancelBook(s, which, 0);
    CancelPending(s, which, 0);
    var r := CancelWhere(s, which, 0);
    CancelledAdvances(s, r.all, which);
    CancelledNotDone(s, r.all, which, id - 1);
    AdvancesAt(s.all, r.all, id - 1);
    if ParentDone(s.all, s.all[id - 1].terms.parentId) {
      ParentStaysDone(s.all, r.all, s.all[id - 1].terms.parentId);
    }
  }

  ghost predicate HeldPass(p: Pass, id: nat) {
    HeldSafe(p.all, p.pending, id) && HeldSafe(p.all, p.still, id)
  }

  /** A held order whose parent has not completed is left alone. */
  lemma HeldIsKept(o: Order, all: seq<Order>, l: Ledger, m: Snapshot, cfg: Config)
    requires BookIds(all) && !o.transmit && o.terms.parentId != 0 && !ParentDone(all, o.terms.parentId)
    ensures var s := OrderStep(o, all, l, m, cfg); s.order == o && s.all == all
  {
    ParentFilledAt(all, o.terms.parentId);
  }

  /** One evolving order does not release a held one. */
  lemma HeldMove(all: seq<Order>, all': seq<Order>, s: seq<Order>, s': seq<Order>, at: nat, id: nat)
    requires BookIds(all) && ParentsEarlier(all) && OneMoves(all, all', at)
    requires HeldSafe(all, s, id)
    requires at == id && !ParentDone(all, all[id - 1].terms.parentId) ==> all' == all
    requires !ParentDone(all, all[id - 1].terms.parentId) ==> Untransmitted(s', id)
    ensures HeldSafe(all', s', id)
  {
    OneMovesAdvances(all, all', at);
    AdvancesAt(all, all', id - 1);
    if ParentDone(all, all[id - 1].terms.parentId) {
      ParentStaysDone(all, all', all[id - 1].terms.parentId);
    }
  }

  /** A turn does not release a held order whose parent has not completed. */
  lemma HeldTurn(p: Pass, i: nat, m: Snapshot, cfg: Config, id: nat)
    requires PassOk(p, i) && i < |p.pending| && HeldPass(p, id)
    ensures var s := OrderStep(p.pending[i], p.all, p.ledger, m, cfg);
            HeldPass(AfterTurn(p, i, s), id)
  {
    hide OrderStep, OneMoves, PassOk, CopyOf;
    var o := p.pending[i];
    var s := OrderStep(o, p.all, p.ledger, m, cfg);
    PassOkParts(p, i);
    PassOkParents(p, i);
    OrderStepFacts(o, p.all, p.ledger, m, cfg);
    CopyTerms(o, p.all);
    if o.id == id && !ParentDone(p.all, p.all[id - 1].terms.parentId) {
      HeldIsKept(o, p.all, p.ledger, m, cfg);
    }
    HeldMove(p.all, s.all, p.pending, AfterTurn(p, i, s).pending, o.id, id);
    HeldMove(p.all, s.all, p.still, AfterTurn(p, i, s).still, o.id, id);
  }

  lemma CopyTerms(o: Order, all: seq<Order>)
    requires CopyOf(o, all)
    ensures o.terms == all[o.id - 1].terms && o.status == all[o.id - 1].status && o.childIds == all[o.id - 1].childIds
  {
  }

  lemma HeldActivate(p: Pass, parentId: nat, id: nat)
    requires BookIds(p.all) && Copies(p.pending, p.all, 0) && HeldPass(p, id) && ParentDone(p.all, parentId)
    ensures HeldPass(p.(pending := Activate(p.pending, parentId)), id)
  {
    forall j | 0 <= j < |p.pending| && p.pending[j].id == id && p.pending[j].terms.parentId == parentId
      ensures ParentDone(p.all, p.all[id - 1].terms.parentId)
    {
      assert CopyOf(p.pending[j], p.all);
    }
  }

  lemma HeldCancelPass(p: Pass, i: nat, which: Selector, id: nat)
    requires PassOk(p, i) && HeldPass(p, id)
    ensures var r := CancelWhere(Lists(p.all, p.pending), which, 0);
            HeldPass(p.(all := r.all, pending := r.pending), id)
  {
    hide CancelWhere;
    var s := Lists(p.all, p.pending);
    HeldCancel(s, which, id);
    CancelBook(s, which, 0);
    var r := CancelWhere(s, which, 0);
    CancelledAdvances(s, r.all, which);
    AdvancesAt(p.all, r.all, id - 1);
    if ParentDone(p.all, p.all[id - 1].terms.parentId) {
      ParentStaysDone(p.all, r.all, p.all[id - 1].terms.parentId);
    }
  }

  lemma HeldPassStep(p: Pass, i: nat, m: Snapshot, cfg: Config, id: nat)
    requires PassOk(p, i) && i < |p.pending| && HeldPass(p, id)
    ensures HeldPass(PassStep(p, i, m, cfg), id)
  {
    hide OrderStep, CancelWhere, Activate, HeldPass, PassOk;
    var o := p.pending[i];
    var s := OrderStep(o, p.all, p.ledger, m, cfg);
    PassOkParts(p, i);
    OrderStepFacts(o, p.all, p.ledger, m, cfg);
    HeldTurn(p, i, m, cfg, id);
    TurnOk(p, i, s);
    var t := AfterTurn(p, i, s);
    if s.fate == Attempted {
      var t' := if s.order.terms.ocoGroupId != 0 && s.order.status == Completed
                then t.(groups := t.groups + [s.order.terms.ocoGroupId]) else t;
      GroupsIrrelevant(t, t', i + 1);
      HeldIgnoresGroups(t, t', id);
      HeldCancelPass(t', i + 1, ChildrenOf(o.id), id);
      if s.order.status == Completed {
        CopyTerms(s.order, s.all);
        PassOkBook(t', i + 1);
        HeldActivate(t', o.id, id);
      }
    }
  }

  lemma HeldIgnoresGroups(p: Pass, q: Pass, id: nat)
    requires HeldPass(p, id) && q == p.(groups := q.groups)
    ensures HeldPass(q, id)
  {
  }

  lemma PassOkBook(p: Pass, i: nat)
    requires PassOk(p, i)
    ensures BookIds(p.all) && Copies(p.pending, p.all, 0) && ParentsEarlier(p.all)
    ensures Increasing(p.still) && Copies(p.still, p.all, 0)
  {
  }

  lemma {:induction false} HeldRunPass(p: Pass, i: nat, m: Snapshot, cfg: Config, id: nat)
    requires i <= |p.pending| && PassOk(p, i) && HeldPass(p, id)
    ensures HeldPass(RunPass(p, i, m, cfg), id)
    decreases |p.pending| - i
  {
    hide PassOk, PassStep, HeldPass;
    if i < |p.pending| {
      HeldPassStep(p, i, m, cfg, id);
      PassStepOk(p, i, m, cfg);
      HeldRunPass(PassStep(p, i, m, cfg), i + 1, m, cfg, id);
    }
  }

  lemma HeldProcess(b: Broker, m: Snapshot, id: nat)
    requires BookOk(b) && HeldSafe(b.all, b.pending, id)
    ensures var c := Process(b, m); HeldSafe(c.all, c.pending, id)
  {
    hide RunPass, CancelWhere, AliveOnly, PassOk;
    var p0 := Pass(b.all, b.pending, b.ledger, [], []);
    PassStarts(b);
    HeldRunPass(p0, 0, m, b.config, id);
    RunPassOk(p0, 0, m, b.config);
    var p := RunPass(p0, 0, m, b.config);
    PassOkBook(p, |p.pending|);
    HeldCancel(Lists(p.all, p.still), InGroups(p.groups), id);
    AliveOnlyFacts(CancelWhere(Lists(p.all, p.still), InGroups(p.groups), 0).pending);
    var r := CancelWhere(Lists(p.all, p.still), InGroups(p.groups), 0).pending;
    forall j | 0 <= j < |AliveOnly(r)| ensures AliveOnly(r)[j] in r {
    }
  }

  lemma HeldSubmit(b: Broker, side: Side, params: OrderParams, v: Verdict, id: nat)
    requires BookOk(b) && HeldSafe(b.all, b.pending, id)
    ensures var c := Submit(b, side, params, v); HeldSafe(c.all, c.pending, id)
  {
    if !v.rejected {
      var c := Submit(b, side, params, v);
      assert c.all[..|b.all|] == b.all;
      assert forall k :: 0 <= k < |b.all| ==> c.all[k] == b.all[k];
    }
  }

  lemma HeldChildren(b: Broker, main: nat, children: seq<nat>, id: nat)
    requires HeldSafe(b.all, b.pending, id)
    ensures HeldSafe(WithChildren(b.all, main, children), WithChildren(b.pending, main, children), id)
  {
    hide IdIndex;
  }

  lemma HeldBracket(b: Broker, side: Side, lp: real, sp: real, d: nat, vm: Verdict, vl: Verdict, vs: Verdict, id: nat)
    requires BookOk(b) && HeldSafe(b.all, b.pending, id)
    ensures var c := Bracket(b, side, lp, sp, d, vm, vl, vs); HeldSafe(c.all, c.pending, id)
  {
    hide Submit, WithChildren, HeldSafe;
    var group := b.nextOcoGroupId;
    var b0 := b.(nextOcoGroupId := group + 1);
    var main := SubmittedId(b0, vm);
    var b1 := Submit(b0, side, MarketParams(d), vm);
    SubmitOk(b0, side, MarketParams(d), vm);
    SubmitGrows(b0, side, MarketParams(d), vm);
    HeldSubmit(b0, side, MarketParams(d), vm, id);
    var b2 := Submit(b1, Opposite(side), TakeProfitParams(lp, d, main, group), vl);
    SubmitOk(b1, Opposite(side), TakeProfitParams(lp, d, main, group), vl);
    SubmitGrows(b1, Opposite(side), TakeProfitParams(lp, d, main, group), vl);
    HeldSubmit(b1, Opposite(side), TakeProfitParams(lp, d, main, group), vl, id);
    var b3 := Submit(b2, Opposite(side), StopLossParams(sp, d, main, group), vs);
    HeldSubmit(b2, Opposite(side), StopLossParams(sp, d, main, group), vs, id);
    HeldChildren(b3, main, [SubmittedId(b1, vl), SubmittedId(b2, vs)], id);
  }

  lemma HeldApply(b: Broker, e: Event, id: nat, lot: real)
    requires BookOk(b) && LegalEvent(b, e, lot) && HeldSafe(b.all, b.pending, id)
    ensures var c := Apply(b, e); HeldSafe(c.all, c.pending, id)
  {
    hide Submit, Bracket, Process, HeldSafe, CancelWhere, WithPosition, PositionAt;
    match e
    case SubmitEvent(side, params, v) => HeldSubmit(b, side, params, v, id);
    case BracketEvent(side, lp, sp, d, vm, vl, vs) => HeldBracket(b, side, lp, sp, d, vm, vl, vs, id);
    case CancelEvent(c) => HeldCancel(Lists(b.all, b.pending), WithId(c), id);
    case CloseEvent(d, v) =>
      var b1 := b.(ledger := b.ledger.(positions := WithPosition(b.ledger.positions, d)));
      HeldSubmit(b1, Buy, MarketParams(d), v, id);
      HeldSubmit(b1, Sell, MarketParams(d), v, id);
    case OcoGroupEvent =>
    case ProcessEvent(m) => HeldProcess(b, m, id);
  }

  lemma {:induction false} HeldRun(b: Broker, es: seq<Event>, id: nat, lot: real)
    requires BookOk(b) && LegalRun(b, es, lot) && HeldSafe(b.all, b.pending, id)
    ensures var c := Run(b, es); HeldSafe(c.all, c.pending, id)
  {
    hide HeldSafe, BookOk, Apply, Advances;
    if es != [] {
      var init := es[..|es| - 1];
      HeldRun(b, init, id, lot);
      RunOk(b, init, lot);
      HeldApply(Run(b, init), es[|es| - 1], id, lot);
    }
  }

  /** An order submitted held behind a parent completes, in any run, only if that parent
      has completed. */
  lemma HeldCompletesAfterParent(b: Broker, side: Side, params: OrderParams, v: Verdict, es: seq<Event>, lot: real)
    requires BookOk(b) && !v.rejected && 0 < params.parentId < b.nextOrderId && !params.transmit
    requires LegalRun(Submit(b, side, params, v), es, lot)
    ensures var final := Run(Submit(b, side, params, v), es).all;
            var k := b.nextOrderId - 1;
            && k < |final| && final[k].terms.parentId == params.parentId
            && (final[k].status == Completed ==> ParentDone(final, params.parentId))
  {
    hide Run, LegalRun;
    var c := Submit(b, side, params, v);
    SubmitOk(b, side, params, v);
    RunOk(c, es, lot);
    HeldRun(c, es, b.nextOrderId, lot);
    AdvancesAt(c.all, Run(c, es).all, b.nextOrderId - 1);
  }

  /** A bracket whose three orders are accepted: a market order, a take-profit at the limit and
      a stop-loss at the stop on the other side, which share a group and are held behind it. */
  predicate BracketPlaced(all: seq<Order>, n: nat, side: Side, limitPrice: real, stopPrice: real, d: nat, group: nat)
    requires |all| == n + 3
  {
    var main, profit, loss := all[n], all[n + 1], all[n + 2];
    && main.id == n + 1 && profit.id == n + 2 && loss.id == n + 3
    && main.terms.typ == Market && main.terms.side == side && main.childIds == [profit.id, loss.id]
    && main.terms.parentId == 0 && main.terms.ocoGroupId == 0
    && profit.terms.typ == Limit && profit.terms.price == limitPrice && profit.terms.side != side
    && loss.terms.typ == Stop && loss.terms.stopPrice == Some(stopPrice) && loss.terms.side != side
    && profit.terms.ocoGroupId == loss.terms.ocoGroupId == group
    && profit.terms.parentId == loss.terms.parentId == main.id
    && main.terms.dataIndex == profit.terms.dataIndex == loss.terms.dataIndex == d
    && main.transmit && !profit.transmit && !loss.transmit
    && main.terms.validUntilBar == None && profit.terms.validUntilBar == None && loss.terms.validUntilBar == None
  }

  /** A new order with the size and the candidate of a verdict. */
  predicate FromVerdict(o: Order, v: Verdict) {
    o.terms.size == v.finalSize && o.terms.candidateId == v.candidateId && o.status == Created
  }

  lemma IndexOfNew(s: seq<Order>, x: Order, y: Order, z: Order)
    requires forall j :: 0 <= j < |s| ==> s[j].id < x.id
    requires x.id < y.id < z.id
    ensures IdIndex(s + [x] + [y] + [z], x.id) == |s|
  {
    var t := s + [x] + [y] + [z];
    assert t[|s|] == x;
    var k := IdIndex(t, x.id);
    assert forall j :: 0 <= j < |s| ==> t[j] == s[j];
  }

  /** What a bracket leaves in the book. */
  lemma BracketPlaces(b: Broker, side: Side, lp: real, sp: real, d: nat, vm: Verdict, vl: Verdict, vs: Verdict)
    requires BookOk(b) && b.nextOcoGroupId > 0 && !vm.rejected && !vl.rejected && !vs.rejected
    ensures var c := Bracket(b, side, lp, sp, d, vm, vl, vs);
            && |c.all| == |b.all| + 3 && BracketPlaced(c.all, |b.all|, side, lp, sp, d, b.nextOcoGroupId)
            && HeldSafe(c.all, c.pending, |b.all| + 2) && HeldSafe(c.all, c.pending, |b.all| + 3)
            && c.nextOcoGroupId == b.nextOcoGroupId + 1 && c.nextOrderId == b.nextOrderId + 3 && c.ledger == b.ledger
            && FromVerdict(c.all[|b.all|], vm) && FromVerdict(c.all[|b.all| + 1], vl) && FromVerdict(c.all[|b.all| + 2], vs)
  {
    hide IdIndex;
    var n, group := |b.all|, b.nextOcoGroupId;
    var o := NewOrder(n + 1, side, MarketParams(d), vm);
    var p := NewOrder(n + 2, Opposite(side), TakeProfitParams(lp, d, n + 1, group), vl);
    var q := NewOrder(n + 3, Opposite(side), StopLossParams(sp, d, n + 1, group), vs);
    PendingOlder(b);
    IndexOfNew(b.all, o, p, q);
    IndexOfNew(b.pending, o, p, q);
    var c := Bracket(b, side, lp, sp, d, vm, vl, vs);
    var parent := o.(childIds := [n + 2, n + 3]);
    assert c.all == (b.all + [o] + [p] + [q])[n := parent];
    assert c.pending == (b.pending + [o] + [p] + [q])[|b.pending| := parent];
  }

  lemma PendingOlder(b: Broker)
    requires BookOk(b)
    ensures forall j :: 0 <= j < |b.pending| ==> b.pending[j].id <= |b.all|
    ensures forall j :: 0 <= j < |b.all| ==> b.all[j].id <= |b.all|
  {
    forall j | 0 <= j < |b.pending| ensures b.pending[j].id <= |b.all| {
      assert CopyOf(b.pending[j], b.all);
    }
  }

  /** Over every run after it, neither take-profit nor stop-loss of a bracket is Completed
      before its main order is. */
  lemma BracketRun(b: Broker, side: Side, lp: real, sp: real, d: nat, vm: Verdict, vl: Verdict, vs: Verdict, es: seq<Event>, lot: real)
    requires BookOk(b) && b.nextOcoGroupId > 0 && !vm.rejected && !vl.rejected && !vs.rejected
    requires LegalRun(Bracket(b, side, lp, sp, d, vm, vl, vs), es, lot)
    ensures var final := Run(Bracket(b, side, lp, sp, d, vm, vl, vs), es).all;
            var n := |b.all|;
            && n + 3 <= |final|
            && (final[n + 1].status == Completed || final[n + 2].status == Completed ==> final[n].status == Completed)
  {
    hide Run, LegalRun, Bracket, HeldSafe;
    var c := Bracket(b, side, lp, sp, d, vm, vl, vs);
    BracketOk(b, side, lp, sp, d, vm, vl, vs);
    BracketPlaces(b, side, lp, sp, d, vm, vl, vs);
    RunOk(c, es, lot);
    HeldRun(c, es, |b.all| + 2, lot);
    HeldRun(c, es, |b.all| + 3, lot);
    AdvancesAt(c.all, Run(c, es).all, |b.all| + 1);
    AdvancesAt(c.all, Run(c, es).all, |b.all| + 2);
    HeldMeans(Run(c, es), |b.all| + 2);
    HeldMeans(Run(c, es), |b.all| + 3);
  }

  lemma HeldMeans(b: Broker, id: nat)
    requires HeldSafe(b.all, b.pending, id)
    ensures 1 <= id <= |b.all|
    ensures b.all[id - 1].status == Completed ==> ParentDone(b.all, b.all[id - 1].terms.parentId)
  {
  }

  /** An order executes only on a bar of its own feed, within its validity, and not while it
      is held. */
  lemma ExecutesOnlyWhenDue(o: Order, all: seq<Order>, l: Ledger, m: Snapshot, cfg: Config)
    requires o.status != Completed && OrderStep(o, all, l, m, cfg).order.status == Completed
    ensures o.Alive() && (Held(o) ==> ParentFilled(all, o.terms.parentId))
    ensures o.terms.dataIndex < |m.feeds| && m.feeds[o.terms.dataIndex].Some?
    ensures o.terms.validUntilBar.Some? ==> m.bar <= o.terms.validUntilBar.value
  {
    hide AttemptStep, Sync, ParentFilled;
  }

  /** Hence a child whose parent ended any other way never completes. */
  lemma OrphanNeverCompletes(b: Broker, es: seq<Event>, id: nat, lot: real)
    requires BookOk(b) && LegalRun(b, es, lot) && HeldSafe(b.all, b.pending, id)
    requires var parent := b.all[id - 1].terms.parentId;
             1 <= parent <= |b.all| && !b.all[parent - 1].Alive() && b.all[parent - 1].status != Completed
    ensures var final := Run(b, es).all;
            id <= |final| && final[id - 1].status != Completed
  {
    hide Run, LegalRun;
    RunOk(b, es, lot);
    HeldRun(b, es, id, lot);
    AdvancesAt(b.all, Run(b, es).all, id - 1);
    AdvancesAt(b.all, Run(b, es).all, b.all[id - 1].terms.parentId - 1);
  }

  // ------------------------------------------------------ bracket in margin

  predicate NoChildAlive(all: seq<Order>, parentId: nat) {
    forall j :: 0 <= j < |all| && all[j].terms.parentId == parentId ==> !all[j].Alive()
  }

  /** A bracket's main order that has been refused for lack of cash since `all0`. */
  predicate FreshMargin(all0: seq<Order>, all: seq<Order>, k: nat) {
    && k < |all| && |all0| == |all| && all[k].status == Margin && all0[k].status != Margin
    && all[k].terms.parentId == 0 && all[k].childIds != []
  }

  predicate MarginsSettled(all0: seq<Order>, all: seq<Order>) {
    |all0| == |all| && forall k :: 0 <= k < |all| && FreshMargin(all0, all, k) ==> NoChildAlive(all, k + 1)
  }

  lemma MarginsAdvance(all0: seq<Order>, all: seq<Order>, all': seq<Order>)
    requires MarginsSettled(all0, all) && Advances(all, all') && |all'| == |all|
    requires forall k :: 0 <= k < |all| && all'[k].status == Margin ==> all[k].status == Margin
    ensures MarginsSettled(all0, all')
  {
    forall k | 0 <= k < |all'| && FreshMargin(all0, all', k) ensures NoChildAlive(all', k + 1) {
      assert FreshMargin(all0, all, k);
    }
  }

  lemma ChildrenGone(p: Pass, i: nat, parentId: nat)
    requires PassOk(p, i) && forall a :: 0 <= a < |p.still| ==> p.still[a].id < parentId
    ensures NoChildAlive(CancelWhere(Lists(p.all, p.pending), ChildrenOf(parentId), 0).all, parentId)
  {
    hide CancelWhere, CancelledIn, Advances;
    var s := Lists(p.all, p.pending);
    var r := CancelWhere(s, ChildrenOf(parentId), 0);
    CancelChildrenOk(p, i, parentId);
    CancelPending(s, ChildrenOf(parentId), 0);
    var q := p.(all := r.all, pending := r.pending);
    PassOkBook(q, i);
    forall j | 0 <= j < |r.all| && r.all[j].Alive() ensures r.all[j].terms.parentId != parentId {
      if Has(q.still, r.all[j].id, 0) {
        var c := AliveIsListed(q.still, r.all, j, 0);
      } else {
        var c := AliveIsListed(q.pending, r.all, j, i);
        assert r.pending[c] == p.pending[c];
      }
    }
  }

  lemma MarginsStep(all0: seq<Order>, p: Pass, i: nat, m: Snapshot, cfg: Config)
    requires PassOk(p, i) && i < |p.pending| && MarginsSettled(all0, p.all)
    ensures MarginsSettled(all0, PassStep(p, i, m, cfg).all)
  {
    hide OrderStep, CancelWhere, Activate, PassOk, Advances;
    var o := p.pending[i];
    PassOkParts(p, i);
    var s := OrderStep(o, p.all, p.ledger, m, cfg);
    OrderStepFacts(o, p.all, p.ledger, m, cfg);
    TurnOk(p, i, s);
    var q := PassStep(p, i, m, cfg);
    PassOkParents(p, i);
    if s.fate != Attempted {
      assert s.order.status == Margin ==> o.status == Margin by {
        if o.status != Margin && s.order.status == Margin {
          MarginIsAttempt(o, p.all, p.ledger, m, cfg);
        }
      }
      MarginsOther(all0, p.all, s.all, o.id);
    } else {
      var t := AfterTurn(p, i, s);
      CancelChildrenOk(t, i + 1, o.id);
      var r := CancelWhere(Lists(t.all, t.pending), ChildrenOf(o.id), 0);
      CancelledNoMargin(Lists(t.all, t.pending), r.all, ChildrenOf(o.id));
      if s.order.status == Margin && s.order.terms.parentId == 0 && s.order.childIds != [] {
        ChildrenGone(t, i + 1, o.id);
        assert q.all == r.all;
        MarginsSettle(all0, p.all, s.all, r.all, o.id);
      } else {
        MarginsOther(all0, p.all, s.all, o.id);
        MarginsAdvance(all0, s.all, r.all);
        assert q.all == s.all || q.all == r.all;
      }
    }
  }

  lemma PassOkParents(p: Pass, i: nat)
    requires PassOk(p, i)
    ensures ParentsEarlier(p.all) && BookIds(p.all)
  {
  }

  lemma CancelledNoMargin(s: Lists, r: seq<Order>, which: Selector)
    requires CancelledIn(s, r, which)
    ensures forall k :: 0 <= k < |s.all| && r[k].status == Margin ==> s.all[k].status == Margin
  {
  }

  /** An order enters Margin only through an attempt to fill it. */
  lemma MarginIsAttempt(o: Order, all: seq<Order>, l: Ledger, m: Snapshot, cfg: Config)
    requires o.status != Margin && OrderStep(o, all, l, m, cfg).order.status == Margin
    ensures OrderStep(o, all, l, m, cfg).fate == Attempted
  {
    hide Sync, ParentFilled, TryFill, TrailMoves, TrailLevel;
  }

  lemma MarginsOther(all0: seq<Order>, all: seq<Order>, all': seq<Order>, id: nat)
    requires MarginsSettled(all0, all) && OneMoves(all, all', id) && BookIds(all) && ParentsEarlier(all)
    requires var o := all'[id - 1];
             !(o.status == Margin && all[id - 1].status != Margin && o.terms.parentId == 0 && o.childIds != [])
    ensures MarginsSettled(all0, all')
  {
    forall k | 0 <= k < |all'| && FreshMargin(all0, all', k) ensures NoChildAlive(all', k + 1) {
      assert FreshMargin(all0, all, k);
    }
  }

  lemma MarginsSettle(all0: seq<Order>, all: seq<Order>, all': seq<Order>, r: seq<Order>, id: nat)
    requires MarginsSettled(all0, all) && OneMoves(all, all', id) && Advances(all', r) && |r| == |all'|
    requires forall k :: 0 <= k < |r| && r[k].status == Margin ==> all'[k].status == Margin
    requires NoChildAlive(r, id)
    ensures MarginsSettled(all0, r)
  {
    forall k | 0 <= k < |r| && FreshMargin(all0, r, k) ensures NoChildAlive(r, k + 1) {
      if k != id - 1 {
        assert FreshMargin(all0, all, k);
      }
    }
  }

  lemma {:induction false} MarginsRun(all0: seq<Order>, p: Pass, i: nat, m: Snapshot, cfg: Config)
    requires i <= |p.pending| && PassOk(p, i) && MarginsSettled(all0, p.all)
    ensures MarginsSettled(all0, RunPass(p, i, m, cfg).all)
    decreases |p.pending| - i
  {
    hide PassOk, PassStep, MarginsSettled;
    if i < |p.pending| {
      MarginsStep(all0, p, i, m, cfg);
      PassStepOk(p, i, m, cfg);
      MarginsRun(all0, PassStep(p, i, m, cfg), i + 1, m, cfg);
    }
  }

  /** A bracket's main order that a call refuses for lack of cash takes all its alive
      children with it, by the end of that call. */
  lemma MarginKillsChildren(b: Broker, m: Snapshot, k: nat)
    requires BookOk(b) && k < |b.all| && b.all[k].status != Margin && Process(b, m).all[k].status == Margin
    requires b.all[k].terms.parentId == 0 && b.all[k].childIds != []
    ensures NoChildAlive(Process(b, m).all, k + 1)
  {
    hide RunPass, Sweep, Advances, PassOk;
    var p0 := Pass(b.all, b.pending, b.ledger, [], []);
    PassStarts(b);
    RunPassOk(p0, 0, m, b.config);
    var p := RunPass(p0, 0, m, b.config);
    MarginsRun(b.all, p0, 0, m, b.config);
    SweepOk(p);
    CancelledNoMargin(Lists(p.all, p.still), Sweep(p).all, InGroups(p.groups));
    AdvancesAt(b.all, p.all, k);
    MarginsAdvance(b.all, p.all, Sweep(p).all);
    AdvancesAt(p.all, Sweep(p).all, k);
    SettledAt(b.all, Process(b, m).all, k);
  }

  lemma SettledAt(all0: seq<Order>, all: seq<Order>, k: nat)
    requires MarginsSettled(all0, all) && FreshMargin(all0, all, k)
    ensures NoChildAlive(all, k + 1)
  {
  }

  lemma AgreeCancelled(p: Order, all: seq<Order>, r: seq<Order>)
    requires CopyOf(p, all) && CopyOf(p.Cancel(), r) && |r| == |all|
    ensures Agree(r[p.id - 1], all[p.id - 1].Cancel())
  {
  }

  lemma AgreeDead(a: Order)
    requires !a.Alive()
    ensures Agree(a, a.Cancel())
  {
  }

  lemma CancelledOthers(s: Lists, r: seq<Order>, id: nat)
    requires BookIds(s.all) && CancelledIn(s, r, WithId(id))
    ensures |r| == |s.all|
    ensures forall k :: 0 <= k < |s.all| && (k != id - 1 || !s.all[k].Alive()) ==> r[k] == s.all[k]
  {
  }

  /** Cancelling a main order through `cancel_order` does not: it touches no other order.
      Its held children stay alive, and by `OrphanNeverCompletes` they never fill. */
  lemma CancelTouchesOne(b: Broker, id: nat)
    requires BookOk(b)
    ensures var c := Cancel(b, id);
            && |c.all| == |b.all|
            && (forall k :: 0 <= k < |b.all| && k != id - 1 ==> c.all[k] == b.all[k])
            && (1 <= id <= |b.all| ==> Agree(c.all[id - 1], b.all[id - 1].Cancel()))
  {
    hide ParentsEarlier, CancelWhere, CancelledIn, Agree, CopyOf, Increasing;
    var s := Lists(b.all, b.pending);
    var r := CancelWhere(s, WithId(id), 0);
    CancelBook(s, WithId(id), 0);
    CancelPending(s, WithId(id), 0);
    CancelledOthers(s, r.all, id);
    if 1 <= id <= |b.all| && b.all[id - 1].Alive() {
      var i := AliveIsListed(b.pending, b.all, id - 1, 0);
      AgreeCancelled(b.pending[i], b.all, r.all);
    } else if 1 <= id <= |b.all| {
      AgreeDead(b.all[id - 1]);
    }
  }

  // --------------------------------------------------------- group numbers

  /** How many groups a run asks for: one with every bracket, and one with every request. */
  function GroupsAsked(es: seq<Event>): nat {
    if es == [] then 0
    else
      var e := es[|es| - 1];
      GroupsAsked(es[..|es| - 1]) + if e.BracketEvent? || e.OcoGroupEvent? then 1 else 0
  }

  /** Group numbers are issued one after the other: no two requests ever get the same one,
      and nothing else uses one up. */
  lemma {:induction false} GroupsIssuedOnce(b: Broker, es: seq<Event>)
    ensures Run(b, es).nextOcoGroupId == b.nextOcoGroupId + GroupsAsked(es)
  {
    hide Process, Cancel;
    if es != [] {
      var init, e := es[..|es| - 1], es[|es| - 1];
      GroupsIssuedOnce(b, init);
      GroupsKept(Run(b, init), e);
    }
  }

  lemma GroupsKept(b: Broker, e: Event)
    ensures Apply(b, e).nextOcoGroupId == b.nextOcoGroupId + if e.BracketEvent? || e.OcoGroupEvent? then 1 else 0
  {
  }
}
