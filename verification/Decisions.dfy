/** What the orders, the shadows and the records of a run owe to the candidates: sizes are those
    decided, shadows are those proposed, and records are of the trades they name. */
module Decisions {
  import opened Numbers
  import opened Orders
  import opened Positions
  import opened Trades
  import opened Ledgers
  import opened Fills
  import opened Brokers
  import opened BookLaws
  import opened RunLaws
  import opened AccountLaws
  import opened ClaimLaws
  import opened Shadows
  import opened Calibration
  import opened Collectors
  import opened Lifecycle

  // -------------------------------------------------------------- the hook

  /** The candidate that a proposal becomes. */
  predicate Records(s: Candidate, id: nat, p: Proposal) {
    && s.id == id && s.dataIndex == p.dataIndex && s.side == p.side && s.proposed == p.size
    && s.time == if Seen(p.feeds, p.dataIndex).Some? then p.feeds[p.dataIndex].value.time else 0
  }

  /** The shadow of a rejected candidate: the position it would have opened, at the close it
      was shown. */
  predicate Shades(e: ShadowEntry, s: Candidate, close: real, horizon: Uint32) {
    && e.candidateId == s.id && e.dataIndex == s.dataIndex && e.entryTime == s.time
    && e.entryPrice == close && e.size == (if s.side == Sell then -s.proposed else s.proposed)
    && e.commissionPerSide == 0.0 && e.horizon == horizon && e.barsHeld == 0
  }

  /** An order that reduces a position: a sale against a long one, a buy against a short one. */
  predicate GoesAgainst(side: Side, size: real) {
    if side == Sell then size > EPS else size < -EPS
  }

  /** What the hook answers.  Switched off, or asked about an order against the position, it lets
      the order pass as proposed and remembers nothing.  Otherwise it logs a candidate under the
      next id.  Watching only, it lets the order pass as proposed; else the size is the one that
      inference gave, and what inference rejects is held as a shadow if its feed shows a bar. */
  lemma HookAnswers(c: Collector, p: Proposal, i: Inference)
    ensures var a, off := PreOrder(c, p, i), c.config.state == Disabled || GoesAgainst(p.side, p.position.size);
            var id, watch := c.nextId, c.config.state == CollectOnly || !c.config.hasInference;
            && a.collector.config == c.config && a.collector.outcomes == c.outcomes
            && (off ==> a.collector == c && a.verdict == Verdict(0, p.size, false))
            && (!off ==>
                  && a.collector.nextId == id + 1 && a.verdict.candidateId == id
                  && |a.collector.candidates| == |c.candidates| + 1 && c.candidates <= a.collector.candidates
                  && var s := a.collector.candidates[|c.candidates|];
                  && Records(s, id, p) && a.collector.registry == c.registry[id := s]
                  && (watch ==> a.verdict.finalSize == p.size == s.finalSize && !a.verdict.rejected
                                && s.verdict == CollectOnly && s.probability == -1.0)
                  && (!watch ==> s.verdict == i.verdict && s.finalSize == i.finalSize && s.probability == i.probability
                                 && (a.verdict.rejected <==> i.verdict == Reject)
                                 && (i.verdict != Reject ==> a.verdict.finalSize == i.finalSize))
                  && (if watch || i.verdict != Reject || Seen(p.feeds, p.dataIndex) == None then a.collector.shadows == c.shadows
                      else
                        && |a.collector.shadows| == |c.shadows| + 1 && c.shadows <= a.collector.shadows
                        && Shades(a.collector.shadows[|c.shadows|], s, p.feeds[p.dataIndex].value.close, c.config.horizon)))
  {
  }

  /** A proposal in a run: the order that joins the book carries the size of its candidate, which
      is the size inference gave, or, where the collector only watches, the size proposed; without
      a candidate it is the size proposed.  What inference rejects adds no order. */
  lemma ProposalBecomesOrder(s: System, side: Side, size: real, params: OrderParams, feeds: View, i: Inference)
    ensures var t, c := Next(s, Propose(side, size, params, feeds, i)), s.collector;
            var off := c.config.state == Disabled || GoesAgainst(side, PositionAt(s.broker.ledger.positions, params.dataIndex).size);
            var watch := c.config.state == CollectOnly || !c.config.hasInference;
            if !off && !watch && i.verdict == Reject then t.broker.all == s.broker.all
            else
              && |t.broker.all| == |s.broker.all| + 1 && s.broker.all <= t.broker.all
              && var o := t.broker.all[|s.broker.all|].terms;
              && o.side == side && o.dataIndex == params.dataIndex && o.typ == params.typ
              && o.candidateId == (if off then 0 else c.nextId)
              && o.size == (if off || watch then size else i.finalSize)
              && (!off ==> c.nextId in t.collector.registry
                           && var x := t.collector.registry[c.nextId];
                           x.finalSize == o.size && x.proposed == size && x.side == side && x.dataIndex == params.dataIndex)
  {
    hide PreOrder, PositionAt;
    var p := Proposal(side, size, params.dataIndex, feeds, PositionAt(s.broker.ledger.positions, params.dataIndex));
    HookAnswers(s.collector, p, i);
    NothingGained(s.broker.ledger.closedTrades);
  }

  lemma NothingGained(ts: seq<Entry>)
    ensures Gained(ts, ts) == []
  {
  }

  /** Closing through the hook: a position that is not flat, nor long by exactly the epsilon, is
      closed whole, without a candidate. */
  lemma CloseIsWhole(s: System, d: nat, feeds: View, i: Inference)
    requires var x := PositionAt(s.broker.ledger.positions, d).size; x != 0.0 && !NearZero(x) && x != EPS && x != -EPS
    ensures var x := PositionAt(s.broker.ledger.positions, d).size;
            var t := Next(s, ProposeClose(d, feeds, i));
            && t.collector == s.collector && |t.broker.all| == |s.broker.all| + 1 && s.broker.all <= t.broker.all
            && var o := t.broker.all[|s.broker.all|].terms;
            o.candidateId == 0 && o.dataIndex == d && o.typ == Market && o.side == (if x > 0.0 then Sell else Buy) && o.size == Abs(x)
  {
    hide PreOrder, PosIndex;
    var q := PositionAt(s.broker.ledger.positions, d);
    var p := Proposal(if q.IsLong() then Sell else Buy, Abs(q.size), d, feeds, q);
    HookAnswers(s.collector, p, i);
    NothingGained(s.broker.ledger.closedTrades);
  }

  // --------------------------------------------- orders and shadows of a run

  /** The terms of an order with a candidate id are those decided for that candidate. */
  predicate TermsFit(t: Terms, c: Collector) {
    t.candidateId > 0 ==>
      && t.candidateId < c.nextId && t.candidateId in c.registry
      && var s := c.registry[t.candidateId];
      t.size == s.finalSize && t.side == s.side && t.dataIndex == s.dataIndex && s.verdict != Reject
  }

  predicate VerdictFits(v: Verdict, side: Side, d: nat, c: Collector) {
    !v.rejected && v.candidateId > 0 ==>
      && v.candidateId < c.nextId && v.candidateId in c.registry
      && var s := c.registry[v.candidateId];
      v.finalSize == s.finalSize && side == s.side && d == s.dataIndex && s.verdict != Reject
  }

  /** A shadow stands for the size proposed by a candidate that inference has rejected. */
  predicate ShadowFits(e: ShadowEntry, c: Collector) {
    && e.candidateId < c.nextId && e.candidateId in c.registry
    && var s := c.registry[e.candidateId];
    && s.verdict == Reject && e.dataIndex == s.dataIndex && e.entryTime == s.time
    && e.size == (if s.side == Sell then -s.proposed else s.proposed) && e.commissionPerSide == 0.0
  }

  ghost predicate BooksFit(s: System) {
    && (forall k :: 0 <= k < |s.broker.all| ==> TermsFit(s.broker.all[k].terms, s.collector))
    && (forall j :: 0 <= j < |s.collector.shadows| ==> ShadowFits(s.collector.shadows[j], s.collector))
  }

  /** What has been logged stays logged. */
  predicate Remembers(c: Collector, c': Collector) {
    && c.nextId <= c'.nextId
    && forall id :: id in c.registry && id < c.nextId ==> id in c'.registry && c'.registry[id] == c.registry[id]
  }

  lemma AskFits(s: System, side: Side, size: real, d: nat, feeds: View, i: Inference)
    requires BooksFit(s)
    ensures var a := Ask(s, side, size, d, feeds, i);
            && a.system.broker == s.broker && BooksFit(a.system) && Remembers(s.collector, a.system.collector)
            && VerdictFits(a.verdict, side, d, a.system.collector)
  {
    hide PositionAt, PreOrder, VerdictFits;
    var p := Proposal(side, size, d, feeds, PositionAt(s.broker.ledger.positions, d));
    HookAnswers(s.collector, p, i);
    var c, a := s.collector, PreOrder(s.collector, p, i);
    HookFits(c, p, i);
    forall j | 0 <= j < |a.collector.shadows| ensures ShadowFits(a.collector.shadows[j], a.collector) {
      if j < |c.shadows| {
        assert ShadowFits(c.shadows[j], c) && a.collector.shadows[j] == c.shadows[j];
      }
    }
  }

  lemma HookFits(c: Collector, p: Proposal, i: Inference)
    ensures var a := PreOrder(c, p, i); VerdictFits(a.verdict, p.side, p.dataIndex, a.collector)
  {
    hide PreOrder;
    HookAnswers(c, p, i);
  }

  lemma StaysFit(v: Verdict, side: Side, d: nat, c: Collector, c': Collector)
    requires VerdictFits(v, side, d, c) && Remembers(c, c')
    ensures VerdictFits(v, side, d, c')
  {
  }

  /** The orders an event is about to add are those decided. */
  predicate EventFits(b: Broker, e: Event, c: Collector) {
    match e
    case SubmitEvent(side, params, v) => VerdictFits(v, side, params.dataIndex, c)
    case BracketEvent(side, _, _, d, vm, vl, vs) =>
      VerdictFits(vm, side, d, c) && VerdictFits(vl, Opposite(side), d, c) && VerdictFits(vs, Opposite(side), d, c)
    case CloseEvent(d, v) =>
      VerdictFits(v, if PositionAt(b.ledger.positions, d).IsLong() then Sell else Buy, d, c)
    case _ => true
  }

  lemma PlanFits(s: System, h: Happening)
    requires BooksFit(s)
    ensures var p := Planned(s, h);
            && p.system.broker == s.broker && BooksFit(p.system) && Remembers(s.collector, p.system.collector)
            && (p.event.Some? ==> EventFits(s.broker, p.event.value, p.system.collector))
  {
    hide Ask, PositionAt, BooksFit, VerdictFits, Remembers, Ticked;
    Remembered(s.collector);
    match h
    case Propose(side, size, params, feeds, i) =>
      AskFits(s, side, size, params.dataIndex, feeds, i);
    case ProposeBracket(side, size, lp, sp, d, feeds, im, il, it) =>
      var m := Ask(s, side, size, d, feeds, im);
      AskFits(s, side, size, d, feeds, im);
      var l := Ask(m.system, Opposite(side), size, d, feeds, il);
      AskFits(m.system, Opposite(side), size, d, feeds, il);
      var t := Ask(l.system, Opposite(side), size, d, feeds, it);
      AskFits(l.system, Opposite(side), size, d, feeds, it);
      StaysFit(m.verdict, side, d, m.system.collector, l.system.collector);
      StaysFit(m.verdict, side, d, l.system.collector, t.system.collector);
      StaysFit(l.verdict, Opposite(side), d, l.system.collector, t.system.collector);
      RemembersOn(s.collector, m.system.collector, l.system.collector);
      RemembersOn(s.collector, l.system.collector, t.system.collector);
    case ProposeClose(d, feeds, i) =>
      var p := PositionAt(s.broker.ledger.positions, d);
      AskFits(s, if p.IsLong() then Sell else Buy, Abs(p.size), d, feeds, i);
      RejectedFits(if p.IsLong() then Sell else Buy, d, s.collector);
    case EndOfBar(feeds) => TickFits(s, feeds);
    case DrainOutcomes => DrainFits(s);
    case DrainCandidates => DrainFits(s);
    case _ =>
  }

  lemma Remembered(c: Collector)
    ensures Remembers(c, c)
  {
  }

  lemma RemembersOn(c: Collector, d: Collector, e: Collector)
    requires Remembers(c, d) && Remembers(d, e)
    ensures Remembers(c, e)
  {
  }

  lemma RejectedFits(side: Side, d: nat, c: Collector)
    ensures VerdictFits(Verdict(0, 0.0, true), side, d, c)
  {
  }

  lemma TickFits(s: System, feeds: View)
    requires BooksFit(s)
    ensures BooksFit(Ticked(s, feeds)) && Remembers(s.collector, Ticked(s, feeds).collector) && Ticked(s, feeds).broker == s.broker
  {
    hide TickOpen, TickResults, TermsFit;
    var t, es := Ticked(s, feeds), s.collector.shadows;
    TickMeans(es, feeds);
    forall j | 0 <= j < |t.collector.shadows| ensures ShadowFits(t.collector.shadows[j], t.collector) {
      if s.collector.config.state == Disabled {
        assert ShadowFits(es[j], s.collector);
      } else {
        assert TickOpen(es)[j] in TickOpen(es);
        var k :| 0 <= k < |es| && TickOpen(es)[j] == Aged(es[k], 1);
        assert ShadowFits(es[k], s.collector);
      }
    }
    assert forall tm: Terms :: TermsFit(tm, t.collector) == TermsFit(tm, s.collector) by {
      forall tm: Terms ensures TermsFit(tm, t.collector) == TermsFit(tm, s.collector) {
        SameRegistry(tm, s.collector, t.collector);
      }
    }
  }

  lemma SameRegistry(t: Terms, c: Collector, c': Collector)
    requires c'.nextId == c.nextId && c'.registry == c.registry
    ensures TermsFit(t, c') == TermsFit(t, c)
  {
  }

  lemma DrainFits(s: System)
    requires BooksFit(s)
    ensures BooksFit(s.(drained := s.drained + s.collector.outcomes, collector := s.collector.(outcomes := [])))
    ensures BooksFit(s.(issued := s.issued + s.collector.candidates, collector := s.collector.(candidates := [])))
    ensures Remembers(s.collector, s.collector.(outcomes := [])) && Remembers(s.collector, s.collector.(candidates := []))
  {
    forall j | 0 <= j < |s.collector.shadows| ensures ShadowFits(s.collector.shadows[j], s.collector) {
    }
  }

  // ---------------------------------------------------------- the broker's part

  ghost predicate BookFits(all: seq<Order>, c: Collector) {
    forall k :: 0 <= k < |all| ==> TermsFit(all[k].terms, c)
  }

  lemma SubmitFits(b: Broker, side: Side, params: OrderParams, v: Verdict, c: Collector)
    requires BookFits(b.all, c) && VerdictFits(v, side, params.dataIndex, c)
    ensures BookFits(Submit(b, side, params, v).all, c)
  {
  }

  lemma ChildrenFit(s: seq<Order>, id: nat, children: seq<nat>, c: Collector)
    requires BookFits(s, c)
    ensures BookFits(WithChildren(s, id, children), c)
  {
  }

  lemma MovedFits(all: seq<Order>, all': seq<Order>, c: Collector)
    requires BookFits(all, c) && Advances(all, all') && |all'| == |all|
    ensures BookFits(all', c)
  {
    forall k | 0 <= k < |all'| ensures TermsFit(all'[k].terms, c) {
      assert Evolves(all[k], all'[k]);
    }
  }

  lemma BracketFits(b: Broker, side: Side, lp: real, sp: real, d: nat, vm: Verdict, vl: Verdict, vs: Verdict, c: Collector)
    requires BookFits(b.all, c)
    requires VerdictFits(vm, side, d, c) && VerdictFits(vl, Opposite(side), d, c) && VerdictFits(vs, Opposite(side), d, c)
    ensures BookFits(Bracket(b, side, lp, sp, d, vm, vl, vs).all, c)
  {
    hide Submit, WithChildren, BookFits, VerdictFits;
    var group := b.nextOcoGroupId;
    var b0 := b.(nextOcoGroupId := group + 1);
    var main := SubmittedId(b0, vm);
    var b1 := Submit(b0, side, MarketParams(d), vm);
    var limit := SubmittedId(b1, vl);
    var b2 := Submit(b1, Opposite(side), TakeProfitParams(lp, d, main, group), vl);
    var stop := SubmittedId(b2, vs);
    var b3 := Submit(b2, Opposite(side), StopLossParams(sp, d, main, group), vs);
    SubmitFits(b0, side, MarketParams(d), vm, c);
    SubmitFits(b1, Opposite(side), TakeProfitParams(lp, d, main, group), vl, c);
    SubmitFits(b2, Opposite(side), StopLossParams(sp, d, main, group), vs, c);
    ChildrenFit(b3.all, main, [limit, stop], c);
  }

  lemma ApplyFits(b: Broker, e: Event, c: Collector, lot: real)
    requires BookOk(b) && LegalEvent(b, e, lot) && BookFits(b.all, c) && EventFits(b, e, c)
    ensures BookFits(Apply(b, e).all, c)
  {
    hide Submit, Bracket, Cancel, Process, BookOk, BookFits, VerdictFits, Advances, WithPosition, PositionAt;
    ApplyOk(b, e, lot);
    match e
    case SubmitEvent(side, params, v) => SubmitFits(b, side, params, v, c);
    case BracketEvent(side, lp, sp, d, vm, vl, vs) => BracketFits(b, side, lp, sp, d, vm, vl, vs, c);
    case CancelEvent(id) =>
      SameLength(b, e);
      MovedFits(b.all, Apply(b, e).all, c);
    case CloseEvent(d, v) =>
      var b1 := b.(ledger := b.ledger.(positions := WithPosition(b.ledger.positions, d)));
      SubmitFits(b1, if PositionAt(b.ledger.positions, d).IsLong() then Sell else Buy, MarketParams(d), v, c);
    case OcoGroupEvent =>
    case ProcessEvent(m) =>
      SameLength(b, e);
      MovedFits(b.all, Apply(b, e).all, c);
  }

  lemma SameLength(b: Broker, e: Event)
    requires e.CancelEvent? || e.ProcessEvent?
    ensures |Apply(b, e).all| == |b.all|
  {
    hide RunPass, CancelWhere;
  }

  lemma ActFits(s: System, e: Event, lot: real)
    requires BooksFit(s) && BookOk(s.broker) && LegalEvent(s.broker, e, lot) && EventFits(s.broker, e, s.collector)
    ensures BooksFit(Act(s, e))
  {
    hide Apply, NotifyClosed, BookOk, TermsFit, EventFits, LegalEvent;
    ApplyFits(s.broker, e, s.collector, lot);
    var t := Act(s, e);
    NotifyMeans(s.collector, Gained(s.broker.ledger.closedTrades, t.broker.ledger.closedTrades));
    forall k | 0 <= k < |t.broker.all| ensures TermsFit(t.broker.all[k].terms, t.collector) {
      SameRegistry(t.broker.all[k].terms, s.collector, t.collector);
    }
    forall j | 0 <= j < |t.collector.shadows| ensures ShadowFits(t.collector.shadows[j], t.collector) {
      assert ShadowFits(s.collector.shadows[j], s.collector);
    }
  }

  lemma NextFits(s: System, h: Happening, lot: real)
    requires BooksFit(s) && BookOk(s.broker) && LegalHappening(s, h, lot)
    ensures BooksFit(Next(s, h))
  {
    hide Planned, Act, BooksFit, BookOk, LegalEvent, EventFits;
    PlanFits(s, h);
    var p := Planned(s, h);
    if p.event.Some? {
      ActFits(p.system, p.event.value, lot);
    }
  }

  /** In every reachable state, an order that carries a candidate id has the size, the side and
      the feed decided for that candidate, which was not rejected; and a shadow stands for the
      size, the side and the feed that a rejected candidate proposed. */
  lemma {:induction false} OrdersAreAsDecided(cash: real, config: Config, collecting: CollectorConfig, hs: seq<Happening>, lot: real)
    requires EPS <= lot && LegalLife(Start(cash, config, collecting), hs, lot)
    ensures BooksFit(Lived(Start(cash, config, collecting), hs))
  {
    hide Next, LegalHappening, SystemOk;
    var s0 := Start(cash, config, collecting);
    if hs != [] {
      var init := hs[..|hs| - 1];
      OrdersAreAsDecided(cash, config, collecting, init, lot);
      LivedOk(cash, config, collecting, init, lot);
      SystemBook(Lived(s0, init), lot);
      NextFits(Lived(s0, init), hs[|hs| - 1], lot);
    }
  }

  lemma SystemBook(s: System, lot: real)
    requires SystemOk(s, lot)
    ensures BookOk(s.broker)
  {
    hide Tracked, Meaningful, Numbered, BookOk;
  }

  // ------------------------------------------------- no order is enlarged

  /** How the answers of inference come about: calibration, then the sizing policy. */
  datatype Brain = Brain(calibrator: Calibrator, exp: real -> real, mode: SizingMode, threshold: real, pow: real -> real)

  ghost predicate Sane(m: Brain) {
    Rising(m.calibrator) && ExpLike(m.exp) && PowerLike(m.pow)
  }

  /** An answer for a proposed size, from some prediction. */
  ghost predicate Answers(m: Brain, i: Inference, proposed: real)
    requires Sane(m)
  {
    && proposed >= 0.0
    && exists raw: real ::
         var d := ApplyPolicy(m.mode, m.threshold, m.pow, Calibrate(m.calibrator, m.exp, raw), proposed);
         i.verdict == d.verdict && i.finalSize == d.finalSize
  }

  ghost predicate Reasoned(m: Brain, s: System, h: Happening)
    requires Sane(m)
  {
    match h
    case Propose(_, size, _, _, i) => Answers(m, i, size)
    case ProposeBracket(_, size, _, _, _, _, im, il, it) => Answers(m, im, size) && Answers(m, il, size) && Answers(m, it, size)
    case ProposeClose(d, _, i) => Answers(m, i, Abs(PositionAt(s.broker.ledger.positions, d).size))
    case _ => true
  }

  ghost predicate ReasonedLife(m: Brain, s: System, hs: seq<Happening>)
    requires Sane(m)
  {
    hs == [] || (ReasonedLife(m, s, hs[..|hs| - 1]) && Reasoned(m, Lived(s, hs[..|hs| - 1]), hs[|hs| - 1]))
  }

  predicate Modest(c: Collector) {
    forall id :: id in c.registry ==> 0.0 <= c.registry[id].finalSize <= c.registry[id].proposed
  }

  lemma AskModest(m: Brain, s: System, side: Side, size: real, d: nat, feeds: View, i: Inference)
    requires Sane(m) && Modest(s.collector) && Answers(m, i, size)
    ensures Modest(Ask(s, side, size, d, feeds, i).system.collector)
  {
    hide PositionAt, PreOrder, Sane, Calibrate, ApplyPolicy;
    var p := Proposal(side, size, d, feeds, PositionAt(s.broker.ledger.positions, d));
    HookAnswers(s.collector, p, i);
    AnswerModest(m, i, size);
  }

  lemma AnswerModest(m: Brain, i: Inference, proposed: real)
    requires Sane(m) && Answers(m, i, proposed)
    ensures 0.0 <= i.finalSize <= proposed
  {
    hide Calibrate, ApplyPolicy;
    var raw :| var d := ApplyPolicy(m.mode, m.threshold, m.pow, Calibrate(m.calibrator, m.exp, raw), proposed);
               i.verdict == d.verdict && i.finalSize == d.finalSize;
    CalibratedSizing(m.calibrator, m.exp, m.mode, m.threshold, m.pow, raw, raw, proposed);
  }

  lemma NextModest(m: Brain, s: System, h: Happening)
    requires Sane(m) && Modest(s.collector) && Reasoned(m, s, h)
    ensures Modest(Next(s, h).collector)
  {
    hide Ask, PositionAt, Sane, Answers, Apply, NotifyClosed, Modest, TickOpen, TickResults;
    match h
    case Propose(side, size, params, feeds, i) =>
      AskModest(m, s, side, size, params.dataIndex, feeds, i);
      ActModest(s, h);
    case ProposeBracket(side, size, lp, sp, d, feeds, im, il, it) =>
      var a := Ask(s, side, size, d, feeds, im);
      var l := Ask(a.system, Opposite(side), size, d, feeds, il);
      AskModest(m, s, side, size, d, feeds, im);
      AskModest(m, a.system, Opposite(side), size, d, feeds, il);
      AskModest(m, l.system, Opposite(side), size, d, feeds, it);
      ActModest(s, h);
    case ProposeClose(d, feeds, i) =>
      var p := PositionAt(s.broker.ledger.positions, d);
      AskModest(m, s, if p.IsLong() then Sell else Buy, Abs(p.size), d, feeds, i);
      ActModest(s, h);
    case EndOfBar(_) => SameModest(s.collector, Next(s, h).collector);
    case DrainCandidates => SameModest(s.collector, Next(s, h).collector);
    case DrainOutcomes => SameModest(s.collector, Next(s, h).collector);
    case _ => ActModest(s, h);
  }

  lemma SameModest(c: Collector, c': Collector)
    requires Modest(c) && c'.registry == c.registry
    ensures Modest(c')
  {
  }

  lemma ActModest(s: System, h: Happening)
    requires Planned(s, h).event.Some? && Modest(Planned(s, h).system.collector)
    ensures Modest(Next(s, h).collector)
  {
    hide Planned, Apply, NotifyClosed;
    var p := Planned(s, h);
    var t := Act(p.system, p.event.value);
    NotifyMeans(p.system.collector, Gained(p.system.broker.ledger.closedTrades, t.broker.ledger.closedTrades));
  }

  lemma {:induction false} LivedModest(m: Brain, cash: real, config: Config, collecting: CollectorConfig, hs: seq<Happening>)
    requires Sane(m) && ReasonedLife(m, Start(cash, config, collecting), hs)
    ensures Modest(Lived(Start(cash, config, collecting), hs).collector)
  {
    hide Next, Sane, Reasoned, Modest;
    if hs == [] {
      NewIsModest(collecting);
    } else {
      LivedModest(m, cash, config, collecting, hs[..|hs| - 1]);
      NextModest(m, Lived(Start(cash, config, collecting), hs[..|hs| - 1]), hs[|hs| - 1]);
    }
  }

  lemma NewIsModest(collecting: CollectorConfig)
    ensures Modest(NewCollector(collecting))
  {
  }

  /** When the answers are those of calibration and policy, no order with a candidate id is
      larger than its candidate proposed, in any reachable state. */
  lemma NoOrderIsEnlarged(m: Brain, cash: real, config: Config, collecting: CollectorConfig, hs: seq<Happening>, k: nat, lot: real)
    requires EPS <= lot && LegalLife(Start(cash, config, collecting), hs, lot)
    requires Sane(m) && ReasonedLife(m, Start(cash, config, collecting), hs)
    requires k < |Lived(Start(cash, config, collecting), hs).broker.all|
    ensures var s := Lived(Start(cash, config, collecting), hs);
            var t := s.broker.all[k].terms;
            t.candidateId > 0 ==>
              t.candidateId in s.collector.registry && 0.0 <= t.size <= s.collector.registry[t.candidateId].proposed
  {
    hide Lived, LegalLife, ReasonedLife, Sane;
    OrdersAreAsDecided(cash, config, collecting, hs, lot);
    LivedModest(m, cash, config, collecting, hs);
    var s := Lived(Start(cash, config, collecting), hs);
    assert TermsFit(s.broker.all[k].terms, s.collector);
  }

  // ----------------------------------------------------- records of trades

  /** The outcome of a closed trade: its result and commission, its stamps, and a profit if it
      gained after commission. */
  predicate OfTrade(r: Outcome, t: TradeState) {
    && r.candidateId == t.candidateId > 0 && r.kind == Actual && r.complete
    && r.gross == t.pnl && r.commission == t.commission && r.net == t.pnlComm
    && r.entryTime == t.entryTime && r.exitTime == t.exitTime
    && (t.exitBar < t.entryBar ==> r.holding == 0)
    && (t.entryBar <= t.exitBar < t.entryBar + 0x1_0000_0000 ==> r.holding == t.exitBar - t.entryBar)
    && r.profitLabel == if t.pnlComm > 0.0 then 1 else 0
  }

  ghost predicate FromTrades(rs: seq<Outcome>, ts: seq<Entry>) {
    forall i :: 0 <= i < |rs| && rs[i].kind == Actual ==> exists k :: 0 <= k < |ts| && OfTrade(rs[i], ts[k].trade)
  }

  lemma {:induction false} NotifyRecords(c: Collector, ts: seq<Entry>)
    ensures var d := NotifyClosed(c, ts);
            c.outcomes <= d.outcomes && FromTrades(d.outcomes[|c.outcomes|..], ts)
  {
    hide OfTrade;
    if ts != [] {
      var n := |ts| - 1;
      NotifyRecords(c, ts[..n]);
      ClosedIs(ts[n].trade);
      var d, e := NotifyClosed(c, ts[..n]), NotifyClosed(c, ts);
      forall i | 0 <= i < |e.outcomes[|c.outcomes|..]| && e.outcomes[|c.outcomes|..][i].kind == Actual
        ensures exists k :: 0 <= k < |ts| && OfTrade(e.outcomes[|c.outcomes|..][i], ts[k].trade)
      {
        if |c.outcomes| + i < |d.outcomes| {
          assert e.outcomes[|c.outcomes|..][i] == d.outcomes[|c.outcomes|..][i];
          var k :| 0 <= k < n && OfTrade(d.outcomes[|c.outcomes|..][i], ts[..n][k].trade);
          assert ts[..n][k] == ts[k];
        } else {
          assert OfTrade(e.outcomes[|c.outcomes|..][i], ts[n].trade);
        }
      }
    }
  }

  lemma ClosedIs(t: TradeState)
    ensures t.candidateId > 0 ==> OfTrade(ClosedRecord(t), t)
  {
  }

  lemma FromMoreTrades(rs: seq<Outcome>, ts: seq<Entry>, us: seq<Entry>)
    requires FromTrades(rs, ts) && ts <= us
    ensures FromTrades(rs, us)
  {
    hide OfTrade;
    forall i | 0 <= i < |rs| && rs[i].kind == Actual ensures exists k :: 0 <= k < |us| && OfTrade(rs[i], us[k].trade) {
      var k :| 0 <= k < |ts| && OfTrade(rs[i], ts[k].trade);
      assert us[k] == ts[k];
    }
  }

  lemma FromBoth(rs: seq<Outcome>, qs: seq<Outcome>, ts: seq<Entry>)
    requires FromTrades(rs, ts) && FromTrades(qs, ts)
    ensures FromTrades(rs + qs, ts)
  {
    hide OfTrade;
    forall i | 0 <= i < |rs + qs| && (rs + qs)[i].kind == Actual
      ensures exists k :: 0 <= k < |ts| && OfTrade((rs + qs)[i], ts[k].trade)
    {
      assert (rs + qs)[i] == if i < |rs| then rs[i] else qs[i - |rs|];
    }
  }

  lemma FromLater(rs: seq<Outcome>, ts: seq<Entry>, us: seq<Entry>)
    requires FromTrades(rs, us)
    ensures FromTrades(rs, ts + us)
  {
    hide OfTrade;
    forall i | 0 <= i < |rs| && rs[i].kind == Actual
      ensures exists k :: 0 <= k < |ts + us| && OfTrade(rs[i], (ts + us)[k].trade)
    {
      var k :| 0 <= k < |us| && OfTrade(rs[i], us[k].trade);
      assert (ts + us)[|ts| + k] == us[k];
    }
  }

  lemma ActRecords(s: System, e: Event)
    requires FromTrades(Reported(s), s.broker.ledger.closedTrades)
    requires s.broker.ledger.closedTrades <= Apply(s.broker, e).ledger.closedTrades
    ensures FromTrades(Reported(Act(s, e)), Act(s, e).broker.ledger.closedTrades)
  {
    hide Apply, NotifyClosed, FromTrades;
    var t := Act(s, e);
    var was, now := s.broker.ledger.closedTrades, t.broker.ledger.closedTrades;
    NotifyRecords(s.collector, Gained(was, now));
    assert now == was + Gained(was, now);
    FromMoreTrades(Reported(s), was, now);
    var fresh' := t.collector.outcomes[|s.collector.outcomes|..];
    FromLater(fresh', was, Gained(was, now));
    FromBoth(Reported(s), fresh', now);
    assert Reported(t) == Reported(s) + fresh';
  }

  lemma TickRecords(s: System, feeds: View, ts: seq<Entry>)
    requires FromTrades(Reported(s), ts)
    ensures FromTrades(Reported(Ticked(s, feeds)), ts)
  {
    hide TickResults, TickOpen, FromTrades, Record;
    if s.collector.config.state != Disabled {
      var results := TickResults(s.collector.shadows, feeds);
      TickMeans(s.collector.shadows, feeds);
      ShadowsOnly(s.collector.shadows, results, feeds, ts);
      FromBoth(Reported(s), results, ts);
      assert Reported(Ticked(s, feeds)) == Reported(s) + results;
    } else {
      assert Reported(Ticked(s, feeds)) == Reported(s);
    }
  }

  lemma ShadowsOnly(es: seq<ShadowEntry>, results: seq<Outcome>, feeds: View, ts: seq<Entry>)
    requires forall r :: r in results ==> exists i :: 0 <= i < |es| && r == Record(Aged(es[i], 1), feeds, true) && Due(Aged(es[i], 1))
    ensures FromTrades(results, ts)
  {
    hide OfTrade;
    forall i | 0 <= i < |results| ensures results[i].kind != Actual {
      assert results[i] in results;
    }
  }

  lemma NextRecords(s: System, h: Happening, lot: real)
    requires SystemOk(s, lot) && FromTrades(Reported(s), s.broker.ledger.closedTrades)
    ensures FromTrades(Reported(Next(s, h)), Next(s, h).broker.ledger.closedTrades)
  {
    hide Planned, Act, Tracked, Meaningful, Numbered, AccountOk, FromTrades, Ticked, Reported;
    AccountBook(s.broker, lot);
    assert Tracked(s, 1, 0);
    PlanTracked2(s, h, 1);
    var p := Planned(s, h);
    PlanRecords(s, h);
    if p.event.Some? {
      ActPrefix(s, h, p.event.value);
      ActRecords(p.system, p.event.value);
    }
  }

  lemma PlanRecords(s: System, h: Happening)
    requires FromTrades(Reported(s), s.broker.ledger.closedTrades)
    ensures var t := Planned(s, h).system; FromTrades(Reported(t), s.broker.ledger.closedTrades)
  {
    hide Ask, FromTrades, Ticked, PositionAt;
    match h
    case Propose(side, size, params, feeds, i) =>
      AskReports(s, side, size, params.dataIndex, feeds, i);
    case ProposeBracket(side, size, lp, sp, d, feeds, im, il, it) =>
      var m := Ask(s, side, size, d, feeds, im);
      var l := Ask(m.system, Opposite(side), size, d, feeds, il);
      AskReports(s, side, size, d, feeds, im);
      AskReports(m.system, Opposite(side), size, d, feeds, il);
      AskReports(l.system, Opposite(side), size, d, feeds, it);
    case ProposeClose(d, feeds, i) =>
      var p := PositionAt(s.broker.ledger.positions, d);
      AskReports(s, if p.IsLong() then Sell else Buy, Abs(p.size), d, feeds, i);
    case EndOfBar(feeds) => TickRecords(s, feeds, s.broker.ledger.closedTrades);
    case DrainOutcomes => assert Reported(Planned(s, h).system) == Reported(s);
    case DrainCandidates => assert Reported(Planned(s, h).system) == Reported(s);
    case _ =>
  }

  lemma AskReports(s: System, side: Side, size: real, d: nat, feeds: View, i: Inference)
    ensures Reported(Ask(s, side, size, d, feeds, i).system) == Reported(s)
  {
    hide PositionAt, Reduces;
  }

  /** In every reachable state, each outcome reported of a trade is that of a closed trade with
      its id: its result, its commission and its stamps. */
  lemma {:induction false} RecordsAreOfTrades(cash: real, config: Config, collecting: CollectorConfig, hs: seq<Happening>, lot: real)
    requires EPS <= lot && LegalLife(Start(cash, config, collecting), hs, lot)
    ensures var s := Lived(Start(cash, config, collecting), hs);
            FromTrades(Reported(s), s.broker.ledger.closedTrades)
  {
    hide Next, LegalHappening, SystemOk, FromTrades;
    var s0 := Start(cash, config, collecting);
    if hs == [] {
      NothingReported(s0.broker.ledger.closedTrades);
      assert Reported(s0) == [];
    } else {
      var init := hs[..|hs| - 1];
      RecordsAreOfTrades(cash, config, collecting, init, lot);
      LivedOk(cash, config, collecting, init, lot);
      NextRecords(Lived(s0, init), hs[|hs| - 1], lot);
    }
  }

  lemma NothingReported(ts: seq<Entry>)
    ensures FromTrades([], ts)
  {
  }

  /** The censored outcome of a trade still open at the end: marked at the last close of its
      feed, or at zero if the feed is not there, less the commission so far. */
  predicate OfOpenTrade(r: Outcome, t: TradeState, feeds: View) {
    && r.candidateId == t.candidateId && r.kind == Censored && !r.complete && r.profitLabel == -1
    && r.entryTime == t.entryTime && r.commission == t.commission && r.net == r.gross - t.commission
    && (t.barLen < 0x1_0000_0000 ==> r.holding == t.barLen)
    && match Seen(feeds, t.dataIndex)
       case Some(bar) => r.exitTime == bar.time && r.gross == t.size * bar.close - t.size * t.entryPrice
       case None => r.exitTime == 0 && r.gross == -(t.size * t.entryPrice)
  }

  lemma OpenRecordIs(t: TradeState, feeds: View)
    ensures OfOpenTrade(OpenRecord(t, feeds), t, feeds)
  {
    match Seen(feeds, t.dataIndex)
    case Some(bar) => assert (bar.close - t.entryPrice) * t.size == t.size * bar.close - t.size * t.entryPrice;
    case None => assert (0.0 - t.entryPrice) * t.size == -(t.size * t.entryPrice);
  }

  /** `on_stop` reports exactly the open trades with a candidate id, in order, in this way. */
  lemma {:induction false} OpenTradesReported(ts: seq<Entry>, feeds: View)
    ensures |OpenRecords(ts, feeds)| == |Claimed(ts)|
    ensures forall i :: 0 <= i < |Claimed(ts)| ==> OfOpenTrade(OpenRecords(ts, feeds)[i], Claimed(ts)[i], feeds)
  {
    hide OpenRecord, OfOpenTrade;
    if ts != [] {
      OpenTradesReported(ts[..|ts| - 1], feeds);
      OpenRecordIs(ts[|ts| - 1].trade, feeds);
    }
  }

  /** The open trades that carry a candidate id. */
  function Claimed(ts: seq<Entry>): seq<TradeState> {
    if ts == [] then []
    else
      var t := ts[|ts| - 1].trade;
      if t.status == Open && t.candidateId > 0 then Claimed(ts[..|ts| - 1]) + [t] else Claimed(ts[..|ts| - 1])
  }
}
