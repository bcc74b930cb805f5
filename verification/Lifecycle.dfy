/** One outcome per candidate: broker and collector run together, as `Cerebro::run` wires
    them (hook on submission, closed trades notified, one tick per bar, stop at the end). */
module Lifecycle {
  import opened Numbers
  import opened Orders
  import opened Positions
  import opened Trades
  import opened Ledgers
  import opened Fills
  import opened Brokers
  import opened BookLaws
  import opened RunLaws
  import opened AccountLaws
  import opened ClaimLaws
  import opened Shadows
  import opened Calibration
  import opened Collectors

  /** Broker and collector, with what has been drained so far.  `shadowed` remembers the
      candidates rejected on a valid feed and the tick count at that moment. */
  datatype System = System(
    broker: Broker,
    collector: Collector,
    issued: seq<Candidate>,
    drained: seq<Outcome>,
    shadowed: map<nat, nat>,
    ticks: nat)

  /** What may happen between the start and the end of a run.  The answers of inference are
      arbitrary. */
  datatype Happening =
    | Propose(side: Side, size: real, params: OrderParams, feeds: View, answer: Inference)
    | ProposeBracket(side: Side, size: real, limitPrice: real, stopPrice: real, dataIndex: nat, feeds: View,
                     main: Inference, limit: Inference, stop: Inference)
    | ProposeClose(dataIndex: nat, feeds: View, answer: Inference)
    | Withdraw(id: nat)
    | NewOcoGroup
    | Trading(market: Snapshot)
    | EndOfBar(feeds: View)
    | DrainCandidates
    | DrainOutcomes

  function Start(cash: real, config: Config, collecting: CollectorConfig): System {
    System(Fresh(cash, config), NewCollector(collecting), [], [], map[], 0)
  }

  datatype Asked = Asked(system: System, verdict: Verdict)

  predicate Shadowing(c: Collector, p: Proposal, i: Inference) {
    && c.config.state != Disabled && !Reduces(p) && !WatchesOnly(c.config)
    && i.verdict == Reject && Seen(p.feeds, p.dataIndex).Some?
  }

  /** The pre-order hook. */
  function Ask(s: System, side: Side, size: real, d: nat, feeds: View, i: Inference): Asked {
    var p := Proposal(side, size, d, feeds, PositionAt(s.broker.ledger.positions, d));
    var a := PreOrder(s.collector, p, i);
    var shadowed := if Shadowing(s.collector, p, i) then s.shadowed[s.collector.nextId := s.ticks] else s.shadowed;
    Asked(s.(collector := a.collector, shadowed := shadowed), a.verdict)
  }

  function AskClose(s: System, d: nat, feeds: View, i: Inference): Asked {
    var p := PositionAt(s.broker.ledger.positions, d);
    if p.IsFlat() then Asked(s, Verdict(0, 0.0, true))
    else Ask(s, if p.IsLong() then Sell else Buy, Abs(p.size), d, feeds, i)
  }

  function NotifyClosed(c: Collector, ts: seq<Entry>): Collector {
    if ts == [] then c else TradeClosed(NotifyClosed(c, ts[..|ts| - 1]), ts[|ts| - 1].trade)
  }

  /** What a list has gained at its end. */
  function Gained<T>(was: seq<T>, now: seq<T>): seq<T> {
    if |was| <= |now| then now[|was|..] else []
  }

  /** `on_bar`. */
  function Ticked(s: System, feeds: View): System {
    s.(collector := BarDone(s.collector, feeds), ticks := s.ticks + 1)
  }

  datatype Plan = Plan(system: System, event: Option<Event>)

  /** The hook calls of a happening, and the broker event that follows from the verdicts. */
  function Planned(s: System, h: Happening): Plan {
    match h
    case Propose(side, size, params, feeds, i) =>
      var a := Ask(s, side, size, params.dataIndex, feeds, i);
      Plan(a.system, Some(SubmitEvent(side, params, a.verdict)))
    case ProposeBracket(side, size, lp, sp, d, feeds, im, il, it) =>
      var m := Ask(s, side, size, d, feeds, im);
      var l := Ask(m.system, Opposite(side), size, d, feeds, il);
      var t := Ask(l.system, Opposite(side), size, d, feeds, it);
      Plan(t.system, Some(BracketEvent(side, lp, sp, d, m.verdict, l.verdict, t.verdict)))
    case ProposeClose(d, feeds, i) =>
      var a := AskClose(s, d, feeds, i);
      Plan(a.system, Some(CloseEvent(d, a.verdict)))
    case Withdraw(id) => Plan(s, Some(CancelEvent(id)))
    case NewOcoGroup => Plan(s, Some(OcoGroupEvent))
    case Trading(m) => Plan(s, Some(ProcessEvent(m)))
    case EndOfBar(feeds) => Plan(Ticked(s, feeds), None)
    case DrainCandidates =>
      Plan(s.(issued := s.issued + s.collector.candidates, collector := s.collector.(candidates := [])), None)
    case DrainOutcomes =>
      Plan(s.(drained := s.drained + s.collector.outcomes, collector := s.collector.(outcomes := [])), None)
  }

  /** The broker acts, and tells the collector of every trade it closes. */
  function Act(s: System, e: Event): System {
    var b := Apply(s.broker, e);
    s.(broker := b, collector := NotifyClosed(s.collector, Gained(s.broker.ledger.closedTrades, b.ledger.closedTrades)))
  }

  function Next(s: System, h: Happening): System {
    var p := Planned(s, h);
    match p.event
    case None => p.system
    case Some(e) => Act(p.system, e)
  }

  function Lived(s: System, hs: seq<Happening>): System {
    if hs == [] then s else Next(Lived(s, hs[..|hs| - 1]), hs[|hs| - 1])
  }

  /** Every order the broker is handed is one it may be handed. */
  ghost predicate LegalHappening(s: System, h: Happening, lot: real) {
    var e := Planned(s, h).event;
    e.Some? ==> LegalEvent(s.broker, e.value, lot)
  }

  ghost predicate LegalLife(s: System, hs: seq<Happening>, lot: real) {
    hs == [] ||
    (LegalLife(s, hs[..|hs| - 1], lot) && LegalHappening(Lived(s, hs[..|hs| - 1]), hs[|hs| - 1], lot))
  }

  /** All outcomes reported so far, drained or not. */
  function Reported(s: System): seq<Outcome> {
    s.drained + s.collector.outcomes
  }

  /** All outcomes of the run once `on_stop` has been called. */
  function FinalOutcomes(s: System, feeds: View): seq<Outcome> {
    s.drained + Stopped(s.collector, s.broker.ledger.openTrades, feeds).outcomes
  }

  function RecordIds(rs: seq<Outcome>): seq<nat> {
    seq(|rs|, i requires 0 <= i < |rs| => rs[i].candidateId)
  }

  function ShadowIds(es: seq<ShadowEntry>): seq<nat> {
    seq(|es|, i requires 0 <= i < |es| => es[i].candidateId)
  }

  // ----------------------------------------------------- one id's account

  /** How often the id is claimed: by orders, by a shadow, and by `extra` orders about to
      be submitted. */
  function Claims(s: System, c: nat): nat {
    Count(OrderIds(s.broker.all), c) + One(c in s.shadowed)
  }

  /** The account of one candidate id: it is claimed at most once, no trade carries it
      without a completed order, and its records and open shadows balance its closed
      trades and its rejection. */
  ghost predicate Tracked(s: System, c: nat, extra: nat) {
    && Claims(s, c) + extra <= One(c < s.collector.nextId)
    && Carried(s.broker.ledger, c) <= Count(DoneIds(s.broker.all), c)
    && Count(RecordIds(Reported(s)), c) + Count(ShadowIds(s.collector.shadows), c)
       == Count(TradeIds(s.broker.ledger.closedTrades), c) + One(c in s.shadowed)
  }

  lemma RecordsAppend(a: seq<Outcome>, b: seq<Outcome>, c: nat)
    ensures Count(RecordIds(a + b), c) == Count(RecordIds(a), c) + Count(RecordIds(b), c)
  {
    assert RecordIds(a + b) == RecordIds(a) + RecordIds(b);
  }

  lemma ShadowsAppend(a: seq<ShadowEntry>, e: ShadowEntry, c: nat)
    ensures Count(ShadowIds(a + [e]), c) == Count(ShadowIds(a), c) + One(e.candidateId == c)
  {
    assert ShadowIds(a + [e]) == ShadowIds(a) + [e.candidateId];
  }

  /** The hook issues a fresh id or none, and the id goes to one place at most. */
  lemma AskTracked(s: System, side: Side, size: real, d: nat, feeds: View, i: Inference, c: nat, extra: nat)
    requires Tracked(s, c, extra) && c > 0 && s.collector.nextId > 0
    ensures var a := Ask(s, side, size, d, feeds, i);
            Tracked(a.system, c, extra + Admitted(a.verdict, c)) && a.system.collector.nextId > 0 && a.system.broker == s.broker
  {
    hide Count, PositionAt, Carried, RecordIds, ShadowIds, OrderIds, DoneIds, Snap, Reduces;
    var p := Proposal(side, size, d, feeds, PositionAt(s.broker.ledger.positions, d));
    if Shadowing(s.collector, p, i) {
      var bar := Seen(feeds, d).value;
      SnapId(s.collector.nextId, p, i);
      ShadowsAppend(s.collector.shadows, ShadowOf(Snap(s.collector.nextId, p, i), bar.close, s.collector.config.horizon), c);
    }
  }

  lemma SnapId(id: nat, p: Proposal, i: Inference)
    ensures Snap(id, p, i).id == id
  {
  }

  lemma PlanTracked(s: System, h: Happening, c: nat)
    requires Tracked(s, c, 0) && c > 0 && s.collector.nextId > 0
    ensures var p := Planned(s, h);
            && p.system.broker == s.broker && p.system.collector.nextId > 0
            && Tracked(p.system, c, if p.event.Some? then Extra(p.event.value, c) else 0)
  {
    hide Ask, Tracked, PositionAt, TickOpen, TickResults;
    match h
    case Propose(side, size, params, feeds, i) =>
      AskTracked(s, side, size, params.dataIndex, feeds, i, c, 0);
    case ProposeBracket(side, size, lp, sp, d, feeds, im, il, it) =>
      var m := Ask(s, side, size, d, feeds, im);
      AskTracked(s, side, size, d, feeds, im, c, 0);
      var l := Ask(m.system, Opposite(side), size, d, feeds, il);
      AskTracked(m.system, Opposite(side), size, d, feeds, il, c, Admitted(m.verdict, c));
      AskTracked(l.system, Opposite(side), size, d, feeds, it, c, Admitted(m.verdict, c) + Admitted(l.verdict, c));
    case ProposeClose(d, feeds, i) =>
      var p := PositionAt(s.broker.ledger.positions, d);
      AskTracked(s, if p.IsLong() then Sell else Buy, Abs(p.size), d, feeds, i, c, 0);
    case EndOfBar(feeds) => BarTracked(s, feeds, c);
    case DrainOutcomes => DrainTracked(s, c);
    case DrainCandidates => SnapshotsTracked(s, c);
    case _ =>
  }

  /** The orders an event is about to put into the book with this id. */
  function Extra(e: Event, c: nat): nat {
    match e
    case SubmitEvent(_, _, v) => Admitted(v, c)
    case BracketEvent(_, _, _, _, vm, vl, vs) => Admitted(vm, c) + Admitted(vl, c) + Admitted(vs, c)
    case CloseEvent(_, v) => Admitted(v, c)
    case _ => 0
  }

  lemma SnapshotsTracked(s: System, c: nat)
    requires Tracked(s, c, 0)
    ensures Tracked(s.(issued := s.issued + s.collector.candidates, collector := s.collector.(candidates := [])), c, 0)
  {
  }

  lemma DrainTracked(s: System, c: nat)
    requires Tracked(s, c, 0)
    ensures Tracked(s.(drained := s.drained + s.collector.outcomes, collector := s.collector.(outcomes := [])), c, 0)
  {
    var t := s.(drained := s.drained + s.collector.outcomes, collector := s.collector.(outcomes := []));
    assert Reported(t) == Reported(s);
  }

  /** A tick turns open shadows into records, one for one. */
  lemma {:induction false} TickCounts(open: seq<ShadowEntry>, feeds: View, c: nat)
    ensures Count(RecordIds(TickResults(open, feeds)), c) + Count(ShadowIds(TickOpen(open)), c) == Count(ShadowIds(open), c)
  {
    hide Count;
    if open == [] {
      assert RecordIds(TickResults(open, feeds)) == [] == ShadowIds(open);
      CountNone(c);
    } else {
      var init, e := open[..|open| - 1], open[|open| - 1];
      TickCounts(init, feeds, c);
      assert open == init + [e];
      ShadowsAppend(init, e, c);
      assert TickOpen(init) + [] == TickOpen(init) && TickResults(init, feeds) + [] == TickResults(init, feeds);
      if Due(Aged(e, 1)) {
        var r := Record(Aged(e, 1), feeds, true);
        RecordsAppend(TickResults(init, feeds), [r], c);
        SingleRecord(r, c);
      } else {
        ShadowsAppend(TickOpen(init), Aged(e, 1), c);
      }
    }
  }

  lemma SingleRecord(r: Outcome, c: nat)
    ensures Count(RecordIds([r]), c) == One(r.candidateId == c)
  {
    assert RecordIds([r]) == [r.candidateId];
  }

  lemma BarTracked(s: System, feeds: View, c: nat)
    requires Tracked(s, c, 0)
    ensures Tracked(Ticked(s, feeds), c, 0)
  {
    hide Count, Carried, TickOpen, TickResults, RecordIds;
    if s.collector.config.state != Disabled {
      var results := TickResults(s.collector.shadows, feeds);
      TickCounts(s.collector.shadows, feeds, c);
      assert s.drained + (s.collector.outcomes + results) == Reported(s) + results;
      RecordsAppend(Reported(s), results, c);
    }
  }

  // ---------------------------------------------------- the broker's part

  lemma {:induction false} NotifyCounts(c0: Collector, ts: seq<Entry>, c: nat)
    requires c > 0
    ensures var c1 := NotifyClosed(c0, ts);
            && c1.(outcomes := c0.outcomes) == c0
            && (c0.config.state == Disabled ==> c1 == c0)
            && (c0.config.state != Disabled ==>
                  && c0.outcomes <= c1.outcomes
                  && Count(RecordIds(c1.outcomes), c) == Count(RecordIds(c0.outcomes), c) + Count(TradeIds(ts), c))
  {
    hide Count;
    if ts == [] {
      CountNone(c);
    } else {
      var init, t := ts[..|ts| - 1], ts[|ts| - 1].trade;
      NotifyCounts(c0, init, c);
      assert TradeIds(ts) == TradeIds(init) + [t.candidateId];
      CountAppend(TradeIds(init), [t.candidateId], c);
      CountOne(t.candidateId, c);
      RecordsAppend(NotifyClosed(c0, init).outcomes, [ClosedRecord(t)], c);
      SingleRecord(ClosedRecord(t), c);
    }
  }

  lemma CountNone(c: nat)
    ensures Count([], c) == 0 && Count(TradeIds([]), c) == 0
  {
  }

  lemma CountOne(x: nat, c: nat)
    ensures Count([x], c) == One(x == c)
  {
  }

  /** The broker's event, seen by one id. */
  lemma ApplyClaims(b: Broker, e: Event, c: nat)
    requires BookOk(b) && c > 0 && Carried(b.ledger, c) <= Count(DoneIds(b.all), c)
    ensures var b' := Apply(b, e);
            && b.ledger.closedTrades <= b'.ledger.closedTrades
            && Carried(b'.ledger, c) <= Count(DoneIds(b'.all), c)
            && Count(OrderIds(b'.all), c) <= Count(OrderIds(b.all), c) + Extra(e, c)
  {
    hide Submit, Bracket, Cancel, Close, Process, BookOk, Count, DoneIds, OrderIds;
    match e
    case SubmitEvent(side, params, v) => SubmitClaims(b, side, params, v, c);
    case BracketEvent(side, lp, sp, d, vm, vl, vs) => BracketClaims(b, side, lp, sp, d, vm, vl, vs, c);
    case CancelEvent(id) => CancelClaims(b, id);
    case CloseEvent(d, v) => CloseClaims(b, d, v, c);
    case OcoGroupEvent =>
    case ProcessEvent(m) => ProcessClaims(b, m, c);
  }

  lemma ActTracked(s: System, e: Event, c: nat)
    requires BookOk(s.broker) && c > 0 && Tracked(s, c, Extra(e, c))
    requires s.collector.config.state == Disabled ==> s.collector.nextId == 1
    ensures Tracked(Act(s, e), c, 0)
  {
    hide Apply, BookOk, Count, OrderIds, DoneIds, Extra, NotifyClosed, RecordIds;
    var b, b' := s.broker, Apply(s.broker, e);
    ApplyClaims(b, e, c);
    var gained := Gained(b.ledger.closedTrades, b'.ledger.closedTrades);
    assert b'.ledger.closedTrades == b.ledger.closedTrades + gained;
    assert TradeIds(b'.ledger.closedTrades) == TradeIds(b.ledger.closedTrades) + TradeIds(gained);
    CountAppend(TradeIds(b.ledger.closedTrades), TradeIds(gained), c);
    NotifyCounts(s.collector, gained, c);
    var c1 := NotifyClosed(s.collector, gained);
    RecordsAppend(s.drained, s.collector.outcomes, c);
    RecordsAppend(s.drained, c1.outcomes, c);
    DoneAreOrders(b'.all, c);
  }

  // --------------------------------------------------- what records mean

  /** A record is of a closed trade, or of a shadow that has been held for its horizon. */
  ghost predicate RecordOk(s: System, r: Outcome) {
    var c := r.candidateId;
    && c > 0 && Nets(r)
    && (r.kind == Actual || r.kind == Shadow)
    && (r.kind == Actual ==> c in TradeIds(s.broker.ledger.closedTrades))
    && (r.kind == Shadow ==> c in s.shadowed && r.complete && r.holding == s.collector.config.horizon > 0
                             && s.shadowed[c] + r.holding <= s.ticks)
  }

  /** A shadow has been held for the ticks since its rejection, and has not reached its
      horizon. */
  ghost predicate EntryOk(s: System, e: ShadowEntry) {
    var c := e.candidateId;
    && c in s.shadowed && e.horizon == s.collector.config.horizon && s.shadowed[c] + e.barsHeld == s.ticks
    && (e.horizon == 0 || e.barsHeld < e.horizon)
  }

  ghost predicate Meaningful(s: System) {
    && (forall i :: 0 <= i < |Reported(s)| ==> RecordOk(s, Reported(s)[i]))
    && (forall i :: 0 <= i < |s.collector.shadows| ==> EntryOk(s, s.collector.shadows[i]))
    && (forall c :: c in s.shadowed ==> 0 < c < s.collector.nextId)
    && s.collector.nextId > 0
    && (s.collector.config.state == Disabled ==> s.collector.nextId == 1 && s.collector.shadows == [])
  }

  lemma AskMeaningful(s: System, side: Side, size: real, d: nat, feeds: View, i: Inference)
    requires Meaningful(s)
    ensures Meaningful(Ask(s, side, size, d, feeds, i).system)
  {
    hide PositionAt, Reduces;
    var t := Ask(s, side, size, d, feeds, i).system;
    assert Reported(t) == Reported(s);
    forall i | 0 <= i < |Reported(t)| ensures RecordOk(t, Reported(t)[i]) {
      assert RecordOk(s, Reported(s)[i]);
    }
    forall i | 0 <= i < |t.collector.shadows| ensures EntryOk(t, t.collector.shadows[i]) {
      assert i < |s.collector.shadows| ==> EntryOk(s, s.collector.shadows[i]);
    }
  }

  lemma {:induction false} TickMeans(open: seq<ShadowEntry>, feeds: View)
    ensures forall e :: e in TickOpen(open) ==> exists i :: 0 <= i < |open| && e == Aged(open[i], 1) && !Due(e)
    ensures forall r :: r in TickResults(open, feeds) ==>
      exists i :: 0 <= i < |open| && r == Record(Aged(open[i], 1), feeds, true) && Due(Aged(open[i], 1))
  {
    hide Record;
    if open != [] {
      var n := |open| - 1;
      TickMeans(open[..n], feeds);
      assert forall i :: 0 <= i < n ==> open[..n][i] == open[i];
    }
  }

  /** A record of this tick is of a shadow that has just reached its horizon. */
  lemma TickRecordOk(s: System, feeds: View, e: ShadowEntry)
    requires EntryOk(s, e) && e.candidateId > 0 && Due(Aged(e, 1))
    ensures RecordOk(Ticked(s, feeds), Record(Aged(e, 1), feeds, true))
  {
    hide TickOpen, TickResults;
  }

  lemma TickEntryOk(s: System, feeds: View, e: ShadowEntry)
    requires EntryOk(s, e) && !Due(Aged(e, 1))
    ensures EntryOk(Ticked(s, feeds), Aged(e, 1))
  {
    hide TickOpen, TickResults;
  }

  lemma TickKeepsRecord(s: System, feeds: View, r: Outcome)
    requires RecordOk(s, r)
    ensures RecordOk(Ticked(s, feeds), r)
  {
    hide TickOpen, TickResults;
  }

  lemma EntriesTick(s: System, feeds: View)
    requires Meaningful(s)
    ensures forall e :: e in TickOpen(s.collector.shadows) ==> EntryOk(Ticked(s, feeds), e)
    ensures forall r :: r in TickResults(s.collector.shadows, feeds) ==> RecordOk(Ticked(s, feeds), r)
  {
    hide TickOpen, TickResults, Record, Aged, Due, EntryOk, RecordOk, Ticked;
    var es := s.collector.shadows;
    TickMeans(es, feeds);
    forall e | e in TickOpen(es) ensures EntryOk(Ticked(s, feeds), e) {
      var k :| 0 <= k < |es| && e == Aged(es[k], 1) && !Due(e);
      TickEntryOk(s, feeds, es[k]);
    }
    forall r | r in TickResults(es, feeds) ensures RecordOk(Ticked(s, feeds), r) {
      var k :| 0 <= k < |es| && r == Record(Aged(es[k], 1), feeds, true) && Due(Aged(es[k], 1));
      EntryIdPositive(s, es[k]);
      TickRecordOk(s, feeds, es[k]);
    }
  }

  lemma EntryIdPositive(s: System, e: ShadowEntry)
    requires Meaningful(s) && EntryOk(s, e)
    ensures e.candidateId > 0
  {
  }

  lemma BarMeaningful(s: System, feeds: View)
    requires Meaningful(s)
    ensures Meaningful(Ticked(s, feeds))
  {
    hide TickOpen, TickResults, RecordOk, EntryOk;
    var t := Ticked(s, feeds);
    EntriesTick(s, feeds);
    var results := if s.collector.config.state == Disabled then [] else TickResults(s.collector.shadows, feeds);
    assert Reported(t) == Reported(s) + results;
    forall i | 0 <= i < |Reported(t)| ensures RecordOk(t, Reported(t)[i]) {
      if i < |Reported(s)| {
        TickKeepsRecord(s, feeds, Reported(s)[i]);
      } else {
        assert Reported(t)[i] == results[i - |Reported(s)|];
      }
    }
  }

  lemma {:induction false} NotifyMeans(c0: Collector, ts: seq<Entry>)
    ensures var c1 := NotifyClosed(c0, ts);
            && c0.outcomes <= c1.outcomes && c1.(outcomes := c0.outcomes) == c0
            && forall i :: |c0.outcomes| <= i < |c1.outcomes| ==>
                 var r := c1.outcomes[i];
                 r.kind == Actual && r.candidateId > 0 && r.candidateId in TradeIds(ts)
  {
    if ts != [] {
      NotifyMeans(c0, ts[..|ts| - 1]);
      assert TradeIds(ts) == TradeIds(ts[..|ts| - 1]) + [ts[|ts| - 1].trade.candidateId];
    }
  }

  lemma {:induction false} NotifyNets(c0: Collector, ts: seq<Entry>)
    requires ClosedTradesOk(ts)
    ensures var c1 := NotifyClosed(c0, ts);
            forall i :: |c0.outcomes| <= i < |c1.outcomes| ==> Nets(c1.outcomes[i])
  {
    if ts != [] {
      assert Finished(ts[|ts| - 1].trade);
      NotifyMeans(c0, ts[..|ts| - 1]);
      NotifyNets(c0, ts[..|ts| - 1]);
    }
  }

  lemma ActMeaningful(s: System, e: Event)
    requires ClosedTradesOk(Apply(s.broker, e).ledger.closedTrades)
    requires Meaningful(s) && s.broker.ledger.closedTrades <= Apply(s.broker, e).ledger.closedTrades
    ensures Meaningful(Act(s, e))
  {
    hide Apply, NotifyClosed, Nets, Finished;
    var t := Act(s, e);
    var was, now := s.broker.ledger.closedTrades, t.broker.ledger.closedTrades;
    NotifyMeans(s.collector, Gained(was, now));
    NotifyNets(s.collector, Gained(was, now));
    assert now == was + Gained(was, now);
    assert TradeIds(now) == TradeIds(was) + TradeIds(Gained(was, now));
    forall i | 0 <= i < |Reported(t)| ensures RecordOk(t, Reported(t)[i]) {
      if i < |Reported(s)| {
        assert Reported(t)[i] == Reported(s)[i];
        assert RecordOk(s, Reported(s)[i]);
      } else {
        assert Reported(t)[i] == t.collector.outcomes[i - |s.drained|];
      }
    }
    forall i | 0 <= i < |t.collector.shadows| ensures EntryOk(t, t.collector.shadows[i]) {
      assert EntryOk(s, s.collector.shadows[i]);
    }
  }

  lemma DrainMeaningful(s: System)
    requires Meaningful(s)
    ensures Meaningful(s.(drained := s.drained + s.collector.outcomes, collector := s.collector.(outcomes := [])))
    ensures Meaningful(s.(issued := s.issued + s.collector.candidates, collector := s.collector.(candidates := [])))
  {
    var t := s.(drained := s.drained + s.collector.outcomes, collector := s.collector.(outcomes := []));
    var u := s.(issued := s.issued + s.collector.candidates, collector := s.collector.(candidates := []));
    assert Reported(t) == Reported(s) == Reported(u);
    forall i | 0 <= i < |Reported(s)| ensures RecordOk(t, Reported(t)[i]) && RecordOk(u, Reported(u)[i]) {
      assert RecordOk(s, Reported(s)[i]);
    }
    forall i | 0 <= i < |s.collector.shadows| ensures EntryOk(t, s.collector.shadows[i]) && EntryOk(u, s.collector.shadows[i]) {
      assert EntryOk(s, s.collector.shadows[i]);
    }
  }

  lemma PlanMeaningful(s: System, h: Happening)
    requires Meaningful(s)
    ensures Meaningful(Planned(s, h).system)
  {
    hide Ask, Meaningful, PositionAt, BarDone;
    match h
    case Propose(side, size, params, feeds, i) =>
      AskMeaningful(s, side, size, params.dataIndex, feeds, i);
    case ProposeBracket(side, size, lp, sp, d, feeds, im, il, it) =>
      var m := Ask(s, side, size, d, feeds, im);
      AskMeaningful(s, side, size, d, feeds, im);
      var l := Ask(m.system, Opposite(side), size, d, feeds, il);
      AskMeaningful(m.system, Opposite(side), size, d, feeds, il);
      AskMeaningful(l.system, Opposite(side), size, d, feeds, it);
    case ProposeClose(d, feeds, i) =>
      var p := PositionAt(s.broker.ledger.positions, d);
      AskMeaningful(s, if p.IsLong() then Sell else Buy, Abs(p.size), d, feeds, i);
    case EndOfBar(feeds) => BarMeaningful(s, feeds);
    case DrainOutcomes => DrainMeaningful(s);
    case DrainCandidates => DrainMeaningful(s);
    case _ =>
  }

  // ------------------------------------------------------ candidate ids

  /** The candidates logged so far, drained or not, carry the ids 1, 2, ..., and the
      registry knows each of them. */
  ghost predicate Numbered(s: System) {
    var cs := s.issued + s.collector.candidates;
    && s.collector.nextId == |cs| + 1
    && (forall k :: 0 <= k < |cs| ==> cs[k].id == k + 1)
    && (forall id :: id in s.collector.registry <==> 1 <= id <= |cs|)
    && (forall k :: 0 <= k < |cs| ==> s.collector.registry[cs[k].id] == cs[k])
  }

  lemma AskNumbered(s: System, side: Side, size: real, d: nat, feeds: View, i: Inference)
    requires Numbered(s)
    ensures Numbered(Ask(s, side, size, d, feeds, i).system)
  {
    hide PositionAt, Reduces, Shadowing, ShadowOf, Snap, Numbered;
    var p := Proposal(side, size, d, feeds, PositionAt(s.broker.ledger.positions, d));
    var t := Ask(s, side, size, d, feeds, i).system;
    if t.collector.nextId == s.collector.nextId {
      SameNumbered(s, t);
    } else {
      var answer := if WatchesOnly(s.collector.config) then Inference(-1.0, CollectOnly, p.size) else i;
      SnapId(s.collector.nextId, p, answer);
      LogNumbered(s, t, Snap(s.collector.nextId, p, answer));
    }
  }

  lemma LogNumbered(s: System, t: System, x: Candidate)
    requires Numbered(s) && x.id == s.collector.nextId && t.issued == s.issued
    requires t.collector.(shadows := []) == Logged(s.collector, x).(shadows := [])
    ensures Numbered(t)
  {
    assert t.issued + t.collector.candidates == s.issued + s.collector.candidates + [x];
  }

  lemma PlanNumbered(s: System, h: Happening)
    requires Numbered(s)
    ensures Numbered(Planned(s, h).system)
  {
    hide Ask, Numbered, PositionAt;
    match h
    case Propose(side, size, params, feeds, i) =>
      AskNumbered(s, side, size, params.dataIndex, feeds, i);
    case ProposeBracket(side, size, lp, sp, d, feeds, im, il, it) =>
      var m := Ask(s, side, size, d, feeds, im);
      AskNumbered(s, side, size, d, feeds, im);
      var l := Ask(m.system, Opposite(side), size, d, feeds, il);
      AskNumbered(m.system, Opposite(side), size, d, feeds, il);
      AskNumbered(l.system, Opposite(side), size, d, feeds, it);
    case ProposeClose(d, feeds, i) =>
      var p := PositionAt(s.broker.ledger.positions, d);
      AskNumbered(s, if p.IsLong() then Sell else Buy, Abs(p.size), d, feeds, i);
    case EndOfBar(feeds) => SameNumbered(s, Ticked(s, feeds));
    case DrainOutcomes => SameNumbered(s, Planned(s, h).system);
    case DrainCandidates => SameNumbered(s, Planned(s, h).system);
    case _ =>
  }

  lemma SameNumbered(s: System, t: System)
    requires Numbered(s) && t.collector.nextId == s.collector.nextId && t.collector.registry == s.collector.registry
    requires t.issued + t.collector.candidates == s.issued + s.collector.candidates
    ensures Numbered(t)
  {
  }

  // ---------------------------------------------------------------- runs

  ghost predicate SystemOk(s: System, lot: real) {
    && AccountOk(s.broker, lot) && Meaningful(s) && Numbered(s)
    && forall c: nat :: c > 0 ==> Tracked(s, c, 0)
  }

  lemma StartOk(cash: real, config: Config, collecting: CollectorConfig, lot: real)
    requires EPS <= lot
    ensures SystemOk(Start(cash, config, collecting), lot)
  {
    hide AccountOk, Tracked;
    FreshBalanced(cash, config, lot);
    forall c: nat | c > 0 ensures Tracked(Start(cash, config, collecting), c, 0) {
      StartTracked(cash, config, collecting, c);
    }
  }

  lemma StartTracked(cash: real, config: Config, collecting: CollectorConfig, c: nat)
    requires c > 0
    ensures Tracked(Start(cash, config, collecting), c, 0)
  {
    var s := Start(cash, config, collecting);
    assert RecordIds(Reported(s)) == [] && ShadowIds([]) == [] && TradeIds([]) == [] && OrderIds([]) == [] && DoneIds([]) == [];
  }

  lemma NextOk(s: System, h: Happening, lot: real)
    requires SystemOk(s, lot) && LegalHappening(s, h, lot)
    ensures SystemOk(Next(s, h), lot)
  {
    hide AccountOk, Meaningful, Tracked, Numbered, Planned, Apply, NotifyClosed, LegalEvent;
    var p := Planned(s, h);
    PlanMeaningful(s, h);
    PlanNumbered(s, h);
    assert p.system.broker == s.broker by {
      PlanTracked2(s, h, 1);
    }
    if p.event.Some? {
      var e := p.event.value;
      AccountBook(s.broker, lot);
      DisabledIds(p.system);
      ApplyKeepsBalance(s.broker, e, lot);
      forall c: nat | c > 0 ensures Tracked(Act(p.system, e), c, 0) {
        PlanTracked2(s, h, c);
        ActTracked(p.system, e, c);
      }
      ActPrefix(s, h, e);
      AccountClosed(Apply(s.broker, e), lot);
      ActMeaningful(p.system, e);
      NotifyMeans(p.system.collector, Gained(s.broker.ledger.closedTrades, Apply(s.broker, e).ledger.closedTrades));
      SameNumbered(p.system, Act(p.system, e));
    } else {
      forall c: nat | c > 0 ensures Tracked(p.system, c, 0) {
        PlanTracked2(s, h, c);
      }
    }
  }

  lemma AccountBook(b: Broker, lot: real)
    requires AccountOk(b, lot)
    ensures BookOk(b)
  {
  }

  lemma AccountClosed(b: Broker, lot: real)
    requires AccountOk(b, lot)
    ensures ClosedTradesOk(b.ledger.closedTrades)
  {
  }

  lemma DisabledIds(s: System)
    requires Meaningful(s)
    ensures s.collector.config.state == Disabled ==> s.collector.nextId == 1
  {
  }

  lemma PlanTracked2(s: System, h: Happening, c: nat)
    requires Meaningful(s) && Tracked(s, c, 0) && c > 0
    ensures var p := Planned(s, h);
            && p.system.broker == s.broker
            && Tracked(p.system, c, if p.event.Some? then Extra(p.event.value, c) else 0)
  {
    hide Tracked, Planned;
    PlanTracked(s, h, c);
  }

  lemma ActPrefix(s: System, h: Happening, e: Event)
    requires BookOk(s.broker) && Tracked(s, 1, 0)
    ensures s.broker.ledger.closedTrades <= Apply(s.broker, e).ledger.closedTrades
  {
    hide BookOk, Apply, Count, RecordIds, ShadowIds;
    ApplyClaims(s.broker, e, 1);
  }

  lemma {:induction false} LivedOk(cash: real, config: Config, collecting: CollectorConfig, hs: seq<Happening>, lot: real)
    requires EPS <= lot && LegalLife(Start(cash, config, collecting), hs, lot)
    ensures var s := Lived(Start(cash, config, collecting), hs);
            SystemOk(s, lot)
  {
    hide SystemOk, Next, LegalHappening;
    if hs == [] {
      StartOk(cash, config, collecting, lot);
    } else {
      LivedOk(cash, config, collecting, hs[..|hs| - 1], lot);
      NextOk(Lived(Start(cash, config, collecting), hs[..|hs| - 1]), hs[|hs| - 1], lot);
    }
  }

  // ---------------------------------------------------- the end of a run

  lemma {:induction false} OpenCounts(ts: seq<Entry>, feeds: View, c: nat)
    requires c > 0 && forall i :: 0 <= i < |ts| ==> ts[i].trade.status == Open
    ensures Count(RecordIds(OpenRecords(ts, feeds)), c) == Count(TradeIds(ts), c)
  {
    hide Count, OpenRecord;
    if ts == [] {
      assert RecordIds(OpenRecords(ts, feeds)) == [] == TradeIds(ts);
    } else {
      var init, t := ts[..|ts| - 1], ts[|ts| - 1].trade;
      OpenCounts(init, feeds, c);
      assert TradeIds(ts) == TradeIds(init) + [t.candidateId];
      CountAppend(TradeIds(init), [t.candidateId], c);
      CountOne(t.candidateId, c);
      var r := OpenRecord(t, feeds);
      OpenRecordId(t, feeds);
      RecordsAppend(OpenRecords(init, feeds), [r], c);
      SingleRecord(r, c);
      assert OpenRecords(init, feeds) + [] == OpenRecords(init, feeds);
    }
  }

  lemma OpenRecordId(t: TradeState, feeds: View)
    ensures OpenRecord(t, feeds).candidateId == t.candidateId && OpenRecord(t, feeds).kind == Censored && Nets(OpenRecord(t, feeds))
  {
  }

  lemma {:induction false} OpenAreCensored(ts: seq<Entry>, feeds: View)
    ensures forall r :: r in OpenRecords(ts, feeds) ==> r.kind == Censored && r.candidateId > 0 && Nets(r)
  {
    hide OpenRecord, Nets;
    if ts != [] {
      OpenAreCensored(ts[..|ts| - 1], feeds);
      OpenRecordId(ts[|ts| - 1].trade, feeds);
    }
  }

  /** After `on_stop` every trade and every rejection has been accounted for. */
  lemma FinalCounts(s: System, feeds: View, c: nat, lot: real)
    requires SystemOk(s, lot) && c > 0 && s.collector.config.state != Disabled
    ensures Count(RecordIds(FinalOutcomes(s, feeds)), c) == Carried(s.broker.ledger, c) + One(c in s.shadowed)
  {
    hide Count, Meaningful, Numbered, BookOk, SizesOk, OpenRecords, RecordIds, TradeIds;
    var l := s.broker.ledger;
    assert Tracked(s, c, 0);
    forall i | 0 <= i < |l.openTrades| ensures l.openTrades[i].trade.status == Open {
      assert Running(l.openTrades[i].trade, lot);
    }
    OpenCounts(l.openTrades, feeds, c);
    var opens, flushed := OpenRecords(l.openTrades, feeds), FlushResults(s.collector.shadows, feeds);
    assert FinalOutcomes(s, feeds) == Reported(s) + opens + flushed;
    RecordsAppend(Reported(s), opens, c);
    RecordsAppend(Reported(s) + opens, flushed, c);
    FlushIds(s.collector.shadows, feeds);
  }

  lemma FlushIds(es: seq<ShadowEntry>, feeds: View)
    ensures RecordIds(FlushResults(es, feeds)) == ShadowIds(es)
    ensures forall r :: r in FlushResults(es, feeds) ==> r.kind == Censored && r.candidateId in ShadowIds(es) && Nets(r)
  {
    forall i | 0 <= i < |es| ensures es[i].candidateId in ShadowIds(es) {
      assert ShadowIds(es)[i] == es[i].candidateId;
    }
  }

  lemma FinalKinds(s: System, feeds: View, i: nat)
    requires Meaningful(s) && i < |FinalOutcomes(s, feeds)|
    ensures var r := FinalOutcomes(s, feeds)[i];
            r.candidateId > 0 && Nets(r) && (r.kind == Censored || RecordOk(s, r))
  {
    hide OpenRecords, RecordOk, Nets;
    var r := FinalOutcomes(s, feeds)[i];
    if i < |Reported(s)| {
      assert r == Reported(s)[i];
      RecordOkId(s, r);
    } else {
      var opens, flushed := OpenRecords(s.broker.ledger.openTrades, feeds), FlushResults(s.collector.shadows, feeds);
      assert s.collector.config.state != Disabled;
      assert FinalOutcomes(s, feeds) == Reported(s) + opens + flushed;
      OpenAreCensored(s.broker.ledger.openTrades, feeds);
      FlushIds(s.collector.shadows, feeds);
      assert r in opens || r in flushed;
      ShadowIdsPositive(s);
    }
  }

  lemma RecordOkId(s: System, r: Outcome)
    requires RecordOk(s, r)
    ensures r.candidateId > 0 && Nets(r)
  {
  }

  lemma ShadowIdsPositive(s: System)
    requires Meaningful(s)
    ensures forall c :: c in ShadowIds(s.collector.shadows) ==> c > 0
  {
    forall i | 0 <= i < |s.collector.shadows| ensures s.collector.shadows[i].candidateId > 0 {
      assert EntryOk(s, s.collector.shadows[i]);
    }
  }

  lemma FinalAtMostOnce(s: System, feeds: View, c: nat, lot: real)
    requires SystemOk(s, lot) && c > 0
    ensures Count(RecordIds(FinalOutcomes(s, feeds)), c) <= 1
  {
    hide Count, Meaningful, Numbered, AccountOk, RecordIds, OrderIds, DoneIds;
    assert Tracked(s, c, 0);
    DoneAreOrders(s.broker.all, c);
    if s.collector.config.state != Disabled {
      FinalCounts(s, feeds, c, lot);
    }
  }

  // ------------------------------------------------------- the theorems

  /** In every reachable state the candidates have been issued the ids 1, 2, ... once each. */
  lemma IdsIssuedOnce(cash: real, config: Config, collecting: CollectorConfig, hs: seq<Happening>, lot: real)
    requires EPS <= lot && LegalLife(Start(cash, config, collecting), hs, lot)
    ensures Numbered(Lived(Start(cash, config, collecting), hs))
  {
    hide Lived, LegalLife, Numbered;
    LivedOk(cash, config, collecting, hs, lot);
  }

  /** No candidate has two outcomes, over all drains and the final flush, whatever inference
      answered, and every outcome nets. */
  lemma OutcomeOnce(cash: real, config: Config, collecting: CollectorConfig, hs: seq<Happening>, feeds: View, lot: real)
    requires EPS <= lot && LegalLife(Start(cash, config, collecting), hs, lot)
    ensures var out := FinalOutcomes(Lived(Start(cash, config, collecting), hs), feeds);
            && (forall i :: 0 <= i < |out| ==> out[i].candidateId > 0 && Nets(out[i]))
            && (forall i, j :: 0 <= i < j < |out| ==> out[i].candidateId != out[j].candidateId)
  {
    hide Lived, LegalLife, FinalOutcomes, Count, RecordOk, Nets;
    LivedOk(cash, config, collecting, hs, lot);
    var s := Lived(Start(cash, config, collecting), hs);
    var out := FinalOutcomes(s, feeds);
    forall i | 0 <= i < |out| ensures out[i].candidateId > 0 && Nets(out[i]) {
      FinalKinds(s, feeds, i);
    }
    forall i, j | 0 <= i < j < |out| ensures out[i].candidateId != out[j].candidateId {
      FinalAtMostOnce(s, feeds, out[i].candidateId, lot);
      if RecordIds(out)[i] == RecordIds(out)[j] {
        CountDistinct(RecordIds(out), i, j);
      }
    }
  }

  /** With the collector on, every trade that carries a candidate id, closed or open, has
      exactly one outcome, and so has every candidate rejected on a valid feed. */
  lemma EveryClaimHasOutcome(cash: real, config: Config, collecting: CollectorConfig, hs: seq<Happening>, feeds: View,
                             c: nat, lot: real)
    requires EPS <= lot && LegalLife(Start(cash, config, collecting), hs, lot)
    requires c > 0 && Lived(Start(cash, config, collecting), hs).collector.config.state != Disabled
    ensures var s := Lived(Start(cash, config, collecting), hs);
            Count(RecordIds(FinalOutcomes(s, feeds)), c) == Carried(s.broker.ledger, c) + One(c in s.shadowed) <= 1
  {
    hide Lived, LegalLife, FinalOutcomes, Count, Carried, SystemOk;
    LivedOk(cash, config, collecting, hs, lot);
    FinalCounts(Lived(Start(cash, config, collecting), hs), feeds, c, lot);
    FinalAtMostOnce(Lived(Start(cash, config, collecting), hs), feeds, c, lot);
  }

  /** A candidate rejected on a valid feed never becomes an order, and its one outcome is a
      shadow held for exactly the horizon, or censored at the end. */
  lemma RejectedHasOneOutcome(cash: real, config: Config, collecting: CollectorConfig, hs: seq<Happening>, feeds: View,
                              c: nat, lot: real)
    requires EPS <= lot && LegalLife(Start(cash, config, collecting), hs, lot)
    requires c in Lived(Start(cash, config, collecting), hs).shadowed
    ensures var s := Lived(Start(cash, config, collecting), hs);
            var out := FinalOutcomes(s, feeds);
            && c !in OrderIds(s.broker.all)
            && Count(RecordIds(out), c) == 1
            && forall i :: 0 <= i < |out| && out[i].candidateId == c ==>
                 out[i].kind == Censored || (out[i].kind == Shadow && out[i].complete && out[i].holding == s.collector.config.horizon)
  {
    hide Lived, LegalLife, FinalOutcomes, Count, AccountOk;
    LivedOk(cash, config, collecting, hs, lot);
    var s := Lived(Start(cash, config, collecting), hs);
    var out := FinalOutcomes(s, feeds);
    RejectedAccount(s, c, lot);
    FinalCounts(s, feeds, c, lot);
    forall i | 0 <= i < |out| && out[i].candidateId == c
      ensures out[i].kind == Censored || (out[i].kind == Shadow && out[i].complete && out[i].holding == s.collector.config.horizon)
    {
      FinalKinds(s, feeds, i);
    }
  }

  lemma RejectedAccount(s: System, c: nat, lot: real)
    requires SystemOk(s, lot) && c in s.shadowed
    ensures c > 0 && s.collector.config.state != Disabled
    ensures c !in OrderIds(s.broker.all) && Carried(s.broker.ledger, c) == 0 && c !in TradeIds(s.broker.ledger.closedTrades)
    ensures Count(RecordIds(Reported(s)), c) + Count(ShadowIds(s.collector.shadows), c) == 1
  {
    hide Count, AccountOk, Numbered, OrderIds, DoneIds, TradeIds, RecordIds, ShadowIds, Reported, RecordOk, EntryOk;
    assert Tracked(s, c, 0);
    DoneAreOrders(s.broker.all, c);
    CountIn(OrderIds(s.broker.all), c);
    CountIn(TradeIds(s.broker.ledger.closedTrades), c);
  }

  /** In every reachable state the outcome of such a candidate has been reported exactly if
      the collector has ticked `horizon` times since the rejection. */
  lemma ShadowOnTime(cash: real, config: Config, collecting: CollectorConfig, hs: seq<Happening>, c: nat, lot: real)
    requires EPS <= lot && LegalLife(Start(cash, config, collecting), hs, lot)
    requires c in Lived(Start(cash, config, collecting), hs).shadowed
    ensures var s := Lived(Start(cash, config, collecting), hs);
            var horizon := s.collector.config.horizon;
            Count(RecordIds(Reported(s)), c) == One(horizon > 0 && s.shadowed[c] + horizon <= s.ticks)
  {
    hide Lived, LegalLife, Count, AccountOk;
    LivedOk(cash, config, collecting, hs, lot);
    var s := Lived(Start(cash, config, collecting), hs);
    RejectedAccount(s, c, lot);
    CountIn(RecordIds(Reported(s)), c);
    CountIn(ShadowIds(s.collector.shadows), c);
    if c in RecordIds(Reported(s)) {
      var i :| 0 <= i < |Reported(s)| && Reported(s)[i].candidateId == c;
      assert RecordOk(s, Reported(s)[i]);
    } else {
      var i :| 0 <= i < |s.collector.shadows| && s.collector.shadows[i].candidateId == c;
      assert EntryOk(s, s.collector.shadows[i]);
    }
  }
}
