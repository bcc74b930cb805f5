/** The candidate collector (`candidate_collector.hpp`): every order that would add to a
    position is a candidate; its outcome is a closed trade, a shadow or a censored record. */
module Collectors {
  import opened Numbers
  import opened Orders
  import opened Positions
  import opened Trades
  import opened Ledgers
  import opened Fills
  import opened Brokers
  import opened Shadows
  import opened Calibration

  datatype CollectorConfig = CollectorConfig(state: GateVerdict, horizon: Uint32, hasInference: bool)

  /** What inference, calibration and sizing policy answer for one candidate. */
  datatype Inference = Inference(probability: real, verdict: GateVerdict, finalSize: real)

  datatype Candidate = Candidate(
    id: nat,
    time: int,
    dataIndex: nat,
    side: Side,
    proposed: real,
    finalSize: real,
    verdict: GateVerdict,
    probability: real)

  datatype Collector = Collector(
    config: CollectorConfig,
    nextId: nat,
    shadows: seq<ShadowEntry>,
    candidates: seq<Candidate>,
    outcomes: seq<Outcome>,
    registry: map<nat, Candidate>)

  /** What a strategy proposes, and what the collector can see of the market and the
      broker when it is asked. */
  datatype Proposal = Proposal(side: Side, size: real, dataIndex: nat, feeds: View, position: PositionState)

  datatype Answer = Answer(collector: Collector, verdict: Verdict)

  function NewCollector(config: CollectorConfig): Collector {
    Collector(config, 1, [], [], [], map[])
  }

  predicate Reduces(p: Proposal) {
    (p.side == Sell && p.position.IsLong()) || (p.side == Buy && p.position.IsShort())
  }

  function Snap(id: nat, p: Proposal, i: Inference): Candidate {
    var time := match Seen(p.feeds, p.dataIndex) case Some(bar) => bar.time case None => 0;
    Candidate(id, time, p.dataIndex, p.side, p.size, i.finalSize, i.verdict, i.probability)
  }

  function Logged(c: Collector, s: Candidate): Collector {
    c.(nextId := c.nextId + 1, candidates := c.candidates + [s], registry := c.registry[s.id := s])
  }

  function ShadowOf(s: Candidate, close: real, horizon: Uint32): ShadowEntry {
    ShadowEntry(s.id, s.dataIndex, close, if s.side == Buy then s.proposed else -s.proposed, s.time, 0.0, horizon, 0)
  }

  /** The collector only watches: it is told to, or there is no inference. */
  predicate WatchesOnly(config: CollectorConfig) {
    config.state == CollectOnly || !config.hasInference
  }

  /** `on_pre_order`, for any answer `i` inference may give. */
  function PreOrder(c: Collector, p: Proposal, i: Inference): Answer {
    if c.config.state == Disabled || Reduces(p) then Answer(c, Verdict(0, p.size, false))
    else if WatchesOnly(c.config) then
      Answer(Logged(c, Snap(c.nextId, p, Inference(-1.0, CollectOnly, p.size))), Verdict(c.nextId, p.size, false))
    else
      var s := Snap(c.nextId, p, i);
      var logged := Logged(c, s);
      if i.verdict != Reject then Answer(logged, Verdict(c.nextId, i.finalSize, false))
      else
        match Seen(p.feeds, p.dataIndex)
        case Some(bar) =>
          Answer(logged.(shadows := c.shadows + [ShadowOf(s, bar.close, c.config.horizon)]), Verdict(c.nextId, 0.0, true))
        case None => Answer(logged, Verdict(c.nextId, 0.0, true))
  }

  /** The outcome of a closed trade. */
  function ClosedRecord(t: TradeState): Outcome {
    Outcome(t.candidateId, Actual, t.entryTime, t.exitTime, ToUint32(if t.exitBar >= t.entryBar then t.exitBar - t.entryBar else 0),
            t.pnl, t.commission, t.pnlComm, true, if t.pnlComm > 0.0 then 1 else 0)
  }

  /** `on_trade_closed`. */
  function TradeClosed(c: Collector, t: TradeState): Collector {
    if c.config.state == Disabled || t.candidateId == 0 then c else c.(outcomes := c.outcomes + [ClosedRecord(t)])
  }

  /** `on_bar`. */
  function BarDone(c: Collector, feeds: View): Collector {
    if c.config.state == Disabled then c
    else c.(shadows := TickOpen(c.shadows), outcomes := c.outcomes + TickResults(c.shadows, feeds))
  }

  /** The outcome of a trade that is still open at the end. */
  function OpenRecord(t: TradeState, feeds: View): Outcome {
    var seen := Seen(feeds, t.dataIndex);
    var gross := ((if seen.Some? then seen.value.close else 0.0) - t.entryPrice) * t.size;
    Outcome(t.candidateId, Censored, t.entryTime, if seen.Some? then seen.value.time else 0, ToUint32(t.barLen),
            gross, t.commission, gross - t.commission, false, -1)
  }

  function OpenRecords(ts: seq<Entry>, feeds: View): seq<Outcome> {
    if ts == [] then []
    else
      var t := ts[|ts| - 1].trade;
      OpenRecords(ts[..|ts| - 1], feeds) + if t.status == Open && t.candidateId != 0 then [OpenRecord(t, feeds)] else []
  }

  /** `on_stop`. */
  function Stopped(c: Collector, open: seq<Entry>, feeds: View): Collector {
    if c.config.state == Disabled then c
    else c.(shadows := [], outcomes := c.outcomes + OpenRecords(open, feeds) + FlushResults(c.shadows, feeds))
  }

  class CandidateCollector {
    const config: CollectorConfig
    const shadowLedger: ShadowLedger
    var nextCandidateId: nat
    var pendingCandidates: seq<Candidate>
    var pendingOutcomes: seq<Outcome>
    var registry: map<nat, Candidate>

    constructor (config: CollectorConfig)
      ensures Value() == NewCollector(config) && fresh(shadowLedger)
    {
      this.config := config;
      shadowLedger := new ShadowLedger();
      nextCandidateId, pendingCandidates, pendingOutcomes, registry := 1, [], [], map[];
    }

    function Value(): Collector
      reads this, shadowLedger
    {
      Collector(config, nextCandidateId, shadowLedger.openShadows, pendingCandidates, pendingOutcomes, registry)
    }

    method Log(s: Candidate)
      modifies this
      ensures pendingCandidates == old(pendingCandidates) + [s] && registry == old(registry)[s.id := s]
      ensures nextCandidateId == old(nextCandidateId) && pendingOutcomes == old(pendingOutcomes)
    {
      pendingCandidates := pendingCandidates + [s];
      registry := registry[s.id := s];
    }

    method OnPreOrder(p: Proposal, i: Inference) returns (v: Verdict)
      modifies this, shadowLedger
      ensures Answer(Value(), v) == PreOrder(old(Value()), p, i)
    {
      if config.state == Disabled {
        return Verdict(0, p.size, false);
      }
      if (p.side == Sell && p.position.IsLong()) || (p.side == Buy && p.position.IsShort()) {
        return Verdict(0, p.size, false);
      }
      var id := nextCandidateId;
      nextCandidateId := nextCandidateId + 1;
      if config.state == CollectOnly || !config.hasInference {
        Log(Snap(id, p, Inference(-1.0, CollectOnly, p.size)));
        return Verdict(id, p.size, false);
      }
      var s := Snap(id, p, i);
      Log(s);
      if i.verdict == Reject {
        if p.dataIndex < |p.feeds| && p.feeds[p.dataIndex].Some? {
          shadowLedger.AddShadow(ShadowOf(s, p.feeds[p.dataIndex].value.close, config.horizon));
        }
        return Verdict(id, 0.0, true);
      }
      return Verdict(id, i.finalSize, false);
    }

    method OnTradeClosed(t: TradeState)
      modifies `pendingOutcomes
      ensures Value() == TradeClosed(old(Value()), t)
    {
      if config.state == Disabled || t.candidateId == 0 {
        return;
      }
      pendingOutcomes := pendingOutcomes + [ClosedRecord(t)];
    }

    method OnBar(feeds: View)
      modifies `pendingOutcomes, shadowLedger
      ensures Value() == BarDone(old(Value()), feeds)
    {
      if config.state == Disabled {
        return;
      }
      var results := shadowLedger.Tick(feeds);
      pendingOutcomes := pendingOutcomes + results;
    }

    method OnStop(open: seq<Entry>, feeds: View)
      modifies `pendingOutcomes, shadowLedger
      ensures Value() == Stopped(old(Value()), open, feeds)
    {
      if config.state == Disabled {
        return;
      }
      for k := 0 to |open|
        invariant unchanged(shadowLedger)
        invariant pendingOutcomes == old(pendingOutcomes) + OpenRecords(open[..k], feeds)
      {
        assert open[..k + 1][..k] == open[..k];
        var t := open[k].trade;
        if t.status == Open && t.candidateId != 0 {
          pendingOutcomes := pendingOutcomes + [OpenRecord(t, feeds)];
        }
      }
      assert open[..|open|] == open;
      var censored := shadowLedger.FlushCensored(feeds);
      pendingOutcomes := pendingOutcomes + censored;
    }

    method DrainCandidates() returns (drained: seq<Candidate>)
      modifies `pendingCandidates
      ensures drained == old(pendingCandidates) && Value() == old(Value()).(candidates := [])
    {
      drained := pendingCandidates;
      pendingCandidates := [];
    }

    method DrainOutcomes() returns (drained: seq<Outcome>)
      modifies `pendingOutcomes
      ensures drained == old(pendingOutcomes) && Value() == old(Value()).(outcomes := [])
    {
      drained := pendingOutcomes;
      pendingOutcomes := [];
    }
  }
}
