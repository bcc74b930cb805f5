/** Counterfactual outcomes of rejected candidates (`shadow_ledger.hpp`). */
module Shadows {
  import opened Numbers
  import opened Fills

  /** What every feed shows now; `None` for a feed that is not there. */
  type View = seq<Option<Bar>>

  type Uint32 = n: nat | n < 0x1_0000_0000

  datatype ShadowEntry = ShadowEntry(
    candidateId: nat,
    dataIndex: nat,
    entryPrice: real,
    size: real,
    entryTime: int,
    commissionPerSide: real,
    horizon: Uint32,
    barsHeld: nat)

  datatype OutcomeKind = Actual | Shadow | Censored

  datatype Outcome = Outcome(
    candidateId: nat,
    kind: OutcomeKind,
    entryTime: int,
    exitTime: int,
    holding: Uint32,
    gross: real,
    commission: real,
    net: real,
    complete: bool,
    profitLabel: int)

  /** What every outcome record owes its reader: the net result is gross less commission, and
      the label says whether it is a profit, or that it is unknown. */
  predicate Nets(r: Outcome) {
    && r.net == r.gross - r.commission
    && r.complete == (r.kind != Censored)
    && r.profitLabel == if !r.complete then -1 else if r.net > 0.0 then 1 else 0
  }

  /** The conversion to `uint32_t`. */
  function ToUint32(n: nat): Uint32 {
    n % 0x1_0000_0000
  }

  function Seen(feeds: View, d: nat): Option<Bar> {
    if d < |feeds| then feeds[d] else None
  }

  function ExitPrice(e: ShadowEntry, feeds: View): real {
    match Seen(feeds, e.dataIndex)
    case Some(bar) => bar.close
    case None => e.entryPrice
  }

  function ExitTime(e: ShadowEntry, feeds: View): int {
    match Seen(feeds, e.dataIndex)
    case Some(bar) => bar.time
    case None => 0
  }

  /** `close_shadow_` and `censor_shadow_`. */
  function Record(e: ShadowEntry, feeds: View, complete: bool): Outcome {
    var gross := (ExitPrice(e, feeds) - e.entryPrice) * e.size;
    var comm := e.commissionPerSide * 2.0;
    var net := gross - comm;
    Outcome(e.candidateId, if complete then Shadow else Censored, e.entryTime, ExitTime(e, feeds), ToUint32(e.barsHeld),
            gross, comm, net, complete, if !complete then -1 else if net > 0.0 then 1 else 0)
  }

  function Aged(e: ShadowEntry, ticks: nat): ShadowEntry {
    e.(barsHeld := e.barsHeld + ticks)
  }

  predicate Due(e: ShadowEntry) {
    e.horizon > 0 && e.barsHeld >= e.horizon
  }

  /** The shadows a tick leaves open. */
  function TickOpen(open: seq<ShadowEntry>): seq<ShadowEntry> {
    if open == [] then []
    else
      var e := Aged(open[|open| - 1], 1);
      TickOpen(open[..|open| - 1]) + if Due(e) then [] else [e]
  }

  /** The outcomes a tick reports. */
  function TickResults(open: seq<ShadowEntry>, feeds: View): seq<Outcome> {
    if open == [] then []
    else
      var e := Aged(open[|open| - 1], 1);
      TickResults(open[..|open| - 1], feeds) + if Due(e) then [Record(e, feeds, true)] else []
  }

  function FlushResults(open: seq<ShadowEntry>, feeds: View): seq<Outcome> {
    seq(|open|, i requires 0 <= i < |open| => Record(open[i], feeds, false))
  }

  class ShadowLedger {
    var openShadows: seq<ShadowEntry>

    constructor ()
      ensures openShadows == []
    {
      openShadows := [];
    }

    method AddShadow(e: ShadowEntry)
      modifies this
      ensures openShadows == old(openShadows) + [e]
    {
      openShadows := openShadows + [e];
    }

    method Tick(feeds: View) returns (results: seq<Outcome>)
      modifies this
      ensures openShadows == TickOpen(old(openShadows))
      ensures results == TickResults(old(openShadows), feeds)
    {
      results := [];
      var stillOpen := [];
      ghost var was := openShadows;
      for i := 0 to |openShadows|
        invariant openShadows == was
        invariant stillOpen == TickOpen(was[..i])
        invariant results == TickResults(was[..i], feeds)
      {
        var e := openShadows[i].(barsHeld := openShadows[i].barsHeld + 1);
        assert was[..i + 1][..i] == was[..i];
        if e.horizon > 0 && e.barsHeld >= e.horizon {
          results := results + [Record(e, feeds, true)];
        } else {
          stillOpen := stillOpen + [e];
        }
      }
      assert was[..|was|] == was;
      openShadows := stillOpen;
    }

    method FlushCensored(feeds: View) returns (results: seq<Outcome>)
      modifies this
      ensures openShadows == []
      ensures results == FlushResults(old(openShadows), feeds)
    {
      results := [];
      for i := 0 to |openShadows|
        invariant openShadows == old(openShadows)
        invariant results == FlushResults(openShadows[..i], feeds)
      {
        results := results + [Record(openShadows[i], feeds, false)];
      }
      assert openShadows[..|openShadows|] == openShadows;
      openShadows := [];
    }
  }

  // ----------------------------------------------- the life of a shadow

  /** Entries whose horizon lies ahead, or that have none. */
  predicate Young(open: seq<ShadowEntry>) {
    forall i :: 0 <= i < |open| ==> open[i].horizon == 0 || open[i].barsHeld < open[i].horizon
  }

  /** The ledger after one tick for each view. */
  function OpenAfter(open: seq<ShadowEntry>, views: seq<View>): seq<ShadowEntry> {
    if views == [] then open else TickOpen(OpenAfter(open, views[..|views| - 1]))
  }

  /** Those whose horizon lies more than `n` ticks ahead, `n` ticks older. */
  function Surviving(open: seq<ShadowEntry>, n: nat): seq<ShadowEntry> {
    if open == [] then []
    else
      var e := open[|open| - 1];
      Surviving(open[..|open| - 1], n) + if e.horizon == 0 || e.barsHeld + n < e.horizon then [Aged(e, n)] else []
  }

  /** The records of those whose horizon lies exactly `n` ticks ahead. */
  function Expiring(open: seq<ShadowEntry>, n: nat, feeds: View): seq<Outcome> {
    if open == [] then []
    else
      var e := open[|open| - 1];
      Expiring(open[..|open| - 1], n, feeds)
      + if e.horizon > 0 && e.barsHeld + n == e.horizon then [Record(Aged(e, n), feeds, true)] else []
  }

  lemma TickOpenSnoc(open: seq<ShadowEntry>, e: ShadowEntry, feeds: View)
    ensures TickOpen(open + [e]) == TickOpen(open) + if Due(Aged(e, 1)) then [] else [Aged(e, 1)]
    ensures TickResults(open + [e], feeds)
         == TickResults(open, feeds) + if Due(Aged(e, 1)) then [Record(Aged(e, 1), feeds, true)] else []
  {
    assert (open + [e])[..|open|] == open;
  }

  lemma {:induction false} TickAfter(open: seq<ShadowEntry>, n: nat, feeds: View)
    requires Young(open)
    ensures TickOpen(Surviving(open, n)) == Surviving(open, n + 1)
    ensures TickResults(Surviving(open, n), feeds) == Expiring(open, n + 1, feeds)
  {
    hide Record;
    if open != [] {
      var e := open[|open| - 1];
      var init := open[..|open| - 1];
      TickAfter(init, n, feeds);
      TickOpenSnoc(Surviving(init, n), Aged(e, n), feeds);
      assert Aged(Aged(e, n), 1) == Aged(e, n + 1);
      assert Surviving(init, n) + [] == Surviving(init, n);
    }
  }

  lemma {:induction false} SurvivingNone(open: seq<ShadowEntry>)
    requires Young(open)
    ensures Surviving(open, 0) == open
  {
    if open != [] {
      SurvivingNone(open[..|open| - 1]);
      assert open[..|open| - 1] + [open[|open| - 1]] == open;
    }
  }

  /** A shadow is closed by exactly the tick at which it has been held for its horizon, no
      sooner and no later, and a shadow without a horizon by none; the others only age. */
  lemma {:induction false} ShadowLife(open: seq<ShadowEntry>, views: seq<View>, feeds: View)
    requires Young(open)
    ensures OpenAfter(open, views) == Surviving(open, |views|)
    ensures TickResults(OpenAfter(open, views), feeds) == Expiring(open, |views| + 1, feeds)
  {
    if views == [] {
      SurvivingNone(open);
    } else {
      var init := views[..|views| - 1];
      ShadowLife(open, init, feeds);
      TickAfter(open, |init|, feeds);
    }
    TickAfter(open, |views|, feeds);
  }

  /** The gross result of a shadow: what its size, positive for a buy, gains from its entry
      price to the close its feed shows now, and nothing if the feed is not there. */
  predicate Marked(e: ShadowEntry, feeds: View, r: Outcome) {
    && r.gross == (if Seen(feeds, e.dataIndex).Some? then e.size * feeds[e.dataIndex].value.close - e.size * e.entryPrice else 0.0)
    && r.commission == e.commissionPerSide + e.commissionPerSide && r.net == r.gross - r.commission
    && r.entryTime == e.entryTime
    && r.exitTime == (if Seen(feeds, e.dataIndex).Some? then feeds[e.dataIndex].value.time else 0)
  }

  /** A completed round trip of exactly the horizon, marked at its end. */
  predicate ClosesAtHorizon(e: ShadowEntry, n: nat, feeds: View, r: Outcome) {
    && r.candidateId == e.candidateId && r.kind == Shadow && r.complete
    && r.holding == e.horizon == e.barsHeld + n
    && Marked(e, feeds, r) && r.profitLabel == if r.net > 0.0 then 1 else 0
  }

  lemma RecordIs(e: ShadowEntry, feeds: View, complete: bool)
    ensures Marked(e, feeds, Record(e, feeds, complete))
  {
    var x := ExitPrice(e, feeds);
    assert (x - e.entryPrice) * e.size == e.size * x - e.size * e.entryPrice;
  }

  /** Every record a tick reports is such a round trip of one of the shadows. */
  lemma {:induction false} ExpiringIs(open: seq<ShadowEntry>, n: nat, feeds: View, k: nat)
    requires k < |Expiring(open, n, feeds)|
    ensures exists i :: 0 <= i < |open| && ClosesAtHorizon(open[i], n, feeds, Expiring(open, n, feeds)[k])
  {
    hide Marked;
    var init, e := open[..|open| - 1], open[|open| - 1];
    if k < |Expiring(init, n, feeds)| {
      ExpiringIs(init, n, feeds, k);
      var i :| 0 <= i < |init| && ClosesAtHorizon(init[i], n, feeds, Expiring(init, n, feeds)[k]);
      assert ClosesAtHorizon(open[i], n, feeds, Expiring(open, n, feeds)[k]);
    } else {
      RecordIs(Aged(e, n), feeds, true);
      MarkedAged(e, n, feeds, Expiring(open, n, feeds)[k]);
      assert ClosesAtHorizon(e, n, feeds, Expiring(open, n, feeds)[k]);
    }
  }

  lemma MarkedAged(e: ShadowEntry, n: nat, feeds: View, r: Outcome)
    ensures Marked(Aged(e, n), feeds, r) == Marked(e, feeds, r)
  {
  }

  /** What is flushed at the end is marked likewise, and has no result yet. */
  lemma FlushedIs(open: seq<ShadowEntry>, feeds: View, i: nat)
    requires i < |open|
    ensures |FlushResults(open, feeds)| == |open|
    ensures var r := FlushResults(open, feeds)[i];
            && r.candidateId == open[i].candidateId && r.kind == Censored && !r.complete && r.profitLabel == -1
            && (open[i].barsHeld < 0x1_0000_0000 ==> r.holding == open[i].barsHeld) && Marked(open[i], feeds, r)
  {
    hide Marked;
    RecordIs(open[i], feeds, false);
  }

  /** A buy and a sale of the same size have opposite gross results; a buy gains exactly if the
      price has risen. */
  lemma SidesMirror(e: ShadowEntry, feeds: View)
    requires e.size > 0.0
    ensures Record(e.(size := -e.size), feeds, true).gross == -Record(e, feeds, true).gross
    ensures Record(e, feeds, true).gross > 0.0 <==> Seen(feeds, e.dataIndex).Some? && feeds[e.dataIndex].value.close > e.entryPrice
  {
    var sold, x := e.(size := -e.size), ExitPrice(e, feeds) - e.entryPrice;
    assert ExitPrice(sold, feeds) - sold.entryPrice == x;
    assert Record(e, feeds, true).gross == x * e.size && Record(sold, feeds, true).gross == x * -e.size;
    NegativeProduct(x, e.size);
    PositiveProduct(x, e.size);
  }

  lemma NegativeProduct(x: real, y: real)
    ensures x * -y == -(x * y)
  {
  }

  lemma PositiveProduct(x: real, y: real)
    requires y > 0.0
    ensures x * y > 0.0 <==> x > 0.0
  {
    if x <= 0.0 {
      NegativeProduct(y, x);
      assert y * -x >= 0.0;
    }
  }
}
