/** The bar loop of `Cerebro::run`: which bars each feed has delivered when a strategy is
    called, and which callback it gets. */
module Cerebros {
  import opened Numbers
  import opened Intervals
  import opened IntervalLaws
  import opened Aggregation
  import opened Feeds
  import opened Gates

  datatype Callback = Prenext | Nextstart | Next

  /** How a run ends: without data, by an exception, or after the last bar. */
  datatype Outcome = Nothing | Rejected | Finished

  /** What the strategies see on one bar: bars delivered per feed, the line index of each
      feed, and the callback each strategy gets. */
  datatype BarRecord = BarRecord(delivered: seq<nat>, indices: seq<nat>, callbacks: seq<Callback>)

  /** A preloaded feed as a value. */
  datatype FeedData = FeedData(timeframe: TimeFrameCompression, rows: seq<Row>)

  // ---------------------------------------------------------- specification

  /** Bars feed `k` has delivered after master bar `b`; feed 0 is the master. */
  function DeliveredTo(plan: seq<FeedData>, k: nat, b: nat): nat
    requires k < |plan| && b < |plan[0].rows| && TimeframesOk(plan)
  {
    if k == 0 then b + 1
    else if plan[k].rows == [] then 0
    else Delivered(Ends(plan[k].rows, plan[k].timeframe), Closes(plan[0].rows, plan[0].timeframe)[..b + 1])
  }

  function DeliveredList(plan: seq<FeedData>, b: nat): seq<nat>
    requires plan != [] && b < |plan[0].rows| && TimeframesOk(plan)
  {
    seq(|plan|, k requires 0 <= k < |plan| => DeliveredTo(plan, k, b))
  }

  /** The timeframes the gate computes with are accepted by the period functions. */
  predicate TimeframesOk(plan: seq<FeedData>) {
    && (|plan| > 1 ==> Supported(plan[0].timeframe))
    && (forall k :: 1 <= k < |plan| && plan[k].rows != [] ==> Supported(plan[k].timeframe))
  }

  /** The cursor stays at 0 until the second bar is delivered. */
  function IndexFor(delivered: nat): nat {
    if delivered == 0 then 0 else delivered - 1
  }

  /** All feeds satisfy the warmup of a strategy. */
  predicate Ready(delivered: seq<nat>, warmup: seq<nat>) {
    forall k :: 0 <= k < |warmup| && k < |delivered| ==> warmup[k] <= delivered[k]
  }

  predicate ReadyAt(plan: seq<FeedData>, warmup: seq<nat>, b: nat)
    requires plan != [] && b < |plan[0].rows| && TimeframesOk(plan)
  {
    Ready(DeliveredList(plan, b), warmup)
  }

  predicate ReadyBefore(plan: seq<FeedData>, warmup: seq<nat>, b: nat)
    requires plan != [] && b <= |plan[0].rows| && TimeframesOk(plan)
  {
    exists a :: 0 <= a < b && ReadyAt(plan, warmup, a)
  }

  /** The callback of a strategy on bar `b`. */
  function CallbackAt(plan: seq<FeedData>, warmup: seq<nat>, b: nat): Callback
    requires plan != [] && b < |plan[0].rows| && TimeframesOk(plan)
  {
    if ReadyBefore(plan, warmup, b) then Next
    else if ReadyAt(plan, warmup, b) then Nextstart
    else Prenext
  }

  /** A plan that can run: see `Expected` for the reasons why one cannot. */
  predicate Runnable(plan: seq<FeedData>, warmups: seq<seq<nat>>) {
    plan != [] && plan[0].rows != [] && PlanOk(plan, warmups) && TimeframesOk(plan)
  }

  /** No context feed is finer than the master, and every warmup is feasible. */
  predicate PlanOk(plan: seq<FeedData>, warmups: seq<seq<nat>>)
    requires plan != []
  {
    && (forall k :: 1 <= k < |plan| ==> !FinerThan(plan[k].timeframe, plan[0].timeframe))
    && (forall s, k :: 0 <= s < |warmups| && 0 <= k < |plan| && k < |warmups[s]| ==> warmups[s][k] <= |plan[k].rows|)
  }

  function Expected(plan: seq<FeedData>, warmups: seq<seq<nat>>, preload: bool): Outcome {
    if plan == [] then Nothing
    else if !preload then Rejected
    else if plan[0].rows == [] then Nothing
    else if Runnable(plan, warmups) then Finished
    else Rejected
  }

  lemma ReadyBeforeStep(plan: seq<FeedData>, warmup: seq<nat>, bar: nat)
    requires plan != [] && bar < |plan[0].rows| && TimeframesOk(plan)
    ensures ReadyBefore(plan, warmup, bar + 1) <==> ReadyBefore(plan, warmup, bar) || ReadyAt(plan, warmup, bar)
  {
    hide ReadyAt;
    if ReadyAt(plan, warmup, bar) {
      assert ReadyBefore(plan, warmup, bar + 1);
    }
    if ReadyBefore(plan, warmup, bar) {
      var a :| 0 <= a < bar && ReadyAt(plan, warmup, a);
      assert ReadyBefore(plan, warmup, bar + 1);
    }
  }

  lemma NotReadyBeforeFirst(plan: seq<FeedData>, warmup: seq<nat>)
    requires plan != [] && TimeframesOk(plan)
    ensures !ReadyBefore(plan, warmup, 0)
  {
  }

  lemma ReadySteps(plan: seq<FeedData>, warmups: seq<seq<nat>>, bar: nat)
    requires plan != [] && bar < |plan[0].rows| && TimeframesOk(plan)
    ensures forall s :: 0 <= s < |warmups| ==>
              && (ReadyBefore(plan, warmups[s], bar + 1) <==> ReadyBefore(plan, warmups[s], bar) || ReadyAt(plan, warmups[s], bar))
              && !ReadyBefore(plan, warmups[s], 0)
  {
    hide ReadyBefore, ReadyAt;
    forall s | 0 <= s < |warmups|
      ensures ReadyBefore(plan, warmups[s], bar + 1) <==> ReadyBefore(plan, warmups[s], bar) || ReadyAt(plan, warmups[s], bar)
      ensures !ReadyBefore(plan, warmups[s], 0)
    {
      ReadyBeforeStep(plan, warmups[s], bar);
      NotReadyBeforeFirst(plan, warmups[s]);
    }
  }

  lemma ExecCloseOk(t: DateTime, exec: TimeFrameCompression)
    ensures ExecClose(t, exec).Ok? <==> Supported(exec)
  {
    PeriodsPartition(t, exec);
  }

  lemma CloseAt(master: FeedData, bar: nat)
    requires Supported(master.timeframe) && bar < |master.rows|
    ensures ExecClose(master.rows[bar].time, master.timeframe) == Ok(Closes(master.rows, master.timeframe)[bar])
  {
    ExecCloseOk(master.rows[bar].time, master.timeframe);
  }

  /** One more master bar opens the gate from where it stopped. */
  lemma DeliveredStep(plan: seq<FeedData>, k: nat, bar: nat)
    requires 1 <= k < |plan| && bar < |plan[0].rows| && TimeframesOk(plan) && plan[k].rows != []
    ensures var before := if bar == 0 then 0 else DeliveredTo(plan, k, bar - 1);
            && before <= |plan[k].rows|
            && DeliveredTo(plan, k, bar) ==
               Gate(Ends(plan[k].rows, plan[k].timeframe), before, Closes(plan[0].rows, plan[0].timeframe)[bar])
  {
    hide ExecClose, End;
    var closes := Closes(plan[0].rows, plan[0].timeframe);
    assert closes[..bar + 1][..bar] == closes[..bar];
  }

  /** What a run has to record for bar `b`. */
  ghost predicate Recorded(plan: seq<FeedData>, warmups: seq<seq<nat>>, record: BarRecord, b: nat) {
    && plan != [] && b < |plan[0].rows| && TimeframesOk(plan)
    && record.delivered == DeliveredList(plan, b)
    && |record.indices| == |plan|
    && (forall k :: 0 <= k < |plan| ==> record.indices[k] == IndexFor(record.delivered[k]))
    && |record.callbacks| == |warmups|
    && (forall s :: 0 <= s < |warmups| ==> record.callbacks[s] == CallbackAt(plan, warmups[s], b))
  }

  /** After bar `b` every feed has delivered as many bars as the strategy asks of it. */
  predicate WarmedUp(plan: seq<FeedData>, warmup: seq<nat>, b: nat)
    requires plan != [] && b < |plan[0].rows| && TimeframesOk(plan)
  {
    forall k :: 0 <= k < |plan| && k < |warmup| ==> DeliveredTo(plan, k, b) >= warmup[k]
  }

  /** The callbacks of a strategy come in the order prenext*, at most one nextstart, next*:
      nextstart is called on the first bar after which every feed has delivered its minimum
      period, prenext on the bars before and next on those after it. */
  lemma CallbackPhases(plan: seq<FeedData>, warmup: seq<nat>) returns (start: nat)
    requires plan != [] && TimeframesOk(plan)
    ensures start <= |plan[0].rows|
    ensures forall b :: 0 <= b < |plan[0].rows| ==>
              CallbackAt(plan, warmup, b) == if b < start then Prenext else if b == start then Nextstart else Next
    ensures forall b :: 0 <= b < start ==> !WarmedUp(plan, warmup, b)
    ensures start < |plan[0].rows| ==> WarmedUp(plan, warmup, start)
  {
    hide ReadyAt, WarmedUp;
    start := 0;
    while start < |plan[0].rows| && !ReadyAt(plan, warmup, start)
      invariant start <= |plan[0].rows|
      invariant forall a :: 0 <= a < start ==> !ReadyAt(plan, warmup, a) && !WarmedUp(plan, warmup, a)
    {
      ReadyIsWarm(plan, warmup, start);
      start := start + 1;
    }
    if start < |plan[0].rows| {
      ReadyIsWarm(plan, warmup, start);
    }
  }

  lemma ReadyIsWarm(plan: seq<FeedData>, warmup: seq<nat>, b: nat)
    requires plan != [] && b < |plan[0].rows| && TimeframesOk(plan)
    ensures ReadyAt(plan, warmup, b) <==> WarmedUp(plan, warmup, b)
  {
    hide DeliveredTo;
    assert forall k :: 0 <= k < |plan| ==> DeliveredList(plan, b)[k] == DeliveredTo(plan, k, b);
  }

  /** With a single feed nextstart is called on the bar that completes the minimum period. */
  lemma OneFeedStarts(plan: seq<FeedData>, period: nat, b: nat)
    requires |plan| == 1 && b < |plan[0].rows|
    ensures CallbackAt(plan, [period], b) ==
            if b + 1 < period then Prenext else if b + 1 == period || (period == 0 && b == 0) then Nextstart else Next
  {
    hide CallbackAt, WarmedUp;
    var start := CallbackPhases(plan, [period]);
    if start < |plan[0].rows| {
      OneFeedWarm(plan, period, start);
    }
    if b < start {
      OneFeedWarm(plan, period, b);
    } else if start > 0 {
      OneFeedWarm(plan, period, start - 1);
    }
  }

  lemma OneFeedWarm(plan: seq<FeedData>, period: nat, b: nat)
    requires |plan| == 1 && b < |plan[0].rows|
    ensures WarmedUp(plan, [period], b) <==> b + 1 >= period
  {
    assert DeliveredTo(plan, 0, b) == b + 1;
  }

  /** A plan over the vocabulary runs to its end exactly if no context feed stands before the
      master in the table and every feed holds the bars that the strategies ask of it. */
  lemma VocabularyPlanRuns(plan: seq<FeedData>, at: seq<nat>, warmups: seq<seq<nat>>)
    requires plan != [] && plan[0].rows != [] && |at| == |plan|
    requires forall k :: 0 <= k < |plan| ==> at[k] < |VOCABULARY| && plan[k].timeframe == VOCABULARY[at[k]].1
    ensures Expected(plan, warmups, true) == Finished <==>
            && (forall k :: 1 <= k < |plan| ==> at[0] <= at[k])
            && (forall s, k :: 0 <= s < |warmups| && 0 <= k < |plan| && k < |warmups[s]| ==> |plan[k].rows| >= warmups[s][k])
    ensures Expected(plan, warmups, true) != Finished ==> Expected(plan, warmups, true) == Rejected
  {
    hide FinerThan, Supported;
    forall k | 0 <= k < |plan|
      ensures Supported(plan[k].timeframe) && (FinerThan(plan[k].timeframe, plan[0].timeframe) <==> at[k] < at[0])
    {
      VocabularyOrdered(at[k], at[0]);
    }
  }

  // -------------------------------------------------- end to end, over runs

  /** Context feed `k` is the master feed resampled; the other feeds may be anything. */
  predicate FromMaster(plan: seq<FeedData>, k: nat) {
    && 1 <= k < |plan| && Supported(plan[0].timeframe) && Supported(plan[k].timeframe)
    && plan[k].rows == Resample(plan[0].rows, plan[k].timeframe)
  }

  /** Moreover the master bars are ordered and not crowded, as they are if they are at least
      one bar apart (`Gates.SpacedIsUncrowded`). */
  predicate UncrowdedFeed(plan: seq<FeedData>, k: nat) {
    FromMaster(plan, k) && Ordered(plan[0].rows) && Uncrowded(plan[0].rows, plan[0].timeframe, plan[k].timeframe)
  }

  /** The context bars delivered so far are made of master bars up to `b` only. */
  ghost predicate DeliveredArePast(plan: seq<FeedData>, k: nat, delivered: nat, b: nat)
    requires 1 <= k < |plan| && Supported(plan[k].timeframe)
  {
    && delivered <= |plan[k].rows|
    && forall i :: 0 <= i < delivered ==> MadeOfPast(plan[0].rows, plan[k].timeframe, plan[k].rows[i], i, b)
  }

  /** What was delivered is what is visible. */
  lemma DeliveredIsVisible(plan: seq<FeedData>, k: nat, b: nat)
    requires TimeframesOk(plan) && FromMaster(plan, k) && b < |plan[0].rows|
    ensures DeliveredTo(plan, k, b) <= |plan[k].rows|
    ensures Visible(plan[0].rows, plan[0].timeframe, plan[k].timeframe, b) == plan[k].rows[..DeliveredTo(plan, k, b)]
  {
    hide Closes, Ends;
  }

  lemma PastIsVisible(plan: seq<FeedData>, k: nat, b: nat)
    requires TimeframesOk(plan) && FromMaster(plan, k) && b < |plan[0].rows|
    ensures DeliveredArePast(plan, k, DeliveredTo(plan, k, b), b) <==>
            SeesPastOnly(plan[0].rows, plan[0].timeframe, plan[k].timeframe, b)
  {
    hide MadeOfPast, Supported, Visible, DeliveredTo;
    DeliveredIsVisible(plan, k, b);
    var seen := Visible(plan[0].rows, plan[0].timeframe, plan[k].timeframe, b);
    assert forall i :: 0 <= i < |seen| ==> seen[i] == plan[k].rows[i];
  }

  /** What the record of a run says of a feed. */
  lemma RecordedCount(plan: seq<FeedData>, warmups: seq<seq<nat>>, record: BarRecord, b: nat, k: nat)
    requires Recorded(plan, warmups, record, b) && k < |plan|
    ensures k < |record.delivered| && record.delivered[k] == DeliveredTo(plan, k, b)
  {
    hide DeliveredTo, CallbackAt;
  }

  /** No run looks ahead: in the record of any bar, each bar that a strategy has seen of a
      context feed resampled from the master is made of master bars up to that bar only. */
  lemma RunNeverLooksAhead(plan: seq<FeedData>, warmups: seq<seq<nat>>, record: BarRecord, b: nat, k: nat)
    requires Recorded(plan, warmups, record, b) && UncrowdedFeed(plan, k)
    ensures k < |record.delivered| && DeliveredArePast(plan, k, record.delivered[k], b)
  {
    hide DeliveredTo, Visible, CallbackAt, Supported, DeliveredArePast, SeesPastOnly, Ordered, Uncrowded;
    RecordedCount(plan, warmups, record, b, k);
    PastIsVisible(plan, k, b);
    UncrowdedSeesPast(plan[0].rows, plan[0].timeframe, plan[k].timeframe, b);
  }

  /** Exactly when a run never looks ahead through such a feed: for ordered master bars, if
      and only if none closes after the period of the next one has ended. */
  lemma RunPastOnlyIff(plan: seq<FeedData>, warmups: seq<seq<nat>>, trace: seq<BarRecord>, k: nat)
    requires FromMaster(plan, k) && Ordered(plan[0].rows) && |trace| == |plan[0].rows|
    requires forall b :: 0 <= b < |trace| ==> Recorded(plan, warmups, trace[b], b)
    ensures forall b :: 0 <= b < |trace| ==> k < |trace[b].delivered|
    ensures (forall b :: 0 <= b < |trace| ==> DeliveredArePast(plan, k, trace[b].delivered[k], b)) <==>
            Uncrowded(plan[0].rows, plan[0].timeframe, plan[k].timeframe)
  {
    hide Ordered, SeesPastOnly, Uncrowded, DeliveredArePast, DeliveredTo, Recorded, Supported;
    forall b | 0 <= b < |trace|
      ensures k < |trace[b].delivered|
      ensures DeliveredArePast(plan, k, trace[b].delivered[k], b) <==>
              SeesPastOnly(plan[0].rows, plan[0].timeframe, plan[k].timeframe, b)
    {
      RecordedFits(plan, warmups, trace[b], b);
      RecordedCount(plan, warmups, trace[b], b, k);
      PastIsVisible(plan, k, b);
    }
    NoLookaheadIff(plan[0].rows, plan[0].timeframe, plan[k].timeframe);
  }

  lemma RecordedFits(plan: seq<FeedData>, warmups: seq<seq<nat>>, record: BarRecord, b: nat)
    requires Recorded(plan, warmups, record, b)
    ensures b < |plan[0].rows| && TimeframesOk(plan)
  {
  }

  /** The master feed has delivered every bar up to the current one, on which its line stands. */
  lemma MasterIsCurrent(plan: seq<FeedData>, warmups: seq<seq<nat>>, record: BarRecord, b: nat)
    requires Recorded(plan, warmups, record, b)
    ensures |record.delivered| == |record.indices| == |plan| && record.delivered[0] == b + 1 && record.indices[0] == b
  {
    hide CallbackAt;
    RecordedCount(plan, warmups, record, b, 0);
  }

  /** Without feeds, or without master bars, nothing happens; without preloading a run is refused. */
  lemma NothingToRun(plan: seq<FeedData>, warmups: seq<seq<nat>>, preload: bool)
    ensures Expected(plan, warmups, preload) == Nothing <==> plan == [] || (preload && plan[0].rows == [])
    ensures plan != [] && !preload ==> Expected(plan, warmups, preload) == Rejected
  {
  }

  /** The gate of a run is exact: with ordered time stamps, in the record of every bar the
      count of each context feed is that of its bars whose period has ended by the close of
      the master bar, and its line stands on the last of them. */
  lemma RunCountsExact(plan: seq<FeedData>, warmups: seq<seq<nat>>, record: BarRecord, b: nat, k: nat)
    requires Recorded(plan, warmups, record, b) && 1 <= k < |plan| && plan[k].rows != []
    requires Ordered(plan[0].rows) && Ordered(plan[k].rows)
    ensures Supported(plan[0].timeframe) && Supported(plan[k].timeframe)
    ensures var count := CountUpTo(Ends(plan[k].rows, plan[k].timeframe), Closes(plan[0].rows, plan[0].timeframe)[b]);
            record.delivered[k] == count && record.indices[k] == if count > 0 then count - 1 else 0
  {
    hide Closes, Ends, Ordered, CallbackAt, Supported, Delivered, CountUpTo;
    var closes := Closes(plan[0].rows, plan[0].timeframe);
    EndsSorted(plan[k].rows, plan[k].timeframe);
    ClosesSorted(plan[0].rows, plan[0].timeframe);
    GateExact(Ends(plan[k].rows, plan[k].timeframe), closes[..b + 1]);
    assert record.delivered[k] == DeliveredTo(plan, k, b);
  }

  /** Two plans of the same timeframes whose master feeds agree up to bar `b`. */
  predicate SamePast(plan: seq<FeedData>, plan': seq<FeedData>, b: nat) {
    && |plan| == |plan'| > 0
    && (forall k :: 0 <= k < |plan| ==> plan[k].timeframe == plan'[k].timeframe)
    && b < |plan[0].rows| && b < |plan'[0].rows| && plan[0].rows[..b + 1] == plan'[0].rows[..b + 1]
  }

  /** The leading bars of a context feed that have ended by an instant. */
  function Ended(plan: seq<FeedData>, k: nat, close: int): seq<Row>
    requires 1 <= k < |plan| && TimeframesOk(plan)
  {
    if plan[k].rows == [] then [] else plan[k].rows[..Gate(Ends(plan[k].rows, plan[k].timeframe), 0, close)]
  }

  /** A context feed that two plans share up to bar `b`: resampled from the master in both,
      or of any origin, with the same bars as far as they have ended by the close of `b`. */
  predicate SameContext(plan: seq<FeedData>, plan': seq<FeedData>, k: nat, b: nat)
    requires SamePast(plan, plan', b) && 1 <= k < |plan| && TimeframesOk(plan) && TimeframesOk(plan')
  {
    || (UncrowdedFeed(plan, k) && UncrowdedFeed(plan', k))
    || (&& Ordered(plan[0].rows)
        && var close := Closes(plan[0].rows, plan[0].timeframe)[b]; Ended(plan, k, close) == Ended(plan', k, close))
  }

  lemma SameMaster(plan: seq<FeedData>, plan': seq<FeedData>, a: nat, b: nat)
    requires SamePast(plan, plan', b) && |plan| > 1 && TimeframesOk(plan) && TimeframesOk(plan') && a <= b
    ensures plan[0].timeframe == plan'[0].timeframe && Supported(plan[0].timeframe)
    ensures plan[0].rows[..a + 1] == plan'[0].rows[..a + 1]
    ensures Closes(plan[0].rows, plan[0].timeframe)[..a + 1] == Closes(plan'[0].rows, plan[0].timeframe)[..a + 1]
  {
    hide ExecClose, Supported;
    assert plan[0].rows[..b + 1][..a + 1] == plan[0].rows[..a + 1];
    assert plan'[0].rows[..b + 1][..a + 1] == plan'[0].rows[..a + 1];
    assert forall i :: 0 <= i <= a ==> plan[0].rows[i] == plan[0].rows[..a + 1][i] == plan'[0].rows[i];
  }

  /** How many of the bars that have ended by some close have ended by an earlier one. */
  function CountEnded(ended: seq<Row>, tfc: TimeFrameCompression, close: int): nat
    requires ended != [] ==> Supported(tfc)
  {
    if ended == [] then 0 else Gate(Ends(ended, tfc), 0, close)
  }

  /** The count of a feed of any origin is computed from the bars that have ended. */
  lemma EndedDecides(plan: seq<FeedData>, k: nat, a: nat, b: nat)
    requires TimeframesOk(plan) && 1 <= k < |plan| && a <= b < |plan[0].rows|
    requires Sorted(Closes(plan[0].rows, plan[0].timeframe)[..b + 1])
    ensures var closes := Closes(plan[0].rows, plan[0].timeframe);
            var ended := Ended(plan, k, closes[b]);
            && (ended != [] ==> Supported(plan[k].timeframe))
            && DeliveredTo(plan, k, a) == CountEnded(ended, plan[k].timeframe, closes[a])
  {
    hide ExecClose, End, Supported;
    if plan[k].rows != [] {
      var closes := Closes(plan[0].rows, plan[0].timeframe);
      var ends := Ends(plan[k].rows, plan[k].timeframe);
      assert closes[..b + 1][a] == closes[a] && closes[..b + 1][b] == closes[b];
      assert closes[..a + 1] == closes[..b + 1][..a + 1];
      DeliveredAtOnce(ends, closes[..a + 1]);
      var n := Gate(ends, 0, closes[b]);
      GateMonotone(ends, 0, closes[a], closes[b]);
      assert Ends(plan[k].rows[..n], plan[k].timeframe) == ends[..n];
      GatePrefix(ends[..n], ends, 0, closes[a]);
    }
  }

  lemma SameDeliveredAt(plan: seq<FeedData>, plan': seq<FeedData>, k: nat, a: nat, b: nat)
    requires SamePast(plan, plan', b) && TimeframesOk(plan) && TimeframesOk(plan') && a <= b && 1 <= k < |plan|
    requires SameContext(plan, plan', k, b)
    ensures DeliveredTo(plan, k, a) == DeliveredTo(plan', k, a)
  {
    hide Visible, DeliveredTo, Gate, Closes, Ends, Ordered, Uncrowded, Supported, Resample;
    SameMaster(plan, plan', a, b);
    SameMaster(plan, plan', b, b);
    if UncrowdedFeed(plan, k) && UncrowdedFeed(plan', k) {
      DeliveredIsVisible(plan, k, a);
      DeliveredIsVisible(plan', k, a);
      FutureIsInvisible(plan[0].rows, plan'[0].rows, plan[0].timeframe, plan[k].timeframe, a);
    } else {
      var closes, closes' := Closes(plan[0].rows, plan[0].timeframe), Closes(plan'[0].rows, plan[0].timeframe);
      assert closes[a] == closes[..b + 1][a] == closes'[a] && closes[b] == closes[..b + 1][b] == closes'[b];
      ClosesSorted(plan[0].rows, plan[0].timeframe);
      EndedDecides(plan, k, a, b);
      EndedDecides(plan', k, a, b);
    }
  }

  lemma SameDelivered(plan: seq<FeedData>, plan': seq<FeedData>, a: nat, b: nat)
    requires SamePast(plan, plan', b) && TimeframesOk(plan) && TimeframesOk(plan') && a <= b
    requires forall k :: 1 <= k < |plan| ==> SameContext(plan, plan', k, b)
    ensures DeliveredList(plan, a) == DeliveredList(plan', a)
  {
    hide SameContext, Supported, Delivered;
    forall k | 0 <= k < |plan| ensures DeliveredTo(plan, k, a) == DeliveredTo(plan', k, a) {
      if k > 0 {
        SameDeliveredAt(plan, plan', k, a, b);
      }
    }
  }

  /** A run cannot tell the future: what it records for bar `b` is the same for any two
      data sets that agree up to `b`, down to the callbacks of the strategies. */
  lemma RecordsAreCausal(plan: seq<FeedData>, plan': seq<FeedData>, warmups: seq<seq<nat>>, r: BarRecord, r': BarRecord, b: nat)
    requires SamePast(plan, plan', b) && Recorded(plan, warmups, r, b) && Recorded(plan', warmups, r', b)
    requires forall k :: 1 <= k < |plan| ==> SameContext(plan, plan', k, b)
    ensures r == r'
  {
    hide SamePast, SameContext, DeliveredList, Ready;
    SamePastLength(plan, plan', b);
    forall a | 0 <= a <= b ensures DeliveredList(plan, a) == DeliveredList(plan', a) {
      SameDelivered(plan, plan', a, b);
    }
    forall s | 0 <= s < |warmups| ensures CallbackAt(plan, warmups[s], b) == CallbackAt(plan', warmups[s], b) {
      assert forall a :: 0 <= a <= b ==> (ReadyAt(plan, warmups[s], a) <==> ReadyAt(plan', warmups[s], a));
    }
    assert r.indices == r'.indices && r.callbacks == r'.callbacks;
  }

  lemma SamePastLength(plan: seq<FeedData>, plan': seq<FeedData>, b: nat)
    requires SamePast(plan, plan', b)
    ensures |plan| == |plan'|
  {
  }

  // ------------------------------------------------------------- the engine

  class Cerebro {
    const feeds: seq<DataFeed>
    const warmups: seq<seq<nat>> // minimum period per strategy and feed

    constructor (feeds: seq<DataFeed>, warmups: seq<seq<nat>>)
      ensures this.feeds == feeds && this.warmups == warmups
    {
      this.feeds, this.warmups := feeds, warmups;
    }

    ghost predicate Valid() {
      && (forall i, j :: 0 <= i < j < |feeds| ==> feeds[i] != feeds[j])
      && (forall s :: 0 <= s < |warmups| ==> |warmups[s]| == |feeds|)
    }

    function Plan(): seq<FeedData>
      reads feeds
    {
      seq(|feeds|, k requires 0 <= k < |feeds| reads feeds => FeedData(feeds[k].timeframe, feeds[k].rows))
    }

    /** The inner loop of the gate for one context feed. */
    method AdvanceContext(feed: DataFeed, cursor: nat, delivered: nat, close: int) returns (ok: bool, cursor': nat, delivered': nat)
      requires cursor == delivered <= |feed.rows| && feed.idx == IndexFor(delivered)
      modifies feed`idx
      ensures ok <==> cursor == |feed.rows| || Supported(feed.timeframe)
      ensures ok ==> cursor' == delivered' && feed.idx == IndexFor(delivered')
      ensures ok && cursor < |feed.rows| ==>
                cursor' == Gate(Ends(feed.rows, feed.timeframe), cursor, close)
      ensures ok && cursor == |feed.rows| ==> cursor' == cursor
    {
      hide End, PeriodEnd;
      cursor', delivered' := cursor, delivered;
      while cursor' < |feed.rows|
        invariant cursor <= cursor' == delivered' <= |feed.rows| && feed.idx == IndexFor(delivered')
        invariant cursor' > cursor ==> Supported(feed.timeframe)
        invariant Supported(feed.timeframe) ==>
                    var ends := Ends(feed.rows, feed.timeframe); Gate(ends, cursor', close) == Gate(ends, cursor, close)
      {
        PeriodsPartition(feed.rows[cursor'].time, feed.timeframe);
        var barEnd := PeriodEnd(feed.rows[cursor'].time, feed.timeframe);
        if barEnd == InvalidArgument {
          return false, cursor', delivered';
        }
        if barEnd.value <= close {
          if delivered' > 0 {
            feed.Advance();
          }
          delivered' := delivered' + 1;
          cursor' := cursor' + 1;
        } else {
          break;
        }
      }
      ok := true;
    }

    /** What a feed has delivered when its gate stops. */
    function Opened(k: nat, delivered: nat, close: int): nat
      requires k < |feeds| && delivered <= |feeds[k].rows|
      reads feeds
    {
      if feeds[k].rows == [] || !Supported(feeds[k].timeframe) then delivered
      else Gate(Ends(feeds[k].rows, feeds[k].timeframe), delivered, close)
    }

    /** The cursors and counters of the context feeds agree with the feeds. */
    ghost predicate InStep(cursors: seq<nat>, delivered: seq<nat>)
      reads feeds
    {
      && |cursors| == |delivered| == |feeds|
      && forall k :: 1 <= k < |feeds| ==>
           cursors[k] == delivered[k] <= |feeds[k].rows| && feeds[k].idx == IndexFor(delivered[k])
    }

    /** The gated advance of all context feeds on one master bar. */
    method OpenGate(close: int, cursors: seq<nat>, delivered: seq<nat>) returns (ok: bool, cursors': seq<nat>, delivered': seq<nat>)
      requires Valid() && InStep(cursors, delivered)
      modifies feeds
      ensures forall k :: 0 <= k < |feeds| ==> feeds[k].rows == old(feeds[k].rows)
      ensures |feeds| > 0 ==> feeds[0].idx == old(feeds[0].idx)
      ensures ok && |feeds| > 0 ==> |delivered'| == |feeds| && delivered'[0] == delivered[0]
      ensures ok <==> forall k :: 1 <= k < |feeds| ==> delivered[k] == |feeds[k].rows| || Supported(feeds[k].timeframe)
      ensures ok ==> InStep(cursors', delivered')
      ensures ok ==> forall k :: 1 <= k < |feeds| ==> delivered'[k] == Opened(k, delivered[k], close)
    {
      hide Gate;
      cursors', delivered' := cursors, delivered;
      var k := 1;
      while k < |feeds|
        invariant k >= 1 && |cursors'| == |delivered'| == |feeds|
        invariant forall j :: 0 <= j < |feeds| ==> feeds[j].rows == old(feeds[j].rows)
        invariant forall j :: 0 <= j < |feeds| && (j == 0 || k <= j) ==>
                    cursors'[j] == cursors[j] && delivered'[j] == delivered[j] && feeds[j].idx == old(feeds[j].idx)
        invariant forall j :: 1 <= j < k && j < |feeds| ==>
                    && (delivered[j] == |feeds[j].rows| || Supported(feeds[j].timeframe))
                    && cursors'[j] == delivered'[j] == Opened(j, delivered[j], close)
                    && delivered'[j] <= |feeds[j].rows| && feeds[j].idx == IndexFor(delivered'[j])
      {
        if delivered[k] == |feeds[k].rows| {
          GateAtEnd(feeds[k], delivered[k], close);
        }
        var good, c, d := AdvanceContext(feeds[k], cursors'[k], delivered'[k], close);
        if !good {
          return false, cursors', delivered';
        }
        cursors' := cursors'[k := c];
        delivered' := delivered'[k := d];
        k := k + 1;
      }
      ok := true;
    }

    /** The lifecycle callbacks of one bar; `entered` remembers who has reached `next`. */
    method CallStrategies(delivered: seq<nat>, entered: seq<bool>) returns (callbacks: seq<Callback>, entered': seq<bool>)
      requires Valid() && |entered| == |warmups| && |delivered| == |feeds|
      ensures |callbacks| == |entered'| == |warmups|
      ensures forall s :: 0 <= s < |warmups| ==>
                && entered'[s] == (entered[s] || Ready(delivered, warmups[s]))
                && callbacks[s] == if entered[s] then Next else if Ready(delivered, warmups[s]) then Nextstart else Prenext
    {
      callbacks, entered' := [], entered;
      var s := 0;
      while s < |warmups|
        invariant s == |callbacks| <= |warmups| == |entered'|
        invariant entered'[s..] == entered[s..]
        invariant forall r :: 0 <= r < s ==>
                    && entered'[r] == (entered[r] || Ready(delivered, warmups[r]))
                    && callbacks[r] == if entered[r] then Next else if Ready(delivered, warmups[r]) then Nextstart else Prenext
      {
        assert entered'[s..][0] == entered[s];
        if entered'[s] {
          callbacks := callbacks + [Next];
        } else {
          var ready := IsReady(delivered, warmups[s]);
          if ready {
            entered' := entered'[s := true];
            callbacks := callbacks + [Nextstart];
          } else {
            callbacks := callbacks + [Prenext];
          }
        }
        s := s + 1;
      }
    }

    method IsReady(delivered: seq<nat>, warmup: seq<nat>) returns (ready: bool)
      requires |delivered| == |warmup|
      ensures ready == Ready(delivered, warmup)
    {
      var k := 0;
      while k < |warmup|
        invariant k <= |warmup|
        invariant forall j :: 0 <= j < k ==> warmup[j] <= delivered[j]
      {
        if delivered[k] < warmup[k] {
          return false;
        }
        k := k + 1;
      }
      ready := true;
    }

    /** The checks before the loop: no context feed finer than the master, and every
        warmup feasible. */
    method CheckPlan() returns (ok: bool)
      requires Valid() && feeds != []
      ensures ok <==> PlanOk(Plan(), warmups)
    {
      var k := 1;
      while k < |feeds|
        invariant k >= 1
        invariant forall j :: 1 <= j < k && j < |feeds| ==> !FinerThan(feeds[j].timeframe, feeds[0].timeframe)
      {
        assert Plan()[k].timeframe == feeds[k].timeframe && Plan()[0].timeframe == feeds[0].timeframe;
        if FinerThan(feeds[k].timeframe, feeds[0].timeframe) {
          return false;
        }
        k := k + 1;
      }
      var s := 0;
      while s < |warmups|
        invariant s <= |warmups|
        invariant forall r, j :: 0 <= r < s && 0 <= j < |feeds| ==> warmups[r][j] <= |feeds[j].rows|
      {
        k := 0;
        while k < |feeds|
          invariant k <= |feeds|
          invariant forall j :: 0 <= j < k ==> warmups[s][j] <= |feeds[j].rows|
        {
          assert Plan()[k].rows == feeds[k].rows;
          if warmups[s][k] > |feeds[k].rows| {
            return false;
          }
          k := k + 1;
        }
        s := s + 1;
      }
      ok := true;
    }

    /** The bookkeeping of the loop at the start of bar `bar`. */
    ghost predicate AtBar(bar: nat, cursors: seq<nat>, delivered: seq<nat>, entered: seq<bool>)
      reads feeds
    {
      var plan := Plan();
      && Valid() && feeds != [] && bar <= |feeds[0].rows|
      && InStep(cursors, delivered)
      && (bar < |feeds[0].rows| ==> feeds[0].idx == bar)
      && |entered| == |warmups|
      && (bar == 0 ==> forall k :: 1 <= k < |feeds| ==> delivered[k] == 0)
      && (bar > 0 ==> TimeframesOk(plan) && forall k :: 1 <= k < |feeds| ==> delivered[k] == DeliveredTo(plan, k, bar - 1))
      && (forall s :: 0 <= s < |warmups| ==>
            entered[s] == (bar > 0 && TimeframesOk(plan) && ReadyBefore(plan, warmups[s], bar)))
    }

    /** The gated advance on bar `bar`. */
    method AdvanceFeeds(bar: nat, cursors: seq<nat>, delivered: seq<nat>, ghost entered: seq<bool>)
      returns (ok: bool, cursors': seq<nat>, delivered': seq<nat>)
      requires AtBar(bar, cursors, delivered, entered) && bar < |feeds[0].rows|
      modifies feeds
      ensures Plan() == old(Plan()) && feeds[0].idx == old(feeds[0].idx)
      ensures ok <==> TimeframesOk(Plan())
      ensures ok ==> InStep(cursors', delivered') && delivered' == DeliveredList(Plan(), bar) && delivered'[0] == bar + 1
    {
      hide Gate, Ends, Closes, Supported, ExecClose, End;
      ghost var plan := Plan();
      cursors', delivered' := cursors, delivered[0 := bar + 1];
      if |feeds| > 1 {
        ExecCloseOk(feeds[0].rows[bar].time, feeds[0].timeframe);
        var close := ExecClose(feeds[0].At(0).value.time, feeds[0].timeframe);
        if close == InvalidArgument {
          return false, cursors', delivered';
        }
        ok, cursors', delivered' := OpenGate(close.value, cursors', delivered');
        assert Plan() == plan;
        if !ok {
          return;
        }
        forall k | 1 <= k < |feeds| ensures delivered'[k] == DeliveredTo(plan, k, bar) {
          CloseAt(plan[0], bar);
          if plan[k].rows != [] {
            DeliveredStep(plan, k, bar);
          }
        }
      }
      assert delivered' == DeliveredList(plan, bar);
      ok := true;
    }

    /** One iteration of the bar loop, up to the strategies' callbacks, and the advance of
        the master feed. */
    method ProcessBar(bar: nat, cursors: seq<nat>, delivered: seq<nat>, entered: seq<bool>)
      returns (ok: bool, cursors': seq<nat>, delivered': seq<nat>, entered': seq<bool>, record: BarRecord)
      requires AtBar(bar, cursors, delivered, entered) && bar < |feeds[0].rows|
      modifies feeds
      ensures Plan() == old(Plan())
      ensures ok <==> TimeframesOk(Plan())
      ensures ok ==> Recorded(Plan(), warmups, record, bar) && AtBar(bar + 1, cursors', delivered', entered')
    {
      hide DeliveredTo, ReadyBefore;
      ghost var plan := Plan();
      entered', record := entered, BarRecord([], [], []);
      ok, cursors', delivered' := AdvanceFeeds(bar, cursors, delivered, entered);
      if !ok {
        return;
      }
      var callbacks;
      callbacks, entered' := CallStrategies(delivered', entered');
      record := BarRecord(delivered', Indices(), callbacks);
      ReadySteps(plan, warmups, bar);
      assert Recorded(plan, warmups, record, bar);
      if bar + 1 < |feeds[0].rows| {
        feeds[0].Advance();
      }
      assert Plan() == plan;
    }

    /** The line indices of the feeds. */
    function Indices(): seq<nat>
      reads feeds
    {
      seq(|feeds|, k requires 0 <= k < |feeds| reads feeds => feeds[k].idx)
    }

    method Run(preload: bool) returns (outcome: Outcome, trace: seq<BarRecord>)
      requires Valid()
      modifies feeds
      ensures Plan() == old(Plan())
      ensures outcome == Expected(Plan(), warmups, preload)
      ensures outcome == Finished ==> |trace| == |feeds[0].rows| && forall b :: 0 <= b < |trace| ==> Recorded(Plan(), warmups, trace[b], b)
    {
      hide Recorded, TimeframesOk, PlanOk, AtBar;
      trace := [];
      if |feeds| == 0 {
        return Nothing, trace;
      }
      if !preload {
        return Rejected, trace;
      }
      SendHome();
      if |feeds[0].rows| == 0 {
        return Nothing, trace;
      }
      var checked := CheckPlan();
      if !checked {
        return Rejected, trace;
      }
      var cursors := seq(|feeds|, i => 0);
      var delivered := seq(|feeds|, i => 0);
      var entered := seq(|warmups|, i => false);
      assert AtBar(0, cursors, delivered, entered) by { AtBarZero(cursors, delivered, entered); }
      var bar := 0;
      ghost var master := feeds[0].rows;
      assert Plan()[0].rows == master;
      while bar < |feeds[0].rows|
        invariant Plan() == old(Plan()) && feeds[0].rows == master && bar == |trace| <= |feeds[0].rows|
        invariant AtBar(bar, cursors, delivered, entered)
        invariant forall b :: 0 <= b < bar ==> Recorded(Plan(), warmups, trace[b], b)
        invariant bar > 0 ==> TimeframesOk(Plan())
      {
        var ok, record;
        ok, cursors, delivered, entered, record := ProcessBar(bar, cursors, delivered, entered);
        assert Plan()[0].rows == feeds[0].rows;
        if !ok {
          return Rejected, trace;
        }
        trace := trace + [record];
        bar := bar + 1;
      }
      outcome := Finished;
    }

    lemma AtBarZero(cursors: seq<nat>, delivered: seq<nat>, entered: seq<bool>)
      requires Valid() && feeds != [] && forall k :: 0 <= k < |feeds| ==> feeds[k].idx == 0
      requires |cursors| == |delivered| == |feeds| && forall k :: 0 <= k < |feeds| ==> cursors[k] == delivered[k] == 0
      requires |entered| == |warmups| && forall s :: 0 <= s < |warmups| ==> !entered[s]
      ensures AtBar(0, cursors, delivered, entered)
    {
    }

    /** `preload` leaves every feed at its first row. */
    method SendHome()
      requires Valid()
      modifies feeds
      ensures Plan() == old(Plan())
      ensures forall k :: 0 <= k < |feeds| ==> feeds[k].idx == 0 && feeds[k].rows == old(feeds[k].rows)
    {
      var k := 0;
      while k < |feeds|
        invariant k <= |feeds|
        invariant forall j :: 0 <= j < |feeds| ==> feeds[j].rows == old(feeds[j].rows)
        invariant forall j :: 0 <= j < k ==> feeds[j].idx == 0
      {
        feeds[k].Home();
        k := k + 1;
      }
    }

    lemma GateAtEnd(feed: DataFeed, delivered: nat, close: int)
      requires delivered == |feed.rows|
      ensures Supported(feed.timeframe) ==> Gate(Ends(feed.rows, feed.timeframe), delivered, close) == delivered
    {
    }
  }
}
