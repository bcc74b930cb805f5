/** The timestamp gate of the multi-clock loop (`Cerebro::run`): a context bar becomes
    visible when its period has closed by the close of the master bar. */
module Gates {
  import opened Numbers
  import opened Intervals
  import opened IntervalLaws
  import opened Aggregation

  /** The inner `while`: where the cursor of a context feed stops. */
  function Gate(ends: seq<int>, cursor: nat, close: int): (r: nat)
    requires cursor <= |ends|
    ensures cursor <= r <= |ends|
    ensures forall i :: cursor <= i < r ==> ends[i] <= close
    ensures r < |ends| ==> close < ends[r]
    decreases |ends| - cursor
  {
    if cursor < |ends| && ends[cursor] <= close then Gate(ends, cursor + 1, close) else cursor
  }

  /** Context bars delivered after master bars with the given closes. */
  function Delivered(ends: seq<int>, closes: seq<int>): (r: nat)
    ensures r <= |ends|
  {
    if closes == [] then 0
    else Gate(ends, Delivered(ends, closes[..|closes| - 1]), closes[|closes| - 1])
  }

  /** The close of a master bar (`compute_exec_close` of a plan with context feeds). */
  function ExecClose(t: DateTime, exec: TimeFrameCompression): Checked<DateTime> {
    if exec.unit in {Weeks, Months} then PeriodEnd(t, exec)
    else match DurationOf(exec)
      case Ok(span) => Ok(t + span * SECOND)
      case InvalidArgument => InvalidArgument
  }

  // ------------------------------------------------------- the gate is exact

  predicate Sorted(s: seq<int>) {
    forall i, j :: 0 <= i < j < |s| ==> s[i] <= s[j]
  }

  function CountUpTo(ends: seq<int>, close: int): nat {
    if ends == [] then 0
    else CountUpTo(ends[..|ends| - 1], close) + if ends[|ends| - 1] <= close then 1 else 0
  }

  lemma {:induction false} CountSorted(ends: seq<int>, close: int, d: nat)
    requires d <= |ends| && forall i :: 0 <= i < |ends| ==> (i < d <==> ends[i] <= close)
    ensures CountUpTo(ends, close) == d
  {
    if ends != [] {
      var n := |ends| - 1;
      CountSorted(ends[..n], close, if d <= n then d else n);
    }
  }

  /** With non-decreasing time stamps, after every master bar exactly the context bars
      whose period has ended by its close have been delivered. */
  lemma {:induction false} GateExact(ends: seq<int>, closes: seq<int>)
    requires Sorted(ends) && Sorted(closes) && closes != []
    ensures forall i :: 0 <= i < |ends| ==> (i < Delivered(ends, closes) <==> ends[i] <= closes[|closes| - 1])
    ensures Delivered(ends, closes) == CountUpTo(ends, closes[|closes| - 1])
  {
    var n := |closes| - 1;
    if n > 0 {
      GateExact(ends, closes[..n]);
    }
    var d := Delivered(ends, closes);
    forall i | 0 <= i < |ends| ensures i < d <==> ends[i] <= closes[n] {
      var before := Delivered(ends, closes[..n]);
      assert d == Gate(ends, before, closes[n]);
      if i < before {
        assert closes[..n][n - 1] <= closes[n];
      } else if i >= d {
        assert closes[n] < ends[d] <= ends[i];
      }
    }
    CountSorted(ends, closes[n], d);
  }

  /** Whatever the order of the time stamps, a delivered bar had ended by the close of some
      master bar already seen. */
  lemma {:induction false} DeliveredHasEnded(ends: seq<int>, closes: seq<int>, i: nat) returns (b: nat)
    requires i < Delivered(ends, closes)
    ensures b < |closes| && ends[i] <= closes[b]
  {
    var n := |closes| - 1;
    if i < Delivered(ends, closes[..n]) {
      b := DeliveredHasEnded(ends, closes[..n], i);
    } else {
      b := n;
    }
  }

  lemma {:induction false} GateMonotone(ends: seq<int>, cursor: nat, close: int, later: int)
    requires cursor <= |ends| && close <= later
    ensures Gate(ends, cursor, close) <= Gate(ends, cursor, later)
    ensures Gate(ends, Gate(ends, cursor, close), later) == Gate(ends, cursor, later)
    decreases |ends| - cursor
  {
    if cursor < |ends| && ends[cursor] <= close {
      GateMonotone(ends, cursor + 1, close, later);
    }
  }

  /** With non-decreasing closes the gate might as well be opened once, at the last one. */
  lemma {:induction false} DeliveredAtOnce(ends: seq<int>, closes: seq<int>)
    requires Sorted(closes) && closes != []
    ensures Delivered(ends, closes) == Gate(ends, 0, closes[|closes| - 1])
  {
    var n := |closes| - 1;
    if n > 0 {
      DeliveredAtOnce(ends, closes[..n]);
      GateMonotone(ends, 0, closes[n - 1], closes[n]);
    } else {
      assert closes[..0] == [];
    }
  }

  lemma DeliveredGrows(ends: seq<int>, closes: seq<int>)
    requires closes != []
    ensures Delivered(ends, closes[..|closes| - 1]) <= Delivered(ends, closes)
  {
  }

  // --------------------------------------------------- no look-ahead, causal

  function Closes(rows: seq<Row>, exec: TimeFrameCompression): (c: seq<int>)
    requires Supported(exec)
    ensures |c| == |rows|
  {
    seq(|rows|, b requires 0 <= b < |rows| =>
      match ExecClose(rows[b].time, exec) case Ok(t) => t case InvalidArgument => rows[b].time)
  }

  function Ends(rows: seq<Row>, tfc: TimeFrameCompression): (e: seq<int>)
    requires Supported(tfc)
    ensures |e| == |rows|
  {
    seq(|rows|, i requires 0 <= i < |rows| => End(rows[i].time, tfc))
  }

  lemma CloseAfterOpen(t: DateTime, exec: TimeFrameCompression)
    requires Supported(exec)
    ensures ExecClose(t, exec).Ok? && t < ExecClose(t, exec).value
  {
    PeriodsPartition(t, exec);
    if exec.unit in {Minutes, Days} {
      SpanPositive(exec);
    }
  }

  /** A master bar closes one period after it opens, so a bar that opens a period closes at the end
      of it. */
  lemma ExecCloseIs(t: DateTime, exec: TimeFrameCompression)
    requires Supported(exec)
    ensures ExecClose(t, exec) ==
            Ok(if exec.unit == Weeks || exec.unit == Months then End(t, exec) else t + (End(t, exec) - Start(t, exec)))
    ensures Start(t, exec) == t ==> ExecClose(t, exec) == Ok(End(t, exec))
  {
    PeriodsPartition(t, exec);
    PeriodLength(t, exec);
  }

  /** Master bars are at least one bar apart: each opens when the one before it has closed. */
  predicate Spaced(rows: seq<Row>, exec: TimeFrameCompression)
    requires Supported(exec)
  {
    forall b :: 0 <= b < |rows| - 1 ==> Closes(rows, exec)[b] <= rows[b + 1].time
  }

  lemma {:induction false} SpacedOrder(rows: seq<Row>, exec: TimeFrameCompression, a: nat, b: nat)
    requires Supported(exec) && Spaced(rows, exec) && a < b < |rows|
    ensures Closes(rows, exec)[a] <= rows[b].time
    decreases b
  {
    hide ExecClose;
    assert Closes(rows, exec)[b - 1] <= rows[b - 1 + 1].time;
    if a < b - 1 {
      SpacedOrder(rows, exec, a, b - 1);
      CloseAfterOpen(rows[b - 1].time, exec);
      assert Closes(rows, exec)[b - 1] == ExecClose(rows[b - 1].time, exec).value;
    }
  }

  /** The context bars a strategy has seen after master bar `b`, when the context feed is
      the master feed resampled. */
  function Visible(rows: seq<Row>, exec: TimeFrameCompression, ctx: TimeFrameCompression, b: nat): seq<Row>
    requires Supported(exec) && Supported(ctx) && b < |rows|
  {
    var context := Resample(rows, ctx);
    context[..Delivered(Ends(context, ctx), Closes(rows, exec)[..b + 1])]
  }

  /** Row `i` of the resampled feed folds master bars with index at most `b` only, and is
      their summary. */
  ghost predicate MadeOfPast(rows: seq<Row>, ctx: TimeFrameCompression, row: Row, i: nat, b: nat)
    requires Supported(ctx)
  {
    var keys := PeriodKeys(rows, ctx);
    && i < |RunStarts(keys)| && RunStarts(keys)[i] < RunEnd(keys, i) <= |rows| && RunEnd(keys, i) <= b + 1
    && Summarizes(row.bar, Bars(rows)[RunStarts(keys)[i]..RunEnd(keys, i)])
  }

  /** A period ends when the period of its start ends, after all its instants. */
  lemma EndOfStart(t: DateTime, tfc: TimeFrameCompression)
    requires Supported(tfc)
    ensures t < End(t, tfc) == End(Start(t, tfc), tfc)
  {
    hide GridStart, PeriodIndex;
    GridBrackets(t, tfc);
    IndexOfStart(PeriodIndex(t, tfc), tfc);
  }

  lemma {:induction false} RunStartsPrefix(keys: seq<int>, m: nat)
    requires m <= |keys|
    ensures RunStarts(keys[..m]) <= RunStarts(keys)
    decreases |keys|
  {
    if m == |keys| {
      assert keys[..m] == keys;
    } else {
      RunStartsPrefix(keys[..|keys| - 1], m);
      assert keys[..|keys| - 1][..m] == keys[..m];
    }
  }

  lemma {:induction false} GatePrefix(e: seq<int>, ends: seq<int>, cursor: nat, close: int)
    requires e <= ends && cursor <= |e| && Gate(ends, cursor, close) <= |e|
    ensures Gate(e, cursor, close) == Gate(ends, cursor, close)
    decreases |e| - cursor
  {
    if cursor < |e| && e[cursor] <= close {
      GatePrefix(e, ends, cursor + 1, close);
    }
  }

  lemma {:induction false} DeliveredPrefix(e: seq<int>, ends: seq<int>, closes: seq<int>)
    requires e <= ends && Delivered(ends, closes) <= |e|
    ensures Delivered(e, closes) == Delivered(ends, closes)
  {
    if closes != [] {
      var n := |closes| - 1;
      DeliveredGrows(ends, closes);
      DeliveredPrefix(e, ends, closes[..n]);
      GatePrefix(e, ends, Delivered(ends, closes[..n]), closes[n]);
    }
  }

  // --------------------------------------------- the exact condition

  /** Time stamps do not decrease. */
  predicate Ordered(rows: seq<Row>) {
    forall i, j :: 0 <= i < j < |rows| ==> rows[i].time <= rows[j].time
  }

  lemma EndsSorted(rows: seq<Row>, tfc: TimeFrameCompression)
    requires Supported(tfc) && Ordered(rows)
    ensures Sorted(Ends(rows, tfc))
  {
    hide End, Start;
    forall i, j | 0 <= i < j < |rows| ensures End(rows[i].time, tfc) <= End(rows[j].time, tfc) {
      StartMonotone(rows[i].time, rows[j].time, tfc);
    }
  }

  lemma CloseMonotone(t: DateTime, u: DateTime, exec: TimeFrameCompression)
    requires Supported(exec) && t <= u
    ensures ExecClose(t, exec).Ok? && ExecClose(u, exec).Ok? && ExecClose(t, exec).value <= ExecClose(u, exec).value
  {
    hide End, Start, PeriodEnd;
    PeriodsPartition(t, exec);
    PeriodsPartition(u, exec);
    StartMonotone(t, u, exec);
    CloseAfterOpen(t, exec);
    CloseAfterOpen(u, exec);
  }

  lemma ClosesSorted(rows: seq<Row>, exec: TimeFrameCompression)
    requires Supported(exec) && Ordered(rows)
    ensures Sorted(Closes(rows, exec))
  {
    hide ExecClose;
    forall i, j | 0 <= i < j < |rows| ensures Closes(rows, exec)[i] <= Closes(rows, exec)[j] {
      CloseMonotone(rows[i].time, rows[j].time, exec);
    }
  }

  /** The run that a bar belongs to. */
  lemma {:induction false} RunOf(keys: seq<int>, x: nat) returns (j: nat)
    requires x < |keys|
    ensures j < |RunStarts(keys)| && RunStarts(keys)[j] <= x < RunEnd(keys, j)
    decreases |keys|
  {
    var n := |keys| - 1;
    if x == n {
      j := |RunStarts(keys)| - 1;
    } else {
      j := RunOf(keys[..n], x);
    }
  }

  lemma {:induction false} RunStartsIncrease(keys: seq<int>, i: nat, j: nat)
    requires i < j < |RunStarts(keys)|
    ensures RunStarts(keys)[i] < RunStarts(keys)[j]
    decreases j
  {
    RunCut(keys, j - 1);
    if i < j - 1 {
      RunStartsIncrease(keys, i, j - 1);
    }
  }

  /** Resampling keeps the order. */
  lemma ResampleOrdered(rows: seq<Row>, ctx: TimeFrameCompression)
    requires Supported(ctx) && Ordered(rows)
    ensures Ordered(Resample(rows, ctx))
  {
    hide Start, Group, RunStarts;
    var keys := PeriodKeys(rows, ctx);
    var context := Resample(rows, ctx);
    GroupLength(Bars(rows), keys);
    forall i, j | 0 <= i < j < |context| ensures context[i].time <= context[j].time {
      RunStartsIncrease(keys, i, j);
      StartMonotone(rows[RunStarts(keys)[i]].time, rows[RunStarts(keys)[j]].time, ctx);
    }
  }

  /** No master bar closes after the context period of the next one has ended. */
  predicate Uncrowded(rows: seq<Row>, exec: TimeFrameCompression, ctx: TimeFrameCompression)
    requires Supported(exec) && Supported(ctx)
  {
    forall b :: 0 <= b < |rows| - 1 ==> Closes(rows, exec)[b] < End(rows[b + 1].time, ctx)
  }

  /** Every context bar visible after master bar `b` is made of master bars up to `b`. */
  ghost predicate SeesPastOnly(rows: seq<Row>, exec: TimeFrameCompression, ctx: TimeFrameCompression, b: nat)
    requires Supported(exec) && Supported(ctx) && b < |rows|
  {
    var seen := Visible(rows, exec, ctx, b);
    forall i :: 0 <= i < |seen| ==> MadeOfPast(rows, ctx, seen[i], i, b)
  }

  /** The end of a context bar is the end of the period of any bar folded into it. */
  lemma EndOfRun(rows: seq<Row>, ctx: TimeFrameCompression, i: nat, x: nat)
    requires Supported(ctx) && i < |RunStarts(PeriodKeys(rows, ctx))|
    requires RunStarts(PeriodKeys(rows, ctx))[i] <= x < RunEnd(PeriodKeys(rows, ctx), i)
    ensures i < |Resample(rows, ctx)| && x < |rows|
    ensures Ends(Resample(rows, ctx), ctx)[i] == End(rows[x].time, ctx)
  {
    hide Start, End, Group, RunStarts;
    var keys := PeriodKeys(rows, ctx);
    GroupLength(Bars(rows), keys);
    RunCut(keys, i);
    assert keys[x] == RunKeys(keys)[i] == Resample(rows, ctx)[i].time;
    EndOfStart(rows[x].time, ctx);
  }

  /** With ordered bars, a context bar is visible after master bar `b` exactly if its period
      has ended by the close of that bar. */
  lemma VisibleIff(rows: seq<Row>, exec: TimeFrameCompression, ctx: TimeFrameCompression, b: nat)
    requires Supported(exec) && Supported(ctx) && Ordered(rows) && b < |rows|
    ensures |Visible(rows, exec, ctx, b)| <= |Resample(rows, ctx)|
    ensures forall i :: 0 <= i < |Resample(rows, ctx)| ==>
              (i < |Visible(rows, exec, ctx, b)| <==> Ends(Resample(rows, ctx), ctx)[i] <= Closes(rows, exec)[b])
  {
    hide Closes, Resample, End, Ordered;
    var context := Resample(rows, ctx);
    ResampleOrdered(rows, ctx);
    EndsSorted(context, ctx);
    ClosesSorted(rows, exec);
    GateExact(Ends(context, ctx), Closes(rows, exec)[..b + 1]);
  }

  lemma UncrowdedSeesPast(rows: seq<Row>, exec: TimeFrameCompression, ctx: TimeFrameCompression, b: nat)
    requires Supported(exec) && Supported(ctx) && Ordered(rows) && b < |rows| && Uncrowded(rows, exec, ctx)
    ensures SeesPastOnly(rows, exec, ctx, b)
  {
    hide Start, End, Closes, Group, RunStarts, Delivered, Summarizes, Visible, RunEnd;
    var keys := PeriodKeys(rows, ctx);
    var seen, context := Visible(rows, exec, ctx, b), Resample(rows, ctx);
    VisibleIff(rows, exec, ctx, b);
    VisiblePrefix(rows, exec, ctx, b);
    GroupLength(Bars(rows), keys);
    forall i | 0 <= i < |seen| ensures MadeOfPast(rows, ctx, seen[i], i, b) {
      RunCut(keys, i);
      var x := RunEnd(keys, i) - 1;
      EndOfRun(rows, ctx, i, x);
      if x > b {
        StartMonotone(rows[b + 1].time, rows[x].time, ctx);
      }
      GroupSummarizes(Bars(rows), keys, i);
    }
  }

  lemma VisiblePrefix(rows: seq<Row>, exec: TimeFrameCompression, ctx: TimeFrameCompression, b: nat)
    requires Supported(exec) && Supported(ctx) && b < |rows|
    ensures Visible(rows, exec, ctx, b) <= Resample(rows, ctx)
  {
    hide Resample;
  }

  lemma CrowdedSeesFuture(rows: seq<Row>, exec: TimeFrameCompression, ctx: TimeFrameCompression, b: nat)
    requires Supported(exec) && Supported(ctx) && Ordered(rows) && b + 1 < |rows|
    requires Closes(rows, exec)[b] >= End(rows[b + 1].time, ctx)
    ensures !SeesPastOnly(rows, exec, ctx, b)
  {
    hide Start, End, Closes, Group, RunStarts, Delivered, Summarizes, Visible, RunEnd;
    var keys := PeriodKeys(rows, ctx);
    var i := RunOf(keys, b + 1);
    EndOfRun(rows, ctx, i, b + 1);
    VisibleIff(rows, exec, ctx, b);
    assert !MadeOfPast(rows, ctx, Visible(rows, exec, ctx, b)[i], i, b);
  }

  /** Exactly when there is no look-ahead: for ordered bars, no visible context bar ever folds
      a later master bar if and only if no master bar closes after the context period of the
      next one has ended. */
  lemma NoLookaheadIff(rows: seq<Row>, exec: TimeFrameCompression, ctx: TimeFrameCompression)
    requires Supported(exec) && Supported(ctx) && Ordered(rows)
    ensures (forall b :: 0 <= b < |rows| ==> SeesPastOnly(rows, exec, ctx, b)) <==> Uncrowded(rows, exec, ctx)
  {
    hide SeesPastOnly, End, Closes, Ordered;
    if Uncrowded(rows, exec, ctx) {
      forall b | 0 <= b < |rows| ensures SeesPastOnly(rows, exec, ctx, b) {
        UncrowdedSeesPast(rows, exec, ctx, b);
      }
    } else {
      var b :| 0 <= b < |rows| - 1 && Closes(rows, exec)[b] >= End(rows[b + 1].time, ctx);
      CrowdedSeesFuture(rows, exec, ctx, b);
    }
  }

  /** Bars that are at least one bar apart are ordered and not crowded. */
  lemma SpacedIsUncrowded(rows: seq<Row>, exec: TimeFrameCompression, ctx: TimeFrameCompression)
    requires Supported(exec) && Supported(ctx) && Spaced(rows, exec)
    ensures Ordered(rows) && Uncrowded(rows, exec, ctx)
  {
    hide ExecClose, End, Start, Supported;
    forall i, j | 0 <= i < j < |rows| ensures rows[i].time <= rows[j].time {
      SpacedOrder(rows, exec, i, j);
      CloseAfterOpen(rows[i].time, exec);
      assert Closes(rows, exec)[i] == ExecClose(rows[i].time, exec).value;
    }
    forall b | 0 <= b < |rows| - 1 ensures Closes(rows, exec)[b] < End(rows[b + 1].time, ctx) {
      EndOfStart(rows[b + 1].time, ctx);
    }
  }

  /** End-to-end no-lookahead: with spaced bars, every context bar that is visible after
      master bar `b` is made of master bars up to `b` only. */
  lemma NoLookahead(rows: seq<Row>, exec: TimeFrameCompression, ctx: TimeFrameCompression, b: nat)
    requires Supported(exec) && Supported(ctx) && Spaced(rows, exec) && b < |rows|
    ensures var seen := Visible(rows, exec, ctx, b);
            forall i :: 0 <= i < |seen| ==> MadeOfPast(rows, ctx, seen[i], i, b)
  {
    hide Visible, Spaced, MadeOfPast, Supported, Ordered, Uncrowded;
    SpacedIsUncrowded(rows, exec, ctx);
    UncrowdedSeesPast(rows, exec, ctx, b);
  }

  // ------------------------------------------------------------- causality

  /** What is visible after master bar `b` is then computed from the bars up to `b` alone. */
  lemma VisibleIsCausal(rows: seq<Row>, exec: TimeFrameCompression, ctx: TimeFrameCompression, b: nat)
    requires Supported(exec) && Supported(ctx) && Ordered(rows) && Uncrowded(rows, exec, ctx) && b < |rows|
    ensures Visible(rows, exec, ctx, b) == Visible(rows[..b + 1], exec, ctx, b)
  {
    hide Start, End, ExecClose, Group, RunStarts, Delivered, Summarizes, Ordered, Uncrowded;
    var past := rows[..b + 1];
    var keys, pastKeys := PeriodKeys(rows, ctx), PeriodKeys(past, ctx);
    assert pastKeys == keys[..b + 1] && Bars(past) == Bars(rows)[..b + 1];
    assert Closes(past, exec)[..b + 1] == Closes(rows, exec)[..b + 1];
    var context, pastContext := Resample(rows, ctx), Resample(past, ctx);
    var ends, pastEnds := Ends(context, ctx), Ends(pastContext, ctx);
    GroupLength(Bars(rows), keys);
    GroupLength(Bars(past), pastKeys);
    RunStartsPrefix(keys, b + 1);
    assert pastEnds <= ends;
    UncrowdedSeesPast(rows, exec, ctx, b);
    var seen := Visible(rows, exec, ctx, b);
    forall i | 0 <= i < |seen| ensures i < |pastContext| && pastContext[i] == context[i] {
      assert MadeOfPast(rows, ctx, seen[i], i, b);
      GroupCausal(Bars(rows), keys, b + 1, i);
    }
    if |seen| > 0 {
      assert MadeOfPast(rows, ctx, seen[|seen| - 1], |seen| - 1, b);
      GroupCausal(Bars(rows), keys, b + 1, |seen| - 1);
    }
    DeliveredPrefix(pastEnds, ends, Closes(rows, exec)[..b + 1]);
  }

  /** Hence two data sets that agree up to bar `b` show the same context bars there,
      whatever they hold later. */
  lemma FutureIsInvisible(rows: seq<Row>, rows': seq<Row>, exec: TimeFrameCompression, ctx: TimeFrameCompression, b: nat)
    requires Supported(exec) && Supported(ctx) && Ordered(rows) && Ordered(rows')
    requires Uncrowded(rows, exec, ctx) && Uncrowded(rows', exec, ctx)
    requires b < |rows| && b < |rows'| && rows[..b + 1] == rows'[..b + 1]
    ensures Visible(rows, exec, ctx, b) == Visible(rows', exec, ctx, b)
  {
    hide Visible, Ordered, Uncrowded;
    VisibleIsCausal(rows, exec, ctx, b);
    VisibleIsCausal(rows', exec, ctx, b);
  }

  // --------------------------------------------------------- bars that leak

  lemma CrowdedPeriods()
    ensures var tfc := TimeFrameCompression(Minutes, 5);
            && Supported(tfc) && Start(0, tfc) == 0 == Start(60 * SECOND, tfc) && End(0, tfc) == 300 * SECOND
            && ExecClose(0, tfc) == Ok(300 * SECOND)
  {
  }

  lemma OneRun()
    ensures RunStarts([0, 0]) == [0] && RunKeys([0, 0]) == [0] && RunEnd([0, 0], 0) == 2
  {
    assert [0, 0][..1] == [0] && [0][..0] == [];
    assert RunStarts([0]) == [0];
  }

  lemma OneDelivered(x: int)
    ensures Delivered([x], [x]) == 1
  {
    assert [x][..0] == [];
  }

  /** Bars closer together than their timeframe do leak: of two five-minute bars one minute
      apart, the first already shows the five-minute context bar that the second belongs to. */
  lemma CrowdedBarsLeak()
    ensures exists rows: seq<Row>, exec: TimeFrameCompression, ctx: TimeFrameCompression, b: nat, i: nat ::
              && Supported(exec) && Supported(ctx) && !Spaced(rows, exec)
              && b < |rows| && i < |Visible(rows, exec, ctx, b)|
              && i < |RunStarts(PeriodKeys(rows, ctx))| && RunEnd(PeriodKeys(rows, ctx), i) > b + 1
  {
    hide Start, End, ExecClose, RunStarts, RunKeys, RunEnd, Delivered, Group, Supported;
    var bar := Ohlcv(1.0, 1.0, 1.0, 1.0, 1.0);
    var tfc := TimeFrameCompression(Minutes, 5);
    CrowdedPeriods();
    OneRun();
    OneDelivered(300 * SECOND);
    var rows := [Row(0, bar), Row(60 * SECOND, bar)];
    var keys := PeriodKeys(rows, tfc);
    assert keys == [0, 0];
    GroupLength(Bars(rows), keys);
    assert Ends(Resample(rows, tfc), tfc) == [300 * SECOND];
    assert Closes(rows, tfc)[0] == 300 * SECOND && Closes(rows, tfc)[..1] == [300 * SECOND];
    assert |Visible(rows, tfc, tfc, 0)| == 1 && !Spaced(rows, tfc) && RunEnd(keys, 0) > 1;
  }
}
