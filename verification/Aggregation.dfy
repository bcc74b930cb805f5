/** Aggregating a series of bars by buckets: what `ResampledFeed`, `Resampler` and
    `DataReplay` compute, what their rows are, and how aggregations compose. */
module Aggregation {
  import opened Numbers
  import opened Intervals
  import opened IntervalLaws

  datatype Ohlcv = Ohlcv(open: real, high: real, low: real, close: real, volume: real)

  /** One row of a feed. */
  datatype Row = Row(time: DateTime, bar: Ohlcv)

  /** A bucket so far, extended by one more bar. */
  function Merge(a: Ohlcv, b: Ohlcv): Ohlcv {
    Ohlcv(a.open, Max(a.high, b.high), Min(a.low, b.low), b.close, a.volume + b.volume)
  }

  /** Whether the last bar continues the bucket of the bar before it. */
  predicate Continues(keys: seq<int>) {
    |keys| > 1 && keys[|keys| - 1] == keys[|keys| - 2]
  }

  /** One bar per maximal run of equal bucket keys. */
  function Group(bars: seq<Ohlcv>, keys: seq<int>): (g: seq<Ohlcv>)
    requires |bars| == |keys|
    ensures |g| <= |bars| && (bars != [] ==> g != [])
  {
    if bars == [] then []
    else
      var n := |bars| - 1;
      var g := Group(bars[..n], keys[..n]);
      if Continues(keys) then g[..|g| - 1] + [Merge(g[|g| - 1], bars[n])] else g + [bars[n]]
  }

  /** The index at which each run starts. */
  function RunStarts(keys: seq<int>): (s: seq<nat>)
    ensures keys != [] ==> s != []
    ensures forall j :: 0 <= j < |s| ==> s[j] < |keys|
  {
    if keys == [] then []
    else
      var n := |keys| - 1;
      var s := RunStarts(keys[..n]);
      if Continues(keys) then s else s + [n]
  }

  /** The index after the last bar of run `j`. */
  function RunEnd(keys: seq<int>, j: nat): nat
    requires j < |RunStarts(keys)|
  {
    var s := RunStarts(keys);
    if j + 1 < |s| then s[j + 1] else |keys|
  }

  /** The key of each run. */
  function RunKeys(keys: seq<int>): seq<int> {
    var s := RunStarts(keys);
    seq(|s|, j requires 0 <= j < |s| => keys[s[j]])
  }

  // ------------------------------------------------------- what a row is

  function Volumes(bars: seq<Ohlcv>): seq<real> {
    seq(|bars|, i requires 0 <= i < |bars| => bars[i].volume)
  }

  /** First open, highest high, lowest low, last close, total volume. */
  ghost predicate Summarizes(g: Ohlcv, bars: seq<Ohlcv>) {
    && bars != []
    && g.open == bars[0].open && g.close == bars[|bars| - 1].close
    && (forall i :: 0 <= i < |bars| ==> bars[i].high <= g.high && g.low <= bars[i].low)
    && (exists i :: 0 <= i < |bars| && bars[i].high == g.high)
    && (exists i :: 0 <= i < |bars| && bars[i].low == g.low)
    && g.volume == Sum(Volumes(bars))
  }

  lemma SummaryOfOne(bar: Ohlcv)
    ensures Summarizes(bar, [bar])
  {
    assert Volumes([bar]) == [] + [bar.volume];
    SumAppend([], bar.volume);
    assert [bar][0].high == bar.high;
  }

  lemma SummaryGrows(g: Ohlcv, bars: seq<Ohlcv>, bar: Ohlcv)
    requires Summarizes(g, bars)
    ensures Summarizes(Merge(g, bar), bars + [bar])
  {
    var bs := bars + [bar];
    var m := Merge(g, bar);
    assert Volumes(bs) == Volumes(bars) + [bar.volume];
    SumAppend(Volumes(bars), bar.volume);
    var h :| 0 <= h < |bars| && bars[h].high == g.high;
    var l :| 0 <= l < |bars| && bars[l].low == g.low;
    assert bs[if bar.high <= g.high then h else |bars|].high == m.high;
    assert bs[if g.low <= bar.low then l else |bars|].low == m.low;
  }

  lemma {:induction false} GroupLength(bars: seq<Ohlcv>, keys: seq<int>)
    requires |bars| == |keys|
    ensures |Group(bars, keys)| == |RunStarts(keys)|
  {
    if bars != [] {
      GroupLength(bars[..|bars| - 1], keys[..|bars| - 1]);
    }
  }

  /** The runs cut the series: the first starts at 0, each ends where the next begins, the
      keys are equal within a run and change from one run to the next. */
  lemma {:induction false} RunCut(keys: seq<int>, j: nat)
    requires j < |RunStarts(keys)|
    ensures RunStarts(keys)[0] == 0
    ensures RunStarts(keys)[j] < RunEnd(keys, j) <= |keys|
    ensures forall i :: RunStarts(keys)[j] <= i < RunEnd(keys, j) ==> keys[i] == RunKeys(keys)[j]
    ensures j + 1 < |RunStarts(keys)| ==> RunKeys(keys)[j] != RunKeys(keys)[j + 1]
  {
    var n := |keys| - 1;
    var s, s0 := RunStarts(keys), RunStarts(keys[..n]);
    if j < |s0| {
      RunCut(keys[..n], j);
      assert RunKeys(keys)[j] == RunKeys(keys[..n])[j];
      assert forall i :: 0 <= i < n ==> keys[i] == keys[..n][i];
      if j == |s0| - 1 {
        assert keys[n - 1] == RunKeys(keys)[j];
      } else {
        assert RunKeys(keys)[j + 1] == RunKeys(keys[..n])[j + 1];
      }
    } else if n > 0 {
      RunCut(keys[..n], 0);
    }
  }

  /** Each row summarizes exactly the bars of its run. */
  lemma {:induction false} GroupSummarizes(bars: seq<Ohlcv>, keys: seq<int>, j: nat)
    requires |bars| == |keys| && j < |RunStarts(keys)|
    ensures |Group(bars, keys)| == |RunStarts(keys)| && RunStarts(keys)[j] < RunEnd(keys, j) <= |bars|
    ensures Summarizes(Group(bars, keys)[j], bars[RunStarts(keys)[j]..RunEnd(keys, j)])
  {
    hide Summarizes, Merge;
    var n := |bars| - 1;
    var s, s0 := RunStarts(keys), RunStarts(keys[..n]);
    GroupLength(bars, keys);
    GroupLength(bars[..n], keys[..n]);
    RunCut(keys, j);
    if j == |s0| {
      SummaryOfOne(bars[n]);
      assert bars[n..n + 1] == [bars[n]];
    } else {
      GroupSummarizes(bars[..n], keys[..n], j);
      if Continues(keys) && j == |s0| - 1 {
        LastRowGrows(bars, keys, s0[j], Group(bars[..n], keys[..n])[j]);
        GroupContinues(bars, keys);
      } else {
        assert bars[..n][s0[j]..RunEnd(keys, j)] == bars[s0[j]..RunEnd(keys, j)];
      }
    }
  }

  lemma LastRowGrows(bars: seq<Ohlcv>, keys: seq<int>, from: nat, g: Ohlcv)
    requires from < |bars| == |keys| && Summarizes(g, bars[..|bars| - 1][from..|bars| - 1])
    ensures Summarizes(Merge(g, bars[|bars| - 1]), bars[from..|bars|])
  {
    hide Summarizes, Merge;
    var n := |bars| - 1;
    SummaryGrows(g, bars[..n][from..n], bars[n]);
    assert bars[..n][from..n] + [bars[n]] == bars[from..n + 1];
  }

  /** The last bar joins the last group or starts one. */
  lemma GroupLast(bars: seq<Ohlcv>, keys: seq<int>)
    requires |bars| == |keys| > 0
    ensures var n := |bars| - 1;
            var g := Group(bars[..n], keys[..n]);
            && (Continues(keys) ==> g != [])
            && Group(bars, keys) == if Continues(keys) then g[..|g| - 1] + [Merge(g[|g| - 1], bars[n])] else g + [bars[n]]
  {
  }

  lemma GroupContinues(bars: seq<Ohlcv>, keys: seq<int>)
    requires |bars| == |keys| && Continues(keys)
    ensures var n := |bars| - 1;
            var g := Group(bars[..n], keys[..n]);
            Group(bars, keys) == g[|g| - 1 := Merge(g[|g| - 1], bars[n])]
  {
  }

  // ----------------------------------------------------------- causality

  /** A run that is over by `m` has the same row whatever comes after `m`. */
  lemma {:induction false} GroupCausal(bars: seq<Ohlcv>, keys: seq<int>, m: nat, j: nat)
    requires |bars| == |keys| && m <= |bars| && j < |RunStarts(keys)| && RunEnd(keys, j) <= m
    ensures j < |RunStarts(keys[..m])| && RunStarts(keys[..m])[j] == RunStarts(keys)[j]
    ensures RunEnd(keys[..m], j) == RunEnd(keys, j)
    ensures |Group(bars[..m], keys[..m])| == |RunStarts(keys[..m])| && |Group(bars, keys)| == |RunStarts(keys)|
    ensures Group(bars[..m], keys[..m])[j] == Group(bars, keys)[j]
    decreases |bars|
  {
    GroupLength(bars, keys);
    GroupLength(bars[..m], keys[..m]);
    if m == |bars| {
      assert bars[..m] == bars && keys[..m] == keys;
    } else {
      var n := |bars| - 1;
      assert bars[..n][..m] == bars[..m] && keys[..n][..m] == keys[..m];
      GroupLength(bars[..n], keys[..n]);
      GroupCausal(bars[..n], keys[..n], m, j);
    }
  }

  // -------------------------------------------------------- composition

  lemma MergeAssociative(a: Ohlcv, b: Ohlcv, c: Ohlcv)
    ensures Merge(Merge(a, b), c) == Merge(a, Merge(b, c))
  {
  }

  /** Merging one more bar into the last input merges it into the last output. */
  lemma GroupMergesLast(bars: seq<Ohlcv>, keys: seq<int>, b: Ohlcv)
    requires |bars| == |keys| > 0
    ensures var n := |bars| - 1;
            var g := Group(bars, keys);
            Group(bars[n := Merge(bars[n], b)], keys) == g[|g| - 1 := Merge(g[|g| - 1], b)]
  {
    hide Merge;
    var n := |bars| - 1;
    var bs := bars[n := Merge(bars[n], b)];
    assert bs[..n] == bars[..n];
    if Continues(keys) {
      var g := Group(bars[..n], keys[..n]);
      MergeAssociative(g[|g| - 1], bars[n], b);
    }
  }

  /** `coarse` is a function of `fine`, run by run: where the fine keys agree, so do the
      coarse ones. */
  predicate Refines(fine: seq<int>, coarse: seq<int>) {
    && |fine| == |coarse|
    && forall i, j :: 0 <= i < |fine| && 0 <= j < |fine| && fine[i] == fine[j] ==> coarse[i] == coarse[j]
  }

  /** The coarse keys of the rows that the fine aggregation makes. */
  function KeysOfRuns(fine: seq<int>, coarse: seq<int>): seq<int>
    requires |fine| == |coarse|
  {
    var s := RunStarts(fine);
    seq(|s|, j requires 0 <= j < |s| => coarse[s[j]])
  }

  /** Two key lists that are both empty or end in the same key. */
  predicate EndsWith(k: seq<int>, keys: seq<int>) {
    if keys == [] then k == [] else k != [] && k[|k| - 1] == keys[|keys| - 1]
  }

  lemma KeysOfRunsSnoc(fine: seq<int>, coarse: seq<int>)
    requires Refines(fine, coarse) && fine != []
    ensures var n := |fine| - 1;
            && KeysOfRuns(fine, coarse) ==
               KeysOfRuns(fine[..n], coarse[..n]) + (if Continues(fine) then [] else [coarse[n]])
            && EndsWith(KeysOfRuns(fine[..n], coarse[..n]), coarse[..n])
  {
    var n := |fine| - 1;
    if n > 0 {
      var s := RunStarts(fine[..n]);
      var last := |s| - 1;
      RunCut(fine[..n], last);
      assert RunEnd(fine[..n], last) == n;
      assert fine[..n][n - 1] == RunKeys(fine[..n])[last] == fine[s[last]];
      assert coarse[n - 1] == coarse[s[last]];
    }
  }

  /** The coarse aggregation of the fine rows agrees with the direct one. */
  ghost predicate Composes(bars: seq<Ohlcv>, fine: seq<int>, coarse: seq<int>)
    requires |bars| == |fine| == |coarse|
  {
    var k := KeysOfRuns(fine, coarse);
    && |Group(bars, fine)| == |k|
    && Group(Group(bars, fine), k) == Group(bars, coarse)
    && RunKeys(k) == RunKeys(coarse)
  }

  /** A bar that continues its fine run. */
  lemma ComposesContinued(bars: seq<Ohlcv>, fine: seq<int>, coarse: seq<int>)
    requires |bars| == |fine| && Refines(fine, coarse) && Continues(fine)
    requires var n := |bars| - 1; Composes(bars[..n], fine[..n], coarse[..n])
    ensures Composes(bars, fine, coarse)
  {
    hide Merge, RunStarts, KeysOfRuns;
    var n := |bars| - 1;
    KeysOfRunsSnoc(fine, coarse);
    ContinuesCoarse(fine, coarse);
    var g0 := Group(bars[..n], fine[..n]);
    var k0 := KeysOfRuns(fine[..n], coarse[..n]);
    assert k0 == KeysOfRuns(fine, coarse);
    GroupContinues(bars, fine);
    GroupContinues(bars, coarse);
    GroupMergesLast(g0, k0, bars[n]);
    RunKeysContinue(coarse);
  }

  lemma GroupAppend(bars: seq<Ohlcv>, keys: seq<int>, b: Ohlcv, k: int)
    requires |bars| == |keys|
    ensures var g := Group(bars, keys);
            && (Continues(keys + [k]) ==> g != [])
            && Group(bars + [b], keys + [k]) == if Continues(keys + [k]) then g[..|g| - 1] + [Merge(g[|g| - 1], b)] else g + [b]
  {
    hide Group, Merge, Continues;
    assert (bars + [b])[..|bars|] == bars && (keys + [k])[..|keys|] == keys;
    GroupLast(bars + [b], keys + [k]);
  }

  lemma RunKeysSame(k0: seq<int>, keys: seq<int>)
    requires keys != [] && EndsWith(k0, keys[..|keys| - 1]) && RunKeys(k0) == RunKeys(keys[..|keys| - 1])
    ensures RunKeys(k0 + [keys[|keys| - 1]]) == RunKeys(keys)
  {
    hide RunKeys;
    var n := |keys| - 1;
    RunKeysSnoc(k0, keys[n]);
    RunKeysSnoc(keys[..n], keys[n]);
    assert keys == keys[..n] + [keys[n]];
  }

  /** A bar that starts a new fine run. */
  lemma ComposesNew(bars: seq<Ohlcv>, fine: seq<int>, coarse: seq<int>)
    requires |bars| == |fine| && Refines(fine, coarse) && bars != [] && !Continues(fine)
    requires var n := |bars| - 1; Composes(bars[..n], fine[..n], coarse[..n])
    ensures Composes(bars, fine, coarse)
  {
    hide Merge, RunStarts, KeysOfRuns, RunKeys, Group, Continues, EndsWith;
    var n := |bars| - 1;
    KeysOfRunsSnoc(fine, coarse);
    var k0 := KeysOfRuns(fine[..n], coarse[..n]);
    GroupLast(bars, fine);
    GroupLast(bars, coarse);
    GroupAppend(Group(bars[..n], fine[..n]), k0, bars[n], coarse[n]);
    SameContinuation(k0, coarse);
    RunKeysSame(k0, coarse);
  }

  lemma SameContinuation(k0: seq<int>, coarse: seq<int>)
    requires coarse != [] && EndsWith(k0, coarse[..|coarse| - 1])
    ensures Continues(k0 + [coarse[|coarse| - 1]]) <==> Continues(coarse)
  {
  }

  /** Aggregating to fine buckets and then to coarse ones gives the rows of aggregating to
      the coarse ones at once. */
  lemma {:induction false} GroupComposes(bars: seq<Ohlcv>, fine: seq<int>, coarse: seq<int>)
    requires |bars| == |fine| && Refines(fine, coarse)
    ensures Composes(bars, fine, coarse)
  {
    hide Composes;
    if bars == [] {
      NothingComposes(bars, fine, coarse);
    } else {
      var n := |bars| - 1;
      RefinesInit(fine, coarse);
      GroupComposes(bars[..n], fine[..n], coarse[..n]);
      if Continues(fine) {
        ComposesContinued(bars, fine, coarse);
      } else {
        ComposesNew(bars, fine, coarse);
      }
    }
  }

  lemma NothingComposes(bars: seq<Ohlcv>, fine: seq<int>, coarse: seq<int>)
    requires |bars| == |fine| == |coarse| == 0
    ensures Composes(bars, fine, coarse)
  {
  }

  lemma RefinesInit(fine: seq<int>, coarse: seq<int>)
    requires Refines(fine, coarse) && fine != []
    ensures Refines(fine[..|fine| - 1], coarse[..|fine| - 1])
  {
  }

  lemma ContinuesCoarse(fine: seq<int>, coarse: seq<int>)
    requires Refines(fine, coarse) && Continues(fine)
    ensures Continues(coarse)
  {
  }

  lemma RunKeysContinue(keys: seq<int>)
    requires Continues(keys)
    ensures RunKeys(keys) == RunKeys(keys[..|keys| - 1])
  {
  }

  /** One more key starts a new run unless it repeats the last one. */
  lemma RunKeysSnoc(keys: seq<int>, k: int)
    ensures RunKeys(keys + [k]) == RunKeys(keys) + if keys != [] && keys[|keys| - 1] == k then [] else [k]
  {
    assert (keys + [k])[..|keys|] == keys;
  }

  // -------------------------------------------------- resampling a feed

  function Bars(rows: seq<Row>): (b: seq<Ohlcv>)
    ensures |b| == |rows|
  {
    seq(|rows|, i requires 0 <= i < |rows| => rows[i].bar)
  }

  /** The bucket key of each row: the start of its period. */
  function PeriodKeys(rows: seq<Row>, tfc: TimeFrameCompression): (k: seq<int>)
    requires Supported(tfc)
    ensures |k| == |rows|
  {
    seq(|rows|, i requires 0 <= i < |rows| => Start(rows[i].time, tfc))
  }

  function Stamp(times: seq<int>, bars: seq<Ohlcv>): seq<Row>
    requires |times| == |bars|
  {
    seq(|bars|, i requires 0 <= i < |bars| => Row(times[i], bars[i]))
  }

  /** What `ResampledFeed` makes of a base series: one row per run of equal periods,
      stamped with the start of the period. */
  function Resample(rows: seq<Row>, tfc: TimeFrameCompression): seq<Row>
    requires Supported(tfc)
  {
    var keys := PeriodKeys(rows, tfc);
    GroupLength(Bars(rows), keys);
    Stamp(RunKeys(keys), Group(Bars(rows), keys))
  }

  /** Resampling composes whenever the periods nest. */
  lemma ResampleComposes(rows: seq<Row>, fine: TimeFrameCompression, coarse: TimeFrameCompression)
    requires Supported(fine) && Supported(coarse) && Nested(fine, coarse)
    ensures Resample(Resample(rows, fine), coarse) == Resample(rows, coarse)
  {
    hide Start, Group, RunStarts;
    var fk, ck := PeriodKeys(rows, fine), PeriodKeys(rows, coarse);
    forall i, j | 0 <= i < |rows| && 0 <= j < |rows| && fk[i] == fk[j] ensures ck[i] == ck[j] {
      assert Start(fk[i], coarse) == ck[i] && Start(fk[j], coarse) == ck[j];
    }
    GroupLength(Bars(rows), fk);
    GroupLength(Bars(rows), ck);
    GroupComposes(Bars(rows), fk, ck);
    var mid := Resample(rows, fine);
    assert Bars(mid) == Group(Bars(rows), fk);
    var s := RunStarts(fk);
    forall j | 0 <= j < |s| ensures PeriodKeys(mid, coarse)[j] == KeysOfRuns(fk, ck)[j] {
      assert mid[j].time == fk[s[j]];
      assert Start(fk[s[j]], coarse) == ck[s[j]];
    }
    assert PeriodKeys(mid, coarse) == KeysOfRuns(fk, ck);
    GroupLength(Bars(mid), PeriodKeys(mid, coarse));
  }

  /** Over the vocabulary: every fine timeframe into every coarser one, except weeks into
      months. */
  lemma VocabularyComposes(rows: seq<Row>, i: nat, j: nat)
    requires i < j < |VOCABULARY| && !(i == 8 && j == 9)
    ensures var fine, coarse := VOCABULARY[i].1, VOCABULARY[j].1;
            && Supported(fine) && Supported(coarse)
            && Resample(Resample(rows, fine), coarse) == Resample(rows, coarse)
  {
    hide Resample;
    VocabularyNests(i, j);
    ResampleComposes(rows, VOCABULARY[i].1, VOCABULARY[j].1);
  }
}
