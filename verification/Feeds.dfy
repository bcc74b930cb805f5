/** Data feeds and the three feeds that aggregate another one (`line.hpp`,
    `data_feed.hpp`, `resampled_feed.hpp`, `resampler.hpp`, `replay.hpp`).

    The seven lines of a feed are pushed to, advanced and sent home together, so a feed
    is one sequence of rows with one cursor. */
module Feeds {
  import opened Numbers
  import opened Calendar
  import opened Intervals
  import opened IntervalLaws
  import opened Aggregation

  class DataFeed {
    const timeframe: TimeFrameCompression
    var rows: seq<Row>
    var idx: nat

    constructor (timeframe: TimeFrameCompression)
      ensures this.timeframe == timeframe && rows == [] && idx == 0
    {
      this.timeframe := timeframe;
      rows, idx := [], 0;
    }

    /** Moves the cursor, but never past the last row. */
    method Advance()
      modifies `idx
      ensures idx == if old(idx) + 1 < |rows| then old(idx) + 1 else old(idx)
    {
      if idx + 1 < |rows| {
        idx := idx + 1;
      }
    }

    method Home()
      modifies `idx
      ensures idx == 0
    {
      idx := 0;
    }

    /** `operator[]`: relative to the cursor; `None` stands for `std::out_of_range`. */
    function At(offset: int): Option<Row>
      reads this
    {
      var pos := idx + offset;
      if 0 <= pos < |rows| then Some(rows[pos]) else None
    }
  }

  /** The fold of the bars of one bucket, as the loops carry it. */
  function Init(bars: seq<Ohlcv>, keys: seq<int>, i: nat): seq<Ohlcv>
    requires |bars| == |keys| && i <= |bars|
  {
    Group(bars[..i], keys[..i])
  }

  lemma InitStep(bars: seq<Ohlcv>, keys: seq<int>, i: nat)
    requires |bars| == |keys| && 0 < i < |bars|
    ensures var g := Init(bars, keys, i);
            g != [] &&
            Init(bars, keys, i + 1) ==
            if keys[i] == keys[i - 1] then g[..|g| - 1] + [Merge(g[|g| - 1], bars[i])] else g + [bars[i]]
  {
    assert bars[..i + 1][..i] == bars[..i] && keys[..i + 1][..i] == keys[..i];
  }

  lemma InitFirst(bars: seq<Ohlcv>, keys: seq<int>)
    requires |bars| == |keys| > 0
    ensures Init(bars, keys, 1) == [bars[0]]
  {
    assert bars[..1][..0] == [];
  }

  lemma RunKeysStep(keys: seq<int>, i: nat)
    requires 0 < i < |keys|
    ensures RunKeys(keys[..i + 1]) == RunKeys(keys[..i]) + if keys[i] == keys[i - 1] then [] else [keys[i]]
  {
    assert keys[..i + 1] == keys[..i] + [keys[i]];
    RunKeysSnoc(keys[..i], keys[i]);
  }

  // ------------------------------------------------------- ResampledFeed

  class ResampledFeed {
    const base: DataFeed
    const target: TimeFrameCompression
    const feed: DataFeed

    constructor (base: DataFeed, target: TimeFrameCompression)
      ensures this.base == base && this.target == target && fresh(feed)
      ensures feed.timeframe == target && feed.rows == [] && feed.idx == 0
    {
      this.base, this.target := base, target;
      feed := new DataFeed(target);
    }

    /** `preload` appends the aggregated rows; on a feed already filled it appends them
        again.  It throws for a target `period_start` does not accept, unless there is
        nothing to aggregate. */
    method Preload() returns (ok: bool)
      requires feed != base
      modifies feed
      ensures ok <==> base.rows == [] || Supported(target)
      ensures !ok || base.rows == [] ==> feed.rows == old(feed.rows)
      ensures ok && base.rows != [] ==> feed.rows == old(feed.rows) + Resample(base.rows, target) && feed.idx == 0
    {
      hide PeriodStart, Start, RunKeys, Init, Supported, Merge, Resample, Bars, Times;
      var n := |base.rows|;
      if n == 0 {
        return true;
      }
      StartIsGrid(base.rows[0].time, target);
      var first := PeriodStart(base.rows[0].time, target);
      if first == InvalidArgument {
        return false;
      }
      ghost var bars, keys := Bars(base.rows), PeriodKeys(base.rows, target);
      var current := first.value;
      var bucket := base.rows[0].bar;
      ghost var before, out := feed.rows, [];
      ResampleFirst(base.rows, target);
      RowsAppend([], Row(current, bucket));
      var i := 1;
      while i < n
        invariant 1 <= i <= n && feed.rows == before + out
        invariant current == keys[i - 1]
        invariant RunKeys(keys[..i]) == Times(out) + [current]
        invariant Init(bars, keys, i) == Bars(out) + [bucket]
      {
        InitStep(bars, keys, i);
        RunKeysStep(keys, i);
        StartValue(base.rows[i].time, target);
        var barBucket := PeriodStart(base.rows[i].time, target).value;
        BarAt(base.rows, i);
        if barBucket != current {
          EmitBar(current, bucket);
          RowsAppend(out, Row(current, bucket));
          out := out + [Row(current, bucket)];
          current := barBucket;
          bucket := base.rows[i].bar;
        } else {
          bucket := Accumulate(bucket, base.rows[i].bar);
        }
        i := i + 1;
      }
      EmitBar(current, bucket);
      RowsAppend(out, Row(current, bucket));
      out := out + [Row(current, bucket)];
      feed.Home();
      ResampleLast(base.rows, target, out);
      return true;
    }

    /** The running extremes, close and volume of the bucket. */
    method Accumulate(bucket: Ohlcv, bar: Ohlcv) returns (r: Ohlcv)
      ensures r == Merge(bucket, bar)
    {
      r := bucket;
      r := r.(high := Max(r.high, bar.high));
      r := r.(low := Min(r.low, bar.low));
      r := r.(close := bar.close);
      r := r.(volume := r.volume + bar.volume);
    }

    method EmitBar(time: DateTime, bar: Ohlcv)
      modifies feed
      ensures feed.rows == old(feed.rows) + [Row(time, bar)] && feed.idx == old(feed.idx)
    {
      feed.rows := feed.rows + [Row(time, bar)];
    }
  }

  lemma StartValue(t: DateTime, tfc: TimeFrameCompression)
    requires Supported(tfc)
    ensures PeriodStart(t, tfc) == Ok(Start(t, tfc))
  {
    StartIsGrid(t, tfc);
  }

  lemma RowsAppend(rows: seq<Row>, row: Row)
    ensures Times([]) == [] && Bars([]) == []
    ensures Times(rows + [row]) == Times(rows) + [row.time] && Bars(rows + [row]) == Bars(rows) + [row.bar]
  {
  }

  lemma BarAt(rows: seq<Row>, i: nat)
    requires i < |rows|
    ensures Bars(rows)[i] == rows[i].bar
  {
  }

  lemma ResampleFirst(rows: seq<Row>, tfc: TimeFrameCompression)
    requires Supported(tfc) && rows != []
    ensures PeriodStart(rows[0].time, tfc) == Ok(PeriodKeys(rows, tfc)[0])
    ensures RunKeys(PeriodKeys(rows, tfc)[..1]) == [PeriodKeys(rows, tfc)[0]]
    ensures Init(Bars(rows), PeriodKeys(rows, tfc), 1) == [rows[0].bar]
  {
    var keys := PeriodKeys(rows, tfc);
    StartValue(rows[0].time, tfc);
    InitFirst(Bars(rows), keys);
    RunKeysSnoc([], keys[0]);
    assert keys[..1] == [] + [keys[0]];
  }

  lemma ResampleLast(rows: seq<Row>, tfc: TimeFrameCompression, out: seq<Row>)
    requires Supported(tfc)
    requires RunKeys(PeriodKeys(rows, tfc)[..|rows|]) == Times(out)
    requires Init(Bars(rows), PeriodKeys(rows, tfc), |rows|) == Bars(out)
    ensures out == Resample(rows, tfc)
  {
    var keys := PeriodKeys(rows, tfc);
    assert keys[..|rows|] == keys && Bars(rows)[..|rows|] == Bars(rows);
    GroupLength(Bars(rows), keys);
    forall j | 0 <= j < |out| ensures out[j] == Resample(rows, tfc)[j] {
      assert Times(out)[j] == out[j].time && Bars(out)[j] == out[j].bar;
    }
  }

  function Times(rows: seq<Row>): seq<int> {
    seq(|rows|, i requires 0 <= i < |rows| => rows[i].time)
  }

  // ----------------------------------------- the buckets of the resampler

  /** `Resampler::get_bucket` and `DataReplay::get_bucket`. */
  function GetBucket(t: DateTime, tfc: TimeFrameCompression): int
    requires tfc.compression > 0
  {
    var day := DayOf(t);
    match tfc.unit
    case Minutes => day * 10000 + (t - day * DAY) / (60 * SECOND) / tfc.compression
    case Days => TruncDiv(day, tfc.compression)
    case Weeks => TruncDiv(day + 3, 7)
    case Months => MonthOf(day) + 1
    case _ => t
  }

  function BucketKeys(rows: seq<Row>, tfc: TimeFrameCompression): (k: seq<int>)
    requires tfc.compression > 0
    ensures |k| == |rows|
  {
    seq(|rows|, i requires 0 <= i < |rows| => GetBucket(rows[i].time, tfc))
  }

  /** Minutes of the day, counted in buckets: they stay below the factor 10000, and
      together with the day they number the periods. */
  lemma MinuteBuckets(t: DateTime, tfc: TimeFrameCompression)
    requires tfc.unit == Minutes && DividesDay(tfc)
    ensures var day := DayOf(t);
            var b := (t - day * DAY) / (60 * SECOND) / tfc.compression;
            0 <= b < 10000 && PeriodIndex(t, tfc) == day * (1440 / tfc.compression) + b
            && b < 1440 / tfc.compression
  {
    var c := tfc.compression;
    var day, rest := DayOf(t), t - DayOf(t) * DAY;
    FloorBrackets(t, DAY);
    NestedFloor(rest, 60 * SECOND, c);
    var s, k := Span(tfc), 1440 / c;
    assert DAY_SECONDS % (60 * c) == 0;
    MinutesDivide(c);
    assert 1440 == c * k;
    assert s * k == DAY;
    var b := rest / s;
    FloorBrackets(rest, s);
    assert (day * k) * s == day * DAY;
    FloorIs(t, s, day * k + b);
    if b >= k {
      ProductMonotone(k, b, s);
    }
    if b < 0 {
      ProductMonotone(b + 1, 0, s);
    }
    if k > 1440 {
      ProductMonotone(1, c, k);
    }
  }

  lemma MinutesDivide(c: int)
    requires c > 0 && DAY_SECONDS % (60 * c) == 0
    ensures 1440 % c == 0
  {
    var q := DAY_SECONDS / (60 * c);
    assert 60 * 1440 == (60 * c) * q;
    assert 1440 == c * q;
    ExactDivision(c, q);
  }

  lemma ExactDivision(c: int, q: int)
    requires c > 0
    ensures (c * q) % c == 0
  {
    FloorIs(c * q, c, q);
  }

  /** An instant before Monday 1969-12-29 that is not on a Monday: its week bucket is one
      too high, since the division truncates. */
  predicate Misplaced(t: DateTime) {
    DayOf(t) < -3 && (DayOf(t) + 3) % 7 != 0
  }

  /** Week buckets are week numbers, except for misplaced instants. */
  lemma WeekBuckets(t: DateTime)
    ensures GetBucket(t, WEEK) == PeriodIndex(t, WEEK) + if Misplaced(t) then 1 else 0
  {
  }

  /** For a timeframe that divides the day, and for weeks and months, two instants get the
      same bucket number exactly if they lie in the same period.  Weeks need both instants
      to be no earlier than the Monday before the epoch, since the division truncates. */
  lemma BucketsArePeriods(t: DateTime, u: DateTime, tfc: TimeFrameCompression)
    requires Supported(tfc) && (tfc.unit in {Minutes, Days} ==> DividesDay(tfc))
    requires tfc.unit == Weeks ==> DayOf(t) >= -3 && DayOf(u) >= -3
    ensures GetBucket(t, tfc) == GetBucket(u, tfc) <==> Start(t, tfc) == Start(u, tfc)
  {
    hide Start, MonthOf, PeriodIndex, GetBucket, DayOf;
    SamePeriodIff(t, u, tfc);
    match tfc.unit
    case Minutes =>
      MinuteBucketsIff(t, u, tfc);
    case Days =>
      DayBuckets(t, tfc);
      DayBuckets(u, tfc);
    case Weeks =>
      assert tfc == WEEK;
      WeekBuckets(t);
      WeekBuckets(u);
    case Months =>
      MonthBuckets(t, tfc);
      MonthBuckets(u, tfc);
  }

  lemma MinuteBucketsIff(t: DateTime, u: DateTime, tfc: TimeFrameCompression)
    requires tfc.unit == Minutes && DividesDay(tfc)
    ensures GetBucket(t, tfc) == GetBucket(u, tfc) <==> PeriodIndex(t, tfc) == PeriodIndex(u, tfc)
  {
    hide PeriodIndex, DayOf;
    MinuteBuckets(t, tfc);
    MinuteBuckets(u, tfc);
    var k := 1440 / tfc.compression;
    DigitsUnique(PeriodIndex(t, tfc), DayOf(t), PeriodIndex(u, tfc), DayOf(u), k);
  }

  lemma DayBuckets(t: DateTime, tfc: TimeFrameCompression)
    requires tfc.unit == Days && DividesDay(tfc)
    ensures GetBucket(t, tfc) == PeriodIndex(t, tfc)
  {
    OneDay(tfc);
    assert Span(tfc) == DAY;
  }

  lemma MonthBuckets(t: DateTime, tfc: TimeFrameCompression)
    requires tfc.unit == Months && tfc.compression > 0 && Supported(tfc)
    ensures GetBucket(t, tfc) == PeriodIndex(t, tfc) + 1
  {
    hide MonthOf;
  }

  /** For the timeframes that are not bucketed, every instant is a bucket of its own. */
  lemma OtherBuckets(t: DateTime, u: DateTime, tfc: TimeFrameCompression)
    requires tfc.compression > 0 && (tfc.unit == Tick || tfc.unit == Seconds || tfc.unit == Years)
    ensures GetBucket(t, tfc) == GetBucket(u, tfc) <==> t == u
  {
  }

  lemma DigitsUnique(x: int, d: int, y: int, e: int, k: int)
    requires d * k <= x < d * k + k && e * k <= y < e * k + k && k > 0
    ensures x == y ==> d == e
  {
    if d < e {
      ProductMonotone(d + 1, e, k);
    } else if e < d {
      ProductMonotone(e + 1, d, k);
    }
  }

  lemma OneDay(tfc: TimeFrameCompression)
    requires tfc.unit == Days && DividesDay(tfc)
    ensures tfc.compression == 1
  {
    assert DAY_SECONDS % (DAY_SECONDS * tfc.compression) == 0;
    if tfc.compression > 1 {
      FloorIs(DAY_SECONDS, DAY_SECONDS * tfc.compression, 0);
    }
  }

  /** Exactly when the week buckets of two instants tell whether they share a week: instants
      of one week must be both misplaced or both not, so a Monday is torn from its week; and of
      two successive weeks the earlier must not be misplaced unless the later is too. */
  lemma WeekBucketsIff(t: DateTime, u: DateTime)
    ensures (GetBucket(t, WEEK) == GetBucket(u, WEEK) <==> Start(t, WEEK) == Start(u, WEEK)) <==>
            if Start(t, WEEK) == Start(u, WEEK) then Misplaced(t) == Misplaced(u)
            else && !(Misplaced(t) && !Misplaced(u) && PeriodIndex(u, WEEK) == PeriodIndex(t, WEEK) + 1)
                 && !(Misplaced(u) && !Misplaced(t) && PeriodIndex(t, WEEK) == PeriodIndex(u, WEEK) + 1)
  {
    hide Start, GetBucket, PeriodIndex, Misplaced;
    SamePeriodIff(t, u, WEEK);
    WeekBuckets(t);
    WeekBuckets(u);
  }

  /** So every Monday before that date has the bucket of the week before it. */
  lemma EarlyMondaysMove(t: DateTime, u: DateTime)
    requires DayOf(t) < -3 && !Misplaced(t) && Misplaced(u)
    ensures GetBucket(t, WEEK) == GetBucket(u, WEEK) <==> PeriodIndex(t, WEEK) == PeriodIndex(u, WEEK) + 1
    ensures PeriodIndex(t, WEEK) == PeriodIndex(u, WEEK) + 1 ==> Start(t, WEEK) != Start(u, WEEK)
  {
    hide Start, GetBucket, PeriodIndex, Misplaced;
    SamePeriodIff(t, u, WEEK);
    WeekBuckets(t);
    WeekBuckets(u);
  }

  /** For example Sunday 1969-12-28 and Thursday 1970-01-01. */
  lemma EarlyWeeksMerge()
    ensures GetBucket(-4 * DAY, WEEK) == GetBucket(0, WEEK) && Start(-4 * DAY, WEEK) != Start(0, WEEK)
  {
    assert DayOf(-4 * DAY) == -4;
  }

  // ------------------------------------------------ Resampler, DataReplay

  /** `Resampler::preload` (the rows without their time stamps). */
  method ResamplerRows(source: seq<Row>, tfc: TimeFrameCompression) returns (out: seq<Ohlcv>)
    requires tfc.compression > 0
    ensures out == Group(Bars(source), BucketKeys(source, tfc))
  {
    hide GetBucket, Group;
    ghost var bars, keys := Bars(source), BucketKeys(source, tfc);
    out := [];
    if |source| == 0 {
      return;
    }
    var acc := Ohlcv(0.0, 0.0, 0.0, 0.0, 0.0);
    var first := true;
    var current := -1;
    var i := 0;
    while i < |source|
      invariant i <= |source| && first == (i == 0) && (i == 0 ==> acc.volume == 0.0 && out == [])
      invariant i > 0 ==> current == keys[i - 1] && Init(bars, keys, i) == out + [acc]
    {
      var bar := source[i].bar;
      var bucket := GetBucket(source[i].time, tfc);
      if i == 0 {
        InitFirst(bars, keys);
      } else {
        InitStep(bars, keys, i);
      }
      if !first && bucket != current {
        out := out + [acc];
        acc := bar;
      } else {
        if first {
          acc := acc.(open := bar.open, high := bar.high, low := bar.low);
          first := false;
        } else {
          acc := acc.(high := Max(acc.high, bar.high), low := Min(acc.low, bar.low));
        }
        acc := acc.(close := bar.close, volume := acc.volume + bar.volume);
      }
      current := bucket;
      i := i + 1;
    }
    if !first {
      out := out + [acc];
    }
    assert bars[..i] == bars && keys[..i] == keys;
  }

  /** The row of the bucket of bar `i`, as far as it has got by then. */
  function SoFar(bars: seq<Ohlcv>, keys: seq<int>, i: nat): Ohlcv
    requires i < |bars| == |keys|
  {
    var g := Init(bars, keys, i + 1);
    g[|g| - 1]
  }

  /** `DataReplay::preload`: one row per source row, showing its bucket so far. */
  method ReplayRows(source: seq<Row>, tfc: TimeFrameCompression) returns (out: seq<Row>)
    requires tfc.compression > 0
    ensures |out| == |source|
    ensures forall i :: 0 <= i < |source| ==>
              out[i] == Row(source[i].time, SoFar(Bars(source), BucketKeys(source, tfc), i))
  {
    hide GetBucket, Init;
    ghost var bars, keys := Bars(source), BucketKeys(source, tfc);
    out := [];
    var acc := Ohlcv(0.0, 0.0, 0.0, 0.0, 0.0);
    var first := true;
    var current := -1;
    var i := 0;
    while i < |source|
      invariant i <= |source| && |out| == i && first == (i == 0) && (i == 0 ==> acc.volume == 0.0)
      invariant i > 0 ==> current == keys[i - 1] && acc == SoFar(bars, keys, i - 1)
      invariant forall j :: 0 <= j < i ==> out[j] == Row(source[j].time, SoFar(bars, keys, j))
    {
      var bar := source[i].bar;
      var bucket := GetBucket(source[i].time, tfc);
      if i == 0 {
        InitFirst(bars, keys);
      } else {
        InitStep(bars, keys, i);
      }
      if !first && bucket != current {
        acc := bar;
      } else {
        if first {
          acc := acc.(open := bar.open, high := bar.high, low := bar.low);
          first := false;
        } else {
          acc := acc.(high := Max(acc.high, bar.high), low := Min(acc.low, bar.low));
        }
        acc := acc.(close := bar.close, volume := acc.volume + bar.volume);
      }
      current := bucket;
      assert acc == SoFar(bars, keys, i);
      out := out + [Row(source[i].time, acc)];
      i := i + 1;
    }
  }

  /** `DataReplay::is_period_end`. */
  predicate IsPeriodEnd(source: seq<Row>, tfc: TimeFrameCompression, i: nat)
    requires tfc.compression > 0
  {
    i + 1 >= |source| || GetBucket(source[i].time, tfc) != GetBucket(source[i + 1].time, tfc)
  }

  // --------------------------------------------- the three of them agree

  lemma {:induction false} RunStartIff(keys: seq<int>, p: nat)
    requires p < |keys|
    ensures p in RunStarts(keys) <==> p == 0 || keys[p] != keys[p - 1]
  {
    var n := |keys| - 1;
    if p < n {
      RunStartIff(keys[..n], p);
    } else {
      assert forall j :: 0 <= j < |RunStarts(keys[..n])| ==> RunStarts(keys[..n])[j] < n;
    }
  }

  /** The replay row at the end of run `j` is the resampled row `j`, and those are the
      replay rows at which `is_period_end` holds. */
  lemma ReplayEndsAreRows(bars: seq<Ohlcv>, keys: seq<int>, j: nat)
    requires |bars| == |keys| && j < |RunStarts(keys)|
    ensures j < |Group(bars, keys)| && 0 < RunEnd(keys, j) <= |bars|
    ensures SoFar(bars, keys, RunEnd(keys, j) - 1) == Group(bars, keys)[j]
  {
    GroupLength(bars, keys);
    RunCut(keys, j);
    var m := RunEnd(keys, j);
    GroupCausal(bars, keys, m, j);
    assert j + 1 == |RunStarts(keys[..m])|;
  }

  lemma PeriodEndIff(source: seq<Row>, tfc: TimeFrameCompression, i: nat)
    requires tfc.compression > 0 && i < |source|
    ensures var keys := BucketKeys(source, tfc);
            IsPeriodEnd(source, tfc, i) <==> exists j :: 0 <= j < |RunStarts(keys)| && RunEnd(keys, j) == i + 1
  {
    var keys := BucketKeys(source, tfc);
    var s := RunStarts(keys);
    RunCut(keys, 0);
    if IsPeriodEnd(source, tfc, i) {
      if i + 1 == |source| {
        assert RunEnd(keys, |s| - 1) == i + 1;
      } else {
        RunStartIff(keys, i + 1);
        var j :| 0 <= j < |s| && s[j] == i + 1;
        assert RunEnd(keys, j - 1) == i + 1;
      }
    }
    forall j | 0 <= j < |s| && RunEnd(keys, j) == i + 1 ensures IsPeriodEnd(source, tfc, i) {
      if i + 1 < |source| {
        assert s[j + 1] == i + 1;
        RunStartIff(keys, i + 1);
      }
    }
  }

  /** Keys that agree on equality of neighbours make the same rows. */
  lemma {:induction false} SameNeighboursSameRows(bars: seq<Ohlcv>, keys: seq<int>, keys': seq<int>)
    requires |bars| == |keys| == |keys'|
    requires forall i :: 0 < i < |keys| ==> (keys[i] == keys[i - 1] <==> keys'[i] == keys'[i - 1])
    ensures Group(bars, keys) == Group(bars, keys')
  {
    hide Merge, Group;
    if bars == [] {
      assert keys == keys';
    } else {
      var n := |bars| - 1;
      SameNeighboursSameRows(bars[..n], keys[..n], keys'[..n]);
      GroupLast(bars, keys);
      GroupLast(bars, keys');
      assert n > 0 ==> (keys[n] == keys[n - 1] <==> keys'[n] == keys'[n - 1]);
    }
  }

  /** `Resampler` and `ResampledFeed` make the same rows. */
  lemma ResamplersAgree(source: seq<Row>, tfc: TimeFrameCompression)
    requires Supported(tfc) && (tfc.unit in {Minutes, Days} ==> DividesDay(tfc))
    requires tfc.unit == Weeks ==> forall i :: 0 <= i < |source| ==> DayOf(source[i].time) >= -3
    ensures Group(Bars(source), BucketKeys(source, tfc)) == Bars(Resample(source, tfc))
  {
    hide GetBucket, Start, Group;
    var keys, keys' := BucketKeys(source, tfc), PeriodKeys(source, tfc);
    forall i | 0 < i < |source| ensures keys[i] == keys[i - 1] <==> keys'[i] == keys'[i - 1] {
      BucketsArePeriods(source[i].time, source[i - 1].time, tfc);
    }
    SameNeighboursSameRows(Bars(source), keys, keys');
    GroupLength(Bars(source), keys');
    assert Bars(Resample(source, tfc)) == Group(Bars(source), keys');
  }
}
