/** Calendar periods partition time, stepping is additive, and the vocabulary nests. */
module IntervalLaws {
  import opened Calendar
  import opened Intervals

  /** The start of the period of `t`, for a timeframe the code accepts. */
  function Start(t: DateTime, tfc: TimeFrameCompression): DateTime
    requires Supported(tfc)
  {
    GridStart(PeriodIndex(t, tfc), tfc)
  }

  function End(t: DateTime, tfc: TimeFrameCompression): DateTime
    requires Supported(tfc)
  {
    GridStart(PeriodIndex(t, tfc) + 1, tfc)
  }

  /** The period functions accept exactly the supported timeframes, and every instant
      lies in its period; the end is the start of the next period. */
  lemma PeriodsPartition(t: DateTime, tfc: TimeFrameCompression)
    ensures PeriodStart(t, tfc).Ok? <==> Supported(tfc)
    ensures PeriodEnd(t, tfc).Ok? <==> Supported(tfc)
    ensures Supported(tfc) ==>
              && PeriodStart(t, tfc) == Ok(Start(t, tfc)) && PeriodEnd(t, tfc) == Ok(End(t, tfc))
              && PeriodStart(t, tfc).value <= t < PeriodEnd(t, tfc).value
              && PeriodStart(PeriodEnd(t, tfc).value, tfc) == PeriodEnd(t, tfc)
  {
    hide GridStart, PeriodIndex, PeriodStart, AdvancePeriods;
    StartIsGrid(t, tfc);
    AdvanceIsGrid(t, tfc, 1);
    if Supported(tfc) {
      GridBrackets(t, tfc);
      IndexOfStart(PeriodIndex(t, tfc) + 1, tfc);
      StartIsGrid(End(t, tfc), tfc);
    }
  }

  lemma StartIdempotent(t: DateTime, tfc: TimeFrameCompression)
    requires Supported(tfc)
    ensures Start(Start(t, tfc), tfc) == Start(t, tfc)
  {
    IndexOfStart(PeriodIndex(t, tfc), tfc);
  }

  lemma IndexMonotone(t: DateTime, u: DateTime, tfc: TimeFrameCompression)
    requires Supported(tfc) && t <= u
    ensures PeriodIndex(t, tfc) <= PeriodIndex(u, tfc)
  {
    hide GridStart, PeriodIndex;
    GridBrackets(t, tfc);
    GridBrackets(u, tfc);
    var i, j := PeriodIndex(t, tfc), PeriodIndex(u, tfc);
    if j < i && j + 1 < i {
      GridIncreases(j + 1, i, tfc);
    }
  }

  lemma StartMonotone(t: DateTime, u: DateTime, tfc: TimeFrameCompression)
    requires Supported(tfc) && t <= u
    ensures Start(t, tfc) <= Start(u, tfc) && End(t, tfc) <= End(u, tfc)
  {
    hide GridStart, PeriodIndex;
    IndexMonotone(t, u, tfc);
    var i, j := PeriodIndex(t, tfc), PeriodIndex(u, tfc);
    if i < j {
      GridIncreases(i, j, tfc);
      GridIncreases(i + 1, j + 1, tfc);
    }
  }

  /** Two instants share a period exactly when the starts of their periods are equal. */
  lemma SamePeriodIff(t: DateTime, u: DateTime, tfc: TimeFrameCompression)
    requires Supported(tfc)
    ensures Start(t, tfc) == Start(u, tfc) <==> Start(t, tfc) <= u < End(t, tfc)
    ensures Start(t, tfc) == Start(u, tfc) <==> PeriodIndex(t, tfc) == PeriodIndex(u, tfc)
  {
    hide GridStart, PeriodIndex;
    GridBrackets(u, tfc);
    var i, j := PeriodIndex(t, tfc), PeriodIndex(u, tfc);
    if Start(t, tfc) <= u < End(t, tfc) {
      IndexUnique(u, i, tfc);
    }
    if i < j {
      GridIncreases(i, j, tfc);
    } else if j < i {
      GridIncreases(j, i, tfc);
    }
  }

  /** Stepping is additive, for any numbers of periods and any instant. */
  lemma AdvanceAdditive(t: DateTime, tfc: TimeFrameCompression, m: int, n: int)
    requires Supported(tfc)
    ensures AdvancePeriods(t, tfc, m).Ok?
    ensures AdvancePeriods(AdvancePeriods(t, tfc, m).value, tfc, n) == AdvancePeriods(t, tfc, m + n)
    ensures AdvancePeriods(t, tfc, 0) == PeriodStart(t, tfc)
  {
    hide GridStart, PeriodIndex, PeriodStart, AdvancePeriods;
    var i := PeriodIndex(t, tfc);
    AdvanceIsGrid(t, tfc, m);
    AdvanceIsGrid(t, tfc, m + n);
    AdvanceIsGrid(t, tfc, 0);
    StartIsGrid(t, tfc);
    IndexOfStart(i + m, tfc);
    AdvanceIsGrid(GridStart(i + m, tfc), tfc, n);
  }

  /** A fixed-span period lasts as long as `duration_of` says; weeks and months, which it
      refuses, last seven days and as long as the calendar says. */
  lemma PeriodLength(t: DateTime, tfc: TimeFrameCompression)
    requires Supported(tfc)
    ensures match tfc.unit
            case Minutes | Days => DurationOf(tfc) == Ok((End(t, tfc) - Start(t, tfc)) / SECOND)
                                   && (End(t, tfc) - Start(t, tfc)) % SECOND == 0
            case Weeks => DurationOf(tfc) == InvalidArgument && End(t, tfc) - Start(t, tfc) == 7 * DAY
            case Months =>
              var k := MonthOf(DayOf(t));
              DurationOf(tfc) == InvalidArgument && End(t, tfc) - Start(t, tfc) == MonthLength(k / 12, k % 12) * DAY
  {
    hide FirstOf, MonthOf;
    var i := PeriodIndex(t, tfc);
    match tfc.unit
    case Minutes | Days =>
      assert (i + 1) * Span(tfc) - i * Span(tfc) == Span(tfc);
    case Weeks =>
    case Months => NextMonth(i);
  }

  // -------------------------------------------------------- the vocabulary

  /** Over the vocabulary the rank order is the order of the table, and every entry is
      accepted by the period functions. */
  lemma VocabularyOrdered(i: nat, j: nat)
    requires i < |VOCABULARY| && j < |VOCABULARY|
    ensures Supported(VOCABULARY[i].1)
    ensures FinerThan(VOCABULARY[i].1, VOCABULARY[j].1) <==> i < j
    ensures VOCABULARY[i].0 == VOCABULARY[j].0 <==> i == j
  {
    forall k | 0 <= k < |VOCABULARY|
      ensures |VOCABULARY[k].0| in {2, 3} && VOCABULARY[k].1.unit in {Minutes, Days, Weeks, Months}
    {
    }
  }

  // --------------------------------------------------------------- nesting

  /** Every fine period lies within one coarse period. */
  ghost predicate Nested(fine: TimeFrameCompression, coarse: TimeFrameCompression)
    requires Supported(fine) && Supported(coarse)
  {
    forall t: DateTime :: Start(Start(t, fine), coarse) == Start(t, coarse)
  }

  /** It is enough that no coarse boundary falls strictly inside a fine period. */
  lemma NestedAt(t: DateTime, fine: TimeFrameCompression, coarse: TimeFrameCompression)
    requires Supported(fine) && Supported(coarse)
    requires Start(t, coarse) <= Start(t, fine)
    ensures Start(Start(t, fine), coarse) == Start(t, coarse)
  {
    hide GridStart, PeriodIndex;
    GridBrackets(t, fine);
    GridBrackets(t, coarse);
    IndexUnique(Start(t, fine), PeriodIndex(t, coarse), coarse);
  }

  /** A timeframe that divides the day. */
  predicate DividesDay(tfc: TimeFrameCompression) {
    && Supported(tfc) && tfc.unit in {Minutes, Days}
    && DAY_SECONDS % DurationOf(tfc).value == 0
  }

  /** The period of an instant starts on the same day, for timeframes that divide the day. */
  lemma StartWithinDay(t: DateTime, tfc: TimeFrameCompression)
    requires DividesDay(tfc)
    ensures DayOf(t) * DAY <= Start(t, tfc)
  {
    var s := Span(tfc);
    SpanPositive(tfc);
    var d := DurationOf(tfc).value;
    var k := DAY_SECONDS / d;
    assert DAY_SECONDS == d * k;
    assert DAY == s * k;
    var m := DayOf(t) * k;
    assert m * s == DayOf(t) * DAY;
    FloorBrackets(t, DAY);
    FloorAtLeast(t, s, m);
  }

  lemma FloorAtLeast(t: int, s: int, m: int)
    requires s > 0 && m * s <= t
    ensures m * s <= t / s * s
  {
    FloorBrackets(t, s);
    if t / s < m {
      ProductMonotone(t / s + 1, m, s);
    }
  }

  /** Both the week and the month of an instant start at the start of some day, on or
      before its own. */
  lemma CoarseStartsAtDay(t: DateTime, coarse: TimeFrameCompression)
    requires Supported(coarse) && coarse.unit in {Weeks, Months}
    ensures Start(t, coarse) <= DayOf(t) * DAY
  {
    hide FirstOf, MonthOf;
    if coarse.unit == Months {
      var k := MonthOf(DayOf(t));
      assert FirstOf(k) <= DayOf(t) < FirstOf(k + 1);
    }
  }

  lemma MultipleNests(t: DateTime, fine: TimeFrameCompression, coarse: TimeFrameCompression)
    requires Supported(fine) && Supported(coarse)
    requires fine.unit in {Minutes, Days} && coarse.unit in {Minutes, Days}
    requires DurationOf(coarse).value % DurationOf(fine).value == 0
    ensures Start(t, coarse) <= Start(t, fine)
  {
    var f, c := DurationOf(fine).value, DurationOf(coarse).value;
    var k := c / f;
    assert c == f * k;
    SpanPositive(fine);
    SpanPositive(coarse);
    assert Span(coarse) == Span(fine) * k;
    FloorBrackets(t, Span(coarse));
    var m := t / Span(coarse) * k;
    assert m * Span(fine) == t / Span(coarse) * Span(coarse);
    FloorAtLeast(t, Span(fine), m);
  }

  /** Every finer period of the vocabulary nests in every coarser one, except that weeks
      do not nest in months. */
  lemma VocabularyNests(i: nat, j: nat)
    requires i < j < |VOCABULARY|
    ensures Supported(VOCABULARY[i].1) && Supported(VOCABULARY[j].1)
    ensures Nested(VOCABULARY[i].1, VOCABULARY[j].1) <==> !(i == 8 && j == 9)
  {
    hide GridStart, PeriodIndex;
    VocabularyOrdered(i, j);
    var fine, coarse := VOCABULARY[i].1, VOCABULARY[j].1;
    if i == 8 && j == 9 {
      WeekCrossesMonth();
    } else {
      forall t: DateTime ensures Start(Start(t, fine), coarse) == Start(t, coarse) {
        if coarse.unit in {Minutes, Days} {
          MultipleNests(t, fine, coarse);
        } else {
          StartWithinDay(t, fine);
          CoarseStartsAtDay(t, coarse);
        }
        NestedAt(t, fine, coarse);
      }
    }
  }

  const WEEK := TimeFrameCompression(Weeks, 1)
  const MONTH := TimeFrameCompression(Months, 1)

  /** The week of 1970-01-01 starts in December 1969. */
  lemma WeekCrossesMonth()
    ensures !Nested(WEEK, MONTH)
  {
    EpochIsDayZero();
    MonthOfUnique(0, EPOCH_MONTH);
    NextMonth(EPOCH_MONTH - 1);
    MonthOfUnique(-3, EPOCH_MONTH - 1);
    assert Start(0, WEEK) == -3 * DAY;
    assert Start(0, MONTH) == 0;
    assert DayOf(-3 * DAY) == -3;
    assert Start(-3 * DAY, MONTH) == FirstOf(EPOCH_MONTH - 1) * DAY;
    assert Start(Start(0, WEEK), MONTH) != Start(0, MONTH);
  }
}
