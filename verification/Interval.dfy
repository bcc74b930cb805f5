/** The interval vocabulary and UTC period bucketing (`interval.hpp`).

    An instant is a number of nanoseconds since the Unix epoch, the tick of
    `system_clock`; it may be negative. */
module Intervals {
  import opened Calendar

  type DateTime = int

  const SECOND: int := 1_000_000_000
  const DAY_SECONDS: int := 86_400
  const DAY: int := 86_400_000_000_000

  datatype TimeFrame = Tick | Seconds | Minutes | Days | Weeks | Months | Years

  datatype TimeFrameCompression = TimeFrameCompression(unit: TimeFrame, compression: int)

  /** A result, or the `std::invalid_argument` that the code throws. */
  datatype Checked<+T> = Ok(value: T) | InvalidArgument

  const VOCABULARY: seq<(string, TimeFrameCompression)> := [
    ("1m", TimeFrameCompression(Minutes, 1)),
    ("5m", TimeFrameCompression(Minutes, 5)),
    ("15m", TimeFrameCompression(Minutes, 15)),
    ("30m", TimeFrameCompression(Minutes, 30)),
    ("1h", TimeFrameCompression(Minutes, 60)),
    ("2h", TimeFrameCompression(Minutes, 120)),
    ("4h", TimeFrameCompression(Minutes, 240)),
    ("1d", TimeFrameCompression(Days, 1)),
    ("1w", TimeFrameCompression(Weeks, 1)),
    ("1M", TimeFrameCompression(Months, 1))]

  /** Division as C++ has it: towards zero. */
  function TruncDiv(a: int, b: int): int
    requires b > 0
  {
    if a >= 0 then a / b else -(-a / b)
  }

  function TruncMod(a: int, b: int): int
    requires b > 0
  {
    a - b * TruncDiv(a, b)
  }

  /** `duration_of`, in seconds. */
  function DurationOf(tfc: TimeFrameCompression): Checked<int> {
    if tfc.compression <= 0 then InvalidArgument
    else match tfc.unit
      case Minutes => Ok(60 * tfc.compression)
      case Days => Ok(DAY_SECONDS * tfc.compression)
      case _ => InvalidArgument
  }

  /** `floor<days>`. */
  function DayOf(t: DateTime): int {
    t / DAY
  }

  /** Days since Monday (`weekday{day} - Monday`); 1970-01-01 was a Thursday. */
  function DaysSinceMonday(day: int): int {
    var weekday := (day + 4) % 7; // 0 is Sunday
    (weekday - 1) % 7
  }

  /** `period_start`. */
  function PeriodStart(t: DateTime, tfc: TimeFrameCompression): Checked<DateTime> {
    match tfc.unit
    case Minutes | Days =>
      (match DurationOf(tfc)
       case InvalidArgument => InvalidArgument
       case Ok(span) =>
         var sec := t / SECOND;
         var bucket := TruncDiv(sec, span) - if TruncMod(sec, span) != 0 && sec < 0 then 1 else 0;
         Ok(bucket * span * SECOND))
    case Weeks =>
      if tfc.compression != 1 then InvalidArgument
      else Ok((DayOf(t) - DaysSinceMonday(DayOf(t))) * DAY)
    case Months =>
      if tfc.compression != 1 then InvalidArgument
      else Ok(FirstOf(MonthOf(DayOf(t))) * DAY)
    case _ => InvalidArgument
  }

  /** `advance_periods`. */
  function AdvancePeriods(t: DateTime, tfc: TimeFrameCompression, n: int): Checked<DateTime> {
    match PeriodStart(t, tfc)
    case InvalidArgument => InvalidArgument
    case Ok(start) =>
      match tfc.unit
      case Minutes | Days =>
        (match DurationOf(tfc)
         case InvalidArgument => InvalidArgument
         case Ok(span) => Ok(start + n * (span * SECOND)))
      case Weeks => Ok(start + n * (7 * DAY))
      case Months => Ok(FirstOf(MonthOf(DayOf(start)) + n) * DAY)
      case _ => InvalidArgument
  }

  /** `period_end`. */
  function PeriodEnd(t: DateTime, tfc: TimeFrameCompression): Checked<DateTime> {
    AdvancePeriods(t, tfc, 1)
  }

  function Rank(unit: TimeFrame): int {
    match unit
    case Tick => 0
    case Seconds => 1
    case Minutes => 2
    case Days => 3
    case Weeks => 4
    case Months => 5
    case Years => 6
  }

  /** `finer_than`. */
  predicate FinerThan(a: TimeFrameCompression, b: TimeFrameCompression) {
    if a.unit != b.unit then Rank(a.unit) < Rank(b.unit) else a.compression < b.compression
  }

  // ------------------------------------------------------------ the grid

  /** The timeframes the period functions accept. */
  predicate Supported(tfc: TimeFrameCompression) {
    match tfc.unit
    case Minutes | Days => tfc.compression > 0
    case Weeks | Months => tfc.compression == 1
    case _ => false
  }

  /** Ticks of a fixed-span period. */
  function Span(tfc: TimeFrameCompression): int
    requires tfc.unit in {Minutes, Days} && tfc.compression > 0
  {
    DurationOf(tfc).value * SECOND
  }

  /** The number of the period an instant falls into. */
  function PeriodIndex(t: DateTime, tfc: TimeFrameCompression): int
    requires Supported(tfc)
  {
    match tfc.unit
    case Minutes | Days => t / Span(tfc)
    case Weeks => (DayOf(t) + 3) / 7
    case Months => MonthOf(DayOf(t))
  }

  /** The first instant of a period. */
  function GridStart(i: int, tfc: TimeFrameCompression): DateTime
    requires Supported(tfc)
  {
    match tfc.unit
    case Minutes | Days => i * Span(tfc)
    case Weeks => (7 * i - 3) * DAY
    case Months => FirstOf(i) * DAY
  }

  /** Periods follow each other without gap or overlap, and each instant is in the one
      its number says. */
  lemma GridBrackets(t: DateTime, tfc: TimeFrameCompression)
    requires Supported(tfc)
    ensures GridStart(PeriodIndex(t, tfc), tfc) <= t < GridStart(PeriodIndex(t, tfc) + 1, tfc)
  {
    hide FirstOf, MonthOf, DurationOf;
    match tfc.unit
    case Minutes | Days =>
      SpanPositive(tfc);
      FloorBrackets(t, Span(tfc));
    case Weeks =>
    case Months =>
      var day := DayOf(t);
      var k := MonthOf(day);
      assert FirstOf(k) <= day < FirstOf(k + 1);
  }

  lemma SpanPositive(tfc: TimeFrameCompression)
    requires tfc.unit in {Minutes, Days} && tfc.compression > 0
    ensures Span(tfc) > 0
  {
  }

  lemma FloorBrackets(t: int, s: int)
    requires s > 0
    ensures t / s * s <= t < (t / s + 1) * s
  {
    assert t == s * (t / s) + t % s;
  }

  lemma GridIncreases(i: int, j: int, tfc: TimeFrameCompression)
    requires Supported(tfc) && i < j
    ensures GridStart(i, tfc) < GridStart(j, tfc)
  {
    hide FirstOf, DurationOf;
    match tfc.unit
    case Minutes | Days =>
      SpanPositive(tfc);
      ProductIncreases(i, j, Span(tfc));
    case Weeks =>
    case Months => MonthsIncrease(i, j);
  }

  lemma ProductIncreases(i: int, j: int, s: int)
    requires s > 0 && i < j
    ensures i * s < j * s
  {
  }

  lemma IndexUnique(t: DateTime, i: int, tfc: TimeFrameCompression)
    requires Supported(tfc) && GridStart(i, tfc) <= t < GridStart(i + 1, tfc)
    ensures PeriodIndex(t, tfc) == i
  {
    hide GridStart, PeriodIndex;
    GridBrackets(t, tfc);
    var k := PeriodIndex(t, tfc);
    if k < i && k + 1 < i {
      GridIncreases(k + 1, i, tfc);
    } else if i < k && i + 1 < k {
      GridIncreases(i + 1, k, tfc);
    }
  }

  lemma IndexOfStart(i: int, tfc: TimeFrameCompression)
    requires Supported(tfc)
    ensures PeriodIndex(GridStart(i, tfc), tfc) == i
  {
    GridIncreases(i, i + 1, tfc);
    IndexUnique(GridStart(i, tfc), i, tfc);
  }

  // --------------------------------------- the code computes on the grid

  /** Truncating division with the correction for negative instants is the floor. */
  lemma CorrectedDivision(sec: int, span: int)
    requires span > 0
    ensures TruncDiv(sec, span) - (if TruncMod(sec, span) != 0 && sec < 0 then 1 else 0) == sec / span
  {
    if sec < 0 {
      var q, r := -sec / span, -sec % span;
      assert -sec == span * q + r;
      if r == 0 {
        FloorIs(sec, span, -q);
      } else {
        assert sec == span * (-q - 1) + (span - r);
        FloorIs(sec, span, -q - 1);
      }
    }
  }

  lemma FloorIs(x: int, s: int, q: int)
    requires s > 0 && s * q <= x < s * q + s
    ensures x / s == q
  {
    var d := x / s;
    assert x == s * d + x % s;
    if d < q {
      ProductMonotone(d + 1, q, s);
    } else if d > q {
      ProductMonotone(q + 1, d, s);
    }
  }

  lemma ProductMonotone(i: int, j: int, s: int)
    requires s > 0 && i <= j
    ensures s * i <= s * j
  {
  }

  lemma NestedFloor(t: int, a: int, b: int)
    requires a > 0 && b > 0
    ensures t / a / b == t / (a * b)
    ensures a * b > 0
  {
    var q := t / a;
    assert t == a * q + t % a && q == b * (q / b) + q % b;
    NestedParts(t, a, b, q, t % a, q / b, q % b);
  }

  lemma NestedParts(t: int, a: int, b: int, q: int, r: int, p: int, u: int)
    requires 0 <= r < a && 0 <= u < b && t == a * q + r && q == b * p + u
    ensures a * b > 0 && t / (a * b) == p
  {
    Distributed(a, b, p, u);
    ProductMonotone(0, u, a);
    ProductMonotone(u, b - 1, a);
    ProductMonotone(1, b, a);
    FloorIs(t, a * b, p);
  }

  lemma Distributed(a: int, b: int, p: int, u: int)
    ensures a * (b * p + u) == (a * b) * p + a * u
    ensures a * (b - 1) == a * b - a
  {
  }

  lemma StartIsGrid(t: DateTime, tfc: TimeFrameCompression)
    ensures PeriodStart(t, tfc).Ok? <==> Supported(tfc)
    ensures Supported(tfc) ==> PeriodStart(t, tfc) == Ok(GridStart(PeriodIndex(t, tfc), tfc))
  {
    hide FirstOf, MonthOf, TruncDiv, TruncMod;
    if tfc.unit in {Minutes, Days} && tfc.compression > 0 {
      var span := DurationOf(tfc).value;
      CorrectedDivision(t / SECOND, span);
      NestedFloor(t, SECOND, span);
      var q := t / SECOND / span;
      assert SECOND * span == Span(tfc);
      assert q * span * SECOND == q * Span(tfc);
    }
  }

  /** Stepping `n` periods, forwards or backwards, moves `n` places on the grid. */
  lemma AdvanceIsGrid(t: DateTime, tfc: TimeFrameCompression, n: int)
    ensures AdvancePeriods(t, tfc, n).Ok? <==> Supported(tfc)
    ensures Supported(tfc) ==> AdvancePeriods(t, tfc, n) == Ok(GridStart(PeriodIndex(t, tfc) + n, tfc))
  {
    hide FirstOf, MonthOf, PeriodStart;
    StartIsGrid(t, tfc);
    if Supported(tfc) {
      var i := PeriodIndex(t, tfc);
      match tfc.unit
      case Minutes | Days =>
        assert i * Span(tfc) + n * Span(tfc) == (i + n) * Span(tfc);
      case Weeks =>
      case Months =>
        IndexOfStart(i, tfc);
    }
  }
}
