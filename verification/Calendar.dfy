/** The proleptic Gregorian calendar behind `std::chrono::sys_days` and
    `std::chrono::year_month_day` (section [time.cal.ymd] of the C++20 standard).

    Days are counted from 1970-01-01, months from January of the year 0.  The start of a
    month comes from the leap-year rule and the lengths of the months; the month of a day
    is the one it falls into. */
module Calendar {

  predicate IsLeap(year: int) {
    year % 4 == 0 && (year % 100 != 0 || year % 400 == 0)
  }

  /** Number of days of month `month` (0 is January). */
  function MonthLength(year: int, month: int): int
    requires 0 <= month < 12
  {
    if month == 1 then (if IsLeap(year) then 29 else 28)
    else if month in {3, 5, 8, 10} then 30
    else 31
  }

  /** Days from the start of year 0 to the start of the given year. */
  function DaysBeforeYear(year: int): int {
    365 * year + (year + 3) / 4 - (year + 99) / 100 + (year + 399) / 400
  }

  /** Days from the start of the year to the start of the given month. */
  function DaysBeforeMonth(year: int, month: int): int
    requires 0 <= month <= 12
  {
    if month == 0 then 0 else DaysBeforeMonth(year, month - 1) + MonthLength(year, month - 1)
  }

  const EPOCH_OFFSET := 719528 // days from 0000-01-01 to 1970-01-01

  /** The day on which month number `k` (12 times the year plus the month) starts. */
  function FirstOf(k: int): int {
    DaysBeforeYear(k / 12) + DaysBeforeMonth(k / 12, k % 12) - EPOCH_OFFSET
  }

  const EPOCH_MONTH := 23640 // January 1970

  lemma EpochIsDayZero()
    ensures FirstOf(EPOCH_MONTH) == 0 && FirstOf(EPOCH_MONTH + 1) == 31
  {
  }

  /** Thirty days have April, June, September and November; February has 29 in a leap year. */
  lemma MonthLengths(year: int)
    ensures forall m :: 0 <= m < 12 && m != 1 ==> MonthLength(year, m) == if m == 3 || m == 5 || m == 8 || m == 10 then 30 else 31
    ensures MonthLength(year, 1) == if year % 400 == 0 || (year % 4 == 0 && year % 100 != 0) then 29 else 28
  {
    Multiples(year);
    LeapIs(year);
  }

  lemma YearLength(year: int)
    ensures DaysBeforeYear(year + 1) - DaysBeforeYear(year) == DaysBeforeMonth(year, 12)
    ensures DaysBeforeMonth(year, 12) == if IsLeap(year) then 366 else 365
  {
    hide DaysBeforeYear;
    assert DaysBeforeMonth(year, 1) == 31;
    assert DaysBeforeMonth(year, 2) == 31 + MonthLength(year, 1);
    assert DaysBeforeMonth(year, 4) == DaysBeforeMonth(year, 2) + 61;
    assert DaysBeforeMonth(year, 6) == DaysBeforeMonth(year, 4) + 61;
    assert DaysBeforeMonth(year, 8) == DaysBeforeMonth(year, 6) + 62;
    assert DaysBeforeMonth(year, 10) == DaysBeforeMonth(year, 8) + 61;
    assert DaysBeforeMonth(year, 12) == DaysBeforeMonth(year, 10) + 61;
    LeapDays(year);
  }

  lemma LeapDays(year: int)
    ensures DaysBeforeYear(year + 1) - DaysBeforeYear(year) == if IsLeap(year) then 366 else 365
  {
    Carry(year, 4);
    Carry(year, 100);
    Carry(year, 400);
    Multiples(year);
    hide IsLeap;
    assert IsLeap(year) <==> year % 4 == 0 && (year % 100 != 0 || year % 400 == 0) by { LeapIs(year); }
  }

  lemma LeapIs(year: int)
    ensures IsLeap(year) <==> year % 4 == 0 && (year % 100 != 0 || year % 400 == 0)
  {
  }

  lemma Multiples(year: int)
    ensures year % 100 == 0 ==> year % 4 == 0
    ensures year % 400 == 0 ==> year % 100 == 0
  {
  }

  /** A rounded-up quotient grows exactly at the multiples. */
  lemma Carry(year: int, m: int)
    requires m in {4, 100, 400}
    ensures (year + m) / m - (year + m - 1) / m == if year % m == 0 then 1 else 0
  {
  }

  /** Months follow each other without gap: each starts where the last one ends. */
  lemma NextMonth(k: int)
    ensures FirstOf(k + 1) == FirstOf(k) + MonthLength(k / 12, k % 12)
  {
    if k % 12 == 11 {
      assert (k + 1) / 12 == k / 12 + 1 && (k + 1) % 12 == 0;
      YearLength(k / 12);
    } else {
      assert (k + 1) / 12 == k / 12 && (k + 1) % 12 == k % 12 + 1;
    }
  }

  lemma {:induction false} MonthsIncrease(j: int, k: int)
    requires j < k
    ensures FirstOf(j) + 28 <= FirstOf(k)
    decreases k - j
  {
    hide FirstOf;
    NextMonth(k - 1);
    if j < k - 1 {
      MonthsIncrease(j, k - 1);
    }
  }

  function FindUp(day: int, k: int): (r: int)
    requires FirstOf(k) <= day
    ensures FirstOf(r) <= day < FirstOf(r + 1)
    decreases day - FirstOf(k)
  {
    hide FirstOf;
    MonthsIncrease(k, k + 1);
    if day < FirstOf(k + 1) then k else FindUp(day, k + 1)
  }

  function FindDown(day: int, k: int): (r: int)
    requires day < FirstOf(k + 1)
    ensures FirstOf(r) <= day < FirstOf(r + 1)
    decreases FirstOf(k + 1) - day
  {
    hide FirstOf;
    MonthsIncrease(k, k + 1);
    if FirstOf(k) <= day then k else FindDown(day, k - 1)
  }

  /** The month a day belongs to (`year_month_day{day}`, without the day). */
  function MonthOf(day: int): (k: int)
    ensures FirstOf(k) <= day < FirstOf(k + 1)
  {
    hide FirstOf;
    if FirstOf(EPOCH_MONTH) <= day then FindUp(day, EPOCH_MONTH) else FindDown(day, EPOCH_MONTH - 1)
  }

  lemma MonthOfUnique(day: int, k: int)
    requires FirstOf(k) <= day < FirstOf(k + 1)
    ensures MonthOf(day) == k
  {
    hide FirstOf, FindUp, FindDown, MonthOf;
    var m := MonthOf(day);
    if m < k {
      if m + 1 < k {
        MonthsIncrease(m + 1, k);
      }
    } else if k < m {
      if k + 1 < m {
        MonthsIncrease(k + 1, m);
      }
    }
  }
}
