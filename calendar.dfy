/**
 * Wall-clock timestamps with one-second resolution and the calendar-month
 * arithmetic of `relativedelta(months=k)`: the month moves by k, the day of
 * month is clamped to the target month's length and the time of day is kept.
 */
module Calendar {

  /** A naive wall-clock timestamp; `ValidDateTime` says which ones exist. */
  datatype DateTime = DateTime(year: int, month: int, day: int, hour: int, minute: int, second: int)

  /** The range of years a Python `datetime` can hold. */
  const MinYear: int := 1
  const MaxYear: int := 9999

  /** Seconds reserved for one month in `Instant`; every month fits in 31 days. */
  const MonthSpan: int := 31 * 86400

  predicate IsLeapYear(y: int)
  {
    y % 4 == 0 && (y % 100 != 0 || y % 400 == 0)
  }

  /** The Gregorian length of month m of year y. */
  function DaysInMonth(y: int, m: int): (n: int)
    requires 1 <= m <= 12
    ensures 28 <= n <= 31
    ensures m == 2 ==> (n == 29 <==> IsLeapYear(y))
    ensures m != 2 ==> (n == 30 <==> m in {4, 6, 9, 11})
    ensures m in {1, 3, 5, 7, 8, 10, 12} ==> n == 31
    ensures m == 2 && !IsLeapYear(y) ==> n == 28
  {
    if m == 2 then (if IsLeapYear(y) then 29 else 28)
    else if m == 4 || m == 6 || m == 9 || m == 11 then 30
    else 31
  }

  predicate ValidTime(d: DateTime)
  {
    0 <= d.hour < 24 && 0 <= d.minute < 60 && 0 <= d.second < 60
  }

  /** The timestamp names a real instant of the proleptic Gregorian calendar within Python's year range. */
  predicate ValidDateTime(d: DateTime)
  {
    && MinYear <= d.year <= MaxYear
    && 1 <= d.month <= 12
    && 1 <= d.day <= DaysInMonth(d.year, d.month)
    && ValidTime(d)
  }

  /** Consecutive numbering of calendar months: one more for each following month. */
  function MonthIndex(d: DateTime): int
  {
    d.year * 12 + d.month - 1
  }

  /** A date in month m of year y, with m in range, has that year and month. */
  lemma MonthOf(d: DateTime, y: int, m: int)
    requires 1 <= d.month <= 12 && 1 <= m <= 12
    requires MonthIndex(d) == y * 12 + m - 1
    ensures d.year == y && d.month == m
  {
  }

  /** Seconds elapsed since the start of d's month. */
  function TimeInMonth(d: DateTime): int
  {
    (d.day - 1) * 86400 + d.hour * 3600 + d.minute * 60 + d.second
  }

  /** A number that orders valid timestamps as the calendar does. */
  function Instant(d: DateTime): int
  {
    MonthIndex(d) * MonthSpan + TimeInMonth(d)
  }

  /** Chronological order spelled out field by field, as `datetime` compares. */
  predicate Before(a: DateTime, b: DateTime)
  {
    || a.year < b.year
    || (a.year == b.year && a.month < b.month)
    || (a.year == b.year && a.month == b.month && a.day < b.day)
    || (a.year == b.year && a.month == b.month && a.day == b.day && a.hour < b.hour)
    || (a.year == b.year && a.month == b.month && a.day == b.day && a.hour == b.hour && a.minute < b.minute)
    || (a.year == b.year && a.month == b.month && a.day == b.day && a.hour == b.hour && a.minute == b.minute
        && a.second < b.second)
  }

  lemma TimeInMonthBounds(d: DateTime)
    requires ValidDateTime(d)
    ensures 0 <= TimeInMonth(d) < MonthSpan
  {
  }

  /** A timestamp in a later month is a later instant, whatever the day and time. */
  lemma LaterMonthLaterInstant(a: DateTime, b: DateTime)
    requires ValidDateTime(a) && ValidDateTime(b)
    requires MonthIndex(a) < MonthIndex(b)
    ensures Instant(a) < Instant(b)
  {
    TimeInMonthBounds(a);
    TimeInMonthBounds(b);
    assert (MonthIndex(a) + 1) * MonthSpan <= MonthIndex(b) * MonthSpan;
  }

  /** `Instant` orders valid timestamps exactly as the field-by-field comparison does. */
  lemma InstantOrder(a: DateTime, b: DateTime)
    requires ValidDateTime(a) && ValidDateTime(b)
    ensures Instant(a) < Instant(b) <==> Before(a, b)
    ensures Instant(a) == Instant(b) <==> a == b
  {
    TimeInMonthBounds(a);
    TimeInMonthBounds(b);
    if MonthIndex(a) < MonthIndex(b) {
      LaterMonthLaterInstant(a, b);
    } else if MonthIndex(b) < MonthIndex(a) {
      LaterMonthLaterInstant(b, a);
    } else {
      assert a.year == b.year && a.month == b.month;
    }
  }

  /**
   * `d + relativedelta(months=k)`: move k calendar months forward, keep the
   * day of month when the target month has it, otherwise take that month's
   * last day, and keep the time of day. The year is not range-checked here.
   */
  function AddMonths(d: DateTime, k: nat): (r: DateTime)
    requires 1 <= d.month <= 12
    ensures MonthIndex(r) == MonthIndex(d) + k
    ensures 1 <= r.month <= 12
    ensures r.hour == d.hour && r.minute == d.minute && r.second == d.second
    ensures d.day <= DaysInMonth(r.year, r.month) ==> r.day == d.day
    ensures d.day > DaysInMonth(r.year, r.month) ==> r.day == DaysInMonth(r.year, r.month)
  {
    var total := MonthIndex(d) + k;
    var y, m := total / 12, total % 12 + 1;
    var last := DaysInMonth(y, m);
    DateTime(y, m, if d.day <= last then d.day else last, d.hour, d.minute, d.second)
  }

  /** Adding no months changes nothing. */
  lemma AddZeroMonths(d: DateTime)
    requires ValidDateTime(d)
    ensures AddMonths(d, 0) == d
  {
  }

  /**
   * The day AddMonths picks is the latest day of the target month that does
   * not pass the original day: no valid day of the target month lies
   * strictly between them.
   */
  lemma AddMonthsClampsDay(d: DateTime, k: nat, day: int)
    requires ValidDateTime(d)
    requires 1 <= day <= d.day
    ensures var r := AddMonths(d, k);
      1 <= r.day <= d.day && (day <= DaysInMonth(r.year, r.month) ==> day <= r.day)
  {
  }

  /** While the year stays in range, adding months gives a timestamp that exists. */
  lemma AddMonthsValid(d: DateTime, k: nat)
    requires ValidDateTime(d)
    requires AddMonths(d, k).year <= MaxYear
    ensures ValidDateTime(AddMonths(d, k))
  {
    var r := AddMonths(d, k);
    assert r.year * 12 + r.month - 1 == d.year * 12 + d.month - 1 + k;
    assert r.year >= d.year;
  }

  /** The year stays in range exactly while the target month is not past December of MaxYear. */
  lemma AddMonthsInRange(d: DateTime, k: nat)
    requires 1 <= d.month <= 12
    ensures AddMonths(d, k).year <= MaxYear <==> MonthIndex(d) + k <= MaxYear * 12 + 11
  {
    var r := AddMonths(d, k);
    assert MonthIndex(r) == r.year * 12 + r.month - 1;
  }

  /** More months added to the same start give a strictly later instant. */
  lemma AddMonthsIncreasing(d: DateTime, j: nat, k: nat)
    requires ValidDateTime(d)
    requires j < k
    requires AddMonths(d, k).year <= MaxYear
    ensures Instant(AddMonths(d, j)) < Instant(AddMonths(d, k))
  {
    AddMonthsInRange(d, k);
    AddMonthsInRange(d, j);
    AddMonthsValid(d, j);
    AddMonthsValid(d, k);
    LaterMonthLaterInstant(AddMonths(d, j), AddMonths(d, k));
  }

  /**
   * Month steps do not compose: stepping one month twice from March 31 lands
   * on May 30, while adding two months at once lands on May 31.
   */
  lemma AddMonthsNotIterated()
    ensures var march31 := DateTime(2022, 3, 31, 23, 59, 59);
      && AddMonths(AddMonths(march31, 1), 1) == DateTime(2022, 5, 30, 23, 59, 59)
      && AddMonths(march31, 2) == DateTime(2022, 5, 31, 23, 59, 59)
  {
  }

  // Rendering a date as `date.isoformat()` does: YYYY-MM-DD, zero-padded.

  function Pow10(w: nat): (p: nat)
    ensures p >= 1
  {
    if w == 0 then 1 else 10 * Pow10(w - 1)
  }

  function DigitChar(n: int): (c: char)
    requires 0 <= n <= 9
    ensures '0' <= c <= '9'
  {
    (48 + n) as char
  }

  function DigitValue(c: char): int
  {
    c as int - 48
  }

  /** n written in decimal with exactly w digits, leading zeros included. */
  function Padded(n: nat, w: nat): (s: string)
    requires n < Pow10(w)
    ensures |s| == w
    ensures forall i :: 0 <= i < w ==> '0' <= s[i] <= '9'
  {
    if w == 0 then [] else Padded(n / 10, w - 1) + [DigitChar(n % 10)]
  }

  /** The number a string of decimal digits denotes. */
  function DecimalValue(s: string): int
  {
    if s == [] then 0 else DecimalValue(s[..|s| - 1]) * 10 + DigitValue(s[|s| - 1])
  }

  lemma {:induction false} PaddedRoundTrip(n: nat, w: nat)
    requires n < Pow10(w)
    ensures DecimalValue(Padded(n, w)) == n
  {
    if w > 0 {
      var s := Padded(n, w);
      assert s[..|s| - 1] == Padded(n / 10, w - 1);
      PaddedRoundTrip(n / 10, w - 1);
    }
  }

  /** The calendar date of d as `YYYY-MM-DD`. */
  function DateText(d: DateTime): (s: string)
    requires ValidDateTime(d)
    ensures |s| == 10 && s[4] == '-' && s[7] == '-'
    ensures forall i :: 0 <= i < 10 && i != 4 && i != 7 ==> '0' <= s[i] <= '9'
  {
    Padded(d.year, 4) + "-" + Padded(d.month, 2) + "-" + Padded(d.day, 2)
  }

  /** Reads year, month and day back from a `YYYY-MM-DD` text. */
  function ParseDateText(s: string): (int, int, int)
    requires |s| == 10
  {
    (DecimalValue(s[..4]), DecimalValue(s[5..7]), DecimalValue(s[8..]))
  }

  /** The rendered date gives back exactly the year, month and day it was made from. */
  lemma DateTextRoundTrip(d: DateTime)
    requires ValidDateTime(d)
    ensures ParseDateText(DateText(d)) == (d.year, d.month, d.day)
  {
    var s := DateText(d);
    assert s[..4] == Padded(d.year, 4);
    assert s[5..7] == Padded(d.month, 2);
    assert s[8..] == Padded(d.day, 2);
    PaddedRoundTrip(d.year, 4);
    PaddedRoundTrip(d.month, 2);
    PaddedRoundTrip(d.day, 2);
  }
}
