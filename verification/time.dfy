/**
 * The parts of java.time the control plane relies on, over epoch days.
 * A date is the number of days since 1970-01-01 (LocalDate.toEpochDay);
 * a time of day is a count of nanoseconds since midnight (LocalTime.toNanoOfDay).
 */
module Time {

  const NanosPerMinute: int := 60 * 1_000_000_000
  const NanosPerHour: int := 60 * NanosPerMinute
  const NanosPerDay: int := 24 * NanosPerHour

  /** LocalTime: a time of day, midnight inclusive to the next midnight exclusive. */
  type TimeOfDay = t: int | 0 <= t < NanosPerDay

  /** LocalTime.of(hour, minute). */
  function TimeOf(hour: int, minute: int): (t: TimeOfDay)
    requires 0 <= hour < 24 && 0 <= minute < 60
    ensures t / NanosPerHour == hour && t % NanosPerHour == minute * NanosPerMinute
  {
    hour * NanosPerHour + minute * NanosPerMinute
  }

  /** LocalTime.plusHours: the hour field moves modulo 24, minutes and below are kept. */
  function PlusHours(t: TimeOfDay, hours: int): TimeOfDay {
    var hour := t / NanosPerHour;
    var belowHour := t % NanosPerHour;
    ((hour + hours) % 24) * NanosPerHour + belowHour
  }

  /** LocalTime.isAfter. */
  predicate TimeIsAfter(a: TimeOfDay, b: TimeOfDay) {
    a > b
  }

  /** LocalDateTime: a date together with a time of day. */
  datatype DateTime = DateTime(date: int, time: TimeOfDay)

  /** LocalDate.atTime. */
  function AtTime(date: int, time: TimeOfDay): DateTime {
    DateTime(date, time)
  }

  /** Nanoseconds since 1970-01-01T00:00 (used for arithmetic on date-times). */
  function NanosSinceEpoch(dt: DateTime): int {
    dt.date * NanosPerDay + dt.time
  }

  /** LocalDateTime.isAfter: later date, or the same date and a later time. */
  predicate IsAfter(a: DateTime, b: DateTime) {
    a.date > b.date || (a.date == b.date && a.time > b.time)
  }

  /** LocalDateTime.plusMinutes, carrying into the date. */
  function PlusMinutes(dt: DateTime, minutes: int): (r: DateTime)
    ensures NanosSinceEpoch(r) == NanosSinceEpoch(dt) + minutes * NanosPerMinute
  {
    var total := NanosSinceEpoch(dt) + minutes * NanosPerMinute;
    DateTime(total / NanosPerDay, total % NanosPerDay)
  }

  // ---------------------------------------------------------------------
  // The proleptic Gregorian calendar over epoch days
  // ---------------------------------------------------------------------

  datatype CivilDate = CivilDate(year: int, month: int, day: int)

  /** Day of week with Monday = 0 ... Sunday = 6; 1970-01-01 was a Thursday (3). */
  function DayOfWeek(d: int): (w: int)
    ensures 0 <= w < 7
  {
    (d + 3) % 7
  }

  const Saturday: int := 5
  const Sunday: int := 6

  predicate IsLeapYear(y: int) {
    y % 4 == 0 && (y % 100 != 0 || y % 400 == 0)
  }

  function LengthOfMonth(y: int, m: int): int {
    if m == 2 then (if IsLeapYear(y) then 29 else 28)
    else if m == 4 || m == 6 || m == 9 || m == 11 then 30
    else 31
  }

  function YearLength(y: int): int {
    if IsLeapYear(y) then 366 else 365
  }

  /** The epoch day of 1 January of year `y`, counting whole years from 1970. */
  function YearStart(y: int): int
    decreases if y >= 1970 then y - 1970 else 1970 - y
  {
    if y == 1970 then 0
    else if y > 1970 then YearStart(y - 1) + YearLength(y - 1)
    else YearStart(y + 1) - YearLength(y)
  }

  /** The days in months `first` up to (not including) `stop` of year `y`. */
  function DaysInMonths(y: int, first: int, stop: int): (r: int)
    ensures r >= 0
    decreases stop - first
  {
    if first >= stop then 0 else LengthOfMonth(y, first) + DaysInMonths(y, first + 1, stop)
  }

  /** The days of year `y` before the first of month `m`. */
  function MonthStart(y: int, m: int): int {
    DaysInMonths(y, 1, m)
  }

  /** LocalDate.of(y, m, d).toEpochDay(). */
  function EpochDay(y: int, m: int, d: int): int {
    YearStart(y) + MonthStart(y, m) + d - 1
  }

  /** Each year begins where the one before it ends. */
  lemma YearStartStep(y: int)
    ensures YearStart(y + 1) == YearStart(y) + YearLength(y)
  {
  }

  /** Shifting by a multiple of the divisor keeps the remainder. */
  lemma ModShift(y: int, n: int, k: int)
    requires n == 4 || n == 100 || n == 400
    ensures (y - k * n) % n == y % n
  {
  }

  /** The closed form: 365 days a year plus one for every leap year since 1970. */
  function LeapYearsBefore(y: int): int {
    (y - 1969) / 4 - (y - 1901) / 100 + (y - 1601) / 400
  }

  /** Stepping a count past a multiple of `n` raises its quotient by one. */
  lemma DivStep(a: int, n: int)
    requires n == 4 || n == 100 || n == 400
    ensures (a + 1) / n == a / n + (if (a + 1) % n == 0 then 1 else 0)
  {
    if n == 4 {
    } else if n == 100 {
    } else {
    }
  }

  /** The quotient by `n` rises by one exactly at the multiples of `n`. */
  lemma QuotientStep(y: int, n: int, k: int)
    requires n == 4 || n == 100 || n == 400
    ensures (y - k * n) / n - (y - k * n - 1) / n == (if y % n == 0 then 1 else 0)
  {
    DivStep(y - k * n - 1, n);
    ModShift(y, n, k);
  }

  lemma DivisibilityChain(y: int)
    ensures y % 400 == 0 ==> y % 100 == 0
    ensures y % 100 == 0 ==> y % 4 == 0
  {
  }

  lemma LeapStep(y: int)
    ensures LeapYearsBefore(y + 1) == LeapYearsBefore(y) + (if IsLeapYear(y) then 1 else 0)
  {
    QuotientStep(y, 4, 492);
    QuotientStep(y, 100, 19);
    QuotientStep(y, 400, 4);
    DivisibilityChain(y);
  }

  lemma {:induction false} YearStartClosed(y: int)
    ensures YearStart(y) == 365 * (y - 1970) + LeapYearsBefore(y)
    decreases if y >= 1970 then y - 1970 else 1970 - y
  {
    if y > 1970 {
      YearStartClosed(y - 1);
      LeapStep(y - 1);
    } else if y < 1970 {
      YearStartClosed(y + 1);
      LeapStep(y);
    }
  }

  /** The date `rel` days after 1 January of year `y`, moving a whole year at a time. */
  function DateFrom(y: int, rel: int): CivilDate
    decreases if rel < 0 then 400 - rel else rel
  {
    if rel < 0 then DateFrom(y - 1, rel + YearLength(y - 1))
    else if rel >= YearLength(y) then DateFrom(y + 1, rel - YearLength(y))
    else DateInYear(y, 1, rel)
  }

  /** The date `rel` days after the first of month `m` of year `y`, within that year. */
  function DateInYear(y: int, m: int, rel: int): CivilDate
    decreases 12 - m
  {
    if m >= 12 || rel < LengthOfMonth(y, m) then CivilDate(y, m, rel + 1)
    else DateInYear(y, m + 1, rel - LengthOfMonth(y, m))
  }

  /** LocalDate.ofEpochDay. */
  function CivilOf(z: int): CivilDate {
    DateFrom(1970, z)
  }

  /**
   * LocalDate.plusYears (and minusYears with a negative count): same month and day in the
   * target year, the day clamped to the month's length (29 February becomes 28 February).
   */
  function PlusYears(z: int, years: int): int {
    var c := CivilOf(z);
    var y := c.year + years;
    var d := if c.day <= LengthOfMonth(y, c.month) then c.day else LengthOfMonth(y, c.month);
    EpochDay(y, c.month, d)
  }

  /** A valid day of a valid month. */
  predicate IsValidDate(y: int, m: int, d: int) {
    1 <= m <= 12 && 1 <= d <= LengthOfMonth(y, m)
  }

  /** Later years begin after earlier ones have ended. */
  lemma {:induction false} YearStartGrows(a: int, b: int)
    requires a < b
    ensures YearStart(a) + YearLength(a) <= YearStart(b)
    decreases b - a
  {
    YearStartStep(b - 1);
    if a < b - 1 {
      YearStartGrows(a, b - 1);
    }
  }

  /** Consecutive runs of months add up. */
  lemma {:induction false} DaysInMonthsSplit(y: int, a: int, b: int, c: int)
    requires a <= b <= c
    ensures DaysInMonths(y, a, c) == DaysInMonths(y, a, b) + DaysInMonths(y, b, c)
    decreases b - a
  {
    if a < b {
      DaysInMonthsSplit(y, a + 1, b, c);
    }
  }

  /** The twelve months fill the year. */
  lemma MonthsFillYear(y: int)
    ensures MonthStart(y, 13) == YearLength(y)
  {
    assert DaysInMonths(y, 10, 13) == 92;
    assert DaysInMonths(y, 7, 13) == 184;
    assert DaysInMonths(y, 3, 13) == 306;
  }

  /** Walking whole years from any year `y0` reaches day `rel` of year `y`. */
  lemma {:induction false} DateFromReachesYear(y0: int, y: int, rel: int)
    requires 0 <= rel < YearLength(y)
    ensures DateFrom(y0, YearStart(y) - YearStart(y0) + rel) == DateInYear(y, 1, rel)
    decreases if y0 <= y then y - y0 else y0 - y
  {
    if y0 < y {
      YearStartGrows(y0, y);
      YearStartStep(y0);
      DateFromReachesYear(y0 + 1, y, rel);
    } else if y0 > y {
      YearStartGrows(y, y0);
      YearStartStep(y0 - 1);
      DateFromReachesYear(y0 - 1, y, rel);
    }
  }

  /** Past the end of month `m0`, the walk moves on to the next month. */
  lemma DateInYearStep(y: int, m0: int, rel: int)
    requires 1 <= m0 < 12 && rel >= LengthOfMonth(y, m0)
    ensures DateInYear(y, m0, rel) == DateInYear(y, m0 + 1, rel - LengthOfMonth(y, m0))
  {
  }

  /** Walking whole months from month `m0` reaches day `d` of month `m`. */
  lemma {:induction false} DateInYearReachesMonth(y: int, m0: int, m: int, d: int)
    requires 1 <= m0 <= m && IsValidDate(y, m, d)
    ensures DateInYear(y, m0, DaysInMonths(y, m0, m) + d - 1) == CivilDate(y, m, d)
    decreases m - m0
  {
    if m0 < m {
      DateInYearStep(y, m0, DaysInMonths(y, m0, m) + d - 1);
      DateInYearReachesMonth(y, m0 + 1, m, d);
    }
  }

  /** LocalDate.ofEpochDay(LocalDate.of(y, m, d).toEpochDay()) is the date itself. */
  lemma CivilOfEpochDay(y: int, m: int, d: int)
    requires IsValidDate(y, m, d)
    ensures CivilOf(EpochDay(y, m, d)) == CivilDate(y, m, d)
  {
    DaysInMonthsSplit(y, 1, m, 13);
    MonthsFillYear(y);
    DateFromReachesYear(1970, y, MonthStart(y, m) + d - 1);
    DateInYearReachesMonth(y, 1, m, d);
  }

  /** plusYears keeps the month and the day, clamped to the target month's length. */
  lemma PlusYearsOfDate(y: int, m: int, d: int, years: int)
    requires IsValidDate(y, m, d)
    ensures PlusYears(EpochDay(y, m, d), years) ==
      EpochDay(y + years, m, if d <= LengthOfMonth(y + years, m) then d else LengthOfMonth(y + years, m))
  {
    CivilOfEpochDay(y, m, d);
  }

  /** The conversions agree with the calendar at the epoch (a Thursday). */
  lemma EpochIsThursday()
    ensures EpochDay(1970, 1, 1) == 0 && DayOfWeek(0) == 3
  {
  }

  /** 15 August 2026, which the 2026 NSE holiday list leaves out, falls on a Saturday. */
  lemma IndependenceDay2026IsSaturday()
    ensures EpochDay(2026, 8, 15) == 20680 && DayOfWeek(20680) == Saturday
  {
    YearStartClosed(2026);
    assert MonthStart(2026, 8) == 212;
  }

  /** CivilOf reads that day number back as the date. */
  lemma CivilOfIndependenceDay2026()
    ensures CivilOf(20680) == CivilDate(2026, 8, 15)
  {
    IndependenceDay2026IsSaturday();
    CivilOfEpochDay(2026, 8, 15);
  }
}
