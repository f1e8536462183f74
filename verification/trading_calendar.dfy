/**
 * Trading-day classification and trading-day arithmetic.
 *
 * The pure specification is written over a HolidayView, what the holiday source
 * answers (scheduled holidays, special sessions, emergency closures);
 * DefaultTradingCalendar reads that view from its holiday source and runs the same
 * walks as bounded loops.
 */
module TradingCalendar {
  import opened Wrappers
  import opened Time
  import opened SessionTypes
  import opened HolidayCalendar

  /** How far the single-step walks search before giving up, in calendar years. */
  const WalkHorizonYears: int := 10

  /** The largest |days| addTradingDays accepts: about 100 years of 252 trading days. */
  const MaxTradingDaysToAdd: int := 252 * 100

  /** The largest calendar-day span tradingDaysBetween accepts: about 100 years. */
  const MaxDaySpan: int := 365 * 100

  function Abs(x: int): nat {
    if x < 0 then -x else x
  }

  predicate IsWeekend(d: int) {
    DayOfWeek(d) == Saturday || DayOfWeek(d) == Sunday
  }

  // ---------------------------------------------------------------------
  // Classification
  // ---------------------------------------------------------------------

  /** The dates the holiday source reports as holidays, special sessions and closures. */
  datatype HolidayView = HolidayView(holidays: set<int>, specialSessions: set<int>, closures: set<int>)

  /** The session of `d`; the most specific rule wins. */
  function SessionOf(h: HolidayView, d: int): SessionType {
    if d in h.closures then UnexpectedClosure
    else if d in h.specialSessions then SpecialSession
    else if d in h.holidays then Holiday
    else if IsWeekend(d) then Weekend
    else Trading
  }

  predicate IsTradingDayIn(h: HolidayView, d: int) {
    SessionOf(h, d).IsTradingSession()
  }

  /**
   * The precedence of the classification: a closure overrides everything, a special
   * session trades even on a weekend or holiday, and otherwise a date trades exactly
   * when it is a weekday and not a holiday.
   */
  lemma ClassificationPrecedence(h: HolidayView, d: int)
    ensures d in h.closures ==> SessionOf(h, d) == UnexpectedClosure && !IsTradingDayIn(h, d)
    ensures d !in h.closures && d in h.specialSessions ==> IsTradingDayIn(h, d)
    ensures d !in h.closures && d !in h.specialSessions ==>
      (IsTradingDayIn(h, d) <==> d !in h.holidays && !IsWeekend(d))
    ensures SessionOf(h, d) == Weekend ==> IsWeekend(d)
    ensures SessionOf(h, d) == Holiday ==> d in h.holidays
  {
  }

  // ---------------------------------------------------------------------
  // Single steps: the nearest trading day after or before a date
  // ---------------------------------------------------------------------

  /** The first trading day in [from, limit), if there is one. */
  function ScanForward(h: HolidayView, from: int, limit: int): (r: Option<int>)
    decreases limit - from
    ensures r.Some? ==> from <= r.value < limit && IsTradingDayIn(h, r.value)
    ensures r.Some? ==> forall x :: from <= x < r.value ==> !IsTradingDayIn(h, x)
    ensures r.None? ==> forall x :: from <= x < limit ==> !IsTradingDayIn(h, x)
  {
    if from >= limit then None
    else if IsTradingDayIn(h, from) then Some(from)
    else ScanForward(h, from + 1, limit)
  }

  /** The last trading day in (limit, from], if there is one. */
  function ScanBackward(h: HolidayView, from: int, limit: int): (r: Option<int>)
    decreases from - limit
    ensures r.Some? ==> limit < r.value <= from && IsTradingDayIn(h, r.value)
    ensures r.Some? ==> forall x :: r.value < x <= from ==> !IsTradingDayIn(h, x)
    ensures r.None? ==> forall x :: limit < x <= from ==> !IsTradingDayIn(h, x)
  {
    if from <= limit then None
    else if IsTradingDayIn(h, from) then Some(from)
    else ScanBackward(h, from - 1, limit)
  }

  /** The first trading day strictly after `d`, searched up to `d` plus ten years. */
  function NextTradingDayOf(h: HolidayView, d: int): (r: Result<int>)
    ensures r.Ok? ==> d < r.value && IsTradingDayIn(h, r.value)
    ensures r.Ok? ==> forall x :: d < x < r.value ==> !IsTradingDayIn(h, x)
    ensures r.Err? ==> r.error == IllegalState
    ensures r.Ok? ==> r.value < PlusYears(d, WalkHorizonYears)
    ensures r.Err? ==> forall x :: d < x < PlusYears(d, WalkHorizonYears) ==> !IsTradingDayIn(h, x)
  {
    match ScanForward(h, d + 1, PlusYears(d, WalkHorizonYears))
    case Some(x) => Ok(x)
    case None => Err(IllegalState)
  }

  /** The last trading day strictly before `d`, searched down to `d` minus ten years. */
  function PreviousTradingDayOf(h: HolidayView, d: int): (r: Result<int>)
    ensures r.Ok? ==> r.value < d && IsTradingDayIn(h, r.value)
    ensures r.Ok? ==> forall x :: r.value < x < d ==> !IsTradingDayIn(h, x)
    ensures r.Err? ==> r.error == IllegalState
    ensures r.Ok? ==> PlusYears(d, -WalkHorizonYears) < r.value
    ensures r.Err? ==> forall x :: PlusYears(d, -WalkHorizonYears) < x < d ==> !IsTradingDayIn(h, x)
  {
    match ScanBackward(h, d - 1, PlusYears(d, -WalkHorizonYears))
    case Some(x) => Ok(x)
    case None => Err(IllegalState)
  }

  // ---------------------------------------------------------------------
  // Repeated steps and addTradingDays
  // ---------------------------------------------------------------------

  /** `k` successive next-trading-day steps from `d`; the first failing step's error otherwise. */
  function StepForward(h: HolidayView, d: int, k: nat): (r: Result<int>)
    ensures k > 0 && r.Ok? ==> d < r.value && IsTradingDayIn(h, r.value)
    ensures r.Err? ==> r.error == IllegalState
  {
    if k == 0 then Ok(d)
    else match StepForward(h, d, k - 1)
      case Err(e) => Err(e)
      case Ok(x) => NextTradingDayOf(h, x)
  }

  /** `k` successive previous-trading-day steps from `d`. */
  function StepBackward(h: HolidayView, d: int, k: nat): (r: Result<int>)
    ensures k > 0 && r.Ok? ==> r.value < d && IsTradingDayIn(h, r.value)
    ensures r.Err? ==> r.error == IllegalState
  {
    if k == 0 then Ok(d)
    else match StepBackward(h, d, k - 1)
      case Err(e) => Err(e)
      case Ok(x) => PreviousTradingDayOf(h, x)
  }

  /**
   * addTradingDays: zero days demands a trading day and returns it unchanged; otherwise
   * at most MaxTradingDaysToAdd steps forward (days > 0) or backward (days < 0).
   */
  function AddTradingDaysOf(h: HolidayView, d: int, days: int): (r: Result<int>)
    ensures days == 0 ==> (r.Ok? <==> IsTradingDayIn(h, d))
    ensures days == 0 && r.Ok? ==> r.value == d
    ensures Abs(days) > MaxTradingDaysToAdd ==> r == Err(IllegalArgument)
    ensures days != 0 && r.Ok? ==> IsTradingDayIn(h, r.value)
    ensures days > 0 && r.Ok? ==> d < r.value
    ensures days < 0 && r.Ok? ==> r.value < d
    ensures r.Err? && days != 0 && Abs(days) <= MaxTradingDaysToAdd ==> r.error == IllegalState
    ensures r.Err? && (days == 0 || Abs(days) > MaxTradingDaysToAdd) ==> r.error == IllegalArgument
  {
    if days == 0 then
      (if IsTradingDayIn(h, d) then Ok(d) else Err(IllegalArgument))
    else if Abs(days) > MaxTradingDaysToAdd then Err(IllegalArgument)
    else if days > 0 then StepForward(h, d, days)
    else StepBackward(h, d, -days)
  }

  /** Once a walk fails, every longer walk fails with the same error. */
  lemma {:induction false} StepForwardErrPersists(h: HolidayView, d: int, i: nat, k: nat)
    requires i <= k && StepForward(h, d, i).Err?
    ensures StepForward(h, d, k) == StepForward(h, d, i)
    decreases k
  {
    if k > i {
      StepForwardErrPersists(h, d, i, k - 1);
    }
  }

  lemma {:induction false} StepBackwardErrPersists(h: HolidayView, d: int, i: nat, k: nat)
    requires i <= k && StepBackward(h, d, i).Err?
    ensures StepBackward(h, d, k) == StepBackward(h, d, i)
    decreases k
  {
    if k > i {
      StepBackwardErrPersists(h, d, i, k - 1);
    }
  }

  /** Walking a + b steps is walking a steps and then b more. */
  lemma {:induction false} StepForwardCompose(h: HolidayView, d: int, a: nat, b: nat)
    ensures StepForward(h, d, a + b) ==
      match StepForward(h, d, a)
      case Ok(x) => StepForward(h, x, b)
      case Err(e) => Err(e)
    decreases b
  {
    if b > 0 {
      StepForwardCompose(h, d, a, b - 1);
    }
  }

  /** Later steps of a forward walk land strictly later. */
  lemma {:induction false} StepForwardIncreasing(h: HolidayView, d: int, i: nat, j: nat)
    requires i < j && StepForward(h, d, j).Ok?
    ensures StepForward(h, d, i).Ok? && StepForward(h, d, i).value < StepForward(h, d, j).value
    decreases j
  {
    if i < j - 1 {
      StepForwardIncreasing(h, d, i, j - 1);
    }
  }

  // ---------------------------------------------------------------------
  // Counting: tradingDaysBetween
  // ---------------------------------------------------------------------

  /** The number of trading days in (a, b]. */
  function CountTradingDays(h: HolidayView, a: int, b: int): nat
    decreases b - a
  {
    if b <= a then 0
    else CountTradingDays(h, a, b - 1) + (if IsTradingDayIn(h, b) then 1 else 0)
  }

  /** The trading days in (a, b], as a set. */
  function TradingDaysIn(h: HolidayView, a: int, b: int): set<int> {
    set x | a < x <= b && IsTradingDayIn(h, x)
  }

  /**
   * tradingDaysBetween: 0 for equal dates; an IllegalArgument beyond MaxDaySpan days;
   * otherwise the trading days in (start, end], negated when end comes first.
   */
  function TradingDaysBetweenOf(h: HolidayView, startExclusive: int, endInclusive: int): Result<int> {
    if startExclusive == endInclusive then Ok(0)
    else if Abs(endInclusive - startExclusive) > MaxDaySpan then Err(IllegalArgument)
    else if endInclusive < startExclusive then Ok(-(CountTradingDays(h, endInclusive, startExclusive) as int))
    else Ok(CountTradingDays(h, startExclusive, endInclusive))
  }

  /** The count is the size of the set of trading days it counts. */
  lemma {:induction false} CountIsCardinality(h: HolidayView, a: int, b: int)
    ensures CountTradingDays(h, a, b) == |TradingDaysIn(h, a, b)|
    decreases b - a
  {
    if b <= a {
      assert TradingDaysIn(h, a, b) == {};
    } else {
      CountIsCardinality(h, a, b - 1);
      var before := TradingDaysIn(h, a, b - 1);
      assert b !in before;
      if IsTradingDayIn(h, b) {
        assert TradingDaysIn(h, a, b) == before + {b};
      } else {
        assert TradingDaysIn(h, a, b) == before;
      }
    }
  }

  /** Counts over adjacent ranges add up. */
  lemma {:induction false} CountSplit(h: HolidayView, a: int, m: int, b: int)
    requires a <= m <= b
    ensures CountTradingDays(h, a, b) == CountTradingDays(h, a, m) + CountTradingDays(h, m, b)
    decreases b - m
  {
    if b > m {
      CountSplit(h, a, m, b - 1);
    }
  }

  /** A range without trading days counts zero. */
  lemma {:induction false} CountOfGap(h: HolidayView, a: int, b: int)
    requires forall x :: a < x <= b ==> !IsTradingDayIn(h, x)
    ensures CountTradingDays(h, a, b) == 0
    decreases b - a
  {
    if b > a {
      CountOfGap(h, a, b - 1);
    }
  }

  /** Exactly one trading day lies in (d, nextTradingDay(d)]. */
  lemma CountUpToNext(h: HolidayView, d: int)
    requires NextTradingDayOf(h, d).Ok?
    ensures CountTradingDays(h, d, NextTradingDayOf(h, d).value) == 1
  {
    var x := NextTradingDayOf(h, d).value;
    CountOfGap(h, d, x - 1);
  }

  /** The trading days in (previousTradingDay(d), d] are d itself when it trades, else none. */
  lemma CountFromPrevious(h: HolidayView, d: int)
    requires PreviousTradingDayOf(h, d).Ok?
    ensures CountTradingDays(h, PreviousTradingDayOf(h, d).value, d) ==
      if IsTradingDayIn(h, d) then 1 else 0
  {
    var x := PreviousTradingDayOf(h, d).value;
    CountOfGap(h, x, d - 1);
  }

  /** k steps forward cross exactly k trading days. */
  lemma {:induction false} StepForwardCounts(h: HolidayView, d: int, k: nat)
    requires StepForward(h, d, k).Ok?
    ensures d <= StepForward(h, d, k).value
    ensures CountTradingDays(h, d, StepForward(h, d, k).value) == k
  {
    if k > 0 {
      var y := StepForward(h, d, k - 1).value;
      StepForwardCounts(h, d, k - 1);
      CountUpToNext(h, y);
      CountSplit(h, d, y, StepForward(h, d, k).value);
    }
  }

  /**
   * k > 0 steps backward from d cross k - 1 trading days, plus d itself when d trades:
   * the range (result, d] excludes the result and includes d.
   */
  lemma {:induction false} StepBackwardCounts(h: HolidayView, d: int, k: nat)
    requires k > 0 && StepBackward(h, d, k).Ok?
    ensures StepBackward(h, d, k).value < d
    ensures CountTradingDays(h, StepBackward(h, d, k).value, d) ==
      k - 1 + (if IsTradingDayIn(h, d) then 1 else 0)
  {
    var y := StepBackward(h, d, k - 1).value;
    var x := StepBackward(h, d, k).value;
    CountFromPrevious(h, y);
    if k > 1 {
      StepBackwardCounts(h, d, k - 1);
      CountSplit(h, x, y, d);
    }
  }

  /**
   * tradingDaysBetween undoes addTradingDays: counting from d to d + n trading days gives
   * back n, for n > 0 always and for n < 0 when d itself is a trading day (otherwise the
   * count is n + 1, because the range excludes its start and includes d).
   */
  lemma AddTradingDaysThenCount(h: HolidayView, d: int, n: int)
    requires AddTradingDaysOf(h, d, n).Ok?
    requires Abs(AddTradingDaysOf(h, d, n).value - d) <= MaxDaySpan
    ensures n >= 0 || IsTradingDayIn(h, d) ==>
      TradingDaysBetweenOf(h, d, AddTradingDaysOf(h, d, n).value) == Ok(n)
    ensures n < 0 && !IsTradingDayIn(h, d) ==>
      TradingDaysBetweenOf(h, d, AddTradingDaysOf(h, d, n).value) == Ok(n + 1)
  {
    if n > 0 {
      StepForwardCounts(h, d, n);
    } else if n < 0 {
      StepBackwardCounts(h, d, -n);
    }
  }

  /** tradingDaysBetween(a, b) == -tradingDaysBetween(b, a) whenever a != b. */
  lemma TradingDaysBetweenAntisymmetric(h: HolidayView, a: int, b: int)
    requires a != b
    ensures TradingDaysBetweenOf(h, a, b).Ok? <==> TradingDaysBetweenOf(h, b, a).Ok?
    ensures TradingDaysBetweenOf(h, a, b).Ok? ==>
      TradingDaysBetweenOf(h, a, b).value == -TradingDaysBetweenOf(h, b, a).value
  {
  }

  // ---------------------------------------------------------------------
  // The 32-bit guard of addTradingDays as written
  // ---------------------------------------------------------------------

  const IntMin: int := -0x8000_0000
  const IntMax: int := 0x7fff_ffff

  /** Math.abs on a 32-bit int: the absolute value, except that the minimum maps to itself. */
  function JavaIntAbs(x: int): (r: int)
    requires IntMin <= x <= IntMax
    ensures x != IntMin ==> r == Abs(x)
    ensures x == IntMin ==> r < 0
  {
    if x == IntMin then IntMin else Abs(x)
  }

  /**
   * addTradingDays with its guard and backward loop bound computed by 32-bit Math.abs;
   * a negative bound runs the backward loop zero times.
   */
  function AddTradingDaysAsWritten(h: HolidayView, d: int, days: int): Result<int>
    requires IntMin <= days <= IntMax
  {
    if days == 0 then
      (if IsTradingDayIn(h, d) then Ok(d) else Err(IllegalArgument))
    else if JavaIntAbs(days) > MaxTradingDaysToAdd then Err(IllegalArgument)
    else if days > 0 then StepForward(h, d, days)
    else StepBackward(h, d, if JavaIntAbs(days) < 0 then 0 else JavaIntAbs(days))
  }

  /** On every 32-bit count but the minimum, the code as written is the corrected model. */
  lemma AsWrittenAgreesBesideIntMin(h: HolidayView, d: int, days: int)
    requires IntMin < days <= IntMax
    ensures AddTradingDaysAsWritten(h, d, days) == AddTradingDaysOf(h, d, days)
  {
  }

  /**
   * With days = Integer.MIN_VALUE the guard is passed and the date comes back unchanged,
   * here a Saturday (2026-08-15, day 20680) with no holidays or closures, where the
   * corrected model rejects the count.
   */
  lemma AsWrittenIntMinReturnsNonTradingDay()
    ensures AddTradingDaysAsWritten(HolidayView({}, {}, {}), 20680, IntMin) == Ok(20680)
    ensures !IsTradingDayIn(HolidayView({}, {}, {}), 20680)
    ensures AddTradingDaysOf(HolidayView({}, {}, {}), 20680, IntMin) == Err(IllegalArgument)
  {
    assert DayOfWeek(20680) == Saturday;
  }

  // ---------------------------------------------------------------------
  // The calendar object
  // ---------------------------------------------------------------------

  class DefaultTradingCalendar {
    const holidayCalendar: NseHolidayCalendar

    constructor(holidayCalendar: NseHolidayCalendar)
      ensures this.holidayCalendar == holidayCalendar
    {
      this.holidayCalendar := holidayCalendar;
    }

    /** What the holiday source currently reports. */
    function View(): HolidayView
      reads holidayCalendar
    {
      HolidayView(holidayCalendar.scheduledHolidays, holidayCalendar.specialSessions, holidayCalendar.ClosedDates())
    }

    function GetSession(d: int): SessionType
      reads holidayCalendar
    {
      SessionOf(View(), d)
    }

    function IsTradingDay(d: int): bool
      reads holidayCalendar
    {
      GetSession(d).IsTradingSession()
    }

    method NextTradingDay(d: int) returns (r: Result<int>)
      ensures r == NextTradingDayOf(View(), d)
    {
      var nextDay := d + 1;
      var limit := PlusYears(d, WalkHorizonYears);
      while nextDay < limit
        invariant d + 1 <= nextDay
        invariant ScanForward(View(), nextDay, limit) == ScanForward(View(), d + 1, limit)
        decreases limit - nextDay
      {
        if IsTradingDay(nextDay) {
          return Ok(nextDay);
        }
        nextDay := nextDay + 1;
      }
      return Err(IllegalState);
    }

    method PreviousTradingDay(d: int) returns (r: Result<int>)
      ensures r == PreviousTradingDayOf(View(), d)
    {
      var prevDay := d - 1;
      var limit := PlusYears(d, -WalkHorizonYears);
      while prevDay > limit
        invariant prevDay <= d - 1
        invariant ScanBackward(View(), prevDay, limit) == ScanBackward(View(), d - 1, limit)
        decreases prevDay - limit
      {
        if IsTradingDay(prevDay) {
          return Ok(prevDay);
        }
        prevDay := prevDay - 1;
      }
      return Err(IllegalState);
    }

    method AddTradingDays(d: int, days: int) returns (r: Result<int>)
      ensures r == AddTradingDaysOf(View(), d, days)
    {
      if days == 0 {
        if !IsTradingDay(d) {
          return Err(IllegalArgument);
        }
        return Ok(d);
      }
      if Abs(days) > MaxTradingDaysToAdd {
        return Err(IllegalArgument);
      }
      var result := d;
      if days > 0 {
        for i := 0 to days
          invariant StepForward(View(), d, i) == Ok(result)
        {
          var next := NextTradingDay(result);
          if next.Err? {
            StepForwardErrPersists(View(), d, i + 1, days);
            return next;
          }
          result := next.value;
        }
      } else {
        for i := 0 to Abs(days)
          invariant StepBackward(View(), d, i) == Ok(result)
        {
          var previous := PreviousTradingDay(result);
          if previous.Err? {
            StepBackwardErrPersists(View(), d, i + 1, Abs(days));
            return previous;
          }
          result := previous.value;
        }
      }
      return Ok(result);
    }

    method TradingDaysBetween(startExclusive: int, endInclusive: int) returns (r: Result<int>)
      ensures r == TradingDaysBetweenOf(View(), startExclusive, endInclusive)
      decreases if endInclusive < startExclusive then 1 else 0
    {
      if startExclusive == endInclusive {
        return Ok(0);
      }
      if Abs(endInclusive - startExclusive) > MaxDaySpan {
        return Err(IllegalArgument);
      }
      if endInclusive < startExclusive {
        var forward := TradingDaysBetween(endInclusive, startExclusive);
        return Ok(-forward.value);
      }
      var tradingDays := 0;
      var current := startExclusive + 1;
      while current <= endInclusive
        invariant startExclusive + 1 <= current <= endInclusive + 1
        invariant tradingDays == CountTradingDays(View(), startExclusive, current - 1)
      {
        if IsTradingDay(current) {
          tradingDays := tradingDays + 1;
        }
        current := current + 1;
      }
      return Ok(tradingDays);
    }
  }
}
