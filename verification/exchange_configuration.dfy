/**
 * Exchange settings and the helpers built on the clock: the publish buffer after the
 * close, the safe end date for data fetches, and the historical-reload switch.
 */
module ExchangeConfigurations {
  import opened Wrappers
  import opened Time
  import opened ExchangeClocks

  /** Default exchange.marketClose. */
  const DefaultMarketClose: TimeOfDay := TimeOf(15, 30)
  /** Default provider.publishBufferHours. */
  const DefaultPublishBufferHours: int := 3

  /** Whether `now` is strictly after the close moved by the buffer, on a 24-hour dial. */
  predicate BufferElapsed(now: TimeOfDay, close: TimeOfDay, bufferHours: int) {
    TimeIsAfter(now, PlusHours(close, bufferHours))
  }

  /** Adding hours to a time of day is addition modulo one day. */
  lemma PlusHoursIsAdditionModuloDay(t: TimeOfDay, hours: int)
    ensures PlusHours(t, hours) == (t + hours * NanosPerHour) % NanosPerDay
  {
    var q, r := t / NanosPerHour, t % NanosPerHour;
    var k, m := (q + hours) / 24, (q + hours) % 24;
    assert t == q * NanosPerHour + r;
    assert q + hours == 24 * k + m;
    var y := m * NanosPerHour + r;
    assert 0 <= y < NanosPerDay;
    assert t + hours * NanosPerHour == k * NanosPerDay + y;
    ModOfDecomposition(t + hours * NanosPerHour, k, y);
  }

  lemma ModOfDecomposition(x: int, k: int, y: int)
    requires 0 <= y < NanosPerDay && x == k * NanosPerDay + y
    ensures x % NanosPerDay == y
  {
  }

  /** With the default close and buffer, the fixed 09:15 simulation time never passes the buffer. */
  lemma DefaultBufferNeverElapsesAtSimulationTime()
    ensures !BufferElapsed(SimulationTime, DefaultMarketClose, DefaultPublishBufferHours)
  {
    assert PlusHours(DefaultMarketClose, DefaultPublishBufferHours) == TimeOf(18, 30);
  }

  /** A buffer reaching past midnight wraps: close 22:00 plus 3 hours ends at 01:00. */
  lemma BufferPastMidnightWraps()
    ensures PlusHours(TimeOf(22, 0), 3) == TimeOf(1, 0)
    ensures BufferElapsed(SimulationTime, TimeOf(22, 0), 3)
  {
  }

  class ExchangeConfiguration {
    const exchangeClock: ExchangeClock
    const marketCloseTime: TimeOfDay
    const publishBufferHours: int
    const allowHistoricalReload: bool
    const historicalReloadConfirm: bool

    constructor(clock: ExchangeClock, marketCloseTime: TimeOfDay, publishBufferHours: int,
                allowHistoricalReload: bool, historicalReloadConfirm: bool)
      ensures exchangeClock == clock && this.marketCloseTime == marketCloseTime
      ensures this.publishBufferHours == publishBufferHours
      ensures this.allowHistoricalReload == allowHistoricalReload
      ensures this.historicalReloadConfirm == historicalReloadConfirm
    {
      exchangeClock := clock;
      this.marketCloseTime := marketCloseTime;
      this.publishBufferHours := publishBufferHours;
      this.allowHistoricalReload := allowHistoricalReload;
      this.historicalReloadConfirm := historicalReloadConfirm;
    }

    /** The clock's today. */
    method GetTodayInExchangeZone() returns (r: Result<int>)
      modifies exchangeClock
      ensures r == old(exchangeClock.Reported())
      ensures exchangeClock.Reported() == old(exchangeClock.Reported())
    {
      r := exchangeClock.Today();
    }

    /** The time part of the clock's now: 09:15 whenever today resolves. */
    method GetCurrentTimeInExchangeZone() returns (r: Result<TimeOfDay>)
      modifies exchangeClock
      ensures old(exchangeClock.Reported()).Ok? ==> r == Ok(SimulationTime)
      ensures old(exchangeClock.Reported()).Err? ==> r == Err(old(exchangeClock.Reported()).error)
      ensures exchangeClock.Reported() == old(exchangeClock.Reported())
    {
      var now := exchangeClock.NowDateTime();
      if now.Err? {
        return Err(now.error);
      }
      return Ok(now.value.time);
    }

    /** Whether the current time is strictly after close plus the buffer, modulo 24 hours. */
    method HasPublishBufferElapsed() returns (r: Result<bool>)
      modifies exchangeClock
      ensures old(exchangeClock.Reported()).Ok? ==>
        r == Ok(BufferElapsed(SimulationTime, marketCloseTime, publishBufferHours))
      ensures old(exchangeClock.Reported()).Err? ==> r.Err?
      ensures exchangeClock.Reported() == old(exchangeClock.Reported())
    {
      var now := GetCurrentTimeInExchangeZone();
      if now.Err? {
        return Err(now.error);
      }
      var bufferEnd := PlusHours(marketCloseTime, publishBufferHours);
      return Ok(TimeIsAfter(now.value, bufferEnd));
    }

    /** Today once the publish buffer has elapsed, otherwise the calendar day before. */
    method GetSafeFetchEndDate() returns (r: Result<int>)
      modifies exchangeClock
      ensures old(exchangeClock.Reported()).Ok? ==>
        var today := old(exchangeClock.Reported()).value;
        r == Ok(if BufferElapsed(SimulationTime, marketCloseTime, publishBufferHours) then today else today - 1)
      ensures old(exchangeClock.Reported()).Err? ==> r.Err?
      ensures exchangeClock.Reported() == old(exchangeClock.Reported())
    {
      var today := GetTodayInExchangeZone();
      if today.Err? {
        return today;
      }
      // the first read filled the cache, so this second read cannot fail
      var elapsed := HasPublishBufferElapsed();
      return Ok(if elapsed == Ok(true) then today.value else today.value - 1);
    }

    function IsHistoricalReloadAllowed(): (b: bool)
      ensures b ==> allowHistoricalReload && historicalReloadConfirm
      ensures !b ==> !allowHistoricalReload || !historicalReloadConfirm
    {
      allowHistoricalReload && historicalReloadConfirm
    }
  }
}
