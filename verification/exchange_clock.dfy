/**
 * The simulated time authority. "Today" is the base date moved by the stored trading
 * offset; the result is cached in two fields that only an explicit invalidation clears.
 */
module ExchangeClocks {
  import opened Wrappers
  import opened Time
  import opened TradingCalendar
  import opened SimulationStates

  /** The fixed time of day of the simulated clock. */
  const SimulationTime: TimeOfDay := TimeOf(9, 15)

  class ExchangeClock {
    const repository: SimulationStateRepository
    const tradingCalendar: DefaultTradingCalendar
    var cachedTradingOffset: Option<int>
    var cachedToday: Option<int>

    /** The simulation-mode constructor: the cache starts empty. */
    constructor(repository: SimulationStateRepository, tradingCalendar: DefaultTradingCalendar)
      ensures this.repository == repository && this.tradingCalendar == tradingCalendar
      ensures cachedTradingOffset.None? && cachedToday.None?
    {
      this.repository := repository;
      this.tradingCalendar := tradingCalendar;
      cachedTradingOffset := None;
      cachedToday := None;
    }

    predicate CacheFilled()
      reads this
    {
      cachedTradingOffset.Some? && cachedToday.Some?
    }

    /** The date the stored row resolves to, ignoring the cache. */
    function Resolve(): Result<int>
      reads repository, tradingCalendar.holidayCalendar
    {
      if StateRowId !in repository.rows then Err(IllegalState)
      else
        var row := repository.rows[StateRowId];
        AddTradingDaysOf(tradingCalendar.View(), row.baseDate, row.tradingOffset)
    }

    /** What the next call of Today() answers. */
    function Reported(): Result<int>
      reads this, repository, tradingCalendar.holidayCalendar
    {
      if CacheFilled() then Ok(cachedToday.value) else Resolve()
    }

    /**
     * A filled cache answers without reading the row; otherwise the row is resolved and,
     * on success, both cache fields are stored. Either way the clock keeps reporting
     * the same date afterwards.
     */
    method Today() returns (r: Result<int>)
      modifies this
      ensures r == old(Reported())
      ensures Reported() == old(Reported())
      ensures old(CacheFilled()) ==> unchanged(this)
      ensures !old(CacheFilled()) && r.Ok? ==>
        cachedToday == Some(r.value) &&
        cachedTradingOffset == Some(repository.rows[StateRowId].tradingOffset)
      ensures r.Err? ==> unchanged(this)
    {
      if cachedTradingOffset.Some? && cachedToday.Some? {
        return Ok(cachedToday.value);
      }
      var state := repository.FindById(StateRowId);
      if state.None? {
        return Err(IllegalState);
      }
      var today := tradingCalendar.AddTradingDays(state.value.baseDate, state.value.tradingOffset);
      if today.Err? {
        return today;
      }
      cachedToday := Some(today.value);
      cachedTradingOffset := Some(state.value.tradingOffset);
      return Ok(cachedToday.value);
    }

    /** Today at the fixed simulation time of 09:15. */
    method NowDateTime() returns (r: Result<DateTime>)
      modifies this
      ensures old(Reported()).Ok? ==> r == Ok(AtTime(old(Reported()).value, SimulationTime))
      ensures old(Reported()).Err? ==> r == Err(old(Reported()).error)
      ensures Reported() == old(Reported())
      ensures old(CacheFilled()) ==> unchanged(this)
    {
      var today := Today();
      if today.Err? {
        return Err(today.error);
      }
      return Ok(AtTime(today.value, SimulationTime));
    }

    /** Clears both cache fields, so the next Today() resolves the row again. */
    method InvalidateSimulationCache()
      modifies this
      ensures cachedTradingOffset.None? && cachedToday.None?
      ensures Reported() == Resolve()
    {
      cachedTradingOffset := None;
      cachedToday := None;
    }
  }

  /**
   * Writing a new offset without invalidating leaves a filled cache reporting the old
   * date; after invalidation the clock reports the date the new offset resolves to.
   */
  method StaleUntilInvalidated(clock: ExchangeClock, newOffset: int)
    returns (before: Result<int>, stale: Result<int>, after: Result<int>)
    requires clock.repository.Valid() && StateRowId in clock.repository.rows
    modifies clock, clock.repository
    ensures before.Ok? ==> stale == before
    ensures after == AddTradingDaysOf(clock.tradingCalendar.View(),
                                      old(clock.repository.rows[StateRowId].baseDate), newOffset)
  {
    var base := clock.repository.rows[StateRowId].baseDate;
    before := clock.Today();
    var state := clock.repository.FindById(StateRowId);
    state.value.SetTradingOffset(newOffset);
    clock.repository.Save(state.value);
    assert clock.repository.rows[StateRowId] == state.value.Row();
    stale := clock.Today();
    clock.InvalidateSimulationCache();
    assert clock.Resolve() == AddTradingDaysOf(clock.tradingCalendar.View(), base, newOffset);
    after := clock.Today();
  }
}
