/**
 * Start-up of the simulated clock: get or create the state row, check that its base date
 * is a trading day, and hand out a clock reading that row.
 */
module SimulationClockConfig {
  import opened Wrappers
  import opened TradingCalendar
  import opened SimulationStates
  import opened ExchangeClocks

  /** The row created when none is stored: id 1, the configured base date, offset 0. */
  function InitialRow(configuredBaseDate: int): (row: StateRow)
    ensures row.id == StateRowId && row.baseDate == configuredBaseDate
    ensures row.tradingOffset == 0 && !row.isCycling && row.cyclingStartedAt.None?
  {
    StateRow(StateRowId, None, configuredBaseDate, None, 0, false, None)
  }

  /**
   * An existing row is kept as it is; a missing one is created and saved before the
   * base date is checked, so it stays stored even when the check fails.
   */
  method BuildExchangeClock(repository: SimulationStateRepository, calendar: DefaultTradingCalendar,
                            configuredBaseDate: int)
    returns (r: Result<ExchangeClock>)
    requires repository.Valid()
    modifies repository
    ensures StateRowId in old(repository.rows) ==> repository.rows == old(repository.rows)
    ensures StateRowId !in old(repository.rows) ==>
      repository.rows == old(repository.rows)[StateRowId := InitialRow(configuredBaseDate)]
    ensures repository.Valid() && StateRowId in repository.rows
    ensures r.Err? <==> !IsTradingDayIn(calendar.View(), repository.rows[StateRowId].baseDate)
    ensures r.Err? ==> r.error == IllegalState
    ensures r.Ok? ==> fresh(r.value) && r.value.repository == repository &&
                      r.value.tradingCalendar == calendar && !r.value.CacheFilled()
  {
    var found := repository.FindById(StateRowId);
    var state: SimulationState;
    if found.Some? {
      state := found.value;
    } else {
      state := new SimulationState.Create(StateRowId, configuredBaseDate, 0);
      repository.Save(state);
    }
    if !calendar.IsTradingDay(state.baseDate) {
      return Err(IllegalState);
    }
    var clock := new ExchangeClock(repository, calendar);
    return Ok(clock);
  }
}
