/**
 * The simulation control endpoints: advance the timeline by one trading day, retrying
 * when the save meets a concurrent modification, and reset it to the base date.
 * Whether the save of a given attempt meets a concurrent modification is an input
 * indexed by attempt number (from 0).
 */
module SimulationControllers {
  import opened Wrappers
  import opened TradingCalendar
  import opened SimulationStates
  import opened ExchangeClocks

  /** How many times advance-day tries before answering CONFLICT. */
  const MaxAttempts: nat := 3

  /** The answer of advance-day when it does not throw. */
  datatype AdvanceResponse =
    | Advanced(previousDate: int, currentDate: int, tradingOffset: int)  // 200, success true
    | Conflict                                                           // 409, success false
  {
    predicate Success() { Advanced? }
  }

  /** The number of attempts advance-day makes: up to the first save without a conflict. */
  function AttemptsUsed(conflict: nat -> bool): (n: nat)
    ensures 1 <= n <= MaxAttempts
    ensures forall k :: 0 <= k < n - 1 ==> conflict(k)
    ensures !conflict(n - 1) || n == MaxAttempts
  {
    if !conflict(0) then 1 else if !conflict(1) then 2 else 3
  }

  /** Every attempt meets a conflict exactly when the last one counted does. */
  lemma AllAttemptsConflict(conflict: nat -> bool)
    ensures conflict(AttemptsUsed(conflict) - 1) <==> forall k :: 0 <= k < MaxAttempts ==> conflict(k)
  {
  }

  /**
   * One more trading day on the offset is one next-trading-day step from the date the
   * old offset resolves to, for any offset from zero up to the bound.
   */
  lemma OneMoreTradingDay(h: HolidayView, base: int, offset: int)
    requires 0 <= offset < MaxTradingDaysToAdd
    requires AddTradingDaysOf(h, base, offset).Ok?
    ensures AddTradingDaysOf(h, base, offset + 1) == NextTradingDayOf(h, AddTradingDaysOf(h, base, offset).value)
  {
    if offset > 0 {
      assert StepForward(h, base, offset + 1) == NextTradingDayOf(h, StepForward(h, base, offset).value);
    } else {
      assert StepForward(h, base, 1) == NextTradingDayOf(h, base);
    }
  }

  /**
   * What advance-day answers once a save has gone through: the new date is the one the
   * incremented offset resolves to, and a failure to resolve it is thrown.
   */
  function AdvancedResponse(previousDate: int, h: HolidayView, row: StateRow): (r: Result<AdvanceResponse>)
    ensures r.Ok? <==> AddTradingDaysOf(h, row.baseDate, row.tradingOffset + 1).Ok?
    ensures r.Ok? ==> r.value.Success() && r.value.previousDate == previousDate
    ensures r.Ok? ==> r.value.tradingOffset == row.tradingOffset + 1
    ensures r.Ok? ==> Ok(r.value.currentDate) == AddTradingDaysOf(h, row.baseDate, row.tradingOffset + 1)
  {
    match AddTradingDaysOf(h, row.baseDate, row.tradingOffset + 1)
    case Err(e) => Err(e)
    case Ok(d) => Ok(Advanced(previousDate, d, row.tradingOffset + 1))
  }

  /**
   * When the clock was reporting the date the stored offset resolves to, an answer that
   * advanced moves the reported date to the next trading day.
   */
  lemma AdvancedIsNextTradingDay(previousDate: int, h: HolidayView, row: StateRow)
    requires 0 <= row.tradingOffset < MaxTradingDaysToAdd
    requires AddTradingDaysOf(h, row.baseDate, row.tradingOffset) == Ok(previousDate)
    requires AdvancedResponse(previousDate, h, row).Ok?
    ensures Ok(AdvancedResponse(previousDate, h, row).value.currentDate) == NextTradingDayOf(h, previousDate)
    ensures previousDate < AdvancedResponse(previousDate, h, row).value.currentDate
  {
    OneMoreTradingDay(h, row.baseDate, row.tradingOffset);
  }

  class SimulationController {
    const repository: SimulationStateRepository
    const clock: ExchangeClock

    constructor(repository: SimulationStateRepository, clock: ExchangeClock)
      requires clock.repository == repository
      ensures this.repository == repository && this.clock == clock && Wired()
    {
      this.repository := repository;
      this.clock := clock;
    }

    /** The controller and its clock share one repository. */
    predicate Wired()
      reads this
    {
      clock.repository == repository
    }

    /**
     * advance-day. Each attempt reads the clock's date first (possibly from its cache),
     * loads the row, advances it and saves it; a save that meets a concurrent
     * modification changes nothing and is retried, up to MaxAttempts in all. After a
     * save the clock's cache is cleared and the date read again. A missing row, and a
     * date the clock cannot resolve, are thrown.
     */
    method AdvanceDay(conflict: nat -> bool) returns (r: Result<AdvanceResponse>, attempts: nat)
      requires Wired() && repository.Valid()
      modifies repository, clock
      ensures 1 <= attempts <= MaxAttempts
      ensures old(clock.Reported()).Err? ==>
        r == Err(old(clock.Reported()).error) && attempts == 1 && repository.rows == old(repository.rows)
      ensures old(clock.Reported()).Ok? && StateRowId !in old(repository.rows) ==>
        r == Err(Runtime) && attempts == 1 && repository.rows == old(repository.rows)
      ensures old(clock.Reported()).Ok? && StateRowId in old(repository.rows) ==>
        attempts == AttemptsUsed(conflict)
      ensures old(clock.Reported()).Ok? && StateRowId in old(repository.rows) && conflict(attempts - 1) ==>
        r == Ok(Conflict) && repository.rows == old(repository.rows)
      ensures old(clock.Reported()).Ok? && StateRowId in old(repository.rows) && !conflict(attempts - 1) ==>
        repository.rows == old(repository.rows)[StateRowId :=
          old(repository.rows[StateRowId]).(tradingOffset := old(repository.rows[StateRowId].tradingOffset) + 1)] &&
        r == AdvancedResponse(old(clock.Reported()).value, old(clock.tradingCalendar.View()),
                              old(repository.rows[StateRowId])) &&
        clock.Reported() == AddTradingDaysOf(old(clock.tradingCalendar.View()),
                                             old(repository.rows[StateRowId].baseDate),
                                             old(repository.rows[StateRowId].tradingOffset) + 1)
      ensures !(old(clock.Reported()).Ok? && StateRowId in old(repository.rows) && !conflict(attempts - 1)) ==>
        clock.Reported() == old(clock.Reported())
    {
      var attempt: nat := 0;
      while attempt < MaxAttempts
        invariant attempt < MaxAttempts
        invariant forall k :: 0 <= k < attempt ==> conflict(k)
        invariant attempt > 0 ==> old(clock.Reported()).Ok? && StateRowId in old(repository.rows)
        invariant repository.rows == old(repository.rows)
        invariant clock.Reported() == old(clock.Reported())
        decreases MaxAttempts - attempt
      {
        attempts := attempt + 1;
        var previousDate := clock.Today();
        if previousDate.Err? {
          return Err(previousDate.error), attempts;
        }
        var found := repository.FindById(StateRowId);
        if found.None? {
          return Err(Runtime), attempts;
        }
        var state := found.value;
        state.AdvanceDay();
        if conflict(attempt) {
          // The save is rejected and the stored row is left as it was.
          if attempt + 1 >= MaxAttempts {
            return Ok(Conflict), attempts;
          }
        } else {
          r := CommitAdvance(state, previousDate.value, found.value.Row().(tradingOffset := found.value.tradingOffset - 1));
          return r, attempts;
        }
        attempt := attempt + 1;
      }
      assert false;
    }

    /**
     * The tail of an attempt whose save goes through: the advanced entity is saved, the
     * clock's cache cleared and the date read again, now from the saved row.
     */
    method CommitAdvance(state: SimulationState, previousDate: int, ghost loaded: StateRow)
      returns (r: Result<AdvanceResponse>)
      requires Wired() && state.Row() == loaded.(tradingOffset := loaded.tradingOffset + 1)
      requires loaded.id == StateRowId
      modifies repository, clock
      ensures repository.rows == old(repository.rows)[StateRowId := loaded.(tradingOffset := loaded.tradingOffset + 1)]
      ensures r == AdvancedResponse(previousDate, old(clock.tradingCalendar.View()), loaded)
      ensures clock.Reported() == AddTradingDaysOf(old(clock.tradingCalendar.View()), loaded.baseDate,
                                                   loaded.tradingOffset + 1)
    {
      repository.Save(state);
      clock.InvalidateSimulationCache();
      var newDate := clock.Today();
      if newDate.Err? {
        return Err(newDate.error);
      }
      return Ok(Advanced(previousDate, newDate.value, state.tradingOffset));
    }

    /**
     * reset: the stored offset goes back to zero. The clock's cache is not cleared, so
     * the date reported is whatever the clock already held, or else the base date
     * resolved afresh. A missing row is thrown.
     */
    method Reset() returns (r: Result<int>)
      requires Wired() && repository.Valid()
      modifies repository, clock
      ensures StateRowId !in old(repository.rows) ==>
        r == Err(Runtime) && repository.rows == old(repository.rows) && unchanged(clock)
      ensures StateRowId in old(repository.rows) ==>
        repository.rows == old(repository.rows)[StateRowId := old(repository.rows[StateRowId]).(tradingOffset := 0)]
      ensures StateRowId in old(repository.rows) && old(clock.CacheFilled()) ==>
        r == Ok(old(clock.cachedToday.value)) && unchanged(clock)
      ensures StateRowId in old(repository.rows) && !old(clock.CacheFilled()) ==>
        r == AddTradingDaysOf(old(clock.tradingCalendar.View()), old(repository.rows[StateRowId].baseDate), 0)
      ensures StateRowId in old(repository.rows) ==> clock.Reported() == r
    {
      var found := repository.FindById(StateRowId);
      if found.None? {
        return Err(Runtime);
      }
      var state := found.value;
      state.SetTradingOffset(0);
      repository.Save(state);
      r := clock.Today();
    }
  }
}
