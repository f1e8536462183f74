# market-scanner simulation control plane, in Dafny

This project models the control plane of the market-scanner service in Dafny. That control plane covers the parts that decide what "today" is and whether work may run on it:

- **Trading calendar of the National Stock Exchange.** It classifies each date as a trading session, weekend, scheduled holiday, special session or emergency closure. It also does trading-day arithmetic: next and previous trading day, adding trading days, and counting trading days between two dates.
- **Simulated timeline.** A single persisted row holds a base date and a trading-day offset. The exchange clock resolves that row to today's date and caches the answer until it is explicitly invalidated.
- **Simulation control.**
  - The batch orchestrator advances the timeline by N trading days, running one ingest-and-scan cycle per day, and commits the new offset only when every cycle ran.
  - The controller endpoints advance by one day, retrying on optimistic-lock conflicts, and reset the timeline.
- **Per-date execution record.** Its gates decide whether ingestion or a scan may run for a date.
- **Market-data provider resilience.** A circuit breaker plus a bounded retry loop with exponential backoff and jitter.
- **Average-volume indicator.** It is computed over the last N price rows.

Dates are whole numbers of days since 1970-01-01, as in `LocalDate.toEpochDay`. `Time` defines the parts of `java.time` the code relies on:

- the day of the week;
- the proleptic Gregorian calendar behind `plusYears`;
- times of day as nanoseconds since midnight;
- `plusHours`, `plusMinutes` and `isAfter`.

The following are inputs, not modelled code:

- The execution-state service reads the time provider through the exchange clock's `NowDateTime`. In simulation that is today's date at 09:15, or the clock's error.
- Elsewhere, time provider readings are `now` parameters: the circuit breaker, the retry loop and emergency closures.
- The ingest-and-scan pipeline is a function from a date to what one run did.
- The market-data provider, the random jitter and sleep interruptions are functions of the attempt number.
- Optimistic-lock conflicts at save are a function of the attempt number.

Persistence is modelled with repository classes that hold maps of value rows. An entity is loaded from a row, changed in place and saved back. So a save that is refused, like a rolled-back transaction, leaves the stored row as it was.

Modules follow the source packages:

- `Time`, `SessionTypes`, `HolidayCalendar` and `TradingCalendar`: the calendar.
- `SimulationStates`, `ExchangeClocks`, `SimulationClockConfig` and `ExchangeConfigurations`: model and config.
- `ScanExecution` and `ExecutionStateServices`: execution state.
- `CircuitBreakers` and `ProviderRetry`: provider.
- `SimulationCycles`: the orchestrator.
- `SimulationControllers`: the endpoints.
- `Indicators`: the indicator.

## Behaviour as the code has it

Several parts of the code behave differently from what their names, comments or stored fields suggest. In each case the model follows the code:

- **Half-open breaker.** `isCallAllowed` (ProviderCircuitBreaker.java:33-54) answers true for every call while the state is HALF_OPEN, not for a single trial call. It does so until a recorded outcome moves the state on (`CircuitBreakers.AllowCall`).
- **Cycling flag.** `SimulationState` stores `isCycling` and `cyclingStartedAt` (SimulationState.java:50-54), but no code reads them. `validateState` (SimulationCycleService.java:116-118) has an empty body. Mutual exclusion comes only from `synchronized`, which is not modelled.
- **Cycle failures.** `runSingleCycleInMemory` always builds its result with `success = true` (SimulationCycleService.java:103). So the "cycle failed" branch of `advanceSimulation` (SimulationCycleService.java:58-62) is dead. Failures arrive only as exceptions thrown by the pipeline, and they roll back the whole batch.
- **Cache invalidation.** The comment on `invalidateSimulationCache` (ExchangeClock.java:109-112) says it must be called after any state change in simulation mode, naming advance-day and reset. Only the controller's advance-day calls it.
  - `resetSimulation` (SimulationCycleService.java:74-84) and the controller's `reset` (SimulationController.java:140-158) do not. A filled cache therefore keeps reporting the pre-reset date (`SimulationControllers.SimulationController.Reset`, `ExchangeClocks.StaleUntilInvalidated`).
  - `advanceSimulation` saves the new offset without invalidating (SimulationCycleService.java:67-70). After a batch, a filled cache keeps reporting the pre-batch date. `SimulationCycles.SimulationCycleService.AdvanceSimulation` modifies only the repository, so the clock's cached answer is unchanged.
- **Volume types.** `calculateAvgVolume` reads each volume as a `Long` (IndicatorService.java:127), while `StockPrice` declares the column `Integer` (StockPrice.java:46). The model reads the stored value unchanged.

## Model


| member | source | states |
|---|---|---|
| SessionTypes.FiveSessionKinds | src/main/java/com/trading/scanner/calendar/SessionType.java:6-25 | exactly five session kinds; a session trades exactly when it is TRADING or SPECIAL_SESSION |
| Time.TimeOf | src/main/java/com/trading/scanner/config/ExchangeClock.java:15 | LocalTime.of(h, m) has hour h and minute m |
| Time.PlusMinutes | src/main/java/com/trading/scanner/service/provider/ProviderCircuitBreaker.java:43 | plusMinutes moves the instant by exactly that many minutes, carrying into the date |
| Time.DayOfWeek | src/main/java/com/trading/scanner/calendar/DefaultTradingCalendar.java:31-32 | the day of week is one of seven values |
| Time.EpochIsThursday | src/main/java/com/trading/scanner/calendar/DefaultTradingCalendar.java:31-32 | day 0 is 1970-01-01 and a Thursday, anchoring the weekday rule |
| Time.YearStartClosed | src/main/java/com/trading/scanner/calendar/DefaultTradingCalendar.java:48 | the first day of year y is 365 days per year since 1970 plus the Gregorian leap days in between |
| Time.CivilOfEpochDay | src/main/java/com/trading/scanner/calendar/DefaultTradingCalendar.java:48 | converting a valid date to its day number and back gives the same year, month and day |
| Time.PlusYearsOfDate | src/main/java/com/trading/scanner/calendar/DefaultTradingCalendar.java:45-70 | plusYears/minusYears keep month and day, clamping 29 February to the month's last day |
| Time.IndependenceDay2026IsSaturday | src/main/java/com/trading/scanner/calendar/DefaultTradingCalendar.java:31-33 | 2026-08-15 is day 20680 and a Saturday |
| Time.CivilOfIndependenceDay2026 | src/main/java/com/trading/scanner/calendar/DefaultTradingCalendar.java:31-33 | day 20680 converts back to 2026-08-15 |
| HolidayCalendar.RepublicDay2023IsDayNumber | src/main/java/com/trading/scanner/calendar/NseHolidayCalendar.java:24 | the first listed holiday, 2023-01-26, is day 19383 |
| HolidayCalendar.LeapDay2024PrecedesMarch | src/main/java/com/trading/scanner/calendar/NseHolidayCalendar.java:41-56 | in 2024 the day after 29 February is 1 March |
| HolidayCalendar.Christmas2026IsDayNumber | src/main/java/com/trading/scanner/calendar/NseHolidayCalendar.java:90 | the last listed holiday, 2026-12-25, is day 20812 |
| HolidayCalendar.NseHolidayCalendar.constructor | src/main/java/com/trading/scanner/calendar/NseHolidayCalendar.java:94-101 | the calendar answers from the four yearly holiday lists, an empty special-session list and the stored closures |
| HolidayCalendar.NewCalendarLists | src/main/java/com/trading/scanner/calendar/NseHolidayCalendar.java:94-118 | a date is a holiday exactly when it is in one of the four yearly lists; no date has a special session |
| HolidayCalendar.NseHolidayCalendar.MarkEmergencyClosure | src/main/java/com/trading/scanner/calendar/NseHolidayCalendar.java:131-141 | an existing closure is kept; otherwise one with reason "Unspecified" and the current time is added; other dates are untouched |
| HolidayCalendar.NseHolidayCalendar.ClearEmergencyClosure | src/main/java/com/trading/scanner/calendar/NseHolidayCalendar.java:146-148 | the closure for the date is removed and nothing else |
| HolidayCalendar.MarkTwiceIsMarkOnce | src/main/java/com/trading/scanner/calendar/NseHolidayCalendar.java:131-141 | marking a date twice leaves the table as one mark did, with the first mark's time |
| TradingCalendar.ClassificationPrecedence | src/main/java/com/trading/scanner/calendar/DefaultTradingCalendar.java:20-42 | a closure overrides everything; a special session trades even on a weekend or holiday; otherwise a date trades exactly when it is a weekday and not a holiday |
| TradingCalendar.ScanForward | src/main/java/com/trading/scanner/calendar/DefaultTradingCalendar.java:49-54 | the first trading day in the searched range, with none before it, or none at all |
| TradingCalendar.ScanBackward | src/main/java/com/trading/scanner/calendar/DefaultTradingCalendar.java:63-68 | the last trading day in the searched range, with none after it, or none at all |
| TradingCalendar.NextTradingDayOf | src/main/java/com/trading/scanner/calendar/DefaultTradingCalendar.java:45-56 | the nearest later trading day; an IllegalState error only when none lies within ten years |
| TradingCalendar.PreviousTradingDayOf | src/main/java/com/trading/scanner/calendar/DefaultTradingCalendar.java:59-70 | the nearest earlier trading day; an IllegalState error only when none lies within ten years |
| TradingCalendar.StepForward | src/main/java/com/trading/scanner/calendar/DefaultTradingCalendar.java:87-90 | k > 0 successful steps end on a later trading day; errors are IllegalState |
| TradingCalendar.StepBackward | src/main/java/com/trading/scanner/calendar/DefaultTradingCalendar.java:91-95 | k > 0 successful steps end on an earlier trading day; errors are IllegalState |
| TradingCalendar.AddTradingDaysOf | src/main/java/com/trading/scanner/calendar/DefaultTradingCalendar.java:73-97 | zero days requires a trading day and returns it; beyond 25200 days is IllegalArgument; otherwise the result trades and lies on the side the sign says |
| TradingCalendar.StepForwardErrPersists | src/main/java/com/trading/scanner/calendar/DefaultTradingCalendar.java:88-90 | once a forward walk fails, every longer one fails with the same error |
| TradingCalendar.StepBackwardErrPersists | src/main/java/com/trading/scanner/calendar/DefaultTradingCalendar.java:92-94 | once a backward walk fails, every longer one fails with the same error |
| TradingCalendar.StepForwardCompose | src/main/java/com/trading/scanner/calendar/DefaultTradingCalendar.java:88-90 | walking a + b steps is walking a and then b more |
| TradingCalendar.StepForwardIncreasing | src/main/java/com/trading/scanner/calendar/DefaultTradingCalendar.java:88-90 | later steps of a forward walk land strictly later |
| TradingCalendar.CountIsCardinality | src/main/java/com/trading/scanner/calendar/DefaultTradingCalendar.java:115-123 | the counting loop's result is the number of trading days in (start, end] |
| TradingCalendar.CountSplit | src/main/java/com/trading/scanner/calendar/DefaultTradingCalendar.java:115-123 | counts over adjacent ranges add up |
| TradingCalendar.CountOfGap | src/main/java/com/trading/scanner/calendar/DefaultTradingCalendar.java:115-123 | a range without trading days counts zero |
| TradingCalendar.CountUpToNext | src/main/java/com/trading/scanner/calendar/DefaultTradingCalendar.java:45-56 | exactly one trading day lies in (d, nextTradingDay(d)] |
| TradingCalendar.CountFromPrevious | src/main/java/com/trading/scanner/calendar/DefaultTradingCalendar.java:59-70 | (previousTradingDay(d), d] holds d alone when d trades, else nothing |
| TradingCalendar.StepForwardCounts | src/main/java/com/trading/scanner/calendar/DefaultTradingCalendar.java:87-90 | k forward steps cross exactly k trading days |
| TradingCalendar.StepBackwardCounts | src/main/java/com/trading/scanner/calendar/DefaultTradingCalendar.java:91-95 | k backward steps cross k - 1 trading days, plus the start when it trades |
| TradingCalendar.AddTradingDaysThenCount | src/main/java/com/trading/scanner/calendar/DefaultTradingCalendar.java:73-124 | tradingDaysBetween(d, addTradingDays(d, n)) is n, or n + 1 for a backward move from a non-trading day |
| TradingCalendar.TradingDaysBetweenAntisymmetric | src/main/java/com/trading/scanner/calendar/DefaultTradingCalendar.java:111-113 | swapping the two dates negates the count, and the error cases coincide |
| TradingCalendar.JavaIntAbs | src/main/java/com/trading/scanner/calendar/DefaultTradingCalendar.java:82 | 32-bit Math.abs is the absolute value except at Integer.MIN_VALUE, where it stays negative |
| TradingCalendar.AsWrittenAgreesBesideIntMin | src/main/java/com/trading/scanner/calendar/DefaultTradingCalendar.java:82-95 | with 32-bit Math.abs, addTradingDays agrees with the corrected model on every count but Integer.MIN_VALUE |
| TradingCalendar.AsWrittenIntMinReturnsNonTradingDay | src/main/java/com/trading/scanner/calendar/DefaultTradingCalendar.java:82-95 | with Integer.MIN_VALUE the guard is passed and a Saturday comes back unchanged |
| TradingCalendar.DefaultTradingCalendar.constructor | src/main/java/com/trading/scanner/calendar/DefaultTradingCalendar.java:15-17 | the calendar reads the given holiday calendar |
| TradingCalendar.DefaultTradingCalendar.NextTradingDay | src/main/java/com/trading/scanner/calendar/DefaultTradingCalendar.java:45-56 | the loop computes NextTradingDayOf over the holiday source's current answers |
| TradingCalendar.DefaultTradingCalendar.PreviousTradingDay | src/main/java/com/trading/scanner/calendar/DefaultTradingCalendar.java:59-70 | the loop computes PreviousTradingDayOf |
| TradingCalendar.DefaultTradingCalendar.AddTradingDays | src/main/java/com/trading/scanner/calendar/DefaultTradingCalendar.java:73-97 | the loops compute AddTradingDaysOf |
| TradingCalendar.DefaultTradingCalendar.TradingDaysBetween | src/main/java/com/trading/scanner/calendar/DefaultTradingCalendar.java:100-124 | the loop computes the signed count of trading days, with the 36500-day limit |
| SimulationStates.SimulationState.Create | src/main/java/com/trading/scanner/model/SimulationState.java:27-54 | a new entity has the given id, base date and offset, no version and is not cycling |
| SimulationStates.SimulationState.AdvanceDay | src/main/java/com/trading/scanner/model/SimulationState.java:69-71 | the trading offset grows by exactly one and nothing else changes |
| SimulationStates.SimulationState.SetTradingOffset | src/main/java/com/trading/scanner/model/SimulationState.java:47 | only the trading offset changes |
| SimulationStates.SimulationState.GetCurrentDate | src/main/java/com/trading/scanner/model/SimulationState.java:62-64 | always fails with UnsupportedOperation |
| SimulationStates.SimulationStateRepository.FindById | src/main/java/com/trading/scanner/repository/SimulationStateRepository.java:13 | finds a fresh entity holding the stored row exactly when the id is stored |
| SimulationStates.SimulationStateRepository.Save | src/main/java/com/trading/scanner/repository/SimulationStateRepository.java:13 | stores the entity's row under its id; other rows are untouched; rows stay keyed by id |
| ExchangeClocks.ExchangeClock.constructor | src/main/java/com/trading/scanner/config/ExchangeClock.java:48-54 | a simulation clock starts with an empty cache |
| ExchangeClocks.ExchangeClock.Today | src/main/java/com/trading/scanner/config/ExchangeClock.java:64-85 | a filled cache answers without reading the row; otherwise the row is resolved and the cache filled; later calls report the same date |
| ExchangeClocks.ExchangeClock.NowDateTime | src/main/java/com/trading/scanner/config/ExchangeClock.java:93-99 | today at 09:15, or today's error |
| ExchangeClocks.ExchangeClock.InvalidateSimulationCache | src/main/java/com/trading/scanner/config/ExchangeClock.java:113-116 | clears both cache fields, so the clock next reports what the stored row resolves to |
| ExchangeClocks.StaleUntilInvalidated | src/main/java/com/trading/scanner/config/ExchangeClock.java:64-116 | a new offset saved without invalidation leaves the clock's date stale; after invalidation the new offset's date is reported |
| SimulationClockConfig.InitialRow | src/main/java/com/trading/scanner/config/SimulationClockConfig.java:44-52 | the created row has id 1, the configured base date and offset 0 |
| SimulationClockConfig.BuildExchangeClock | src/main/java/com/trading/scanner/config/SimulationClockConfig.java:39-70 | keeps an existing row or creates one; fails with IllegalState exactly when the stored base date does not trade; the created row stays saved even then |
| ExchangeConfigurations.PlusHoursIsAdditionModuloDay | src/main/java/com/trading/scanner/config/ExchangeConfiguration.java:77 | plusHours is addition modulo 24 hours |
| ExchangeConfigurations.DefaultBufferNeverElapsesAtSimulationTime | src/main/java/com/trading/scanner/config/ExchangeConfiguration.java:74-79 | with close 15:30 and a 3-hour buffer, the fixed 09:15 time never passes the buffer |
| ExchangeConfigurations.BufferPastMidnightWraps | src/main/java/com/trading/scanner/config/ExchangeConfiguration.java:74-79 | a buffer reaching past midnight wraps, so 09:15 counts as after it |
| ExchangeConfigurations.ExchangeConfiguration.GetTodayInExchangeZone | src/main/java/com/trading/scanner/config/ExchangeConfiguration.java:62-64 | the clock's today |
| ExchangeConfigurations.ExchangeConfiguration.GetCurrentTimeInExchangeZone | src/main/java/com/trading/scanner/config/ExchangeConfiguration.java:66-68 | 09:15 whenever today resolves |
| ExchangeConfigurations.ExchangeConfiguration.HasPublishBufferElapsed | src/main/java/com/trading/scanner/config/ExchangeConfiguration.java:74-79 | whether 09:15 is strictly after close plus the buffer on a 24-hour dial |
| ExchangeConfigurations.ExchangeConfiguration.GetSafeFetchEndDate | src/main/java/com/trading/scanner/config/ExchangeConfiguration.java:81-84 | today once the buffer has elapsed, else the calendar day before |
| ExchangeConfigurations.ExchangeConfiguration.IsHistoricalReloadAllowed | src/main/java/com/trading/scanner/config/ExchangeConfiguration.java:86-88 | allowed exactly when both switches are on |
| ScanExecution.ExecutionRecord.StartIngestion | src/main/java/com/trading/scanner/model/ScanExecutionState.java:92-96 | ingestion IN_PROGRESS with mode and time; the scan half is untouched |
| ScanExecution.ExecutionRecord.CompleteIngestion | src/main/java/com/trading/scanner/model/ScanExecutionState.java:98-103 | ingestion SUCCESS with count and source; the record has data exactly when the count is positive |
| ScanExecution.ExecutionRecord.CompleteIngestionNoData | src/main/java/com/trading/scanner/model/ScanExecutionState.java:105-110 | ingestion SUCCESS_NO_DATA with count 0; complete but without data |
| ScanExecution.ExecutionRecord.FailIngestion | src/main/java/com/trading/scanner/model/ScanExecutionState.java:112-117 | ingestion FAILED with the message and source; not complete |
| ScanExecution.ExecutionRecord.StartScan | src/main/java/com/trading/scanner/model/ScanExecutionState.java:119-122 | scan IN_PROGRESS; the ingestion half is untouched |
| ScanExecution.ExecutionRecord.CompleteScan | src/main/java/com/trading/scanner/model/ScanExecutionState.java:124-128 | scan SUCCESS with the signal count; complete |
| ScanExecution.ExecutionRecord.SkipScan | src/main/java/com/trading/scanner/model/ScanExecutionState.java:130-134 | scan SKIPPED with the reason; complete |
| ScanExecution.ExecutionRecord.FailScan | src/main/java/com/trading/scanner/model/ScanExecutionState.java:136-140 | scan FAILED with the message; complete |
| ScanExecution.ScanExecutionState.StartIngestion | src/main/java/com/trading/scanner/model/ScanExecutionState.java:92-96 | the entity's row becomes the StartIngestion transition of its old row |
| ScanExecution.ScanExecutionState.CompleteIngestion | src/main/java/com/trading/scanner/model/ScanExecutionState.java:98-103 | the entity's row becomes the CompleteIngestion transition of its old row |
| ScanExecution.ScanExecutionState.CompleteIngestionNoData | src/main/java/com/trading/scanner/model/ScanExecutionState.java:105-110 | the entity's row becomes the CompleteIngestionNoData transition of its old row |
| ScanExecution.ScanExecutionState.FailIngestion | src/main/java/com/trading/scanner/model/ScanExecutionState.java:112-117 | the entity's row becomes the FailIngestion transition of its old row |
| ScanExecution.ScanExecutionState.StartScan | src/main/java/com/trading/scanner/model/ScanExecutionState.java:119-122 | the entity's row becomes the StartScan transition of its old row |
| ScanExecution.ScanExecutionState.CompleteScan | src/main/java/com/trading/scanner/model/ScanExecutionState.java:124-128 | the entity's row becomes the CompleteScan transition of its old row |
| ScanExecution.ScanExecutionState.SkipScan | src/main/java/com/trading/scanner/model/ScanExecutionState.java:130-134 | the entity's row becomes the SkipScan transition of its old row |
| ScanExecution.ScanExecutionState.FailScan | src/main/java/com/trading/scanner/model/ScanExecutionState.java:136-140 | the entity's row becomes the FailScan transition of its old row |
| ExecutionStateServices.NewRecord | src/main/java/com/trading/scanner/service/state/ExecutionStateService.java:27-38 | a new record is PENDING/PENDING with an UNKNOWN source, no data and nothing complete |
| ExecutionStateServices.ScanGate | src/main/java/com/trading/scanner/service/state/ExecutionStateService.java:64-73 | no data means no scan; with data, a scan may run exactly when it is pending or failed |
| ExecutionStateServices.IngestionCompletesOnce | src/main/java/com/trading/scanner/service/state/ExecutionStateService.java:40-62 | completing ingestion closes the ingestion gate; the scan gate then opens exactly when data arrived and the scan is pending or failed |
| ExecutionStateServices.FailuresReopenTheGates | src/main/java/com/trading/scanner/service/state/ExecutionStateService.java:40-73 | a failed ingestion may be retried; a failed scan may be retried while data is there |
| ExecutionStateServices.ScanCompletesOnce | src/main/java/com/trading/scanner/service/state/ExecutionStateService.java:64-85 | completing, skipping or starting a scan closes the scan gate; starting ingestion closes the ingestion gate |
| ExecutionStateServices.ExecutionStateService.GetOrCreateState | src/main/java/com/trading/scanner/service/state/ExecutionStateService.java:27-38 | the stored record, or a new one that is saved; other dates untouched; every record stays stored under its own date, as every method of the service keeps it |
| ExecutionStateServices.ExecutionStateService.CanIngestForDate | src/main/java/com/trading/scanner/service/state/ExecutionStateService.java:40-44 | the ingestion gate of the date's record, creating the record if needed |
| ExecutionStateServices.ExecutionStateService.CanScanForDate | src/main/java/com/trading/scanner/service/state/ExecutionStateService.java:64-73 | the scan gate of the date's record, creating the record if needed |
| ExecutionStateServices.ExecutionStateService.StartIngestionForDate | src/main/java/com/trading/scanner/service/state/ExecutionStateService.java:46-50 | the date's record, loaded or created, takes the StartIngestion transition stamped with the clock's reading (today at 09:15); if the clock fails, its error is returned and only the created record is saved |
| ExecutionStateServices.ExecutionStateService.CompleteIngestionForDate | src/main/java/com/trading/scanner/service/state/ExecutionStateService.java:52-56 | the date's record, loaded or created, takes the CompleteIngestion transition stamped with the clock's reading, closing the ingestion gate; if the clock fails, its error is returned and only the created record is saved |
| ExecutionStateServices.ExecutionStateService.CompleteIngestionNoDataForDate | src/main/java/com/trading/scanner/service/state/ExecutionStateService.java:58-62 | the date's record, loaded or created, takes the no-data transition stamped with the clock's reading, closing both gates; if the clock fails, its error is returned and only the created record is saved |
| ExecutionStateServices.ExecutionStateService.StartScanForDate | src/main/java/com/trading/scanner/service/state/ExecutionStateService.java:75-79 | the date's record, loaded or created, takes the StartScan transition stamped with the clock's reading; if the clock fails, its error is returned and only the created record is saved |
| ExecutionStateServices.ExecutionStateService.CompleteScanForDate | src/main/java/com/trading/scanner/service/state/ExecutionStateService.java:81-85 | the date's record, loaded or created, takes the CompleteScan transition stamped with the clock's reading, closing the scan gate; if the clock fails, its error is returned and only the created record is saved |
| ExecutionStateServices.ExecutionStateService.GetOrCreateTodayState | src/main/java/com/trading/scanner/service/state/ExecutionStateService.java:90-92 | as GetOrCreateState on the clock's today; a clock error changes nothing |
| ExecutionStateServices.ExecutionStateService.GetTodayState | src/main/java/com/trading/scanner/service/state/ExecutionStateService.java:135-137 | as GetOrCreateState on the clock's today |
| ExecutionStateServices.ExecutionStateService.CanIngestToday | src/main/java/com/trading/scanner/service/state/ExecutionStateService.java:94-96 | the ingestion gate for the clock's today |
| ExecutionStateServices.ExecutionStateService.CanScanToday | src/main/java/com/trading/scanner/service/state/ExecutionStateService.java:98-100 | the scan gate for the clock's today |
| ExecutionStateServices.ExecutionStateService.StartIngestionToday | src/main/java/com/trading/scanner/service/state/ExecutionStateService.java:103-105 | today's record takes the StartIngestion transition stamped today at 09:15; a clock error changes nothing |
| ExecutionStateServices.ExecutionStateService.CompleteIngestionToday | src/main/java/com/trading/scanner/service/state/ExecutionStateService.java:108-110 | today's record takes the CompleteIngestion transition stamped today at 09:15; a clock error changes nothing |
| ExecutionStateServices.ExecutionStateService.CompleteIngestionNoDataToday | src/main/java/com/trading/scanner/service/state/ExecutionStateService.java:113-115 | today's record takes the no-data transition stamped today at 09:15; a clock error changes nothing |
| ExecutionStateServices.ExecutionStateService.FailIngestionToday | src/main/java/com/trading/scanner/service/state/ExecutionStateService.java:118-122 | today's record is loaded or created, takes the FailIngestion transition stamped today at 09:15 and is saved; a clock error changes nothing |
| ExecutionStateServices.ExecutionStateService.StartScanToday | src/main/java/com/trading/scanner/service/state/ExecutionStateService.java:125-127 | today's record takes the StartScan transition stamped today at 09:15; a clock error changes nothing |
| ExecutionStateServices.ExecutionStateService.CompleteScanToday | src/main/java/com/trading/scanner/service/state/ExecutionStateService.java:130-132 | today's record takes the CompleteScan transition stamped today at 09:15; a clock error changes nothing |
| ExecutionStateServices.IngestOncePerDate | src/main/java/com/trading/scanner/service/state/ExecutionStateService.java:40-56 | the first gate check answers the record's gate; completing ingestion succeeds exactly when the clock can answer, and once it has, the ingestion gate stays closed for the date |
| CircuitBreakers.AllowCall | src/main/java/com/trading/scanner/service/provider/ProviderCircuitBreaker.java:33-54 | CLOSED and HALF_OPEN admit; OPEN admits, moving to HALF_OPEN, exactly when the cooldown has strictly passed |
| CircuitBreakers.AfterSuccess | src/main/java/com/trading/scanner/service/provider/ProviderCircuitBreaker.java:56-64 | CLOSED with zero failures; the opening time is cleared only if the breaker was not closed |
| CircuitBreakers.AfterFailure | src/main/java/com/trading/scanner/service/provider/ProviderCircuitBreaker.java:66-80 | one more failure; reaching the threshold while not OPEN opens the circuit at the current time; an OPEN breaker keeps its opening time |
| CircuitBreakers.InvariantPreserved | src/main/java/com/trading/scanner/service/provider/ProviderCircuitBreaker.java:33-80 | every operation keeps: failures non-negative, not CLOSED only at or past the threshold, an opening time exactly when not CLOSED |
| CircuitBreakers.FailAll | src/main/java/com/trading/scanner/service/provider/ProviderCircuitBreaker.java:66-80 | a run of failures adds its length to the count |
| CircuitBreakers.ConsecutiveFailures | src/main/java/com/trading/scanner/service/provider/ProviderCircuitBreaker.java:66-80 | from CLOSED below the threshold, failures open the circuit exactly when the count reaches the threshold, timed at the failure that reached it |
| CircuitBreakers.InitialBreakerOpensAtThreshold | src/main/java/com/trading/scanner/service/provider/ProviderCircuitBreaker.java:25-27 | from a fresh breaker, threshold failures open it and fewer do not |
| CircuitBreakers.ProviderCircuitBreaker.constructor | src/main/java/com/trading/scanner/service/provider/ProviderCircuitBreaker.java:25-27 | a new breaker is CLOSED with no failures and no opening time |
| CircuitBreakers.ProviderCircuitBreaker.IsCallAllowed | src/main/java/com/trading/scanner/service/provider/ProviderCircuitBreaker.java:33-54 | answers and updates the state as AllowCall; keeps the invariant |
| CircuitBreakers.ProviderCircuitBreaker.RecordSuccess | src/main/java/com/trading/scanner/service/provider/ProviderCircuitBreaker.java:56-64 | updates the state as AfterSuccess; keeps the invariant |
| CircuitBreakers.ProviderCircuitBreaker.RecordFailure | src/main/java/com/trading/scanner/service/provider/ProviderCircuitBreaker.java:66-80 | updates the state as AfterFailure; keeps the invariant |
| ProviderRetry.SuccessResult | src/main/java/com/trading/scanner/service/provider/ProviderRetryService.java:76-78 | success with the data, not circuit-open, no exception |
| ProviderRetry.FailureResult | src/main/java/com/trading/scanner/service/provider/ProviderRetryService.java:80-82 | failure with the exception, not circuit-open, no data |
| ProviderRetry.CircuitOpenResult | src/main/java/com/trading/scanner/service/provider/ProviderRetryService.java:84-86 | circuit-open failure with no data and no exception |
| ProviderRetry.BackoffDoubles | src/main/java/com/trading/scanner/service/provider/ProviderRetryService.java:46 | the first backoff is the base and each later one doubles the previous |
| ProviderRetry.SleepAfter | src/main/java/com/trading/scanner/service/provider/ProviderRetryService.java:45-51 | the sleep after a failed attempt is the backoff plus that attempt's jitter, within [backoff, backoff + jitterMax] and never negative; it is IllegalArgument exactly when jitterMax is negative (the jitter draw throws) or the sum is negative (the sleep throws) |
| ProviderRetry.FailOneMore | src/main/java/com/trading/scanner/service/provider/ProviderRetryService.java:43 | recording one more failure at the same reading extends the run of failures recorded at it |
| ProviderRetry.RecordFailedAttempt | src/main/java/com/trading/scanner/service/provider/ProviderRetryService.java:41-43 | after the k-th consecutive failed attempt, the breaker is the admitted state with k failures recorded |
| ProviderRetry.FetchHistoricalDataWithRetry | src/main/java/com/trading/scanner/service/provider/ProviderRetryService.java:22-61 | circuit-open exactly when the breaker refuses, with no call, no sleep and the breaker as it was; at most maxAttempts calls, all but the last failing; a success is returned with the data and the breaker records the earlier failures and then the success; otherwise the last failure is returned after maxAttempts calls or an interrupted sleep; IllegalArgument escapes only after a failed attempt before the last, because jitterMax is negative or the sleep time is; sleeps lie in [backoff, backoff + jitterMax], none after the last attempt |
| ProviderRetry.Attempts | src/main/java/com/trading/scanner/service/provider/ProviderRetryService.java:35-60 | the loop once the breaker has admitted the call: the same outcomes, breaker states and sleeps as FetchHistoricalDataWithRetry states, starting from the admitted breaker |
| SimulationCycles.ValidateRequest | src/main/java/com/trading/scanner/service/simulation/SimulationCycleService.java:107-114 | accepts exactly 0..2000 days; anything else is IllegalArgument |
| SimulationCycles.RunSingleCycle | src/main/java/com/trading/scanner/service/simulation/SimulationCycleService.java:86-105 | a throwing pipeline aborts the cycle; otherwise the cycle succeeds on its date and offset with absent counts read as 0 |
| SimulationCycles.SumDurationsAppend | src/main/java/com/trading/scanner/service/simulation/SimulationCycleService.java:120-123 | the total duration of a concatenation is the sum of the totals |
| SimulationCycles.SumDurationsBounds | src/main/java/com/trading/scanner/service/simulation/SimulationCycleService.java:120-123 | with non-negative durations the total is non-negative and bounds each one |
| SimulationCycles.BuildBatchResult | src/main/java/com/trading/scanner/service/simulation/SimulationCycleService.java:120-123 | requested days, completed count = number of results, total duration = their sum |
| SimulationCycles.Cycles | src/main/java/com/trading/scanner/service/simulation/SimulationCycleService.java:54-65 | a successful run yields exactly n cycle results |
| SimulationCycles.CyclesMeaning | src/main/java/com/trading/scanner/service/simulation/SimulationCycleService.java:54-65 | the cycles succeed exactly when every cycle finds its date and runs; cycle i runs on the date i + 1 trading days on, labelled offset + i + 1 |
| SimulationCycles.CyclesErrPersists | src/main/java/com/trading/scanner/service/simulation/SimulationCycleService.java:54-65 | once a cycle fails, running more cycles fails with the same error |
| SimulationCycles.WalkIncreasing | src/main/java/com/trading/scanner/service/simulation/SimulationCycleService.java:54-65 | with a step that advances, later steps land strictly later |
| SimulationCycles.CyclesIncreasing | src/main/java/com/trading/scanner/service/simulation/SimulationCycleService.java:54-65 | successful cycles run on strictly increasing dates |
| SimulationCycles.CalendarAdvances | src/main/java/com/trading/scanner/service/simulation/SimulationCycleService.java:55 | the calendar's next trading day is always later |
| SimulationCycles.WalkIsStepForward | src/main/java/com/trading/scanner/service/simulation/SimulationCycleService.java:54-65 | the loop's walk of nextTradingDay calls is the calendar's forward walk |
| SimulationCycles.BatchFrom | src/main/java/com/trading/scanner/service/simulation/SimulationCycleService.java:51-70 | a successful batch is the batch result of exactly `days` cycles |
| SimulationCycles.Advance | src/main/java/com/trading/scanner/service/simulation/SimulationCycleService.java:39-72 | out-of-range days is IllegalArgument; zero days is an empty batch; a missing row is IllegalState; a success completes every requested cycle |
| SimulationCycles.AdvanceSucceeds | src/main/java/com/trading/scanner/service/simulation/SimulationCycleService.java:46-65 | a batch on an existing row succeeds exactly when the current date resolves and every cycle runs |
| SimulationCycles.AdvanceCycles | src/main/java/com/trading/scanner/service/simulation/SimulationCycleService.java:52-65 | in a successful batch, cycle i ran on the date i + 1 trading days after the current date, labelled with the offset it reaches |
| SimulationCycles.AdvanceDatesIncrease | src/main/java/com/trading/scanner/service/simulation/SimulationCycleService.java:52-65 | a successful batch runs on strictly increasing dates |
| SimulationCycles.BatchEndsWhereNewOffsetResolves | src/main/java/com/trading/scanner/service/simulation/SimulationCycleService.java:52-67 | the saved offset + days resolves to the last cycle's date |
| SimulationCycles.SimulationCycleService.RunCycles | src/main/java/com/trading/scanner/service/simulation/SimulationCycleService.java:54-65 | the loop computes Cycles with the calendar's nextTradingDay |
| SimulationCycles.SimulationCycleService.AdvanceSimulation | src/main/java/com/trading/scanner/service/simulation/SimulationCycleService.java:39-72 | answers Advance; on success with days > 0 the stored offset grows by days and nothing else changes; any error or zero days leaves the rows as they were |
| SimulationCycles.SimulationCycleService.PlanBatch | src/main/java/com/trading/scanner/service/simulation/SimulationCycleService.java:51-65 | resolves the current date and runs the cycles as AdvanceRow says, saving nothing |
| SimulationCycles.SimulationCycleService.CommitOffset | src/main/java/com/trading/scanner/service/simulation/SimulationCycleService.java:67-68 | the stored state row's offset becomes the given one and nothing else changes |
| SimulationCycles.SimulationCycleService.ResetSimulation | src/main/java/com/trading/scanner/service/simulation/SimulationCycleService.java:75-84 | the stored offset becomes 0; a missing row is IllegalState and changes nothing |
| SimulationControllers.AttemptsUsed | src/main/java/com/trading/scanner/controller/SimulationController.java:62-63 | between 1 and 3 attempts; every attempt before the last met a conflict |
| SimulationControllers.AllAttemptsConflict | src/main/java/com/trading/scanner/controller/SimulationController.java:93-101 | the last attempt conflicts exactly when all three did |
| SimulationControllers.OneMoreTradingDay | src/main/java/com/trading/scanner/controller/SimulationController.java:73-78 | one more on a non-negative offset resolves to the next trading day after the old offset's date |
| SimulationControllers.AdvancedResponse | src/main/java/com/trading/scanner/controller/SimulationController.java:77-91 | a success response carries the earlier date, the date offset + 1 resolves to, and offset + 1; failing to resolve it is thrown |
| SimulationControllers.AdvancedIsNextTradingDay | src/main/java/com/trading/scanner/controller/SimulationController.java:66-88 | when the clock reported the stored offset's date, the new date is the next trading day after the previous one |
| SimulationControllers.SimulationController.AdvanceDay | src/main/java/com/trading/scanner/controller/SimulationController.java:61-106 | previousDate is read before the row is loaded; a clock error or missing row is thrown after one attempt; conflicts retry up to 3 attempts; 3 conflicts answer CONFLICT and leave the row; otherwise the stored offset grows by one, and the cache is cleared so the clock now reports the new offset's date; on every other path the clock reports the same date as before |
| SimulationControllers.SimulationController.CommitAdvance | src/main/java/com/trading/scanner/controller/SimulationController.java:74-91 | saves offset + 1, invalidates, re-reads: the response's date and the clock agree with the new offset |
| SimulationControllers.SimulationController.Reset | src/main/java/com/trading/scanner/controller/SimulationController.java:141-156 | the stored offset becomes 0; a filled cache is left alone and its stale date reported; an empty cache resolves the base date, which the clock then reports; a missing row is thrown and the clock is untouched |
| Indicators.UsableVolumes | src/main/java/com/trading/scanner/service/indicators/IndicatorService.java:127-131 | only positive volumes, at most one per row |
| Indicators.Window | src/main/java/com/trading/scanner/service/indicators/IndicatorService.java:126 | the last `period` rows, none for a period below one |
| Indicators.CalculateAvgVolume | src/main/java/com/trading/scanner/service/indicators/IndicatorService.java:118-139 | the loop computes the rounded-down mean of the usable volumes in the window; nothing exactly when rows are too few or none is usable |
| Indicators.AverageWithinUsableVolumes | src/main/java/com/trading/scanner/service/indicators/IndicatorService.java:138 | the average lies between any lower and upper bound of the usable volumes |
| Indicators.AverageIsPositive | src/main/java/com/trading/scanner/service/indicators/IndicatorService.java:127-138 | the average is at least 1 |
| Indicators.OlderRowsIgnored | src/main/java/com/trading/scanner/service/indicators/IndicatorService.java:126 | rows before the last `period` do not affect the average |
| Indicators.UnusableRowIgnored | src/main/java/com/trading/scanner/service/indicators/IndicatorService.java:127-131 | inserting a row with a missing or non-positive volume changes nothing |
| Indicators.CalculateIndicators | src/main/java/com/trading/scanner/service/indicators/IndicatorService.java:14-28 | an empty list gives an empty bundle; avgVolume20 is present exactly when there are at least smaShortPeriod rows and a usable volume among the last of them |

## Left out

- The production clock branch of `ExchangeClock` (`LocalDate.now` on the system clock) is left out; only the simulation clock is modelled.
- Time zones (`ZoneId`) are left out; every date and time is already in the exchange's zone.
- HTTP handling, JSON responses and logging are left out. Responses are values holding the fields that decide the outcome.
- `getStatus` and `executeStep` of the controller are left out.
- The ingest-and-scan pipeline (`DataIngestionService`, `ScannerEngine`) is not part of this model. It is an input giving the outcome of a run on a date.
  - `runSingleCycleInMemory` reads the date's execution record twice through `getOrCreateState` (SimulationCycleService.java:92 and :97). Each call saves a PENDING record when the pipeline left none. The model folds both reads into the pipeline input and saves nothing. No gate can tell the difference, because a date with no record answers as a new PENDING record (`ExecutionStateServices.RecordFor`).
- The market-data provider, `Random` jitter and `Thread.sleep` are inputs indexed by the attempt. Sleeps are recorded, not performed.
- Concurrency is left out: `synchronized`, SERIALIZABLE transactions, atomic compare-and-set, `volatile` and `@Version`. The model is single-threaded. An optimistic-lock conflict is an input that makes a save fail without effect.
  - The conflict input follows the controller's `catch (OptimisticLockException e)` as written (SimulationController.java:93). Whether the persistence framework surfaces a conflict as that class, or as another exception the catch would miss, is a framework matter the model does not decide.
- CircuitBreakers.ProviderCircuitBreaker.IsCallAllowed: the time provider's reading is a `now` parameter, not the exchange clock's `NowDateTime`. In simulation it is today at 09:15, and a clock that cannot answer would throw out of the call; that failure is not modelled. The same holds for CircuitBreakers.ProviderCircuitBreaker.RecordFailure.
- ProviderRetry.FetchHistoricalDataWithRetry: `now` is the one time provider reading shared by the breaker's check and every recorded failure. A failing clock is not modelled, and neither is time passing between attempts.
- HolidayCalendar.NseHolidayCalendar.MarkEmergencyClosure: the creation time is a `now` parameter. In simulation it is today at 09:15. A clock that cannot answer would throw before the closure is inserted, leaving the calendar as it was; that path is not modelled. The holiday calendar sits below the exchange clock in the module order (the clock resolves its date through the trading calendar), so it takes the reading as a value.
- Floating-point indicators are left out: RSI, the simple moving averages, ATR and the above-SMA flags. `IndicatorBundle` keeps only `avgVolume20`.
- The provider outcome covers `DataProviderException`. Other exceptions from the provider, which would escape the retry loop, are left out.
- Emergency-closure rows keep their reason and creation time. Their surrogate ids are left out.
- Integer widths are left out. Offsets, counts, volumes and durations are unbounded integers.
  - A 32-bit overflow of `tradingOffset += 1` after 2^31 advances is not modelled.
  - Integer volumes summed in a long cannot overflow for any list Java can hold.
  - The one width effect the model keeps is `Math.abs(Integer.MIN_VALUE)` in `addTradingDays`; see Findings.
- The spec functions over dates are written for the calendar's own ranges. Walks past ten years or 25200 trading days are the bounded errors the code raises.
- `SimulationCycles.CalendarAdvances`, `SimulationControllers.AllAttemptsConflict` and `ExecutionStateServices.ScanGate` restate properties that follow from definitions in one step. They are kept as documentation.

## Findings

| source | as written | input that shows it | evidently intended | confidence | as-written member | corrected member |
|---|---|---|---|---|---|---|
| src/main/java/com/trading/scanner/calendar/DefaultTradingCalendar.java:82-95 | the 25200-day guard and the backward loop bound use 32-bit `Math.abs(days)`, which is negative for Integer.MIN_VALUE, so the guard passes, the backward loop runs zero times and the date comes back unchanged | `addTradingDays(2026-08-15, Integer.MIN_VALUE)` with no holidays returns the Saturday 2026-08-15 | any count beyond 25200 trading days is rejected with IllegalArgumentException | not executed | TradingCalendar.AsWrittenIntMinReturnsNonTradingDay | TradingCalendar.AddTradingDaysOf |
