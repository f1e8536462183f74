/**
 * The simulation batch orchestrator: advance the simulated timeline by a number of
 * trading days, running one ingest-and-scan cycle per day, and commit the new offset
 * only when every cycle has run (a failure rolls the whole batch back).
 *
 * The ingestion and scan pipeline is an input: `pipeline(d)` says what running it on
 * date `d` produced (the counts it left in the execution record and the time it took),
 * or the exception it threw.
 */
module SimulationCycles {
  import opened Wrappers
  import opened TradingCalendar
  import opened SimulationStates

  /** The largest number of days one batch may advance. */
  const MaxSafeRange: int := 2000

  /** What one run of the ingest-and-scan pipeline did. */
  datatype CycleRun =
    | Completed(stocksIngested: Option<int>, signalsGenerated: Option<int>, durationMs: int)
    | Crashed(error: Exception)

  datatype CycleResult = CycleResult(
    tradingOffset: int,
    cycleDate: int,
    stocksIngested: int,
    signalsGenerated: int,
    durationMs: int,
    success: bool,
    failureReason: Option<string>)

  datatype BatchResult = BatchResult(
    cyclesRequested: int,
    cyclesCompleted: int,
    totalDurationMs: int,
    cycleResults: seq<CycleResult>)

  /** Rejects negative requests and requests beyond MaxSafeRange. */
  function ValidateRequest(days: int): (r: Result<()>)
    ensures r.Ok? <==> 0 <= days <= MaxSafeRange
    ensures r.Err? ==> r.error == IllegalArgument
  {
    if days < 0 then Err(IllegalArgument)
    else if days > MaxSafeRange then Err(IllegalArgument)
    else Ok(())
  }

  /**
   * One cycle on `cycleDate`, labelled with the offset it reaches. A pipeline that
   * throws aborts the cycle; otherwise the cycle succeeds, with absent counts read as 0.
   */
  function RunSingleCycle(cycleDate: int, targetOffset: int, run: CycleRun): (r: Result<CycleResult>)
    ensures run.Crashed? ==> r == Err(run.error)
    ensures run.Completed? ==> r.Ok? && r.value.success && r.value.failureReason.None?
    ensures r.Ok? ==> r.value.cycleDate == cycleDate && r.value.tradingOffset == targetOffset
    ensures r.Ok? ==> r.value.stocksIngested == run.stocksIngested.GetOr(0) &&
                      r.value.signalsGenerated == run.signalsGenerated.GetOr(0) &&
                      r.value.durationMs == run.durationMs
  {
    match run
    case Crashed(e) => Err(e)
    case Completed(ingested, signals, duration) =>
      Ok(CycleResult(targetOffset, cycleDate, ingested.GetOr(0), signals.GetOr(0), duration, true, None))
  }

  function SumDurations(results: seq<CycleResult>): int {
    if |results| == 0 then 0 else SumDurations(results[..|results| - 1]) + results[|results| - 1].durationMs
  }

  /** The total of a concatenation is the sum of the totals. */
  lemma {:induction false} SumDurationsAppend(a: seq<CycleResult>, b: seq<CycleResult>)
    ensures SumDurations(a + b) == SumDurations(a) + SumDurations(b)
    decreases |b|
  {
    if |b| > 0 {
      assert (a + b)[..|a + b| - 1] == a + b[..|b| - 1];
      assert (a + b)[|a + b| - 1] == b[|b| - 1];
      SumDurationsAppend(a, b[..|b| - 1]);
    } else {
      assert a + b == a;
    }
  }

  /** With non-negative durations the total bounds every single duration. */
  lemma {:induction false} SumDurationsBounds(results: seq<CycleResult>)
    requires forall i :: 0 <= i < |results| ==> results[i].durationMs >= 0
    ensures SumDurations(results) >= 0
    ensures forall i :: 0 <= i < |results| ==> results[i].durationMs <= SumDurations(results)
  {
    if |results| > 0 {
      SumDurationsBounds(results[..|results| - 1]);
    }
  }

  function BuildBatchResult(daysRequested: int, results: seq<CycleResult>): (r: BatchResult)
    ensures r.cyclesRequested == daysRequested && r.cyclesCompleted == |results|
    ensures r.cycleResults == results && r.totalDurationMs == SumDurations(results)
  {
    BatchResult(daysRequested, |results|, SumDurations(results), results)
  }

  // ---------------------------------------------------------------------
  // The batch, over the two calendar operations it uses
  // ---------------------------------------------------------------------

  /** The calendar's nextTradingDay, as a function value. */
  function NextOf(h: HolidayView): int -> Result<int> {
    d => NextTradingDayOf(h, d)
  }

  /** The calendar's addTradingDays, as a function value. */
  function AddOf(h: HolidayView): (int, int) -> Result<int> {
    (d, n) => AddTradingDaysOf(h, d, n)
  }

  /** `k` successive `next` steps from `d`, or the first step's error. */
  function Walk(next: int -> Result<int>, d: int, k: nat): Result<int> {
    if k == 0 then Ok(d)
    else match Walk(next, d, k - 1)
      case Err(e) => Err(e)
      case Ok(x) => next(x)
  }

  /** The date of cycle i (from 0): i + 1 steps after `start`. */
  function CycleDate(next: int -> Result<int>, start: int, i: nat): Result<int> {
    Walk(next, start, i + 1)
  }

  /**
   * The first `n` cycles from `start`: cycle i (from 0) on the date i + 1 steps on,
   * labelled `offset` + i + 1; or the first error, a date the calendar cannot find
   * or a pipeline that throws.
   */
  function Cycles(next: int -> Result<int>, start: int, offset: int, n: nat, pipeline: int -> CycleRun)
    : (r: Result<seq<CycleResult>>)
    ensures r.Ok? ==> |r.value| == n
  {
    if n == 0 then Ok([])
    else match Cycles(next, start, offset, n - 1, pipeline)
      case Err(e) => Err(e)
      case Ok(rs) =>
        match CycleDate(next, start, n - 1)
        case Err(e) => Err(e)
        case Ok(d) =>
          match RunSingleCycle(d, offset + n, pipeline(d))
          case Err(e) => Err(e)
          case Ok(c) => Ok(rs + [c])
  }

  /** Whether each of the first `n` cycles finds its date and runs without throwing. */
  predicate CyclesRun(next: int -> Result<int>, start: int, n: nat, pipeline: int -> CycleRun) {
    forall i: nat :: i < n ==> CycleDate(next, start, i).Ok? && pipeline(CycleDate(next, start, i).value).Completed?
  }

  /**
   * The cycles succeed exactly when every cycle finds its date and runs, and then
   * cycle i ran on the date i + 1 steps after `start`, labelled `offset` + i + 1.
   */
  lemma {:induction false} CyclesMeaning(next: int -> Result<int>, start: int, offset: int, n: nat,
                                         pipeline: int -> CycleRun)
    ensures Cycles(next, start, offset, n, pipeline).Ok? <==> CyclesRun(next, start, n, pipeline)
    ensures Cycles(next, start, offset, n, pipeline).Ok? ==> forall i: nat :: i < n ==>
      Ok(Cycles(next, start, offset, n, pipeline).value[i]) ==
        RunSingleCycle(CycleDate(next, start, i).value, offset + i + 1, pipeline(CycleDate(next, start, i).value))
  {
    if n > 0 {
      CyclesMeaning(next, start, offset, n - 1, pipeline);
      if CyclesRun(next, start, n, pipeline) {
        assert CyclesRun(next, start, n - 1, pipeline);
      } else if CyclesRun(next, start, n - 1, pipeline) {
        assert !(CycleDate(next, start, n - 1).Ok? && pipeline(CycleDate(next, start, n - 1).value).Completed?);
      }
    }
  }

  /** Once the cycles fail, running more of them fails with the same error. */
  lemma {:induction false} CyclesErrPersists(next: int -> Result<int>, start: int, offset: int, i: nat, k: nat,
                                             pipeline: int -> CycleRun)
    requires i <= k && Cycles(next, start, offset, i, pipeline).Err?
    ensures Cycles(next, start, offset, k, pipeline) == Cycles(next, start, offset, i, pipeline)
    decreases k
  {
    if k > i {
      CyclesErrPersists(next, start, offset, i, k - 1, pipeline);
    }
  }

  /** Whether every successful step lands strictly later. */
  ghost predicate Advances(next: int -> Result<int>) {
    forall x :: next(x).Ok? ==> x < next(x).value
  }

  /** With a step that advances, later steps of a walk land strictly later. */
  lemma {:induction false} WalkIncreasing(next: int -> Result<int>, d: int, i: nat, j: nat)
    requires Advances(next) && i < j && Walk(next, d, j).Ok?
    ensures Walk(next, d, i).Ok? && Walk(next, d, i).value < Walk(next, d, j).value
    decreases j
  {
    if i < j - 1 {
      WalkIncreasing(next, d, i, j - 1);
    }
  }

  /** Cycles that all run, with a step that advances, report strictly increasing dates. */
  lemma CyclesIncreasing(next: int -> Result<int>, start: int, offset: int, n: nat, pipeline: int -> CycleRun)
    requires Advances(next) && Cycles(next, start, offset, n, pipeline).Ok?
    ensures forall i, j :: 0 <= i < j < n ==>
      Cycles(next, start, offset, n, pipeline).value[i].cycleDate <
      Cycles(next, start, offset, n, pipeline).value[j].cycleDate
  {
    CyclesMeaning(next, start, offset, n, pipeline);
    var rs := Cycles(next, start, offset, n, pipeline).value;
    forall i, j | 0 <= i < j < n
      ensures rs[i].cycleDate < rs[j].cycleDate
    {
      assert CycleDate(next, start, j).Ok?;
      WalkIncreasing(next, start, i + 1, j + 1);
    }
  }

  /** The calendar's step advances, and walking it is walking forward over trading days. */
  lemma CalendarAdvances(h: HolidayView)
    ensures Advances(NextOf(h))
  {
  }

  lemma {:induction false} WalkIsStepForward(h: HolidayView, d: int, k: nat)
    ensures Walk(NextOf(h), d, k) == StepForward(h, d, k)
  {
    if k > 0 {
      WalkIsStepForward(h, d, k - 1);
      if StepForward(h, d, k - 1).Ok? {
        var x := StepForward(h, d, k - 1).value;
        assert NextOf(h)(x) == NextTradingDayOf(h, x);
      }
    }
  }

  /** A batch run from `start`: its cycles, or their first error. */
  function BatchFrom(next: int -> Result<int>, start: int, offset: int, days: nat, pipeline: int -> CycleRun)
    : (r: Result<BatchResult>)
    ensures r.Ok? ==> r.value == BuildBatchResult(days, r.value.cycleResults) && |r.value.cycleResults| == days
  {
    match Cycles(next, start, offset, days, pipeline)
    case Err(e) => Err(e)
    case Ok(results) => Ok(BuildBatchResult(days, results))
  }

  /** The batch for a loaded state row: its current date must resolve and every cycle run. */
  function AdvanceRow(row: StateRow, days: nat, add: (int, int) -> Result<int>,
                      next: int -> Result<int>, pipeline: int -> CycleRun): Result<BatchResult>
  {
    match add(row.baseDate, row.tradingOffset)
    case Err(e) => Err(e)
    case Ok(start) => BatchFrom(next, start, row.tradingOffset, days, pipeline)
  }

  /**
   * advanceSimulation on the stored rows, with the calendar's `add` and `next`:
   * validation first, zero days is an empty batch, then the state row must exist, its
   * current date must resolve and every cycle must run.
   */
  function Advance(rows: map<int, StateRow>, days: int, add: (int, int) -> Result<int>,
                   next: int -> Result<int>, pipeline: int -> CycleRun)
    : (r: Result<BatchResult>)
    ensures !(0 <= days <= MaxSafeRange) ==> r == Err(IllegalArgument)
    ensures days == 0 ==> r == Ok(BatchResult(0, 0, 0, []))
    ensures 0 < days <= MaxSafeRange && StateRowId !in rows ==> r == Err(IllegalState)
    ensures r.Ok? ==> r.value.cyclesRequested == days && r.value.cyclesCompleted == days
    ensures r.Ok? ==> |r.value.cycleResults| == days && r.value.totalDurationMs == SumDurations(r.value.cycleResults)
  {
    match ValidateRequest(days)
    case Err(e) => Err(e)
    case Ok(_) =>
      if days == 0 then Ok(BuildBatchResult(0, []))
      else if StateRowId !in rows then Err(IllegalState)
      else AdvanceRow(rows[StateRowId], days, add, next, pipeline)
  }

  /** A batch succeeds when the current date resolves and every one of its cycles runs. */
  predicate BatchSucceeds(row: StateRow, days: nat, add: (int, int) -> Result<int>,
                          next: int -> Result<int>, pipeline: int -> CycleRun) {
    add(row.baseDate, row.tradingOffset).Ok? &&
    CyclesRun(next, add(row.baseDate, row.tradingOffset).value, days, pipeline)
  }

  /** A batch of 1..MaxSafeRange days on an existing row succeeds exactly when it can. */
  lemma AdvanceSucceeds(rows: map<int, StateRow>, days: int, add: (int, int) -> Result<int>,
                        next: int -> Result<int>, pipeline: int -> CycleRun)
    requires 0 < days <= MaxSafeRange && StateRowId in rows
    ensures Advance(rows, days, add, next, pipeline).Ok? <==> BatchSucceeds(rows[StateRowId], days, add, next, pipeline)
  {
    var row := rows[StateRowId];
    var start := add(row.baseDate, row.tradingOffset);
    if start.Ok? {
      CyclesMeaning(next, start.value, row.tradingOffset, days, pipeline);
    }
  }

  /**
   * In a successful batch, cycle i ran on the date i + 1 steps after the current date
   * and is labelled with the offset it reaches.
   */
  lemma AdvanceCycles(rows: map<int, StateRow>, days: int, add: (int, int) -> Result<int>,
                      next: int -> Result<int>, pipeline: int -> CycleRun)
    requires Advance(rows, days, add, next, pipeline).Ok? && days > 0
    ensures StateRowId in rows
    ensures add(rows[StateRowId].baseDate, rows[StateRowId].tradingOffset).Ok?
    ensures
      var row := rows[StateRowId];
      var start := add(row.baseDate, row.tradingOffset).value;
      forall i: nat :: i < days ==>
        (CycleDate(next, start, i).Ok? &&
         Ok(Advance(rows, days, add, next, pipeline).value.cycleResults[i]) ==
           RunSingleCycle(CycleDate(next, start, i).value, row.tradingOffset + i + 1,
                          pipeline(CycleDate(next, start, i).value)))
  {
    var row := rows[StateRowId];
    CyclesMeaning(next, add(row.baseDate, row.tradingOffset).value, row.tradingOffset, days, pipeline);
  }

  /** With a step that advances, a successful batch runs on strictly increasing dates. */
  lemma AdvanceDatesIncrease(rows: map<int, StateRow>, days: int, add: (int, int) -> Result<int>,
                             next: int -> Result<int>, pipeline: int -> CycleRun)
    requires Advances(next) && Advance(rows, days, add, next, pipeline).Ok?
    ensures forall i, j :: 0 <= i < j < days ==>
      Advance(rows, days, add, next, pipeline).value.cycleResults[i].cycleDate <
      Advance(rows, days, add, next, pipeline).value.cycleResults[j].cycleDate
  {
    if days > 0 {
      var row := rows[StateRowId];
      CyclesIncreasing(next, add(row.baseDate, row.tradingOffset).value, row.tradingOffset, days, pipeline);
    }
  }

  /**
   * After a batch of `days` cycles from a non-negative offset, the advanced offset
   * resolves to the last cycle's date.
   */
  lemma BatchEndsWhereNewOffsetResolves(h: HolidayView, base: int, offset: int, days: nat)
    requires offset >= 0 && days >= 1 && offset + days <= MaxTradingDaysToAdd
    requires AddTradingDaysOf(h, base, offset).Ok?
    ensures AddTradingDaysOf(h, base, offset + days) ==
      StepForward(h, AddTradingDaysOf(h, base, offset).value, days)
  {
    if offset > 0 {
      StepForwardCompose(h, base, offset, days);
    }
  }

  class SimulationCycleService {
    const repository: SimulationStateRepository
    const calendar: DefaultTradingCalendar

    constructor(repository: SimulationStateRepository, calendar: DefaultTradingCalendar)
      ensures this.repository == repository && this.calendar == calendar
    {
      this.repository := repository;
      this.calendar := calendar;
    }

    /**
     * The cycle loop: from `start`, each cycle moves to the next trading day and runs the
     * pipeline there. The first missing trading day or throwing pipeline ends the loop.
     */
    method RunCycles(start: int, offset: int, days: nat, pipeline: int -> CycleRun)
      returns (r: Result<seq<CycleResult>>)
      ensures r == Cycles(NextOf(calendar.View()), start, offset, days, pipeline)
    {
      ghost var next := NextOf(calendar.View());
      var results: seq<CycleResult> := [];
      var lastDate := start;
      for i := 0 to days
        invariant Cycles(next, start, offset, i, pipeline) == Ok(results)
        invariant Walk(next, start, i) == Ok(lastDate)
      {
        var nextDate := calendar.NextTradingDay(lastDate);
        assert CycleDate(next, start, i) == nextDate;
        if nextDate.Err? {
          CyclesErrPersists(next, start, offset, i + 1, days, pipeline);
          return Err(nextDate.error);
        }
        var result := RunSingleCycle(nextDate.value, offset + i + 1, pipeline(nextDate.value));
        if result.Err? {
          CyclesErrPersists(next, start, offset, i + 1, days, pipeline);
          return Err(result.error);
        }
        results := results + [result.value];
        lastDate := nextDate.value;
      }
      return Ok(results);
    }

    /**
     * Validates `days` before reading the state; zero days is an empty batch; otherwise
     * resolves the current date, runs the cycles and then saves offset + days once.
     * Any error leaves the stored row as it was.
     */
    method AdvanceSimulation(days: int, pipeline: int -> CycleRun) returns (r: Result<BatchResult>)
      requires repository.Valid()
      modifies repository
      ensures r == Advance(old(repository.rows), days, AddOf(old(calendar.View())), NextOf(old(calendar.View())), pipeline)
      ensures r.Err? || days == 0 ==> repository.rows == old(repository.rows)
      ensures r.Ok? && days > 0 ==> StateRowId in old(repository.rows)
      ensures r.Ok? && days > 0 ==>
        repository.rows == old(repository.rows)[StateRowId :=
          old(repository.rows[StateRowId]).(tradingOffset := old(repository.rows[StateRowId].tradingOffset) + days)]
    {
      ghost var h := calendar.View();
      var valid := ValidateRequest(days);
      if valid.Err? {
        return Err(valid.error);
      }
      if days == 0 {
        return Ok(BuildBatchResult(0, []));
      }
      var found := repository.FindById(StateRowId);
      if found.None? {
        return Err(IllegalState);
      }
      var state := found.value;
      r := PlanBatch(h, state.Row(), days, pipeline);
      if r.Ok? {
        CommitOffset(state, state.tradingOffset + days);
      }
    }

    /** Resolves the row's current date and runs the cycles from it; nothing is saved. */
    method PlanBatch(ghost h: HolidayView, row: StateRow, days: nat, pipeline: int -> CycleRun)
      returns (r: Result<BatchResult>)
      requires h == calendar.View()
      ensures r == AdvanceRow(row, days, AddOf(h), NextOf(h), pipeline)
    {
      var start := calendar.AddTradingDays(row.baseDate, row.tradingOffset);
      assert start == AddOf(h)(row.baseDate, row.tradingOffset);
      if start.Err? {
        return Err(start.error);
      }
      var results := RunCycles(start.value, row.tradingOffset, days, pipeline);
      if results.Err? {
        return Err(results.error);
      }
      return Ok(BuildBatchResult(days, results.value));
    }

    /** Sets the loaded state's offset and saves it over the stored state row. */
    method CommitOffset(state: SimulationState, offset: int)
      requires repository.Valid() && StateRowId in repository.rows && state.Row() == repository.rows[StateRowId]
      modifies repository, state
      ensures repository.rows == old(repository.rows)[StateRowId := old(repository.rows[StateRowId]).(tradingOffset := offset)]
    {
      state.SetTradingOffset(offset);
      repository.Save(state);
    }

    /** Sets the stored offset back to 0; the clock is not told. */
    method ResetSimulation() returns (r: Result<()>)
      requires repository.Valid()
      modifies repository
      ensures StateRowId !in old(repository.rows) ==> r == Err(IllegalState) && repository.rows == old(repository.rows)
      ensures StateRowId in old(repository.rows) ==> r.Ok?
      ensures StateRowId in old(repository.rows) ==>
        repository.rows == old(repository.rows)[StateRowId := old(repository.rows[StateRowId]).(tradingOffset := 0)]
    {
      var found := repository.FindById(StateRowId);
      if found.None? {
        return Err(IllegalState);
      }
      CommitOffset(found.value, 0);
      return Ok(());
    }
  }
}
