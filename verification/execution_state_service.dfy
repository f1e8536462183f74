/**
 * The execution-state service: a get-or-create table of execution records keyed by
 * trading date, the gates that decide whether ingestion or a scan may run for a date,
 * and the transitions, each stamped with the time provider's reading.
 */
module ExecutionStateServices {
  import opened Wrappers
  import opened Time
  import opened ScanExecution
  import opened ExchangeClocks
  import opened ExchangeConfigurations

  /** The record created for a date seen for the first time. */
  function NewRecord(d: int): (r: ExecutionRecord)
    ensures r.tradingDate == d && r.ingestionStatus == Pending && r.scanStatus == Pending
    ensures r.dataSourceStatus == Some(Unknown) && !r.HasData()
    ensures !r.IsIngestionComplete() && !r.IsScanComplete()
  {
    ExecutionRecord(d, Pending, Pending, Some(Unknown), None, None, None, None, None, None)
  }

  /** The record getOrCreateState yields for `d`: the stored one, or a new one. */
  function RecordFor(states: map<int, ExecutionRecord>, d: int): ExecutionRecord {
    if d in states then states[d] else NewRecord(d)
  }

  /** Ingestion may run when it has not started yet or has failed. */
  predicate CanIngest(r: ExecutionRecord) {
    r.ingestionStatus == Pending || r.ingestionStatus == Failed
  }

  /** A scan may run only on successfully ingested data, and only when pending or failed. */
  predicate CanScan(r: ExecutionRecord) {
    if r.ingestionStatus != Success || !r.HasData() then false
    else r.scanStatus == Pending || r.scanStatus == Failed
  }

  /** Whatever the scan status, no data means no scan; with data, pending or failed scans may run. */
  lemma ScanGate(r: ExecutionRecord)
    ensures !r.HasData() ==> !CanScan(r)
    ensures r.HasData() ==> (CanScan(r) <==> r.scanStatus in {Pending, Failed})
    ensures CanScan(r) ==> !r.IsScanComplete() || r.scanStatus == Failed
  {
  }

  /** Completing ingestion, with or without data, closes the ingestion gate. */
  lemma IngestionCompletesOnce(r: ExecutionRecord, count: int, source: DataSourceStatus, now: DateTime)
    ensures !CanIngest(r.CompleteIngestion(count, source, now))
    ensures !CanIngest(r.CompleteIngestionNoData(source, now))
    ensures !CanScan(r.CompleteIngestionNoData(source, now))
    ensures CanScan(r.CompleteIngestion(count, source, now)) <==>
      count > 0 && (r.scanStatus == Pending || r.scanStatus == Failed)
  {
  }

  /** A failed ingestion can be retried; a failed scan can be retried while the data is there. */
  lemma FailuresReopenTheGates(r: ExecutionRecord, message: string, source: DataSourceStatus, now: DateTime)
    ensures CanIngest(r.FailIngestion(message, source, now))
    ensures r.HasData() ==> CanScan(r.FailScan(message, now))
  {
  }

  /** Completing or skipping a scan closes the scan gate. */
  lemma ScanCompletesOnce(r: ExecutionRecord, signals: int, reason: string, now: DateTime)
    ensures !CanScan(r.CompleteScan(signals, now))
    ensures !CanScan(r.SkipScan(reason, now))
    ensures !CanScan(r.StartScan(now)) && !CanIngest(r.StartIngestion(Manual, now))
  {
  }

  /** The reading taken from a clock reporting `today`. */
  function Stamp(today: Result<int>): (r: Result<DateTime>)
    ensures today.Ok? ==> r == Ok(AtTime(today.value, SimulationTime))
    ensures today.Err? ==> r == Err(today.error)
  {
    if today.Ok? then Ok(AtTime(today.value, SimulationTime)) else Err(today.error)
  }

  class ExecutionStateService {
    /** The scan_execution_state table, keyed by its unique trading date. */
    var states: map<int, ExecutionRecord>
    const config: ExchangeConfiguration

    constructor(stored: map<int, ExecutionRecord>, config: ExchangeConfiguration)
      requires forall k :: k in stored ==> stored[k].tradingDate == k
      ensures states == stored && this.config == config && Valid()
    {
      states := stored;
      this.config := config;
    }

    /** Every record is stored under its own trading date. */
    predicate Valid()
      reads this
    {
      forall k :: k in states ==> states[k].tradingDate == k
    }

    /** The stored record for `d`, or a new PENDING/PENDING/UNKNOWN record, saved. */
    method GetOrCreateState(d: int) returns (r: ExecutionRecord)
      modifies this
      ensures old(Valid()) ==> Valid()
      ensures r == RecordFor(old(states), d)
      ensures states == old(states)[d := r]
      ensures d in old(states) ==> states == old(states)
    {
      if d in states {
        return states[d];
      }
      r := NewRecord(d);
      states := states[d := r];
    }

    /** Saves `record` as the row for `d`; a record of that date keeps every row under its own date. */
    method Store(d: int, record: ExecutionRecord)
      modifies this
      ensures old(Valid()) && record.tradingDate == d ==> Valid()
      ensures states == old(states)[d := record]
    {
      states := states[d := record];
    }

    /** The gate for ingestion; the query creates the record when it is absent. */
    method CanIngestForDate(d: int) returns (b: bool)
      modifies this
      ensures old(Valid()) ==> Valid()
      ensures b == CanIngest(RecordFor(old(states), d))
      ensures states == old(states)[d := RecordFor(old(states), d)]
    {
      var state := GetOrCreateState(d);
      return state.ingestionStatus == Pending || state.ingestionStatus == Failed;
    }

    /** The gate for scanning; the query creates the record when it is absent. */
    method CanScanForDate(d: int) returns (b: bool)
      modifies this
      ensures old(Valid()) ==> Valid()
      ensures b == CanScan(RecordFor(old(states), d))
      ensures states == old(states)[d := RecordFor(old(states), d)]
    {
      var state := GetOrCreateState(d);
      if state.ingestionStatus != Success || !state.HasData() {
        return false;
      }
      return state.scanStatus == Pending || state.scanStatus == Failed;
    }

    /** The time provider's reading: today at 09:15 by the exchange clock, or its error. */
    method ReadClock() returns (now: Result<DateTime>)
      modifies config.exchangeClock
      ensures config.exchangeClock.Reported() == old(config.exchangeClock.Reported())
      ensures now == Stamp(old(config.exchangeClock.Reported()))
    {
      now := config.exchangeClock.NowDateTime();
    }

    // Each transition is stamped with the time provider's reading, taken after the record
    // was loaded or created: a clock that cannot answer leaves the created record saved.

    method StartIngestionForDate(d: int, mode: ExecutionMode) returns (r: Result<()>)
      modifies this, config.exchangeClock
      ensures old(Valid()) ==> Valid()
      ensures config.exchangeClock.Reported() == old(config.exchangeClock.Reported())
      ensures old(config.exchangeClock.Reported()).Err? ==>
        r == Err(old(config.exchangeClock.Reported()).error) && states == old(states)[d := RecordFor(old(states), d)]
      ensures old(config.exchangeClock.Reported()).Ok? ==>
        r.Ok? && states == old(states)[d := RecordFor(old(states), d).StartIngestion(mode, AtTime(old(config.exchangeClock.Reported()).value, SimulationTime))]
    {
      var record := GetOrCreateState(d);
      var now := ReadClock();
      if now.Err? {
        return Err(now.error);
      }
      var state := new ScanExecutionState.Load(record);
      state.StartIngestion(mode, now.value);
      Store(d, state.Record());
      return Ok(());
    }

    method CompleteIngestionForDate(d: int, count: int, source: DataSourceStatus) returns (r: Result<()>)
      modifies this, config.exchangeClock
      ensures old(Valid()) ==> Valid()
      ensures config.exchangeClock.Reported() == old(config.exchangeClock.Reported())
      ensures old(config.exchangeClock.Reported()).Err? ==>
        r == Err(old(config.exchangeClock.Reported()).error) && states == old(states)[d := RecordFor(old(states), d)]
      ensures old(config.exchangeClock.Reported()).Ok? ==>
        r.Ok? && states == old(states)[d := RecordFor(old(states), d).CompleteIngestion(count, source, AtTime(old(config.exchangeClock.Reported()).value, SimulationTime))]
      ensures r.Ok? ==> !CanIngest(states[d])
    {
      var record := GetOrCreateState(d);
      var now := ReadClock();
      if now.Err? {
        return Err(now.error);
      }
      var state := new ScanExecutionState.Load(record);
      state.CompleteIngestion(count, source, now.value);
      Store(d, state.Record());
      return Ok(());
    }

    method CompleteIngestionNoDataForDate(d: int, source: DataSourceStatus) returns (r: Result<()>)
      modifies this, config.exchangeClock
      ensures old(Valid()) ==> Valid()
      ensures config.exchangeClock.Reported() == old(config.exchangeClock.Reported())
      ensures old(config.exchangeClock.Reported()).Err? ==>
        r == Err(old(config.exchangeClock.Reported()).error) && states == old(states)[d := RecordFor(old(states), d)]
      ensures old(config.exchangeClock.Reported()).Ok? ==>
        r.Ok? && states == old(states)[d := RecordFor(old(states), d).CompleteIngestionNoData(source, AtTime(old(config.exchangeClock.Reported()).value, SimulationTime))]
      ensures r.Ok? ==> !CanIngest(states[d]) && !CanScan(states[d])
    {
      var record := GetOrCreateState(d);
      var now := ReadClock();
      if now.Err? {
        return Err(now.error);
      }
      var state := new ScanExecutionState.Load(record);
      state.CompleteIngestionNoData(source, now.value);
      Store(d, state.Record());
      return Ok(());
    }

    method StartScanForDate(d: int) returns (r: Result<()>)
      modifies this, config.exchangeClock
      ensures old(Valid()) ==> Valid()
      ensures config.exchangeClock.Reported() == old(config.exchangeClock.Reported())
      ensures old(config.exchangeClock.Reported()).Err? ==>
        r == Err(old(config.exchangeClock.Reported()).error) && states == old(states)[d := RecordFor(old(states), d)]
      ensures old(config.exchangeClock.Reported()).Ok? ==>
        r.Ok? && states == old(states)[d := RecordFor(old(states), d).StartScan(AtTime(old(config.exchangeClock.Reported()).value, SimulationTime))]
    {
      var record := GetOrCreateState(d);
      var now := ReadClock();
      if now.Err? {
        return Err(now.error);
      }
      var state := new ScanExecutionState.Load(record);
      state.StartScan(now.value);
      Store(d, state.Record());
      return Ok(());
    }

    method CompleteScanForDate(d: int, signals: int) returns (r: Result<()>)
      modifies this, config.exchangeClock
      ensures old(Valid()) ==> Valid()
      ensures config.exchangeClock.Reported() == old(config.exchangeClock.Reported())
      ensures old(config.exchangeClock.Reported()).Err? ==>
        r == Err(old(config.exchangeClock.Reported()).error) && states == old(states)[d := RecordFor(old(states), d)]
      ensures old(config.exchangeClock.Reported()).Ok? ==>
        r.Ok? && states == old(states)[d := RecordFor(old(states), d).CompleteScan(signals, AtTime(old(config.exchangeClock.Reported()).value, SimulationTime))]
      ensures r.Ok? ==> !CanScan(states[d])
    {
      var record := GetOrCreateState(d);
      var now := ReadClock();
      if now.Err? {
        return Err(now.error);
      }
      var state := new ScanExecutionState.Load(record);
      state.CompleteScan(signals, now.value);
      Store(d, state.Record());
      return Ok(());
    }


    // The *Today variants apply the per-date operation to the clock's today.

    method GetOrCreateTodayState() returns (r: Result<ExecutionRecord>)
      modifies this, config.exchangeClock
      ensures old(Valid()) ==> Valid()
      ensures config.exchangeClock.Reported() == old(config.exchangeClock.Reported())
      ensures old(config.exchangeClock.Reported()).Err? ==> r.Err? && states == old(states)
      ensures old(config.exchangeClock.Reported()).Ok? ==>
        var d := old(config.exchangeClock.Reported()).value;
        r == Ok(RecordFor(old(states), d)) && states == old(states)[d := RecordFor(old(states), d)]
    {
      var today := config.GetTodayInExchangeZone();
      if today.Err? {
        return Err(today.error);
      }
      var record := GetOrCreateState(today.value);
      return Ok(record);
    }

    /** Reads like GetOrCreateTodayState, which it calls. */
    method GetTodayState() returns (r: Result<ExecutionRecord>)
      modifies this, config.exchangeClock
      ensures old(Valid()) ==> Valid()
      ensures config.exchangeClock.Reported() == old(config.exchangeClock.Reported())
      ensures old(config.exchangeClock.Reported()).Err? ==> r.Err? && states == old(states)
      ensures old(config.exchangeClock.Reported()).Ok? ==>
        var d := old(config.exchangeClock.Reported()).value;
        r == Ok(RecordFor(old(states), d)) && states == old(states)[d := RecordFor(old(states), d)]
    {
      r := GetOrCreateTodayState();
    }

    method CanIngestToday() returns (r: Result<bool>)
      modifies this, config.exchangeClock
      ensures old(Valid()) ==> Valid()
      ensures config.exchangeClock.Reported() == old(config.exchangeClock.Reported())
      ensures old(config.exchangeClock.Reported()).Err? ==> r.Err? && states == old(states)
      ensures old(config.exchangeClock.Reported()).Ok? ==>
        var d := old(config.exchangeClock.Reported()).value;
        r == Ok(CanIngest(RecordFor(old(states), d))) && states == old(states)[d := RecordFor(old(states), d)]
    {
      var today := config.GetTodayInExchangeZone();
      if today.Err? {
        return Err(today.error);
      }
      var b := CanIngestForDate(today.value);
      return Ok(b);
    }

    method CanScanToday() returns (r: Result<bool>)
      modifies this, config.exchangeClock
      ensures old(Valid()) ==> Valid()
      ensures config.exchangeClock.Reported() == old(config.exchangeClock.Reported())
      ensures old(config.exchangeClock.Reported()).Err? ==> r.Err? && states == old(states)
      ensures old(config.exchangeClock.Reported()).Ok? ==>
        var d := old(config.exchangeClock.Reported()).value;
        r == Ok(CanScan(RecordFor(old(states), d))) && states == old(states)[d := RecordFor(old(states), d)]
    {
      var today := config.GetTodayInExchangeZone();
      if today.Err? {
        return Err(today.error);
      }
      var b := CanScanForDate(today.value);
      return Ok(b);
    }

    method StartIngestionToday(mode: ExecutionMode) returns (r: Result<()>)
      modifies this, config.exchangeClock
      ensures old(Valid()) ==> Valid()
      ensures config.exchangeClock.Reported() == old(config.exchangeClock.Reported())
      ensures old(config.exchangeClock.Reported()).Err? ==> r.Err? && states == old(states)
      ensures old(config.exchangeClock.Reported()).Ok? ==>
        var d := old(config.exchangeClock.Reported()).value;
        r.Ok? && states == old(states)[d := RecordFor(old(states), d).StartIngestion(mode, AtTime(d, SimulationTime))]
    {
      var today := config.GetTodayInExchangeZone();
      if today.Err? {
        return Err(today.error);
      }
      r := StartIngestionForDate(today.value, mode);
    }

    method CompleteIngestionToday(count: int, source: DataSourceStatus) returns (r: Result<()>)
      modifies this, config.exchangeClock
      ensures old(Valid()) ==> Valid()
      ensures config.exchangeClock.Reported() == old(config.exchangeClock.Reported())
      ensures old(config.exchangeClock.Reported()).Err? ==> r.Err? && states == old(states)
      ensures old(config.exchangeClock.Reported()).Ok? ==>
        var d := old(config.exchangeClock.Reported()).value;
        r.Ok? && states == old(states)[d := RecordFor(old(states), d).CompleteIngestion(count, source, AtTime(d, SimulationTime))]
    {
      var today := config.GetTodayInExchangeZone();
      if today.Err? {
        return Err(today.error);
      }
      r := CompleteIngestionForDate(today.value, count, source);
    }

    method CompleteIngestionNoDataToday(source: DataSourceStatus) returns (r: Result<()>)
      modifies this, config.exchangeClock
      ensures old(Valid()) ==> Valid()
      ensures config.exchangeClock.Reported() == old(config.exchangeClock.Reported())
      ensures old(config.exchangeClock.Reported()).Err? ==> r.Err? && states == old(states)
      ensures old(config.exchangeClock.Reported()).Ok? ==>
        var d := old(config.exchangeClock.Reported()).value;
        r.Ok? && states == old(states)[d := RecordFor(old(states), d).CompleteIngestionNoData(source, AtTime(d, SimulationTime))]
    {
      var today := config.GetTodayInExchangeZone();
      if today.Err? {
        return Err(today.error);
      }
      r := CompleteIngestionNoDataForDate(today.value, source);
    }

    /** Has no per-date counterpart: loads today's record and fails its ingestion. */
    method FailIngestionToday(message: string, source: DataSourceStatus) returns (r: Result<()>)
      requires Valid()
      modifies this, config.exchangeClock
      ensures old(Valid()) ==> Valid()
      ensures config.exchangeClock.Reported() == old(config.exchangeClock.Reported())
      ensures old(config.exchangeClock.Reported()).Err? ==> r.Err? && states == old(states)
      ensures old(config.exchangeClock.Reported()).Ok? ==>
        var d := old(config.exchangeClock.Reported()).value;
        r.Ok? && states == old(states)[d := RecordFor(old(states), d).FailIngestion(message, source, AtTime(d, SimulationTime))]
    {
      var record := GetOrCreateTodayState();
      if record.Err? {
        return Err(record.error);
      }
      var now := ReadClock();
      if now.Err? {
        // today has just been resolved, so the clock answers from its cache
        assert false;
      }
      var state := new ScanExecutionState.Load(record.value);
      state.FailIngestion(message, source, now.value);
      Store(record.value.tradingDate, state.Record());
      return Ok(());
    }

    method StartScanToday() returns (r: Result<()>)
      modifies this, config.exchangeClock
      ensures old(Valid()) ==> Valid()
      ensures config.exchangeClock.Reported() == old(config.exchangeClock.Reported())
      ensures old(config.exchangeClock.Reported()).Err? ==> r.Err? && states == old(states)
      ensures old(config.exchangeClock.Reported()).Ok? ==>
        var d := old(config.exchangeClock.Reported()).value;
        r.Ok? && states == old(states)[d := RecordFor(old(states), d).StartScan(AtTime(d, SimulationTime))]
    {
      var today := config.GetTodayInExchangeZone();
      if today.Err? {
        return Err(today.error);
      }
      r := StartScanForDate(today.value);
    }

    method CompleteScanToday(signals: int) returns (r: Result<()>)
      modifies this, config.exchangeClock
      ensures old(Valid()) ==> Valid()
      ensures config.exchangeClock.Reported() == old(config.exchangeClock.Reported())
      ensures old(config.exchangeClock.Reported()).Err? ==> r.Err? && states == old(states)
      ensures old(config.exchangeClock.Reported()).Ok? ==>
        var d := old(config.exchangeClock.Reported()).value;
        r.Ok? && states == old(states)[d := RecordFor(old(states), d).CompleteScan(signals, AtTime(d, SimulationTime))]
    {
      var today := config.GetTodayInExchangeZone();
      if today.Err? {
        return Err(today.error);
      }
      r := CompleteScanForDate(today.value, signals);
    }
  }

  /**
   * Ingesting a date and asking again: once the completion went through, the gate is
   * closed the second time.
   */
  method IngestOncePerDate(service: ExecutionStateService, d: int, count: int, source: DataSourceStatus)
    returns (first: bool, done: Result<()>, again: bool)
    modifies service, service.config.exchangeClock
    ensures first == CanIngest(RecordFor(old(service.states), d))
    ensures done.Ok? <==> old(service.config.exchangeClock.Reported()).Ok?
    ensures done.Ok? ==> !again
  {
    first := service.CanIngestForDate(d);
    done := service.CompleteIngestionForDate(d, count, source);
    again := service.CanIngestForDate(d);
  }
}
