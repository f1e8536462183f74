/**
 * The per-date execution record: ingestion and scan statuses, their timestamps and
 * counts, and the transitions the pipeline drives them through.
 */
module ScanExecution {
  import opened Wrappers
  import opened Time

  datatype ExecutionStatus = Pending | InProgress | Success | SuccessNoData | Failed | Skipped
  datatype DataSourceStatus = Healthy | NoData | Degraded | Unavailable | Unknown
  datatype ExecutionMode = Manual | Scheduled | Api

  /** One scan_execution_state row (its generated id is not modelled; the date is unique). */
  datatype ExecutionRecord = ExecutionRecord(
    tradingDate: int,
    ingestionStatus: ExecutionStatus,
    scanStatus: ExecutionStatus,
    dataSourceStatus: Option<DataSourceStatus>,
    executionMode: Option<ExecutionMode>,
    lastIngestionTime: Option<DateTime>,
    lastScanTime: Option<DateTime>,
    stocksIngested: Option<int>,
    signalsGenerated: Option<int>,
    errorMessage: Option<string>)
  {
    predicate IsIngestionComplete() {
      ingestionStatus == Success || ingestionStatus == SuccessNoData
    }

    /** A failed or skipped scan counts as complete. */
    predicate IsScanComplete() {
      scanStatus == Success || scanStatus == Failed || scanStatus == Skipped
    }

    predicate HasData() {
      ingestionStatus == Success && stocksIngested.Some? && stocksIngested.value > 0
    }

    // Transitions: each applies whatever the prior status is.

    function StartIngestion(mode: ExecutionMode, timestamp: DateTime): (r: ExecutionRecord)
      ensures r.ingestionStatus == InProgress && !r.IsIngestionComplete() && !r.HasData()
      ensures r.executionMode == Some(mode) && r.lastIngestionTime == Some(timestamp)
      ensures SameScanFields(this, r) && r.errorMessage == errorMessage && r.tradingDate == tradingDate
      ensures r.stocksIngested == stocksIngested && r.dataSourceStatus == dataSourceStatus
    {
      this.(ingestionStatus := InProgress, executionMode := Some(mode), lastIngestionTime := Some(timestamp))
    }

    function CompleteIngestion(count: int, source: DataSourceStatus, timestamp: DateTime): (r: ExecutionRecord)
      ensures r.ingestionStatus == Success && r.IsIngestionComplete()
      ensures r.HasData() <==> count > 0
      ensures r.stocksIngested == Some(count) && r.dataSourceStatus == Some(source)
      ensures r.lastIngestionTime == Some(timestamp)
      ensures SameScanFields(this, r) && r.errorMessage == errorMessage && r.tradingDate == tradingDate
      ensures r.executionMode == executionMode
    {
      this.(ingestionStatus := Success, stocksIngested := Some(count), dataSourceStatus := Some(source),
            lastIngestionTime := Some(timestamp))
    }

    function CompleteIngestionNoData(source: DataSourceStatus, timestamp: DateTime): (r: ExecutionRecord)
      ensures r.ingestionStatus == SuccessNoData && r.IsIngestionComplete() && !r.HasData()
      ensures r.stocksIngested == Some(0) && r.dataSourceStatus == Some(source)
      ensures r.lastIngestionTime == Some(timestamp)
      ensures SameScanFields(this, r) && r.errorMessage == errorMessage && r.tradingDate == tradingDate
      ensures r.executionMode == executionMode
    {
      this.(ingestionStatus := SuccessNoData, stocksIngested := Some(0), dataSourceStatus := Some(source),
            lastIngestionTime := Some(timestamp))
    }

    function FailIngestion(message: string, source: DataSourceStatus, timestamp: DateTime): (r: ExecutionRecord)
      ensures r.ingestionStatus == Failed && !r.IsIngestionComplete() && !r.HasData()
      ensures r.errorMessage == Some(message) && r.dataSourceStatus == Some(source)
      ensures r.lastIngestionTime == Some(timestamp)
      ensures SameScanFields(this, r) && r.tradingDate == tradingDate
      ensures r.stocksIngested == stocksIngested && r.executionMode == executionMode
    {
      this.(ingestionStatus := Failed, errorMessage := Some(message), dataSourceStatus := Some(source),
            lastIngestionTime := Some(timestamp))
    }

    function StartScan(timestamp: DateTime): (r: ExecutionRecord)
      ensures r.scanStatus == InProgress && !r.IsScanComplete() && r.lastScanTime == Some(timestamp)
      ensures SameIngestionFields(this, r) && r.errorMessage == errorMessage && r.tradingDate == tradingDate
      ensures r.signalsGenerated == signalsGenerated
    {
      this.(scanStatus := InProgress, lastScanTime := Some(timestamp))
    }

    function CompleteScan(signals: int, timestamp: DateTime): (r: ExecutionRecord)
      ensures r.scanStatus == Success && r.IsScanComplete()
      ensures r.signalsGenerated == Some(signals) && r.lastScanTime == Some(timestamp)
      ensures SameIngestionFields(this, r) && r.errorMessage == errorMessage && r.tradingDate == tradingDate
    {
      this.(scanStatus := Success, signalsGenerated := Some(signals), lastScanTime := Some(timestamp))
    }

    function SkipScan(reason: string, timestamp: DateTime): (r: ExecutionRecord)
      ensures r.scanStatus == Skipped && r.IsScanComplete()
      ensures r.errorMessage == Some(reason) && r.lastScanTime == Some(timestamp)
      ensures SameIngestionFields(this, r) && r.tradingDate == tradingDate
      ensures r.signalsGenerated == signalsGenerated
    {
      this.(scanStatus := Skipped, errorMessage := Some(reason), lastScanTime := Some(timestamp))
    }

    function FailScan(message: string, timestamp: DateTime): (r: ExecutionRecord)
      ensures r.scanStatus == Failed && r.IsScanComplete()
      ensures r.errorMessage == Some(message) && r.lastScanTime == Some(timestamp)
      ensures SameIngestionFields(this, r) && r.tradingDate == tradingDate
      ensures r.signalsGenerated == signalsGenerated
    {
      this.(scanStatus := Failed, errorMessage := Some(message), lastScanTime := Some(timestamp))
    }
  }

  /** The scan half of a record is the same in `a` and `b`. */
  predicate SameScanFields(a: ExecutionRecord, b: ExecutionRecord) {
    a.scanStatus == b.scanStatus && a.lastScanTime == b.lastScanTime && a.signalsGenerated == b.signalsGenerated
  }

  /** The ingestion half of a record is the same in `a` and `b`. */
  predicate SameIngestionFields(a: ExecutionRecord, b: ExecutionRecord) {
    a.ingestionStatus == b.ingestionStatus && a.executionMode == b.executionMode &&
    a.lastIngestionTime == b.lastIngestionTime && a.stocksIngested == b.stocksIngested &&
    a.dataSourceStatus == b.dataSourceStatus
  }

  /** The entity: a record loaded into memory and changed in place by the transitions. */
  class ScanExecutionState {
    var tradingDate: int
    var ingestionStatus: ExecutionStatus
    var scanStatus: ExecutionStatus
    var dataSourceStatus: Option<DataSourceStatus>
    var executionMode: Option<ExecutionMode>
    var lastIngestionTime: Option<DateTime>
    var lastScanTime: Option<DateTime>
    var stocksIngested: Option<int>
    var signalsGenerated: Option<int>
    var errorMessage: Option<string>

    constructor Load(record: ExecutionRecord)
      ensures Record() == record
    {
      tradingDate := record.tradingDate;
      ingestionStatus := record.ingestionStatus;
      scanStatus := record.scanStatus;
      dataSourceStatus := record.dataSourceStatus;
      executionMode := record.executionMode;
      lastIngestionTime := record.lastIngestionTime;
      lastScanTime := record.lastScanTime;
      stocksIngested := record.stocksIngested;
      signalsGenerated := record.signalsGenerated;
      errorMessage := record.errorMessage;
    }

    /** The row this entity saves as. */
    function Record(): ExecutionRecord
      reads this
    {
      ExecutionRecord(tradingDate, ingestionStatus, scanStatus, dataSourceStatus, executionMode,
                      lastIngestionTime, lastScanTime, stocksIngested, signalsGenerated, errorMessage)
    }

    method StartIngestion(mode: ExecutionMode, timestamp: DateTime)
      modifies this
      ensures Record() == old(Record()).StartIngestion(mode, timestamp)
    {
      ingestionStatus := InProgress;
      executionMode := Some(mode);
      lastIngestionTime := Some(timestamp);
    }

    method CompleteIngestion(count: int, source: DataSourceStatus, timestamp: DateTime)
      modifies this
      ensures Record() == old(Record()).CompleteIngestion(count, source, timestamp)
    {
      ingestionStatus := Success;
      stocksIngested := Some(count);
      dataSourceStatus := Some(source);
      lastIngestionTime := Some(timestamp);
    }

    method CompleteIngestionNoData(source: DataSourceStatus, timestamp: DateTime)
      modifies this
      ensures Record() == old(Record()).CompleteIngestionNoData(source, timestamp)
    {
      ingestionStatus := SuccessNoData;
      stocksIngested := Some(0);
      dataSourceStatus := Some(source);
      lastIngestionTime := Some(timestamp);
    }

    method FailIngestion(message: string, source: DataSourceStatus, timestamp: DateTime)
      modifies this
      ensures Record() == old(Record()).FailIngestion(message, source, timestamp)
    {
      ingestionStatus := Failed;
      errorMessage := Some(message);
      dataSourceStatus := Some(source);
      lastIngestionTime := Some(timestamp);
    }

    method StartScan(timestamp: DateTime)
      modifies this
      ensures Record() == old(Record()).StartScan(timestamp)
    {
      scanStatus := InProgress;
      lastScanTime := Some(timestamp);
    }

    method CompleteScan(signals: int, timestamp: DateTime)
      modifies this
      ensures Record() == old(Record()).CompleteScan(signals, timestamp)
    {
      scanStatus := Success;
      signalsGenerated := Some(signals);
      lastScanTime := Some(timestamp);
    }

    method SkipScan(reason: string, timestamp: DateTime)
      modifies this
      ensures Record() == old(Record()).SkipScan(reason, timestamp)
    {
      scanStatus := Skipped;
      errorMessage := Some(reason);
      lastScanTime := Some(timestamp);
    }

    method FailScan(message: string, timestamp: DateTime)
      modifies this
      ensures Record() == old(Record()).FailScan(message, timestamp)
    {
      scanStatus := Failed;
      errorMessage := Some(message);
      lastScanTime := Some(timestamp);
    }
  }
}
