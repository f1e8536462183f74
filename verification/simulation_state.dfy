/**
 * The persisted simulation timeline: a single simulation_state row, the entity loaded
 * from it, and the repository that stores it.
 */
module SimulationStates {
  import opened Wrappers
  import opened Time

  /** The id of the single simulation-state row. */
  const StateRowId: int := 1

  /** A stored simulation_state row. */
  datatype StateRow = StateRow(
    id: int,
    version: Option<int>,
    baseDate: int,
    offsetDays: Option<int>,   // superseded calendar-day offset, kept for the column
    tradingOffset: int,
    isCycling: bool,           // stored, never read
    cyclingStartedAt: Option<DateTime>)

  /** The entity: a row loaded into memory, changed in place and saved back. */
  class SimulationState {
    var id: int
    var version: Option<int>
    var baseDate: int
    var offsetDays: Option<int>
    var tradingOffset: int
    var isCycling: bool
    var cyclingStartedAt: Option<DateTime>

    /** The no-argument constructor followed by setting id, base date and trading offset. */
    constructor Create(id: int, baseDate: int, tradingOffset: int)
      ensures Row() == StateRow(id, None, baseDate, None, tradingOffset, false, None)
      ensures !isCycling
    {
      this.id := id;
      this.version := None;
      this.baseDate := baseDate;
      this.offsetDays := None;
      this.tradingOffset := tradingOffset;
      this.isCycling := false;
      this.cyclingStartedAt := None;
    }

    /** The entity as loaded from a stored row. */
    constructor Load(row: StateRow)
      ensures Row() == row
    {
      id := row.id;
      version := row.version;
      baseDate := row.baseDate;
      offsetDays := row.offsetDays;
      tradingOffset := row.tradingOffset;
      isCycling := row.isCycling;
      cyclingStartedAt := row.cyclingStartedAt;
    }

    /** The row this entity saves as. */
    function Row(): StateRow
      reads this
    {
      StateRow(id, version, baseDate, offsetDays, tradingOffset, isCycling, cyclingStartedAt)
    }

    /** Advances the simulation by one trading day; forward only, nothing else changes. */
    method AdvanceDay()
      modifies this
      ensures tradingOffset == old(tradingOffset) + 1
      ensures tradingOffset > old(tradingOffset)
      ensures Row() == old(Row()).(tradingOffset := old(tradingOffset) + 1)
    {
      tradingOffset := tradingOffset + 1;
    }

    method SetTradingOffset(offset: int)
      modifies this
      ensures Row() == old(Row()).(tradingOffset := offset)
    {
      tradingOffset := offset;
    }

    /** Superseded by the exchange clock: always fails. */
    method GetCurrentDate() returns (r: Result<int>)
      ensures r.Err? && r.error == UnsupportedOperation
    {
      return Err(UnsupportedOperation);
    }
  }

  /** The simulation_state table, keyed by id. */
  class SimulationStateRepository {
    var rows: map<int, StateRow>

    constructor(stored: map<int, StateRow>)
      requires forall k :: k in stored ==> stored[k].id == k
      ensures rows == stored && Valid()
    {
      rows := stored;
    }

    /** Every row is stored under its own id, the primary key. */
    predicate Valid()
      reads this
    {
      forall k :: k in rows ==> rows[k].id == k
    }

    method FindById(id: int) returns (r: Option<SimulationState>)
      ensures r.Some? <==> id in rows
      ensures r.Some? ==> fresh(r.value) && r.value.Row() == rows[id]
      ensures r.Some? && Valid() ==> r.value.id == id
    {
      if id !in rows {
        return None;
      }
      var state := new SimulationState.Load(rows[id]);
      return Some(state);
    }

    /** Inserts or overwrites the row with the entity's id; other rows are untouched. */
    method Save(state: SimulationState)
      modifies this
      ensures rows == old(rows)[state.id := state.Row()]
      ensures old(Valid()) ==> Valid()
    {
      rows := rows[state.id := state.Row()];
    }
  }
}
