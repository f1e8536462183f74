/**
 * The National Stock Exchange holiday source: a fixed holiday list, an (empty) list of
 * special sessions, and a persisted, run-time editable set of emergency closures.
 */
module HolidayCalendar {
  import opened Time

  // Scheduled NSE holidays, year by year.
  const Holidays2023: set<int> := {
    19383, // 2023-01-26 Republic Day
    19423, // 2023-03-07 Holi
    19446, // 2023-03-30 Ram Navami
    19451, // 2023-04-04 Mahavir Jayanti
    19454, // 2023-04-07 Good Friday
    19461, // 2023-04-14 Dr. Baba Saheb Ambedkar Jayanti
    19478, // 2023-05-01 Maharashtra Day
    19536, // 2023-06-28 Bakri Id
    19584, // 2023-08-15 Independence Day
    19619, // 2023-09-19 Ganesh Chaturthi
    19632, // 2023-10-02 Mahatma Gandhi Jayanti
    19654, // 2023-10-24 Dussehra
    19675, // 2023-11-14 Diwali-Balipratipada
    19688, // 2023-11-27 Gurunanak Jayanti
    19716 // 2023-12-25 Christmas
  }

  const Holidays2024: set<int> := {
    19748, // 2024-01-26 Republic Day
    19790, // 2024-03-08 Mahashivratri
    19807, // 2024-03-25 Holi
    19811, // 2024-03-29 Good Friday
    19824, // 2024-04-11 Id-Ul-Fitr
    19830, // 2024-04-17 Shri Ram Navmi
    19844, // 2024-05-01 Maharashtra Day
    19891, // 2024-06-17 Bakri Id
    19921, // 2024-07-17 Moharram
    19950, // 2024-08-15 Independence Day
    19998, // 2024-10-02 Mahatma Gandhi Jayanti
    20028, // 2024-11-01 Diwali Laxmi Pujan
    20042, // 2024-11-15 Gurunanak Jayanti
    20082 // 2024-12-25 Christmas
  }

  const Holidays2025: set<int> := {
    20145, // 2025-02-26 Mahashivratri
    20161, // 2025-03-14 Holi
    20178, // 2025-03-31 Id-Ul-Fitr
    20188, // 2025-04-10 Shri Mahavir Jayanti
    20192, // 2025-04-14 Dr. Baba Saheb Ambedkar Jayanti
    20196, // 2025-04-18 Good Friday
    20209, // 2025-05-01 Maharashtra Day
    20315, // 2025-08-15 Independence Day
    20327, // 2025-08-27 Ganesh Chaturthi
    20363, // 2025-10-02 Mahatma Gandhi Jayanti
    20382, // 2025-10-21 Diwali Laxmi Pujan
    20383, // 2025-10-22 Diwali-Balipratipada
    20397, // 2025-11-05 Guru Nanak Jayanti
    20447 // 2025-12-25 Christmas
  }

  const Holidays2026: set<int> := {
    20479, // 2026-01-26 Republic Day
    20515, // 2026-03-03 Holi
    20538, // 2026-03-26 Shri Ram Navami
    20543, // 2026-03-31 Shri Mahavir Jayanti
    20546, // 2026-04-03 Good Friday
    20557, // 2026-04-14 Dr. Baba Saheb Ambedkar Jayanti
    20574, // 2026-05-01 Maharashtra Day
    20630, // 2026-06-26 Muharram
    20728, // 2026-10-02 Mahatma Gandhi Jayanti
    20738, // 2026-10-12 Dussehra
    20766, // 2026-11-09 Diwali-Balipratipada
    20784, // 2026-11-27 Guru Nanak Jayanti
    20812 // 2026-12-25 Christmas
  }

  /** The first holiday day number, 19383, is Republic Day 2023 (26 January). */
  lemma RepublicDay2023IsDayNumber()
    ensures EpochDay(2023, 1, 26) == 19383
  {
    YearStartClosed(2023);
  }

  /** The civil calendar has a leap day in 2024, so 1 March follows 29 February. */
  lemma LeapDay2024PrecedesMarch()
    ensures EpochDay(2024, 2, 29) + 1 == EpochDay(2024, 3, 1)
  {
    assert MonthStart(2024, 3) == MonthStart(2024, 2) + 29;
  }

  /** The last holiday day number, 20812, is Christmas 2026 (25 December). */
  lemma Christmas2026IsDayNumber()
    ensures EpochDay(2026, 12, 25) == 20812
  {
    YearStartClosed(2026);
    assert MonthStart(2026, 12) == 334;
  }

  /** Every scheduled holiday the exchange publishes for 2023 to 2026. */
  const Holidays: set<int> := Holidays2023 + Holidays2024 + Holidays2025 + Holidays2026

  /** Dates with a special trading session; none are listed. */
  const SpecialSessions: set<int> := {}

  /** A persisted emergency-closure row (its surrogate id is not modelled). */
  datatype EmergencyClosure = EmergencyClosure(reason: string, createdAt: DateTime)

  /** The reason recorded for every closure marked through the public API. */
  const UnspecifiedReason: string := "Unspecified"

  class NseHolidayCalendar {
    /** The scheduled holiday list this calendar answers from. */
    const scheduledHolidays: set<int>
    /** The special-session list this calendar answers from. */
    const specialSessions: set<int>
    /** The emergency-closure table, keyed by its unique date column. */
    var closures: map<int, EmergencyClosure>

    constructor(stored: map<int, EmergencyClosure>)
      ensures scheduledHolidays == Holidays && specialSessions == SpecialSessions
      ensures closures == stored
    {
      scheduledHolidays := Holidays;
      specialSessions := SpecialSessions;
      closures := stored;
    }

    /** Whether `d` is a scheduled holiday. */
    function IsHoliday(d: int): bool {
      d in scheduledHolidays
    }

    /** Whether `d` has a special session. */
    function IsSpecialSession(d: int): bool {
      d in specialSessions
    }

    /** Whether a closure row exists for `d`. */
    function IsEmergencyClosure(d: int): bool
      reads this
    {
      d in closures
    }

    /** The dates with a closure row. */
    function ClosedDates(): set<int>
      reads this
    {
      closures.Keys
    }

    /**
     * Records a closure for `d`, unless one exists, with the unspecified reason and the
     * time provider's reading `now` as its creation time.
     */
    method MarkEmergencyClosure(d: int, now: DateTime)
      modifies this
      ensures old(d in closures) ==> closures == old(closures)
      ensures !old(d in closures) ==>
        closures == old(closures)[d := EmergencyClosure(UnspecifiedReason, now)]
      ensures IsEmergencyClosure(d)
      ensures forall x :: x != d ==> (x in closures <==> x in old(closures))
    {
      if IsEmergencyClosure(d) {
        return;
      }
      closures := closures[d := EmergencyClosure(UnspecifiedReason, now)];
    }

    /** Deletes the closure row for `d`, if any. */
    method ClearEmergencyClosure(d: int)
      modifies this
      ensures closures == old(closures) - {d}
      ensures !IsEmergencyClosure(d)
      ensures forall x :: x != d ==> (x in closures <==> x in old(closures))
    {
      closures := closures - {d};
    }
  }

  /** A fresh calendar knows exactly the listed holidays and no special session. */
  method NewCalendarLists(stored: map<int, EmergencyClosure>, d: int) returns (cal: NseHolidayCalendar)
    ensures cal.IsHoliday(d) <==> d in Holidays2023 || d in Holidays2024 || d in Holidays2025 || d in Holidays2026
    ensures !cal.IsSpecialSession(d)
    ensures cal.closures == stored
  {
    cal := new NseHolidayCalendar(stored);
  }

  /** Marking the same date twice leaves the table as marking it once did. */
  method MarkTwiceIsMarkOnce(cal: NseHolidayCalendar, d: int, now: DateTime, later: DateTime)
    modifies cal
    ensures cal.closures == if d in old(cal.closures) then old(cal.closures)
                            else old(cal.closures)[d := EmergencyClosure(UnspecifiedReason, now)]
  {
    cal.MarkEmergencyClosure(d, now);
    var once := cal.closures;
    cal.MarkEmergencyClosure(d, later);
    assert cal.closures == once;
  }
}
