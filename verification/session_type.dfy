/** The classification of a calendar date into a kind of trading session. */
module SessionTypes {

  datatype SessionType =
    | Trading            // a regular trading day
    | SpecialSession     // a special (often shorter) session, such as Muhurat trading
    | Holiday            // a scheduled exchange holiday
    | UnexpectedClosure  // an unscheduled closure recorded at run time
    | Weekend            // a Saturday or a Sunday
  {
    /** Trading happens in regular and special sessions only. */
    predicate IsTradingSession() {
      this == Trading || this == SpecialSession
    }
  }

  const AllSessionTypes: set<SessionType> :=
    {Trading, SpecialSession, Holiday, UnexpectedClosure, Weekend}

  /** There are exactly five kinds of session, and exactly two of them are trading sessions. */
  lemma FiveSessionKinds()
    ensures |AllSessionTypes| == 5
    ensures forall s: SessionType :: s in AllSessionTypes
    ensures forall s: SessionType :: s.IsTradingSession() <==> s in {Trading, SpecialSession}
  {
    forall s: SessionType ensures s in AllSessionTypes {
      match s
      case Trading =>
      case SpecialSession =>
      case Holiday =>
      case UnexpectedClosure =>
      case Weekend =>
    }
  }
}
