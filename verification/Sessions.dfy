/** Trading sessions and trading dates. */
module Sessions {
  // Times are microseconds of Taipei local time. Days are the ordinals of the proleptic Gregorian
  // calendar, counted so that day `d` covers the microseconds from `d * DAY`.

  import opened Common

  const MINUTE: int := 60_000_000
  const DAY: int := 1440 * MINUTE

  function Clock(hour: nat, minute: nat): int { (hour * 60 + minute) * MINUTE }

  function DateOf(t: int): int { t / DAY }

  function TimeOfDay(t: int): int { t % DAY }

  /** Monday is 0. */
  function Weekday(day: int): int { (day + 6) % 7 }

  predicate TradingDay(day: int, holidays: set<int>) { Weekday(day) < 5 && day !in holidays }

  // ---------------------------------------------------------------- the next trading day

  function HolidaysFrom(day: int, holidays: set<int>): set<int> { set h | h in holidays && h >= day }

  function UntilMonday(day: int): nat { if Weekday(day) >= 5 then 7 - Weekday(day) else 0 }

  lemma NoMoreHolidays(day: int, holidays: set<int>)
    ensures HolidaysFrom(day + 1, holidays) <= HolidaysFrom(day, holidays)
    ensures day in holidays ==> |HolidaysFrom(day + 1, holidays)| < |HolidaysFrom(day, holidays)|
    ensures |HolidaysFrom(day + 1, holidays)| <= |HolidaysFrom(day, holidays)|
  {
    var fewer, more := HolidaysFrom(day + 1, holidays), HolidaysFrom(day, holidays);
    assert more == fewer + (more - fewer);
    if day in holidays {
      assert day in more - fewer;
    }
  }

  /** Terminates for any finite set of holidays: each step passes a holiday or nears a Monday. */
  method NextTradingDay(value: int, holidays: set<int>) returns (candidate: int)
    ensures value < candidate && TradingDay(candidate, holidays)
    ensures forall d :: value < d < candidate ==> !TradingDay(d, holidays)
  {
    candidate := value + 1;
    while Weekday(candidate) >= 5 || candidate in holidays
      invariant value < candidate
      invariant forall d :: value < d < candidate ==> !TradingDay(d, holidays)
      decreases |HolidaysFrom(candidate, holidays)|, UntilMonday(candidate)
    {
      NoMoreHolidays(candidate, holidays);
      candidate := candidate + 1;
    }
  }

  /** The least trading day from a day on. */
  function TradingDayFrom(day: int, holidays: set<int>): (r: int)
    ensures day <= r && TradingDay(r, holidays) && forall d :: day <= d < r ==> !TradingDay(d, holidays)
    decreases |HolidaysFrom(day, holidays)|, UntilMonday(day)
  {
    if TradingDay(day, holidays) then day
    else
      NoMoreHolidays(day, holidays);
      TradingDayFrom(day + 1, holidays)
  }

  // ---------------------------------------------------------------- classification

  datatype Session = DaySession | NightSession

  /** The session and the trading date, or nothing outside both sessions. */
  function Classify(t: int, holidays: set<int>): Option<(Session, int)> {
    var clock, day := TimeOfDay(t), DateOf(t);
    if Clock(8, 45) <= clock <= Clock(13, 45) then Some((DaySession, day))
    else if clock >= Clock(15, 0) then Some((NightSession, TradingDayFrom(day + 1, holidays)))
    else if clock <= Clock(5, 0) then Some((NightSession, day))
    else None
  }

  /** From 8:45 to 13:45, both included, it is the day's own session; until 5:00, that included, the night
      of its date; from 15:00 the night of the least trading day after it; and no session in between. */
  lemma SessionIs(t: int, holidays: set<int>)
    ensures var clock, day, session := t % DAY, t / DAY, Classify(t, holidays);
            && (525 * MINUTE <= clock <= 825 * MINUTE ==> session == Some((DaySession, day)))
            && (clock <= 300 * MINUTE ==> session == Some((NightSession, day)))
            && (clock >= 900 * MINUTE ==>
                  && session.Some? && session.value.0.NightSession?
                  && session.value.1 > day && TradingDay(session.value.1, holidays)
                  && forall d :: day < d < session.value.1 ==> !TradingDay(d, holidays))
            && (300 * MINUTE < clock < 525 * MINUTE || 825 * MINUTE < clock < 900 * MINUTE ==> session.None?)
  {
  }

  /** Ordinal 1 is the Monday 0001-01-01, and a trading day is a Monday to Friday that is no holiday. */
  lemma WeekdaysFromMonday(day: int, weeks: int, holidays: set<int>)
    requires 1 <= day - 7 * weeks <= 7
    ensures TradingDay(day, holidays) <==> day - 7 * weeks <= 5 && day !in holidays
  {
  }

  /** The part of a night before midnight and the part after carry the same trading date exactly
      when the next calendar day is a trading day: a Friday night belongs to Monday until midnight
      and to Saturday after it. */
  lemma NightDatesAgreeIff(evening: int, morning: int, holidays: set<int>)
    requires TimeOfDay(evening) >= Clock(15, 0) && TimeOfDay(morning) <= Clock(5, 0)
    requires DateOf(morning) == DateOf(evening) + 1
    ensures Classify(evening, holidays) == Classify(morning, holidays) <==> TradingDay(DateOf(morning), holidays)
  {
    var next := TradingDayFrom(DateOf(evening) + 1, holidays);
    assert TradingDay(DateOf(morning), holidays) ==> next == DateOf(morning);
  }

  function MinuteFloor(t: int): int { t - t % MINUTE }
}
