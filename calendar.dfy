/** Proleptic Gregorian dates and times, the fixed UTC+8 display shift, and
    a day ordinal (day 1 is 0001-01-01) that gives the shift a meaning. */
module Calendar {

  datatype CivilDate = CivilDate(year: int, month: int, day: int)

  datatype CivilDateTime = CivilDateTime(date: CivilDate, hour: int, minute: int, second: int)

  predicate IsLeapYear(y: int) {
    y % 4 == 0 && (y % 100 != 0 || y % 400 == 0)
  }

  function DaysInMonth(y: int, m: int): (n: int)
    requires 1 <= m <= 12
    ensures 28 <= n <= 31
    ensures m == 2 <==> n < 30
  {
    if m == 2 then (if IsLeapYear(y) then 29 else 28)
    else if m == 4 || m == 6 || m == 9 || m == 11 then 30
    else 31
  }

  predicate IsValidDate(d: CivilDate) {
    1 <= d.year && 1 <= d.month <= 12 && 1 <= d.day <= DaysInMonth(d.year, d.month)
  }

  /** A calendar date as a date-time parser produces it: always a real day. */
  type Date = d: CivilDate | IsValidDate(d) witness CivilDate(1970, 1, 1)

  predicate IsValidDateTime(t: CivilDateTime) {
    IsValidDate(t.date) && 0 <= t.hour < 24 && 0 <= t.minute < 60 && 0 <= t.second < 60
  }

  /** An already-parsed timestamp (sub-second precision is not modelled). */
  type Timestamp = t: CivilDateTime | IsValidDateTime(t)
    witness CivilDateTime(CivilDate(1970, 1, 1), 0, 0, 0)

  function DateOf(t: Timestamp): Date {
    t.date
  }

  function NextDay(d: Date): Date {
    if d.day < DaysInMonth(d.year, d.month) then CivilDate(d.year, d.month, d.day + 1)
    else if d.month < 12 then CivilDate(d.year, d.month + 1, 1)
    else CivilDate(d.year + 1, 1, 1)
  }

  function DaysInYear(y: int): int {
    if IsLeapYear(y) then 366 else 365
  }

  /** Days in the years 1 .. y-1. */
  function DaysBeforeYear(y: int): nat
    decreases y
  {
    if y <= 1 then 0 else DaysBeforeYear(y - 1) + DaysInYear(y - 1)
  }

  /** Days in the months 1 .. m-1 of year y. */
  function DaysBeforeMonth(y: int, m: int): int
    requires 1 <= m <= 12
  {
    var leap := if IsLeapYear(y) then 1 else 0;
    if m == 1 then 0
    else if m == 2 then 31
    else if m == 3 then 59 + leap
    else if m == 4 then 90 + leap
    else if m == 5 then 120 + leap
    else if m == 6 then 151 + leap
    else if m == 7 then 181 + leap
    else if m == 8 then 212 + leap
    else if m == 9 then 243 + leap
    else if m == 10 then 273 + leap
    else if m == 11 then 304 + leap
    else 334 + leap
  }

  /** The ordinal of a day, counting 0001-01-01 as day 1. */
  function DayNumber(d: Date): int {
    DaysBeforeYear(d.year) + DaysBeforeMonth(d.year, d.month) + d.day
  }

  /** Seconds since 0001-01-01 00:00:00 of the same clock. */
  function Instant(t: Timestamp): int {
    DayNumber(DateOf(t)) * 86400 + t.hour * 3600 + t.minute * 60 + t.second
  }

  lemma NextDayIsFollowingDay(d: Date)
    ensures DayNumber(NextDay(d)) == DayNumber(d) + 1
  {
    if d.day == DaysInMonth(d.year, d.month) && d.month == 12 {
      assert DaysBeforeYear(d.year + 1) == DaysBeforeYear(d.year) + DaysInYear(d.year);
    }
  }

  /** The display time zone (Asia/Shanghai) as a fixed offset from UTC. */
  const DisplayOffsetHours: int := 8

  /** Converts a UTC timestamp to display time: +8 hours, rolling over into
      the next day, month and year. */
  function ToDisplay(t: Timestamp): Timestamp {
    if t.hour + DisplayOffsetHours < 24 then
      CivilDateTime(t.date, t.hour + DisplayOffsetHours, t.minute, t.second)
    else
      CivilDateTime(NextDay(DateOf(t)), t.hour + DisplayOffsetHours - 24, t.minute, t.second)
  }

  /** The display time denotes the same instant, eight hours further on the clock. */
  lemma ToDisplayShiftsEightHours(t: Timestamp)
    ensures Instant(ToDisplay(t)) == Instant(t) + DisplayOffsetHours * 3600
  {
    if t.hour + DisplayOffsetHours >= 24 {
      NextDayIsFollowingDay(DateOf(t));
    }
  }

  /** The calendar month of a UTC timestamp, read in display time. */
  function DisplayMonth(t: Timestamp): (m: int)
    ensures 1 <= m <= 12
  {
    ToDisplay(t).date.month
  }

  /** The calendar date of a UTC timestamp, read in display time. */
  function DisplayDate(t: Timestamp): Date {
    DateOf(ToDisplay(t))
  }

  /** From 16:00 UTC on 31 December on, display time is already in January
      of the following year. */
  lemma NewYearInDisplayTime(t: Timestamp)
    requires t.date.month == 12 && t.date.day == 31 && t.hour >= 24 - DisplayOffsetHours
    ensures DisplayDate(t) == CivilDate(t.date.year + 1, 1, 1)
    ensures DisplayMonth(t) == 1
  {
  }

  /** Before 16:00 UTC the display date is the source date. */
  lemma SameDayInDisplayTime(t: Timestamp)
    requires t.hour < 24 - DisplayOffsetHours
    ensures DisplayDate(t) == t.date
    ensures DisplayMonth(t) == t.date.month
  {
  }
}
