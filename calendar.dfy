/**
 * Civil dates and timestamps, standing in for `java.util.Date` read through a
 * `GregorianCalendar` in one fixed time zone. A timestamp is a day plus the
 * milliseconds elapsed since midnight; a day is a proleptic Gregorian date.
 */
module Calendar {

  const MillisPerHour: nat := 3_600_000
  const MillisPerDay: nat := 24 * MillisPerHour

  predicate IsLeapYear(year: nat) {
    year % 4 == 0 && (year % 100 != 0 || year % 400 == 0)
  }

  function DaysInMonth(year: nat, month: nat): (n: nat)
    requires 1 <= month <= 12
    ensures 28 <= n <= 31
  {
    if month == 2 then (if IsLeapYear(year) then 29 else 28)
    else if month == 4 || month == 6 || month == 9 || month == 11 then 30
    else 31
  }

  /** A calendar date; `yyyy` formats it in exactly four digits, hence the year bound. */
  datatype Date = Date(year: nat, month: nat, day: nat) {
    predicate Valid() {
      year <= 9999 && 1 <= month <= 12 && 1 <= day <= DaysInMonth(year, month)
    }
  }

  /** A day key: a valid calendar date. */
  type Day = d: Date | d.Valid() witness Date(1970, 1, 1)

  /** The earliest day the model can name; it has no predecessor. */
  const FirstDay: Day := Date(0, 1, 1)

  /** Strict chronological order on dates. */
  predicate DayBefore(a: Date, b: Date) {
    a.year < b.year
    || (a.year == b.year && (a.month < b.month || (a.month == b.month && a.day < b.day)))
  }

  /** A point in time: the day and the milliseconds since its midnight. */
  datatype Moment = Moment(date: Date, millis: nat) {
    predicate Valid() {
      date.Valid() && 1 <= date.year && millis < MillisPerDay
    }
  }

  /** The timestamps a record can carry (years 1 to 9999). */
  type Timestamp = t: Moment | t.Valid() witness Moment(Date(1970, 1, 1), 0)

  /** The day a timestamp falls on (what `yyyy-MM-dd` prints of it). */
  function DayOf(t: Timestamp): Day {
    t.date
  }

  /** `Calendar.HOUR_OF_DAY` of a timestamp. */
  function HourOf(t: Timestamp): (h: nat)
    ensures h < 24
    ensures h * MillisPerHour <= t.millis < (h + 1) * MillisPerHour
  {
    t.millis / MillisPerHour
  }

  /** `Date.before`: strictly earlier. */
  predicate Before(a: Timestamp, b: Timestamp) {
    DayBefore(a.date, b.date) || (a.date == b.date && a.millis < b.millis)
  }

  /** `cal.add(Calendar.DAY_OF_YEAR, -1)` seen on the day: the previous day, across month and year ends. */
  function PrevDay(d: Day): (p: Day)
    requires d != FirstDay
  {
    if d.day > 1 then Date(d.year, d.month, d.day - 1)
    else if d.month > 1 then Date(d.year, d.month - 1, DaysInMonth(d.year, d.month - 1))
    else Date(d.year - 1, 12, 31)
  }

  /** PrevDay(d) is the immediate predecessor of d: earlier, and no day lies strictly between them. */
  lemma PrevDayIsPredecessor(d: Day, e: Day)
    requires d != FirstDay
    ensures DayBefore(PrevDay(d), d)
    ensures DayBefore(e, d) ==> e == PrevDay(d) || DayBefore(e, PrevDay(d))
  {
  }

  /** DayBefore is a strict total order on dates. */
  lemma DayBeforeIsStrictTotalOrder(a: Date, b: Date, c: Date)
    ensures !DayBefore(a, a)
    ensures DayBefore(a, b) && DayBefore(b, c) ==> DayBefore(a, c)
    ensures a == b || DayBefore(a, b) || DayBefore(b, a)
    ensures DayBefore(a, b) && !DayBefore(c, b) ==> DayBefore(a, c)
    ensures !DayBefore(b, a) && DayBefore(b, c) ==> DayBefore(a, c)
    ensures !DayBefore(b, a) && !DayBefore(c, b) ==> !DayBefore(c, a)
  {
  }

  /** Before is a strict total order, and an earlier timestamp never lies on a later day. */
  lemma BeforeIsStrictTotalOrder(a: Timestamp, b: Timestamp, c: Timestamp)
    ensures !Before(a, a)
    ensures Before(a, b) && Before(b, c) ==> Before(a, c)
    ensures a == b || Before(a, b) || Before(b, a)
    ensures Before(a, b) ==> !DayBefore(DayOf(b), DayOf(a))
  {
    DayBeforeIsStrictTotalOrder(a.date, b.date, c.date);
  }
}
