/**
 * Proleptic Gregorian calendar dates, as Python's `datetime.date` and
 * `datetime.datetime` use them: day-by-day addition (`date + timedelta(days=n)`),
 * the calendar order, and instants counted in microseconds.
 */
module Dates {

  datatype Date = Date(year: int, month: int, day: int)

  predicate IsLeap(y: int) {
    (y % 4 == 0 && y % 100 != 0) || y % 400 == 0
  }

  function DaysInMonth(y: int, m: int): int
    requires 1 <= m <= 12
  {
    if m == 2 then (if IsLeap(y) then 29 else 28)
    else if m == 4 || m == 6 || m == 9 || m == 11 then 30
    else 31
  }

  /** A date `datetime.date` accepts (its years run from 1 to 9999). */
  predicate ValidDate(d: Date) {
    1 <= d.year <= 9999 && 1 <= d.month <= 12 && 1 <= d.day <= DaysInMonth(d.year, d.month)
  }

  /** A calendar date without the upper year bound, the domain of day arithmetic. */
  predicate WellFormed(d: Date) {
    1 <= d.month <= 12 && 1 <= d.day <= DaysInMonth(d.year, d.month)
  }

  /** `a <= b` on dates: lexicographic on (year, month, day). */
  predicate DateLe(a: Date, b: Date) {
    a.year < b.year || (a.year == b.year && (a.month < b.month || (a.month == b.month && a.day <= b.day)))
  }

  function NextDay(d: Date): (r: Date)
    requires WellFormed(d)
    ensures WellFormed(r)
  {
    if d.day < DaysInMonth(d.year, d.month) then Date(d.year, d.month, d.day + 1)
    else if d.month < 12 then Date(d.year, d.month + 1, 1)
    else Date(d.year + 1, 1, 1)
  }

  /** `d + timedelta(days=n)` */
  function AddDays(d: Date, n: nat): (r: Date)
    requires WellFormed(d)
    ensures WellFormed(r)
    decreases n
  {
    if n == 0 then d else AddDays(NextDay(d), n - 1)
  }

  /** Adding days that stay inside the month only moves the day field. */
  lemma {:induction false} AddDaysWithinMonth(d: Date, n: nat)
    requires WellFormed(d) && d.day + n <= DaysInMonth(d.year, d.month)
    ensures AddDays(d, n) == Date(d.year, d.month, d.day + n)
    decreases n
  {
    if n > 0 {
      AddDaysWithinMonth(NextDay(d), n - 1);
    }
  }

  /** Adding days past the last day of a month that is not December. */
  lemma AddDaysFromMonthEnd(d: Date, n: nat)
    requires WellFormed(d) && d.month < 12 && d.day == DaysInMonth(d.year, d.month)
    requires 1 <= n <= DaysInMonth(d.year, d.month + 1)
    ensures AddDays(d, n) == Date(d.year, d.month + 1, n)
  {
    AddDaysWithinMonth(Date(d.year, d.month + 1, 1), n - 1);
  }

  /** Adding days past December 31st. */
  lemma AddDaysFromYearEnd(y: int, n: nat)
    requires 1 <= n <= 31
    ensures AddDays(Date(y, 12, 31), n) == Date(y + 1, 1, n)
  {
    AddDaysWithinMonth(Date(y + 1, 1, 1), n - 1);
  }

  /** Days since 1970-01-01 of a civil date. */
  function DaysFromCivil(d: Date): int {
    var y := if d.month <= 2 then d.year - 1 else d.year;
    var era := y / 400;
    var yoe := y - era * 400;
    var mp := if d.month > 2 then d.month - 3 else d.month + 9;
    var doy := (153 * mp + 2) / 5 + d.day - 1;
    var doe := yoe * 365 + yoe / 4 - yoe / 100 + doy;
    era * 146097 + doe - 719468
  }

  /** A naive `datetime` value: a date plus a wall-clock time. */
  datatype DateTime = DateTime(date: Date, hour: int, minute: int, second: int)

  /** A time of day `datetime.datetime` accepts (no leap seconds). */
  predicate ValidTime(h: int, m: int, s: int) {
    0 <= h <= 23 && 0 <= m <= 59 && 0 <= s <= 59
  }

  const MicrosPerSecond: int := 1_000_000
  const MicrosPerDay: int := 86_400 * MicrosPerSecond

  /** The instant of a date-time, in microseconds since 1970-01-01 00:00:00. */
  function Instant(t: DateTime): int {
    DaysFromCivil(t.date) * MicrosPerDay + ((t.hour * 60 + t.minute) * 60 + t.second) * MicrosPerSecond
  }
}
