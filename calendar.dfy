/** The parts of System.DateTime the server uses. */
module Calendar {

  /**
   * A UTC instant: its calendar date and the ticks elapsed since midnight.
   * DateTime compares by ticks, so two instants are equal exactly when all
   * four fields are.
   */
  datatype DateTime = DateTime(year: int, month: int, day: int, ticksOfDay: int)

  /** default(DateTime), 0001-01-01 00:00:00. */
  const MinValue := DateTime(1, 1, 1, 0)

  /** System.DayOfWeek; its numeric values run from Sunday = 0 to Saturday = 6. */
  datatype DayOfWeek = Sunday | Monday | Tuesday | Wednesday | Thursday | Friday | Saturday

  function DayOfWeekValue(d: DayOfWeek): (n: int)
    ensures 0 <= n <= 6
    ensures n == 0 <==> d == Sunday
  {
    match d
    case Sunday => 0
    case Monday => 1
    case Tuesday => 2
    case Wednesday => 3
    case Thursday => 4
    case Friday => 5
    case Saturday => 6
  }

  /** Same UTC year, month and day: the dashboard's notion of "today". */
  predicate SameUtcDate(a: DateTime, b: DateTime) {
    a.year == b.year && a.month == b.month && a.day == b.day
  }

  predicate IsLeapYear(year: int) {
    year % 4 == 0 && (year % 100 != 0 || year % 400 == 0)
  }

  /** Cumulative days before each month, as in the framework's DaysToMonth365 and DaysToMonth366 tables. */
  const DaysToMonth365: seq<int> := [0, 31, 59, 90, 120, 151, 181, 212, 243, 273, 304, 334, 365]
  const DaysToMonth366: seq<int> := [0, 31, 60, 91, 121, 152, 182, 213, 244, 274, 305, 335, 366]

  function DaysToMonth(year: int): (table: seq<int>)
    ensures |table| == 13
  {
    if IsLeapYear(year) then DaysToMonth366 else DaysToMonth365
  }

  function DaysInMonth(year: int, month: int): (n: int)
    requires 1 <= month <= 12
    ensures 28 <= n <= 31
  {
    DaysToMonth(year)[month] - DaysToMonth(year)[month - 1]
  }

  /** A date DateTime can hold: years 1 to 9999, a real month and day, ticks within the day. */
  predicate ValidDate(d: DateTime) {
    && 1 <= d.year <= 9999
    && 1 <= d.month <= 12
    && 1 <= d.day <= DaysInMonth(d.year, d.month)
    && 0 <= d.ticksOfDay < TicksPerDay
  }

  const TicksPerDay := 864_000_000_000

  /** Whole days since 0001-01-01: the instant's ticks divided by TicksPerDay. */
  function DayNumber(d: DateTime): (n: nat)
    requires ValidDate(d)
  {
    var y := d.year - 1;
    365 * y + y / 4 - y / 100 + y / 400 + DaysToMonth(d.year)[d.month - 1] + d.day - 1
  }

  /** DateTime.DayOfWeek: 0001-01-01 was a Monday, so the weekday value is (days + 1) mod 7. */
  function WeekDay(d: DateTime): (w: DayOfWeek)
    requires ValidDate(d)
    ensures DayOfWeekValue(w) == (DayNumber(d) + 1) % 7
  {
    match (DayNumber(d) + 1) % 7
    case 0 => Sunday
    case 1 => Monday
    case 2 => Tuesday
    case 3 => Wednesday
    case 4 => Thursday
    case 5 => Friday
    case _ => Saturday
  }

  /** The first day DateTime can represent, and a date of the present century, were Mondays. */
  lemma KnownMondays()
    ensures WeekDay(MinValue) == Monday
    ensures ValidDate(DateTime(2024, 1, 1, 0)) && WeekDay(DateTime(2024, 1, 1, 0)) == Monday
  {
  }

  /** The next day of the same month is the next day of the week. */
  lemma NextDayIsNextWeekDay(d: DateTime)
    requires ValidDate(d) && d.day < DaysInMonth(d.year, d.month)
    ensures ValidDate(d.(day := d.day + 1))
    ensures DayNumber(d.(day := d.day + 1)) == DayNumber(d) + 1
    ensures DayOfWeekValue(WeekDay(d.(day := d.day + 1))) == (DayOfWeekValue(WeekDay(d)) + 1) % 7
  {
    var e := d.(day := d.day + 1);
    assert DaysToMonth(e.year) == DaysToMonth(d.year);
    var n := DayNumber(d);
    assert DayNumber(e) == n + 1;
    WeekStep(n);
  }

  /** Counting one more day moves the weekday value on by one, modulo 7. */
  lemma WeekStep(n: nat)
    ensures (n + 2) % 7 == ((n + 1) % 7 + 1) % 7
  {
    var q, r := (n + 1) / 7, (n + 1) % 7;
    assert n + 2 == 7 * q + (r + 1);
    if r + 1 == 7 {
      assert n + 2 == 7 * (q + 1);
    }
  }

  /** Instants of the same UTC date fall on the same day of the week. */
  lemma SameDateSameWeekDay(a: DateTime, b: DateTime)
    requires ValidDate(a) && ValidDate(b) && SameUtcDate(a, b)
    ensures WeekDay(a) == WeekDay(b)
  {
  }
}
