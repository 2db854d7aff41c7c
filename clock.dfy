/**
 * Clock readings. Both programs read the local wall clock (`datetime.now`,
 * `date.today`, `tzname()`); here a reading is a value passed in by the caller.
 */
module Clock {

  /** A local wall-clock reading in whole seconds, with the time-zone name it was taken in. */
  datatype Timestamp = Timestamp(year: nat, month: nat, day: nat,
                                 hour: nat, minute: nat, second: nat,
                                 zone: string)

  /** The time fields lie in their clock ranges. */
  predicate IsTimeOfDay(t: Timestamp) {
    t.hour < 24 && t.minute < 60 && t.second < 60
  }

  predicate SameDate(a: Timestamp, b: Timestamp) {
    a.year == b.year && a.month == b.month && a.day == b.day
  }

  /** Seconds since the start of the reading's day. */
  function SecondOfDay(t: Timestamp): (r: nat)
    ensures IsTimeOfDay(t) ==> r < 86400
  {
    t.hour * 3600 + t.minute * 60 + t.second
  }

  /** Gregorian leap years: every fourth year, except centuries not divisible by 400. */
  predicate IsLeap(year: int) {
    year % 4 == 0 && (year % 100 != 0 || year % 400 == 0)
  }

  function DaysInMonth(year: int, month: int): (n: int)
    requires 1 <= month <= 12
    ensures 28 <= n <= 31
  {
    if month == 2 then (if IsLeap(year) then 29 else 28)
    else if month == 4 || month == 6 || month == 9 || month == 11 then 30
    else 31
  }

  /** A day that exists in the proleptic Gregorian calendar. */
  predicate IsDate(year: int, month: int, day: int) {
    1 <= month <= 12 && 1 <= day <= DaysInMonth(year, month)
  }

  /** The calendar day after (year, month, day): the next day, month or year. */
  function NextDate(year: int, month: int, day: int): (r: (int, int, int))
    requires IsDate(year, month, day)
    ensures IsDate(r.0, r.1, r.2)
  {
    if day < DaysInMonth(year, month) then (year, month, day + 1)
    else if month < 12 then (year, month + 1, 1)
    else (year + 1, 1, 1)
  }

  /**
   * Days from 0000-03-01 to March 1st of year `y`, counting in 400-year eras
   * of 146097 days (the year is taken to start in March, so that the leap day
   * ends it).
   */
  function MarchFirst(y: int): int {
    var era := y / 400;
    var yoe := y - era * 400;
    era * 146097 + yoe * 365 + yoe / 4 - yoe / 100
  }

  /**
   * Days since 1970-01-01 of a date of the proleptic Gregorian calendar
   * (the "days from civil" computation; Dafny's `/` floors for a positive divisor).
   * The arithmetic is total; its value means a day only for months 1 to 12.
   */
  function DayNumber(year: int, month: int, day: int): int {
    var y := if month <= 2 then year - 1 else year;
    var doy := (153 * (if month > 2 then month - 3 else month + 9) + 2) / 5 + day - 1;
    MarchFirst(y) + doy - 719468
  }

  /** The reading as a count of wall-clock seconds. */
  function Instant(t: Timestamp): int {
    DayNumber(t.year, t.month, t.day) * 86400 + SecondOfDay(t)
  }

  /** Whole wall-clock seconds from `tin` to `tout` (negative when the clock went back). */
  function Elapsed(tin: Timestamp, tout: Timestamp): (r: int)
    ensures SameDate(tin, tout) ==> r == SecondOfDay(tout) - SecondOfDay(tin)
  {
    Instant(tout) - Instant(tin)
  }

  /** The day after `day` in the same month is numbered one higher. */
  lemma NextDayNumber(year: int, month: int, day: int)
    ensures DayNumber(year, month, day + 1) == DayNumber(year, month, day) + 1
  {
  }

  /**
   * A session that crosses a midnight inside one month: the
   * elapsed time is the seconds left in the first day plus those of the second.
   */
  lemma ElapsedAcrossMidnight(tin: Timestamp, tout: Timestamp)
    requires tout.year == tin.year && tout.month == tin.month && tout.day == tin.day + 1
    ensures Elapsed(tin, tout) == 86400 - SecondOfDay(tin) + SecondOfDay(tout)
  {
    NextDayNumber(tin.year, tin.month, tin.day);
  }

  /** The era decomposition sums to the familiar count of days and leap days. */
  lemma MarchFirstClosed(y: int)
    ensures MarchFirst(y) == 365 * y + y / 4 - y / 100 + y / 400
  {
    var era := y / 400;
    var yoe := y - era * 400;
    assert y / 4 == 100 * era + yoe / 4;
    assert y / 100 == 4 * era + yoe / 100;
  }

  /** One more year adds one to each floor count exactly when it is a multiple. */
  lemma FloorSteps(x: int)
    ensures (x + 1) / 4 - x / 4 == (if (x + 1) % 4 == 0 then 1 else 0)
    ensures (x + 1) / 100 - x / 100 == (if (x + 1) % 100 == 0 then 1 else 0)
    ensures (x + 1) / 400 - x / 400 == (if (x + 1) % 400 == 0 then 1 else 0)
  {
  }

  /** Multiples of 4 and of 100 leave no remainder. */
  lemma Multiples(k: int)
    ensures (4 * k) % 4 == 0 && (100 * k) % 100 == 0
  {
  }

  /** Multiples of 4, less those of 100, plus those of 400: the leap days. */
  lemma LeapCount(x: int)
    ensures (if x % 4 == 0 then 1 else 0) - (if x % 100 == 0 then 1 else 0) + (if x % 400 == 0 then 1 else 0)
         == (if IsLeap(x) then 1 else 0)
  {
    if x % 400 == 0 {
      var q := x / 400;
      assert x == 100 * (4 * q) == 4 * (100 * q);
      Multiples(4 * q);
      Multiples(100 * q);
    } else if x % 100 == 0 {
      var q := x / 100;
      assert x == 4 * (25 * q);
      Multiples(25 * q);
    }
  }

  /** The year from March of `y` to March of `y + 1` has 366 days exactly when `y + 1` is a leap year. */
  lemma YearLength(y: int)
    ensures MarchFirst(y + 1) == MarchFirst(y) + (if IsLeap(y + 1) then 366 else 365)
  {
    MarchFirstClosed(y);
    MarchFirstClosed(y + 1);
    FloorSteps(y);
    LeapCount(y + 1);
  }

  /** The first of the next month, within one March-based year, follows the last of this one. */
  lemma MonthEndNumber(year: int, month: int)
    requires 1 <= month < 12 && month != 2
    ensures DayNumber(year, month + 1, 1) == DayNumber(year, month, DaysInMonth(year, month)) + 1
  {
    if month == 1 {
    } else if month == 3 {
    } else if month == 4 {
    } else if month == 5 {
    } else if month == 6 {
    } else if month == 7 {
    } else if month == 8 {
    } else if month == 9 {
    } else if month == 10 {
    } else {
    }
  }

  /** Every calendar day, the last of a month or of a year included, is numbered one below the next. */
  lemma NextDateNumber(year: int, month: int, day: int)
    requires IsDate(year, month, day)
    ensures var n := NextDate(year, month, day); DayNumber(n.0, n.1, n.2) == DayNumber(year, month, day) + 1
  {
    if day < DaysInMonth(year, month) {
      NextDayNumber(year, month, day);
    } else if month == 2 {
      YearLength(year - 1);
    } else if month < 12 {
      MonthEndNumber(year, month);
    }
  }

  /**
   * A session that crosses any midnight, into the next month or year too:
   * the elapsed time is the seconds left in the first day plus those of the second.
   */
  lemma ElapsedOverMidnight(tin: Timestamp, tout: Timestamp)
    requires IsDate(tin.year, tin.month, tin.day)
    requires var n := NextDate(tin.year, tin.month, tin.day); tout.year == n.0 && tout.month == n.1 && tout.day == n.2
    ensures Elapsed(tin, tout) == 86400 - SecondOfDay(tin) + SecondOfDay(tout)
  {
    NextDateNumber(tin.year, tin.month, tin.day);
  }

  /** The next day at a month's end, a year's end and in the three kinds of February. */
  lemma ExampleNextDates()
    ensures NextDate(2022, 4, 30) == (2022, 5, 1)
    ensures NextDate(2022, 12, 31) == (2023, 1, 1)
    ensures NextDate(2023, 2, 28) == (2023, 3, 1)
    ensures NextDate(2024, 2, 28) == (2024, 2, 29) && NextDate(2024, 2, 29) == (2024, 3, 1)
    ensures NextDate(1900, 2, 28) == (1900, 3, 1) && NextDate(2000, 2, 28) == (2000, 2, 29)
  {
  }
}
