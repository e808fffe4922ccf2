/**
 * The calendar arithmetic of java.time.LocalDate that the bank relies on:
 * the proleptic Gregorian calendar, plusDays, plusMonths (clamping the day to
 * the target month's length), withDayOfMonth and chronological order.
 * DayNumber numbers the days consecutively; it is what makes "one more day"
 * and "how many days lie between two dates" precise.
 */
module Dates {

  /** A year-month-day triple; only the valid ones form a Date. */
  datatype CivilDate = CivilDate(year: int, month: int, day: int)

  predicate IsLeapYear(year: int) {
    year % 4 == 0 && (year % 100 != 0 || year % 400 == 0)
  }

  function LengthOfMonth(year: int, month: int): (n: int)
    ensures 28 <= n <= 31
    ensures month == 2 ==> (n == 29 <==> IsLeapYear(year))
  {
    if month == 2 then (if IsLeapYear(year) then 29 else 28)
    else if month == 4 || month == 6 || month == 9 || month == 11 then 30
    else 31
  }

  predicate IsValid(d: CivilDate) {
    1 <= d.month <= 12 && 1 <= d.day <= LengthOfMonth(d.year, d.month)
  }

  /** java.time.LocalDate: a valid day of the proleptic Gregorian calendar. */
  type Date = d: CivilDate | IsValid(d) witness CivilDate(1970, 1, 1)

  /** java.time.LocalDateTime, reduced to a date and a time of day in nanoseconds. */
  datatype DateTime = DateTime(date: Date, nanoOfDay: nat)

  /** LocalDate.atStartOfDay(). */
  function AtStartOfDay(d: Date): (t: DateTime)
    ensures t.date == d && t.nanoOfDay == 0
  {
    DateTime(d, 0)
  }

  function Min(a: int, b: int): int { if a <= b then a else b }

  /** LocalDate.isBefore: chronological order, year first, then month, then day. */
  predicate IsBefore(a: Date, b: Date) {
    a.year < b.year ||
    (a.year == b.year && (a.month < b.month || (a.month == b.month && a.day < b.day)))
  }

  /** LocalDate.isAfter. */
  predicate IsAfter(a: Date, b: Date) {
    IsBefore(b, a)
  }

  predicate IsLastDayOfMonth(d: Date) {
    d.day == LengthOfMonth(d.year, d.month)
  }

  /** LocalDate.plusDays(1). */
  function NextDay(d: Date): Date {
    if d.day < LengthOfMonth(d.year, d.month) then CivilDate(d.year, d.month, d.day + 1)
    else if d.month < 12 then CivilDate(d.year, d.month + 1, 1)
    else CivilDate(d.year + 1, 1, 1)
  }

  /** LocalDate.minusDays(1). */
  function PrevDay(d: Date): Date {
    if d.day > 1 then CivilDate(d.year, d.month, d.day - 1)
    else if d.month > 1 then CivilDate(d.year, d.month - 1, LengthOfMonth(d.year, d.month - 1))
    else CivilDate(d.year - 1, 12, 31)
  }

  /** LocalDate.plusDays(n): forward for a positive n, backward for a negative one. */
  function PlusDays(d: Date, n: int): Date
    decreases if n < 0 then -n else n
  {
    if n == 0 then d
    else if n > 0 then PlusDays(NextDay(d), n - 1)
    else PlusDays(PrevDay(d), n + 1)
  }

  /**
   * LocalDate.plusMonths: count months from year 0 with floor division, then
   * keep the day of month unless the target month is shorter.
   */
  function PlusMonths(d: Date, months: int): Date {
    var total := d.year * 12 + (d.month - 1) + months;
    var y := total / 12;
    var m := total % 12 + 1;
    CivilDate(y, m, Min(d.day, LengthOfMonth(y, m)))
  }

  /** LocalDate.withDayOfMonth for a day the month has (other days throw). */
  function WithDayOfMonth(d: Date, day: int): (r: Date)
    requires 1 <= day <= LengthOfMonth(d.year, d.month)
    ensures r.year == d.year && r.month == d.month && r.day == day
  {
    CivilDate(d.year, d.month, day)
  }

  /** Days in the years 0 .. year-1 (a negative count for negative years). */
  function DaysBeforeYear(year: int): int {
    365 * year + (year + 3) / 4 - (year + 99) / 100 + (year + 399) / 400
  }

  function DaysBeforeMonth(year: int, month: int): int
    requires 1 <= month <= 12
  {
    var common :=
      if month == 1 then 0 else if month == 2 then 31 else if month == 3 then 59
      else if month == 4 then 90 else if month == 5 then 120 else if month == 6 then 151
      else if month == 7 then 181 else if month == 8 then 212 else if month == 9 then 243
      else if month == 10 then 273 else if month == 11 then 304 else 334;
    if month > 2 && IsLeapYear(year) then common + 1 else common
  }

  /** Consecutive day numbering, 0 for 0000-01-01 (LocalDate.toEpochDay up to a constant). */
  function DayNumber(d: Date): int {
    DaysBeforeYear(d.year) + DaysBeforeMonth(d.year, d.month) + d.day - 1
  }

  // ---------------------------------------------------------------------
  // Lemmas
  // ---------------------------------------------------------------------

  lemma DaysBeforeYearStep(year: int)
    ensures DaysBeforeYear(year + 1) == DaysBeforeYear(year) + (if IsLeapYear(year) then 366 else 365)
  {
    assert (year + 4) / 4 == (year + 3) / 4 + (if year % 4 == 0 then 1 else 0);
    assert (year + 100) / 100 == (year + 99) / 100 + (if year % 100 == 0 then 1 else 0);
    assert (year + 400) / 400 == (year + 399) / 400 + (if year % 400 == 0 then 1 else 0);
    if year % 400 == 0 {
      assert year % 100 == 0 && year % 4 == 0;
    } else if year % 100 == 0 {
      assert year % 4 == 0;
    }
  }

  lemma {:induction false} DaysBeforeYearMonotone(a: int, b: int)
    requires a <= b
    ensures DaysBeforeYear(a) + 365 * (b - a) <= DaysBeforeYear(b)
    decreases b - a
  {
    if a < b {
      DaysBeforeYearMonotone(a, b - 1);
      DaysBeforeYearStep(b - 1);
    }
  }

  lemma MonthStep(year: int, month: int)
    requires 1 <= month < 12
    ensures DaysBeforeMonth(year, month + 1) == DaysBeforeMonth(year, month) + LengthOfMonth(year, month)
  {
  }

  lemma {:induction false} MonthMonotone(year: int, m1: int, m2: int)
    requires 1 <= m1 < m2 <= 12
    ensures DaysBeforeMonth(year, m1) + LengthOfMonth(year, m1) <= DaysBeforeMonth(year, m2)
    decreases m2 - m1
  {
    MonthStep(year, m1);
    if m1 + 1 < m2 {
      MonthMonotone(year, m1 + 1, m2);
    }
  }

  /** A date's number lies within its year's range of numbers. */
  lemma DayNumberWithinYear(d: Date)
    ensures DaysBeforeYear(d.year) <= DayNumber(d) < DaysBeforeYear(d.year + 1)
  {
    DaysBeforeYearStep(d.year);
  }

  /** NextDay moves exactly one day forward. */
  lemma NextDayNumber(d: Date)
    ensures DayNumber(NextDay(d)) == DayNumber(d) + 1
  {
    if d.day == LengthOfMonth(d.year, d.month) {
      if d.month < 12 {
        MonthStep(d.year, d.month);
      } else {
        DaysBeforeYearStep(d.year);
      }
    }
  }

  /** Chronological order is exactly the order of day numbers. */
  lemma DayNumberOrder(a: Date, b: Date)
    ensures IsBefore(a, b) <==> DayNumber(a) < DayNumber(b)
  {
    if a.year < b.year {
      DayNumberWithinYear(a);
      DayNumberWithinYear(b);
      DaysBeforeYearMonotone(a.year + 1, b.year);
    } else if b.year < a.year {
      DayNumberWithinYear(a);
      DayNumberWithinYear(b);
      DaysBeforeYearMonotone(b.year + 1, a.year);
    } else if a.month < b.month {
      MonthMonotone(a.year, a.month, b.month);
    } else if b.month < a.month {
      MonthMonotone(a.year, b.month, a.month);
    }
  }

  /** Two dates with the same number are the same date. */
  lemma DayNumberInjective(a: Date, b: Date)
    requires DayNumber(a) == DayNumber(b)
    ensures a == b
  {
    DayNumberOrder(a, b);
    DayNumberOrder(b, a);
  }

  /** The day after d is after d, and no date lies strictly between them. */
  lemma NextDayIsImmediatelyAfter(d: Date, e: Date)
    ensures IsAfter(NextDay(d), d)
    ensures !(IsAfter(e, d) && IsBefore(e, NextDay(d)))
  {
    NextDayNumber(d);
    DayNumberOrder(d, NextDay(d));
    DayNumberOrder(d, e);
    DayNumberOrder(e, NextDay(d));
  }

  /** PrevDay moves exactly one day back, and NextDay undoes it. */
  lemma PrevDayNumber(d: Date)
    ensures DayNumber(PrevDay(d)) == DayNumber(d) - 1
    ensures NextDay(PrevDay(d)) == d
  {
    if d.day == 1 {
      if d.month > 1 {
        MonthStep(d.year, d.month - 1);
      } else {
        DaysBeforeYearStep(d.year - 1);
      }
    }
  }

  /** plusDays(n) moves exactly n days, forward or back. */
  lemma {:induction false} PlusDaysNumber(d: Date, n: int)
    ensures DayNumber(PlusDays(d, n)) == DayNumber(d) + n
    decreases if n < 0 then -n else n
  {
    if n > 0 {
      NextDayNumber(d);
      PlusDaysNumber(NextDay(d), n - 1);
    } else if n < 0 {
      PrevDayNumber(d);
      PlusDaysNumber(PrevDay(d), n + 1);
    }
  }

  /** plusDays(-n) undoes plusDays(n). */
  lemma PlusDaysInverse(d: Date, n: int)
    ensures PlusDays(PlusDays(d, n), -n) == d
  {
    PlusDaysNumber(d, n);
    PlusDaysNumber(PlusDays(d, n), -n);
    DayNumberInjective(PlusDays(PlusDays(d, n), -n), d);
  }

  /** The next day falls in another month exactly on the month's last day. */
  lemma MonthChangesOnLastDay(d: Date)
    ensures NextDay(d).month != d.month <==> IsLastDayOfMonth(d)
  {
  }

  /**
   * plusMonths shifts the month count by exactly the number of months and
   * keeps the day of month, cut down to the target month's length.
   */
  lemma PlusMonthsShape(d: Date, months: int)
    ensures PlusMonths(d, months).year * 12 + PlusMonths(d, months).month
         == d.year * 12 + d.month + months
    ensures var r := PlusMonths(d, months);
      r.day == Min(d.day, LengthOfMonth(r.year, r.month)) && r.day <= d.day
  {
  }

  /** Adding a positive number of months gives a later date. */
  lemma PlusMonthsIsLater(d: Date, months: int)
    requires months >= 1
    ensures IsAfter(PlusMonths(d, months), d)
  {
    PlusMonthsShape(d, months);
  }
}
