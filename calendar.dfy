/** Proleptic Gregorian calendar dates, the successor day and a day ordinal.
    The strategies read bar dates as calendar days; one of them adds a day
    (`timedelta(days=1)`), another compares against "today minus 15 days",
    which the model does on day ordinals. */
module Calendar {

  datatype Date = Date(year: int, month: int, day: int)

  predicate IsLeapYear(y: int) {
    (y % 4 == 0 && y % 100 != 0) || y % 400 == 0
  }

  function DaysInMonth(y: int, m: int): int {
    if m == 2 then (if IsLeapYear(y) then 29 else 28)
    else if m == 4 || m == 6 || m == 9 || m == 11 then 30
    else 31
  }

  predicate IsValid(d: Date) {
    1 <= d.month <= 12 && 1 <= d.day <= DaysInMonth(d.year, d.month)
  }

  /** The dates a parsed timestamp can denote. */
  type CalendarDate = d: Date | IsValid(d) witness Date(2000, 1, 1)

  /** `date + timedelta(days=1)`. */
  function NextDay(d: CalendarDate): (n: CalendarDate)
    ensures n.year == d.year || (n.year == d.year + 1 && d.month == 12 && n.month == 1)
    ensures n.day == 1 <==> d.day == DaysInMonth(d.year, d.month)
  {
    if d.day < DaysInMonth(d.year, d.month) then Date(d.year, d.month, d.day + 1)
    else if d.month < 12 then Date(d.year, d.month + 1, 1)
    else Date(d.year + 1, 1, 1)
  }

  /** Days since 1970-01-01 (the "days from civil" formula, years counted from March). */
  function DayNumber(d: Date): int {
    var y := if d.month <= 2 then d.year - 1 else d.year;
    var era := y / 400;
    var yoe := y % 400;
    var mp := (d.month + 9) % 12;
    var doy := (153 * mp + 2) / 5 + d.day - 1;
    era * 146097 + YearStart(yoe) + doy - 719468
  }

  /** Days from the start of a 400-year era to March 1 of its year `yoe`. */
  function YearStart(yoe: int): int {
    yoe * 365 + yoe / 4 - yoe / 100
  }

  /** Day of the March-based year on which month `m` starts. */
  function MonthStart(m: int): int {
    (153 * ((m + 9) % 12) + 2) / 5
  }

  lemma MonthStartSteps(m: int)
    requires 1 <= m <= 12 && m != 2
    ensures MonthStart(if m == 12 then 1 else m + 1) == MonthStart(m) + DaysInMonth(2001, m)
  {
  }

  lemma {:induction false} YearStartStep(yoe: int)
    requires 0 <= yoe < 399
    ensures YearStart(yoe + 1) == YearStart(yoe) + 365 + (if IsLeapYear(yoe + 1) then 1 else 0)
  {
    var n := yoe + 1;
    assert n / 4 == yoe / 4 + (if n % 4 == 0 then 1 else 0);
    assert n / 100 == yoe / 100 + (if n % 100 == 0 then 1 else 0);
    assert n % 400 != 0;
  }

  /** The March-based years of a leap year: a year's March starts 366 days
      after the previous March when the February in between has 29 days. */
  lemma EraYearStep(y: int)
    ensures (y + 1) / 400 * 146097 + YearStart((y + 1) % 400)
         == y / 400 * 146097 + YearStart(y % 400) + 365 + (if IsLeapYear(y + 1) then 1 else 0)
  {
    var era, yoe := y / 400, y % 400;
    assert y == era * 400 + yoe;
    if yoe < 399 {
      WithinEra(y, era, yoe);
    } else {
      AcrossEras(y, era);
    }
  }

  lemma WithinEra(y: int, era: int, yoe: int)
    requires y == era * 400 + yoe && 0 <= yoe < 399
    ensures (y + 1) / 400 == era && (y + 1) % 400 == yoe + 1
    ensures IsLeapYear(y + 1) == IsLeapYear(yoe + 1)
    ensures YearStart((y + 1) % 400) == YearStart(yoe) + 365 + (if IsLeapYear(y + 1) then 1 else 0)
  {
    EraDivMod(y + 1, era, yoe + 1);
    LeapYearPeriodic(era, yoe + 1);
    YearStartStep(yoe);
  }

  lemma EraDivMod(y: int, era: int, yoe: int)
    requires y == era * 400 + yoe && 0 <= yoe < 400
    ensures y / 400 == era && y % 400 == yoe
  {
  }

  /** Leap years repeat every 400 years. */
  lemma LeapYearPeriodic(era: int, n: int)
    ensures IsLeapYear(era * 400 + n) == IsLeapYear(n)
  {
    ShiftMod4(era * 100, n);
    ShiftMod100(era * 4, n);
    ShiftMod400(era, n);
    assert era * 400 + n == era * 100 * 4 + n == era * 4 * 100 + n;
  }

  lemma ShiftMod4(a: int, n: int)
    ensures (a * 4 + n) % 4 == n % 4
  {
  }

  lemma ShiftMod100(a: int, n: int)
    ensures (a * 100 + n) % 100 == n % 100
  {
  }

  lemma ShiftMod400(a: int, n: int)
    ensures (a * 400 + n) % 400 == n % 400
  {
  }

  lemma AcrossEras(y: int, era: int)
    requires y == era * 400 + 399
    ensures (y + 1) / 400 == era + 1 && (y + 1) % 400 == 0 && IsLeapYear(y + 1)
    ensures YearStart(399) == 145731
  {
  }

  /** The successor day is one day later on the ordinal scale, so `NextDay`
      and `DayNumber` describe the same calendar. */
  lemma NextDayIsOneDayLater(d: CalendarDate)
    ensures DayNumber(NextDay(d)) == DayNumber(d) + 1
  {
    if d.day < DaysInMonth(d.year, d.month) {
    } else if d.month == 2 {
      EndOfFebruary(d);
    } else {
      EndOfOtherMonth(d);
    }
  }

  lemma EndOfFebruary(d: CalendarDate)
    requires d.month == 2 && d.day == DaysInMonth(d.year, 2)
    ensures DayNumber(Date(d.year, 3, 1)) == DayNumber(d) + 1
  {
    EraYearStep(d.year - 1);
    assert MonthStart(2) == 337 && MonthStart(3) == 0;
  }

  lemma EndOfOtherMonth(d: CalendarDate)
    requires d.month != 2 && d.day == DaysInMonth(d.year, d.month)
    ensures DayNumber(NextDay(d)) == DayNumber(d) + 1
  {
    MonthStartSteps(d.month);
    assert DaysInMonth(d.year, d.month) == DaysInMonth(2001, d.month);
  }
}
