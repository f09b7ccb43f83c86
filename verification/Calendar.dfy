/**
 UTC calendar arithmetic and the guarantee periods of payment rules
 (backend/src/modules/compensation/payments.service.ts), after section 21.4.1 of ECMA-262.

 An instant is a number of milliseconds since 1970; a day is a number of days since 1970.
 */
module Calendar {
  const MS_PER_DAY := 24 * 60 * 60 * 1000

  predicate IsLeap(y: int) {
    y % 4 == 0 && (y % 100 != 0 || y % 400 == 0)
  }

  function YearLength(y: int): int {
    if IsLeap(y) then 366 else 365
  }

  /** The day on which year `y` starts. */
  function DayFromYear(y: int): int {
    365 * (y - 1970) + (y - 1969) / 4 - (y - 1901) / 100 + (y - 1601) / 400
  }

  /** Days of a year before month `m`, counted from 0; month 12 stands for the end of the year. */
  function DaysBefore(m: int, leap: bool): int
    requires 0 <= m <= 12
  {
    var extra := if leap then 1 else 0;
    if m == 0 then 0
    else if m == 1 then 31
    else if m == 2 then 59 + extra
    else if m == 3 then 90 + extra
    else if m == 4 then 120 + extra
    else if m == 5 then 151 + extra
    else if m == 6 then 181 + extra
    else if m == 7 then 212 + extra
    else if m == 8 then 243 + extra
    else if m == 9 then 273 + extra
    else if m == 10 then 304 + extra
    else if m == 11 then 334 + extra
    else 365 + extra
  }

  function MonthLength(y: int, m: int): int
    requires 0 <= m < 12
  {
    DaysBefore(m + 1, IsLeap(y)) - DaysBefore(m, IsLeap(y))
  }

  datatype Civil = Civil(year: int, month: int, day: int)

  ghost predicate IsDate(c: Civil) {
    0 <= c.month < 12 && 1 <= c.day <= MonthLength(c.year, c.month)
  }

  function DayNumber(y: int, m: int, d: int): int
    requires 0 <= m < 12
  {
    DayFromYear(y) + DaysBefore(m, IsLeap(y)) + d - 1
  }

  lemma QuotientStep(a: int, m: int)
    requires m == 4 || m == 100 || m == 400
    ensures (a + 1) / m - a / m == if (a + 1) % m == 0 then 1 else 0
  {
  }

  lemma SameResidue(y: int, m: int, shift: int)
    requires (m == 4 && shift == 1968) || (m == 100 && shift == 1900) || (m == 400 && shift == 1600)
    ensures (y - shift) % m == y % m
  {
  }

  lemma NextYear(y: int)
    ensures DayFromYear(y + 1) == DayFromYear(y) + YearLength(y)
  {
    QuotientStep(y - 1969, 4);
    QuotientStep(y - 1901, 100);
    QuotientStep(y - 1601, 400);
    SameResidue(y, 4, 1968);
    SameResidue(y, 100, 1900);
    SameResidue(y, 400, 1600);
  }

  lemma {:induction false} YearsAscend(y: int, z: int)
    requires y < z
    ensures DayFromYear(y) + YearLength(y) <= DayFromYear(z)
    decreases z - y
  {
    NextYear(z - 1);
    if y < z - 1 {
      YearsAscend(y, z - 1);
    } else {
      NextYear(y);
    }
  }

  function YearUp(n: int, y: int): (r: int)
    requires DayFromYear(y) <= n
    ensures DayFromYear(r) <= n < DayFromYear(r + 1)
    decreases n - DayFromYear(y)
  {
    NextYear(y);
    if n < DayFromYear(y + 1) then y else YearUp(n, y + 1)
  }

  function YearDown(n: int, y: int): (r: int)
    requires n < DayFromYear(y + 1)
    ensures DayFromYear(r) <= n < DayFromYear(r + 1)
    decreases DayFromYear(y + 1) - n
  {
    NextYear(y);
    if DayFromYear(y) <= n then y else YearDown(n, y - 1)
  }

  /** The year of a day: the largest one that does not start after it. */
  function YearOf(n: int): (r: int)
    ensures DayFromYear(r) <= n < DayFromYear(r + 1)
  {
    if DayFromYear(1970) <= n then YearUp(n, 1970) else YearDown(n, 1969)
  }

  function MonthWithin(d: int, leap: bool, m: int): (r: int)
    requires 0 <= m < 12 && DaysBefore(m, leap) <= d < DaysBefore(12, leap)
    ensures 0 <= r < 12 && DaysBefore(r, leap) <= d < DaysBefore(r + 1, leap)
    decreases 12 - m
  {
    if d < DaysBefore(m + 1, leap) then m else MonthWithin(d, leap, m + 1)
  }

  /** Year, month (from 0) and day of the month, as the getUTC functions read them. */
  function CivilOf(n: int): (c: Civil)
    ensures IsDate(c) && DayNumber(c.year, c.month, c.day) == n
  {
    hide DayFromYear, DaysBefore, IsLeap;
    var y := YearOf(n);
    NextYear(y);
    MonthsFillTheYear(y);
    var m := MonthWithin(n - DayFromYear(y), IsLeap(y), 0);
    Civil(y, m, n - DayFromYear(y) - DaysBefore(m, IsLeap(y)) + 1)
  }

  lemma MonthLengths(y: int, m: int)
    requires 0 <= m < 12
    ensures 28 <= MonthLength(y, m) <= 31
    ensures m != 1 ==> MonthLength(y, m) == MonthLength(0, m)
    ensures m == 1 ==> MonthLength(y, m) == if IsLeap(y) then 29 else 28
  {
    hide IsLeap;
  }

  /** The months as they are known: thirty days have April, June, September and November. */
  lemma MonthsAreKnown(y: int, m: int)
    requires 0 <= m < 12
    ensures
      MonthLength(y, m) ==
        if m == 1 then (if y % 4 == 0 && (y % 100 != 0 || y % 400 == 0) then 29 else 28)
        else if m == 3 || m == 5 || m == 8 || m == 10 then 30
        else 31
  {
  }

  lemma {:induction false} MonthsAscend(m: int, n: int, leap: bool)
    requires 0 <= m < n <= 12
    ensures DaysBefore(m + 1, leap) <= DaysBefore(n, leap)
    ensures 0 <= DaysBefore(m, leap) < DaysBefore(n, leap)
    decreases n
  {
    if m < n - 1 {
      MonthsAscend(m, n - 1, leap);
    }
  }

  lemma MonthsFillTheYear(y: int)
    ensures DaysBefore(0, IsLeap(y)) == 0 && DaysBefore(12, IsLeap(y)) == YearLength(y)
  {
  }

  /** A date lies in its year. */
  lemma WithinYear(c: Civil)
    requires IsDate(c)
    ensures DayFromYear(c.year) <= DayNumber(c.year, c.month, c.day) < DayFromYear(c.year + 1)
  {
    hide DayFromYear, IsLeap, DaysBefore;
    NextYear(c.year);
    var leap := IsLeap(c.year);
    MonthsAscend(c.month, 12, leap);
    MonthsFillTheYear(c.year);
    if c.month > 0 {
      MonthsAscend(0, c.month, leap);
    }
  }

  lemma OneYear(n: int, y: int, z: int)
    requires DayFromYear(y) <= n < DayFromYear(y + 1) && DayFromYear(z) <= n < DayFromYear(z + 1)
    ensures y == z
  {
    hide DayFromYear, YearLength;
    NextYear(y);
    NextYear(z);
    if y < z {
      YearsAscend(y, z);
    } else if z < y {
      YearsAscend(z, y);
    }
  }

  /** Different dates have different day numbers. */
  lemma DayNumberInjective(a: Civil, b: Civil)
    requires IsDate(a) && IsDate(b) && DayNumber(a.year, a.month, a.day) == DayNumber(b.year, b.month, b.day)
    ensures a == b
  {
    hide DayFromYear, IsLeap, DaysBefore;
    WithinYear(a);
    WithinYear(b);
    OneYear(DayNumber(a.year, a.month, a.day), a.year, b.year);
    if a.month < b.month {
      MonthsAscend(a.month, b.month, IsLeap(a.year));
    } else if b.month < a.month {
      MonthsAscend(b.month, a.month, IsLeap(a.year));
    }
  }

  /** Dates and day numbers determine each other. */
  lemma CivilOfDayNumber(c: Civil)
    requires IsDate(c)
    ensures CivilOf(DayNumber(c.year, c.month, c.day)) == c
  {
    hide DayNumber, MonthLength, CivilOf;
    DayNumberInjective(CivilOf(DayNumber(c.year, c.month, c.day)), c);
  }

  function NextDate(c: Civil): Civil
    requires 0 <= c.month < 12
  {
    if c.day < MonthLength(c.year, c.month) then Civil(c.year, c.month, c.day + 1)
    else if c.month < 11 then Civil(c.year, c.month + 1, 1)
    else Civil(c.year + 1, 0, 1)
  }

  lemma NextDateFollows(c: Civil)
    requires IsDate(c)
    ensures
      var d := NextDate(c);
      IsDate(d) && DayNumber(d.year, d.month, d.day) == DayNumber(c.year, c.month, c.day) + 1
  {
    hide DayFromYear, IsLeap, DaysBefore;
    NextYear(c.year);
    MonthsFillTheYear(c.year);
    MonthsFillTheYear(c.year + 1);
    if c.day == MonthLength(c.year, c.month) {
      if c.month < 11 {
        MonthLengths(c.year, c.month + 1);
      } else {
        MonthLengths(c.year + 1, 0);
      }
    }
  }

  /** Day 0 is the first of January 1970, and after each day comes the next one of the calendar. */
  lemma DaysFollow(n: int)
    ensures CivilOf(0) == Civil(1970, 0, 1)
    ensures CivilOf(n + 1) == NextDate(CivilOf(n))
  {
    hide DayFromYear, IsLeap, DaysBefore, MonthLength, CivilOf, NextDate, DayNumber;
    var c := CivilOf(n);
    EpochDay();
    CivilOfDayNumber(Civil(1970, 0, 1));
    NextDateFollows(c);
    CivilOfDayNumber(NextDate(c));
  }

  lemma EpochDay()
    ensures IsDate(Civil(1970, 0, 1)) && DayNumber(1970, 0, 1) == 0
  {
  }

  // ---- Date.UTC -----------------------------------------------------------------------------------------------

  /** Date.UTC reads the years 0 to 99 as 1900 to 1999. */
  function FullYear(y: int): int {
    if 0 <= y <= 99 then 1900 + y else y
  }

  /** The day of Date.UTC(year, month, date), for any month and date. */
  function UtcDay(year: int, month: int, date: int): int {
    DayNumber(FullYear(year) + month / 12, month % 12, 1) + date - 1
  }

  lemma UtcDayOfDate(year: int, month: int, date: int)
    requires 0 <= month < 12
    ensures UtcDay(year, month, date) == DayNumber(FullYear(year), month, date)
  {
    hide DayFromYear, DaysBefore, IsLeap, FullYear;
    assert month / 12 == 0 && month % 12 == month;
  }

  function DaysInUtcMonth(year: int, month: int): int {
    CivilOf(UtcDay(year, month + 1, 0)).day
  }

  /** Day 0 of the next month is the last day of this one, in the year Date.UTC takes it for. */
  lemma DaysInUtcMonthIsMonthLength(year: int, month: int)
    requires 0 <= month < 12
    ensures DaysInUtcMonth(year, month) == MonthLength(FullYear(year), month)
  {
    hide DayFromYear, CivilOf, FullYear, DaysBefore, IsLeap;
    var y := FullYear(year);
    var last := Civil(y, month, MonthLength(y, month));
    NextYear(y);
    MonthLengths(y, month);
    MonthsFillTheYear(y);
    MonthsFillTheYear(y + 1);
    assert UtcDay(year, month + 1, 0) == DayNumber(y, month, last.day) by {
      if month == 11 {
        assert (month + 1) / 12 == 1 && (month + 1) % 12 == 0;
      } else {
        assert (month + 1) / 12 == 0 && (month + 1) % 12 == month + 1;
      }
    }
    CivilOfDayNumber(last);
  }

  /** Year 0 is the only one whose leap day Date.UTC loses. */
  lemma FullYearKeepsLeap(y: int)
    ensures IsLeap(FullYear(y)) == IsLeap(y) <==> y != 0
  {
  }

  lemma LeapYearZero()
    ensures IsLeap(0)
  {
  }

  // ---- Guarantee periods --------------------------------------------------------------------------------------

  datatype Period = Daily | Weekly | Monthly

  function DayOf(instant: int): int {
    instant / MS_PER_DAY
  }

  function DateOf(instant: int): (c: Civil)
    ensures IsDate(c) && DayNumber(c.year, c.month, c.day) == DayOf(instant)
  {
    CivilOf(DayOf(instant))
  }

  /** Midnight of a date. */
  function Midnight(c: Civil): int
    requires 0 <= c.month < 12
  {
    DayNumber(c.year, c.month, c.day) * MS_PER_DAY
  }

  lemma DateOfMidnight(c: Civil)
    requires IsDate(c)
    ensures DateOf(Midnight(c)) == c
  {
    hide DayFromYear, DaysBefore, MonthLength, IsLeap, CivilOf;
    var n := DayNumber(c.year, c.month, c.day);
    assert n * MS_PER_DAY / MS_PER_DAY == n;
    CivilOfDayNumber(c);
  }

  function DayDiff(start: int, end: int): int {
    var s, e := DateOf(start), DateOf(end);
    (UtcDay(e.year, e.month, e.day) * MS_PER_DAY - UtcDay(s.year, s.month, s.day) * MS_PER_DAY) / MS_PER_DAY
  }

  predicate MatchesPeriod(period: Period, start: int, end: int) {
    var s, e := DateOf(start), DateOf(end);
    match period
    case Daily => s == e
    case Weekly => DayDiff(start, end) == 6
    case Monthly => s.year == e.year && s.month == e.month && s.day == 1 && e.day == DaysInUtcMonth(s.year, s.month)
  }

  lemma DayDiffOfDates(start: int, end: int)
    ensures
      var s, e := DateOf(start), DateOf(end);
      DayDiff(start, end) == DayNumber(FullYear(e.year), e.month, e.day) - DayNumber(FullYear(s.year), s.month, s.day)
  {
    hide DayNumber, MonthLength, FullYear, DateOf, UtcDay;
    var s, e := DateOf(start), DateOf(end);
    UtcDayOfDate(s.year, s.month, s.day);
    UtcDayOfDate(e.year, e.month, e.day);
  }

  /** Whatever the two instants are, at most one of the three periods matches them. */
  lemma AtMostOnePeriod(start: int, end: int, p: Period, q: Period)
    requires MatchesPeriod(p, start, end) && MatchesPeriod(q, start, end)
    ensures p == q
  {
    hide DayFromYear, DaysBefore, FullYear, MonthLength, IsLeap, DateOf, DaysInUtcMonth, DayDiff;
    var s := DateOf(start);
    DayDiffOfDates(start, end);
    DaysInUtcMonthIsMonthLength(s.year, s.month);
    MonthLengths(FullYear(s.year), s.month);
  }

  /** Daily means the same day. */
  lemma DailyIff(start: int, end: int)
    ensures MatchesPeriod(Daily, start, end) <==> DayOf(start) == DayOf(end)
  {
    hide DayNumber, MonthLength, DayOf, CivilOf;
  }

  /**
   Monthly means from the first to the last day of one month, with one exception: for February of
   year 0 the last day is taken to be the 28th of 29.
   */
  lemma MonthlyIff(start: int, end: int)
    ensures
      var s, e := DateOf(start), DateOf(end);
      var february0 := s.year == 0 && s.month == 1;
      MatchesPeriod(Monthly, start, end) <==>
        && s.year == e.year && s.month == e.month && s.day == 1
        && e.day == MonthLength(s.year, s.month) - (if february0 then 1 else 0)
  {
    hide DayNumber, MonthLength, FullYear, IsLeap, DateOf, DaysInUtcMonth, DayDiff;
    var s := DateOf(start);
    DaysInUtcMonthIsMonthLength(s.year, s.month);
    MonthLengths(FullYear(s.year), s.month);
    MonthLengths(s.year, s.month);
    FullYearKeepsLeap(s.year);
    LeapYearZero();
  }

  /** A monthly period has as many days as its month, 28 to 31, exactly if it is not in February of year 0. */
  lemma MonthlyCoversTheMonth(start: int, end: int)
    requires MatchesPeriod(Monthly, start, end)
    ensures
      var s := DateOf(start);
      var days := DayOf(end) - DayOf(start) + 1;
      && 28 <= days <= 31
      && (days == MonthLength(s.year, s.month) <==> !(s.year == 0 && s.month == 1))
  {
    hide DayFromYear, DaysBefore, MonthLength, IsLeap, DateOf, MatchesPeriod;
    var s := DateOf(start);
    MonthlyIff(start, end);
    MonthLengths(s.year, s.month);
    LeapYearZero();
  }

  /** The exception is real: the first 28 of the 29 days of February of year 0 pass for the month. */
  lemma FebruaryOfYearZero()
    ensures
      var first, last := Civil(0, 1, 1), Civil(0, 1, 28);
      MatchesPeriod(Monthly, Midnight(first), Midnight(last)) && MonthLength(0, 1) == 29
  {
    hide DayFromYear, DaysBefore, MonthLength, CivilOf, DateOf, Midnight, MatchesPeriod;
    var first, last := Civil(0, 1, 1), Civil(0, 1, 28);
    MonthLengths(0, 1);
    DateOfMidnight(first);
    DateOfMidnight(last);
    MonthlyIff(Midnight(first), Midnight(last));
  }

  /**
   The days by which Date.UTC moves a date: the years 0 to 99 go to 1900 to 1999, and before March of
   year 0 one day more, because 1900 has no leap day.
   */
  function Shift(c: Civil): int {
    if c.year < 0 || c.year > 99 then 0
    else if c.year == 0 && c.month <= 1 then 693961
    else 693960
  }

  lemma YearShift(y: int)
    requires 0 <= y <= 99
    ensures DayFromYear(1900 + y) - DayFromYear(y) == 693960 + if y == 0 then 1 else 0
  {
    assert (y - 69) / 4 == (y - 1969) / 4 + 475;
    assert y > 0 ==> (y - 1) / 100 == 0 && (y - 1901) / 100 == -19;
    assert y > 0 ==> (y + 299) / 400 == 0 && (y - 1601) / 400 == -4;
  }

  lemma FullYearShifts(c: Civil)
    requires IsDate(c)
    ensures DayNumber(FullYear(c.year), c.month, c.day) == DayNumber(c.year, c.month, c.day) + Shift(c)
  {
    hide DayFromYear, IsLeap;
    FullYearKeepsLeap(c.year);
    if 0 <= c.year <= 99 {
      YearShift(c.year);
      LeapYearZero();
    }
  }

  /**
   Exactly when a period passes for a week: the days from its start to its end, and the days by which
   Date.UTC moves the end further than the start, make six.
   */
  lemma WeeklyIff(start: int, end: int)
    ensures
      MatchesPeriod(Weekly, start, end) <==>
        DayOf(end) - DayOf(start) + Shift(DateOf(end)) - Shift(DateOf(start)) == 6
  {
    hide DayNumber, MonthLength, FullYear, Shift, DateOf, DayDiff;
    DayDiffOfDates(start, end);
    FullYearShifts(DateOf(start));
    FullYearShifts(DateOf(end));
  }

  /**
   So a period of seven days, first and last included, is recognised exactly if both ends move by the
   same number of days; and a period that is recognised has seven days under the same condition.
   */
  lemma WeeksAreRecognisedIff(start: int, end: int)
    ensures
      var week := DayOf(end) - DayOf(start) == 6;
      var alike := Shift(DateOf(start)) == Shift(DateOf(end));
      && (week ==> (MatchesPeriod(Weekly, start, end) <==> alike))
      && (MatchesPeriod(Weekly, start, end) ==> (week <==> alike))
  {
    hide Shift, DateOf, MatchesPeriod;
    WeeklyIff(start, end);
  }

  /** A real week that is not recognised, at the end of year 99, and 1900 years and a week that are. */
  lemma WeeksThatAreNot()
    ensures
      var start, end := Civil(99, 11, 28), Civil(100, 0, 3);
      && DayOf(Midnight(end)) - DayOf(Midnight(start)) == 6
      && !MatchesPeriod(Weekly, Midnight(start), Midnight(end))
    ensures
      var start, end := Civil(5, 0, 1), Civil(1905, 0, 7);
      && DayOf(Midnight(end)) - DayOf(Midnight(start)) == 6 + 693960
      && MatchesPeriod(Weekly, Midnight(start), Midnight(end))
  {
    hide DayFromYear, CivilOf, DateOf, Midnight, DayDiff;
    DatesOf(Civil(99, 11, 28), Civil(100, 0, 3));
    DatesOf(Civil(5, 0, 1), Civil(1905, 0, 7));
    NextYear(99);
    YearShift(5);
  }

  lemma DatesOf(s: Civil, e: Civil)
    requires IsDate(s) && IsDate(e)
    ensures DateOf(Midnight(s)) == s && DateOf(Midnight(e)) == e
    ensures DayOf(Midnight(s)) == DayNumber(s.year, s.month, s.day)
    ensures DayOf(Midnight(e)) == DayNumber(e.year, e.month, e.day)
    ensures
      DayDiff(Midnight(s), Midnight(e))
      == DayNumber(e.year, e.month, e.day) + Shift(e) - DayNumber(s.year, s.month, s.day) - Shift(s)
  {
    hide DayNumber, MonthLength, FullYear, Shift, DateOf, DayDiff, Midnight, DayOf;
    DateOfMidnight(s);
    DateOfMidnight(e);
    DayDiffOfDates(Midnight(s), Midnight(e));
    FullYearShifts(s);
    FullYearShifts(e);
  }
}
