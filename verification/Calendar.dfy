/**
 * The Gregorian calendar from 1970 on: years, months and days of a day number, and the day number of a date.
 */
module Calendar {
  import opened Foundation
  import opened MessageDomain

  datatype Date = Date(year: nat, month: nat, day: nat)

  predicate IsLeap(year: int) { year % 4 == 0 && (year % 100 != 0 || year % 400 == 0) }

  function YearLength(year: int): nat { if IsLeap(year) then 366 else 365 }

  function MonthLength(year: int, month: nat): nat
    requires 1 <= month <= 12
  {
    if month == 2 then (if IsLeap(year) then 29 else 28)
    else if month in {4, 6, 9, 11} then 30
    else 31
  }

  predicate ValidDate(d: Date) { 1 <= d.month <= 12 && 1 <= d.day <= MonthLength(d.year, d.month) }

  /** Days from the start of 1970 to the start of `year`, negative before it. */
  function DaysBeforeYear(year: nat): int
    decreases if year >= 1970 then year - 1970 else 1970 - year
  {
    if year == 1970 then 0
    else if year > 1970 then DaysBeforeYear(year - 1) + YearLength(year - 1)
    else DaysBeforeYear(year + 1) - YearLength(year)
  }

  function DaysBeforeMonth(year: int, month: nat): nat
    requires 1 <= month <= 13
  {
    if month == 1 then 0 else DaysBeforeMonth(year, month - 1) + MonthLength(year, month - 1)
  }

  function DayNumber(d: Date): int
    requires ValidDate(d)
  { DaysBeforeYear(d.year) + DaysBeforeMonth(d.year, d.month) + d.day - 1 }

  // ---- From day numbers -----------------------------------------------------------------------

  /** The year that lies `days` days after the start of `year`, and the day within it. */
  function YearFrom(year: nat, days: nat): (nat, nat)
    decreases days
  {
    if days < YearLength(year) then (year, days) else YearFrom(year + 1, days - YearLength(year))
  }

  function MonthFrom(year: nat, month: nat, days: nat): (r: (nat, nat))
    requires 1 <= month <= 12 && days + DaysBeforeMonth(year, month) < DaysBeforeMonth(year, 13)
    ensures month <= r.0 <= 12 && r.1 < MonthLength(year, r.0)
    ensures DaysBeforeMonth(year, r.0) + r.1 == DaysBeforeMonth(year, month) + days
    decreases 12 - month
  {
    if days < MonthLength(year, month) || month == 12 then (month, days)
    else MonthFrom(year, month + 1, days - MonthLength(year, month))
  }

  /** The start of every month, by the length of February. */
  lemma MonthStarts(year: int)
    ensures var february := MonthLength(year, 2);
      && DaysBeforeMonth(year, 2) == 31 && DaysBeforeMonth(year, 3) == 31 + february
      && DaysBeforeMonth(year, 4) == 62 + february && DaysBeforeMonth(year, 5) == 92 + february
      && DaysBeforeMonth(year, 6) == 123 + february && DaysBeforeMonth(year, 7) == 153 + february
      && DaysBeforeMonth(year, 8) == 184 + february && DaysBeforeMonth(year, 9) == 215 + february
      && DaysBeforeMonth(year, 10) == 245 + february && DaysBeforeMonth(year, 11) == 276 + february
      && DaysBeforeMonth(year, 12) == 306 + february && DaysBeforeMonth(year, 13) == 337 + february
  {
    hide IsLeap;
    var february := MonthLength(year, 2);
    assert DaysBeforeMonth(year, 2) == 31;
    assert DaysBeforeMonth(year, 4) == 62 + february;
    assert DaysBeforeMonth(year, 5) == 92 + february;
    assert DaysBeforeMonth(year, 7) == 153 + february;
    assert DaysBeforeMonth(year, 9) == 215 + february;
    assert DaysBeforeMonth(year, 11) == 276 + february;
  }

  lemma MonthsFillYear(year: int)
    ensures DaysBeforeMonth(year, 13) == YearLength(year)
  {
    MonthStarts(year);
  }

  lemma {:induction false} YearFromSound(year: nat, days: nat)
    requires year >= 1970
    ensures var (y, rest) := YearFrom(year, days);
      y >= year && rest < YearLength(y) && DaysBeforeYear(y) + rest == DaysBeforeYear(year) + days
    decreases days
  {
    if days >= YearLength(year) { YearFromSound(year + 1, days - YearLength(year)); }
  }

  function DateOf(days: nat): Date {
    var (year, rest) := YearFrom(1970, days);
    YearFromSound(1970, days);
    MonthsFillYear(year);
    var (month, left) := MonthFrom(year, 1, rest);
    Date(year, month, left + 1)
  }

  /** Every day number is the day number of its date. */
  lemma DateRoundTrip(days: nat)
    ensures ValidDate(DateOf(days)) && DateOf(days).year >= 1970 && DayNumber(DateOf(days)) == days
  {
    YearFromSound(1970, days);
    MonthsFillYear(YearFrom(1970, days).0);
  }

  // ---- From dates -----------------------------------------------------------------------------

  lemma {:induction false} LaterYear(a: nat, b: nat)
    requires 1970 <= a < b
    ensures DaysBeforeYear(a) + YearLength(a) <= DaysBeforeYear(b)
    decreases b - a
  {
    if a + 1 < b { LaterYear(a, b - 1); }
  }

  lemma {:induction false} LaterMonth(year: int, a: nat, b: nat)
    requires 1 <= a < b <= 13
    ensures DaysBeforeMonth(year, a) + MonthLength(year, a) <= DaysBeforeMonth(year, b)
    decreases b - a
  {
    if a + 1 < b { LaterMonth(year, a, b - 1); }
  }

  /** Two dates from 1970 on never share a day number. */
  lemma DayNumberIsInjective(a: Date, b: Date)
    requires ValidDate(a) && ValidDate(b) && a.year >= 1970 && b.year >= 1970 && DayNumber(a) == DayNumber(b)
    ensures a == b
  {
    InYear(a);
    InYear(b);
    if a.year < b.year { LaterYear(a.year, b.year); }
    if b.year < a.year { LaterYear(b.year, a.year); }
    if a.month < b.month { LaterMonth(a.year, a.month, b.month); }
    if b.month < a.month { LaterMonth(b.year, b.month, a.month); }
  }

  lemma InYear(d: Date)
    requires ValidDate(d)
    ensures 0 <= DaysBeforeMonth(d.year, d.month) + d.day - 1 < YearLength(d.year)
  {
    LaterMonth(d.year, d.month, 13);
    MonthsFillYear(d.year);
  }

  /** The date of a day number is the only one. */
  lemma DayRoundTrip(d: Date)
    requires ValidDate(d) && d.year >= 1970
    ensures DayNumber(d) >= 0 && DateOf(DayNumber(d)) == d
  {
    InYear(d);
    if d.year > 1970 { LaterYear(1970, d.year); }
    DateRoundTrip(DayNumber(d));
    DayNumberIsInjective(d, DateOf(DayNumber(d)));
  }

  // ---- The end of the range -------------------------------------------------------------------

  function LeapsThrough(year: nat): int { year / 4 - year / 100 + year / 400 }

  lemma NextMultiple(year: nat, n: nat)
    requires n >= 1
    ensures (year + 1) / n - year / n == if (year + 1) % n == 0 then 1 else 0
  {
    var (q, r) := (year / n, year % n);
    assert year == n * q + r;
    if r + 1 == n {
      assert year + 1 == n * (q + 1);
      DivMod(year + 1, n, q + 1, 0);
    } else {
      DivMod(year + 1, n, q, r + 1);
    }
  }

  lemma {:induction false} DaysInClosedForm(year: nat)
    requires year >= 1970
    ensures DaysBeforeYear(year) == 365 * (year - 1970) + LeapsThrough(year - 1) - LeapsThrough(1969)
  {
    if year > 1970 {
      DaysInClosedForm(year - 1);
      NextMultiple(year - 2, 4);
      NextMultiple(year - 2, 100);
      NextMultiple(year - 2, 400);
      LeapRule(year - 1);
    }
  }

  lemma LeapRule(year: nat)
    ensures YearLength(year) == 365 + (if year % 4 == 0 then 1 else 0) - (if year % 100 == 0 then 1 else 0)
      + (if year % 400 == 0 then 1 else 0)
  {
    if year % 100 == 0 { DivMod(year, 4, 25 * (year / 100), 0); }
    if year % 400 == 0 { DivMod(year, 100, 4 * (year / 400), 0); }
  }

  /** The start of each month without month lengths: from March on, 153 days make five months. */
  lemma MonthsInClosedForm(year: int, month: nat)
    requires 1 <= month <= 12
    ensures DaysBeforeMonth(year, month) ==
      if month <= 2 then 31 * (month - 1) else 59 + (if IsLeap(year) then 1 else 0) + (153 * (month - 3) + 2) / 5
  {
    hide IsLeap;
    MonthsFillYear(year);
    assert MonthLength(year, 2) == 28 + if IsLeap(year) then 1 else 0;
    MonthStarts(year);
  }

  /** The day number of a date in arithmetic alone: the calendar fixed without tables or recursion. */
  lemma DayNumberInClosedForm(d: Date)
    requires ValidDate(d) && d.year >= 1970
    ensures DayNumber(d) ==
      365 * (d.year - 1970) + LeapsThrough(d.year - 1) - 477
      + (if d.month <= 2 then 31 * (d.month - 1)
         else 59 + (LeapsThrough(d.year) - LeapsThrough(d.year - 1)) + (153 * (d.month - 3) + 2) / 5)
      + d.day - 1
  {
    hide IsLeap, MonthLength, DaysBeforeMonth, DaysBeforeYear;
    DaysInClosedForm(d.year);
    MonthsInClosedForm(d.year, d.month);
    LeapsCount(d.year);
    assert LeapsThrough(1969) == 477;
  }

  lemma LeapsCount(year: nat)
    requires year >= 1
    ensures LeapsThrough(year) - LeapsThrough(year - 1) == if IsLeap(year) then 1 else 0
  {
    NextMultiple(year - 1, 4);
    NextMultiple(year - 1, 100);
    NextMultiple(year - 1, 400);
    LeapRule(year);
  }

  const SECONDS_PER_DAY: nat := 86_400

  /** The bound of `EmittedAt` is exactly the start of year 10000. */
  lemma RangeEndsWithYear9999()
    ensures SECONDS_TO_YEAR_10000 == SECONDS_PER_DAY * DaysBeforeYear(10_000)
  {
    DaysInClosedForm(10_000);
    assert LeapsThrough(9_999) == 2_424 && LeapsThrough(1_969) == 477;
  }

  lemma YearsInRange(days: nat)
    requires days < DaysBeforeYear(10_000)
    ensures 1970 <= DateOf(days).year <= 9_999
  {
    DateRoundTrip(days);
    var d := DateOf(days);
    InYear(d);
    if d.year > 10_000 { LaterYear(10_000, d.year); }
  }

  lemma DaysInRange(d: Date)
    requires ValidDate(d) && 1970 <= d.year <= 9_999
    ensures 0 <= DayNumber(d) < DaysBeforeYear(10_000)
  {
    DayRoundTrip(d);
    InYear(d);
    LaterYear(d.year, 10_000);
  }
}
