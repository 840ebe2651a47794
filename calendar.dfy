// The part of java.time the services rely on: LocalDate in the proleptic
// Gregorian calendar, YearMonth, and LocalDateTime at nanosecond
// resolution. Dates are compared and shifted through a day number, and the
// lemmas tie that number to java.time's field-by-field comparison.

module Calendar {

  datatype Date = Date(year: int, month: int, day: int)

  datatype YearMonth = YearMonth(year: int, month: int)

  /** IsoChronology.isLeapYear. */
  predicate IsLeapYear(y: int)
  {
    y % 4 == 0 && (y % 100 != 0 || y % 400 == 0)
  }

  /** YearMonth.lengthOfMonth / LocalDate.lengthOfMonth. */
  function DaysInMonth(y: int, m: int): (n: int)
    ensures 28 <= n <= 31
    ensures m == 2 ==> (n == 29 <==> IsLeapYear(y))
  {
    if m == 2 then (if IsLeapYear(y) then 29 else 28)
    else if m == 4 || m == 6 || m == 9 || m == 11 then 30
    else 31
  }

  function DaysInYear(y: int): int
  {
    if IsLeapYear(y) then 366 else 365
  }

  predicate ValidDate(d: Date)
  {
    1 <= d.month <= 12 && 1 <= d.day <= DaysInMonth(d.year, d.month)
  }

  predicate ValidYearMonth(ym: YearMonth)
  {
    1 <= ym.month <= 12
  }

  function Min(a: int, b: int): int
  {
    if a <= b then a else b
  }

  // ---------------------------------------------------------------------
  // Day numbers
  // ---------------------------------------------------------------------

  /** Days from 0000-01-01 to January 1 of year y (negative before it). */
  function DaysBeforeYear(y: int): int
  {
    365 * y + (y + 3) / 4 - (y + 99) / 100 + (y + 399) / 400
  }

  /** Days in the months of year y that precede month m. */
  function DaysBeforeMonth(y: int, m: int): int
  {
    var common :=
      if m == 1 then 0 else if m == 2 then 31 else if m == 3 then 59
      else if m == 4 then 90 else if m == 5 then 120 else if m == 6 then 151
      else if m == 7 then 181 else if m == 8 then 212 else if m == 9 then 243
      else if m == 10 then 273 else if m == 11 then 304 else 334;
    common + (if m > 2 && IsLeapYear(y) then 1 else 0)
  }

  /** Days from 0000-01-01 to d. LocalDate.toEpochDay counts from
      1970-01-01 instead, which differs by a constant. */
  function EpochDay(d: Date): int
  {
    DaysBeforeYear(d.year) + DaysBeforeMonth(d.year, d.month) + d.day - 1
  }

  lemma DaysBeforeNextYear(y: int)
    ensures DaysBeforeYear(y + 1) == DaysBeforeYear(y) + DaysInYear(y)
  {
    NextMultiple4(y);
    NextMultiple100(y);
    NextMultiple400(y);
  }

  // Each leap-year term of DaysBeforeYear grows by one exactly at a
  // multiple of its period.
  lemma NextMultiple4(y: int)
    ensures (y + 4) / 4 == (y + 3) / 4 + (if y % 4 == 0 then 1 else 0)
  {
  }

  lemma NextMultiple100(y: int)
    ensures (y + 100) / 100 == (y + 99) / 100 + (if y % 100 == 0 then 1 else 0)
  {
  }

  lemma NextMultiple400(y: int)
    ensures (y + 400) / 400 == (y + 399) / 400 + (if y % 400 == 0 then 1 else 0)
  {
  }

  lemma DaysBeforeNextMonth(y: int, m: int)
    requires 1 <= m <= 12
    ensures m < 12 ==> DaysBeforeMonth(y, m + 1) == DaysBeforeMonth(y, m) + DaysInMonth(y, m)
    ensures m == 12 ==> DaysBeforeMonth(y, m) + DaysInMonth(y, m) == DaysInYear(y)
  {
  }

  /** A later month of the same year starts after this month ends. */
  lemma {:induction false} DaysBeforeMonthMonotone(y: int, m1: int, m2: int)
    requires 1 <= m1 < m2 <= 12
    ensures DaysBeforeMonth(y, m1) + DaysInMonth(y, m1) <= DaysBeforeMonth(y, m2)
    decreases m2 - m1
  {
    DaysBeforeNextMonth(y, m1);
    if m1 + 1 < m2 {
      DaysBeforeMonthMonotone(y, m1 + 1, m2);
    }
  }

  /** A later year starts after this year ends. */
  lemma {:induction false} DaysBeforeYearMonotone(y1: int, y2: int)
    requires y1 < y2
    ensures DaysBeforeYear(y1) + DaysInYear(y1) <= DaysBeforeYear(y2)
    decreases y2 - y1
  {
    DaysBeforeNextYear(y1);
    if y1 + 1 < y2 {
      DaysBeforeYearMonotone(y1 + 1, y2);
      DaysBeforeNextYear(y1 + 1);
    }
  }

  /** A valid date lies inside its year. */
  lemma DayOfYearBounds(d: Date)
    requires ValidDate(d)
    ensures DaysBeforeYear(d.year) <= EpochDay(d) < DaysBeforeYear(d.year) + DaysInYear(d.year)
  {
    if d.month < 12 {
      DaysBeforeMonthMonotone(d.year, d.month, 12);
    }
    DaysBeforeNextMonth(d.year, 12);
  }

  // ---------------------------------------------------------------------
  // Comparison (LocalDate.compareTo: year, then month, then day)
  // ---------------------------------------------------------------------

  /** LocalDate.isBefore. */
  predicate IsBefore(a: Date, b: Date)
  {
    a.year < b.year ||
    (a.year == b.year && (a.month < b.month || (a.month == b.month && a.day < b.day)))
  }

  /** LocalDate.isAfter. */
  predicate IsAfter(a: Date, b: Date)
  {
    IsBefore(b, a)
  }

  /** Field-by-field order and day-number order agree on valid dates. */
  lemma {:induction false} EpochDayOrder(a: Date, b: Date)
    requires ValidDate(a) && ValidDate(b)
    ensures IsBefore(a, b) <==> EpochDay(a) < EpochDay(b)
    ensures a == b <==> EpochDay(a) == EpochDay(b)
  {
    if IsBefore(a, b) {
      EpochDayBefore(a, b);
    } else if IsBefore(b, a) {
      EpochDayBefore(b, a);
    }
  }

  lemma {:induction false} EpochDayBefore(a: Date, b: Date)
    requires ValidDate(a) && ValidDate(b) && IsBefore(a, b)
    ensures EpochDay(a) < EpochDay(b)
  {
    if a.year < b.year {
      DayOfYearBounds(a);
      DayOfYearBounds(b);
      DaysBeforeYearMonotone(a.year, b.year);
    } else if a.month < b.month {
      DaysBeforeMonthMonotone(a.year, a.month, b.month);
    }
  }

  /** Not before and not after means the same date. */
  lemma EpochDaySame(a: Date, b: Date)
    requires ValidDate(a) && ValidDate(b) && EpochDay(a) == EpochDay(b)
    ensures a == b
  {
    EpochDayOrder(a, b);
  }

  // ---------------------------------------------------------------------
  // Moving by days, weeks, months and years
  // ---------------------------------------------------------------------

  function NextDay(d: Date): (r: Date)
    requires ValidDate(d)
    ensures ValidDate(r) && EpochDay(r) == EpochDay(d) + 1
  {
    if d.day < DaysInMonth(d.year, d.month) then
      Date(d.year, d.month, d.day + 1)
    else if d.month < 12 then
      DaysBeforeNextMonth(d.year, d.month);
      Date(d.year, d.month + 1, 1)
    else
      DaysBeforeNextMonth(d.year, 12);
      DaysBeforeNextYear(d.year);
      Date(d.year + 1, 1, 1)
  }

  function PrevDay(d: Date): (r: Date)
    requires ValidDate(d)
    ensures ValidDate(r) && EpochDay(r) == EpochDay(d) - 1
  {
    if d.day > 1 then
      Date(d.year, d.month, d.day - 1)
    else if d.month > 1 then
      DaysBeforeNextMonth(d.year, d.month - 1);
      Date(d.year, d.month - 1, DaysInMonth(d.year, d.month - 1))
    else
      DaysBeforeNextMonth(d.year - 1, 12);
      DaysBeforeNextYear(d.year - 1);
      Date(d.year - 1, 12, 31)
  }

  /** LocalDate.plusDays (a negative n goes back). */
  function PlusDays(d: Date, n: int): (r: Date)
    requires ValidDate(d)
    ensures ValidDate(r) && EpochDay(r) == EpochDay(d) + n
    decreases if n >= 0 then n else -n
  {
    if n == 0 then d
    else if n > 0 then PlusDays(NextDay(d), n - 1)
    else PlusDays(PrevDay(d), n + 1)
  }

  /** LocalDate.minusDays. */
  function MinusDays(d: Date, n: int): (r: Date)
    requires ValidDate(d)
    ensures ValidDate(r) && EpochDay(r) == EpochDay(d) - n
  {
    PlusDays(d, -n)
  }

  /** LocalDate.plusWeeks. */
  function PlusWeeks(d: Date, n: int): (r: Date)
    requires ValidDate(d)
    ensures ValidDate(r) && EpochDay(r) == EpochDay(d) + 7 * n
  {
    PlusDays(d, 7 * n)
  }

  /** ChronoUnit.DAYS.between(a, b): whole days from a to b. */
  function DaysBetween(a: Date, b: Date): int
    requires ValidDate(a) && ValidDate(b)
  {
    EpochDay(b) - EpochDay(a)
  }

  /** LocalDate.plusMonths: the same day n months later, clamped to the
      length of the target month. */
  function PlusMonths(d: Date, n: int): (r: Date)
    requires ValidDate(d)
    ensures ValidDate(r)
    ensures r.year * 12 + r.month == d.year * 12 + d.month + n
    ensures r.day == Min(d.day, DaysInMonth(r.year, r.month))
  {
    var total := d.year * 12 + (d.month - 1) + n;
    var y := total / 12;
    var m := total % 12 + 1;
    Date(y, m, Min(d.day, DaysInMonth(y, m)))
  }

  /** LocalDate.plusYears: the same month and day, with February 29
      clamped to February 28 in a common year. */
  function PlusYears(d: Date, n: int): (r: Date)
    requires ValidDate(d)
    ensures ValidDate(r) && r.year == d.year + n && r.month == d.month
    ensures r.day == Min(d.day, DaysInMonth(r.year, r.month))
  {
    Date(d.year + n, d.month, Min(d.day, DaysInMonth(d.year + n, d.month)))
  }

  // ---------------------------------------------------------------------
  // YearMonth
  // ---------------------------------------------------------------------

  /** YearMonth.from(date). */
  function YearMonthOf(d: Date): YearMonth
  {
    YearMonth(d.year, d.month)
  }

  /** YearMonth.atDay(1). */
  function FirstDay(ym: YearMonth): (r: Date)
    requires ValidYearMonth(ym)
    ensures ValidDate(r) && YearMonthOf(r) == ym && r.day == 1
  {
    Date(ym.year, ym.month, 1)
  }

  /** YearMonth.atEndOfMonth. */
  function LastDay(ym: YearMonth): (r: Date)
    requires ValidYearMonth(ym)
    ensures ValidDate(r) && YearMonthOf(r) == ym
    ensures forall d :: ValidDate(d) && YearMonthOf(d) == ym ==> d.day <= r.day
  {
    Date(ym.year, ym.month, DaysInMonth(ym.year, ym.month))
  }

  /** YearMonth.plusMonths (minusMonths(k) is plusMonths(-k)). */
  function PlusMonthsYM(ym: YearMonth, n: int): (r: YearMonth)
    requires ValidYearMonth(ym)
    ensures ValidYearMonth(r)
    ensures r.year * 12 + r.month == ym.year * 12 + ym.month + n
  {
    var total := ym.year * 12 + (ym.month - 1) + n;
    YearMonth(total / 12, total % 12 + 1)
  }

  /** A date lies between the first and the last day of a month, both
      inclusive, exactly when it is in that month. */
  lemma MonthRange(ym: YearMonth, d: Date)
    requires ValidYearMonth(ym) && ValidDate(d)
    ensures !IsBefore(d, FirstDay(ym)) && !IsAfter(d, LastDay(ym)) <==> YearMonthOf(d) == ym
  {
  }

  // ---------------------------------------------------------------------
  // LocalDateTime
  // ---------------------------------------------------------------------

  const NanosPerSecond: int := 1_000_000_000
  const NanosPerDay: int := 86_400_000_000_000

  /** A date and a time of day in nanoseconds since midnight. */
  datatype DateTime = DateTime(date: Date, nanoOfDay: int)

  predicate ValidDateTime(t: DateTime)
  {
    ValidDate(t.date) && 0 <= t.nanoOfDay < NanosPerDay
  }

  /** A linear time scale: nanoseconds since 0000-01-01T00:00. */
  function Timeline(t: DateTime): int
  {
    EpochDay(t.date) * NanosPerDay + t.nanoOfDay
  }

  /** LocalDateTime.isBefore. */
  predicate IsBeforeTime(a: DateTime, b: DateTime)
  {
    Timeline(a) < Timeline(b)
  }

  /** LocalDate.atStartOfDay. */
  function AtStartOfDay(d: Date): (t: DateTime)
    requires ValidDate(d)
    ensures ValidDateTime(t) && t.date == d && Timeline(t) == EpochDay(d) * NanosPerDay
  {
    DateTime(d, 0)
  }

  /** LocalDate.atTime(hour, minute, second). */
  function AtTime(d: Date, hour: int, minute: int, second: int): (t: DateTime)
    requires ValidDate(d) && 0 <= hour < 24 && 0 <= minute < 60 && 0 <= second < 60
    ensures ValidDateTime(t) && t.date == d
  {
    DateTime(d, ((hour * 60 + minute) * 60 + second) * NanosPerSecond)
  }

  /** LocalDateTime.plusNanos for a non-negative amount. */
  function PlusNanos(t: DateTime, n: nat): (r: DateTime)
    requires ValidDateTime(t)
    ensures ValidDateTime(r) && Timeline(r) == Timeline(t) + n
  {
    var total := t.nanoOfDay + n;
    DateTime(PlusDays(t.date, total / NanosPerDay), total % NanosPerDay)
  }

  /** LocalDateTime.plusMinutes for a non-negative amount. */
  function PlusMinutes(t: DateTime, minutes: nat): (r: DateTime)
    requires ValidDateTime(t)
    ensures ValidDateTime(r) && Timeline(r) == Timeline(t) + minutes * 60 * NanosPerSecond
  {
    PlusNanos(t, minutes * 60 * NanosPerSecond)
  }

  /** The whole-day window [start 00:00, (end + 1 day) 00:00) contains a
      time exactly when its date lies in [start, end]. */
  lemma WholeDayWindow(start: Date, end: Date, t: DateTime)
    requires ValidDate(start) && ValidDate(end) && ValidDateTime(t)
    ensures !IsBeforeTime(t, AtStartOfDay(start)) && IsBeforeTime(t, AtStartOfDay(PlusDays(end, 1)))
        <==> !IsBefore(t.date, start) && !IsAfter(t.date, end)
  {
    EpochDayOrder(t.date, start);
    EpochDayOrder(end, t.date);
    var e := EpochDay(t.date);
    if e < EpochDay(start) {
      assert e * NanosPerDay + t.nanoOfDay < EpochDay(start) * NanosPerDay;
    }
    if e > EpochDay(end) {
      assert e * NanosPerDay >= (EpochDay(end) + 1) * NanosPerDay;
    }
  }
}
