/**
 The proleptic Gregorian calendar: dates in year/month/day form, their day
 numbers (1 January of year 1 is day 1), and moving a date by whole months.
 */
module Calendar {
  datatype Raw = Raw(year: int, month: int, day: int)

  predicate IsLeap(year: int) { year % 4 == 0 && (year % 100 != 0 || year % 400 == 0) }

  function MonthLength(year: int, month: int): int
  {
    if month == 2 then (if IsLeap(year) then 29 else 28)
    else if month == 4 || month == 6 || month == 9 || month == 11 then 30
    else 31
  }

  type Date = d: Raw | 1 <= d.month <= 12 && 1 <= d.day <= MonthLength(d.year, d.month) witness Raw(1, 1, 1)

  predicate Before(a: Date, b: Date)
  {
    a.year < b.year || (a.year == b.year && (a.month < b.month || (a.month == b.month && a.day < b.day)))
  }

  // ------------------------------------------------------------ day numbers

  function DaysBeforeYear(year: int): int { (year - 1) * 365 + (year - 1) / 4 - (year - 1) / 100 + (year - 1) / 400 }

  function DaysBeforeMonth(year: int, month: int): int
    requires 1 <= month <= 12
    decreases month
  {
    if month == 1 then 0 else DaysBeforeMonth(year, month - 1) + MonthLength(year, month - 1)
  }

  /** date.toordinal */
  function Ordinal(d: Date): int { DaysBeforeYear(d.year) + DaysBeforeMonth(d.year, d.month) + d.day }

  function NextDay(d: Date): Date
  {
    if d.day < MonthLength(d.year, d.month) then Raw(d.year, d.month, d.day + 1)
    else if d.month < 12 then Raw(d.year, d.month + 1, 1)
    else Raw(d.year + 1, 1, 1)
  }

  function PreviousDay(d: Date): Date
  {
    if d.day > 1 then Raw(d.year, d.month, d.day - 1)
    else if d.month > 1 then Raw(d.year, d.month - 1, MonthLength(d.year, d.month - 1))
    else Raw(d.year - 1, 12, 31)
  }

  lemma Quotients(year: int)
    ensures year / 4 == (year - 1) / 4 + if year % 4 == 0 then 1 else 0
    ensures year / 100 == (year - 1) / 100 + if year % 100 == 0 then 1 else 0
    ensures year / 400 == (year - 1) / 400 + if year % 400 == 0 then 1 else 0
  {
  }

  lemma MultipleOfHundred(q: int)
    ensures (100 * q) % 100 == 0 && (100 * q) % 4 == 0
  {
    assert 100 * q == 4 * (25 * q);
  }

  lemma Multiples(year: int)
    ensures year % 400 == 0 ==> year % 100 == 0
    ensures year % 100 == 0 ==> year % 4 == 0
  {
    if year % 100 == 0 { MultipleOfHundred(year / 100); }
    if year % 400 == 0 { MultipleOfHundred(4 * (year / 400)); }
  }

  lemma YearLength(year: int)
    ensures DaysBeforeYear(year + 1) - DaysBeforeYear(year) == if IsLeap(year) then 366 else 365
  {
    Quotients(year);
    Multiples(year);
  }

  /** Months alternate between 31 and 30 days, starting afresh in August, but for
      February. */
  lemma MonthLengths(year: int, month: int)
    requires 1 <= month <= 12
    ensures month != 2 ==> MonthLength(year, month) == 30 + (month + month / 8) % 2
    ensures MonthLength(year, 2) == 28 + DaysBeforeYear(year + 1) - DaysBeforeYear(year) - 365
  {
    YearLength(year);
  }

  lemma YearsInCycle(year: int)
    ensures (year + 400) / 4 == year / 4 + 100
    ensures (year + 400) / 100 == year / 100 + 4
    ensures (year + 400) / 400 == year / 400 + 1
  {
  }

  /** The calendar repeats every 400 years, which have 146097 days; 1 January of
      year 1 is day 1. */
  lemma CycleOfYears(year: int)
    ensures DaysBeforeYear(year + 400) == DaysBeforeYear(year) + 146097
    ensures Ordinal(Raw(1, 1, 1)) == 1
  {
    YearsInCycle(year - 1);
    assert year + 400 - 1 == (year - 1) + 400;
  }

  lemma MonthsFillTheYear(year: int)
    ensures DaysBeforeMonth(year, 12) + 31 == if IsLeap(year) then 366 else 365
  {
    var feb := MonthLength(year, 2);
    assert DaysBeforeMonth(year, 3) == 31 + feb;
    assert DaysBeforeMonth(year, 6) == 31 + feb + 92;
    assert DaysBeforeMonth(year, 9) == 31 + feb + 184;
  }

  lemma NextDayIsOneMore(d: Date)
    ensures Ordinal(NextDay(d)) == Ordinal(d) + 1
  {
    YearLength(d.year);
    MonthsFillTheYear(d.year);
  }

  lemma PreviousDayIsOneLess(d: Date)
    ensures Ordinal(PreviousDay(d)) == Ordinal(d) - 1 && NextDay(PreviousDay(d)) == d
  {
    NextDayIsOneMore(PreviousDay(d));
  }

  lemma {:induction false} MonthsGrow(year: int, m1: int, m2: int)
    requires 1 <= m1 < m2 <= 12
    ensures DaysBeforeMonth(year, m1) + MonthLength(year, m1) <= DaysBeforeMonth(year, m2)
    decreases m2
  {
    if m1 < m2 - 1 { MonthsGrow(year, m1, m2 - 1); }
  }

  lemma {:induction false} YearsGrow(y1: int, y2: int)
    requires y1 < y2
    ensures DaysBeforeYear(y1) + (if IsLeap(y1) then 366 else 365) <= DaysBeforeYear(y2)
    decreases y2 - y1
  {
    YearLength(y1);
    if y1 + 1 < y2 { YearsGrow(y1 + 1, y2); }
  }

  lemma WithinYear(d: Date)
    ensures 1 <= DaysBeforeMonth(d.year, d.month) + d.day <= if IsLeap(d.year) then 366 else 365
  {
    MonthsFillTheYear(d.year);
    if d.month < 12 { MonthsGrow(d.year, d.month, 12); }
    if d.month > 1 { MonthsGrow(d.year, 1, d.month); }
  }

  lemma BeforeIsSmaller(a: Date, b: Date)
    requires Before(a, b)
    ensures Ordinal(a) < Ordinal(b)
  {
    if a.year < b.year {
      WithinYear(a);
      WithinYear(b);
      YearsGrow(a.year, b.year);
    } else if a.month < b.month {
      MonthsGrow(a.year, a.month, b.month);
    }
  }

  /** Comparing dates is comparing day numbers. */
  lemma OrdinalIsMonotone(a: Date, b: Date)
    ensures Before(a, b) <==> Ordinal(a) < Ordinal(b)
    ensures a == b <==> Ordinal(a) == Ordinal(b)
  {
    if Before(a, b) { BeforeIsSmaller(a, b); }
    if Before(b, a) { BeforeIsSmaller(b, a); }
  }

  /** date + timedelta(days) */
  function AddDays(d: Date, days: int): Date
    decreases if days < 0 then -days else days
  {
    if days == 0 then d
    else if days > 0 then NextDay(AddDays(d, days - 1))
    else PreviousDay(AddDays(d, days + 1))
  }

  lemma {:induction false} AddDaysAdds(d: Date, days: int)
    ensures Ordinal(AddDays(d, days)) == Ordinal(d) + days
    decreases if days < 0 then -days else days
  {
    if days > 0 {
      AddDaysAdds(d, days - 1);
      NextDayIsOneMore(AddDays(d, days - 1));
    } else if days < 0 {
      AddDaysAdds(d, days + 1);
      PreviousDayIsOneLess(AddDays(d, days + 1));
    }
  }

  /** date.fromordinal */
  function FromOrdinal(n: int): Date { AddDays(Raw(1, 1, 1), n - 1) }

  lemma FromOrdinalIs(n: int)
    ensures Ordinal(FromOrdinal(n)) == n
  {
    assert Ordinal(Raw(1, 1, 1)) == 1;
    AddDaysAdds(Raw(1, 1, 1), n - 1);
  }

  lemma OrdinalRoundTrip(d: Date)
    ensures FromOrdinal(Ordinal(d)) == d
  {
    FromOrdinalIs(Ordinal(d));
    OrdinalIsMonotone(FromOrdinal(Ordinal(d)), d);
  }

  predicate AtMost(a: Date, b: Date) { !Before(b, a) }

  /** Comparing a date with a numbered day. */
  lemma AtMostDay(d: Date, n: int)
    ensures AtMost(d, FromOrdinal(n)) <==> Ordinal(d) <= n
    ensures AtMost(FromOrdinal(n), d) <==> n <= Ordinal(d)
  {
    FromOrdinalIs(n);
    OrdinalIsMonotone(d, FromOrdinal(n));
    OrdinalIsMonotone(FromOrdinal(n), d);
  }

  lemma FromOrdinalMonotone(m: int, n: int)
    requires m <= n
    ensures AtMost(FromOrdinal(m), FromOrdinal(n))
  {
    FromOrdinalIs(m);
    AtMostDay(FromOrdinal(m), n);
  }

  // ------------------------------------------------------------ shifting by months

  datatype OnMissingDay = ClampBack | RollForward

  /** Months since year 0. */
  function MonthIndex(d: Date): int { 12 * d.year + d.month - 1 }

  /** shift_months */
  function ShiftMonths(anchor: Date, months: int, onMissingDay: OnMissingDay): Date
  {
    var total := anchor.month - 1 + months;
    var year, month := anchor.year + total / 12, total % 12 + 1;
    var lastDay := MonthLength(year, month);
    if anchor.day <= lastDay then Raw(year, month, anchor.day)
    else if onMissingDay == ClampBack then Raw(year, month, lastDay)
    else NextDay(Raw(year, month, lastDay))
  }

  function Smaller(a: int, b: int): int { if a <= b then a else b }

  /** What a shift is: the anchor's day in the target month when it exists; when
      it does not, the month's last day or the first day of the next month. */
  lemma ShiftMeaning(anchor: Date, months: int)
    ensures var back, forward := ShiftMonths(anchor, months, ClampBack), ShiftMonths(anchor, months, RollForward);
      && MonthIndex(back) == MonthIndex(anchor) + months
      && back.day == Smaller(anchor.day, MonthLength(back.year, back.month))
      && (back.day == anchor.day ==> forward == back)
      && (back.day != anchor.day ==> MonthIndex(forward) == MonthIndex(back) + 1 && forward.day == 1
                                     && Ordinal(forward) == Ordinal(back) + 1)
  {
    NextDayIsOneMore(ShiftMonths(anchor, months, ClampBack));
  }

  lemma ByMonthIndex(a: Date, b: Date)
    ensures MonthIndex(a) < MonthIndex(b) ==> Before(a, b)
    ensures MonthIndex(a) == MonthIndex(b) ==> a.year == b.year && a.month == b.month
  {
  }

  /** One more month is strictly later, under either policy. */
  lemma ShiftGrowsWithMonths(anchor: Date, m1: int, m2: int, policy: OnMissingDay)
    requires m1 < m2
    ensures Before(ShiftMonths(anchor, m1, policy), ShiftMonths(anchor, m2, policy))
  {
    ShiftMeaning(anchor, m1);
    ShiftMeaning(anchor, m2);
    var a, b := ShiftMonths(anchor, m1, policy), ShiftMonths(anchor, m2, policy);
    ByMonthIndex(a, b);
    assert MonthLength(b.year, b.month) >= 28;
  }

  /** A later anchor never lands earlier, under either policy. */
  lemma ShiftGrowsWithAnchor(a: Date, b: Date, months: int, policy: OnMissingDay)
    requires AtMost(a, b)
    ensures AtMost(ShiftMonths(a, months, policy), ShiftMonths(b, months, policy))
  {
    ShiftMeaning(a, months);
    ShiftMeaning(b, months);
    ByMonthIndex(a, b);
    ByMonthIndex(b, a);
    var x, y := ShiftMonths(a, months, ClampBack), ShiftMonths(b, months, ClampBack);
    ByMonthIndex(x, y);
    ByMonthIndex(ShiftMonths(a, months, policy), ShiftMonths(b, months, policy));
  }

  /** Moving forward by at least a month is strictly later. */
  lemma ShiftIsLater(anchor: Date, months: int, policy: OnMissingDay)
    requires months >= 1
    ensures Before(anchor, ShiftMonths(anchor, months, policy))
  {
    ShiftMeaning(anchor, months);
    ByMonthIndex(anchor, ShiftMonths(anchor, months, policy));
  }
}
