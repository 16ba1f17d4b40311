/** How many options of a grant have vested on a day. Options are counted in
    hundredths, the precision the engine rounds to. */
module Vesting {
  import opened Wrappers
  import opened Calendar

  // ------------------------------------------------------------ rounding

  /** The nearest integer to num/den, half to even. */
  function RoundDiv(num: int, den: int): int
    requires den > 0
  {
    var q, r := num / den, num % den;
    if 2 * r < den then q
    else if 2 * r > den then q + 1
    else if q % 2 == 0 then q else q + 1
  }

  lemma RoundDivIsNearest(num: int, den: int)
    requires den > 0
    ensures var q := RoundDiv(num, den);
      && -den <= 2 * (q * den - num) <= den
      && (2 * (q * den - num) == den || 2 * (q * den - num) == -den ==> q % 2 == 0)
  {
    var q, r := num / den, num % den;
    assert num == q * den + r;
    assert (q + 1) * den == q * den + den;
  }

  lemma MultiplyGap(q1: int, q2: int, den: int)
    requires den > 0 && q1 > q2
    ensures q1 * den >= q2 * den + den
  {
    assert (q1 - q2 - 1) * den >= 0;
    assert (q1 - q2 - 1) * den == q1 * den - q2 * den - den;
  }

  lemma RoundDivIsMonotone(a: int, b: int, den: int)
    requires den > 0 && a <= b
    ensures RoundDiv(a, den) <= RoundDiv(b, den)
  {
    var x, y := RoundDiv(a, den), RoundDiv(b, den);
    RoundDivIsNearest(a, den);
    RoundDivIsNearest(b, den);
    if x > y {
      MultiplyGap(x, y, den);
      assert a == b;
    }
  }

  lemma RoundDivExact(q: int, den: int)
    requires den > 0
    ensures RoundDiv(q * den, den) == q
  {
    var x := RoundDiv(q * den, den);
    RoundDivIsNearest(q * den, den);
    if x > q { MultiplyGap(x, q, den); }
    if x < q { MultiplyGap(q, x, den); }
  }

  // ------------------------------------------------------------ completed months

  /** _completed_months */
  function CompletedMonths(anchor: Date, target: Date): int
  {
    var raw := MonthIndex(target) - MonthIndex(anchor);
    if raw <= 0 then (if raw > 0 then raw else 0)
    else if Before(target, ShiftMonths(anchor, raw, ClampBack)) then raw - 1
    else raw
  }

  /** n months are complete exactly from the anchor shifted by n months. */
  lemma CompletedMonthsIff(anchor: Date, target: Date, n: int)
    requires n >= 1
    ensures CompletedMonths(anchor, target) >= n <==> AtMost(ShiftMonths(anchor, n, ClampBack), target)
  {
    var raw := MonthIndex(target) - MonthIndex(anchor);
    var due := ShiftMonths(anchor, n, ClampBack);
    ShiftMeaning(anchor, n);
    assert MonthIndex(due) - MonthIndex(target) == n - raw;
    if n > raw {
      ByMonthIndex(target, due);
    } else if n < raw {
      ByMonthIndex(due, target);
    }
  }

  lemma CompletedMonthsNonNegative(anchor: Date, target: Date)
    ensures CompletedMonths(anchor, target) >= 0
  {
  }

  /** Later targets and earlier anchors complete at least as many months. */
  lemma CompletedMonthsMonotone(a1: Date, a2: Date, t1: Date, t2: Date)
    requires AtMost(a2, a1) && AtMost(t1, t2)
    ensures CompletedMonths(a1, t1) <= CompletedMonths(a2, t2)
  {
    var n := CompletedMonths(a1, t1);
    if n >= 1 {
      CompletedMonthsIff(a1, t1, n);
      ShiftGrowsWithAnchor(a2, a1, n, ClampBack);
      CompletedMonthsIff(a2, t2, n);
    }
  }

  // ------------------------------------------------------------ vested options

  datatype Schedule = Schedule(start: Date, cliffMonths: int, totalMonths: int, pausedDays: int)

  function AdjustedStart(s: Schedule): Date { AddDays(s.start, s.pausedDays) }

  function CliffDate(s: Schedule): Date { ShiftMonths(AdjustedStart(s), s.cliffMonths, ClampBack) }

  /** calculate_vested_options */
  function Vested(total: int, s: Schedule, target: Date): int
  {
    if Before(target, CliffDate(s)) then 0
    else
      var months := CompletedMonths(AdjustedStart(s), target);
      if months >= s.totalMonths then total
      else CompletedMonthsNonNegative(AdjustedStart(s), target); RoundDiv(total * months, s.totalMonths)
  }

  lemma ShareOfTotal(total: int, months: int, totalMonths: int)
    requires total >= 0 && 0 <= months < totalMonths
    ensures 0 <= RoundDiv(total * months, totalMonths) <= total
  {
    assert 0 * totalMonths <= total * months <= total * totalMonths;
    RoundDivExact(0, totalMonths);
    RoundDivExact(total, totalMonths);
    RoundDivIsMonotone(0 * totalMonths, total * months, totalMonths);
    RoundDivIsMonotone(total * months, total * totalMonths, totalMonths);
  }

  lemma VestedBounds(total: int, s: Schedule, target: Date)
    requires total >= 0
    ensures 0 <= Vested(total, s, target) <= total
  {
    var months := CompletedMonths(AdjustedStart(s), target);
    CompletedMonthsNonNegative(AdjustedStart(s), target);
    if months < s.totalMonths { ShareOfTotal(total, months, s.totalMonths); }
  }

  lemma MoreMonthsVestMore(total: int, m1: int, m2: int, totalMonths: int)
    requires total >= 0 && 0 <= m1 <= m2 < totalMonths
    ensures RoundDiv(total * m1, totalMonths) <= RoundDiv(total * m2, totalMonths)
  {
    assert total * m1 <= total * m2;
    RoundDivIsMonotone(total * m1, total * m2, totalMonths);
  }

  /** Vesting never falls as the day advances, and never rises with more paused days. */
  lemma VestedMonotone(total: int, s: Schedule, paused1: int, paused2: int, t1: Date, t2: Date)
    requires total >= 0 && paused1 <= paused2 && AtMost(t1, t2)
    ensures Vested(total, s.(pausedDays := paused2), t1) <= Vested(total, s.(pausedDays := paused1), t2)
  {
    var late, early := s.(pausedDays := paused2), s.(pausedDays := paused1);
    var a1, a2 := AdjustedStart(late), AdjustedStart(early);
    AddDaysAdds(s.start, paused1);
    AddDaysAdds(s.start, paused2);
    OrdinalIsMonotone(a1, a2);
    ShiftGrowsWithAnchor(a2, a1, s.cliffMonths, ClampBack);
    CompletedMonthsMonotone(a1, a2, t1, t2);
    VestedBounds(total, late, t1);
    VestedBounds(total, early, t2);
    var m1, m2 := CompletedMonths(a1, t1), CompletedMonths(a2, t2);
    CompletedMonthsNonNegative(a1, t1);
    if m2 < s.totalMonths { MoreMonthsVestMore(total, m1, m2, s.totalMonths); }
  }

  /** On the cliff day at least the cliff's months are counted, so nothing the
      cliff held back is lost. */
  lemma CliffCountsItsMonths(s: Schedule)
    ensures CompletedMonths(AdjustedStart(s), CliffDate(s)) >= s.cliffMonths
  {
    if s.cliffMonths >= 1 { CompletedMonthsIff(AdjustedStart(s), CliffDate(s), s.cliffMonths); }
    CompletedMonthsNonNegative(AdjustedStart(s), CliffDate(s));
  }

  lemma AdjustedStartIs(s: Schedule, a: Date)
    requires Ordinal(a) == Ordinal(s.start) + s.pausedDays
    ensures AdjustedStart(s) == a
  {
    AddDaysAdds(s.start, s.pausedDays);
    OrdinalIsMonotone(AdjustedStart(s), a);
  }

  /** What has vested, from dates alone. With a the day that lies the paused days
      after the start: nothing before a plus the cliff; then everything once the
      last month from a is over, and before that, with n months over, n of
      totalMonths shares to the nearest hundredth, half to even. */
  lemma VestedIs(total: int, s: Schedule, a: Date, target: Date, n: nat)
    requires Ordinal(a) == Ordinal(s.start) + s.pausedDays
    ensures var vested, cliff := Vested(total, s, target), ShiftMonths(a, s.cliffMonths, ClampBack);
      && (Before(target, cliff) ==> vested == 0)
      && (AtMost(cliff, target) && (s.totalMonths >= 1 ==> AtMost(ShiftMonths(a, s.totalMonths, ClampBack), target))
          ==> vested == total)
      && (AtMost(cliff, target) && n < s.totalMonths && (n >= 1 ==> AtMost(ShiftMonths(a, n, ClampBack), target))
          && Before(target, ShiftMonths(a, n + 1, ClampBack))
          ==> NearestShare(vested, total, n, s.totalMonths))
  {
    AdjustedStartIs(s, a);
    CompletedMonthsNonNegative(a, target);
    CompletedMonthsIff(a, target, n + 1);
    if n >= 1 { CompletedMonthsIff(a, target, n); }
    if s.totalMonths >= 1 {
      CompletedMonthsIff(a, target, s.totalMonths);
      RoundDivIsNearest(total * n, s.totalMonths);
    }
  }

  ghost predicate NearestShare(vested: int, total: int, n: int, totalMonths: int)
  {
    var off := 2 * (vested * totalMonths - total * n);
    -totalMonths <= off <= totalMonths && (off == totalMonths || off == -totalMonths ==> vested % 2 == 0)
  }

  lemma SameFromAdjusted(total: int, s1: Schedule, s2: Schedule, target: Date)
    requires AdjustedStart(s1) == AdjustedStart(s2) && s1.cliffMonths == s2.cliffMonths
    requires s1.totalMonths == s2.totalMonths
    ensures Vested(total, s1, target) == Vested(total, s2, target) && FullDate(s1) == FullDate(s2)
    ensures total > 0 ==> FullDay(total, s1) == FullDay(total, s2)
  {
  }

  /** Paused days delay everything: they are worth a start that much later. */
  lemma PausesDelay(total: int, s: Schedule, later: Date, days: int, target: Date)
    requires Ordinal(later) == Ordinal(s.start) + days
    ensures var paused, delayed := s.(pausedDays := s.pausedDays + days), s.(start := later);
      && Vested(total, paused, target) == Vested(total, delayed, target)
      && FullDate(paused) == FullDate(delayed)
      && (total > 0 ==> FullDay(total, paused) == FullDay(total, delayed))
  {
    var delayed := s.(start := later);
    AddDaysAdds(later, s.pausedDays);
    AdjustedStartIs(s.(pausedDays := s.pausedDays + days), AdjustedStart(delayed));
    SameFromAdjusted(total, s.(pausedDays := s.pausedDays + days), delayed, target);
  }

  // ------------------------------------------------------------ the day everything has vested

  function Later(a: Date, b: Date): Date { if Before(a, b) then b else a }

  /** The day the cliff and the last month have both passed. */
  function FullDate(s: Schedule): Date
  {
    if s.totalMonths <= 0 then CliffDate(s)
    else Later(CliffDate(s), ShiftMonths(AdjustedStart(s), s.totalMonths, ClampBack))
  }

  /** What so many missing months are worth rounds away. */
  predicate RoundsAway(total: int, missing: int, totalMonths: int)
  {
    2 * total * missing < totalMonths || (2 * total * missing == totalMonths && total % 2 == 0)
  }

  lemma OneShort(total: int, q: int, num: int, totalMonths: int, gap: int)
    requires totalMonths > 0 && num == total * totalMonths - gap
    requires -totalMonths <= 2 * (q * totalMonths - num) <= totalMonths
    ensures q > total ==> 2 * gap <= -totalMonths
    ensures q == total ==> -totalMonths <= 2 * gap <= totalMonths && 2 * (q * totalMonths - num) == 2 * gap
    ensures q < total ==> 2 * gap >= totalMonths
    ensures q < total && 2 * gap == totalMonths ==> q == total - 1 && 2 * (q * totalMonths - num) == -totalMonths
  {
    if q > total { MultiplyGap(q, total, totalMonths); }
    if q < total {
      MultiplyGap(total, q, totalMonths);
      if q < total - 1 {
        MultiplyGap(total - 1, q, totalMonths);
        assert (total - 1) * totalMonths == total * totalMonths - totalMonths;
      }
    }
  }

  /** The exact share of all but some months rounds to the whole grant exactly
      when those months round away. */
  lemma RoundsUpIff(total: int, missing: int, totalMonths: int)
    requires total > 0 && totalMonths > 0 && missing >= 0
    ensures RoundDiv(total * (totalMonths - missing), totalMonths) >= total <==> RoundsAway(total, missing, totalMonths)
  {
    var num, gap := total * (totalMonths - missing), total * missing;
    var q := RoundDiv(num, totalMonths);
    assert num == total * totalMonths - gap;
    assert gap >= 0 && 2 * total * missing == 2 * gap;
    RoundDivIsNearest(num, totalMonths);
    OneShort(total, q, num, totalMonths, gap);
  }

  /** How many months of a grant rounding forgives: none, unless a month is worth
      at most half a hundredth. */
  function Forgiven(total: int, totalMonths: int): int
    requires total > 0
  {
    if totalMonths <= 0 then 0
    else if total % 2 == 0 then totalMonths / (2 * total)
    else (totalMonths - 1) / (2 * total)
  }

  lemma AtMostQuotient(x: int, d: int, m: int)
    requires d > 0
    ensures m <= x / d <==> m * d <= x
  {
    var q := x / d;
    assert q * d <= x < q * d + d;
    if m > q { MultiplyGap(m, q, d); }
    if m <= q { assert (q - m) * d >= 0; assert (q - m) * d == q * d - m * d; }
  }

  lemma ForgivenIff(total: int, missing: int, totalMonths: int)
    requires total > 0 && totalMonths > 0
    ensures missing <= Forgiven(total, totalMonths) <==> RoundsAway(total, missing, totalMonths)
  {
    AtMostQuotient(totalMonths, 2 * total, missing);
    AtMostQuotient(totalMonths - 1, 2 * total, missing);
    assert missing * (2 * total) == 2 * total * missing;
  }

  lemma NoneRoundsAway(total: int, totalMonths: int)
    requires totalMonths > 0
    ensures RoundsAway(total, 0, totalMonths)
  {
    assert 2 * total * 0 == 0;
  }

  lemma NotAllRoundAway(total: int, totalMonths: int)
    requires total > 0 && totalMonths > 0
    ensures !RoundsAway(total, totalMonths, totalMonths)
  {
    var all := total * totalMonths;
    assert all >= totalMonths by {
      assert (total - 1) * totalMonths >= 0;
      assert (total - 1) * totalMonths == all - totalMonths;
    }
    assert 2 * total * totalMonths == 2 * all;
  }

  lemma ForgivenBounds(total: int, totalMonths: int)
    requires total > 0 && totalMonths > 0
    ensures 0 <= Forgiven(total, totalMonths) < totalMonths
  {
    NoneRoundsAway(total, totalMonths);
    ForgivenIff(total, 0, totalMonths);
    NotAllRoundAway(total, totalMonths);
    ForgivenIff(total, totalMonths, totalMonths);
  }

  /** The later of the cliff and the last month but some. */
  function FullWithout(s: Schedule, forgiven: int): Date
  {
    if s.totalMonths <= 0 then CliffDate(s)
    else Later(CliffDate(s), ShiftMonths(AdjustedStart(s), s.totalMonths - forgiven, ClampBack))
  }

  /** The day a grant is full, rounding included. */
  function FullDay(total: int, s: Schedule): Date
    requires total > 0
  {
    FullWithout(s, Forgiven(total, s.totalMonths))
  }

  lemma ShareIsFullIff(total: int, months: int, totalMonths: int)
    requires total > 0 && 0 <= months < totalMonths
    ensures RoundDiv(total * months, totalMonths) >= total <==> months >= totalMonths - Forgiven(total, totalMonths)
  {
    RoundsUpIff(total, totalMonths - months, totalMonths);
    ForgivenIff(total, totalMonths - months, totalMonths);
  }

  lemma MonthsSuffice(total: int, months: int, totalMonths: int)
    requires total > 0 && totalMonths > 0 && months >= 0
    ensures (if months >= totalMonths then total else RoundDiv(total * months, totalMonths)) >= total
       <==> months >= totalMonths - Forgiven(total, totalMonths)
  {
    ForgivenBounds(total, totalMonths);
    if months < totalMonths { ShareIsFullIff(total, months, totalMonths); }
  }

  lemma AtLater(c: Date, x: Date, t: Date)
    ensures AtMost(Later(c, x), t) <==> AtMost(c, t) && AtMost(x, t)
  {
  }

  /** Any grant on any schedule is fully vested exactly from its full day on. */
  lemma FullyVestedIff(total: int, s: Schedule, target: Date)
    requires total > 0
    ensures Vested(total, s, target) >= total <==> AtMost(FullDay(total, s), target)
  {
    var months, needed := CompletedMonths(AdjustedStart(s), target), s.totalMonths - Forgiven(total, s.totalMonths);
    CompletedMonthsNonNegative(AdjustedStart(s), target);
    if s.totalMonths > 0 {
      ForgivenBounds(total, s.totalMonths);
      MonthsSuffice(total, months, s.totalMonths);
      CompletedMonthsIff(AdjustedStart(s), target, needed);
      AtLater(CliffDate(s), ShiftMonths(AdjustedStart(s), needed, ClampBack), target);
    }
  }

  /** The cliff does not hold the last month back, and that month rounds away. */
  predicate FullEarly(total: int, s: Schedule)
  {
    0 < s.totalMonths && s.cliffMonths < s.totalMonths && RoundsAway(total, 1, s.totalMonths)
  }

  lemma LaterOfShifts(anchor: Date, cliff: int, early: int, late: int)
    requires early <= late
    ensures var c, x, y := ShiftMonths(anchor, cliff, ClampBack), ShiftMonths(anchor, early, ClampBack),
                           ShiftMonths(anchor, late, ClampBack);
      && (Later(c, x) == Later(c, y) <==> early == late || late <= cliff)
      && (early < late && cliff < late ==> Before(Later(c, x), Later(c, y)))
  {
    if early < late { ShiftGrowsWithMonths(anchor, early, late, ClampBack); }
    if cliff < late { ShiftGrowsWithMonths(anchor, cliff, late, ClampBack); }
    if late < cliff { ShiftGrowsWithMonths(anchor, late, cliff, ClampBack); }
  }

  predicate CliffHolds(s: Schedule) { s.totalMonths <= 0 || s.totalMonths <= s.cliffMonths }

  lemma FullWithoutSame(s: Schedule, forgiven: int)
    requires forgiven >= 0 && CliffHolds(s)
    ensures FullWithout(s, forgiven) == FullDate(s)
  {
    if s.totalMonths > 0 { LaterOfShifts(AdjustedStart(s), s.cliffMonths, s.totalMonths - forgiven, s.totalMonths); }
  }

  lemma FullWithoutEarlier(s: Schedule, forgiven: int)
    requires forgiven > 0 && !CliffHolds(s)
    ensures Before(FullWithout(s, forgiven), FullDate(s))
  {
    LaterOfShifts(AdjustedStart(s), s.cliffMonths, s.totalMonths - forgiven, s.totalMonths);
  }

  lemma FullWithoutIsFullDateIff(s: Schedule, forgiven: int)
    requires forgiven >= 0
    ensures FullWithout(s, forgiven) == FullDate(s) <==> forgiven == 0 || CliffHolds(s)
    ensures forgiven > 0 && !CliffHolds(s) ==> Before(FullWithout(s, forgiven), FullDate(s))
  {
    if CliffHolds(s) {
      FullWithoutSame(s, forgiven);
    } else if forgiven > 0 {
      FullWithoutEarlier(s, forgiven);
    }
  }

  lemma ForgivesIff(total: int, totalMonths: int)
    requires total > 0 && totalMonths > 0
    ensures Forgiven(total, totalMonths) >= 0
    ensures Forgiven(total, totalMonths) >= 1 <==> RoundsAway(total, 1, totalMonths)
  {
    ForgivenBounds(total, totalMonths);
    ForgivenIff(total, 1, totalMonths);
  }

  lemma FullDayIsFullDateIff(total: int, s: Schedule)
    requires total > 0
    ensures FullDay(total, s) == FullDate(s) <==> !FullEarly(total, s)
    ensures FullEarly(total, s) ==> Before(FullDay(total, s), FullDate(s))
  {
    if s.totalMonths > 0 {
      ForgivesIff(total, s.totalMonths);
      FullWithoutIsFullDateIff(s, Forgiven(total, s.totalMonths));
    }
  }

  /** When the condition fails, the grant is full before cliff and last month
      have both passed. */
  lemma RoundedUpBeforeFullDate(total: int, s: Schedule)
    requires total > 0 && FullEarly(total, s)
    ensures Vested(total, s, FullDay(total, s)) >= total && Before(FullDay(total, s), FullDate(s))
  {
    FullyVestedIff(total, s, FullDay(total, s));
    FullDayIsFullDateIff(total, s);
  }

  ghost predicate FullFrom(total: int, s: Schedule, day: Date)
  {
    forall t: Date :: Vested(total, s, t) >= total <==> AtMost(day, t)
  }

  /** The exact condition: a grant is full exactly once the cliff and the last
      month have both passed, if and only if the cliff covers the whole schedule
      or the last month does not round away. */
  lemma FullDateExactIff(total: int, s: Schedule)
    requires total > 0
    ensures FullFrom(total, s, FullDate(s)) <==> !FullEarly(total, s)
  {
    FullDayIsFullDateIff(total, s);
    if FullEarly(total, s) {
      RoundedUpBeforeFullDate(total, s);
    } else {
      forall t: Date ensures Vested(total, s, t) >= total <==> AtMost(FullDate(s), t) { FullyVestedIff(total, s, t); }
    }
  }

  // ------------------------------------------------------------ leavers

  datatype Status = Active | OnLeave | Terminated | Deceased

  predicate HasLeft(status: Status) { status == Terminated || status == Deceased }

  datatype Employment = Employment(status: Status, termination: Option<int>)

  /** vesting_cutoff_date, on day numbers */
  function Cutoff(e: Employment, day: int): int
  {
    if HasLeft(e.status) && e.termination.Some? && e.termination.value < day then e.termination.value else day
  }

  /** What a grant has vested on a day, stopping at the leaving day. */
  function VestedOn(total: int, s: Schedule, e: Employment, day: int): int
  {
    Vested(total, s, FromOrdinal(Cutoff(e, day)))
  }

  /** It grows like anybody's until the leaving day of someone terminated or
      deceased, and stays as it is from then on. */
  lemma VestedOnIs(total: int, s: Schedule, e: Employment, day: int)
    ensures e.status == Active || e.status == OnLeave || e.termination.None? ==>
      VestedOn(total, s, e, day) == Vested(total, s, FromOrdinal(day))
    ensures (e.status == Terminated || e.status == Deceased) && e.termination.Some? ==>
      VestedOn(total, s, e, day)
      == Vested(total, s, FromOrdinal(if day <= e.termination.value then day else e.termination.value))
  {
  }

  lemma VestedBetween(total: int, s: Schedule, t1: Date, t2: Date)
    requires total >= 0 && AtMost(t1, t2)
    ensures 0 <= Vested(total, s, t1) <= Vested(total, s, t2) <= total
  {
    VestedMonotone(total, s, s.pausedDays, s.pausedDays, t1, t2);
    VestedBounds(total, s, t1);
    VestedBounds(total, s, t2);
  }

  lemma VestedOnMonotone(total: int, s: Schedule, e: Employment, d1: int, d2: int)
    requires total >= 0 && d1 <= d2
    ensures 0 <= VestedOn(total, s, e, d1) <= VestedOn(total, s, e, d2) <= total
  {
    FromOrdinalMonotone(Cutoff(e, d1), Cutoff(e, d2));
    VestedBetween(total, s, FromOrdinal(Cutoff(e, d1)), FromOrdinal(Cutoff(e, d2)));
  }

  lemma FullyVestedOnIff(total: int, s: Schedule, e: Employment, day: int)
    requires total > 0
    ensures VestedOn(total, s, e, day) >= total <==> Ordinal(FullDay(total, s)) <= Cutoff(e, day)
  {
    FullyVestedIff(total, s, FromOrdinal(Cutoff(e, day)));
    AtMostDay(FullDay(total, s), Cutoff(e, day));
  }

  // ------------------------------------------------------------ the trustee's lock

  const HOLDING_MONTHS := 24

  /** check_trustee_holding_period, on day numbers: the first free day, or None
      before any deposit. */
  function HoldingEnd(grantDay: int, deposit: Option<int>): Option<int>
  {
    if deposit.None? then None
    else
      var anchor := if grantDay > deposit.value then grantDay else deposit.value;
      Some(Ordinal(ShiftMonths(FromOrdinal(anchor), HOLDING_MONTHS, RollForward)))
  }

  /** The lock never ends before it would from either date alone. */
  lemma HoldingEndCoversBoth(grantDay: int, deposit: int)
    ensures var end := HoldingEnd(grantDay, Some(deposit)).value;
      && end >= Ordinal(ShiftMonths(FromOrdinal(grantDay), HOLDING_MONTHS, RollForward))
      && end >= Ordinal(ShiftMonths(FromOrdinal(deposit), HOLDING_MONTHS, RollForward))
      && end > grantDay && end > deposit
  {
    var anchor := if grantDay > deposit then grantDay else deposit;
    HoldingFrom(grantDay, anchor);
    HoldingFrom(deposit, anchor);
  }

  /** It ends when the later of the two ends. */
  lemma HoldingEndIs(grantDay: int, deposit: Option<int>)
    ensures HoldingEnd(grantDay, deposit).None? <==> deposit.None?
    ensures deposit.Some? ==>
      var end := HoldingEnd(grantDay, deposit).value;
      var fromGrant := Ordinal(ShiftMonths(FromOrdinal(grantDay), 24, RollForward));
      var fromDeposit := Ordinal(ShiftMonths(FromOrdinal(deposit.value), 24, RollForward));
      end == if fromGrant > fromDeposit then fromGrant else fromDeposit
  {
    if deposit.Some? { HoldingEndCoversBoth(grantDay, deposit.value); }
  }

  lemma HoldingFrom(day: int, anchor: int)
    requires day <= anchor
    ensures Ordinal(ShiftMonths(FromOrdinal(anchor), HOLDING_MONTHS, RollForward))
         >= Ordinal(ShiftMonths(FromOrdinal(day), HOLDING_MONTHS, RollForward)) > day
  {
    FromOrdinalMonotone(day, anchor);
    FromOrdinalIs(day);
    LockGrows(FromOrdinal(day), FromOrdinal(anchor));
  }

  lemma LockGrows(a: Date, b: Date)
    requires AtMost(a, b)
    ensures Ordinal(ShiftMonths(b, HOLDING_MONTHS, RollForward))
         >= Ordinal(ShiftMonths(a, HOLDING_MONTHS, RollForward)) > Ordinal(a)
  {
    ShiftGrowsWithAnchor(a, b, HOLDING_MONTHS, RollForward);
    ShiftIsLater(a, HOLDING_MONTHS, RollForward);
    OrdinalIsMonotone(ShiftMonths(b, HOLDING_MONTHS, RollForward), ShiftMonths(a, HOLDING_MONTHS, RollForward));
    OrdinalIsMonotone(a, ShiftMonths(a, HOLDING_MONTHS, RollForward));
  }
}
