/** The two notification rules that search the calendar for a vesting day. */
module Notifications {
  import opened Wrappers
  import opened Calendar
  import opened Vesting

  predicate IsFull(total: int, s: Schedule, e: Employment, day: int) { VestedOn(total, s, e, day) >= total }

  /** The first day from the schedule's start on which the grant can be full. */
  function FirstFull(total: int, s: Schedule): int
  {
    if total > 0 && Ordinal(FullDay(total, s)) > Ordinal(s.start) then Ordinal(FullDay(total, s)) else Ordinal(s.start)
  }

  /** Given that the grant is full today, it is full exactly from its full day on,
      whether or not its holder left since. */
  lemma FullUpToToday(total: int, s: Schedule, e: Employment, today: int, day: int)
    requires total >= 0 && IsFull(total, s, e, today) && Ordinal(s.start) <= day <= today
    ensures IsFull(total, s, e, day) <==> FirstFull(total, s) <= day
  {
    if total > 0 {
      FullyVestedOnIff(total, s, e, today);
      FullyVestedOnIff(total, s, e, day);
    } else {
      VestedOnMonotone(total, s, e, day, day);
    }
  }

  lemma FullByToday(total: int, s: Schedule, e: Employment, today: int)
    requires total >= 0 && IsFull(total, s, e, today)
    ensures FirstFull(total, s) == Ordinal(s.start) || FirstFull(total, s) <= today
  {
    if total > 0 { FullyVestedOnIff(total, s, e, today); }
  }

  /** The binary search: the first day from the schedule's start on which the
      grant is full, given that it is full today. */
  method FirstFullDay(total: int, s: Schedule, e: Employment, today: int) returns (day: int)
    requires total >= 0 && IsFull(total, s, e, today)
    ensures Ordinal(s.start) <= today ==>
      && Ordinal(s.start) <= day <= today && IsFull(total, s, e, day)
      && forall d :: Ordinal(s.start) <= d < day ==> !IsFull(total, s, e, d)
    ensures day == FirstFull(total, s)
  {
    var lo, hi := Ordinal(s.start), today;
    while lo < hi
      invariant Ordinal(s.start) <= today ==> Ordinal(s.start) <= lo <= hi <= today
      invariant Ordinal(s.start) > today ==> lo == Ordinal(s.start)
      invariant IsFull(total, s, e, hi)
      invariant forall d :: Ordinal(s.start) <= d < lo ==> !IsFull(total, s, e, d)
      decreases hi - lo
    {
      var mid := (lo + hi) / 2;
      if VestedOn(total, s, e, mid) >= total {
        hi := mid;
      } else {
        forall d | Ordinal(s.start) <= d <= mid ensures !IsFull(total, s, e, d) {
          VestedOnMonotone(total, s, e, d, mid);
        }
        lo := mid + 1;
      }
    }
    day := lo;
    FullByToday(total, s, e, today);
    if Ordinal(s.start) <= today {
      FullUpToToday(total, s, e, today, day);
      FullUpToToday(total, s, e, today, FirstFull(total, s));
    }
  }

  /** _rule_fully_vested_unexercised: the first full day, once it is at least
      leadDays ago and no request was made. */
  method FullyVestedUnexercised(
      total: int, schedule: Option<Schedule>, e: Employment, today: int, leadDays: int, hasRequest: bool)
    returns (r: Option<int>)
    requires total >= 0
    ensures r.Some? <==>
      && schedule.Some? && !hasRequest && IsFull(total, schedule.value, e, today)
      && today - FirstFull(total, schedule.value) >= leadDays
    ensures r.Some? ==> r.value == FirstFull(total, schedule.value)
  {
    if schedule.None? || hasRequest || VestedOn(total, schedule.value, e, today) < total { return None; }
    var day := FirstFullDay(total, schedule.value, e, today);
    r := if today - day < leadDays then None else Some(day);
  }

  lemma CliffNotBeforeAdjustedStart(s: Schedule)
    requires s.cliffMonths >= 0
    ensures AtMost(AdjustedStart(s), CliffDate(s))
  {
    var a := AdjustedStart(s);
    if s.cliffMonths >= 1 {
      ShiftIsLater(a, s.cliffMonths, ClampBack);
    } else {
      ShiftMeaning(a, 0);
      ByMonthIndex(a, CliffDate(s));
    }
  }

  lemma FullDayNotBeforeStart(total: int, s: Schedule)
    requires total > 0 && s.pausedDays >= 0 && s.cliffMonths >= 0
    ensures Ordinal(s.start) <= Ordinal(FullDay(total, s))
  {
    CliffNotBeforeAdjustedStart(s);
    AddDaysAdds(s.start, s.pausedDays);
    OrdinalIsMonotone(CliffDate(s), AdjustedStart(s));
    OrdinalIsMonotone(FullDay(total, s), CliffDate(s));
  }

  /** With pauses and cliff nonnegative the search answers the later of the cliff
      and the last month, if and only if the last month does not round away. */
  lemma SearchFindsFullDateIff(total: int, s: Schedule)
    requires total > 0 && s.pausedDays >= 0 && s.cliffMonths >= 0
    ensures FirstFull(total, s) == Ordinal(FullDay(total, s))
    ensures FirstFull(total, s) == Ordinal(FullDate(s)) <==> !FullEarly(total, s)
  {
    FullDayNotBeforeStart(total, s);
    FullDayIsFullDateIff(total, s);
    OrdinalIsMonotone(FullDay(total, s), FullDate(s));
  }

  /** _rule_vesting_event_near: the first day of the window on which vesting grows. */
  method VestingEventNear(total: int, schedule: Option<Schedule>, e: Employment, today: int, leadDays: int)
    returns (r: Option<int>)
    requires total >= 0
    ensures schedule.None? || schedule.value.totalMonths == 0 || IsFull(total, schedule.value, e, today) ==> r == None
    ensures r.Some? ==>
      && today < r.value <= today + leadDays
      && VestedOn(total, schedule.value, e, r.value) > VestedOn(total, schedule.value, e, today)
      && forall d :: today <= d < r.value ==>
          VestedOn(total, schedule.value, e, d) == VestedOn(total, schedule.value, e, today)
    ensures schedule.Some? && schedule.value.totalMonths != 0 && !IsFull(total, schedule.value, e, today) ==>
      leadDays >= 0 ==>
      (r.None? <==> VestedOn(total, schedule.value, e, today + leadDays) == VestedOn(total, schedule.value, e, today))
    ensures HasLeft(e.status) && e.termination.Some? && e.termination.value <= today ==> r == None
  {
    if schedule.None? || schedule.value.totalMonths == 0 { return None; }
    var s := schedule.value;
    var now := VestedOn(total, s, e, today);
    if now >= total { return None; }
    var offset := 1;
    while offset <= leadDays
      invariant offset >= 1 && (leadDays >= 0 ==> offset <= leadDays + 1)
      invariant forall d :: today <= d < today + offset ==> VestedOn(total, s, e, d) == now
      decreases leadDays - offset
    {
      var future := today + offset;
      VestedOnMonotone(total, s, e, today, future);
      if VestedOn(total, s, e, future) > now {
        VestedOnMonotone(total, s, e, future, today + leadDays);
        return Some(future);
      }
      offset := offset + 1;
    }
    r := None;
  }
}
