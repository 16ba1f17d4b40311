/** The dashboard's forward vesting curve. */
module Dashboard {
  import opened Wrappers
  import opened Calendar
  import opened Vesting

  const HORIZON_MONTHS := 36

  datatype Holding = Holding(total: int, schedule: Option<Schedule>, job: Employment)

  datatype Point = Point(date: Date, vested: int)

  /** _monthly_grid: the first of this month and of every month after it. */
  function GridDate(start: Date, i: nat): Date { ShiftMonths(Raw(start.year, start.month, 1), i, ClampBack) }

  /** What the first n grants have vested on a day; a grant without a schedule is
      left out. */
  function Cumulative(grants: seq<Holding>, day: int, n: nat): int
    requires n <= |grants|
  {
    if n == 0 then 0
    else
      var g := grants[n - 1];
      Cumulative(grants, day, n - 1) + if g.schedule.Some? then VestedOn(g.total, g.schedule.value, g.job, day) else 0
  }

  function Granted(grants: seq<Holding>, n: nat): int
    requires n <= |grants|
  {
    if n == 0 then 0 else Granted(grants, n - 1) + grants[n - 1].total
  }

  /** It adds up over the grants, each by itself; one without a schedule counts for nothing. */
  lemma {:induction false} CumulativeAdds(a: seq<Holding>, b: seq<Holding>, day: int, n: nat)
    requires n <= |b|
    ensures Cumulative(a + b, day, |a| + n) == Cumulative(a, day, |a|) + Cumulative(b, day, n)
  {
    if n > 0 {
      CumulativeAdds(a, b, day, n - 1);
    } else {
      SamePrefix(a, b, day, |a|);
    }
  }

  lemma {:induction false} SamePrefix(a: seq<Holding>, b: seq<Holding>, day: int, n: nat)
    requires n <= |a|
    ensures Cumulative(a + b, day, n) == Cumulative(a, day, n)
  {
    if n > 0 { SamePrefix(a, b, day, n - 1); }
  }

  lemma CumulativeOfOne(g: Holding, day: int)
    ensures Cumulative([g], day, 1)
         == if g.schedule.None? then 0 else VestedOn(g.total, g.schedule.value, g.job, day)
  {
  }

  /** Any set of grants, schedules and leavers only ever vests more, up to the
      total granted. */
  lemma {:induction false} CumulativeGrows(grants: seq<Holding>, d1: int, d2: int, n: nat)
    requires d1 <= d2 && n <= |grants| && forall g :: g in grants ==> g.total >= 0
    ensures 0 <= Cumulative(grants, d1, n) <= Cumulative(grants, d2, n) <= Granted(grants, n)
  {
    if n > 0 {
      CumulativeGrows(grants, d1, d2, n - 1);
      var g := grants[n - 1];
      if g.schedule.Some? { VestedOnMonotone(g.total, g.schedule.value, g.job, d1, d2); }
    }
  }

  /** The grid holds the first of consecutive months. */
  lemma GridIncreases(start: Date, i: nat, j: nat)
    requires i < j
    ensures Before(GridDate(start, i), GridDate(start, j)) && Ordinal(GridDate(start, i)) < Ordinal(GridDate(start, j))
    ensures GridDate(start, i).day == 1 && MonthIndex(GridDate(start, i)) == MonthIndex(start) + i
  {
    var anchor: Date := Raw(start.year, start.month, 1);
    ShiftGrowsWithMonths(anchor, i, j, ClampBack);
    ShiftMeaning(anchor, i);
    OrdinalIsMonotone(GridDate(start, i), GridDate(start, j));
  }

  lemma CurveGrows(grants: seq<Holding>, today: Date, i: nat, j: nat)
    requires i < j && forall g :: g in grants ==> g.total >= 0
    ensures Before(GridDate(today, i), GridDate(today, j))
    ensures Cumulative(grants, Ordinal(GridDate(today, i)), |grants|)
         <= Cumulative(grants, Ordinal(GridDate(today, j)), |grants|) <= Granted(grants, |grants|)
  {
    GridIncreases(today, i, j);
    CumulativeGrows(grants, Ordinal(GridDate(today, i)), Ordinal(GridDate(today, j)), |grants|);
  }

  /** Each point holds its date and what has vested by then. */
  ghost predicate OnCurve(points: seq<Point>, grants: seq<Holding>, today: Date)
  {
    forall k :: 0 <= k < |points| ==>
      points[k] == Point(GridDate(today, k), Cumulative(grants, Ordinal(GridDate(today, k)), |grants|))
  }

  /** Dates increase, and values never fall nor exceed the bound. */
  ghost predicate Growing(points: seq<Point>, bound: int)
  {
    forall i, j :: 0 <= i < j < |points| ==>
      Before(points[i].date, points[j].date) && points[i].vested <= points[j].vested <= bound
  }

  lemma PointsGrow(points: seq<Point>, grants: seq<Holding>, today: Date)
    requires OnCurve(points, grants, today) && forall g :: g in grants ==> g.total >= 0
    ensures Growing(points, Granted(grants, |grants|))
  {
    forall i, j | 0 <= i < j < |points|
      ensures Before(points[i].date, points[j].date)
          && points[i].vested <= points[j].vested <= Granted(grants, |grants|)
    {
      CurveGrows(grants, today, i, j);
    }
  }

  /** The curve of build_dashboard. */
  method ForwardCurve(grants: seq<Holding>, today: Date) returns (points: seq<Point>, degraded: set<nat>)
    requires forall g :: g in grants ==> g.total >= 0
    ensures |points| == 37
    ensures OnCurve(points, grants, today)
    ensures Growing(points, Granted(grants, |grants|))
    ensures forall g: nat :: g in degraded <==> g < |grants| && grants[g].schedule.None?
  {
    points, degraded := [], {};
    for i := 0 to HORIZON_MONTHS + 1
      invariant |points| == i
      invariant OnCurve(points, grants, today)
      invariant forall g: nat :: g in degraded <==> i > 0 && g < |grants| && grants[g].schedule.None?
    {
      var date := GridDate(today, i);
      var cumulative := 0;
      for n := 0 to |grants|
        invariant cumulative == Cumulative(grants, Ordinal(date), n)
        invariant forall g: nat :: g in degraded <==> (i > 0 || g < n) && g < |grants| && grants[g].schedule.None?
      {
        if grants[n].schedule.None? {
          degraded := degraded + {n};
        } else {
          cumulative := cumulative + VestedOn(grants[n].total, grants[n].schedule.value, grants[n].job, Ordinal(date));
        }
      }
      points := points + [Point(date, cumulative)];
    }
    PointsGrow(points, grants, today);
  }
}
