/** Unpaid-leave pauses on a vesting schedule. */
module Pauses {
  import opened Wrappers
  import opened Ledger
  import opened BaseFold

  datatype SchedulePayload =
    | Base(start: int, cliffMonths: int, totalMonths: int, paused: int)
    | Pause(from: int, upTo: int, days: int)

  type ScheduleEvent = Event<SchedulePayload>

  datatype ScheduleState = ScheduleState(start: int, cliffMonths: int, totalMonths: int, paused: int)

  // ------------------------------------------------------------ the fold

  function Step(state: Option<ScheduleState>, p: SchedulePayload): Option<ScheduleState>
  {
    match p
    case Base(start, cliffMonths, totalMonths, paused) => Some(ScheduleState(start, cliffMonths, totalMonths, paused))
    case Pause(_, _, days) =>
      if state.None? then None else Some(state.value.(paused := state.value.paused + days))
  }

  function Fold(es: seq<ScheduleEvent>): Option<ScheduleState>
  {
    if es == [] then None else Step(Fold(es[..|es| - 1]), es[|es| - 1].payload)
  }

  /** project_vesting_schedule */
  method ProjectVestingSchedule(es: seq<ScheduleEvent>) returns (state: Option<ScheduleState>)
    ensures state == Fold(es)
  {
    state := None;
    for i := 0 to |es|
      invariant state == Fold(es[..i])
    {
      assert es[..i + 1][..i] == es[..i];
      match es[i].payload
      case Base(start, cliffMonths, totalMonths, paused) =>
        state := Some(ScheduleState(start, cliffMonths, totalMonths, paused));
      case Pause(_, _, days) =>
        if state != None { state := Some(state.value.(paused := state.value.paused + days)); }
    }
    assert es[..|es|] == es;
  }

  function Read(p: SchedulePayload): Part<ScheduleState>
  {
    match p
    case Base(start, cliffMonths, totalMonths, paused) => Start(ScheduleState(start, cliffMonths, totalMonths, paused))
    case Pause(_, _, days) => Change(days)
  }

  function Shown(t: Option<Tally<ScheduleState>>): Option<ScheduleState>
  {
    if t.None? then None else Some(t.value.base.(paused := t.value.base.paused + t.value.net))
  }

  /** The fold adds to its base's paused days the pauses it counts. */
  lemma {:induction false} FoldIsTally(es: seq<ScheduleEvent>)
    ensures Fold(es) == Shown(Tallied(es, Read))
  {
    if es != [] { FoldIsTally(es[..|es| - 1]); }
  }

  // ------------------------------------------------------------ recording

  datatype Row = Row(start: int, paused: int)

  /** A grant: the company of its pool, and its schedule if it has one. */
  datatype GrantRef = GrantRef(company: nat, schedule: Option<nat>)

  datatype Table = Table(grants: seq<GrantRef>, rows: seq<Row>, log: seq<ScheduleEvent>, now: int)

  datatype Refusal = NotFound | Forbidden | NoSchedule | NotAfterStart | Overlaps(from: int, upTo: int)

  predicate Overlap(from: int, upTo: int, e: ScheduleEvent)
  {
    e.payload.Pause? && from < e.payload.upTo && e.payload.from < upTo
  }

  ghost predicate Clashes(t: Table, id: nat, from: int, upTo: int)
  {
    exists e :: e in EventsFor(t.log, id, EVERYTHING) && Overlap(from, upTo, e)
  }

  function Recorded(t: Table, id: nat, from: int, upTo: int): Table
    requires id < |t.rows|
  {
    t.(rows := t.rows[id := t.rows[id].(paused := t.rows[id].paused + (upTo - from))],
       log := Append(t.log, id, Pause(from, upTo, upTo - from), upTo, t.now))
  }

  // ------------------------------------------------------------ the invariant

  ghost predicate Disjoint(h: seq<ScheduleEvent>)
  {
    forall i, j :: 0 <= i < j < |h| && h[i].payload.Pause? && h[j].payload.Pause? ==>
        !Overlap(h[i].payload.from, h[i].payload.upTo, h[j])
  }

  ghost predicate ProperPause(e: ScheduleEvent)
  {
    e.payload.Pause? && e.payload.from < e.payload.upTo && e.payload.days == e.payload.upTo - e.payload.from
    && e.effective == e.payload.upTo
  }

  ghost predicate Tidy(t: Table, id: nat)
    requires id < |t.rows|
  {
    var h := History(t.log, id);
    && h != [] && h[0].payload.Base? && h[0].effective == h[0].payload.start == t.rows[id].start
    && (forall k :: 1 <= k < |h| ==> ProperPause(h[k]))
    && Disjoint(h)
    && t.rows[id].paused == h[0].payload.paused + Sum(h, Net(Read))
  }

  ghost predicate AllTidy(t: Table)
  {
    Numbered(t.log)
    && (forall id: nat :: id >= |t.rows| ==> History(t.log, id) == [])
    && forall id: nat :: id < |t.rows| ==> Tidy(t, id)
  }

  lemma ClashesInHistory(t: Table, id: nat, from: int, upTo: int)
    ensures Clashes(t, id, from, upTo) <==> exists e :: e in History(t.log, id) && Overlap(from, upTo, e)
  {
    EventsForEverything(t.log, id);
    forall e
      ensures e in EventsFor(t.log, id, EVERYTHING) <==> e in History(t.log, id)
    {
      SortMembers(History(t.log, id), e);
    }
  }

  /** Recording a pause that clashes with none keeps every schedule tidy. */
  lemma RecordedTidy(t: Table, id: nat, from: int, upTo: int)
    requires AllTidy(t) && id < |t.rows| && from < upTo && !Clashes(t, id, from, upTo)
    ensures AllTidy(Recorded(t, id, from, upTo))
  {
    var t' := Recorded(t, id, from, upTo);
    var h, e := History(t.log, id), t'.log[|t.log|];
    AppendNumbers(t.log, e);
    SumAppend(h, e, Net(Read));
    NetOf(e);
    ClashesInHistory(t, id, from, upTo);
    forall i: nat | i < |t'.rows| ensures Tidy(t', i) {
      assert Tidy(t, i);
      if i == id {
        forall k | 0 <= k < |h| && h[k].payload.Pause? ensures !Overlap(h[k].payload.from, h[k].payload.upTo, e) {
          assert h[k] in h;
        }
      }
    }
  }

  // ------------------------------------------------------------ runs

  /** The grant and schedule create_grant adds, with its base event on the start
      day. Imported grants may lack a schedule. */
  function Attached(t: Table, company: nat, start: int, cliffMonths: int, totalMonths: int): Table
  {
    t.(grants := t.grants + [GrantRef(company, Some(|t.rows|))],
       rows := t.rows + [Row(start, 0)],
       log := Append(t.log, |t.rows|, Base(start, cliffMonths, totalMonths, 0), start, t.now))
  }

  /** The schedule a pause would go to, or why it is refused. */
  ghost function Paused(t: Table, company: nat, grant: nat, from: int, upTo: int): Result<nat, Refusal>
  {
    if grant >= |t.grants| then Err(NotFound)
    else if t.grants[grant].company != company then Err(Forbidden)
    else if t.grants[grant].schedule.None? || t.grants[grant].schedule.value >= |t.rows| then Err(NoSchedule)
    else if upTo <= from then Err(NotAfterStart)
    else
      var id := t.grants[grant].schedule.value;
      if Clashes(t, id, from, upTo) then
        var e := FirstClash(EventsFor(t.log, id, EVERYTHING), from, upTo);
        Err(Overlaps(e.payload.from, e.payload.upTo))
      else Ok(id)
  }

  function FirstClash(es: seq<ScheduleEvent>, from: int, upTo: int): (e: ScheduleEvent)
    requires exists e :: e in es && Overlap(from, upTo, e)
    ensures e in es && Overlap(from, upTo, e)
  {
    if Overlap(from, upTo, es[0]) then es[0] else FirstClash(es[1..], from, upTo)
  }

  /** Exactly when a pause is recorded: the grant is the company's and has a
      schedule, and the pause is nonempty and overlaps none recorded before. A
      refusal for overlapping names one that does. */
  lemma PauseAcceptedIff(t: Table, company: nat, grant: nat, from: int, upTo: int)
    ensures Paused(t, company, grant, from, upTo).Ok? <==>
      && grant < |t.grants| && t.grants[grant].company == company
      && t.grants[grant].schedule.Some? && t.grants[grant].schedule.value < |t.rows| && from < upTo
      && forall e :: e in History(t.log, t.grants[grant].schedule.value) ==> !Overlap(from, upTo, e)
    ensures var r := Paused(t, company, grant, from, upTo);
      r.Err? && r.error.Overlaps? ==>
        && grant < |t.grants| && t.grants[grant].schedule.Some?
        && exists e :: e in History(t.log, t.grants[grant].schedule.value) && Overlap(from, upTo, e)
                       && e.payload.from == r.error.from && e.payload.upTo == r.error.upTo
  {
    if grant < |t.grants| && t.grants[grant].schedule.Some? {
      var id := t.grants[grant].schedule.value;
      ClashesInHistory(t, id, from, upTo);
      EventsForEverything(t.log, id);
      if Clashes(t, id, from, upTo) {
        SortMembers(History(t.log, id), FirstClash(EventsFor(t.log, id, EVERYTHING), from, upTo));
      }
    }
  }

  /** Any other refusal names what stood in the way. */
  lemma RefusalTells(t: Table, company: nat, grant: nat, from: int, upTo: int)
    requires Paused(t, company, grant, from, upTo).Err?
    ensures match Paused(t, company, grant, from, upTo).error
      case NotFound => grant >= |t.grants|
      case Forbidden => grant < |t.grants| && t.grants[grant].company != company
      case NoSchedule =>
        grant < |t.grants| && (t.grants[grant].schedule.None? || t.grants[grant].schedule.value >= |t.rows|)
      case NotAfterStart => upTo <= from
      case Overlaps(_, _) => true
  {
  }

  datatype Op =
    | AttachOp(company: nat, start: int, cliffMonths: int, totalMonths: int)
    | PauseOp(company: nat, grant: nat, from: int, upTo: int)
    | ClockOp(instants: nat)

  ghost function Apply(t: Table, op: Op): Table
  {
    match op
    case AttachOp(company, start, cliffMonths, totalMonths) => Attached(t, company, start, cliffMonths, totalMonths)
    case PauseOp(company, grant, from, upTo) =>
      var r := Paused(t, company, grant, from, upTo);
      if r.Ok? then Recorded(t, r.value, from, upTo) else t
    case ClockOp(instants) => t.(now := t.now + instants)
  }

  ghost function Run(t: Table, ops: seq<Op>): Table
  {
    if ops == [] then t else Apply(Run(t, ops[..|ops| - 1]), ops[|ops| - 1])
  }

  lemma RunAppend(t: Table, ops: seq<Op>, op: Op)
    ensures Run(t, ops + [op]) == Apply(Run(t, ops), op)
  {
    assert (ops + [op])[..|ops|] == ops;
  }

  lemma AttachedTidy(t: Table, company: nat, start: int, cliffMonths: int, totalMonths: int)
    requires AllTidy(t)
    ensures AllTidy(Attached(t, company, start, cliffMonths, totalMonths))
  {
    var t', n := Attached(t, company, start, cliffMonths, totalMonths), |t.rows|;
    var e := t'.log[|t.log|];
    AppendNumbers(t.log, e);
    assert [] + [e] == [e];
    SumOne(e, Net(Read));
    NetOf(e);
    forall i: nat | i < |t'.rows| ensures Tidy(t', i) {
      if i < n { assert Tidy(t, i); }
    }
  }

  /** Over every run the recorded pauses of each schedule stay proper and
      pairwise disjoint, and its column is the base plus their days. */
  lemma {:induction false} PausesStayDisjoint(t: Table, ops: seq<Op>)
    requires AllTidy(t)
    ensures AllTidy(Run(t, ops))
  {
    if ops != [] {
      var before, op := Run(t, ops[..|ops| - 1]), ops[|ops| - 1];
      PausesStayDisjoint(t, ops[..|ops| - 1]);
      match op
      case AttachOp(company, start, cliffMonths, totalMonths) =>
        AttachedTidy(before, company, start, cliffMonths, totalMonths);
      case PauseOp(company, grant, from, upTo) =>
        var r := Paused(before, company, grant, from, upTo);
        if r.Ok? { RecordedTidy(before, r.value, from, upTo); }
      case ClockOp(_) =>
        forall i: nat | i < |before.rows| ensures Tidy(Run(t, ops), i) { assert Tidy(before, i); }
    }
  }

  /** The clock never goes back. */
  lemma {:induction false} ClockNeverGoesBack(t: Table, ops: seq<Op>)
    ensures Run(t, ops).now >= t.now
  {
    if ops != [] { ClockNeverGoesBack(t, ops[..|ops| - 1]); }
  }

  // ------------------------------------------------------------ distinct days

  /** The days from, from + 1, ..., upTo - 1. */
  function Span(from: int, upTo: int): set<int>
    decreases upTo - from
  {
    if from >= upTo then {} else Span(from, upTo - 1) + {upTo - 1}
  }

  lemma {:induction false} SpanIs(from: int, upTo: int)
    ensures forall d :: d in Span(from, upTo) <==> from <= d < upTo
    ensures from <= upTo ==> |Span(from, upTo)| == upTo - from
    decreases upTo - from
  {
    if from < upTo { SpanIs(from, upTo - 1); }
  }

  /** Two nonempty pauses overlap exactly when they share a day. */
  lemma OverlapIff(from: int, upTo: int, e: ScheduleEvent)
    requires from < upTo && e.payload.Pause? && e.payload.from < e.payload.upTo
    ensures Overlap(from, upTo, e)
       <==> exists day :: day in Span(from, upTo) && day in Span(e.payload.from, e.payload.upTo)
    ensures forall day :: day in Span(from, upTo) <==> from <= day < upTo
  {
    SpanIs(from, upTo);
    SpanIs(e.payload.from, e.payload.upTo);
    if Overlap(from, upTo, e) {
      var day := if from < e.payload.from then e.payload.from else from;
      assert day in Span(from, upTo) && day in Span(e.payload.from, e.payload.upTo);
    }
  }

  /** The calendar days some pause covers. */
  function Covered(h: seq<ScheduleEvent>): set<int>
  {
    if h == [] then {}
    else
      var last := h[|h| - 1].payload;
      Covered(h[..|h| - 1]) + if last.Pause? then Span(last.from, last.upTo) else {}
  }

  lemma {:induction false} CoveredBy(h: seq<ScheduleEvent>, d: int)
    ensures d in Covered(h) <==> exists e :: e in h && e.payload.Pause? && e.payload.from <= d < e.payload.upTo
  {
    if h != [] {
      assert h == h[..|h| - 1] + [h[|h| - 1]];
      CoveredBy(h[..|h| - 1], d);
      if h[|h| - 1].payload.Pause? { SpanIs(h[|h| - 1].payload.from, h[|h| - 1].payload.upTo); }
    }
  }

  lemma NetOf(e: ScheduleEvent)
    ensures Net(Read)(e) == if e.payload.Pause? then e.payload.days else 0
    ensures forall day :: NetBefore(Read, day)(e) == if e.effective < day then Net(Read)(e) else 0
  {
    assert Net(Read)(e) == Amount(Read(e.payload));
  }

  lemma {:induction false} DistinctDays(h: seq<ScheduleEvent>)
    requires Disjoint(h) && forall e :: e in h ==> e.payload.Base? || ProperPause(e)
    ensures |Covered(h)| == Sum(h, Net(Read))
  {
    if h != [] {
      var init, e := h[..|h| - 1], h[|h| - 1];
      DistinctDays(init);
      NetOf(e);
      if e.payload.Pause? {
        var span := Span(e.payload.from, e.payload.upTo);
        SpanIs(e.payload.from, e.payload.upTo);
        forall d | d in span ensures d !in Covered(init) { CoveredBy(init, d); }
        assert Covered(init) !! span;
      }
    }
  }

  /** The paused total is what it started at plus the number of distinct
      calendar days on leave. */
  lemma PausedIsDaysCovered(t: Table, id: nat)
    requires AllTidy(t) && id < |t.rows|
    ensures var h := History(t.log, id);
      h != [] && h[0].payload.Base? && t.rows[id].paused - h[0].payload.paused == |Covered(h)|
  {
    assert Tidy(t, id);
    DistinctDays(History(t.log, id));
  }

  // ------------------------------------------------------------ column against the ledger

  lemma {:induction false} EarlyDays(h: seq<ScheduleEvent>, day: int)
    requires forall e :: e in h ==> e.payload.Base? || ProperPause(e)
    ensures Sum(h, NetBefore(Read, day)) >= 0
    ensures Sum(h, NetBefore(Read, day)) == 0 <==> forall e :: e in h && e.payload.Pause? ==> e.payload.upTo >= day
  {
    if h != [] {
      assert h == h[..|h| - 1] + [h[|h| - 1]];
      EarlyDays(h[..|h| - 1], day);
      NetOf(h[|h| - 1]);
    }
  }

  /** The fold gives the stored total exactly when every pause ends on or after
      the schedule's start; a pause that ends earlier is counted by the column
      and skipped by the fold. */
  lemma FoldAgreesIff(t: Table, id: nat)
    requires AllTidy(t) && id < |t.rows|
    ensures Fold(EventsFor(t.log, id, EVERYTHING)).Some?
    ensures Fold(EventsFor(t.log, id, EVERYTHING)).value.paused == t.rows[id].paused
      <==> forall e :: e in History(t.log, id) && e.payload.Pause? ==> e.payload.upTo >= t.rows[id].start
  {
    var h := History(t.log, id);
    assert Tidy(t, id);
    HistoryFold(t.log, id, Read);
    FoldIsTally(EventsFor(t.log, id, EVERYTHING));
    SplitNet(h, Read, h[0].effective);
    EarlyDays(h, h[0].effective);
  }

  /** What recording a pause stores: its days in the column and one event dated on
      its end. */
  lemma PauseStores(t: Table, id: nat, from: int, upTo: int)
    requires AllTidy(t) && id < |t.rows|
    ensures var t' := Recorded(t, id, from, upTo);
      && t'.rows == t.rows[id := Row(t.rows[id].start, t.rows[id].paused + upTo - from)]
      && History(t'.log, id) == History(t.log, id)
         + [Event(id, Pause(from, upTo, upTo - from), upTo, t.now, |History(t.log, id)| + 1)]
      && (forall k: nat :: k != id ==> History(t'.log, k) == History(t.log, k))
      && t' == t.(rows := t'.rows, log := t'.log)
  {
    AppendNumbers(t.log, Recorded(t, id, from, upTo).log[|t.log|]);
    NextSeqCounts(t.log, id);
  }

  /** What attaching a schedule stores: an unpaused row and its base event, dated on
      the start. */
  lemma ScheduleStores(t: Table, company: nat, start: int, cliffMonths: int, totalMonths: int)
    requires AllTidy(t)
    ensures var t', n := Attached(t, company, start, cliffMonths, totalMonths), |t.rows|;
      && t'.grants == t.grants + [GrantRef(company, Some(n))] && t'.rows == t.rows + [Row(start, 0)]
      && History(t'.log, n) == [Event(n, Base(start, cliffMonths, totalMonths, 0), start, t.now, 1)]
      && (forall k: nat :: k != n ==> History(t'.log, k) == History(t.log, k))
      && t' == t.(grants := t'.grants, rows := t'.rows, log := t'.log)
  {
    var e := Attached(t, company, start, cliffMonths, totalMonths).log[|t.log|];
    AppendNumbers(t.log, e);
    NextSeqCounts(t.log, |t.rows|);
    assert [] + [e] == [e];
  }

  /** Recording moves the column by the pause's days; the fold follows exactly
      when the pause ends on or after the schedule's start. */
  lemma PauseShowsIff(t: Table, id: nat, from: int, upTo: int)
    requires AllTidy(t) && id < |t.rows| && from < upTo
    ensures var t', start := Recorded(t, id, from, upTo), t.rows[id].start;
      var before, after := Fold(EventsFor(t.log, id, EVERYTHING)), Fold(EventsFor(t'.log, id, EVERYTHING));
      && t'.rows[id].paused == t.rows[id].paused + (upTo - from)
      && before.Some? && after.Some?
      && after.value == before.value.(paused := before.value.paused + if upTo >= start then upTo - from else 0)
  {
    var t' := Recorded(t, id, from, upTo);
    var e := Event(id, Pause(from, upTo, upTo - from), upTo, t.now, NextSeq(t.log, id));
    assert BasedFirst(History(t.log, id), Read) by { assert Tidy(t, id); }
    assert t'.log == t.log + [e] && Read(e.payload) == Change(upTo - from);
    assert History(t.log, id)[0].effective == t.rows[id].start by { assert Tidy(t, id); }
    ChangeShows(t.log, e, Read);
    FoldIsTally(EventsFor(t.log, id, EVERYTHING));
    FoldIsTally(EventsFor(t'.log, id, EVERYTHING));
  }

  lemma AttachedAlone(company: nat, start: int, now: int)
    ensures var t := Attached(Table([], [], [], now), company, start, 12, 48);
      && AllTidy(t) && |t.rows| == 1 && |t.grants| == 1 && t.rows[0] == Row(start, 0)
      && Fold(EventsFor(t.log, 0, EVERYTHING)) == Some(ScheduleState(start, 12, 48, 0))
      && forall from, upTo :: !Clashes(t, 0, from, upTo)
  {
    var empty := Table([], [], [], now);
    var t := Attached(empty, company, start, 12, 48);
    var base := t.log[0];
    AttachedTidy(empty, company, start, 12, 48);
    assert t.log == [base] && [base][..0] == [];
    SelectAppend([], base, Of(0));
    EventsForEverything(t.log, 0);
    assert [] + [base] == [base];
    assert Sort([base]) == [base];
    forall from, upTo ensures !Clashes(t, 0, from, upTo) { ClashesInHistory(t, 0, from, upTo); }
  }

  /** From an empty table: a schedule and one pause that ends before it starts.
      The column counts the pause, the fold does not. */
  lemma EarlyPauseIsLost(company: nat, start: int, from: int, upTo: int, now: int)
    requires from < upTo < start
    ensures var t := Run(Table([], [], [], now), [AttachOp(company, start, 12, 48), PauseOp(company, 0, from, upTo)]);
      && |t.rows| == 1 && t.rows[0] == Row(start, upTo - from)
      && Fold(EventsFor(t.log, 0, EVERYTHING)) == Some(ScheduleState(start, 12, 48, 0))
  {
    var empty, attach, pause :=
        Table([], [], [], now), AttachOp(company, start, 12, 48), PauseOp(company, 0, from, upTo);
    var t := Attached(empty, company, start, 12, 48);
    AttachedAlone(company, start, now);
    assert [attach, pause] == ([] + [attach]) + [pause];
    RunAppend(empty, [], attach);
    RunAppend(empty, [] + [attach], pause);
    PauseShowsIff(t, 0, from, upTo);
    assert Paused(t, company, 0, from, upTo) == Ok(0);
  }

  // ------------------------------------------------------------ the endpoint

  class PauseApi {
    const ledger: EventTable<SchedulePayload>
    var grants: seq<GrantRef>
    var rows: seq<Row>
    var now: int

    constructor (now: int)
      ensures fresh(ledger) && View() == Table([], [], [], now) && AllTidy(View())
    {
      ledger := new EventTable<SchedulePayload>();
      grants, rows := [], [];
      this.now := now;
    }

    function View(): Table
      reads this, ledger
    {
      Table(grants, rows, ledger.rows, now)
    }

    /** The schedule part of create_grant. */
    method AttachSchedule(company: nat, start: int, cliffMonths: int, totalMonths: int) returns (id: nat)
      modifies this`grants, this`rows, ledger
      ensures id == |old(rows)| && View() == Attached(old(View()), company, start, cliffMonths, totalMonths)
      ensures old(AllTidy(View())) ==> AllTidy(View())
    {
      ghost var before := View();
      id := |rows|;
      grants := grants + [GrantRef(company, Some(id))];
      rows := rows + [Row(start, 0)];
      var _ := ledger.AppendEvent(id, Base(start, cliffMonths, totalMonths, 0), start, now);
      if AllTidy(before) { AttachedTidy(before, company, start, cliffMonths, totalMonths); }
    }

    /** record_vesting_pause: every recorded pause is compared before anything is
        written; half-open intervals that only touch do not overlap. */
    method RecordVestingPause(company: nat, grant: nat, from: int, upTo: int) returns (r: Result<int, Refusal>)
      modifies this`rows, ledger
      ensures match old(Paused(View(), company, grant, from, upTo))
        case Ok(id) => id < |old(rows)| && r == Ok(upTo - from) && View() == Recorded(old(View()), id, from, upTo)
        case Err(e) => r == Err(e) && View() == old(View())
      ensures old(AllTidy(View())) ==> AllTidy(View())
    {
      ghost var before := View();
      if grant >= |grants| { return Err(NotFound); }
      if grants[grant].company != company { return Err(Forbidden); }
      if grants[grant].schedule.None? || grants[grant].schedule.value >= |rows| { return Err(NoSchedule); }
      var id := grants[grant].schedule.value;
      if upTo <= from { return Err(NotAfterStart); }
      var existing := EventsFor(ledger.rows, id, EVERYTHING);
      assert existing[0..] == existing;
      for i := 0 to |existing|
        invariant Clashes(before, id, from, upTo) <==> exists e :: e in existing[i..] && Overlap(from, upTo, e)
        invariant Clashes(before, id, from, upTo) ==>
          FirstClash(existing[i..], from, upTo) == FirstClash(existing, from, upTo)
      {
        assert existing[i..][1..] == existing[i + 1..];
        assert existing[i..] == [existing[i]] + existing[i + 1..];
        if existing[i].payload.Pause? && from < existing[i].payload.upTo && existing[i].payload.from < upTo {
          assert Overlap(from, upTo, existing[i]);
          return Err(Overlaps(existing[i].payload.from, existing[i].payload.upTo));
        }
      }
      var days := upTo - from;
      rows := rows[id := rows[id].(paused := rows[id].paused + days)];
      var _ := ledger.AppendEvent(id, Pause(from, upTo, days), upTo, now);
      if AllTidy(before) { RecordedTidy(before, id, from, upTo); }
      r := Ok(days);
    }
  }
}
