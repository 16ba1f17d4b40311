/** One share issuance (a lot): its events and their fold. */
module ShareLedger {
  import opened Wrappers
  import opened Ledger

  datatype SharePayload =
    | Established(shares: int, holder: nat, shareClass: nat, issueDate: int)
    | Adjusted(delta: int)

  type ShareEvent = Event<SharePayload>

  datatype LotState = LotState(shares: int, holder: nat, shareClass: nat, issueDate: int)

  /** The projector's two running variables. */
  datatype Running = Running(state: Option<LotState>, pending: int)

  function Step(r: Running, p: SharePayload): Running
  {
    match p
    case Established(shares, holder, shareClass, issueDate) =>
      Running(Some(LotState(shares + r.pending, holder, shareClass, issueDate)), 0)
    case Adjusted(delta) =>
      if r.state.None? then Running(None, r.pending + delta)
      else Running(Some(r.state.value.(shares := r.state.value.shares + delta)), r.pending)
  }

  function Fold(es: seq<ShareEvent>): Running
  {
    if es == [] then Running(None, 0) else Step(Fold(es[..|es| - 1]), es[|es| - 1].payload)
  }

  function ProjectIssuance(es: seq<ShareEvent>): Option<LotState> { Fold(es).state }

  /** project_share_issuance */
  method ProjectShareIssuance(es: seq<ShareEvent>) returns (state: Option<LotState>)
    ensures state == ProjectIssuance(es)
  {
    state := None;
    var pending := 0;
    for i := 0 to |es|
      invariant Running(state, pending) == Fold(es[..i])
    {
      assert es[..i + 1][..i] == es[..i];
      match es[i].payload
      case Established(shares, holder, shareClass, issueDate) =>
        state := Some(LotState(shares + pending, holder, shareClass, issueDate));
        pending := 0;
      case Adjusted(delta) =>
        if state == None {
          pending := pending + delta;
        } else {
          state := Some(state.value.(shares := state.value.shares + delta));
        }
    }
    assert es[..|es|] == es;
  }

  // ------------------------------------------------------------ the closed form

  function Delta(e: ShareEvent): int { if e.payload.Adjusted? then e.payload.delta else 0 }

  function IsBase(e: ShareEvent): int { if e.payload.Established? then 1 else 0 }

  function Based(b: ShareEvent, delta: int): LotState
    requires b.payload.Established?
  {
    LotState(b.payload.shares + delta, b.payload.holder, b.payload.shareClass, b.payload.issueDate)
  }

  lemma {:induction false} NoBase(es: seq<ShareEvent>)
    ensures Sum(es, IsBase) >= 0
    ensures Sum(es, IsBase) == 0 <==> forall e :: e in es ==> e.payload.Adjusted?
    ensures Sum(es, IsBase) == 0 ==> Fold(es) == Running(None, Sum(es, Delta))
  {
    if es != [] {
      assert es == es[..|es| - 1] + [es[|es| - 1]];
      NoBase(es[..|es| - 1]);
    }
  }

  /** With one base event, the fold is the base plus every delta, wherever the
      base sorts among them. */
  lemma {:induction false} FoldWithOneBase(es: seq<ShareEvent>, b: ShareEvent)
    requires b in es && b.payload.Established? && Sum(es, IsBase) == 1
    ensures Fold(es) == Running(Some(Based(b, Sum(es, Delta))), 0)
  {
    var init, last := es[..|es| - 1], es[|es| - 1];
    assert es == init + [last];
    NoBase(init);
    if last.payload.Adjusted? {
      assert b in init;
      FoldWithOneBase(init, b);
    } else {
      assert b !in init;
    }
  }

  lemma SortedFold(es: seq<ShareEvent>, b: ShareEvent)
    requires b in es && b.payload.Established? && Sum(es, IsBase) == 1
    ensures ProjectIssuance(Sort(es)) == Some(Based(b, Sum(es, Delta)))
  {
    SumSort(es, Delta);
    SumSort(es, IsBase);
    SortIsOrderBy(es);
    assert b in multiset(Sort(es));
    FoldWithOneBase(Sort(es), b);
  }

  /** No order of the events changes the projected lot. */
  lemma ProjectionIgnoresOrder(s: seq<ShareEvent>, t: seq<ShareEvent>)
    requires multiset(s) == multiset(t) && Sum(s, IsBase) <= 1
    ensures ProjectIssuance(s) == ProjectIssuance(t)
  {
    SumOfPermutation(s, t, IsBase);
    SumOfPermutation(s, t, Delta);
    NoBase(s);
    NoBase(t);
    if Sum(s, IsBase) == 1 {
      var b :| b in s && b.payload.Established?;
      assert b in multiset(t);
      FoldWithOneBase(s, b);
      FoldWithOneBase(t, b);
    }
  }

  /** With two bases the order does matter: the later one discards the other. */
  lemma TwoBasesDependOnOrder(a: ShareEvent, b: ShareEvent)
    requires a.payload.Established? && b.payload.Established?
    ensures ProjectIssuance([a, b]) == Some(Based(b, 0)) && ProjectIssuance([b, a]) == Some(Based(a, 0))
  {
    assert [a, b][..1] == [a] && [b, a][..1] == [b];
    assert Fold([a]) == Running(Some(Based(a, 0)), 0) && Fold([b]) == Running(Some(Based(b, 0)), 0);
  }

  // ------------------------------------------------------------ one lot's life

  /** The row of share_issuances. */
  datatype Lot = Lot(company: nat, holder: nat, shareClass: nat, shares: int, issueDate: int)

  function DeltaBy(day: int): ShareEvent -> int { Guarded(Within(AsOf(day)), Delta) }

  /** What a well-kept lot holds as of a day not before its issue. */
  function ValueAsOf(h: seq<ShareEvent>, day: int): int
    requires h != [] && h[0].payload.Established?
  {
    h[0].payload.shares + Sum(h, DeltaBy(day))
  }

  /** The events of one lot, in append order: the issue, dated on the issue day,
      then adjustments dated from that day up to today, all under the lots' name. */
  ghost predicate WellKept(lot: Lot, h: seq<ShareEvent>, today: int)
  {
    && h != []
    && h[0].payload.Established? && h[0].payload.shares > 0
    && h[0].payload.holder == lot.holder && h[0].payload.shareClass == lot.shareClass
    && h[0].payload.issueDate == lot.issueDate && h[0].effective == lot.issueDate
    && (forall k :: 1 <= k < |h| ==> h[k].payload.Adjusted? && lot.issueDate <= h[k].effective <= today)
    && (forall k :: 0 <= k < |h| ==> !h[k].misfiled)
  }

  /** The mutable column agrees with the events. */
  ghost predicate ColumnAgrees(lot: Lot, h: seq<ShareEvent>)
    requires h != [] && h[0].payload.Established?
  {
    lot.shares == h[0].payload.shares + Sum(h, Delta)
  }

  lemma {:induction false} OneBaseInHistory(lot: Lot, h: seq<ShareEvent>, today: int)
    requires WellKept(lot, h, today)
    ensures Sum(h, IsBase) == 1
  {
    if |h| == 1 {
      assert h == [h[0]];
      SumOne(h[0], IsBase);
    } else {
      OneBaseInHistory(lot, h[..|h| - 1], today);
    }
  }

  lemma VisibleBase(lot: Lot, h: seq<ShareEvent>, today: int, day: int)
    requires WellKept(lot, h, today) && lot.issueDate <= day
    ensures h[0] in Select(h, Within(AsOf(day))) && Sum(Select(h, Within(AsOf(day))), IsBase) == 1
  {
    var keep := Within<SharePayload>(AsOf(day));
    SelectMembers(h, keep, h[0]);
    SumSelect(h, keep, IsBase);
    OneBaseInHistory(lot, h, today);
    SumBounded(h, Guarded(keep, IsBase), IsBase);
    NoBase(Select(h, keep));
  }

  /** Every read of the lot on or after its issue day, from however the events
      were dated, is the closed form. */
  lemma LotValue(log: seq<ShareEvent>, id: nat, lot: Lot, today: int, day: int)
    requires WellKept(lot, History(log, id), today) && lot.issueDate <= day
    ensures ProjectIssuance(EventsFor(log, id, AsOf(day)))
         == Some(LotState(ValueAsOf(History(log, id), day), lot.holder, lot.shareClass, lot.issueDate))
  {
    VisibleHistory(log, id, AsOf(day));
    VisibleBase(lot, History(log, id), today, day);
    SumSelect(History(log, id), Within(AsOf(day)), Delta);
    SortedFold(Visible(log, id, AsOf(day)), History(log, id)[0]);
  }

  /** The column is the fold over everything, and the fold as of any day from
      today on. */
  lemma ColumnIsFold(log: seq<ShareEvent>, id: nat, lot: Lot, today: int, day: int)
    requires WellKept(lot, History(log, id), today) && ColumnAgrees(lot, History(log, id))
    ensures ProjectIssuance(EventsFor(log, id, EVERYTHING))
         == Some(LotState(lot.shares, lot.holder, lot.shareClass, lot.issueDate))
    ensures today <= day && lot.issueDate <= day ==>
      ProjectIssuance(EventsFor(log, id, AsOf(day))) == ProjectIssuance(EventsFor(log, id, EVERYTHING))
  {
    var h := History(log, id);
    EventsForEverything(log, id);
    OneBaseInHistory(lot, h, today);
    SortedFold(h, h[0]);
    if today <= day && lot.issueDate <= day {
      LotValue(log, id, lot, today, day);
      SumBounded(h, DeltaBy(day), Delta);
      SumBounded(h, Delta, DeltaBy(day));
    }
  }

  /** A lot that was only ever bought back: its past values are nonnegative and
      only shrink as the day moves on. */
  lemma PastValuesShrink(lot: Lot, h: seq<ShareEvent>, today: int, d1: int, d2: int)
    requires WellKept(lot, h, today) && ColumnAgrees(lot, h) && lot.shares >= 0
    requires forall e :: e in h ==> Delta(e) <= 0
    requires d1 <= d2
    ensures ValueAsOf(h, d1) >= ValueAsOf(h, d2) >= lot.shares >= 0
  {
    SumBounded(h, DeltaBy(d2), DeltaBy(d1));
    SumBounded(h, Delta, DeltaBy(d2));
  }
}
