/**
 The projectors that start from a base event and add up changes, skipping the
 changes that sort before the base: option pools and vesting schedules.
 */
module BaseFold {
  import opened Wrappers
  import opened Ledger

  /** What an event says: a base to start from, or a change to add. */
  datatype Part<+B> = Start(base: B) | Change(amount: int)

  datatype Tally<+B> = Tally(base: B, net: int)

  function Add<B>(before: Option<Tally<B>>, part: Part<B>): Option<Tally<B>>
  {
    match part
    case Start(base) => Some(Tally(base, 0))
    case Change(amount) => if before.None? then None else Some(Tally(before.value.base, before.value.net + amount))
  }

  function Tallied<P, B>(es: seq<Event<P>>, read: P -> Part<B>): Option<Tally<B>>
  {
    if es == [] then None else Add(Tallied(es[..|es| - 1], read), read(es[|es| - 1].payload))
  }

  function IsBase<P, B>(read: P -> Part<B>): Event<P> -> int
  {
    (e: Event<P>) => if read(e.payload).Start? then 1 else 0
  }

  function Amount<B>(part: Part<B>): int { if part.Change? then part.amount else 0 }

  function Net<P, B>(read: P -> Part<B>): Event<P> -> int
  {
    (e: Event<P>) => Amount(read(e.payload))
  }

  function NetSince<P, B>(read: P -> Part<B>, day: int): Event<P> -> int
  {
    (e: Event<P>) => if e.effective >= day then Amount(read(e.payload)) else 0
  }

  function NetBefore<P, B>(read: P -> Part<B>, day: int): Event<P> -> int
  {
    (e: Event<P>) => if e.effective < day then Amount(read(e.payload)) else 0
  }

  function NetBetween<P, B>(read: P -> Part<B>, first: int, last: int): Event<P> -> int
  {
    (e: Event<P>) => if first <= e.effective <= last then Amount(read(e.payload)) else 0
  }

  lemma {:induction false} SplitNet<P, B>(es: seq<Event<P>>, read: P -> Part<B>, day: int)
    ensures Sum(es, Net(read)) == Sum(es, NetBefore(read, day)) + Sum(es, NetSince(read, day))
  {
    if es != [] { SplitNet(es[..|es| - 1], read, day); }
  }

  lemma {:induction false} NoBase<P, B>(es: seq<Event<P>>, read: P -> Part<B>)
    ensures Sum(es, IsBase(read)) >= 0
    ensures Sum(es, IsBase(read)) == 0 <==> forall e :: e in es ==> read(e.payload).Change?
    ensures Sum(es, IsBase(read)) == 0 ==> Tallied(es, read) == None
  {
    if es != [] {
      assert es == es[..|es| - 1] + [es[|es| - 1]];
      NoBase(es[..|es| - 1], read);
    }
  }

  predicate StrictlyAfter<P>(e: Event<P>, b: Event<P>)
  {
    b.effective < e.effective || (b.effective == e.effective && b.seqNo < e.seqNo)
  }

  function NetAfter<P, B>(read: P -> Part<B>, b: Event<P>): Event<P> -> int
  {
    (e: Event<P>) => if StrictlyAfter(e, b) then Amount(read(e.payload)) else 0
  }

  lemma {:induction false} NoneAfter<P, B>(es: seq<Event<P>>, read: P -> Part<B>, b: Event<P>)
    requires forall e :: e in es ==> Precedes(e, b)
    ensures Sum(es, NetAfter(read, b)) == 0
  {
    if es != [] {
      NoneAfter(es[..|es| - 1], read, b);
      assert Precedes(es[|es| - 1], b);
    }
  }

  lemma {:induction false} NoneEarly<P, B>(es: seq<Event<P>>, read: P -> Part<B>, day: int)
    requires forall e :: e in es ==> e.effective >= day
    ensures Sum(es, NetBefore(read, day)) == 0
  {
    if es != [] { NoneEarly(es[..|es| - 1], read, day); }
  }

  lemma BeforeLast<P>(es: seq<Event<P>>, e: Event<P>)
    requires InOrder(es) && es != [] && e in es[..|es| - 1]
    ensures Precedes(e, es[|es| - 1])
  {
    var k :| 0 <= k < |es| - 1 && es[..|es| - 1][k] == e;
    assert Precedes(es[k], es[|es| - 1]);
  }

  ghost predicate CountsFrom<P, B>(es: seq<Event<P>>, read: P -> Part<B>, b: Event<P>)
    requires read(b.payload).Start?
  {
    Tallied(es, read) == Some(Tally(read(b.payload).base, Sum(es, NetAfter(read, b))))
  }

  lemma EndsInBase<P, B>(es: seq<Event<P>>, read: P -> Part<B>, b: Event<P>)
    requires InOrder(es) && es != [] && es[|es| - 1] == b && read(b.payload).Start?
    ensures CountsFrom(es, read, b)
  {
    var init := es[..|es| - 1];
    forall e | e in init ensures Precedes(e, b) { BeforeLast(es, e); }
    NoneAfter(init, read, b);
    assert NetAfter(read, b)(b) == 0;
  }

  lemma EndsInChange<P, B>(es: seq<Event<P>>, read: P -> Part<B>, b: Event<P>)
    requires InOrder(es) && es != [] && read(es[|es| - 1].payload).Change? && read(b.payload).Start?
    requires b in es[..|es| - 1] && CountsFrom(es[..|es| - 1], read, b)
    requires Alone(es, b)
    ensures CountsFrom(es, read, b)
  {
    var last := es[|es| - 1];
    BeforeLast(es, b);
    assert StrictlyAfter(last, b);
    assert NetAfter(read, b)(last) == read(last.payload).amount;
  }

  /** No other event sorts where b does. */
  ghost predicate Alone<P>(es: seq<Event<P>>, b: Event<P>)
  {
    forall e :: e in es && e != b ==> e.effective != b.effective || e.seqNo != b.seqNo
  }

  /** The fold of an ordered list with one base counts exactly the changes that
      sort after it. */
  lemma {:induction false} FoldAfterBase<P, B>(es: seq<Event<P>>, read: P -> Part<B>, b: Event<P>)
    requires InOrder(es) && b in es && read(b.payload).Start? && Sum(es, IsBase(read)) == 1 && Alone(es, b)
    ensures Tallied(es, read) == Some(Tally(read(b.payload).base, Sum(es, NetAfter(read, b))))
  {
    var init, last := es[..|es| - 1], es[|es| - 1];
    assert es == init + [last];
    NoBase(init, read);
    assert Sum(es, IsBase(read)) == Sum(init, IsBase(read)) + IsBase(read)(last);
    if read(last.payload).Start? {
      assert b !in init;
      EndsInBase(es, read, b);
    } else {
      assert b in init;
      FoldAfterBase(init, read, b);
      EndsInChange(es, read, b);
    }
  }

  /** With a base numbered before everything else these are the changes dated on
      or after it. */
  lemma FoldSinceBase<P, B>(es: seq<Event<P>>, read: P -> Part<B>, b: Event<P>)
    requires InOrder(es) && b in es && read(b.payload).Start? && Sum(es, IsBase(read)) == 1
    requires forall e :: e in es && e != b ==> e.seqNo > b.seqNo
    ensures Tallied(es, read) == Some(Tally(read(b.payload).base, Sum(es, NetSince(read, b.effective))))
  {
    FoldAfterBase(es, read, b);
    SumBounded(es, NetAfter(read, b), NetSince(read, b.effective));
    SumBounded(es, NetSince(read, b.effective), NetAfter(read, b));
  }

  /** The base event comes first and is the only one. */
  ghost predicate BasedFirst<P, B>(h: seq<Event<P>>, read: P -> Part<B>)
  {
    h != [] && read(h[0].payload).Start? && forall k :: 1 <= k < |h| ==> read(h[k].payload).Change?
  }

  lemma {:induction false} OneBase<P, B>(h: seq<Event<P>>, read: P -> Part<B>)
    requires BasedFirst(h, read)
    ensures Sum(h, IsBase(read)) == 1
  {
    if |h| > 1 { OneBase(h[..|h| - 1], read); } else { assert h[..0] == []; }
  }

  lemma FoldOfSorted<P, B>(seen: seq<Event<P>>, read: P -> Part<B>, b: Event<P>)
    requires b in seen && read(b.payload).Start? && Sum(seen, IsBase(read)) == 1
    requires forall e :: e in seen && e != b ==> e.seqNo > b.seqNo
    ensures Tallied(Sort(seen), read) == Some(Tally(read(b.payload).base, Sum(seen, NetSince(read, b.effective))))
  {
    SumSort(seen, IsBase(read));
    SumSort(seen, NetSince(read, b.effective));
    SortIsOrderBy(seen);
    SortMembers(seen, b);
    forall e | e in Sort(seen) && e != b ensures e.seqNo > b.seqNo { SortMembers(seen, e); }
    FoldSinceBase(Sort(seen), read, b);
  }

  /** The whole history folds to its base and the changes dated on or after it. */
  lemma HistoryFold<P, B>(log: seq<Event<P>>, id: nat, read: P -> Part<B>)
    requires Numbered(log) && BasedFirst(History(log, id), read)
    ensures var h := History(log, id);
      Tallied(EventsFor(log, id, EVERYTHING), read)
      == Some(Tally(read(h[0].payload).base, Sum(h, NetSince(read, h[0].effective))))
  {
    var h := History(log, id);
    EventsForEverything(log, id);
    OneBase(h, read);
    forall e | e in h && e != h[0] ensures e.seqNo > h[0].seqNo { OldestFirst(log, id, e); }
    FoldOfSorted(h, read, h[0]);
  }

  /** One more change shows in the whole projection exactly when it is dated on or
      after the base. */
  lemma ChangeShows<P, B>(log: seq<Event<P>>, e: Event<P>, read: P -> Part<B>)
    requires Numbered(log) && e.seqNo == NextSeq(log, e.aggregate) && read(e.payload).Change?
    requires BasedFirst(History(log, e.aggregate), read)
    ensures var id := e.aggregate; var b := History(log, id)[0];
      var before, after :=
          Tallied(EventsFor(log, id, EVERYTHING), read), Tallied(EventsFor(log + [e], id, EVERYTHING), read);
      && before.Some?
      && after == if b.effective <= e.effective
                  then Some(Tally(before.value.base, before.value.net + read(e.payload).amount)) else before
  {
    var id := e.aggregate;
    AppendNumbers(log, e);
    HistoryFold(log, id, read);
    HistoryFold(log + [e], id, read);
    var h := History(log, id);
    assert History(log + [e], id) == h + [e] && (h + [e])[0] == h[0];
    SumAppend(h, e, NetSince(read, h[0].effective));
  }

  // ------------------------------------------------------------ as of a day

  lemma NotBasedYet<P, B>(log: seq<Event<P>>, id: nat, read: P -> Part<B>, day: int)
    requires BasedFirst(History(log, id), read) && day < History(log, id)[0].effective
    ensures Tallied(EventsFor(log, id, AsOf(day)), read) == None
  {
    var h, seen := History(log, id), Visible(log, id, AsOf(day));
    VisibleHistory(log, id, AsOf(day));
    forall e | e in Sort(seen) ensures read(e.payload).Change? {
      SortMembers(seen, e);
      SelectMembers(h, Within(AsOf(day)), e);
      var k :| 0 <= k < |h| && h[k] == e;
    }
    NoBase(Sort(seen), read);
  }

  lemma SeenBase<P, B>(log: seq<Event<P>>, id: nat, read: P -> Part<B>, day: int)
    requires BasedFirst(History(log, id), read) && day >= History(log, id)[0].effective
    ensures var seen := Visible(log, id, AsOf(day)); History(log, id)[0] in seen && Sum(seen, IsBase(read)) == 1
  {
    var h, seen := History(log, id), Visible(log, id, AsOf(day));
    VisibleHistory(log, id, AsOf(day));
    SelectMembers(h, Within(AsOf(day)), h[0]);
    SumSelect(h, Within(AsOf(day)), IsBase(read));
    OneBase(h, read);
    SumBounded(h, Guarded(Within(AsOf(day)), IsBase(read)), IsBase(read));
    NoBase(seen, read);
  }

  lemma SeenNet<P, B>(log: seq<Event<P>>, id: nat, read: P -> Part<B>, first: int, day: int)
    ensures Sum(Visible(log, id, AsOf(day)), NetSince(read, first))
        == Sum(History(log, id), NetBetween(read, first, day))
  {
    var h, since := History(log, id), NetSince(read, first);
    VisibleHistory(log, id, AsOf(day));
    SumSelect(h, Within(AsOf(day)), since);
    SumBounded(h, Guarded(Within(AsOf(day)), since), NetBetween(read, first, day));
    SumBounded(h, NetBetween(read, first, day), Guarded(Within(AsOf(day)), since));
  }

  function Expected<P, B>(h: seq<Event<P>>, read: P -> Part<B>, day: int): Option<Tally<B>>
    requires h != [] && read(h[0].payload).Start?
  {
    if day < h[0].effective then None
    else Some(Tally(read(h[0].payload).base, Sum(h, NetBetween(read, h[0].effective, day))))
  }

  /** As of any day a projection is unknown before its base and counts exactly the
      changes dated from the base up to that day after it. */
  lemma ProjectionAsOf<P, B>(log: seq<Event<P>>, id: nat, read: P -> Part<B>, day: int)
    requires Numbered(log) && BasedFirst(History(log, id), read)
    ensures Tallied(EventsFor(log, id, AsOf(day)), read) == Expected(History(log, id), read, day)
  {
    var h, seen := History(log, id), Visible(log, id, AsOf(day));
    if day < h[0].effective {
      NotBasedYet(log, id, read, day);
    } else {
      SeenBase(log, id, read, day);
      SeenNet(log, id, read, h[0].effective, day);
      VisibleHistory(log, id, AsOf(day));
      forall e | e in seen && e != h[0] ensures e.seqNo > h[0].seqNo {
        SelectMembers(h, Within(AsOf(day)), e);
        OldestFirst(log, id, e);
      }
      FoldOfSorted(seen, read, h[0]);
    }
  }

  lemma ExpectedAfter<P, B>(h: seq<Event<P>>, e: Event<P>, read: P -> Part<B>, day: int)
    requires BasedFirst(h, read) && read(e.payload).Change?
    ensures var before, after := Expected(h, read, day), Expected(h + [e], read, day);
      && (before.Some? <==> h[0].effective <= day)
      && after == if before.Some? && h[0].effective <= e.effective <= day
                  then Some(Tally(before.value.base, before.value.net + read(e.payload).amount)) else before
  {
    assert (h + [e])[0] == h[0];
    SumAppend(h, e, NetBetween(read, h[0].effective, day));
  }

  /** One more change moves the projection on exactly the days from its date on,
      if it is not dated before the base. */
  lemma ChangeAsOf<P, B>(log: seq<Event<P>>, e: Event<P>, read: P -> Part<B>, day: int)
    requires Numbered(log) && e.seqNo == NextSeq(log, e.aggregate) && read(e.payload).Change?
    requires BasedFirst(History(log, e.aggregate), read)
    ensures var id := e.aggregate; var b := History(log, id)[0];
      var before, after :=
          Tallied(EventsFor(log, id, AsOf(day)), read), Tallied(EventsFor(log + [e], id, AsOf(day)), read);
      && (before.Some? <==> b.effective <= day)
      && after == if before.Some? && b.effective <= e.effective <= day
                  then Some(Tally(before.value.base, before.value.net + read(e.payload).amount)) else before
  {
    var h := History(log, e.aggregate);
    AppendNumbers(log, e);
    ProjectionAsOf(log, e.aggregate, read, day);
    assert BasedFirst(h + [e], read) by { assert (h + [e])[0] == h[0]; }
    ProjectionAsOf(log + [e], e.aggregate, read, day);
    ExpectedAfter(h, e, read, day);
  }
}
