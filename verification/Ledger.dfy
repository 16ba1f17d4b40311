/**
 The append-only event ledger: numbering, the two time cuts, the canonical
 (effective_date, sequence_no) order, and what they keep.

 Days and instants are integers; only their order matters here.
 */
module Ledger {
  import opened Wrappers

  /** A log holds the events of one kind of aggregate, by id. misfiled: the row
      carries another kind's name, which append_event never writes. */
  datatype Event<+P> = Event(
    aggregate: nat, payload: P, effective: int, recorded: int, seqNo: int, misfiled: bool := false)

  /** "What was true in the world by asOf" and "what the system knew by known". */
  datatype Cut = Cut(asOf: Option<int>, known: Option<int>)

  const EVERYTHING := Cut(None, None)

  function AsOf(day: int): Cut { Cut(Some(day), None) }

  // ---------------------------------------------------------------- lists

  function Select<T>(s: seq<T>, keep: T -> bool): seq<T>
  {
    if s == [] then []
    else
      var rest := Select(s[..|s| - 1], keep);
      if keep(s[|s| - 1]) then rest + [s[|s| - 1]] else rest
  }

  function Sum<T>(s: seq<T>, amount: T -> int): int
  {
    if s == [] then 0 else Sum(s[..|s| - 1], amount) + amount(s[|s| - 1])
  }

  lemma SelectAppend<T>(s: seq<T>, x: T, keep: T -> bool)
    ensures Select(s + [x], keep) == if keep(x) then Select(s, keep) + [x] else Select(s, keep)
  {
    assert (s + [x])[..|s|] == s;
  }

  lemma SumAppend<T>(s: seq<T>, x: T, amount: T -> int)
    ensures Sum(s + [x], amount) == Sum(s, amount) + amount(x)
  {
    assert (s + [x])[..|s|] == s;
  }

  lemma SumOne<T>(x: T, amount: T -> int)
    ensures Sum([x], amount) == amount(x)
  {
    assert [x][..0] == [];
  }

  lemma {:induction false} SumConcat<T>(s: seq<T>, t: seq<T>, amount: T -> int)
    ensures Sum(s + t, amount) == Sum(s, amount) + Sum(t, amount)
  {
    if t == [] {
      assert s + t == s;
    } else {
      assert (s + t)[..|s + t| - 1] == s + t[..|t| - 1];
      SumConcat(s, t[..|t| - 1], amount);
    }
  }

  lemma {:induction false} SelectConcat<T>(s: seq<T>, t: seq<T>, keep: T -> bool)
    ensures Select(s + t, keep) == Select(s, keep) + Select(t, keep)
  {
    if t == [] {
      assert s + t == s;
    } else {
      assert (s + t)[..|s + t| - 1] == s + t[..|t| - 1];
      SelectConcat(s, t[..|t| - 1], keep);
    }
  }

  lemma {:induction false} SelectMembers<T>(s: seq<T>, keep: T -> bool, x: T)
    ensures x in Select(s, keep) <==> x in s && keep(x)
  {
    if s != [] {
      var init, last := s[..|s| - 1], s[|s| - 1];
      assert s == init + [last];
      SelectMembers(init, keep, x);
    }
  }

  lemma {:induction false} SelectsAllIff<T>(s: seq<T>, keep: T -> bool)
    ensures |Select(s, keep)| <= |s|
    ensures |Select(s, keep)| == |s| <==> Select(s, keep) == s
    ensures Select(s, keep) == s <==> forall x :: x in s ==> keep(x)
  {
    if s != [] {
      var init, last := s[..|s| - 1], s[|s| - 1];
      assert s == init + [last];
      SelectsAllIff(init, keep);
      if Select(s, keep) == s {
        forall x | x in s ensures keep(x) { SelectMembers(s, keep, x); }
      }
    }
  }

  lemma {:induction false} SelectSame<T>(s: seq<T>, f: T -> bool, g: T -> bool)
    requires forall x :: x in s ==> f(x) == g(x)
    ensures Select(s, f) == Select(s, g)
  {
    if s != [] {
      SelectSame(s[..|s| - 1], f, g);
    }
  }

  lemma {:induction false} SumRemove<T>(s: seq<T>, i: nat, amount: T -> int)
    requires i < |s|
    ensures Sum(s, amount) == Sum(s[..i] + s[i + 1..], amount) + amount(s[i])
  {
    var init, last := s[..|s| - 1], s[|s| - 1];
    if i == |s| - 1 {
      assert s[..i] + s[i + 1..] == init;
    } else {
      SumRemove(init, i, amount);
      assert s[..i] + s[i + 1..] == (init[..i] + init[i + 1..]) + [last];
      SumAppend(init[..i] + init[i + 1..], last, amount);
    }
  }

  function Guarded<T>(keep: T -> bool, amount: T -> int): T -> int
  {
    (x: T) => if keep(x) then amount(x) else 0
  }

  lemma {:induction false} SumSelect<T>(s: seq<T>, keep: T -> bool, amount: T -> int)
    ensures Sum(Select(s, keep), amount) == Sum(s, Guarded(keep, amount))
  {
    if s != [] {
      var init, last := s[..|s| - 1], s[|s| - 1];
      SumSelect(init, keep, amount);
      SumAppend(Select(init, keep), last, amount);
    }
  }

  lemma {:induction false} SumBounded<T>(s: seq<T>, f: T -> int, g: T -> int)
    requires forall x :: x in s ==> f(x) <= g(x)
    ensures Sum(s, f) <= Sum(s, g)
  {
    if s != [] {
      SumBounded(s[..|s| - 1], f, g);
    }
  }

  lemma {:induction false} SelectTwice<T>(s: seq<T>, f: T -> bool, g: T -> bool, both: T -> bool)
    requires forall x :: x in s ==> both(x) == (f(x) && g(x))
    ensures Select(Select(s, f), g) == Select(s, both)
  {
    if s != [] {
      var init, last := s[..|s| - 1], s[|s| - 1];
      SelectTwice(init, f, g, both);
      SelectAppend(Select(init, f), last, g);
    }
  }

  lemma {:induction false} SumUpdate<T>(s: seq<T>, i: nat, x: T, amount: T -> int)
    requires i < |s|
    ensures Sum(s[i := x], amount) == Sum(s, amount) - amount(s[i]) + amount(x)
  {
    var n := |s| - 1;
    if i == n {
      assert s[i := x][..n] == s[..n];
    } else {
      assert s[i := x][..n] == s[..n][i := x];
      SumUpdate(s[..n], i, x, amount);
    }
  }

  lemma WithoutLast<T>(s: seq<T>)
    requires s != []
    ensures multiset(s[..|s| - 1]) == multiset(s) - multiset{s[|s| - 1]}
  {
    assert s == s[..|s| - 1] + [s[|s| - 1]];
  }

  lemma WithoutOne<T>(t: seq<T>, i: nat)
    requires i < |t|
    ensures multiset(t[..i] + t[i + 1..]) == multiset(t) - multiset{t[i]}
  {
    assert t == t[..i] + [t[i]] + t[i + 1..];
  }

  /** A sum does not depend on the order of its terms. */
  lemma {:induction false} SumOfPermutation<T>(s: seq<T>, t: seq<T>, amount: T -> int)
    requires multiset(s) == multiset(t)
    ensures Sum(s, amount) == Sum(t, amount)
  {
    if s == [] {
      assert |multiset(t)| == 0;
    } else {
      var last := s[|s| - 1];
      assert last in multiset(t);
      var i :| 0 <= i < |t| && t[i] == last;
      WithoutLast(s);
      WithoutOne(t, i);
      SumOfPermutation(s[..|s| - 1], t[..i] + t[i + 1..], amount);
      SumRemove(t, i, amount);
    }
  }

  // ---------------------------------------------------------------- order

  /** ORDER BY effective_date, sequence_no */
  predicate Precedes<P>(a: Event<P>, b: Event<P>)
  {
    a.effective < b.effective || (a.effective == b.effective && a.seqNo <= b.seqNo)
  }

  ghost predicate InOrder<P>(es: seq<Event<P>>)
  {
    forall i, j :: 0 <= i < j < |es| ==> Precedes(es[i], es[j])
  }

  function Insert<P>(e: Event<P>, es: seq<Event<P>>): seq<Event<P>>
  {
    if es == [] || Precedes(es[|es| - 1], e) then es + [e]
    else Insert(e, es[..|es| - 1]) + [es[|es| - 1]]
  }

  function Sort<P>(es: seq<Event<P>>): seq<Event<P>>
  {
    if es == [] then [] else Insert(es[|es| - 1], Sort(es[..|es| - 1]))
  }

  lemma {:induction false} InsertKeeps<P>(e: Event<P>, es: seq<Event<P>>)
    requires InOrder(es)
    ensures InOrder(Insert(e, es))
    ensures multiset(Insert(e, es)) == multiset(es) + multiset{e}
  {
    if es == [] || Precedes(es[|es| - 1], e) {
    } else {
      var init, last := es[..|es| - 1], es[|es| - 1];
      assert es == init + [last];
      InsertKeeps(e, init);
      forall x | x in Insert(e, init) ensures Precedes(x, last) {
        assert x in multiset(Insert(e, init));
        assert x == e || x in init;
      }
    }
  }

  /** ORDER BY returns the selected rows, all of them, in order. */
  lemma {:induction false} SortIsOrderBy<P>(es: seq<Event<P>>)
    ensures InOrder(Sort(es))
    ensures multiset(Sort(es)) == multiset(es)
  {
    if es != [] {
      var init, last := es[..|es| - 1], es[|es| - 1];
      assert es == init + [last];
      SortIsOrderBy(init);
      InsertKeeps(last, Sort(init));
    }
  }

  ghost predicate DistinctKeys<P>(es: seq<Event<P>>)
  {
    forall i, j :: 0 <= i < j < |es| ==> es[i].effective != es[j].effective || es[i].seqNo != es[j].seqNo
  }

  lemma LastIsDetermined<P>(a: seq<Event<P>>, b: seq<Event<P>>)
    requires InOrder(a) && InOrder(b) && multiset(a) == multiset(b) && DistinctKeys(a) && a != [] && b != []
    ensures a[|a| - 1] == b[|b| - 1]
  {
    var x, y := a[|a| - 1], b[|b| - 1];
    assert x in multiset(b) && y in multiset(a);
    var k :| 0 <= k < |a| && a[k] == y;
    var m :| 0 <= m < |b| && b[m] == x;
    assert k < |a| - 1 ==> Precedes(a[k], x);
    assert m < |b| - 1 ==> Precedes(b[m], y);
  }

  /** The database has no choice: two ordered lists of the same rows, no two
      rows sharing a key, are the same list. */
  lemma {:induction false} OrderIsDetermined<P>(a: seq<Event<P>>, b: seq<Event<P>>)
    requires InOrder(a) && InOrder(b) && multiset(a) == multiset(b) && DistinctKeys(a)
    ensures a == b
  {
    assert |multiset(a)| == |a| && |multiset(b)| == |b|;
    if a != [] {
      LastIsDetermined(a, b);
      WithoutLast(a);
      WithoutLast(b);
      OrderIsDetermined(a[..|a| - 1], b[..|b| - 1]);
      assert a == a[..|a| - 1] + [a[|a| - 1]];
    }
  }

  lemma {:induction false} SortOfSorted<P>(es: seq<Event<P>>)
    requires InOrder(es)
    ensures Sort(es) == es
  {
    if es != [] {
      var init := es[..|es| - 1];
      SortOfSorted(init);
      assert es == init + [es[|es| - 1]];
      if init != [] { assert Precedes(es[|es| - 2], es[|es| - 1]); }
    }
  }

  lemma {:induction false} SumInsert<P>(e: Event<P>, es: seq<Event<P>>, amount: Event<P> -> int)
    ensures Sum(Insert(e, es), amount) == Sum(es, amount) + amount(e)
  {
    if es == [] || Precedes(es[|es| - 1], e) {
      SumAppend(es, e, amount);
    } else {
      SumInsert(e, es[..|es| - 1], amount);
      SumAppend(Insert(e, es[..|es| - 1]), es[|es| - 1], amount);
    }
  }

  lemma {:induction false} SumSort<P>(es: seq<Event<P>>, amount: Event<P> -> int)
    ensures Sum(Sort(es), amount) == Sum(es, amount)
  {
    if es != [] {
      SumSort(es[..|es| - 1], amount);
      SumInsert(es[|es| - 1], Sort(es[..|es| - 1]), amount);
    }
  }

  lemma {:induction false} SelectInsert<P>(e: Event<P>, es: seq<Event<P>>, keep: Event<P> -> bool)
    requires InOrder(es)
    ensures Select(Insert(e, es), keep) == if keep(e) then Insert(e, Select(es, keep)) else Select(es, keep)
  {
    if es == [] || Precedes(es[|es| - 1], e) {
      SelectAppend(es, e, keep);
      var kept := Select(es, keep);
      if kept != [] {
        SelectMembers(es, keep, kept[|kept| - 1]);
        assert Precedes(kept[|kept| - 1], e);
      }
    } else {
      var init, last := es[..|es| - 1], es[|es| - 1];
      SelectInsert(e, init, keep);
      SelectAppend(Insert(e, init), last, keep);
      var kept := Select(init, keep);
      assert (kept + [last])[..|kept|] == kept;
    }
  }

  /** Sorting everything and then picking one group is sorting the group. */
  lemma {:induction false} SelectSort<P>(es: seq<Event<P>>, keep: Event<P> -> bool)
    ensures Select(Sort(es), keep) == Sort(Select(es, keep))
  {
    if es != [] {
      var init, last := es[..|es| - 1], es[|es| - 1];
      SelectSort(init, keep);
      SortIsOrderBy(init);
      SelectInsert(last, Sort(init), keep);
      var kept := Select(init, keep);
      assert (kept + [last])[..|kept|] == kept;
    }
  }

  // ---------------------------------------------------------------- reading

  predicate InCut<P>(e: Event<P>, cut: Cut)
  {
    (cut.asOf.Some? ==> e.effective <= cut.asOf.value) && (cut.known.Some? ==> e.recorded <= cut.known.value)
  }

  function Of<P>(id: nat): Event<P> -> bool { (e: Event<P>) => e.aggregate == id }

  function OfWithin<P>(id: nat, cut: Cut): Event<P> -> bool
  {
    (e: Event<P>) => e.aggregate == id && InCut(e, cut)
  }

  /** One aggregate's events in the order they were appended. */
  function History<P>(log: seq<Event<P>>, id: nat): seq<Event<P>> { Select(log, Of(id)) }

  function Visible<P>(log: seq<Event<P>>, id: nat, cut: Cut): seq<Event<P>> { Select(log, OfWithin(id, cut)) }

  /** events_for */
  function EventsFor<P>(log: seq<Event<P>>, id: nat, cut: Cut): seq<Event<P>> { Sort(Visible(log, id, cut)) }

  lemma EventsForMembers<P>(log: seq<Event<P>>, id: nat, cut: Cut, e: Event<P>)
    ensures e in EventsFor(log, id, cut) <==> e in log && e.aggregate == id && InCut(e, cut)
  {
    SelectMembers(log, OfWithin(id, cut), e);
    SortMembers(Visible(log, id, cut), e);
  }

  function RightlyFiled<P>(): Event<P> -> bool { (e: Event<P>) => !e.misfiled }

  /** The rows that carry their own kind's name. */
  function Own<P>(log: seq<Event<P>>): seq<Event<P>> { Select(log, RightlyFiled()) }

  function OwnWithin<P>(id: nat, cut: Cut): Event<P> -> bool
  {
    (e: Event<P>) => !e.misfiled && e.aggregate == id && InCut(e, cut)
  }

  lemma OwnVisible<P>(log: seq<Event<P>>, id: nat, cut: Cut)
    ensures Visible(Own(log), id, cut) == Select(log, OwnWithin(id, cut))
    ensures Visible(Own(log), id, cut) == Select(Visible(log, id, cut), RightlyFiled())
  {
    SelectTwice(log, RightlyFiled(), OfWithin(id, cut), OwnWithin(id, cut));
    SelectTwice(log, OfWithin(id, cut), RightlyFiled(), OwnWithin(id, cut));
  }

  /** Reading only the rows that carry their kind's name is reading by id alone,
      exactly when no row of the id inside the cuts carries another name. */
  lemma OwnViewIff<P>(log: seq<Event<P>>, id: nat, cut: Cut)
    ensures EventsFor(Own(log), id, cut) == EventsFor(log, id, cut)
      <==> forall e :: e in log && e.aggregate == id && InCut(e, cut) ==> !e.misfiled
  {
    var seen, own := Visible(log, id, cut), Visible(Own(log), id, cut);
    OwnVisible(log, id, cut);
    SelectsAllIff(seen, RightlyFiled());
    SortIsOrderBy(seen);
    SortIsOrderBy(own);
    assert |multiset(Sort(seen))| == |multiset(seen)| && |multiset(Sort(own))| == |multiset(own)|;
    forall e ensures e in seen <==> e in log && e.aggregate == id && InCut(e, cut) {
      SelectMembers(log, OfWithin(id, cut), e);
    }
  }

  function Within<P>(cut: Cut): Event<P> -> bool { (e: Event<P>) => InCut(e, cut) }

  lemma VisibleHistory<P>(log: seq<Event<P>>, id: nat, cut: Cut)
    ensures Visible(log, id, cut) == Select(History(log, id), Within(cut))
  {
    SelectTwice(log, Of(id), Within(cut), OfWithin(id, cut));
  }

  lemma EventsForEverything<P>(log: seq<Event<P>>, id: nat)
    ensures Visible(log, id, EVERYTHING) == History(log, id)
  {
    SelectSame(log, OfWithin(id, EVERYTHING), Of(id));
  }

  /** Bitemporal stability: a new event leaves every view alone that belongs to
      another aggregate, stops before its effective day, or stops before the
      instant it was recorded. */
  lemma PastViewsAreStable<P>(log: seq<Event<P>>, e: Event<P>, id: nat, cut: Cut)
    ensures (e.aggregate != id
             || (cut.asOf.Some? && cut.asOf.value < e.effective)
             || (cut.known.Some? && cut.known.value < e.recorded))
            <==> EventsFor(log + [e], id, cut) == EventsFor(log, id, cut)
  {
    SelectAppend(log, e, OfWithin(id, cut));
    SortIsOrderBy(Visible(log, id, cut));
    SortIsOrderBy(Visible(log + [e], id, cut));
    var old_, new_ := EventsFor(log, id, cut), EventsFor(log + [e], id, cut);
    if new_ == old_ {
      assert |multiset(Visible(log + [e], id, cut))| == |multiset(Visible(log, id, cut))|;
    }
  }

  /** Many new events at once leave a view alone exactly when none of them is of
      its aggregate and inside its cuts. */
  lemma ViewsAreStableIff<P>(log: seq<Event<P>>, more: seq<Event<P>>, id: nat, cut: Cut)
    ensures EventsFor(log + more, id, cut) == EventsFor(log, id, cut)
      <==> forall e :: e in more && e.aggregate == id ==> !InCut(e, cut)
  {
    var old_, new_ := Visible(log, id, cut), Visible(more, id, cut);
    SelectConcat(log, more, OfWithin(id, cut));
    SortIsOrderBy(old_);
    SortIsOrderBy(old_ + new_);
    assert |multiset(Sort(old_))| == |multiset(old_)| && |multiset(Sort(old_ + new_))| == |multiset(old_ + new_)|;
    forall e | e in more ensures e.aggregate == id && InCut(e, cut) <==> e in new_ {
      SelectMembers(more, OfWithin(id, cut), e);
    }
    if new_ != [] {
      SelectMembers(more, OfWithin(id, cut), new_[0]);
    } else {
      assert old_ + new_ == old_;
    }
  }

  // ---------------------------------------------------------------- numbering

  /** SELECT MAX(sequence_no): None without events. */
  function MaxSeq<P>(log: seq<Event<P>>, id: nat): Option<int>
  {
    if log == [] then None
    else
      var e, rest := log[|log| - 1], MaxSeq(log[..|log| - 1], id);
      if e.aggregate == id && (rest.None? || e.seqNo > rest.value) then Some(e.seqNo) else rest
  }

  /** current_sequence_no: zero without events. */
  function CurrentSeq<P>(log: seq<Event<P>>, id: nat): int
  {
    var max := MaxSeq(log, id);
    if max.None? then 0 else max.value
  }

  /** _next_sequence_no */
  function NextSeq<P>(log: seq<Event<P>>, id: nat): int { CurrentSeq(log, id) + 1 }

  /** append_event */
  function Append<P>(log: seq<Event<P>>, id: nat, payload: P, effective: int, recorded: int): seq<Event<P>>
  {
    log + [Event(id, payload, effective, recorded, NextSeq(log, id))]
  }

  /** Every aggregate's events carry the numbers 1, 2, ..., n, in append order. */
  ghost predicate Numbered<P>(log: seq<Event<P>>)
  {
    forall id: nat, i :: 0 <= i < |History(log, id)| ==> History(log, id)[i].seqNo == i + 1
  }

  lemma {:induction false} NumberedPrefix<P>(log: seq<Event<P>>)
    requires Numbered(log) && log != []
    ensures Numbered(log[..|log| - 1])
  {
    var init, e := log[..|log| - 1], log[|log| - 1];
    assert log == init + [e];
    forall id: nat, i | 0 <= i < |History(init, id)| ensures History(init, id)[i].seqNo == i + 1 {
      SelectAppend(init, e, Of(id));
      assert History(log, id)[i].seqNo == i + 1;
    }
  }

  lemma {:induction false} NextSeqCounts<P>(log: seq<Event<P>>, id: nat)
    requires Numbered(log)
    ensures NextSeq(log, id) == |History(log, id)| + 1
  {
    if log != [] {
      var init, e := log[..|log| - 1], log[|log| - 1];
      assert log == init + [e];
      NumberedPrefix(log);
      NextSeqCounts(init, id);
      SelectAppend(init, e, Of(id));
      if e.aggregate == id {
        assert History(log, id)[|History(init, id)|] == e;
      }
    }
  }

  /** A number is taken exactly when it lies in 1..n. */
  lemma NumberTaken<P>(log: seq<Event<P>>, id: nat, n: int)
    requires Numbered(log)
    ensures (exists e :: e in log && e.aggregate == id && e.seqNo == n) <==> 1 <= n < NextSeq(log, id)
  {
    NextSeqCounts(log, id);
    if e :| e in log && e.aggregate == id && e.seqNo == n {
      SelectMembers(log, Of(id), e);
    }
    if 1 <= n < NextSeq(log, id) {
      var e := History(log, id)[n - 1];
      SelectMembers(log, Of(id), e);
    }
  }

  lemma AppendNumbers<P>(log: seq<Event<P>>, e: Event<P>)
    requires Numbered(log) && e.seqNo == NextSeq(log, e.aggregate)
    ensures Numbered(log + [e])
    ensures History(log + [e], e.aggregate) == History(log, e.aggregate) + [e]
    ensures forall id: nat :: id != e.aggregate ==> History(log + [e], id) == History(log, id)
  {
    NextSeqCounts(log, e.aggregate);
    forall id: nat
      ensures History(log + [e], id) == if id == e.aggregate then History(log, id) + [e] else History(log, id)
    {
      SelectAppend(log, e, Of(id));
    }
  }

  /** The first appended event has the least number. */
  lemma OldestFirst<P>(log: seq<Event<P>>, id: nat, e: Event<P>)
    requires Numbered(log) && e in History(log, id) && e != History(log, id)[0]
    ensures e.seqNo > History(log, id)[0].seqNo
  {
    var h := History(log, id);
    var k :| 0 <= k < |h| && h[k] == e;
    assert History(log, id)[k].seqNo == k + 1 && History(log, id)[0].seqNo == 1;
  }

  lemma SortMembers<P>(es: seq<Event<P>>, e: Event<P>)
    ensures e in Sort(es) <==> e in es
  {
    SortIsOrderBy(es);
    assert e in Sort(es) <==> e in multiset(Sort(es));
    assert e in es <==> e in multiset(es);
  }

  /** The ledger_events table and its one writer. */
  class EventTable<P> {
    var rows: seq<Event<P>>

    constructor ()
      ensures rows == []
    {
      rows := [];
    }

    method AppendEvent(id: nat, payload: P, effective: int, recorded: int) returns (e: Event<P>)
      modifies this
      ensures rows == old(rows) + [e]
      ensures e == Event(id, payload, effective, recorded, NextSeq(old(rows), id))
      ensures old(Numbered(rows)) ==> Numbered(rows)
    {
      e := Event(id, payload, effective, recorded, NextSeq(rows, id));
      if Numbered(rows) { AppendNumbers(rows, e); }
      rows := rows + [e];
    }
  }
}
