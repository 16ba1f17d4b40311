/**
 Aggregates whose events assign a whole value: an employee's status with the
 termination date, and a grant's trustee deposit date. The endpoint overwrites
 the column at once; the fold takes the latest-dated assignment.
 */
module AssignedState {
  import opened Wrappers
  import opened Ledger

  /** The base event, or a later assignment; the value is an employee's status
      with the termination date, or a grant's deposit date. */
  datatype Payload<V> = Established(value: V) | Changed(value: V)

  function Step<V>(state: Option<V>, p: Payload<V>): Option<V>
  {
    match p
    case Established(value) => Some(value)
    case Changed(value) => if state.None? then None else Some(value)
  }

  function Fold<V>(es: seq<Event<Payload<V>>>): Option<V>
  {
    if es == [] then None else Step(Fold(es[..|es| - 1]), es[|es| - 1].payload)
  }

  /** project_employee and project_grant */
  method ProjectAssigned<V>(es: seq<Event<Payload<V>>>) returns (state: Option<V>)
    ensures state == Fold(es)
  {
    state := None;
    for i := 0 to |es|
      invariant state == Fold(es[..i])
    {
      assert es[..i + 1][..i] == es[..i];
      match es[i].payload
      case Established(value) => state := Some(value);
      case Changed(value) => if state.Some? { state := Some(value); }
    }
    assert es[..|es|] == es;
  }

  ghost predicate HasBase<V>(es: seq<Event<Payload<V>>>)
  {
    exists e :: e in es && e.payload.Established?
  }

  lemma {:induction false} BasedIsKnown<V>(es: seq<Event<Payload<V>>>)
    requires HasBase(es)
    ensures Fold(es).Some?
  {
    if es[|es| - 1].payload.Changed? {
      assert es == es[..|es| - 1] + [es[|es| - 1]];
      BasedIsKnown(es[..|es| - 1]);
    }
  }

  /** Once there is a base, the fold is the value of the last event of the list,
      wherever the base sorts. */
  lemma FoldIsLast<V>(es: seq<Event<Payload<V>>>)
    requires HasBase(es)
    ensures Fold(es) == Some(es[|es| - 1].payload.value)
  {
    if es[|es| - 1].payload.Changed? {
      assert es == es[..|es| - 1] + [es[|es| - 1]];
      BasedIsKnown(es[..|es| - 1]);
    }
  }

  lemma SortKeepsLength<V>(h: seq<Event<Payload<V>>>)
    ensures |Sort(h)| == |h|
  {
    SortIsOrderBy(h);
    assert |multiset(Sort(h))| == |multiset(h)|;
  }

  lemma LastOfSorted<V>(h: seq<Event<Payload<V>>>, e: Event<Payload<V>>)
    requires h != []
    ensures var sorted := Sort(h);
      && |sorted| == |h| && |Insert(e, sorted)| == |h| + 1
      && Insert(e, sorted)[|h|] == (if Precedes(sorted[|h| - 1], e) then e else sorted[|h| - 1])
  {
    SortKeepsLength(h);
    SortKeepsLength(h + [e]);
    assert (h + [e])[..|h|] == h;
  }

  lemma LatestDated<V>(h: seq<Event<Payload<V>>>, e: Event<Payload<V>>)
    requires h != [] && forall x :: x in h ==> x.seqNo < e.seqNo
    ensures |Sort(h)| == |h|
    ensures Precedes(Sort(h)[|h| - 1], e) <==> forall x :: x in h ==> x.effective <= e.effective
  {
    SortIsOrderBy(h);
    var sorted := Sort(h);
    assert |multiset(sorted)| == |multiset(h)|;
    var last := sorted[|h| - 1];
    assert last in multiset(sorted) && last in multiset(h);
    forall x | x in h ensures Precedes(x, last) || x == last {
      assert x in multiset(sorted);
      var k :| 0 <= k < |sorted| && sorted[k] == x;
      if k < |h| - 1 { assert Precedes(sorted[k], sorted[|h| - 1]); }
    }
  }

  /** The column takes every assignment at once. The fold shows it exactly when
      it is dated on or after everything before it, or repeats the value the
      latest-dated event already had. */
  lemma AssignmentShowsIff<V>(log: seq<Event<Payload<V>>>, e: Event<Payload<V>>)
    requires Numbered(log) && HasBase(History(log, e.aggregate)) && e.seqNo == NextSeq(log, e.aggregate)
    ensures Fold(EventsFor(log, e.aggregate, EVERYTHING)).Some?
    ensures Fold(EventsFor(log + [e], e.aggregate, EVERYTHING)) == Some(e.payload.value) <==>
      || (forall x :: x in History(log, e.aggregate) ==> x.effective <= e.effective)
      || Fold(EventsFor(log, e.aggregate, EVERYTHING)).value == e.payload.value
  {
    var h := History(log, e.aggregate);
    AppendNumbers(log, e);
    EventsForEverything(log, e.aggregate);
    EventsForEverything(log + [e], e.aggregate);
    NextSeqCounts(log, e.aggregate);
    forall x | x in h ensures x.seqNo < e.seqNo {
      var k :| 0 <= k < |h| && h[k] == x;
      assert History(log, e.aggregate)[k].seqNo == k + 1;
    }
    SortedHasBase(h);
    SortedHasBase(h + [e]);
    FoldIsLast(Sort(h));
    FoldIsLast(Sort(h + [e]));
    LastOfSorted(h, e);
    assert (h + [e])[..|h|] == h;
    LatestDated(h, e);
  }

  lemma SortedHasBase<V>(h: seq<Event<Payload<V>>>)
    requires exists e :: e in h && e.payload.Established?
    ensures HasBase(Sort(h))
  {
    SortIsOrderBy(h);
    var e :| e in h && e.payload.Established?;
    assert e in multiset(Sort(h));
  }

  // ------------------------------------------------------------ runs

  /** The columns of one table and their events; rows are named by position. */
  datatype Records<V> = Records(columns: seq<V>, log: seq<Event<Payload<V>>>, now: int)

  datatype Op<V> =
    | EstablishOp(value: V, effective: int)
    | AssignOp(id: nat, value: V, effective: int)
    | ClockOp(instants: nat)

  function Apply<V>(r: Records<V>, op: Op<V>): Records<V>
  {
    match op
    case EstablishOp(value, effective) =>
      Records(r.columns + [value], Append(r.log, |r.columns|, Established(value), effective, r.now), r.now)
    case AssignOp(id, value, effective) =>
      if id >= |r.columns| then r
      else Records(r.columns[id := value], Append(r.log, id, Changed(value), effective, r.now), r.now)
    case ClockOp(instants) => r.(now := r.now + instants)
  }

  function Run<V>(r: Records<V>, ops: seq<Op<V>>): Records<V>
  {
    if ops == [] then r else Apply(Run(r, ops[..|ops| - 1]), ops[|ops| - 1])
  }

  ghost predicate RecordKept<V>(r: Records<V>, id: nat)
    requires id < |r.columns|
  {
    var h := History(r.log, id);
    h != [] && HasBase(h) && r.columns[id] == h[|h| - 1].payload.value
  }

  /** Each column holds the value recorded last, whatever its date. */
  ghost predicate Kept<V>(r: Records<V>)
  {
    && Numbered(r.log)
    && (forall id: nat :: id >= |r.columns| ==> History(r.log, id) == [])
    && (forall id: nat :: id < |r.columns| ==> RecordKept(r, id))
  }

  lemma ApplyKeeps<V>(r: Records<V>, op: Op<V>)
    requires Kept(r)
    ensures Kept(Apply(r, op))
  {
    var r' := Apply(r, op);
    if r'.log != r.log {
      var e := r'.log[|r.log|];
      AppendNumbers(r.log, e);
      forall id: nat | id < |r'.columns| ensures RecordKept(r', id) {
        if id < |r.columns| {
          assert RecordKept(r, id);
          if id == e.aggregate {
            var b :| b in History(r.log, id) && b.payload.Established?;
            assert b in History(r'.log, id);
          }
        } else {
          assert History(r'.log, id) == [] + [e];
        }
      }
    } else {
      forall id: nat | id < |r'.columns| ensures RecordKept(r', id) { assert RecordKept(r, id); }
    }
  }

  lemma {:induction false} RunKeeps<V>(r: Records<V>, ops: seq<Op<V>>)
    requires Kept(r)
    ensures Kept(Run(r, ops))
  {
    if ops != [] {
      RunKeeps(r, ops[..|ops| - 1]);
      ApplyKeeps(Run(r, ops[..|ops| - 1]), ops[|ops| - 1]);
    }
  }

  ghost predicate LatestDatedIn<V>(e: Event<Payload<V>>, h: seq<Event<Payload<V>>>)
  {
    e in h && forall x :: x in h ==> Precedes(x, e)
  }

  /** Over every run the fold gives the stored value exactly when the latest-dated
      event, the last recorded one among equals, carries it. */
  lemma ColumnShowsIff<V>(r: Records<V>, ops: seq<Op<V>>, id: nat)
    requires Kept(r) && id < |Run(r, ops).columns|
    ensures var c := Run(r, ops);
      Fold(EventsFor(c.log, id, EVERYTHING)) == Some(c.columns[id])
      <==> exists e :: LatestDatedIn(e, History(c.log, id)) && e.payload.value == c.columns[id]
  {
    RunKeeps(r, ops);
    var c := Run(r, ops);
    assert RecordKept(c, id);
    var h := History(c.log, id);
    EventsForEverything(c.log, id);
    SortedHasBase(h);
    FoldIsLast(Sort(h));
    var last := Sort(h)[|Sort(h)| - 1];
    LastIsLatest(h);
    forall e | LatestDatedIn(e, h) ensures e == last { OneLatest(c.log, id, e, last); }
  }

  lemma LastIsLatest<P>(h: seq<Event<P>>)
    requires h != []
    ensures Sort(h) != []
    ensures var last := Sort(h)[|Sort(h)| - 1]; last in h && forall x :: x in h ==> Precedes(x, last)
  {
    SortIsOrderBy(h);
    assert |multiset(Sort(h))| == |multiset(h)|;
    var last := Sort(h)[|Sort(h)| - 1];
    SortMembers(h, last);
    forall x | x in h ensures Precedes(x, last) {
      SortMembers(h, x);
      var k :| 0 <= k < |Sort(h)| && Sort(h)[k] == x;
    }
  }

  lemma OneLatest<P>(log: seq<Event<P>>, id: nat, a: Event<P>, b: Event<P>)
    requires Numbered(log) && a in History(log, id) && b in History(log, id) && Precedes(a, b) && Precedes(b, a)
    ensures a == b
  {
    var h := History(log, id);
    var i :| 0 <= i < |h| && h[i] == a;
    var j :| 0 <= j < |h| && h[j] == b;
    assert h[i].seqNo == i + 1 && h[j].seqNo == j + 1;
  }

  /** What a new row and a new assignment store: the value and one event each. */
  lemma ValueStores<V>(r: Records<V>, op: Op<V>)
    requires Kept(r) && !op.ClockOp? && (op.AssignOp? ==> op.id < |r.columns|)
    ensures var r', id := Apply(r, op), if op.AssignOp? then op.id else |r.columns|;
      && r'.columns == (if op.AssignOp? then r.columns[id := op.value] else r.columns + [op.value])
      && History(r'.log, id) == History(r.log, id)
         + [Event(id, if op.AssignOp? then Changed(op.value) else Established(op.value), op.effective, r.now,
                  |History(r.log, id)| + 1)]
      && (forall k: nat :: k != id ==> History(r'.log, k) == History(r.log, k))
      && r' == r.(columns := r'.columns, log := r'.log)
  {
    AppendNumbers(r.log, Apply(r, op).log[|r.log|]);
    NextSeqCounts(r.log, if op.AssignOp? then op.id else |r.columns|);
  }

  /** The clock never goes back. */
  lemma {:induction false} ClockNeverGoesBack<V>(r: Records<V>, ops: seq<Op<V>>)
    ensures Run(r, ops).now >= r.now
  {
    if ops != [] { ClockNeverGoesBack(r, ops[..|ops| - 1]); }
  }

  lemma EstablishStep<V>(value: V, start: int, now: int)
    ensures var r := Apply(Records([], [], now), EstablishOp(value, start));
      && Kept(r) && r.columns == [value] && |History(r.log, 0)| == 1 && History(r.log, 0)[0].effective == start
  {
    var r := Apply(Records([], [], now), EstablishOp(value, start));
    ApplyKeeps(Records([], [], now), EstablishOp(value, start));
    AppendNumbers([], r.log[0]);
    assert [] + [r.log[0]] == [r.log[0]];
  }

  lemma TwoAssignments<V>(r: Records<V>, first: V, second: V, day: int, earlier: int)
    requires Kept(r) && |r.columns| == 1 && |History(r.log, 0)| == 1 && History(r.log, 0)[0].effective <= earlier < day
    ensures var r' := Apply(Apply(r, AssignOp(0, first, day)), AssignOp(0, second, earlier));
      r'.columns == [second] && Fold(EventsFor(r'.log, 0, EVERYTHING)) == Some(first)
  {
    var r' := Apply(r, AssignOp(0, first, day));
    AssignStep(r, 0, first, day);
    AssignStep(r', 0, second, earlier);
    assert History(r'.log, 0)[1] in History(r'.log, 0);
  }

  /** From an empty table: a second change dated before the first. The column
      shows the second, the fold the first. */
  lemma BackdatedIsHidden<V>(base: V, first: V, second: V, start: int, day: int, earlier: int, now: int)
    requires start <= earlier < day && first != second
    ensures var ops := [EstablishOp(base, start)] + [AssignOp(0, first, day)] + [AssignOp(0, second, earlier)];
      var r := Run(Records([], [], now), ops);
      r.columns == [second] && Fold(EventsFor(r.log, 0, EVERYTHING)) == Some(first)
  {
    var empty: Records<V> := Records([], [], now);
    var a, b, c := EstablishOp(base, start), AssignOp(0, first, day), AssignOp(0, second, earlier);
    RunAppend(empty, [], a);
    RunAppend(empty, [a], b);
    RunAppend(empty, [a] + [b], c);
    assert [] + [a] == [a];
    EstablishStep(base, start, now);
    TwoAssignments(Apply(empty, a), first, second, day, earlier);
  }

  lemma AssignStep<V>(r: Records<V>, id: nat, value: V, effective: int)
    requires Kept(r) && id < |r.columns|
    ensures var r', h := Apply(r, AssignOp(id, value, effective)), History(r.log, id);
      && Kept(r') && |History(r'.log, id)| == |h| + 1 && History(r'.log, id)[..|h|] == h
      && History(r'.log, id)[|h|].effective == effective
      && ((forall x :: x in h ==> x.effective <= effective) ==> Fold(EventsFor(r'.log, id, EVERYTHING)) == Some(value))
      && ((exists x :: x in h && x.effective > effective) ==>
            Fold(EventsFor(r'.log, id, EVERYTHING)) == Fold(EventsFor(r.log, id, EVERYTHING)))
  {
    var e := Event(id, Changed(value), effective, r.now, NextSeq(r.log, id));
    assert RecordKept(r, id);
    ApplyKeeps(r, AssignOp(id, value, effective));
    AppendNumbers(r.log, e);
    AssignmentShowsIff(r.log, e);
    if exists x :: x in History(r.log, id) && x.effective > effective { KeptBehind(r.log, e); }
  }

  lemma RunAppend<V>(r: Records<V>, ops: seq<Op<V>>, op: Op<V>)
    ensures Run(r, ops + [op]) == Apply(Run(r, ops), op)
  {
    assert (ops + [op])[..|ops|] == ops;
  }

  /** An assignment dated before the latest one does not change the fold. */
  lemma KeptBehind<V>(log: seq<Event<Payload<V>>>, e: Event<Payload<V>>)
    requires Numbered(log) && HasBase(History(log, e.aggregate)) && e.seqNo == NextSeq(log, e.aggregate)
    requires exists x :: x in History(log, e.aggregate) && x.effective > e.effective
    ensures Fold(EventsFor(log + [e], e.aggregate, EVERYTHING)) == Fold(EventsFor(log, e.aggregate, EVERYTHING))
  {
    var h := History(log, e.aggregate);
    AppendNumbers(log, e);
    EventsForEverything(log, e.aggregate);
    EventsForEverything(log + [e], e.aggregate);
    NextSeqCounts(log, e.aggregate);
    forall x | x in h ensures x.seqNo < e.seqNo {
      var k :| 0 <= k < |h| && h[k] == x;
      assert History(log, e.aggregate)[k].seqNo == k + 1;
    }
    SortedHasBase(h);
    SortedHasBase(h + [e]);
    FoldIsLast(Sort(h));
    FoldIsLast(Sort(h + [e]));
    LastOfSorted(h, e);
    assert (h + [e])[..|h|] == h;
    LatestDated(h, e);
  }
}
