/**
 Concurrent buyback executions. Each execution projects (reads the lot's fold,
 checks every guard and the preview token), takes a sequence number, and
 commits; the commit writes the column absolutely and is rolled back when
 UNIQUE(aggregate_id, sequence_no) finds the number taken.
 */
module Interleaving {
  import opened Wrappers
  import opened Ledger
  import opened ShareLedger
  import opened Snapshot
  import opened Buyback

  /** An execution between its projection and its commit. */
  datatype Tx = Tx(request: Request, p: Projection, number: Option<int>)

  datatype World = World(b: Book, open: map<nat, Tx>)

  datatype Move =
    | Begin(tx: nat, request: Request)
    | TakeNumber(tx: nat)
    | Commit(tx: nat)
    | Abandon(tx: nat)
    | IssueLot(company: nat, holder: nat, shareClass: nat, shares: int, issueDate: int)
    | Clock(days: nat, instants: nat)

  predicate Taken(log: seq<ShareEvent>, id: nat, number: int)
  {
    exists e :: e in log && e.aggregate == id && e.seqNo == number
  }

  function Committed(b: Book, tx: Tx): Book
    requires tx.request.lot < |b.lots| && tx.number.Some?
  {
    var id := tx.request.lot;
    b.(lots := b.lots[id := b.lots[id].(shares := tx.p.lotAfter)],
       log := b.log + [Event(id, Adjusted(tx.p.delta), tx.request.effective, b.now, tx.number.value)])
  }

  /** With oneSnapshot the number comes from the snapshot the projection was
      read from; without it the table is read again. */
  function Next(w: World, m: Move, oneSnapshot: bool): World
  {
    match m
    case Begin(t, request) =>
      var r := Execute(w.b, request);
      if t in w.open || r.Err? then w else w.(open := w.open[t := Tx(request, r.value.1, None)])
    case TakeNumber(t) =>
      if t !in w.open || w.open[t].number.Some? then w
      else
        var tx := w.open[t];
        var number := if oneSnapshot then tx.p.expectedSeq + 1 else NextSeq(w.b.log, tx.request.lot);
        w.(open := w.open[t := tx.(number := Some(number))])
    case Commit(t) =>
      if t !in w.open || w.open[t].number.None? || w.open[t].request.lot >= |w.b.lots| then w
      else if Taken(w.b.log, w.open[t].request.lot, w.open[t].number.value) then w.(open := w.open - {t})
      else World(Committed(w.b, w.open[t]), w.open - {t})
    case Abandon(t) => w.(open := w.open - {t})
    case IssueLot(company, holder, shareClass, shares, issueDate) =>
      w.(b := Apply(w.b, IssueOp(company, holder, shareClass, shares, issueDate)))
    case Clock(days, instants) => w.(b := Apply(w.b, ClockOp(days, instants)))
  }

  function Moves(w: World, ms: seq<Move>, oneSnapshot: bool): World
  {
    if ms == [] then w else Next(Moves(w, ms[..|ms| - 1], oneSnapshot), ms[|ms| - 1], oneSnapshot)
  }

  // ------------------------------------------------------------ invariants

  /** Everything the invariant says except that columns agree. */
  ghost predicate Shaped(b: Book)
  {
    && Numbered(b.log)
    && (forall id: nat :: id >= |b.lots| ==> History(b.log, id) == [])
    && (forall i: nat :: i < |b.lots| ==> WellKept(b.lots[i], History(b.log, i), b.today))
  }

  lemma KeptIsShaped(b: Book)
    requires Kept(b)
    ensures Shaped(b)
  {
    forall i: nat | i < |b.lots| ensures WellKept(b.lots[i], History(b.log, i), b.today) {
      assert LotKept(b, i);
    }
  }

  /** What the lot held after its first k events. */
  function SharesAfter(h: seq<ShareEvent>, k: int): int
    requires 1 <= k <= |h| && h[0].payload.Established?
  {
    h[0].payload.shares + Sum(h[..k], Delta)
  }

  /** An open execution stands on the first expectedSeq events of its lot. */
  ghost predicate Grounded(b: Book, tx: Tx)
  {
    var id, p := tx.request.lot, tx.p;
    && id < |b.lots|
    && var h := History(b.log, id);
    && 1 <= p.expectedSeq <= |h| && h[0].payload.Established?
    && p.lotAfter == SharesAfter(h, p.expectedSeq) + p.delta && p.lotAfter >= 0
    && b.lots[id].issueDate <= tx.request.effective <= b.today
    && (tx.number.Some? ==> p.expectedSeq < tx.number.value <= |h| + 1)
  }

  ghost predicate Sound(w: World)
  {
    Shaped(w.b) && forall t :: t in w.open ==> Grounded(w.b, w.open[t])
  }

  /** What a projection reads of its lot: the issue and all deltas. */
  lemma LotReads(b: Book, id: nat)
    requires Shaped(b) && id < |b.lots| && b.lots[id].issueDate <= b.today
    ensures var h, state := History(b.log, id), LotAt(b.log, id, b.today);
      && h != [] && h[0].payload.Established?
      && state.Some? && state.value.shares == h[0].payload.shares + Sum(h, Delta)
  {
    var h := History(b.log, id);
    LotValue(b.log, id, b.lots[id], b.today, b.today);
    SumBounded(h, DeltaBy(b.today), Delta);
    SumBounded(h, Delta, DeltaBy(b.today));
  }

  lemma ProjectionGrounds(b: Book, r: Request)
    requires Shaped(b) && Execute(b, r).Ok?
    ensures Grounded(b, Tx(r, Execute(b, r).value.1, None))
  {
    var h := History(b.log, r.lot);
    NextSeqCounts(b.log, r.lot);
    LotReads(b, r.lot);
    assert h[..|h|] == h;
  }

  /** A free number is the next one. */
  lemma FreeIsNext(b: Book, tx: Tx)
    requires Shaped(b) && Grounded(b, tx) && tx.number.Some?
    ensures Taken(b.log, tx.request.lot, tx.number.value) <==> tx.number.value <= |History(b.log, tx.request.lot)|
    ensures !Taken(b.log, tx.request.lot, tx.number.value) ==> tx.number.value == NextSeq(b.log, tx.request.lot)
  {
    NumberTaken(b.log, tx.request.lot, tx.number.value);
    NextSeqCounts(b.log, tx.request.lot);
  }

  /** What a successful commit leaves: the numbers stay 1..n, and the column is
      off by exactly what other executions committed after the projection. */
  lemma CommitDrift(b: Book, tx: Tx)
    requires Shaped(b) && Grounded(b, tx) && tx.number.Some?
    requires !Taken(b.log, tx.request.lot, tx.number.value)
    ensures var b', id := Committed(b, tx), tx.request.lot;
      var h, h' := History(b.log, id), History(b'.log, id);
      && Shaped(b') && |h'| == |h| + 1 && h'[..|h|] == h && h'[|h|].seqNo == |h| + 1
      && b'.lots[id].shares - (h'[0].payload.shares + Sum(h', Delta))
         == SharesAfter(h, tx.p.expectedSeq) - SharesAfter(h, |h|)
      && (forall j: nat :: j != id ==> History(b'.log, j) == History(b.log, j))
  {
    var b', id := Committed(b, tx), tx.request.lot;
    var h := History(b.log, id);
    var e := b'.log[|b.log|];
    FreeIsNext(b, tx);
    NextSeqCounts(b.log, id);
    AppendNumbers(b.log, e);
    SumAppend(h, e, Delta);
    assert h[..|h|] == h;
  }

  /** Whichever way its number was read, a committed execution leaves its column
      in agreement exactly when what others committed since its projection adds
      up to nothing. */
  lemma CommitAgreesIff(b: Book, tx: Tx)
    requires Shaped(b) && Grounded(b, tx) && tx.number.Some?
    requires !Taken(b.log, tx.request.lot, tx.number.value)
    ensures var b', id := Committed(b, tx), tx.request.lot;
      var h, h' := History(b.log, id), History(b'.log, id);
      && h' != [] && h'[0].payload.Established?
      && (ColumnAgrees(b'.lots[id], h') <==> Sum(h[tx.p.expectedSeq..], Delta) == 0)
  {
    var h, seen := History(b.log, tx.request.lot), tx.p.expectedSeq;
    CommitDrift(b, tx);
    SumConcat(h[..seen], h[seen..], Delta);
    assert h[..seen] + h[seen..] == h && h[..|h|] == h;
  }

  lemma GroundedStays(b: Book, b': Book, tx: Tx)
    requires Grounded(b, tx) && |b.lots| <= |b'.lots| && b.today <= b'.today
    requires b'.lots[tx.request.lot].issueDate == b.lots[tx.request.lot].issueDate
    requires History(b.log, tx.request.lot) <= History(b'.log, tx.request.lot)
    ensures Grounded(b', tx)
  {
    var h, h' := History(b.log, tx.request.lot), History(b'.log, tx.request.lot);
    assert h'[..tx.p.expectedSeq] == h[..tx.p.expectedSeq];
  }

  lemma IssueShaped(b: Book, op: Op)
    requires Shaped(b) && !op.AdjustOp?
    ensures var b' := Apply(b, op);
      && Shaped(b') && |b.lots| <= |b'.lots| && b'.lots[..|b.lots|] == b.lots && b.today <= b'.today
      && forall i: nat :: i < |b.lots| ==> History(b'.log, i) == History(b.log, i)
  {
    var b' := Apply(b, op);
    if op.IssueOp? && b' != b {
      var e := b'.log[|b.log|];
      AppendNumbers(b.log, e);
      assert History(b'.log, |b.lots|) == [e];
    }
  }

  lemma CommitLeavesOthersGrounded(b: Book, tx: Tx, other: Tx)
    requires Shaped(b) && Grounded(b, tx) && tx.number.Some? && !Taken(b.log, tx.request.lot, tx.number.value)
    requires Grounded(b, other)
    ensures Grounded(Committed(b, tx), other)
  {
    CommitDrift(b, tx);
    var h, h' := History(b.log, other.request.lot), History(Committed(b, tx).log, other.request.lot);
    assert h <= h';
    GroundedStays(b, Committed(b, tx), other);
  }

  lemma CommitSound(w: World, t: nat, oneSnapshot: bool)
    requires Sound(w)
    ensures Sound(Next(w, Commit(t), oneSnapshot))
  {
    var w' := Next(w, Commit(t), oneSnapshot);
    if w'.b != w.b {
      CommitDrift(w.b, w.open[t]);
      forall s | s in w'.open ensures Grounded(w'.b, w'.open[s]) {
        CommitLeavesOthersGrounded(w.b, w.open[t], w.open[s]);
      }
    }
  }

  lemma BeginSound(w: World, t: nat, request: Request, oneSnapshot: bool)
    requires Sound(w)
    ensures Sound(Next(w, Begin(t, request), oneSnapshot))
  {
    if t !in w.open && Execute(w.b, request).Ok? { ProjectionGrounds(w.b, request); }
  }

  lemma NumberSound(w: World, t: nat, oneSnapshot: bool)
    requires Sound(w)
    ensures Sound(Next(w, TakeNumber(t), oneSnapshot))
  {
    if t in w.open { NextSeqCounts(w.b.log, w.open[t].request.lot); }
  }

  lemma GroundSound(w: World, op: Op)
    requires Sound(w) && !op.AdjustOp?
    ensures Sound(w.(b := Apply(w.b, op)))
  {
    IssueShaped(w.b, op);
    forall t | t in w.open
      ensures Grounded(Apply(w.b, op), w.open[t])
    {
      GroundedStays(w.b, Apply(w.b, op), w.open[t]);
    }
  }

  /** Every interleaving, whichever way numbers are read, keeps every lot's
      committed numbers exactly 1..n and every open execution grounded. */
  lemma NextSound(w: World, m: Move, oneSnapshot: bool)
    requires Sound(w)
    ensures Sound(Next(w, m, oneSnapshot))
  {
    match m
    case Begin(t, request) => BeginSound(w, t, request, oneSnapshot);
    case TakeNumber(t) => NumberSound(w, t, oneSnapshot);
    case Commit(t) => CommitSound(w, t, oneSnapshot);
    case Abandon(t) =>
    case IssueLot(c, h, k, n, d) => GroundSound(w, IssueOp(c, h, k, n, d));
    case Clock(days, instants) => GroundSound(w, ClockOp(days, instants));
  }

  lemma {:induction false} MovesSound(w: World, ms: seq<Move>, oneSnapshot: bool)
    requires Sound(w)
    ensures Sound(Moves(w, ms, oneSnapshot))
  {
    if ms != [] {
      MovesSound(w, ms[..|ms| - 1], oneSnapshot);
      NextSound(Moves(w, ms[..|ms| - 1], oneSnapshot), ms[|ms| - 1], oneSnapshot);
    }
  }

  // ------------------------------------------------------------ one snapshot per execution

  ghost predicate FromSnapshot(tx: Tx) { tx.number.Some? ==> tx.number.value == tx.p.expectedSeq + 1 }

  ghost predicate Isolated(w: World)
  {
    Sound(w) && Kept(w.b) && forall t :: t in w.open ==> FromSnapshot(w.open[t])
  }

  lemma CommittedKept(b: Book, tx: Tx)
    requires Shaped(b) && Kept(b) && Grounded(b, tx) && tx.number.Some? && FromSnapshot(tx)
    requires !Taken(b.log, tx.request.lot, tx.number.value)
    ensures Kept(Committed(b, tx))
  {
    var b' := Committed(b, tx);
    CommitDrift(b, tx);
    FreeIsNext(b, tx);
    NextSeqCounts(b.log, tx.request.lot);
    forall i: nat | i < |b'.lots| ensures LotKept(b', i) {
      assert LotKept(b, i);
      assert WellKept(b'.lots[i], History(b'.log, i), b'.today);
    }
  }

  lemma CommitIsolated(w: World, t: nat)
    requires Isolated(w)
    ensures Kept(Next(w, Commit(t), true).b)
  {
    if Next(w, Commit(t), true).b != w.b { CommittedKept(w.b, w.open[t]); }
  }

  lemma NextFromSnapshot(w: World, m: Move)
    requires forall t :: t in w.open ==> FromSnapshot(w.open[t])
    ensures forall t :: t in Next(w, m, true).open ==> FromSnapshot(Next(w, m, true).open[t])
  {
  }

  lemma NextKept(w: World, m: Move)
    requires Isolated(w)
    ensures Kept(Next(w, m, true).b)
  {
    match m
    case Commit(t) => CommitIsolated(w, t);
    case IssueLot(c, h, k, n, d) => ApplyKeeps(w.b, IssueOp(c, h, k, n, d));
    case Clock(days, instants) => ApplyKeeps(w.b, ClockOp(days, instants));
    case _ =>
  }

  lemma NextIsolated(w: World, m: Move)
    requires Isolated(w)
    ensures Isolated(Next(w, m, true))
  {
    NextSound(w, m, true);
    NextKept(w, m);
    NextFromSnapshot(w, m);
  }

  lemma {:induction false} MovesIsolated(w: World, ms: seq<Move>)
    requires Isolated(w)
    ensures Isolated(Moves(w, ms, true))
  {
    if ms != [] {
      MovesIsolated(w, ms[..|ms| - 1]);
      NextIsolated(Moves(w, ms[..|ms| - 1], true), ms[|ms| - 1]);
    }
  }

  /** No lost update and no double subtraction: in every interleaving of
      one-snapshot executions each lot's numbers are 1..n and its column is what
      was issued plus every committed delta, never negative. */
  lemma NoLostUpdate(b: Book, ms: seq<Move>, id: nat)
    requires Kept(b) && id < |Moves(World(b, map[]), ms, true).b.lots|
    ensures var c := Moves(World(b, map[]), ms, true).b; var h := History(c.log, id);
      && (forall i :: 0 <= i < |h| ==> h[i].seqNo == i + 1)
      && h != [] && h[0].payload.Established?
      && c.lots[id].shares == h[0].payload.shares + Sum(h, Delta) >= 0
  {
    KeptIsShaped(b);
    MovesIsolated(World(b, map[]), ms);
    assert LotKept(Moves(World(b, map[]), ms, true).b, id);
  }

  lemma CommitTakes(w: World, t: nat)
    requires Isolated(w) && t in w.open && w.open[t].number.Some?
    ensures var w1, tx := Next(w, Commit(t), true), w.open[t];
      w1.open == w.open - {t} && Taken(w1.b.log, tx.request.lot, tx.number.value)
  {
    var w1 := Next(w, Commit(t), true);
    if w1.b != w.b {
      var e := w1.b.log[|w.b.log|];
      assert e in w1.b.log && e.aggregate == w.open[t].request.lot && e.seqNo == w.open[t].number.value;
    }
  }

  /** Of the executions that hold the same token at most one commits. */
  lemma OneWinnerPerToken(w: World, t: nat, s: nat)
    requires Isolated(w) && t in w.open && s in w.open && t != s
    requires w.open[t].request.lot == w.open[s].request.lot && w.open[t].p.expectedSeq == w.open[s].p.expectedSeq
    requires w.open[t].number.Some? && w.open[s].number.Some?
    ensures var w1 := Next(w, Commit(t), true); var w2 := Next(w1, Commit(s), true);
      w2.b == w1.b && s !in w2.open
  {
    CommitTakes(w, t);
  }

  /** Two executions projected from the same n events; the second takes its
      number only after the first committed. The second commit is accepted and
      the column misses the first delta, whatever it was. */
  lemma LateNumberLosesUpdate(b: Book, first: Tx, second: Tx)
    requires Kept(b) && Grounded(b, first) && Grounded(b, second.(number := None))
    requires first.request.lot == second.request.lot
    requires first.p.expectedSeq == second.p.expectedSeq == |History(b.log, first.request.lot)|
    requires first.number == Some(NextSeq(b.log, first.request.lot))
    requires second.number == Some(NextSeq(b.log, first.request.lot) + 1)
    ensures var id := first.request.lot; var c1 := Committed(b, first);
      && !Taken(b.log, id, first.number.value)
      && second.number.value == NextSeq(c1.log, id) && !Taken(c1.log, id, second.number.value)
      && var c2 := Committed(c1, second); var h := History(c2.log, id);
      && h != [] && h[0].payload.Established?
      && c2.lots[id].shares == h[0].payload.shares + Sum(h, Delta) - first.p.delta
  {
    var id, c1 := first.request.lot, Committed(b, first);
    var h := History(b.log, id);
    KeptIsShaped(b);
    NextSeqCounts(b.log, id);
    FreeIsNext(b, first);
    CommitDrift(b, first);
    CommitLeavesOthersGrounded(b, first, second.(number := None));
    var h1 := History(c1.log, id);
    NextSeqCounts(c1.log, id);
    FreeIsNext(c1, second);
    CommitDrift(c1, second);
    assert h1 == h + [c1.log[|b.log|]] by { SelectAppend(b.log, c1.log[|b.log|], Of(id)); }
    SumAppend(h, c1.log[|b.log|], Delta);
    assert h1[..|h|] == h && h1[..|h1|] == h1;
  }

  // ------------------------------------------------------------ a run that loses an update

  lemma MovesAppend(w: World, ms: seq<Move>, m: Move, oneSnapshot: bool)
    ensures Moves(w, ms + [m], oneSnapshot) == Next(Moves(w, ms, oneSnapshot), m, oneSnapshot)
  {
    assert (ms + [m])[..|ms|] == ms;
  }

  /** Two executions begin on the same lot, and the second takes its number after
      the first committed. */
  function LateMoves(first: Request, second: Request): seq<Move>
  {
    [Begin(0, first)] + [Begin(1, second)] + [TakeNumber(0)] + [Commit(0)] + [TakeNumber(1)] + [Commit(1)]
  }

  /** The two executions as projected, numbered from one snapshot or late. */
  function Open(b: Book, r: Request, number: Option<int>): Tx
    requires Execute(b, r).Ok?
  {
    Tx(r, Execute(b, r).value.1, number)
  }

  lemma ExpectedIsCurrent(b: Book, r: Request)
    requires Execute(b, r).Ok?
    ensures Execute(b, r).value.1.expectedSeq + 1 == NextSeq(b.log, r.lot)
  {
  }

  lemma Begins(w: World, t: nat, request: Request, oneSnapshot: bool)
    requires t !in w.open && Execute(w.b, request).Ok?
    ensures Next(w, Begin(t, request), oneSnapshot) == w.(open := w.open[t := Open(w.b, request, None)])
  {
  }

  lemma TakesNumber(w: World, t: nat, request: Request, oneSnapshot: bool)
    requires Execute(w.b, request).Ok? && t in w.open && w.open[t] == Open(w.b, request, None)
    ensures Next(w, TakeNumber(t), oneSnapshot)
         == w.(open := w.open[t := Open(w.b, request, Some(NextSeq(w.b.log, request.lot)))])
  {
    ExpectedIsCurrent(w.b, request);
  }

  /** Both begin, and the first takes the next number. */
  lemma BothBegin(b: Book, first: Request, second: Request, oneSnapshot: bool)
    requires Execute(b, first).Ok? && Execute(b, second).Ok?
    ensures Next(Next(World(b, map[]), Begin(0, first), oneSnapshot), Begin(1, second), oneSnapshot)
         == World(b, map[0 := Open(b, first, None), 1 := Open(b, second, None)])
  {
    Begins(World(b, map[]), 0, first, oneSnapshot);
    Begins(World(b, map[0 := Open(b, first, None)]), 1, second, oneSnapshot);
  }

  lemma CommitsFree(w: World, t: nat, oneSnapshot: bool)
    requires t in w.open && w.open[t].number.Some? && w.open[t].request.lot < |w.b.lots|
    requires !Taken(w.b.log, w.open[t].request.lot, w.open[t].number.value)
    ensures Next(w, Commit(t), oneSnapshot) == World(Committed(w.b, w.open[t]), w.open - {t})
  {
  }

  lemma FirstSteps(w: World, first: Request, second: Tx, oneSnapshot: bool)
    requires Kept(w.b) && Execute(w.b, first).Ok? && first.lot < |w.b.lots|
    requires w.open == map[0 := Open(w.b, first, None), 1 := second]
    ensures var one := Open(w.b, first, Some(NextSeq(w.b.log, first.lot)));
      Next(Next(w, TakeNumber(0), oneSnapshot), Commit(0), oneSnapshot)
      == World(Committed(w.b, one), map[1 := second])
  {
    var one := Open(w.b, first, Some(NextSeq(w.b.log, first.lot)));
    var taken := w.(open := w.open[0 := one]);
    TakesNumber(w, 0, first, oneSnapshot);
    NumberTaken(w.b.log, first.lot, one.number.value);
    CommitsFree(taken, 0, oneSnapshot);
    assert taken.open - {0} == map[1 := second];
  }

  lemma FirstCommits(b: Book, first: Request, second: Request, oneSnapshot: bool)
    requires Kept(b) && Execute(b, first).Ok? && Execute(b, second).Ok? && first.lot < |b.lots|
    ensures Moves(World(b, map[]), UpToFirstCommit(first, second), oneSnapshot)
         == World(OneDone(b, first), map[1 := Open(b, second, None)])
  {
    var w, one, two := World(b, map[]), [Begin(0, first)], [Begin(0, first)] + [Begin(1, second)];
    MovesAppend(w, [], Begin(0, first), oneSnapshot);
    assert [] + one == one;
    MovesAppend(w, one, Begin(1, second), oneSnapshot);
    MovesAppend(w, two, TakeNumber(0), oneSnapshot);
    MovesAppend(w, two + [TakeNumber(0)], Commit(0), oneSnapshot);
    BothBegin(b, first, second, oneSnapshot);
    FirstSteps(Moves(w, two, oneSnapshot), first, Open(b, second, None), oneSnapshot);
  }

  function UpToFirstCommit(first: Request, second: Request): seq<Move>
  {
    [Begin(0, first)] + [Begin(1, second)] + [TakeNumber(0)] + [Commit(0)]
  }

  function OneDone(b: Book, first: Request): Book
    requires Execute(b, first).Ok? && first.lot < |b.lots|
  {
    Committed(b, Open(b, first, Some(NextSeq(b.log, first.lot))))
  }

  /** After the first commit the second execution takes its number and commits. */
  lemma SecondSteps(w: World, tx: Tx, number: int, oneSnapshot: bool)
    requires w.open == map[1 := tx] && tx.number.None? && tx.request.lot < |w.b.lots|
    requires number == if oneSnapshot then tx.p.expectedSeq + 1 else NextSeq(w.b.log, tx.request.lot)
    ensures Next(Next(w, TakeNumber(1), oneSnapshot), Commit(1), oneSnapshot).b
         == if Taken(w.b.log, tx.request.lot, number) then w.b else Committed(w.b, tx.(number := Some(number)))
  {
  }

  lemma LateNumbersEnd(b: Book, first: Request, second: Request, number: int, oneSnapshot: bool)
    requires Kept(b) && Execute(b, first).Ok? && Execute(b, second).Ok?
    requires first.lot == second.lot < |b.lots|
    requires number == if oneSnapshot then NextSeq(b.log, first.lot) else NextSeq(OneDone(b, first).log, first.lot)
    ensures var c1 := OneDone(b, first);
      Moves(World(b, map[]), LateMoves(first, second), oneSnapshot).b
      == if Taken(c1.log, first.lot, number) then c1 else Committed(c1, Open(b, second, Some(number)))
  {
    var start, ms, two := World(b, map[]), UpToFirstCommit(first, second), Open(b, second, None);
    FirstCommits(b, first, second, oneSnapshot);
    MovesAppend(start, ms, TakeNumber(1), oneSnapshot);
    MovesAppend(start, ms + [TakeNumber(1)], Commit(1), oneSnapshot);
    ExpectedIsCurrent(b, second);
    SecondSteps(Moves(start, ms, oneSnapshot), two, number, oneSnapshot);
  }

  lemma FirstNumberIsTaken(b: Book, first: Request)
    requires Kept(b) && Execute(b, first).Ok? && first.lot < |b.lots|
    ensures Taken(OneDone(b, first).log, first.lot, NextSeq(b.log, first.lot))
  {
    var e := OneDone(b, first).log[|b.log|];
    assert e in OneDone(b, first).log && e.aggregate == first.lot;
  }

  lemma ProjectedDelta(b: Book, r: Request, number: Option<int>)
    requires Kept(b) && Execute(b, r).Ok?
    ensures r.lot < |b.lots| && Open(b, r, number).p.delta == -r.shares && Open(b, r, number).request == r
    ensures Open(b, r, number).p.expectedSeq == |History(b.log, r.lot)|
    ensures Grounded(b, Open(b, r, None))
    ensures number == Some(NextSeq(b.log, r.lot)) ==> Grounded(b, Open(b, r, number))
  {
    KeptIsShaped(b);
    NextSeqCounts(b.log, r.lot);
    ProjectionGrounds(b, r);
  }

  lemma NumberIsFree(b: Book, first: Request)
    requires Kept(b) && Execute(b, first).Ok? && first.lot < |b.lots|
    ensures !Taken(OneDone(b, first).log, first.lot, NextSeq(OneDone(b, first).log, first.lot))
  {
    var next := NextSeq(b.log, first.lot);
    KeptIsShaped(b);
    ProjectedDelta(b, first, Some(next));
    ExpectedIsCurrent(b, first);
    NumberTaken(b.log, first.lot, next);
    CommittedKept(b, Open(b, first, Some(next)));
    NumberTaken(OneDone(b, first).log, first.lot, NextSeq(OneDone(b, first).log, first.lot));
  }

  /** The second is rolled back when its number is of the projection's snapshot, and
      commits beside the first when the number is read again. */
  lemma LateRunOutcome(b: Book, first: Request, second: Request, oneSnapshot: bool)
    requires Kept(b) && Execute(b, first).Ok? && Execute(b, second).Ok? && first.lot == second.lot < |b.lots|
    ensures var c1 := OneDone(b, first);
      Moves(World(b, map[]), LateMoves(first, second), oneSnapshot).b
      == if oneSnapshot then c1 else Committed(c1, Open(b, second, Some(NextSeq(c1.log, first.lot))))
  {
    var c1 := OneDone(b, first);
    var number := if oneSnapshot then NextSeq(b.log, first.lot) else NextSeq(c1.log, first.lot);
    LateNumbersEnd(b, first, second, number, oneSnapshot);
    if oneSnapshot {
      FirstNumberIsTaken(b, first);
    } else {
      NumberIsFree(b, first);
    }
  }

  /** From any book and any two acceptable requests on one lot: when the number is
      read again both commit, and the column misses the first delta. */
  lemma LateNumberRun(b: Book, first: Request, second: Request)
    requires Kept(b) && Execute(b, first).Ok? && Execute(b, second).Ok? && first.lot == second.lot
    ensures var late := Moves(World(b, map[]), LateMoves(first, second), false).b;
      var h := History(late.log, first.lot);
      && h != [] && h[0].payload.Established? && first.lot < |late.lots|
      && late.lots[first.lot].shares == h[0].payload.shares + Sum(h, Delta) + first.shares
  {
    var next := NextSeq(b.log, first.lot);
    ProjectedDelta(b, first, Some(next));
    ProjectedDelta(b, second, Some(next + 1));
    LateNumberLosesUpdate(b, Open(b, first, Some(next)), Open(b, second, Some(next + 1)));
    LateNumbersEnd(b, first, second, next + 1, false);
  }
}
