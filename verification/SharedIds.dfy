/**
 What an import does to another company's pool when a row of the target has the
 pool's id: the event is looked up under the name it carries, and read by its id.
 */
module SharedIds {
  import opened Wrappers
  import opened Import
  import BaseFold
  import Ledger
  import PoolLedger

  const EMPLOYEES := 2

  /** A pool's events, whatever table they name. */
  function PoolHistory(events: seq<EventRow>, pk: nat): seq<PoolLedger.PoolEvent>
  {
    Ledger.History(PoolLog(events), pk)
  }

  function PoolFold(events: seq<EventRow>, pk: nat): Option<PoolLedger.PoolState>
  {
    PoolLedger.Fold(Ledger.EventsFor(PoolLog(events), pk, Ledger.EVERYTHING))
  }

  function StateOf(a: Amounts): PoolLedger.PoolState
  {
    PoolLedger.PoolState(a.allocatedShares, a.unallocatedShares, a.total)
  }

  /** The stored balances are what the pool's history folds to. */
  predicate Agrees(rows: Tables, events: seq<EventRow>, pk: nat)
    requires POOLS < |rows| && pk in rows[POOLS]
  {
    var balance := rows[POOLS][pk].balance;
    && balance.Some?
    && PoolFold(events, pk) == Some(StateOf(balance.value))
  }

  lemma {:induction false} PoolLogConcat(events: seq<EventRow>, more: seq<EventRow>)
    ensures PoolLog(events + more) == PoolLog(events) + PoolLog(more)
  {
    if more == [] {
      assert events + more == events;
    } else {
      assert (events + more)[..|events + more| - 1] == events + more[..|more| - 1];
      PoolLogConcat(events, more[..|more| - 1]);
    }
  }

  lemma {:induction false} PoolLogMember(events: seq<EventRow>, e: PoolLedger.PoolEvent)
    requires e in PoolLog(events)
    ensures (e.aggregate, e.seqNo) in Pairs(events)
  {
    var n := |events| - 1;
    assert events == events[..n] + [events[n]];
    PairsAndIdsAppend(events[..n], [events[n]]);
    SinglePair(events[n]);
    if e in PoolLog(events[..n]) { PoolLogMember(events[..n], e); }
  }

  /** The pool was established once, and no other event of it has the base's number. */
  ghost predicate BasedOnce(events: seq<EventRow>, pk: nat, base: PoolLedger.PoolEvent)
  {
    var h := PoolHistory(events, pk);
    && base in h && base.payload.Balance? && Ledger.Sum(h, BaseFold.IsBase(PoolLedger.Read)) == 1
    && forall e :: e in h && e != base ==> e.seqNo != base.seqNo
  }

  /** What the events change that sort after the base. */
  function Change(events: seq<EventRow>, pk: nat, base: PoolLedger.PoolEvent): int
  {
    Ledger.Sum(PoolHistory(events, pk), BaseFold.NetAfter(PoolLedger.Read, base))
  }

  lemma FoldIs(events: seq<EventRow>, pk: nat, base: PoolLedger.PoolEvent)
    requires BasedOnce(events, pk, base)
    ensures PoolFold(events, pk)
         == Some(PoolLedger.Moved(
             PoolLedger.PoolState(base.payload.allocatedShares, base.payload.unallocatedShares, base.payload.total),
             Change(events, pk, base)))
  {
    var h := PoolHistory(events, pk);
    Ledger.EventsForEverything(PoolLog(events), pk);
    Ledger.SortIsOrderBy(h);
    Ledger.SumSort(h, BaseFold.IsBase(PoolLedger.Read));
    Ledger.SumSort(h, BaseFold.NetAfter(PoolLedger.Read, base));
    forall e ensures e in Ledger.Sort(h) <==> e in h { Ledger.SortMembers(h, e); }
    BaseFold.FoldAfterBase(Ledger.Sort(h), PoolLedger.Read, base);
    PoolLedger.FoldIsTally(Ledger.Sort(h));
  }

  lemma HistoryGrows(events: seq<EventRow>, more: seq<EventRow>, pk: nat)
    ensures PoolHistory(events + more, pk) == PoolHistory(events, pk) + PoolHistory(more, pk)
  {
    PoolLogConcat(events, more);
    Ledger.SelectConcat(PoolLog(events), PoolLog(more), Ledger.Of(pk));
  }

  lemma HistoryMember(events: seq<EventRow>, pk: nat, e: PoolLedger.PoolEvent)
    requires e in PoolHistory(events, pk)
    ensures (pk, e.seqNo) in Pairs(events)
  {
    Ledger.SelectMembers(PoolLog(events), Ledger.Of(pk), e);
    PoolLogMember(events, e);
  }

  lemma StillBasedOnce(events: seq<EventRow>, more: seq<EventRow>, pk: nat, base: PoolLedger.PoolEvent)
    requires BasedOnce(events, pk, base) && Pairs(events) !! Pairs(more)
    requires forall e :: e in PoolHistory(more, pk) ==> !e.payload.Balance?
    ensures BasedOnce(events + more, pk, base)
  {
    var h, added := PoolHistory(events, pk), PoolHistory(more, pk);
    HistoryGrows(events, more, pk);
    Ledger.SumConcat(h, added, BaseFold.IsBase(PoolLedger.Read));
    BaseFold.NoBase(added, PoolLedger.Read);
    HistoryMember(events, pk, base);
    forall e | e in added ensures e.seqNo != base.seqNo { HistoryMember(more, pk, e); }
  }

  /** More events without a base, under numbers of their own, move the fold by
      what they change after the base. */
  lemma FoldMoves(events: seq<EventRow>, more: seq<EventRow>, pk: nat, base: PoolLedger.PoolEvent)
    requires BasedOnce(events, pk, base) && Pairs(events) !! Pairs(more)
    requires forall e :: e in PoolHistory(more, pk) ==> !e.payload.Balance?
    ensures PoolFold(events, pk).Some?
    ensures PoolFold(events + more, pk)
         == Some(PoolLedger.Moved(PoolFold(events, pk).value, Change(more, pk, base)))
  {
    StillBasedOnce(events, more, pk, base);
    HistoryGrows(events, more, pk);
    Ledger.SumConcat(PoolHistory(events, pk), PoolHistory(more, pk), BaseFold.NetAfter(PoolLedger.Read, base));
    FoldIs(events, pk, base);
    FoldIs(events + more, pk, base);
  }

  lemma {:induction false} NewPairsAreNew(
      g: Target, batch: Batch, existing: seq<EventRow>, events: seq<EventRow>)
    requires Ready(g) && |batch| == |g.reg|
    ensures Pairs(existing) !! Pairs(NewEvents(events, ScanEvents(g, batch, existing, events).statuses))
  {
    if events != [] {
      var n, r := |events| - 1, ScanEvents(g, batch, existing, events).statuses;
      NewPairsAreNew(g, batch, existing, events[..n]);
      assert r[..n] == ScanEvents(g, batch, existing, events[..n]).statuses;
      NewEventsOfLast(events, r);
    } else {
      assert Pairs([]) == {};
    }
  }

  function Added(reg: seq<TableSpec>, db: Db, bundle: Bundle, company: nat): seq<EventRow>
    requires Fits(reg, db, bundle)
  {
    NewEvents(bundle.events, DryRun(reg, db, bundle, company).events)
  }

  lemma AddedEvents(reg: seq<TableSpec>, db: Db, bundle: Bundle, company: nat)
    requires Fits(reg, db, bundle)
    ensures Written(reg, db, bundle, company).events == db.events + Added(reg, db, bundle, company)
    ensures Pairs(db.events) !! Pairs(Added(reg, db, bundle, company))
  {
    var g := TargetOf(reg, db, company);
    NewPairsAreNew(g, ScanTables(g, bundle.tables, |reg|).1, db.events, bundle.events);
  }

  lemma OtherPoolKept(reg: seq<TableSpec>, db: Db, bundle: Bundle, company: nat, others: bool, other: nat, pk: nat)
    requires Succeeds(reg, db, bundle, company, others) && other != company
    requires InScope(reg, db.rows, other, POOLS, pk)
    ensures var rows' := Written(reg, db, bundle, company).rows;
      |rows'| == |reg| && pk in rows'[POOLS] && rows'[POOLS][pk] == db.rows[POOLS][pk]
  {
    OthersUntouched(reg, db, bundle, company, others, other, POOLS, pk);
  }

  /** Another company's pool row never changes. If it agreed with its history and
      the bundle brings it no base, it still agrees exactly when the new events
      with its id, under whatever name, change nothing after its base. */
  lemma OtherPoolAgreesIff(
      reg: seq<TableSpec>, db: Db, bundle: Bundle, company: nat, others: bool, other: nat, pk: nat,
      base: PoolLedger.PoolEvent)
    requires Succeeds(reg, db, bundle, company, others) && other != company
    requires InScope(reg, db.rows, other, POOLS, pk) && Agrees(db.rows, db.events, pk)
    requires BasedOnce(db.events, pk, base)
    requires forall e :: e in PoolHistory(Added(reg, db, bundle, company), pk) ==> !e.payload.Balance?
    ensures var db' := Written(reg, db, bundle, company);
      && pk in db'.rows[POOLS] && db'.rows[POOLS][pk] == db.rows[POOLS][pk]
      && (Agrees(db'.rows, db'.events, pk) <==> Change(Added(reg, db, bundle, company), pk, base) == 0)
  {
    OtherPoolKept(reg, db, bundle, company, others, other, pk);
    AddedEvents(reg, db, bundle, company);
    FoldMoves(db.events, Added(reg, db, bundle, company), pk, base);
  }

  // ------------------------------------------------------------ the target's own pools

  /** The bundle brings the pool a new event under the pools' name. */
  ghost predicate Touched(bundle: Bundle, r: Report, pk: nat)
    requires |r.events| == |bundle.events|
  {
    exists i :: 0 <= i < |bundle.events| && r.events[i] == New && bundle.events[i].kind == Some(POOLS)
                && bundle.events[i].aggregate == pk
  }

  lemma TouchedIff(bundle: Bundle, r: Report, pk: nat)
    requires |r.events| == |bundle.events|
    ensures pk in TouchedPools(NewEvents(bundle.events, r.events)) <==> Touched(bundle, r, pk)
  {
    var added := NewEvents(bundle.events, r.events);
    if e :| e in added && e.kind == Some(POOLS) && e.aggregate == pk {
      NewEventComesFrom(bundle.events, r.events, e);
    }
    if i :| 0 <= i < |bundle.events| && r.events[i] == New && bundle.events[i].kind == Some(POOLS)
            && bundle.events[i].aggregate == pk {
      NewEventComesFrom(bundle.events, r.events, bundle.events[i].(actor := None));
    }
  }

  /** What a commit leaves in a pool's balance, given the one stored or imported:
      the two amounts of its whole history if it received an event, else as it was.
      The size is never recomputed. */
  ghost predicate Settled(
      before: Option<Amounts>, after: Option<Amounts>, touched: bool, events: seq<EventRow>, pk: nat)
  {
    var fold := PoolFold(events, pk);
    if touched && before.Some? && fold.Some? then
      && after.Some? && after.value.total == before.value.total
      && after.value.allocatedShares == fold.value.allocatedShares
      && after.value.unallocatedShares == fold.value.unallocatedShares
    else after == before
  }

  lemma RecomputedSettles(rows: Tables, events: seq<EventRow>, touched: set<nat>, pk: nat)
    requires POOLS < |rows| && pk in rows[POOLS]
    ensures var rows' := Recomputed(rows, events, touched);
      |rows'| == |rows| && pk in rows'[POOLS]
          && Settled(rows[POOLS][pk].balance, rows'[POOLS][pk].balance, pk in touched, events, pk)
  {
  }

  /** After a commit every pool that was there, whoever owns it, is settled. */
  lemma PoolsAreSettled(reg: seq<TableSpec>, db: Db, bundle: Bundle, company: nat, others: bool, pk: nat)
    requires Succeeds(reg, db, bundle, company, others) && pk in db.rows[POOLS]
    ensures var r, db' := DryRun(reg, db, bundle, company), Written(reg, db, bundle, company);
      && |db'.rows| == |reg| && pk in db'.rows[POOLS]
      && Settled(db.rows[POOLS][pk].balance, db'.rows[POOLS][pk].balance, Touched(bundle, r, pk), db'.events, pk)
  {
    var g, r := TargetOf(reg, db, company), DryRun(reg, db, bundle, company);
    WrittenTable(g, bundle.tables, |reg|, POOLS);
    TouchedIff(bundle, r, pk);
    RecomputedSettles(WriteTables(g, bundle.tables, r.tables, |reg|), Written(reg, db, bundle, company).events,
        TouchedPools(NewEvents(bundle.events, r.events)), pk);
  }

  /** So is every pool the bundle brings. */
  lemma NewPoolsAreSettled(reg: seq<TableSpec>, db: Db, bundle: Bundle, company: nat, others: bool, i: nat)
    requires Succeeds(reg, db, bundle, company, others) && i < |bundle.tables[POOLS]|
    requires DryRun(reg, db, bundle, company).tables[POOLS][i] == New
    ensures var r, db', row := DryRun(reg, db, bundle, company), Written(reg, db, bundle, company),
                               bundle.tables[POOLS][i];
      && |db'.rows| == |reg| && row.pk in db'.rows[POOLS]
      && Settled(row.balance, db'.rows[POOLS][row.pk].balance, Touched(bundle, r, row.pk), db'.events, row.pk)
  {
    var g, r := TargetOf(reg, db, company), DryRun(reg, db, bundle, company);
    NewRowLands(g, bundle.tables, POOLS, i);
    TouchedIff(bundle, r, bundle.tables[POOLS][i].pk);
    RecomputedSettles(WriteTables(g, bundle.tables, r.tables, |reg|), Written(reg, db, bundle, company).events,
        TouchedPools(NewEvents(bundle.events, r.events)), bundle.tables[POOLS][i].pk);
  }

  /** A settled pool that received an event agrees with its history exactly when the
      history has its size. */
  lemma SettledAgreesIff(rows: Tables, events: seq<EventRow>, pk: nat, before: Option<Amounts>)
    requires POOLS < |rows| && pk in rows[POOLS] && before.Some? && PoolFold(events, pk).Some?
    requires Settled(before, rows[POOLS][pk].balance, true, events, pk)
    ensures Agrees(rows, events, pk) <==> PoolFold(events, pk).value.total == before.value.total
  {
  }

  // ------------------------------------------------------------ such an import

  /** One row with the pool's id in another ledger table, and one event that names
      that table. */
  function SharedIdBundle(n: nat, t: nat, pk: nat, e: EventRow): Bundle
  {
    Bundle(seq(n, k => if k == t then [Row(pk, None, map[], map[], None, "")] else []), [], [], [], [e], [], [], [])
  }

  /** The table keeps a ledger, refers to nothing and lacks the pool's id, and the
      event is not stored yet. */
  ghost predicate Importable(reg: seq<TableSpec>, db: Db, t: nat, pk: nat, e: EventRow)
  {
    && Topological(reg) && POOLS < |reg| && |db.rows| == |reg|
    && t < |reg| && reg[t].hasLedger && reg[t].fks == [] && pk !in db.rows[t]
    && e.kind == Some(t) && e.aggregate == pk && e.corrects == None && e.actor == None
    && PairOf(e) !in Pairs(db.events) && e.id !in Ids(db.events)
  }

  lemma SharedIdTablesAreClean(reg: seq<TableSpec>, db: Db, company: nat, t: nat, pk: nat, e: EventRow)
    requires Importable(reg, db, t, pk, e)
    ensures CleanBundle(TargetOf(reg, db, company), SharedIdBundle(|reg|, t, pk, e).tables)
  {
    var g, tables := TargetOf(reg, db, company), SharedIdBundle(|reg|, t, pk, e).tables;
    forall k: nat, i: nat | k < |reg| && i < |tables[k]| ensures Acceptable(g, tables, k, i) {
      assert k == t && i == 0;
    }
    CleanBundleIff(g, tables);
  }

  lemma SharedIdIsSeen(reg: seq<TableSpec>, db: Db, company: nat, t: nat, pk: nat, e: EventRow)
    requires Importable(reg, db, t, pk, e)
    ensures var g, tables := TargetOf(reg, db, company), SharedIdBundle(|reg|, t, pk, e).tables;
      RequiredPresent(g, tables) && pk in ScanTables(g, tables, |reg|).1[t]
  {
    var g, tables := TargetOf(reg, db, company), SharedIdBundle(|reg|, t, pk, e).tables;
    SharedIdTablesAreClean(reg, db, company, t, pk, e);
    CleanScanTables(g, tables, |reg|);
    assert tables[t][0].pk == pk;
  }

  lemma OneNewEvent(g: Target, batch: Batch, existing: seq<EventRow>, e: EventRow)
    requires Ready(g) && |batch| == |g.reg| && AggregateKnown(g, batch, e)
    requires e.corrects == None && e.actor == None && PairOf(e) !in Pairs(existing)
    ensures ScanEvents(g, batch, existing, [e]).statuses == [New] && NewEvents([e], [New]) == [e]
  {
    assert [e][..0] == [] && [New][..0] == [];
    assert ScanEvents(g, batch, existing, []) == EventScan([], {}, {});
    assert ClassifyEvent(g, batch, existing, {}, {}, e) == New;
  }

  /** It is committed, whatever else the database holds. */
  lemma SharedIdCommits(reg: seq<TableSpec>, db: Db, company: nat, t: nat, pk: nat, e: EventRow)
    requires Importable(reg, db, t, pk, e)
    ensures var bundle := SharedIdBundle(|reg|, t, pk, e);
      && Succeeds(reg, db, bundle, company, true)
      && Commit(reg, db, bundle, company, true).1.Committed?
      && Commit(reg, db, bundle, company, true).0 == Written(reg, db, bundle, company)
      && Added(reg, db, bundle, company) == [e]
  {
    var g, bundle := TargetOf(reg, db, company), SharedIdBundle(|reg|, t, pk, e);
    SharedIdTablesAreClean(reg, db, company, t, pk, e);
    SharedIdIsSeen(reg, db, company, t, pk, e);
    OneNewEvent(g, ScanTables(g, bundle.tables, |reg|).1, db.events, e);
    SinglePair(e);
  }

  /** So from any database another company's pool can be reached through any such
      table: its row stays, its history moves by the amount, and the two disagree. */
  lemma SharedIdPartsThem(
      reg: seq<TableSpec>, db: Db, company: nat, other: nat, t: nat, pk: nat, e: EventRow, base: PoolLedger.PoolEvent)
    requires Importable(reg, db, t, pk, e)
    requires other != company && InScope(reg, db.rows, other, POOLS, pk)
    requires Agrees(db.rows, db.events, pk) && BasedOnce(db.events, pk, base)
    requires e.payload.Some? && e.payload.value.Allocated? && e.payload.value.amount != 0
    requires e.effective > base.effective
    ensures var (db', o) := Commit(reg, db, SharedIdBundle(|reg|, t, pk, e), company, true);
      && o.Committed? && |db'.rows| == |reg|
      && pk in db'.rows[POOLS] && db'.rows[POOLS][pk] == db.rows[POOLS][pk]
      && PoolFold(db.events, pk).Some?
      && PoolFold(db'.events, pk) == Some(PoolLedger.Moved(PoolFold(db.events, pk).value, e.payload.value.amount))
      && !Agrees(db'.rows, db'.events, pk)
  {
    var bundle := SharedIdBundle(|reg|, t, pk, e);
    SharedIdCommits(reg, db, company, t, pk, e);
    OneEventHistory(e, pk, base);
    OtherPoolAgreesIff(reg, db, bundle, company, true, other, pk, base);
    AddedEvents(reg, db, bundle, company);
    FoldMoves(db.events, [e], pk, base);
  }

  function Filed(e: EventRow): PoolLedger.PoolEvent
    requires e.payload.Some?
  {
    Ledger.Event(e.aggregate, e.payload.value, e.effective, e.recorded, e.seqNo, e.kind != Some(POOLS))
  }

  lemma OneFiled(e: EventRow)
    requires e.payload.Some?
    ensures PoolHistory([e], e.aggregate) == [Filed(e)]
  {
    assert [e][..0] == [];
    assert PoolLog([e]) == [] + [Filed(e)];
    Ledger.SelectAppend([], Filed(e), Ledger.Of(e.aggregate));
    assert [] + [Filed(e)] == [Filed(e)];
  }

  lemma OneEventHistory(e: EventRow, pk: nat, base: PoolLedger.PoolEvent)
    requires e.aggregate == pk && e.payload.Some? && e.payload.value.Allocated? && e.effective > base.effective
    ensures forall x :: x in PoolHistory([e], pk) ==> !x.payload.Balance?
    ensures Change([e], pk, base) == e.payload.value.amount
  {
    OneFiled(e);
    PoolLedger.NetOf(Filed(e));
    Ledger.SumOne(Filed(e), BaseFold.NetAfter(PoolLedger.Read, base));
  }

  // ------------------------------------------------------------ one run

  const ROW := Row(7, Some(0), map[], map[], Some(Amounts(0, 1000, 1000)), "")
  const BASE := EventRow(0, Some(POOLS), 7, 1, None, 1, 1, Some(PoolLedger.Balance(0, 1000, 1000)), None)
  const SENT := EventRow(1, Some(EMPLOYEES), 7, 2, None, 2, 2, Some(PoolLedger.Allocated(400, 0)), None)

  /** Company 0 has pool 7, with nothing allocated, and nobody else has anything. */
  function OnePool(): Db
  {
    Db(seq(|REGISTRY|, t => if t == POOLS then map[7 := ROW] else map[]), [BASE], {}, {}, {}, {}, {}, {})
  }

  lemma OnePoolAgrees()
    ensures BasedOnce([BASE], 7, Filed(BASE)) && PoolFold([BASE], 7) == Some(PoolLedger.PoolState(0, 1000, 1000))
  {
    var base := Filed(BASE);
    OneFiled(BASE);
    PoolLedger.NetOf(base);
    Ledger.SumOne(base, BaseFold.IsBase(PoolLedger.Read));
    Ledger.SumOne(base, BaseFold.NetAfter(PoolLedger.Read, base));
    FoldIs([BASE], 7, base);
  }

  /** Company 1 imports an employee 7 and an event of the employee's that says 400
      were allocated. Afterwards company 0's pool still stores nothing allocated,
      and its history says 400 of 1000. */
  lemma SharedIdRun()
    ensures Topological(REGISTRY)
    ensures var (db', o) := Commit(REGISTRY, OnePool(), SharedIdBundle(|REGISTRY|, EMPLOYEES, 7, SENT), 1, true);
      && o.Committed? && |db'.rows| == |REGISTRY|
      && 7 in db'.rows[POOLS] && db'.rows[POOLS][7].balance == Some(Amounts(0, 1000, 1000))
      && PoolFold(db'.events, 7) == Some(PoolLedger.PoolState(400, 600, 1000))
  {
    RegistryIsTopological();
    OnePoolAgrees();
    SinglePair(BASE);
    SharedIdPartsThem(REGISTRY, OnePool(), 1, 0, EMPLOYEES, 7, SENT, Filed(BASE));
  }
}
