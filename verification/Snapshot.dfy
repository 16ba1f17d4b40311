/** The as-of cap table: what a company has outstanding, by holder and class. */
module Snapshot {
  import opened Wrappers
  import opened Ledger
  import opened ShareLedger
  import PoolLedger

  /** The rows a cap-table request reads. Lots and pools are numbered by their
      position; holders and classes carry the company they belong to; a company
      without an entry in caps has no authorized total. */
  datatype Book = Book(
    lots: seq<Lot>,
    log: seq<ShareEvent>,
    holders: seq<nat>,
    classes: seq<nat>,
    pools: seq<PoolLedger.Pool>,
    poolLog: seq<PoolLedger.PoolEvent>,
    caps: map<nat, int>,
    today: int,
    now: int)

  datatype Key = Key(holder: nat, shareClass: nat)

  /** Whose lots, as of when, and of which holder and class if only one is asked for. */
  datatype Query = Query(company: nat, asOf: int, key: Option<Key>)

  predicate Counted(lot: Lot, q: Query)
  {
    && lot.company == q.company && lot.issueDate <= q.asOf
    && (q.key.Some? ==> KeyOf(lot) == q.key.value)
  }

  function KeyOf(lot: Lot): Key { Key(lot.holder, lot.shareClass) }

  function LotAt(log: seq<ShareEvent>, id: nat, asOf: int): Option<LotState>
  {
    ProjectIssuance(EventsFor(log, id, AsOf(asOf)))
  }

  /** The same from the rows a report reads: those that carry the lots' name. */
  function ReportedAt(log: seq<ShareEvent>, id: nat, asOf: int): Option<LotState>
  {
    LotAt(Own(log), id, asOf)
  }

  function Worth(lots: seq<Lot>, log: seq<ShareEvent>, q: Query, id: nat): int
    requires id < |lots|
  {
    var state := ReportedAt(log, id, q.asOf);
    if Counted(lots[id], q) && state.Some? then state.value.shares else 0
  }

  /** The naive reading: project every counted lot on its own and add up. */
  function Total(lots: seq<Lot>, log: seq<ShareEvent>, q: Query): int
  {
    if lots == [] then 0
    else Total(lots[..|lots| - 1], log, q) + Worth(lots, log, q, |lots| - 1)
  }

  function Outstanding(b: Book, company: nat, asOf: int): int
  {
    Total(b.lots, b.log, Query(company, asOf, None))
  }

  predicate LacksHistory(lots: seq<Lot>, log: seq<ShareEvent>, q: Query, id: nat)
  {
    id < |lots| && Counted(lots[id], q) && ReportedAt(log, id, q.asOf).None?
  }

  /** A pool's size: the column from today on, its history before. */
  function PoolAt(b: Book, id: nat, asOf: int): Option<int>
    requires id < |b.pools|
  {
    if asOf >= b.today then Some(b.pools[id].total)
    else
      var state := PoolLedger.Fold(EventsFor(b.poolLog, id, AsOf(asOf)));
      if state.None? then None else Some(state.value.total)
  }

  function PoolTotalUpTo(b: Book, company: nat, asOf: int, n: nat): int
    requires n <= |b.pools|
  {
    if n == 0 then 0
    else
      var size := PoolAt(b, n - 1, asOf);
      PoolTotalUpTo(b, company, asOf, n - 1)
      + if b.pools[n - 1].company == company && size.Some? then size.value else 0
  }

  function FullyDiluted(b: Book, company: nat, asOf: int): int
  {
    Outstanding(b, company, asOf) + PoolTotalUpTo(b, company, asOf, |b.pools|)
  }

  /** A past report knows a pool's size exactly from the day of its base event;
      before it the pool counts as missing, though it lost nothing. */
  lemma PoolKnownIff(b: Book, id: nat, asOf: int, base: PoolLedger.PoolEvent)
    requires id < |b.pools| && asOf < b.today
    requires base in b.poolLog && base.aggregate == id && base.payload.Balance?
    requires forall e :: e in b.poolLog && e.aggregate == id && e.payload.Balance? ==> e == base
    ensures PoolAt(b, id, asOf) == if base.effective <= asOf then Some(base.payload.total) else None
  {
    var es := EventsFor(b.poolLog, id, AsOf(asOf));
    forall e
      ensures e in es <==> e in b.poolLog && e.aggregate == id && InCut(e, AsOf(asOf))
    {
      EventsForMembers(b.poolLog, id, AsOf(asOf), e);
    }
    PoolLedger.FoldSize(es, base.payload.total);
  }

  /** Reports of any day, past, today or later, agree on a pool whose row has the
      size of its one base: the size from the base's day on. */
  lemma PoolSizeIs(b: Book, id: nat, asOf: int, base: PoolLedger.PoolEvent)
    requires base in b.poolLog && base.aggregate == id && base.payload.Balance? && base.effective <= b.today
    requires id < |b.pools| && b.pools[id].total == base.payload.total
    requires forall e :: e in b.poolLog && e.aggregate == id && e.payload.Balance? ==> e == base
    ensures PoolAt(b, id, asOf) == if base.effective <= asOf then Some(base.payload.total) else None
  {
    if asOf < b.today { PoolKnownIff(b, id, asOf, base); }
  }

  function SizeIn(company: nat): PoolLedger.Pool -> int
  {
    (p: PoolLedger.Pool) => if p.company == company then p.total else 0
  }

  lemma {:induction false} PoolTotalToday(b: Book, company: nat, asOf: int, n: nat)
    requires n <= |b.pools| && asOf >= b.today
    ensures PoolTotalUpTo(b, company, asOf, n) == Sum(b.pools[..n], SizeIn(company))
  {
    if n > 0 {
      assert b.pools[..n][..n - 1] == b.pools[..n - 1];
      PoolTotalToday(b, company, asOf, n - 1);
    }
  }

  // -------------------------------------------------- grouping one sorted list

  /** The second query's join and filter. */
  function Joined(lots: seq<Lot>, q: Query): ShareEvent -> bool
  {
    (e: ShareEvent) =>
      !e.misfiled && e.aggregate < |lots| && Counted(lots[e.aggregate], q) && e.effective <= q.asOf
  }

  function Grouped(lots: seq<Lot>, log: seq<ShareEvent>, q: Query, id: nat): seq<ShareEvent>
  {
    Select(Sort(Select(log, Joined(lots, q))), Of(id))
  }

  /** Sorting all joined events at once and grouping them by lot gives every
      counted lot its own events, in order. */
  lemma GroupedIsOwn(lots: seq<Lot>, log: seq<ShareEvent>, q: Query, id: nat)
    requires id < |lots| && Counted(lots[id], q)
    ensures Grouped(lots, log, q, id) == EventsFor(Own(log), id, AsOf(q.asOf))
  {
    SelectSort(Select(log, Joined(lots, q)), Of(id));
    SelectTwice(log, Joined(lots, q), Of(id), OwnWithin(id, AsOf(q.asOf)));
    OwnVisible(log, id, AsOf(q.asOf));
  }

  /** That is the list events_for returns for the lot exactly when no event of its
      id up to the day is stored under another name. */
  lemma GroupedIsEventsForIff(lots: seq<Lot>, log: seq<ShareEvent>, q: Query, id: nat)
    requires id < |lots| && Counted(lots[id], q)
    ensures Grouped(lots, log, q, id) == EventsFor(log, id, AsOf(q.asOf))
      <==> forall e :: e in log && e.aggregate == id && e.effective <= q.asOf ==> !e.misfiled
  {
    GroupedIsOwn(lots, log, q, id);
    OwnViewIff(log, id, AsOf(q.asOf));
  }

  // -------------------------------------------------- events under another name

  lemma ReportedIsProjected(log: seq<ShareEvent>, id: nat, asOf: int)
    requires forall e :: e in History(log, id) ==> !e.misfiled
    ensures ReportedAt(log, id, asOf) == LotAt(log, id, asOf)
  {
    forall e | e in log && e.aggregate == id ensures !e.misfiled { SelectMembers(log, Of(id), e); }
    OwnViewIff(log, id, AsOf(asOf));
  }

  /** What a reader by id adds to a report of the same lot. */
  function Stray(e: ShareEvent): int { if e.misfiled then Delta(e) else 0 }

  lemma {:induction false} StrayPart(es: seq<ShareEvent>)
    ensures Sum(es, Delta) == Sum(Select(es, RightlyFiled()), Delta) + Sum(es, Stray)
  {
    if es != [] {
      StrayPart(es[..|es| - 1]);
      SumAppend(Select(es[..|es| - 1], RightlyFiled()), es[|es| - 1], Delta);
    }
  }

  /** Up to the day the lot has one base, and it carries the lots' name. */
  ghost predicate HasOwnBase(log: seq<ShareEvent>, id: nat, asOf: int, base: ShareEvent)
  {
    && base in Visible(log, id, AsOf(asOf)) && base.payload.Established? && !base.misfiled
    && Sum(Visible(log, id, AsOf(asOf)), IsBase) == 1
  }

  /** A reader by id and a report see the same lot, but for the deltas stored
      under another name. */
  lemma StraysTellApart(log: seq<ShareEvent>, id: nat, asOf: int, base: ShareEvent)
    requires HasOwnBase(log, id, asOf, base)
    ensures var read, reported := LotAt(log, id, asOf), ReportedAt(log, id, asOf);
      var strays := Sum(Visible(log, id, AsOf(asOf)), Stray);
      && read.Some? && reported.Some?
      && read.value == reported.value.(shares := reported.value.shares + strays)
  {
    var seen := Visible(log, id, AsOf(asOf));
    var own := Select(seen, RightlyFiled());
    OwnVisible(log, id, AsOf(asOf));
    StrayPart(seen);
    SelectMembers(seen, RightlyFiled(), base);
    SumSelect(seen, RightlyFiled(), IsBase);
    SumBounded(seen, Guarded(RightlyFiled(), IsBase), IsBase);
    NoBase(own);
    SortedFold(seen, base);
    SortedFold(own, base);
  }

  function Group(groups: map<nat, seq<ShareEvent>>, id: nat): seq<ShareEvent>
  {
    if id in groups then groups[id] else []
  }

  method GroupByLot(rows: seq<ShareEvent>) returns (groups: map<nat, seq<ShareEvent>>)
    ensures forall id: nat :: Group(groups, id) == Select(rows, Of(id))
  {
    groups := map[];
    for i := 0 to |rows|
      invariant forall id: nat :: Group(groups, id) == Select(rows[..i], Of(id))
    {
      assert rows[..i + 1][..i] == rows[..i];
      var id := rows[i].aggregate;
      groups := groups[id := (if id in groups then groups[id] else []) + [rows[i]]];
    }
    assert rows[..|rows|] == rows;
  }

  // -------------------------------------------------- the breakdown dictionary

  ghost predicate Distinct<T>(s: seq<T>) { forall i, j :: 0 <= i < j < |s| ==> s[i] != s[j] }

  /** A dictionary in insertion order. */
  ghost predicate Listed(order: seq<Key>, m: map<Key, int>)
  {
    Distinct(order) && forall k :: k in m <==> k in order
  }

  function At(m: map<Key, int>): Key -> int { (k: Key) => if k in m then m[k] else 0 }

  lemma {:induction false} SumUnchanged(order: seq<Key>, m: map<Key, int>, k: Key, v: int)
    requires k !in order
    ensures Sum(order, At(m[k := v])) == Sum(order, At(m))
  {
    if order != [] {
      SumUnchanged(order[..|order| - 1], m, k, v);
    }
  }

  lemma {:induction false} SumChanged(order: seq<Key>, m: map<Key, int>, k: Key, v: int)
    requires Distinct(order) && k in order
    ensures Sum(order, At(m[k := v])) == Sum(order, At(m)) - At(m)(k) + v
  {
    var init, last := order[..|order| - 1], order[|order| - 1];
    if last == k {
      SumUnchanged(init, m, k, v);
    } else {
      SumChanged(init, m, k, v);
    }
  }

  lemma {:induction false} SumSame(order: seq<Key>, f: Key -> int, g: Key -> int)
    requires forall k :: k in order ==> f(k) == g(k)
    ensures Sum(order, f) == Sum(order, g)
  {
    if order != [] {
      SumSame(order[..|order| - 1], f, g);
    }
  }

  // -------------------------------------------------- the issued side

  function KeyTotal(b: Book, company: nat, asOf: int, key: Key): int
  {
    Total(b.lots, b.log, Query(company, asOf, Some(key)))
  }

  /** The loop's variables: the running total, the dictionary in insertion
      order, the keys with a lot of unknown size, and those lots. */
  datatype Tally = Tally(
    outstanding: int, order: seq<Key>, breakdown: map<Key, int>, unknown: set<Key>, missing: seq<nat>)

  const NOTHING := Tally(0, [], map[], {}, [])

  /** One counted row. A lot without history adds nothing but leaves its line. */
  function Record(t: Tally, key: Key, id: nat, state: Option<LotState>): Tally
  {
    var amount := if state.None? then 0 else state.value.shares;
    Tally(t.outstanding + amount,
          if key in t.breakdown then t.order else t.order + [key],
          t.breakdown[key := At(t.breakdown)(key) + amount],
          if state.None? then t.unknown + {key} else t.unknown,
          if state.None? then t.missing + [id] else t.missing)
  }

  /** The dictionary is well formed and its values add up to the total. */
  ghost predicate AddsUp(order: seq<Key>, m: map<Key, int>, total: int)
  {
    Listed(order, m) && Sum(order, At(m)) == total
  }

  lemma PutAddsUp(
      order: seq<Key>, m: map<Key, int>, total: int, key: Key, amount: int, order': seq<Key>, m': map<Key, int>)
    requires AddsUp(order, m, total)
    requires order' == (if key in m then order else order + [key]) && m' == m[key := At(m)(key) + amount]
    ensures AddsUp(order', m', total + amount)
  {
    var v := At(m)(key) + amount;
    if key in m {
      SumChanged(order, m, key, v);
    } else {
      SumUnchanged(order, m, key, v);
      SumAppend(order, key, At(m[key := v]));
    }
  }

  ghost predicate Balanced(t: Tally) { AddsUp(t.order, t.breakdown, t.outstanding) }

  lemma {:induction false} RecordBalances(t: Tally, key: Key, id: nat, state: Option<LotState>)
    requires Balanced(t)
    ensures Balanced(Record(t, key, id, state))
  {
    var t' := Record(t, key, id, state);
    PutAddsUp(t.order, t.breakdown, t.outstanding, key, t'.outstanding - t.outstanding, t'.order, t'.breakdown);
  }

  predicate HasKey(b: Book, company: nat, asOf: int, n: int, key: Key)
  {
    exists id :: 0 <= id < n <= |b.lots| && Counted(b.lots[id], Query(company, asOf, Some(key)))
  }

  predicate KeyUnknown(b: Book, company: nat, asOf: int, n: int, key: Key)
  {
    exists id: nat :: id < n && LacksHistory(b.lots, b.log, Query(company, asOf, Some(key)), id)
  }

  ghost predicate AmountsTallied(t: Tally, b: Book, company: nat, asOf: int, n: int)
    requires 0 <= n <= |b.lots|
  {
    && t.outstanding == Total(b.lots[..n], b.log, Query(company, asOf, None))
    && forall k :: At(t.breakdown)(k) == Total(b.lots[..n], b.log, Query(company, asOf, Some(k)))
  }

  ghost predicate KeysTallied(t: Tally, b: Book, company: nat, asOf: int, n: int)
  {
    && (forall k :: k in t.breakdown <==> HasKey(b, company, asOf, n, k))
    && (forall k :: k in t.unknown <==> KeyUnknown(b, company, asOf, n, k))
    && (forall id: nat :: id in t.missing <==> id < n && LacksHistory(b.lots, b.log, Query(company, asOf, None), id))
  }

  /** The loop body on row i. */
  function Visit(t: Tally, b: Book, company: nat, asOf: int, i: nat): Tally
    requires i < |b.lots|
  {
    if Counted(b.lots[i], Query(company, asOf, None)) then 
      Record(t, KeyOf(b.lots[i]), i, ReportedAt(b.log, i, asOf))
    else t
  }

  lemma OneMoreRow(b: Book, company: nat, asOf: int, i: nat, key: Key)
    requires i < |b.lots|
    ensures HasKey(b, company, asOf, i + 1, key)
       <==> HasKey(b, company, asOf, i, key) || Counted(b.lots[i], Query(company, asOf, Some(key)))
    ensures KeyUnknown(b, company, asOf, i + 1, key)
       <==> KeyUnknown(b, company, asOf, i, key) || LacksHistory(b.lots, b.log, Query(company, asOf, Some(key)), i)
  {
  }

  lemma RowTotal(b: Book, q: Query, i: nat)
    requires i < |b.lots|
    ensures Total(b.lots[..i + 1], b.log, q) == Total(b.lots[..i], b.log, q) + Worth(b.lots, b.log, q, i)
  {
    assert b.lots[..i + 1][..i] == b.lots[..i];
  }

  lemma VisitAmounts(t: Tally, b: Book, company: nat, asOf: int, i: nat)
    requires i < |b.lots| && AmountsTallied(t, b, company, asOf, i)
    ensures AmountsTallied(Visit(t, b, company, asOf, i), b, company, asOf, i + 1)
  {
    var t' := Visit(t, b, company, asOf, i);
    RowTotal(b, Query(company, asOf, None), i);
    forall k ensures At(t'.breakdown)(k) == Total(b.lots[..i + 1], b.log, Query(company, asOf, Some(k))) {
      RowTotal(b, Query(company, asOf, Some(k)), i);
    }
  }

  lemma VisitKeys(t: Tally, b: Book, company: nat, asOf: int, i: nat)
    requires i < |b.lots| && KeysTallied(t, b, company, asOf, i)
    ensures KeysTallied(Visit(t, b, company, asOf, i), b, company, asOf, i + 1)
  {
    var t' := Visit(t, b, company, asOf, i);
    forall k
      ensures k in t'.breakdown <==> HasKey(b, company, asOf, i + 1, k)
      ensures k in t'.unknown <==> KeyUnknown(b, company, asOf, i + 1, k)
    {
      OneMoreRow(b, company, asOf, i, k);
    }
  }

  /** The issued side of compute_cap_table_snapshot: two queries, one pass. */
  method IssuedSide(b: Book, company: nat, asOf: int) returns (t: Tally)
    ensures Balanced(t) && AmountsTallied(t, b, company, asOf, |b.lots|) && KeysTallied(t, b, company, asOf, |b.lots|)
  {
    var q := Query(company, asOf, None);
    var groups := GroupByLot(Sort(Select(b.log, Joined(b.lots, q))));
    t := NOTHING;
    for i := 0 to |b.lots|
      invariant Balanced(t) && AmountsTallied(t, b, company, asOf, i) && KeysTallied(t, b, company, asOf, i)
    {
      VisitAmounts(t, b, company, asOf, i);
      VisitKeys(t, b, company, asOf, i);
      if b.lots[i].company == company && b.lots[i].issueDate <= asOf {
        GroupedIsOwn(b.lots, b.log, q, i);
        var state := ProjectShareIssuance(Group(groups, i));
        RecordBalances(t, KeyOf(b.lots[i]), i, state);
        t := Record(t, KeyOf(b.lots[i]), i, state);
      }
    }
  }

  // -------------------------------------------------- the report

  /** One (holder, class) line; None when any of its lots has no history. */
  datatype Line = Line(key: Key, shares: Option<int>)

  /** One pool of the company; None when its size is unknown. */
  datatype PoolLine = PoolLine(id: nat, shareClass: Option<nat>, total: Option<int>)

  datatype Report = Report(
    asOf: int,
    outstanding: int,
    fullyDiluted: int,
    authorized: Option<int>,
    outstandingPart: Option<real>,
    fullyDilutedPart: Option<real>,
    partial: bool,
    missingLots: seq<nat>,
    missingPools: seq<nat>,
    lines: seq<Line>,
    pools: seq<PoolLine>)

  function AuthorizedTotal(b: Book, company: nat): Option<int>
  {
    if company in b.caps then Some(b.caps[company]) else None
  }

  /** The part of the authorized total, unavailable without a positive one. */
  function PartOf(amount: int, authorized: Option<int>): Option<real>
  {
    if authorized.Some? && authorized.value > 0 then Some(amount as real / authorized.value as real) else None
  }

  function LineShares(line: Line): int { if line.shares.Some? then line.shares.value else 0 }

  function LinesOf(order: seq<Key>, m: map<Key, int>, unknown: set<Key>): (lines: seq<Line>)
    requires forall k :: k in order ==> k in m
    ensures |lines| == |order|
    ensures forall i :: 0 <= i < |order| ==>
      lines[i] == Line(order[i], if order[i] in unknown then None else Some(m[order[i]]))
    ensures unknown == {} ==> Sum(lines, LineShares) == Sum(order, At(m))
  {
    if order == [] then []
    else
      var last := order[|order| - 1];
      var init := LinesOf(order[..|order| - 1], m, unknown);
      var line := Line(last, if last in unknown then None else Some(m[last]));
      SumAppend(init, line, LineShares);
      init + [line]
  }

  predicate PoolLacksHistory(b: Book, company: nat, asOf: int, id: nat)
  {
    id < |b.pools| && b.pools[id].company == company && PoolAt(b, id, asOf).None?
  }

  function PoolShares(line: PoolLine): int { if line.total.Some? then line.total.value else 0 }

  predicate HasPoolLine(lines: seq<PoolLine>, id: nat) { exists i :: 0 <= i < |lines| && lines[i].id == id }

  /** One line for each of the company's first n pools, in order, with its size. */
  ghost predicate PoolLinesRight(lines: seq<PoolLine>, b: Book, company: nat, asOf: int, n: int)
    requires 0 <= n <= |b.pools|
  {
    && (forall i :: 0 <= i < |lines| ==>
          && lines[i].id < n && b.pools[lines[i].id].company == company
          && lines[i].shareClass == b.pools[lines[i].id].shareClass
          && lines[i].total == PoolAt(b, lines[i].id, asOf))
    && (forall id: nat {:trigger HasPoolLine(lines, id)} ::
          id < n && b.pools[id].company == company ==> HasPoolLine(lines, id))
    && (forall i, j :: 0 <= i < j < |lines| ==> lines[i].id < lines[j].id)
    && Sum(lines, PoolShares) == PoolTotalUpTo(b, company, asOf, n)
  }

  lemma PoolLineAdded(lines: seq<PoolLine>, b: Book, company: nat, asOf: int, i: nat)
    requires i < |b.pools| && PoolLinesRight(lines, b, company, asOf, i) && b.pools[i].company == company
    ensures PoolLinesRight(lines + [PoolLine(i, b.pools[i].shareClass, PoolAt(b, i, asOf))], b, company, asOf, i + 1)
  {
    var line := PoolLine(i, b.pools[i].shareClass, PoolAt(b, i, asOf));
    SumAppend(lines, line, PoolShares);
    forall id: nat | id < i + 1 && b.pools[id].company == company
      ensures HasPoolLine(lines + [line], id)
    {
      if id < i {
        assert HasPoolLine(lines, id);
        var k :| 0 <= k < |lines| && lines[k].id == id;
        assert (lines + [line])[k].id == id;
      } else {
        assert (lines + [line])[|lines|].id == id;
      }
    }
  }

  lemma PoolLineSkipped(lines: seq<PoolLine>, b: Book, company: nat, asOf: int, i: nat)
    requires i < |b.pools| && PoolLinesRight(lines, b, company, asOf, i) && b.pools[i].company != company
    ensures PoolLinesRight(lines, b, company, asOf, i + 1)
  {
  }

  method PoolSize(b: Book, id: nat, asOf: int) returns (size: Option<int>)
    requires id < |b.pools|
    ensures size == PoolAt(b, id, asOf)
  {
    if asOf >= b.today {
      size := Some(b.pools[id].total);
    } else {
      var state := PoolLedger.ProjectOptionPool(EventsFor(b.poolLog, id, AsOf(asOf)));
      size := if state.None? then None else Some(state.value.total);
    }
  }

  /** The loop's variables on the pool side. */
  datatype PoolTally = PoolTally(total: int, missing: seq<nat>, lines: seq<PoolLine>)

  function VisitPool(t: PoolTally, b: Book, company: nat, asOf: int, i: nat): PoolTally
    requires i < |b.pools|
  {
    if b.pools[i].company != company then t
    else
      var size := PoolAt(b, i, asOf);
      PoolTally(t.total + if size.Some? then size.value else 0,
                if size.None? then t.missing + [i] else t.missing,
                t.lines + [PoolLine(i, b.pools[i].shareClass, size)])
  }

  ghost predicate PoolsTallied(t: PoolTally, b: Book, company: nat, asOf: int, n: int)
  {
    && 0 <= n <= |b.pools|
    && t.total == PoolTotalUpTo(b, company, asOf, n)
    && (forall id: nat :: id in t.missing <==> id < n && PoolLacksHistory(b, company, asOf, id))
    && PoolLinesRight(t.lines, b, company, asOf, n)
  }

  lemma PoolVisited(t: PoolTally, b: Book, company: nat, asOf: int, i: nat)
    requires i < |b.pools| && PoolsTallied(t, b, company, asOf, i)
    ensures PoolsTallied(VisitPool(t, b, company, asOf, i), b, company, asOf, i + 1)
  {
    var t' := VisitPool(t, b, company, asOf, i);
    assert PoolLinesRight(t'.lines, b, company, asOf, i + 1) by {
      if b.pools[i].company == company {
        PoolLineAdded(t.lines, b, company, asOf, i);
      } else {
        PoolLineSkipped(t.lines, b, company, asOf, i);
      }
    }
    assert t'.total == PoolTotalUpTo(b, company, asOf, i + 1);
  }

  /** The pool side of compute_cap_table_snapshot. */
  method PoolSide(b: Book, company: nat, asOf: int) returns (t: PoolTally)
    ensures PoolsTallied(t, b, company, asOf, |b.pools|)
  {
    t := PoolTally(0, [], []);
    for i := 0 to |b.pools|
      invariant PoolsTallied(t, b, company, asOf, i)
    {
      PoolVisited(t, b, company, asOf, i);
      if b.pools[i].company == company {
        var size := PoolSize(b, i, asOf);
        var lines := t.lines + [PoolLine(i, b.pools[i].shareClass, size)];
        if size.None? {
          t := PoolTally(t.total, t.missing + [i], lines);
        } else {
          t := PoolTally(t.total + size.value, t.missing, lines);
        }
      }
    }
  }

  /** One line for each (holder, class) with a counted lot, holding the sum of
      its lots or None when one of them has no history. */
  ghost predicate LinesRight(lines: seq<Line>, b: Book, company: nat, asOf: int)
  {
    && (forall i :: 0 <= i < |lines| ==>
          && HasKey(b, company, asOf, |b.lots|, lines[i].key)
          && lines[i].shares == if KeyUnknown(b, company, asOf, |b.lots|, lines[i].key) then None
                                else Some(KeyTotal(b, company, asOf, lines[i].key)))
    && (forall k :: HasKey(b, company, asOf, |b.lots|, k) ==> exists i :: 0 <= i < |lines| && lines[i].key == k)
    && (forall i, j :: 0 <= i < j < |lines| ==> lines[i].key != lines[j].key)
  }

  ghost predicate SomethingMissing(b: Book, company: nat, asOf: int)
  {
    || (exists id: nat :: LacksHistory(b.lots, b.log, Query(company, asOf, None), id))
    || (exists id: nat :: PoolLacksHistory(b, company, asOf, id))
  }

  ghost predicate TotalsRight(r: Report, b: Book, company: nat, asOf: int)
  {
    && r.asOf == asOf
    && r.outstanding == Outstanding(b, company, asOf)
    && r.fullyDiluted == FullyDiluted(b, company, asOf)
    && r.authorized == (if company in b.caps then Some(b.caps[company]) else None)
    && PartRight(r.outstandingPart, r.outstanding, r.authorized)
    && PartRight(r.fullyDilutedPart, r.fullyDiluted, r.authorized)
  }

  ghost predicate MissingRight(r: Report, b: Book, company: nat, asOf: int)
  {
    && (r.partial <==> SomethingMissing(b, company, asOf))
    && (forall id: nat :: id in r.missingLots <==> LacksHistory(b.lots, b.log, Query(company, asOf, None), id))
    && (forall id: nat :: id in r.missingPools <==> PoolLacksHistory(b, company, asOf, id))
  }

  /** What a report promises, stated against the naive reading. */
  ghost predicate Accurate(r: Report, b: Book, company: nat, asOf: int)
  {
    && TotalsRight(r, b, company, asOf)
    && MissingRight(r, b, company, asOf)
    && LinesRight(r.lines, b, company, asOf)
    && (!r.partial ==> Sum(r.lines, LineShares) == r.outstanding)
    && PoolLinesRight(r.pools, b, company, asOf, |b.pools|)
    && r.fullyDiluted == r.outstanding + Sum(r.pools, PoolShares)
  }

  /** Known exactly for a positive authorized total, and then the right part of it. */
  ghost predicate PartRight(part: Option<real>, amount: int, authorized: Option<int>)
  {
    && (part.Some? <==> authorized.Some? && authorized.value > 0)
    && (part.Some? ==> part.value * authorized.value as real == amount as real)
  }

  lemma PartIsRight(amount: int, authorized: Option<int>)
    ensures PartRight(PartOf(amount, authorized), amount, authorized)
  {
  }

  lemma PartialIsRight(t: Tally, missingPools: seq<nat>, b: Book, company: nat, asOf: int)
    requires KeysTallied(t, b, company, asOf, |b.lots|)
    requires forall id: nat :: id in missingPools <==> PoolLacksHistory(b, company, asOf, id)
    ensures t.missing != [] || missingPools != [] <==> SomethingMissing(b, company, asOf)
  {
    if t.missing != [] { assert t.missing[0] in t.missing; }
    if missingPools != [] { assert missingPools[0] in missingPools; }
  }

  lemma UnknownMeansMissing(t: Tally, b: Book, company: nat, asOf: int)
    requires KeysTallied(t, b, company, asOf, |b.lots|) && t.missing == []
    ensures t.unknown == {}
  {
    if k :| k in t.unknown {
      var id: nat :| id < |b.lots| && LacksHistory(b.lots, b.log, Query(company, asOf, Some(k)), id);
      assert LacksHistory(b.lots, b.log, Query(company, asOf, None), id);
      assert id in t.missing;
    }
  }

  lemma LinesAreAccurate(t: Tally, lines: seq<Line>, b: Book, company: nat, asOf: int)
    requires Balanced(t) && AmountsTallied(t, b, company, asOf, |b.lots|) && KeysTallied(t, b, company, asOf, |b.lots|)
    requires lines == LinesOf(t.order, t.breakdown, t.unknown)
    ensures LinesRight(lines, b, company, asOf)
  {
    assert b.lots[..|b.lots|] == b.lots;
    forall i | 0 <= i < |lines|
      ensures lines[i].key in t.breakdown && At(t.breakdown)(lines[i].key) == KeyTotal(b, company, asOf, lines[i].key)
    {
      assert lines[i].key == t.order[i];
    }
    forall k | HasKey(b, company, asOf, |b.lots|, k) ensures exists i :: 0 <= i < |lines| && lines[i].key == k {
      assert k in t.order;
      var i :| 0 <= i < |t.order| && t.order[i] == k;
      assert lines[i].key == k;
    }
  }

  /** The report put together from what the two sides tallied. */
  function Assembled(t: Tally, p: PoolTally, authorized: Option<int>, asOf: int): Report
    requires forall k :: k in t.order ==> k in t.breakdown
  {
    var fullyDiluted := t.outstanding + p.total;
    Report(asOf, t.outstanding, fullyDiluted, authorized,
           PartOf(t.outstanding, authorized), PartOf(fullyDiluted, authorized),
           t.missing != [] || p.missing != [], t.missing, p.missing, LinesOf(t.order, t.breakdown, t.unknown), p.lines)
  }

  lemma TotalsAreRight(t: Tally, p: PoolTally, b: Book, company: nat, asOf: int)
    requires Balanced(t) && AmountsTallied(t, b, company, asOf, |b.lots|)
    requires PoolsTallied(p, b, company, asOf, |b.pools|)
    ensures TotalsRight(Assembled(t, p, AuthorizedTotal(b, company), asOf), b, company, asOf)
  {
    var r := Assembled(t, p, AuthorizedTotal(b, company), asOf);
    assert b.lots[..|b.lots|] == b.lots;
    PartIsRight(r.outstanding, r.authorized);
    PartIsRight(r.fullyDiluted, r.authorized);
  }

  lemma MissingIsRight(t: Tally, p: PoolTally, b: Book, company: nat, asOf: int)
    requires Balanced(t) && KeysTallied(t, b, company, asOf, |b.lots|)
    requires PoolsTallied(p, b, company, asOf, |b.pools|)
    ensures MissingRight(Assembled(t, p, AuthorizedTotal(b, company), asOf), b, company, asOf)
  {
    PartialIsRight(t, p.missing, b, company, asOf);
  }

  lemma ReportIsAccurate(t: Tally, p: PoolTally, b: Book, company: nat, asOf: int)
    requires Balanced(t) && AmountsTallied(t, b, company, asOf, |b.lots|) && KeysTallied(t, b, company, asOf, |b.lots|)
    requires PoolsTallied(p, b, company, asOf, |b.pools|)
    ensures Accurate(Assembled(t, p, AuthorizedTotal(b, company), asOf), b, company, asOf)
  {
    var r := Assembled(t, p, AuthorizedTotal(b, company), asOf);
    TotalsAreRight(t, p, b, company, asOf);
    MissingIsRight(t, p, b, company, asOf);
    LinesAreAccurate(t, r.lines, b, company, asOf);
    if !r.partial { UnknownMeansMissing(t, b, company, asOf); }
  }

  /** From today on the fully diluted total is what is outstanding and the sizes
      of the company's pools, as their rows store them. */
  lemma TodaysFullyDiluted(r: Report, b: Book, company: nat, asOf: int)
    requires Accurate(r, b, company, asOf) && asOf >= b.today
    ensures r.fullyDiluted == r.outstanding + Sum(b.pools, SizeIn(company))
    ensures forall i :: 0 <= i < |r.pools| ==>
      r.pools[i].id < |b.pools| && r.pools[i].total == Some(b.pools[r.pools[i].id].total)
    ensures forall id: nat :: id !in r.missingPools
  {
    assert b.pools[..|b.pools|] == b.pools;
    PoolTotalToday(b, company, asOf, |b.pools|);
  }

  /** compute_cap_table_snapshot. */
  method ComputeCapTableSnapshot(b: Book, company: nat, day: Option<int>) returns (r: Report)
    ensures Accurate(r, b, company, if day.Some? then day.value else b.today)
  {
    var asOf := if day.Some? then day.value else b.today;
    var t := IssuedSide(b, company, asOf);
    var p := PoolSide(b, company, asOf);
    r := Assembled(t, p, AuthorizedTotal(b, company), asOf);
    ReportIsAccurate(t, p, b, company, asOf);
  }

  // -------------------------------------------------- what an adjustment moves

  lemma ReportedAfterOther(log: seq<ShareEvent>, e: ShareEvent, id: nat, asOf: int)
    requires e.aggregate != id
    ensures ReportedAt(log + [e], id, asOf) == ReportedAt(log, id, asOf)
  {
    SelectAppend(log, e, RightlyFiled());
    PastViewsAreStable(Own(log), e, id, AsOf(asOf));
  }

  lemma ReportedAfterAdjustment(lot: Lot, log: seq<ShareEvent>, e: ShareEvent, today: int, asOf: int)
    requires e.payload.Adjusted? && !e.misfiled && WellKept(lot, History(log, e.aggregate), today)
    requires lot.issueDate <= e.effective <= today && lot.issueDate <= asOf
    ensures var before, after := ReportedAt(log, e.aggregate, asOf), ReportedAt(log + [e], e.aggregate, asOf);
      && before.Some? && after.Some?
      && after.value.shares == before.value.shares + if e.effective <= asOf then e.payload.delta else 0
  {
    var h := History(log, e.aggregate);
    SelectAppend(log, e, Of(e.aggregate));
    assert WellKept(lot, h + [e], today) by { assert (h + [e])[0] == h[0]; }
    SumAppend(h, e, DeltaBy(asOf));
    LotValue(log, e.aggregate, lot, today, asOf);
    LotValue(log + [e], e.aggregate, lot, today, asOf);
    ReportedIsProjected(log, e.aggregate, asOf);
    ReportedIsProjected(log + [e], e.aggregate, asOf);
  }

  lemma WorthAfterAdjustment(lots: seq<Lot>, log: seq<ShareEvent>, e: ShareEvent, q: Query, today: int, id: nat)
    requires id < |lots| && e.payload.Adjusted? && !e.misfiled
    requires id == e.aggregate ==>
        WellKept(lots[id], History(log, id), today) && lots[id].issueDate <= e.effective <= today
    ensures Worth(lots, log + [e], q, id)
         == Worth(lots, log, q, id)
            + if id == e.aggregate && Counted(lots[id], q) && e.effective <= q.asOf then e.payload.delta else 0
  {
    if id != e.aggregate {
      ReportedAfterOther(log, e, id, q.asOf);
    } else if Counted(lots[id], q) {
      ReportedAfterAdjustment(lots[id], log, e, today, q.asOf);
    }
  }

  /** An adjustment effective on d moves every total counted on or after d by
      exactly its delta, and no other; the column write does not enter. */
  lemma {:induction false} TotalAfterAdjustment(
      lots: seq<Lot>, lots': seq<Lot>, log: seq<ShareEvent>, e: ShareEvent, q: Query, today: int)
    requires |lots| == |lots'| && e.payload.Adjusted? && !e.misfiled
    requires forall i :: 0 <= i < |lots| ==> lots'[i] == lots[i].(shares := lots'[i].shares)
    requires e.aggregate < |lots| ==>
      WellKept(lots[e.aggregate], History(log, e.aggregate), today)
          && lots[e.aggregate].issueDate <= e.effective <= today
    ensures Total(lots', log + [e], q) == Total(lots, log, q)
      + if e.aggregate < |lots| && Counted(lots[e.aggregate], q) && e.effective <= q.asOf then e.payload.delta else 0
  {
    if lots != [] {
      var n := |lots| - 1;
      TotalAfterAdjustment(lots[..n], lots'[..n], log, e, q, today);
      WorthAfterAdjustment(lots, log, e, q, today, n);
    }
  }
}
