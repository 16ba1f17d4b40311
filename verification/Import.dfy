/**
 Importing a company bundle: a dry run classifies every row against the target
 company, and a commit writes the new ones, all or nothing. Every row carries
 its primary key. Keys are numbers.
 */
module Import {
  import opened Wrappers
  import Ledger
  import PoolLedger

  // ------------------------------------------------------------ the registry

  /** A foreign key: its column, the position of the table it names, and whether
      the column is NOT NULL. */
  datatype Fk = Fk(field: string, table: nat, required: bool)

  /** owner None: the table has a company_id column, forced on import. Some(k):
      rows belong to the company their k-th foreign key belongs to. */
  datatype TableSpec = TableSpec(
    name: string, fks: seq<Fk>, owner: Option<nat>, nulledUsers: set<string>, hasLedger: bool)

  const POOLS := 1

  /** TABLE_REGISTRY, in its load-bearing order. */
  const REGISTRY := [
    TableSpec("share_classes", [], None, {}, false),
    TableSpec("option_pools", [Fk("share_class_id", 0, false)], None, {}, true),
    TableSpec("employees", [], None, {}, true),
    TableSpec("trustees", [], None, {}, false),
    TableSpec("shareholders", [Fk("employee_id", 2, false)], None, {}, false),
    TableSpec("share_issuances", [Fk("shareholder_id", 4, true), Fk("share_class_id", 0, true)], None, {}, true),
    TableSpec("grants", [Fk("pool_id", 1, true), Fk("employee_id", 2, true), Fk("trustee_id", 3, false)],
              Some(0), {}, true),
    TableSpec("vesting_schedules", [Fk("grant_id", 6, true)], Some(0), {}, true),
    TableSpec("documents", [Fk("grant_id", 6, true), Fk("employee_id", 2, true), Fk("trustee_id", 3, false)], None,
              {"acknowledged_by_user_id", "created_by_user_id"}, false),
    TableSpec("exercise_requests", [Fk("grant_id", 6, true), Fk("employee_id", 2, true)],
              Some(0), {"reviewed_by_user_id"}, true),
    TableSpec("exercise_tax_records", [Fk("request_id", 9, true)], Some(0), {}, false)
  ]

  /** Every foreign key names an earlier table; owners are NOT NULL keys. */
  ghost predicate Topological(reg: seq<TableSpec>)
  {
    forall t :: 0 <= t < |reg| ==>
      && (forall k :: 0 <= k < |reg[t].fks| ==> reg[t].fks[k].table < t)
      && (reg[t].owner.Some? ==> reg[t].owner.value < |reg[t].fks| && reg[t].fks[reg[t].owner.value].required)
  }

  lemma RegistryIsTopological()
    ensures Topological(REGISTRY) && POOLS < |REGISTRY|
  {
  }

  // ------------------------------------------------------------ rows and scope

  datatype Amounts = Amounts(allocatedShares: int, unallocatedShares: int, total: int)

  /** users: the *_user_id columns; balance: an option pool's three amounts;
      content: every other column. */
  datatype Row = Row(
    pk: nat, company: Option<nat>, refs: map<string, nat>, users: map<string, nat>, balance: Option<Amounts>,
    content: string)

  type Tables = seq<map<nat, Row>>

  /** Membership in the scope build_company_scope computes. */
  predicate InScope(reg: seq<TableSpec>, rows: Tables, company: nat, t: nat, pk: nat)
    requires Topological(reg) && |rows| == |reg| && t < |reg|
    decreases t
  {
    && pk in rows[t]
    && if reg[t].owner.None? then rows[t][pk].company == Some(company)
       else
         var fk := reg[t].fks[reg[t].owner.value];
         fk.field in rows[t][pk].refs && InScope(reg, rows, company, fk.table, rows[t][pk].refs[fk.field])
  }

  ghost predicate SameIdentity(a: Row, b: Row) { a.company == b.company && a.refs == b.refs }

  /** Nothing is removed and no row changes company or references. */
  ghost predicate Extends(rows: Tables, rows': Tables)
  {
    && |rows'| == |rows|
    && forall t, pk :: 0 <= t < |rows| && pk in rows[t] ==> pk in rows'[t] && SameIdentity(rows[t][pk], rows'[t][pk])
  }

  lemma {:induction false} ScopeGrows(reg: seq<TableSpec>, rows: Tables, rows': Tables, company: nat, t: nat, pk: nat)
    requires Topological(reg) && |rows| == |reg| && t < |reg| && Extends(rows, rows')
    requires InScope(reg, rows, company, t, pk)
    ensures InScope(reg, rows', company, t, pk)
    decreases t
  {
    assert SameIdentity(rows[t][pk], rows'[t][pk]);
    if reg[t].owner.Some? {
      var fk := reg[t].fks[reg[t].owner.value];
      ScopeGrows(reg, rows, rows', company, fk.table, rows[t][pk].refs[fk.field]);
    }
  }

  // ------------------------------------------------------------ classifying a row

  datatype Problem =
    | Unresolved(field: string)
    | Duplicate
    | OtherCompany
    | UnknownAggregate
    | AggregateNotFound
    | CorrectsLater
    | NoPack

  datatype Status = New | SkipExisting | NotPortable | Error(problem: Problem)

  /** Whom the bundle is imported for, into what. */
  datatype Target = Target(reg: seq<TableSpec>, rows: Tables, company: nat)

  ghost predicate Ready(g: Target) { Topological(g.reg) && |g.rows| == |g.reg| }

  /** batch_seen: per table, the keys of the rows accepted so far. */
  type Batch = seq<set<nat>>

  predicate Resolves(g: Target, batch: Batch, row: Row, fk: Fk)
    requires Ready(g) && |batch| == |g.reg| && fk.table < |g.reg|
  {
    fk.field in row.refs ==>
      InScope(g.reg, g.rows, g.company, fk.table, row.refs[fk.field]) || row.refs[fk.field] in batch[fk.table]
  }

  function FirstUnresolved(g: Target, batch: Batch, row: Row, fks: seq<Fk>): (r: Option<string>)
    requires Ready(g) && |batch| == |g.reg| && forall fk :: fk in fks ==> fk.table < |g.reg|
    ensures r.None? <==> forall fk :: fk in fks ==> Resolves(g, batch, row, fk)
  {
    if fks == [] then None
    else if !Resolves(g, batch, row, fks[0]) then Some(fks[0].field)
    else FirstUnresolved(g, batch, row, fks[1..])
  }

  function Classify(g: Target, batch: Batch, t: nat, row: Row): Status
    requires Ready(g) && |batch| == |g.reg| && t < |g.reg|
  {
    var unresolved := FirstUnresolved(g, batch, row, g.reg[t].fks);
    if unresolved.Some? then Error(Unresolved(unresolved.value))
    else if row.pk in batch[t] then Error(Duplicate)
    else if InScope(g.reg, g.rows, g.company, t, row.pk) then SkipExisting
    else if row.pk in g.rows[t] then Error(OtherCompany)
    else New
  }

  function Accepted(batch: Batch, t: nat, pk: nat, status: Status): (r: Batch)
    requires t < |batch|
    ensures |r| == |batch|
  {
    if status.Error? then batch else batch[t := batch[t] + {pk}]
  }

  /** The batch after the first rows of one table. */
  function Scan(g: Target, batch: Batch, t: nat, rows: seq<Row>): (r: (seq<Status>, Batch))
    requires Ready(g) && |batch| == |g.reg| && t < |g.reg|
    ensures |r.0| == |rows| && |r.1| == |batch|
  {
    if rows == [] then ([], batch)
    else
      var (statuses, seen) := Scan(g, batch, t, rows[..|rows| - 1]);
      var status := Classify(g, seen, t, rows[|rows| - 1]);
      (statuses + [status], Accepted(seen, t, rows[|rows| - 1].pk, status))
  }

  /** _validate_normal_tables over the first n tables. */
  function ScanTables(g: Target, tables: seq<seq<Row>>, n: nat): (r: (seq<seq<Status>>, Batch))
    requires Ready(g) && |tables| == |g.reg| && n <= |g.reg|
    ensures |r.0| == n && |r.1| == |g.reg|
    ensures forall t :: 0 <= t < n ==> |r.0[t]| == |tables[t]|
  {
    if n == 0 then ([], seq(|g.reg|, _ => {}))
    else
      var (statuses, batch) := ScanTables(g, tables, n - 1);
      var (column, batch') := Scan(g, batch, n - 1, tables[n - 1]);
      (statuses + [column], batch')
  }

  predicate Clean(statuses: seq<Status>) { forall i :: 0 <= i < |statuses| ==> !statuses[i].Error? }

  function Keys(rows: seq<Row>): set<nat> { set i | 0 <= i < |rows| :: rows[i].pk }

  lemma KeysAppend(rows: seq<Row>, row: Row)
    ensures Keys(rows + [row]) == Keys(rows) + {row.pk}
  {
    forall pk ensures pk in Keys(rows + [row]) <==> pk in Keys(rows) + {row.pk} {
      if pk in Keys(rows) { var i :| 0 <= i < |rows| && rows[i].pk == pk; assert (rows + [row])[i].pk == pk; }
      assert (rows + [row])[|rows|].pk == row.pk;
    }
  }

  /** A clean table adds exactly its keys, and no key twice. */
  lemma {:induction false} CleanScan(g: Target, batch: Batch, t: nat, rows: seq<Row>)
    requires Ready(g) && |batch| == |g.reg| && t < |g.reg| && batch[t] == {}
    requires Clean(Scan(g, batch, t, rows).0)
    ensures Scan(g, batch, t, rows).1 == batch[t := Keys(rows)]
    ensures forall i :: 0 <= i < |rows| ==>
      Scan(g, batch, t, rows).0[i] == Classify(g, batch[t := Keys(rows[..i])], t, rows[i])
  {
    if rows != [] {
      var n := |rows| - 1;
      var init := rows[..n];
      assert rows == init + [rows[n]];
      assert Clean(Scan(g, batch, t, init).0) by {
        forall i | 0 <= i < n ensures !Scan(g, batch, t, init).0[i].Error? {
          assert Scan(g, batch, t, rows).0[i] == Scan(g, batch, t, init).0[i];
        }
      }
      CleanScan(g, batch, t, init);
      KeysAppend(init, rows[n]);
      assert Scan(g, batch, t, rows).0[n] == Classify(g, batch[t := Keys(init)], t, rows[n]);
      forall i | 0 <= i < n
        ensures Scan(g, batch, t, rows).0[i] == Classify(g, batch[t := Keys(rows[..i])], t, rows[i])
      {
        assert init[..i] == rows[..i];
      }
    } else {
      assert Keys(rows) == {};
    }
  }

  /** What batch_seen holds once the first n tables went through clean. */
  function FullBatch(tables: seq<seq<Row>>, n: nat): Batch
  {
    seq(|tables|, t requires 0 <= t < |tables| => if t < n then Keys(tables[t]) else {})
  }

  predicate CleanTables(statuses: seq<seq<Status>>) { forall t :: 0 <= t < |statuses| ==> Clean(statuses[t]) }

  /** Each row of table t is classified against the tables before it and the
      rows before it in its own table. */
  ghost predicate ClassifiedInOrder(g: Target, tables: seq<seq<Row>>, t: nat, column: seq<Status>)
    requires Ready(g) && |tables| == |g.reg| && t < |g.reg| && |column| == |tables[t]|
  {
    forall i :: 0 <= i < |tables[t]| ==>
        column[i] == Classify(g, FullBatch(tables, t)[t := Keys(tables[t][..i])], t, tables[t][i])
  }

  lemma LastTableScanned(g: Target, tables: seq<seq<Row>>, n: nat)
    requires Ready(g) && |tables| == |g.reg| && 1 <= n <= |g.reg| && Clean(ScanTables(g, tables, n).0[n - 1])
    requires ScanTables(g, tables, n - 1).1 == FullBatch(tables, n - 1)
    ensures ScanTables(g, tables, n).1 == FullBatch(tables, n)
    ensures ClassifiedInOrder(g, tables, n - 1, ScanTables(g, tables, n).0[n - 1])
  {
    assert ScanTables(g, tables, n).0[n - 1] == Scan(g, FullBatch(tables, n - 1), n - 1, tables[n - 1]).0;
    CleanScan(g, FullBatch(tables, n - 1), n - 1, tables[n - 1]);
    assert FullBatch(tables, n) == FullBatch(tables, n - 1)[n - 1 := Keys(tables[n - 1])];
  }

  lemma EarlierTablesScanned(g: Target, tables: seq<seq<Row>>, n: nat)
    requires Ready(g) && |tables| == |g.reg| && 1 <= n <= |g.reg|
    ensures forall t :: 0 <= t < n - 1 ==> ScanTables(g, tables, n).0[t] == ScanTables(g, tables, n - 1).0[t]
  {
  }

  lemma EarlierTablesClean(g: Target, tables: seq<seq<Row>>, n: nat)
    requires Ready(g) && |tables| == |g.reg| && 1 <= n <= |g.reg| && CleanTables(ScanTables(g, tables, n).0)
    ensures CleanTables(ScanTables(g, tables, n - 1).0)
  {
    EarlierTablesScanned(g, tables, n);
    var before, all := ScanTables(g, tables, n - 1).0, ScanTables(g, tables, n).0;
    forall t | 0 <= t < |before| ensures Clean(before[t]) {
      assert before[t] == all[t];
    }
  }

  lemma {:induction false} CleanScanTables(g: Target, tables: seq<seq<Row>>, n: nat)
    requires Ready(g) && |tables| == |g.reg| && n <= |g.reg| && CleanTables(ScanTables(g, tables, n).0)
    ensures ScanTables(g, tables, n).1 == FullBatch(tables, n)
    ensures forall t :: 0 <= t < n ==> ClassifiedInOrder(g, tables, t, ScanTables(g, tables, n).0[t])
  {
    if n > 0 {
      EarlierTablesClean(g, tables, n);
      CleanScanTables(g, tables, n - 1);
      EarlierTablesScanned(g, tables, n);
      LastTableScanned(g, tables, n);
      forall t | 0 <= t < n ensures ClassifiedInOrder(g, tables, t, ScanTables(g, tables, n).0[t]) {
        if t < n - 1 { assert ClassifiedInOrder(g, tables, t, ScanTables(g, tables, n - 1).0[t]); }
      }
    }
  }

  // ------------------------------------------------------------ writing rows

  /** _build_row: the company is the target's, whatever the file says, and user
      columns that cannot travel are emptied. */
  function Build(spec: TableSpec, row: Row, company: nat): Row
  {
    row.(company := if spec.owner.None? then Some(company) else None, users := row.users - spec.nulledUsers)
  }

  function InsertNew(
      table: map<nat, Row>, spec: TableSpec, company: nat, rows: seq<Row>, statuses: seq<Status>): map<nat, Row>
    requires |statuses| == |rows|
  {
    if rows == [] then table
    else
      var n := |rows| - 1;
      var init := InsertNew(table, spec, company, rows[..n], statuses[..n]);
      if statuses[n] == New then init[rows[n].pk := Build(spec, rows[n], company)] else init
  }

  /** The tables once the first n have been written. */
  function WriteTables(g: Target, tables: seq<seq<Row>>, statuses: seq<seq<Status>>, n: nat): Tables
    requires |g.rows| == |g.reg| == |tables| == |statuses|
    requires forall t :: 0 <= t < |g.reg| ==> |statuses[t]| == |tables[t]|
  {
    seq(|g.reg|, t requires 0 <= t < |g.reg| =>
      if t < n then InsertNew(g.rows[t], g.reg[t], g.company, tables[t], statuses[t]) else g.rows[t])
  }

  lemma {:induction false} InsertedRows(
      table: map<nat, Row>, spec: TableSpec, company: nat, rows: seq<Row>, statuses: seq<Status>)
    requires |statuses| == |rows|
    requires forall i :: 0 <= i < |rows| && statuses[i] == New ==> rows[i].pk !in table
    requires forall i, j :: 0 <= i < j < |rows| ==> rows[i].pk != rows[j].pk
    ensures var written := InsertNew(table, spec, company, rows, statuses);
      && (forall pk :: pk in table ==> pk in written && written[pk] == table[pk])
      && (forall i :: 0 <= i < |rows| && statuses[i] == New ==>
          rows[i].pk in written && written[rows[i].pk] == Build(spec, rows[i], company))
      && (forall pk :: pk in written && pk !in table ==>
            exists i :: 0 <= i < |rows| && statuses[i] == New && rows[i].pk == pk)
  {
    if rows != [] {
      var n := |rows| - 1;
      InsertedRows(table, spec, company, rows[..n], statuses[..n]);
      var init := InsertNew(table, spec, company, rows[..n], statuses[..n]);
      forall i | 0 <= i < n && statuses[i] == New
        ensures rows[i].pk in init && init[rows[i].pk] == Build(spec, rows[i], company)
      {
        assert rows[..n][i] == rows[i] && statuses[..n][i] == New;
      }
      forall pk | pk in init && pk !in table ensures exists i :: 0 <= i < n && statuses[i] == New && rows[i].pk == pk {
        var i :| 0 <= i < n && statuses[..n][i] == New && rows[..n][i].pk == pk;
        assert statuses[i] == New && rows[i].pk == pk;
      }
    }
  }

  // ------------------------------------------------------------ a clean bundle

  /** A dry run found no error in the registry tables. */
  ghost predicate CleanBundle(g: Target, tables: seq<seq<Row>>)
  {
    Ready(g) && |tables| == |g.reg| && CleanTables(ScanTables(g, tables, |g.reg|).0)
  }

  function Statuses(g: Target, tables: seq<seq<Row>>): (r: seq<seq<Status>>)
    requires Ready(g) && |tables| == |g.reg|
    ensures |r| == |g.reg| && forall t :: 0 <= t < |r| ==> |r[t]| == |tables[t]|
  {
    ScanTables(g, tables, |g.reg|).0
  }

  /** What the classification of row i of table t says about it. */
  lemma CleanRow(g: Target, tables: seq<seq<Row>>, t: nat, i: nat)
    requires CleanBundle(g, tables) && t < |g.reg| && i < |tables[t]|
    ensures var row, status := tables[t][i], Statuses(g, tables)[t][i];
      && (status == New || status == SkipExisting)
      && (status == SkipExisting <==> InScope(g.reg, g.rows, g.company, t, row.pk))
      && (status == New ==> row.pk !in g.rows[t])
      && row.pk !in Keys(tables[t][..i])
      && forall fk :: fk in g.reg[t].fks && fk.field in row.refs ==>
           fk.table < t && (InScope(g.reg, g.rows, g.company, fk.table, row.refs[fk.field])
               || row.refs[fk.field] in Keys(tables[fk.table]))
  {
    CleanScanTables(g, tables, |g.reg|);
    var batch := FullBatch(tables, t)[t := Keys(tables[t][..i])];
    assert ClassifiedInOrder(g, tables, t, Statuses(g, tables)[t]);
    assert !Statuses(g, tables)[t][i].Error?;
    assert Statuses(g, tables)[t][i] == Classify(g, batch, t, tables[t][i]);
    forall fk | fk in g.reg[t].fks && fk.field in tables[t][i].refs
      ensures fk.table < t && Resolves(g, batch, tables[t][i], fk)
    { }
  }

  /** Nothing is wrong with row i of table t: its key is not used above it nor by
      another company, and what it refers to is the target's or in the bundle. */
  ghost predicate Acceptable(g: Target, tables: seq<seq<Row>>, t: nat, i: nat)
    requires Ready(g) && |tables| == |g.reg| && t < |g.reg| && i < |tables[t]|
  {
    var row := tables[t][i];
    && row.pk !in Keys(tables[t][..i])
    && (row.pk in g.rows[t] ==> InScope(g.reg, g.rows, g.company, t, row.pk))
    && forall fk :: fk in g.reg[t].fks && fk.field in row.refs ==>
         InScope(g.reg, g.rows, g.company, fk.table, row.refs[fk.field]) || row.refs[fk.field] in Keys(tables[fk.table])
  }

  lemma AcceptableIsNoError(g: Target, tables: seq<seq<Row>>, t: nat, i: nat)
    requires Ready(g) && |tables| == |g.reg| && t < |g.reg| && i < |tables[t]| && Acceptable(g, tables, t, i)
    ensures !Classify(g, FullBatch(tables, t)[t := Keys(tables[t][..i])], t, tables[t][i]).Error?
  {
    var batch := FullBatch(tables, t)[t := Keys(tables[t][..i])];
    forall fk | fk in g.reg[t].fks ensures fk.table < t && Resolves(g, batch, tables[t][i], fk) {
      assert batch[fk.table] == Keys(tables[fk.table]);
    }
  }

  lemma {:induction false} AcceptableScan(g: Target, batch: Batch, t: nat, rows: seq<Row>)
    requires Ready(g) && |batch| == |g.reg| && t < |g.reg| && batch[t] == {}
    requires forall i :: 0 <= i < |rows| ==> !Classify(g, batch[t := Keys(rows[..i])], t, rows[i]).Error?
    ensures Clean(Scan(g, batch, t, rows).0) && Scan(g, batch, t, rows).1 == batch[t := Keys(rows)]
  {
    if rows != [] {
      var n := |rows| - 1;
      var init := rows[..n];
      assert rows == init + [rows[n]];
      assert forall i :: 0 <= i < n ==> init[..i] == rows[..i];
      AcceptableScan(g, batch, t, init);
      KeysAppend(init, rows[n]);
    } else {
      assert Keys(rows) == {};
    }
  }

  lemma {:induction false} AcceptableTables(g: Target, tables: seq<seq<Row>>, n: nat)
    requires Ready(g) && |tables| == |g.reg| && n <= |g.reg|
    requires forall t: nat, i: nat :: t < n && i < |tables[t]| ==> Acceptable(g, tables, t, i)
    ensures CleanTables(ScanTables(g, tables, n).0) && ScanTables(g, tables, n).1 == FullBatch(tables, n)
  {
    if n > 0 {
      var t := n - 1;
      AcceptableTables(g, tables, t);
      forall i: nat | i < |tables[t]|
        ensures !Classify(g, FullBatch(tables, t)[t := Keys(tables[t][..i])], t, tables[t][i]).Error?
      {
        AcceptableIsNoError(g, tables, t, i);
      }
      AcceptableScan(g, FullBatch(tables, t), t, tables[t]);
      EarlierTablesScanned(g, tables, n);
      assert FullBatch(tables, n) == FullBatch(tables, t)[t := Keys(tables[t])];
    }
  }

  /** The one pass over the tables finds an error exactly when some row has one,
      wherever in the bundle its references are. */
  lemma CleanBundleIff(g: Target, tables: seq<seq<Row>>)
    requires Ready(g) && |tables| == |g.reg|
    ensures CleanBundle(g, tables)
      <==> forall t: nat, i: nat :: t < |g.reg| && i < |tables[t]| ==> Acceptable(g, tables, t, i)
  {
    if CleanBundle(g, tables) {
      forall t: nat, i: nat | t < |g.reg| && i < |tables[t]|
        ensures Acceptable(g, tables, t, i)
      {
        CleanRow(g, tables, t, i);
      }
    } else if forall t: nat, i: nat :: t < |g.reg| && i < |tables[t]| ==> Acceptable(g, tables, t, i) {
      AcceptableTables(g, tables, |g.reg|);
    }
  }

  lemma KeyHasRow(rows: seq<Row>, pk: nat) returns (i: nat)
    requires pk in Keys(rows)
    ensures i < |rows| && rows[i].pk == pk
  {
    i :| 0 <= i < |rows| && rows[i].pk == pk;
  }

  lemma DistinctKeys(g: Target, tables: seq<seq<Row>>, t: nat)
    requires CleanBundle(g, tables) && t < |g.reg|
    ensures forall i, j :: 0 <= i < j < |tables[t]| ==> tables[t][i].pk != tables[t][j].pk
  {
    forall i, j | 0 <= i < j < |tables[t]| ensures tables[t][i].pk != tables[t][j].pk {
      CleanRow(g, tables, t, j);
      assert tables[t][..j][i] == tables[t][i];
      assert tables[t][i].pk in Keys(tables[t][..j]);
    }
  }

  lemma WrittenTable(g: Target, tables: seq<seq<Row>>, n: nat, t: nat)
    requires CleanBundle(g, tables) && t < |g.reg|
    ensures var rows' := WriteTables(g, tables, Statuses(g, tables), n);
      && (forall pk :: pk in g.rows[t] ==> pk in rows'[t] && rows'[t][pk] == g.rows[t][pk])
      && (t < n ==> forall i :: 0 <= i < |tables[t]| && Statuses(g, tables)[t][i] == New ==>
            tables[t][i].pk in rows'[t] && rows'[t][tables[t][i].pk] == Build(g.reg[t], tables[t][i], g.company))
      && (forall pk :: pk in rows'[t] && pk !in g.rows[t] ==>
            exists i :: 0 <= i < |tables[t]| && Statuses(g, tables)[t][i] == New && tables[t][i].pk == pk)
  {
    DistinctKeys(g, tables, t);
    forall i | 0 <= i < |tables[t]| && Statuses(g, tables)[t][i] == New
      ensures tables[t][i].pk !in g.rows[t]
    {
      CleanRow(g, tables, t, i);
    }
    InsertedRows(g.rows[t], g.reg[t], g.company, tables[t], Statuses(g, tables)[t]);
  }

  lemma WritingExtends(g: Target, tables: seq<seq<Row>>, n: nat)
    requires CleanBundle(g, tables)
    ensures Extends(g.rows, WriteTables(g, tables, Statuses(g, tables), n))
  {
    forall t, pk | 0 <= t < |g.rows| && pk in g.rows[t]
      ensures pk in WriteTables(g, tables, Statuses(g, tables), n)[t]
      ensures SameIdentity(g.rows[t][pk], WriteTables(g, tables, Statuses(g, tables), n)[t][pk])
    {
      WrittenTable(g, tables, n, t);
    }
  }

  /** NOT NULL holds on every row to be written. */
  predicate RequiredPresent(g: Target, tables: seq<seq<Row>>)
    requires Ready(g) && |tables| == |g.reg|
  {
    forall t, i :: 0 <= t < |g.reg| && 0 <= i < |tables[t]| && Statuses(g, tables)[t][i] == New ==>
      forall fk :: fk in g.reg[t].fks && fk.required ==> fk.field in tables[t][i].refs
  }

  /** Once table t is written, its rows in the bundle belong to the target. */
  lemma {:induction false} RowsLand(g: Target, tables: seq<seq<Row>>, n: nat, t: nat, i: nat)
    requires CleanBundle(g, tables) && RequiredPresent(g, tables) && t < n <= |g.reg| && i < |tables[t]|
    ensures InScope(g.reg, WriteTables(g, tables, Statuses(g, tables), n), g.company, t, tables[t][i].pk)
    decreases t
  {
    var row, rows' := tables[t][i], WriteTables(g, tables, Statuses(g, tables), n);
    CleanRow(g, tables, t, i);
    WritingExtends(g, tables, n);
    if Statuses(g, tables)[t][i] == SkipExisting {
      ScopeGrows(g.reg, g.rows, rows', g.company, t, row.pk);
    } else {
      WrittenTable(g, tables, n, t);
      if g.reg[t].owner.Some? {
        var fk := g.reg[t].fks[g.reg[t].owner.value];
        assert fk in g.reg[t].fks && fk.field in row.refs;
        ReferenceLands(g, tables, n, t, i, fk);
      }
    }
  }

  /** Every foreign key of a row in the bundle names a row of the target once the
      tables before its own are written. */
  lemma {:induction false} ReferenceLands(g: Target, tables: seq<seq<Row>>, n: nat, t: nat, i: nat, fk: Fk)
    requires CleanBundle(g, tables) && RequiredPresent(g, tables) && t <= n <= |g.reg| && t < |g.reg| && i < |tables[t]|
    requires fk in g.reg[t].fks && fk.field in tables[t][i].refs
    ensures fk.table < t && InScope(g.reg, WriteTables(g, tables, Statuses(g, tables), n), g.company, fk.table,
        tables[t][i].refs[fk.field])
    decreases t, 0
  {
    CleanRow(g, tables, t, i);
    var ref := tables[t][i].refs[fk.field];
    if ref in Keys(tables[fk.table]) {
      var k := KeyHasRow(tables[fk.table], ref);
      RowsLand(g, tables, n, fk.table, k);
    } else {
      WritingExtends(g, tables, n);
      ScopeGrows(g.reg, g.rows, WriteTables(g, tables, Statuses(g, tables), n), g.company, fk.table, ref);
    }
  }

  // ------------------------------------------------------------ one owner per row

  lemma {:induction false} OneCompany(reg: seq<TableSpec>, rows: Tables, c1: nat, c2: nat, t: nat, pk: nat)
    requires Topological(reg) && |rows| == |reg| && t < |reg|
    requires InScope(reg, rows, c1, t, pk) && InScope(reg, rows, c2, t, pk)
    ensures c1 == c2
    decreases t
  {
    if reg[t].owner.Some? {
      var fk := reg[t].fks[reg[t].owner.value];
      OneCompany(reg, rows, c1, c2, fk.table, rows[t][pk].refs[fk.field]);
    }
  }

  /** Another company's scope is exactly what it was. */
  lemma {:induction false} OtherScopeUnchanged(g: Target, tables: seq<seq<Row>>, other: nat, t: nat, pk: nat)
    requires CleanBundle(g, tables) && RequiredPresent(g, tables) && other != g.company && t < |g.reg|
    ensures InScope(g.reg, WriteTables(g, tables, Statuses(g, tables), |g.reg|), other, t, pk)
        <==> InScope(g.reg, g.rows, other, t, pk)
    decreases t
  {
    var rows' := WriteTables(g, tables, Statuses(g, tables), |g.reg|);
    WrittenTable(g, tables, |g.reg|, t);
    if pk in g.rows[t] {
      if g.reg[t].owner.Some? {
        var fk := g.reg[t].fks[g.reg[t].owner.value];
        if fk.field in g.rows[t][pk].refs {
          OtherScopeUnchanged(g, tables, other, fk.table, g.rows[t][pk].refs[fk.field]);
        }
      }
    } else if pk in rows'[t] {
      var i :| 0 <= i < |tables[t]| && Statuses(g, tables)[t][i] == New && tables[t][i].pk == pk;
      RowsLand(g, tables, |g.reg|, t, i);
      if InScope(g.reg, rows', other, t, pk) { OneCompany(g.reg, rows', g.company, other, t, pk); }
    }
  }

  // ------------------------------------------------------------ importing twice

  lemma {:induction false} SecondScan(g': Target, batch: Batch, t: nat, rows: seq<Row>)
    requires Ready(g') && |batch| == |g'.reg| && t < |g'.reg| && batch[t] == {}
    requires forall i :: 0 <= i < |rows| ==>
      && InScope(g'.reg, g'.rows, g'.company, t, rows[i].pk)
      && rows[i].pk !in Keys(rows[..i])
      && forall fk :: fk in g'.reg[t].fks && fk.field in rows[i].refs ==>
          InScope(g'.reg, g'.rows, g'.company, fk.table, rows[i].refs[fk.field])
    ensures forall i :: 0 <= i < |rows| ==> Scan(g', batch, t, rows).0[i] == SkipExisting
    ensures Scan(g', batch, t, rows).1 == batch[t := Keys(rows)]
  {
    if rows != [] {
      var n := |rows| - 1;
      var init := rows[..n];
      assert rows == init + [rows[n]];
      assert forall i :: 0 <= i < n ==> init[..i] == rows[..i];
      SecondScan(g', batch, t, init);
      KeysAppend(init, rows[n]);
      assert Classify(g', batch[t := Keys(init)], t, rows[n]) == SkipExisting;
    } else {
      assert Keys(rows) == {};
    }
  }

  ghost predicate AllSkipped(column: seq<Status>) { forall i :: 0 <= i < |column| ==> column[i] == SkipExisting }

  /** After the tables before it, the scan of table t skips all of its rows. */
  ghost predicate TableSkips(g': Target, tables: seq<seq<Row>>, t: nat)
    requires Ready(g') && |tables| == |g'.reg| && t < |g'.reg|
  {
    var (column, batch) := Scan(g', FullBatch(tables, t), t, tables[t]);
    AllSkipped(column) && batch == FullBatch(tables, t + 1)
  }

  lemma SecondTable(g: Target, g': Target, tables: seq<seq<Row>>, t: nat)
    requires CleanBundle(g, tables) && t < |g.reg|
    requires Ready(g') && g'.reg == g.reg && g'.company == g.company
    requires forall i: nat :: i < |tables[t]| ==> RowKnown(g', tables, t, i)
    ensures TableSkips(g', tables, t)
  {
    forall i: nat | i < |tables[t]|
      ensures RowKnown(g', tables, t, i) && tables[t][i].pk !in Keys(tables[t][..i])
    {
      CleanRow(g, tables, t, i);
    }
    SecondScan(g', FullBatch(tables, t), t, tables[t]);
    assert FullBatch(tables, t + 1) == FullBatch(tables, t)[t := Keys(tables[t])];
  }

  lemma {:induction false} SkippedTables(g': Target, tables: seq<seq<Row>>, n: nat)
    requires Ready(g') && |tables| == |g'.reg| && n <= |g'.reg|
    requires forall t: nat :: t < n ==> TableSkips(g', tables, t)
    ensures forall t :: 0 <= t < n ==> AllSkipped(ScanTables(g', tables, n).0[t])
    ensures ScanTables(g', tables, n).1 == FullBatch(tables, n)
  {
    if n > 0 {
      SkippedTables(g', tables, n - 1);
      assert TableSkips(g', tables, n - 1);
    }
  }

  lemma SecondScanTables(g: Target, g': Target, tables: seq<seq<Row>>)
    requires CleanBundle(g, tables)
    requires Ready(g') && g'.reg == g.reg && g'.company == g.company
    requires forall t: nat, i: nat :: t < |g.reg| && i < |tables[t]| ==> RowKnown(g', tables, t, i)
    ensures forall t :: 0 <= t < |g.reg| ==> AllSkipped(ScanTables(g', tables, |g.reg|).0[t])
    ensures ScanTables(g', tables, |g.reg|).1 == FullBatch(tables, |g.reg|)
  {
    forall t: nat | t < |g.reg| ensures TableSkips(g', tables, t) { SecondTable(g, g', tables, t); }
    SkippedTables(g', tables, |g.reg|);
  }

  /** A row and everything it refers to belong to the target. */
  ghost predicate RowKnown(g': Target, tables: seq<seq<Row>>, t: nat, i: nat)
    requires Ready(g') && t < |g'.reg| && t < |tables| && i < |tables[t]|
  {
    && InScope(g'.reg, g'.rows, g'.company, t, tables[t][i].pk)
    && forall fk :: fk in g'.reg[t].fks && fk.field in tables[t][i].refs ==>
         fk.table < |g'.reg| && InScope(g'.reg, g'.rows, g'.company, fk.table, tables[t][i].refs[fk.field])
  }

  // ------------------------------------------------------------ ledger events

  /** kind is the table of the aggregate, None for a name the registry lacks. */
  datatype EventRow = EventRow(
    id: nat, kind: Option<nat>, aggregate: nat, seqNo: int, corrects: Option<nat>,
    effective: int, recorded: int, payload: Option<PoolLedger.PoolPayload>, actor: Option<nat>)

  type Pair = (nat, int)

  function PairOf(e: EventRow): Pair { (e.aggregate, e.seqNo) }

  function Pairs(events: seq<EventRow>): set<Pair> { set i | 0 <= i < |events| :: PairOf(events[i]) }

  function Ids(events: seq<EventRow>): set<nat> { set i | 0 <= i < |events| :: events[i].id }

  lemma PairsAndIdsAppend(events: seq<EventRow>, more: seq<EventRow>)
    ensures Pairs(events + more) == Pairs(events) + Pairs(more)
    ensures Ids(events + more) == Ids(events) + Ids(more)
  {
    var all := events + more;
    forall i | 0 <= i < |events|
      ensures PairOf(events[i]) in Pairs(all) && events[i].id in Ids(all)
    {
      assert all[i] == events[i];
    }
    forall i | 0 <= i < |more|
      ensures PairOf(more[i]) in Pairs(all) && more[i].id in Ids(all)
    {
      assert all[|events| + i] == more[i];
    }
  }

  predicate AggregateKnown(g: Target, batch: Batch, e: EventRow)
    requires Ready(g) && |batch| == |g.reg|
  {
    e.kind.Some? && e.kind.value < |g.reg| && g.reg[e.kind.value].hasLedger
    && (InScope(g.reg, g.rows, g.company, e.kind.value, e.aggregate) || e.aggregate in batch[e.kind.value])
  }

  /** _validate_ledger_events on one row, after the rows before it. */
  function ClassifyEvent(
      g: Target, batch: Batch, existing: seq<EventRow>, pairs: set<Pair>, ids: set<nat>, e: EventRow): Status
    requires Ready(g) && |batch| == |g.reg|
  {
    if e.kind.None? || e.kind.value >= |g.reg| || !g.reg[e.kind.value].hasLedger then Error(UnknownAggregate)
    else if !AggregateKnown(g, batch, e) then Error(AggregateNotFound)
    else if e.corrects.Some? && e.corrects.value !in Ids(existing) && e.corrects.value !in ids then Error(CorrectsLater)
    else if PairOf(e) in Pairs(existing) || PairOf(e) in pairs then SkipExisting
    else New
  }

  datatype EventScan = EventScan(statuses: seq<Status>, pairs: set<Pair>, ids: set<nat>)

  function ScanEvents(g: Target, batch: Batch, existing: seq<EventRow>, events: seq<EventRow>): (r: EventScan)
    requires Ready(g) && |batch| == |g.reg|
    ensures |r.statuses| == |events|
  {
    if events == [] then EventScan([], {}, {})
    else
      var e := events[|events| - 1];
      var before := ScanEvents(g, batch, existing, events[..|events| - 1]);
      var status := ClassifyEvent(g, batch, existing, before.pairs, before.ids, e);
      if status.Error? then before.(statuses := before.statuses + [status])
      else EventScan(before.statuses + [status], before.pairs + {PairOf(e)}, before.ids + {e.id})
  }

  function NewEvents(events: seq<EventRow>, statuses: seq<Status>): seq<EventRow>
    requires |statuses| == |events|
  {
    if events == [] then []
    else
      var n := |events| - 1;
      var init := NewEvents(events[..n], statuses[..n]);
      if statuses[n] == New then init + [events[n].(actor := None)] else init
  }

  lemma CleanPrefix(g: Target, batch: Batch, existing: seq<EventRow>, events: seq<EventRow>)
    requires Ready(g) && |batch| == |g.reg| && events != []
    requires Clean(ScanEvents(g, batch, existing, events).statuses)
    ensures var n, r := |events| - 1, ScanEvents(g, batch, existing, events);
      && r.statuses[..n] == ScanEvents(g, batch, existing, events[..n]).statuses && !r.statuses[n].Error?
      && Clean(ScanEvents(g, batch, existing, events[..n]).statuses)
  {
    var n, r := |events| - 1, ScanEvents(g, batch, existing, events);
    assert !r.statuses[n].Error?;
    assert r.statuses[..n] == ScanEvents(g, batch, existing, events[..n]).statuses;
    forall i | 0 <= i < n ensures !r.statuses[..n][i].Error? { assert r.statuses[..n][i] == r.statuses[i]; }
  }

  lemma PairsOfLast(events: seq<EventRow>)
    requires events != []
    ensures var n := |events| - 1;
      Pairs(events) == Pairs(events[..n]) + {PairOf(events[n])} && Ids(events) == Ids(events[..n]) + {events[n].id}
  {
    var n := |events| - 1;
    assert events == events[..n] + [events[n]];
    PairsAndIdsAppend(events[..n], [events[n]]);
    SinglePair(events[n]);
  }

  /** After a clean scan the pairs and ids seen are those of the bundle. */
  lemma {:induction false} CleanPairs(g: Target, batch: Batch, existing: seq<EventRow>, events: seq<EventRow>)
    requires Ready(g) && |batch| == |g.reg| && Clean(ScanEvents(g, batch, existing, events).statuses)
    ensures var r := ScanEvents(g, batch, existing, events); r.pairs == Pairs(events) && r.ids == Ids(events)
  {
    if events != [] {
      CleanPrefix(g, batch, existing, events);
      CleanPairs(g, batch, existing, events[..|events| - 1]);
      PairsOfLast(events);
    } else {
      assert Pairs(events) == {} && Ids(events) == {};
    }
  }

  lemma {:induction false} ScanPrefix(g: Target, batch: Batch, existing: seq<EventRow>, events: seq<EventRow>, n: nat)
    requires Ready(g) && |batch| == |g.reg| && n <= |events|
    ensures ScanEvents(g, batch, existing, events).statuses[..n]
         == ScanEvents(g, batch, existing, events[..n]).statuses
  {
    if n < |events| {
      var init := events[..|events| - 1];
      ScanPrefix(g, batch, existing, init, n);
      assert init[..n] == events[..n];
    } else {
      assert events[..n] == events;
    }
  }

  /** In a clean scan every event is classified against those above it. */
  lemma CleanEvent(g: Target, batch: Batch, existing: seq<EventRow>, events: seq<EventRow>, i: nat)
    requires Ready(g) && |batch| == |g.reg| && Clean(ScanEvents(g, batch, existing, events).statuses)
    requires i < |events|
    ensures ScanEvents(g, batch, existing, events).statuses[i]
         == ClassifyEvent(g, batch, existing, Pairs(events[..i]), Ids(events[..i]), events[i])
  {
    var statuses := ScanEvents(g, batch, existing, events).statuses;
    ScanPrefix(g, batch, existing, events, i);
    ScanPrefix(g, batch, existing, events, i + 1);
    assert events[..i + 1][..i] == events[..i];
    forall k | 0 <= k < i ensures !statuses[..i][k].Error? { assert statuses[..i][k] == statuses[k]; }
    CleanPairs(g, batch, existing, events[..i]);
    assert statuses[i] == statuses[..i + 1][i];
  }

  lemma NewEventsOfLast(events: seq<EventRow>, statuses: seq<Status>)
    requires |statuses| == |events| && events != []
    ensures var n := |events| - 1;
      Pairs(NewEvents(events, statuses))
      == Pairs(NewEvents(events[..n], statuses[..n])) + if statuses[n] == New then {PairOf(events[n])} else {}
  {
    var n := |events| - 1;
    if statuses[n] == New {
      PairsAndIdsAppend(NewEvents(events[..n], statuses[..n]), [events[n].(actor := None)]);
      SinglePair(events[n].(actor := None));
    }
  }

  /** After a clean scan every pair of the bundle is stored or about to be. */
  lemma {:induction false} CleanEventsLand(g: Target, batch: Batch, existing: seq<EventRow>, events: seq<EventRow>)
    requires Ready(g) && |batch| == |g.reg| && Clean(ScanEvents(g, batch, existing, events).statuses)
    ensures Pairs(events)
         <= Pairs(existing) + Pairs(NewEvents(events, ScanEvents(g, batch, existing, events).statuses))
  {
    if events != [] {
      CleanPrefix(g, batch, existing, events);
      CleanEventsLand(g, batch, existing, events[..|events| - 1]);
      CleanPairs(g, batch, existing, events[..|events| - 1]);
      PairsOfLast(events);
      NewEventsOfLast(events, ScanEvents(g, batch, existing, events).statuses);
    } else {
      assert Pairs(events) == {};
    }
  }

  lemma SinglePair(e: EventRow)
    ensures Pairs([e]) == {PairOf(e)} && Ids([e]) == {e.id}
  {
    assert [e][0] == e;
  }

  lemma {:induction false} SecondScanEvents(g': Target, batch: Batch, existing': seq<EventRow>, events: seq<EventRow>)
    requires Ready(g') && |batch| == |g'.reg|
    requires forall i :: 0 <= i < |events| ==>
      && AggregateKnown(g', batch, events[i]) && PairOf(events[i]) in Pairs(existing')
      && (events[i].corrects.Some? ==>
          events[i].corrects.value in Ids(existing') || events[i].corrects.value in Ids(events[..i]))
    ensures forall i :: 0 <= i < |events| ==> ScanEvents(g', batch, existing', events).statuses[i] == SkipExisting
    ensures ScanEvents(g', batch, existing', events).ids == Ids(events)
  {
    if events != [] {
      var n := |events| - 1;
      var init := events[..n];
      assert events == init + [events[n]];
      assert forall i :: 0 <= i < n ==> init[..i] == events[..i];
      SecondScanEvents(g', batch, existing', init);
      PairsAndIdsAppend(init, [events[n]]);
      SinglePair(events[n]);
    } else {
      assert Ids(events) == {};
    }
  }

  lemma {:induction false} NoNewEvents(events: seq<EventRow>, statuses: seq<Status>)
    requires |statuses| == |events| && forall i :: 0 <= i < |events| ==> statuses[i] != New
    ensures NewEvents(events, statuses) == []
  {
    if events != [] { NoNewEvents(events[..|events| - 1], statuses[..|events| - 1]); }
  }

  lemma {:induction false} NoNewRows(
      table: map<nat, Row>, spec: TableSpec, company: nat, rows: seq<Row>, statuses: seq<Status>)
    requires |statuses| == |rows| && forall i :: 0 <= i < |rows| ==> statuses[i] != New
    ensures InsertNew(table, spec, company, rows, statuses) == table
  {
    if rows != [] { NoNewRows(table, spec, company, rows[..|rows| - 1], statuses[..|rows| - 1]); }
  }

  // ------------------------------------------------------------ tables matched by key alone

  datatype PackKey = PackKey(country: string, grantType: string, start: int)

  type BracketKey = (PackKey, int)

  /** Rows told apart by one key: existing ones are skipped, others get the given status. */
  function KeyStatuses<K(==)>(keys: seq<K>, existing: set<K>, otherwise: Status): (r: seq<Status>)
    ensures |r| == |keys|
  {
    seq(|keys|, i requires 0 <= i < |keys| => if keys[i] in existing then SkipExisting else otherwise)
  }

  function RateStatuses(keys: seq<PackKey>, known: set<PackKey>, existing: set<PackKey>): (r: seq<Status>)
    ensures |r| == |keys|
  {
    seq(|keys|, i requires 0 <= i < |keys| =>
      if keys[i] !in known then Error(NoPack) else if keys[i] in existing then SkipExisting else New)
  }

  function BracketStatuses(keys: seq<BracketKey>, known: set<PackKey>, existing: set<BracketKey>): (r: seq<Status>)
    ensures |r| == |keys|
  {
    seq(|keys|, i requires 0 <= i < |keys| =>
      if keys[i].0 !in known then Error(NoPack) else if keys[i] in existing then SkipExisting else New)
  }

  function Elements<K(==)>(keys: seq<K>): set<K> { set k | k in keys }

  /** UNIQUE: the keys to be written are pairwise different. */
  predicate NewKeysDistinct<K(==)>(keys: seq<K>, statuses: seq<Status>)
    requires |statuses| == |keys|
  {
    forall i, j :: 0 <= i < j < |keys| && statuses[i] == New && statuses[j] == New ==> keys[i] != keys[j]
  }

  // ------------------------------------------------------------ dry run and commit

  datatype Db = Db(
    rows: Tables,
    events: seq<EventRow>,
    packs: set<PackKey>,
    rates: set<PackKey>,
    brackets: set<BracketKey>,
    audit: set<nat>,
    preferences: set<nat>,
    dismissals: set<nat>)

  datatype Bundle = Bundle(
    tables: seq<seq<Row>>,
    packs: seq<PackKey>,
    rates: seq<PackKey>,
    brackets: seq<BracketKey>,
    events: seq<EventRow>,
    audit: seq<nat>,
    preferences: seq<nat>,
    dismissals: seq<nat>)

  datatype Report = Report(
    tables: seq<seq<Status>>,
    packs: seq<Status>,
    rates: seq<Status>,
    brackets: seq<Status>,
    events: seq<Status>,
    audit: seq<Status>,
    preferences: seq<Status>,
    dismissals: seq<Status>)

  ghost predicate Fits(reg: seq<TableSpec>, db: Db, bundle: Bundle)
  {
    Topological(reg) && POOLS < |reg| && |db.rows| == |reg| && |bundle.tables| == |reg|
  }

  function TargetOf(reg: seq<TableSpec>, db: Db, company: nat): Target { Target(reg, db.rows, company) }

  /** dry_run */
  function DryRun(reg: seq<TableSpec>, db: Db, bundle: Bundle, company: nat): (r: Report)
    requires Fits(reg, db, bundle)
    ensures |r.tables| == |reg| && (forall t :: 0 <= t < |reg| ==> |r.tables[t]| == |bundle.tables[t]|)
    ensures |r.events| == |bundle.events| && |r.packs| == |bundle.packs| && |r.rates| == |bundle.rates|
    ensures |r.brackets| == |bundle.brackets| && |r.audit| == |bundle.audit|
  {
    var g := TargetOf(reg, db, company);
    var (tables, batch) := ScanTables(g, bundle.tables, |reg|);
    var known := db.packs + Elements(bundle.packs);
    Report(tables,
           KeyStatuses(bundle.packs, db.packs, New),
           RateStatuses(bundle.rates, known, db.rates),
           BracketStatuses(bundle.brackets, known, db.brackets),
           ScanEvents(g, batch, db.events, bundle.events).statuses,
           KeyStatuses(bundle.audit, db.audit, New),
           KeyStatuses(bundle.preferences, db.preferences, NotPortable),
           KeyStatuses(bundle.dismissals, db.dismissals, NotPortable))
  }

  predicate Valid(r: Report)
  {
    CleanTables(r.tables) && Clean(r.packs) && Clean(r.rates) && Clean(r.brackets) && Clean(r.events)
    && Clean(r.audit) && Clean(r.preferences) && Clean(r.dismissals)
  }

  predicate AllOld(statuses: seq<Status>) { forall i :: 0 <= i < |statuses| ==> statuses[i] != New }

  predicate NothingNew(r: Report)
  {
    (forall t :: 0 <= t < |r.tables| ==> AllOld(r.tables[t])) && AllOld(r.packs) && AllOld(r.rates)
        && AllOld(r.brackets)
    && AllOld(r.events) && AllOld(r.audit) && AllOld(r.preferences) && AllOld(r.dismissals)
  }

  function NewKeys<K(==)>(keys: seq<K>, statuses: seq<Status>): set<K>
    requires |statuses| == |keys|
  {
    set i | 0 <= i < |keys| && statuses[i] == New :: keys[i]
  }

  /** Pools that received a new event. */
  function TouchedPools(events: seq<EventRow>): set<nat>
  {
    set e | e in events && e.kind == Some(POOLS) :: e.aggregate
  }

  function PoolLog(events: seq<EventRow>): seq<PoolLedger.PoolEvent>
  {
    if events == [] then []
    else
      var init, e := PoolLog(events[..|events| - 1]), events[|events| - 1];
      if e.payload.None? then init
      else init + [Ledger.Event(e.aggregate, e.payload.value, e.effective, e.recorded, e.seqNo, e.kind != Some(POOLS))]
  }

  /** _recompute_option_pool_projections on one pool: the two balances follow the
      fold of its whole history, the size does not. */
  function Rebalanced(pk: nat, row: Row, events: seq<EventRow>): Row
  {
    var state := PoolLedger.Fold(Ledger.EventsFor(PoolLog(events), pk, Ledger.EVERYTHING));
    if state.None? || row.balance.None? then row
    else row.(balance :=
        Some(Amounts(state.value.allocatedShares, state.value.unallocatedShares, row.balance.value.total)))
  }

  function Recomputed(rows: Tables, events: seq<EventRow>, touched: set<nat>): Tables
    requires POOLS < |rows|
  {
    rows[POOLS := map pk | pk in rows[POOLS] ::
        if pk in touched then Rebalanced(pk, rows[POOLS][pk], events) else rows[POOLS][pk]]
  }

  /** Everything commit writes, before the constraints have their say. */
  function Written(reg: seq<TableSpec>, db: Db, bundle: Bundle, company: nat): Db
    requires Fits(reg, db, bundle)
  {
    var g, r := TargetOf(reg, db, company), DryRun(reg, db, bundle, company);
    var added := NewEvents(bundle.events, r.events);
    var events := db.events + added;
    Db(Recomputed(WriteTables(g, bundle.tables, r.tables, |reg|), events, TouchedPools(added)),
       events,
       db.packs + NewKeys(bundle.packs, r.packs),
       db.rates + NewKeys(bundle.rates, r.rates),
       db.brackets + NewKeys(bundle.brackets, r.brackets),
       db.audit + NewKeys(bundle.audit, r.audit),
       db.preferences,
       db.dismissals)
  }

  /** The constraints the proofs rely on: NOT NULL owners and the keys that are
      UNIQUE. Every other constraint is the flag others. */
  predicate ConstraintsHold(reg: seq<TableSpec>, db: Db, bundle: Bundle, company: nat, others: bool)
    requires Fits(reg, db, bundle)
  {
    var g, r := TargetOf(reg, db, company), DryRun(reg, db, bundle, company);
    && others
    && RequiredPresent(g, bundle.tables)
    && NewKeysDistinct(bundle.packs, r.packs) && NewKeysDistinct(bundle.rates, r.rates)
    && NewKeysDistinct(bundle.brackets, r.brackets) && NewKeysDistinct(bundle.audit, r.audit)
    && Ids(db.events) !! Ids(NewEvents(bundle.events, r.events))
  }

  datatype Outcome = Rejected(report: Report) | RolledBack | Committed(report: Report)

  /** commit: an invalid bundle and a failed constraint both leave the database alone. */
  function Commit(reg: seq<TableSpec>, db: Db, bundle: Bundle, company: nat, others: bool): (Db, Outcome)
    requires Fits(reg, db, bundle)
  {
    var r := DryRun(reg, db, bundle, company);
    if !Valid(r) then (db, Rejected(r))
    else if !NothingNew(r) && !ConstraintsHold(reg, db, bundle, company, others) then (db, RolledBack)
    else (Written(reg, db, bundle, company), Committed(r))
  }

  // ------------------------------------------------------------ when a bundle is valid

  /** An event names a ledger table in which the target, or the bundle, has its
      aggregate, and corrects only what is stored or above it. */
  ghost predicate EventAcceptable(
      g: Target, tables: seq<seq<Row>>, existing: seq<EventRow>, events: seq<EventRow>, i: nat)
    requires Ready(g) && |tables| == |g.reg| && i < |events|
  {
    var e := events[i];
    && e.kind.Some? && e.kind.value < |g.reg| && g.reg[e.kind.value].hasLedger
    && (InScope(g.reg, g.rows, g.company, e.kind.value, e.aggregate) || e.aggregate in Keys(tables[e.kind.value]))
    && (e.corrects.Some? ==> e.corrects.value in Ids(existing) || e.corrects.value in Ids(events[..i]))
  }

  lemma EventAcceptableIff(
      g: Target, tables: seq<seq<Row>>, existing: seq<EventRow>, events: seq<EventRow>, i: nat, pairs: set<Pair>)
    requires Ready(g) && |tables| == |g.reg| && i < |events|
    ensures EventAcceptable(g, tables, existing, events, i)
       <==> !ClassifyEvent(g, FullBatch(tables, |g.reg|), existing, pairs, Ids(events[..i]), events[i]).Error?
  {
  }

  lemma {:induction false} AcceptableEvents(
      g: Target, tables: seq<seq<Row>>, existing: seq<EventRow>, events: seq<EventRow>)
    requires Ready(g) && |tables| == |g.reg|
    requires forall i: nat :: i < |events| ==> EventAcceptable(g, tables, existing, events, i)
    ensures Clean(ScanEvents(g, FullBatch(tables, |g.reg|), existing, events).statuses)
    ensures ScanEvents(g, FullBatch(tables, |g.reg|), existing, events).ids == Ids(events)
  {
    if events != [] {
      var n := |events| - 1;
      var init := events[..n];
      forall i: nat | i < n ensures EventAcceptable(g, tables, existing, init, i) {
        assert EventAcceptable(g, tables, existing, events, i);
        assert init[..i] == events[..i];
      }
      AcceptableEvents(g, tables, existing, init);
      var before := ScanEvents(g, FullBatch(tables, |g.reg|), existing, init);
      EventAcceptableIff(g, tables, existing, events, n, before.pairs);
      assert events == init + [events[n]];
      PairsAndIdsAppend(init, [events[n]]);
      SinglePair(events[n]);
    } else {
      assert Ids(events) == {};
    }
  }

  lemma CleanEventsIff(g: Target, tables: seq<seq<Row>>, existing: seq<EventRow>, events: seq<EventRow>)
    requires Ready(g) && |tables| == |g.reg|
    ensures Clean(ScanEvents(g, FullBatch(tables, |g.reg|), existing, events).statuses)
       <==> forall i: nat :: i < |events| ==> EventAcceptable(g, tables, existing, events, i)
  {
    var batch := FullBatch(tables, |g.reg|);
    if Clean(ScanEvents(g, batch, existing, events).statuses) {
      forall i: nat | i < |events| ensures EventAcceptable(g, tables, existing, events, i) {
        CleanEvent(g, batch, existing, events, i);
        assert !ScanEvents(g, batch, existing, events).statuses[i].Error?;
        EventAcceptableIff(g, tables, existing, events, i, Pairs(events[..i]));
      }
    } else if forall i: nat :: i < |events| ==> EventAcceptable(g, tables, existing, events, i) {
      AcceptableEvents(g, tables, existing, events);
    }
  }

  /** The tax rows' pack is stored or in the bundle. */
  ghost predicate PackKnown(db: Db, bundle: Bundle, key: PackKey) { key in db.packs || key in bundle.packs }

  lemma CleanKeysIff(db: Db, bundle: Bundle)
    ensures var known := db.packs + Elements(bundle.packs);
      && (Clean(RateStatuses(bundle.rates, known, db.rates)) <==>
          forall k :: k in bundle.rates ==> PackKnown(db, bundle, k))
      && (Clean(BracketStatuses(bundle.brackets, known, db.brackets)) <==>
          forall k :: k in bundle.brackets ==> PackKnown(db, bundle, k.0))
  {
    var known := db.packs + Elements(bundle.packs);
    var rates := RateStatuses(bundle.rates, known, db.rates);
    var brackets := BracketStatuses(bundle.brackets, known, db.brackets);
    forall i | 0 <= i < |rates| ensures rates[i].Error? <==> !PackKnown(db, bundle, bundle.rates[i]) { }
    forall i | 0 <= i < |brackets| ensures brackets[i].Error? <==> !PackKnown(db, bundle, bundle.brackets[i].0) { }
    if Clean(rates) {
      forall k | k in bundle.rates ensures PackKnown(db, bundle, k) {
        var i :| 0 <= i < |bundle.rates| && bundle.rates[i] == k;
        assert !rates[i].Error?;
      }
    }
    if Clean(brackets) {
      forall k | k in bundle.brackets ensures PackKnown(db, bundle, k.0) {
        var i :| 0 <= i < |bundle.brackets| && bundle.brackets[i] == k;
        assert !brackets[i].Error?;
      }
    }
  }

  ghost predicate RowsAcceptable(g: Target, tables: seq<seq<Row>>)
    requires Ready(g) && |tables| == |g.reg|
  {
    forall t: nat, i: nat :: t < |g.reg| && i < |tables[t]| ==> Acceptable(g, tables, t, i)
  }

  /** Exactly when a dry run finds a bundle valid. */
  lemma ValidIff(reg: seq<TableSpec>, db: Db, bundle: Bundle, company: nat)
    requires Fits(reg, db, bundle)
    ensures var g := TargetOf(reg, db, company);
      Valid(DryRun(reg, db, bundle, company)) <==>
        && RowsAcceptable(g, bundle.tables)
        && (forall i: nat :: i < |bundle.events| ==>
              EventAcceptable(g, bundle.tables, db.events, bundle.events, i))
        && (forall k :: k in bundle.rates ==> PackKnown(db, bundle, k))
        && (forall k :: k in bundle.brackets ==> PackKnown(db, bundle, k.0))
  {
    var g := TargetOf(reg, db, company);
    CleanBundleIff(g, bundle.tables);
    CleanKeysIff(db, bundle);
    if CleanBundle(g, bundle.tables) {
      CleanScanTables(g, bundle.tables, |reg|);
      CleanEventsIff(g, bundle.tables, db.events, bundle.events);
    }
  }

  /** The new keys are pairwise different. */
  ghost predicate NoNewTwice<K>(keys: seq<K>, existing: set<K>)
  {
    forall i, j :: 0 <= i < j < |keys| && keys[i] !in existing ==> keys[i] != keys[j]
  }

  lemma NewTwiceIff<K>(keys: seq<K>, existing: set<K>, statuses: seq<Status>)
    requires |statuses| == |keys|
    requires forall i :: 0 <= i < |keys| ==> statuses[i] == if keys[i] in existing then SkipExisting else New
    ensures NewKeysDistinct(keys, statuses) <==> NoNewTwice(keys, existing)
  {
  }

  /** A column that is NOT NULL is there on every new row. */
  ghost predicate NothingMissing(reg: seq<TableSpec>, bundle: Bundle, r: Report)
    requires |bundle.tables| == |reg| == |r.tables|
    requires forall t :: 0 <= t < |reg| ==> |r.tables[t]| == |bundle.tables[t]|
  {
    forall t, i :: 0 <= t < |reg| && 0 <= i < |bundle.tables[t]| && r.tables[t][i] == New ==>
      forall fk :: fk in reg[t].fks && fk.required ==> fk.field in bundle.tables[t][i].refs
  }

  /** The NOT NULL columns and UNIQUE keys the model follows. */
  ghost predicate MeetsKeys(reg: seq<TableSpec>, db: Db, bundle: Bundle, r: Report)
    requires |bundle.tables| == |reg| == |r.tables| && |bundle.events| == |r.events|
    requires forall t :: 0 <= t < |reg| ==> |r.tables[t]| == |bundle.tables[t]|
  {
    && NothingMissing(reg, bundle, r)
    && NoNewTwice(bundle.packs, db.packs) && NoNewTwice(bundle.rates, db.rates)
    && NoNewTwice(bundle.brackets, db.brackets) && NoNewTwice(bundle.audit, db.audit)
    && forall e :: e in NewEvents(bundle.events, r.events) ==> e.id !in Ids(db.events)
  }

  /** Exactly when a commit goes through: the bundle is valid, and it brings nothing
      new or meets the constraints; else the database is left alone. */
  lemma CommittedIff(reg: seq<TableSpec>, db: Db, bundle: Bundle, company: nat, others: bool)
    requires Fits(reg, db, bundle)
    ensures var r, (db', o) := DryRun(reg, db, bundle, company), Commit(reg, db, bundle, company, others);
      && (o.Committed? <==> (Valid(r) && (NothingNew(r) || (others && MeetsKeys(reg, db, bundle, r)))))
      && (o.Rejected? <==> !Valid(r))
      && (!o.Committed? ==> db' == db)
      && (o.Committed? ==> o.report == r)
  {
    var r := DryRun(reg, db, bundle, company);
    if Valid(r) {
      assert forall i :: 0 <= i < |r.rates| ==> !r.rates[i].Error?;
      assert forall i :: 0 <= i < |r.brackets| ==> !r.brackets[i].Error?;
      NewTwiceIff(bundle.packs, db.packs, r.packs);
      NewTwiceIff(bundle.rates, db.rates, r.rates);
      NewTwiceIff(bundle.brackets, db.brackets, r.brackets);
      NewTwiceIff(bundle.audit, db.audit, r.audit);
      var added := NewEvents(bundle.events, r.events);
      if forall e :: e in added ==> e.id !in Ids(db.events) {
        assert Ids(db.events) !! Ids(added);
      } else {
        var e :| e in added && e.id in Ids(db.events);
        var k :| 0 <= k < |added| && added[k] == e;
        assert e.id in Ids(added);
      }
    }
  }

  // ------------------------------------------------------------ what a commit stores

  lemma NewRowLands(g: Target, tables: seq<seq<Row>>, t: nat, i: nat)
    requires CleanBundle(g, tables) && t < |g.reg| && i < |tables[t]| && Statuses(g, tables)[t][i] == New
    ensures var rows := WriteTables(g, tables, Statuses(g, tables), |g.reg|);
      tables[t][i].pk in rows[t] && rows[t][tables[t][i].pk] == Build(g.reg[t], tables[t][i], g.company)
  {
    WrittenTable(g, tables, |g.reg|, t);
  }

  /** A new row is stored as it came, but for its company, which is the target, and
      the user columns that cannot travel; a pool's balances may be recomputed. */
  lemma NewRowStored(reg: seq<TableSpec>, db: Db, bundle: Bundle, company: nat, others: bool, t: nat, i: nat)
    requires Succeeds(reg, db, bundle, company, others) && t < |reg| && i < |bundle.tables[t]|
    requires DryRun(reg, db, bundle, company).tables[t][i] == New
    ensures var row, rows' := bundle.tables[t][i], Written(reg, db, bundle, company).rows;
      && row.pk !in db.rows[t] && t < |rows'| && row.pk in rows'[t]
      && var row' := rows'[t][row.pk];
      && row'.pk == row.pk && row'.refs == row.refs && row'.content == row.content
      && row'.company == (if reg[t].owner.None? then Some(company) else None)
      && (forall u :: u in row'.users <==> u in row.users && u !in reg[t].nulledUsers)
      && (forall u :: u in row'.users ==> row'.users[u] == row.users[u])
      && (t != POOLS ==> row'.balance == row.balance)
  {
    NewRowLands(TargetOf(reg, db, company), bundle.tables, t, i);
    CleanRow(TargetOf(reg, db, company), bundle.tables, t, i);
  }

  lemma KeysLand<K>(keys: seq<K>, existing: set<K>, statuses: seq<Status>)
    requires |statuses| == |keys|
    requires forall i :: 0 <= i < |keys| ==> statuses[i] == if keys[i] in existing then SkipExisting else New
    ensures existing + NewKeys(keys, statuses) == existing + Elements(keys)
  {
    forall k | k in keys && k !in existing ensures k in NewKeys(keys, statuses) {
      var i :| 0 <= i < |keys| && keys[i] == k;
      assert statuses[i] == New;
    }
  }

  /** Every tax and audit row of the bundle is stored, the events are stored without
      their actors, and preferences and dismissals are not imported. */
  lemma OtherRowsStored(reg: seq<TableSpec>, db: Db, bundle: Bundle, company: nat, others: bool)
    requires Succeeds(reg, db, bundle, company, others)
    ensures var r, db' := DryRun(reg, db, bundle, company), Written(reg, db, bundle, company);
      && db'.packs == db.packs + Elements(bundle.packs) && db'.rates == db.rates + Elements(bundle.rates)
      && db'.brackets == db.brackets + Elements(bundle.brackets) && db'.audit == db.audit + Elements(bundle.audit)
      && db'.preferences == db.preferences && db'.dismissals == db.dismissals
      && db.events <= db'.events
      && (forall e :: e in db'.events <==>
            (e in db.events
             || exists i :: 0 <= i < |bundle.events| && r.events[i] == New && e == bundle.events[i].(actor := None)))
  {
    var r := DryRun(reg, db, bundle, company);
    assert forall i :: 0 <= i < |r.rates| ==> !r.rates[i].Error?;
    assert forall i :: 0 <= i < |r.brackets| ==> !r.brackets[i].Error?;
    KeysLand(bundle.packs, db.packs, r.packs);
    KeysLand(bundle.rates, db.rates, r.rates);
    KeysLand(bundle.brackets, db.brackets, r.brackets);
    KeysLand(bundle.audit, db.audit, r.audit);
    forall e
      ensures e in NewEvents(bundle.events, r.events)
        <==> exists i :: 0 <= i < |bundle.events| && r.events[i] == New && e == bundle.events[i].(actor := None)
    {
      NewEventComesFrom(bundle.events, r.events, e);
    }
  }

  // ------------------------------------------------------------ what a commit guarantees

  lemma RecomputedKeepsIdentity(rows: Tables, events: seq<EventRow>, touched: set<nat>)
    requires POOLS < |rows|
    ensures Extends(rows, Recomputed(rows, events, touched)) && Extends(Recomputed(rows, events, touched), rows)
  {
  }

  lemma {:induction false} ScopeSame(reg: seq<TableSpec>, rows: Tables, rows': Tables, company: nat, t: nat, pk: nat)
    requires Topological(reg) && |rows| == |reg| && t < |reg| && Extends(rows, rows') && Extends(rows', rows)
    ensures InScope(reg, rows', company, t, pk) <==> InScope(reg, rows, company, t, pk)
  {
    if InScope(reg, rows, company, t, pk) { ScopeGrows(reg, rows, rows', company, t, pk); }
    if InScope(reg, rows', company, t, pk) { ScopeGrows(reg, rows', rows, company, t, pk); }
  }

  ghost predicate Succeeds(reg: seq<TableSpec>, db: Db, bundle: Bundle, company: nat, others: bool)
  {
    Fits(reg, db, bundle) && Valid(DryRun(reg, db, bundle, company))
        && ConstraintsHold(reg, db, bundle, company, others)
  }

  /** Referential closure at every prefix of the table order: when table t is
      about to be written, each foreign key of each of its rows already names a
      row of the target company. */
  lemma ClosedAtEveryPrefix(
      reg: seq<TableSpec>, db: Db, bundle: Bundle, company: nat, others: bool, t: nat, i: nat, fk: Fk)
    requires Succeeds(reg, db, bundle, company, others) && t < |reg| && i < |bundle.tables[t]|
    requires fk in reg[t].fks && fk.field in bundle.tables[t][i].refs
    ensures var g := TargetOf(reg, db, company);
      fk.table < t && InScope(reg, WriteTables(g, bundle.tables, Statuses(g, bundle.tables), t), company, fk.table,
          bundle.tables[t][i].refs[fk.field])
  {
    ReferenceLands(TargetOf(reg, db, company), bundle.tables, t, t, i, fk);
  }

  /** Every row of a committed bundle belongs to the target afterwards, and so
      does everything it refers to. */
  lemma CommittedRowsAreKnown(reg: seq<TableSpec>, db: Db, bundle: Bundle, company: nat, others: bool, t: nat, i: nat)
    requires Succeeds(reg, db, bundle, company, others) && t < |reg| && i < |bundle.tables[t]|
    ensures RowKnown(TargetOf(reg, Written(reg, db, bundle, company), company), bundle.tables, t, i)
  {
    var g, r := TargetOf(reg, db, company), DryRun(reg, db, bundle, company);
    var rows := WriteTables(g, bundle.tables, r.tables, |reg|);
    var rows' := Written(reg, db, bundle, company).rows;
    var added := NewEvents(bundle.events, r.events);
    RecomputedKeepsIdentity(rows, db.events + added, TouchedPools(added));
    RowsLand(g, bundle.tables, |reg|, t, i);
    ScopeSame(reg, rows, rows', company, t, bundle.tables[t][i].pk);
    forall fk | fk in reg[t].fks && fk.field in bundle.tables[t][i].refs
      ensures fk.table < |reg| && InScope(reg, rows', company, fk.table, bundle.tables[t][i].refs[fk.field])
    {
      ReferenceLands(g, bundle.tables, |reg|, t, i, fk);
      ScopeSame(reg, rows, rows', company, fk.table, bundle.tables[t][i].refs[fk.field]);
    }
  }

  lemma {:induction false} NewEventComesFrom(events: seq<EventRow>, statuses: seq<Status>, e: EventRow)
    requires |statuses| == |events|
    ensures e in NewEvents(events, statuses)
      <==> exists i :: 0 <= i < |events| && statuses[i] == New && e == events[i].(actor := None)
  {
    if events != [] {
      var n := |events| - 1;
      NewEventComesFrom(events[..n], statuses[..n], e);
      if e in NewEvents(events[..n], statuses[..n]) {
        var i :| 0 <= i < n && statuses[..n][i] == New && e == events[..n][i].(actor := None);
        assert statuses[i] == New && e == events[i].(actor := None);
      }
      if i :| 0 <= i < |events| && statuses[i] == New && e == events[i].(actor := None) {
        if i < n { assert statuses[..n][i] == New && e == events[..n][i].(actor := None); }
      }
    }
  }

  /** The aggregate of every event in a committed bundle belongs to the target. */
  lemma EventAggregateLands(reg: seq<TableSpec>, db: Db, bundle: Bundle, company: nat, others: bool, i: nat)
    requires Succeeds(reg, db, bundle, company, others) && i < |bundle.events|
    ensures var e := bundle.events[i];
      && e.kind.Some? && e.kind.value < |reg| && reg[e.kind.value].hasLedger
      && InScope(reg, WriteTables(TargetOf(reg, db, company), bundle.tables, DryRun(reg, db, bundle, company).tables,
          |reg|), company, e.kind.value, e.aggregate)
  {
    var g, e := TargetOf(reg, db, company), bundle.events[i];
    CleanScanTables(g, bundle.tables, |reg|);
    var batch := FullBatch(bundle.tables, |reg|);
    CleanEvent(g, batch, db.events, bundle.events, i);
    assert !ScanEvents(g, batch, db.events, bundle.events).statuses[i].Error?;
    assert AggregateKnown(g, batch, e);
    if e.aggregate in batch[e.kind.value] {
      var k := KeyHasRow(bundle.tables[e.kind.value], e.aggregate);
      RowsLand(g, bundle.tables, |reg|, e.kind.value, k);
    } else {
      WritingExtends(g, bundle.tables, |reg|);
      ScopeGrows(reg, g.rows, WriteTables(g, bundle.tables, Statuses(g, bundle.tables), |reg|), company, e.kind.value,
          e.aggregate);
    }
  }

  lemma TouchedBelongsToTarget(reg: seq<TableSpec>, db: Db, bundle: Bundle, company: nat, others: bool, pk: nat)
    requires Succeeds(reg, db, bundle, company, others)
    requires pk in TouchedPools(NewEvents(bundle.events, DryRun(reg, db, bundle, company).events))
    ensures InScope(reg, WriteTables(TargetOf(reg, db, company), bundle.tables,
        DryRun(reg, db, bundle, company).tables, |reg|), company, POOLS, pk)
  {
    var statuses := DryRun(reg, db, bundle, company).events;
    var e :| e in NewEvents(bundle.events, statuses) && e.kind == Some(POOLS) && e.aggregate == pk;
    NewEventComesFrom(bundle.events, statuses, e);
    var i :| 0 <= i < |bundle.events| && e == bundle.events[i].(actor := None);
    EventAggregateLands(reg, db, bundle, company, others, i);
  }

  /** No row outside the target changes in any column, not even by the pool
      recompute, which moves only the two balances of the target's own pools; new
      rows all fall to the target, and no other company's scope gains or loses
      a row. */
  lemma OthersUntouched(
      reg: seq<TableSpec>, db: Db, bundle: Bundle, company: nat, others: bool, other: nat, t: nat, pk: nat)
    requires Succeeds(reg, db, bundle, company, others) && t < |reg| && other != company
    ensures var rows' := Written(reg, db, bundle, company).rows;
      && (InScope(reg, rows', other, t, pk) <==> InScope(reg, db.rows, other, t, pk))
      && (InScope(reg, db.rows, other, t, pk) ==> pk in rows'[t] && rows'[t][pk] == db.rows[t][pk])
      && (pk in db.rows[t] && !InScope(reg, rows', company, t, pk) ==> pk in rows'[t] && rows'[t][pk] == db.rows[t][pk])
      && (pk in db.rows[t] ==> pk in rows'[t] && rows'[t][pk] == db.rows[t][pk].(balance := rows'[t][pk].balance))
      && (pk in db.rows[t] && t != POOLS ==> rows'[t][pk] == db.rows[t][pk])
      && (pk in rows'[t] && pk !in db.rows[t] ==> InScope(reg, rows', company, t, pk))
  {
    var g, r := TargetOf(reg, db, company), DryRun(reg, db, bundle, company);
    var rows := WriteTables(g, bundle.tables, r.tables, |reg|);
    var rows' := Written(reg, db, bundle, company).rows;
    var added := NewEvents(bundle.events, r.events);
    RecomputedKeepsIdentity(rows, db.events + added, TouchedPools(added));
    ScopeSame(reg, rows, rows', other, t, pk);
    OtherScopeUnchanged(g, bundle.tables, other, t, pk);
    WrittenTable(g, bundle.tables, |reg|, t);
    ScopeSame(reg, rows, rows', company, t, pk);
    if t == POOLS && pk in TouchedPools(added) {
      TouchedBelongsToTarget(reg, db, bundle, company, others, pk);
      if InScope(reg, rows, other, t, pk) { OneCompany(reg, rows, company, other, t, pk); }
    }
    if pk in rows'[t] && pk !in db.rows[t] {
      var i :| 0 <= i < |bundle.tables[t]| && Statuses(g, bundle.tables)[t][i] == New && bundle.tables[t][i].pk == pk;
      RowsLand(g, bundle.tables, |reg|, t, i);
      ScopeSame(reg, rows, rows', company, t, pk);
    }
  }

  // ------------------------------------------------------------ other companies' histories

  /** The stored rows as events_for sees them: by aggregate id, whatever table the
      id belongs to. */
  function Filed(events: seq<EventRow>): seq<Ledger.Event<EventRow>>
  {
    seq(|events|, i requires 0 <= i < |events| =>
      Ledger.Event(events[i].aggregate, events[i], events[i].effective, events[i].recorded, events[i].seqNo))
  }

  predicate EventInCut(e: EventRow, cut: Ledger.Cut)
  {
    && (cut.asOf.Some? ==> e.effective <= cut.asOf.value)
    && (cut.known.Some? ==> e.recorded <= cut.known.value)
  }

  ghost predicate ReachesAt(bundle: Bundle, r: Report, i: nat, id: nat, cut: Ledger.Cut)
    requires |r.events| == |bundle.events| && i < |bundle.events|
  {
    r.events[i] == New && bundle.events[i].aggregate == id && EventInCut(bundle.events[i], cut)
  }

  /** Does the bundle bring a new event to this id inside the cuts? */
  ghost predicate Reaches(bundle: Bundle, r: Report, id: nat, cut: Ledger.Cut)
    requires |r.events| == |bundle.events|
  {
    exists i: nat :: i < |bundle.events| && ReachesAt(bundle, r, i, id, cut)
  }

  lemma ReachedIff(bundle: Bundle, r: Report, id: nat, cut: Ledger.Cut)
    requires |r.events| == |bundle.events|
    ensures var added := Filed(NewEvents(bundle.events, r.events));
      Reaches(bundle, r, id, cut) <==> exists e :: e in added && e.aggregate == id && Ledger.InCut(e, cut)
  {
    var added := NewEvents(bundle.events, r.events);
    if i: nat :| i < |bundle.events| && ReachesAt(bundle, r, i, id, cut) {
      NewEventComesFrom(bundle.events, r.events, bundle.events[i].(actor := None));
      var k :| 0 <= k < |added| && added[k] == bundle.events[i].(actor := None);
      assert Filed(added)[k] in Filed(added);
    }
    if e :| e in Filed(added) && e.aggregate == id && Ledger.InCut(e, cut) {
      var k :| 0 <= k < |added| && Filed(added)[k] == e;
      NewEventComesFrom(bundle.events, r.events, added[k]);
      var i: nat :| i < |bundle.events| && r.events[i] == New && added[k] == bundle.events[i].(actor := None);
      assert ReachesAt(bundle, r, i, id, cut);
    }
  }

  /** A commit leaves what events_for returns for an id alone if and only if no new
      event of the bundle carries that id within the cuts. */
  lemma HistoryUnchangedIff(reg: seq<TableSpec>, db: Db, bundle: Bundle, company: nat, id: nat, cut: Ledger.Cut)
    requires Fits(reg, db, bundle)
    ensures var r, db' := DryRun(reg, db, bundle, company), Written(reg, db, bundle, company);
      Ledger.EventsFor(Filed(db'.events), id, cut) == Ledger.EventsFor(Filed(db.events), id, cut)
      <==> !Reaches(bundle, r, id, cut)
  {
    var r := DryRun(reg, db, bundle, company);
    var added := NewEvents(bundle.events, r.events);
    assert Filed(db.events + added) == Filed(db.events) + Filed(added);
    Ledger.ViewsAreStableIff(Filed(db.events), Filed(added), id, cut);
    ReachedIff(bundle, r, id, cut);
  }

  /** The company has a row with this id in some ledger table other than the pools'. */
  ghost predicate SharesId(reg: seq<TableSpec>, rows: Tables, company: nat, id: nat)
    requires Topological(reg) && |rows| == |reg|
  {
    exists t: nat :: t < |reg| && t != POOLS && reg[t].hasLedger && InScope(reg, rows, company, t, id)
  }

  /** The importer looks an event's id up only in the table the event names. So a
      new event reaches another company's pool only under another table's name,
      and only if the target has a row there with the pool's id. */
  lemma OtherPoolReachedOnlyBySharedId(
      reg: seq<TableSpec>, db: Db, bundle: Bundle, company: nat, others: bool, other: nat, pk: nat, cut: Ledger.Cut)
    requires Succeeds(reg, db, bundle, company, others) && other != company
    requires InScope(reg, db.rows, other, POOLS, pk)
    requires Reaches(bundle, DryRun(reg, db, bundle, company), pk, cut)
    ensures SharesId(reg, Written(reg, db, bundle, company).rows, company, pk)
  {
    var r, db' := DryRun(reg, db, bundle, company), Written(reg, db, bundle, company);
    var rows := WriteTables(TargetOf(reg, db, company), bundle.tables, r.tables, |reg|);
    var i: nat :| i < |bundle.events| && ReachesAt(bundle, r, i, pk, cut);
    EventAggregateLands(reg, db, bundle, company, others, i);
    var t := bundle.events[i].kind.value;
    RecomputedKeepsIdentity(rows, db'.events, TouchedPools(NewEvents(bundle.events, r.events)));
    ScopeSame(reg, rows, db'.rows, company, t, pk);
    if t == POOLS {
      OthersUntouched(reg, db, bundle, company, others, other, POOLS, pk);
      OneCompany(reg, db'.rows, company, other, POOLS, pk);
    }
  }

  // ------------------------------------------------------------ idempotence

  lemma SecondTables(reg: seq<TableSpec>, db: Db, bundle: Bundle, company: nat, others: bool)
    requires Succeeds(reg, db, bundle, company, others)
    ensures var db' := Written(reg, db, bundle, company);
      && Fits(reg, db', bundle)
      && (forall t, i :: 0 <= t < |reg| && 0 <= i < |bundle.tables[t]| ==>
          DryRun(reg, db', bundle, company).tables[t][i] == SkipExisting)
      && ScanTables(TargetOf(reg, db', company), bundle.tables, |reg|).1 == FullBatch(bundle.tables, |reg|)
  {
    var db' := Written(reg, db, bundle, company);
    forall t: nat, i: nat | t < |reg| && i < |bundle.tables[t]|
      ensures RowKnown(TargetOf(reg, db', company), bundle.tables, t, i)
    {
      CommittedRowsAreKnown(reg, db, bundle, company, others, t, i);
    }
    SecondScanTables(TargetOf(reg, db, company), TargetOf(reg, db', company), bundle.tables);
    forall t, i | 0 <= t < |reg| && 0 <= i < |bundle.tables[t]|
      ensures DryRun(reg, db', bundle, company).tables[t][i] == SkipExisting
    {
      assert AllSkipped(DryRun(reg, db', bundle, company).tables[t]);
    }
  }

  lemma EventStored(reg: seq<TableSpec>, db: Db, bundle: Bundle, company: nat, others: bool, i: nat)
    requires Succeeds(reg, db, bundle, company, others) && i < |bundle.events|
    ensures var db', e := Written(reg, db, bundle, company), bundle.events[i];
      && PairOf(e) in Pairs(db'.events)
      && (e.corrects.Some? ==> e.corrects.value in Ids(db'.events) || e.corrects.value in Ids(bundle.events[..i]))
  {
    var g, r := TargetOf(reg, db, company), DryRun(reg, db, bundle, company);
    var batch := FullBatch(bundle.tables, |reg|);
    CleanScanTables(g, bundle.tables, |reg|);
    CleanEvent(g, batch, db.events, bundle.events, i);
    CleanEventsLand(g, batch, db.events, bundle.events);
    PairsAndIdsAppend(db.events, NewEvents(bundle.events, r.events));
    assert PairOf(bundle.events[i]) in Pairs(bundle.events);
    assert !r.events[i].Error?;
  }

  lemma EventKnownAgain(reg: seq<TableSpec>, db: Db, bundle: Bundle, company: nat, others: bool, i: nat)
    requires Succeeds(reg, db, bundle, company, others) && i < |bundle.events|
    ensures var db' := Written(reg, db, bundle, company);
      Fits(reg, db', bundle)
          && AggregateKnown(TargetOf(reg, db', company), FullBatch(bundle.tables, |reg|), bundle.events[i])
  {
    var r, db' := DryRun(reg, db, bundle, company), Written(reg, db, bundle, company);
    var rows := WriteTables(TargetOf(reg, db, company), bundle.tables, r.tables, |reg|);
    EventAggregateLands(reg, db, bundle, company, others, i);
    RecomputedKeepsIdentity(rows, db'.events, TouchedPools(NewEvents(bundle.events, r.events)));
    ScopeSame(reg, rows, db'.rows, company, bundle.events[i].kind.value, bundle.events[i].aggregate);
  }

  lemma SecondEvents(reg: seq<TableSpec>, db: Db, bundle: Bundle, company: nat, others: bool)
    requires Succeeds(reg, db, bundle, company, others)
    ensures var db' := Written(reg, db, bundle, company);
      && Fits(reg, db', bundle)
      && (forall i :: 0 <= i < |bundle.events| ==> DryRun(reg, db', bundle, company).events[i] == SkipExisting)
  {
    var db' := Written(reg, db, bundle, company);
    var g', batch := TargetOf(reg, db', company), FullBatch(bundle.tables, |reg|);
    SecondTables(reg, db, bundle, company, others);
    forall i | 0 <= i < |bundle.events|
      ensures AggregateKnown(g', batch, bundle.events[i]) && PairOf(bundle.events[i]) in Pairs(db'.events)
      ensures bundle.events[i].corrects.Some? ==>
        bundle.events[i].corrects.value in Ids(db'.events) || bundle.events[i].corrects.value in Ids(bundle.events[..i])
    {
      EventStored(reg, db, bundle, company, others, i);
      EventKnownAgain(reg, db, bundle, company, others, i);
    }
    SecondScanEvents(g', batch, db'.events, bundle.events);
  }

  lemma KeysSkipped<K>(keys: seq<K>, existing: set<K>, otherwise: Status)
    requires otherwise == New || otherwise == NotPortable
    ensures var written := existing + NewKeys(keys, KeyStatuses(keys, existing, New));
      forall i :: 0 <= i < |keys| ==> KeyStatuses(keys, written, otherwise)[i] == SkipExisting
  {
  }

  lemma RatesSkipped(keys: seq<PackKey>, known: set<PackKey>, known': set<PackKey>, existing: set<PackKey>)
    requires Clean(RateStatuses(keys, known, existing)) && known <= known'
    ensures var written := existing + NewKeys(keys, RateStatuses(keys, known, existing));
      forall i :: 0 <= i < |keys| ==> RateStatuses(keys, known', written)[i] == SkipExisting
  {
    forall i | 0 <= i < |keys| ensures keys[i] in known { assert !RateStatuses(keys, known, existing)[i].Error?; }
  }

  lemma BracketsSkipped(keys: seq<BracketKey>, known: set<PackKey>, known': set<PackKey>, existing: set<BracketKey>)
    requires Clean(BracketStatuses(keys, known, existing)) && known <= known'
    ensures var written := existing + NewKeys(keys, BracketStatuses(keys, known, existing));
      forall i :: 0 <= i < |keys| ==> BracketStatuses(keys, known', written)[i] == SkipExisting
  {
    forall i | 0 <= i < |keys| ensures keys[i].0 in known { assert !BracketStatuses(keys, known, existing)[i].Error?; }
  }

  lemma SecondKeyed(reg: seq<TableSpec>, db: Db, bundle: Bundle, company: nat, others: bool)
    requires Succeeds(reg, db, bundle, company, others)
    ensures var db' := Written(reg, db, bundle, company);
      && Fits(reg, db', bundle)
      && var r' := DryRun(reg, db', bundle, company);
      && AllOld(r'.packs) && Clean(r'.packs) && AllOld(r'.rates) && Clean(r'.rates) && AllOld(r'.brackets)
          && Clean(r'.brackets)
      && AllOld(r'.audit) && Clean(r'.audit)
      && AllOld(r'.preferences) && Clean(r'.preferences) && AllOld(r'.dismissals) && Clean(r'.dismissals)
  {
    SecondTables(reg, db, bundle, company, others);
    var r, db' := DryRun(reg, db, bundle, company), Written(reg, db, bundle, company);
    KeysSkipped(bundle.packs, db.packs, New);
    KeysSkipped(bundle.audit, db.audit, New);
    var known, known' := db.packs + Elements(bundle.packs), db'.packs + Elements(bundle.packs);
    RatesSkipped(bundle.rates, known, known', db.rates);
    BracketsSkipped(bundle.brackets, known, known', db.brackets);
  }

  /** Importing the same bundle again finds nothing new. */
  lemma SecondDryRun(reg: seq<TableSpec>, db: Db, bundle: Bundle, company: nat, others: bool)
    requires Succeeds(reg, db, bundle, company, others)
    ensures var db' := Written(reg, db, bundle, company);
      Fits(reg, db', bundle) && Valid(DryRun(reg, db', bundle, company))
          && NothingNew(DryRun(reg, db', bundle, company))
  {
    SecondTables(reg, db, bundle, company, others);
    SecondEvents(reg, db, bundle, company, others);
    SecondKeyed(reg, db, bundle, company, others);
  }

  /** A commit that finds nothing new changes nothing. */
  lemma NothingNewWritesNothing(reg: seq<TableSpec>, db: Db, bundle: Bundle, company: nat)
    requires Fits(reg, db, bundle) && NothingNew(DryRun(reg, db, bundle, company))
    ensures Written(reg, db, bundle, company) == db
  {
    var g, r := TargetOf(reg, db, company), DryRun(reg, db, bundle, company);
    NoNewEvents(bundle.events, r.events);
    var rows := WriteTables(g, bundle.tables, r.tables, |reg|);
    forall t | 0 <= t < |reg| ensures rows[t] == db.rows[t] {
      NoNewRows(db.rows[t], reg[t], company, bundle.tables[t], r.tables[t]);
    }
    assert rows == db.rows;
    assert TouchedPools([]) == {};
    assert Recomputed(rows, db.events + [], {})[POOLS] == rows[POOLS];
    assert Recomputed(rows, db.events + [], {}) == rows;
    assert NewKeys(bundle.packs, r.packs) == {} && NewKeys(bundle.rates, r.rates) == {};
    assert NewKeys(bundle.brackets, r.brackets) == {} && NewKeys(bundle.audit, r.audit) == {};
  }

  /** Idempotence: after a successful commit a second one, whatever the other
      constraints say, is accepted, writes nothing and leaves the database as is. */
  lemma SecondCommitIsNoOp(reg: seq<TableSpec>, db: Db, bundle: Bundle, company: nat, others: bool, others': bool)
    requires Fits(reg, db, bundle) && Commit(reg, db, bundle, company, others).1.Committed?
    ensures var db' := Commit(reg, db, bundle, company, others).0;
      && Fits(reg, db', bundle)
      && Commit(reg, db', bundle, company, others').0 == db'
      && Commit(reg, db', bundle, company, others').1.Committed?
      && NothingNew(Commit(reg, db', bundle, company, others').1.report)
  {
    var r := DryRun(reg, db, bundle, company);
    if NothingNew(r) {
      NothingNewWritesNothing(reg, db, bundle, company);
    } else {
      SecondDryRun(reg, db, bundle, company, others);
      NothingNewWritesNothing(reg, Written(reg, db, bundle, company), bundle, company);
    }
  }

  // ------------------------------------------------------------ the loops

  /** The row loop of _validate_normal_tables. */
  method ValidateRows(g: Target, batch: Batch, t: nat, rows: seq<Row>) returns (statuses: seq<Status>, seen: Batch)
    requires Ready(g) && |batch| == |g.reg| && t < |g.reg|
    ensures (statuses, seen) == Scan(g, batch, t, rows)
  {
    statuses, seen := [], batch;
    for i := 0 to |rows|
      invariant |seen| == |g.reg| && (statuses, seen) == Scan(g, batch, t, rows[..i])
    {
      assert rows[..i + 1][..i] == rows[..i];
      var status := Classify(g, seen, t, rows[i]);
      if !status.Error? { seen := seen[t := seen[t] + {rows[i].pk}]; }
      statuses := statuses + [status];
    }
    assert rows[..|rows|] == rows;
  }

  /** _validate_normal_tables */
  method ValidateNormalTables(g: Target, tables: seq<seq<Row>>) returns (statuses: seq<seq<Status>>, batch: Batch)
    requires Ready(g) && |tables| == |g.reg|
    ensures (statuses, batch) == ScanTables(g, tables, |g.reg|)
  {
    statuses, batch := [], seq(|g.reg|, _ => {});
    assert (statuses, batch) == ScanTables(g, tables, 0);
    for t := 0 to |g.reg|
      invariant |batch| == |g.reg| && (statuses, batch) == ScanTables(g, tables, t)
    {
      var column, seen := ValidateRows(g, batch, t, tables[t]);
      statuses, batch := statuses + [column], seen;
    }
  }

  /** _validate_ledger_events */
  method ValidateLedgerEvents(g: Target, batch: Batch, existing: seq<EventRow>, events: seq<EventRow>)
    returns (statuses: seq<Status>)
    requires Ready(g) && |batch| == |g.reg|
    ensures statuses == ScanEvents(g, batch, existing, events).statuses
  {
    statuses := [];
    var pairs: set<Pair>, ids: set<nat> := {}, {};
    for i := 0 to |events|
      invariant EventScan(statuses, pairs, ids) == ScanEvents(g, batch, existing, events[..i])
    {
      assert events[..i + 1][..i] == events[..i];
      var status := ClassifyEvent(g, batch, existing, pairs, ids, events[i]);
      if !status.Error? { pairs, ids := pairs + {PairOf(events[i])}, ids + {events[i].id}; }
      statuses := statuses + [status];
    }
    assert events[..|events|] == events;
  }

  /** The inserts of one table. */
  method WriteNewRows(table: map<nat, Row>, spec: TableSpec, company: nat, rows: seq<Row>, statuses: seq<Status>)
    returns (written: map<nat, Row>)
    requires |statuses| == |rows|
    ensures written == InsertNew(table, spec, company, rows, statuses)
  {
    written := table;
    for i := 0 to |rows|
      invariant written == InsertNew(table, spec, company, rows[..i], statuses[..i])
    {
      assert rows[..i + 1][..i] == rows[..i] && statuses[..i + 1][..i] == statuses[..i];
      if statuses[i] == New { written := written[rows[i].pk := Build(spec, rows[i], company)]; }
    }
    assert rows[..|rows|] == rows && statuses[..|rows|] == statuses;
  }

  /** _write_normal_tables: table by table, in registry order. */
  method WriteNormalTables(g: Target, tables: seq<seq<Row>>, statuses: seq<seq<Status>>) returns (rows: Tables)
    requires |g.rows| == |g.reg| == |tables| == |statuses|
    requires forall t :: 0 <= t < |g.reg| ==> |statuses[t]| == |tables[t]|
    ensures rows == WriteTables(g, tables, statuses, |g.reg|)
  {
    rows := g.rows;
    for t := 0 to |g.reg|
      invariant rows == WriteTables(g, tables, statuses, t)
    {
      var table := WriteNewRows(rows[t], g.reg[t], g.company, tables[t], statuses[t]);
      rows := rows[t := table];
    }
  }

  /** The whole service on one database. */
  class Importer {
    const reg: seq<TableSpec>
    var db: Db

    constructor (db: Db)
      requires |db.rows| == |REGISTRY|
      ensures reg == REGISTRY && this.db == db && Topological(reg) && POOLS < |reg|
    {
      reg := REGISTRY;
      this.db := db;
      new;
      RegistryIsTopological();
    }

    /** dry_run writes nothing. */
    method Preview(bundle: Bundle, company: nat) returns (r: Report)
      requires Fits(reg, db, bundle)
      ensures r == DryRun(reg, db, bundle, company)
    {
      var g := TargetOf(reg, db, company);
      var tables, batch := ValidateNormalTables(g, bundle.tables);
      var known := db.packs + Elements(bundle.packs);
      var events := ValidateLedgerEvents(g, batch, db.events, bundle.events);
      r := Report(tables,
                  KeyStatuses(bundle.packs, db.packs, New),
                  RateStatuses(bundle.rates, known, db.rates),
                  BracketStatuses(bundle.brackets, known, db.brackets),
                  events,
                  KeyStatuses(bundle.audit, db.audit, New),
                  KeyStatuses(bundle.preferences, db.preferences, NotPortable),
                  KeyStatuses(bundle.dismissals, db.dismissals, NotPortable));
    }

    /** commit: the dry run is repeated, then everything new is written in one
        transaction that a failed constraint undoes. */
    method CommitBundle(bundle: Bundle, company: nat, others: bool) returns (o: Outcome)
      requires Fits(reg, db, bundle)
      modifies this
      ensures (db, o) == Commit(reg, old(db), bundle, company, others)
      ensures !o.Committed? ==> db == old(db)
      ensures o.Committed? ==>
        && Fits(reg, db, bundle)
        && Valid(DryRun(reg, db, bundle, company)) && NothingNew(DryRun(reg, db, bundle, company))
    {
      var r := Preview(bundle, company);
      if !Valid(r) { return Rejected(r); }
      var before := db;
      var g := TargetOf(reg, db, company);
      var rows := WriteNormalTables(g, bundle.tables, r.tables);
      var added := NewEvents(bundle.events, r.events);
      var events := db.events + added;
      db := Db(Recomputed(rows, events, TouchedPools(added)),
               events,
               db.packs + NewKeys(bundle.packs, r.packs),
               db.rates + NewKeys(bundle.rates, r.rates),
               db.brackets + NewKeys(bundle.brackets, r.brackets),
               db.audit + NewKeys(bundle.audit, r.audit),
               db.preferences,
               db.dismissals);
      if !NothingNew(r) && !ConstraintsHold(reg, before, bundle, company, others) {
        db := before;
        return RolledBack;
      }
      SecondCommitIsNoOp(reg, before, bundle, company, others, others);
      o := Committed(r);
    }
  }
}
