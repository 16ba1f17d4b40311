/**
 Issuing shares and adjusting issued lots: every sequential run of the cap-table
 endpoints. Quantities are in hundredths of a share.
 */
module Buyback {
  import opened Wrappers
  import opened Ledger
  import opened ShareLedger
  import opened Snapshot
  import PoolLedger

  const WHOLE_SHARE := 100
  const REASONS := {"BUYBACK", "CORRECTION", "CANCELLATION"}

  datatype Refusal =
    | NotFound
    | NotPositive
    | OverAuthorized(available: int)
    | UnknownReason
    | ZeroShares
    | FractionalShares
    | BeforeIssuance
    | InFuture
    | NoHistory
    | LotTooSmall(holds: int)
    | ConfirmationDiffers
    | LotMoved(current: int)

  function ColumnOf(company: nat): Lot -> int
  {
    (lot: Lot) => if lot.company == company then lot.shares else 0
  }

  /** SUM(share_issuances.shares) over one company: the column, with no date cut. */
  function IssuedTotal(b: Book, company: nat): int { Sum(b.lots, ColumnOf(company)) }

  // ------------------------------------------------------------ issuing

  function Issue(b: Book, company: nat, holder: nat, shareClass: nat, shares: int, issueDate: int)
    : Result<Book, Refusal>
  {
    if holder >= |b.holders| || b.holders[holder] != company then Err(NotFound)
    else if shareClass >= |b.classes| || b.classes[shareClass] != company then Err(NotFound)
    else if shares <= 0 then Err(NotPositive)
    else if company in b.caps && IssuedTotal(b, company) + shares > b.caps[company] then
      Err(OverAuthorized(b.caps[company] - IssuedTotal(b, company)))
    else
      var payload := Established(shares, holder, shareClass, issueDate);
      Ok(b.(lots := b.lots + [Lot(company, holder, shareClass, shares, issueDate)],
            log := Append(b.log, |b.lots|, payload, issueDate, b.now)))
  }

  // ------------------------------------------------------------ adjusting

  datatype Numbers = Numbers(
    outstanding: int,
    fullyDiluted: int,
    authorized: Option<int>,
    outstandingPart: Option<real>,
    fullyDilutedPart: Option<real>)

  datatype Projection = Projection(
    lotBefore: int,
    delta: int,
    lotAfter: int,
    holdingBefore: Option<int>,
    holdingAfter: Option<int>,
    companyBefore: Numbers,
    companyAfter: Numbers,
    expectedSeq: int)

  /** _company_numbers */
  function CompanyNumbers(b: Book, company: nat, delta: int): Numbers
  {
    var outstanding, fullyDiluted :=
        Outstanding(b, company, b.today) + delta, FullyDiluted(b, company, b.today) + delta;
    var authorized := AuthorizedTotal(b, company);
    Numbers(outstanding, fullyDiluted, authorized, PartOf(outstanding, authorized), PartOf(fullyDiluted, authorized))
  }

  function Holding(b: Book, lot: Lot): Option<int>
  {
    if KeyUnknown(b, lot.company, b.today, |b.lots|, KeyOf(lot)) then None
    else Some(KeyTotal(b, lot.company, b.today, KeyOf(lot)))
  }

  /** build_buyback_projection: positive shares are bought back, negative ones
      correct the lot upwards. */
  function BuildProjection(b: Book, id: nat, shares: int, effective: int, reason: string): Result<Projection, Refusal>
    requires id < |b.lots|
  {
    var lot := b.lots[id];
    var state := LotAt(b.log, id, b.today);
    if reason !in REASONS then Err(UnknownReason)
    else if shares == 0 then Err(ZeroShares)
    else if shares % WHOLE_SHARE != 0 then Err(FractionalShares)
    else if effective < lot.issueDate then Err(BeforeIssuance)
    else if effective > b.today then Err(InFuture)
    else if state.None? then Err(NoHistory)
    else if state.value.shares - shares < 0 then Err(LotTooSmall(state.value.shares))
    else if -shares > 0 && lot.company in b.caps && IssuedTotal(b, lot.company) - shares > b.caps[lot.company] then
      Err(OverAuthorized(b.caps[lot.company] - IssuedTotal(b, lot.company)))
    else
      var before := Holding(b, lot);
      Ok(Projection(state.value.shares, -shares, state.value.shares - shares,
                    before, if before.None? then None else Some(before.value - shares),
                    CompanyNumbers(b, lot.company, 0), CompanyNumbers(b, lot.company, -shares),
                    CurrentSeq(b.log, id)))
  }

  function Written(b: Book, id: nat, p: Projection, effective: int): Book
    requires id < |b.lots|
  {
    b.(lots := b.lots[id := b.lots[id].(shares := p.lotAfter)],
       log := Append(b.log, id, Adjusted(p.delta), effective, b.now))
  }

  datatype Request = Request(
    company: nat, lot: nat, shares: int, confirm: int, effective: int, reason: string, token: int)

  /** execute_buyback */
  function Execute(b: Book, r: Request): Result<(Book, Projection), Refusal>
  {
    if r.confirm != r.shares then Err(ConfirmationDiffers)
    else if r.lot >= |b.lots| || b.lots[r.lot].company != r.company then Err(NotFound)
    else
      match BuildProjection(b, r.lot, r.shares, r.effective, r.reason)
      case Err(e) => Err(e)
      case Ok(p) =>
        if p.expectedSeq != r.token then Err(LotMoved(p.expectedSeq))
        else Ok((Written(b, r.lot, p, r.effective), p))
  }

  // ------------------------------------------------------------ runs

  datatype Op =
    | IssueOp(company: nat, holder: nat, shareClass: nat, shares: int, issueDate: int)
    | AdjustOp(request: Request)
    | ClockOp(days: nat, instants: nat)

  /** A refused request leaves the book alone. */
  function Apply(b: Book, op: Op): Book
  {
    match op
    case IssueOp(company, holder, shareClass, shares, issueDate) =>
      var r := Issue(b, company, holder, shareClass, shares, issueDate);
      if r.Ok? then r.value else b
    case AdjustOp(request) =>
      var r := Execute(b, request);
      if r.Ok? then r.value.0 else b
    case ClockOp(days, instants) => b.(today := b.today + days, now := b.now + instants)
  }

  function Run(b: Book, ops: seq<Op>): Book
  {
    if ops == [] then b else Apply(Run(b, ops[..|ops| - 1]), ops[|ops| - 1])
  }

  /** Lot i's events are its issue and accepted adjustments; its column is
      their sum and not negative. */
  ghost predicate LotKept(b: Book, i: nat)
    requires i < |b.lots|
  {
    var h := History(b.log, i);
    WellKept(b.lots[i], h, b.today) && ColumnAgrees(b.lots[i], h) && b.lots[i].shares >= 0
  }

  ghost predicate Kept(b: Book)
  {
    && Numbered(b.log)
    && (forall id: nat :: id >= |b.lots| ==> History(b.log, id) == [])
    && (forall i: nat :: i < |b.lots| ==> LotKept(b, i))
  }

  lemma IssueKeeps(b: Book, company: nat, holder: nat, shareClass: nat, shares: int, issueDate: int)
    requires Kept(b) && Issue(b, company, holder, shareClass, shares, issueDate).Ok?
    ensures Kept(Issue(b, company, holder, shareClass, shares, issueDate).value)
  {
    var b' := Issue(b, company, holder, shareClass, shares, issueDate).value;
    var n := |b.lots|;
    var e := Event(n, Established(shares, holder, shareClass, issueDate), issueDate, b.now, NextSeq(b.log, n));
    AppendNumbers(b.log, e);
    SumAppend([], e, Delta);
    assert [] + [e] == [e];
    forall i: nat | i < |b'.lots| ensures LotKept(b', i) {
      if i < n { assert LotKept(b, i); }
    }
  }

  /** Under the invariant the lot's fold as of today is its column. */
  lemma LotBeforeIsColumn(b: Book, id: nat)
    requires Kept(b) && id < |b.lots| && b.lots[id].issueDate <= b.today
    ensures var lot := b.lots[id];
      LotAt(b.log, id, b.today) == Some(LotState(lot.shares, lot.holder, lot.shareClass, lot.issueDate))
  {
    assert LotKept(b, id);
    ColumnIsFold(b.log, id, b.lots[id], b.today, b.today);
  }

  lemma ExecuteKeepsLot(b: Book, r: Request, i: nat)
    requires Kept(b) && Execute(b, r).Ok? && i < |b.lots|
    ensures LotKept(Execute(b, r).value.0, i)
  {
    var (b', p) := Execute(b, r).value;
    var e := b'.log[|b.log|];
    assert LotKept(b, i);
    LotBeforeIsColumn(b, r.lot);
    AppendNumbers(b.log, e);
    SumAppend(History(b.log, r.lot), e, Delta);
  }

  lemma ExecuteKeeps(b: Book, r: Request)
    requires Kept(b) && Execute(b, r).Ok?
    ensures Kept(Execute(b, r).value.0)
  {
    var b' := Execute(b, r).value.0;
    AppendNumbers(b.log, b'.log[|b.log|]);
    forall i: nat | i < |b'.lots| ensures LotKept(b', i) { ExecuteKeepsLot(b, r, i); }
  }

  lemma ApplyKeeps(b: Book, op: Op)
    requires Kept(b)
    ensures Kept(Apply(b, op))
  {
    match op
    case IssueOp(company, holder, shareClass, shares, issueDate) =>
      if Issue(b, company, holder, shareClass, shares, issueDate).Ok? {
        IssueKeeps(b, company, holder, shareClass, shares, issueDate);
      }
    case AdjustOp(request) =>
      if Execute(b, request).Ok? { ExecuteKeeps(b, request); }
    case ClockOp(_, _) =>
      var b' := Apply(b, op);
      forall i: nat | i < |b'.lots| ensures LotKept(b', i) { assert LotKept(b, i); }
  }

  lemma {:induction false} RunKeeps(b: Book, ops: seq<Op>)
    requires Kept(b)
    ensures Kept(Run(b, ops))
  {
    if ops != [] {
      RunKeeps(b, ops[..|ops| - 1]);
      ApplyKeeps(Run(b, ops[..|ops| - 1]), ops[|ops| - 1]);
    }
  }

  lemma OneStep(b: Book, op: Op)
    ensures var c := Apply(b, op);
      && c.today == b.today + (if op.ClockOp? then op.days else 0)
      && c.now == b.now + (if op.ClockOp? then op.instants else 0)
      && c == b.(lots := c.lots, log := c.log, today := c.today, now := c.now)
  {
  }

  /** The clocks never go back, and only they and the two tables ever change. */
  lemma {:induction false} ClocksNeverGoBack(b: Book, ops: seq<Op>)
    ensures var c := Run(b, ops);
      c.today >= b.today && c.now >= b.now && c == b.(lots := c.lots, log := c.log, today := c.today, now := c.now)
  {
    if ops != [] {
      ClocksNeverGoBack(b, ops[..|ops| - 1]);
      OneStep(Run(b, ops[..|ops| - 1]), ops[|ops| - 1]);
    }
  }

  /** Over every run, however the effective dates were ordered, each lot's
      column is its fold over all events and, once issued, its fold as of
      today, and it is never negative. */
  lemma ColumnAlwaysProjects(b: Book, ops: seq<Op>, id: nat)
    requires Kept(b) && id < |Run(b, ops).lots|
    ensures var c := Run(b, ops); var lot := c.lots[id];
      && lot.shares >= 0
      && ProjectIssuance(EventsFor(c.log, id, EVERYTHING))
          == Some(LotState(lot.shares, lot.holder, lot.shareClass, lot.issueDate))
      && (lot.issueDate <= c.today ==> LotAt(c.log, id, c.today) == ProjectIssuance(EventsFor(c.log, id, EVERYTHING)))
  {
    RunKeeps(b, ops);
    var c := Run(b, ops);
    assert LotKept(c, id);
    ColumnIsFold(c.log, id, c.lots[id], c.today, c.today);
  }

  /** On any run, a lot that was only ever bought back was never negative on any
      past day and only shrinks as the reported day moves on from its issue. */
  lemma BoughtBackLotShrinks(b: Book, ops: seq<Op>, id: nat, d1: int, d2: int)
    requires Kept(b) && id < |Run(b, ops).lots| && Run(b, ops).lots[id].issueDate <= d1 <= d2
    requires forall e :: e in History(Run(b, ops).log, id) ==> Delta(e) <= 0
    ensures var c := Run(b, ops); var early, late := LotAt(c.log, id, d1), LotAt(c.log, id, d2);
      early.Some? && late.Some? && early.value.shares >= late.value.shares >= c.lots[id].shares >= 0
  {
    RunKeeps(b, ops);
    var c := Run(b, ops);
    assert LotKept(c, id);
    LotValue(c.log, id, c.lots[id], c.today, d1);
    LotValue(c.log, id, c.lots[id], c.today, d2);
    PastValuesShrink(c.lots[id], History(c.log, id), c.today, d1, d2);
  }

  // ------------------------------------------------------------ the authorized total

  ghost predicate WithinCaps(b: Book)
  {
    forall company :: company in b.caps ==> IssuedTotal(b, company) <= b.caps[company]
  }

  lemma ApplyKeepsCaps(b: Book, op: Op)
    requires Kept(b) && WithinCaps(b)
    ensures WithinCaps(Apply(b, op)) && Apply(b, op).caps == b.caps
  {
    var b' := Apply(b, op);
    forall company | company in b.caps ensures IssuedTotal(b', company) <= b.caps[company] {
      match op
      case IssueOp(c, holder, shareClass, shares, issueDate) =>
        SumAppend(b.lots, Lot(c, holder, shareClass, shares, issueDate), ColumnOf(company));
      case AdjustOp(r) =>
        if Execute(b, r).Ok? {
          LotBeforeIsColumn(b, r.lot);
          SumUpdate(b.lots, r.lot, b'.lots[r.lot], ColumnOf(company));
        }
      case ClockOp(_, _) =>
    }
  }

  /** No run takes a company's issued total above its authorized total. */
  lemma {:induction false} CapAlwaysHolds(b: Book, ops: seq<Op>)
    requires Kept(b) && WithinCaps(b)
    ensures WithinCaps(Run(b, ops)) && Run(b, ops).caps == b.caps
  {
    if ops != [] {
      CapAlwaysHolds(b, ops[..|ops| - 1]);
      RunKeeps(b, ops[..|ops| - 1]);
      ApplyKeepsCaps(Run(b, ops[..|ops| - 1]), ops[|ops| - 1]);
    }
  }

  // ------------------------------------------------------------ totals and columns

  function IssuedBy(company: nat, day: int): Lot -> int
  {
    (lot: Lot) => if lot.company == company && lot.issueDate <= day then lot.shares else 0
  }

  lemma {:induction false} TotalIsColumns(b: Book, company: nat, day: int, n: nat)
    requires n <= |b.lots|
    requires forall i :: 0 <= i < n ==>
      Worth(b.lots, b.log, Query(company, day, None), i) == IssuedBy(company, day)(b.lots[i])
    ensures Total(b.lots[..n], b.log, Query(company, day, None)) == Sum(b.lots[..n], IssuedBy(company, day))
  {
    if n > 0 {
      TotalIsColumns(b, company, day, n - 1);
      RowTotal(b, Query(company, day, None), n - 1);
      assert b.lots[..n][..n - 1] == b.lots[..n - 1];
    }
  }

  lemma WorthIsColumn(b: Book, q: Query, id: nat)
    requires Kept(b) && id < |b.lots| && q.asOf >= b.today
    ensures Worth(b.lots, b.log, q, id) == if Counted(b.lots[id], q) then b.lots[id].shares else 0
  {
    assert LotKept(b, id);
    if Counted(b.lots[id], q) {
      ColumnIsFold(b.log, id, b.lots[id], b.today, q.asOf);
      ReportedIsProjected(b.log, id, q.asOf);
    }
  }

  /** From today on a report shows what the columns of the lots issued by then add
      up to; once all are issued, that is the total the cap is checked against. */
  lemma OutstandingIsColumns(b: Book, company: nat, day: int)
    requires Kept(b) && day >= b.today
    ensures Outstanding(b, company, day) == Sum(b.lots, IssuedBy(company, day))
    ensures (forall i :: 0 <= i < |b.lots| ==> b.lots[i].issueDate <= day) ==>
      IssuedTotal(b, company) == Outstanding(b, company, day)
  {
    assert b.lots[..|b.lots|] == b.lots;
    forall i | 0 <= i < |b.lots|
      ensures Worth(b.lots, b.log, Query(company, day, None), i) == IssuedBy(company, day)(b.lots[i])
    {
      WorthIsColumn(b, Query(company, day, None), i);
    }
    TotalIsColumns(b, company, day, |b.lots|);
    if forall i :: 0 <= i < |b.lots| ==> b.lots[i].issueDate <= day {
      SumBounded(b.lots, IssuedBy(company, day), ColumnOf(company));
      SumBounded(b.lots, ColumnOf(company), IssuedBy(company, day));
    }
  }

  // ------------------------------------------------------------ what a request gets

  /** Exactly when an issuance goes through, and what it writes. */
  lemma IssuedIff(b: Book, company: nat, holder: nat, shareClass: nat, shares: int, issueDate: int)
    ensures var r := Issue(b, company, holder, shareClass, shares, issueDate);
      && (r.Ok? <==>
          && holder < |b.holders| && b.holders[holder] == company
          && shareClass < |b.classes| && b.classes[shareClass] == company
          && shares > 0 && (company in b.caps ==> IssuedTotal(b, company) + shares <= b.caps[company]))
      && (r.Ok? ==>
            && r.value.lots == b.lots + [Lot(company, holder, shareClass, shares, issueDate)]
            && r.value.log == b.log + [Event(|b.lots|, Established(shares, holder, shareClass, issueDate), issueDate,
                                             b.now, NextSeq(b.log, |b.lots|))]
            && r.value == b.(lots := r.value.lots, log := r.value.log))
      && (r.Err? ==>
            match r.error
            case NotFound =>
              holder >= |b.holders| || b.holders[holder] != company
              || shareClass >= |b.classes| || b.classes[shareClass] != company
            case NotPositive => shares <= 0
            case OverAuthorized(available) =>
              company in b.caps && available == b.caps[company] - IssuedTotal(b, company) < shares
            case _ => false)
  {
  }

  lemma PartIsUnique(part: Option<real>, amount: int, authorized: Option<int>)
    requires PartRight(part, amount, authorized)
    ensures part == PartOf(amount, authorized)
  {
    if part.Some? { DivideOut(part.value, authorized.value as real, amount as real); }
  }

  lemma DivideOut(x: real, a: real, m: real)
    requires a > 0.0 && x * a == m
    ensures x == m / a
  {
    assert (m / a) * a == m;
    assert (x - m / a) * a == 0.0;
  }

  /** A preview shows the lot's column and the numbers of today's report, before and
      after: of the company, and of the one line for the lot's holder and class. */
  lemma PreviewIsReport(b: Book, id: nat, shares: int, effective: int, reason: string, r: Report)
    requires Kept(b) && id < |b.lots| && BuildProjection(b, id, shares, effective, reason).Ok?
    requires Accurate(r, b, b.lots[id].company, b.today)
    ensures var p := BuildProjection(b, id, shares, effective, reason).value;
      && p.lotBefore == b.lots[id].shares && p.delta == -shares && p.lotAfter == b.lots[id].shares - shares
      && p.companyBefore
          == Numbers(r.outstanding, r.fullyDiluted, r.authorized, r.outstandingPart, r.fullyDilutedPart)
      && p.companyAfter.outstanding == r.outstanding - shares
      && p.companyAfter.fullyDiluted == r.fullyDiluted - shares && p.companyAfter.authorized == r.authorized
      && PartRight(p.companyAfter.outstandingPart, r.outstanding - shares, r.authorized)
      && PartRight(p.companyAfter.fullyDilutedPart, r.fullyDiluted - shares, r.authorized)
    ensures var p := BuildProjection(b, id, shares, effective, reason).value;
      && p.holdingBefore.Some? && p.holdingAfter == Some(p.holdingBefore.value - shares)
      && exists i :: 0 <= i < |r.lines| && r.lines[i].key == KeyOf(b.lots[id]) && r.lines[i].shares == p.holdingBefore
  {
    var lot := b.lots[id];
    LotBeforeIsColumn(b, id);
    PartIsUnique(r.outstandingPart, r.outstanding, r.authorized);
    PartIsUnique(r.fullyDilutedPart, r.fullyDiluted, r.authorized);
    PartIsRight(r.outstanding - shares, r.authorized);
    PartIsRight(r.fullyDiluted - shares, r.authorized);
    HoldingIsKnown(b, lot);
    assert Counted(lot, Query(lot.company, b.today, Some(KeyOf(lot))));
    assert HasKey(b, lot.company, b.today, |b.lots|, KeyOf(lot));
  }

  /** A refusal names a condition that fails, and the right number with it. */
  lemma RefusalTells(b: Book, r: Request)
    requires Kept(b) && Execute(b, r).Err?
    ensures match Execute(b, r).error
      case ConfirmationDiffers => r.confirm != r.shares
      case NotFound => r.lot >= |b.lots| || b.lots[r.lot].company != r.company
      case UnknownReason => r.reason !in {"BUYBACK", "CORRECTION", "CANCELLATION"}
      case ZeroShares => r.shares == 0
      case FractionalShares => r.shares % 100 != 0
      case BeforeIssuance => r.lot < |b.lots| && r.effective < b.lots[r.lot].issueDate
      case InFuture => r.effective > b.today
      case LotTooSmall(holds) => r.lot < |b.lots| && holds == b.lots[r.lot].shares < r.shares
      case OverAuthorized(available) =>
        r.company in b.caps && available == b.caps[r.company] - IssuedTotal(b, r.company) < -r.shares
      case LotMoved(current) => current == |History(b.log, r.lot)| != r.token
      case NoHistory => false
      case NotPositive => false
  {
    if r.lot < |b.lots| {
      NextSeqCounts(b.log, r.lot);
      if b.lots[r.lot].issueDate <= r.effective <= b.today { LotBeforeIsColumn(b, r.lot); }
    }
  }

  /** Exactly when an adjustment goes through, in terms of the stored column. */
  lemma AcceptedIff(b: Book, r: Request)
    requires Kept(b)
    ensures Execute(b, r).Ok? <==>
      && r.confirm == r.shares
      && r.lot < |b.lots| && b.lots[r.lot].company == r.company
      && r.reason in REASONS
      && r.shares != 0 && r.shares % WHOLE_SHARE == 0
      && b.lots[r.lot].issueDate <= r.effective <= b.today
      && r.shares <= b.lots[r.lot].shares
      && (r.shares < 0 && r.company in b.caps ==> IssuedTotal(b, r.company) - r.shares <= b.caps[r.company])
      && r.token == |History(b.log, r.lot)|
  {
    if r.lot < |b.lots| {
      NextSeqCounts(b.log, r.lot);
      if b.lots[r.lot].issueDate <= r.effective <= b.today {
        LotBeforeIsColumn(b, r.lot);
      }
    }
  }

  /** Every report of the company moves by exactly the delta from the effective
      day on, and no report before it moves; other companies' never do. */
  lemma AcceptedMovesReports(b: Book, r: Request, q: Query)
    requires Kept(b) && Execute(b, r).Ok?
    ensures var (b', p) := Execute(b, r).value;
      Total(b'.lots, b'.log, q) == Total(b.lots, b.log, q)
        + if q.company == r.company && q.asOf >= r.effective && (q.key.Some? ==> q.key.value == KeyOf(b.lots[r.lot]))
          then -r.shares else 0
  {
    var (b', p) := Execute(b, r).value;
    assert LotKept(b, r.lot);
    var e := Event(r.lot, Adjusted(p.delta), r.effective, b.now, NextSeq(b.log, r.lot));
    TotalAfterAdjustment(b.lots, b'.lots, b.log, e, q, b.today);
  }

  lemma {:induction false} OtherLotsUnmoved(lots: seq<Lot>, log: seq<ShareEvent>, e: ShareEvent, q: Query)
    requires e.aggregate >= |lots|
    ensures Total(lots, log + [e], q) == Total(lots, log, q)
  {
    if lots != [] {
      var n := |lots| - 1;
      OtherLotsUnmoved(lots[..n], log, e, q);
      ReportedAfterOther(log, e, n, q.asOf);
    }
  }

  lemma NewLotWorth(b: Book, id: nat, q: Query)
    requires Kept(b) && id < |b.lots| && |History(b.log, id)| == 1
    ensures Worth(b.lots, b.log, q, id) == if Counted(b.lots[id], q) then b.lots[id].shares else 0
  {
    var h := History(b.log, id);
    assert LotKept(b, id);
    assert h[..0] == [];
    assert Sum(h, DeltaBy(q.asOf)) == 0 && Sum(h, Delta) == 0;
    if Counted(b.lots[id], q) {
      LotValue(b.log, id, b.lots[id], b.today, q.asOf);
      ReportedIsProjected(b.log, id, q.asOf);
    }
  }

  /** An issuance, however far back it is dated, adds its shares to every report
      of its company from the issue day on, and leaves all others as they were. */
  lemma IssueMovesReports(b: Book, company: nat, holder: nat, shareClass: nat, shares: int, issueDate: int, q: Query)
    requires Kept(b) && Issue(b, company, holder, shareClass, shares, issueDate).Ok?
    ensures var b' := Issue(b, company, holder, shareClass, shares, issueDate).value;
      Total(b'.lots, b'.log, q) == Total(b.lots, b.log, q)
        + if q.company == company && q.asOf >= issueDate && (q.key.Some? ==> q.key.value == Key(holder, shareClass))
          then shares else 0
  {
    var b', n := Issue(b, company, holder, shareClass, shares, issueDate).value, |b.lots|;
    var e := b'.log[|b.log|];
    IssueKeeps(b, company, holder, shareClass, shares, issueDate);
    AppendNumbers(b.log, e);
    OtherLotsUnmoved(b.lots, b.log, e, q);
    NewLotWorth(b', n, q);
    assert b'.lots[..n] == b.lots;
  }

  lemma {:induction false} PoolsUnmoved(b: Book, b': Book, company: nat, asOf: int, n: nat)
    requires b'.pools == b.pools && b'.poolLog == b.poolLog && b'.today == b.today && n <= |b.pools|
    ensures PoolTotalUpTo(b', company, asOf, n) == PoolTotalUpTo(b, company, asOf, n)
  {
    if n > 0 { PoolsUnmoved(b, b', company, asOf, n - 1); }
  }

  lemma TotalsMove(b: Book, r: Request)
    requires Kept(b) && Execute(b, r).Ok?
    ensures var b' := Execute(b, r).value.0;
      && Outstanding(b', r.company, b.today) == Outstanding(b, r.company, b.today) - r.shares
      && FullyDiluted(b', r.company, b.today) == FullyDiluted(b, r.company, b.today) - r.shares
      && AuthorizedTotal(b', r.company) == AuthorizedTotal(b, r.company) && b'.today == b.today
  {
    AcceptedMovesReports(b, r, Query(r.company, b.today, None));
    PoolsUnmoved(b, Execute(b, r).value.0, r.company, b.today, |b.pools|);
  }

  /** The parts of the authorized total follow from the totals. */
  lemma NumbersFollow(b: Book, b': Book, company: nat, delta: int)
    requires Outstanding(b', company, b'.today) == Outstanding(b, company, b.today) + delta
    requires FullyDiluted(b', company, b'.today) == FullyDiluted(b, company, b.today) + delta
    requires AuthorizedTotal(b', company) == AuthorizedTotal(b, company)
    ensures CompanyNumbers(b, company, delta) == CompanyNumbers(b', company, 0)
  {
  }

  lemma CompanyNumbersMove(b: Book, r: Request)
    requires Kept(b) && Execute(b, r).Ok?
    ensures CompanyNumbers(b, r.company, -r.shares) == CompanyNumbers(Execute(b, r).value.0, r.company, 0)
  {
    TotalsMove(b, r);
    NumbersFollow(b, Execute(b, r).value.0, r.company, -r.shares);
  }

  lemma HoldingIsKnown(b: Book, lot: Lot)
    requires Kept(b)
    ensures Holding(b, lot) == Some(KeyTotal(b, lot.company, b.today, KeyOf(lot)))
  {
    NothingUnknown(b, lot.company, KeyOf(lot));
  }

  lemma KeyTotalMoves(b: Book, r: Request)
    requires Kept(b) && Execute(b, r).Ok?
    ensures var b', key := Execute(b, r).value.0, KeyOf(b.lots[r.lot]);
      KeyTotal(b', r.company, b.today, key) == KeyTotal(b, r.company, b.today, key) - r.shares
  {
    AcceptedMovesReports(b, r, Query(r.company, b.today, Some(KeyOf(b.lots[r.lot]))));
  }

  lemma AdjustedLot(b: Book, r: Request)
    requires Execute(b, r).Ok?
    ensures var b' := Execute(b, r).value.0;
      && b'.today == b.today && |b'.lots| == |b.lots| && r.lot < |b.lots|
      && b.lots[r.lot].company == r.company && b'.lots[r.lot] == b.lots[r.lot].(shares := b'.lots[r.lot].shares)
  {
  }

  lemma HoldingMoves(b: Book, r: Request)
    requires Kept(b) && Execute(b, r).Ok?
    ensures var b' := Execute(b, r).value.0;
      Holding(b, b.lots[r.lot]).Some? && Holding(b', b'.lots[r.lot]) == Some(Holding(b, b.lots[r.lot]).value - r.shares)
  {
    var b' := Execute(b, r).value.0;
    AdjustedLot(b, r);
    ExecuteKeeps(b, r);
    HoldingIsKnown(b, b.lots[r.lot]);
    HoldingIsKnown(b', b'.lots[r.lot]);
    KeyTotalMoves(b, r);
  }

  /** The receipt's arithmetic is what a fresh report shows after the write. */
  lemma ReceiptIsFreshSnapshot(b: Book, r: Request)
    requires Kept(b) && Execute(b, r).Ok?
    ensures var (b', p) := Execute(b, r).value; var lot := b'.lots[r.lot];
      && p.companyAfter == CompanyNumbers(b', r.company, 0)
      && p.holdingAfter == Holding(b', lot)
      && p.lotAfter == lot.shares
      && LotAt(b'.log, r.lot, b'.today) == Some(LotState(p.lotAfter, lot.holder, lot.shareClass, lot.issueDate))
      && ReportedAt(b'.log, r.lot, b'.today) == LotAt(b'.log, r.lot, b'.today)
  {
    CompanyNumbersMove(b, r);
    HoldingMoves(b, r);
    ReceiptShowsHolding(b, r);
    ReceiptShowsLot(b, r);
    ReportShowsLot(b, r);
  }

  lemma ReportShowsLot(b: Book, r: Request)
    requires Kept(b) && Execute(b, r).Ok?
    ensures var b' := Execute(b, r).value.0; ReportedAt(b'.log, r.lot, b'.today) == LotAt(b'.log, r.lot, b'.today)
  {
    ExecuteKeeps(b, r);
    assert LotKept(Execute(b, r).value.0, r.lot);
    ReportedIsProjected(Execute(b, r).value.0.log, r.lot, b.today);
  }

  lemma ReceiptShowsHolding(b: Book, r: Request)
    requires Kept(b) && Execute(b, r).Ok?
    ensures var p, before := Execute(b, r).value.1, Holding(b, b.lots[r.lot]);
      p.holdingAfter == if before.None? then None else Some(before.value - r.shares)
  {
  }

  lemma ReceiptShowsLot(b: Book, r: Request)
    requires Kept(b) && Execute(b, r).Ok?
    ensures var (b', p) := Execute(b, r).value; var lot := b'.lots[r.lot];
      && p.lotAfter == lot.shares
      && LotAt(b'.log, r.lot, b'.today) == Some(LotState(p.lotAfter, lot.holder, lot.shareClass, lot.issueDate))
  {
    ExecuteKeeps(b, r);
    LotBeforeIsColumn(Execute(b, r).value.0, r.lot);
  }

  lemma NothingUnknown(b: Book, company: nat, key: Key)
    requires Kept(b)
    ensures !KeyUnknown(b, company, b.today, |b.lots|, key)
  {
    forall id: nat | id < |b.lots| ensures !LacksHistory(b.lots, b.log, Query(company, b.today, Some(key)), id) {
      assert LotKept(b, id);
      ReportedIsProjected(b.log, id, b.today);
      if b.lots[id].issueDate <= b.today { LotBeforeIsColumn(b, id); }
    }
  }

  // ------------------------------------------------------------ the past of a lot

  /** What a report as of a day shows for one lot. */
  function Held(b: Book, id: nat, day: int): int
  {
    var state := ReportedAt(b.log, id, day);
    if state.None? then 0 else state.value.shares
  }

  lemma HeldIs(b: Book, id: nat, day: int)
    requires Kept(b) && id < |b.lots| && b.lots[id].issueDate <= day
    ensures var h := History(b.log, id); h != [] && h[0].payload.Established? && Held(b, id, day) == ValueAsOf(h, day)
    ensures day >= b.today ==> Held(b, id, day) == b.lots[id].shares
  {
    assert LotKept(b, id);
    LotValue(b.log, id, b.lots[id], b.today, day);
    ReportedIsProjected(b.log, id, day);
    if day >= b.today { ColumnIsFold(b.log, id, b.lots[id], b.today, day); }
  }

  lemma HeldWith(b: Book, b': Book, e: ShareEvent, id: nat, day: int)
    requires Kept(b) && Kept(b') && b'.log == b.log + [e] && e.seqNo == NextSeq(b.log, e.aggregate)
    requires e.payload.Adjusted?
    requires id < |b.lots| && id < |b'.lots| && b'.lots[id].issueDate == b.lots[id].issueDate <= day
    ensures Held(b', id, day)
         == Held(b, id, day) + if id == e.aggregate && e.effective <= day then e.payload.delta else 0
  {
    HeldIs(b, id, day);
    HeldIs(b', id, day);
    AppendNumbers(b.log, e);
    SumAppend(History(b.log, id), e, DeltaBy(day));
  }

  /** What an accepted execution writes. */
  lemma Executed(b: Book, r: Request)
    requires Kept(b) && Execute(b, r).Ok?
    ensures var b' := Execute(b, r).value.0;
      && r.lot < |b.lots| && b'.lots == b.lots[r.lot := b.lots[r.lot].(shares := b.lots[r.lot].shares - r.shares)]
      && b'.log == b.log + [Event(r.lot, Adjusted(-r.shares), r.effective, b.now, NextSeq(b.log, r.lot))]
      && b'.caps == b.caps && b'.today == b.today
  {
    LotBeforeIsColumn(b, r.lot);
  }

  /** An adjustment moves its lot on exactly the days from its own on. */
  lemma HeldAfter(b: Book, r: Request, id: nat, day: int)
    requires Kept(b) && Execute(b, r).Ok? && id < |b.lots| && b.lots[id].issueDate <= day
    ensures Held(Execute(b, r).value.0, id, day)
         == Held(b, id, day) - if id == r.lot && r.effective <= day then r.shares else 0
  {
    var b' := Execute(b, r).value.0;
    Executed(b, r);
    ExecuteKeeps(b, r);
    HeldWith(b, b', b'.log[|b.log|], id, day);
  }

  ghost predicate PastNonNegative(b: Book, id: nat)
    requires id < |b.lots|
  {
    forall day :: b.lots[id].issueDate <= day ==> Held(b, id, day) >= 0
  }

  /** A buyback is covered when the lot held as much on every day since it took
      effect; the endpoint compares with today only. */
  ghost predicate Covered(b: Book, r: Request)
  {
    forall day :: r.effective <= day < b.today ==> r.shares <= Held(b, r.lot, day)
  }

  /** The exact condition for a lot's past to stay nonnegative. */
  lemma PastStaysNonNegativeIff(b: Book, r: Request)
    requires Kept(b) && Execute(b, r).Ok? && PastNonNegative(b, r.lot)
    ensures |Execute(b, r).value.0.lots| == |b.lots|
    ensures PastNonNegative(Execute(b, r).value.0, r.lot) <==> Covered(b, r)
  {
    var b' := Execute(b, r).value.0;
    AcceptedIff(b, r);
    AdjustedLot(b, r);
    forall day | b.lots[r.lot].issueDate <= day
      ensures Held(b', r.lot, day) == Held(b, r.lot, day) - if r.effective <= day then r.shares else 0
      ensures day >= b.today ==> r.shares <= Held(b, r.lot, day)
    {
      HeldAfter(b, r, r.lot, day);
      HeldIs(b, r.lot, day);
    }
    if PastNonNegative(b', r.lot) {
      forall day | r.effective <= day < b.today ensures r.shares <= Held(b, r.lot, day) {
        assert Held(b', r.lot, day) >= 0;
      }
    }
  }

  ghost predicate Pasts(b: Book) { forall id: nat :: id < |b.lots| ==> PastNonNegative(b, id) }

  /** No lot's past was negative after any step so far. */
  ghost predicate PastsThroughout(b: Book, ops: seq<Op>)
  {
    Pasts(Run(b, ops)) && (ops != [] ==> PastsThroughout(b, ops[..|ops| - 1]))
  }

  ghost predicate OpCovered(b: Book, op: Op)
  {
    op.AdjustOp? && Execute(b, op.request).Ok? ==> Covered(b, op.request)
  }

  ghost predicate AllCovered(b: Book, ops: seq<Op>)
  {
    ops == [] || (AllCovered(b, ops[..|ops| - 1]) && OpCovered(Run(b, ops[..|ops| - 1]), ops[|ops| - 1]))
  }

  lemma AdjustPasts(b: Book, r: Request)
    requires Kept(b) && Pasts(b) && Execute(b, r).Ok?
    ensures Pasts(Execute(b, r).value.0) <==> Covered(b, r)
  {
    var b' := Execute(b, r).value.0;
    AdjustedLot(b, r);
    PastStaysNonNegativeIff(b, r);
    forall id: nat | id < |b.lots| && id != r.lot ensures PastNonNegative(b', id) {
      forall day | b'.lots[id].issueDate <= day ensures Held(b', id, day) >= 0 {
        HeldAfter(b, r, id, day);
        assert PastNonNegative(b, id);
      }
    }
  }

  lemma IssuePasts(b: Book, op: Op)
    requires Kept(b) && Pasts(b) && op.IssueOp?
    ensures Pasts(Apply(b, op))
  {
    var b' := Apply(b, op);
    if b' != b {
      var e := b'.log[|b.log|];
      IssueKeeps(b, op.company, op.holder, op.shareClass, op.shares, op.issueDate);
      AppendNumbers(b.log, e);
      forall id: nat | id < |b'.lots| ensures PastNonNegative(b', id) {
        forall day | b'.lots[id].issueDate <= day ensures Held(b', id, day) >= 0 { HeldAfterIssue(b, op, id, day); }
      }
    }
  }

  lemma UnadjustedHeld(b: Book, id: nat, day: int)
    requires Kept(b) && id < |b.lots| && |History(b.log, id)| == 1 && b.lots[id].issueDate <= day
    ensures Held(b, id, day) == b.lots[id].shares >= 0
  {
    var base := History(b.log, id)[0];
    assert LotKept(b, id);
    HeldIs(b, id, day);
    SumOne(base, DeltaBy(day));
    SumOne(base, Delta);
    assert History(b.log, id) == [base];
  }

  lemma NewLotIsUnadjusted(b: Book, op: Op)
    requires Kept(b) && op.IssueOp? && Apply(b, op) != b
    ensures |Apply(b, op).lots| == |b.lots| + 1 && Apply(b, op).lots[|b.lots|].issueDate == op.issueDate
    ensures |History(Apply(b, op).log, |b.lots|)| == 1
  {
    AppendNumbers(b.log, Apply(b, op).log[|b.log|]);
  }

  lemma HeldAfterIssue(b: Book, op: Op, id: nat, day: int)
    requires Kept(b) && Pasts(b) && op.IssueOp? && Apply(b, op) != b
    requires id < |Apply(b, op).lots| && Apply(b, op).lots[id].issueDate <= day
    ensures Held(Apply(b, op), id, day) >= 0
  {
    var b' := Apply(b, op);
    if id < |b.lots| {
      IssueKeeps(b, op.company, op.holder, op.shareClass, op.shares, op.issueDate);
      AppendNumbers(b.log, b'.log[|b.log|]);
      HeldIs(b', id, day);
      HeldIs(b, id, day);
      assert PastNonNegative(b, id);
    } else {
      NewLotIsUnadjusted(b, op);
      IssueKeeps(b, op.company, op.holder, op.shareClass, op.shares, op.issueDate);
      UnadjustedHeld(b', id, day);
    }
  }

  lemma ApplyPasts(b: Book, op: Op)
    requires Kept(b) && Pasts(b)
    ensures Pasts(Apply(b, op)) <==> OpCovered(b, op)
  {
    match op
    case IssueOp(_, _, _, _, _) => IssuePasts(b, op);
    case AdjustOp(r) => if Execute(b, r).Ok? { AdjustPasts(b, r); }
    case ClockOp(_, _) =>
      forall id: nat | id < |b.lots| ensures PastNonNegative(Apply(b, op), id) {
        assert PastNonNegative(b, id);
        assert forall day :: Held(Apply(b, op), id, day) == Held(b, id, day);
      }
  }

  /** Over every run no reported past is ever negative, if and only if each
      accepted buyback was covered when it was made. */
  lemma {:induction false} PastsNonNegativeIff(b: Book, ops: seq<Op>)
    requires Kept(b) && Pasts(b)
    ensures PastsThroughout(b, ops) <==> AllCovered(b, ops)
  {
    if ops != [] {
      var init := ops[..|ops| - 1];
      PastsNonNegativeIff(b, init);
      RunKeeps(b, init);
      if PastsThroughout(b, init) { ApplyPasts(Run(b, init), ops[|ops| - 1]); }
    }
  }

  // ------------------------------------------------------------ a run with a negative past

  lemma RunAppend(b: Book, ops: seq<Op>, op: Op)
    ensures Run(b, ops + [op]) == Apply(Run(b, ops), op)
  {
    assert (ops + [op])[..|ops|] == ops;
  }

  function Blank(today: int): Book { Book([], [], [0], [0], [], [], map[], today, 0) }

  const ISSUE := IssueOp(0, 0, 0, 100000, 1)
  const CORRECTION := Request(0, 0, -100000, -100000, 8, "CORRECTION", 1)
  const BUYBACK := Request(0, 0, 180000, 180000, 2, "BUYBACK", 2)

  lemma IssuedRun()
    ensures var b := Run(Blank(9), [ISSUE]);
      && Kept(b) && b.lots == [Lot(0, 0, 0, 100000, 1)] && |History(b.log, 0)| == 1 && b.caps == map[] && b.today == 9
      && forall day :: day >= 1 ==> Held(b, 0, day) == 100000
  {
    assert [ISSUE] == [] + [ISSUE];
    RunAppend(Blank(9), [], ISSUE);
    assert IssuedTotal(Blank(9), 0) == 0;
    RunKeeps(Blank(9), [ISSUE]);
    var b := Run(Blank(9), [ISSUE]);
    AppendNumbers([], b.log[0]);
    assert b.log == [] + [b.log[0]];
    forall day | day >= 1 ensures Held(b, 0, day) == 100000 {
      HeldIs(b, 0, day);
      SumAppend([], b.log[0], DeltaBy(day));
    }
  }

  /** From an empty book: 1000 shares issued on day 1, 1000 added from day 8, and
      1800 bought back as of day 2. Every step is accepted, 200 shares are left
      today, and a report as of day 5 shows -800. */
  lemma MixedPastRun()
    ensures var b1 := Run(Blank(9), [ISSUE]);
      var b2 := Run(Blank(9), [ISSUE] + [AdjustOp(CORRECTION)]);
      var b3 := Run(Blank(9), [ISSUE] + [AdjustOp(CORRECTION)] + [AdjustOp(BUYBACK)]);
      && Execute(b1, CORRECTION).Ok? && Execute(b2, BUYBACK).Ok?
      && b3.lots == [Lot(0, 0, 0, 20000, 1)] && Held(b3, 0, 5) == -80000
  {
    var b1 := Run(Blank(9), [ISSUE]);
    IssuedRun();
    AcceptedIff(b1, CORRECTION);
    AcceptedStep(b1, CORRECTION, 5);
    RunAppend(Blank(9), [ISSUE], AdjustOp(CORRECTION));
    var b2 := Execute(b1, CORRECTION).value.0;
    AcceptedIff(b2, BUYBACK);
    AcceptedStep(b2, BUYBACK, 5);
    RunAppend(Blank(9), [ISSUE] + [AdjustOp(CORRECTION)], AdjustOp(BUYBACK));
  }

  lemma OneMoreEvent(log: seq<ShareEvent>, e: ShareEvent)
    ensures |History(log + [e], e.aggregate)| == |History(log, e.aggregate)| + 1
  {
    SelectAppend(log, e, Of(e.aggregate));
  }

  lemma AcceptedStep(b: Book, r: Request, day: int)
    requires Kept(b) && Execute(b, r).Ok? && r.lot < |b.lots| && b.lots[r.lot].issueDate <= day
    ensures var b' := Execute(b, r).value.0;
      && Kept(b') && b'.lots == b.lots[r.lot := b.lots[r.lot].(shares := b.lots[r.lot].shares - r.shares)]
      && b'.caps == b.caps && b'.today == b.today && |History(b'.log, r.lot)| == |History(b.log, r.lot)| + 1
      && Held(b', r.lot, day) == Held(b, r.lot, day) - if r.effective <= day then r.shares else 0
  {
    Executed(b, r);
    ExecuteKeeps(b, r);
    HeldAfter(b, r, r.lot, day);
    OneMoreEvent(b.log, Execute(b, r).value.0.log[|b.log|]);
  }

  // ------------------------------------------------------------ events under another name

  lemma AdjustedView(log: seq<ShareEvent>, e: ShareEvent, day: int, base: ShareEvent)
    requires HasOwnBase(log, e.aggregate, day, base) && e.payload.Adjusted? && !e.misfiled && e.effective <= day
    ensures var id, cut := e.aggregate, AsOf(day);
      && HasOwnBase(log + [e], id, day, base)
      && Sum(Visible(log + [e], id, cut), Stray) == Sum(Visible(log, id, cut), Stray)
      && LotAt(log, id, day).Some? && LotAt(log + [e], id, day).Some?
      && LotAt(log + [e], id, day).value.shares == LotAt(log, id, day).value.shares + e.payload.delta
  {
    var seen := Visible(log, e.aggregate, AsOf(day));
    SelectAppend(log, e, OfWithin(e.aggregate, AsOf(day)));
    SumAppend(seen, e, IsBase);
    SumAppend(seen, e, Stray);
    SumAppend(seen, e, Delta);
    SortedFold(seen, base);
    SortedFold(seen + [e], base);
  }

  lemma ExecutedView(b: Book, r: Request, base: ShareEvent)
    requires Execute(b, r).Ok? && HasOwnBase(b.log, r.lot, b.today, base)
    ensures var (b', p) := Execute(b, r).value; var id, cut := r.lot, AsOf(b.today);
      && b'.today == b.today && HasOwnBase(b'.log, id, b.today, base)
      && Sum(Visible(b'.log, id, cut), Stray) == Sum(Visible(b.log, id, cut), Stray)
      && LotAt(b'.log, id, b.today).Some? && LotAt(b'.log, id, b.today).value.shares == p.lotAfter
  {
    AdjustedView(b.log, Execute(b, r).value.0.log[|b.log|], b.today, base);
  }

  /** The receipt reads the lot by id, the report by id and name: they show the
      same lot exactly when what is stored under other names adds up to nothing.
      The column follows the receipt. */
  lemma ReceiptMatchesReportIff(b: Book, r: Request, base: ShareEvent)
    requires Execute(b, r).Ok? && HasOwnBase(b.log, r.lot, b.today, base)
    ensures var (b', p) := Execute(b, r).value; var reported := ReportedAt(b'.log, r.lot, b'.today);
      && r.lot < |b'.lots| && b'.lots[r.lot].shares == p.lotAfter
      && reported.Some?
      && (reported.value.shares == p.lotAfter <==> Sum(Visible(b.log, r.lot, AsOf(b.today)), Stray) == 0)
  {
    ExecutedView(b, r, base);
    StraysTellApart(Execute(b, r).value.0.log, r.lot, b.today, base);
  }

  const ISSUED := Event(0, Established(100000, 0, 0, 1), 1, 0, 1)
  const STRAY := Event(0, Adjusted(-30000), 2, 0, 2, true)
  const STRAY_BOOK := Book([Lot(0, 0, 0, 100000, 1)], [ISSUED, STRAY], [0], [0], [], [], map[], 9, 0)
  const SMALL := Request(0, 0, 20000, 20000, 3, "BUYBACK", 2)

  lemma OneStray(amount: ShareEvent -> int)
    ensures Sum([ISSUED] + [STRAY], amount) == amount(ISSUED) + amount(STRAY)
  {
    SumOne(ISSUED, amount);
    SumAppend([ISSUED], STRAY, amount);
  }

  lemma StrayView()
    ensures HasOwnBase(STRAY_BOOK.log, 0, 9, ISSUED)
    ensures LotAt(STRAY_BOOK.log, 0, 9) == Some(LotState(70000, 0, 0, 1))
    ensures ReportedAt(STRAY_BOOK.log, 0, 9) == Some(LotState(100000, 0, 0, 1))
  {
    var log := STRAY_BOOK.log;
    assert log == [ISSUED] + [STRAY];
    SelectsAllIff(log, OfWithin(0, AsOf(9)));
    OneStray(IsBase);
    OneStray(Delta);
    OneStray(Stray);
    SortedFold(log, ISSUED);
    StraysTellApart(log, 0, 9, ISSUED);
  }

  lemma OnlyLot(b: Book, q: Query)
    requires |b.lots| == 1 && Counted(b.lots[0], q) && ReportedAt(b.log, 0, q.asOf).Some?
    ensures Total(b.lots, b.log, q) == ReportedAt(b.log, 0, q.asOf).value.shares
    ensures q.key.Some? ==> !KeyUnknown(b, q.company, q.asOf, 1, q.key.value)
  {
    assert b.lots[..0] == [];
  }

  lemma SmallAccepted()
    ensures Execute(STRAY_BOOK, SMALL).Ok?
    ensures var (b', p) := Execute(STRAY_BOOK, SMALL).value;
      && p.lotBefore == 70000 && p.lotAfter == 50000 && b'.lots == [Lot(0, 0, 0, 50000, 1)]
      && p.holdingAfter == Some(80000) && p.companyAfter.outstanding == 80000
  {
    StrayView();
    OnlyLot(STRAY_BOOK, Query(0, 9, None));
    OnlyLot(STRAY_BOOK, Query(0, 9, Some(Key(0, 0))));
    assert STRAY_BOOK.log[..1] == [ISSUED];
    assert MaxSeq([ISSUED], 0) == Some(1);
    assert CurrentSeq(STRAY_BOOK.log, 0) == 2;
  }

  /** A company's only lot, of 1000 shares, received -300 under another name. A
      buyback of 200 answers, in one receipt, that the lot holds 500 now and its
      holder 800; the column holds 500 and a fresh report shows 800. */
  lemma ReceiptAndReportDiffer()
    ensures Execute(STRAY_BOOK, SMALL).Ok?
    ensures var (b', p) := Execute(STRAY_BOOK, SMALL).value;
      && p.lotBefore == 70000 && p.lotAfter == 50000 && b'.lots[0].shares == 50000
      && p.holdingAfter == Some(80000) && p.companyAfter.outstanding == 80000
      && Outstanding(b', 0, 9) == 80000
  {
    SmallAccepted();
    StrayView();
    var b' := Execute(STRAY_BOOK, SMALL).value.0;
    ExecutedView(STRAY_BOOK, SMALL, ISSUED);
    StraysTellApart(b'.log, 0, 9, ISSUED);
    StraysTellApart(STRAY_BOOK.log, 0, 9, ISSUED);
    OnlyLot(b', Query(0, 9, None));
  }

  // ------------------------------------------------------------ the endpoints

  /** The tables the endpoints write in place. A refusal rolls the session back. */
  class CapTableApi {
    const ledger: EventTable<SharePayload>
    var lots: seq<Lot>
    var holders: seq<nat>
    var classes: seq<nat>
    var pools: seq<PoolLedger.Pool>
    var poolLog: seq<PoolLedger.PoolEvent>
    var caps: map<nat, int>
    var today: int
    var now: int

    constructor (holders: seq<nat>, classes: seq<nat>, caps: map<nat, int>, today: int, now: int)
      ensures fresh(ledger) && Kept(View()) && lots == []
      ensures View() == Book([], [], holders, classes, [], [], caps, today, now)
    {
      ledger := new EventTable<SharePayload>();
      lots, pools, poolLog := [], [], [];
      this.holders, this.classes, this.caps, this.today, this.now := holders, classes, caps, today, now;
    }

    function View(): Book
      reads this, ledger
    {
      Book(lots, ledger.rows, holders, classes, pools, poolLog, caps, today, now)
    }

    /** create_share_issuance: the row and its base event in one transaction. */
    method CreateShareIssuance(company: nat, holder: nat, shareClass: nat, shares: int, issueDate: int)
      returns (r: Result<nat, Refusal>)
      modifies this`lots, ledger
      ensures match Issue(old(View()), company, holder, shareClass, shares, issueDate)
        case Ok(b) => r == Ok(|old(lots)|) && View() == b
        case Err(e) => r == Err(e) && View() == old(View())
      ensures old(Kept(View())) ==> Kept(View())
    {
      ghost var before := View();
      if holder >= |holders| || holders[holder] != company { return Err(NotFound); }
      if shareClass >= |classes| || classes[shareClass] != company { return Err(NotFound); }
      if shares <= 0 { return Err(NotPositive); }
      if company in caps {
        var existing := IssuedTotal(View(), company);
        if existing + shares > caps[company] { return Err(OverAuthorized(caps[company] - existing)); }
      }
      var id := |lots|;
      lots := lots + [Lot(company, holder, shareClass, shares, issueDate)];
      var _ := ledger.AppendEvent(id, Established(shares, holder, shareClass, issueDate), issueDate, now);
      if Kept(before) { IssueKeeps(before, company, holder, shareClass, shares, issueDate); }
      r := Ok(id);
    }

    /** preview_buyback writes nothing. */
    method PreviewBuyback(company: nat, lot: nat, shares: int, effective: int, reason: string)
      returns (r: Result<Projection, Refusal>)
      ensures r == if lot < |lots| && lots[lot].company == company
                   then BuildProjection(View(), lot, shares, effective, reason) else Err(NotFound)
      ensures r.Ok? ==>
        var request := Request(company, lot, shares, shares, effective, reason, r.value.expectedSeq);
        Execute(View(), request).Ok? && Execute(View(), request).value.1 == r.value
    {
      if lot >= |lots| || lots[lot].company != company { return Err(NotFound); }
      r := BuildProjection(View(), lot, shares, effective, reason);
    }

    /** execute_buyback: the column write and the event in one transaction. */
    method ExecuteBuyback(request: Request) returns (r: Result<Projection, Refusal>)
      modifies this`lots, ledger
      ensures match Execute(old(View()), request)
        case Ok((b, p)) => r == Ok(p) && View() == b
        case Err(e) => r == Err(e) && View() == old(View())
      ensures old(Kept(View())) ==> Kept(View())
    {
      ghost var before := View();
      if request.confirm != request.shares { return Err(ConfirmationDiffers); }
      var id := request.lot;
      if id >= |lots| || lots[id].company != request.company { return Err(NotFound); }
      var projected := BuildProjection(View(), id, request.shares, request.effective, request.reason);
      if projected.Err? { return Err(projected.error); }
      var p := projected.value;
      if p.expectedSeq != request.token { return Err(LotMoved(p.expectedSeq)); }
      lots := lots[id := lots[id].(shares := p.lotAfter)];
      var _ := ledger.AppendEvent(id, Adjusted(p.delta), request.effective, now);
      if Kept(before) { ExecuteKeeps(before, request); }
      r := Ok(p);
    }
  }
}
