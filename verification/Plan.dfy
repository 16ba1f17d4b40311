/**
 Option pools, grants and leavers: every run of create-pool, create-grant,
 status changes and terminations. Options are in hundredths.
 */
module Plan {
  import opened Wrappers
  import opened Ledger
  import opened Calendar
  import opened Vesting
  import opened BaseFold
  import opened PoolLedger

  const MINIMUM_AGE_MONTHS := 18 * 12

  datatype Grant = Grant(employee: nat, pool: nat, total: int, schedule: Option<Schedule>)

  datatype Employee = Employee(company: nat, job: Employment, hireDay: int, birth: Option<Date>)

  datatype Plan = Plan(
    pools: seq<Pool>,
    log: seq<PoolEvent>,
    grants: seq<Grant>,
    employees: seq<Employee>,
    classes: seq<nat>,
    trustees: nat,
    today: int,
    now: int)

  datatype Refusal =
    | NotFound
    | Forbidden
    | BirthDateMissing
    | UnderAge(eligibleFrom: Date)
    | NotPositive
    | PoolTooSmall(available: int)
    | BeforeHire
    | InFuture
    | NoSchedule(grant: nat)

  // ------------------------------------------------------------ pools and grants

  /** create_pool */
  function CreatePool(p: Plan, company: nat, total: int, shareClass: Option<nat>, established: int)
    : Result<Plan, Refusal>
  {
    if total <= 0 then Err(NotPositive)
    else if shareClass.Some? && shareClass.value >= |p.classes| then Err(NotFound)
    else if shareClass.Some? && p.classes[shareClass.value] != company then Err(Forbidden)
    else Ok(p.(pools := p.pools + [Pool(company, shareClass, total, 0, total)],
               log := Append(p.log, |p.pools|, Balance(0, total, total), established, p.now)))
  }

  datatype GrantTerms = GrantTerms(
    employee: nat, pool: nat, trustee: Option<nat>, total: int, date: Date, cliffMonths: int, totalMonths: int)

  /** create_grant */
  function CreateGrant(p: Plan, company: nat, t: GrantTerms): Result<Plan, Refusal>
  {
    if t.employee >= |p.employees| then Err(NotFound)
    else if p.employees[t.employee].birth.None? then Err(BirthDateMissing)
    else
      var eligible := ShiftMonths(p.employees[t.employee].birth.value, MINIMUM_AGE_MONTHS, ClampBack);
      if Before(t.date, eligible) then Err(UnderAge(eligible))
      else if t.pool >= |p.pools| then Err(NotFound)
      else if p.pools[t.pool].company != company then Err(Forbidden)
      else if t.trustee.Some? && t.trustee.value >= p.trustees then Err(NotFound)
      else if t.total <= 0 then Err(NotPositive)
      else if t.total > p.pools[t.pool].unallocatedShares then Err(PoolTooSmall(p.pools[t.pool].unallocatedShares))
      else Ok(Allocate(p, t))
  }

  /** The grant, its schedule, the pool's two columns and the pool's event. */
  function Allocate(p: Plan, t: GrantTerms): Plan
    requires t.pool < |p.pools|
  {
    var pool := p.pools[t.pool];
    var schedule := Schedule(t.date, t.cliffMonths, t.totalMonths, 0);
    p.(grants := p.grants + [Grant(t.employee, t.pool, t.total, Some(schedule))],
       pools := p.pools[t.pool := pool.(allocatedShares := pool.allocatedShares + t.total,
                                        unallocatedShares := pool.unallocatedShares - t.total)],
       log := Append(p.log, t.pool, Allocated(t.total, |p.grants|), Ordinal(t.date), p.now))
  }

  // ------------------------------------------------------------ leavers

  function Unvested(g: Grant, day: int): int
    requires g.schedule.Some?
  {
    g.total - Vested(g.total, g.schedule.value, FromOrdinal(day))
  }

  /** One pass of the termination loop. */
  function ReturnOne(p: Plan, g: nat, day: int): Plan
    requires g < |p.grants| && p.grants[g].schedule.Some?
  {
    var grant := p.grants[g];
    var amount := Unvested(grant, day);
    if grant.pool >= |p.pools| then p
    else
      var pool := p.pools[grant.pool];
      p.(pools := p.pools[grant.pool := pool.(unallocatedShares := pool.unallocatedShares + amount,
                                              allocatedShares := pool.allocatedShares - amount)],
         log := Append(p.log, grant.pool, Returned(amount, g), day, p.now))
  }

  /** The leaver's first n grants go back, or the first without a schedule aborts. */
  function ReturnAll(p: Plan, employee: nat, day: int, n: nat): (r: Result<Plan, Refusal>)
    requires n <= |p.grants|
    ensures r.Ok? ==> r.value.grants == p.grants && r.value.employees == p.employees && |r.value.pools| == |p.pools|
  {
    if n == 0 then Ok(p)
    else
      var r := ReturnAll(p, employee, day, n - 1);
      if r.Err? || p.grants[n - 1].employee != employee then r
      else if p.grants[n - 1].schedule.None? then Err(NoSchedule(n - 1))
      else Ok(ReturnOne(r.value, n - 1, day))
  }

  /** What the first n grants of the leaver give back in all. */
  function GivenBack(p: Plan, employee: nat, day: int, n: nat): int
    requires n <= |p.grants|
  {
    if n == 0 then 0
    else
      var grant := p.grants[n - 1];
      var gives := grant.employee == employee && grant.schedule.Some?;
      GivenBack(p, employee, day, n - 1) + if gives then Unvested(grant, day) else 0
  }

  /** _validate_termination_date */
  function TerminationError(p: Plan, employee: nat, day: int): Option<Refusal>
    requires employee < |p.employees|
  {
    if day < p.employees[employee].hireDay then Some(BeforeHire)
    else if day > p.today then Some(InFuture)
    else None
  }

  function WithJob(p: Plan, employee: nat, job: Employment): Plan
    requires employee < |p.employees|
  {
    p.(employees := p.employees[employee := p.employees[employee].(job := job)])
  }

  /** update_employee_status */
  function UpdateStatus(p: Plan, company: nat, employee: nat, status: Status, day: int, returnUnvested: bool)
    : Result<Plan, Refusal>
  {
    if employee >= |p.employees| then Err(NotFound)
    else if p.employees[employee].company != company then Err(Forbidden)
    else
      var job := p.employees[employee].job;
      if status != Terminated then Ok(WithJob(p, employee, job.(status := status)))
      else
        var invalid := TerminationError(p, employee, day);
        if invalid.Some? then Err(invalid.value)
        else
          var r := if returnUnvested && !HasLeft(job.status) then ReturnAll(p, employee, day, |p.grants|) else Ok(p);
          if r.Err? then r else Ok(WithJob(r.value, employee, Employment(Terminated, Some(day))))
  }

  /** delete_employee on an employee with grants: a termination that returns nothing. */
  function SoftDelete(p: Plan, company: nat, employee: nat, day: int): Result<Plan, Refusal>
  {
    if employee >= |p.employees| then Err(NotFound)
    else if p.employees[employee].company != company then Err(Forbidden)
    else
      var invalid := TerminationError(p, employee, day);
      if invalid.Some? then Err(invalid.value)
      else Ok(WithJob(p, employee, Employment(Terminated, Some(day))))
  }

  /** What a recorded pause of some days does to a grant's schedule. */
  function PauseGrant(p: Plan, company: nat, grant: nat, days: nat): Result<Plan, Refusal>
  {
    if grant >= |p.grants| then Err(NotFound)
    else if p.grants[grant].pool >= |p.pools| || p.pools[p.grants[grant].pool].company != company then Err(Forbidden)
    else if p.grants[grant].schedule.None? then Err(NoSchedule(grant))
    else if days == 0 then Err(NotPositive)
    else
      var s := p.grants[grant].schedule.value;
      var paused := s.(pausedDays := s.pausedDays + days);
      Ok(p.(grants := p.grants[grant := p.grants[grant].(schedule := Some(paused))]))
  }

  // ------------------------------------------------------------ runs

  datatype Op =
    | PoolOp(company: nat, total: int, shareClass: Option<nat>, established: int)
    | GrantOp(company: nat, terms: GrantTerms)
    | StatusOp(company: nat, employee: nat, status: Status, day: int, returnUnvested: bool)
    | DeleteOp(company: nat, employee: nat, day: int)
    | PauseOp(company: nat, grant: nat, days: nat)
    | HireOp(hired: Employee)
    | ClockOp(days: nat, instants: nat)

  function Attempt(p: Plan, op: Op): Result<Plan, Refusal>
  {
    match op
    case PoolOp(company, total, shareClass, established) => CreatePool(p, company, total, shareClass, established)
    case GrantOp(company, terms) => CreateGrant(p, company, terms)
    case StatusOp(company, employee, status, day, returnUnvested) =>
      UpdateStatus(p, company, employee, status, day, returnUnvested)
    case DeleteOp(company, employee, day) => SoftDelete(p, company, employee, day)
    case PauseOp(company, grant, days) => PauseGrant(p, company, grant, days)
    case HireOp(employee) => Ok(p.(employees := p.employees + [employee]))
    case ClockOp(days, instants) => Ok(p.(today := p.today + days, now := p.now + instants))
  }

  function Apply(p: Plan, op: Op): Plan
  {
    var r := Attempt(p, op);
    if r.Ok? then r.value else p
  }

  function Run(p: Plan, ops: seq<Op>): Plan
  {
    if ops == [] then p else Apply(Run(p, ops[..|ops| - 1]), ops[|ops| - 1])
  }

  // ------------------------------------------------------------ conservation

  function ReturnAmount(g: nat): PoolEvent -> int
  {
    (e: PoolEvent) => if e.payload.Returned? && e.payload.grant == g then e.payload.amount else 0
  }

  function ReturnCount(g: nat): PoolEvent -> int
  {
    (e: PoolEvent) => if e.payload.Returned? && e.payload.grant == g then 1 else 0
  }

  /** What the first n grants still hold of a pool: their totals less what was returned. */
  function HeldBy(p: Plan, pool: nat, n: nat): int
    requires n <= |p.grants|
  {
    if n == 0 then 0
    else
      var held := if p.grants[n - 1].pool == pool then p.grants[n - 1].total - Sum(p.log, ReturnAmount(n - 1)) else 0;
      HeldBy(p, pool, n - 1) + held
  }

  ghost predicate PoolBalances(p: Plan, i: nat)
    requires i < |p.pools|
  {
    var pool, h := p.pools[i], History(p.log, i);
    && pool.allocatedShares + pool.unallocatedShares == pool.total
    && pool.unallocatedShares >= 0
    && pool.allocatedShares == HeldBy(p, i, |p.grants|)
    && h != [] && h[0].payload == Balance(0, pool.total, pool.total)
    && (forall k :: 1 <= k < |h| ==> !h[k].payload.Balance?)
    && pool.allocatedShares == Sum(h, Net(Read))
  }

  ghost predicate RefersTo(e: PoolEvent, p: Plan)
  {
    e.aggregate < |p.pools|
    && (e.payload.Allocated? ==> e.payload.grant < |p.grants|)
    && (e.payload.Returned? ==> e.payload.grant < |p.grants|)
  }

  /** Holds on every run. */
  ghost predicate Balanced(p: Plan)
  {
    && Numbered(p.log)
    && (forall e :: e in p.log ==> RefersTo(e, p))
    && (forall g :: 0 <= g < |p.grants| ==>
        p.grants[g].total > 0 && p.grants[g].pool < |p.pools| && p.grants[g].employee < |p.employees|)
    && (forall i: nat :: i < |p.pools| ==> PoolBalances(p, i))
  }

  lemma {:induction false} NoneReturned(log: seq<PoolEvent>, g: nat)
    requires forall e :: e in log && e.payload.Returned? ==> e.payload.grant != g
    ensures Sum(log, ReturnAmount(g)) == 0 && Sum(log, ReturnCount(g)) == 0
  {
    if log != [] { NoneReturned(log[..|log| - 1], g); }
  }

  /** The first n grants have the same holder, pool and total. */
  ghost predicate SameGrants(p: Plan, p': Plan, n: nat)
  {
    n <= |p.grants| && n <= |p'.grants|
    && forall g :: 0 <= g < n ==>
         && p'.grants[g].total == p.grants[g].total
         && p'.grants[g].pool == p.grants[g].pool
         && p'.grants[g].employee == p.grants[g].employee
  }

  /** Holdings depend only on pools, totals and what was returned. */
  lemma {:induction false} HeldSame(p: Plan, p': Plan, pool: nat, n: nat)
    requires SameGrants(p, p', n)
    requires forall g: nat :: g < n ==> Sum(p'.log, ReturnAmount(g)) == Sum(p.log, ReturnAmount(g))
    ensures HeldBy(p', pool, n) == HeldBy(p, pool, n)
  {
    if n > 0 { HeldSame(p, p', pool, n - 1); }
  }

  lemma {:induction false} HeldAfterReturn(p: Plan, p': Plan, e: PoolEvent, pool: nat, n: nat)
    requires n <= |p.grants| && p'.grants == p.grants && e.payload.Returned? && p'.log == p.log + [e]
    ensures HeldBy(p', pool, n) == HeldBy(p, pool, n)
      - if e.payload.grant < n && p.grants[e.payload.grant].pool == pool then e.payload.amount else 0
  {
    if n > 0 {
      HeldAfterReturn(p, p', e, pool, n - 1);
      SumAppend(p.log, e, ReturnAmount(n - 1));
    }
  }

  lemma NoHistoryBeyond(p: Plan, id: nat)
    requires (forall e :: e in p.log ==> RefersTo(e, p)) && id >= |p.pools|
    ensures History(p.log, id) == []
  {
    var h := History(p.log, id);
    if h != [] { SelectMembers(p.log, Of(id), h[0]); }
  }

  lemma {:induction false} NothingHeld(p: Plan, pool: nat, n: nat)
    requires n <= |p.grants| && forall g :: 0 <= g < n ==> p.grants[g].pool != pool
    ensures HeldBy(p, pool, n) == 0
  {
    if n > 0 { NothingHeld(p, pool, n - 1); }
  }

  lemma EarlierPoolKept(p: Plan, pool: Pool, e: PoolEvent, i: nat)
    requires Balanced(p) && i < |p.pools| && e.aggregate == |p.pools| && !e.payload.Returned?
    requires e.seqNo == NextSeq(p.log, e.aggregate)
    ensures PoolBalances(p.(pools := p.pools + [pool], log := p.log + [e]), i)
  {
    var p' := p.(pools := p.pools + [pool], log := p.log + [e]);
    AppendNumbers(p.log, e);
    forall g: nat
      ensures Sum(p'.log, ReturnAmount(g)) == Sum(p.log, ReturnAmount(g))
    {
      SumAppend(p.log, e, ReturnAmount(g));
    }
    HeldSame(p, p', i, |p.grants|);
    assert PoolBalances(p, i);
  }

  lemma NewPoolStarts(p: Plan, pool: Pool, e: PoolEvent)
    requires Balanced(p) && pool.total > 0 && pool.allocatedShares == 0 && pool.unallocatedShares == pool.total
    requires e.aggregate == |p.pools| && e.payload == Balance(0, pool.total, pool.total)
    requires e.seqNo == NextSeq(p.log, e.aggregate)
    ensures PoolBalances(p.(pools := p.pools + [pool], log := p.log + [e]), |p.pools|)
  {
    var p' := p.(pools := p.pools + [pool], log := p.log + [e]);
    NoHistoryBeyond(p, |p.pools|);
    AppendNumbers(p.log, e);
    assert [] + [e] == [e];
    SumAppend([], e, Net(Read));
    NothingHeld(p', |p.pools|, |p.grants|);
  }

  lemma PoolKeeps(p: Plan, company: nat, total: int, shareClass: Option<nat>, established: int)
    requires Balanced(p) && CreatePool(p, company, total, shareClass, established).Ok?
    ensures Balanced(CreatePool(p, company, total, shareClass, established).value)
  {
    var p' := CreatePool(p, company, total, shareClass, established).value;
    var pool, e := p'.pools[|p.pools|], p'.log[|p.log|];
    AppendNumbers(p.log, e);
    forall i: nat | i < |p'.pools| ensures PoolBalances(p', i) {
      if i < |p.pools| { EarlierPoolKept(p, pool, e, i); } else { NewPoolStarts(p, pool, e); }
    }
  }

  lemma AllocateKeepsPool(p: Plan, t: GrantTerms, i: nat)
    requires Balanced(p) && t.pool < |p.pools| && 0 < t.total <= p.pools[t.pool].unallocatedShares && i < |p.pools|
    ensures PoolBalances(Allocate(p, t), i)
  {
    var p' := Allocate(p, t);
    var e, n := p'.log[|p.log|], |p.grants|;
    AppendNumbers(p.log, e);
    SumAppend(History(p.log, t.pool), e, Net(Read));
    NetOf(e);
    forall g: nat
      ensures Sum(p'.log, ReturnAmount(g)) == Sum(p.log, ReturnAmount(g))
    {
      SumAppend(p.log, e, ReturnAmount(g));
    }
    HeldSame(p, p', i, n);
    NoneReturned(p.log, n);
    assert PoolBalances(p, i);
  }

  lemma GrantKeeps(p: Plan, company: nat, t: GrantTerms)
    requires Balanced(p) && CreateGrant(p, company, t).Ok?
    ensures Balanced(CreateGrant(p, company, t).value)
  {
    var p' := Allocate(p, t);
    AppendNumbers(p.log, p'.log[|p.log|]);
    forall i: nat | i < |p'.pools| ensures PoolBalances(p', i) { AllocateKeepsPool(p, t, i); }
  }

  /** Exactly when a grant is accepted: its holder is known to have completed 18
      years on the grant date, and the pool is the company's own and has enough
      left. */
  lemma GrantAcceptedIff(p: Plan, company: nat, t: GrantTerms)
    ensures CreateGrant(p, company, t).Ok? <==>
      && t.employee < |p.employees| && p.employees[t.employee].birth.Some?
      && CompletedMonths(p.employees[t.employee].birth.value, t.date) >= 12 * 18
      && t.pool < |p.pools| && p.pools[t.pool].company == company
      && (t.trustee.Some? ==> t.trustee.value < p.trustees)
      && 0 < t.total <= p.pools[t.pool].unallocatedShares
  {
    if t.employee < |p.employees| && p.employees[t.employee].birth.Some? {
      CompletedMonthsIff(p.employees[t.employee].birth.value, t.date, MINIMUM_AGE_MONTHS);
    }
  }

  /** What a grant stores: the row with an unpaused schedule from its date, its
      options moved between the pool's columns, and one event. */
  lemma GrantStores(p: Plan, company: nat, t: GrantTerms)
    requires Balanced(p) && CreateGrant(p, company, t).Ok?
    ensures var q := CreateGrant(p, company, t).value;
      && q.grants
         == p.grants + [Grant(t.employee, t.pool, t.total, Some(Schedule(t.date, t.cliffMonths, t.totalMonths, 0)))]
      && t.pool < |p.pools|
      && var pool := p.pools[t.pool];
      && q.pools == p.pools[t.pool := pool.(allocatedShares := pool.allocatedShares + t.total,
                                            unallocatedShares := pool.unallocatedShares - t.total)]
      && History(q.log, t.pool) == History(p.log, t.pool)
         + [Event(t.pool, Allocated(t.total, |p.grants|), Ordinal(t.date), p.now, |History(p.log, t.pool)| + 1)]
      && (forall i: nat :: i != t.pool ==> History(q.log, i) == History(p.log, i))
      && q == p.(grants := q.grants, pools := q.pools, log := q.log)
  {
    AppendNumbers(p.log, Allocate(p, t).log[|p.log|]);
    NextSeqCounts(p.log, t.pool);
  }

  /** A refusal names what stood in the way; of someone under age, the first date
      on which 18 years are complete. */
  lemma GrantRefusalTells(p: Plan, company: nat, t: GrantTerms, d: Date)
    requires CreateGrant(p, company, t).Err?
    ensures match CreateGrant(p, company, t).error
      case BirthDateMissing => t.employee < |p.employees| && p.employees[t.employee].birth.None?
      case UnderAge(eligibleFrom) =>
        && t.employee < |p.employees| && p.employees[t.employee].birth.Some? && Before(t.date, eligibleFrom)
        && (CompletedMonths(p.employees[t.employee].birth.value, d) >= 216 <==> AtMost(eligibleFrom, d))
      case NotFound =>
        t.employee >= |p.employees| || t.pool >= |p.pools| || (t.trustee.Some? && t.trustee.value >= p.trustees)
      case Forbidden => t.pool < |p.pools| && p.pools[t.pool].company != company
      case NotPositive => t.total <= 0
      case PoolTooSmall(available) => t.pool < |p.pools| && available == p.pools[t.pool].unallocatedShares < t.total
      case _ => false
  {
    if t.employee < |p.employees| && p.employees[t.employee].birth.Some? {
      CompletedMonthsIff(p.employees[t.employee].birth.value, d, 216);
    }
  }

  /** Exactly when a pool is created, and what it stores: all of it unallocated. */
  lemma PoolCreatedIff(p: Plan, company: nat, total: int, shareClass: Option<nat>, established: int)
    ensures var r := CreatePool(p, company, total, shareClass, established);
      && (r.Ok? <==>
          total > 0 && (shareClass.Some? ==> shareClass.value < |p.classes| && p.classes[shareClass.value] == company))
      && (r.Ok? ==>
          && r.value.pools == p.pools + [Pool(company, shareClass, total, 0, total)]
          && r.value.log == p.log + [Event(|p.pools|, Balance(0, total, total), established, p.now,
                                           NextSeq(p.log, |p.pools|))]
          && r.value == p.(pools := r.value.pools, log := r.value.log))
      && (r.Err? ==>
          match r.error
          case NotPositive => total <= 0
          case NotFound => shareClass.Some? && shareClass.value >= |p.classes|
          case Forbidden =>
            shareClass.Some? && shareClass.value < |p.classes| && p.classes[shareClass.value] != company
          case _ => false)
  {
  }

  lemma ReturnKeepsPool(p: Plan, g: nat, day: int, i: nat)
    requires Balanced(p) && g < |p.grants| && p.grants[g].schedule.Some? && i < |p.pools|
    ensures PoolBalances(ReturnOne(p, g, day), i)
  {
    var p' := ReturnOne(p, g, day);
    var e := p'.log[|p.log|];
    AppendNumbers(p.log, e);
    SumAppend(History(p.log, p.grants[g].pool), e, Net(Read));
    NetOf(e);
    HeldAfterReturn(p, p', e, i, |p.grants|);
    VestedBounds(p.grants[g].total, p.grants[g].schedule.value, FromOrdinal(day));
    assert PoolBalances(p, i);
  }

  lemma ReturnOneKeeps(p: Plan, g: nat, day: int)
    requires Balanced(p) && g < |p.grants| && p.grants[g].schedule.Some?
    ensures Balanced(ReturnOne(p, g, day))
  {
    var p' := ReturnOne(p, g, day);
    AppendNumbers(p.log, p'.log[|p.log|]);
    forall i: nat | i < |p'.pools| ensures PoolBalances(p', i) { ReturnKeepsPool(p, g, day, i); }
  }

  lemma {:induction false} ReturnAllKeeps(p: Plan, employee: nat, day: int, n: nat)
    requires Balanced(p) && n <= |p.grants| && ReturnAll(p, employee, day, n).Ok?
    ensures Balanced(ReturnAll(p, employee, day, n).value)
  {
    if n > 0 {
      ReturnAllKeeps(p, employee, day, n - 1);
      if p.grants[n - 1].employee == employee {
        ReturnOneKeeps(ReturnAll(p, employee, day, n - 1).value, n - 1, day);
      }
    }
  }

  /** Schedules and employees do not matter to the invariant. */
  lemma SameTables(p: Plan, p': Plan)
    requires Balanced(p) && p'.pools == p.pools && p'.log == p.log && |p'.employees| >= |p.employees|
    requires |p'.grants| == |p.grants| && SameGrants(p, p', |p.grants|)
    ensures Balanced(p')
  {
    forall i: nat | i < |p'.pools| ensures PoolBalances(p', i) {
      assert PoolBalances(p, i);
      HeldSame(p, p', i, |p.grants|);
    }
  }

  lemma ApplyKeeps(p: Plan, op: Op)
    requires Balanced(p)
    ensures Balanced(Apply(p, op))
  {
    var r := Attempt(p, op);
    if r.Ok? {
      match op
      case PoolOp(company, total, shareClass, established) => PoolKeeps(p, company, total, shareClass, established);
      case GrantOp(company, terms) => GrantKeeps(p, company, terms);
      case StatusOp(company, employee, status, day, returnUnvested) =>
        if status == Terminated && returnUnvested && !HasLeft(p.employees[employee].job.status) {
          ReturnAllKeeps(p, employee, day, |p.grants|);
          SameTables(ReturnAll(p, employee, day, |p.grants|).value, r.value);
        } else {
          SameTables(p, r.value);
        }
      case DeleteOp(_, _, _) => SameTables(p, r.value);
      case PauseOp(_, _, _) => SameTables(p, r.value);
      case HireOp(_) => SameTables(p, r.value);
      case ClockOp(_, _) => SameTables(p, r.value);
    }
  }

  /** Over every run each pool's two columns add up to its size, nothing is
      over-allocated, and the allocated column is what its grants still hold. */
  lemma {:induction false} PoolsAlwaysBalance(p: Plan, ops: seq<Op>)
    requires Balanced(p)
    ensures Balanced(Run(p, ops))
  {
    if ops != [] {
      PoolsAlwaysBalance(p, ops[..|ops| - 1]);
      ApplyKeeps(Run(p, ops[..|ops| - 1]), ops[|ops| - 1]);
    }
  }

  lemma {:induction false} TodayAfterReturn(p: Plan, employee: nat, day: int, n: nat)
    requires n <= |p.grants| && ReturnAll(p, employee, day, n).Ok?
    ensures ReturnAll(p, employee, day, n).value.today == p.today
    ensures ReturnAll(p, employee, day, n).value.now == p.now
  {
    if n > 0 { TodayAfterReturn(p, employee, day, n - 1); }
  }

  /** The clocks never go back. */
  lemma {:induction false} ClocksNeverGoBack(p: Plan, ops: seq<Op>)
    ensures Run(p, ops).today >= p.today && Run(p, ops).now >= p.now
  {
    if ops != [] {
      var q, op := Run(p, ops[..|ops| - 1]), ops[|ops| - 1];
      ClocksNeverGoBack(p, ops[..|ops| - 1]);
      if op.StatusOp? && ReturnAll(q, op.employee, op.day, |q.grants|).Ok? {
        TodayAfterReturn(q, op.employee, op.day, |q.grants|);
      }
    }
  }

  // ------------------------------------------------------------ what a termination returns

  /** A termination is all or nothing: it goes through exactly when every grant
      of the leaver has a schedule. */
  lemma {:induction false} ReturnsAllOrNothing(p: Plan, employee: nat, day: int, n: nat)
    requires n <= |p.grants|
    ensures ReturnAll(p, employee, day, n).Ok? <==>
      forall g :: 0 <= g < n && p.grants[g].employee == employee ==> p.grants[g].schedule.Some?
  {
    if n > 0 { ReturnsAllOrNothing(p, employee, day, n - 1); }
  }

  /** Exactly when a status change goes through. Only a termination that returns
      options can fail on a grant, and a leaver's second one returns nothing. */
  lemma StatusAcceptedIff(p: Plan, company: nat, employee: nat, status: Status, day: int, returnUnvested: bool)
    ensures UpdateStatus(p, company, employee, status, day, returnUnvested).Ok? <==>
      && employee < |p.employees| && p.employees[employee].company == company
      && (status == Terminated ==>
            && p.employees[employee].hireDay <= day <= p.today
            && (returnUnvested && !HasLeft(p.employees[employee].job.status) ==>
                  forall g :: 0 <= g < |p.grants| && p.grants[g].employee == employee ==> p.grants[g].schedule.Some?))
  {
    ReturnsAllOrNothing(p, employee, day, |p.grants|);
  }

  /** When it goes through, each grant of the leaver, and no other, gets one more
      return, of exactly what had not vested on the leaving day. */
  lemma {:induction false} ReturnsExactly(p: Plan, employee: nat, day: int, n: nat, g: nat)
    requires Balanced(p) && n <= |p.grants| && g < |p.grants| && ReturnAll(p, employee, day, n).Ok?
    ensures var q := ReturnAll(p, employee, day, n).value; var mine := g < n && p.grants[g].employee == employee;
      && Sum(q.log, ReturnCount(g)) == Sum(p.log, ReturnCount(g)) + (if mine then 1 else 0)
      && (mine ==> p.grants[g].schedule.Some?)
      && Sum(q.log, ReturnAmount(g)) == Sum(p.log, ReturnAmount(g)) + (if mine then Unvested(p.grants[g], day) else 0)
  {
    if n > 0 {
      ReturnsExactly(p, employee, day, n - 1, g);
      var q := ReturnAll(p, employee, day, n - 1).value;
      if p.grants[n - 1].employee == employee {
        var e := Event(p.grants[n - 1].pool, Returned(Unvested(p.grants[n - 1], day), n - 1), day, q.now,
            NextSeq(q.log, p.grants[n - 1].pool));
        assert ReturnAll(p, employee, day, n).value.log == q.log + [e];
        SumAppend(q.log, e, ReturnCount(g));
        SumAppend(q.log, e, ReturnAmount(g));
      }
    }
  }

  /** What a termination appends for one grant: one event, dated on the leaving day. */
  lemma ReturnStores(p: Plan, g: nat, day: int)
    requires Balanced(p) && g < |p.grants| && p.grants[g].schedule.Some?
    ensures var q, i := ReturnOne(p, g, day), p.grants[g].pool;
      && History(q.log, i) == History(p.log, i)
         + [Event(i, Returned(Unvested(p.grants[g], day), g), day, p.now, |History(p.log, i)| + 1)]
      && (forall k: nat :: k != i ==> History(q.log, k) == History(p.log, k))
      && q == p.(pools := q.pools, log := q.log)
  {
    AppendNumbers(p.log, ReturnOne(p, g, day).log[|p.log|]);
    NextSeqCounts(p.log, p.grants[g].pool);
  }

  /** What one grant gives back to one pool. */
  function GivesTo(employee: nat, day: int, pool: nat): Grant -> int
  {
    (g: Grant) => if g.employee == employee && g.pool == pool && g.schedule.Some? then Unvested(g, day) else 0
  }

  /** Each pool gets back, from its allocated to its unallocated column, what the
      leaver's grants in it had not vested. */
  lemma {:induction false} PoolsAfterReturn(p: Plan, employee: nat, day: int, n: nat, i: nat)
    requires n <= |p.grants| && ReturnAll(p, employee, day, n).Ok? && i < |p.pools|
    ensures var q, back := ReturnAll(p, employee, day, n).value, Sum(p.grants[..n], GivesTo(employee, day, i));
      && q == p.(pools := q.pools, log := q.log)
      && q.pools[i] == p.pools[i].(allocatedShares := p.pools[i].allocatedShares - back,
                                   unallocatedShares := p.pools[i].unallocatedShares + back)
  {
    if n > 0 {
      PoolsAfterReturn(p, employee, day, n - 1, i);
      assert p.grants[..n][..n - 1] == p.grants[..n - 1];
    }
  }

  function Gives(employee: nat, day: int): Grant -> int
  {
    (g: Grant) => if g.employee == employee && g.schedule.Some? then Unvested(g, day) else 0
  }

  /** The amount answered is what all of the leaver's grants had not vested. */
  lemma {:induction false} GivenBackIs(p: Plan, employee: nat, day: int, n: nat)
    requires n <= |p.grants|
    ensures GivenBack(p, employee, day, n) == Sum(p.grants[..n], Gives(employee, day))
  {
    if n > 0 {
      GivenBackIs(p, employee, day, n - 1);
      assert p.grants[..n][..n - 1] == p.grants[..n - 1];
    }
  }

  /** What a status change stores. Only a termination sets the leaving day, and only
      one that returns options, of somebody still there, touches pools. */
  lemma StatusStores(p: Plan, company: nat, employee: nat, status: Status, day: int, returnUnvested: bool, i: nat)
    requires UpdateStatus(p, company, employee, status, day, returnUnvested).Ok? && i < |p.pools|
    ensures var q := UpdateStatus(p, company, employee, status, day, returnUnvested).value;
      && employee < |p.employees| && |q.employees| == |p.employees| && |q.pools| == |p.pools|
      && var was := p.employees[employee];
      && var givesBack :=
          status == Terminated && returnUnvested && was.job.status != Terminated && was.job.status != Deceased;
      && var back := if givesBack then Sum(p.grants, GivesTo(employee, day, i)) else 0;
      && q.employees == p.employees[employee := was.(job :=
          if status == Terminated then Employment(Terminated, Some(day))
          else Employment(status, was.job.termination))]
      && q.pools[i] == p.pools[i].(allocatedShares := p.pools[i].allocatedShares - back,
                                   unallocatedShares := p.pools[i].unallocatedShares + back)
      && (!givesBack ==> q.log == p.log)
      && q == p.(employees := q.employees, pools := q.pools, log := q.log)
  {
    assert p.grants[..|p.grants|] == p.grants;
    if status == Terminated && returnUnvested && !HasLeft(p.employees[employee].job.status) {
      PoolsAfterReturn(p, employee, day, |p.grants|, i);
    }
  }

  /** Deleting an employee who has grants is leaving without a return. */
  lemma DeletedIff(p: Plan, company: nat, employee: nat, day: int)
    ensures SoftDelete(p, company, employee, day).Ok? <==>
      employee < |p.employees| && p.employees[employee].company == company
          && p.employees[employee].hireDay <= day <= p.today
    ensures SoftDelete(p, company, employee, day)
         == UpdateStatus(p, company, employee, Terminated, day, false)
  {
  }

  /** Exactly when a plan's schedule is paused. */
  lemma PauseGrantedIff(p: Plan, company: nat, grant: nat, days: nat)
    ensures PauseGrant(p, company, grant, days).Ok? <==>
      && grant < |p.grants| && p.grants[grant].pool < |p.pools| && p.pools[p.grants[grant].pool].company == company
      && p.grants[grant].schedule.Some? && days > 0
    ensures PauseGrant(p, company, grant, days) == Err(NotFound) <==> grant >= |p.grants|
    ensures PauseGrant(p, company, grant, days) == Err(Forbidden) <==>
      grant < |p.grants|
          && !(p.grants[grant].pool < |p.pools| && p.pools[p.grants[grant].pool].company == company)
  {
  }

  /** A recorded pause is worth a start that much later, on that grant alone. */
  lemma PauseDelaysGrant(p: Plan, company: nat, grant: nat, days: nat, target: Date)
    requires PauseGrant(p, company, grant, days).Ok?
    ensures var q := PauseGrant(p, company, grant, days).value;
      && grant < |p.grants| && |q.grants| == |p.grants| && q == p.(grants := q.grants)
      && p.grants[grant].pool < |p.pools| && p.pools[p.grants[grant].pool].company == company && days > 0
      && p.grants[grant].schedule.Some? && q.grants[grant].schedule.Some?
      && q.grants == p.grants[grant := p.grants[grant].(schedule := q.grants[grant].schedule)]
      && var s := p.grants[grant].schedule.value;
      Vested(p.grants[grant].total, q.grants[grant].schedule.value, target)
      == Vested(p.grants[grant].total, s.(start := AddDays(s.start, days)), target)
  {
    var s := p.grants[grant].schedule.value;
    AddDaysAdds(s.start, days);
    PausesDelay(p.grants[grant].total, s, AddDays(s.start, days), days, target);
  }

  /** A refused status change names what stood in the way. */
  lemma StatusRefusalTells(p: Plan, company: nat, employee: nat, status: Status, day: int, returnUnvested: bool)
    requires UpdateStatus(p, company, employee, status, day, returnUnvested).Err?
    ensures match UpdateStatus(p, company, employee, status, day, returnUnvested).error
      case NotFound => employee >= |p.employees|
      case Forbidden => employee < |p.employees| && p.employees[employee].company != company
      case BeforeHire => status == Terminated && employee < |p.employees| && day < p.employees[employee].hireDay
      case InFuture => status == Terminated && day > p.today
      case NoSchedule(g) =>
        status == Terminated && returnUnvested
        && g < |p.grants| && p.grants[g].employee == employee && p.grants[g].schedule.None?
      case _ => false
  {
    if employee < |p.employees| { ReturnRefusal(p, employee, day, |p.grants|); }
  }

  lemma {:induction false} ReturnRefusal(p: Plan, employee: nat, day: int, n: nat)
    requires n <= |p.grants|
    ensures ReturnAll(p, employee, day, n).Err? ==>
      var e := ReturnAll(p, employee, day, n).error;
      e.NoSchedule? && e.grant < n && p.grants[e.grant].employee == employee && p.grants[e.grant].schedule.None?
  {
    if n > 0 { ReturnRefusal(p, employee, day, n - 1); }
  }

  ghost predicate ReturnedAtMostOnce(p: Plan)
  {
    forall g: nat :: g < |p.grants| ==> Sum(p.log, ReturnCount(g)) <= 1
  }

  lemma {:induction false} CountNonNegative(log: seq<PoolEvent>, g: nat)
    ensures Sum(log, ReturnCount(g)) >= 0
    ensures Sum(log, ReturnCount(g)) == 0 ==> Sum(log, ReturnAmount(g)) == 0
  {
    if log != [] { CountNonNegative(log[..|log| - 1], g); }
  }

  /** Re-activation is the one way to a second return: a termination keeps every
      grant returned at most once exactly when none of the leaver's grants was
      returned before. */
  lemma SecondReturnIff(p: Plan, employee: nat, day: int)
    requires Balanced(p) && ReturnedAtMostOnce(p) && ReturnAll(p, employee, day, |p.grants|).Ok?
    ensures ReturnedAtMostOnce(ReturnAll(p, employee, day, |p.grants|).value) <==>
      forall g: nat :: g < |p.grants| && p.grants[g].employee == employee ==> Sum(p.log, ReturnCount(g)) == 0
  {
    var q := ReturnAll(p, employee, day, |p.grants|).value;
    forall g: nat | g < |p.grants|
      ensures Sum(q.log, ReturnCount(g))
          == Sum(p.log, ReturnCount(g)) + (if p.grants[g].employee == employee then 1 else 0)
      ensures Sum(p.log, ReturnCount(g)) >= 0
    {
      ReturnsExactly(p, employee, day, |p.grants|, g);
      CountNonNegative(p.log, g);
    }
  }

  predicate Reactivates(p: Plan, op: Op)
  {
    op.StatusOp? && op.employee < |p.employees| && HasLeft(p.employees[op.employee].job.status) && !HasLeft(op.status)
  }

  ghost predicate NeverReactivates(p: Plan, ops: seq<Op>)
  {
    ops == [] || (NeverReactivates(p, ops[..|ops| - 1]) && !Reactivates(Run(p, ops[..|ops| - 1]), ops[|ops| - 1]))
  }

  /** A grant is returned at most once, only after its holder left, and never
      more than its options. */
  ghost predicate GrantSettled(p: Plan, g: nat)
    requires g < |p.grants| && p.grants[g].employee < |p.employees|
  {
    var count := Sum(p.log, ReturnCount(g));
    && count <= 1
    && (count == 1 ==> HasLeft(p.employees[p.grants[g].employee].job.status))
    && 0 <= Sum(p.log, ReturnAmount(g)) <= p.grants[g].total
  }

  ghost predicate Settled(p: Plan)
  {
    Balanced(p) && forall g: nat :: g < |p.grants| ==> GrantSettled(p, g)
  }

  lemma TerminationSettles(p: Plan, employee: nat, day: int, g: nat)
    requires Settled(p) && employee < |p.employees| && !HasLeft(p.employees[employee].job.status) && g < |p.grants|
    requires ReturnAll(p, employee, day, |p.grants|).Ok?
    ensures GrantSettled(WithJob(ReturnAll(p, employee, day, |p.grants|).value, employee,
        Employment(Terminated, Some(day))), g)
  {
    assert GrantSettled(p, g);
    ReturnsExactly(p, employee, day, |p.grants|, g);
    CountNonNegative(p.log, g);
    if p.grants[g].employee == employee {
      VestedBounds(p.grants[g].total, p.grants[g].schedule.value, FromOrdinal(day));
    }
  }

  predicate ReturnsOptions(p: Plan, op: Op)
  {
    op.StatusOp? && op.employee < |p.employees| && op.status == Terminated && op.returnUnvested
    && !HasLeft(p.employees[op.employee].job.status)
  }

  /** No other step appends a return. */
  lemma OtherOpLog(p: Plan, op: Op)
    requires Attempt(p, op).Ok? && !ReturnsOptions(p, op)
    ensures var p' := Apply(p, op);
      p'.log == p.log || (exists e :: p'.log == p.log + [e] && !e.payload.Returned?)
  {
    if op.PoolOp? || op.GrantOp? {
      var e := Apply(p, op).log[|p.log|];
      assert Apply(p, op).log == p.log + [e] && !e.payload.Returned?;
    }
  }

  lemma LeaversStayLeft(p: Plan, op: Op, e: nat)
    requires !Reactivates(p, op) && e < |p.employees| && HasLeft(p.employees[e].job.status) && !ReturnsOptions(p, op)
    ensures e < |Apply(p, op).employees| && HasLeft(Apply(p, op).employees[e].job.status)
  {
  }

  lemma GrantsOnlyGrow(p: Plan, op: Op)
    requires !ReturnsOptions(p, op)
    ensures |p.grants| <= |Apply(p, op).grants| && SameGrants(p, Apply(p, op), |p.grants|)
    ensures forall g :: |p.grants| <= g < |Apply(p, op).grants| ==> Apply(p, op).grants[g].total > 0
  {
  }

  lemma ReturnsUnmoved(log: seq<PoolEvent>, e: PoolEvent, g: nat)
    requires !e.payload.Returned?
    ensures Sum(log + [e], ReturnCount(g)) == Sum(log, ReturnCount(g))
    ensures Sum(log + [e], ReturnAmount(g)) == Sum(log, ReturnAmount(g))
  {
    SumAppend(log, e, ReturnCount(g));
    SumAppend(log, e, ReturnAmount(g));
  }

  lemma OtherOpSettles(p: Plan, op: Op, g: nat)
    requires Settled(p) && !Reactivates(p, op) && Attempt(p, op).Ok? && !ReturnsOptions(p, op)
    requires g < |Apply(p, op).grants|
    requires Apply(p, op).grants[g].employee < |Apply(p, op).employees|
    ensures GrantSettled(Apply(p, op), g)
  {
    var p' := Apply(p, op);
    OtherOpLog(p, op);
    GrantsOnlyGrow(p, op);
    if p'.log != p.log {
      var e :| p'.log == p.log + [e] && !e.payload.Returned?;
      ReturnsUnmoved(p.log, e, g);
    }
    if g < |p.grants| {
      assert GrantSettled(p, g);
      if Sum(p.log, ReturnCount(g)) == 1 { LeaversStayLeft(p, op, p.grants[g].employee); }
    } else {
      NoneReturned(p.log, g);
    }
  }

  lemma ApplySettles(p: Plan, op: Op)
    requires Settled(p) && !Reactivates(p, op)
    ensures Settled(Apply(p, op))
  {
    ApplyKeeps(p, op);
    var p' := Apply(p, op);
    forall g: nat | g < |p'.grants| ensures GrantSettled(p', g) {
      if Attempt(p, op).Err? {
        assert GrantSettled(p, g);
      } else if ReturnsOptions(p, op) {
        TerminationSettles(p, op.employee, op.day, g);
      } else {
        OtherOpSettles(p, op, g);
      }
    }
  }

  lemma {:induction false} HeldNonNegative(p: Plan, pool: nat, n: nat)
    requires Settled(p) && n <= |p.grants|
    ensures HeldBy(p, pool, n) >= 0
  {
    if n > 0 {
      HeldNonNegative(p, pool, n - 1);
      assert GrantSettled(p, n - 1);
    }
  }

  /** Over every run without a re-activation: no grant goes back twice, and no
      pool's allocated column is negative or exceeds the pool. */
  lemma {:induction false} NoDoubleReturn(p: Plan, ops: seq<Op>)
    requires Settled(p) && NeverReactivates(p, ops)
    ensures Settled(Run(p, ops))
    ensures var q := Run(p, ops);
      forall i: nat :: i < |q.pools| ==> 0 <= q.pools[i].allocatedShares <= q.pools[i].total
  {
    if ops != [] {
      NoDoubleReturn(p, ops[..|ops| - 1]);
      ApplySettles(Run(p, ops[..|ops| - 1]), ops[|ops| - 1]);
    }
    var q := Run(p, ops);
    forall i: nat | i < |q.pools| ensures 0 <= q.pools[i].allocatedShares <= q.pools[i].total {
      assert PoolBalances(q, i);
      HeldNonNegative(q, i, |q.grants|);
    }
  }

  // ------------------------------------------------------------ columns against the ledger

  /** What the fold misses: the changes dated before the pool's base event. */
  function EarlyNet(p: Plan, i: nat): int
    requires History(p.log, i) != []
  {
    Sum(History(p.log, i), NetBefore(Read, History(p.log, i)[0].effective))
  }

  lemma PoolBased(p: Plan, i: nat)
    requires Balanced(p) && i < |p.pools|
    ensures BasedFirst(History(p.log, i), Read)
    ensures Read(History(p.log, i)[0].payload) == Start(PoolState(0, p.pools[i].total, p.pools[i].total))
  {
    assert PoolBalances(p, i);
  }

  /** The fold agrees with the pool's columns exactly when the changes dated
      before the pool was established cancel out, whatever the order of dates. */
  lemma FoldAgreesIff(p: Plan, i: nat)
    requires Balanced(p) && i < |p.pools|
    ensures History(p.log, i) != []
    ensures var pool := p.pools[i];
      Fold(EventsFor(p.log, i, EVERYTHING)) == Some(PoolState(pool.allocatedShares, pool.unallocatedShares, pool.total))
      <==> EarlyNet(p, i) == 0
  {
    assert PoolBalances(p, i);
    PoolBased(p, i);
    HistoryFold(p.log, i, Read);
    FoldIsTally(EventsFor(p.log, i, EVERYTHING));
    SplitNet(History(p.log, i), Read, History(p.log, i)[0].effective);
  }

  /** A pool all of whose changes are dated on or after its base always agrees. */
  lemma TimelyPoolsAgree(p: Plan, i: nat)
    requires Balanced(p) && i < |p.pools|
    requires forall e :: e in History(p.log, i) ==> e.effective >= History(p.log, i)[0].effective
    ensures var pool := p.pools[i];
      Fold(EventsFor(p.log, i, EVERYTHING)) == Some(PoolState(pool.allocatedShares, pool.unallocatedShares, pool.total))
  {
    assert PoolBalances(p, i);
    NoneEarly(History(p.log, i), Read, History(p.log, i)[0].effective);
    FoldAgreesIff(p, i);
  }

  /** create_grant does not compare the two dates: it keeps an agreeing pool in
      agreement exactly when the grant is dated on or after the pool. */
  lemma GrantKeepsAgreementIff(p: Plan, company: nat, t: GrantTerms)
    requires Balanced(p) && CreateGrant(p, company, t).Ok? && History(p.log, t.pool) != [] && EarlyNet(p, t.pool) == 0
    ensures History(CreateGrant(p, company, t).value.log, t.pool) != []
    ensures EarlyNet(CreateGrant(p, company, t).value, t.pool) == 0
        <==> Ordinal(t.date) >= History(p.log, t.pool)[0].effective
  {
    var p' := CreateGrant(p, company, t).value;
    var e := p'.log[|p.log|];
    AppendNumbers(p.log, e);
    NetOf(e);
    SumAppend(History(p.log, t.pool), e, NetBefore(Read, History(p.log, t.pool)[0].effective));
  }

  /** Likewise for one return: it may be dated before the pool only if it is empty. */
  lemma ReturnKeepsAgreementIff(p: Plan, g: nat, day: int)
    requires Balanced(p) && g < |p.grants| && p.grants[g].schedule.Some?
    requires History(p.log, p.grants[g].pool) != [] && EarlyNet(p, p.grants[g].pool) == 0
    ensures History(ReturnOne(p, g, day).log, p.grants[g].pool) != []
    ensures EarlyNet(ReturnOne(p, g, day), p.grants[g].pool) == 0
      <==> day >= History(p.log, p.grants[g].pool)[0].effective || Unvested(p.grants[g], day) == 0
  {
    var p' := ReturnOne(p, g, day);
    var e := p'.log[|p.log|];
    AppendNumbers(p.log, e);
    NetOf(e);
    SumAppend(History(p.log, p.grants[g].pool), e, NetBefore(Read, History(p.log, p.grants[g].pool)[0].effective));
  }

  // ------------------------------------------------------------ pools as of a day

  function PoolOn(log: seq<PoolEvent>, i: nat, day: int): Option<PoolState> { Fold(EventsFor(log, i, AsOf(day))) }

  /** As of any day a pool's projection is unknown before its base and counts
      exactly the changes dated from the base up to that day after it. */
  lemma PoolAsOf(p: Plan, i: nat, day: int)
    requires Balanced(p) && i < |p.pools|
    ensures History(p.log, i) != []
    ensures var h, size := History(p.log, i), p.pools[i].total;
      PoolOn(p.log, i, day) ==
        if day < h[0].effective then None
        else Some(Moved(PoolState(0, size, size), Sum(h, NetBetween(Read, h[0].effective, day))))
  {
    PoolBased(p, i);
    ProjectionAsOf(p.log, i, Read, day);
    FoldIsTally(EventsFor(p.log, i, AsOf(day)));
  }

  /** A change moves a pool's projection on exactly the days from its date on, if
      it is not dated before the pool. */
  ghost predicate MovesFrom(log: seq<PoolEvent>, log': seq<PoolEvent>, i: nat, date: int, net: int, day: int)
    requires History(log, i) != []
  {
    var b, before, after := History(log, i)[0], PoolOn(log, i, day), PoolOn(log', i, day);
    && (before.Some? <==> b.effective <= day)
    && after == if before.Some? && b.effective <= date <= day then Some(Moved(before.value, net)) else before
  }

  lemma ChangeMoves(p: Plan, e: PoolEvent, day: int)
    requires Balanced(p) && e.aggregate < |p.pools| && e.seqNo == NextSeq(p.log, e.aggregate) && Read(e.payload).Change?
    ensures History(p.log, e.aggregate) != []
    ensures MovesFrom(p.log, p.log + [e], e.aggregate, e.effective, Read(e.payload).amount, day)
  {
    PoolBased(p, e.aggregate);
    ChangeAsOf(p.log, e, Read, day);
    FoldIsTally(EventsFor(p.log, e.aggregate, AsOf(day)));
    FoldIsTally(EventsFor(p.log + [e], e.aggregate, AsOf(day)));
  }

  /** A grant moves its pool's projection by its options on exactly the days from
      its date on, provided that is not before the pool; it moves no earlier day. */
  lemma GrantMovesPoolAsOf(p: Plan, company: nat, t: GrantTerms, day: int)
    requires Balanced(p) && CreateGrant(p, company, t).Ok?
    ensures History(p.log, t.pool) != []
    ensures MovesFrom(p.log, CreateGrant(p, company, t).value.log, t.pool, Ordinal(t.date), t.total, day)
  {
    var e := Event(t.pool, Allocated(t.total, |p.grants|), Ordinal(t.date), p.now, NextSeq(p.log, t.pool));
    assert CreateGrant(p, company, t).value == Allocate(p, t) && Allocate(p, t).log == p.log + [e];
    ChangeMoves(p, e, day);
  }

  /** A return moves it back by what had not vested, likewise from the leaving day on. */
  lemma ReturnMovesPoolAsOf(p: Plan, g: nat, leaving: int, day: int)
    requires Balanced(p) && g < |p.grants| && p.grants[g].schedule.Some?
    ensures History(p.log, p.grants[g].pool) != []
    ensures MovesFrom(p.log, ReturnOne(p, g, leaving).log, p.grants[g].pool, leaving, -Unvested(p.grants[g], leaving),
        day)
  {
    var i := p.grants[g].pool;
    var e := Event(i, Returned(Unvested(p.grants[g], leaving), g), leaving, p.now, NextSeq(p.log, i));
    assert ReturnOne(p, g, leaving).log == p.log + [e];
    ChangeMoves(p, e, day);
  }

  lemma NewPoolHistory(p: Plan, company: nat, total: int, shareClass: Option<nat>, established: int)
    requires Balanced(p) && CreatePool(p, company, total, shareClass, established).Ok?
    ensures var p' := CreatePool(p, company, total, shareClass, established).value;
      |p'.log| == |p.log| + 1 && History(p'.log, |p.pools|) == [p'.log[|p.log|]]
  {
    var p', n := CreatePool(p, company, total, shareClass, established).value, |p.pools|;
    var e := p'.log[|p.log|];
    NoHistoryBeyond(p, n);
    AppendNumbers(p.log, e);
    assert [] + [e] == [e];
  }

  lemma OnlyBaseAsOf(p: Plan, id: nat, day: int)
    requires Balanced(p) && id < |p.pools| && |History(p.log, id)| == 1
    ensures var size := p.pools[id].total;
      PoolOn(p.log, id, day) == if History(p.log, id)[0].effective <= day then Some(PoolState(0, size, size)) else None
  {
    var base := History(p.log, id)[0];
    assert PoolBalances(p, id);
    PoolAsOf(p, id, day);
    NetOf(base);
    SumOne(base, NetBetween(Read, base.effective, day));
    assert History(p.log, id) == [base];
  }

  /** A new pool is known from its established day on, all of it unallocated. */
  lemma NewPoolAsOf(p: Plan, company: nat, total: int, shareClass: Option<nat>, established: int, day: int)
    requires Balanced(p) && CreatePool(p, company, total, shareClass, established).Ok?
    ensures PoolOn(CreatePool(p, company, total, shareClass, established).value.log, |p.pools|, day)
         == if established <= day then Some(PoolState(0, total, total)) else None
  {
    var p', n := CreatePool(p, company, total, shareClass, established).value, |p.pools|;
    PoolKeeps(p, company, total, shareClass, established);
    NewPoolHistory(p, company, total, shareClass, established);
    OnlyBaseAsOf(p', n, day);
  }

  // ------------------------------------------------------------ runs that lose a promise

  lemma RunAppend(p: Plan, ops: seq<Op>, op: Op)
    ensures Run(p, ops + [op]) == Apply(Run(p, ops), op)
  {
    assert (ops + [op])[..|ops|] == ops;
  }

  function Blank(today: int, now: int): Plan { Plan([], [], [], [], [], 0, today, now) }

  function Hired(company: nat): Employee { Employee(company, Employment(Active, None), 0, Some(Raw(1980, 1, 1))) }

  const TERMS := GrantTerms(0, 0, None, 400, Raw(2020, 1, 1), 12, 48)

  /** One employee and one pool. */
  function Founded(company: nat, established: int, today: int, now: int): Plan
  {
    Blank(today, now).(employees := [Hired(company)],
                       pools := [Pool(company, None, 1000, 0, 1000)],
                       log := [Event(0, Balance(0, 1000, 1000), established, now, 1)])
  }

  function Founding(company: nat, established: int): seq<Op>
  {
    [HireOp(Hired(company)), PoolOp(company, 1000, None, established)]
  }

  lemma FoundedRun(company: nat, established: int, today: int, now: int)
    ensures Run(Blank(today, now), Founding(company, established)) == Founded(company, established, today, now)
    ensures Settled(Founded(company, established, today, now))
    ensures History(Founded(company, established, today, now).log, 0) == Founded(company, established, today, now).log
  {
    var blank, ops := Blank(today, now), Founding(company, established);
    assert ops == ([] + [ops[0]]) + [ops[1]];
    RunAppend(blank, [], ops[0]);
    RunAppend(blank, [] + [ops[0]], ops[1]);
    PoolsAlwaysBalance(blank, ops);
    var e := Event(0, Balance(0, 1000, 1000), established, now, 1);
    assert [] + [e] == [e];
    SelectAppend([], e, Of(0));
  }

  lemma FirstGrant(company: nat, established: int, today: int, now: int)
    ensures var p := Founded(company, established, today, now);
      CreateGrant(p, company, TERMS) == Ok(Allocate(p, TERMS))
  {
    assert CompletedMonths(Raw(1980, 1, 1), Raw(2020, 1, 1)) == 480;
    GrantAcceptedIff(Founded(company, established, today, now), company, TERMS);
  }

  /** From an empty plan: a grant dated before its pool was established. The
      columns count it, the fold does not. */
  lemma EarlyGrantIsLost(company: nat, established: int, today: int, now: int)
    requires Ordinal(TERMS.date) < established
    ensures var p := Run(Blank(today, now), Founding(company, established) + [GrantOp(company, TERMS)]);
      && p.pools == [Pool(company, None, 1000, 400, 600)]
      && Fold(EventsFor(p.log, 0, EVERYTHING)) == Some(PoolState(0, 1000, 1000))
  {
    var p := Founded(company, established, today, now);
    FoundedRun(company, established, today, now);
    FirstGrant(company, established, today, now);
    RunAppend(Blank(today, now), Founding(company, established), GrantOp(company, TERMS));
    var e := Event(0, Allocated(400, 0), Ordinal(TERMS.date), now, NextSeq(p.log, 0));
    assert Allocate(p, TERMS).log == p.log + [e];
    PoolBased(p, 0);
    ChangeShows(p.log, e, Read);
    FoldIsTally(EventsFor(p.log, 0, EVERYTHING));
    FoldIsTally(EventsFor(p.log + [e], 0, EVERYTHING));
    TimelyPoolsAgree(p, 0);
  }

  predicate Returnable(p: Plan, employee: nat, day: int)
  {
    && employee < |p.employees| && !HasLeft(p.employees[employee].job.status)
    && p.employees[employee].hireDay <= day <= p.today
    && forall g :: 0 <= g < |p.grants| && p.grants[g].employee == employee ==> p.grants[g].schedule.Some?
  }

  function Termination(p: Plan, employee: nat, day: int): Op
    requires employee < |p.employees|
  {
    StatusOp(p.employees[employee].company, employee, Terminated, day, true)
  }

  lemma TerminatedOnce(p: Plan, employee: nat, day: int, g: nat)
    requires Balanced(p) && Returnable(p, employee, day) && g < |p.grants| && p.grants[g].employee == employee
    ensures var q := Apply(p, Termination(p, employee, day));
      && Balanced(q) && q.grants == p.grants && q.today == p.today && |q.employees| == |p.employees|
      && q.employees[employee] == p.employees[employee].(job := Employment(Terminated, Some(day)))
      && Sum(q.log, ReturnCount(g)) == Sum(p.log, ReturnCount(g)) + 1
  {
    ReturnsAllOrNothing(p, employee, day, |p.grants|);
    ReturnsExactly(p, employee, day, |p.grants|, g);
    TodayAfterReturn(p, employee, day, |p.grants|);
    ApplyKeeps(p, Termination(p, employee, day));
  }

  /** From any plan: leaving, coming back and leaving again returns every grant of
      the employee twice. */
  lemma ComingBackReturnsTwice(p: Plan, employee: nat, day: int, g: nat)
    requires Balanced(p) && Returnable(p, employee, day) && g < |p.grants| && p.grants[g].employee == employee
    ensures var leave, back := Termination(p, employee, day), Termination(p, employee, day).(status := Active);
      Sum(Apply(Apply(Apply(p, leave), back), leave).log, ReturnCount(g)) == Sum(p.log, ReturnCount(g)) + 2
  {
    var leave := Termination(p, employee, day);
    var back := leave.(status := Active);
    TerminatedOnce(p, employee, day, g);
    var q := Apply(Apply(p, leave), back);
    ApplyKeeps(Apply(p, leave), back);
    TerminatedOnce(q, employee, day, g);
  }

  /** Such a plan is reached from an empty one. */
  lemma SecondReturnRun(company: nat, established: int, day: int, today: int, now: int)
    requires 0 <= day <= today
    ensures var leave := StatusOp(company, 0, Terminated, day, true);
      var ops := Founding(company, established) + [GrantOp(company, TERMS)];
      Sum(Run(Blank(today, now), ops + [leave] + [leave.(status := Active)] + [leave]).log, ReturnCount(0)) == 2
  {
    var blank, ops := Blank(today, now), Founding(company, established) + [GrantOp(company, TERMS)];
    var leave := StatusOp(company, 0, Terminated, day, true);
    var back := leave.(status := Active);
    FoundedRun(company, established, today, now);
    FirstGrant(company, established, today, now);
    RunAppend(blank, Founding(company, established), GrantOp(company, TERMS));
    RunAppend(blank, ops, leave);
    RunAppend(blank, ops + [leave], back);
    RunAppend(blank, ops + [leave] + [back], leave);
    var p := Allocate(Founded(company, established, today, now), TERMS);
    GrantKeeps(Founded(company, established, today, now), company, TERMS);
    ComingBackReturnsTwice(p, 0, day, 0);
    NoneReturned(p.log, 0);
  }

  // ------------------------------------------------------------ the endpoints

  lemma {:induction false} AbortIsFinal(p: Plan, employee: nat, day: int, i: nat, n: nat)
    requires i <= n <= |p.grants| && ReturnAll(p, employee, day, i).Err?
    ensures ReturnAll(p, employee, day, n) == ReturnAll(p, employee, day, i)
  {
    if i < n { AbortIsFinal(p, employee, day, i, n - 1); }
  }

  /** The tables these endpoints write in place. */
  class PlanApi {
    const ledger: EventTable<PoolPayload>
    var pools: seq<Pool>
    var grants: seq<Grant>
    var employees: seq<Employee>
    var classes: seq<nat>
    var trustees: nat
    var today: int
    var now: int

    constructor (employees: seq<Employee>, classes: seq<nat>, trustees: nat, today: int, now: int)
      ensures fresh(ledger) && View() == Plan([], [], [], employees, classes, trustees, today, now)
      ensures Settled(View())
    {
      ledger := new EventTable<PoolPayload>();
      pools, grants := [], [];
      this.employees, this.classes, this.trustees, this.today, this.now := employees, classes, trustees, today, now;
    }

    function View(): Plan
      reads this, ledger
    {
      Plan(pools, ledger.rows, grants, employees, classes, trustees, today, now)
    }

    method AddPool(company: nat, total: int, shareClass: Option<nat>, established: int)
      returns (r: Result<nat, Refusal>)
      modifies this`pools, ledger
      ensures match CreatePool(old(View()), company, total, shareClass, established)
        case Ok(p) => r == Ok(|old(pools)|) && View() == p
        case Err(e) => r == Err(e) && View() == old(View())
      ensures old(Balanced(View())) ==> Balanced(View())
    {
      ghost var before := View();
      if total <= 0 { return Err(NotPositive); }
      if shareClass.Some? {
        if shareClass.value >= |classes| { return Err(NotFound); }
        if classes[shareClass.value] != company { return Err(Forbidden); }
      }
      var id := |pools|;
      pools := pools + [Pool(company, shareClass, total, 0, total)];
      var _ := ledger.AppendEvent(id, Balance(0, total, total), established, now);
      if Balanced(before) { PoolKeeps(before, company, total, shareClass, established); }
      r := Ok(id);
    }

    method AddGrant(company: nat, t: GrantTerms) returns (r: Result<nat, Refusal>)
      modifies this`pools, this`grants, ledger
      ensures match CreateGrant(old(View()), company, t)
        case Ok(p) => r == Ok(|old(grants)|) && View() == p
        case Err(e) => r == Err(e) && View() == old(View())
      ensures old(Balanced(View())) ==> Balanced(View())
    {
      ghost var before := View();
      if t.employee >= |employees| { return Err(NotFound); }
      if employees[t.employee].birth.None? { return Err(BirthDateMissing); }
      var eligible := ShiftMonths(employees[t.employee].birth.value, MINIMUM_AGE_MONTHS, ClampBack);
      if Before(t.date, eligible) { return Err(UnderAge(eligible)); }
      if t.pool >= |pools| { return Err(NotFound); }
      if pools[t.pool].company != company { return Err(Forbidden); }
      if t.trustee.Some? && t.trustee.value >= trustees { return Err(NotFound); }
      if t.total <= 0 { return Err(NotPositive); }
      var pool := pools[t.pool];
      if t.total > pool.unallocatedShares { return Err(PoolTooSmall(pool.unallocatedShares)); }
      var id := |grants|;
      pools := pools[t.pool := pool.(allocatedShares := pool.allocatedShares + t.total,
                                     unallocatedShares := pool.unallocatedShares - t.total)];
      grants := grants + [Grant(t.employee, t.pool, t.total, Some(Schedule(t.date, t.cliffMonths, t.totalMonths, 0)))];
      var _ := ledger.AppendEvent(t.pool, Allocated(t.total, id), Ordinal(t.date), now);
      if Balanced(before) { GrantKeeps(before, company, t); }
      r := Ok(id);
    }

    /** The loop of update_employee_status: it writes pool by pool, and a grant
        without a schedule rolls everything back. */
    method ReturnUnvested(employee: nat, day: int) returns (r: Result<int, Refusal>)
      modifies this`pools, ledger
      ensures match ReturnAll(old(View()), employee, day, |old(grants)|)
        case Ok(p) => r == Ok(GivenBack(old(View()), employee, day, |old(grants)|)) && View() == p
        case Err(e) => r == Err(e) && View() == old(View())
    {
      ghost var before := View();
      var savedPools, savedRows := pools, ledger.rows;
      var returned := 0;
      for i := 0 to |grants|
        invariant ReturnAll(before, employee, day, i) == Ok(View())
        invariant returned == GivenBack(before, employee, day, i)
      {
        var grant := grants[i];
        if grant.employee == employee {
          if grant.schedule.None? {
            AbortIsFinal(before, employee, day, i + 1, |grants|);
            pools, ledger.rows := savedPools, savedRows;
            return Err(NoSchedule(i));
          }
          var unvested := Unvested(grant, day);
          returned := returned + unvested;
          if grant.pool < |pools| {
            var pool := pools[grant.pool];
            pools := pools[grant.pool := pool.(unallocatedShares := pool.unallocatedShares + unvested,
                                               allocatedShares := pool.allocatedShares - unvested)];
            var _ := ledger.AppendEvent(grant.pool, Returned(unvested, i), day, now);
          }
        }
      }
      r := Ok(returned);
    }

    /** update_employee_status */
    method UpdateEmployeeStatus(company: nat, employee: nat, status: Status, day: int, returnUnvested: bool)
      returns (r: Result<int, Refusal>)
      modifies this`pools, this`employees, ledger
      ensures match UpdateStatus(old(View()), company, employee, status, day, returnUnvested)
        case Ok(p) =>
          var gives := status == Terminated && returnUnvested && !HasLeft(old(employees)[employee].job.status);
          r == Ok(if gives then GivenBack(old(View()), employee, day, |old(grants)|) else 0) && View() == p
        case Err(e) => r == Err(e) && View() == old(View())
      ensures old(Balanced(View())) ==> Balanced(View())
    {
      ghost var before := View();
      if employee >= |employees| { return Err(NotFound); }
      if employees[employee].company != company { return Err(Forbidden); }
      var job := employees[employee].job;
      var returned := 0;
      if status == Terminated {
        if day < employees[employee].hireDay { return Err(BeforeHire); }
        if day > today { return Err(InFuture); }
        if returnUnvested && !HasLeft(job.status) {
          var given := ReturnUnvested(employee, day);
          if given.Err? { return Err(given.error); }
          returned := given.value;
        }
        employees := employees[employee := employees[employee].(job := Employment(Terminated, Some(day)))];
      } else {
        employees := employees[employee := employees[employee].(job := job.(status := status))];
      }
      if Balanced(before) { ApplyKeeps(before, StatusOp(company, employee, status, day, returnUnvested)); }
      r := Ok(returned);
    }
  }
}
