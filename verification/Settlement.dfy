/** Options exercised and options returned: what is left of a grant when its
    holder leaves, seen from the plan and from the exercise desk together. */
module Settlement {
  import opened Wrappers
  import opened Ledger
  import opened Calendar
  import opened Vesting
  import Exercise
  import Plan
  import PoolLedger

  /** Both sides hold the same grant. */
  ghost predicate SameGrant(p: Plan.Plan, d: Exercise.Desk, g: nat)
  {
    && g < |p.grants| && g < |d.grants|
    && p.grants[g].total == d.grants[g].total
    && p.grants[g].employee == d.grants[g].employee
    && p.grants[g].schedule == d.grants[g].schedule
  }

  function Returned(p: Plan.Plan, g: nat): int { Sum(p.log, Plan.ReturnAmount(g)) }

  function Approved(d: Exercise.Desk, g: nat): int { Exercise.Committed(d.requests, g, false) }

  lemma NothingReturnedYet(p: Plan.Plan, g: nat)
    requires Plan.Settled(p) && g < |p.grants| && !HasLeft(p.employees[p.grants[g].employee].job.status)
    ensures Returned(p, g) == 0
  {
    assert Plan.GrantSettled(p, g);
    Plan.CountNonNegative(p.log, g);
  }

  /** A returning termination brings the pool what had not vested by its day. */
  lemma ReturnedIs(p: Plan.Plan, employee: nat, day: int, g: nat)
    requires Plan.Settled(p) && Plan.Returnable(p, employee, day)
    requires g < |p.grants| && p.grants[g].employee == employee
    ensures p.grants[g].schedule.Some?
    ensures Returned(Plan.Apply(p, Plan.Termination(p, employee, day)), g) == Plan.Unvested(p.grants[g], day)
  {
    NothingReturnedYet(p, g);
    Plan.ReturnsAllOrNothing(p, employee, day, |p.grants|);
    Plan.ReturnsExactly(p, employee, day, |p.grants|, g);
  }

  /** After a termination that returns options, what was approved and what went back
      to the pool stay within the grant if and only if no more was approved than
      had vested on the leaving day, which may lie in the past. */
  lemma WithinTotalIff(p: Plan.Plan, d: Exercise.Desk, employee: nat, day: int, g: nat)
    requires Plan.Settled(p) && Plan.Returnable(p, employee, day)
    requires SameGrant(p, d, g) && p.grants[g].employee == employee
    ensures p.grants[g].schedule.Some?
    ensures var q := Plan.Apply(p, Plan.Termination(p, employee, day)); var total := p.grants[g].total;
      Approved(d, g) + Returned(q, g) <= total
      <==> Approved(d, g) <= Vested(total, p.grants[g].schedule.value, FromOrdinal(day))
  {
    ReturnedIs(p, employee, day, g);
  }

  /** Leaving on the day of the last approval is always within the grant. */
  lemma LeavingTodayIsWithin(
      p: Plan.Plan, d: Exercise.Desk, employee: nat, g: nat, approver: Exercise.Approver, i: nat, tax: Option<int>)
    requires Plan.Settled(p) && Plan.Returnable(p, employee, d.today)
    requires SameGrant(p, d, g) && p.grants[g].employee == employee
    requires Exercise.Sound(d) && i < |d.requests| && d.requests[i].grant == g
    requires employee < |d.employees| && !HasLeft(d.employees[employee].status)
    requires Exercise.Review(d, approver, i, true, tax).Ok?
    ensures var d' := Exercise.Review(d, approver, i, true, tax).value;
      Approved(d', g) + Returned(Plan.Apply(p, Plan.Termination(p, employee, d.today)), g) <= p.grants[g].total
  {
    var d' := Exercise.Review(d, approver, i, true, tax).value;
    Exercise.ApprovalIsSafe(d, approver, i, tax);
    WithinTotalIff(p, d', employee, d.today, g);
  }

  // ------------------------------------------------------------ a leaving day in the past

  function Asked(d: Exercise.Desk, g: nat, options: int): Result<Exercise.Desk, Exercise.Refusal>
    requires g < |d.grants| && d.grants[g].employee < |d.employees|
  {
    Exercise.Submit(d, d.grants[g].employee, g, options)
  }

  /** An untouched grant of an employee who is still there. */
  ghost predicate Untouched(d: Exercise.Desk, g: nat)
  {
    && Exercise.Sound(d) && g < |d.grants| && d.grants[g].employee < |d.employees| && d.grants[g].schedule.Some?
    && d.grants[g].trustee.None? && !HasLeft(d.employees[d.grants[g].employee].status)
    && Exercise.Committed(d.requests, g, true) == 0 && Exercise.Committed(d.requests, g, false) == 0
  }

  /** Exactly the parts of what has vested of it may be asked for. */
  lemma AskedIff(d: Exercise.Desk, g: nat, options: int)
    requires Untouched(d, g)
    ensures Asked(d, g, options).Ok? <==> 0 < options <= Exercise.VestedNow(d, g)
    ensures Asked(d, g, options).Ok? ==>
      var asked := Asked(d, g, options).value;
      && Exercise.Sound(asked) && |asked.requests| == |d.requests| + 1
      && asked.requests[|d.requests|].grant == g && asked.requests[|d.requests|].status == Exercise.Pending
      && asked.requests[|d.requests|].options == options
      && asked.grants == d.grants && asked.employees == d.employees && asked.today == d.today
      && Approved(asked, g) == 0
  {
    var employee := d.grants[g].employee;
    Exercise.SubmittedIff(d, employee, g, options);
    if Asked(d, g, options).Ok? {
      Exercise.SubmitSound(d, employee, g, options);
      SumAppend(d.requests, Exercise.Request(g, options, Exercise.Pending, d.today), Exercise.Weight(g, false));
    }
  }

  /** The administrator's approval of the request just submitted. */
  function Granted(asked: Exercise.Desk, company: nat): Result<Exercise.Desk, Exercise.Refusal>
    requires asked.requests != []
  {
    Exercise.Review(asked, Exercise.Admin(company), |asked.requests| - 1, true, Some(0))
  }

  /** And approved at once. */
  lemma AskedIsApproved(d: Exercise.Desk, g: nat, options: int)
    requires Untouched(d, g)
    ensures Asked(d, g, options).Ok? ==>
      var asked := Asked(d, g, options).value;
      && asked.requests != []
      && var granted := Granted(asked, d.grants[g].company);
        granted.Ok? && Approved(granted.value, g) == options && granted.value.grants == d.grants
  {
    AskedIff(d, g, options);
    if Asked(d, g, options).Ok? {
      var asked := Asked(d, g, options).value;
      var admin := Exercise.Admin(d.grants[g].company);
      Exercise.ApprovedIff(asked, admin, |d.requests|, Some(0));
      Exercise.ApprovalIsSafe(asked, admin, |d.requests|, Some(0));
    }
  }

  /** Exercising any part of what has vested and then leaving as of an earlier day
      takes more than the grant exactly when the part exceeds what had vested by
      that day. */
  lemma BackdatedLeaverExceedsIff(p: Plan.Plan, d: Exercise.Desk, day: int, g: nat, options: int)
    requires Plan.Settled(p) && SameGrant(p, d, g) && Plan.Returnable(p, p.grants[g].employee, day)
    requires Untouched(d, g) && Asked(d, g, options).Ok?
    ensures Asked(d, g, options).value.requests != []
    ensures Granted(Asked(d, g, options).value, d.grants[g].company).Ok?
    ensures var granted := Granted(Asked(d, g, options).value, d.grants[g].company).value;
      var q := Plan.Apply(p, Plan.Termination(p, p.grants[g].employee, day));
      && p.grants[g].schedule.Some?
      && (Approved(granted, g) + Returned(q, g) > p.grants[g].total
          <==> options > Vested(p.grants[g].total, p.grants[g].schedule.value, FromOrdinal(day)))
  {
    AskedIsApproved(d, g, options);
    var granted := Granted(Asked(d, g, options).value, d.grants[g].company).value;
    WithinTotalIff(p, granted, p.grants[g].employee, day, g);
  }

  // ------------------------------------------------------------ such a leaver

  const SCHEDULE := Schedule(Raw(2020, 1, 1), 12, 48, 0)

  /** Of 400 options none has vested in June and 100 have in January. */
  lemma LessHadVested()
    ensures Vested(400, SCHEDULE, Raw(2020, 6, 1)) == 0 && Vested(400, SCHEDULE, Raw(2021, 1, 1)) == 100
  {
    assert AddDays(Raw(2020, 1, 1), 0) == Raw(2020, 1, 1);
    assert CliffDate(SCHEDULE) == Raw(2021, 1, 1);
    assert CompletedMonths(Raw(2020, 1, 1), Raw(2021, 1, 1)) == 12;
  }

  function June(): int { Ordinal(Raw(2020, 6, 1)) }

  function January(): int { Ordinal(Raw(2021, 1, 1)) }

  function GrantedRun(company: nat, established: int): seq<Plan.Op>
  {
    Plan.Founding(company, established) + [Plan.GrantOp(company, Plan.TERMS)]
  }

  /** The same grant at the exercise desk, in January. */
  function OpenDesk(company: nat, now: int): Exercise.Desk
  {
    var grant := Exercise.Grant(company, 0, None, 400, Ordinal(Raw(2020, 1, 1)), Some(SCHEDULE), None, 90);
    Exercise.Desk([grant], [Employment(Active, None)], [], [], [], January(), now)
  }

  lemma DeskIsOpen(company: nat, now: int)
    ensures Untouched(OpenDesk(company, now), 0)
  {
    var d := OpenDesk(company, now);
    forall g: nat | g < |d.grants| ensures Exercise.GrantSound(d, g) { }
  }

  lemma VestedInJanuary(company: nat, now: int)
    requires Untouched(OpenDesk(company, now), 0)
    ensures Exercise.VestedNow(OpenDesk(company, now), 0) == Vested(400, SCHEDULE, Raw(2021, 1, 1))
  {
    assert Cutoff(Employment(Active, None), January()) == January();
    OrdinalRoundTrip(Raw(2021, 1, 1));
  }

  lemma JuneIsEarlier()
    ensures 0 <= June() <= January()
  {
    OrdinalIsMonotone(Raw(2020, 6, 1), Raw(2021, 1, 1));
    BeforeIsSmaller(Raw(1, 1, 1), Raw(2020, 6, 1));
  }

  lemma GrantedRunIs(company: nat, established: int, today: int, now: int)
    ensures var founded := Plan.Founded(company, established, today, now);
      && Plan.Run(Plan.Blank(today, now), GrantedRun(company, established)) == Plan.Allocate(founded, Plan.TERMS)
      && Plan.Settled(Plan.Allocate(founded, Plan.TERMS))
  {
    var grant := Plan.GrantOp(company, Plan.TERMS);
    Plan.FoundedRun(company, established, today, now);
    Plan.FirstGrant(company, established, today, now);
    Plan.RunAppend(Plan.Blank(today, now), Plan.Founding(company, established), grant);
    Plan.ApplySettles(Plan.Founded(company, established, today, now), grant);
  }

  lemma LeaverReturnsAll(company: nat, established: int, now: int)
    ensures var leave := Plan.StatusOp(company, 0, Terminated, June(), true);
      Returned(Plan.Run(Plan.Blank(January(), now), GrantedRun(company, established) + [leave]), 0)
      == 400 - Vested(400, SCHEDULE, Raw(2020, 6, 1))
  {
    var blank, ops := Plan.Blank(January(), now), GrantedRun(company, established);
    var p := Plan.Allocate(Plan.Founded(company, established, January(), now), Plan.TERMS);
    GrantedRunIs(company, established, January(), now);
    JuneIsEarlier();
    Plan.RunAppend(blank, ops, Plan.StatusOp(company, 0, Terminated, June(), true));
    ReturnedIs(p, 0, June(), 0);
    OrdinalRoundTrip(Raw(2020, 6, 1));
  }

  /** From an empty plan: of a grant of 400 the vested 100 are exercised in January,
      and the leaving day is then given as June. 500 options are taken. */
  lemma ExceedingRun(company: nat, established: int, now: int)
    ensures var d := OpenDesk(company, now);
      && Asked(d, 0, 100).Ok? && Asked(d, 0, 100).value.requests != []
      && var granted := Granted(Asked(d, 0, 100).value, company);
        granted.Ok? && Approved(granted.value, 0) == 100
    ensures var leave := Plan.StatusOp(company, 0, Terminated, June(), true);
      Returned(Plan.Run(Plan.Blank(January(), now), GrantedRun(company, established) + [leave]), 0) == 400
  {
    LessHadVested();
    LeaverReturnsAll(company, established, now);
    DeskIsOpen(company, now);
    VestedInJanuary(company, now);
    AskedIff(OpenDesk(company, now), 0, 100);
    AskedIsApproved(OpenDesk(company, now), 0, 100);
  }
}
