/** Exercise requests: submitting, approving and rejecting, on both review paths. */
module Exercise {
  import opened Wrappers
  import opened Ledger
  import opened Calendar
  import opened Vesting

  datatype Grant = Grant(
    company: nat,
    employee: nat,
    trustee: Option<nat>,
    total: int,
    grantDay: int,
    schedule: Option<Schedule>,
    deposit: Option<int>,
    windowDays: int)

  datatype Decision = Pending | Approved | Rejected

  datatype Request = Request(grant: nat, options: int, status: Decision, day: int)

  datatype TaxRecord = TaxRecord(request: nat, amount: int)

  datatype RequestPayload = Submitted(options: int) | Decided(status: Decision)

  type RequestEvent = Event<RequestPayload>

  datatype Desk = Desk(
    grants: seq<Grant>,
    employees: seq<Employment>,
    requests: seq<Request>,
    taxes: seq<TaxRecord>,
    log: seq<RequestEvent>,
    today: int,
    now: int)

  datatype Approver = Admin(company: nat) | TrusteeUser(trustee: nat)

  datatype Refusal =
    | NotFound
    | Forbidden
    | WindowClosed(deadline: int)
    | NotPositive
    | NoSchedule
    | NotAvailable(vested: int, committed: int)
    | AlreadyDecided(status: Decision)
    | StillLocked(end: Option<int>)
    | NoTaxRule
    | DuplicateTaxRecord

  // ------------------------------------------------------------ shared checks

  const WINDOW_DAYS_DEATH := 365

  /** check_post_termination_exercise_window: the last day to submit, if any. */
  function Deadline(g: Grant, e: Employment): Option<int>
  {
    if !HasLeft(e.status) || e.termination.None? then None
    else Some(e.termination.value + if e.status == Deceased then WINDOW_DAYS_DEATH else g.windowDays)
  }

  /** Options of a grant taken by approved requests, and by pending ones too if asked. */
  function Weight(grant: nat, withPending: bool): Request -> int
  {
    (r: Request) =>
      if r.grant == grant && (r.status == Approved || (withPending && r.status == Pending)) then r.options else 0
  }

  /** _options_committed */
  function Committed(requests: seq<Request>, grant: nat, withPending: bool): int
  {
    Sum(requests, Weight(grant, withPending))
  }

  function CommittedExcept(requests: seq<Request>, grant: nat, withPending: bool, i: nat): int
    requires i < |requests|
  {
    Committed(requests, grant, withPending) - Weight(grant, withPending)(requests[i])
  }

  function VestedToday(d: Desk, g: nat): Option<int>
    requires g < |d.grants| && d.grants[g].employee < |d.employees|
  {
    var grant := d.grants[g];
    if grant.schedule.None? then None
    else Some(VestedOn(grant.total, grant.schedule.value, d.employees[grant.employee], d.today))
  }

  predicate Locked(d: Desk, g: nat)
    requires g < |d.grants|
  {
    var grant := d.grants[g];
    var end := HoldingEnd(grant.grantDay, grant.deposit);
    grant.trustee.Some? && (end.None? || d.today < end.value)
  }

  // ------------------------------------------------------------ the steps

  /** create_exercise_request */
  function Submit(d: Desk, employee: nat, grant: nat, options: int): Result<Desk, Refusal>
  {
    if grant >= |d.grants| then Err(NotFound)
    else if d.grants[grant].employee != employee || employee >= |d.employees| then Err(Forbidden)
    else
      var deadline := Deadline(d.grants[grant], d.employees[employee]);
      if deadline.Some? && d.today > deadline.value then Err(WindowClosed(deadline.value))
      else if options <= 0 then Err(NotPositive)
      else
        var vested, committed := VestedToday(d, grant), Committed(d.requests, grant, true);
        if vested.None? then Err(NoSchedule)
        else if options + committed > vested.value then Err(NotAvailable(vested.value, committed))
        else Ok(d.(requests := d.requests + [Request(grant, options, Pending, d.today)],
                   log := Append(d.log, |d.requests|, Submitted(options), d.today, d.now)))
  }

  /** _assert_request_approvable */
  function ApprovalError(d: Desk, i: nat): Option<Refusal>
    requires i < |d.requests| && d.requests[i].grant < |d.grants|
    requires d.grants[d.requests[i].grant].employee < |d.employees|
  {
    var r := d.requests[i];
    if r.status != Pending then Some(AlreadyDecided(r.status))
    else
      var vested, approved := VestedToday(d, r.grant), CommittedExcept(d.requests, r.grant, false, i);
      if vested.None? then Some(NoSchedule)
      else if r.options + approved > vested.value then Some(NotAvailable(vested.value, approved))
      else if Locked(d, r.grant) then
        Some(StillLocked(HoldingEnd(d.grants[r.grant].grantDay, d.grants[r.grant].deposit)))
      else None
  }

  predicate MayReview(approver: Approver, g: Grant)
  {
    match approver
    case Admin(company) => g.company == company
    case TrusteeUser(trustee) => g.trustee == Some(trustee)
  }

  predicate HasTaxRecord(taxes: seq<TaxRecord>, i: nat) { exists t :: t in taxes && t.request == i }

  /** _decide_exercise_request; tax is the computed amount, None when no rule
      applies. The tax row's request_id is unique. */
  function Decide(d: Desk, i: nat, approve: bool, tax: Option<int>): Result<Desk, Refusal>
    requires i < |d.requests|
  {
    if approve && tax.None? then Err(NoTaxRule)
    else if approve && HasTaxRecord(d.taxes, i) then Err(DuplicateTaxRecord)
    else
      var status := if approve then Approved else Rejected;
      Ok(d.(requests := d.requests[i := d.requests[i].(status := status)],
            taxes := if approve then d.taxes + [TaxRecord(i, tax.value)] else d.taxes,
            log := Append(d.log, i, Decided(status), d.today, d.now)))
  }

  /** review_exercise_request_admin / _trustee: a rejection skips every check. */
  function Review(d: Desk, approver: Approver, i: nat, approve: bool, tax: Option<int>): Result<Desk, Refusal>
  {
    if i >= |d.requests| || d.requests[i].grant >= |d.grants| then Err(NotFound)
    else if d.grants[d.requests[i].grant].employee >= |d.employees| then Err(NotFound)
    else if !MayReview(approver, d.grants[d.requests[i].grant]) then Err(Forbidden)
    else if approve && ApprovalError(d, i).Some? then Err(ApprovalError(d, i).value)
    else Decide(d, i, approve, tax)
  }

  datatype Op =
    | SubmitOp(employee: nat, grant: nat, options: int)
    | ReviewOp(approver: Approver, request: nat, approve: bool, tax: Option<int>)
    | PauseOp(grant: nat, days: nat)
    | JobOp(employee: nat, job: Employment)
    | DepositOp(grant: nat, deposit: int)
    | ClockOp(days: nat, instants: nat)

  /** Between requests the ground may move: pauses and departures lower what has
      vested, deposits move the lock, and the clock never goes back. */
  function Attempt(d: Desk, op: Op): Result<Desk, Refusal>
  {
    match op
    case SubmitOp(employee, grant, options) => Submit(d, employee, grant, options)
    case ReviewOp(approver, i, approve, tax) => Review(d, approver, i, approve, tax)
    case PauseOp(g, days) =>
      if g >= |d.grants| || d.grants[g].schedule.None? then Err(NotFound)
      else
        var s := d.grants[g].schedule.value;
        Ok(d.(grants := d.grants[g := d.grants[g].(schedule := Some(s.(pausedDays := s.pausedDays + days)))]))
    case JobOp(e, job) => if e >= |d.employees| then Err(NotFound) else Ok(d.(employees := d.employees[e := job]))
    case DepositOp(g, deposit) =>
      if g >= |d.grants| || deposit < d.grants[g].grantDay then Err(NotFound)
      else Ok(d.(grants := d.grants[g := d.grants[g].(deposit := Some(deposit))]))
    case ClockOp(days, instants) => Ok(d.(today := d.today + days, now := d.now + instants))
  }

  function Apply(d: Desk, op: Op): Desk
  {
    var r := Attempt(d, op);
    if r.Ok? then r.value else d
  }

  function Run(d: Desk, ops: seq<Op>): Desk
  {
    if ops == [] then d else Apply(Run(d, ops[..|ops| - 1]), ops[|ops| - 1])
  }

  // ------------------------------------------------------------ the fold

  datatype RequestState = RequestState(status: Decision, options: int)

  function Step(state: Option<RequestState>, p: RequestPayload): Option<RequestState>
  {
    match p
    case Submitted(options) => Some(RequestState(Pending, options))
    case Decided(status) => if state.None? then None else Some(state.value.(status := status))
  }

  function Fold(es: seq<RequestEvent>): Option<RequestState>
  {
    if es == [] then None else Step(Fold(es[..|es| - 1]), es[|es| - 1].payload)
  }

  /** project_exercise_request */
  method ProjectExerciseRequest(es: seq<RequestEvent>) returns (state: Option<RequestState>)
    ensures state == Fold(es)
  {
    state := None;
    for i := 0 to |es|
      invariant state == Fold(es[..i])
    {
      assert es[..i + 1][..i] == es[..i];
      match es[i].payload
      case Submitted(options) => state := Some(RequestState(Pending, options));
      case Decided(status) => if state != None { state := Some(state.value.(status := status)); }
    }
    assert es[..|es|] == es;
  }

  // ------------------------------------------------------------ the invariant

  function IsApproval(e: RequestEvent): int { if e.payload == Decided(Approved) then 1 else 0 }

  function RecordFor(i: nat): TaxRecord -> int { (t: TaxRecord) => if t.request == i then 1 else 0 }

  /** One request, its events and its tax rows. */
  ghost predicate RequestSound(d: Desk, i: nat)
    requires i < |d.requests|
  {
    var r, h := d.requests[i], History(d.log, i);
    && r.grant < |d.grants| && r.options > 0
    && h != [] && h[0].payload == Submitted(r.options)
    && (forall k :: 1 <= k < |h| ==> h[k].payload.Decided?)
    && InOrder(h) && (forall k :: 0 <= k < |h| ==> h[k].effective <= d.today)
    && Fold(h) == Some(RequestState(r.status, r.options))
    && (r.status == Pending ==> |h| == 1)
    && (r.status == Approved ==> Sum(h, IsApproval) == 1)
    && 0 <= Sum(h, IsApproval) <= 1
    && Sum(d.taxes, RecordFor(i)) == Sum(h, IsApproval)
  }

  ghost predicate GrantSound(d: Desk, g: nat)
    requires g < |d.grants|
  {
    d.grants[g].total >= 0 && d.grants[g].employee < |d.employees|
        && Committed(d.requests, g, true) <= d.grants[g].total
  }

  ghost predicate Sound(d: Desk)
  {
    && Numbered(d.log)
    && (forall id: nat :: id >= |d.requests| ==> History(d.log, id) == [] && Sum(d.taxes, RecordFor(id)) == 0)
    && (forall i: nat :: i < |d.requests| ==> RequestSound(d, i))
    && (forall g: nat :: g < |d.grants| ==> GrantSound(d, g))
  }

  lemma {:induction false} RecordCount(taxes: seq<TaxRecord>, i: nat)
    ensures Sum(taxes, RecordFor(i)) >= 0
    ensures Sum(taxes, RecordFor(i)) == 0 <==> !HasTaxRecord(taxes, i)
  {
    if taxes != [] {
      assert taxes == taxes[..|taxes| - 1] + [taxes[|taxes| - 1]];
      RecordCount(taxes[..|taxes| - 1], i);
    }
  }

  lemma SubmittedRequest(d: Desk, employee: nat, grant: nat, options: int, i: nat)
    requires Sound(d) && Submit(d, employee, grant, options).Ok? && i <= |d.requests|
    ensures RequestSound(Submit(d, employee, grant, options).value, i)
  {
    var d' := Submit(d, employee, grant, options).value;
    var e := d'.log[|d.log|];
    AppendNumbers(d.log, e);
    if i < |d.requests| {
      assert RequestSound(d, i);
    } else {
      assert [] + [e] == [e];
      SumAppend([], e, IsApproval);
      assert Fold([e]) == Some(RequestState(Pending, options));
    }
  }

  lemma SubmittedGrant(d: Desk, employee: nat, grant: nat, options: int, g: nat)
    requires Sound(d) && Submit(d, employee, grant, options).Ok? && g < |d.grants|
    ensures GrantSound(Submit(d, employee, grant, options).value, g)
  {
    assert GrantSound(d, g);
    SumAppend(d.requests, Request(grant, options, Pending, d.today), Weight(g, true));
    if g == grant {
      VestedOnMonotone(d.grants[g].total, d.grants[g].schedule.value, d.employees[employee], d.today, d.today);
    }
  }

  lemma SubmitSound(d: Desk, employee: nat, grant: nat, options: int)
    requires Sound(d) && Submit(d, employee, grant, options).Ok?
    ensures Sound(Submit(d, employee, grant, options).value)
  {
    var d' := Submit(d, employee, grant, options).value;
    AppendNumbers(d.log, d'.log[|d.log|]);
    forall i: nat | i < |d'.requests| ensures RequestSound(d', i) { SubmittedRequest(d, employee, grant, options, i); }
    forall g: nat | g < |d'.grants| ensures GrantSound(d', g) { SubmittedGrant(d, employee, grant, options, g); }
  }

  lemma StaysInOrder(d: Desk, i: nat, e: RequestEvent)
    requires Sound(d) && i < |d.requests| && e.effective == d.today && e.seqNo == NextSeq(d.log, i)
    ensures InOrder(History(d.log, i) + [e])
  {
    var h := History(d.log, i);
    assert RequestSound(d, i);
    NextSeqCounts(d.log, i);
    forall k | 0 <= k < |h| ensures Precedes(h[k], e) {
      assert History(d.log, i)[k].seqNo == k + 1;
    }
  }

  lemma DecidedHistory(d: Desk, i: nat, status: Decision, e: RequestEvent)
    requires Sound(d) && i < |d.requests|
    requires e == Event(i, Decided(status), d.today, d.now, NextSeq(d.log, i))
    ensures var h, h' := History(d.log, i), History(d.log + [e], i);
      && h' == h + [e] && InOrder(h')
      && Fold(h') == Some(RequestState(status, d.requests[i].options))
      && Sum(h', IsApproval) == Sum(h, IsApproval) + IsApproval(e)
  {
    var h := History(d.log, i);
    assert RequestSound(d, i);
    AppendNumbers(d.log, e);
    StaysInOrder(d, i, e);
    SumAppend(h, e, IsApproval);
    assert (h + [e])[..|h|] == h;
  }

  lemma DecideTaxes(d: Desk, i: nat, approve: bool, tax: Option<int>, j: nat)
    requires i < |d.requests| && Decide(d, i, approve, tax).Ok?
    ensures Sum(Decide(d, i, approve, tax).value.taxes, RecordFor(j))
         == Sum(d.taxes, RecordFor(j)) + if approve && j == i then 1 else 0
    ensures approve ==> Sum(d.taxes, RecordFor(i)) == 0
  {
    RecordCount(d.taxes, i);
    if approve { SumAppend(d.taxes, TaxRecord(i, tax.value), RecordFor(j)); }
  }

  lemma DecideRequest(d: Desk, i: nat, approve: bool, tax: Option<int>, j: nat)
    requires Sound(d) && i < |d.requests| && Decide(d, i, approve, tax).Ok? && j < |d.requests|
    requires approve ==> d.requests[i].status == Pending
    ensures RequestSound(Decide(d, i, approve, tax).value, j)
  {
    var d' := Decide(d, i, approve, tax).value;
    var e := d'.log[|d.log|];
    assert RequestSound(d, j);
    DecideTaxes(d, i, approve, tax, j);
    AppendNumbers(d.log, e);
    if i == j { DecidedHistory(d, i, if approve then Approved else Rejected, e); }
  }

  lemma DecideSound(d: Desk, i: nat, approve: bool, tax: Option<int>)
    requires Sound(d) && i < |d.requests| && Decide(d, i, approve, tax).Ok?
    requires approve ==> d.requests[i].status == Pending
    ensures Sound(Decide(d, i, approve, tax).value)
  {
    var d' := Decide(d, i, approve, tax).value;
    AppendNumbers(d.log, d'.log[|d.log|]);
    forall id: nat | id >= |d.requests|
      ensures Sum(d'.taxes, RecordFor(id)) == 0
    {
      DecideTaxes(d, i, approve, tax, id);
    }
    forall j: nat | j < |d'.requests| ensures RequestSound(d', j) { DecideRequest(d, i, approve, tax, j); }
    forall g: nat | g < |d'.grants| ensures GrantSound(d', g) {
      assert GrantSound(d, g);
      assert RequestSound(d, i);
      SumUpdate(d.requests, i, d'.requests[i], Weight(g, true));
    }
  }

  lemma GroundMoves(d: Desk, d': Desk)
    requires Sound(d) && d'.requests == d.requests && d'.log == d.log && d'.taxes == d.taxes && d'.today >= d.today
    requires |d'.grants| == |d.grants| && |d'.employees| == |d.employees|
    requires forall g :: 0 <= g < |d.grants| ==>
        d'.grants[g].total == d.grants[g].total && d'.grants[g].employee == d.grants[g].employee
    ensures Sound(d')
  {
    forall i: nat | i < |d'.requests| ensures RequestSound(d', i) { assert RequestSound(d, i); }
    forall g: nat | g < |d'.grants| ensures GrantSound(d', g) { assert GrantSound(d, g); }
  }

  lemma ApplySound(d: Desk, op: Op)
    requires Sound(d)
    ensures Sound(Apply(d, op))
  {
    if Attempt(d, op).Ok? {
      match op
      case SubmitOp(employee, grant, options) => SubmitSound(d, employee, grant, options);
      case ReviewOp(_, i, approve, tax) => DecideSound(d, i, approve, tax);
      case PauseOp(_, _) => GroundMoves(d, Apply(d, op));
      case JobOp(_, _) => GroundMoves(d, Apply(d, op));
      case DepositOp(_, _) => GroundMoves(d, Apply(d, op));
      case ClockOp(_, _) => GroundMoves(d, Apply(d, op));
    }
  }

  lemma {:induction false} RunSound(d: Desk, ops: seq<Op>)
    requires Sound(d)
    ensures Sound(Run(d, ops))
  {
    if ops != [] {
      RunSound(d, ops[..|ops| - 1]);
      ApplySound(Run(d, ops[..|ops| - 1]), ops[|ops| - 1]);
    }
  }

  // ------------------------------------------------------------ what every run guarantees

  /** Pending plus approved options never exceed the grant. */
  lemma NeverOvercommitted(d: Desk, ops: seq<Op>, g: nat)
    requires Sound(d) && g < |Run(d, ops).grants|
    ensures Committed(Run(d, ops).requests, g, true) <= Run(d, ops).grants[g].total
  {
    RunSound(d, ops);
    assert GrantSound(Run(d, ops), g);
  }

  /** A request is approved at most once; it has one tax record if it ever was
      and none otherwise; and its fold is its stored status. */
  lemma ApprovedOnceTaxedOnce(d: Desk, ops: seq<Op>, i: nat)
    requires Sound(d) && i < |Run(d, ops).requests|
    ensures var c := Run(d, ops); var h := History(c.log, i);
      && Sum(h, IsApproval) <= 1
      && Sum(c.taxes, RecordFor(i)) == Sum(h, IsApproval)
      && (c.requests[i].status == Approved ==> Sum(c.taxes, RecordFor(i)) == 1)
      && Fold(EventsFor(c.log, i, EVERYTHING)) == Some(RequestState(c.requests[i].status, c.requests[i].options))
  {
    RunSound(d, ops);
    var c := Run(d, ops);
    assert RequestSound(c, i);
    EventsForEverything(c.log, i);
    SortOfSorted(History(c.log, i));
  }

  function VestedNow(d: Desk, g: nat): int
    requires g < |d.grants| && d.grants[g].employee < |d.employees| && d.grants[g].schedule.Some?
  {
    VestedOn(d.grants[g].total, d.grants[g].schedule.value, d.employees[d.grants[g].employee], d.today)
  }

  /** The trustee holds the grant and 24 months from allotment and deposit are over. */
  ghost predicate LockOver(d: Desk, g: nat)
    requires g < |d.grants|
  {
    d.grants[g].deposit.Some? && d.today >= HoldingEnd(d.grants[g].grantDay, d.grants[g].deposit).value
  }

  lemma PendingIsUntaxed(d: Desk, i: nat)
    requires Sound(d) && i < |d.requests| && d.requests[i].status == Pending
    ensures !HasTaxRecord(d.taxes, i)
  {
    assert RequestSound(d, i);
    RecordCount(d.taxes, i);
    var h := History(d.log, i);
    assert h[..|h| - 1] == [];
    assert Sum(h[..|h| - 1], IsApproval) == 0;
  }

  /** An administrator of the grant's company, or its trustee. */
  ghost predicate Entitled(approver: Approver, company: nat, trustee: Option<nat>)
  {
    approver == Admin(company) || (trustee.Some? && approver == TrusteeUser(trustee.value))
  }

  /** What a decision stores: the status, one event, and a tax row with the computed
      amount for an approval only. */
  lemma DecisionStores(d: Desk, approver: Approver, i: nat, approve: bool, tax: Option<int>)
    requires Sound(d) && Review(d, approver, i, approve, tax).Ok?
    ensures var d', status := Review(d, approver, i, approve, tax).value, if approve then Approved else Rejected;
      && i < |d.requests| && d'.requests == d.requests[i := d.requests[i].(status := status)]
      && d'.taxes == d.taxes + (if approve then [TaxRecord(i, tax.value)] else [])
      && History(d'.log, i)
          == History(d.log, i) + [Event(i, Decided(status), d.today, d.now, |History(d.log, i)| + 1)]
      && (forall k: nat :: k != i ==> History(d'.log, k) == History(d.log, k))
      && d' == d.(requests := d'.requests, taxes := d'.taxes, log := d'.log)
  {
    var d' := Review(d, approver, i, approve, tax).value;
    AppendNumbers(d.log, d'.log[|d.log|]);
    NextSeqCounts(d.log, i);
  }

  /** Exactly when a rejection goes through, whatever the request's status, and what
      it frees: a pending or approved request no longer takes its options. */
  lemma RejectedIff(d: Desk, approver: Approver, i: nat, tax: Option<int>)
    requires Sound(d) && i < |d.requests|
    ensures d.requests[i].grant < |d.grants|
    ensures var r, g := d.requests[i], d.grants[d.requests[i].grant];
      Review(d, approver, i, false, tax).Ok? <==> Entitled(approver, g.company, g.trustee)
    ensures Review(d, approver, i, false, tax).Ok? ==>
      var d', r := Review(d, approver, i, false, tax).value, d.requests[i];
      && i < |d'.requests| && d'.requests[i] == r.(status := Rejected) && d'.taxes == d.taxes
      && Committed(d'.requests, r.grant, true)
         == Committed(d.requests, r.grant, true) - (if r.status == Rejected then 0 else r.options)
      && Committed(d'.requests, r.grant, false)
         == Committed(d.requests, r.grant, false) - (if r.status == Approved then r.options else 0)
  {
    assert RequestSound(d, i);
    assert GrantSound(d, d.requests[i].grant);
    if Review(d, approver, i, false, tax).Ok? {
      var r := d.requests[i];
      DecisionStores(d, approver, i, false, tax);
      SumUpdate(d.requests, i, r.(status := Rejected), Weight(r.grant, true));
      SumUpdate(d.requests, i, r.(status := Rejected), Weight(r.grant, false));
    }
  }

  /** A refused review names what stood in the way. */
  lemma ReviewRefusalTells(d: Desk, approver: Approver, i: nat, approve: bool, tax: Option<int>)
    requires Sound(d) && Review(d, approver, i, approve, tax).Err?
    ensures i < |d.requests| ==> RequestSound(d, i) && d.grants[d.requests[i].grant].employee < |d.employees|
    ensures match Review(d, approver, i, approve, tax).error
      case NotFound => i >= |d.requests|
      case Forbidden =>
        i < |d.requests|
        && !Entitled(approver, d.grants[d.requests[i].grant].company, d.grants[d.requests[i].grant].trustee)
      case AlreadyDecided(status) => approve && i < |d.requests| && status == d.requests[i].status != Pending
      case NoSchedule => approve && i < |d.requests| && d.grants[d.requests[i].grant].schedule.None?
      case NotAvailable(vested, committed) =>
        && approve && i < |d.requests| && d.grants[d.requests[i].grant].schedule.Some?
        && vested == VestedNow(d, d.requests[i].grant) < d.requests[i].options + committed
        && committed == Committed(d.requests, d.requests[i].grant, false)
      case StillLocked(end) =>
        && approve && i < |d.requests| && d.grants[d.requests[i].grant].trustee.Some?
        && !LockOver(d, d.requests[i].grant)
        && end == HoldingEnd(d.grants[d.requests[i].grant].grantDay, d.grants[d.requests[i].grant].deposit)
      case NoTaxRule => approve && tax.None?
      case _ => false
  {
    if i < |d.requests| {
      assert RequestSound(d, i);
      assert GrantSound(d, d.requests[i].grant);
      if d.requests[i].status == Pending { PendingIsUntaxed(d, i); }
    }
  }

  /** Exactly when an approval goes through: the approver may review it, it is
      still pending, a tax amount exists, it fits what has vested today beside
      everything already approved, and a trustee's lock is over. The unique tax
      row never stops it. */
  lemma ApprovedIff(d: Desk, approver: Approver, i: nat, tax: Option<int>)
    requires Sound(d) && i < |d.requests|
    ensures d.requests[i].grant < |d.grants| && d.grants[d.requests[i].grant].employee < |d.employees|
    ensures var r, g := d.requests[i], d.requests[i].grant;
      Review(d, approver, i, true, tax).Ok? <==>
        && Entitled(approver, d.grants[g].company, d.grants[g].trustee) && r.status == Pending && tax.Some?
        && d.grants[g].schedule.Some? && r.options + Committed(d.requests, g, false) <= VestedNow(d, g)
        && (d.grants[g].trustee.Some? ==> LockOver(d, g))
  {
    assert RequestSound(d, i);
    assert GrantSound(d, d.requests[i].grant);
    if d.requests[i].status == Pending { PendingIsUntaxed(d, i); }
  }

  /** An approval leaves the grant's approved total within what has vested today. */
  lemma ApprovalIsSafe(d: Desk, approver: Approver, i: nat, tax: Option<int>)
    requires Sound(d) && i < |d.requests| && Review(d, approver, i, true, tax).Ok?
    ensures var d', g := Review(d, approver, i, true, tax).value, d.requests[i].grant;
      && g < |d.grants| && d.grants[g].schedule.Some? && d.grants[g].employee < |d.employees|
      && d.requests[i].status == Pending && d'.requests[i].status == Approved
      && Committed(d'.requests, g, false) == Committed(d.requests, g, false) + d.requests[i].options <= VestedNow(d, g)
      && Committed(d'.requests, g, true) == Committed(d.requests, g, true)
  {
    var d', g := Review(d, approver, i, true, tax).value, d.requests[i].grant;
    ApprovedIff(d, approver, i, tax);
    SumUpdate(d.requests, i, d'.requests[i], Weight(g, false));
    SumUpdate(d.requests, i, d'.requests[i], Weight(g, true));
  }

  /** Someone who left may submit until the grant's window, or a year after a
      death, has passed. */
  ghost predicate WindowOpen(d: Desk, g: nat)
    requires g < |d.grants| && d.grants[g].employee < |d.employees|
  {
    var job := d.employees[d.grants[g].employee];
    forall left :: job.termination == Some(left) ==>
      && (job.status == Terminated ==> d.today <= left + d.grants[g].windowDays)
      && (job.status == Deceased ==> d.today <= left + 365)
  }

  /** Exactly when a submission goes through, and what it leaves: everything asked
      for on the grant grows by the request and stays within what has vested. */
  lemma SubmittedIff(d: Desk, employee: nat, grant: nat, options: int)
    ensures Submit(d, employee, grant, options).Ok? <==>
      && grant < |d.grants| && d.grants[grant].employee == employee < |d.employees|
      && WindowOpen(d, grant) && options > 0 && d.grants[grant].schedule.Some?
      && options + Committed(d.requests, grant, true) <= VestedNow(d, grant)
    ensures Submit(d, employee, grant, options).Ok? ==>
      Committed(Submit(d, employee, grant, options).value.requests, grant, true)
          == Committed(d.requests, grant, true) + options
  {
    SumAppend(d.requests, Request(grant, options, Pending, d.today), Weight(grant, true));
    if grant < |d.grants| && d.grants[grant].employee < |d.employees| {
      var deadline := Deadline(d.grants[grant], d.employees[d.grants[grant].employee]);
      assert WindowOpen(d, grant) <==> deadline.None? || d.today <= deadline.value;
    }
  }

  /** What a submission stores: one pending request and its one event. */
  lemma SubmissionStores(d: Desk, employee: nat, grant: nat, options: int)
    requires Sound(d) && Submit(d, employee, grant, options).Ok?
    ensures var d', n := Submit(d, employee, grant, options).value, |d.requests|;
      && d'.requests == d.requests + [Request(grant, options, Pending, d.today)]
      && History(d'.log, n) == [Event(n, Submitted(options), d.today, d.now, 1)]
      && (forall k: nat :: k != n ==> History(d'.log, k) == History(d.log, k))
      && d' == d.(requests := d'.requests, log := d'.log)
  {
    var d' := Submit(d, employee, grant, options).value;
    var e := d'.log[|d.log|];
    AppendNumbers(d.log, e);
    NextSeqCounts(d.log, |d.requests|);
    assert [] + [e] == [e];
  }

  /** A refused submission names what stood in the way. */
  lemma SubmitRefusalTells(d: Desk, employee: nat, grant: nat, options: int)
    requires Submit(d, employee, grant, options).Err?
    ensures match Submit(d, employee, grant, options).error
      case NotFound => grant >= |d.grants|
      case Forbidden => grant < |d.grants| && (d.grants[grant].employee != employee || employee >= |d.employees|)
      case WindowClosed(deadline) =>
        grant < |d.grants| && d.grants[grant].employee < |d.employees| && !WindowOpen(d, grant) && deadline < d.today
      case NotPositive => options <= 0
      case NoSchedule => grant < |d.grants| && d.grants[grant].schedule.None?
      case NotAvailable(vested, committed) =>
        && grant < |d.grants| && d.grants[grant].employee < |d.employees| && d.grants[grant].schedule.Some?
        && vested == VestedNow(d, grant) < options + committed
        && committed == Committed(d.requests, grant, true)
      case _ => false
  {
    if grant < |d.grants| && d.grants[grant].employee < |d.employees| {
      var job := d.employees[d.grants[grant].employee];
      if job.termination.Some? { assert job.termination == Some(job.termination.value); }
    }
  }

  /** A pause of some days is worth a schedule that starts that much later. */
  lemma PauseDelaysGrant(d: Desk, g: nat, days: nat)
    requires g < |d.grants| && d.grants[g].employee < |d.employees| && d.grants[g].schedule.Some?
    ensures var d', s := Apply(d, PauseOp(g, days)), d.grants[g].schedule.value;
      && |d'.grants| == |d.grants| && d' == d.(grants := d'.grants)
      && (forall k :: 0 <= k < |d.grants| && k != g ==> d'.grants[k] == d.grants[k])
      && d'.grants[g] == d.grants[g].(schedule := d'.grants[g].schedule) && d'.grants[g].schedule.Some?
      && VestedNow(d', g)
         == VestedOn(d.grants[g].total, s.(start := AddDays(s.start, days)), d.employees[d.grants[g].employee], d.today)
  {
    var s := d.grants[g].schedule.value;
    AddDaysAdds(s.start, days);
    PausesDelay(d.grants[g].total, s, AddDays(s.start, days), days,
        FromOrdinal(Cutoff(d.employees[d.grants[g].employee], d.today)));
  }

  /** A deposit is recorded if and only if it is not dated before the grant. */
  lemma DepositIff(d: Desk, g: nat, deposit: int)
    ensures Attempt(d, DepositOp(g, deposit)).Ok? <==> g < |d.grants| && d.grants[g].grantDay <= deposit
    ensures Attempt(d, DepositOp(g, deposit)).Ok? ==>
      Apply(d, DepositOp(g, deposit)) == d.(grants := d.grants[g := d.grants[g].(deposit := Some(deposit))])
  {
  }

  lemma ClocksTick(d: Desk, op: Op)
    ensures Apply(d, op).today == d.today + (if op.ClockOp? then op.days else 0)
    ensures Apply(d, op).now == d.now + (if op.ClockOp? then op.instants else 0)
  {
    if op.ReviewOp? && Attempt(d, op).Ok? {
      assert Attempt(d, op) == Decide(d, op.request, op.approve, op.tax);
    }
  }

  /** The clocks never go back. */
  lemma {:induction false} ClocksNeverGoBack(d: Desk, ops: seq<Op>)
    ensures Run(d, ops).today >= d.today && Run(d, ops).now >= d.now
  {
    if ops != [] {
      ClocksNeverGoBack(d, ops[..|ops| - 1]);
      ClocksTick(Run(d, ops[..|ops| - 1]), ops[|ops| - 1]);
    }
  }

  lemma OtherStepsKeepStatus(d: Desk, op: Op, i: nat)
    requires i < |d.requests| && !(op.ReviewOp? && op.request == i)
    ensures i < |Apply(d, op).requests| && Apply(d, op).requests[i] == d.requests[i]
  {
  }

  lemma ReviewOfApproved(d: Desk, approver: Approver, i: nat, approve: bool, tax: Option<int>)
    requires i < |d.requests| && d.requests[i].status == Approved
    requires d.requests[i].grant < |d.grants| && d.grants[d.requests[i].grant].employee < |d.employees|
    ensures Review(d, approver, i, approve, tax).Ok? <==> !approve && MayReview(approver, d.grants[d.requests[i].grant])
    ensures Review(d, approver, i, approve, tax).Ok? ==>
      var d' := Review(d, approver, i, approve, tax).value;
      d'.requests == d.requests[i := d.requests[i].(status := Rejected)] && d'.taxes == d.taxes
  {
  }

  /** A decision is not final: an approved request stops being approved exactly
      when someone entitled to review it rejects it. Its tax record stays. */
  lemma RejectionOverturnsApproval(d: Desk, op: Op, i: nat)
    requires Sound(d) && i < |d.requests| && d.requests[i].status == Approved
    ensures i < |Apply(d, op).requests| && d.requests[i].grant < |d.grants|
    ensures Apply(d, op).requests[i].status != Approved <==>
      op.ReviewOp? && op.request == i && !op.approve && MayReview(op.approver, d.grants[d.requests[i].grant])
    ensures op.ReviewOp? && op.request == i ==> Sum(Apply(d, op).taxes, RecordFor(i)) == 1
  {
    assert RequestSound(d, i);
    assert GrantSound(d, d.requests[i].grant);
    if op.ReviewOp? && op.request == i {
      ReviewOfApproved(d, op.approver, i, op.approve, op.tax);
    } else {
      OtherStepsKeepStatus(d, op, i);
    }
  }

  // ------------------------------------------------------------ the endpoints

  class ExerciseApi {
    const ledger: EventTable<RequestPayload>
    var grants: seq<Grant>
    var employees: seq<Employment>
    var requests: seq<Request>
    var taxes: seq<TaxRecord>
    var today: int
    var now: int

    constructor (grants: seq<Grant>, employees: seq<Employment>, today: int, now: int)
      ensures fresh(ledger) && View() == Desk(grants, employees, [], [], [], today, now)
      ensures (forall g :: 0 <= g < |grants| ==> grants[g].total >= 0 && grants[g].employee < |employees|) ==>
          Sound(View())
    {
      ledger := new EventTable<RequestPayload>();
      requests, taxes := [], [];
      this.grants, this.employees, this.today, this.now := grants, employees, today, now;
    }

    function View(): Desk
      reads this, ledger
    {
      Desk(grants, employees, requests, taxes, ledger.rows, today, now)
    }

    method CreateExerciseRequest(employee: nat, grant: nat, options: int) returns (r: Result<nat, Refusal>)
      modifies this`requests, ledger
      ensures match Submit(old(View()), employee, grant, options)
        case Ok(d) => r == Ok(|old(requests)|) && View() == d
        case Err(e) => r == Err(e) && View() == old(View())
      ensures old(Sound(View())) ==> Sound(View())
    {
      ghost var before := View();
      if grant >= |grants| { return Err(NotFound); }
      if grants[grant].employee != employee || employee >= |employees| { return Err(Forbidden); }
      var deadline := Deadline(grants[grant], employees[employee]);
      if deadline.Some? && today > deadline.value { return Err(WindowClosed(deadline.value)); }
      if options <= 0 { return Err(NotPositive); }
      var vested := VestedToday(View(), grant);
      if vested.None? { return Err(NoSchedule); }
      var committed := Committed(requests, grant, true);
      if options + committed > vested.value { return Err(NotAvailable(vested.value, committed)); }
      var id := |requests|;
      requests := requests + [Request(grant, options, Pending, today)];
      var _ := ledger.AppendEvent(id, Submitted(options), today, now);
      if Sound(before) { SubmitSound(before, employee, grant, options); }
      r := Ok(id);
    }

    /** Both review endpoints: the approver's right differs, the rest is shared.
        The tax row is added before the status, and a failing one writes nothing. */
    method ReviewExerciseRequest(approver: Approver, i: nat, approve: bool, tax: Option<int>)
      returns (r: Result<Decision, Refusal>)
      modifies this`requests, this`taxes, ledger
      ensures match Review(old(View()), approver, i, approve, tax)
        case Ok(d) => r == Ok(if approve then Approved else Rejected) && View() == d
        case Err(e) => r == Err(e) && View() == old(View())
      ensures old(Sound(View())) ==> Sound(View())
    {
      ghost var before := View();
      if i >= |requests| || requests[i].grant >= |grants| || grants[requests[i].grant].employee >= |employees| {
        return Err(NotFound);
      }
      if !MayReview(approver, grants[requests[i].grant]) { return Err(Forbidden); }
      if approve {
        var problem := ApprovalError(View(), i);
        if problem.Some? { return Err(problem.value); }
        if tax.None? { return Err(NoTaxRule); }
        if exists t :: t in taxes && t.request == i { return Err(DuplicateTaxRecord); }
      }
      var status := if approve then Approved else Rejected;
      requests := requests[i := requests[i].(status := status)];
      if approve { taxes := taxes + [TaxRecord(i, tax.value)]; }
      var _ := ledger.AppendEvent(i, Decided(status), today, now);
      if Sound(before) { DecideSound(before, i, approve, tax); }
      r := Ok(status);
    }
  }
}
