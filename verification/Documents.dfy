/**
 Documents and their acknowledgment: versions, the status machine, expiry that
 happens only when a document is loaded, and the freeze trigger.
 */
module Documents {
  import opened Wrappers
  import opened Ledger

  datatype Status = Draft | Sent | Acknowledged | Declined | Expired

  /** Whose document it is: the company of the grant's pool, the employee, and the
      trustee if there is one. */
  datatype Owner = Owner(company: nat, employee: nat, trustee: Option<nat>)

  /** content stands for the other columns written once: file path and hash,
      generation time. Documents are numbered by their position. */
  datatype Doc = Doc(
    owner: Owner,
    grant: nat,
    template: string,
    content: nat,
    version: int,
    isLatest: bool,
    status: Status,
    sentAt: Option<int>,
    expiresAt: Option<int>,
    acknowledgedAt: Option<int>)

  /** windowDays and overrides are the deadlines set by companies, for all of
      their documents or for one template; grants says who owns each grant. */
  datatype Shelf = Shelf(
    docs: seq<Doc>, now: int, grants: seq<Owner>, windowDays: map<nat, int>, overrides: map<(nat, string), int>)

  datatype User = Admin(company: nat) | Staff(employee: nat) | TrusteeUser(trustee: nat)

  datatype Refusal =
    | UnknownTemplate
    | NotFound
    | Forbidden
    | NotRendered
    | Superseded
    | Already(current: Status)
    | Final(current: Status)
    | NotAllowed(current: Status, target: Status)

  /** What a request answers with. */
  datatype Response = Refused(reason: Refusal) | Shown(docs: seq<Doc>)

  const TEMPLATES := {"GRANT_LETTER", "SECTION_102_APPENDIX", "TRUSTEE_DEPOSIT_CONFIRMATION"}

  const DAY := 24 * 60 * 60
  const DEFAULT_WINDOW_DAYS := 30

  // ------------------------------------------------------------ expiry

  predicate Due(d: Doc, now: int) { d.status == Sent && d.expiresAt.Some? && now > d.expiresAt.value }

  function Swept(d: Doc, now: int): Doc { if Due(d, now) then d.(status := Expired) else d }

  /** expire_due on the listed documents */
  function Sweep(s: Shelf, ids: seq<nat>): Shelf
  {
    s.(docs := seq(|s.docs|, i requires 0 <= i < |s.docs| => if i in ids then Swept(s.docs[i], s.now) else s.docs[i]))
  }

  function AllSwept(docs: seq<Doc>, now: int): seq<Doc>
  {
    seq(|docs|, i requires 0 <= i < |docs| => Swept(docs[i], now))
  }

  /** Every document as an expirer that never sleeps would hold it. */
  function SweepAll(s: Shelf): Shelf
  {
    s.(docs := AllSwept(s.docs, s.now))
  }

  // ------------------------------------------------------------ the status machine

  predicate Allowed(current: Status, target: Status)
  {
    (current == Draft && target == Sent)
    || (current == Sent && (target == Acknowledged || target == Declined || target == Expired))
  }

  predicate Terminal(status: Status) { status == Acknowledged || status == Declined || status == Expired }

  /** assert_is_current_version, then assert_transition_allowed */
  function TransitionError(d: Doc, target: Status): Option<Refusal>
  {
    if !d.isLatest then Some(Superseded)
    else if d.status == target then Some(Already(d.status))
    else if Allowed(d.status, target) then None
    else if Terminal(d.status) then Some(Final(d.status))
    else Some(NotAllowed(d.status, target))
  }

  /** resolve_acknowledgment_window_days */
  function WindowFor(s: Shelf, company: nat, template: string): int
  {
    if (company, template) in s.overrides then s.overrides[(company, template)]
    else if company in s.windowDays then s.windowDays[company]
    else DEFAULT_WINDOW_DAYS
  }

  /** assert_document_access */
  predicate MayOpen(user: User, d: Doc)
  {
    match user
    case Admin(company) => d.owner.company == company
    case Staff(employee) => d.owner.employee == employee
    case TrusteeUser(trustee) => d.owner.trustee == Some(trustee)
  }

  function Moved(s: Shelf, d: Doc, target: Status): Doc
  {
    match target
    case Sent =>
      var deadline := s.now + WindowFor(s, d.owner.company, d.template) * DAY;
      d.(status := Sent, sentAt := Some(s.now), expiresAt := Some(deadline))
    case Acknowledged => d.(status := Acknowledged, acknowledgedAt := Some(s.now))
    case _ => d.(status := target)
  }

  // ------------------------------------------------------------ versions

  predicate SameKey(a: Doc, b: Doc) { a.grant == b.grant && a.template == b.template }

  /** The position of the key's latest document, or the table's length. */
  function FindLatest(docs: seq<Doc>, grant: nat, template: string): (i: nat)
    ensures i <= |docs|
    ensures i < |docs| ==> docs[i].grant == grant && docs[i].template == template && docs[i].isLatest
    ensures i == |docs| ==>
      forall k :: 0 <= k < |docs| ==> !(docs[k].grant == grant && docs[k].template == template && docs[k].isLatest)
  {
    if docs == [] then 0
    else
      var n := |docs| - 1;
      var i := FindLatest(docs[..n], grant, template);
      if i < n then i
      else if docs[n].grant == grant && docs[n].template == template && docs[n].isLatest then n
      else n + 1
  }

  function Generated(s: Shelf, owner: Owner, grant: nat, template: string, content: nat): Shelf
  {
    var previous := FindLatest(s.docs, grant, template);
    var version := if previous < |s.docs| then s.docs[previous].version + 1 else 1;
    var older := if previous < |s.docs| then s.docs[previous := s.docs[previous].(isLatest := false)] else s.docs;
    s.(docs := older + [Doc(owner, grant, template, content, version, true, Draft, None, None, None)])
  }

  function GenerateError(s: Shelf, company: nat, grant: nat, template: string, rendered: bool): Option<Refusal>
  {
    if template !in TEMPLATES then Some(UnknownTemplate)
    else if grant >= |s.grants| then Some(NotFound)
    else if s.grants[grant].company != company then Some(Forbidden)
    else if !rendered then Some(NotRendered)
    else None
  }

  // ------------------------------------------------------------ requests

  datatype Op =
    | Generate(company: nat, grant: nat, template: string, content: nat, rendered: bool)
    | Act(user: User, id: nat, target: Status)
    | List(ids: seq<nat>)
    | Clock(instants: nat)

  /** Administrators send; employees and trustees acknowledge or decline. */
  predicate Requestable(op: Op)
  {
    op.Act? ==> if op.user.Admin? then op.target == Sent else op.target == Acknowledged || op.target == Declined
  }

  function Pick(s: Shelf, ids: seq<nat>): seq<Doc>
  {
    if ids == [] then []
    else
      var rest := Pick(s, ids[..|ids| - 1]);
      if ids[|ids| - 1] < |s.docs| then rest + [s.docs[ids[|ids| - 1]]] else rest
  }

  /** The endpoints: a document is loaded, its access checked, swept, acted on, and
      swept again for the answer. A refused action keeps the sweep. */
  function Lazy(s: Shelf, op: Op): (Shelf, Response)
  {
    match op
    case Generate(company, grant, template, content, rendered) =>
      var error := GenerateError(s, company, grant, template, rendered);
      if error.Some? then (s, Refused(error.value))
      else
        var s' := Generated(s, s.grants[grant], grant, template, content);
        (Sweep(s', [|s.docs|]), Shown(Pick(Sweep(s', [|s.docs|]), [|s.docs|])))
    case Act(user, id, target) =>
      if id >= |s.docs| then (s, Refused(NotFound))
      else if !MayOpen(user, s.docs[id]) then (s, Refused(Forbidden))
      else
        var loaded := Sweep(s, [id]);
        var d := loaded.docs[id];
        var error := TransitionError(d, target);
        if error.Some? then (loaded, Refused(error.value))
        else
          var s' := Sweep(loaded.(docs := loaded.docs[id := Moved(loaded, d, target)]), [id]);
          (s', Shown(Pick(s', [id])))
    case List(ids) => (Sweep(s, ids), Shown(Pick(Sweep(s, ids), ids)))
    case Clock(instants) => (s.(now := s.now + instants), Shown([]))
  }

  /** The reference: expiry happens as the clock moves, requests never sweep. */
  function Eager(s: Shelf, op: Op): (Shelf, Response)
  {
    match op
    case Generate(company, grant, template, content, rendered) =>
      var error := GenerateError(s, company, grant, template, rendered);
      if error.Some? then (s, Refused(error.value))
      else
        var s' := Generated(s, s.grants[grant], grant, template, content);
        (s', Shown(Pick(s', [|s.docs|])))
    case Act(user, id, target) =>
      if id >= |s.docs| then (s, Refused(NotFound))
      else if !MayOpen(user, s.docs[id]) then (s, Refused(Forbidden))
      else
        var d := s.docs[id];
        var error := TransitionError(d, target);
        if error.Some? then (s, Refused(error.value))
        else
          var s' := s.(docs := s.docs[id := Moved(s, d, target)]);
          (s', Shown(Pick(s', [id])))
    case List(ids) => (s, Shown(Pick(s, ids)))
    case Clock(instants) => (SweepAll(s.(now := s.now + instants)), Shown([]))
  }

  function LazyRun(s: Shelf, ops: seq<Op>): Shelf
  {
    if ops == [] then s else Lazy(LazyRun(s, ops[..|ops| - 1]), ops[|ops| - 1]).0
  }

  function EagerRun(s: Shelf, ops: seq<Op>): Shelf
  {
    if ops == [] then s else Eager(EagerRun(s, ops[..|ops| - 1]), ops[|ops| - 1]).0
  }

  /** CHECK constraints on the two window columns. */
  ghost predicate WindowsPositive(s: Shelf)
  {
    && (forall company :: company in s.windowDays ==> s.windowDays[company] > 0)
    && (forall key :: key in s.overrides ==> s.overrides[key] > 0)
  }

  // ------------------------------------------------------------ lazy expiry is exact

  lemma SweepIsHidden(s: Shelf, ids: seq<nat>)
    ensures SweepAll(Sweep(s, ids)) == SweepAll(s)
  {
    assert SweepAll(Sweep(s, ids)).docs == SweepAll(s).docs;
  }

  lemma {:induction false} PickSwept(s: Shelf, ids: seq<nat>, shown: seq<nat>)
    requires forall i :: i in shown ==> i in ids
    ensures Pick(Sweep(s, ids), shown) == Pick(SweepAll(s), shown)
  {
    if shown != [] {
      assert shown[|shown| - 1] in shown;
      PickSwept(s, ids, shown[..|shown| - 1]);
    }
  }

  lemma {:induction false} FindLatestSwept(docs: seq<Doc>, now: int, grant: nat, template: string)
    ensures FindLatest(AllSwept(docs, now), grant, template) == FindLatest(docs, grant, template)
  {
    if docs != [] {
      var n := |docs| - 1;
      assert AllSwept(docs, now)[..n] == AllSwept(docs[..n], now);
      FindLatestSwept(docs[..n], now, grant, template);
    }
  }

  lemma GenerateAgrees(s: Shelf, owner: Owner, grant: nat, template: string, content: nat)
    ensures SweepAll(Generated(s, owner, grant, template, content))
        == Generated(SweepAll(s), owner, grant, template, content)
  {
    FindLatestSwept(s.docs, s.now, grant, template);
    assert SweepAll(Generated(s, owner, grant, template, content)).docs
        == Generated(SweepAll(s), owner, grant, template, content).docs;
  }

  lemma MovedIsNotDue(s: Shelf, d: Doc, target: Status)
    requires WindowsPositive(s) && (target == Sent || target == Acknowledged || target == Declined)
    ensures !Due(Moved(s, d, target), s.now)
  {
  }

  lemma ActAgrees(s: Shelf, user: User, id: nat, target: Status)
    requires WindowsPositive(s) && id < |s.docs| && Requestable(Act(user, id, target))
    ensures SweepAll(Lazy(s, Act(user, id, target)).0) == Eager(SweepAll(s), Act(user, id, target)).0
    ensures Lazy(s, Act(user, id, target)).1 == Eager(SweepAll(s), Act(user, id, target)).1
  {
    var loaded, eager := Sweep(s, [id]), SweepAll(s);
    SweepIsHidden(s, [id]);
    assert loaded.docs[id] == eager.docs[id];
    if MayOpen(user, s.docs[id]) && TransitionError(loaded.docs[id], target).None? {
      var moved := Moved(loaded, loaded.docs[id], target);
      MovedIsNotDue(loaded, loaded.docs[id], target);
      var next := loaded.(docs := loaded.docs[id := moved]);
      SweepIsHidden(next, [id]);
      assert SweepAll(next).docs == eager.docs[id := moved];
      PickSwept(next, [id], [id]);
    }
  }

  /** One request on the lazy system and on the reference: same answer, and the
      stored documents differ only by expiries nobody has looked at yet. */
  lemma LazyIsEager(s: Shelf, op: Op)
    requires WindowsPositive(s) && Requestable(op)
    ensures SweepAll(Lazy(s, op).0) == Eager(SweepAll(s), op).0
    ensures Lazy(s, op).1 == Eager(SweepAll(s), op).1
  {
    match op
    case Generate(company, grant, template, content, rendered) =>
      if GenerateError(s, company, grant, template, rendered).None? {
        GenerateAgrees(s, s.grants[grant], grant, template, content);
        var s' := Generated(s, s.grants[grant], grant, template, content);
        SweepIsHidden(s', [|s.docs|]);
        PickSwept(s', [|s.docs|], [|s.docs|]);
      }
    case Act(user, id, target) =>
      if id < |s.docs| { ActAgrees(s, user, id, target); }
    case List(ids) =>
      SweepIsHidden(s, ids);
      PickSwept(s, ids, ids);
    case Clock(instants) =>
      assert SweepAll(s.(now := s.now + instants)).docs == SweepAll(SweepAll(s).(now := s.now + instants)).docs;
  }

  lemma ClockTicks(s: Shelf, op: Op)
    ensures Lazy(s, op).0.now == s.now + if op.Clock? then op.instants else 0
  {
    match op
    case Generate(company, grant, template, _, rendered) =>
      assert GenerateError(s, company, grant, template, rendered).Some? ==> Lazy(s, op).0 == s;
    case Act(user, id, target) =>
    case List(ids) =>
    case Clock(instants) =>
  }

  /** The clock never goes back. */
  lemma {:induction false} ClockNeverGoesBack(s: Shelf, ops: seq<Op>)
    ensures LazyRun(s, ops).now >= s.now
  {
    if ops != [] {
      ClockNeverGoesBack(s, ops[..|ops| - 1]);
      ClockTicks(LazyRun(s, ops[..|ops| - 1]), ops[|ops| - 1]);
    }
  }

  /** Over every run the lazy system answers every request as the reference does. */
  lemma {:induction false} LazyRunIsEagerRun(s: Shelf, ops: seq<Op>)
    requires WindowsPositive(s) && forall op :: op in ops ==> Requestable(op)
    ensures SweepAll(LazyRun(s, ops)) == EagerRun(SweepAll(s), ops)
    ensures WindowsPositive(LazyRun(s, ops))
    ensures ops != [] ==>
      Lazy(LazyRun(s, ops[..|ops| - 1]), ops[|ops| - 1]).1
          == Eager(EagerRun(SweepAll(s), ops[..|ops| - 1]), ops[|ops| - 1]).1
  {
    if ops != [] {
      LazyRunIsEagerRun(s, ops[..|ops| - 1]);
      LazyIsEager(LazyRun(s, ops[..|ops| - 1]), ops[|ops| - 1]);
    }
  }

  /** From sending to expiry: a document sent now and left alone is shown as
      expired exactly when strictly more than its window has passed. The company's
      window for its template comes first, then the company's, then thirty days. */
  lemma SentExpiresIff(s: Shelf, user: User, id: nat, instants: nat)
    requires id < |s.docs| && Lazy(s, Act(user, id, Sent)).1.Shown? && WindowsPositive(s)
    ensures var later := Lazy(Lazy(s, Act(user, id, Sent)).0, Clock(instants)).0;
      var shown := Lazy(later, List([id])).1;
      var company, template := s.docs[id].owner.company, s.docs[id].template;
      var window := if (company, template) in s.overrides then s.overrides[(company, template)]
                    else if company in s.windowDays then s.windowDays[company] else 30;
      && shown.Shown? && |shown.docs| == 1
      && (shown.docs[0].status == Expired <==> instants > window * 86400)
      && (shown.docs[0].status != Expired ==> shown.docs[0].status == Sent)
  {
    var sent := Lazy(s, Act(user, id, Sent)).0;
    var later := Lazy(sent, Clock(instants)).0;
    var swept := Sweep(later, [id]);
    assert [id][..0] == [];
    assert Pick(swept, [id]) == [swept.docs[id]];
    assert sent.docs[id].status == Sent;
  }

  /** Exactly when an action goes through: whoever may open the latest version may
      send a draft, and acknowledge, decline or expire a sent document whose deadline
      has not passed, swept yet or not. */
  lemma ActedIff(s: Shelf, user: User, id: nat, target: Status)
    ensures Lazy(s, Act(user, id, target)).1.Shown? <==>
      && id < |s.docs| && s.docs[id].isLatest
      && (match user
          case Admin(company) => s.docs[id].owner.company == company
          case Staff(employee) => s.docs[id].owner.employee == employee
          case TrusteeUser(trustee) => s.docs[id].owner.trustee == Some(trustee))
      && (if target == Sent then s.docs[id].status == Draft
          else (target != Draft && s.docs[id].status == Sent
                && (s.docs[id].expiresAt.Some? ==> s.now <= s.docs[id].expiresAt.value)))
  {
    if id < |s.docs| { assert Sweep(s, [id]).docs[id] == Swept(s.docs[id], s.now); }
  }

  lemma PickOne(s: Shelf, id: nat)
    requires id < |s.docs|
    ensures Pick(s, [id]) == [s.docs[id]]
  {
    assert [id][..0] == [];
    assert [] + [s.docs[id]] == [s.docs[id]];
  }

  /** What an action that goes through stores and shows: the status asked for, the
      time it was sent or acknowledged, the deadline of a sent one, and nothing else. */
  lemma ActStores(s: Shelf, user: User, id: nat, target: Status)
    requires WindowsPositive(s) && Lazy(s, Act(user, id, target)).1.Shown?
    ensures var (s', r) := Lazy(s, Act(user, id, target));
      && id < |s.docs| && |s'.docs| == |s.docs| && s' == s.(docs := s'.docs) && r.docs == [s'.docs[id]]
      && (forall k :: 0 <= k < |s.docs| && k != id ==> s'.docs[k] == s.docs[k])
      && var d, d' := s.docs[id], s'.docs[id];
      && d'.status == target
      && d'.acknowledgedAt == (if target == Acknowledged then Some(s.now) else d.acknowledgedAt)
      && d'.sentAt == (if target == Sent then Some(s.now) else d.sentAt)
      && d'.expiresAt == (if target == Sent then Some(s.now + WindowFor(s, d.owner.company, d.template) * 86400)
                          else d.expiresAt)
      && d' == d.(status := d'.status, sentAt := d'.sentAt, expiresAt := d'.expiresAt,
                  acknowledgedAt := d'.acknowledgedAt)
  {
    assert Sweep(s, [id]).docs[id] == Swept(s.docs[id], s.now);
    PickOne(Lazy(s, Act(user, id, target)).0, id);
  }

  /** A refusal names what stood in the way, the document's status as of now with it. */
  lemma RefusalTells(s: Shelf, user: User, id: nat, target: Status)
    requires Lazy(s, Act(user, id, target)).1.Refused?
    ensures var reason := Lazy(s, Act(user, id, target)).1.reason;
      match reason
      case NotFound => id >= |s.docs|
      case Forbidden => id < |s.docs| && !MayOpen(user, s.docs[id])
      case Superseded => id < |s.docs| && !s.docs[id].isLatest
      case Already(current) => id < |s.docs| && current == Swept(s.docs[id], s.now).status == target
      case Final(current) =>
        id < |s.docs| && current == Swept(s.docs[id], s.now).status != Draft && current != Sent
      case NotAllowed(current, asked) =>
        id < |s.docs| && asked == target && current == Swept(s.docs[id], s.now).status
        && (current == Draft || current == Sent)
      case _ => false
  {
    if id < |s.docs| { assert Sweep(s, [id]).docs[id] == Swept(s.docs[id], s.now); }
  }

  lemma {:induction false} PickIs(s: Shelf, ids: seq<nat>)
    requires forall k :: 0 <= k < |ids| ==> ids[k] < |s.docs|
    ensures |Pick(s, ids)| == |ids| && forall k :: 0 <= k < |ids| ==> Pick(s, ids)[k] == s.docs[ids[k]]
  {
    if ids != [] {
      PickIs(s, ids[..|ids| - 1]);
    }
  }

  /** A list shows each document as stored, but a sent one past its deadline as
      expired. */
  lemma ListShows(s: Shelf, ids: seq<nat>, k: nat)
    requires (forall j :: 0 <= j < |ids| ==> ids[j] < |s.docs|) && k < |ids|
    ensures var r := Lazy(s, List(ids)).1; var d := s.docs[ids[k]];
      && r.Shown? && |r.docs| == |ids|
      && r.docs[k] == d.(status := if d.status == Sent && d.expiresAt.Some? && s.now > d.expiresAt.value
                                   then Expired else d.status)
  {
    PickIs(Sweep(s, ids), ids);
    assert ids[k] in ids;
  }

  /** What generating stores and shows: a draft of the grant's owner, marked latest;
      earlier documents keep everything but their mark. */
  lemma GeneratedDraft(s: Shelf, company: nat, grant: nat, template: string, content: nat, rendered: bool)
    requires Lazy(s, Generate(company, grant, template, content, rendered)).1.Shown?
    ensures var (s', r) := Lazy(s, Generate(company, grant, template, content, rendered)); var n := |s.docs|;
      && grant < |s.grants| && |s'.docs| == n + 1 && s' == s.(docs := s'.docs) && r.docs == [s'.docs[n]]
      && s'.docs[n]
         == Doc(s.grants[grant], grant, template, content, s'.docs[n].version, true, Draft, None, None, None)
      && forall k :: 0 <= k < n ==> s'.docs[k] == s.docs[k].(isLatest := s'.docs[k].isLatest)
  {
    PickOne(Lazy(s, Generate(company, grant, template, content, rendered)).0, |s.docs|);
  }

  /** Exactly when a document is generated. */
  lemma GeneratedIff(s: Shelf, company: nat, grant: nat, template: string, content: nat, rendered: bool)
    ensures Lazy(s, Generate(company, grant, template, content, rendered)).1.Shown? <==>
      && (template == "GRANT_LETTER" || template == "SECTION_102_APPENDIX"
          || template == "TRUSTEE_DEPOSIT_CONFIRMATION")
      && grant < |s.grants| && s.grants[grant].company == company && rendered
    ensures var r := Lazy(s, Generate(company, grant, template, content, rendered)).1;
      r.Refused? ==>
        match r.reason
        case UnknownTemplate => template !in TEMPLATES
        case NotFound => grant >= |s.grants|
        case Forbidden => grant < |s.grants| && s.grants[grant].company != company
        case NotRendered => !rendered
        case _ => false
  {
  }

  /** What an action can do to the stored documents. */
  lemma ActEffect(s: Shelf, user: User, id: nat, target: Status)
    ensures var docs' := Lazy(s, Act(user, id, target)).0.docs;
      && |docs'| == |s.docs|
      && (forall k :: 0 <= k < |s.docs| && k != id ==> docs'[k] == s.docs[k])
      && (id < |s.docs| ==>
            var d := Swept(s.docs[id], s.now);
            || docs'[id] == s.docs[id] || docs'[id] == d
            || (TransitionError(d, target).None? && docs'[id] == Swept(Moved(s, d, target), s.now)))
  {
  }

  predicate Forward(before: Status, after: Status)
  {
    before == after || (before == Draft && after == Sent)
    || (before == Sent && (after == Acknowledged || after == Declined || after == Expired))
  }

  /** A request moves a document one step forward or not at all, and expires it
      only after its deadline. */
  lemma StatusMovesForward(s: Shelf, op: Op, i: nat)
    requires i < |s.docs| && Requestable(op) && WindowsPositive(s)
    ensures i < |Lazy(s, op).0.docs| && Forward(s.docs[i].status, Lazy(s, op).0.docs[i].status)
    ensures s.docs[i].status != Expired && Lazy(s, op).0.docs[i].status == Expired ==>
      s.docs[i].expiresAt.Some? && s.now > s.docs[i].expiresAt.value
  {
    if op.Act? {
      ActEffect(s, op.user, op.id, op.target);
      MovedIsNotDue(s, Swept(s.docs[i], s.now), op.target);
    }
  }

  /** Over every run what was acknowledged, declined or expired stays so. */
  lemma {:induction false} FinalStaysFinal(s: Shelf, ops: seq<Op>, i: nat)
    requires i < |s.docs| && Terminal(s.docs[i].status) && WindowsPositive(s)
    requires forall op :: op in ops ==> Requestable(op)
    ensures i < |LazyRun(s, ops).docs| && LazyRun(s, ops).docs[i].status == s.docs[i].status
    ensures WindowsPositive(LazyRun(s, ops))
  {
    if ops != [] {
      FinalStaysFinal(s, ops[..|ops| - 1], i);
      StatusMovesForward(LazyRun(s, ops[..|ops| - 1]), ops[|ops| - 1], i);
    }
  }

  // ------------------------------------------------------------ the freeze trigger

  /** trg_documents_no_update_once_acknowledged: everything but isLatest is frozen. */
  predicate TriggerAborts(before: Doc, after: Doc)
  {
    before.status == Acknowledged && after.(isLatest := before.isLatest) != before
  }

  /** No request ever trips the trigger: an acknowledged row changes, if at all,
      only in isLatest, and that only when a new version replaces it. */
  lemma AcknowledgedIsFrozen(s: Shelf, op: Op, i: nat)
    requires i < |s.docs| && s.docs[i].status == Acknowledged
    ensures i < |Lazy(s, op).0.docs| && !TriggerAborts(s.docs[i], Lazy(s, op).0.docs[i])
    ensures Lazy(s, op).0.docs[i] != s.docs[i] ==>
      op.Generate? && op.grant == s.docs[i].grant && op.template == s.docs[i].template && s.docs[i].isLatest
  {
    if op.Act? { ActEffect(s, op.user, op.id, op.target); }
  }

  /** Over every run an acknowledged document keeps every frozen column, and once
      it is no longer the latest it never is again. */
  lemma {:induction false} AcknowledgedStaysFrozen(s: Shelf, ops: seq<Op>, i: nat)
    requires i < |s.docs| && s.docs[i].status == Acknowledged
    ensures i < |LazyRun(s, ops).docs| && !TriggerAborts(s.docs[i], LazyRun(s, ops).docs[i])
    ensures LazyRun(s, ops).docs[i].isLatest ==> s.docs[i].isLatest
  {
    if ops != [] {
      AcknowledgedStaysFrozen(s, ops[..|ops| - 1], i);
      AcknowledgedIsFrozen(LazyRun(s, ops[..|ops| - 1]), ops[|ops| - 1], i);
    }
  }

  // ------------------------------------------------------------ versions over runs

  function OfKey(grant: nat, template: string): Doc -> int
  {
    (d: Doc) => if d.grant == grant && d.template == template then 1 else 0
  }

  ghost predicate NoneFollows(docs: seq<Doc>, i: nat)
    requires i < |docs|
  {
    forall j :: i < j < |docs| ==> !SameKey(docs[i], docs[j])
  }

  /** A document's version counts the documents of its key up to and including
      it, and it is the latest exactly when no other follows. */
  ghost predicate InPlace(docs: seq<Doc>, i: nat)
    requires i < |docs|
  {
    && docs[i].version == Sum(docs[..i], OfKey(docs[i].grant, docs[i].template)) + 1
    && (docs[i].isLatest <==> NoneFollows(docs, i))
  }

  ghost predicate Versioned(docs: seq<Doc>)
  {
    forall i: nat :: i < |docs| ==> InPlace(docs, i)
  }

  lemma {:induction false} SumSameKeys(a: seq<Doc>, b: seq<Doc>, grant: nat, template: string)
    requires |a| == |b| && forall k :: 0 <= k < |a| ==> SameKey(a[k], b[k])
    ensures Sum(a, OfKey(grant, template)) == Sum(b, OfKey(grant, template))
  {
    if a != [] { SumSameKeys(a[..|a| - 1], b[..|b| - 1], grant, template); }
  }

  ghost predicate SameKeys(docs: seq<Doc>, docs': seq<Doc>)
  {
    |docs'| == |docs| && forall k :: 0 <= k < |docs| ==> SameKey(docs[k], docs'[k])
  }

  lemma NoneFollowsSame(docs: seq<Doc>, docs': seq<Doc>, i: nat)
    requires SameKeys(docs, docs') && i < |docs| && NoneFollows(docs, i)
    ensures NoneFollows(docs', i)
  {
    forall j | i < j < |docs'| ensures !SameKey(docs'[i], docs'[j]) {
      assert SameKey(docs[i], docs'[i]) && SameKey(docs[j], docs'[j]) && !SameKey(docs[i], docs[j]);
    }
  }

  /** Changes that leave key, version and isLatest alone keep the numbering. */
  lemma StatusChangesKeepVersions(docs: seq<Doc>, docs': seq<Doc>)
    requires Versioned(docs) && SameKeys(docs, docs')
    requires forall k :: 0 <= k < |docs| ==>
      docs'[k].version == docs[k].version && docs'[k].isLatest == docs[k].isLatest
    ensures Versioned(docs')
  {
    forall i: nat | i < |docs'| ensures InPlace(docs', i) {
      assert SameKey(docs[i], docs'[i]) && InPlace(docs, i);
      SumSameKeys(docs[..i], docs'[..i], docs[i].grant, docs[i].template);
      if NoneFollows(docs, i) { NoneFollowsSame(docs, docs', i); }
      if NoneFollows(docs', i) { NoneFollowsSame(docs', docs, i); }
    }
  }

  lemma {:induction false} NoneOfKey(docs: seq<Doc>, grant: nat, template: string)
    requires forall k :: 0 <= k < |docs| ==> !(docs[k].grant == grant && docs[k].template == template)
    ensures Sum(docs, OfKey(grant, template)) == 0
  {
    if docs != [] { NoneOfKey(docs[..|docs| - 1], grant, template); }
  }

  lemma {:induction false} NoneAfter(docs: seq<Doc>, i: nat, grant: nat, template: string)
    requires i < |docs| && docs[i].grant == grant && docs[i].template == template
    requires forall k :: i < k < |docs| ==> !(docs[k].grant == grant && docs[k].template == template)
    ensures Sum(docs, OfKey(grant, template)) == Sum(docs[..i], OfKey(grant, template)) + 1
  {
    var n := |docs| - 1;
    if i < n {
      assert docs[..n][..i] == docs[..i];
      NoneAfter(docs[..n], i, grant, template);
    }
  }

  /** The last position below n with the key, or -1. */
  function LastOfKey(docs: seq<Doc>, n: nat, grant: nat, template: string): (last: int)
    requires n <= |docs|
    ensures -1 <= last < n
    ensures last >= 0 ==> docs[last].grant == grant && docs[last].template == template
    ensures forall k :: last < k < n ==> !(docs[k].grant == grant && docs[k].template == template)
  {
    if n == 0 then -1
    else if docs[n - 1].grant == grant && docs[n - 1].template == template then n - 1
    else LastOfKey(docs, n - 1, grant, template)
  }

  /** A key with a document has a latest one. */
  lemma KeyHasLatest(docs: seq<Doc>, k: nat)
    requires Versioned(docs) && k < |docs|
    ensures exists m :: 0 <= m < |docs| && SameKey(docs[k], docs[m]) && docs[m].isLatest
  {
    var grant, template := docs[k].grant, docs[k].template;
    var last := LastOfKey(docs, |docs|, grant, template);
    assert last >= k;
    assert InPlace(docs, last);
  }

  lemma FindsLatest(docs: seq<Doc>, k: nat)
    requires Versioned(docs) && k < |docs|
    ensures FindLatest(docs, docs[k].grant, docs[k].template) < |docs|
  {
    KeyHasLatest(docs, k);
    var m :| 0 <= m < |docs| && SameKey(docs[k], docs[m]) && docs[m].isLatest;
    assert docs[m].grant == docs[k].grant && docs[m].template == docs[k].template;
  }

  lemma NoLatestNoKey(docs: seq<Doc>, grant: nat, template: string)
    requires Versioned(docs) && FindLatest(docs, grant, template) == |docs|
    ensures forall k :: 0 <= k < |docs| ==> !(docs[k].grant == grant && docs[k].template == template)
  {
    forall k | 0 <= k < |docs| ensures !(docs[k].grant == grant && docs[k].template == template) {
      FindsLatest(docs, k);
    }
  }

  lemma NextVersion(s: Shelf, owner: Owner, grant: nat, template: string, content: nat)
    requires Versioned(s.docs)
    ensures Generated(s, owner, grant, template, content).docs[|s.docs|].version
        == Sum(s.docs, OfKey(grant, template)) + 1
  {
    var previous := FindLatest(s.docs, grant, template);
    if previous < |s.docs| {
      assert InPlace(s.docs, previous);
      NoneAfter(s.docs, previous, grant, template);
    } else {
      NoLatestNoKey(s.docs, grant, template);
      NoneOfKey(s.docs, grant, template);
    }
  }

  lemma OtherKeysFollow(s: Shelf, owner: Owner, grant: nat, template: string, content: nat, i: nat)
    requires i < |s.docs| && !(s.docs[i].grant == grant && s.docs[i].template == template)
    ensures var docs' := Generated(s, owner, grant, template, content).docs;
      docs'[i] == s.docs[i] && (NoneFollows(docs', i) <==> NoneFollows(s.docs, i))
  {
    var docs, docs', n := s.docs, Generated(s, owner, grant, template, content).docs, |s.docs|;
    assert docs'[i] == docs[i] && !SameKey(docs'[i], docs'[n]);
    forall j | i < j < n ensures SameKey(docs'[i], docs'[j]) == SameKey(docs[i], docs[j]) { }
    if NoneFollows(docs', i) {
      forall j | i < j < n ensures !SameKey(docs[i], docs[j]) { assert !SameKey(docs'[i], docs'[j]); }
    }
    if NoneFollows(docs, i) {
      forall j | i < j < |docs'| ensures !SameKey(docs'[i], docs'[j]) {
        if j < n { assert !SameKey(docs[i], docs[j]); }
      }
    }
  }

  lemma OthersKeepTheirLatest(s: Shelf, owner: Owner, grant: nat, template: string, content: nat, i: nat)
    requires Versioned(s.docs) && i < |s.docs| && !(s.docs[i].grant == grant && s.docs[i].template == template)
    ensures var docs' := Generated(s, owner, grant, template, content).docs;
      docs'[i].isLatest <==> NoneFollows(docs', i)
  {
    OtherKeysFollow(s, owner, grant, template, content, i);
    assert InPlace(s.docs, i);
  }

  /** Before the new document the marked one was its key's last; now it is not. */
  lemma OldVersionIsNotLatest(s: Shelf, owner: Owner, grant: nat, template: string, content: nat, i: nat)
    requires Versioned(s.docs) && i < |s.docs| && s.docs[i].grant == grant && s.docs[i].template == template
    ensures var docs' := Generated(s, owner, grant, template, content).docs;
      !docs'[i].isLatest && SameKey(docs'[i], docs'[|s.docs|])
  {
    var previous := FindLatest(s.docs, grant, template);
    FindsLatest(s.docs, i);
    if i != previous { LatestIsUnique(s.docs, i, previous); }
  }

  lemma LatestIsUnique(docs: seq<Doc>, i: nat, m: nat)
    requires Versioned(docs) && i < |docs| && m < |docs| && i != m && SameKey(docs[i], docs[m]) && docs[m].isLatest
    ensures !docs[i].isLatest
  {
    assert InPlace(docs, i) && InPlace(docs, m);
    assert i < m ==> SameKey(docs[i], docs[m]);
    assert m < i ==> SameKey(docs[m], docs[i]);
  }

  lemma GeneratedVersioned(s: Shelf, owner: Owner, grant: nat, template: string, content: nat)
    requires Versioned(s.docs)
    ensures Versioned(Generated(s, owner, grant, template, content).docs)
  {
    var docs, docs', n := s.docs, Generated(s, owner, grant, template, content).docs, |s.docs|;
    NextVersion(s, owner, grant, template, content);
    forall i: nat | i < |docs'| ensures InPlace(docs', i) {
      SumSameKeys(if i < n then docs[..i] else docs, docs'[..i], docs'[i].grant, docs'[i].template);
      if i < n {
        assert InPlace(docs, i);
        if docs[i].grant == grant && docs[i].template == template {
          OldVersionIsNotLatest(s, owner, grant, template, content, i);
        } else {
          OthersKeepTheirLatest(s, owner, grant, template, content, i);
        }
      }
    }
  }

  predicate AddsDocument(s: Shelf, op: Op)
  {
    op.Generate? && GenerateError(s, op.company, op.grant, op.template, op.rendered).None?
  }

  lemma ActVersioned(s: Shelf, op: Op)
    requires Versioned(s.docs)
    ensures Versioned(Lazy(s, op).0.docs)
  {
    if AddsDocument(s, op) {
      var s' := Generated(s, s.grants[op.grant], op.grant, op.template, op.content);
      GeneratedVersioned(s, s.grants[op.grant], op.grant, op.template, op.content);
      StatusChangesKeepVersions(s'.docs, Sweep(s', [|s.docs|]).docs);
    } else {
      StatusOnly(s, op);
      StatusChangesKeepVersions(s.docs, Lazy(s, op).0.docs);
    }
  }

  /** Key, version and mark are the same. */
  ghost predicate SameVersions(docs: seq<Doc>, docs': seq<Doc>)
  {
    && SameKeys(docs, docs')
    && forall k :: 0 <= k < |docs| ==> docs'[k].version == docs[k].version && docs'[k].isLatest == docs[k].isLatest
  }

  lemma ActStatusOnly(s: Shelf, user: User, id: nat, target: Status)
    ensures SameVersions(s.docs, Lazy(s, Act(user, id, target)).0.docs)
  {
    ActEffect(s, user, id, target);
  }

  lemma StatusOnly(s: Shelf, op: Op)
    requires !AddsDocument(s, op)
    ensures SameVersions(s.docs, Lazy(s, op).0.docs)
  {
    match op
    case Act(user, id, target) => ActStatusOnly(s, user, id, target);
    case List(ids) => assert SameVersions(s.docs, Sweep(s, ids).docs);
    case Generate(_, _, _, _, _) =>
    case Clock(_) =>
  }

  /** Over every run each (grant, template) has versions 1, 2, ..., n in the order
      of generation, and exactly the highest is marked latest. */
  lemma {:induction false} VersionsOverRuns(s: Shelf, ops: seq<Op>)
    requires Versioned(s.docs)
    ensures Versioned(LazyRun(s, ops).docs)
  {
    if ops != [] {
      VersionsOverRuns(s, ops[..|ops| - 1]);
      ActVersioned(LazyRun(s, ops[..|ops| - 1]), ops[|ops| - 1]);
    }
  }

  lemma VersionsKept(s: Shelf, op: Op)
    ensures Versioned(s.docs) ==> Versioned(Lazy(s, op).0.docs)
  {
    if Versioned(s.docs) { ActVersioned(s, op); }
  }

  lemma {:induction false} CountGrows(docs: seq<Doc>, i: nat, j: nat, grant: nat, template: string)
    requires i < j <= |docs| && docs[i].grant == grant && docs[i].template == template
    ensures Sum(docs[..i], OfKey(grant, template)) < Sum(docs[..j], OfKey(grant, template))
    decreases j
  {
    assert docs[..j][..j - 1] == docs[..j - 1];
    if i < j - 1 { CountGrows(docs, i, j - 1, grant, template); }
  }

  /** Versions of a key are distinct, and the marked one is the highest. */
  lemma LatestIsHighest(docs: seq<Doc>, i: nat, j: nat)
    requires Versioned(docs) && i < |docs| && j < |docs| && i != j && SameKey(docs[i], docs[j])
    ensures docs[i].version != docs[j].version
    ensures docs[i].isLatest ==> docs[j].version < docs[i].version && !docs[j].isLatest
  {
    var first, second := if i < j then i else j, if i < j then j else i;
    CountGrows(docs, first, second, docs[first].grant, docs[first].template);
    assert SameKey(docs[first], docs[second]) && InPlace(docs, first) && InPlace(docs, second);
  }

  // ------------------------------------------------------------ the endpoints

  class DocumentStore {
    var docs: seq<Doc>
    var now: int
    var grants: seq<Owner>
    var windowDays: map<nat, int>
    var overrides: map<(nat, string), int>

    constructor (now: int, grants: seq<Owner>, windowDays: map<nat, int>, overrides: map<(nat, string), int>)
      ensures View() == Shelf([], now, grants, windowDays, overrides) && Versioned(docs)
    {
      docs := [];
      this.now, this.grants, this.windowDays, this.overrides := now, grants, windowDays, overrides;
    }

    function View(): Shelf
      reads this
    {
      Shelf(docs, now, grants, windowDays, overrides)
    }

    /** expire_due: collect the due documents, then write them in one go. */
    method ExpireDue(ids: seq<nat>)
      requires forall i :: i in ids ==> i < |docs|
      modifies this`docs
      ensures View() == Sweep(old(View()), ids)
    {
      ghost var before := docs;
      var due: seq<nat> := [];
      for k := 0 to |ids|
        invariant forall i: nat :: i in due <==> i in ids[..k] && i < |docs| && Due(docs[i], now)
      {
        assert ids[k] in ids;
        if docs[ids[k]].status == Sent && docs[ids[k]].expiresAt.Some? && now > docs[ids[k]].expiresAt.value {
          due := due + [ids[k]];
        }
      }
      assert ids[..|ids|] == ids;
      for k := 0 to |due|
        invariant |docs| == |before|
        invariant forall i :: 0 <= i < |docs| ==>
          docs[i] == if i in due[..k] then before[i].(status := Expired) else before[i]
      {
        assert due[k] in due;
        docs := docs[due[k] := docs[due[k]].(status := Expired)];
      }
      assert due[..|due|] == due;
      assert docs == Sweep(Shelf(before, now, grants, windowDays, overrides), ids).docs;
    }

    /** _load_document_or_404, _transition_document, and the answer's own sweep. */
    method Transition(user: User, id: nat, target: Status) returns (r: Response)
      requires Requestable(Act(user, id, target))
      modifies this`docs
      ensures (View(), r) == Lazy(old(View()), Act(user, id, target))
      ensures old(Versioned(docs)) ==> Versioned(docs)
    {
      VersionsKept(View(), Act(user, id, target));
      if id >= |docs| { return Refused(NotFound); }
      if !MayOpen(user, docs[id]) { return Refused(Forbidden); }
      ExpireDue([id]);
      var d := docs[id];
      var error := TransitionError(d, target);
      if error.Some? { return Refused(error.value); }
      docs := docs[id := Moved(View(), d, target)];
      ExpireDue([id]);
      r := Shown(Pick(View(), [id]));
    }

    /** generate_document */
    method GenerateDocument(company: nat, grant: nat, template: string, content: nat, rendered: bool)
      returns (r: Response)
      modifies this`docs
      ensures (View(), r) == Lazy(old(View()), Generate(company, grant, template, content, rendered))
      ensures old(Versioned(docs)) ==> Versioned(docs)
    {
      ghost var before := View();
      VersionsKept(before, Generate(company, grant, template, content, rendered));
      if template !in TEMPLATES { return Refused(UnknownTemplate); }
      if grant >= |grants| { return Refused(NotFound); }
      if grants[grant].company != company { return Refused(Forbidden); }
      var previous := FindLatest(docs, grant, template);
      var version := if previous < |docs| then docs[previous].version + 1 else 1;
      if !rendered { return Refused(NotRendered); }
      var id := |docs|;
      if previous < |docs| { docs := docs[previous := docs[previous].(isLatest := false)]; }
      docs := docs + [Doc(grants[grant], grant, template, content, version, true, Draft, None, None, None)];
      ghost var added := View();
      assert added == Generated(before, before.grants[grant], grant, template, content);
      ExpireDue([id]);
      assert View() == Sweep(added, [id]);
      r := Shown(Pick(View(), [id]));
    }
  }
}
