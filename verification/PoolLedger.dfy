/** One option pool: its events and their fold, which skips what sorts before
    the base. */
module PoolLedger {
  import opened Wrappers
  import opened Ledger
  import opened BaseFold

  datatype PoolPayload =
    | Balance(allocatedShares: int, unallocatedShares: int, total: int)
    | Allocated(amount: int, grant: nat)
    | Returned(amount: int, grant: nat)

  type PoolEvent = Event<PoolPayload>

  /** The row of option_pools. */
  datatype Pool = Pool(company: nat, shareClass: Option<nat>, total: int, allocatedShares: int, unallocatedShares: int)

  datatype PoolState = PoolState(allocatedShares: int, unallocatedShares: int, total: int)

  function Moved(base: PoolState, net: int): PoolState
  {
    PoolState(base.allocatedShares + net, base.unallocatedShares - net, base.total)
  }

  function Step(state: Option<PoolState>, p: PoolPayload): Option<PoolState>
  {
    match p
    case Balance(allocatedShares, unallocatedShares, total) =>
      Some(PoolState(allocatedShares, unallocatedShares, total))
    case Allocated(amount, _) =>
      if state.None? then None
      else Some(Moved(state.value, amount))
    case Returned(amount, _) =>
      if state.None? then None
      else Some(Moved(state.value, -amount))
  }

  function Fold(es: seq<PoolEvent>): Option<PoolState>
  {
    if es == [] then None else Step(Fold(es[..|es| - 1]), es[|es| - 1].payload)
  }

  /** project_option_pool */
  method ProjectOptionPool(es: seq<PoolEvent>) returns (state: Option<PoolState>)
    ensures state == Fold(es)
  {
    state := None;
    for i := 0 to |es|
      invariant state == Fold(es[..i])
    {
      assert es[..i + 1][..i] == es[..i];
      match es[i].payload
      case Balance(allocatedShares, unallocatedShares, total) =>
        state := Some(PoolState(allocatedShares, unallocatedShares, total));
      case Allocated(amount, _) =>
        if state != None {
          state := Some(state.value.(allocatedShares := state.value.allocatedShares + amount,
                                     unallocatedShares := state.value.unallocatedShares - amount));
        }
      case Returned(amount, _) =>
        if state != None {
          state := Some(state.value.(allocatedShares := state.value.allocatedShares - amount,
                                     unallocatedShares := state.value.unallocatedShares + amount));
        }
    }
    assert es[..|es|] == es;
  }

  /** A balance starts the pool; the rest changes its allocated side. */
  function Read(p: PoolPayload): Part<PoolState>
  {
    match p
    case Balance(allocatedShares, unallocatedShares, total) =>
      Start(PoolState(allocatedShares, unallocatedShares, total))
    case Allocated(amount, _) => Change(amount)
    case Returned(amount, _) => Change(-amount)
  }

  lemma NetOf(e: PoolEvent)
    ensures Net(Read)(e) == Amount(Read(e.payload))
    ensures forall day :: NetBefore(Read, day)(e) == if e.effective < day then Amount(Read(e.payload)) else 0
    ensures forall b: PoolEvent ::
      NetAfter(Read, b)(e) == if StrictlyAfter(e, b) then Amount(Read(e.payload)) else 0
    ensures forall first, last ::
      NetBetween(Read, first, last)(e) == if first <= e.effective <= last then Amount(Read(e.payload)) else 0
  {
  }

  function Shown(t: Option<Tally<PoolState>>): Option<PoolState>
  {
    if t.None? then None else Some(Moved(t.value.base, t.value.net))
  }

  /** The fold moves its base by the net of the changes it counts. */
  lemma {:induction false} FoldIsTally(es: seq<PoolEvent>)
    ensures Fold(es) == Shown(Tallied(es, Read))
  {
    if es != [] { FoldIsTally(es[..|es| - 1]); }
  }

  /** A pool's projected size is its base's, and known once the base is in view. */
  lemma {:induction false} FoldSize(es: seq<PoolEvent>, total: int)
    requires forall e :: e in es && e.payload.Balance? ==> e.payload.total == total
    ensures Fold(es).Some? <==> exists e :: e in es && e.payload.Balance?
    ensures Fold(es).Some? ==> Fold(es).value.total == total
  {
    if es != [] {
      assert es == es[..|es| - 1] + [es[|es| - 1]];
      FoldSize(es[..|es| - 1], total);
    }
  }
}
