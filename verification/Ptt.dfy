// The single-owner transmit lease shared by CAT sessions and the keyer.

module Ptt {
  import opened Common

  datatype Lease = Lease(owner: Option<nat>, keyedAt: Option<nat>)

  const FREE := Lease(None, None)

  datatype KeyResult = Keyed | Busy | NotPermitted

  datatype KeyOutcome = KeyOutcome(lease: Lease, result: KeyResult)

  function TryKey(l: Lease, session: nat, hasPtt: bool, now: nat): KeyOutcome {
    if !hasPtt then KeyOutcome(l, NotPermitted)
    else if l.owner.Some? && l.owner.value != session then KeyOutcome(l, Busy)
    else KeyOutcome(Lease(Some(session), Some(now)), Keyed)
  }

  function Unkey(l: Lease, session: nat): Lease {
    if l.owner == Some(session) then FREE else l
  }

  function ExpiredOwner(l: Lease, now: nat, maxTx: nat): Option<nat> {
    if l.keyedAt.Some? && Elapsed(now, l.keyedAt.value) >= maxTx then l.owner else None
  }

  // ---- The lease over any sequence of keying and unkeying ----

  datatype LeaseOp = Hold(session: nat, hasPtt: bool, now: nat) | Yield(session: nat)

  function Moved(l: Lease, op: LeaseOp): Lease {
    match op
    case Hold(s, hasPtt, now) => TryKey(l, s, hasPtt, now).lease
    case Yield(s) => Unkey(l, s)
  }

  function HeldAfter(ops: seq<LeaseOp>): Lease
    decreases |ops|
  {
    if ops == [] then FREE else Moved(HeldAfter(ops[..|ops| - 1]), ops[|ops| - 1])
  }

  predicate Concerns(op: LeaseOp, session: nat) {
    op.session == session && (op.Hold? ==> op.hasPtt)
  }

  // Whoever holds the lease keyed last among its own keyings and unkeyings, and the lease counts from
  // then; and a session that has unkeyed, or never keyed, does not hold it.
  lemma {:induction false} LeaseFollowsTheLastKey(ops: seq<LeaseOp>)
    ensures var l := HeldAfter(ops);
            if l.owner.None? then l == FREE
            else exists i :: 0 <= i < |ops| && ops[i].Hold? && Concerns(ops[i], l.owner.value)
                             && l.keyedAt == Some(ops[i].now)
                             && forall j | i < j < |ops| :: !Concerns(ops[j], l.owner.value)
    decreases |ops|
  {
    if ops != [] {
      var n := |ops| - 1;
      var was := HeldAfter(ops[..n]);
      var l := HeldAfter(ops);
      LeaseFollowsTheLastKey(ops[..n]);
      if l == was && l.owner.Some? && !(ops[n].Hold? && Concerns(ops[n], l.owner.value)) {
        var i :| 0 <= i < n && ops[..n][i].Hold? && Concerns(ops[..n][i], l.owner.value)
                 && l.keyedAt == Some(ops[..n][i].now)
                 && forall j | i < j < n :: !Concerns(ops[..n][j], l.owner.value);
        assert ops[i] == ops[..n][i];
        forall j | i < j < |ops| ensures !Concerns(ops[j], l.owner.value) {
          assert j < n ==> ops[j] == ops[..n][j];
        }
      } else if l.owner.Some? {
        assert ops[n].Hold? && Concerns(ops[n], l.owner.value) && l.keyedAt == Some(ops[n].now);
      }
    }
  }

  // A permitted session gets the lease exactly when nobody else holds it, and nobody loses it to
  // another session's keying or unkeying.
  lemma OnlyTheOwnerMovesTheLease(l: Lease, op: LeaseOp)
    requires l.owner.Some? ==> l.keyedAt.Some?
    ensures l.owner.Some? && l.owner.value != op.session ==> Moved(l, op) == l
    ensures op.Hold? ==> (Moved(l, op) == Lease(Some(op.session), Some(op.now)) <==>
                              (op.hasPtt && (l.owner.None? || l.owner.value == op.session))
                              || l == Lease(Some(op.session), Some(op.now)))
  {
  }

  // The watchdog finds the owner expired exactly when at least the ceiling has passed since the
  // moment the lease counts from.
  lemma ExpiresAtTheCeiling(l: Lease, now: nat, maxTx: nat)
    ensures ExpiredOwner(l, now, maxTx).Some?
            <==> l.owner.Some? && l.keyedAt.Some? && (now >= l.keyedAt.value + maxTx || maxTx == 0)
    ensures ExpiredOwner(l, now, maxTx).Some? ==> ExpiredOwner(l, now, maxTx) == l.owner
  {
  }

  class PttManager {
    var owner: Option<nat>
    var keyedAt: Option<nat>
    const maxTx: nat

    function View(): Lease
      reads this
    {
      Lease(owner, keyedAt)
    }

    constructor (maxTx: nat)
      ensures View() == FREE && this.maxTx == maxTx
    {
      owner, keyedAt := None, None;
      this.maxTx := maxTx;
    }

    method Key(session: nat, hasPtt: bool, now: nat) returns (result: KeyResult)
      modifies this
      ensures KeyOutcome(View(), result) == TryKey(old(View()), session, hasPtt, now)
      // While another session holds the lease, nothing changes.
      ensures old(owner).Some? && old(owner).value != session ==> result != Keyed && View() == old(View())
    {
      if !hasPtt {
        return NotPermitted;
      }
      if owner.Some? && owner.value != session {
        return Busy;
      }
      owner, keyedAt := Some(session), Some(now);
      result := Keyed;
    }

    method Release(session: nat)
      modifies this
      ensures View() == Unkey(old(View()), session)
    {
      if owner == Some(session) {
        owner, keyedAt := None, None;
      }
    }

    // The expired owner is reported but keeps the lease until it is released.
    method Expired(now: nat) returns (expired: Option<nat>)
      ensures expired == ExpiredOwner(View(), now, maxTx)
    {
      if keyedAt.Some? && Elapsed(now, keyedAt.value) >= maxTx {
        return owner;
      }
      return None;
    }
  }
}
