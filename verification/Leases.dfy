/** Per-tenant leases: at most one reconciler holds a tenant at a time. */
module Leases {
  import opened Basics
  import opened Lifecycle

  datatype LeaseError = LeaseCancelled | LeaseHeld

  datatype LeaseRecord = LeaseRecord(tenant: TenantId, released: bool)

  /** Every lease ever issued, and the tenants the manager lists as held. */
  datatype LeaseTable = LeaseTable(held: set<TenantId>, issued: seq<LeaseRecord>)

  function Acquire(t: LeaseTable, cancelled: bool, id: TenantId): (LeaseTable, Result<nat, LeaseError>) {
    if cancelled then (t, Err(LeaseCancelled))
    else if id in t.held then (t, Err(LeaseHeld))
    else (LeaseTable(t.held + {id}, t.issued + [LeaseRecord(id, false)]), Ok(|t.issued|))
  }

  function Release(t: LeaseTable, lease: nat): LeaseTable
    requires lease < |t.issued|
  {
    var record := t.issued[lease];
    if record.released then t
    else LeaseTable(t.held - {record.tenant}, t.issued[lease := record.(released := true)])
  }

  ghost predicate Live(t: LeaseTable, lease: nat) {
    lease < |t.issued| && !t.issued[lease].released
  }

  /** The held tenants are exactly those with one issued, unreleased lease. */
  ghost predicate Exclusive(t: LeaseTable) {
    && (forall id :: id in t.held <==> exists k: nat :: Live(t, k) && t.issued[k].tenant == id)
    && (forall i: nat, j: nat :: Live(t, i) && Live(t, j) && i != j ==> t.issued[i].tenant != t.issued[j].tenant)
  }

  datatype LeaseCall = CallAcquire(cancelled: bool, tenant: TenantId) | CallRelease(lease: nat)

  function ApplyCall(t: LeaseTable, call: LeaseCall): LeaseTable {
    match call
    case CallAcquire(cancelled, tenant) => Acquire(t, cancelled, tenant).0
    case CallRelease(lease) => if lease < |t.issued| then Release(t, lease) else t
  }

  function ApplyCalls(t: LeaseTable, calls: seq<LeaseCall>): LeaseTable
    decreases |calls|
  {
    if calls == [] then t else ApplyCalls(ApplyCall(t, calls[0]), calls[1..])
  }

  lemma AcquireExclusive(t: LeaseTable, cancelled: bool, id: TenantId)
    requires Exclusive(t)
    ensures Exclusive(Acquire(t, cancelled, id).0)
    ensures forall k: nat :: Live(t, k) ==> Live(Acquire(t, cancelled, id).0, k)
  {
    var (u, r) := Acquire(t, cancelled, id);
    if r.Ok? {
      assert forall k: nat :: k < |t.issued| ==> u.issued[k] == t.issued[k];
      assert Live(u, |t.issued|);
      forall x ensures x in u.held <==> exists k: nat :: Live(u, k) && u.issued[k].tenant == x {
        if x in t.held {
          var k: nat :| Live(t, k) && t.issued[k].tenant == x;
          assert Live(u, k);
        }
        if k: nat :| Live(u, k) && u.issued[k].tenant == x {
          assert k < |t.issued| ==> Live(t, k);
        }
      }
      forall i: nat, j: nat | Live(u, i) && Live(u, j) && i != j
        ensures u.issued[i].tenant != u.issued[j].tenant
      {
        assert i < |t.issued| ==> Live(t, i);
        assert j < |t.issued| ==> Live(t, j);
      }
    }
  }

  /** Releasing, even again, frees at most the released lease's own claim: every other
      live lease stays live and its tenant stays held. */
  lemma ReleaseExclusive(t: LeaseTable, lease: nat)
    requires Exclusive(t) && lease < |t.issued|
    ensures var u := Release(t, lease);
            && Exclusive(u)
            && !Live(u, lease)
            && (forall k: nat :: k != lease && Live(t, k) ==> Live(u, k) && t.issued[k].tenant in u.held)
  {
    var u := Release(t, lease);
    assert forall k: nat :: Live(u, k) <==> k != lease && Live(t, k);
    forall x ensures x in u.held <==> exists k: nat :: Live(u, k) && u.issued[k].tenant == x {
      if x in t.held {
        var k: nat :| Live(t, k) && t.issued[k].tenant == x;
        assert Live(u, k) || k == lease;
      }
      if k: nat :| Live(u, k) && u.issued[k].tenant == x {
        assert Live(t, k);
      }
    }
    forall i: nat, j: nat | Live(u, i) && Live(u, j) && i != j
      ensures u.issued[i].tenant != u.issued[j].tenant
    {
      assert Live(t, i) && Live(t, j);
    }
  }

  /** Over any run of calls, including repeated releases of old leases, held and live agree. */
  lemma {:induction false} EveryRunExclusive(t: LeaseTable, calls: seq<LeaseCall>)
    requires Exclusive(t)
    ensures Exclusive(ApplyCalls(t, calls))
    decreases |calls|
  {
    if calls != [] {
      match calls[0] {
        case CallAcquire(cancelled, tenant) => AcquireExclusive(t, cancelled, tenant);
        case CallRelease(lease) => if lease < |t.issued| { ReleaseExclusive(t, lease); }
      }
      EveryRunExclusive(ApplyCall(t, calls[0]), calls[1..]);
    }
  }

  /** The lease manager object; `issued` remembers, for the proof, the leases it handed out. */
  class MemoryLeaseManager {
    var held: set<TenantId>
    ghost var issued: seq<MemoryLease>

    ghost predicate Valid()
      reads this, issued
    {
      && (forall i :: 0 <= i < |issued| ==> issued[i].manager == this)
      && (forall i, j :: 0 <= i < j < |issued| ==> issued[i] != issued[j])
    }

    /** The table of this manager and its leases. */
    ghost function Contents(): LeaseTable
      reads this, issued
    {
      LeaseTable(held, seq(|issued|, i reads this, issued requires 0 <= i < |issued| =>
                             LeaseRecord(issued[i].tenant, issued[i].done)))
    }

    constructor ()
      ensures Valid() && Contents() == LeaseTable({}, [])
    {
      held, issued := {}, [];
    }

    method AcquireLease(cancelled: bool, id: TenantId) returns (r: Result<MemoryLease, LeaseError>)
      requires Valid()
      modifies this
      ensures Valid()
      ensures Contents() == Acquire(old(Contents()), cancelled, id).0
      ensures r == Err(LeaseCancelled) <==> cancelled
      ensures r == Err(LeaseHeld) <==> !cancelled && id in old(held)
      ensures r.Err? ==> held == old(held) && issued == old(issued)
      ensures r.Ok? ==> fresh(r.value) && issued == old(issued) + [r.value] && r.value.manager == this
      ensures r.Ok? ==> held == old(held) + {id} && r.value.tenant == id && !r.value.done
    {
      if cancelled { return Err(LeaseCancelled); }
      if id in held { return Err(LeaseHeld); }
      held := held + {id};
      var lease := new MemoryLease(this, id);
      issued := issued + [lease];
      return Ok(lease);
    }
  }

  class MemoryLease {
    const manager: MemoryLeaseManager
    const tenant: TenantId
    var done: bool

    constructor (manager: MemoryLeaseManager, tenant: TenantId)
      ensures this.manager == manager && this.tenant == tenant && !done
    {
      this.manager, this.tenant, this.done := manager, tenant, false;
    }

    /** Frees the tenant once; later calls do nothing. */
    method ReleaseLease(ghost index: nat)
      requires manager.Valid() && index < |manager.issued| && manager.issued[index] == this
      modifies this, manager`held
      ensures manager.Valid()
      ensures manager.Contents() == Release(old(manager.Contents()), index)
      ensures done && manager.held == if old(done) then old(manager.held) else old(manager.held) - {tenant}
    {
      if !done {
        done := true;
        manager.held := manager.held - {tenant};
      }
    }
  }
}
