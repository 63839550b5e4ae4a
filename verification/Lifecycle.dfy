/** Tenant lifecycle resources and the in-memory repository that versions them. */
module Lifecycle {
  import opened Basics

  type TenantId = string

  const MAX_ID_LENGTH := 128

  predicate ValidTenantId(id: TenantId) {
    id != "" && IsTrimmed(id) && |id| <= MAX_ID_LENGTH
  }

  datatype DesiredState = Active | Suspend | UnknownDesired(text: string)

  datatype Phase =
    | Pending | Reconciling | Ready | Suspending | Suspended | Resuming | Degraded
    | BlankPhase | UnknownPhase(text: string)

  datatype ConditionStatus = ConditionTrue | ConditionFalse | ConditionUnknown

  datatype Spec = Spec(desired: DesiredState)

  datatype Condition = Condition(
    kind: string, status: ConditionStatus, reason: string, message: string,
    observedGeneration: nat, lastTransition: int)

  datatype Checkpoint = Checkpoint(
    step: string, version: string, generation: nat, changed: bool, completedAt: int)

  datatype Status = Status(
    observedGeneration: nat, phase: Phase, currentStep: string,
    conditions: seq<Condition>, checkpoints: seq<Checkpoint>,
    failureCount: nat, retryAt: Option<int>)

  datatype TenantResource = TenantResource(
    tenantId: TenantId, provisioningKey: string,
    generation: nat, resourceVersion: nat, spec: Spec, status: Status)
  {
    /** The checks of TenantResource.Validate; a blank phase is tolerated. */
    predicate Valid() {
      && ValidTenantId(tenantId)
      && provisioningKey != ""
      && generation > 0
      && resourceVersion > 0
      && !spec.desired.UnknownDesired?
      && !status.phase.UnknownPhase?
      && status.observedGeneration <= generation
    }
  }

  /** The checks on a tenant name and on a resource, one by one. */
  lemma ValidMeans(r: TenantResource)
    ensures ValidTenantId(r.tenantId) <==> 1 <= |r.tenantId| <= 128 && Trim(r.tenantId) == r.tenantId
    ensures r.Valid() <==>
              && ValidTenantId(r.tenantId) && r.provisioningKey != "" && 1 <= r.generation && 1 <= r.resourceVersion
              && (r.spec.desired == Active || r.spec.desired == Suspend)
              && r.status.phase in {Pending, Reconciling, Ready, Suspending, Suspended, Resuming, Degraded, BlankPhase}
              && r.status.observedGeneration <= r.generation
  {
    TrimMeans(r.tenantId);
  }

  datatype RepoError = Cancelled | NotFound | Conflict | InvalidResource

  type Table = map<TenantId, TenantResource>

  /** What one status compare-and-swap answers, and the table it leaves. */
  function CasStatus(table: Table, cancelled: bool, id: TenantId, expected: nat, status: Status)
    : (Table, Result<TenantResource, RepoError>)
  {
    if cancelled then (table, Err(Cancelled))
    else if id !in table then (table, Err(NotFound))
    else if table[id].resourceVersion != expected then (table, Err(Conflict))
    else
      var next := table[id].(status := status, resourceVersion := table[id].resourceVersion + 1);
      if next.Valid() then (table[id := next], Ok(next)) else (table, Err(InvalidResource))
  }

  /** What one desired-state write answers, and the table it leaves. */
  function WriteSpec(table: Table, cancelled: bool, id: TenantId, expected: nat, spec: Spec)
    : (Table, Result<TenantResource, RepoError>)
  {
    if cancelled then (table, Err(Cancelled))
    else if spec.desired.UnknownDesired? then (table, Err(InvalidResource))
    else if id !in table then (table, Err(NotFound))
    else if table[id].resourceVersion != expected then (table, Err(Conflict))
    else if table[id].spec == spec then (table, Ok(table[id]))
    else
      var next := table[id].(spec := spec, generation := table[id].generation + 1,
                             resourceVersion := table[id].resourceVersion + 1);
      (table[id := next], Ok(next))
  }

  function Read(table: Table, cancelled: bool, id: TenantId): Result<TenantResource, RepoError> {
    if cancelled then Err(Cancelled)
    else if id !in table then Err(NotFound)
    else Ok(table[id])
  }

  /** A resource as the repository first stores it: a blank phase becomes Pending. */
  function Admitted(resource: TenantResource): TenantResource {
    if resource.status.phase == BlankPhase
    then resource.(status := resource.status.(phase := Pending))
    else resource
  }

  predicate Admissible(resource: TenantResource) {
    Admitted(resource).Valid()
  }

  predicate DistinctTenants(resources: seq<TenantResource>) {
    forall i, j :: 0 <= i < j < |resources| ==> resources[i].tenantId != resources[j].tenantId
  }

  /** The table after admitting the resources in order, or None at the first refusal. */
  function Loaded(initial: seq<TenantResource>): Option<Table> {
    if initial == [] then Some(map[])
    else
      var last := initial[|initial| - 1];
      match Loaded(initial[..|initial| - 1])
      case None => None
      case Some(table) =>
        if !Admissible(last) || last.tenantId in table then None
        else Some(table[last.tenantId := Admitted(last)])
  }

  /** The table holds the resource as it was given, but for a blank phase, which is stored as Pending. */
  ghost predicate StoredAs(given: TenantResource, table: Table) {
    && given.tenantId in table
    && (given.status.phase != BlankPhase ==> table[given.tenantId] == given)
    && (given.status.phase == BlankPhase ==>
          table[given.tenantId] == given.(status := given.status.(phase := Pending)))
  }

  /** A load that succeeds stores exactly the admitted resources, one entry each. */
  lemma {:induction false} LoadedStores(initial: seq<TenantResource>)
    requires Loaded(initial).Some?
    ensures var table := Loaded(initial).value;
            && |table| == |initial|
            && (forall i :: 0 <= i < |initial| ==> initial[i].tenantId in table && StoredAs(initial[i], table))
            && (forall id :: id in table ==> exists i :: 0 <= i < |initial| && initial[i].tenantId == id)
  {
    hide Admissible, StoredAs;
    if initial != [] {
      var n := |initial| - 1;
      var front := initial[..n];
      LoadedStores(front);
      forall i | 0 <= i < |initial| ensures initial[i].tenantId in Loaded(initial).value
          && StoredAs(initial[i], Loaded(initial).value) {
        if i < n { assert front[i] == initial[i]; }
        StoredStays(initial[i], initial[n], Loaded(front).value);
      }
    }
  }

  /** Storing one more resource leaves the others stored as they were given. */
  lemma StoredStays(given: TenantResource, last: TenantResource, table: Table)
    requires last.tenantId !in table
    ensures StoredAs(last, table[last.tenantId := Admitted(last)])
    ensures StoredAs(given, table) ==> StoredAs(given, table[last.tenantId := Admitted(last)])
  {
  }

  predicate AllValid(initial: seq<TenantResource>) {
    forall i :: 0 <= i < |initial| ==> initial[i].Valid()
  }

  /** Loading succeeds exactly for valid resources of distinct tenants. */
  lemma {:induction false} LoadedIff(initial: seq<TenantResource>)
    ensures Loaded(initial).Some? <==> AllValid(initial) && DistinctTenants(initial)
  {
    if initial != [] {
      var front, last := initial[..|initial| - 1], initial[|initial| - 1];
      LoadedIff(front);
      LastAdmissible(initial);
      if Loaded(front).Some? {
        LoadedStores(front);
        LastDistinct(initial, Loaded(front).value.Keys);
      }
    }
  }

  lemma LastAdmissible(initial: seq<TenantResource>)
    requires initial != []
    ensures AllValid(initial) <==> AllValid(initial[..|initial| - 1]) && Admissible(initial[|initial| - 1])
    ensures DistinctTenants(initial) ==> DistinctTenants(initial[..|initial| - 1])
  {
    var front := initial[..|initial| - 1];
    assert forall i :: 0 <= i < |front| ==> front[i] == initial[i];
  }

  lemma LastDistinct(initial: seq<TenantResource>, seen: set<TenantId>)
    requires initial != [] && DistinctTenants(initial[..|initial| - 1])
    requires var front := initial[..|initial| - 1];
             && (forall i :: 0 <= i < |front| ==> front[i].tenantId in seen)
             && (forall id :: id in seen ==> exists i :: 0 <= i < |front| && front[i].tenantId == id)
    ensures DistinctTenants(initial) <==> initial[|initial| - 1].tenantId !in seen
  {
    var n := |initial| - 1;
    assert forall i :: 0 <= i < n ==> initial[..n][i] == initial[i];
    if initial[n].tenantId in seen {
      var i :| 0 <= i < n && initial[..n][i].tenantId == initial[n].tenantId;
      assert initial[i].tenantId == initial[n].tenantId;
    }
  }

  lemma {:induction false} LoadedRefusalStays(initial: seq<TenantResource>, k: nat)
    requires k <= |initial| && Loaded(initial[..k]).None?
    ensures Loaded(initial).None?
    decreases |initial| - k
  {
    if k < |initial| {
      assert initial[..k + 1][..k] == initial[..k];
      LoadedRefusalStays(initial, k + 1);
    } else {
      assert initial[..k] == initial;
    }
  }

  /** In-memory repository: each method is one critical section. */
  class MemoryRepository {
    var resources: Table

    constructor ()
      ensures resources == map[]
    {
      resources := map[];
    }

    /** Fills an empty repository, stopping at the first invalid or repeated resource. */
    method Load(initial: seq<TenantResource>) returns (accepted: bool)
      requires resources == map[]
      modifies this
      ensures accepted <==> Loaded(initial).Some?
      ensures accepted ==> resources == Loaded(initial).value
    {
      for k := 0 to |initial|
        invariant Loaded(initial[..k]) == Some(resources)
      {
        var resource := initial[k];
        if resource.status.phase == BlankPhase {
          resource := resource.(status := resource.status.(phase := Pending));
        }
        assert initial[..k + 1][..k] == initial[..k];
        if !resource.Valid() || resource.tenantId in resources {
          LoadedRefusalStays(initial, k + 1);
          return false;
        }
        resources := resources[resource.tenantId := resource];
      }
      assert initial[..|initial|] == initial;
      return true;
    }

    method Get(cancelled: bool, id: TenantId) returns (r: Result<TenantResource, RepoError>)
      ensures r == Read(resources, cancelled, id)
      ensures r.Ok? <==> !cancelled && id in resources
      ensures r.Ok? ==> r.value == resources[id]
      ensures r.Err? ==> r.error == if cancelled then Cancelled else NotFound
    {
      if cancelled { return Err(Cancelled); }
      if id !in resources { return Err(NotFound); }
      return Ok(resources[id]);
    }

    method CompareAndSwapStatus(cancelled: bool, id: TenantId, expected: nat, status: Status)
      returns (r: Result<TenantResource, RepoError>)
      modifies this
      ensures (resources, r) == CasStatus(old(resources), cancelled, id, expected, status)
      ensures r.Err? ==> resources == old(resources)
      ensures r == Err(Cancelled) <==> cancelled
      ensures r == Err(NotFound) <==> !cancelled && id !in old(resources)
      ensures r == Err(Conflict) <==>
                !cancelled && id in old(resources) && old(resources)[id].resourceVersion != expected
      ensures r == Err(InvalidResource) ==>
                && id in old(resources)
                && !old(resources)[id].(status := status, resourceVersion := expected + 1).Valid()
      ensures r.Ok? ==>
                && r.value == old(resources)[id].(status := status, resourceVersion := expected + 1)
                && r.value.Valid() && resources == old(resources)[id := r.value]
    {
      if cancelled { return Err(Cancelled); }
      if id !in resources { return Err(NotFound); }
      var resource := resources[id];
      if resource.resourceVersion != expected { return Err(Conflict); }
      resource := resource.(status := status);
      resource := resource.(resourceVersion := resource.resourceVersion + 1);
      if !resource.Valid() { return Err(InvalidResource); }
      resources := resources[id := resource];
      return Ok(resource);
    }

    method UpdateSpec(cancelled: bool, id: TenantId, expected: nat, spec: Spec)
      returns (r: Result<TenantResource, RepoError>)
      modifies this
      ensures (resources, r) == WriteSpec(old(resources), cancelled, id, expected, spec)
      ensures r.Err? ==> resources == old(resources)
      ensures r == Err(Cancelled) <==> cancelled
      ensures r == Err(InvalidResource) <==> !cancelled && spec.desired.UnknownDesired?
      ensures r == Err(NotFound) <==> !cancelled && !spec.desired.UnknownDesired? && id !in old(resources)
      ensures r == Err(Conflict) <==>
                && !cancelled && !spec.desired.UnknownDesired? && id in old(resources)
                && old(resources)[id].resourceVersion != expected
      ensures r.Ok? && spec == old(resources)[id].spec ==> r.value == old(resources)[id] && resources == old(resources)
      ensures r.Ok? && spec != old(resources)[id].spec ==>
                && r.value == old(resources)[id].(spec := spec, generation := old(resources)[id].generation + 1,
                                                  resourceVersion := expected + 1)
                && resources == old(resources)[id := r.value]
    {
      if cancelled { return Err(Cancelled); }
      if spec.desired.UnknownDesired? { return Err(InvalidResource); }
      if id !in resources { return Err(NotFound); }
      var resource := resources[id];
      if resource.resourceVersion != expected { return Err(Conflict); }
      if resource.spec == spec { return Ok(resource); }
      resource := resource.(spec := spec);
      resource := resource.(generation := resource.generation + 1);
      resource := resource.(resourceVersion := resource.resourceVersion + 1);
      resources := resources[id := resource];
      return Ok(resource);
    }
  }
}
