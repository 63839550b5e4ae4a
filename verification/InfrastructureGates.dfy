/** The checks of the create-only infrastructure stage on persisted objects, and its two gates. */
module InfrastructureGates {
  import opened Basics
  import opened Cluster
  import opened StorageGate
  import Sorting

  /** An inventory entry and its rendered manifest. */
  datatype Target = Target(id: Id, desired: string)

  /** The field-by-field rules, as functions of whole objects. `merge` carries the fields the server
      owns from a persisted object into the manifest; `pin` sets the node of a binder Pod. */
  datatype Rules = Rules(
    storageClassOk: Stored -> bool,
    envelopeOk: (Id, Stored) -> bool,
    merge: (Id, string, Stored) -> Option<string>,
    exact: (Id, Stored, string) -> bool,
    binderOk: Stored -> bool,
    nodeOf: Stored -> Option<string>,
    pin: (string, string) -> string,
    claimOk: Stored -> bool,
    volumeOf: Stored -> Option<string>,
    selectedNode: Stored -> Option<string>,
    hostOf: Stored -> Option<string>,
    nodeOk: (string, Stored) -> bool,
    boundOk: (Stored, Stored) -> bool,
    isBound: Stored -> bool,
    claim: Stored -> Claim,
    reviewed: Review)

  // ----- one persisted object -----

  predicate ExactOk(rules: Rules, id: Id, stored: Stored, canonical: string) {
    rules.envelopeOk(id, stored) && rules.exact(id, stored, canonical)
  }

  /** From a point of the history on, nothing was read about a StatefulSet. */
  ghost predicate NoStatefulSetRead(answers: seq<Answer>, from: nat) {
    forall k :: from <= k < |answers| ==> !(answers[k].Read? && answers[k].id.kind.StatefulSet?)
  }

  /** The dry-run update that answers with the canonical form of a persisted object: the manifest with
      the object's server-owned fields merged in, sent for the object's version. */
  predicate Canonicalised(rules: Rules, answer: Answer, item: Target, existing: Stored) {
    && (item.id.kind.Pod? ==> rules.binderOk(existing))
    && answer.DryRun? && answer.id == item.id && answer.base == Some(existing.version)
    && rules.merge(item.id, item.desired, existing) == Some(answer.sent)
    && answer.canonical.Some?
  }

  /** That form on a calm server. */
  function CanonicalOf(rules: Rules, turn: Turn, item: Target, existing: Stored): Option<string> {
    if item.id.kind.Pod? && !rules.binderOk(existing) then None
    else
      var merged := rules.merge(item.id, item.desired, existing);
      if merged.None? then None else turn.admit(item.id, merged.value)
  }

  method CanonicalExisting(server: ApiServer, rules: Rules, item: Target, existing: Stored, ghost turn: Turn)
    returns (canonical: Option<string>)
    requires server.Valid()
    modifies server
    ensures OnlyReads(server, turn) && NoStatefulSetRead(server.answers, |old(server.answers)|)
    ensures canonical.Some? ==>
              && |server.answers| == |old(server.answers)| + 1
              && Canonicalised(rules, server.answers[|old(server.answers)|], item, existing)
              && server.answers[|old(server.answers)|].canonical == canonical
    ensures Calm(server.world, old(server.clock), turn) && Lookup(old(server.objects), item.id) == Present(existing) ==>
              canonical == CanonicalOf(rules, turn, item, existing)
  {
    if item.id.kind.Pod? && !rules.binderOk(existing) { return None; }
    var merged := rules.merge(item.id, item.desired, existing);
    if merged.None? { return None; }
    canonical := server.DryRunUpdate(item.id, merged.value, existing.version);
  }

  predicate NodeAlive(rules: Rules, objects: Objects, host: string) {
    Id(Node, host) in objects.stored && rules.nodeOk(host, objects.stored[Id(Node, host)])
  }

  predicate BindingOk(rules: Rules, objects: Objects, claim: Stored) {
    && rules.claimOk(claim)
    && match rules.volumeOf(claim)
       case None => rules.selectedNode(claim).Some? ==> NodeAlive(rules, objects, rules.selectedNode(claim).value)
       case Some(volume) =>
         && Id(PersistentVolume, volume) in objects.stored
         && var pv := objects.stored[Id(PersistentVolume, volume)];
            && rules.hostOf(pv).Some? && NodeAlive(rules, objects, rules.hostOf(pv).value)
            && rules.boundOk(pv, claim)
  }

  // What follows says where in the history an answer stands; each check makes a known number of calls.

  predicate NodeRead(rules: Rules, answers: seq<Answer>, k: nat, host: string) {
    && k < |answers| && answers[k].Read? && answers[k].id == Id(Node, host)
    && answers[k].reading.Present? && rules.nodeOk(host, answers[k].reading.stored)
  }

  predicate VolumeRead(rules: Rules, answers: seq<Answer>, k: nat, volume: string, claim: Stored) {
    && k < |answers| && answers[k].Read? && answers[k].id == Id(PersistentVolume, volume) && answers[k].reading.Present?
    && var pv := answers[k].reading.stored;
       && rules.hostOf(pv).Some? && NodeRead(rules, answers, k + 1, rules.hostOf(pv).value) && rules.boundOk(pv, claim)
  }

  /** From there on a claim was found in order: unbound with its selected node alive, or bound to a volume
      that names it, with that volume's node alive. */
  predicate BindingRead(rules: Rules, answers: seq<Answer>, k: nat, claim: Stored) {
    && rules.claimOk(claim)
    && match rules.volumeOf(claim)
       case None => rules.selectedNode(claim).Some? ==> NodeRead(rules, answers, k, rules.selectedNode(claim).value)
       case Some(volume) => VolumeRead(rules, answers, k, volume, claim)
  }

  /** The calls it takes to find a claim in order. */
  function BindingCalls(rules: Rules, claim: Stored): nat {
    if rules.volumeOf(claim).Some? then 2 else if rules.selectedNode(claim).Some? then 1 else 0
  }

  method VerifyBoundNode(server: ApiServer, rules: Rules, host: string, ghost turn: Turn) returns (ok: bool)
    requires server.Valid()
    modifies server
    ensures OnlyReads(server, turn) && NoStatefulSetRead(server.answers, |old(server.answers)|)
    ensures |server.answers| == |old(server.answers)| + 1
    ensures ok <==> NodeRead(rules, server.answers, |old(server.answers)|, host)
    ensures Calm(server.world, old(server.clock), turn) ==> ok == NodeAlive(rules, old(server.objects), host)
  {
    var reading := server.Get(Id(Node, host));
    ok := reading.Present? && rules.nodeOk(host, reading.stored);
    assert server.answers[|old(server.answers)|] == Read(Id(Node, host), reading);
  }

  /** The verdict is that of what was read of the claim's node, or of its volume and that volume's node. */
  method ValidateClaimBinding(server: ApiServer, rules: Rules, claim: Stored, ghost turn: Turn) returns (ok: bool)
    requires server.Valid()
    modifies server
    ensures OnlyReads(server, turn) && NoStatefulSetRead(server.answers, |old(server.answers)|)
    ensures ok <==> BindingRead(rules, server.answers, |old(server.answers)|, claim)
    ensures ok ==> |server.answers| == |old(server.answers)| + BindingCalls(rules, claim)
    ensures Calm(server.world, old(server.clock), turn) ==> ok == BindingOk(rules, old(server.objects), claim)
  {
    if !rules.claimOk(claim) { return false; }
    var volume := rules.volumeOf(claim);
    if volume.None? {
      var selected := rules.selectedNode(claim);
      if selected.None? { return true; }
      ok := VerifyBoundNode(server, rules, selected.value, turn);
      return;
    }
    ghost var before := |server.answers|;
    var reading := server.Get(Id(PersistentVolume, volume.value));
    ghost var now := server.answers;
    if !reading.Present? { return false; }
    var host := rules.hostOf(reading.stored);
    if host.None? { return false; }
    var alive := VerifyBoundNode(server, rules, host.value, turn);
    assert server.answers[before] == now[before];
    return alive && rules.boundOk(reading.stored, claim);
  }

  lemma BindingKept(rules: Rules, answers: seq<Answer>, later: seq<Answer>, k: nat, claim: Stored)
    requires answers <= later && BindingRead(rules, answers, k, claim)
    ensures BindingRead(rules, later, k, claim)
  {
    assert forall i :: 0 <= i < |answers| ==> later[i] == answers[i];
  }

  function Pinned(rules: Rules, id: Id, existing: Stored, canonical: string): string {
    if id.kind.Pod? && rules.nodeOf(existing).Some? then rules.pin(canonical, rules.nodeOf(existing).value)
        else canonical
  }

  predicate PersistedOk(rules: Rules, objects: Objects, id: Id, existing: Stored, canonical: string) {
    && ExactOk(rules, id, existing, Pinned(rules, id, existing, canonical))
    && (id.kind.PersistentVolumeClaim? ==> BindingOk(rules, objects, existing))
    && (id.kind.Pod? ==> rules.binderOk(existing))
  }

  /** What is checked of a persisted object, with what was read of a claim's binding from there on. */
  predicate PersistedRead(rules: Rules, answers: seq<Answer>, k: nat, id: Id, existing: Stored, canonical: string) {
    && k + PersistedCalls(rules, id, existing) <= |answers|
    && rules.envelopeOk(id, existing)
    && (id.kind.PersistentVolumeClaim? ==> BindingRead(rules, answers, k, existing))
    && (id.kind.Pod? ==> rules.binderOk(existing))
    && (if id.kind.Pod? && rules.nodeOf(existing).Some?
        then rules.exact(id, existing, rules.pin(canonical, rules.nodeOf(existing).value))
        else rules.exact(id, existing, canonical))
  }

  /** The calls it takes to pass those checks. */
  function PersistedCalls(rules: Rules, id: Id, existing: Stored): nat {
    if id.kind.PersistentVolumeClaim? then BindingCalls(rules, existing) else 0
  }

  lemma PersistedKept(
    rules: Rules, answers: seq<Answer>, later: seq<Answer>, k: nat, id: Id, existing: Stored, canonical: string)
    requires answers <= later && PersistedRead(rules, answers, k, id, existing, canonical)
    ensures PersistedRead(rules, later, k, id, existing, canonical)
  {
    hide BindingRead;
    if id.kind.PersistentVolumeClaim? { BindingKept(rules, answers, later, k, existing); }
  }

  method ValidatePersisted(
    server: ApiServer, rules: Rules, id: Id, existing: Stored, canonical: string, ghost turn: Turn)
    returns (ok: bool)
    requires server.Valid()
    modifies server
    ensures OnlyReads(server, turn) && NoStatefulSetRead(server.answers, |old(server.answers)|)
    ensures ok <==> PersistedRead(rules, server.answers, |old(server.answers)|, id, existing, canonical)
    ensures ok ==> |server.answers| == |old(server.answers)| + PersistedCalls(rules, id, existing)
    ensures Calm(server.world, old(server.clock), turn) ==>
              ok == PersistedOk(rules, old(server.objects), id, existing, canonical)
  {
    hide BindingRead, BindingOk;
    if !ExactOk(rules, id, existing, Pinned(rules, id, existing, canonical)) { return false; }
    if id.kind.PersistentVolumeClaim? {
      ok := ValidateClaimBinding(server, rules, existing, turn);
      return;
    }
    if id.kind.Pod? { return rules.binderOk(existing); }
    return true;
  }

  /** On a calm server the persisted object of an entry passes every check made on it. */
  predicate Acceptable(rules: Rules, turn: Turn, objects: Objects, item: Target) {
    && item.id in objects.stored
    && var existing := objects.stored[item.id];
       && rules.envelopeOk(item.id, existing)
       && CanonicalOf(rules, turn, item, existing).Some?
       && PersistedOk(rules, objects, item.id, existing, CanonicalOf(rules, turn, item, existing).value)
       && (item.id.kind.Pod? ==> ExactOk(rules, item.id, existing, CanonicalOf(rules, turn, item, existing).value))
  }

  /** Objects that only grew, and not by volumes. */
  ghost predicate Grown(before: Objects, after: Objects) {
    && (forall id :: id in before.stored ==> id in after.stored && after.stored[id] == before.stored[id])
    && VolumesIn(after) == VolumesIn(before)
  }

  lemma AcceptableGrows(rules: Rules, turn: Turn, before: Objects, after: Objects, item: Target)
    requires Acceptable(rules, turn, before, item) && Grown(before, after)
    ensures Acceptable(rules, turn, after, item)
  {
  }

  /** There in the history the object of an entry was canonicalised, and right behind that it passed every check. */
  predicate Validated(rules: Rules, answers: seq<Answer>, k: nat, item: Target, existing: Stored) {
    && k < |answers| && Canonicalised(rules, answers[k], item, existing)
    && PersistedRead(rules, answers, k + 1, item.id, existing, answers[k].canonical.value)
  }

  /** There the entry was read present, and right behind that its object was canonicalised and checked. */
  predicate ExactRead(rules: Rules, answers: seq<Answer>, k: nat, item: Target) {
    && k < |answers| && answers[k].Read? && answers[k].id == item.id && answers[k].reading.Present?
    && Validated(rules, answers, k + 1, item, answers[k].reading.stored)
  }

  /** The calls it takes to read an entry, canonicalise it and check it. */
  function ExactCalls(rules: Rules, id: Id, existing: Stored): nat { 2 + PersistedCalls(rules, id, existing) }

  lemma ValidatedKept(rules: Rules, answers: seq<Answer>, later: seq<Answer>, k: nat, item: Target, existing: Stored)
    requires answers <= later && Validated(rules, answers, k, item, existing)
    ensures Validated(rules, later, k, item, existing)
  {
    hide PersistedRead;
    assert later[k] == answers[k];
    PersistedKept(rules, answers, later, k + 1, item.id, existing, CanonicalAnswer(answers[k]));
  }

  function CanonicalAnswer(answer: Answer): string {
    if answer.DryRun? && answer.canonical.Some? then answer.canonical.value else ""
  }

  lemma ExactReadKept(rules: Rules, answers: seq<Answer>, later: seq<Answer>, k: nat, item: Target)
    requires answers <= later && ExactRead(rules, answers, k, item)
    ensures ExactRead(rules, later, k, item) && later[k] == answers[k]
  {
    hide Validated;
    assert later[k] == answers[k];
    ValidatedKept(rules, answers, later, k + 1, item, answers[k].reading.stored);
  }

  /** Envelope, canonical form and comparison of one present entry. */
  method ValidateExisting(server: ApiServer, rules: Rules, item: Target, existing: Stored, ghost turn: Turn)
    returns (ok: bool)
    requires server.Valid()
    modifies server
    ensures OnlyReads(server, turn) && NoStatefulSetRead(server.answers, |old(server.answers)|)
    ensures !rules.envelopeOk(item.id, existing) ==> !ok && server.answers == old(server.answers)
    ensures ok ==>
              && Validated(rules, server.answers, |old(server.answers)|, item, existing)
              && |server.answers| == |old(server.answers)| + 1 + PersistedCalls(rules, item.id, existing)
    ensures (&& Calm(server.world, old(server.clock), turn)
             && Acceptable(rules, turn, old(server.objects), item)
             && old(server.objects).stored[item.id] == existing) ==> ok
  {
    hide Canonicalised, PersistedRead, PersistedOk;
    if !rules.envelopeOk(item.id, existing) { return false; }
    var canonical := CanonicalExisting(server, rules, item, existing, turn);
    if canonical.None? { return false; }
    ok := ValidatePersisted(server, rules, item.id, existing, canonical.value, turn);
  }

  lemma SawLast(before: seq<Answer>, answers: seq<Answer>, later: seq<Answer>, from: nat, id: Id, reading: Reading)
    requires answers == before + [Read(id, reading)] && from <= |before| && answers <= later
    ensures Saw(later, from, |later|, id, reading)
  {
    assert answers[|before|] == Read(id, reading);
  }

  /** Reads an entry again and checks it; nothing to return when it is absent or refused. */
  method ReadExisting(server: ApiServer, rules: Rules, item: Target, ghost turn: Turn) returns (found: Option<Stored>)
    requires server.Valid() && !item.id.kind.StatefulSet?
    modifies server
    ensures OnlyReads(server, turn) && NoStatefulSetRead(server.answers, |old(server.answers)|)
    ensures found.Some? ==>
              && ExactRead(rules, server.answers, |old(server.answers)|, item)
              && server.answers[|old(server.answers)|].reading == Present(found.value)
              && |server.answers| == |old(server.answers)| + ExactCalls(rules, item.id, found.value)
    ensures Calm(server.world, old(server.clock), turn) && Acceptable(rules, turn, old(server.objects), item) ==>
              found == Some(old(server.objects).stored[item.id])
  {
    hide Acceptable, Validated;
    AcceptableIsThere(rules, turn, server.objects, item);
    ghost var before := server.answers;
    var reading := server.Get(item.id);
    ghost var now := server.answers;
    if !reading.Present? { return None; }
    var exact := ValidateExisting(server, rules, item, reading.stored, turn);
    if !exact { return None; }
    assert server.answers[|before|] == now[|before|] == Read(item.id, reading);
    return Some(reading.stored);
  }

  lemma AcceptableIsThere(rules: Rules, turn: Turn, objects: Objects, item: Target)
    ensures Acceptable(rules, turn, objects, item) ==> item.id in objects.stored
  {
  }

  // ----- the NetworkPolicy gate -----

  function OfKind(targets: seq<Target>, kind: Kind): seq<Target> {
    if targets == [] then []
    else
      var front := OfKind(targets[..|targets| - 1], kind);
      if targets[|targets| - 1].id.kind == kind then front + [targets[|targets| - 1]] else front
  }

  lemma {:induction false} OfKindHolds(targets: seq<Target>, kind: Kind, i: nat)
    requires i < |targets| && targets[i].id.kind == kind
    ensures targets[i] in OfKind(targets, kind)
  {
    if i < |targets| - 1 { OfKindHolds(targets[..|targets| - 1], kind, i); }
  }

  lemma {:induction false} OfKindOnly(targets: seq<Target>, kind: Kind)
    ensures forall item :: item in OfKind(targets, kind) ==> item in targets && item.id.kind == kind
  {
    if targets != [] {
      OfKindOnly(targets[..|targets| - 1], kind);
      assert forall item :: item in targets[..|targets| - 1] ==> item in targets;
    }
  }

  /** From there on these were read one after the other, each present and exact, two calls for each. */
  ghost predicate PoliciesRead(rules: Rules, answers: seq<Answer>, items: seq<Target>, n: nat, from: nat) {
    && n <= |items| && from + 2 * n <= |answers|
    && forall i :: 0 <= i < n ==> ExactRead(rules, answers, from + 2 * i, items[i])
  }

  lemma PoliciesKept(rules: Rules, answers: seq<Answer>, later: seq<Answer>, items: seq<Target>, n: nat, from: nat)
    requires PoliciesRead(rules, answers, items, n, from) && answers <= later
    ensures PoliciesRead(rules, later, items, n, from)
  {
    hide ExactRead;
    forall i | 0 <= i < n ensures ExactRead(rules, later, from + 2 * i, items[i]) {
      ExactReadKept(rules, answers, later, from + 2 * i, items[i]);
    }
  }

  ghost predicate PoliciesReady(rules: Rules, turn: Turn, objects: Objects, items: seq<Target>) {
    forall i :: 0 <= i < |items| ==> Acceptable(rules, turn, objects, items[i])
  }

  method VerifyNetworkPolicies(server: ApiServer, rules: Rules, targets: seq<Target>, ghost turn: Turn)
    returns (ok: bool)
    requires server.Valid()
    modifies server
    ensures OnlyReads(server, turn) && NoStatefulSetRead(server.answers, |old(server.answers)|)
    ensures ok ==>
              && PoliciesRead(rules, server.answers, OfKind(targets, NetworkPolicy), 9, |old(server.answers)|)
              && |server.answers| == |old(server.answers)| + 18
    ensures (&& Calm(server.world, old(server.clock), turn) && |OfKind(targets, NetworkPolicy)| == 9
             && PoliciesReady(rules, turn, old(server.objects), OfKind(targets, NetworkPolicy))) ==> ok
  {
    hide Acceptable, ExactRead;
    var policies := OfKind(targets, NetworkPolicy);
    if |policies| != 9 { return false; }
    OfKindOnly(targets, NetworkPolicy);
    ghost var start := |server.answers|;
    for i := 0 to |policies|
      invariant OnlyReads(server, turn) && NoStatefulSetRead(server.answers, start)
      invariant PoliciesRead(rules, server.answers, policies, i, start) && |server.answers| == start + 2 * i
    {
      ghost var before := server.answers;
      var existing := ReadExisting(server, rules, policies[i], turn);
      if existing.None? { return false; }
      PoliciesKept(rules, before, server.answers, policies, i, start);
    }
    return true;
  }

  // ----- the storage gate -----

  /** The claim that a binder Pod consumes. */
  function BinderClaim(pod: string): string {
    if pod == "mss-shop-postgres-storage-binder" then "mss-shop-postgres-data"
    else if pod == "mss-shop-redis-storage-binder" then "mss-shop-redis-data" else ""
  }

  function ClaimNames(items: seq<Target>): set<string> {
    set i | 0 <= i < |items| :: items[i].id.name
  }

  function BoundNames(items: seq<Target>): set<string> {
    set i | 0 <= i < |items| :: BinderClaim(items[i].id.name)
  }

  /** There a claim was read exact, bound, and as recorded. */
  predicate ClaimRead(rules: Rules, answers: seq<Answer>, k: nat, item: Target, claims: map<string, Claim>) {
    && ExactRead(rules, answers, k, item) && rules.isBound(answers[k].reading.stored)
    && item.id.name in claims && rules.claim(answers[k].reading.stored) == claims[item.id.name]
  }

  /** Where the reading of the first n entries ends that begins there. */
  function EndOfReads(rules: Rules, answers: seq<Answer>, items: seq<Target>, n: nat, from: nat): (end: nat)
    requires n <= |items|
    ensures from <= end
  {
    if n == 0 then from
    else
      var k := EndOfReads(rules, answers, items, n - 1, from);
      if k < |answers| && answers[k].Read? && answers[k].reading.Present?
      then k + ExactCalls(rules, items[n - 1].id, answers[k].reading.stored) else k
  }

  /** From there on the first n claims were read one after the other. */
  ghost predicate ClaimsRead(
    rules: Rules, answers: seq<Answer>, items: seq<Target>, n: nat, from: nat, claims: map<string, Claim>)
  {
    && n <= |items| && EndOfReads(rules, answers, items, n, from) <= |answers|
    && forall i :: 0 <= i < n ==>
        ClaimRead(rules, answers, EndOfReads(rules, answers, items, i, from), items[i], claims)
  }

  /** There a binder Pod was read, and right behind that found exact without pinning its node, and scheduled
      on the recorded node. */
  predicate BinderRead(rules: Rules, answers: seq<Answer>, k: nat, item: Target, nodes: map<string, string>) {
    && k + 1 < |answers| && answers[k].Read? && answers[k].id == item.id && answers[k].reading.Present?
    && var existing := answers[k].reading.stored;
       && Canonicalised(rules, answers[k + 1], item, existing)
       && rules.envelopeOk(item.id, existing) && rules.binderOk(existing)
       && rules.exact(item.id, existing, answers[k + 1].canonical.value)
       && BinderClaim(item.id.name) in nodes && rules.nodeOf(existing) == Some(nodes[BinderClaim(item.id.name)])
  }

  /** From there on the first n binders were read one after the other, two calls for each. */
  ghost predicate BindersRead(
    rules: Rules, answers: seq<Answer>, items: seq<Target>, n: nat, from: nat, nodes: map<string, string>)
  {
    && n <= |items| && from + 2 * n <= |answers|
    && forall i :: 0 <= i < n ==> BinderRead(rules, answers, from + 2 * i, items[i], nodes)
  }

  /** A listing that is exclusive for these claims. */
  ghost predicate Listing(rules: Rules, answer: Answer, claims: map<string, Claim>, nodes: map<string, string>) {
    answer.Listed? && answer.volumes.Some? && Accepted(rules.reviewed, answer.volumes.value, nodes, claims)
  }

  /** There two listings were made in a row, both exclusive, of the same volumes. */
  ghost predicate ListedTwice(
    rules: Rules, answers: seq<Answer>, k: nat, claims: map<string, Claim>, nodes: map<string, string>)
  {
    && k + 1 < |answers|
    && Listing(rules, answers[k], claims, nodes) && Listing(rules, answers[k + 1], claims, nodes)
    && multiset(answers[k].volumes.value) == multiset(answers[k + 1].volumes.value)
  }

  /** Without a call between them, each claim was read bound, each binder on its node, and two listings of
      the volumes were made, both exclusive for those claims and of the same volumes. */
  ghost predicate StorageRead(
    rules: Rules, answers: seq<Answer>, claimItems: seq<Target>, podItems: seq<Target>, from: nat, to: nat)
  {
    exists claims: map<string, Claim>, nodes: map<string, string> ::
      StorageReadAs(rules, answers, claimItems, podItems, from, to, claims, nodes)
  }

  ghost predicate StorageReadAs(
    rules: Rules, answers: seq<Answer>, claimItems: seq<Target>, podItems: seq<Target>, from: nat, to: nat,
    claims: map<string, Claim>, nodes: map<string, string>)
  {
    var mid := EndOfReads(rules, answers, claimItems, |claimItems|, from);
    && claims.Keys == ClaimNames(claimItems) && nodes.Keys == BoundNames(podItems)
    && ClaimsRead(rules, answers, claimItems, |claimItems|, from, claims)
    && BindersRead(rules, answers, podItems, |podItems|, mid, nodes)
    && ListedTwice(rules, answers, mid + 2 * |podItems|, claims, nodes)
    && to == mid + 2 * |podItems| + 2
  }

  ghost predicate IsClaims(rules: Rules, objects: Objects, items: seq<Target>, claims: map<string, Claim>) {
    && claims.Keys == ClaimNames(items)
    && forall i :: 0 <= i < |items| ==>
        items[i].id in objects.stored && claims[items[i].id.name] == rules.claim(objects.stored[items[i].id])
  }

  ghost predicate IsNodes(rules: Rules, objects: Objects, items: seq<Target>, nodes: map<string, string>) {
    && nodes.Keys == BoundNames(items)
    && forall i :: 0 <= i < |items| ==>
         && items[i].id in objects.stored
         && rules.nodeOf(objects.stored[items[i].id]) == Some(nodes[BinderClaim(items[i].id.name)])
  }

  /** A claim that is bound, a binder that is scheduled. */
  predicate ClaimReady(rules: Rules, turn: Turn, objects: Objects, item: Target) {
    Acceptable(rules, turn, objects, item) && rules.isBound(objects.stored[item.id])
  }

  predicate BinderReady(rules: Rules, turn: Turn, objects: Objects, item: Target) {
    Acceptable(rules, turn, objects, item) && rules.nodeOf(objects.stored[item.id]).Some?
  }

  /** On a calm server the storage gate has nothing to object to. */
  ghost predicate StorageReady(
    rules: Rules, turn: Turn, objects: Objects, claimItems: seq<Target>, podItems: seq<Target>)
  {
    && |claimItems| == |podItems| == 2
    && |ClaimNames(claimItems)| == 2
    && (forall i :: 0 <= i < |claimItems| ==> ClaimReady(rules, turn, objects, claimItems[i]))
    && (forall i :: 0 <= i < |podItems| ==> BinderReady(rules, turn, objects, podItems[i]))
    && forall claims, nodes ::
         IsClaims(rules, objects, claimItems, claims) && IsNodes(rules, objects, podItems, nodes) ==>
           Accepted(rules.reviewed, turn.listing(VolumesIn(objects)), nodes, claims)
  }

  predicate Extends<V(==)>(few: map<string, V>, more: map<string, V>) {
    forall name :: name in few ==> name in more && more[name] == few[name]
  }

  lemma {:induction false} EndKept(
    rules: Rules, answers: seq<Answer>, later: seq<Answer>, items: seq<Target>, n: nat, from: nat,
    claims: map<string, Claim>)
    requires answers <= later && n <= |items| && ClaimsRead(rules, answers, items, n, from, claims)
    ensures EndOfReads(rules, later, items, n, from) == EndOfReads(rules, answers, items, n, from)
  {
    hide ClaimsRead, ExactCalls;
    if n > 0 {
      EndsBefore(rules, answers, items, n - 1, n, from, claims);
      LastClaim(rules, answers, items, n, from, claims);
      EndKept(rules, answers, later, items, n - 1, from, claims);
      var k := EndOfReads(rules, answers, items, n - 1, from);
      assert later[k] == answers[k];
    }
  }

  lemma LastClaim(
    rules: Rules, answers: seq<Answer>, items: seq<Target>, n: nat, from: nat, claims: map<string, Claim>)
    requires 0 < n <= |items| && ClaimsRead(rules, answers, items, n, from, claims)
    ensures var k := EndOfReads(rules, answers, items, n - 1, from);
            k < |answers| && answers[k].Read? && answers[k].reading.Present?
  {
    hide EndOfReads, Validated;
  }

  lemma ClaimKept(
    rules: Rules, answers: seq<Answer>, later: seq<Answer>, k: nat, item: Target, claims: map<string, Claim>,
    more: map<string, Claim>)
    requires ClaimRead(rules, answers, k, item, claims) && answers <= later && Extends(claims, more)
    ensures ClaimRead(rules, later, k, item, more)
  {
    ExactReadKept(rules, answers, later, k, item);
    hide Validated;
  }

  lemma ClaimsKept(
    rules: Rules, answers: seq<Answer>, later: seq<Answer>, items: seq<Target>, n: nat, from: nat,
    claims: map<string, Claim>, more: map<string, Claim>)
    requires ClaimsRead(rules, answers, items, n, from, claims) && answers <= later && Extends(claims, more)
    ensures ClaimsRead(rules, later, items, n, from, more)
    ensures EndOfReads(rules, later, items, n, from) == EndOfReads(rules, answers, items, n, from)
  {
    hide ClaimRead, EndOfReads;
    EndKept(rules, answers, later, items, n, from, claims);
    forall i | 0 <= i < n ensures ClaimRead(rules, later, EndOfReads(rules, later, items, i, from), items[i], more) {
      EndsBefore(rules, answers, items, i, n, from, claims);
      EndKept(rules, answers, later, items, i, from, claims);
      ClaimKept(rules, answers, later, EndOfReads(rules, answers, items, i, from), items[i], claims, more);
    }
  }

  lemma {:induction false} EndGrows(rules: Rules, answers: seq<Answer>, items: seq<Target>, i: nat, n: nat, from: nat)
    requires i <= n <= |items|
    ensures EndOfReads(rules, answers, items, i, from) <= EndOfReads(rules, answers, items, n, from)
  {
    hide ExactCalls;
    if i < n { EndGrows(rules, answers, items, i, n - 1, from); }
  }

  lemma EndsBefore(
    rules: Rules, answers: seq<Answer>, items: seq<Target>, i: nat, n: nat, from: nat, claims: map<string, Claim>)
    requires i <= n && ClaimsRead(rules, answers, items, n, from, claims)
    ensures ClaimsRead(rules, answers, items, i, from, claims)
  {
    hide ClaimRead, EndOfReads;
    EndGrows(rules, answers, items, i, n, from);
  }

  lemma BindersKept(
    rules: Rules, answers: seq<Answer>, later: seq<Answer>, items: seq<Target>, n: nat, from: nat,
    nodes: map<string, string>, more: map<string, string>)
    requires BindersRead(rules, answers, items, n, from, nodes) && answers <= later && Extends(nodes, more)
    ensures BindersRead(rules, later, items, n, from, more)
  {
    hide BinderClaim;
    assert forall i :: 0 <= i < |answers| ==> later[i] == answers[i];
    forall i | 0 <= i < n ensures BinderRead(rules, later, from + 2 * i, items[i], more) {
      assert BinderRead(rules, answers, from + 2 * i, items[i], nodes);
    }
  }

  lemma ListedKept(
    rules: Rules, answers: seq<Answer>, later: seq<Answer>, k: nat, claims: map<string, Claim>,
    nodes: map<string, string>)
    requires ListedTwice(rules, answers, k, claims, nodes) && answers <= later
    ensures ListedTwice(rules, later, k, claims, nodes)
  {
    hide Accepted;
    assert later[k] == answers[k] && later[k + 1] == answers[k + 1];
  }

  /** What was read stays in a longer history. */
  lemma StorageKept(
    rules: Rules, answers: seq<Answer>, later: seq<Answer>, claimItems: seq<Target>, podItems: seq<Target>, from: nat,
    to: nat)
    requires StorageRead(rules, answers, claimItems, podItems, from, to) && answers <= later
    ensures StorageRead(rules, later, claimItems, podItems, from, to)
  {
    hide ClaimsRead, BindersRead, ListedTwice, ClaimNames, BoundNames, EndOfReads;
    var claims: map<string, Claim>, nodes: map<string, string> :|
      StorageReadAs(rules, answers, claimItems, podItems, from, to, claims, nodes);
    var mid := EndOfReads(rules, answers, claimItems, |claimItems|, from);
    ClaimsKept(rules, answers, later, claimItems, |claimItems|, from, claims, claims);
    BindersKept(rules, answers, later, podItems, |podItems|, mid, nodes, nodes);
    ListedKept(rules, answers, later, mid + 2 * |podItems|, claims, nodes);
    assert StorageReadAs(rules, later, claimItems, podItems, from, to, claims, nodes);
  }

  lemma StorageWithin(
    rules: Rules, answers: seq<Answer>, claimItems: seq<Target>, podItems: seq<Target>, from: nat, to: nat)
    requires StorageRead(rules, answers, claimItems, podItems, from, to)
    ensures from < to <= |answers|
  {
    hide ClaimsRead, BindersRead, Listing, ClaimNames, BoundNames;
    var claims: map<string, Claim>, nodes: map<string, string> :|
      StorageReadAs(rules, answers, claimItems, podItems, from, to, claims, nodes);
  }

  /** Two answered listings in a row, of the same volumes. */
  predicate ListedAlike(answers: seq<Answer>, k: nat) {
    && k + 1 < |answers| && answers[k].Listed? && answers[k + 1].Listed?
    && answers[k].volumes.Some? && answers[k + 1].volumes.Some?
    && multiset(answers[k].volumes.value) == multiset(answers[k + 1].volumes.value)
  }

  lemma EndsInListings(
    rules: Rules, answers: seq<Answer>, claimItems: seq<Target>, podItems: seq<Target>, from: nat, to: nat)
    requires StorageRead(rules, answers, claimItems, podItems, from, to)
    ensures from + 2 <= to && ListedAlike(answers, to - 2)
  {
    hide ClaimsRead, BindersRead, ClaimNames, BoundNames, Accepted;
    var claims: map<string, Claim>, nodes: map<string, string> :|
      StorageReadAs(rules, answers, claimItems, podItems, from, to, claims, nodes);
  }

  /** There a claim was read whose volume, as listed there, names it and sits on the node of its binder Pod,
      which was read there. */
  ghost predicate SitsWithBinder(
    rules: Rules, answers: seq<Answer>, claimAt: nat, claim: string, binderAt: nat, binder: string, listedAt: nat)
  {
    && claimAt < |answers| && binderAt < |answers| && listedAt < |answers|
    && answers[claimAt].Read? && answers[claimAt].id == Id(PersistentVolumeClaim, claim)
    && answers[binderAt].Read? && answers[binderAt].id == Id(Pod, binder)
    && answers[claimAt].reading.Present? && answers[binderAt].reading.Present?
    && answers[listedAt].Listed? && answers[listedAt].volumes.Some?
    && var bound := rules.claim(answers[claimAt].reading.stored);
       exists i :: 0 <= i < |answers[listedAt].volumes.value|
         && var volume := answers[listedAt].volumes.value[i];
            && volume.name == bound.volumeName && volume.claimRef == Ref(bound.namespace, claim, bound.uid)
            && volume.node.Some? && volume.node == rules.nodeOf(answers[binderAt].reading.stored)
  }

  /** When the storage gate passed, in both of the listings it ended with the volume of each claim sits on the
      node of the claim's own binder. */
  lemma ClaimsSitWithBinders(
    rules: Rules, answers: seq<Answer>, claims: seq<Target>, binders: seq<Target>, from: nat, to: nat, listing: nat)
    returns (second: nat)
    requires StorageRead(rules, answers, claims, binders, from, to) && |claims| == |binders| == 2
    requires claims[0].id == Id(PersistentVolumeClaim, "mss-shop-postgres-data")
    requires claims[1].id == Id(PersistentVolumeClaim, "mss-shop-redis-data")
    requires binders[0].id == Id(Pod, "mss-shop-postgres-storage-binder")
    requires binders[1].id == Id(Pod, "mss-shop-redis-storage-binder")
    requires to - 2 <= listing < to
    ensures from < second < to - 6
    ensures SitsWithBinder(rules, answers, from, "mss-shop-postgres-data", to - 6, "mss-shop-postgres-storage-binder",
                           listing)
    ensures SitsWithBinder(rules, answers, second, "mss-shop-redis-data", to - 4, "mss-shop-redis-storage-binder",
                           listing)
  {
    hide Listing, ClaimRead, BinderRead, SitsWithBinder, BinderClaim, PersistedCalls;
    var found: map<string, Claim>, nodes: map<string, string> :|
      StorageReadAs(rules, answers, claims, binders, from, to, found, nodes);
    second := EndOfReads(rules, answers, claims, 1, from);
    BinderNames();
    assert ClaimRead(rules, answers, EndOfReads(rules, answers, claims, 0, from), claims[0], found);
    assert ClaimRead(rules, answers, second, claims[1], found);
    ClaimShows(rules, answers, from, claims[0], found);
    ClaimShows(rules, answers, second, claims[1], found);
    assert BinderRead(rules, answers, to - 6 + 2 * 0, binders[0], nodes);
    assert BinderRead(rules, answers, to - 6 + 2 * 1, binders[1], nodes);
    SitsNow(rules, answers, from, claims[0], to - 6, binders[0], listing, found, nodes);
    SitsNow(rules, answers, second, claims[1], to - 4, binders[1], listing, found, nodes);
  }

  lemma ClaimShows(rules: Rules, answers: seq<Answer>, k: nat, item: Target, claims: map<string, Claim>)
    requires ClaimRead(rules, answers, k, item, claims)
    ensures k < |answers| && answers[k].Read? && answers[k].id == item.id && answers[k].reading.Present?
  {
    hide Validated;
  }

  lemma SitsNow(
    rules: Rules, answers: seq<Answer>, claimAt: nat, claim: Target, binderAt: nat, binder: Target, listedAt: nat,
    claims: map<string, Claim>, nodes: map<string, string>)
    requires ClaimRead(rules, answers, claimAt, claim, claims) && BinderRead(rules, answers, binderAt, binder, nodes)
    requires claim.id.kind.PersistentVolumeClaim? && binder.id.kind.Pod? && BinderClaim(binder.id.name) == claim.id.name
    requires listedAt < |answers| && Listing(rules, answers[listedAt], claims, nodes)
    ensures SitsWithBinder(rules, answers, claimAt, claim.id.name, binderAt, binder.id.name, listedAt)
  {
    hide Validated, Canonicalised, Accepted, BinderClaim;
    ListedOnNode(rules, answers[listedAt], claims, nodes, claim.id.name);
  }

  lemma BinderNames()
    ensures BinderClaim("mss-shop-postgres-storage-binder") == "mss-shop-postgres-data"
    ensures BinderClaim("mss-shop-redis-storage-binder") == "mss-shop-redis-data"
  {
    assert |"mss-shop-postgres-storage-binder"| != |"mss-shop-redis-storage-binder"|;
  }

  lemma ListedOnNode(
    rules: Rules, answer: Answer, claims: map<string, Claim>, nodes: map<string, string>, name: string)
    requires Listing(rules, answer, claims, nodes) && name in claims && name in nodes
    ensures exists i :: 0 <= i < |answer.volumes.value|
              && var volume := answer.volumes.value[i];
                 && volume.name == claims[name].volumeName
                 && volume.claimRef == Ref(claims[name].namespace, name, claims[name].uid)
                 && volume.node == Some(nodes[name])
  {
    AcceptedMeansExclusive(rules.reviewed, answer.volumes.value, nodes, claims);
    hide Accepted;
    var i :| 0 <= i < |answer.volumes.value|
             && Serves(rules.reviewed, answer.volumes.value[i], nodes, name, claims[name]);
  }

  predicate DistinctNames(items: seq<Target>) {
    forall i, j :: 0 <= i < j < |items| ==> items[i].id.name != items[j].id.name
  }

  predicate DistinctBinders(items: seq<Target>) {
    forall i, j :: 0 <= i < j < |items| ==> BinderClaim(items[i].id.name) != BinderClaim(items[j].id.name)
  }

  lemma ClaimsGrow(
    rules: Rules, objects: Objects, items: seq<Target>, i: nat, claims: map<string, Claim>, existing: Stored)
    requires DistinctNames(items) && i < |items| && claims.Keys == ClaimNames(items[..i])
    ensures items[i].id.name !in claims
    ensures claims[items[i].id.name := rules.claim(existing)].Keys == ClaimNames(items[..i + 1])
    ensures IsClaims(rules, objects, items[..i], claims) && Lookup(objects, items[i].id) == Present(existing) ==>
              IsClaims(rules, objects, items[..i + 1], claims[items[i].id.name := rules.claim(existing)])
  {
    hide BinderClaim;
    assert items[..i + 1] == items[..i] + [items[i]];
  }

  method ReadBoundClaims(server: ApiServer, rules: Rules, items: seq<Target>, ghost turn: Turn)
    returns (found: Option<map<string, Claim>>)
    requires server.Valid() && DistinctNames(items) && forall i :: 0 <= i < |items| ==> !items[i].id.kind.StatefulSet?
    modifies server
    ensures OnlyReads(server, turn) && NoStatefulSetRead(server.answers, |old(server.answers)|)
    ensures found.Some? ==>
              && found.value.Keys == ClaimNames(items)
              && ClaimsRead(rules, server.answers, items, |items|, |old(server.answers)|, found.value)
              && |server.answers| == EndOfReads(rules, server.answers, items, |items|, |old(server.answers)|)
    ensures (&& Calm(server.world, old(server.clock), turn)
             && forall i :: 0 <= i < |items| ==> ClaimReady(rules, turn, old(server.objects), items[i])) ==>
              found.Some? && IsClaims(rules, old(server.objects), items, found.value)
  {
    hide Acceptable, ExactRead, ClaimNames, IsClaims, DistinctNames, ClaimsRead, EndOfReads, ExactCalls;
    var claims: map<string, Claim> := map[];
    ghost var start := |server.answers|;
    NoClaims(rules, server.objects, items);
    NoClaimsRead(rules, server.answers, items);
    for i := 0 to |items|
      invariant OnlyReads(server, turn) && NoStatefulSetRead(server.answers, start)
      invariant claims.Keys == ClaimNames(items[..i])
      invariant ClaimsRead(rules, server.answers, items, i, start, claims)
      invariant |server.answers| == EndOfReads(rules, server.answers, items, i, start)
      invariant (&& Calm(server.world, old(server.clock), turn)
                 && forall j :: 0 <= j < |items| ==> ClaimReady(rules, turn, old(server.objects), items[j])) ==>
                  IsClaims(rules, old(server.objects), items[..i], claims)
    {
      ghost var before, was := server.answers, claims;
      AcceptableIsThere(rules, turn, old(server.objects), items[i]);
      var existing := ReadExisting(server, rules, items[i], turn);
      if existing.None? || !rules.isBound(existing.value) { return None; }
      claims := claims[items[i].id.name := rules.claim(existing.value)];
      ClaimsGrow(rules, old(server.objects), items, i, was, existing.value);
      ClaimsKept(rules, before, server.answers, items, i, start, was, claims);
      NextClaim(rules, server.answers, items, i, start, claims, existing.value);
    }
    assert items[..|items|] == items;
    return Some(claims);
  }

  lemma NoClaimsRead(rules: Rules, answers: seq<Answer>, items: seq<Target>)
    ensures ClaimsRead(rules, answers, items, 0, |answers|, map[])
    ensures EndOfReads(rules, answers, items, 0, |answers|) == |answers|
  {
  }

  lemma NextClaim(
    rules: Rules, answers: seq<Answer>, items: seq<Target>, i: nat, from: nat, claims: map<string, Claim>,
    existing: Stored)
    requires i < |items| && ClaimsRead(rules, answers, items, i, from, claims)
    requires var k := EndOfReads(rules, answers, items, i, from);
             && ExactRead(rules, answers, k, items[i]) && answers[k].reading == Present(existing)
             && rules.isBound(existing)
             && k + ExactCalls(rules, items[i].id, existing) == |answers|
    requires items[i].id.name in claims && claims[items[i].id.name] == rules.claim(existing)
    ensures ClaimsRead(rules, answers, items, i + 1, from, claims)
    ensures |answers| == EndOfReads(rules, answers, items, i + 1, from)
  {
    hide Validated, ExactCalls, EndOfReads;
    EndNext(rules, answers, items, i, from);
  }

  lemma EndNext(rules: Rules, answers: seq<Answer>, items: seq<Target>, i: nat, from: nat)
    requires i < |items|
    ensures var k := EndOfReads(rules, answers, items, i, from);
            k < |answers| && answers[k].Read? && answers[k].reading.Present? ==>
              EndOfReads(rules, answers, items, i + 1, from) == k
                  + ExactCalls(rules, items[i].id, answers[k].reading.stored)
  {
    hide ExactCalls;
  }

  lemma NoClaims(rules: Rules, objects: Objects, items: seq<Target>)
    ensures ClaimNames(items[..0]) == {} && IsClaims(rules, objects, items[..0], map[])
    ensures BoundNames(items[..0]) == {} && IsNodes(rules, objects, items[..0], map[])
  {
  }

  lemma NodesGrow(
    rules: Rules, objects: Objects, items: seq<Target>, i: nat, nodes: map<string, string>, existing: Stored)
    requires DistinctBinders(items) && i < |items| && nodes.Keys == BoundNames(items[..i])
    requires rules.nodeOf(existing).Some?
    ensures BinderClaim(items[i].id.name) !in nodes
    ensures nodes[BinderClaim(items[i].id.name) := rules.nodeOf(existing).value].Keys == BoundNames(items[..i + 1])
    ensures IsNodes(rules, objects, items[..i], nodes) && Lookup(objects, items[i].id) == Present(existing) ==>
              IsNodes(rules, objects, items[..i + 1],
                      nodes[BinderClaim(items[i].id.name) := rules.nodeOf(existing).value])
  {
    hide BinderClaim;
    assert items[..i + 1] == items[..i] + [items[i]];
  }

  /** A binder Pod is compared without pinning its node. */
  method ReadBinder(server: ApiServer, rules: Rules, item: Target, ghost turn: Turn) returns (found: Option<Stored>)
    requires server.Valid() && !item.id.kind.StatefulSet?
    modifies server
    ensures OnlyReads(server, turn) && NoStatefulSetRead(server.answers, |old(server.answers)|)
    ensures |server.answers| > |old(server.answers)| && server.answers[|old(server.answers)|].Read?
    ensures var reading := server.answers[|old(server.answers)|].reading;
            reading.Present? && !rules.envelopeOk(item.id, reading.stored) ==>
              found.None? && |server.answers| == |old(server.answers)| + 1
    ensures found.Some? ==>
              && |server.answers| == |old(server.answers)| + 2
              && server.answers[|old(server.answers)|] == Read(item.id, Present(found.value))
              && Canonicalised(rules, server.answers[|old(server.answers)| + 1], item, found.value)
              && ExactOk(rules, item.id, found.value, server.answers[|old(server.answers)| + 1].canonical.value)
              && rules.binderOk(found.value)
    ensures Calm(server.world, old(server.clock), turn) && item.id.kind.Pod?
            && Acceptable(rules, turn, old(server.objects), item) ==>
              found == Some(old(server.objects).stored[item.id])
  {
    hide ExactOk;
    ghost var before := server.answers;
    var reading := server.Get(item.id);
    ghost var now := server.answers;
    if !reading.Present? { return None; }
    if !rules.envelopeOk(item.id, reading.stored) { return None; }
    var canonical := CanonicalExisting(server, rules, item, reading.stored, turn);
    if canonical.None? || !ExactOk(rules, item.id, reading.stored, canonical.value) { return None; }
    if !rules.binderOk(reading.stored) { return None; }
    assert server.answers[|before|] == now[|before|] == Read(item.id, reading);
    return Some(reading.stored);
  }

  method ReadBinderNodes(server: ApiServer, rules: Rules, items: seq<Target>, ghost turn: Turn)
    returns (found: Option<map<string, string>>)
    requires server.Valid() && DistinctBinders(items) && forall i :: 0 <= i < |items| ==> !items[i].id.kind.StatefulSet?
    modifies server
    ensures OnlyReads(server, turn) && NoStatefulSetRead(server.answers, |old(server.answers)|)
    ensures found.Some? ==>
              && found.value.Keys == BoundNames(items)
              && BindersRead(rules, server.answers, items, |items|, |old(server.answers)|, found.value)
              && |server.answers| == |old(server.answers)| + 2 * |items|
    ensures (&& Calm(server.world, old(server.clock), turn)
             && forall i :: 0 <= i < |items| ==>
                 items[i].id.kind.Pod? && BinderReady(rules, turn, old(server.objects), items[i])) ==>
              found.Some? && IsNodes(rules, old(server.objects), items, found.value)
  {
    hide Acceptable, Canonicalised, BoundNames, IsNodes, DistinctBinders, BinderClaim;
    var nodes: map<string, string> := map[];
    ghost var start := |server.answers|;
    NoClaims(rules, server.objects, items);
    for i := 0 to |items|
      invariant OnlyReads(server, turn) && NoStatefulSetRead(server.answers, start)
      invariant nodes.Keys == BoundNames(items[..i])
      invariant BindersRead(rules, server.answers, items, i, start, nodes) && |server.answers| == start + 2 * i
      invariant (&& Calm(server.world, old(server.clock), turn)
                 && forall j :: 0 <= j < |items| ==>
                     items[j].id.kind.Pod? && BinderReady(rules, turn, old(server.objects), items[j])) ==>
                  IsNodes(rules, old(server.objects), items[..i], nodes)
    {
      ghost var before, was := server.answers, nodes;
      AcceptableIsThere(rules, turn, old(server.objects), items[i]);
      var existing := ReadBinder(server, rules, items[i], turn);
      if existing.None? { return None; }
      var node := rules.nodeOf(existing.value);
      if node.None? { return None; }
      nodes := nodes[BinderClaim(items[i].id.name) := node.value];
      NodesGrow(rules, old(server.objects), items, i, was, existing.value);
      BindersKept(rules, before, server.answers, items, i, start, was, nodes);
      assert BinderRead(rules, server.answers, start + 2 * i, items[i], nodes);
    }
    assert items[..|items|] == items;
    return Some(nodes);
  }

  lemma SameInventory(
    rules: Rules, claims: map<string, Claim>, nodes: map<string, string>, a: seq<Volume>, b: seq<Volume>)
    requires Accepted(rules.reviewed, a, nodes, claims) && Accepted(rules.reviewed, b, nodes, claims)
    requires Sorting.Sort(VolumeKey, a) == Sorting.Sort(VolumeKey, b)
    ensures multiset(a) == multiset(b)
  {
    FingerprintForgetsOrder(a, b);
  }

  method CompareListings(
    server: ApiServer, rules: Rules, claims: map<string, Claim>, nodes: map<string, string>, ghost turn: Turn)
    returns (ok: bool)
    requires server.Valid()
    modifies server
    ensures OnlyReads(server, turn) && NoStatefulSetRead(server.answers, |old(server.answers)|)
    ensures ok ==>
              && ListedTwice(rules, server.answers, |old(server.answers)|, claims, nodes)
              && |server.answers| == |old(server.answers)| + 2
    ensures (&& Calm(server.world, old(server.clock), turn)
             && Accepted(rules.reviewed, turn.listing(VolumesIn(old(server.objects))), nodes, claims)) ==> ok
  {
    hide Accepted;
    ghost var a := |server.answers|;
    var first := server.ListVolumes();
    ghost var now := server.answers;
    if first.None? { return false; }
    var before := ValidateSnapshot(rules.reviewed, first.value, claims, nodes);
    if before.None? { return false; }
    var second := server.ListVolumes();
    if second.None? { return false; }
    var after := ValidateSnapshot(rules.reviewed, second.value, claims, nodes);
    if after.None? { return false; }
    if before.value != after.value { return false; }
    SameInventory(rules, claims, nodes, first.value, second.value);
    assert server.answers[a] == now[a];
    assert Listing(rules, server.answers[a], claims, nodes) && Listing(rules, server.answers[a + 1], claims, nodes);
    return true;
  }

  method VerifyStorageAdmission(server: ApiServer, rules: Rules, targets: seq<Target>, ghost turn: Turn)
    returns (ok: bool)
    requires server.Valid()
    requires DistinctNames(OfKind(targets, PersistentVolumeClaim)) && DistinctBinders(OfKind(targets, Pod))
    modifies server
    ensures OnlyReads(server, turn) && NoStatefulSetRead(server.answers, |old(server.answers)|)
    ensures ok ==> StorageRead(rules, server.answers, OfKind(targets, PersistentVolumeClaim), OfKind(targets, Pod),
                               |old(server.answers)|, |server.answers|)
    ensures ok ==> |ClaimNames(OfKind(targets, PersistentVolumeClaim))| == |OfKind(targets, Pod)| == 2
    ensures (&& Calm(server.world, old(server.clock), turn)
             && StorageReady(rules, turn, old(server.objects), OfKind(targets, PersistentVolumeClaim),
                             OfKind(targets, Pod))) ==> ok
  {
    hide ClaimsRead, BindersRead, EndOfReads, ClaimNames, BoundNames, IsClaims, IsNodes, Accepted, DistinctNames,
         DistinctBinders, ClaimReady, BinderReady, ListedTwice, OfKind, StorageRead;
    var claimItems, podItems := OfKind(targets, PersistentVolumeClaim), OfKind(targets, Pod);
    OfKindOnly(targets, Pod);
    OfKindOnly(targets, PersistentVolumeClaim);
    ghost var start := server.answers;
    var claims := ReadBoundClaims(server, rules, claimItems, turn);
    if claims.None? || |claims.value| != 2 { return false; }
    ghost var read := server.answers;
    if |podItems| != 2 { return false; }
    var nodes := ReadBinderNodes(server, rules, podItems, turn);
    if nodes.None? { return false; }
    ghost var mid := server.answers;
    ok := CompareListings(server, rules, claims.value, nodes.value, turn);
    if ok { AllRead(rules, start, read, mid, server.answers, claimItems, podItems, claims.value, nodes.value); }
  }

  lemma AllRead(
    rules: Rules, start: seq<Answer>, read: seq<Answer>, mid: seq<Answer>, answers: seq<Answer>,
    claimItems: seq<Target>, podItems: seq<Target>, claims: map<string, Claim>, nodes: map<string, string>)
    requires start <= read <= mid <= answers
    requires claims.Keys == ClaimNames(claimItems) && nodes.Keys == BoundNames(podItems)
    requires ClaimsRead(rules, read, claimItems, |claimItems|, |start|, claims)
    requires |read| == EndOfReads(rules, read, claimItems, |claimItems|, |start|)
    requires BindersRead(rules, mid, podItems, |podItems|, |read|, nodes) && |mid| == |read| + 2 * |podItems|
    requires ListedTwice(rules, answers, |mid|, claims, nodes) && |answers| == |mid| + 2
    ensures StorageRead(rules, answers, claimItems, podItems, |start|, |answers|)
  {
    hide ClaimsRead, BindersRead, ListedTwice, EndOfReads, ClaimNames, BoundNames, BinderClaim;
    ClaimsKept(rules, read, answers, claimItems, |claimItems|, |start|, claims, claims);
    BindersKept(rules, mid, answers, podItems, |podItems|, |read|, nodes, nodes);
    assert StorageReadAs(rules, answers, claimItems, podItems, |start|, |answers|, claims, nodes);
  }
}
