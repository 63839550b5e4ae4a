/** The create-only infrastructure stage: read all, check, dry-run, read again, create in order. */
module Infrastructure {
  import opened Basics
  import opened Cluster
  import opened InfrastructureGates

  const INVENTORY: seq<Id> := [
    Id(Namespace, "mss-shop-dev"),
    Id(ResourceQuota, "mss-shop-dev-quota"),
    Id(LimitRange, "mss-shop-dev-defaults"),
    Id(ConfigMap, "mss-shop-postgres-config"),
    Id(PersistentVolumeClaim, "mss-shop-postgres-data"),
    Id(Service, "mss-shop-postgres"),
    Id(ConfigMap, "mss-shop-redis-config"),
    Id(PersistentVolumeClaim, "mss-shop-redis-data"),
    Id(Service, "mss-shop-redis"),
    Id(NetworkPolicy, "default-deny-ingress"),
    Id(NetworkPolicy, "default-deny-egress"),
    Id(NetworkPolicy, "allow-dns-egress"),
    Id(NetworkPolicy, "allow-ingress-nginx-to-admin"),
    Id(NetworkPolicy, "allow-admin-to-datastores-egress"),
    Id(NetworkPolicy, "allow-database-writers-to-postgres-egress"),
    Id(NetworkPolicy, "allow-platform-to-postgres-ingress"),
    Id(NetworkPolicy, "allow-platform-to-redis-ingress"),
    Id(NetworkPolicy, "allow-legacy-import-to-source-postgres"),
    Id(Pod, "mss-shop-postgres-storage-binder"),
    Id(Pod, "mss-shop-redis-storage-binder"),
    Id(StatefulSet, "mss-shop-postgres"),
    Id(PodDisruptionBudget, "mss-shop-postgres"),
    Id(StatefulSet, "mss-shop-redis"),
    Id(PodDisruptionBudget, "mss-shop-redis")]

  function Ids(targets: seq<Target>): (ids: seq<Id>)
    ensures |ids| == |targets| && forall i :: 0 <= i < |targets| ==> ids[i] == targets[i].id
  {
    seq(|targets|, i requires 0 <= i < |targets| => targets[i].id)
  }

  // ----- the shape of the inventory that the stage relies on -----

  predicate KindsInOrder(ids: seq<Id>) {
    && |ids| == 24
    && (forall i :: 0 <= i < 24 ==> (ids[i].kind.Namespace? <==> i == 0))
    && (forall i :: 0 <= i < 24 ==> (ids[i].kind.PersistentVolumeClaim? <==> i == 4 || i == 7))
    && (forall i :: 0 <= i < 24 ==> (ids[i].kind.NetworkPolicy? <==> 9 <= i < 18))
    && (forall i :: 0 <= i < 24 ==> (ids[i].kind.Pod? <==> i == 18 || i == 19))
    && (forall i :: 0 <= i < 24 ==> (ids[i].kind.StatefulSet? <==> i == 20 || i == 22))
    && (forall i :: 0 <= i < 24 ==> !ids[i].kind.PersistentVolume?)
  }

  ghost predicate Shaped(targets: seq<Target>) {
    && KindsInOrder(Ids(targets)) && Distinct(Ids(targets))
    && DistinctNames([targets[4], targets[7]])
    && DistinctBinders([targets[18], targets[19]])
  }

  lemma InventoryKinds()
    ensures KindsInOrder(INVENTORY)
  {
    hide INVENTORY;
    InventoryStorageKinds();
    InventoryOtherKinds();
  }

  lemma InventoryStorageKinds()
    ensures |INVENTORY| == 24
    ensures forall i :: 0 <= i < 24 ==> (INVENTORY[i].kind.PersistentVolumeClaim? <==> i == 4 || i == 7)
    ensures forall i :: 0 <= i < 24 ==> (INVENTORY[i].kind.Pod? <==> i == 18 || i == 19)
    ensures forall i :: 0 <= i < 24 ==> (INVENTORY[i].kind.StatefulSet? <==> i == 20 || i == 22)
  {
  }

  lemma InventoryOtherKinds()
    ensures |INVENTORY| == 24
    ensures forall i :: 0 <= i < 24 ==> (INVENTORY[i].kind.Namespace? <==> i == 0)
    ensures forall i :: 0 <= i < 24 ==> (INVENTORY[i].kind.NetworkPolicy? <==> 9 <= i < 18)
    ensures forall i :: 0 <= i < 24 ==> !INVENTORY[i].kind.PersistentVolume?
  {
  }

  lemma PoliciesDiffer()
    ensures |INVENTORY| == 24
    ensures forall i, j :: 9 <= i < j < 18 ==> INVENTORY[i] != INVENTORY[j]
  {
    forall i, j | 9 <= i < j < 18 ensures INVENTORY[i] != INVENTORY[j] {
      assert |INVENTORY[i].name| != |INVENTORY[j].name|;
    }
  }

  lemma OthersDiffer()
    ensures |INVENTORY| == 24
    ensures forall i, j :: 0 <= i < j < 24 && !(9 <= i < 18) && !(9 <= j < 18) ==> INVENTORY[i] != INVENTORY[j]
  {
    forall i, j | 0 <= i < j < 24 && !(9 <= i < 18) && !(9 <= j < 18) ensures INVENTORY[i] != INVENTORY[j] {
      assert INVENTORY[i].kind == INVENTORY[j].kind ==> |INVENTORY[i].name| != |INVENTORY[j].name|;
    }
  }

  lemma InventoryIsDistinct()
    ensures Distinct(INVENTORY)
  {
    hide INVENTORY;
    InventoryOtherKinds();
    PoliciesDiffer();
    OthersDiffer();
  }

  lemma {:induction false} NoneOfKind(targets: seq<Target>, kind: Kind, from: nat, to: nat)
    requires from <= to <= |targets| && forall i :: from <= i < to ==> targets[i].id.kind != kind
    ensures OfKind(targets[..to], kind) == OfKind(targets[..from], kind)
  {
    if from < to {
      NoneOfKind(targets, kind, from, to - 1);
      assert targets[..to][..to - 1] == targets[..to - 1];
    }
  }

  lemma {:induction false} AllOfKind(targets: seq<Target>, kind: Kind, from: nat, to: nat)
    requires from <= to <= |targets| && forall i :: from <= i < to ==> targets[i].id.kind == kind
    ensures OfKind(targets[..to], kind) == OfKind(targets[..from], kind) + targets[from..to]
  {
    if from < to {
      AllOfKind(targets, kind, from, to - 1);
      assert targets[..to][..to - 1] == targets[..to - 1];
      assert targets[from..to - 1] + [targets[to - 1]] == targets[from..to];
    }
  }

  lemma {:induction false} ShapedPolicies(t: seq<Target>)
    requires KindsInOrder(Ids(t))
    ensures OfKind(t, NetworkPolicy) == t[9..18]
  {
    assert t[..24] == t && t[..0] == [];
    assert forall i :: 0 <= i < 24 ==> t[i].id == Ids(t)[i];
    NoneOfKind(t, NetworkPolicy, 0, 9);
    AllOfKind(t, NetworkPolicy, 9, 18);
    NoneOfKind(t, NetworkPolicy, 18, 24);
  }

  lemma {:induction false} ShapedClaims(t: seq<Target>)
    requires KindsInOrder(Ids(t))
    ensures OfKind(t, PersistentVolumeClaim) == [t[4], t[7]]
  {
    assert t[..24] == t && t[..0] == [];
    assert forall i :: 0 <= i < 24 ==> t[i].id == Ids(t)[i];
    NoneOfKind(t, PersistentVolumeClaim, 0, 4);
    AllOfKind(t, PersistentVolumeClaim, 4, 5);
    NoneOfKind(t, PersistentVolumeClaim, 5, 7);
    AllOfKind(t, PersistentVolumeClaim, 7, 8);
    NoneOfKind(t, PersistentVolumeClaim, 8, 24);
  }

  lemma {:induction false} ShapedPods(t: seq<Target>)
    requires KindsInOrder(Ids(t))
    ensures OfKind(t, Pod) == [t[18], t[19]]
  {
    assert t[..24] == t && t[..0] == [];
    assert forall i :: 0 <= i < 24 ==> t[i].id == Ids(t)[i];
    NoneOfKind(t, Pod, 0, 18);
    AllOfKind(t, Pod, 18, 20);
    NoneOfKind(t, Pod, 20, 24);
  }

  /** Where the kinds that matter sit in a shaped inventory. */
  lemma {:induction false} ShapedKinds(targets: seq<Target>)
    requires Shaped(targets)
    ensures OfKind(targets, NetworkPolicy) == targets[9..18]
    ensures OfKind(targets, PersistentVolumeClaim) == [targets[4], targets[7]]
    ensures OfKind(targets, Pod) == [targets[18], targets[19]]
  {
    ShapedPolicies(targets);
    ShapedClaims(targets);
    ShapedPods(targets);
  }

  lemma InventoryIsShaped(targets: seq<Target>)
    requires Ids(targets) == INVENTORY
    ensures Shaped(targets)
  {
    hide KindsInOrder, Distinct;
    InventoryKinds();
    InventoryIsDistinct();
    assert targets[4].id == Ids(targets)[4] && targets[7].id == Ids(targets)[7];
    assert targets[18].id == Ids(targets)[18] && targets[19].id == Ids(targets)[19];
    assert |targets[4].id.name| == 22 && |targets[7].id.name| == 19;
  }

  // ----- the first full read -----

  datatype Stop =
    | ReadAllFailed | StorageClassUnfit | ExistingRefused | GateRefused | DryRunFailed | Collision | RacedStatefulSet
    | BindingPhaseChanged | NotConfirmed

  datatype Result = Result(created: seq<Id>, retried: seq<Id>, error: Option<Stop>)

  /** The run's first reads are the whole inventory, in order, with these results. */
  ghost predicate Observes(answers: seq<Answer>, start: nat, targets: seq<Target>, observed: seq<Option<Stored>>) {
    && start + |observed| <= |answers| && |observed| <= |targets|
    && forall i :: 0 <= i < |observed| ==> answers[start + i] == Read(targets[i].id, ReadingOf(observed[i]))
  }

  lemma ObservesKept(
    answers: seq<Answer>, later: seq<Answer>, start: nat, targets: seq<Target>, observed: seq<Option<Stored>>)
    requires Observes(answers, start, targets, observed) && answers <= later
    ensures Observes(later, start, targets, observed)
  {
    assert forall k :: 0 <= k < |answers| ==> later[k] == answers[k];
  }

  ghost predicate SeenAsIs(objects: Objects, targets: seq<Target>, observed: seq<Option<Stored>>) {
    && |observed| <= |targets|
    && forall i :: 0 <= i < |observed| ==> Lookup(objects, targets[i].id) == ReadingOf(observed[i])
  }

  method ReadAllTargets(server: ApiServer, targets: seq<Target>, ghost turn: Turn)
    returns (observed: Option<seq<Option<Stored>>>)
    requires server.Valid()
    modifies server
    ensures OnlyReads(server, turn)
    ensures |server.answers| == |old(server.answers)| + |targets|
    ensures observed.Some? ==>
              |observed.value| == |targets| && Observes(server.answers, |old(server.answers)|, targets, observed.value)
    ensures Calm(server.world, old(server.clock), turn) ==>
              observed.Some? && SeenAsIs(old(server.objects), targets, observed.value)
  {
    var result: seq<Option<Stored>>, failed := [], false;
    for i := 0 to |targets|
      invariant OnlyReads(server, turn)
      invariant |server.answers| == |old(server.answers)| + i && |result| == i
      invariant !failed ==> Observes(server.answers, |old(server.answers)|, targets, result)
      invariant Calm(server.world, old(server.clock), turn) ==>
          !failed && SeenAsIs(old(server.objects), targets, result)
    {
      var reading := server.Get(targets[i].id);
      if reading.ReadFailed? { failed := true; }
      result := result + [if reading.Present? then Some(reading.stored) else None];
    }
    if failed { return None; }
    return Some(result);
  }

  function MissingOf(targets: seq<Target>, observed: seq<Option<Stored>>): seq<Target>
    requires |targets| == |observed|
  {
    if targets == [] then []
    else
      var n := |targets| - 1;
      var front := MissingOf(targets[..n], observed[..n]);
      if observed[n].None? then front + [targets[n]] else front
  }

  function PresentOf(targets: seq<Target>, observed: seq<Option<Stored>>): seq<Id>
    requires |targets| == |observed|
  {
    if targets == [] then []
    else
      var n := |targets| - 1;
      var front := PresentOf(targets[..n], observed[..n]);
      if observed[n].Some? then front + [targets[n].id] else front
  }

  function Absent(targets: seq<Target>, observed: seq<Option<Stored>>): set<Id>
    requires |targets| == |observed|
  {
    set i | 0 <= i < |targets| && observed[i].None? :: targets[i].id
  }

  /** Whether a set holds exactly the identities that were not found. */
  predicate AreAbsent(targets: seq<Target>, observed: seq<Option<Stored>>, absent: set<Id>)
    requires |targets| == |observed|
  {
    forall i :: 0 <= i < |targets| ==> (observed[i].None? <==> targets[i].id in absent)
  }

  lemma {:induction false} MissingIds(targets: seq<Target>, observed: seq<Option<Stored>>, absent: set<Id>)
    requires |targets| == |observed| && AreAbsent(targets, observed, absent)
    ensures Ids(MissingOf(targets, observed)) == Those(Ids(targets), absent)
  {
    if targets != [] {
      var n := |targets| - 1;
      MissingIds(targets[..n], observed[..n], absent);
      assert Ids(targets)[..n] == Ids(targets[..n]);
    }
  }

  lemma {:induction false} PresentAre(targets: seq<Target>, observed: seq<Option<Stored>>, absent: set<Id>)
    requires |targets| == |observed| && AreAbsent(targets, observed, absent)
    ensures Elements(PresentOf(targets, observed)) == Elements(Ids(targets)) - absent
  {
    if targets == [] {
      assert Elements([]) == {};
    } else {
      var n := |targets| - 1;
      PresentAre(targets[..n], observed[..n], absent);
      assert Ids(targets) == Ids(targets[..n]) + [targets[n].id];
      AddElement(Ids(targets[..n]), targets[n].id);
      AddElement(PresentOf(targets[..n], observed[..n]), targets[n].id);
    }
  }

  lemma {:induction false} MissingCount(targets: seq<Target>, observed: seq<Option<Stored>>)
    requires |targets| == |observed|
    ensures |MissingOf(targets, observed)| + |PresentOf(targets, observed)| == |targets|
    ensures forall item :: item in MissingOf(targets, observed) ==> item in targets
  {
    if targets != [] {
      var n := |targets| - 1;
      MissingCount(targets[..n], observed[..n]);
      assert forall item :: item in targets[..n] ==> item in targets;
    }
  }

  lemma AbsentAt(targets: seq<Target>, observed: seq<Option<Stored>>, i: nat)
    requires |targets| == |observed| && Distinct(Ids(targets)) && i < |targets|
    ensures targets[i].id in Absent(targets, observed) <==> observed[i].None?
  {
    assert forall j :: 0 <= j < |targets| ==> Ids(targets)[j] == targets[j].id;
  }

  /** The missing and the present entries split the inventory, both in its order. */
  lemma MissingAndPresent(targets: seq<Target>, observed: seq<Option<Stored>>)
    requires |targets| == |observed| && Distinct(Ids(targets))
    ensures Ids(MissingOf(targets, observed)) == Those(Ids(targets), Absent(targets, observed))
    ensures |MissingOf(targets, observed)| + |PresentOf(targets, observed)| == |targets|
    ensures Elements(PresentOf(targets, observed)) == Elements(Ids(targets)) - Absent(targets, observed)
    ensures forall item :: item in MissingOf(targets, observed) ==> item in targets
  {
    forall i | 0 <= i < |targets| ensures observed[i].None? <==> targets[i].id in Absent(targets, observed) {
      AbsentAt(targets, observed, i);
    }
    MissingIds(targets, observed, Absent(targets, observed));
    PresentAre(targets, observed, Absent(targets, observed));
    MissingCount(targets, observed);
  }

  /** What the first read shows about storage: some claim or binder is still missing. */
  predicate PhaseChanged(targets: seq<Target>, observed: seq<Option<Stored>>) {
    exists i :: 0 <= i < |observed| <= |targets| && observed[i].None?
                && (targets[i].id.kind.PersistentVolumeClaim? || targets[i].id.kind.Pod?)
  }

  predicate HasStatefulSet(targets: seq<Target>, observed: seq<Option<Stored>>) {
    exists i :: 0 <= i < |observed| <= |targets| && observed[i].Some? && targets[i].id.kind.StatefulSet?
  }

  /** Somewhere in the stretch this object of the entry was canonicalised and passed every check. */
  ghost predicate Passed(rules: Rules, answers: seq<Answer>, from: nat, to: nat, item: Target, existing: Stored) {
    exists k: nat :: from <= k && k + 1 + PersistedCalls(rules, item.id, existing) <= to <= |answers|
                     && Validated(rules, answers, k, item, existing)
  }

  lemma PassedKept(
    rules: Rules, answers: seq<Answer>, later: seq<Answer>, from: nat, to: nat, from': nat, to': nat, item: Target,
    existing: Stored)
    requires answers <= later && from' <= from && to <= to' <= |later|
    requires Passed(rules, answers, from, to, item, existing)
    ensures Passed(rules, later, from', to', item, existing)
  {
    hide Validated;
    var k: nat :| from <= k && k + 1 + PersistedCalls(rules, item.id, existing) <= to <= |answers|
                  && Validated(rules, answers, k, item, existing);
    ValidatedKept(rules, answers, later, k, item, existing);
  }

  /** Everything that was there passed. */
  ghost predicate AllPassed(
    rules: Rules, answers: seq<Answer>, from: nat, to: nat, targets: seq<Target>, observed: seq<Option<Stored>>, n: nat)
  {
    && n <= |observed| <= |targets|
    && forall i :: 0 <= i < n && observed[i].Some? ==> Passed(rules, answers, from, to, targets[i], observed[i].value)
  }

  lemma AllPassedKept(
    rules: Rules, answers: seq<Answer>, later: seq<Answer>, from: nat, to: nat, from': nat, to': nat,
    targets: seq<Target>, observed: seq<Option<Stored>>, n: nat)
    requires answers <= later && from' <= from && to <= to' <= |later|
    requires AllPassed(rules, answers, from, to, targets, observed, n)
    ensures AllPassed(rules, later, from', to', targets, observed, n)
  {
    hide Passed;
    forall i | 0 <= i < n && observed[i].Some? ensures Passed(rules, later, from', to', targets[i], observed[i].value) {
      PassedKept(rules, answers, later, from, to, from', to', targets[i], observed[i].value);
    }
  }

  lemma NothingSeen(targets: seq<Target>, observed: seq<Option<Stored>>)
    requires |targets| == |observed|
    ensures PresentOf(targets[..0], observed[..0]) == []
    ensures !HasStatefulSet(targets, observed[..0]) && !PhaseChanged(targets, observed[..0])
  {
  }

  /** What one more entry adds to the three summaries of the first read. */
  lemma OneMoreSeen(targets: seq<Target>, observed: seq<Option<Stored>>, i: nat)
    requires |targets| == |observed| && i < |targets|
    ensures PresentOf(targets[..i + 1], observed[..i + 1]) ==
            PresentOf(targets[..i], observed[..i]) + if observed[i].Some? then [targets[i].id] else []
    ensures HasStatefulSet(targets, observed[..i + 1]) ==
            (HasStatefulSet(targets, observed[..i]) || (observed[i].Some? && targets[i].id.kind.StatefulSet?))
    ensures PhaseChanged(targets, observed[..i + 1]) ==
            (|| PhaseChanged(targets, observed[..i])
             || (observed[i].None? && (targets[i].id.kind.PersistentVolumeClaim? || targets[i].id.kind.Pod?)))
  {
    assert targets[..i + 1][..i] == targets[..i] && observed[..i + 1][..i] == observed[..i];
    assert observed[..i + 1] == observed[..i] + [observed[i]];
  }

  lemma AllPassedNext(
    rules: Rules, before: seq<Answer>, answers: seq<Answer>, from: nat, targets: seq<Target>,
    observed: seq<Option<Stored>>, i: nat)
    requires AllPassed(rules, before, from, |before|, targets, observed, i) && before <= answers && i < |observed|
    requires observed[i].Some? ==>
               && Validated(rules, answers, |before|, targets[i], observed[i].value) && from <= |before|
               && |before| + 1 + PersistedCalls(rules, targets[i].id, observed[i].value) <= |answers|
    ensures AllPassed(rules, answers, from, |answers|, targets, observed, i + 1)
  {
    hide Validated, PersistedCalls, Passed;
    AllPassedKept(rules, before, answers, from, |before|, from, |answers|, targets, observed, i);
    if observed[i].Some? { PassedNow(rules, answers, from, |before|, targets[i], observed[i].value); }
  }

  lemma SeenAt(objects: Objects, targets: seq<Target>, observed: seq<Option<Stored>>, i: nat)
    requires SeenAsIs(objects, targets, observed) && i < |observed|
    ensures Lookup(objects, targets[i].id) == ReadingOf(observed[i])
  {
  }

  method ValidateObserved(
    server: ApiServer, rules: Rules, targets: seq<Target>, observed: seq<Option<Stored>>, ghost turn: Turn)
    returns (ok: bool, retried: seq<Id>, hasStatefulSet: bool, phaseChanged: bool)
    requires server.Valid() && |observed| == |targets|
    modifies server
    ensures OnlyReads(server, turn) && NoStatefulSetRead(server.answers, |old(server.answers)|)
    ensures ok ==> retried == PresentOf(targets, observed)
    ensures ok ==>
              AllPassed(rules, server.answers, |old(server.answers)|, |server.answers|, targets, observed, |targets|)
    ensures ok ==> hasStatefulSet == HasStatefulSet(targets, observed)
    ensures ok ==> phaseChanged == PhaseChanged(targets, observed)
    ensures (&& Calm(server.world, old(server.clock), turn) && SeenAsIs(old(server.objects), targets, observed)
             && forall i :: 0 <= i < |targets| && observed[i].Some? ==>
                 Acceptable(rules, turn, old(server.objects), targets[i])) ==> ok
  {
    hide Acceptable, Validated, PersistedCalls, Passed, PresentOf, HasStatefulSet, PhaseChanged, SeenAsIs;
    retried, hasStatefulSet, phaseChanged := [], false, false;
    ghost var start := |server.answers|;
    NothingSeen(targets, observed);
    for i := 0 to |targets|
      invariant OnlyReads(server, turn) && NoStatefulSetRead(server.answers, start)
      invariant retried == PresentOf(targets[..i], observed[..i])
      invariant hasStatefulSet == HasStatefulSet(targets, observed[..i])
      invariant phaseChanged == PhaseChanged(targets, observed[..i])
      invariant AllPassed(rules, server.answers, start, |server.answers|, targets, observed, i)
    {
      ghost var before := server.answers;
      OneMoreSeen(targets, observed, i);
      if observed[i].None? {
        if targets[i].id.kind.PersistentVolumeClaim? || targets[i].id.kind.Pod? { phaseChanged := true; }
        AllPassedNext(rules, before, before, start, targets, observed, i);
        continue;
      }
      if SeenAsIs(old(server.objects), targets, observed) { SeenAt(old(server.objects), targets, observed, i); }
      ok := ValidateExisting(server, rules, targets[i], observed[i].value, turn);
      if !ok { return; }
      AllPassedNext(rules, before, server.answers, start, targets, observed, i);
      hasStatefulSet := hasStatefulSet || targets[i].id.kind.StatefulSet?;
      retried := retried + [targets[i].id];
    }
    assert targets[..|targets|] == targets && observed[..|targets|] == observed;
    ok := true;
  }

  lemma PassedNow(rules: Rules, answers: seq<Answer>, from: nat, k: nat, item: Target, existing: Stored)
    requires from <= k && Validated(rules, answers, k, item, existing)
    requires k + 1 + PersistedCalls(rules, item.id, existing) <= |answers|
    ensures Passed(rules, answers, from, |answers|, item, existing)
  {
    hide Validated, PersistedCalls;
  }

  // ----- creating -----

  /** On a calm server, what a Create of this entry persists passes every later check. */
  ghost predicate Benign(rules: Rules, turn: Turn, item: Target) {
    && turn.admit(item.id, item.desired).Some?
    && forall o: Objects ::
         (item.id in o.stored && o.stored[item.id].content == turn.admit(item.id, item.desired).value) ==>
           && Acceptable(rules, turn, o, item)
           && PersistedOk(rules, o, item.id, o.stored[item.id], turn.admit(item.id, item.desired).value)
  }

  /** One more request to create, for this identity, made before anything else was read. */
  ghost predicate OneMore(before: seq<Attempt>, after: seq<Attempt>, id: Id, place: nat) {
    && |after| == |before| + 1 && before <= after
    && after[|before|].id == id && after[|before|].place == place
  }

  method InspectAmbiguousCreate(server: ApiServer, rules: Rules, item: Target, canonical: string, ghost turn: Turn)
    returns (stop: Stop)
    requires server.Valid()
    modifies server
    ensures OnlyReads(server, turn) && stop == NotConfirmed
    ensures !item.id.kind.StatefulSet? ==> NoStatefulSetRead(server.answers, |old(server.answers)|)
  {
    var reading := server.Get(item.id);
    if reading.Present? {
      var _ := ValidatePersisted(server, rules, item.id, reading.stored, canonical, turn);
    }
    return NotConfirmed;
  }

  /** There the entry was read, and right behind that its object passed every check against the canonical text. */
  ghost predicate ConfirmedAt(rules: Rules, answers: seq<Answer>, place: nat, id: Id, canonical: string) {
    && place < |answers| && answers[place].Read? && answers[place].id == id && answers[place].reading.Present?
    && PersistedRead(rules, answers, place + 1, id, answers[place].reading.stored, canonical)
  }

  method CreateAndVerify(server: ApiServer, rules: Rules, item: Target, canonical: string, ghost turn: Turn)
    returns (stop: Option<Stop>)
    requires server.Valid()
    modifies server
    ensures server.Valid() && old(server.answers) <= server.answers && old(server.clock) <= server.clock
    ensures OneMore(old(server.attempts), server.attempts, item.id, |old(server.answers)|)
    ensures stop.None? ==>
              && server.attempts[|old(server.attempts)|].answer.Some?
              && ConfirmedAt(rules, server.answers, |old(server.answers)|, item.id, canonical)
    ensures !item.id.kind.StatefulSet? ==> NoStatefulSetRead(server.answers, |old(server.answers)|)
    ensures (&& Calm(server.world, old(server.clock), turn) && Benign(rules, turn, item)
             && item.id !in old(server.objects).stored
             && turn.admit(item.id, item.desired) == Some(canonical)) ==>
              stop.None? && server.objects == Add(old(server.objects), item.id, canonical)
  {
    hide PersistedRead;
    ghost var before := server.answers;
    var created, _ := server.Create(item.id, item.desired);
    if created.None? {
      var failure := InspectAmbiguousCreate(server, rules, item, canonical, turn);
      return Some(failure);
    }
    var persisted := server.Get(item.id);
    ghost var now := server.answers;
    if !persisted.Present? { return Some(NotConfirmed); }
    var ok := ValidatePersisted(server, rules, item.id, persisted.stored, canonical, turn);
    assert server.answers[|before|] == now[|before|];
    return if ok then None else Some(NotConfirmed);
  }

  /** In the stretch the entry's manifest was dry-run as a create, with this answer. */
  ghost predicate DryRanCreate(answers: seq<Answer>, from: nat, to: nat, item: Target, canonical: string) {
    exists k: nat ::
      && from <= k < to <= |answers| && answers[k].DryRun? && answers[k].id == item.id
      && answers[k].sent == item.desired
      && answers[k].base.None? && answers[k].canonical == Some(canonical)
  }

  lemma DryRanKept(
    answers: seq<Answer>, later: seq<Answer>, from: nat, to: nat, from': nat, to': nat, item: Target, canonical: string)
    requires DryRanCreate(answers, from, to, item, canonical) && answers <= later && from' <= from
    requires to <= to' <= |later|
    ensures DryRanCreate(later, from', to', item, canonical)
  {
    var k: nat :|
      && from <= k < to <= |answers| && answers[k].DryRun? && answers[k].id == item.id
      && answers[k].sent == item.desired
      && answers[k].base.None? && answers[k].canonical == Some(canonical);
    assert later[k] == answers[k];
  }

  ghost predicate AllDryRun(answers: seq<Answer>, from: nat, to: nat, items: seq<Target>, canonicals: map<Id, string>) {
    forall i :: 0 <= i < |items| ==>
      items[i].id in canonicals && DryRanCreate(answers, from, to, items[i], canonicals[items[i].id])
  }

  lemma AllDryRunKept(
    answers: seq<Answer>, later: seq<Answer>, from: nat, to: nat, from': nat, to': nat,
    items: seq<Target>, few: seq<Target>, canonicals: map<Id, string>)
    requires AllDryRun(answers, from, to, items, canonicals) && answers <= later && from' <= from
    requires to <= to' <= |later|
    requires forall item :: item in few ==> item in items
    ensures AllDryRun(later, from', to', few, canonicals)
  {
    hide DryRanCreate;
    forall i | 0 <= i < |few| ensures few[i].id in canonicals
        && DryRanCreate(later, from', to', few[i], canonicals[few[i].id]) {
      assert few[i] in items;
      var j :| 0 <= j < |items| && items[j] == few[i];
      DryRanKept(answers, later, from, to, from', to', items[j], canonicals[items[j].id]);
    }
  }

  method DryRunAll(server: ApiServer, items: seq<Target>, ghost turn: Turn)
    returns (canonicals: Option<map<Id, string>>)
    requires server.Valid() && Distinct(Ids(items))
    modifies server
    ensures OnlyReads(server, turn) && NoStatefulSetRead(server.answers, |old(server.answers)|)
    ensures canonicals.Some? ==>
              AllDryRun(server.answers, |old(server.answers)|, |server.answers|, items, canonicals.value)
    ensures (&& Calm(server.world, old(server.clock), turn)
             && forall i :: 0 <= i < |items| ==>
                 items[i].id !in old(server.objects).stored && turn.admit(items[i].id, items[i].desired).Some?) ==>
              canonicals.Some?
    ensures Calm(server.world, old(server.clock), turn) && canonicals.Some? ==>
              forall i :: 0 <= i < |items| ==>
                  turn.admit(items[i].id, items[i].desired) == Some(canonicals.value[items[i].id])
  {
    hide DryRanCreate, AllDryRun, Distinct, Elements, AdmitsAll;
    var found: map<Id, string> := map[];
    ghost var start := |server.answers|;
    NothingDryRun(server.answers, items, turn);
    for i := 0 to |items|
      invariant OnlyReads(server, turn) && NoStatefulSetRead(server.answers, start)
      invariant found.Keys == Elements(Ids(items)[..i])
      invariant AllDryRun(server.answers, start, |server.answers|, items[..i], found)
      invariant Calm(server.world, old(server.clock), turn) ==> AdmitsAll(turn, items[..i], found)
    {
      ghost var before, was := server.answers, found;
      var canonical := server.DryRunCreate(items[i].id, items[i].desired);
      if canonical.None? { return None; }
      assert Ids(items)[..i + 1] == Ids(items)[..i] + [items[i].id];
      AddElement(Ids(items)[..i], items[i].id);
      found := found[items[i].id := canonical.value];
      DryRunNext(before, server.answers, start, items, i, was, canonical.value);
      AdmitsNext(turn, items, i, was, canonical.value);
    }
    assert Ids(items)[..|items|] == Ids(items) && items[..|items|] == items;
    AdmitsEach(turn, items, found);
    return Some(found);
  }

  /** What these dry runs answered is what a calm server makes of the entries. */
  predicate AdmitsAll(turn: Turn, items: seq<Target>, canonicals: map<Id, string>) {
    forall i :: 0 <= i < |items| ==>
      items[i].id in canonicals && turn.admit(items[i].id, items[i].desired) == Some(canonicals[items[i].id])
  }

  lemma AdmitsNext(turn: Turn, items: seq<Target>, i: nat, was: map<Id, string>, canonical: string)
    requires Distinct(Ids(items)) && i < |items|
    ensures AdmitsAll(turn, items[..i], was) && turn.admit(items[i].id, items[i].desired) == Some(canonical) ==>
              AdmitsAll(turn, items[..i + 1], was[items[i].id := canonical])
  {
    assert forall j :: 0 <= j < i ==> Ids(items)[j] != Ids(items)[i];
    assert items[..i + 1] == items[..i] + [items[i]];
  }

  lemma AdmitsEach(turn: Turn, items: seq<Target>, canonicals: map<Id, string>)
    ensures AdmitsAll(turn, items, canonicals) ==> forall i :: 0 <= i < |items| ==>
              items[i].id in canonicals && turn.admit(items[i].id, items[i].desired) == Some(canonicals[items[i].id])
  {
  }

  lemma NothingDryRun(answers: seq<Answer>, items: seq<Target>, turn: Turn)
    ensures AllDryRun(answers, |answers|, |answers|, items[..0], map[]) && AdmitsAll(turn, items[..0], map[])
    ensures Elements(Ids(items)[..0]) == {} && NoStatefulSetRead(answers, |answers|)
  {
  }

  lemma DryRunNext(
    before: seq<Answer>, answers: seq<Answer>, from: nat, items: seq<Target>, i: nat, found: map<Id, string>,
    canonical: string)
    requires i < |items| && Distinct(Ids(items)) && from <= |before|
    requires AllDryRun(before, from, |before|, items[..i], found)
    requires |answers| == |before| + 1 && before <= answers && answers[|before|].DryRun?
    requires answers[|before|].id == items[i].id
    requires answers[|before|].sent == items[i].desired && answers[|before|].base.None?
    requires answers[|before|].canonical == Some(canonical)
    ensures AllDryRun(answers, from, |answers|, items[..i + 1], found[items[i].id := canonical])
  {
    assert DryRanCreate(answers, from, |answers|, items[i], canonical);
    AllDryRunKept(before, answers, from, |before|, from, |answers|, items[..i], items[..i], found);
    assert forall j :: 0 <= j < i ==> Ids(items)[j] != Ids(items)[i];
    assert items[..i + 1] == items[..i] + [items[i]];
  }

  // ----- the second collision read -----

  /** Each of these was read again in the stretch: absent if still pending, present if raced. */
  ghost predicate Rechecked(answers: seq<Answer>, from: nat, to: nat, items: seq<Target>, pending: set<Id>) {
    forall i :: 0 <= i < |items| ==>
      if items[i].id in pending then Saw(answers, from, to, items[i].id, NotFound)
      else exists o :: Saw(answers, from, to, items[i].id, Present(o))
  }

  predicate IsStatefulSet(answer: Answer) {
    answer.Read? && answer.id.kind.StatefulSet? && answer.reading.Present?
  }

  ghost predicate StatefulSetSeen(answers: seq<Answer>, from: nat, to: nat) {
    exists k :: from <= k < to <= |answers| && IsStatefulSet(answers[k])
  }

  lemma RecheckedLater(answers: seq<Answer>, later: seq<Answer>, from: nat, items: seq<Target>, pending: set<Id>)
    requires answers <= later && Rechecked(answers, from, |answers|, items, pending)
    ensures Rechecked(later, from, |later|, items, pending)
  {
    hide Saw;
    forall i | 0 <= i < |items|
      ensures if items[i].id in pending then Saw(later, from, |later|, items[i].id, NotFound)
              else exists o :: Saw(later, from, |later|, items[i].id, Present(o))
    {
      if items[i].id in pending {
        SawKept(answers, later, from, |answers|, from, |later|, items[i].id, NotFound);
      } else {
        var o :| Saw(answers, from, |answers|, items[i].id, Present(o));
        SawKept(answers, later, from, |answers|, from, |later|, items[i].id, Present(o));
      }
    }
  }

  ghost predicate StatefulSetsUnread(answers: seq<Answer>, from: nat, to: nat) {
    forall k :: from <= k < to <= |answers| ==> !(answers[k].Read? && answers[k].id.kind.StatefulSet?)
  }

  lemma UnreadKept(answers: seq<Answer>, later: seq<Answer>, from: nat, to: nat)
    requires StatefulSetsUnread(answers, from, to) && to <= |answers| && answers <= later
    ensures StatefulSetsUnread(later, from, to)
  {
    assert forall k :: from <= k < to ==> later[k] == answers[k];
  }

  lemma UnreadJoined(begun: seq<Answer>, answers: seq<Answer>, from: nat, to: nat)
    requires begun <= answers && NoStatefulSetRead(begun, from) && StatefulSetsUnread(answers, |begun|, to)
    ensures StatefulSetsUnread(answers, from, to)
  {
    assert forall k :: from <= k < |begun| ==> answers[k] == begun[k];
  }

  lemma RecheckedKept(
    answers: seq<Answer>, later: seq<Answer>, from: nat, to: nat, items: seq<Target>, pending: set<Id>)
    requires answers <= later && Rechecked(answers, from, to, items, pending)
    ensures Rechecked(later, from, to, items, pending)
  {
    hide Saw;
    forall i | 0 <= i < |items|
      ensures if items[i].id in pending then Saw(later, from, to, items[i].id, NotFound)
              else exists o :: Saw(later, from, to, items[i].id, Present(o))
    {
      if items[i].id in pending {
        SawWithin(answers, from, to, items[i].id, NotFound);
        SawKept(answers, later, from, to, from, to, items[i].id, NotFound);
      } else {
        var o :| Saw(answers, from, to, items[i].id, Present(o));
        SawWithin(answers, from, to, items[i].id, Present(o));
        SawKept(answers, later, from, to, from, to, items[i].id, Present(o));
      }
    }
  }

  lemma RecheckedGrows(
    before: seq<Answer>, now: seq<Answer>, answers: seq<Answer>, from: nat, items: seq<Target>, i: nat,
    pending: set<Id>, reading: Reading)
    requires i < |items| && Rechecked(before, from, |before|, items[..i], pending) && from <= |before|
    requires now == before + [Read(items[i].id, reading)] && now <= answers && Distinct(Ids(items))
    requires pending <= Elements(Ids(items)[..i])
    ensures reading.NotFound? ==> Rechecked(answers, from, |answers|, items[..i + 1], pending + {items[i].id})
    ensures reading.Present? ==> Rechecked(answers, from, |answers|, items[..i + 1], pending)
  {
    hide Saw;
    RecheckedLater(before, answers, from, items[..i], pending);
    SawLast(before, now, answers, from, items[i].id, reading);
    assert forall j :: 0 <= j < i ==> Ids(items)[j] != Ids(items)[i];
    assert items[..i + 1] == items[..i] + [items[i]];
  }

  lemma StatefulSetSeenLater(
    before: seq<Answer>, now: seq<Answer>, answers: seq<Answer>, from: nat, id: Id, reading: Reading)
    requires from <= |before| && now == before + [Read(id, reading)] && now <= answers
    requires NoStatefulSetRead(answers, |now|)
    ensures StatefulSetSeen(answers, from, |answers|) <==>
              StatefulSetSeen(before, from, |before|) || (id.kind.StatefulSet? && reading.Present?)
  {
    if StatefulSetSeen(before, from, |before|) {
      var k :| from <= k < |before| && IsStatefulSet(before[k]);
      assert answers[k] == now[k] == before[k];
    }
    assert answers[|before|] == now[|before|];
    assert forall k :: from <= k < |before| ==> answers[k] == now[k] == before[k];
  }

  /** After its dry run the entry was found present, and passed every check against what that answered. */
  ghost predicate Adopted(rules: Rules, answers: seq<Answer>, from: nat, to: nat, item: Target) {
    exists k: nat, canonical ::
      && k < |answers| && answers[k].Read? && answers[k].id == item.id && answers[k].reading.Present?
      && DryRanCreate(answers, from, k, item, canonical)
      && PersistedRead(rules, answers, k + 1, item.id, answers[k].reading.stored, canonical)
      && k + 1 + PersistedCalls(rules, item.id, answers[k].reading.stored) <= to <= |answers|
  }

  lemma AdoptedKept(
    rules: Rules, answers: seq<Answer>, later: seq<Answer>, from: nat, to: nat, from': nat, to': nat, item: Target)
    requires Adopted(rules, answers, from, to, item) && answers <= later && from' <= from && to <= to' <= |later|
    ensures Adopted(rules, later, from', to', item)
  {
    hide PersistedRead, DryRanCreate;
    var k: nat, canonical :|
      && k < |answers| && answers[k].Read? && answers[k].id == item.id && answers[k].reading.Present?
      && DryRanCreate(answers, from, k, item, canonical)
      && PersistedRead(rules, answers, k + 1, item.id, answers[k].reading.stored, canonical)
      && k + 1 + PersistedCalls(rules, item.id, answers[k].reading.stored) <= to <= |answers|;
    assert later[k] == answers[k];
    DryRanKept(answers, later, from, k, from', k, item, canonical);
    PersistedKept(rules, answers, later, k + 1, item.id, answers[k].reading.stored, canonical);
  }

  /** All but the pending entries were adopted. */
  ghost predicate AllAdopted(
    rules: Rules, answers: seq<Answer>, from: nat, to: nat, items: seq<Target>, pending: set<Id>)
  {
    forall i :: 0 <= i < |items| && items[i].id !in pending ==> Adopted(rules, answers, from, to, items[i])
  }

  lemma AllAdoptedKept(
    rules: Rules, answers: seq<Answer>, later: seq<Answer>, from: nat, to: nat, from': nat, to': nat,
    items: seq<Target>, pending: set<Id>)
    requires AllAdopted(rules, answers, from, to, items, pending) && answers <= later && from' <= from
    requires to <= to' <= |later|
    ensures AllAdopted(rules, later, from', to', items, pending)
  {
    hide Adopted;
    forall i | 0 <= i < |items| && items[i].id !in pending ensures Adopted(rules, later, from', to', items[i]) {
      AdoptedKept(rules, answers, later, from, to, from', to', items[i]);
    }
  }

  /** One more entry: found absent, it becomes pending; found present, it was checked. */
  lemma AdoptedNext(
    rules: Rules, first: seq<Answer>, before: seq<Answer>, now: seq<Answer>, answers: seq<Answer>, from: nat,
    items: seq<Target>, i: nat, pending: set<Id>, canonicals: map<Id, string>, reading: Reading)
    requires i < |items| && AllAdopted(rules, before, from, |before|, items[..i], pending)
    requires first <= before && now == before + [Read(items[i].id, reading)] && now <= answers
    requires AllDryRun(first, from, |first|, items, canonicals)
    ensures reading.NotFound? ==> AllAdopted(rules, answers, from, |answers|, items[..i + 1], pending + {items[i].id})
    ensures (&& reading.Present?
             && PersistedRead(rules, answers, |now|, items[i].id, reading.stored, canonicals[items[i].id])
             && |now| + PersistedCalls(rules, items[i].id, reading.stored) <= |answers|) ==>
              AllAdopted(rules, answers, from, |answers|, items[..i + 1], pending)
  {
    hide PersistedRead, DryRanCreate;
    assert items[..i + 1] == items[..i] + [items[i]];
    AllAdoptedKept(rules, before, answers, from, |before|, from, |answers|, items[..i], pending);
    DryRanKept(first, answers, from, |first|, from, |before|, items[i], canonicals[items[i].id]);
    assert answers[|before|] == now[|before|] == Read(items[i].id, reading);
    hide AllDryRun;
    if reading.Present? && PersistedRead(rules, answers, |now|, items[i].id, reading.stored, canonicals[items[i].id])
       && |now| + PersistedCalls(rules, items[i].id, reading.stored) <= |answers| {
      assert Adopted(rules, answers, from, |answers|, items[i]);
    }
  }

  /** What was read splits into the pending entries, in order, and the raced ones. */
  predicate Parted(ids: seq<Id>, again: set<Id>, pending: seq<Id>, raced: seq<Id>) {
    && Elements(pending) == again <= Elements(ids) && pending == Those(ids, again)
    && Elements(raced) == Elements(ids) - again && |pending| + |raced| == |ids|
  }

  lemma PartedNext(ids: seq<Id>, i: nat, again: set<Id>, pending: seq<Id>, raced: seq<Id>)
    requires Distinct(ids) && i < |ids| && Parted(ids[..i], again, pending, raced)
    ensures Parted(ids[..i + 1], again + {ids[i]}, pending + [ids[i]], raced)
    ensures Parted(ids[..i + 1], again, pending, raced + [ids[i]])
  {
    hide Distinct, Those, Elements;
    NextItem(ids, i, again);
    AddElement(pending, ids[i]);
    AddElement(raced, ids[i]);
    AddElement(ids[..i], ids[i]);
  }

  method SecondReads(
    server: ApiServer, rules: Rules, items: seq<Target>, canonicals: map<Id, string>, ghost since: nat,
    ghost turn: Turn)
    returns (ok: bool, pending: seq<Target>, raced: seq<Id>, racedStatefulSet: bool)
    requires server.Valid() && Distinct(Ids(items))
    requires AllDryRun(server.answers, since, |server.answers|, items, canonicals)
    modifies server
    ensures OnlyReads(server, turn)
    ensures ok ==>
              && Ids(pending) == Those(Ids(items), Elements(Ids(pending)))
              && Elements(raced) == Elements(Ids(items)) - Elements(Ids(pending))
              && |pending| + |raced| == |items|
              && (forall item :: item in pending ==> item in items)
              && Rechecked(server.answers, |old(server.answers)|, |server.answers|, items, Elements(Ids(pending)))
              && racedStatefulSet == StatefulSetSeen(server.answers, |old(server.answers)|, |server.answers|)
              && AllAdopted(rules, server.answers, since, |server.answers|, items, Elements(Ids(pending)))
    ensures Calm(server.world, old(server.clock), turn)
            && (forall i :: 0 <= i < |items| ==> items[i].id !in old(server.objects).stored) ==>
              ok && pending == items && !racedStatefulSet
  {
    hide Rechecked, StatefulSetSeen, Distinct, PersistedOk, NoStatefulSetRead, Parted, AllDryRun, AllAdopted,
         PersistedRead, PersistedCalls, DryRanCreate;
    ghost var first := server.answers;
    pending, raced, racedStatefulSet := [], [], false;
    ghost var start, again := |server.answers|, {};
    NothingRechecked(server.answers, items);
    NothingAdopted(rules, server.answers, since, items);
    for i := 0 to |items|
      invariant OnlyReads(server, turn)
      invariant Parted(Ids(items)[..i], again, Ids(pending), raced)
      invariant forall item :: item in pending ==> item in items
      invariant Rechecked(server.answers, start, |server.answers|, items[..i], again)
      invariant racedStatefulSet == StatefulSetSeen(server.answers, start, |server.answers|)
      invariant AllAdopted(rules, server.answers, since, |server.answers|, items[..i], again)
      invariant Calm(server.world, old(server.clock), turn)
                && (forall j :: 0 <= j < |items| ==> items[j].id !in old(server.objects).stored) ==>
                  pending == items[..i] && !racedStatefulSet
    {
      ghost var before := server.answers;
      var item := items[i];
      var reading := server.Get(item.id);
      ghost var now := server.answers;
      if reading.ReadFailed? { ok := false; return; }
      PartedNext(Ids(items), i, again, Ids(pending), raced);
      assert Ids(items)[i] == item.id
          && again <= Elements(Ids(items)[..i]) by { PartedWithin(Ids(items)[..i], again, Ids(pending), raced); }
      if reading.NotFound? {
        RecheckedGrows(before, now, now, start, items, i, again, reading);
        StatefulSetSeenLater(before, now, now, start, item.id, reading) by { NothingAfter(now); }
        AdoptedNext(rules, first, before, now, now, since, items, i, again, canonicals, reading);
        assert Ids(pending + [item]) == Ids(pending) + [item.id];
        pending := pending + [item];
        again := again + {item.id};
        continue;
      }
      DryRanNow(first, now, since, items, i, canonicals);
      ok := ValidatePersisted(server, rules, item.id, reading.stored, canonicals[item.id], turn);
      if !ok { return; }
      AdoptedNext(rules, first, before, now, server.answers, since, items, i, again, canonicals, reading);
      RecheckedGrows(before, now, server.answers, start, items, i, again, reading);
      StatefulSetSeenLater(before, now, server.answers, start, item.id, reading);
      racedStatefulSet := racedStatefulSet || item.id.kind.StatefulSet?;
      raced := raced + [item.id];
    }
    assert items[..|items|] == items && Ids(items)[..|items|] == Ids(items);
    PartedWithin(Ids(items), again, Ids(pending), raced);
    ok := true;
  }

  lemma PartedWithin(ids: seq<Id>, again: set<Id>, pending: seq<Id>, raced: seq<Id>)
    requires Parted(ids, again, pending, raced)
    ensures Elements(pending) == again <= Elements(ids) && pending == Those(ids, Elements(pending))
    ensures Elements(raced) == Elements(ids) - Elements(pending) && |pending| + |raced| == |ids|
  {
  }

  lemma NothingRechecked(answers: seq<Answer>, items: seq<Target>)
    ensures Rechecked(answers, |answers|, |answers|, items[..0], {}) && !StatefulSetSeen(answers, |answers|, |answers|)
    ensures Ids(items)[..0] == [] && Ids([]) == [] && Parted([], {}, [], [])
  {
  }

  lemma NothingAdopted(rules: Rules, answers: seq<Answer>, from: nat, items: seq<Target>)
    ensures AllAdopted(rules, answers, from, |answers|, items[..0], {})
  {
  }

  lemma NothingAfter(answers: seq<Answer>)
    ensures NoStatefulSetRead(answers, |answers|)
  {
  }

  lemma NextItem(ids: seq<Id>, i: nat, chosen: set<Id>)
    requires Distinct(ids) && i < |ids| && chosen <= Elements(ids[..i])
    ensures Those(ids[..i + 1], chosen + {ids[i]}) == Those(ids[..i], chosen) + [ids[i]]
    ensures Those(ids[..i + 1], chosen) == Those(ids[..i], chosen)
    ensures ids[..i + 1] == ids[..i] + [ids[i]] && ids[i] !in Elements(ids[..i])
  {
    ThoseGrow(ids, i, chosen);
  }

  // ----- what guards a request to create -----

  /** The stretch is the gates that apply to a kind, without another call: for a Pod the reading of every
      NetworkPolicy, for a StatefulSet that and the storage gate behind it, for any other kind nothing. */
  ghost predicate GatesPassed(
    rules: Rules, targets: seq<Target>, answers: seq<Answer>, from: nat, to: nat, kind: Kind)
  {
    && from <= to <= |answers|
    && if kind.Pod? then to == from + 18 && PoliciesRead(rules, answers, OfKind(targets, NetworkPolicy), 9, from)
       else if kind.StatefulSet? then
         && PoliciesRead(rules, answers, OfKind(targets, NetworkPolicy), 9, from)
         && StorageRead(rules, answers, OfKind(targets, PersistentVolumeClaim), OfKind(targets, Pod), from + 18, to)
       else to == from
  }

  lemma GatesKept(
    rules: Rules, targets: seq<Target>, answers: seq<Answer>, later: seq<Answer>, from: nat, to: nat, kind: Kind)
    requires GatesPassed(rules, targets, answers, from, to, kind) && answers <= later
    ensures GatesPassed(rules, targets, later, from, to, kind)
  {
    hide PoliciesRead, StorageRead, OfKind;
    if kind.Pod? || kind.StatefulSet? { PoliciesKept(rules, answers, later, OfKind(targets, NetworkPolicy), 9, from); }
    if kind.StatefulSet? {
      StorageKept(rules, answers, later, OfKind(targets, PersistentVolumeClaim), OfKind(targets, Pod), from + 18, to);
    }
  }

  /** The gates of this request are the very last calls before it. They began after `since`, unless it is
      the Namespace that was requested, and no other request came since they began. */
  ghost predicate Guarded(
    rules: Rules, targets: seq<Target>, answers: seq<Answer>, attempts: seq<Attempt>, since: nat, a: nat)
    requires a < |attempts|
  {
    exists from: nat ::
      && (attempts[a].id.kind.Namespace? || since <= from)
      && (forall b :: 0 <= b < a ==> attempts[b].place <= from)
      && GatesPassed(rules, targets, answers, from, attempts[a].place, attempts[a].id.kind)
  }

  /** The nine NetworkPolicies were read in order from there on, each exact against the dry run behind it. */
  ghost predicate NinePolicies(rules: Rules, targets: seq<Target>, answers: seq<Answer>, from: nat)
    requires |targets| == 24
  {
    from + 18 <= |answers| && forall i :: 0 <= i < 9 ==> ExactRead(rules, answers, from + 2 * i, targets[9 + i])
  }

  /** Read off the calls right before a request: those before a Pod are its nine policies, and the last two
      before a StatefulSet are listings that agree, with the policies further back but after `since`. */
  lemma GatesComeLast(
    rules: Rules, targets: seq<Target>, answers: seq<Answer>, attempts: seq<Attempt>, since: nat, a: nat)
    requires a < |attempts| && Guarded(rules, targets, answers, attempts, since, a)
    requires Shaped(targets) && |targets| == 24
    ensures var place, kind := attempts[a].place, attempts[a].id.kind;
            && (kind.Namespace? || since <= place)
            && (kind.Pod? ==> since + 18 <= place && NinePolicies(rules, targets, answers, place - 18))
            && (kind.StatefulSet? ==>
                  && since + 20 <= place && ListedAlike(answers, place - 2)
                  && exists from: nat :: since <= from <= place - 20 && NinePolicies(rules, targets, answers, from))
  {
    hide Distinct, DistinctNames, DistinctBinders, StorageRead, ExactRead, ListedAlike;
    var place, kind := attempts[a].place, attempts[a].id.kind;
    var from: nat :|
      && (kind.Namespace? || since <= from) && (forall b :: 0 <= b < a ==> attempts[b].place <= from)
      && GatesPassed(rules, targets, answers, from, place, kind);
    if kind.Pod? || kind.StatefulSet? {
      ShapedPolicies(targets);
      assert NinePolicies(rules, targets, answers, from);
    }
    if kind.StatefulSet? {
      EndsInListings(rules, answers, OfKind(targets, PersistentVolumeClaim), OfKind(targets, Pod), from + 18, place);
    }
  }

  /** The entry was dry-run in this run before the request, the answer right after the request read an
      object that passed every check against what the dry run answered, and the next request came later. */
  ghost predicate Confirmed(
    rules: Rules, targets: seq<Target>, answers: seq<Answer>, attempts: seq<Attempt>, start: nat, a: nat)
    requires a < |attempts|
  {
    var place := attempts[a].place;
    exists item, canonical ::
      && item in targets && item.id == attempts[a].id
      && DryRanCreate(answers, start, place, item, canonical)
      && ConfirmedAt(rules, answers, place, item.id, canonical)
      && (a + 1 < |attempts| ==>
            place + 1 + PersistedCalls(rules, item.id, answers[place].reading.stored) <= attempts[a + 1].place)
  }

  /** Every request from the n-th on was guarded, and the first m of them were confirmed. */
  ghost predicate Sound(
    rules: Rules, targets: seq<Target>, answers: seq<Answer>, attempts: seq<Attempt>, start: nat, since: nat, n: nat,
    m: nat)
  {
    && n + m <= |attempts|
    && (forall a :: n <= a < |attempts| ==> Guarded(rules, targets, answers, attempts, since, a))
    && (forall a :: n <= a < n + m ==> Confirmed(rules, targets, answers, attempts, start, a))
  }

  lemma GuardedKept(
    rules: Rules, targets: seq<Target>, answers: seq<Answer>, attempts: seq<Attempt>, later: seq<Answer>,
    more: seq<Attempt>, since: nat, a: nat)
    requires a < |attempts| && Guarded(rules, targets, answers, attempts, since, a)
    requires answers <= later && attempts <= more
    ensures Guarded(rules, targets, later, more, since, a)
  {
    hide GatesPassed;
    var from: nat :|
      && (attempts[a].id.kind.Namespace? || since <= from)
      && (forall b :: 0 <= b < a ==> attempts[b].place <= from)
      && GatesPassed(rules, targets, answers, from, attempts[a].place, attempts[a].id.kind);
    GatesKept(rules, targets, answers, later, from, attempts[a].place, attempts[a].id.kind);
    assert more[a] == attempts[a] && forall b :: 0 <= b < a ==> more[b] == attempts[b];
  }

  lemma ConfirmedKept(
    rules: Rules, targets: seq<Target>, answers: seq<Answer>, later: seq<Answer>, attempts: seq<Attempt>,
    more: seq<Attempt>, start: nat, a: nat)
    requires a < |attempts| && Confirmed(rules, targets, answers, attempts, start, a) && answers <= later
    requires attempts <= more
    requires |more| > |attempts| ==> |answers| <= more[|attempts|].place
    ensures Confirmed(rules, targets, later, more, start, a)
  {
    hide DryRanCreate, ExactOk, BindingRead, PersistedCalls;
    var place := attempts[a].place;
    var item, canonical :|
      && item in targets && item.id == attempts[a].id
      && DryRanCreate(answers, start, place, item, canonical)
      && ConfirmedAt(rules, answers, place, item.id, canonical)
      && (a + 1 < |attempts| ==>
            place + 1 + PersistedCalls(rules, item.id, answers[place].reading.stored) <= attempts[a + 1].place);
    DryRanKept(answers, later, start, place, start, place, item, canonical);
    ConfirmedAtKept(rules, answers, later, place, item.id, canonical);
    assert more[a] == attempts[a] && (a + 1 < |attempts| ==> more[a + 1] == attempts[a + 1]);
  }

  lemma ConfirmedAtKept(rules: Rules, answers: seq<Answer>, later: seq<Answer>, place: nat, id: Id, canonical: string)
    requires ConfirmedAt(rules, answers, place, id, canonical) && answers <= later
    ensures ConfirmedAt(rules, later, place, id, canonical) && later[place] == answers[place]
  {
    hide PersistedRead;
    assert later[place] == answers[place];
    PersistedKept(rules, answers, later, place + 1, id, answers[place].reading.stored, canonical);
  }

  lemma SoundKept(
    rules: Rules, targets: seq<Target>, answers: seq<Answer>, later: seq<Answer>, attempts: seq<Attempt>,
    start: nat, since: nat, n: nat, m: nat)
    requires Sound(rules, targets, answers, attempts, start, since, n, m) && answers <= later
    ensures Sound(rules, targets, later, attempts, start, since, n, m)
  {
    hide Guarded, Confirmed;
    forall a | n <= a < |attempts| ensures Guarded(rules, targets, later, attempts, since, a) {
      GuardedKept(rules, targets, answers, attempts, later, attempts, since, a);
    }
    forall a | n <= a < n + m ensures Confirmed(rules, targets, later, attempts, start, a) {
      ConfirmedKept(rules, targets, answers, later, attempts, attempts, start, a);
    }
  }

  /** The Namespace is not bound to any reading. */
  lemma SoundSince(
    rules: Rules, targets: seq<Target>, answers: seq<Answer>, attempts: seq<Attempt>,
    start: nat, since: nat, later: nat, n: nat, m: nat)
    requires Sound(rules, targets, answers, attempts, start, since, n, m)
    requires forall a :: n <= a < |attempts| ==> attempts[a].id.kind.Namespace?
    ensures Sound(rules, targets, answers, attempts, start, later, n, m)
  {
    hide GatesPassed, Confirmed;
    forall a | n <= a < |attempts| ensures Guarded(rules, targets, answers, attempts, later, a) {
      assert Guarded(rules, targets, answers, attempts, since, a);
    }
  }

  /** One more guarded request. */
  lemma SoundMore(
    rules: Rules, targets: seq<Target>, answers: seq<Answer>, later: seq<Answer>, attempts: seq<Attempt>,
    more: seq<Attempt>, start: nat, since: nat, n: nat, m: nat, from: nat, id: Id)
    requires Sound(rules, targets, answers, attempts, start, since, n, m) && answers <= later
    requires OneMore(attempts, more, id, |answers|) && since <= from
    requires forall b :: 0 <= b < |attempts| ==> attempts[b].place <= from
    requires GatesPassed(rules, targets, answers, from, |answers|, id.kind)
    ensures Sound(rules, targets, later, more, start, since, n, m)
  {
    hide Guarded, Confirmed, GatesPassed;
    forall a | n <= a < |more| ensures Guarded(rules, targets, later, more, since, a) {
      if a < |attempts| {
        GuardedKept(rules, targets, answers, attempts, later, more, since, a);
      } else {
        NowGuarded(rules, targets, answers, later, attempts, more, since, from, id);
      }
    }
    forall a | n <= a < n + m ensures Confirmed(rules, targets, later, more, start, a) {
      ConfirmedKept(rules, targets, answers, later, attempts, more, start, a);
    }
  }

  lemma NowGuarded(
    rules: Rules, targets: seq<Target>, answers: seq<Answer>, later: seq<Answer>, attempts: seq<Attempt>,
    more: seq<Attempt>, since: nat, from: nat, id: Id)
    requires answers <= later && OneMore(attempts, more, id, |answers|) && since <= from
    requires forall b :: 0 <= b < |attempts| ==> attempts[b].place <= from
    requires GatesPassed(rules, targets, answers, from, |answers|, id.kind)
    ensures Guarded(rules, targets, later, more, since, |attempts|)
  {
    hide GatesPassed;
    GatesKept(rules, targets, answers, later, from, |answers|, id.kind);
    assert forall b :: 0 <= b < |attempts| ==> more[b] == attempts[b];
  }

  /** The last request is confirmed too. */
  lemma SoundConfirmed(
    rules: Rules, targets: seq<Target>, before: seq<Answer>, answers: seq<Answer>, attempts: seq<Attempt>,
    start: nat, since: nat, n: nat, m: nat, item: Target, canonical: string)
    requires Sound(rules, targets, answers, attempts, start, since, n, m) && n + m + 1 == |attempts|
    requires before <= answers
    requires item in targets && attempts[n + m].id == item.id && attempts[n + m].place == |before|
    requires DryRanCreate(before, start, |before|, item, canonical)
    requires ConfirmedAt(rules, answers, |before|, item.id, canonical)
    ensures Sound(rules, targets, answers, attempts, start, since, n, m + 1)
  {
    hide Guarded, DryRanCreate, ConfirmedAt;
    DryRanKept(before, answers, start, |before|, start, |before|, item, canonical);
    assert Confirmed(rules, targets, answers, attempts, start, n + m);
  }

  /** Both gates, or the first of them, as the kind requires. */
  method PassGates(server: ApiServer, rules: Rules, targets: seq<Target>, kind: Kind, ghost turn: Turn)
    returns (ok: bool)
    requires server.Valid() && Shaped(targets)
    modifies server
    ensures OnlyReads(server, turn) && NoStatefulSetRead(server.answers, |old(server.answers)|)
    ensures ok ==> GatesPassed(rules, targets, server.answers, |old(server.answers)|, |server.answers|, kind)
    ensures (&& Calm(server.world, old(server.clock), turn)
             && (kind.Pod? || kind.StatefulSet? ==> PoliciesReady(rules, turn, old(server.objects), targets[9..18]))
             && (kind.StatefulSet? ==>
                   StorageReady(rules, turn, old(server.objects), [targets[4], targets[7]],
                                [targets[18], targets[19]]))) ==> ok
  {
    hide PoliciesRead, StorageRead, PoliciesReady, StorageReady, OfKind;
    ShapedKinds(targets);
    if !kind.Pod? && !kind.StatefulSet? { return true; }
    ghost var start := |server.answers|;
    ok := VerifyNetworkPolicies(server, rules, targets, turn);
    if !ok { return; }
    if kind.StatefulSet? {
      ghost var read := server.answers;
      ok := VerifyStorageAdmission(server, rules, targets, turn);
      if ok {
        PoliciesKept(rules, read, server.answers, OfKind(targets, NetworkPolicy), 9, start);
        StorageWithin(rules, server.answers, OfKind(targets, PersistentVolumeClaim), OfKind(targets, Pod), |read|,
                      |server.answers|);
      }
    }
  }

  // ----- creating the pending entries in order -----

  /** The requests from the n-th on: the created ones, all answered, and at most one more. */
  ghost predicate Requested(attempts: seq<Attempt>, n: nat, created: seq<Id>, last: seq<Id>) {
    && n + |created| <= |attempts| && |last| <= 1
    && IdsOf(attempts[n..]) == created + last
    && forall a :: n <= a < n + |created| ==> attempts[a].answer.Some?
  }

  lemma RequestedMore(attempts: seq<Attempt>, more: seq<Attempt>, n: nat, created: seq<Id>, id: Id, place: nat)
    requires Requested(attempts, n, created, []) && OneMore(attempts, more, id, place)
    ensures Requested(more, n, created, [id])
    ensures more[|attempts|].answer.Some? ==> Requested(more, n, created + [id], [])
  {
    assert IdsOf(attempts[n..]) == created;
    assert |IdsOf(attempts[n..])| == |attempts| - n;
    assert more[..|attempts|] == attempts;
    assert IdsOf(more[n..]) == created + [id];
    assert created + [id] + [] == created + [id];
    assert forall a :: n <= a < |attempts| ==> more[a] == attempts[a];
  }

  /** On a calm server: the first n entries are present and acceptable, the others absent. */
  ghost predicate Prefix(rules: Rules, turn: Turn, targets: seq<Target>, objects: Objects, n: nat) {
    && n <= |targets|
    && (forall i :: 0 <= i < n ==> Acceptable(rules, turn, objects, targets[i]))
    && (forall i :: n <= i < |targets| ==> targets[i].id !in objects.stored)
  }

  ghost predicate AllBenign(rules: Rules, turn: Turn, targets: seq<Target>) {
    forall i :: 0 <= i < |targets| ==> Benign(rules, turn, targets[i])
  }

  lemma PrefixGrows(rules: Rules, turn: Turn, targets: seq<Target>, objects: Objects, n: nat, canonical: string)
    requires Prefix(rules, turn, targets, objects, n) && n < |targets| && Distinct(Ids(targets))
    requires Benign(rules, turn, targets[n]) && turn.admit(targets[n].id, targets[n].desired) == Some(canonical)
    requires !targets[n].id.kind.PersistentVolume?
    ensures Prefix(rules, turn, targets, Add(objects, targets[n].id, canonical), n + 1)
    ensures Grown(objects, Add(objects, targets[n].id, canonical))
  {
    hide Acceptable, PersistedOk;
    var after := Add(objects, targets[n].id, canonical);
    forall i | 0 <= i < n ensures Acceptable(rules, turn, after, targets[i]) {
      AcceptableGrows(rules, turn, objects, after, targets[i]);
    }
    assert after.stored[targets[n].id].content == canonical;
    assert forall i :: n < i < |targets| ==> Ids(targets)[i] != Ids(targets)[n];
  }

  lemma ClaimsAreKept(
    rules: Rules, before: Objects, after: Objects, items: seq<Target>, claims: map<string, StorageGate.Claim>)
    requires Grown(before, after) && (forall i :: 0 <= i < |items| ==> items[i].id in before.stored)
    ensures IsClaims(rules, after, items, claims) ==> IsClaims(rules, before, items, claims)
  {
    hide ClaimNames;
  }

  lemma NodesAreKept(rules: Rules, before: Objects, after: Objects, items: seq<Target>, nodes: map<string, string>)
    requires Grown(before, after) && (forall i :: 0 <= i < |items| ==> items[i].id in before.stored)
    ensures IsNodes(rules, after, items, nodes) ==> IsNodes(rules, before, items, nodes)
  {
    hide BoundNames, BinderClaim;
  }

  lemma StorageReadyGrows(
    rules: Rules, turn: Turn, before: Objects, after: Objects, claimItems: seq<Target>, podItems: seq<Target>)
    requires StorageReady(rules, turn, before, claimItems, podItems) && Grown(before, after)
    ensures StorageReady(rules, turn, after, claimItems, podItems)
  {
    hide PersistedOk, ExactOk, CanonicalOf, IsClaims, IsNodes, ClaimNames, StorageGate.Accepted;
    forall i | 0 <= i < |claimItems| ensures ClaimReady(rules, turn, after, claimItems[i]) {
      assert ClaimReady(rules, turn, before, claimItems[i]);
      AcceptableGrows(rules, turn, before, after, claimItems[i]);
    }
    forall i | 0 <= i < |podItems| ensures BinderReady(rules, turn, after, podItems[i]) {
      assert BinderReady(rules, turn, before, podItems[i]);
      AcceptableGrows(rules, turn, before, after, podItems[i]);
    }
    forall claims, nodes | IsClaims(rules, after, claimItems, claims) && IsNodes(rules, after, podItems, nodes)
      ensures StorageGate.Accepted(rules.reviewed, turn.listing(VolumesIn(after)), nodes, claims)
    {
      ClaimsAreKept(rules, before, after, claimItems, claims);
      NodesAreKept(rules, before, after, podItems, nodes);
    }
  }

  /** A calm server on which exactly the first p entries exist, and those from p on are pending. */
  ghost predicate Quiet(
    rules: Rules, turn: Turn, targets: seq<Target>, objects: Objects, items: seq<Target>, canonicals: map<Id, string>,
    p: nat)
  {
    && p <= |targets| && items == targets[p..]
    && Prefix(rules, turn, targets, objects, p) && AllBenign(rules, turn, targets)
    && forall i :: 0 <= i < |items| ==>
         items[i].id in canonicals && turn.admit(items[i].id, items[i].desired) == Some(canonicals[items[i].id])
  }

  ghost predicate ReadyStorage(rules: Rules, turn: Turn, targets: seq<Target>, objects: Objects)
    requires |targets| == 24
  {
    StorageReady(rules, turn, objects, [targets[4], targets[7]], [targets[18], targets[19]])
  }

  /** Where a calm run stands after creating up to entry k. */
  ghost predicate QuietAt(
    rules: Rules, turn: Turn, targets: seq<Target>, before: Objects, objects: Objects, created0: seq<Id>,
    created: seq<Id>, p: nat, k: nat)
  {
    && p <= k <= |targets| && created == created0 + Ids(targets)[p..k]
    && Prefix(rules, turn, targets, objects, k) && Grown(before, objects)
  }

  lemma QuietGates(rules: Rules, turn: Turn, targets: seq<Target>, objects: Objects, k: nat)
    requires Shaped(targets) && k < 24 && Prefix(rules, turn, targets, objects, k)
    ensures targets[k].id.kind.Pod? || targets[k].id.kind.StatefulSet? ==>
              PoliciesReady(rules, turn, objects, targets[9..18])
    ensures targets[k].id.kind.StatefulSet? ==> k == 20 || k == 22
    ensures k == 20 ==> targets[k].id.kind.StatefulSet?
    ensures !targets[k].id.kind.PersistentVolume?
  {
    hide Acceptable, DistinctNames, DistinctBinders, Distinct;
    assert targets[k].id == Ids(targets)[k];
  }

  lemma QuietNext(
    rules: Rules, turn: Turn, targets: seq<Target>, before: Objects, objects: Objects, created0: seq<Id>,
    created: seq<Id>, p: nat, k: nat, canonical: string)
    requires QuietAt(rules, turn, targets, before, objects, created0, created, p, k) && k < |targets|
    requires Distinct(Ids(targets)) && AllBenign(rules, turn, targets) && !targets[k].id.kind.PersistentVolume?
    requires turn.admit(targets[k].id, targets[k].desired) == Some(canonical)
    ensures QuietAt(rules, turn, targets, before, Add(objects, targets[k].id, canonical), created0,
                    created + [targets[k].id], p, k + 1)
  {
    hide Acceptable, PersistedOk, Distinct, Benign;
    PrefixGrows(rules, turn, targets, objects, k, canonical);
    assert Ids(targets)[p..k + 1] == Ids(targets)[p..k] + [Ids(targets)[k]];
  }

  lemma QuietStarts(rules: Rules, turn: Turn, targets: seq<Target>, objects: Objects, created: seq<Id>, p: nat)
    requires p <= |targets| && Prefix(rules, turn, targets, objects, p)
    ensures QuietAt(rules, turn, targets, objects, objects, created, created, p, p)
  {
    hide Acceptable;
    assert created + Ids(targets)[p..p] == created;
  }

  lemma SizeIs(targets: seq<Target>)
    requires Shaped(targets)
    ensures |targets| == 24 && Distinct(Ids(targets))
  {
    hide Distinct;
  }

  ghost predicate GatesReady(rules: Rules, turn: Turn, targets: seq<Target>, objects: Objects, kind: Kind)
    requires |targets| == 24
  {
    && (kind.Pod? || kind.StatefulSet? ==> PoliciesReady(rules, turn, objects, targets[9..18]))
    && (kind.StatefulSet? ==> ReadyStorage(rules, turn, targets, objects))
  }

  lemma CalmGates(
    rules: Rules, turn: Turn, targets: seq<Target>, before: Objects, objects: Objects, created0: seq<Id>,
    created: seq<Id>, p: nat, k: nat, phaseChanged: bool)
    requires Shaped(targets) && k < |targets| == 24
    requires QuietAt(rules, turn, targets, before, objects, created0, created, p, k)
    requires AllBenign(rules, turn, targets)
    requires phaseChanged || ReadyStorage(rules, turn, targets, before)
    ensures Benign(rules, turn, targets[k]) && targets[k].id !in objects.stored
    ensures !(phaseChanged && targets[k].id.kind.StatefulSet?) ==>
              GatesReady(rules, turn, targets, objects, targets[k].id.kind)
    ensures targets[k].id.kind.StatefulSet? ==> k == 20 || k == 22
    ensures k == 20 ==> targets[k].id.kind.StatefulSet?
    ensures !targets[k].id.kind.PersistentVolume?
  {
    hide Shaped, PoliciesReady, StorageReady, Benign, Acceptable;
    QuietGates(rules, turn, targets, objects, k);
    if ReadyStorage(rules, turn, targets, before) {
      StorageReadyGrows(rules, turn, before, objects, [targets[4], targets[7]], [targets[18], targets[19]]);
    }
  }

  /** The gates, then the request; nothing is requested for a StatefulSet while binding is new. */
  method CreateNext(
    server: ApiServer, rules: Rules, targets: seq<Target>, item: Target, canonical: string, created: seq<Id>,
    phaseChanged: bool, ghost start: nat, ghost since: nat, ghost n: nat, ghost turn: Turn)
    returns (stop: Option<Stop>)
    requires server.Valid() && Shaped(targets) && |targets| == 24
    requires item in targets && DryRanCreate(server.answers, start, |server.answers|, item, canonical)
    requires Requested(server.attempts, n, created, [])
    requires since <= |server.answers|
    requires Sound(rules, targets, server.answers, server.attempts, start, since, n, |created|)
    modifies server
    ensures server.Valid() && old(server.answers) <= server.answers && old(server.clock) <= server.clock
    ensures Sound(rules, targets, server.answers, server.attempts, start, since, n,
                  |created| + (if stop.None? then 1 else 0))
    ensures server.attempts == old(server.attempts)
            || (&& |server.attempts| == |old(server.attempts)| + 1 && old(server.attempts) <= server.attempts
                && server.attempts[|old(server.attempts)|].id == item.id
                && !(phaseChanged && item.id.kind.StatefulSet?))
    ensures forall a :: |old(server.attempts)| <= a < |server.attempts| ==>
              |old(server.answers)| <= server.attempts[a].place
    ensures if stop.None? then Requested(server.attempts, n, created + [item.id], [])
            else Requested(server.attempts, n, created, []) || Requested(server.attempts, n, created, [item.id])
    ensures Calm(server.world, old(server.clock), turn) && phaseChanged && item.id.kind.StatefulSet? ==>
              stop.Some? && server.objects == old(server.objects)
    ensures (&& Calm(server.world, old(server.clock), turn) && !(phaseChanged && item.id.kind.StatefulSet?)
             && GatesReady(rules, turn, targets, old(server.objects), item.id.kind)
             && Benign(rules, turn, item) && item.id !in old(server.objects).stored
             && turn.admit(item.id, item.desired) == Some(canonical)) ==>
              stop.None? && server.objects == Add(old(server.objects), item.id, canonical)
  {
    hide Sound, Requested, Shaped, StorageReady, GatesPassed, PoliciesReady, Benign, DryRanCreate, ConfirmedAt;
    ghost var before := server.answers;
    var passed := PassGates(server, rules, targets, item.id.kind, turn);
    ghost var answers, attempts := server.answers, server.attempts;
    SoundKept(rules, targets, before, answers, attempts, start, since, n, |created|);
    if !passed { return Some(GateRefused); }
    if item.id.kind.StatefulSet? && phaseChanged { return Some(BindingPhaseChanged); }
    stop := CreateAndVerify(server, rules, item, canonical, turn);
    RequestedMore(attempts, server.attempts, n, created, item.id, |answers|);
    SoundMore(rules, targets, answers, server.answers, attempts, server.attempts, start, since, n, |created|, |before|,
              item.id);
    if stop.None? {
      RequestedCount(attempts, n, created);
      DryRanKept(before, answers, start, |before|, start, |answers|, item, canonical);
      SoundConfirmed(rules, targets, answers, server.answers, server.attempts, start, since, n, |created|, item,
                     canonical);
    }
  }

  lemma RequestedCount(attempts: seq<Attempt>, n: nat, created: seq<Id>)
    requires Requested(attempts, n, created, [])
    ensures n + |created| == |attempts|
  {
    assert |IdsOf(attempts[n..])| == |attempts| - n;
  }

  lemma QuietItem(
    rules: Rules, turn: Turn, targets: seq<Target>, objects: Objects, items: seq<Target>, canonicals: map<Id, string>,
    p: nat)
    requires Quiet(rules, turn, targets, objects, items, canonicals, p)
    ensures p + |items| == |targets| && Prefix(rules, turn, targets, objects, p) && AllBenign(rules, turn, targets)
    ensures forall j :: 0 <= j < |items| ==>
              && items[j] == targets[p + j] && items[j].id in canonicals
              && turn.admit(items[j].id, items[j].desired) == Some(canonicals[items[j].id])
  {
    hide Prefix, AllBenign;
  }

  lemma DryRanNow(
    answers: seq<Answer>, later: seq<Answer>, start: nat, items: seq<Target>, j: nat, canonicals: map<Id, string>)
    requires AllDryRun(answers, start, |answers|, items, canonicals) && answers <= later && j < |items|
    ensures items[j].id in canonicals && DryRanCreate(later, start, |later|, items[j], canonicals[items[j].id])
  {
    hide DryRanCreate;
    DryRanKept(answers, later, start, |answers|, start, |later|, items[j], canonicals[items[j].id]);
  }

  /** One entry: on a calm server it is made, except that a StatefulSet ends a run while binding is new. */
  method CreateStep(
    server: ApiServer, rules: Rules, targets: seq<Target>, items: seq<Target>, j: nat, canonicals: map<Id, string>,
    created: seq<Id>, phaseChanged: bool, ghost was: Objects, ghost created0: seq<Id>,
    ghost start: nat, ghost since: nat, ghost n: nat, ghost p: nat, ghost turn: Turn)
    returns (stop: Option<Stop>)
    requires server.Valid() && Shaped(targets) && |targets| == 24 && j < |items| && items[j] in targets
    requires items[j].id in canonicals
    requires DryRanCreate(server.answers, start, |server.answers|, items[j], canonicals[items[j].id])
    requires Requested(server.attempts, n, created, [])
    requires since <= |server.answers|
    requires Sound(rules, targets, server.answers, server.attempts, start, since, n, |created|)
    modifies server
    ensures server.Valid() && old(server.answers) <= server.answers && old(server.attempts) <= server.attempts
    ensures old(server.clock) <= server.clock
    ensures Sound(rules, targets, server.answers, server.attempts, start, since, n,
                  |created| + (if stop.None? then 1 else 0))
    ensures Asked(old(server.attempts), server.attempts, |old(server.answers)|, phaseChanged)
    ensures if stop.None? then Requested(server.attempts, n, created + [items[j].id], [])
            else Requested(server.attempts, n, created, []) || Requested(server.attempts, n, created, [items[j].id])
    ensures (&& Calm(server.world, old(server.clock), turn) && Quiet(rules, turn, targets, was, items, canonicals, p)
             && QuietAt(rules, turn, targets, was, old(server.objects), created0, created, p, p + j)
             && (if phaseChanged then p + j <= 20 else ReadyStorage(rules, turn, targets, was))) ==>
              if phaseChanged && p + j == 20 then
                stop.Some? && QuietAt(rules, turn, targets, was, server.objects, created0, created, p, 20)
              else
                stop.None?
                && QuietAt(rules, turn, targets, was, server.objects, created0, created + [items[j].id], p, p + j + 1)
  {
    hide Sound, Requested, Prefix, AllBenign, Shaped, ReadyStorage, GatesReady, Benign, QuietAt, Distinct, DryRanCreate,
         Quiet, Calm, ApiServer.Valid;
    SizeIs(targets);
    ghost var objects, attempts := server.objects, server.attempts;
    ghost var calm := Calm(server.world, server.clock, turn) && Quiet(rules, turn, targets, was, items, canonicals, p)
                      && QuietAt(rules, turn, targets, was, objects, created0, created, p, p + j)
                      && (if phaseChanged then p + j <= 20 else ReadyStorage(rules, turn, targets, was));
    if calm {
      QuietItem(rules, turn, targets, was, items, canonicals, p);
      CalmGates(rules, turn, targets, was, objects, created0, created, p, p + j, phaseChanged);
    }
    stop := CreateNext(server, rules, targets, items[j], canonicals[items[j].id], created, phaseChanged, start, since,
                       n, turn);
    if calm && stop.None? {
      QuietNext(rules, turn, targets, was, objects, created0, created, p, p + j, canonicals[items[j].id]);
    }
  }

  /** Further requests were made from there on, for no StatefulSet if binding is new. */
  ghost predicate Asked(attempts: seq<Attempt>, more: seq<Attempt>, place: nat, phaseChanged: bool) {
    && attempts <= more
    && forall a :: |attempts| <= a < |more| ==>
        place <= more[a].place && !(phaseChanged && more[a].id.kind.StatefulSet?)
  }

  lemma AskedMore(
    attempts: seq<Attempt>, mid: seq<Attempt>, more: seq<Attempt>, place: nat, later: nat, phaseChanged: bool)
    requires Asked(attempts, mid, place, phaseChanged) && Asked(mid, more, later, phaseChanged) && place <= later
    ensures Asked(attempts, more, place, phaseChanged)
  {
    assert forall a :: |attempts| <= a < |mid| ==> more[a] == mid[a];
  }

  method CreatePending(
    server: ApiServer, rules: Rules, targets: seq<Target>, items: seq<Target>, canonicals: map<Id, string>,
    created0: seq<Id>, phaseChanged: bool, ghost start: nat, ghost since: nat, ghost n: nat, ghost p: nat,
    ghost turn: Turn)
    returns (created: seq<Id>, stop: Option<Stop>)
    requires server.Valid() && Shaped(targets) && forall item :: item in items ==> item in targets
    requires AllDryRun(server.answers, start, |server.answers|, items, canonicals)
    requires Requested(server.attempts, n, created0, [])
    requires since <= |server.answers|
    requires Sound(rules, targets, server.answers, server.attempts, start, since, n, |created0|)
    modifies server
    ensures server.Valid() && old(server.answers) <= server.answers && old(server.attempts) <= server.attempts
    ensures old(server.clock) <= server.clock
    ensures |created0| <= |created| <= |created0| + |items|
    ensures created == created0 + Ids(items)[..|created| - |created0|]
    ensures if stop.None? then |created| == |created0| + |items| && Requested(server.attempts, n, created, [])
            else || Requested(server.attempts, n, created, [])
                 || (|created| - |created0| < |items|
                     && Requested(server.attempts, n, created, [Ids(items)[|created| - |created0|]]))
    ensures Sound(rules, targets, server.answers, server.attempts, start, since, n, |created|)
    ensures Asked(old(server.attempts), server.attempts, |old(server.answers)|, phaseChanged)
    ensures (&& Calm(server.world, old(server.clock), turn)
             && Quiet(rules, turn, targets, old(server.objects), items, canonicals, p)
             && phaseChanged && p <= 20) ==>
              stop.Some? && QuietAt(rules, turn, targets, old(server.objects), server.objects, created0, created, p, 20)
    ensures (&& Calm(server.world, old(server.clock), turn)
             && Quiet(rules, turn, targets, old(server.objects), items, canonicals, p)
             && !phaseChanged && ReadyStorage(rules, turn, targets, old(server.objects))) ==>
              stop.None? && QuietAt(rules, turn, targets, old(server.objects), server.objects, created0, created, p, 24)
  {
    hide Sound, Requested, Prefix, AllBenign, Shaped, ReadyStorage, QuietAt, Distinct, DryRanCreate, AllDryRun, Quiet,
         Calm, Asked, ApiServer.Valid;
    created := created0;
    SizeIs(targets);
    ghost var world, clock, before, answers, attempts := server.world, server.clock, server.objects, server.answers,
        server.attempts;
    ghost var calm := Calm(world, clock, turn) && Quiet(rules, turn, targets, before, items, canonicals, p)
                      && (if phaseChanged then p <= 20 else ReadyStorage(rules, turn, targets, before));
    NothingAskedYet(attempts, |answers|, phaseChanged);
    if calm {
      QuietItem(rules, turn, targets, before, items, canonicals, p);
      QuietStarts(rules, turn, targets, before, created0, p);
    }
    for j := 0 to |items|
      invariant server.Valid() && answers <= server.answers && clock <= server.clock
      invariant attempts <= server.attempts && Asked(attempts, server.attempts, |answers|, phaseChanged)
      invariant created == created0 + Ids(items)[..j]
      invariant Requested(server.attempts, n, created, [])
      invariant Sound(rules, targets, server.answers, server.attempts, start, since, n, |created|)
      invariant calm ==> QuietAt(rules, turn, targets, before, server.objects, created0, created, p, p + j)
      invariant calm && phaseChanged ==> p + j <= 20
    {
      ghost var mid, now := server.attempts, |server.answers|;
      DryRanNow(answers, server.answers, start, items, j, canonicals);
      if calm { CalmLater(world, clock, server.clock, turn); }
      stop := CreateStep(server, rules, targets, items, j, canonicals, created, phaseChanged, before, created0, start,
                         since, n, p, turn);
      AskedMore(attempts, mid, server.attempts, |answers|, now, phaseChanged);
      if stop.Some? { return created, stop; }
      created := created + [items[j].id];
    }
    stop := None;
  }

  lemma NothingAskedYet(attempts: seq<Attempt>, place: nat, phaseChanged: bool)
    ensures Asked(attempts, attempts, place, phaseChanged)
  {
  }

  // ----- one run -----

  /** What is created, namespace first, follows the inventory. */
  lemma PlanInOrder(
    ids: seq<Id>, absent: set<Id>, missing: seq<Id>, rest: seq<Id>, created: seq<Id>, pending: seq<Id>, k: nat)
    requires Distinct(ids) && missing == Those(ids, absent) && pending == Those(rest, Elements(pending))
    requires || (rest == missing && created == [])
             || (missing != [] && rest == missing[1..] && (created == [] || created == [missing[0]]))
    requires k <= |created + pending|
    ensures InOrder((created + pending)[..k], ids)
  {
    var plan := created + pending;
    var chosen := Elements(plan);
    ThoseDistinct(ids, absent);
    if rest == missing && created == [] {
      assert plan == pending;
    } else {
      var head := missing[0];
      assert missing == [head] + rest;
      ThoseElements(rest, Elements(pending));
      assert forall i :: 1 <= i < |missing| ==> missing[i] != head;
      assert head !in Elements(rest);
      ThoseAfterHead(head, rest, chosen);
      ThoseAgree(rest, chosen, Elements(pending));
      assert head in chosen <==> created == [head] by {
        assert head !in Elements(pending);
      }
    }
    assert plan == Those(missing, chosen);
    ThoseOfThose(ids, absent, chosen);
    PrefixInOrder(ids, absent * chosen, k);
  }

  /** The run began by reading the whole inventory in order, and none of those reads failed. */
  ghost predicate FirstRead(answers: seq<Answer>, start: nat, targets: seq<Target>) {
    && start + |targets| <= |answers|
    && forall i :: 0 <= i < |targets| ==> ReadAt(answers, start + i, targets[i].id)
  }

  predicate ReadAt(answers: seq<Answer>, k: nat, id: Id) {
    k < |answers| && answers[k].Read? && answers[k].id == id && !answers[k].reading.ReadFailed?
  }

  /** After it a fit StorageClass was read, everything that was there passed its checks and, if a
      StatefulSet was there, both gates passed last. */
  ghost predicate Inspected(rules: Rules, targets: seq<Target>, answers: seq<Answer>, start: nat, to: nat) {
    && FirstRead(answers, start, targets) && start + |targets| < to <= |answers|
    && StorageClassRead(rules, answers[start + |targets|])
    && (forall i :: 0 <= i < |targets| ==>
          answers[start + i].Read? && answers[start + i].reading.Present? ==>
            Passed(rules, answers, start + |targets|, to, targets[i], answers[start + i].reading.stored))
    && (StatefulSetSeen(answers, start, start + |targets|) ==>
        GatesPassedLast(rules, targets, answers, start + |targets|, to))
  }

  predicate StorageClassRead(rules: Rules, answer: Answer) {
    answer.Read? && answer.id == STORAGE_CLASS && answer.reading.Present? && rules.storageClassOk(answer.reading.stored)
  }

  ghost predicate GatesPassedLast(rules: Rules, targets: seq<Target>, answers: seq<Answer>, from: nat, to: nat) {
    exists k: nat :: from <= k && GatesPassed(rules, targets, answers, k, to, StatefulSet)
  }

  lemma InspectedKept(rules: Rules, targets: seq<Target>, answers: seq<Answer>, later: seq<Answer>, start: nat, to: nat)
    requires Inspected(rules, targets, answers, start, to) && answers <= later
    ensures Inspected(rules, targets, later, start, to)
  {
    hide Passed, GatesPassed, StatefulSetSeen;
    var end := start + |targets|;
    assert forall k :: start <= k <= end ==> later[k] == answers[k];
    forall i | 0 <= i < |targets| ensures ReadAt(later, start + i, targets[i].id) {
      assert ReadAt(answers, start + i, targets[i].id);
    }
    forall i | 0 <= i < |targets| && later[start + i].Read? && later[start + i].reading.Present?
      ensures Passed(rules, later, end, to, targets[i], later[start + i].reading.stored)
    {
      assert ReadAt(answers, start + i, targets[i].id);
      PassedKept(rules, answers, later, end, to, end, to, targets[i], answers[start + i].reading.stored);
    }
    StatefulSetSeenKept(answers, later, start, end);
    if StatefulSetSeen(answers, start, end) {
      var k: nat :| end <= k && GatesPassed(rules, targets, answers, k, to, StatefulSet);
      GatesKept(rules, targets, answers, later, k, to, StatefulSet);
    }
  }

  lemma NowInspected(
    rules: Rules, targets: seq<Target>, read: seq<Answer>, classRead: seq<Answer>, passed: seq<Answer>,
    answers: seq<Answer>, start: nat, observed: seq<Option<Stored>>)
    requires |observed| == |targets| && Observes(read, start, targets, observed) && |read| == start + |targets|
    requires read <= classRead <= passed <= answers && |classRead| == |read| + 1
    requires StorageClassRead(rules, classRead[|read|])
    requires AllPassed(rules, passed, |classRead|, |passed|, targets, observed, |targets|)
    requires HasStatefulSet(targets, observed) ==>
        GatesPassed(rules, targets, answers, |passed|, |answers|, StatefulSet)
    ensures Inspected(rules, targets, answers, start, |answers|)
  {
    hide Passed, GatesPassed;
    forall i | 0 <= i < |targets|
      ensures answers[start + i] == Read(targets[i].id, ReadingOf(observed[i]))
      ensures ReadAt(answers, start + i, targets[i].id)
    {
      assert answers[start + i] == read[start + i];
    }
    AllPassedKept(rules, passed, answers, |classRead|, |passed|, |read|, |answers|, targets, observed, |targets|);
    assert answers[|read|] == classRead[|read|];
    if StatefulSetSeen(answers, start, |read|) {
      var k :| start <= k < |read| && IsStatefulSet(answers[k]);
      assert answers[start + (k - start)] == Read(targets[k - start].id, ReadingOf(observed[k - start]));
      assert HasStatefulSet(targets, observed);
      assert GatesPassedLast(rules, targets, answers, |read|, |answers|);
    }
  }

  /** A calm server has nothing to object to in what was read of its first p entries. */
  lemma CalmObserved(
    rules: Rules, turn: Turn, targets: seq<Target>, objects: Objects, observed: seq<Option<Stored>>, p: nat)
    requires Shaped(targets) && |observed| == |targets| == 24
    ensures p <= 24 && Prefix(rules, turn, targets, objects, p) && SeenAsIs(objects, targets, observed) ==>
              && (forall i :: 0 <= i < |targets| && observed[i].Some? ==> Acceptable(rules, turn, objects, targets[i]))
              && (HasStatefulSet(targets, observed) ==> p > 20 && PoliciesReady(rules, turn, objects, targets[9..18]))
  {
    hide Acceptable, Distinct, DistinctNames, DistinctBinders;
    if p <= 24 && Prefix(rules, turn, targets, objects, p) && SeenAsIs(objects, targets, observed) {
      assert forall i :: 0 <= i < 24 ==> Ids(targets)[i] == targets[i].id;
      forall i | 0 <= i < 24 && observed[i].Some? ensures i < p && Acceptable(rules, turn, objects, targets[i]) {
        assert Lookup(objects, targets[i].id) == ReadingOf(observed[i]);
      }
    }
  }

  /** Reads, checks and, where a StatefulSet already runs, both gates. */
  method Observe(server: ApiServer, rules: Rules, targets: seq<Target>, ghost p: nat, ghost turn: Turn)
    returns (stop: Option<Stop>, observed: seq<Option<Stored>>, retried: seq<Id>, phaseChanged: bool)
    requires server.Valid() && Shaped(targets)
    modifies server
    ensures OnlyReads(server, turn) && |old(server.answers)| + |targets| <= |server.answers|
    ensures NoStatefulSetRead(server.answers, |old(server.answers)| + |targets|)
    ensures stop.None? ==>
              && |observed| == |targets| && Observes(server.answers, |old(server.answers)|, targets, observed)
              && retried == PresentOf(targets, observed) && phaseChanged == PhaseChanged(targets, observed)
              && Inspected(rules, targets, server.answers, |old(server.answers)|, |server.answers|)
    ensures (&& Calm(server.world, old(server.clock), turn) && StorageClassReady(rules, old(server.objects))
             && p <= 24 && Prefix(rules, turn, targets, old(server.objects), p)
             && (p > 20 ==> ReadyStorage(rules, turn, targets, old(server.objects)))) ==>
              stop.None? && SeenAsIs(old(server.objects), targets, observed)
  {
    hide Acceptable, StorageReady, PoliciesReady, GatesPassed, Shaped, Passed, AllPassed, Inspected, Prefix, SeenAsIs,
         Observes, HasStatefulSet;
    SizeIs(targets);
    ghost var objects := server.objects;
    observed, retried, phaseChanged := [], [], false;
    ghost var start := |server.answers|;
    var all := ReadAllTargets(server, targets, turn);
    if all.None? { return Some(ReadAllFailed), [], [], false; }
    observed := all.value;
    ghost var read := server.answers;
    var storageClass := server.Get(STORAGE_CLASS);
    ghost var classRead := server.answers;
    if !storageClass.Present? || !rules.storageClassOk(storageClass.stored) { return Some(StorageClassUnfit), [], [],
        false; }
    CalmObserved(rules, turn, targets, objects, observed, p);
    var ok, hasStatefulSet: bool;
    ok, retried, hasStatefulSet, phaseChanged := ValidateObserved(server, rules, targets, observed, turn);
    if !ok { return Some(ExistingRefused), [], [], false; }
    ghost var passed := server.answers;
    if hasStatefulSet {
      ok := PassGates(server, rules, targets, StatefulSet, turn);
      if !ok { return Some(GateRefused), [], [], false; }
    }
    ObservesKept(read, server.answers, start, targets, observed);
    NowInspected(rules, targets, read, classRead, passed, server.answers, start, observed);
    stop := None;
  }

  const STORAGE_CLASS := Id(StorageClass, "local")

  predicate StorageClassReady(rules: Rules, objects: Objects) {
    STORAGE_CLASS in objects.stored && rules.storageClassOk(objects.stored[STORAGE_CLASS])
  }

  predicate NamespaceFirst(missing: seq<Target>) { missing != [] && missing[0].id.kind.Namespace? }

  /** From there on the entry was dry-run as a create and read again. */
  ghost predicate Admitted(answers: seq<Answer>, from: nat, item: Target) {
    && from + 1 < |answers|
    && answers[from].DryRun? && answers[from].id == item.id && answers[from].sent == item.desired
    && answers[from].base.None? && answers[from].canonical.Some?
    && answers[from + 1].Read? && answers[from + 1].id == item.id
  }

  /** The entry was found there after its dry run, and passed every check against what that answered. */
  ghost predicate AdoptedAt(rules: Rules, answers: seq<Answer>, from: nat, id: Id) {
    && from < |answers| && answers[from].DryRun? && answers[from].canonical.Some?
    && ConfirmedAt(rules, answers, from + 1, id, answers[from].canonical.value)
  }

  /** The Namespace was requested right after it was found absent. */
  ghost predicate NamespaceRequest(answers: seq<Answer>, attempt: Attempt) {
    && attempt.id.kind.Namespace?
    && 0 < attempt.place <= |answers| && answers[attempt.place - 1] == Read(attempt.id, NotFound)
  }

  /** Only the Namespace was requested, no earlier than there. */
  ghost predicate NamespaceOnly(answers: seq<Answer>, attempts: seq<Attempt>, n: nat, from: nat) {
    forall a :: n <= a < |attempts| ==> NamespaceRequest(answers, attempts[a]) && from <= attempts[a].place
  }

  /** The Namespace is requested right after it was found absent. */
  method RequestAbsent(
    server: ApiServer, rules: Rules, targets: seq<Target>, item: Target, canonical: string,
    ghost from: nat, ghost start: nat, ghost n: nat, ghost turn: Turn)
    returns (stop: Option<Stop>)
    requires server.Valid() && n == |server.attempts| && start <= from && item in targets && item.id.kind.Namespace?
    requires Admitted(server.answers, from, item) && server.answers[from].canonical == Some(canonical)
    requires |server.answers| == from + 2 && server.answers[from + 1].reading.NotFound?
    modifies server
    ensures server.Valid() && old(server.answers) <= server.answers && old(server.attempts) <= server.attempts
    ensures old(server.clock) <= server.clock && NoStatefulSetRead(server.answers, |old(server.answers)|)
    ensures Sound(rules, targets, server.answers, server.attempts, start, start, n, if stop.None? then 1 else 0)
    ensures forall a :: n <= a < |server.attempts| ==>
              server.attempts[a].place == from + 2 && NamespaceRequest(server.answers, server.attempts[a])
    ensures if stop.None? then Requested(server.attempts, n, [item.id], [])
            else Requested(server.attempts, n, [], []) || Requested(server.attempts, n, [], [item.id])
    ensures (&& Calm(server.world, old(server.clock), turn) && Benign(rules, turn, item)
             && item.id !in old(server.objects).stored
             && turn.admit(item.id, item.desired) == Some(canonical)) ==>
              stop.None? && server.objects == Add(old(server.objects), item.id, canonical)
  {
    hide Sound, Requested, Benign, DryRanCreate, ConfirmedAt, PersistedCalls;
    NothingRequested(rules, targets, server.answers, server.attempts, start);
    ghost var read, before := server.answers, server.attempts;
    stop := CreateAndVerify(server, rules, item, canonical, turn);
    SoundMore(rules, targets, read, server.answers, before, server.attempts, start, start, n, 0, |read|, item.id);
    RequestedMore(before, server.attempts, n, [], item.id, |read|);
    if stop.None? {
      assert [] + [item.id] == [item.id];
      DryRanAt(read, start, from, item, canonical);
      SoundConfirmed(rules, targets, read, server.answers, server.attempts, start, start, n, 0, item, canonical);
    }
  }

  /** One entry is admitted, looked for again, and requested if it is still absent. */
  method AdmitFirst(
    server: ApiServer, rules: Rules, targets: seq<Target>, item: Target, ghost start: nat, ghost n: nat,
    ghost turn: Turn)
    returns (stop: Option<Stop>, created: bool)
    requires server.Valid() && n == |server.attempts| && start <= |server.answers| && item in targets
    requires item.id.kind.Namespace?
    modifies server
    ensures server.Valid() && old(server.answers) <= server.answers && old(server.attempts) <= server.attempts
    ensures old(server.clock) <= server.clock && NoStatefulSetRead(server.answers, |old(server.answers)|)
    ensures Sound(rules, targets, server.answers, server.attempts, start, start, n, if created then 1 else 0)
    ensures stop.None? || n < |server.attempts| ==> Admitted(server.answers, |old(server.answers)|, item)
    ensures forall a :: n <= a < |server.attempts| ==>
              server.attempts[a].place == |old(server.answers)| + 2
                  && NamespaceRequest(server.answers, server.attempts[a])
    ensures stop.None? && !created ==> AdoptedAt(rules, server.answers, |old(server.answers)|, item.id)
    ensures if created then stop.None? && Requested(server.attempts, n, [item.id], [])
            else Requested(server.attempts, n, [], []) || (stop.Some? && Requested(server.attempts, n, [], [item.id]))
    ensures stop.None? && !created ==> Requested(server.attempts, n, [], [])
    ensures (&& Calm(server.world, old(server.clock), turn)
             && Benign(rules, turn, item) && item.id !in old(server.objects).stored) ==>
              && created && turn.admit(item.id, item.desired).Some?
              && server.objects == Add(old(server.objects), item.id, turn.admit(item.id, item.desired).value)
  {
    hide Sound, Requested, PersistedOk, Benign, PersistedRead, DryRanCreate, ApiServer.Valid, ConfirmedAt, Admitted,
         AdoptedAt, PersistedCalls;
    BenignAdmits(rules, turn, item);
    created := false;
    NothingRequested(rules, targets, server.answers, server.attempts, start);
    ghost var answers, before, clock := server.answers, server.attempts, server.clock;
    var canonical := server.DryRunCreate(item.id, item.desired);
    ghost var admitted := server.answers;
    SoundKept(rules, targets, answers, admitted, before, start, start, n, 0);
    if canonical.None? { return Some(DryRunFailed), false; }
    var reading := server.Get(item.id);
    ghost var read := server.answers;
    SoundKept(rules, targets, admitted, read, before, start, start, n, 0);
    if reading.ReadFailed? { return Some(Collision), false; }
    AdmittedNow(answers, admitted, read, item, canonical.value, clock, reading);
    if reading.Present? {
      var ok := ValidatePersisted(server, rules, item.id, reading.stored, canonical.value, turn);
      SoundKept(rules, targets, read, server.answers, before, start, start, n, 0);
      AdmittedKept(read, server.answers, |answers|, item);
      if ok { AdoptedNow(rules, admitted, read, server.answers, |answers|, item, canonical.value, clock, reading); }
      return if ok then None else Some(Collision), false;
    }
    stop := RequestAbsent(server, rules, targets, item, canonical.value, |answers|, start, n, turn);
    AdmittedKept(read, server.answers, |answers|, item);
    created := stop.None?;
  }

  lemma AdmittedNow(
    answers: seq<Answer>, admitted: seq<Answer>, read: seq<Answer>, item: Target, canonical: string,
    at: nat, reading: Reading)
    requires admitted == answers + [DryRun(item.id, item.desired, None, at, Some(canonical))]
    requires read == admitted + [Read(item.id, reading)]
    ensures Admitted(read, |answers|, item) && read[|answers|].canonical == Some(canonical)
    ensures read[|answers| + 1].reading == reading
  {
    assert read[|answers|] == admitted[|answers|];
  }

  lemma AdoptedNow(
    rules: Rules, admitted: seq<Answer>, read: seq<Answer>, answers: seq<Answer>, from: nat, item: Target,
    canonical: string, at: nat, reading: Reading)
    requires |admitted| == from + 1 && admitted[from] == DryRun(item.id, item.desired, None, at, Some(canonical))
    requires read == admitted + [Read(item.id, reading)] && reading.Present? && read <= answers
    requires PersistedRead(rules, answers, |read|, item.id, reading.stored, canonical)
    ensures AdoptedAt(rules, answers, from, item.id)
  {
    hide PersistedRead;
    assert answers[from] == read[from] == admitted[from] && answers[from + 1] == read[from + 1];
  }

  lemma BenignAdmits(rules: Rules, turn: Turn, item: Target)
    ensures Benign(rules, turn, item) ==> turn.admit(item.id, item.desired).Some?
  {
  }

  lemma DryRanAt(answers: seq<Answer>, from: nat, k: nat, item: Target, canonical: string)
    requires from <= k && Admitted(answers, k, item) && answers[k].canonical == Some(canonical)
    ensures DryRanCreate(answers, from, |answers|, item, canonical)
  {
  }

  lemma AdoptedThere(rules: Rules, answers: seq<Answer>, start: nat, from: nat, item: Target)
    requires start <= from && Admitted(answers, from, item) && AdoptedAt(rules, answers, from, item.id)
    ensures Adopted(rules, answers, start, |answers|, item)
  {
    hide BindingRead, BindingCalls, ExactOk;
    var canonical := answers[from].canonical.value;
    assert DryRanCreate(answers, start, from + 1, item, canonical);
  }

  lemma AdmittedKept(answers: seq<Answer>, later: seq<Answer>, from: nat, item: Target)
    requires Admitted(answers, from, item) && answers <= later
    ensures Admitted(later, from, item) && later[from] == answers[from] && later[from + 1] == answers[from + 1]
  {
  }

  /** A missing Namespace is admitted, looked for again and created before anything else is dry-run. */
  method AdmitNamespace(
    server: ApiServer, rules: Rules, targets: seq<Target>, missing: seq<Target>, ghost start: nat, ghost n: nat,
    ghost turn: Turn)
    returns (stop: Option<Stop>, rest: seq<Target>, created: seq<Id>, raced: seq<Id>)
    requires server.Valid() && n == |server.attempts| && start <= |server.answers|
    requires forall item :: item in missing ==> item in targets
    modifies server
    ensures server.Valid() && old(server.answers) <= server.answers && old(server.attempts) <= server.attempts
    ensures old(server.clock) <= server.clock && NoStatefulSetRead(server.answers, |old(server.answers)|)
    ensures Sound(rules, targets, server.answers, server.attempts, start, start, n, |created|)
    ensures NamespaceOnly(server.answers, server.attempts, n, |old(server.answers)|)
    ensures NamespaceFirst(missing) && (stop.None? || n < |server.attempts|) ==>
              Admitted(server.answers, |old(server.answers)|, missing[0])
    ensures stop.None? && raced != [] ==>
              && NamespaceFirst(missing) && AdoptedAt(rules, server.answers, |old(server.answers)|, missing[0].id)
              && Adopted(rules, server.answers, start, |server.answers|, missing[0])
    ensures rest == (if NamespaceFirst(missing) then missing[1..] else missing)
    ensures stop.None? ==>
              && Requested(server.attempts, n, created, [])
              && (if NamespaceFirst(missing) then created + raced == [missing[0].id] else created == raced == [])
    ensures stop.Some? ==> created == []
    ensures stop.Some? ==>
              || Requested(server.attempts, n, [], [])
              || (NamespaceFirst(missing) && Requested(server.attempts, n, [], [missing[0].id]))
    ensures (&& Calm(server.world, old(server.clock), turn) && NamespaceFirst(missing)
             && Benign(rules, turn, missing[0]) && missing[0].id !in old(server.objects).stored) ==>
              && stop.None? && created == [missing[0].id] && turn.admit(missing[0].id, missing[0].desired).Some?
              && server.objects == Add(old(server.objects), missing[0].id,
                                       turn.admit(missing[0].id, missing[0].desired).value)
    ensures Calm(server.world, old(server.clock), turn) && !NamespaceFirst(missing) ==>
              stop.None? && server.objects == old(server.objects)
  {
    hide Sound, Requested, Benign, Admitted, AdoptedAt, Adopted, NamespaceRequest;
    ghost var answers := server.answers;
    rest, created, raced := missing, [], [];
    NothingRequested(rules, targets, server.answers, server.attempts, start);
    if |missing| == 0 || !missing[0].id.kind.Namespace? { return None, rest, created, raced; }
    rest := missing[1..];
    var made: bool;
    stop, made := AdmitFirst(server, rules, targets, missing[0], start, n, turn);
    if made {
      created := [missing[0].id];
    } else if stop.None? {
      raced := [missing[0].id];
      AdoptedThere(rules, server.answers, start, |answers|, missing[0]);
    }
    assert created + raced == created || created + raced == raced;
  }

  lemma NothingRequested(rules: Rules, targets: seq<Target>, answers: seq<Answer>, attempts: seq<Attempt>, start: nat)
    ensures Sound(rules, targets, answers, attempts, start, start, |attempts|, 0)
    ensures Requested(attempts, |attempts|, [], [])
  {
    assert attempts[|attempts|..] == [];
  }

  /** The stretch of the history in which the missing entries were read again. */
  datatype Stretch = Stretch(from: nat, to: nat)

  /** Apart from the Namespace, only entries that this second reading found absent are requested, after it. */
  ghost predicate Checked(answers: seq<Answer>, attempts: seq<Attempt>, n: nat, recheck: Stretch) {
    forall a :: n <= a < |attempts| ==>
      if attempts[a].place <= recheck.from then NamespaceRequest(answers, attempts[a])
      else recheck.to <= attempts[a].place && Saw(answers, recheck.from, recheck.to, attempts[a].id, NotFound)
  }

  /** The first read of the run found every claim and every binder Pod. */
  ghost predicate StorageSeenFirst(answers: seq<Answer>, start: nat, targets: seq<Target>) {
    forall i :: 0 <= i < |targets| && (targets[i].id.kind.PersistentVolumeClaim? || targets[i].id.kind.Pod?) ==>
      start + i < |answers| && answers[start + i].Read? && answers[start + i].id == targets[i].id
          && answers[start + i].reading.Present?
  }

  /** Created in inventory order, confirmed one by one; at most one more request, in a run that failed. */
  ghost predicate CreatedInOrder(attempts: seq<Attempt>, n: nat, targets: seq<Target>, created: seq<Id>, failed: bool) {
    && n <= |attempts| && InOrder(IdsOf(attempts[n..]), Ids(targets)) && InOrder(created, Ids(targets))
    && created <= IdsOf(attempts[n..])
    && |attempts| - n <= |created| + (if failed then 1 else 0)
    && forall a :: n <= a < n + |created| && a < |attempts| ==> attempts[a].answer.Some?
  }

  lemma RequestedInOrder(
    attempts: seq<Attempt>, n: nat, targets: seq<Target>, plan: seq<Id>, created: seq<Id>, last: seq<Id>)
    requires Requested(attempts, n, created, last) && created + last <= plan
    requires forall k :: 0 <= k <= |plan| ==> InOrder(plan[..k], Ids(targets))
    ensures CreatedInOrder(attempts, n, targets, created, true)
    ensures last == [] ==> CreatedInOrder(attempts, n, targets, created, false)
  {
    assert |IdsOf(attempts[n..])| == |attempts| - n;
    assert plan[..|created + last|] == created + last && plan[..|created|] == created;
    if last == [] { assert created + last == created; }
  }

  /** On success every entry is either created or retried. */
  ghost predicate Partitions(ids: seq<Id>, created: seq<Id>, retried: seq<Id>) {
    && |created| + |retried| == |ids|
    && forall id :: id in ids ==> (id in retried <==> id !in created)
  }

  lemma PartitionOf(
    ids: seq<Id>, absent: set<Id>, missing: seq<Id>, rest: seq<Id>, present: seq<Id>, created: seq<Id>, raced: seq<Id>,
    pending: seq<Id>, late: seq<Id>)
    requires Distinct(ids) && missing == Those(ids, absent) && Elements(present) == Elements(ids) - absent
    requires |missing| + |present| == |ids| && |pending| + |late| == |rest|
    requires pending == Those(rest, Elements(pending)) && Elements(late) == Elements(rest) - Elements(pending)
    requires || (rest == missing && created == raced == [])
             || (missing != [] && rest == missing[1..] && created + raced == [missing[0]])
    ensures Partitions(ids, created + pending, present + raced + late)
  {
    hide Those, Distinct;
    ThoseElements(ids, absent);
    ThoseDistinct(ids, absent);
    ThoseElements(rest, Elements(pending));
    if rest != missing || created != [] || raced != [] {
      HeadApart(missing);
      assert |created + raced| == 1;
      assert if created == [] then raced == [missing[0]] else created == [missing[0]] && raced == [] by {
        assert (created + raced)[0] == missing[0];
        if created == [] { assert created + raced == raced; }
      }
    }
    forall id | id in ids ensures id in present + raced + late <==> id !in created + pending {
      assert id in Elements(ids) && (id in Elements(missing) <==> id in absent);
      assert id in Elements(rest) <==> id in Elements(late) || id in Elements(pending);
      assert id in Elements(missing) <==> id in Elements(rest) || id in created || id in raced;
      assert id in present <==> id in Elements(present);
      assert id in late <==> id in Elements(late);
      assert id in pending <==> id in Elements(pending);
      assert id in created || id in raced ==> id !in Elements(rest);
      assert !(id in created && id in raced);
      assert id in present + raced + late <==> id in present || id in raced || id in late;
      assert id in created + pending <==> id in created || id in pending;
    }
  }

  lemma HeadApart(ids: seq<Id>)
    requires Distinct(ids) && ids != []
    ensures ids[0] !in ids[1..] && Elements(ids) == {ids[0]} + Elements(ids[1..])
  {
    assert ids == [ids[0]] + ids[1..];
  }

  lemma {:induction false} MissingIsRest(targets: seq<Target>, observed: seq<Option<Stored>>, p: nat)
    requires |targets| == |observed| && p <= |targets|
    requires forall i :: 0 <= i < |targets| ==> (observed[i].None? <==> p <= i)
    ensures MissingOf(targets, observed) == targets[p..]
  {
    if targets != [] {
      var n := |targets| - 1;
      if p <= n {
        MissingIsRest(targets[..n], observed[..n], p);
        assert targets[..n][p..] + [targets[n]] == targets[p..];
      } else {
        MissingIsRest(targets[..n], observed[..n], n);
      }
    }
  }

  /** What the first read of a calm server with the first p entries shows. */
  lemma QuietMissing(
    rules: Rules, turn: Turn, targets: seq<Target>, objects: Objects, observed: seq<Option<Stored>>, p: nat)
    requires Shaped(targets) && |targets| == |observed| == 24 && p <= 24
    requires Prefix(rules, turn, targets, objects, p) && SeenAsIs(objects, targets, observed)
    ensures MissingOf(targets, observed) == targets[p..] && PhaseChanged(targets, observed) == (p < 20)
    ensures NamespaceFirst(targets[p..]) == (p == 0)
  {
    hide Distinct, DistinctNames, DistinctBinders;
    forall i | 0 <= i < 24 ensures observed[i].None? <==> p <= i {
      assert Lookup(objects, targets[i].id) == ReadingOf(observed[i]);
      if i < p { AcceptableIsThere(rules, turn, objects, targets[i]); }
    }
    MissingIsRest(targets, observed, p);
    assert forall i :: 0 <= i < 24 ==> targets[i].id == Ids(targets)[i];
    if p < 20 {
      assert observed[19].None? && targets[19].id.kind.Pod?;
    }
  }

  lemma CheckedStays(answers: seq<Answer>, attempts: seq<Attempt>, n: nat, recheck: Stretch)
    requires NamespaceOnly(answers, attempts, n, 0)
    requires forall a :: n <= a < |attempts| ==> attempts[a].place <= recheck.from
    ensures Checked(answers, attempts, n, recheck)
  {
  }

  /** The pending entries were found absent by the second reading, so their requests are checked. */
  lemma CheckedGrows(
    before: seq<Answer>, attempts: seq<Attempt>, answers: seq<Answer>, more: seq<Attempt>, n: nat, recheck: Stretch,
    items: seq<Target>, pending: seq<Target>, created0: seq<Id>, created: seq<Id>, last: seq<Id>)
    requires NamespaceOnly(before, attempts, n, 0)
    requires forall a :: n <= a < |attempts| ==> attempts[a].place <= recheck.from
    requires recheck.from <= recheck.to == |before| && before <= answers && attempts <= more
    requires Rechecked(before, recheck.from, recheck.to, items, Elements(Ids(pending)))
    requires forall item :: item in pending ==> item in items
    requires Requested(attempts, n, created0, []) && Requested(more, n, created, last)
    requires created + last <= created0 + Ids(pending)
    requires forall a :: |attempts| <= a < |more| ==> |before| <= more[a].place
    ensures Checked(answers, more, n, recheck)
  {
    hide Saw, Rechecked;
    assert IdsOf(attempts[n..]) == created0 by { assert created0 + [] == created0; }
    assert |IdsOf(attempts[n..])| == |attempts| - n;
    forall a | n <= a < |more|
      ensures if more[a].place <= recheck.from then NamespaceRequest(answers, more[a])
              else recheck.to <= more[a].place && Saw(answers, recheck.from, recheck.to, more[a].id, NotFound)
    {
      if a < |attempts| {
        assert more[a] == attempts[a] && NamespaceRequest(before, attempts[a]);
        assert answers[attempts[a].place - 1] == before[attempts[a].place - 1];
      } else {
        assert IdsOf(more[n..])[a - n] == more[a].id && (created + last)[a - n] == more[a].id;
        assert more[a].id == Ids(pending)[a - |attempts|];
        RecheckedAbsent(before, answers, recheck, items, pending, a - |attempts|);
      }
    }
  }

  lemma RecheckedAbsent(
    before: seq<Answer>, answers: seq<Answer>, recheck: Stretch, items: seq<Target>, pending: seq<Target>, k: nat)
    requires recheck.to <= |before| && before <= answers && k < |pending|
    requires Rechecked(before, recheck.from, recheck.to, items, Elements(Ids(pending)))
    requires forall item :: item in pending ==> item in items
    ensures Saw(answers, recheck.from, recheck.to, Ids(pending)[k], NotFound) && recheck.from < recheck.to
  {
    assert pending[k] in items;
    var i :| 0 <= i < |items| && items[i] == pending[k];
    assert Ids(pending)[k] in Elements(Ids(pending));
    SawKept(before, answers, recheck.from, recheck.to, recheck.from, recheck.to, items[i].id, NotFound);
  }

  /** The requests are those for a beginning of the plan, and for all of it on success. */
  ghost predicate Created(attempts: seq<Attempt>, n: nat, created0: seq<Id>, pending: seq<Id>, result: Result) {
    exists last :: Requested(attempts, n, result.created, last) && result.created + last <= created0 + pending
                   && (result.error.None? ==> last == [] && result.created == created0 + pending)
  }

  lemma NothingCreated(attempts: seq<Attempt>, n: nat, created0: seq<Id>, pending: seq<Id>, result: Result)
    requires Requested(attempts, n, created0, []) && result.created == created0 && result.error.Some?
    ensures Created(attempts, n, created0, pending, result)
  {
    hide Requested;
    assert created0 + [] <= created0 + pending;
  }

  lemma SomeCreated(attempts: seq<Attempt>, n: nat, created0: seq<Id>, pending: seq<Id>, result: Result, last: seq<Id>)
    requires Requested(attempts, n, result.created, last) && |created0| <= |result.created| <= |created0 + pending|
    requires result.created == created0 + pending[..|result.created| - |created0|]
    requires last == [] || (|result.created| < |created0 + pending| && last == [pending[|result.created| - |created0|]])
    requires result.error.None? ==> last == [] && |result.created| == |created0 + pending|
    ensures Created(attempts, n, created0, pending, result)
  {
    hide Requested;
    assert result.created + last <= created0 + pending;
  }

  /** A calm server on which exactly the first p entries exist, and those from p on are missing. */
  ghost predicate QuietRest(
    rules: Rules, turn: Turn, targets: seq<Target>, objects: Objects, rest: seq<Target>, p: nat)
  {
    p <= |targets| && rest == targets[p..] && Prefix(rules, turn, targets, objects, p)
        && AllBenign(rules, turn, targets)
  }

  lemma QuietAbsent(rules: Rules, turn: Turn, targets: seq<Target>, objects: Objects, rest: seq<Target>, p: nat)
    requires QuietRest(rules, turn, targets, objects, rest, p)
    ensures forall i :: 0 <= i < |rest| ==>
              rest[i].id !in objects.stored && turn.admit(rest[i].id, rest[i].desired).Some?
  {
    hide Acceptable, PersistedOk;
    forall i | 0 <= i < |rest| ensures rest[i].id !in objects.stored && turn.admit(rest[i].id, rest[i].desired).Some? {
      assert rest[i] == targets[p + i] && Benign(rules, turn, targets[p + i]);
    }
  }

  lemma NoStatefulSetSeen(answers: seq<Answer>, at: nat)
    ensures !StatefulSetSeen(answers, at, at)
  {
  }

  lemma NothingPending(ids: seq<Id>)
    ensures [] == Those(ids, Elements([]))
  {
    assert Elements([]) == {};
    NoneChosen(ids);
  }

  /** Dry runs of everything that is missing, then the second reading. */
  method Recheck(server: ApiServer, rules: Rules, rest: seq<Target>, ghost turn: Turn)
    returns (stop: Option<Stop>, canonicals: map<Id, string>, again: seq<Target>, raced: seq<Id>,
             racedStatefulSet: bool,
             ghost from: nat)
    requires server.Valid() && Distinct(Ids(rest))
    modifies server
    ensures OnlyReads(server, turn) && |old(server.answers)| <= from <= |server.answers|
    ensures StatefulSetsUnread(server.answers, |old(server.answers)|, from)
    ensures stop.None? ==>
              && Ids(again) == Those(Ids(rest), Elements(Ids(again)))
              && Elements(raced) == Elements(Ids(rest)) - Elements(Ids(again))
              && |again| + |raced| == |rest|
              && (forall item :: item in again ==> item in rest)
              && AllDryRun(server.answers, |old(server.answers)|, |server.answers|, again, canonicals)
              && Rechecked(server.answers, from, |server.answers|, rest, Elements(Ids(again)))
              && racedStatefulSet == StatefulSetSeen(server.answers, from, |server.answers|)
              && AllAdopted(rules, server.answers, |old(server.answers)|, |server.answers|, rest, Elements(Ids(again)))
    ensures (&& Calm(server.world, old(server.clock), turn)
             && forall i :: 0 <= i < |rest| ==>
                 rest[i].id !in old(server.objects).stored && turn.admit(rest[i].id, rest[i].desired).Some?) ==>
              && stop.None? && again == rest && !racedStatefulSet
              && forall i :: 0 <= i < |rest| ==>
                   rest[i].id in canonicals && turn.admit(rest[i].id, rest[i].desired) == Some(canonicals[rest[i].id])
  {
    hide Rechecked, StatefulSetSeen, Those, Elements, Distinct, DryRanCreate, AllAdopted;
    canonicals, again, raced, racedStatefulSet := map[], [], [], false;
    ghost var start := |server.answers|;
    var found := DryRunAll(server, rest, turn);
    from := |server.answers|;
    ghost var answers := server.answers;
    if found.None? { stop := Some(DryRunFailed); return; }
    canonicals := found.value;
    var ok: bool;
    ok, again, raced, racedStatefulSet := SecondReads(server, rules, rest, canonicals, start, turn);
    if !ok { stop := Some(Collision); UnreadKept(answers, server.answers, start, from); return; }
    AllDryRunKept(answers, server.answers, start, |answers|, start, |server.answers|, rest, again, canonicals);
    UnreadKept(answers, server.answers, start, from);
    stop := None;
  }

  /** After the second reading: stop at a raced StatefulSet, or create what is still pending. */
  method CreateAgain(
    server: ApiServer, rules: Rules, targets: seq<Target>, rest: seq<Target>, again: seq<Target>,
    canonicals: map<Id, string>, created0: seq<Id>, raced: seq<Id>, racedStatefulSet: bool, phaseChanged: bool,
    ghost recheck: Stretch, ghost start: nat, ghost n: nat, ghost p: nat, ghost turn: Turn)
    returns (result: Result)
    requires server.Valid() && Shaped(targets) && AllDryRun(server.answers, start, |server.answers|, again, canonicals)
    requires Requested(server.attempts, n, created0, [])
    requires Sound(rules, targets, server.answers, server.attempts, start, recheck.to, n, |created0|)
    requires NamespaceOnly(server.answers, server.attempts, n, 0)
    requires forall a :: n <= a < |server.attempts| ==> server.attempts[a].place <= recheck.from
    requires recheck.from <= recheck.to == |server.answers|
    requires Rechecked(server.answers, recheck.from, recheck.to, rest, Elements(Ids(again)))
    requires (forall item :: item in again ==> item in rest) && forall item :: item in rest ==> item in targets
    requires racedStatefulSet == StatefulSetSeen(server.answers, recheck.from, recheck.to)
    modifies server
    ensures server.Valid() && old(server.answers) <= server.answers && old(server.attempts) <= server.attempts
    ensures Created(server.attempts, n, created0, Ids(again), result) && result.retried == raced
    ensures old(server.clock) <= server.clock
    ensures Sound(rules, targets, server.answers, server.attempts, start, recheck.to, n, |result.created|)
    ensures phaseChanged ==> forall a :: |old(server.attempts)| <= a < |server.attempts| ==>
              !server.attempts[a].id.kind.StatefulSet?
    ensures Checked(server.answers, server.attempts, n, recheck)
    ensures forall a :: |old(server.attempts)| <= a < |server.attempts| ==>
              |old(server.answers)| <= server.attempts[a].place
    ensures StatefulSetSeen(server.answers, recheck.from, recheck.to) ==>
              result.error.Some? && server.attempts == old(server.attempts)
    ensures (&& Calm(server.world, old(server.clock), turn)
             && Quiet(rules, turn, targets, old(server.objects), again, canonicals, p)
             && !racedStatefulSet && (if phaseChanged then p <= 20
                                      else ReadyStorage(rules, turn, targets, old(server.objects)))) ==>
              && result.error.Some? == phaseChanged
              && QuietAt(rules, turn, targets, old(server.objects), server.objects, created0, result.created, p,
                         if phaseChanged then 20 else 24)
  {
    hide Sound, Requested, Shaped, ReadyStorage, Rechecked, StatefulSetSeen, QuietAt, Elements, Created, Checked, Calm,
         Quiet, AllDryRun, NamespaceOnly, GatesPassed;
    SizeIs(targets);
    ghost var read, before := server.answers, server.attempts;
    if racedStatefulSet {
      var passed := PassGates(server, rules, targets, StatefulSet, turn);
      SoundKept(rules, targets, read, server.answers, before, start, recheck.to, n, |created0|);
      NamespaceOnlyKept(read, server.answers, before, n, 0);
      CheckedStays(server.answers, before, n, recheck);
      StatefulSetSeenKept(read, server.answers, recheck.from, recheck.to);
      result := Result(created0, raced, Some(if passed then RacedStatefulSet else GateRefused));
      NothingCreated(before, n, created0, Ids(again), result);
      return;
    }
    var created, stop := CreatePending(server, rules, targets, again, canonicals, created0, phaseChanged, start,
                                       recheck.to, n, p, turn);
    result := Result(created, raced, stop);
    PendingCreated(read, before, server.answers, server.attempts, n, recheck, rest, again, created0, result);
  }

  lemma OnlyNamespace(answers: seq<Answer>, attempts: seq<Attempt>, n: nat)
    requires NamespaceOnly(answers, attempts, n, 0)
    ensures forall a :: n <= a < |attempts| ==> attempts[a].id.kind.Namespace?
  {
  }

  lemma NamespaceOnlyKept(answers: seq<Answer>, later: seq<Answer>, attempts: seq<Attempt>, n: nat, from: nat)
    requires NamespaceOnly(answers, attempts, n, from) && answers <= later
    ensures NamespaceOnly(later, attempts, n, from) && NamespaceOnly(later, attempts, n, 0)
  {
    forall a | n <= a < |attempts| ensures NamespaceRequest(later, attempts[a]) {
      assert NamespaceRequest(answers, attempts[a]);
      assert later[attempts[a].place - 1] == answers[attempts[a].place - 1];
    }
  }

  /** Dry runs, second reading, and the creations in order. */
  method CreateRest(
    server: ApiServer, rules: Rules, targets: seq<Target>, rest: seq<Target>, created0: seq<Id>, phaseChanged: bool,
    ghost start: nat, ghost n: nat, ghost p: nat, ghost turn: Turn)
    returns (result: Result, ghost pending: seq<Id>, ghost recheck: Stretch)
    requires server.Valid() && Shaped(targets) && Distinct(Ids(rest)) && forall item :: item in rest ==> item in targets
    requires Requested(server.attempts, n, created0, []) && start <= |server.answers|
    requires Sound(rules, targets, server.answers, server.attempts, start, start, n, |created0|)
    requires NamespaceOnly(server.answers, server.attempts, n, 0)
    modifies server
    ensures server.Valid() && old(server.answers) <= server.answers && old(server.attempts) <= server.attempts
    ensures pending == Those(Ids(rest), Elements(pending))
    ensures Created(server.attempts, n, created0, pending, result)
    ensures result.error.None? ==>
              Elements(result.retried) == Elements(Ids(rest)) - Elements(pending)
                  && |pending| + |result.retried| == |rest|
    ensures Sound(rules, targets, server.answers, server.attempts, start, recheck.to, n, |result.created|)
    ensures phaseChanged ==> forall a :: |old(server.attempts)| <= a < |server.attempts| ==>
              !server.attempts[a].id.kind.StatefulSet?
    ensures old(server.clock) <= server.clock
    ensures |old(server.answers)| <= recheck.from <= recheck.to <= |server.answers|
    ensures Checked(server.answers, server.attempts, n, recheck)
    ensures forall a :: |old(server.attempts)| <= a < |server.attempts| ==>
              |old(server.answers)| <= server.attempts[a].place
    ensures result.error.None? || server.attempts != old(server.attempts) ==>
              Rechecked(server.answers, recheck.from, recheck.to, rest, Elements(pending))
    ensures StatefulSetSeen(server.answers, recheck.from, recheck.to) ==>
              result.error.Some? && server.attempts == old(server.attempts)
    ensures StatefulSetsUnread(server.answers, |old(server.answers)|, recheck.from)
    ensures result.error.None? ==> AllAdopted(rules, server.answers, start, |server.answers|, rest, Elements(pending))
    ensures (&& Calm(server.world, old(server.clock), turn)
             && QuietRest(rules, turn, targets, old(server.objects), rest, p)
             && (if phaseChanged then p <= 20 else ReadyStorage(rules, turn, targets, old(server.objects)))) ==>
              && result.error.Some? == phaseChanged
              && QuietAt(rules, turn, targets, old(server.objects), server.objects, created0, result.created, p,
                         if phaseChanged then 20 else 24)
  {
    hide Sound, Requested, Shaped, QuietRest, Benign, ReadyStorage, Rechecked, StatefulSetSeen, QuietAt, Those,
         Elements, Distinct, Created, Checked, Calm, Quiet, AllDryRun, NamespaceRequest, StatefulSetsUnread, AllAdopted;
    SizeIs(targets);
    ghost var answers, before, was, world, clock := server.answers, server.attempts, server.objects, server.world,
        server.clock;
    ghost var calm := Calm(world, clock, turn) && QuietRest(rules, turn, targets, was, rest, p);
    if calm { QuietAbsent(rules, turn, targets, was, rest, p); }
    var stop, canonicals, again, raced, racedStatefulSet;
    ghost var from;
    stop, canonicals, again, raced, racedStatefulSet, from := Recheck(server, rules, rest, turn);
    SoundKept(rules, targets, answers, server.answers, before, start, start, n, |created0|);
    NamespaceOnlyKept(answers, server.answers, before, n, 0);
    OnlyNamespace(server.answers, before, n);
    if stop.Some? {
      SoundSince(rules, targets, server.answers, before, start, start, from, n, |created0|);
      pending, recheck := [], Stretch(from, from);
      result := Result(created0, [], stop);
      NothingPending(Ids(rest));
      NothingCreated(before, n, created0, [], result);
      CheckedStays(server.answers, before, n, recheck);
      NoStatefulSetSeen(server.answers, from);
      return;
    }
    SoundSince(rules, targets, server.answers, before, start, start, |server.answers|, n, |created0|);
    recheck, pending := Stretch(from, |server.answers|), Ids(again);
    if calm {
      CalmLater(world, clock, server.clock, turn);
      QuietPending(rules, turn, targets, was, rest, again, canonicals, p);
    }
    ghost var read := server.answers;
    AllDryRunKept(read, read, |answers|, |read|, start, |read|, again, again, canonicals);
    result := CreateAgain(server, rules, targets, rest, again, canonicals, created0, raced, racedStatefulSet,
                          phaseChanged, recheck,
                          start, n, p, turn);
    RecheckedKept(read, server.answers, recheck.from, recheck.to, rest, Elements(pending));
    UnreadKept(read, server.answers, |answers|, from);
    AllAdoptedKept(rules, read, server.answers, |answers|, |read|, start, |server.answers|, rest, Elements(pending));
  }

  lemma LastWithin(created0: seq<Id>, pending: seq<Id>, created: seq<Id>, last: seq<Id>)
    requires |created0| <= |created| <= |created0 + pending| && created == created0 + pending[..|created| - |created0|]
    requires last == [] || (|created| < |created0 + pending| && last == [pending[|created| - |created0|]])
    ensures created + last <= created0 + pending
  {
  }

  lemma PendingCreated(
    before: seq<Answer>, attempts: seq<Attempt>, answers: seq<Answer>, more: seq<Attempt>, n: nat, recheck: Stretch,
    rest: seq<Target>, again: seq<Target>, created0: seq<Id>, result: Result)
    requires NamespaceOnly(before, attempts, n, 0)
    requires forall a :: n <= a < |attempts| ==> attempts[a].place <= recheck.from
    requires recheck.from <= recheck.to == |before| && before <= answers && attempts <= more
    requires Rechecked(before, recheck.from, recheck.to, rest, Elements(Ids(again)))
    requires (forall item :: item in again ==> item in rest)
    requires Requested(attempts, n, created0, []) && forall a :: |attempts| <= a < |more| ==> |before| <= more[a].place
    requires |created0| <= |result.created| <= |created0| + |again|
    requires result.created == created0 + Ids(again)[..|result.created| - |created0|]
    requires if result.error.None? then |result.created| == |created0| + |again|
             && Requested(more, n, result.created, [])
             else || Requested(more, n, result.created, [])
                  || (|result.created| - |created0| < |again|
                      && Requested(more, n, result.created, [Ids(again)[|result.created| - |created0|]]))
    ensures Created(more, n, created0, Ids(again), result) && Checked(answers, more, n, recheck)
    ensures StatefulSetSeen(answers, recheck.from, recheck.to) <==> StatefulSetSeen(before, recheck.from, recheck.to)
  {
    hide Requested, Rechecked, Checked, Created, StatefulSetSeen;
    var created, pending := result.created, Ids(again);
    var last := if Requested(more, n, created, []) then [] else [pending[|created| - |created0|]];
    SomeCreated(more, n, created0, pending, result, last);
    LastWithin(created0, pending, created, last);
    CheckedGrows(before, attempts, answers, more, n, recheck, rest, again, created0, created, last);
    StatefulSetSeenKept(before, answers, recheck.from, recheck.to);
  }

  lemma StatefulSetSeenKept(answers: seq<Answer>, later: seq<Answer>, from: nat, to: nat)
    requires to <= |answers| && answers <= later
    ensures StatefulSetSeen(later, from, to) <==> StatefulSetSeen(answers, from, to)
  {
    assert forall k :: 0 <= k < |answers| ==> later[k] == answers[k];
  }

  lemma QuietPending(
    rules: Rules, turn: Turn, targets: seq<Target>, objects: Objects, rest: seq<Target>, again: seq<Target>,
    canonicals: map<Id, string>, p: nat)
    requires QuietRest(rules, turn, targets, objects, rest, p) && rest == again
    requires forall i :: 0 <= i < |rest| ==>
               rest[i].id in canonicals && turn.admit(rest[i].id, rest[i].desired) == Some(canonicals[rest[i].id])
    ensures Quiet(rules, turn, targets, objects, again, canonicals, p)
  {
  }

  /** A calm server, everything admissible, and exactly the first p entries of the inventory there. */
  ghost predicate CalmStage(rules: Rules, turn: Turn, targets: seq<Target>, objects: Objects, p: nat) {
    p <= 24 && StorageClassReady(rules, objects) && AllBenign(rules, turn, targets)
        && Prefix(rules, turn, targets, objects, p)
  }

  /** Whatever the first reading did not find, the Namespace aside, was read again in the stretch. */
  ghost predicate MissingReread(answers: seq<Answer>, start: nat, targets: seq<Target>, recheck: Stretch) {
    forall i :: 0 <= i < |targets| && start + i < |answers| && answers[start + i] == Read(targets[i].id, NotFound) ==>
      targets[i].id.kind.Namespace? || Reread(answers, recheck, targets[i].id)
  }

  ghost predicate Reread(answers: seq<Answer>, recheck: Stretch, id: Id) {
    Saw(answers, recheck.from, recheck.to, id, NotFound)
        || exists o :: Saw(answers, recheck.from, recheck.to, id, Present(o))
  }

  /** The run inspected everything before its first request. */
  ghost predicate InspectedFirst(
    rules: Rules, targets: seq<Target>, answers: seq<Answer>, attempts: seq<Attempt>, start: nat, n: nat)
  {
    exists to: nat :: Inspected(rules, targets, answers, start, to) && forall a :: n <= a < |attempts| ==>
        to <= attempts[a].place
  }

  ghost predicate MoreThanNamespace(attempts: seq<Attempt>, n: nat) {
    exists a :: n <= a < |attempts| && !attempts[a].id.kind.Namespace?
  }

  /** An entry that the first reading missed is only listed to retry if it was adopted. */
  ghost predicate RetriedLate(rules: Rules, targets: seq<Target>, answers: seq<Answer>, start: nat, retried: seq<Id>) {
    forall i :: 0 <= i < |targets| && start + i < |answers| && answers[start + i] == Read(targets[i].id, NotFound) ==>
      targets[i].id in retried ==> Adopted(rules, answers, start, |answers|, targets[i])
  }

  /** What a run did, whatever others did meanwhile. */
  ghost predicate Ran(
    rules: Rules, targets: seq<Target>, answers: seq<Answer>, attempts: seq<Attempt>, start: nat, n: nat,
    result: Result, recheck: Stretch)
  {
    && CreatedInOrder(attempts, n, targets, result.created, result.error.Some?)
    && Sound(rules, targets, answers, attempts, start, recheck.to, n, |result.created|)
    && (n < |attempts| || result.error.None? ==> InspectedFirst(rules, targets, answers, attempts, start, n))
    && ((exists a :: n <= a < |attempts| && attempts[a].id.kind.StatefulSet?) ==>
        StorageSeenFirst(answers, start, targets))
    && start + |targets| <= recheck.from <= recheck.to <= |answers| && Checked(answers, attempts, n, recheck)
    && StatefulSetsUnread(answers, start + |targets|, recheck.from)
    && (MoreThanNamespace(attempts, n) || result.error.None? ==> MissingReread(answers, start, targets, recheck))
    && (StatefulSetSeen(answers, recheck.from, recheck.to) ==>
          result.error.Some? && forall a :: n <= a < |attempts| ==> attempts[a].place <= recheck.from)
    && (result.error.None? ==> Partitions(Ids(targets), result.created, result.retried))
    && (result.error.None? ==> RetriedLate(rules, targets, answers, start, result.retried))
  }

  predicate Found(answer: Answer, id: Id) { answer.Read? && answer.id == id && answer.reading.Present? }

  /** A run of the inventory that asks for a StatefulSet is one whose first reading, before it asked
      for anything, found both claims and both binder Pods. */
  lemma StatefulSetsNeedStorage(
    rules: Rules, targets: seq<Target>, answers: seq<Answer>, attempts: seq<Attempt>, start: nat, n: nat,
    result: Result, recheck: Stretch, a: nat)
    requires Ran(rules, targets, answers, attempts, start, n, result, recheck) && Ids(targets) == INVENTORY
    requires n <= a < |attempts| && attempts[a].id.kind.StatefulSet?
    ensures forall b :: n <= b < |attempts| ==> start + 24 <= attempts[b].place
    ensures Found(answers[start + 4], Id(PersistentVolumeClaim, "mss-shop-postgres-data"))
    ensures Found(answers[start + 7], Id(PersistentVolumeClaim, "mss-shop-redis-data"))
    ensures Found(answers[start + 18], Id(Pod, "mss-shop-postgres-storage-binder"))
    ensures Found(answers[start + 19], Id(Pod, "mss-shop-redis-storage-binder"))
  {
    hide Sound, CreatedInOrder, Checked, MissingReread, StatefulSetSeen, Partitions, RetriedLate, INVENTORY;
    StorageIds();
    assert forall i :: 0 <= i < 24 ==> targets[i].id == Ids(targets)[i];
    assert StorageSeenFirst(answers, start, targets);
    assert targets[4].id.kind.PersistentVolumeClaim? && targets[7].id.kind.PersistentVolumeClaim?;
    assert targets[18].id.kind.Pod? && targets[19].id.kind.Pod?;
  }

  lemma StorageIds()
    ensures |INVENTORY| == 24
    ensures INVENTORY[4] == Id(PersistentVolumeClaim, "mss-shop-postgres-data")
    ensures INVENTORY[7] == Id(PersistentVolumeClaim, "mss-shop-redis-data")
    ensures INVENTORY[18] == Id(Pod, "mss-shop-postgres-storage-binder")
    ensures INVENTORY[19] == Id(Pod, "mss-shop-redis-storage-binder")
  {
  }

  /** A run that stopped before the second reading requested at most the Namespace. */
  lemma StoppedEarly(
    rules: Rules, targets: seq<Target>, answers: seq<Answer>, attempts: seq<Attempt>, start: nat, n: nat,
    absent: set<Id>, last: seq<Id>, result: Result)
    requires Distinct(Ids(targets)) && start + |targets| <= |answers|
    requires Requested(attempts, n, [], last) && Sound(rules, targets, answers, attempts, start, start, n, 0)
    requires last == [] || (Those(Ids(targets), absent) != [] && last == [Those(Ids(targets), absent)[0]])
    requires NamespaceOnly(answers, attempts, n, 0) && NoStatefulSetRead(answers, start + |targets|)
    requires n < |attempts| ==> InspectedFirst(rules, targets, answers, attempts, start, n)
    requires result.created == [] && result.error.Some?
    ensures Ran(rules, targets, answers, attempts, start, n, result, Stretch(|answers|, |answers|))
  {
    hide Sound, Those, Distinct, InOrder, InspectedFirst;
    var plan := Those(Ids(targets), absent);
    forall k | 0 <= k <= |plan| ensures InOrder(plan[..k], Ids(targets)) { PrefixInOrder(Ids(targets), absent, k); }
    OnlyNamespace(answers, attempts, n);
    SoundSince(rules, targets, answers, attempts, start, start, |answers|, n, 0);
    RequestedInOrder(attempts, n, targets, plan, [], last);
  }

  lemma SawStorageFirst(
    targets: seq<Target>, observed: seq<Option<Stored>>, read: seq<Answer>, answers: seq<Answer>, start: nat)
    requires |observed| == |targets| && Observes(read, start, targets, observed) && read <= answers
    requires !PhaseChanged(targets, observed)
    ensures StorageSeenFirst(answers, start, targets)
  {
    forall i | 0 <= i < |targets| && (targets[i].id.kind.PersistentVolumeClaim? || targets[i].id.kind.Pod?)
      ensures start + i < |answers| && answers[start + i].Read? && answers[start + i].id == targets[i].id
      ensures answers[start + i].reading.Present?
    {
      assert observed[i].Some?;
      assert read[start + i] == Read(targets[i].id, ReadingOf(observed[i]));
    }
  }

  lemma {:induction false} MissingHolds(targets: seq<Target>, observed: seq<Option<Stored>>, i: nat)
    requires |targets| == |observed| && i < |targets| && observed[i].None?
    ensures targets[i] in MissingOf(targets, observed)
  {
    var n := |targets| - 1;
    if i < n { MissingHolds(targets[..n], observed[..n], i); }
  }

  /** The second reading covers all that the first one did not find, the Namespace aside. */
  lemma RereadAll(
    targets: seq<Target>, observed: seq<Option<Stored>>, read: seq<Answer>, answers: seq<Answer>, start: nat,
    rest: seq<Target>, pending: set<Id>, recheck: Stretch)
    requires |observed| == |targets| && Observes(read, start, targets, observed) && read <= answers
    requires rest == (var missing := MissingOf(targets, observed); if NamespaceFirst(missing) then missing[1..]
                      else missing)
    requires Rechecked(answers, recheck.from, recheck.to, rest, pending)
    ensures MissingReread(answers, start, targets, recheck)
  {
    hide Saw, MissingOf;
    var missing := MissingOf(targets, observed);
    forall i | 0 <= i < |targets| && start + i < |answers| && answers[start + i] == Read(targets[i].id, NotFound)
      ensures targets[i].id.kind.Namespace? || Reread(answers, recheck, targets[i].id)
    {
      assert answers[start + i] == read[start + i] == Read(targets[i].id, ReadingOf(observed[i]));
      MissingHolds(targets, observed, i);
      if !targets[i].id.kind.Namespace? {
        var k :| 0 <= k < |missing| && missing[k] == targets[i];
        assert rest == missing || (k > 0 && rest[k - 1] == targets[i]);
        assert targets[i] in rest;
        var j :| 0 <= j < |rest| && rest[j] == targets[i];
        assert if rest[j].id in pending then Saw(answers, recheck.from, recheck.to, rest[j].id, NotFound)
               else exists o :: Saw(answers, recheck.from, recheck.to, rest[j].id, Present(o));
      }
    }
  }

  /** The requests of a run that came to the second reading follow the inventory. */
  lemma FullyInOrder(
    targets: seq<Target>, observed: seq<Option<Stored>>, attempts: seq<Attempt>, n: nat, rest: seq<Target>,
    created0: seq<Id>, raced: seq<Id>, pending: seq<Id>, inner: Result, result: Result)
    requires Distinct(Ids(targets)) && |observed| == |targets|
    requires var missing := MissingOf(targets, observed);
             && rest == (if NamespaceFirst(missing) then missing[1..] else missing)
             && (if NamespaceFirst(missing) then created0 + raced == [missing[0].id] else created0 == raced == [])
    requires pending == Those(Ids(rest), Elements(pending)) && Created(attempts, n, created0, pending, inner)
    requires inner.error.None? ==>
               Elements(inner.retried) == Elements(Ids(rest)) - Elements(pending)
                   && |pending| + |inner.retried| == |rest|
    requires result == inner.(retried := PresentOf(targets, observed) + raced + inner.retried)
    ensures CreatedInOrder(attempts, n, targets, result.created, result.error.Some?)
    ensures result.error.None? ==> Partitions(Ids(targets), result.created, result.retried)
  {
    hide Those, Distinct, InOrder, Elements, Requested, CreatedInOrder, Partitions, Absent;
    var ids, missing, absent := Ids(targets), MissingOf(targets, observed), Absent(targets, observed);
    MissingAndPresent(targets, observed);
    RestOfMissing(missing, rest, created0, raced);
    var plan := created0 + pending;
    forall k | 0 <= k <= |plan| ensures InOrder(plan[..k], ids) {
      PlanInOrder(ids, absent, Ids(missing), Ids(rest), created0, pending, k);
    }
    var last :| Requested(attempts, n, inner.created, last) && inner.created + last <= plan
                && (inner.error.None? ==> last == [] && inner.created == plan);
    RequestedInOrder(attempts, n, targets, plan, inner.created, last);
    if inner.error.None? {
      PartitionOf(ids, absent, Ids(missing), Ids(rest), PresentOf(targets, observed), created0, raced, pending,
                  inner.retried);
    }
  }

  /** On success every late entry to retry was adopted: the Namespace on its admission, the others by
      the second reading. */
  lemma AllRetried(
    rules: Rules, targets: seq<Target>, observed: seq<Option<Stored>>, read: seq<Answer>, begun: seq<Answer>,
    answers: seq<Answer>, start: nat, rest: seq<Target>, created0: seq<Id>, raced: seq<Id>, pending: seq<Id>,
    late: seq<Id>)
    requires Distinct(Ids(targets)) && |observed| == |targets| && Observes(read, start, targets, observed)
    requires read <= begun <= answers
    requires var missing := MissingOf(targets, observed);
             && rest == (if NamespaceFirst(missing) then missing[1..] else missing)
             && (if NamespaceFirst(missing) then created0 + raced == [missing[0].id] else created0 == raced == [])
             && (raced != [] ==> NamespaceFirst(missing) && Adopted(rules, begun, start, |begun|, missing[0]))
    requires Elements(late) == Elements(Ids(rest)) - Elements(pending)
    requires AllAdopted(rules, answers, start, |answers|, rest, Elements(pending))
    ensures RetriedLate(rules, targets, answers, start, PresentOf(targets, observed) + raced + late)
  {
    hide Adopted, Absent, MissingOf, PresentOf;
    var missing := MissingOf(targets, observed);
    MissingAndPresent(targets, observed);
    forall i | 0 <= i < |targets| && start + i < |answers| && answers[start + i] == Read(targets[i].id, NotFound)
               && targets[i].id in PresentOf(targets, observed) + raced + late
      ensures Adopted(rules, answers, start, |answers|, targets[i])
    {
      assert answers[start + i] == read[start + i] == Read(targets[i].id, ReadingOf(observed[i]));
      AbsentAt(targets, observed, i);
      assert targets[i].id !in Elements(PresentOf(targets, observed));
      if targets[i].id in raced {
        assert raced == [missing[0].id] by { assert |created0 + raced| == 1; }
        SameTarget(targets, missing[0], i);
        AdoptedKept(rules, begun, answers, start, |begun|, start, |answers|, targets[i]);
      } else {
        assert targets[i].id in Elements(late);
        var j :| 0 <= j < |rest| && Ids(rest)[j] == targets[i].id;
        assert rest[j] in missing;
        SameTarget(targets, rest[j], i);
      }
    }
  }

  lemma SameTarget(targets: seq<Target>, item: Target, i: nat)
    requires Distinct(Ids(targets)) && item in targets && i < |targets| && item.id == targets[i].id
    ensures item == targets[i]
  {
    var j :| 0 <= j < |targets| && targets[j] == item;
    assert Ids(targets)[j] == Ids(targets)[i];
  }

  /** A run that came to the second reading. */
  lemma RanFully(
    rules: Rules, targets: seq<Target>, observed: seq<Option<Stored>>, read: seq<Answer>, begun: seq<Answer>,
    answers: seq<Answer>, admitted: seq<Attempt>, attempts: seq<Attempt>, start: nat, n: nat, rest: seq<Target>,
    created0: seq<Id>, raced: seq<Id>, pending: seq<Id>, inner: Result, result: Result, recheck: Stretch)
    requires Distinct(Ids(targets)) && begun <= answers && admitted <= attempts
    requires Begun(rules, targets, observed, read, begun, admitted, start, n, rest, created0, raced)
    requires pending == Those(Ids(rest), Elements(pending)) && Created(attempts, n, created0, pending, inner)
    requires inner.error.None? ==>
               Elements(inner.retried) == Elements(Ids(rest)) - Elements(pending)
                   && |pending| + |inner.retried| == |rest|
    requires result == inner.(retried := PresentOf(targets, observed) + raced + inner.retried)
    requires Sound(rules, targets, answers, attempts, start, recheck.to, n, |inner.created|)
    requires PhaseChanged(targets, observed) ==> forall a :: |admitted| <= a < |attempts| ==>
        !attempts[a].id.kind.StatefulSet?
    requires forall a :: |admitted| <= a < |attempts| ==> |begun| <= attempts[a].place
    requires |begun| <= recheck.from <= recheck.to <= |answers| && Checked(answers, attempts, n, recheck)
    requires StatefulSetsUnread(answers, |begun|, recheck.from)
    requires inner.error.None? || attempts != admitted ==>
        Rechecked(answers, recheck.from, recheck.to, rest, Elements(pending))
    requires StatefulSetSeen(answers, recheck.from, recheck.to) ==> inner.error.Some? && attempts == admitted
    requires inner.error.None? ==> AllAdopted(rules, answers, start, |answers|, rest, Elements(pending))
    ensures Ran(rules, targets, answers, attempts, start, n, result, recheck)
  {
    hide Sound, Those, Distinct, InOrder, Elements, Requested, StatefulSetSeen, Checked, PhaseChanged, Observes,
         StorageSeenFirst, CreatedInOrder, Partitions, Absent, Created, Inspected, Rechecked, MissingReread, MissingOf,
         PresentOf;
    FullyInOrder(targets, observed, attempts, n, rest, created0, raced, pending, inner, result);
    if !PhaseChanged(targets, observed) { SawStorageFirst(targets, observed, read, answers, start); }
    InspectedKept(rules, targets, begun, answers, start, |read|);
    InspectedWithin(rules, targets, answers, start, |read|);
    UnreadJoined(begun, answers, start + |targets|, recheck.from);
    forall a | n <= a < |attempts| ensures |read| <= attempts[a].place {
      if a < |admitted| { assert attempts[a] == admitted[a]; }
    }
    assert InspectedFirst(rules, targets, answers, attempts, start, n);
    if inner.error.None? {
      AllRetried(rules, targets, observed, read, begun, answers, start, rest, created0, raced, pending, inner.retried);
    }
    if inner.error.None? || attempts != admitted {
      RereadAll(targets, observed, read, answers, start, rest, Elements(pending), recheck);
    } else {
      assert forall a :: n <= a < |attempts| ==> NamespaceRequest(begun, admitted[a]);
    }
    assert forall a :: n <= a < |admitted| ==> NamespaceRequest(begun, admitted[a]) && attempts[a] == admitted[a];
  }

  lemma InspectedWithin(rules: Rules, targets: seq<Target>, answers: seq<Answer>, start: nat, to: nat)
    requires Inspected(rules, targets, answers, start, to)
    ensures start + |targets| < to <= |answers|
  {
  }

  lemma RestOfMissing(missing: seq<Target>, rest: seq<Target>, created: seq<Id>, raced: seq<Id>)
    requires rest == (if NamespaceFirst(missing) then missing[1..] else missing)
    requires if NamespaceFirst(missing) then created + raced == [missing[0].id] else created == raced == []
    ensures |Ids(missing)| == |missing|
    ensures if NamespaceFirst(missing) then Ids(missing) != [] && Ids(rest) == Ids(missing)[1..]
            && created + raced == [Ids(missing)[0]]
            else Ids(rest) == Ids(missing)
    ensures created == [] || (NamespaceFirst(missing) && created == [Ids(missing)[0]])
  {
    if NamespaceFirst(missing) && created != [] { assert (created + raced)[0] == created[0] && |created| == 1; }
  }

  /** On a calm server a run that starts with the first p entries creates the others in order: up to
      the first StatefulSet, and then it fails, if a claim or a binder was missing; else all of them. */
  ghost predicate RanCalmly(
    rules: Rules, turn: Turn, targets: seq<Target>, before: Objects, objects: Objects, result: Result, p: nat)
    requires |targets| == 24
  {
    var end := if p < 20 then 20 else 24;
    && p <= end && result.created == Ids(targets)[p..end] && result.error.Some? == (p < 20)
    && CalmStage(rules, turn, targets, objects, end) && Grown(before, objects)
    && (20 <= p ==> ReadyStorage(rules, turn, targets, objects))
  }

  /** What the first half of a run, up to the Namespace, leaves for the second. */
  ghost predicate Begun(
    rules: Rules, targets: seq<Target>, observed: seq<Option<Stored>>, read: seq<Answer>, answers: seq<Answer>,
    attempts: seq<Attempt>, start: nat, n: nat, rest: seq<Target>, created: seq<Id>, raced: seq<Id>)
  {
    && |observed| == |targets| && Observes(read, start, targets, observed) && read <= answers
    && Inspected(rules, targets, answers, start, |read|) && NoStatefulSetRead(answers, start + |targets|)
    && (var missing := MissingOf(targets, observed);
        && rest == (if NamespaceFirst(missing) then missing[1..] else missing)
        && (if NamespaceFirst(missing) then created + raced == [missing[0].id] else created == raced == [])
        && (raced != [] ==> NamespaceFirst(missing) && Adopted(rules, answers, start, |answers|, missing[0])))
    && Requested(attempts, n, created, []) && Sound(rules, targets, answers, attempts, start, start, n, |created|)
    && NamespaceOnly(answers, attempts, n, |read|)
    && (forall a :: n <= a < |attempts| ==> attempts[a].place <= |answers|)
    && Distinct(Ids(rest)) && forall item :: item in rest ==> item in targets
  }

  /** On a calm server exactly the first q entries exist by then. */
  ghost predicate BegunCalmly(
    rules: Rules, turn: Turn, targets: seq<Target>, before: Objects, objects: Objects, rest: seq<Target>,
    created: seq<Id>, p: nat, q: nat)
    requires |targets| == 24
  {
    && p <= q <= 24 && q == (if p == 0 then 1 else p)
    && QuietRest(rules, turn, targets, objects, rest, q) && created == Ids(targets)[p..q] && Grown(before, objects)
    && StorageClassReady(rules, objects) && (20 <= p ==> ReadyStorage(rules, turn, targets, objects))
  }

  lemma NothingAsked(answers: seq<Answer>, attempts: seq<Attempt>, from: nat)
    ensures NamespaceOnly(answers, attempts, |attempts|, from)
  {
  }

  lemma InspectedThen(
    rules: Rules, targets: seq<Target>, answers: seq<Answer>, attempts: seq<Attempt>, start: nat, n: nat, to: nat)
    requires Inspected(rules, targets, answers, start, to) && NamespaceOnly(answers, attempts, n, to)
    ensures InspectedFirst(rules, targets, answers, attempts, start, n)
  {
    hide Inspected;
  }

  lemma MissingWithin(targets: seq<Target>, observed: seq<Option<Stored>>)
    requires |targets| == |observed|
    ensures forall item :: item in MissingOf(targets, observed) ==> item in targets
  {
    MissingCount(targets, observed);
  }

  /** From the first read on: a missing Namespace is admitted, looked for again and created. */
  method AdmitMissing(
    server: ApiServer, rules: Rules, targets: seq<Target>, observed: seq<Option<Stored>>, retried: seq<Id>,
    ghost start: nat, ghost p: nat, ghost turn: Turn)
    returns (stop: Option<Stop>, rest: seq<Target>, created: seq<Id>, raced: seq<Id>)
    requires server.Valid() && Shaped(targets) && |observed| == |targets| && start <= |server.answers|
    requires Observes(server.answers, start, targets, observed) && retried == PresentOf(targets, observed)
    requires Inspected(rules, targets, server.answers, start, |server.answers|)
    requires NoStatefulSetRead(server.answers, start + |targets|)
    modifies server
    ensures server.Valid() && old(server.answers) <= server.answers && old(server.attempts) <= server.attempts
    ensures old(server.clock) <= server.clock
    ensures stop.Some? ==>
              Ran(rules, targets, server.answers, server.attempts, start, |old(server.attempts)|,
                  Result([], retried, stop), Stretch(|server.answers|, |server.answers|))
    ensures stop.None? ==>
              Begun(rules, targets, observed, old(server.answers), server.answers, server.attempts, start,
                    |old(server.attempts)|, rest, created, raced)
    ensures (&& Calm(server.world, old(server.clock), turn) && CalmStage(rules, turn, targets, old(server.objects), p)
             && SeenAsIs(old(server.objects), targets, observed)
             && (20 <= p ==> ReadyStorage(rules, turn, targets, old(server.objects)))) ==>
              && stop.None?
              && BegunCalmly(rules, turn, targets, old(server.objects), server.objects, rest, created, p, if p == 0
                             then 1 else p)
  {
    hide Sound, Requested, Shaped, Inspected, NamespaceOnly, ReadyStorage, Those, Elements, Distinct, Calm, Benign,
         Observes, SeenAsIs, Absent, PhaseChanged, Adopted, Ran, CalmStage, BegunCalmly, MissingOf, PresentOf,
         NoStatefulSetRead, Admitted, AdoptedAt;
    SizeIs(targets);
    ghost var read, n, objects, calm := server.answers, |server.attempts|, server.objects,
        Calm(server.world, server.clock, turn);
    var missing := MissingOf(targets, observed);
    MissingAndPresent(targets, observed);
    MissingWithin(targets, observed);
    if CalmStage(rules, turn, targets, objects, p) && SeenAsIs(objects, targets, observed) {
      QuietFirst(rules, turn, targets, objects, observed, p);
    }
    stop, rest, created, raced := AdmitNamespace(server, rules, targets, missing, start, n, turn);
    InspectedKept(rules, targets, read, server.answers, start, |read|);
    StatefulSetsStillUnread(read, server.answers, start + |targets|);
    if stop.Some? {
      InspectedWithin(rules, targets, read, start, |read|);
      NamespaceOnlyKept(server.answers, server.answers, server.attempts, n, |read|);
      InspectedThen(rules, targets, server.answers, server.attempts, start, n, |read|);
      ghost var last := if Requested(server.attempts, n, [], []) then [] else [missing[0].id];
      StoppedEarly(rules, targets, server.answers, server.attempts, start, n, Absent(targets, observed), last,
                   Result([], retried, stop));
      return;
    }
    RestOfMissing(missing, rest, created, raced);
    RestIsDistinct(Ids(targets), Absent(targets, observed), Ids(missing), Ids(rest));
    if && calm && CalmStage(rules, turn, targets, objects, p) && SeenAsIs(objects, targets, observed)
       && (20 <= p ==> ReadyStorage(rules, turn, targets, objects)) {
      QuietBegun(rules, turn, targets, objects, server.objects, missing, rest, created, p, if p == 0 then 1 else p);
    }
  }

  lemma StatefulSetsStillUnread(before: seq<Answer>, after: seq<Answer>, from: nat)
    requires before <= after && NoStatefulSetRead(before, from) && NoStatefulSetRead(after, |before|)
    ensures NoStatefulSetRead(after, from)
  {
  }

  method Begin(server: ApiServer, rules: Rules, targets: seq<Target>, ghost p: nat, ghost turn: Turn)
    returns (stop: Option<Stop>, ghost observed: seq<Option<Stored>>, retried: seq<Id>, phaseChanged: bool,
             rest: seq<Target>, created: seq<Id>, raced: seq<Id>, ghost read: seq<Answer>)
    requires server.Valid() && Shaped(targets)
    modifies server
    ensures server.Valid() && old(server.answers) <= server.answers && old(server.attempts) <= server.attempts
    ensures old(server.clock) <= server.clock
    ensures stop.Some? ==>
              Ran(rules, targets, server.answers, server.attempts, |old(server.answers)|, |old(server.attempts)|,
                  Result([], retried, stop), Stretch(|server.answers|, |server.answers|))
    ensures stop.None? ==>
              && Begun(rules, targets, observed, read, server.answers, server.attempts, |old(server.answers)|,
                       |old(server.attempts)|, rest, created, raced)
              && retried == PresentOf(targets, observed) && phaseChanged == PhaseChanged(targets, observed)
    ensures (&& Calm(server.world, old(server.clock), turn) && CalmStage(rules, turn, targets, old(server.objects), p)
             && (20 <= p ==> ReadyStorage(rules, turn, targets, old(server.objects)))) ==>
              && stop.None? && phaseChanged == (p < 20)
              && BegunCalmly(rules, turn, targets, old(server.objects), server.objects, rest, created, p, if p == 0
                             then 1 else p)
  {
    hide Sound, Requested, Shaped, Prefix, Inspected, ReadyStorage, Calm, Observes, SeenAsIs, Absent, PhaseChanged,
         StorageClassReady, Ran, Begun, CalmStage, BegunCalmly, MissingOf, PresentOf, NoStatefulSetRead;
    SizeIs(targets);
    ghost var answers, attempts, objects, world, clock := server.answers, server.attempts, server.objects, server.world,
        server.clock;
    ghost var calm := Calm(world, clock, turn) && CalmStage(rules, turn, targets, objects, p)
                      && (20 <= p ==> ReadyStorage(rules, turn, targets, objects));
    if calm { CalmParts(rules, turn, targets, objects, p); }
    var seen: seq<Option<Stored>>;
    stop, seen, retried, phaseChanged := Observe(server, rules, targets, p, turn);
    observed, read := seen, server.answers;
    rest, created, raced := [], [], [];
    if stop.Some? {
      NothingRequested(rules, targets, read, attempts, |answers|);
      NothingAsked(read, attempts, 0);
      StoppedEarly(rules, targets, read, attempts, |answers|, |attempts|, {}, [], Result([], retried, stop));
      return;
    }
    if calm {
      CalmLater(world, clock, server.clock, turn);
      QuietFirst(rules, turn, targets, objects, seen, p);
    }
    stop, rest, created, raced := AdmitMissing(server, rules, targets, seen, retried, |answers|, p, turn);
  }

  method Converge(server: ApiServer, rules: Rules, targets: seq<Target>, ghost p: nat, ghost turn: Turn)
    returns (result: Result, ghost recheck: Stretch)
    requires server.Valid() && Shaped(targets) && |targets| == 24
    modifies server
    ensures server.Valid() && old(server.answers) <= server.answers && old(server.attempts) <= server.attempts
    ensures Honest(server.world, server.clock, server.answers)
    ensures old(server.clock) <= server.clock
    ensures Ran(rules, targets, server.answers, server.attempts, |old(server.answers)|, |old(server.attempts)|, result,
                recheck)
    ensures (&& Calm(server.world, old(server.clock), turn) && CalmStage(rules, turn, targets, old(server.objects), p)
             && (20 <= p ==> ReadyStorage(rules, turn, targets, old(server.objects)))) ==>
              RanCalmly(rules, turn, targets, old(server.objects), server.objects, result, p)
  {
    hide Sound, Requested, Shaped, Inspected, NamespaceRequest, AllBenign, ReadyStorage, StatefulSetSeen, QuietAt,
         Those, Elements, Distinct, Created, Checked, Calm, QuietRest, PhaseChanged, StorageClassReady, Grown, Ran,
         RanCalmly, MissingOf, Observes, Prefix;
    SizeIs(targets);
    ghost var answers, attempts, objects, world, clock := server.answers, server.attempts, server.objects, server.world,
        server.clock;
    ghost var calm := Calm(world, clock, turn) && CalmStage(rules, turn, targets, objects, p)
                      && (20 <= p ==> ReadyStorage(rules, turn, targets, objects));
    ghost var observed, read;
    var stop, retried, phaseChanged, rest, created, raced;
    stop, observed, retried, phaseChanged, rest, created, raced, read := Begin(server, rules, targets, p, turn);
    if stop.Some? { return Result([], retried, stop), Stretch(|server.answers|, |server.answers|); }
    if calm { CalmLater(world, clock, server.clock, turn); }
    ghost var n, q, was, begun, admitted := |attempts|, if p == 0 then 1
        else p, server.objects, server.answers, server.attempts;
    var inner: Result;
    ghost var pending;
    inner, pending, recheck := CreateRest(server, rules, targets, rest, created, phaseChanged, |answers|, n, q, turn);
    result := inner.(retried := retried + raced + inner.retried);
    RanFully(rules, targets, observed, read, begun, server.answers, admitted, server.attempts, |answers|, n, rest,
             created, raced,
             pending, inner, result, recheck);
    if calm { QuietRan(rules, turn, targets, objects, was, server.objects, created, inner, result, p, q); }
  }

  lemma RestIsDistinct(ids: seq<Id>, absent: set<Id>, missing: seq<Id>, rest: seq<Id>)
    requires Distinct(ids) && missing == Those(ids, absent)
    requires (rest == missing || (missing != [] && rest == missing[1..]))
    ensures Distinct(rest)
  {
    ThoseDistinct(ids, absent);
  }

  lemma QuietFirst(
    rules: Rules, turn: Turn, targets: seq<Target>, objects: Objects, observed: seq<Option<Stored>>, p: nat)
    requires CalmStage(rules, turn, targets, objects, p) && Shaped(targets) && |targets| == |observed| == 24
    requires SeenAsIs(objects, targets, observed)
    ensures MissingOf(targets, observed) == targets[p..] && PhaseChanged(targets, observed) == (p < 20)
    ensures NamespaceFirst(targets[p..]) == (p == 0)
    ensures p == 0 ==> Benign(rules, turn, targets[p..][0]) && targets[p..][0].id !in objects.stored
  {
    hide Prefix, AllBenign, Shaped, Benign, SeenAsIs, PhaseChanged;
    QuietMissing(rules, turn, targets, objects, observed, p);
    QuietNamespace(rules, turn, targets, objects, p);
  }

  lemma CalmParts(rules: Rules, turn: Turn, targets: seq<Target>, objects: Objects, p: nat)
    requires CalmStage(rules, turn, targets, objects, p)
    ensures p <= 24 && StorageClassReady(rules, objects) && Prefix(rules, turn, targets, objects, p)
  {
    hide Prefix, AllBenign;
  }

  lemma QuietNamespace(rules: Rules, turn: Turn, targets: seq<Target>, objects: Objects, p: nat)
    requires CalmStage(rules, turn, targets, objects, p) && |targets| == 24
    ensures p == 0 ==> Benign(rules, turn, targets[p..][0]) && targets[p..][0].id !in objects.stored
  {
    hide Benign, Acceptable;
  }

  /** After a calm Namespace admission exactly the first q entries exist. */
  lemma QuietAdmitted(
    rules: Rules, turn: Turn, targets: seq<Target>, before: Objects, objects: Objects, missing: seq<Target>,
    rest: seq<Target>, created: seq<Id>, p: nat, q: nat)
    requires CalmStage(rules, turn, targets, before, p) && Shaped(targets) && |targets| == 24
    requires missing == targets[p..] && NamespaceFirst(missing) == (p == 0) && q == (if p == 0 then 1 else p)
    requires rest == (if p == 0 then missing[1..] else missing)
    requires if p == 0 then
               && created == [missing[0].id] && turn.admit(missing[0].id, missing[0].desired).Some?
               && objects == Add(before, missing[0].id, turn.admit(missing[0].id, missing[0].desired).value)
             else created == [] && objects == before
    ensures QuietRest(rules, turn, targets, objects, rest, q) && created == Ids(targets)[p..q] && Grown(before, objects)
    ensures ReadyStorage(rules, turn, targets, before) ==> ReadyStorage(rules, turn, targets, objects)
    ensures StorageClassReady(rules, objects)
  {
    hide Acceptable, PersistedOk, StorageReady, KindsInOrder, DistinctNames, DistinctBinders, Benign;
    if p == 0 {
      PrefixGrows(rules, turn, targets, before, 0, turn.admit(missing[0].id, missing[0].desired).value);
      if ReadyStorage(rules, turn, targets, before) {
        StorageReadyGrows(rules, turn, before, objects, [targets[4], targets[7]], [targets[18], targets[19]]);
      }
      assert Ids(targets)[0..1] == [targets[0].id];
    } else {
      assert Ids(targets)[p..p] == [];
    }
  }

  lemma QuietBegun(
    rules: Rules, turn: Turn, targets: seq<Target>, before: Objects, objects: Objects, missing: seq<Target>,
    rest: seq<Target>, created: seq<Id>, p: nat, q: nat)
    requires CalmStage(rules, turn, targets, before, p) && Shaped(targets) && |targets| == 24
    requires missing == targets[p..] && NamespaceFirst(missing) == (p == 0) && q == (if p == 0 then 1 else p)
    requires rest == (if p == 0 then missing[1..] else missing)
    requires if p == 0 then
               && created == [missing[0].id] && turn.admit(missing[0].id, missing[0].desired).Some?
               && objects == Add(before, missing[0].id, turn.admit(missing[0].id, missing[0].desired).value)
             else created == [] && objects == before
    requires 20 <= p ==> ReadyStorage(rules, turn, targets, before)
    ensures BegunCalmly(rules, turn, targets, before, objects, rest, created, p, q)
  {
    hide Prefix, AllBenign, Shaped, ReadyStorage, StorageClassReady, QuietRest, Grown;
    CalmParts(rules, turn, targets, before, p);
    QuietAdmitted(rules, turn, targets, before, objects, missing, rest, created, p, q);
  }

  /** How a calm run ends. */
  lemma QuietRan(
    rules: Rules, turn: Turn, targets: seq<Target>, before: Objects, was: Objects, objects: Objects,
    created0: seq<Id>, inner: Result, result: Result, p: nat, q: nat)
    requires CalmStage(rules, turn, targets, before, p) && Shaped(targets) && |targets| == 24
    requires q == (if p == 0 then 1 else p)
    requires created0 == Ids(targets)[p..q] && Grown(before, was) && StorageClassReady(rules, was)
    requires 20 <= p ==> ReadyStorage(rules, turn, targets, was)
    requires result.created == inner.created && result.error == inner.error && inner.error.Some? == (p < 20)
    requires QuietAt(rules, turn, targets, was, objects, created0, inner.created, q, if p < 20 then 20 else 24)
    ensures RanCalmly(rules, turn, targets, before, objects, result, p)
  {
    hide Acceptable, PersistedOk, StorageReady, Prefix, AllBenign, Shaped;
    var end := if p < 20 then 20 else 24;
    assert Ids(targets)[p..q] + Ids(targets)[q..end] == Ids(targets)[p..end];
    if 20 <= p {
      StorageReadyGrows(rules, turn, was, objects, [targets[4], targets[7]], [targets[18], targets[19]]);
    }
  }

  // ----- several runs -----

  /** What others do between the first run and the second binds the claims and schedules the binders. */
  ghost predicate Binds(rules: Rules, turn: Turn, targets: seq<Target>, start: Objects, binding: seq<Change>)
    requires |targets| == 24
  {
    forall o: Objects :: CalmStage(rules, turn, targets, o, 20) && Grown(start, o) ==>
      CalmStage(rules, turn, targets, Disturb(o, binding), 20)
          && ReadyStorage(rules, turn, targets, Disturb(o, binding))
  }

  /** With nobody interfering and the claims bound between runs, an empty cluster is complete after
      exactly two runs: the first stops before any StatefulSet, and every later one creates nothing. */
  method StageEmptyCluster(
    server: ApiServer, rules: Rules, targets: seq<Target>, binding: seq<Change>, laterRuns: nat, ghost turn: Turn)
    returns (first: Result, second: Result, later: seq<Result>)
    requires server.Valid() && Shaped(targets) && |targets| == 24
    requires Calm(server.world, server.clock, turn) && CalmStage(rules, turn, targets, server.objects, 0)
    requires Binds(rules, turn, targets, server.objects, binding)
    modifies server
    ensures first.error.Some? && first.created == Ids(targets)[..20]
    ensures second.error.None? && second.created == Ids(targets)[20..]
    ensures |later| == laterRuns && forall k :: 0 <= k < laterRuns ==> later[k].error.None? && later[k].created == []
    ensures CalmStage(rules, turn, targets, server.objects, 24)
  {
    hide Shaped, CalmStage, ReadyStorage, Calm, Grown, Ran;
    ghost var clock, world := server.clock, server.world;
    ghost var recheck;
    first, recheck := Converge(server, rules, targets, 0, turn);
    CalmLater(world, clock, server.clock, turn);
    server.Elapse(binding);
    second, recheck := Converge(server, rules, targets, 20, turn);
    CalmLater(world, clock, server.clock, turn);
    later := [];
    for k := 0 to laterRuns
      invariant server.Valid() && |later| == k && clock <= server.clock
      invariant Calm(world, server.clock, turn) && CalmStage(rules, turn, targets, server.objects, 24)
      invariant ReadyStorage(rules, turn, targets, server.objects)
      invariant forall j :: 0 <= j < k ==> later[j].error.None? && later[j].created == []
    {
      var next: Result;
      next, recheck := Converge(server, rules, targets, 24, turn);
      CalmLater(world, clock, server.clock, turn);
      later := later + [next];
    }
  }
}
