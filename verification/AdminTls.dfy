/** The create-only stage for the Admin TLS objects. */
module AdminTls {
  import opened Basics
  import opened Cluster

  const ENVIRONMENT := "mss-shop-dev"

  const NAMESPACE := Id(Namespace, ENVIRONMENT)

  const INVENTORY: seq<Id> := [
    Id(NetworkPolicy, "mss-shop-allow-ingress-nginx-to-acme-http01"),
    Id(Issuer, "mss-shop-dev-letsencrypt-production"),
    Id(Certificate, "mss-shop-tenant-admin-tls"),
    Id(Certificate, "mss-shop-mall-admin-aussibuy-tls")]

  lemma InventoryIsDistinct()
    ensures Distinct(INVENTORY) && |INVENTORY| == 4 && NAMESPACE !in INVENTORY
  {
    assert INVENTORY[2].name[9] == 't' && INVENTORY[3].name[9] == 'm';
  }

  /** The field-by-field checks on one object, and the projection two objects are compared by. */
  datatype Rules = Rules(
    namespaceOk: Stored -> bool, lifecycleOk: (Id, Stored) -> bool,
    admittedOk: (Id, string, string) -> bool, comparable: string -> string)

  predicate Exact(rules: Rules, id: Id, stored: Stored, canonical: string) {
    rules.lifecycleOk(id, stored) && rules.comparable(stored.content) == rules.comparable(canonical)
  }

  datatype Target = Target(id: Id, desired: string)

  datatype Observed = Observed(target: Target, existing: Option<Stored>, canonical: string)

  datatype Persisted = NothingSeen | Unknown | Noncanonical | ExactCopy

  datatype Stop =
    | PreflightFailed | IdentityChanged | RacedObject | CreateFailed(persisted: Persisted) | NotConfirmed | Incomplete

  datatype Result = Result(created: seq<Id>, retried: seq<Id>, dryRun: bool, error: Option<Stop>)

  // ----- what the history shows -----

  /** A preflight makes one call for the Namespace and two for each entry. */
  function Width(inventory: seq<Id>): nat { 1 + 2 * |inventory| }

  /** Where a preflight that begins there reads its i-th entry. */
  function Place(from: nat, i: nat): nat { from + 1 + 2 * i }

  predicate NamespaceAt(rules: Rules, answers: seq<Answer>, k: nat) {
    && k < |answers| && answers[k].Read? && answers[k].id == NAMESPACE
    && answers[k].reading.Present? && rules.namespaceOk(answers[k].reading.stored)
  }

  /** Two answers in a row: the entry read, and its manifest dry-run, as a create when it is absent, and as
      an update of the version that was read when it is present; then it is exact. */
  predicate EntryAt(rules: Rules, item: Target, answers: seq<Answer>, k: nat) {
    && k + 1 < |answers| && answers[k].Read? && answers[k].id == item.id && !answers[k].reading.ReadFailed?
    && var dry := answers[k + 1];
    && dry.DryRun? && dry.id == item.id && dry.sent == item.desired && dry.canonical.Some?
    && rules.admittedOk(item.id, dry.canonical.value, item.desired)
    && if answers[k].reading.NotFound? then dry.base.None?
       else dry.base == Some(answers[k].reading.stored.version)
            && rules.lifecycleOk(item.id, answers[k].reading.stored)
            && rules.comparable(answers[k].reading.stored.content) == rules.comparable(dry.canonical.value)
  }

  /** A full preflight that passed: the Namespace, then every entry in inventory order. */
  ghost predicate Preflighted(rules: Rules, inventory: seq<Id>, targets: seq<Target>, answers: seq<Answer>, from: nat) {
    && |targets| == |inventory| && from + Width(inventory) <= |answers| && NamespaceAt(rules, answers, from)
    && forall i :: 0 <= i < |inventory| ==>
        targets[i].id == inventory[i] && EntryAt(rules, targets[i], answers, Place(from, i))
  }

  predicate WasPresent(answers: seq<Answer>, k: nat) {
    k < |answers| && answers[k].Read? && answers[k].reading.Present?
  }

  predicate PresentAt(answers: seq<Answer>, k: nat, uid: nat) {
    WasPresent(answers, k) && answers[k].reading.stored.uid == uid
  }

  /** The requests for this identity, of which there was one, were answered with this UID. */
  ghost predicate UidMade(attempts: seq<Attempt>, from: nat, id: Id, uid: nat) {
    && (exists a :: from <= a < |attempts| && attempts[a].id == id)
    && forall a :: from <= a < |attempts| && attempts[a].id == id ==> attempts[a].answer == Some(uid)
  }

  /** Where in the history the second preflight begins and ends, where the final one begins, and how
      many requests to create came before this run. */
  datatype Phases = Phases(second: nat, ready: nat, final: nat, attempts: nat)

  /** The UID of an entry that the second preflight found is the one seen there; that of any other entry
      is the one its own request of this run was answered with. */
  ghost predicate Recorded(
    answers: seq<Answer>, attempts: seq<Attempt>, p: Phases, inventory: seq<Id>, i: nat, uid: nat)
    requires i < |inventory|
  {
    if WasPresent(answers, Place(p.second, i)) then PresentAt(answers, Place(p.second, i), uid)
    else UidMade(attempts, p.attempts, inventory[i], uid)
  }

  lemma PreflightedKept(
    rules: Rules, inventory: seq<Id>, targets: seq<Target>, answers: seq<Answer>, later: seq<Answer>, from: nat)
    requires Preflighted(rules, inventory, targets, answers, from) && answers <= later
    ensures Preflighted(rules, inventory, targets, later, from)
  {
    hide Exact;
    assert forall k :: 0 <= k < |answers| ==> later[k] == answers[k];
    forall i | 0 <= i < |inventory| ensures EntryAt(rules, targets[i], later, Place(from, i)) {
      assert EntryAt(rules, targets[i], answers, Place(from, i));
    }
  }

  // ----- what precedes and follows a request -----

  /** Where the full preflight before a request begins: right before the two reads that precede it. */
  function Before(inventory: seq<Id>, attempt: Attempt): int { attempt.place - Width(inventory) - 2 }

  /** Every UID known by then was seen unchanged by the preflight that begins there. */
  ghost predicate Untouched(
    answers: seq<Answer>, attempts: seq<Attempt>, p: Phases, inventory: seq<Id>, from: nat, a: nat)
    requires a <= |attempts|
  {
    forall j :: 0 <= j < |inventory| ==> EntryUntouched(answers, attempts, p, inventory, from, a, j)
  }

  ghost predicate EntryUntouched(
    answers: seq<Answer>, attempts: seq<Attempt>, p: Phases, inventory: seq<Id>, from: nat, a: nat, j: nat)
    requires a <= |attempts| && j < |inventory|
  {
    && (WasPresent(answers, Place(p.second, j)) ==>
          PresentAt(answers, Place(from, j), answers[Place(p.second, j)].reading.stored.uid))
    && forall b :: p.attempts <= b < a && attempts[b].id == inventory[j] ==>
         attempts[b].answer.Some? && PresentAt(answers, Place(from, j), attempts[b].answer.value)
  }

  /** The request was made for the i-th entry right after a full preflight that found every known UID
      unchanged and this entry absent, one more check of the Namespace, and one more read of the entry. */
  ghost predicate Prechecked(
    rules: Rules, inventory: seq<Id>, targets: seq<Target>, answers: seq<Answer>, attempts: seq<Attempt>, p: Phases,
    a: nat, i: nat)
    requires a < |attempts| && i < |inventory|
  {
    var at, from := attempts[a].place, Before(inventory, attempts[a]);
    && attempts[a].id == inventory[i] && p.ready <= from
    && Preflighted(rules, inventory, targets, answers, from) && Untouched(answers, attempts, p, inventory, from, a)
    && answers[Place(from, i)].reading.NotFound?
    && NamespaceAt(rules, answers, at - 2) && at <= |answers| && answers[at - 1] == Read(attempts[a].id, NotFound)
  }

  predicate AnsweredExact(rules: Rules, attempt: Attempt, canonical: string) {
    && attempt.id in attempt.after.stored && rules.lifecycleOk(attempt.id, attempt.after.stored[attempt.id])
    && rules.comparable(attempt.after.stored[attempt.id].content) == rules.comparable(canonical)
  }

  /** The object that was answered is exact against the dry run of that preflight, and right after the
      request it was read with the same UID, exact again. */
  ghost predicate Verified(
    rules: Rules, inventory: seq<Id>, answers: seq<Answer>, attempt: Attempt, i: nat)
  {
    var k := Before(inventory, attempt) + 2 + 2 * i;
    && 0 <= k < |answers| && answers[k].DryRun? && answers[k].canonical.Some?
    && attempt.answer.Some? && PresentAt(answers, attempt.place, attempt.answer.value)
    && answers[attempt.place].id == attempt.id
    && AnsweredExact(rules, attempt, answers[k].canonical.value)
    && rules.lifecycleOk(attempt.id, answers[attempt.place].reading.stored)
    && rules.comparable(answers[attempt.place].reading.stored.content) == rules.comparable(answers[k].canonical.value)
  }

  /** Every request of the run was prechecked, and verified too unless it was the last of a failed run. */
  ghost predicate Careful(
    rules: Rules, inventory: seq<Id>, targets: seq<Target>, answers: seq<Answer>, attempts: seq<Attempt>, p: Phases,
    failed: bool)
  {
    forall a :: p.attempts <= a < |attempts| ==>
      WithCare(rules, inventory, targets, answers, attempts, p, a, failed)
  }

  ghost predicate WithCare(
    rules: Rules, inventory: seq<Id>, targets: seq<Target>, answers: seq<Answer>, attempts: seq<Attempt>, p: Phases,
    a: nat, failed: bool)
    requires a < |attempts|
  {
    exists i :: 0 <= i < |inventory|
      && Prechecked(rules, inventory, targets, answers, attempts, p, a, i)
      && (!failed || a + 1 < |attempts| ==> Verified(rules, inventory, answers, attempts[a], i))
  }

  lemma UntouchedKept(
    answers: seq<Answer>, later: seq<Answer>, attempts: seq<Attempt>, more: seq<Attempt>, p: Phases, inventory: seq<Id>,
    from: nat, a: nat)
    requires a <= |attempts| && answers <= later && attempts <= more && p.second + Width(inventory) <= |answers|
    requires Untouched(answers, attempts, p, inventory, from, a)
    ensures Untouched(later, more, p, inventory, from, a)
  {
    assert forall k :: 0 <= k < |answers| ==> later[k] == answers[k];
    assert forall b :: 0 <= b < a ==> more[b] == attempts[b];
    forall j | 0 <= j < |inventory| ensures EntryUntouched(later, more, p, inventory, from, a, j) {
      assert EntryUntouched(answers, attempts, p, inventory, from, a, j);
    }
  }

  lemma WithCareKept(
    rules: Rules, inventory: seq<Id>, targets: seq<Target>, answers: seq<Answer>, later: seq<Answer>,
    attempts: seq<Attempt>, more: seq<Attempt>, p: Phases, a: nat, failed: bool, failed': bool)
    requires a < |attempts| && answers <= later && attempts <= more && p.second + Width(inventory) <= |answers|
    requires WithCare(rules, inventory, targets, answers, attempts, p, a, failed)
    requires !failed' || a + 1 < |more| ==> !failed || a + 1 < |attempts|
    ensures WithCare(rules, inventory, targets, later, more, p, a, failed')
  {
    hide Exact, Preflighted, Untouched;
    var i :| 0 <= i < |inventory|
      && Prechecked(rules, inventory, targets, answers, attempts, p, a, i)
      && (!failed || a + 1 < |attempts| ==> Verified(rules, inventory, answers, attempts[a], i));
    var from := Before(inventory, attempts[a]);
    assert forall k :: 0 <= k < |answers| ==> later[k] == answers[k];
    PreflightedKept(rules, inventory, targets, answers, later, from);
    UntouchedKept(answers, later, attempts, more, p, inventory, from, a);
    PreflightedWithin(rules, inventory, targets, answers, from, i);
    assert more[a] == attempts[a];
    assert Prechecked(rules, inventory, targets, later, more, p, a, i);
  }

  lemma PreflightedWithin(
    rules: Rules, inventory: seq<Id>, targets: seq<Target>, answers: seq<Answer>, from: nat, i: nat)
    requires Preflighted(rules, inventory, targets, answers, from) && i < |inventory|
    ensures |targets| == |inventory| && Place(from, i) + 1 < |answers| && answers[Place(from, i)].Read?
    ensures answers[Place(from, i) + 1].DryRun? && answers[Place(from, i) + 1].canonical.Some?
    ensures from + Width(inventory) <= |answers|
  {
    hide Exact;
    assert EntryAt(rules, targets[i], answers, Place(from, i));
  }

  lemma CarefulKept(
    rules: Rules, inventory: seq<Id>, targets: seq<Target>, answers: seq<Answer>, later: seq<Answer>,
    attempts: seq<Attempt>, p: Phases, failed: bool)
    requires answers <= later && p.second + Width(inventory) <= |answers|
    requires Careful(rules, inventory, targets, answers, attempts, p, failed)
    ensures Careful(rules, inventory, targets, later, attempts, p, failed)
    ensures Careful(rules, inventory, targets, later, attempts, p, true)
  {
    hide WithCare;
    forall a | p.attempts <= a < |attempts|
      ensures WithCare(rules, inventory, targets, later, attempts, p, a, failed)
      ensures WithCare(rules, inventory, targets, later, attempts, p, a, true)
    {
      WithCareKept(rules, inventory, targets, answers, later, attempts, attempts, p, a, failed, failed);
      WithCareKept(rules, inventory, targets, answers, later, attempts, attempts, p, a, failed, true);
    }
  }

  /** One more request, prechecked and, unless this ends the run, verified. */
  lemma CarefulMore(
    rules: Rules, inventory: seq<Id>, targets: seq<Target>, answers: seq<Answer>, later: seq<Answer>,
    attempts: seq<Attempt>, more: seq<Attempt>, p: Phases, i: nat, failed: bool)
    requires answers <= later && p.second + Width(inventory) <= |answers| && i < |inventory|
    requires |more| == |attempts| + 1 && attempts <= more
    requires Careful(rules, inventory, targets, answers, attempts, p, false)
    requires Prechecked(rules, inventory, targets, later, more, p, |attempts|, i)
    requires !failed ==> Verified(rules, inventory, later, more[|attempts|], i)
    ensures Careful(rules, inventory, targets, later, more, p, failed)
  {
    hide Prechecked, Verified;
    forall a | p.attempts <= a < |more| ensures WithCare(rules, inventory, targets, later, more, p, a, failed) {
      if a < |attempts| {
        WithCareKept(rules, inventory, targets, answers, later, attempts, more, p, a, false, failed);
      }
    }
  }

  // ----- a calm server with nothing to object to -----

  predicate NamespaceSafe(rules: Rules, o: Objects) {
    NAMESPACE in o.stored && rules.namespaceOk(o.stored[NAMESPACE])
  }

  /** The server admits the entry unchanged, and an object it creates for it is in order. */
  ghost predicate Admissible(rules: Rules, turn: Turn, item: Target) {
    && turn.admit(item.id, item.desired).Some?
    && rules.admittedOk(item.id, turn.admit(item.id, item.desired).value, item.desired)
    && forall o: Stored :: o.content == turn.admit(item.id, item.desired).value ==> rules.lifecycleOk(item.id, o)
  }

  ghost predicate Fit(rules: Rules, turn: Turn, o: Objects, item: Target) {
    && Admissible(rules, turn, item)
    && (item.id in o.stored ==> Exact(rules, item.id, o.stored[item.id], turn.admit(item.id, item.desired).value))
  }

  /** Every entry is admissible, and exact where it is present. */
  ghost predicate AllFit(rules: Rules, turn: Turn, o: Objects, inventory: seq<Id>, targets: seq<Target>) {
    && NamespaceSafe(rules, o) && NAMESPACE !in inventory && |targets| == |inventory|
    && forall i :: 0 <= i < |inventory| ==> targets[i].id == inventory[i] && Fit(rules, turn, o, targets[i])
  }

  /** The states are the objects as they are. */
  predicate AsIs(turn: Turn, o: Objects, states: seq<Observed>) {
    forall i :: 0 <= i < |states| ==>
      && ReadingOf(states[i].existing) == Lookup(o, states[i].target.id)
      && turn.admit(states[i].target.id, states[i].target.desired) == Some(states[i].canonical)
  }

  predicate UidsAsIs(o: Objects, uids: map<Id, nat>) {
    forall id :: id in uids ==> id in o.stored && o.stored[id].uid == uids[id]
  }

  lemma FitGrows(rules: Rules, turn: Turn, o: Objects, inventory: seq<Id>, targets: seq<Target>, i: nat)
    requires AllFit(rules, turn, o, inventory, targets) && i < |inventory| && inventory[i] !in o.stored
    requires Distinct(inventory)
    ensures turn.admit(targets[i].id, targets[i].desired).Some?
    ensures AllFit(rules, turn, Add(o, inventory[i], turn.admit(targets[i].id, targets[i].desired).value), inventory,
                   targets)
  {
    assert Fit(rules, turn, o, targets[i]);
    var after := Add(o, inventory[i], turn.admit(targets[i].id, targets[i].desired).value);
    forall k | 0 <= k < |inventory| ensures Fit(rules, turn, after, targets[k]) {
      assert Fit(rules, turn, o, targets[k]);
    }
  }

  lemma AsIsUnreplaced(turn: Turn, o: Objects, states: seq<Observed>, expected: map<Id, nat>)
    requires AsIs(turn, o, states) && UidsAsIs(o, expected)
    ensures Unreplaced(states, expected)
  {
  }

  // ----- the operator -----

  method PreflightNamespace(server: ApiServer, rules: Rules, ghost turn: Turn) returns (ok: bool)
    requires server.Valid()
    modifies server
    ensures OnlyReads(server, turn) && |server.answers| == |old(server.answers)| + 1
    ensures ok <==> NamespaceAt(rules, server.answers, |old(server.answers)|)
    ensures Calm(server.world, old(server.clock), turn) ==> ok == NamespaceSafe(rules, old(server.objects))
  {
    var reading := server.Get(NAMESPACE);
    ok := reading.Present? && rules.namespaceOk(reading.stored);
    assert server.answers[|old(server.answers)|] == Read(NAMESPACE, reading);
  }

  /** The state of an entry is what the history shows there. */
  predicate Shows(rules: Rules, item: Target, state: Observed, answers: seq<Answer>, k: nat) {
    && EntryAt(rules, item, answers, k) && state.target == item
    && ReadingOf(state.existing) == answers[k].reading && answers[k + 1].canonical == Some(state.canonical)
  }

  /** What a preflight that began there found: the Namespace in order, and a state for each of n entries. */
  ghost predicate Found(
    rules: Rules, inventory: seq<Id>, targets: seq<Target>, states: seq<Observed>, n: nat, answers: seq<Answer>,
    from: nat)
  {
    && n == |states| <= |targets| == |inventory| && NamespaceAt(rules, answers, from)
    && forall i :: 0 <= i < n ==>
         targets[i].id == inventory[i] && Shows(rules, targets[i], states[i], answers, Place(from, i))
  }

  lemma FoundLater(
    rules: Rules, inventory: seq<Id>, targets: seq<Target>, states: seq<Observed>, n: nat, answers: seq<Answer>,
    from: nat, later: seq<Answer>)
    requires Found(rules, inventory, targets, states, n, answers, from) && answers <= later
    ensures Found(rules, inventory, targets, states, n, later, from)
  {
    hide Exact;
    assert forall k :: 0 <= k < |answers| ==> later[k] == answers[k];
    forall i | 0 <= i < n ensures Shows(rules, targets[i], states[i], later, Place(from, i)) {
      assert Shows(rules, targets[i], states[i], answers, Place(from, i));
    }
  }

  lemma FoundPreflighted(
    rules: Rules, inventory: seq<Id>, targets: seq<Target>, states: seq<Observed>, answers: seq<Answer>, from: nat)
    requires Found(rules, inventory, targets, states, |inventory|, answers, from)
    requires from + Width(inventory) <= |answers|
    ensures Preflighted(rules, inventory, targets, answers, from)
  {
    hide EntryAt;
    forall i | 0 <= i < |inventory| ensures EntryAt(rules, targets[i], answers, Place(from, i)) {
      assert Shows(rules, targets[i], states[i], answers, Place(from, i));
    }
  }

  /** Reads one entry and dry-runs it: as a create when absent, as an update when present. */
  method PreflightEntry(server: ApiServer, rules: Rules, item: Target, ghost turn: Turn)
    returns (state: Option<Observed>)
    requires server.Valid()
    modifies server
    ensures OnlyReads(server, turn)
    ensures |server.answers| > |old(server.answers)| && server.answers[|old(server.answers)|].Read?
    ensures var reading := server.answers[|old(server.answers)|].reading;
            reading.ReadFailed? || (reading.Present? && !rules.lifecycleOk(item.id, reading.stored)) ==>
              state.None? && |server.answers| == |old(server.answers)| + 1
    ensures state.Some? ==>
              |server.answers| == |old(server.answers)| + 2
                  && Shows(rules, item, state.value, server.answers, |old(server.answers)|)
    ensures Calm(server.world, old(server.clock), turn) && Fit(rules, turn, old(server.objects), item) ==>
              && state.Some? && ReadingOf(state.value.existing) == Lookup(old(server.objects), item.id)
              && turn.admit(item.id, item.desired) == Some(state.value.canonical)
  {
    ghost var before := server.answers;
    var reading := server.Get(item.id);
    ghost var read := server.answers;
    if reading.NotFound? {
      var canonical := server.DryRunCreate(item.id, item.desired);
      if canonical.None? || !rules.admittedOk(item.id, canonical.value, item.desired) { return None; }
      assert server.answers[|before|] == read[|before|];
      return Some(Observed(item, None, canonical.value));
    }
    if reading.ReadFailed? { return None; }
    var existing := reading.stored;
    if !rules.lifecycleOk(item.id, existing) { return None; }
    var canonical := server.DryRunUpdate(item.id, item.desired, existing.version);
    if canonical.None? || !rules.admittedOk(item.id, canonical.value, item.desired) { return None; }
    if !Exact(rules, item.id, existing, canonical.value) { return None; }
    assert server.answers[|before|] == read[|before|];
    return Some(Observed(item, Some(existing), canonical.value));
  }

  method Preflight(server: ApiServer, rules: Rules, inventory: seq<Id>, targets: seq<Target>, ghost turn: Turn)
    returns (found: Option<seq<Observed>>)
    requires server.Valid()
    modifies server
    ensures OnlyReads(server, turn)
    ensures Calm(server.world, old(server.clock), turn)
            && AllFit(rules, turn, old(server.objects), inventory, targets) ==>
              found.Some? && AsIs(turn, old(server.objects), found.value)
    ensures found.Some? ==>
              && Found(rules, inventory, targets, found.value, |inventory|, server.answers, |old(server.answers)|)
              && |server.answers| == |old(server.answers)| + Width(inventory)
  {
    hide Shows, Fit, NamespaceAt;
    if |targets| != |inventory| { return None; }
    var safe := PreflightNamespace(server, rules, turn);
    if !safe { return None; }
    ghost var first := server.answers;
    var states: seq<Observed> := [];
    for index := 0 to |targets|
      invariant OnlyReads(server, turn)
      invariant Found(rules, inventory, targets, states, index, server.answers, |old(server.answers)|)
      invariant |server.answers| == Place(|old(server.answers)|, index)
      invariant Calm(server.world, old(server.clock), turn)
                && AllFit(rules, turn, old(server.objects), inventory, targets) ==>
                  AsIs(turn, old(server.objects), states)
    {
      if targets[index].id != inventory[index] { return None; }
      ghost var before := server.answers;
      var state := PreflightEntry(server, rules, targets[index], turn);
      if state.None? { return None; }
      FoundLater(rules, inventory, targets, states, index, before, |old(server.answers)|, server.answers);
      states := states + [state.value];
    }
    return Some(states);
  }

  /** Every state with a recorded UID still carries that UID. */
  predicate Unreplaced(states: seq<Observed>, expected: map<Id, nat>) {
    forall i :: 0 <= i < |states| && states[i].target.id in expected ==>
      states[i].existing.Some? && states[i].existing.value.uid == expected[states[i].target.id]
  }

  method ValidateExpectedUids(states: seq<Observed>, expected: map<Id, nat>, size: nat) returns (ok: bool)
    ensures ok <==> |states| == size && Unreplaced(states, expected)
  {
    if |states| != size { return false; }
    for i := 0 to |states|
      invariant Unreplaced(states[..i], expected)
    {
      assert states[..i + 1] == states[..i] + [states[i]];
      var id := states[i].target.id;
      if id !in expected { continue; }
      if states[i].existing.None? { return false; }
      if states[i].existing.value.uid != expected[id] { return false; }
    }
    return true;
  }

  /** The failure says what one more read of the identity showed. */
  method InspectAmbiguousCreate(server: ApiServer, rules: Rules, state: Observed, ghost turn: Turn) returns (stop: Stop)
    requires server.Valid()
    modifies server
    ensures OnlyReads(server, turn) && |server.answers| == |old(server.answers)| + 1
    ensures var last := server.answers[|old(server.answers)|];
            && last.Read? && last.id == state.target.id && stop.CreateFailed?
            && (stop.persisted.NothingSeen? <==> last.reading.NotFound?)
            && (stop.persisted.Unknown? <==> last.reading.ReadFailed?)
            && (stop.persisted.ExactCopy? <==>
                && last.reading.Present? && rules.lifecycleOk(last.id, last.reading.stored)
                && rules.comparable(last.reading.stored.content) == rules.comparable(state.canonical))
  {
    var reading := server.Get(state.target.id);
    match reading
    case NotFound => return CreateFailed(NothingSeen);
    case ReadFailed => return CreateFailed(Unknown);
    case Present(persisted) =>
      return CreateFailed(if Exact(rules, state.target.id, persisted, state.canonical) then ExactCopy
                          else Noncanonical);
  }

  lemma NamespaceAtKept(rules: Rules, answers: seq<Answer>, later: seq<Answer>, k: nat)
    requires NamespaceAt(rules, answers, k) && answers <= later
    ensures NamespaceAt(rules, later, k)
  {
    assert later[k] == answers[k];
  }

  /** What a calm server makes of an admissible entry is exact. */
  lemma ExactWhenMade(rules: Rules, turn: Turn, state: Observed)
    ensures Admissible(rules, turn, state.target)
            && turn.admit(state.target.id, state.target.desired) == Some(state.canonical) ==>
              forall o: Stored :: o.content == state.canonical ==> Exact(rules, state.target.id, o, state.canonical)
  {
  }

  /** The request, and the read right after it that shows the object again with the UID it was answered. */
  method CreateAbsent(server: ApiServer, rules: Rules, state: Observed, created: seq<Id>, ghost turn: Turn)
    returns (confirmed: Option<nat>, created': seq<Id>, stop: Option<Stop>)
    requires server.Valid()
    modifies server
    ensures server.Valid() && old(server.answers) <= server.answers && old(server.clock) <= server.clock
    ensures var made := server.attempts;
            && |made| == |old(server.attempts)| + 1 && made[..|old(server.attempts)|] == old(server.attempts)
            && made[|old(server.attempts)|].id == state.target.id
            && made[|old(server.attempts)|].place == |old(server.answers)|
            && created' == (if made[|old(server.attempts)|].answer.Some? then created + [state.target.id] else created)
            && (confirmed.Some? ==> made[|old(server.attempts)|].answer == confirmed)
    ensures stop.None? <==> confirmed.Some?
    ensures confirmed.Some? ==>
              && AnsweredExact(rules, server.attempts[|old(server.attempts)|], state.canonical)
              && PresentAt(server.answers, |old(server.answers)|, confirmed.value)
              && server.answers[|old(server.answers)|].id == state.target.id
              && Exact(rules, state.target.id, server.answers[|old(server.answers)|].reading.stored, state.canonical)
    ensures (&& Calm(server.world, old(server.clock), turn) && Admissible(rules, turn, state.target)
             && state.target.id !in old(server.objects).stored
             && turn.admit(state.target.id, state.target.desired) == Some(state.canonical)) ==>
              && stop.None? && server.objects == Add(old(server.objects), state.target.id, state.canonical)
              && confirmed == Some(server.objects.issued)
  {
    ExactWhenMade(rules, turn, state);
    var id := state.target.id;
    created' := created;
    ghost var before := server.answers;
    var answer, _ := server.Create(id, state.target.desired);
    if answer.None? {
      var failure := InspectAmbiguousCreate(server, rules, state, turn);
      return None, created, Some(failure);
    }
    created' := created + [id];
    if !Exact(rules, id, answer.value, state.canonical) { return None, created', Some(NotConfirmed); }
    var persisted := server.Get(id);
    assert server.answers[|before|] == Read(id, persisted);
    if !persisted.Present? { return None, created', Some(NotConfirmed); }
    if !Exact(rules, id, persisted.stored, state.canonical) { return None, created', Some(NotConfirmed); }
    if persisted.stored.uid != answer.value.uid { return None, created', Some(NotConfirmed); }
    return Some(answer.value.uid), created', None;
  }

  /** At most one request, for this identity; `confirmed` is its UID once a later read saw it again. */
  method CreateAndVerify(server: ApiServer, rules: Rules, state: Observed, created: seq<Id>, ghost turn: Turn)
    returns (confirmed: Option<nat>, created': seq<Id>, stop: Option<Stop>)
    requires server.Valid()
    modifies server
    ensures server.Valid() && old(server.answers) <= server.answers && old(server.clock) <= server.clock
    ensures (&& Calm(server.world, old(server.clock), turn) && NamespaceSafe(rules, old(server.objects))
             && Admissible(rules, turn, state.target) && state.target.id !in old(server.objects).stored
             && turn.admit(state.target.id, state.target.desired) == Some(state.canonical)) ==>
              && stop.None? && server.objects == Add(old(server.objects), state.target.id, state.canonical)
              && confirmed == Some(server.objects.issued)
    ensures var made := server.attempts;
            || (made == old(server.attempts) && created' == created && confirmed.None?)
            || (&& |made| == |old(server.attempts)| + 1 && made[..|old(server.attempts)|] == old(server.attempts)
                && made[|old(server.attempts)|].id == state.target.id
                && made[|old(server.attempts)|].place == |old(server.answers)| + 2 <= |server.answers|
                && NamespaceAt(rules, server.answers, |old(server.answers)|)
                && server.answers[|old(server.answers)| + 1] == Read(state.target.id, NotFound)
                && created' == (if made[|old(server.attempts)|].answer.Some? then created + [state.target.id]
                                else created)
                && (confirmed.Some? ==> made[|old(server.attempts)|].answer == confirmed))
    ensures stop.None? <==> confirmed.Some?
    ensures confirmed.Some? ==>
              && |server.attempts| == |old(server.attempts)| + 1
              && AnsweredExact(rules, server.attempts[|old(server.attempts)|], state.canonical)
              && PresentAt(server.answers, |old(server.answers)| + 2, confirmed.value)
              && server.answers[|old(server.answers)| + 2].id == state.target.id
              && Exact(rules, state.target.id, server.answers[|old(server.answers)| + 2].reading.stored,
                       state.canonical)
  {
    hide Exact, NamespaceSafe, NamespaceAt, Admissible, AnsweredExact;
    ghost var begun := server.answers;
    var id := state.target.id;
    created' := created;
    var safe := PreflightNamespace(server, rules, turn);
    if !safe { return None, created, Some(PreflightFailed); }
    ghost var safeRead := server.answers;
    var raced := server.Get(id);
    ghost var racedRead := server.answers;
    if raced.Present? { return None, created, Some(RacedObject); }
    if raced.ReadFailed? { return None, created, Some(PreflightFailed); }
    confirmed, created', stop := CreateAbsent(server, rules, state, created, turn);
    NamespaceAtKept(rules, safeRead, server.answers, |begun|);
    assert server.answers[|begun| + 1] == racedRead[|begun| + 1];
  }

  // ----- one run -----

  /** The requests of this run: which were answered, and that they follow the inventory. */
  ghost predicate Made(inventory: seq<Id>, made: seq<Attempt>, created: seq<Id>, failed: bool) {
    && |created| <= |made| <= |created| + 1
    && created == IdsOf(made[..|created|])
    && (forall j :: 0 <= j < |created| ==> made[j].answer.Some?)
    && (|made| > |created| ==> failed && made[|created|].answer.None?)
    && InOrder(IdsOf(made), inventory)
  }

  /** The entry is there in the end, with the UID recorded for it in this run. */
  ghost predicate ConfirmedEntry(answers: seq<Answer>, attempts: seq<Attempt>, p: Phases, inventory: seq<Id>, i: nat)
    requires i < |inventory|
  {
    exists uid :: PresentAt(answers, Place(p.final, i), uid) && Recorded(answers, attempts, p, inventory, i, uid)
  }

  function Absent(states: seq<Observed>): set<Id> {
    set i | 0 <= i < |states| && states[i].existing.None? :: states[i].target.id
  }

  function PresentIds(states: seq<Observed>): seq<Id> {
    if states == [] then []
    else
      var front := PresentIds(states[..|states| - 1]);
      if states[|states| - 1].existing.Some? then front + [states[|states| - 1].target.id] else front
  }

  /** The second preflight saw the entries present that these states have. */
  ghost predicate SecondShows(answers: seq<Answer>, p: Phases, states: seq<Observed>) {
    && Place(p.second, |states|) <= |answers|
    && forall j :: 0 <= j < |states| ==> (WasPresent(answers, Place(p.second, j)) <==> states[j].existing.Some?)
  }

  /** The UIDs known so far: what was there, and what was created. */
  ghost predicate Tracked(
    answers: seq<Answer>, attempts: seq<Attempt>, p: Phases, inventory: seq<Id>, states: seq<Observed>, i: nat,
    created: seq<Id>, expected: map<Id, nat>)
  {
    && i <= |inventory| == |states|
    && created == Those(inventory[..i], Absent(states))
    && expected.Keys == Elements(PresentIds(states)) + Elements(created)
    && SecondShows(answers, p, states)
    && forall j :: 0 <= j < |inventory| && inventory[j] in expected ==>
         Recorded(answers, attempts, p, inventory, j, expected[inventory[j]])
  }

  method Retried(states: seq<Observed>) returns (ids: seq<Id>, uids: map<Id, nat>)
    ensures ids == PresentIds(states) && uids.Keys == Elements(ids)
    ensures forall id :: id in uids ==> exists i ::
              0 <= i < |states| && states[i].target.id == id && states[i].existing.Some?
                  && states[i].existing.value.uid == uids[id]
  {
    ids, uids := [], map[];
    for i := 0 to |states|
      invariant ids == PresentIds(states[..i]) && uids.Keys == Elements(ids)
      invariant forall id :: id in uids ==> exists j ::
                  0 <= j < i && states[j].target.id == id && states[j].existing.Some?
                      && states[j].existing.value.uid == uids[id]
    {
      assert states[..i + 1][..i] == states[..i];
      if states[i].existing.Some? {
        var id := states[i].target.id;
        ids, uids := ids + [id], uids[id := states[i].existing.value.uid];
      }
    }
    assert states[..|states|] == states;
  }

  /** What a completed run has done: every entry is there in the end with its recorded UID, the listed ones
      to retry are those the second preflight found, and the others were created. */
  ghost predicate Completed(
    answers: seq<Answer>, attempts: seq<Attempt>, p: Phases, inventory: seq<Id>, created: seq<Id>, retried: seq<Id>)
  {
    && InOrder(created, inventory) && InOrder(retried, inventory)
    && forall i :: 0 <= i < |inventory| ==>
         && ConfirmedEntry(answers, attempts, p, inventory, i)
         && (inventory[i] in retried <==> WasPresent(answers, Place(p.second, i)))
         && (inventory[i] in retried <==> inventory[i] !in created)
  }

  ghost predicate Placed(attempts: seq<Attempt>, p: Phases, end: nat) {
    forall a :: p.attempts <= a < |attempts| ==> p.ready <= attempts[a].place <= end
  }

  predicate Matches(states: seq<Observed>, inventory: seq<Id>) {
    |states| == |inventory| && forall i :: 0 <= i < |states| ==> states[i].target.id == inventory[i]
  }

  lemma AbsentAt(states: seq<Observed>, inventory: seq<Id>, i: nat)
    requires Matches(states, inventory) && Distinct(inventory) && i < |states|
    ensures inventory[i] in Absent(states) <==> states[i].existing.None?
  {
  }

  lemma {:induction false} PresentAre(states: seq<Observed>, inventory: seq<Id>, present: set<Id>)
    requires Matches(states, inventory)
    requires forall i :: 0 <= i < |states| ==> (states[i].existing.Some? <==> inventory[i] in present)
    ensures PresentIds(states) == Those(inventory, present)
  {
    if states != [] {
      assert inventory[|inventory| - 1] == states[|states| - 1].target.id;
      PresentAre(states[..|states| - 1], inventory[..|inventory| - 1], present);
    }
  }

  lemma PresentInOrder(states: seq<Observed>, inventory: seq<Id>)
    requires Matches(states, inventory) && Distinct(inventory)
    ensures InOrder(PresentIds(states), inventory)
    ensures Elements(PresentIds(states)) == Elements(inventory) - Absent(states)
  {
    var present := Elements(inventory) - Absent(states);
    forall i | 0 <= i < |states| ensures states[i].existing.Some? <==> inventory[i] in present {
      AbsentAt(states, inventory, i);
    }
    PresentAre(states, inventory, present);
    assert inventory[..|inventory|] == inventory;
    ThoseAreInOrder(inventory, |inventory|, present);
    ThoseElements(inventory, present);
  }

  lemma MadeAll(
    inventory: seq<Id>, attempts: seq<Attempt>, n: nat, chosen: set<Id>, created: seq<Id>, i: nat, failed: bool)
    requires Distinct(inventory) && n <= |attempts| && i <= |inventory|
    requires created == IdsOf(attempts[n..]) == Those(inventory[..i], chosen)
    requires forall a :: n <= a < |attempts| ==> attempts[a].answer.Some?
    ensures Made(inventory, attempts[n..], created, failed)
  {
    ThoseAreInOrder(inventory, i, chosen);
    assert attempts[n..][..|created|] == attempts[n..];
  }

  lemma MadeFailed(inventory: seq<Id>, attempts: seq<Attempt>, n: nat, chosen: set<Id>, created: seq<Id>, i: nat)
    requires Distinct(inventory) && n < |attempts| && i < |inventory| && inventory[i] in chosen
    requires created == IdsOf(attempts[n..|attempts| - 1]) == Those(inventory[..i], chosen)
    requires forall a :: n <= a < |attempts| - 1 ==> attempts[a].answer.Some?
    requires attempts[|attempts| - 1].id == inventory[i] && attempts[|attempts| - 1].answer.None?
    ensures Made(inventory, attempts[n..], created, true)
  {
    var made := attempts[n..];
    assert inventory[..i + 1][..i] == inventory[..i];
    assert IdsOf(made) == created + [inventory[i]];
    ThoseAreInOrder(inventory, i + 1, chosen);
    assert made[..|created|] == attempts[n..|attempts| - 1];
  }

  lemma AnotherMade(before: seq<Attempt>, attempts: seq<Attempt>, n: nat)
    requires n <= |before| && |attempts| == |before| + 1 && attempts[..|before|] == before
    ensures IdsOf(attempts[n..]) == IdsOf(before[n..]) + [attempts[|before|].id]
    ensures attempts[n..|attempts| - 1] == before[n..]
  {
  }

  lemma RecordedLater(
    answers: seq<Answer>, later: seq<Answer>, attempts: seq<Attempt>, p: Phases, inventory: seq<Id>, i: nat, uid: nat)
    requires i < |inventory| && Place(p.second, i) < |answers| && answers <= later
    requires Recorded(answers, attempts, p, inventory, i, uid)
    ensures Recorded(later, attempts, p, inventory, i, uid)
  {
    assert later[Place(p.second, i)] == answers[Place(p.second, i)];
  }

  lemma TrackedLater(
    answers: seq<Answer>, later: seq<Answer>, attempts: seq<Attempt>, p: Phases, inventory: seq<Id>,
    states: seq<Observed>, i: nat, created: seq<Id>, expected: map<Id, nat>)
    requires Tracked(answers, attempts, p, inventory, states, i, created, expected) && answers <= later
    ensures Tracked(later, attempts, p, inventory, states, i, created, expected)
  {
    hide Recorded, Absent, PresentIds;
    SecondShowsLater(answers, later, p, states);
    forall j | 0 <= j < |inventory| && inventory[j] in expected
      ensures Recorded(later, attempts, p, inventory, j, expected[inventory[j]])
    {
      RecordedLater(answers, later, attempts, p, inventory, j, expected[inventory[j]]);
    }
  }

  lemma SecondShowsLater(answers: seq<Answer>, later: seq<Answer>, p: Phases, states: seq<Observed>)
    requires SecondShows(answers, p, states) && answers <= later
    ensures SecondShows(later, p, states)
  {
    forall j | 0 <= j < |states| ensures WasPresent(later, Place(p.second, j)) <==> states[j].existing.Some? {
      assert later[Place(p.second, j)] == answers[Place(p.second, j)];
    }
  }

  lemma TrackedSkips(
    answers: seq<Answer>, attempts: seq<Attempt>, p: Phases, inventory: seq<Id>, states: seq<Observed>, i: nat,
    created: seq<Id>, expected: map<Id, nat>)
    requires Tracked(answers, attempts, p, inventory, states, i, created, expected)
    requires Matches(states, inventory) && Distinct(inventory) && i < |inventory| && states[i].existing.Some?
    ensures Tracked(answers, attempts, p, inventory, states, i + 1, created, expected)
  {
    hide Recorded;
    AbsentAt(states, inventory, i);
    assert inventory[..i + 1][..i] == inventory[..i];
  }

  /** A request for the next missing entry, answered with its UID, is recorded; the others stay recorded. */
  lemma TrackedGrows(
    answers: seq<Answer>, later: seq<Answer>, before: seq<Attempt>, attempts: seq<Attempt>, p: Phases,
    inventory: seq<Id>, states: seq<Observed>, i: nat, created: seq<Id>, expected: map<Id, nat>, end: nat, uid: nat)
    requires Tracked(answers, before, p, inventory, states, i, created, expected) && answers <= later
    requires Matches(states, inventory) && Distinct(inventory) && i < |inventory| && states[i].existing.None?
    requires AllAnswered(before, p, created, end)
    requires |attempts| == |before| + 1 && before <= attempts
    requires attempts[|before|].id == inventory[i] && attempts[|before|].answer == Some(uid)
    ensures Tracked(later, attempts, p, inventory, states, i + 1, created + [inventory[i]],
                    expected[inventory[i] := uid])
  {
    hide PresentIds, Absent;
    AbsentAt(states, inventory, i);
    assert inventory[..i + 1][..i] == inventory[..i];
    assert Elements(created + [inventory[i]]) == Elements(created) + {inventory[i]};
    SecondShowsLater(answers, later, p, states);
    assert forall a :: 0 <= a < |before| ==> attempts[a] == before[a];
    forall j | 0 <= j < |inventory| && inventory[j] in expected[inventory[i] := uid]
      ensures Recorded(later, attempts, p, inventory, j, expected[inventory[i] := uid][inventory[j]])
    {
      if j == i {
        NotRequestedYet(before, p, inventory, states, i, created, end);
        assert attempts[|before|].id == inventory[i];
      } else {
        assert inventory[j] != inventory[i];
        RecordedLater(answers, later, before, p, inventory, j, expected[inventory[j]]);
        if !WasPresent(later, Place(p.second, j)) {
          StillMade(before, attempts, p.attempts, inventory[j], expected[inventory[j]]);
        }
      }
    }
  }

  lemma StillMade(before: seq<Attempt>, attempts: seq<Attempt>, from: nat, id: Id, uid: nat)
    requires UidMade(before, from, id, uid) && |attempts| == |before| + 1 && before <= attempts
    requires attempts[|before|].id != id
    ensures UidMade(attempts, from, id, uid)
  {
    assert forall a :: 0 <= a < |before| ==> attempts[a] == before[a];
    var a :| from <= a < |before| && before[a].id == id;
    assert attempts[a].id == id;
  }

  lemma NotRequestedYet(
    attempts: seq<Attempt>, p: Phases, inventory: seq<Id>, states: seq<Observed>, i: nat, created: seq<Id>, end: nat)
    requires AllAnswered(attempts, p, created, end) && Distinct(inventory) && i < |inventory|
    requires created == Those(inventory[..i], Absent(states))
    ensures forall a :: p.attempts <= a < |attempts| ==> attempts[a].id != inventory[i]
  {
    ThoseElements(inventory[..i], Absent(states));
    forall a | p.attempts <= a < |attempts| ensures attempts[a].id != inventory[i] {
      assert created[a - p.attempts] == attempts[a].id;
      assert attempts[a].id in Elements(created);
    }
  }

  /** A later preflight that found every recorded UID in place found every known UID untouched. */
  lemma CurrentUntouched(
    rules: Rules, answers: seq<Answer>, later: seq<Answer>, attempts: seq<Attempt>, p: Phases, inventory: seq<Id>,
    targets: seq<Target>, states: seq<Observed>, i: nat, created: seq<Id>, expected: map<Id, nat>, end: nat,
    current: seq<Observed>, from: nat)
    requires Tracked(answers, attempts, p, inventory, states, i, created, expected) && answers <= later
    requires AllAnswered(attempts, p, created, end) && Matches(states, inventory) && Distinct(inventory)
    requires Found(rules, inventory, targets, current, |inventory|, later, from) && Unreplaced(current, expected)
    ensures Untouched(later, attempts, p, inventory, from, |attempts|)
  {
    hide PresentIds, Absent, Exact, Recorded;
    forall j | 0 <= j < |inventory| ensures EntryUntouched(later, attempts, p, inventory, from, |attempts|, j) {
      KnownUid(answers, attempts, p, inventory, states, i, created, expected, end, j);
      assert later[Place(p.second, j)] == answers[Place(p.second, j)];
      assert Shows(rules, targets[j], current[j], later, Place(from, j));
    }
  }

  /** What is known of an entry's UID is what is expected of it. */
  lemma KnownUid(
    answers: seq<Answer>, attempts: seq<Attempt>, p: Phases, inventory: seq<Id>, states: seq<Observed>, i: nat,
    created: seq<Id>, expected: map<Id, nat>, end: nat, j: nat)
    requires Tracked(answers, attempts, p, inventory, states, i, created, expected) && j < |inventory|
    requires AllAnswered(attempts, p, created, end) && Matches(states, inventory) && Distinct(inventory)
    ensures WasPresent(answers, Place(p.second, j)) ==>
              inventory[j] in expected && PresentAt(answers, Place(p.second, j), expected[inventory[j]])
    ensures forall b :: p.attempts <= b < |attempts| && attempts[b].id == inventory[j] ==>
              inventory[j] in expected && attempts[b].answer == Some(expected[inventory[j]])
  {
    hide PresentIds, Absent;
    AbsentAt(states, inventory, j);
    PresentInOrder(states, inventory);
    assert inventory[j] in Elements(inventory);
    ThoseElements(inventory[..i], Absent(states));
    forall b | p.attempts <= b < |attempts| && attempts[b].id == inventory[j]
      ensures inventory[j] in expected && attempts[b].answer == Some(expected[inventory[j]])
    {
      assert created[b - p.attempts] == attempts[b].id;
      assert inventory[j] in Elements(created) && inventory[j] in Absent(states);
    }
  }

  /** The final preflight sees every recorded UID, and every entry has one. */
  lemma TrackedCompletes(
    rules: Rules, answers: seq<Answer>, attempts: seq<Attempt>, p: Phases, inventory: seq<Id>, targets: seq<Target>,
    states: seq<Observed>, created: seq<Id>, expected: map<Id, nat>, final: seq<Observed>)
    requires Tracked(answers, attempts, p, inventory, states, |inventory|, created, expected)
    requires Matches(states, inventory) && Distinct(inventory)
    requires Found(rules, inventory, targets, final, |inventory|, answers, p.final) && Unreplaced(final, expected)
    ensures Completed(answers, attempts, p, inventory, created, PresentIds(states))
  {
    hide Recorded, Exact, PresentIds, Absent, InOrder;
    assert inventory[..|inventory|] == inventory;
    ThoseAreInOrder(inventory, |inventory|, Absent(states));
    ThoseElements(inventory, Absent(states));
    PresentInOrder(states, inventory);
    forall i | 0 <= i < |inventory|
      ensures ConfirmedEntry(answers, attempts, p, inventory, i)
      ensures inventory[i] in PresentIds(states) <==> WasPresent(answers, Place(p.second, i))
      ensures inventory[i] in PresentIds(states) <==> inventory[i] !in created
    {
      AbsentAt(states, inventory, i);
      assert inventory[i] in Elements(inventory);
      assert inventory[i] in Elements(PresentIds(states)) <==> inventory[i] !in Elements(created);
      assert Shows(rules, targets[i], final[i], answers, Place(p.final, i));
      assert PresentAt(answers, Place(p.final, i), expected[inventory[i]]);
    }
  }

  lemma FoundMatches(
    rules: Rules, inventory: seq<Id>, targets: seq<Target>, states: seq<Observed>, answers: seq<Answer>, from: nat)
    requires Found(rules, inventory, targets, states, |inventory|, answers, from)
    ensures Matches(states, inventory)
  {
    hide EntryAt;
    forall i | 0 <= i < |inventory| ensures states[i].target.id == inventory[i] {
      assert Shows(rules, targets[i], states[i], answers, Place(from, i));
    }
  }

  lemma {:induction false} RetriedRecorded(
    rules: Rules, inventory: seq<Id>, targets: seq<Target>, states: seq<Observed>, answers: seq<Answer>,
    attempts: seq<Attempt>, p: Phases, expected: map<Id, nat>)
    requires Found(rules, inventory, targets, states, |inventory|, answers, p.second)
    requires p.ready == |answers| == p.second + Width(inventory)
    requires Matches(states, inventory) && Distinct(inventory)
    requires expected.Keys == Elements(PresentIds(states))
    requires forall id :: id in expected ==> exists i ::
               0 <= i < |states| && states[i].target.id == id && states[i].existing.Some?
                   && states[i].existing.value.uid == expected[id]
    ensures Tracked(answers, attempts, p, inventory, states, 0, [], expected)
  {
    hide Exact, PresentIds, Absent;
    forall j | 0 <= j < |inventory| ensures WasPresent(answers, Place(p.second, j)) <==> states[j].existing.Some? {
      assert Shows(rules, targets[j], states[j], answers, Place(p.second, j));
    }
    forall j | 0 <= j < |inventory| && inventory[j] in expected
      ensures Recorded(answers, attempts, p, inventory, j, expected[inventory[j]])
    {
      var i :| 0 <= i < |states| && states[i].target.id == inventory[j] && states[i].existing.Some?
               && states[i].existing.value.uid == expected[inventory[j]];
      assert inventory[i] == inventory[j] && i == j;
      assert Shows(rules, targets[j], states[j], answers, Place(p.second, j));
    }
    assert Elements([]) == {};
  }

  /** The requests so far are the created ones, all answered. */
  ghost predicate AllAnswered(attempts: seq<Attempt>, p: Phases, created: seq<Id>, end: nat) {
    && p.attempts <= |attempts| && created == IdsOf(attempts[p.attempts..])
    && (forall a :: p.attempts <= a < |attempts| ==> attempts[a].answer.Some?)
    && Placed(attempts, p, end)
  }

  lemma MadeSoFar(
    answers: seq<Answer>, attempts: seq<Attempt>, p: Phases, inventory: seq<Id>, states: seq<Observed>, i: nat,
    created: seq<Id>, expected: map<Id, nat>, end: nat, failed: bool)
    requires Tracked(answers, attempts, p, inventory, states, i, created, expected) && Distinct(inventory)
    requires AllAnswered(attempts, p, created, end)
    ensures Made(inventory, attempts[p.attempts..], created, failed)
  {
    MadeAll(inventory, attempts, p.attempts, Absent(states), created, i, failed);
  }

  /** One more request, for the next missing identity. */
  lemma MadeNext(
    answers: seq<Answer>, before: seq<Attempt>, attempts: seq<Attempt>, p: Phases, inventory: seq<Id>,
    states: seq<Observed>, i: nat, created: seq<Id>, expected: map<Id, nat>, end: nat, end': nat)
    requires Tracked(answers, before, p, inventory, states, i, created, expected) && Distinct(inventory)
    requires Matches(states, inventory)
    requires AllAnswered(before, p, created, end) && i < |inventory| && states[i].existing.None?
    requires |attempts| == |before| + 1 && attempts[..|before|] == before && attempts[|before|].id == inventory[i]
    requires end <= attempts[|before|].place <= end' && p.ready <= end
    ensures attempts[|before|].answer.None? ==> Made(inventory, attempts[p.attempts..], created, true)
    ensures attempts[|before|].answer.Some? ==>
              && AllAnswered(attempts, p, created + [inventory[i]], end')
              && Made(inventory, attempts[p.attempts..], created + [inventory[i]], true)
  {
    hide Recorded, InOrder, Made;
    AbsentAt(states, inventory, i);
    AnotherMade(before, attempts, p.attempts);
    forall a | p.attempts <= a < |before| ensures attempts[a] == before[a] {
      assert attempts[..|before|][a] == attempts[a];
    }
    if attempts[|before|].answer.None? {
      MadeFailed(inventory, attempts, p.attempts, Absent(states), created, i);
    } else {
      assert inventory[..i + 1][..i] == inventory[..i];
      MadeAll(inventory, attempts, p.attempts, Absent(states), created + [inventory[i]], i + 1, true);
    }
  }

  lemma FoundAt(
    rules: Rules, inventory: seq<Id>, targets: seq<Target>, states: seq<Observed>, answers: seq<Answer>, from: nat,
    i: nat)
    requires Found(rules, inventory, targets, states, |inventory|, answers, from) && i < |inventory|
    ensures |states| == |inventory| == |targets| && states[i].target == targets[i] && targets[i].id == inventory[i]
    ensures Shows(rules, targets[i], states[i], answers, Place(from, i))
  {
    hide EntryAt;
    assert Shows(rules, targets[i], states[i], answers, Place(from, i));
  }

  /** A request made right behind a preflight, a check of the Namespace and a read is prechecked. */
  lemma NowPrechecked(
    rules: Rules, inventory: seq<Id>, targets: seq<Target>, current: seq<Observed>, index: nat, answers: seq<Answer>,
    later: seq<Answer>, attempts: seq<Attempt>, more: seq<Attempt>, p: Phases, from: nat)
    requires Found(rules, inventory, targets, current, |inventory|, answers, from)
    requires |answers| == from + Width(inventory)
    requires answers <= later && p.ready <= from && p.second + Width(inventory) <= |answers| && index < |inventory|
    requires Untouched(answers, attempts, p, inventory, from, |attempts|) && |current| == |inventory|
    requires current[index].existing.None?
    requires |more| == |attempts| + 1 && attempts <= more
    requires more[|attempts|].id == inventory[index] && more[|attempts|].place == |answers| + 2 <= |later|
    requires NamespaceAt(rules, later, |answers|) && later[|answers| + 1] == Read(inventory[index], NotFound)
    ensures Prechecked(rules, inventory, targets, later, more, p, |attempts|, index)
  {
    hide Exact, Untouched, NamespaceAt;
    FoundPreflighted(rules, inventory, targets, current, answers, from);
    PreflightedKept(rules, inventory, targets, answers, later, from);
    UntouchedKept(answers, later, attempts, more, p, inventory, from, |attempts|);
    FoundAt(rules, inventory, targets, current, answers, from, index);
    PreflightedWithin(rules, inventory, targets, answers, from, index);
    assert later[Place(from, index)] == answers[Place(from, index)];
  }

  lemma NowVerified(
    rules: Rules, inventory: seq<Id>, targets: seq<Target>, current: seq<Observed>, index: nat, answers: seq<Answer>,
    later: seq<Answer>, attempt: Attempt, from: nat, uid: nat)
    requires Found(rules, inventory, targets, current, |inventory|, answers, from)
    requires |answers| == from + Width(inventory)
    requires answers <= later && index < |inventory| == |current|
    requires attempt.id == inventory[index] && attempt.place == |answers| + 2 && attempt.answer == Some(uid)
    requires PresentAt(later, |answers| + 2, uid) && later[|answers| + 2].id == inventory[index]
    requires Exact(rules, inventory[index], later[|answers| + 2].reading.stored, current[index].canonical)
    requires AnsweredExact(rules, attempt, current[index].canonical)
    ensures Verified(rules, inventory, later, attempt, index)
  {
    FoundAt(rules, inventory, targets, current, answers, from, index);
    assert later[Place(from, index) + 1] == answers[Place(from, index) + 1];
  }

  /** One more request made with care. */
  lemma NowCareful(
    rules: Rules, inventory: seq<Id>, targets: seq<Target>, current: seq<Observed>, index: nat, answers: seq<Answer>,
    later: seq<Answer>, attempts: seq<Attempt>, more: seq<Attempt>, p: Phases, from: nat, uid: Option<nat>)
    requires Found(rules, inventory, targets, current, |inventory|, answers, from)
    requires |answers| == from + Width(inventory)
    requires answers <= later && p.ready <= from && p.second + Width(inventory) <= |answers| && index < |inventory|
    requires Untouched(answers, attempts, p, inventory, from, |attempts|) && |current| == |inventory|
    requires current[index].existing.None?
    requires |more| == |attempts| + 1 && attempts <= more
    requires more[|attempts|].id == inventory[index] && more[|attempts|].place == |answers| + 2 <= |later|
    requires NamespaceAt(rules, later, |answers|) && later[|answers| + 1] == Read(inventory[index], NotFound)
    requires Careful(rules, inventory, targets, answers, attempts, p, false)
    requires uid.Some? ==>
               && more[|attempts|].answer == uid
               && PresentAt(later, |answers| + 2, uid.value) && later[|answers| + 2].id == inventory[index]
               && Exact(rules, inventory[index], later[|answers| + 2].reading.stored, current[index].canonical)
               && AnsweredExact(rules, more[|attempts|], current[index].canonical)
    ensures Prechecked(rules, inventory, targets, later, more, p, |attempts|, index)
    ensures Careful(rules, inventory, targets, later, more, p, uid.None?)
  {
    hide Found, Untouched, NamespaceAt, Careful, Exact, Prechecked, Verified;
    NowPrechecked(rules, inventory, targets, current, index, answers, later, attempts, more, p, from);
    if uid.Some? { NowVerified(rules, inventory, targets, current, index, answers, later, more[|attempts|], from,
                               uid.value); }
    CarefulMore(rules, inventory, targets, answers, later, attempts, more, p, index, uid.None?);
  }

  /** What a calm run keeps while it creates: all fit, the recorded UIDs are there, the rest is absent. */
  ghost predicate StillCalm(
    rules: Rules, turn: Turn, o: Objects, inventory: seq<Id>, targets: seq<Target>, states: seq<Observed>, i: nat,
    expected: map<Id, nat>)
  {
    && AllFit(rules, turn, o, inventory, targets) && UidsAsIs(o, expected)
    && forall k :: i <= k < |states| && states[k].existing.None? ==> states[k].target.id !in o.stored
  }

  lemma CalmParts(
    rules: Rules, turn: Turn, o: Objects, inventory: seq<Id>, targets: seq<Target>, states: seq<Observed>, i: nat,
    expected: map<Id, nat>)
    requires StillCalm(rules, turn, o, inventory, targets, states, i, expected) && i < |states|
    ensures AllFit(rules, turn, o, inventory, targets) && UidsAsIs(o, expected)
    ensures StillCalm(rules, turn, o, inventory, targets, states, i + 1, expected)
    ensures states[i].existing.None? ==> states[i].target.id !in o.stored
  {
    hide AllFit, UidsAsIs;
  }

  lemma CalmState(
    rules: Rules, turn: Turn, o: Objects, inventory: seq<Id>, targets: seq<Target>, states: seq<Observed>, i: nat,
    current: seq<Observed>)
    requires AllFit(rules, turn, o, inventory, targets) && AsIs(turn, o, current) && Matches(states, inventory)
    requires |current| == |inventory| && i < |inventory|
    requires forall k :: 0 <= k < |current| ==> current[k].target == targets[k]
    requires states[i].target.id !in o.stored
    ensures current[i].existing.None? && NamespaceSafe(rules, o) && Admissible(rules, turn, current[i].target)
    ensures current[i].target.id !in o.stored
    ensures turn.admit(current[i].target.id, current[i].target.desired) == Some(current[i].canonical)
  {
    hide Exact, Admissible;
    assert Fit(rules, turn, o, targets[i]);
  }

  lemma CalmGrows(
    rules: Rules, turn: Turn, o: Objects, inventory: seq<Id>, targets: seq<Target>, states: seq<Observed>, i: nat,
    expected: map<Id, nat>)
    requires StillCalm(rules, turn, o, inventory, targets, states, i, expected) && Matches(states, inventory)
    requires Distinct(inventory)
    requires i < |states| && inventory[i] !in o.stored
    ensures turn.admit(targets[i].id, targets[i].desired).Some?
    ensures var after := Add(o, inventory[i], turn.admit(targets[i].id, targets[i].desired).value);
            StillCalm(rules, turn, after, inventory, targets, states, i + 1, expected[inventory[i] := after.issued])
  {
    hide AllFit, Fit;
    FitGrows(rules, turn, o, inventory, targets, i);
    assert forall k :: i < k < |states| ==> inventory[i] != inventory[k];
  }

  /** The request for an entry that this preflight found absent, which comes right behind it. */
  method RequestMissing(
    server: ApiServer, rules: Rules, inventory: seq<Id>, targets: seq<Target>, current: seq<Observed>, index: nat,
    created: seq<Id>, ghost start: Phases, ghost from: nat, ghost turn: Turn)
    returns (uid: Option<nat>, created': seq<Id>, stop: Option<Stop>)
    requires server.Valid() && |current| == |inventory| && index < |inventory| && current[index].existing.None?
    requires current[index].target.id == inventory[index] && |server.answers| == from + Width(inventory)
    requires Found(rules, inventory, targets, current, |inventory|, server.answers, from)
    requires start.ready <= from && start.second + Width(inventory) <= |server.answers|
    requires Untouched(server.answers, server.attempts, start, inventory, from, |server.attempts|)
    requires Careful(rules, inventory, targets, server.answers, server.attempts, start, false)
    modifies server
    ensures server.Valid() && old(server.answers) <= server.answers && old(server.attempts) <= server.attempts
    ensures old(server.clock) <= server.clock && (stop.None? <==> uid.Some?)
    ensures Careful(rules, inventory, targets, server.answers, server.attempts, start, stop.Some?)
    ensures if server.attempts == old(server.attempts) then created' == created && uid.None?
            else var made := server.attempts;
              && |made| == |old(server.attempts)| + 1
              && made[|old(server.attempts)|].id == inventory[index]
              && |old(server.answers)| <= made[|old(server.attempts)|].place <= |server.answers|
              && created' == (if made[|old(server.attempts)|].answer.Some? then created + [inventory[index]]
                              else created)
              && (uid.Some? ==> made[|old(server.attempts)|].answer == uid)
              && Prechecked(rules, inventory, targets, server.answers, made, start, |old(server.attempts)|, index)
    ensures var item := current[index].target;
            (&& Calm(server.world, old(server.clock), turn) && NamespaceSafe(rules, old(server.objects))
             && Admissible(rules, turn, item) && item.id !in old(server.objects).stored
             && turn.admit(item.id, item.desired) == Some(current[index].canonical)) ==>
              && stop.None? && server.objects == Add(old(server.objects), item.id, current[index].canonical)
              && uid == Some(server.objects.issued)
  {
    hide Found, Exact, NamespaceSafe, Admissible, Calm, Careful, Prechecked, Verified, Untouched, NamespaceAt,
         AnsweredExact, PresentAt;
    ghost var answers, attempts := server.answers, server.attempts;
    uid, created', stop := CreateAndVerify(server, rules, current[index], created, turn);
    if |server.attempts| == |attempts| {
      CarefulKept(rules, inventory, targets, answers, server.answers, attempts, start, false);
    } else {
      assert attempts <= server.attempts;
      NowCareful(rules, inventory, targets, current, index, answers, server.answers, attempts, server.attempts, start,
                 from, uid);
    }
  }

  /** One missing entry: another full preflight, the recorded UIDs, and one request right behind them. */
  method CreateOne(
    server: ApiServer, rules: Rules, inventory: seq<Id>, targets: seq<Target>, states: seq<Observed>, index: nat,
    created: seq<Id>, expected: map<Id, nat>, ghost start: Phases, ghost turn: Turn)
    returns (uid: Option<nat>, created': seq<Id>, stop: Option<Stop>)
    requires server.Valid() && Distinct(inventory) && Matches(states, inventory) && index < |states| == |inventory|
    requires states[index].existing.None? && start.second + Width(inventory) <= start.ready <= |server.answers|
    requires AllAnswered(server.attempts, start, created, |server.answers|)
    requires Tracked(server.answers, server.attempts, start, inventory, states, index, created, expected)
    requires Careful(rules, inventory, targets, server.answers, server.attempts, start, false)
    modifies server
    ensures server.Valid() && old(server.answers) <= server.answers && old(server.attempts) <= server.attempts
    ensures old(server.clock) <= server.clock && (stop.None? <==> uid.Some?)
    ensures Careful(rules, inventory, targets, server.answers, server.attempts, start, stop.Some?)
    ensures |server.attempts| <= |old(server.attempts)| + 1
    ensures |server.attempts| > |old(server.attempts)| ==>
              Prechecked(rules, inventory, targets, server.answers, server.attempts, start, |old(server.attempts)|,
                         index)
    ensures stop.Some? ==> Made(inventory, server.attempts[start.attempts..], created', true)
    ensures stop.None? ==>
              && AllAnswered(server.attempts, start, created', |server.answers|)
              && Tracked(server.answers, server.attempts, start, inventory, states, index + 1, created',
                         expected[states[index].target.id := uid.value])
    ensures (&& Calm(server.world, old(server.clock), turn)
             && StillCalm(rules, turn, old(server.objects), inventory, targets, states, index, expected)) ==>
              && stop.None?
              && StillCalm(rules, turn, server.objects, inventory, targets, states, index + 1,
                           expected[states[index].target.id := uid.value])
  {
    hide Tracked, Found, Made, Recorded, Absent, PresentIds, Those, Distinct, InOrder, Exact, Unreplaced, AllFit, AsIs,
         Shows, UidsAsIs, NamespaceSafe, Admissible, StillCalm, Calm, Placed, Careful, Prechecked, Verified, Untouched,
         NamespaceAt, AllAnswered, AnsweredExact, PresentAt;
    ghost var answers, attempts, objects, world, clock := server.answers, server.attempts, server.objects, server.world,
        server.clock;
    ghost var calm := Calm(world, clock, turn)
        && StillCalm(rules, turn, objects, inventory, targets, states, index, expected);
    if calm { CalmParts(rules, turn, objects, inventory, targets, states, index, expected); }
    MadeSoFar(answers, attempts, start, inventory, states, index, created, expected, |answers|, true);
    var current := Preflight(server, rules, inventory, targets, turn);
    ghost var mid := server.answers;
    CarefulKept(rules, inventory, targets, answers, mid, attempts, start, false);
    if current.None? { return None, created, Some(PreflightFailed); }
    FoundSize(rules, inventory, targets, current.value, mid, |answers|);
    FoundAt(rules, inventory, targets, current.value, mid, |answers|, index);
    if calm {
      CalmLater(world, clock, server.clock, turn);
      AsIsUnreplaced(turn, objects, current.value, expected);
      CalmState(rules, turn, objects, inventory, targets, states, index, current.value);
    }
    var unreplaced := ValidateExpectedUids(current.value, expected, |inventory|);
    if !unreplaced { return None, created, Some(IdentityChanged); }
    if current.value[index].existing.Some? { return None, created, Some(RacedObject); }
    CurrentUntouched(rules, answers, mid, attempts, start, inventory, targets, states, index, created, expected,
                     |answers|,
                     current.value, |answers|);
    uid, created', stop := RequestMissing(server, rules, inventory, targets, current.value, index, created, start,
                                          |answers|, turn);
    ghost var later, more := server.answers, server.attempts;
    if more != attempts {
      MadeNext(answers, attempts, more, start, inventory, states, index, created, expected, |answers|, |later|);
    }
    if stop.Some? { return; }
    TrackedGrows(answers, later, attempts, more, start, inventory, states, index, created, expected, |answers|,
                 uid.value);
    if calm { CalmGrows(rules, turn, objects, inventory, targets, states, index, expected); }
  }

  /** Creates what the second preflight found missing, one by one in inventory order. */
  method CreateMissing(
    server: ApiServer, rules: Rules, inventory: seq<Id>, targets: seq<Target>, states: seq<Observed>,
    retried: seq<Id>, uids: map<Id, nat>, ghost start: Phases, ghost turn: Turn)
    returns (result: Result, ghost phases: Phases)
    requires server.Valid() && Distinct(inventory) && Matches(states, inventory)
    requires start.attempts == |server.attempts| && start.ready == |server.answers| && retried == PresentIds(states)
    requires start.second + Width(inventory) <= start.ready
    requires Tracked(server.answers, server.attempts, start, inventory, states, 0, [], uids)
    modifies server
    ensures server.Valid() && old(server.answers) <= server.answers && old(server.attempts) <= server.attempts
    ensures Made(inventory, server.attempts[start.attempts..], result.created, result.error.Some?)
    ensures phases == start.(final := phases.final) && start.ready <= phases.final <= |server.answers|
    ensures Careful(rules, inventory, targets, server.answers, server.attempts, start, result.error.Some?)
    ensures result.error.None? ==>
              && |server.answers| == phases.final + Width(inventory)
              && Preflighted(rules, inventory, targets, server.answers, phases.final)
    ensures result.retried == retried
    ensures (&& Calm(server.world, old(server.clock), turn)
             && AllFit(rules, turn, old(server.objects), inventory, targets)
             && AsIs(turn, old(server.objects), states) && UidsAsIs(old(server.objects), uids)) ==>
              result.error.None?
    ensures result.error.None? ==> !result.dryRun && Placed(server.attempts, phases, phases.final)
    ensures result.error.None? ==>
              Completed(server.answers, server.attempts, phases, inventory, result.created, result.retried)
  {
    hide Tracked, Found, Made, Completed, Recorded, Absent, PresentIds, Those, Distinct, InOrder, Exact, Unreplaced,
         AllFit, AsIs, UidsAsIs, StillCalm, Calm, Careful, Prechecked, AllAnswered, Preflighted;
    var expected: map<Id, nat>, created: seq<Id> := uids, [];
    phases := start.(final := start.ready);
    ghost var world, clock, begun := server.world, server.clock, server.objects;
    ghost var calm := Calm(world, clock, turn) && AllFit(rules, turn, begun, inventory, targets)
                      && AsIs(turn, begun, states) && UidsAsIs(begun, uids);
    if calm { CalmStarts(rules, turn, begun, inventory, targets, states, uids); }
    NothingAnswered(server.attempts, start, |server.answers|);
    NothingCareful(rules, inventory, targets, server.answers, server.attempts, start);
    for index := 0 to |states|
      invariant server.Valid() && old(server.answers) <= server.answers && old(server.attempts) <= server.attempts
      invariant AllAnswered(server.attempts, start, created, |server.answers|)
      invariant Tracked(server.answers, server.attempts, start, inventory, states, index, created, expected)
      invariant clock <= server.clock && |server.answers| >= start.ready
      invariant Careful(rules, inventory, targets, server.answers, server.attempts, start, false)
      invariant calm ==> StillCalm(rules, turn, server.objects, inventory, targets, states, index, expected)
    {
      if calm {
        CalmLater(world, clock, server.clock, turn);
        CalmParts(rules, turn, server.objects, inventory, targets, states, index, expected);
      }
      if states[index].existing.Some? {
        TrackedSkips(server.answers, server.attempts, start, inventory, states, index, created, expected);
        continue;
      }
      var uid, created', stop := CreateOne(server, rules, inventory, targets, states, index, created, expected, start,
                                           turn);
      if stop.Some? { return Result(created', retried, false, stop), phases; }
      expected := expected[states[index].target.id := uid.value];
      created := created';
    }
    if calm {
      CalmLater(world, clock, server.clock, turn);
      CalmEnds(rules, turn, server.objects, inventory, targets, states, expected);
    }
    ghost var before := server.answers;
    result, phases := Confirm(server, rules, inventory, targets, states, retried, created, expected, start, turn);
    CarefulKept(rules, inventory, targets, before, server.answers, server.attempts, start, false);
  }

  lemma NothingCareful(
    rules: Rules, inventory: seq<Id>, targets: seq<Target>, answers: seq<Answer>, attempts: seq<Attempt>, p: Phases)
    requires p.attempts == |attempts|
    ensures Careful(rules, inventory, targets, answers, attempts, p, false)
    ensures Careful(rules, inventory, targets, answers, attempts, p, true)
  {
  }

  lemma NothingAnswered(attempts: seq<Attempt>, p: Phases, end: nat)
    requires p.attempts == |attempts|
    ensures AllAnswered(attempts, p, [], end)
  {
  }

  lemma CalmStarts(
    rules: Rules, turn: Turn, o: Objects, inventory: seq<Id>, targets: seq<Target>, states: seq<Observed>,
    uids: map<Id, nat>)
    requires AllFit(rules, turn, o, inventory, targets) && AsIs(turn, o, states) && UidsAsIs(o, uids)
    ensures StillCalm(rules, turn, o, inventory, targets, states, 0, uids)
  {
    hide AllFit, UidsAsIs;
  }

  lemma CalmEnds(
    rules: Rules, turn: Turn, o: Objects, inventory: seq<Id>, targets: seq<Target>, states: seq<Observed>,
    expected: map<Id, nat>)
    requires StillCalm(rules, turn, o, inventory, targets, states, |states|, expected)
    ensures AllFit(rules, turn, o, inventory, targets) && UidsAsIs(o, expected)
  {
    hide AllFit, UidsAsIs;
  }

  /** The final preflight: every identity recorded, and every recorded UID still there. */
  method Confirm(
    server: ApiServer, rules: Rules, inventory: seq<Id>, targets: seq<Target>, states: seq<Observed>,
    retried: seq<Id>, created: seq<Id>, expected: map<Id, nat>, ghost start: Phases, ghost turn: Turn)
    returns (result: Result, ghost phases: Phases)
    requires server.Valid() && Distinct(inventory) && Matches(states, inventory) && retried == PresentIds(states)
    requires AllAnswered(server.attempts, start, created, |server.answers|) && start.ready <= |server.answers|
    requires Tracked(server.answers, server.attempts, start, inventory, states, |states|, created, expected)
    modifies server
    ensures OnlyReads(server, turn)
    ensures result.error.None? ==>
              && |server.answers| == |old(server.answers)| + Width(inventory)
              && Preflighted(rules, inventory, targets, server.answers, |old(server.answers)|)
    ensures Made(inventory, server.attempts[start.attempts..], result.created, result.error.Some?)
    ensures result.retried == retried
    ensures phases == start.(final := |old(server.answers)|)
    ensures (&& Calm(server.world, old(server.clock), turn)
             && AllFit(rules, turn, old(server.objects), inventory, targets)
             && UidsAsIs(old(server.objects), expected)) ==> result.error.None?
    ensures result.error.None? ==> !result.dryRun && Placed(server.attempts, phases, phases.final)
    ensures result.error.None? ==>
              Completed(server.answers, server.attempts, phases, inventory, result.created, result.retried)
  {
    hide Tracked, Found, Made, Completed, Recorded, Absent, PresentIds, Those, Distinct, InOrder, Exact, Unreplaced,
         AllFit, AsIs, UidsAsIs, Calm, Preflighted;
    ghost var answers, attempts, objects, world, clock := server.answers, server.attempts, server.objects, server.world,
        server.clock;
    ghost var calm := Calm(world, clock, turn) && AllFit(rules, turn, objects, inventory, targets)
        && UidsAsIs(objects, expected);
    MadeSoFar(answers, attempts, start, inventory, states, |states|, created, expected, |answers|, true);
    MadeSoFar(answers, attempts, start, inventory, states, |states|, created, expected, |answers|, false);
    FullSize(answers, attempts, start, inventory, states, created, expected);
    result := Result(created, retried, false, Some(PreflightFailed));
    phases := start.(final := |answers|);
    var postflight := Preflight(server, rules, inventory, targets, turn);
    if postflight.None? { return; }
    FoundSize(rules, inventory, targets, postflight.value, server.answers, |answers|);
    if calm { AsIsUnreplaced(turn, objects, postflight.value, expected); }
    if |expected| != |targets| { return result.(error := Some(Incomplete)), phases; }
    var unreplaced := ValidateExpectedUids(postflight.value, expected, |inventory|);
    if !unreplaced { return result.(error := Some(IdentityChanged)), phases; }
    FoundPreflighted(rules, inventory, targets, postflight.value, server.answers, |answers|);
    TrackedLater(answers, server.answers, attempts, start, inventory, states, |states|, created, expected);
    FinalTracked(server.answers, attempts, start, phases, inventory, states, created, expected);
    TrackedCompletes(rules, server.answers, attempts, phases, inventory, targets, states, created, expected,
                     postflight.value);
    return result.(error := None), phases;
  }

  /** Every identity of the inventory has a recorded UID by the end. */
  lemma FullSize(
    answers: seq<Answer>, attempts: seq<Attempt>, p: Phases, inventory: seq<Id>, states: seq<Observed>,
    created: seq<Id>, expected: map<Id, nat>)
    requires Tracked(answers, attempts, p, inventory, states, |states|, created, expected)
    requires Matches(states, inventory) && Distinct(inventory)
    ensures |expected| == |inventory|
  {
    hide Recorded, PresentIds, Absent;
    assert inventory[..|inventory|] == inventory;
    ThoseElements(inventory, Absent(states));
    PresentInOrder(states, inventory);
    assert expected.Keys == Elements(inventory);
    CountDistinct(inventory);
  }

  lemma {:induction false} CountDistinct(ids: seq<Id>)
    requires Distinct(ids)
    ensures |Elements(ids)| == |ids|
  {
    if ids == [] {
      assert Elements([]) == {};
    } else {
      var front, last := ids[..|ids| - 1], ids[|ids| - 1];
      CountDistinct(front);
      AddElement(front, last);
      assert ids == front + [last];
      assert last !in Elements(front);
    }
  }

  lemma FoundSize(
    rules: Rules, inventory: seq<Id>, targets: seq<Target>, states: seq<Observed>, answers: seq<Answer>, from: nat)
    requires Found(rules, inventory, targets, states, |inventory|, answers, from)
    ensures |states| == |inventory| == |targets| && forall i :: 0 <= i < |states| ==> states[i].target == targets[i]
  {
    forall i | 0 <= i < |states| ensures states[i].target
        == targets[i] { FoundAt(rules, inventory, targets, states, answers, from, i); }
  }

  lemma FinalTracked(
    answers: seq<Answer>, attempts: seq<Attempt>, start: Phases, p: Phases, inventory: seq<Id>,
    states: seq<Observed>, created: seq<Id>, expected: map<Id, nat>)
    requires p == start.(final := p.final)
    requires Tracked(answers, attempts, start, inventory, states, |states|, created, expected)
    ensures Tracked(answers, attempts, p, inventory, states, |states|, created, expected) && |states| == |inventory|
  {
    hide PresentIds, Absent;
    forall j | 0 <= j < |inventory| && inventory[j] in expected
      ensures Recorded(answers, attempts, p, inventory, j, expected[inventory[j]])
    {
      assert Recorded(answers, attempts, start, inventory, j, expected[inventory[j]]);
    }
  }

  /** A full preflight began there, and exactly the listed entries were present in it. */
  ghost predicate Reported(
    rules: Rules, inventory: seq<Id>, targets: seq<Target>, answers: seq<Answer>, from: nat, listed: seq<Id>)
  {
    && Preflighted(rules, inventory, targets, answers, from) && InOrder(listed, inventory)
    && forall i :: 0 <= i < |inventory| ==> (inventory[i] in listed <==> WasPresent(answers, Place(from, i)))
  }

  lemma {:induction false} FoundReports(
    rules: Rules, inventory: seq<Id>, targets: seq<Target>, states: seq<Observed>, answers: seq<Answer>, from: nat)
    requires Found(rules, inventory, targets, states, |inventory|, answers, from) && Distinct(inventory)
    requires from + Width(inventory) <= |answers|
    ensures Reported(rules, inventory, targets, answers, from, PresentIds(states))
  {
    hide Exact, PresentIds, InOrder, Preflighted, Absent;
    FoundPreflighted(rules, inventory, targets, states, answers, from);
    FoundMatches(rules, inventory, targets, states, answers, from);
    PresentInOrder(states, inventory);
    forall i | 0 <= i < |inventory| ensures inventory[i] in PresentIds(states) <==>
        WasPresent(answers, Place(from, i)) {
      AbsentAt(states, inventory, i);
      FoundAt(rules, inventory, targets, states, answers, from, i);
      assert inventory[i] in Elements(inventory);
      assert inventory[i] in Elements(PresentIds(states)) <==> inventory[i] !in Absent(states);
    }
  }

  /** On a calm server the identities to retry are those that are there. */
  lemma RetriedAsIs(turn: Turn, o: Objects, inventory: seq<Id>, states: seq<Observed>)
    requires AsIs(turn, o, states) && Matches(states, inventory) && Distinct(inventory)
    ensures forall id :: id in inventory ==> (id in PresentIds(states) <==> id in o.stored)
  {
    hide PresentIds;
    PresentInOrder(states, inventory);
    forall i | 0 <= i < |inventory| ensures inventory[i] in PresentIds(states) <==> inventory[i] in o.stored {
      AbsentAt(states, inventory, i);
      assert inventory[i] in Elements(PresentIds(states)) <==> inventory[i] !in Absent(states);
      assert ReadingOf(states[i].existing) == Lookup(o, states[i].target.id);
    }
  }

  lemma UidsAreAsIs(turn: Turn, o: Objects, states: seq<Observed>, uids: map<Id, nat>)
    requires AsIs(turn, o, states)
    requires forall id :: id in uids ==> exists i ::
               0 <= i < |states| && states[i].target.id == id && states[i].existing.Some?
                   && states[i].existing.value.uid == uids[id]
    ensures UidsAsIs(o, uids)
  {
    forall id | id in uids ensures id in o.stored && o.stored[id].uid == uids[id] {
      var i :| 0 <= i < |states| && states[i].target.id == id && states[i].existing.Some?
          && states[i].existing.value.uid == uids[id];
      assert ReadingOf(states[i].existing) == Lookup(o, states[i].target.id);
    }
  }

  /** The second preflight, which looks at everything again, and the creation of what it found missing. */
  method ApplyMissing(
    server: ApiServer, rules: Rules, inventory: seq<Id>, targets: seq<Target>, retried0: seq<Id>,
    ghost start: Phases, ghost turn: Turn)
    returns (result: Result, ghost phases: Phases)
    requires server.Valid() && Distinct(inventory) && start.attempts == |server.attempts|
    requires start.second == |server.answers| && start.ready == |server.answers| + Width(inventory)
    modifies server
    ensures server.Valid() && old(server.answers) <= server.answers && old(server.attempts) <= server.attempts
    ensures Made(inventory, server.attempts[start.attempts..], result.created, result.error.Some?)
    ensures phases == start.(final := phases.final)
    ensures |server.attempts| > start.attempts || result.error.None? ==>
              Preflighted(rules, inventory, targets, server.answers, start.second)
    ensures Careful(rules, inventory, targets, server.answers, server.attempts, phases, result.error.Some?)
    ensures result.error.None? ==>
              && !result.dryRun
              && phases.ready <= phases.final && phases.final + Width(inventory) == |server.answers|
              && Preflighted(rules, inventory, targets, server.answers, phases.final)
              && Placed(server.attempts, phases, phases.final)
              && Completed(server.answers, server.attempts, phases, inventory, result.created, result.retried)
    ensures Calm(server.world, old(server.clock), turn)
            && AllFit(rules, turn, old(server.objects), inventory, targets) ==>
              && result.error.None?
              && forall id :: id in inventory ==> (id in result.retried <==> id in old(server.objects).stored)
  {
    hide Tracked, Found, Made, Completed, Placed, Matches, PresentIds, Distinct, Exact, Careful, Preflighted, AllFit,
         AsIs, UidsAsIs, Calm;
    ghost var objects, clock := server.objects, server.clock;
    ghost var calm := Calm(server.world, clock, turn) && AllFit(rules, turn, objects, inventory, targets);
    phases := start;
    result := Result([], retried0, false, Some(PreflightFailed));
    NothingMade(inventory, server.attempts);
    var found := Preflight(server, rules, inventory, targets, turn);
    ghost var second := server.answers;
    NothingCareful(rules, inventory, targets, second, server.attempts, phases);
    if found.None? { return; }
    var retried, uids := Retried(found.value);
    FoundMatches(rules, inventory, targets, found.value, second, start.second);
    FoundPreflighted(rules, inventory, targets, found.value, second, start.second);
    RetriedRecorded(rules, inventory, targets, found.value, second, server.attempts, start, uids);
    if calm {
      CalmLater(server.world, clock, server.clock, turn);
      RetriedAsIs(turn, objects, inventory, found.value);
      UidsAreAsIs(turn, objects, found.value, uids);
    }
    result, phases := CreateMissing(server, rules, inventory, targets, found.value, retried, uids, start, turn);
    PreflightedKept(rules, inventory, targets, second, server.answers, start.second);
    CarefulOfFinal(rules, inventory, targets, server.answers, server.attempts, start, phases, result.error.Some?);
  }

  /** `phases` names the second preflight, which follows the first one at once, and the final one, which
      is the last thing done. */
  method Converge(
    server: ApiServer, rules: Rules, inventory: seq<Id>, targets: seq<Target>, apply: bool, ghost turn: Turn)
    returns (result: Result, ghost phases: Phases)
    requires server.Valid() && Distinct(inventory)
    modifies server
    ensures server.Valid() && old(server.answers) <= server.answers && old(server.attempts) <= server.attempts
    ensures Honest(server.world, server.clock, server.answers)
    ensures !apply ==> server.attempts == old(server.attempts)
    ensures !apply && result.error.None? ==>
              Reported(rules, inventory, targets, server.answers, |old(server.answers)|, result.retried)
    ensures Made(inventory, server.attempts[|old(server.attempts)|..], result.created, result.error.Some?)
    ensures phases == Phases(|old(server.answers)| + Width(inventory), |old(server.answers)| + 2 * Width(inventory),
                             phases.final,
                             |old(server.attempts)|)
    ensures |server.attempts| > |old(server.attempts)| || (result.error.None? && apply) ==>
              && Preflighted(rules, inventory, targets, server.answers, |old(server.answers)|)
              && Preflighted(rules, inventory, targets, server.answers, phases.second)
    ensures Careful(rules, inventory, targets, server.answers, server.attempts, phases, result.error.Some?)
    ensures result.error.None? && apply ==>
              && phases.ready <= phases.final && phases.final + Width(inventory) == |server.answers|
              && Preflighted(rules, inventory, targets, server.answers, phases.final)
              && Placed(server.attempts, phases, phases.final)
              && Completed(server.answers, server.attempts, phases, inventory, result.created, result.retried)
    ensures result.error.None? ==> result.dryRun == !apply
    ensures Calm(server.world, old(server.clock), turn)
            && AllFit(rules, turn, old(server.objects), inventory, targets) ==>
              && result.error.None?
              && forall id :: id in inventory ==> (id in result.retried <==> id in old(server.objects).stored)
  {
    hide Tracked, Found, Made, Completed, Placed, Matches, PresentIds, Distinct, Exact, Reported, Careful, Preflighted,
         AllFit, AsIs, UidsAsIs, Calm, Honest;
    ghost var answers, objects, world, clock := server.answers, server.objects, server.world, server.clock;
    phases := Phases(|answers| + Width(inventory), |answers| + 2 * Width(inventory), 0, |server.attempts|);
    ghost var calm := Calm(world, clock, turn) && AllFit(rules, turn, objects, inventory, targets);
    result := Result([], [], true, Some(PreflightFailed));
    NothingMade(inventory, server.attempts);
    var found := Preflight(server, rules, inventory, targets, turn);
    NothingCareful(rules, inventory, targets, server.answers, server.attempts, phases);
    if found.None? { return; }
    var retried, _ := Retried(found.value);
    result := Result([], retried, !apply, None);
    ghost var first := server.answers;
    FoundReports(rules, inventory, targets, found.value, first, |answers|);
    FoundPreflighted(rules, inventory, targets, found.value, first, |answers|);
    if calm {
      CalmLater(world, clock, server.clock, turn);
      FoundMatches(rules, inventory, targets, found.value, first, |answers|);
      RetriedAsIs(turn, objects, inventory, found.value);
    }
    if !apply { return; }
    result, phases := ApplyMissing(server, rules, inventory, targets, retried, phases, turn);
    PreflightedKept(rules, inventory, targets, first, server.answers, |answers|);
  }

  /** Where the final preflight begins does not matter to the care taken before. */
  lemma CarefulOfFinal(
    rules: Rules, inventory: seq<Id>, targets: seq<Target>, answers: seq<Answer>, attempts: seq<Attempt>, start: Phases,
    p: Phases, failed: bool)
    requires Careful(rules, inventory, targets, answers, attempts, start, failed) && p == start.(final := p.final)
    ensures Careful(rules, inventory, targets, answers, attempts, p, failed)
  {
    hide Preflighted, Verified, NamespaceAt;
    forall a | p.attempts <= a < |attempts|
      ensures WithCare(rules, inventory, targets, answers, attempts, p, a, failed)
    {
      assert WithCare(rules, inventory, targets, answers, attempts, start, a, failed);
      var i :| 0 <= i < |inventory| && Prechecked(rules, inventory, targets, answers, attempts, start, a, i)
               && (!failed || a + 1 < |attempts| ==> Verified(rules, inventory, answers, attempts[a], i));
      var from := Before(inventory, attempts[a]);
      assert forall j :: 0 <= j < |inventory| && EntryUntouched(answers, attempts, start, inventory, from, a, j) ==>
               EntryUntouched(answers, attempts, p, inventory, from, a, j);
      assert Prechecked(rules, inventory, targets, answers, attempts, p, a, i);
    }
  }

  lemma NothingMade(inventory: seq<Id>, attempts: seq<Attempt>)
    ensures attempts[|attempts|..] == [] && Made(inventory, [], [], true) && Made(inventory, [], [], false)
  {
    assert Elements([]) == {};
    NoneChosen(inventory);
  }
}
