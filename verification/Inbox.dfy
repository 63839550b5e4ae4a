/** The tenant-scoped message inbox: claims carry tokens, and a completed message stays completed. */
module Inbox {
  import opened Basics
  import opened Lifecycle

  datatype Key = Key(tenant: TenantId, message: string)

  datatype Entry = Entry(token: nat, completed: bool)

  datatype Claim = MemoryClaim(key: Key, token: nat, duplicate: bool) | ForeignClaim

  datatype InboxError = ContextDone | InProgress | InvalidClaim

  datatype State = State(next: nat, entries: map<Key, Entry>)

  function Begin(s: State, cancelled: bool, tenant: TenantId, message: string): (State, Result<Claim, InboxError>) {
    var key := Key(tenant, message);
    if cancelled then (s, Err(ContextDone))
    else if !ValidTenantId(tenant) || message == "" then (s, Err(InvalidClaim))
    else if key in s.entries then
      (s, if s.entries[key].completed then Ok(MemoryClaim(key, s.entries[key].token, true)) else Err(InProgress))
    else
      var token := s.next + 1;
      (State(token, s.entries[key := Entry(token, false)]), Ok(MemoryClaim(key, token, false)))
  }

  /** Whether the claim is the present, uncompleted one of its key. */
  predicate Current(s: State, claim: Claim) {
    && claim.MemoryClaim? && !claim.duplicate && claim.token != 0
    && claim.key in s.entries && s.entries[claim.key] == Entry(claim.token, false)
  }

  function Complete(s: State, cancelled: bool, claim: Claim): (State, Option<InboxError>) {
    if cancelled then (s, Some(ContextDone))
    else if !Current(s, claim) then (s, Some(InvalidClaim))
    else (s.(entries := s.entries[claim.key := Entry(claim.token, true)]), None)
  }

  function Release(s: State, cancelled: bool, claim: Claim): (State, Option<InboxError>) {
    if cancelled then (s, Some(ContextDone))
    else if !Current(s, claim) then (s, Some(InvalidClaim))
    else (s.(entries := s.entries - {claim.key}), None)
  }

  /** The inbox object: each method is one critical section. */
  class MemoryInbox {
    var next: nat
    var entries: map<Key, Entry>

    function Contents(): State
      reads this
    {
      State(next, entries)
    }

    constructor ()
      ensures Contents() == State(0, map[])
    {
      next, entries := 0, map[];
    }

    method BeginMessage(cancelled: bool, tenant: TenantId, message: string) returns (r: Result<Claim, InboxError>)
      modifies this
      ensures (Contents(), r) == Begin(old(Contents()), cancelled, tenant, message)
      ensures r == Err(ContextDone) <==> cancelled
      ensures r == Err(InvalidClaim) <==> !cancelled && !(ValidTenantId(tenant) && |message| > 0)
      ensures r == Err(InProgress) ==>
                Key(tenant, message) in old(entries) && !old(entries)[Key(tenant, message)].completed
      ensures r.Ok? && r.value.duplicate ==>
                Key(tenant, message) in old(entries) && old(entries)[Key(tenant, message)].completed
      ensures r.Err? || r.value.duplicate ==> entries == old(entries)
      ensures r.Ok? && !r.value.duplicate ==>
                && Key(tenant, message) !in old(entries) && next == old(next) + 1
                && r.value == MemoryClaim(Key(tenant, message), next, false)
                && entries == old(entries)[Key(tenant, message) := Entry(next, false)]
    {
      if cancelled { return Err(ContextDone); }
      if !ValidTenantId(tenant) || message == "" { return Err(InvalidClaim); }
      var key := Key(tenant, message);
      if key in entries {
        var current := entries[key];
        if current.completed { return Ok(MemoryClaim(key, current.token, true)); }
        return Err(InProgress);
      }
      next := next + 1;
      entries := entries[key := Entry(next, false)];
      return Ok(MemoryClaim(key, next, false));
    }

    method CompleteClaim(cancelled: bool, claim: Claim) returns (error: Option<InboxError>)
      modifies this
      ensures (Contents(), error) == Complete(old(Contents()), cancelled, claim)
      ensures error == Some(ContextDone) <==> cancelled
      ensures error == None <==>
                && !cancelled && claim.MemoryClaim? && !claim.duplicate && claim.token > 0
                && claim.key in old(entries) && old(entries)[claim.key] == Entry(claim.token, false)
      ensures next == old(next)
      ensures entries == if error.Some? then old(entries) else old(entries)[claim.key := Entry(claim.token, true)]
    {
      if cancelled { return Some(ContextDone); }
      if claim.ForeignClaim? || claim.duplicate || claim.token == 0 { return Some(InvalidClaim); }
      if claim.key !in entries { return Some(InvalidClaim); }
      var entry := entries[claim.key];
      if entry.token != claim.token || entry.completed { return Some(InvalidClaim); }
      entry := entry.(completed := true);
      entries := entries[claim.key := entry];
      return None;
    }

    method ReleaseClaim(cancelled: bool, claim: Claim) returns (error: Option<InboxError>)
      modifies this
      ensures (Contents(), error) == Release(old(Contents()), cancelled, claim)
      ensures error == Some(ContextDone) <==> cancelled
      ensures error == None <==>
                && !cancelled && claim.MemoryClaim? && !claim.duplicate && claim.token > 0
                && claim.key in old(entries) && old(entries)[claim.key] == Entry(claim.token, false)
      ensures next == old(next)
      ensures entries == if error.Some? then old(entries) else old(entries) - {claim.key}
    {
      if cancelled { return Some(ContextDone); }
      if claim.ForeignClaim? || claim.duplicate || claim.token == 0 { return Some(InvalidClaim); }
      if claim.key !in entries { return Some(InvalidClaim); }
      var entry := entries[claim.key];
      if entry.token != claim.token || entry.completed { return Some(InvalidClaim); }
      entries := entries - {claim.key};
      return None;
    }
  }

  // ----- any interleaving of calls, on claims the inbox issued -----

  /** A call names a claim by its number in the order they were issued. */
  datatype Call =
    | CallBegin(cancelled: bool, tenant: TenantId, message: string)
    | CallComplete(cancelled: bool, claim: nat)
    | CallRelease(cancelled: bool, claim: nat)

  datatype Response = Issued(duplicate: bool) | Accepted | Refused(error: InboxError)

  /** The inbox and every claim it has issued. */
  datatype Book = Book(state: State, claims: seq<Claim>)

  function ClaimAt(b: Book, i: nat): Claim {
    if i < |b.claims| then b.claims[i] else ForeignClaim
  }

  function Answer(error: Option<InboxError>): Response {
    match error case None => Accepted case Some(e) => Refused(e)
  }

  function Serve(b: Book, call: Call): (Book, Response) {
    match call
    case CallBegin(cancelled, tenant, message) =>
      (match Begin(b.state, cancelled, tenant, message)
       case (s, Ok(claim)) => (Book(s, b.claims + [claim]), Issued(claim.MemoryClaim? && claim.duplicate))
       case (s, Err(e)) => (b.(state := s), Refused(e)))
    case CallComplete(cancelled, i) =>
      var (s, error) := Complete(b.state, cancelled, ClaimAt(b, i));
      (b.(state := s), Answer(error))
    case CallRelease(cancelled, i) =>
      var (s, error) := Release(b.state, cancelled, ClaimAt(b, i));
      (b.(state := s), Answer(error))
  }

  function ServeAll(b: Book, calls: seq<Call>): Book {
    if calls == [] then b else Serve(ServeAll(b, calls[..|calls| - 1]), calls[|calls| - 1]).0
  }

  /** The response to the k-th call of a run. */
  function ResponseAt(b: Book, calls: seq<Call>, k: nat): Response
    requires k < |calls|
  {
    Serve(ServeAll(b, calls[..k]), calls[k]).1
  }

  // ----- the same inbox without tokens -----

  /** A key is absent, in progress for one claim, or done. */
  datatype Slot = Claimed(owner: nat) | Done

  datatype Ticket = Ticket(key: Key, duplicate: bool)

  datatype Ledger = Ledger(slots: map<Key, Slot>, tickets: seq<Ticket>)

  predicate Owns(l: Ledger, i: nat) {
    && i < |l.tickets| && !l.tickets[i].duplicate
    && l.tickets[i].key in l.slots && l.slots[l.tickets[i].key] == Claimed(i)
  }

  function Keep(l: Ledger, call: Call): (Ledger, Response) {
    match call
    case CallBegin(cancelled, tenant, message) =>
      var key := Key(tenant, message);
      if cancelled then (l, Refused(ContextDone))
      else if !ValidTenantId(tenant) || message == "" then (l, Refused(InvalidClaim))
      else if key !in l.slots then
        (Ledger(l.slots[key := Claimed(|l.tickets|)], l.tickets + [Ticket(key, false)]), Issued(false))
      else if l.slots[key].Done? then (l.(tickets := l.tickets + [Ticket(key, true)]), Issued(true))
      else (l, Refused(InProgress))
    case CallComplete(cancelled, i) =>
      if cancelled then (l, Refused(ContextDone))
      else if !Owns(l, i) then (l, Refused(InvalidClaim))
      else (l.(slots := l.slots[l.tickets[i].key := Done]), Accepted)
    case CallRelease(cancelled, i) =>
      if cancelled then (l, Refused(ContextDone))
      else if !Owns(l, i) then (l, Refused(InvalidClaim))
      else (l.(slots := l.slots - {l.tickets[i].key}), Accepted)
  }

  function KeepAll(l: Ledger, calls: seq<Call>): Ledger {
    if calls == [] then l else Keep(KeepAll(l, calls[..|calls| - 1]), calls[|calls| - 1]).0
  }

  function LedgerResponseAt(l: Ledger, calls: seq<Call>, k: nat): Response
    requires k < |calls|
  {
    Keep(KeepAll(l, calls[..k]), calls[k]).1
  }

  const EMPTY_BOOK := Book(State(0, map[]), [])
  const EMPTY_LEDGER := Ledger(map[], [])

  /** Tokens name owners: claims and tickets correspond, tokens of real claims are distinct and
      already drawn, and an open entry carries the token of the claim that owns its slot. */
  ghost predicate Matches(b: Book, l: Ledger) {
    && |b.claims| == |l.tickets|
    && (forall i :: 0 <= i < |b.claims| ==>
          b.claims[i].MemoryClaim? && b.claims[i].key == l.tickets[i].key
          && b.claims[i].duplicate == l.tickets[i].duplicate)
    && (forall i :: 0 <= i < |b.claims| && !b.claims[i].duplicate ==> 0 < b.claims[i].token <= b.state.next)
    && (forall i, j :: 0 <= i < j < |b.claims| && !b.claims[i].duplicate && !b.claims[j].duplicate ==>
          b.claims[i].token != b.claims[j].token)
    && b.state.entries.Keys == l.slots.Keys
    && (forall k :: k in l.slots ==> l.slots[k].Done? == b.state.entries[k].completed)
    && (forall k :: k in l.slots && l.slots[k].Claimed? ==>
          && l.slots[k].owner < |l.tickets|
          && l.tickets[l.slots[k].owner] == Ticket(k, false)
          && b.claims[l.slots[k].owner].token == b.state.entries[k].token)
  }

  lemma OwnsIsCurrent(b: Book, l: Ledger, i: nat)
    requires Matches(b, l)
    ensures Owns(l, i) <==> Current(b.state, ClaimAt(b, i))
  {
    if i < |b.claims| && Current(b.state, b.claims[i]) {
      var k := b.claims[i].key;
      assert k in l.slots && l.slots[k].Claimed?;
      assert b.claims[l.slots[k].owner].token == b.claims[i].token;
    }
  }

  lemma BeginMatches(b: Book, l: Ledger, cancelled: bool, tenant: TenantId, message: string)
    requires Matches(b, l)
    ensures var call := CallBegin(cancelled, tenant, message);
            Matches(Serve(b, call).0, Keep(l, call).0) && Serve(b, call).1 == Keep(l, call).1
  {
    hide ValidTenantId;
  }

  lemma CompleteMatches(b: Book, l: Ledger, cancelled: bool, i: nat)
    requires Matches(b, l)
    ensures var call := CallComplete(cancelled, i);
            Matches(Serve(b, call).0, Keep(l, call).0) && Serve(b, call).1 == Keep(l, call).1
  {
    OwnsIsCurrent(b, l, i);
  }

  lemma ReleaseMatches(b: Book, l: Ledger, cancelled: bool, i: nat)
    requires Matches(b, l)
    ensures var call := CallRelease(cancelled, i);
            Matches(Serve(b, call).0, Keep(l, call).0) && Serve(b, call).1 == Keep(l, call).1
  {
    OwnsIsCurrent(b, l, i);
  }

  lemma ServeMatches(b: Book, l: Ledger, call: Call)
    requires Matches(b, l)
    ensures Matches(Serve(b, call).0, Keep(l, call).0)
    ensures Serve(b, call).1 == Keep(l, call).1
  {
    hide Matches, Serve, Keep;
    match call
    case CallBegin(cancelled, tenant, message) => BeginMatches(b, l, cancelled, tenant, message);
    case CallComplete(cancelled, i) => CompleteMatches(b, l, cancelled, i);
    case CallRelease(cancelled, i) => ReleaseMatches(b, l, cancelled, i);
  }

  lemma {:induction false} ServeAllMatches(calls: seq<Call>)
    ensures Matches(ServeAll(EMPTY_BOOK, calls), KeepAll(EMPTY_LEDGER, calls))
  {
    hide Matches, Serve, Keep;
    if calls == [] {
      EmptyMatches();
    } else {
      ServeAllMatches(calls[..|calls| - 1]);
      ServeMatches(ServeAll(EMPTY_BOOK, calls[..|calls| - 1]), KeepAll(EMPTY_LEDGER, calls[..|calls| - 1]),
                   calls[|calls| - 1]);
    }
  }

  lemma EmptyMatches()
    ensures Matches(EMPTY_BOOK, EMPTY_LEDGER)
  {
  }

  /** The token-carrying inbox answers every run of calls exactly as a map from keys to Absent,
      InProgress(owner) and Done does. */
  lemma TokensRefineOwners(calls: seq<Call>, k: nat)
    requires k < |calls|
    ensures ResponseAt(EMPTY_BOOK, calls, k) == LedgerResponseAt(EMPTY_LEDGER, calls, k)
  {
    hide Matches, Serve, Keep;
    ServeAllMatches(calls[..k]);
    ServeMatches(ServeAll(EMPTY_BOOK, calls[..k]), KeepAll(EMPTY_LEDGER, calls[..k]), calls[k]);
  }

  // ----- what callers can rely on, over any run of calls -----

  /** At any time at most one issued claim of a key can be completed or released. */
  lemma AtMostOneLiveClaim(calls: seq<Call>, i: nat, j: nat)
    requires var b := ServeAll(EMPTY_BOOK, calls);
             && Current(b.state, ClaimAt(b, i)) && Current(b.state, ClaimAt(b, j))
             && ClaimAt(b, i).key == ClaimAt(b, j).key
    ensures i == j
  {
    hide Serve, Keep;
    ServeAllMatches(calls);
    OwnsIsCurrent(ServeAll(EMPTY_BOOK, calls), KeepAll(EMPTY_LEDGER, calls), i);
    OwnsIsCurrent(ServeAll(EMPTY_BOOK, calls), KeepAll(EMPTY_LEDGER, calls), j);
  }

  /** What time never undoes: issued tickets stay, done keys stay done, and a claim that lost its
      slot never gets it back. */
  ghost predicate Later(l: Ledger, m: Ledger) {
    && l.tickets <= m.tickets
    && (forall k :: k in l.slots && l.slots[k].Done? ==> k in m.slots && m.slots[k].Done?)
    && (forall i: nat :: i < |l.tickets| && !Owns(l, i) ==> !Owns(m, i))
  }

  lemma KeepLater(l: Ledger, call: Call)
    ensures Later(l, Keep(l, call).0)
  {
    hide ValidTenantId;
  }

  lemma {:induction false} RunLater(l: Ledger, calls: seq<Call>, j: nat)
    requires j <= |calls|
    ensures Later(KeepAll(l, calls[..j]), KeepAll(l, calls))
    decreases |calls| - j
  {
    hide Keep;
    if j == |calls| {
      assert calls[..j] == calls;
    } else {
      assert calls[..j + 1][..j] == calls[..j];
      KeepLater(KeepAll(l, calls[..j]), calls[j]);
      RunLater(l, calls, j + 1);
      LaterTransitive(KeepAll(l, calls[..j]), KeepAll(l, calls[..j + 1]), KeepAll(l, calls));
    }
  }

  lemma LaterTransitive(l: Ledger, m: Ledger, n: Ledger)
    requires Later(l, m) && Later(m, n)
    ensures Later(l, n)
  {
  }

  lemma AfterAccepted(calls: seq<Call>, j: nat, k: nat)
    requires j < k <= |calls| && !calls[j].CallBegin? && LedgerResponseAt(EMPTY_LEDGER, calls, j).Accepted?
    ensures var l, m := KeepAll(EMPTY_LEDGER, calls[..j]), KeepAll(EMPTY_LEDGER, calls[..k]);
            var i := calls[j].claim;
            && Owns(l, i) && l.tickets <= m.tickets && !Owns(m, i)
            && (calls[j].CallComplete? ==> l.tickets[i].key in m.slots && m.slots[l.tickets[i].key].Done?)
  {
    var l, n := KeepAll(EMPTY_LEDGER, calls[..j]), KeepAll(EMPTY_LEDGER, calls[..j + 1]);
    assert calls[..j + 1][..j] == calls[..j] && n == Keep(l, calls[j]).0;
    assert calls[..k][..j + 1] == calls[..j + 1];
    RunLater(EMPTY_LEDGER, calls[..k], j + 1);
  }

  /** Once a claim was completed, its message is done for good: nothing completes or releases it
      again, and every later valid Begin of it is answered as a duplicate. */
  lemma CompletedForGood(calls: seq<Call>, j: nat, k: nat)
    requires j < k < |calls| && calls[j].CallComplete? && ResponseAt(EMPTY_BOOK, calls, j).Accepted?
    ensures var key, b := ClaimAt(ServeAll(EMPTY_BOOK, calls[..j]), calls[j].claim).key,
            ServeAll(EMPTY_BOOK, calls[..k]);
            && (calls[k].CallBegin? && Key(calls[k].tenant, calls[k].message) == key && !calls[k].cancelled ==>
                  ResponseAt(EMPTY_BOOK, calls, k) == Issued(true))
            && (!calls[k].CallBegin? && ClaimAt(b, calls[k].claim).MemoryClaim?
                && ClaimAt(b, calls[k].claim).key == key ==>
                  ResponseAt(EMPTY_BOOK, calls, k).Refused?)
  {
    hide Serve;
    var b, l := ServeAll(EMPTY_BOOK, calls[..j]), KeepAll(EMPTY_LEDGER, calls[..j]);
    ServeAllMatches(calls[..j]);
    TokensRefineOwners(calls, j);
    AfterAccepted(calls, j, k);
    OwnsIsCurrent(b, l, calls[j].claim);
    BegunKeysAreValid(calls[..j], calls[j].claim);
    TokensRefineOwners(calls, k);
    ServeAllMatches(calls[..k]);
  }

  lemma {:induction false} BegunKeysAreValid(calls: seq<Call>, i: nat)
    requires i < |KeepAll(EMPTY_LEDGER, calls).tickets|
    ensures var key := KeepAll(EMPTY_LEDGER, calls).tickets[i].key; ValidTenantId(key.tenant) && key.message != ""
  {
    hide ValidTenantId;
    if calls != [] {
      var front := calls[..|calls| - 1];
      if i < |KeepAll(EMPTY_LEDGER, front).tickets| { BegunKeysAreValid(front, i); }
    }
  }

  /** A claim that was released never has an effect again, whoever holds its key by then. */
  lemma ReleasedForGood(calls: seq<Call>, j: nat, k: nat)
    requires j < k < |calls| && calls[j].CallRelease? && ResponseAt(EMPTY_BOOK, calls, j).Accepted?
    requires !calls[k].CallBegin? && calls[k].claim == calls[j].claim
    ensures ResponseAt(EMPTY_BOOK, calls, k).Refused?
    ensures ServeAll(EMPTY_BOOK, calls[..k + 1]) == ServeAll(EMPTY_BOOK, calls[..k])
  {
    hide Matches, Keep, KeepAll, Owns;
    TokensRefineOwners(calls, j);
    AfterAccepted(calls, j, k);
    ServeAllMatches(calls[..k]);
    OwnsIsCurrent(ServeAll(EMPTY_BOOK, calls[..k]), KeepAll(EMPTY_LEDGER, calls[..k]), calls[k].claim);
    assert calls[..k + 1][..k] == calls[..k];
  }
}
