/** Dispatching job envelopes to handlers through the inbox, many at a time. */
module Dispatcher {
  import opened Basics
  import opened Lifecycle
  import opened Inbox

  // ----- handlers -----

  datatype HandlerKey = HandlerKey(kind: string, version: int)

  /** A handler as registration sees it; `id` tells handlers apart. */
  datatype Handler = NilHandler | Handler(key: HandlerKey, id: nat)

  predicate Registrable(handler: Handler) {
    handler.Handler? && handler.key.kind != "" && handler.key.version >= 1
  }

  datatype NewError = InvalidHandler | DuplicateHandler

  /** The handler table after registering in order, or the first refusal. */
  function Registered(handlers: seq<Handler>): Result<map<HandlerKey, Handler>, NewError> {
    if handlers == [] then Ok(map[])
    else
      var last := handlers[|handlers| - 1];
      match Registered(handlers[..|handlers| - 1])
      case Err(e) => Err(e)
      case Ok(table) =>
        if !Registrable(last) then Err(InvalidHandler)
        else if last.key in table then Err(DuplicateHandler)
        else Ok(table[last.key := last])
  }

  lemma {:induction false} RegisteredRefusalStays(handlers: seq<Handler>, k: nat)
    requires k <= |handlers| && Registered(handlers[..k]).Err?
    ensures Registered(handlers) == Registered(handlers[..k])
    decreases |handlers| - k
  {
    if k < |handlers| {
      assert handlers[..k + 1][..k] == handlers[..k];
      RegisteredRefusalStays(handlers, k + 1);
    } else {
      assert handlers[..k] == handlers;
    }
  }

  /** A table that registers holds exactly the given handlers, each under its own key. */
  lemma {:induction false} RegisteredStores(handlers: seq<Handler>)
    requires Registered(handlers).Ok?
    ensures var table := Registered(handlers).value;
            && (forall i :: 0 <= i < |handlers| ==>
                  && handlers[i].Handler? && |handlers[i].key.kind| > 0 && handlers[i].key.version > 0
                  && handlers[i].key in table && table[handlers[i].key] == handlers[i])
            && (forall key :: key in table ==>
                exists i :: 0 <= i < |handlers| && handlers[i] == table[key] && table[key].key == key)
            && |table| == |handlers|
  {
    if handlers != [] {
      var front := handlers[..|handlers| - 1];
      RegisteredStores(front);
      assert forall i :: 0 <= i < |front| ==> front[i] == handlers[i];
    }
  }

  predicate DistinctKeys(handlers: seq<Handler>) {
    forall i, j :: 0 <= i < j < |handlers| && handlers[i].Handler? && handlers[j].Handler? ==>
        handlers[i].key != handlers[j].key
  }

  predicate AllRegistrable(handlers: seq<Handler>) {
    forall i :: 0 <= i < |handlers| ==> WellFormed(handlers[i])
  }

  /** A handler that names its kind and has a version from one on. */
  predicate WellFormed(handler: Handler) {
    match handler
    case NilHandler => false
    case Handler(key, _) => |key.kind| > 0 && key.version > 0
  }

  /** Registration succeeds exactly when every handler is well formed and no key repeats. */
  lemma {:induction false} RegisteredIff(handlers: seq<Handler>)
    ensures Registered(handlers).Ok? <==> AllRegistrable(handlers) && DistinctKeys(handlers)
  {
    hide AllRegistrable, DistinctKeys;
    if handlers == [] {
      NoneRegistrable();
    } else {
      var front := handlers[..|handlers| - 1];
      RegisteredIff(front);
      if Registered(front).Ok? {
        RegisteredStores(front);
        LastRegistrable(handlers, Registered(front).value);
      } else {
        FrontRegistrable(handlers);
      }
    }
  }

  lemma NoneRegistrable()
    ensures AllRegistrable([]) && DistinctKeys([])
  {
  }

  lemma FrontRegistrable(handlers: seq<Handler>)
    requires handlers != []
    ensures var front := handlers[..|handlers| - 1];
            (AllRegistrable(handlers) ==> AllRegistrable(front)) && (DistinctKeys(handlers) ==> DistinctKeys(front))
  {
    var front := handlers[..|handlers| - 1];
    assert forall i :: 0 <= i < |front| ==> front[i] == handlers[i];
  }

  lemma LastRegistrable(handlers: seq<Handler>, table: map<HandlerKey, Handler>)
    requires handlers != []
    requires var front := handlers[..|handlers| - 1];
             && AllRegistrable(front) && DistinctKeys(front)
             && (forall i :: 0 <= i < |front| ==> front[i].key in table)
             && (forall key :: key in table ==>
                 exists i :: 0 <= i < |front| && front[i].Handler? && front[i].key == key)
    ensures var last := handlers[|handlers| - 1];
            AllRegistrable(handlers) && DistinctKeys(handlers) <==> Registrable(last) && last.key !in table
  {
    var n := |handlers| - 1;
    var front := handlers[..n];
    assert forall i :: 0 <= i < n ==> front[i] == handlers[i];
    if Registrable(handlers[n]) && handlers[n].key in table {
      var i :| 0 <= i < n && front[i].Handler? && front[i].key == handlers[n].key;
      assert handlers[i].key == handlers[n].key;
    }
  }

  /** A refusal is that of the first handler that is malformed or whose key was registered before it. */
  ghost predicate RefusedAt(handlers: seq<Handler>, k: nat, error: NewError) {
    && k < |handlers| && AllRegistrable(handlers[..k]) && DistinctKeys(handlers[..k])
    && (error == InvalidHandler <==> !WellFormed(handlers[k]))
    && (error == DuplicateHandler ==>
          exists j :: 0 <= j < k && handlers[j].Handler? && handlers[j].key == handlers[k].key)
  }

  lemma FirstRefusal(handlers: seq<Handler>, k: nat, error: NewError)
    requires k < |handlers| && Registered(handlers[..k]).Ok? && Registered(handlers[..k + 1]) == Err(error)
    ensures RefusedAt(handlers, k, error)
  {
    hide AllRegistrable, DistinctKeys;
    var front := handlers[..k];
    assert handlers[..k + 1][..k] == front;
    RegisteredIff(front);
    RegisteredStores(front);
    if error == DuplicateHandler {
      var j :| 0 <= j < k && front[j].key == handlers[k].key && front[j].Handler?;
      assert handlers[j] == front[j];
    }
  }

  method New(handlers: seq<Handler>) returns (r: Result<map<HandlerKey, Handler>, NewError>)
    ensures r == Registered(handlers)
    ensures r.Err? ==> exists k: nat :: RefusedAt(handlers, k, r.error)
  {
    var table: map<HandlerKey, Handler> := map[];
    for k := 0 to |handlers|
      invariant Registered(handlers[..k]) == Ok(table)
    {
      assert handlers[..k + 1][..k] == handlers[..k];
      var handler := handlers[k];
      if handler.NilHandler? || handler.key.kind == "" || handler.key.version < 1 {
        RegisteredRefusalStays(handlers, k + 1);
        FirstRefusal(handlers, k, InvalidHandler);
        return Err(InvalidHandler);
      }
      if handler.key in table {
        RegisteredRefusalStays(handlers, k + 1);
        FirstRefusal(handlers, k, DuplicateHandler);
        return Err(DuplicateHandler);
      }
      table := table[handler.key := handler];
    }
    assert handlers[..|handlers|] == handlers;
    return Ok(table);
  }

  // ----- one dispatch -----

  /** `payloadIsJson` is the JSON check's verdict on the payload. */
  datatype Envelope = Envelope(
    id: string, tenant: TenantId, kind: string, version: int, occurred: bool, payload: seq<char>, payloadIsJson: bool)
  {
    predicate Valid() {
      && id != "" && IsTrimmed(id) && |id| <= MAX_ID_LENGTH
      && ValidTenantId(tenant)
      && kind != "" && IsTrimmed(kind) && |kind| <= MAX_ID_LENGTH
      && version >= 1
      && occurred
      && payload != [] && payloadIsJson
    }
  }

  /** The checks on a message, one by one. */
  lemma EnvelopeValidMeans(e: Envelope)
    ensures e.Valid() <==>
              && 1 <= |e.id| <= 128 && Trim(e.id) == e.id
              && 1 <= |e.tenant| <= 128 && Trim(e.tenant) == e.tenant
              && 1 <= |e.kind| <= 128 && Trim(e.kind) == e.kind
              && 1 <= e.version && e.occurred && 1 <= |e.payload| && e.payloadIsJson
  {
    TrimMeans(e.id);
    TrimMeans(e.tenant);
    TrimMeans(e.kind);
  }

  datatype DispatchError =
    | InvalidEnvelope | UnknownHandler
    | InboxFailed(inbox: InboxError) | HandlerFailed(release: Option<InboxError>)

  datatype Outcome = Outcome(handled: bool, duplicate: bool, requeue: bool, error: Option<DispatchError>)

  datatype Pc =
    | AtCheck
    | AtBegin
    | AtHandle(claim: Claim)
    | AtComplete(claim: Claim)
    | AtRelease(claim: Claim)
    | Returned(outcome: Outcome)

  datatype Dispatch = Dispatch(envelope: Envelope, cancelled: bool, pc: Pc)

  function KeyOf(d: Dispatch): Key { Key(d.envelope.tenant, d.envelope.id) }

  /** One step of a dispatch: at most one call on the inbox. `failed` is the handler's verdict.
      Completing and releasing ignore cancellation. */
  function Step(handlers: map<HandlerKey, Handler>, s: State, d: Dispatch, failed: bool): (State, Dispatch) {
    match d.pc
    case AtCheck =>
      (s, d.(pc :=
        if !d.envelope.Valid() then Returned(Outcome(false, false, false, Some(InvalidEnvelope)))
        else if HandlerKey(d.envelope.kind, d.envelope.version) !in handlers
             then Returned(Outcome(false, false, false, Some(UnknownHandler)))
        else AtBegin))
    case AtBegin =>
      (match Begin(s, d.cancelled, d.envelope.tenant, d.envelope.id)
       case (s', Err(e)) => (s', d.(pc := Returned(Outcome(false, false, e == InProgress, Some(InboxFailed(e))))))
       case (s', Ok(claim)) =>
         (s', d.(pc := if claim.MemoryClaim? && claim.duplicate then Returned(Outcome(false, true, false, None))
                       else AtHandle(claim))))
    case AtHandle(claim) => (s, d.(pc := if failed then AtRelease(claim) else AtComplete(claim)))
    case AtComplete(claim) =>
      var (s', error) := Complete(s, false, claim);
      (s', d.(pc := Returned(if error.Some? then Outcome(false, false, true, Some(InboxFailed(error.value)))
                             else Outcome(true, false, false, None))))
    case AtRelease(claim) =>
      var (s', error) := Release(s, false, claim);
      (s', d.(pc := Returned(Outcome(false, false, true, Some(HandlerFailed(error))))))
    case Returned(_) => (s, d)
  }

  // ----- many dispatches at once -----

  datatype World = World(inbox: State, runs: map<nat, Dispatch>)

  datatype Action = Spawn(rid: nat, envelope: Envelope) | Cancel(rid: nat) | Move(rid: nat, failed: bool)

  function Next(handlers: map<HandlerKey, Handler>, w: World, a: Action): World {
    match a
    case Spawn(rid, envelope) =>
      if rid in w.runs then w else w.(runs := w.runs[rid := Dispatch(envelope, false, AtCheck)])
    case Cancel(rid) => if rid in w.runs then w.(runs := w.runs[rid := w.runs[rid].(cancelled := true)]) else w
    case Move(rid, failed) =>
      if rid !in w.runs then w
      else
        var (s, d) := Step(handlers, w.inbox, w.runs[rid], failed);
        World(s, w.runs[rid := d])
  }

  function Exec(handlers: map<HandlerKey, Handler>, w: World, actions: seq<Action>): World
    decreases |actions|
  {
    if actions == [] then w else Exec(handlers, Next(handlers, w, actions[0]), actions[1..])
  }

  /** No dispatch has started and no message is in progress. */
  ghost predicate Initial(w: World) {
    && w.runs == map[]
    && forall k :: k in w.inbox.entries ==> w.inbox.entries[k].completed && w.inbox.entries[k].token <= w.inbox.next
  }

  predicate Working(pc: Pc) { pc.AtHandle? || pc.AtComplete? || pc.AtRelease? }

  predicate Handled(d: Dispatch) { d.pc.Returned? && d.pc.outcome.handled }

  /** The claim of a dispatch between Begin and its end is the current one of its own key. */
  ghost predicate Owner(w: World, rid: nat) {
    && rid in w.runs && Working(w.runs[rid].pc)
    && Current(w.inbox, w.runs[rid].pc.claim) && w.runs[rid].pc.claim.key == KeyOf(w.runs[rid])
  }

  /** An entry in progress belongs to a working dispatch. */
  ghost predicate Owned(w: World, k: Key) {
    && k in w.inbox.entries
    && (w.inbox.entries[k].completed || exists rid: nat :: Owner(w, rid) && KeyOf(w.runs[rid]) == k)
  }

  predicate Lost(outcome: Outcome) {
    || outcome.error == Some(InboxFailed(InvalidClaim))
    || (outcome.error.Some? && outcome.error.value.HandlerFailed? && outcome.error.value.release.Some?)
  }

  ghost predicate HandledBy(w: World, rid: nat, k: Key) {
    rid in w.runs && Handled(w.runs[rid]) && KeyOf(w.runs[rid]) == k
  }

  /** Every entry's token has been drawn, and an entry in progress has its dispatch. */
  ghost predicate EntriesOk(w: World) {
    forall k :: k in w.inbox.entries ==> w.inbox.entries[k].token <= w.inbox.next && Owned(w, k)
  }

  ghost predicate RunsOk(w: World) {
    && (forall rid: nat :: rid in w.runs && Working(w.runs[rid].pc) ==> Owner(w, rid))
    && (forall rid: nat :: rid in w.runs && w.runs[rid].pc.AtBegin? ==> w.runs[rid].envelope.Valid())
    && (forall rid: nat :: rid in w.runs && w.runs[rid].pc.Returned? ==> !Lost(w.runs[rid].pc.outcome))
  }

  /** Working dispatches have distinct keys. */
  ghost predicate Apart(w: World) {
    forall a: nat, b: nat :: a in w.runs && b in w.runs && a != b && Working(w.runs[a].pc) && Working(w.runs[b].pc) ==>
      KeyOf(w.runs[a]) != KeyOf(w.runs[b])
  }

  /** `was` holds the keys completed before the first dispatch; every other completed key has
      exactly one dispatch that handled it. */
  ghost predicate HandledOnce(w: World, was: set<Key>) {
    && (forall k :: k in was ==> k in w.inbox.entries && w.inbox.entries[k].completed)
    && (forall rid: nat, k :: HandledBy(w, rid, k) ==>
        k !in was && k in w.inbox.entries && w.inbox.entries[k].completed)
    && (forall a: nat, b: nat, k :: HandledBy(w, a, k) && HandledBy(w, b, k) ==> a == b)
    && (forall k :: k in w.inbox.entries && w.inbox.entries[k].completed && k !in was ==>
        exists rid: nat :: HandledBy(w, rid, k))
  }

  ghost predicate Inv(w: World, was: set<Key>) {
    EntriesOk(w) && RunsOk(w) && Apart(w) && HandledOnce(w, was)
  }

  // ----- a step of one dispatch -----

  /** What a step of dispatch `rid` may do: nothing to the inbox, or claim, complete or release its own key. */
  ghost predicate Effect(w: World, v: World, rid: nat) {
    && rid in w.runs && rid in v.runs
    && v.runs == w.runs[rid := v.runs[rid]]
    && v.runs[rid].envelope == w.runs[rid].envelope
    && w.inbox.next <= v.inbox.next
    && (forall k :: k != KeyOf(w.runs[rid]) ==>
          (k in v.inbox.entries <==> k in w.inbox.entries)
          && (k in w.inbox.entries ==> v.inbox.entries[k] == w.inbox.entries[k]))
    && (v.runs[rid].pc.AtBegin? ==> v.runs[rid].envelope.Valid())
    && (v.runs[rid].pc.Returned? ==> !Lost(v.runs[rid].pc.outcome))
    && !Handled(w.runs[rid])
    && (Idles(w, v, rid) || Claims(w, v, rid) || Completes(w, v, rid) || Releases(w, v, rid))
  }

  ghost predicate Idles(w: World, v: World, rid: nat)
    requires rid in w.runs && rid in v.runs
  {
    && v.inbox == w.inbox && !Handled(v.runs[rid])
    && Working(v.runs[rid].pc) == Working(w.runs[rid].pc)
    && (Working(v.runs[rid].pc) ==> v.runs[rid].pc.claim == w.runs[rid].pc.claim)
  }

  ghost predicate Claims(w: World, v: World, rid: nat)
    requires rid in w.runs && rid in v.runs
  {
    && !Working(w.runs[rid].pc) && KeyOf(w.runs[rid]) !in w.inbox.entries
    && Owner(v, rid) && v.runs[rid].pc.claim.token <= v.inbox.next
  }

  ghost predicate Completes(w: World, v: World, rid: nat)
    requires rid in w.runs && rid in v.runs
  {
    && Owner(w, rid) && Handled(v.runs[rid])
    && KeyOf(w.runs[rid]) in v.inbox.entries
    && v.inbox.entries[KeyOf(w.runs[rid])] == Entry(w.runs[rid].pc.claim.token, true)
  }

  ghost predicate Releases(w: World, v: World, rid: nat)
    requires rid in w.runs && rid in v.runs
  {
    && Owner(w, rid) && !Working(v.runs[rid].pc) && !Handled(v.runs[rid])
    && KeyOf(w.runs[rid]) !in v.inbox.entries
  }

  lemma OthersOwn(w: World, v: World, rid: nat, a: nat)
    requires Effect(w, v, rid) && a != rid && Owner(w, a) && Apart(w)
    ensures Owner(v, a) && v.runs[a] == w.runs[a]
    ensures Idles(w, v, rid) || KeyOf(w.runs[a]) != KeyOf(w.runs[rid])
  {
  }

  lemma EffectRuns(w: World, v: World, rid: nat)
    requires Effect(w, v, rid) && RunsOk(w) && Apart(w)
    ensures RunsOk(v)
  {
    hide Apart;
    forall a: nat | a in v.runs && Working(v.runs[a].pc) ensures Owner(v, a) {
      if a != rid {
        assert Owner(w, a);
        OthersOwn(w, v, rid, a);
      } else if Idles(w, v, rid) {
        assert Owner(w, rid);
      }
    }
  }

  lemma EffectApart(w: World, v: World, rid: nat)
    requires Effect(w, v, rid) && RunsOk(w) && Apart(w)
    ensures Apart(v)
  {
    forall a: nat, b: nat | a in v.runs && b in v.runs && a != b && Working(v.runs[a].pc) && Working(v.runs[b].pc)
      ensures KeyOf(v.runs[a]) != KeyOf(v.runs[b])
    {
      var other := if a == rid then b else a;
      if a == rid || b == rid {
        assert Owner(w, other);
        OthersOwn(w, v, rid, other);
      }
    }
  }

  lemma EffectEntries(w: World, v: World, rid: nat)
    requires Effect(w, v, rid) && RunsOk(w) && Apart(w) && EntriesOk(w)
    ensures EntriesOk(v)
  {
    hide Apart, RunsOk, Idles;
    EffectRuns(w, v, rid);
    forall k | k in v.inbox.entries ensures v.inbox.entries[k].token <= v.inbox.next && Owned(v, k) {
      EffectEntry(w, v, rid, k);
    }
  }

  lemma EffectEntry(w: World, v: World, rid: nat, k: Key)
    requires Effect(w, v, rid) && RunsOk(w) && Apart(w) && EntriesOk(w) && RunsOk(v) && k in v.inbox.entries
    ensures v.inbox.entries[k].token <= v.inbox.next && Owned(v, k)
  {
    if k in w.inbox.entries && v.inbox.entries[k] == w.inbox.entries[k] {
      assert Owned(w, k);
      if !w.inbox.entries[k].completed {
        var a: nat :| Owner(w, a) && KeyOf(w.runs[a]) == k;
        if a == rid {
          assert Idles(w, v, rid) && Owner(v, rid);
        } else {
          OthersOwn(w, v, rid, a);
        }
      }
    }
  }

  lemma EffectHandled(w: World, v: World, rid: nat, was: set<Key>)
    requires Effect(w, v, rid) && EntriesOk(w) && HandledOnce(w, was)
    ensures HandledOnce(v, was)
  {
    hide EntriesOk;
    var key := KeyOf(w.runs[rid]);
    assert forall a: nat, k :: HandledBy(v, a, k) <==>
        HandledBy(w, a, k) || (a == rid && k == key && Completes(w, v, rid));
    forall k | k in v.inbox.entries && v.inbox.entries[k].completed && k !in was
      ensures exists a: nat :: HandledBy(v, a, k)
    {
      if Completes(w, v, rid) && k == key {
        assert HandledBy(v, rid, k);
      } else {
        var a: nat :| HandledBy(w, a, k);
        assert HandledBy(v, a, k);
      }
    }
  }

  lemma EffectKeepsInv(w: World, v: World, rid: nat, was: set<Key>)
    requires Inv(w, was) && Effect(w, v, rid)
    ensures Inv(v, was)
  {
    EffectRuns(w, v, rid);
    EffectApart(w, v, rid);
    EffectEntries(w, v, rid);
    EffectHandled(w, v, rid, was);
  }

  lemma BeginEffect(handlers: map<HandlerKey, Handler>, w: World, rid: nat, failed: bool)
    requires rid in w.runs && w.runs[rid].pc.AtBegin? && w.runs[rid].envelope.Valid() && EntriesOk(w)
    ensures Effect(w, Next(handlers, w, Move(rid, failed)), rid)
  {
    hide ValidTenantId, IsTrimmed, Owned;
  }

  lemma EndEffect(handlers: map<HandlerKey, Handler>, w: World, rid: nat, failed: bool)
    requires Owner(w, rid) && (w.runs[rid].pc.AtComplete? || w.runs[rid].pc.AtRelease?)
    ensures Effect(w, Next(handlers, w, Move(rid, failed)), rid)
  {
    hide Begin;
  }

  lemma LocalEffect(handlers: map<HandlerKey, Handler>, w: World, rid: nat, failed: bool)
    requires rid in w.runs && (w.runs[rid].pc.AtCheck? || w.runs[rid].pc.AtHandle?)
    ensures Effect(w, Next(handlers, w, Move(rid, failed)), rid)
  {
    hide Begin, Complete, Release, ValidTenantId, IsTrimmed;
  }

  lemma MoveEffect(handlers: map<HandlerKey, Handler>, w: World, rid: nat, failed: bool, was: set<Key>)
    requires Inv(w, was) && rid in w.runs && !w.runs[rid].pc.Returned?
    ensures Effect(w, Next(handlers, w, Move(rid, failed)), rid)
  {
    hide EntriesOk, Apart, HandledOnce, ValidTenantId, Effect, Owner, Next;
    if w.runs[rid].pc.AtBegin? {
      BeginEffect(handlers, w, rid, failed);
    } else if w.runs[rid].pc.AtComplete? || w.runs[rid].pc.AtRelease? {
      EndEffect(handlers, w, rid, failed);
    } else {
      LocalEffect(handlers, w, rid, failed);
    }
  }

  /** Starting and cancelling dispatches leaves the inbox and every place of execution alone. */
  ghost predicate OnlyRuns(w: World, v: World) {
    && v.inbox == w.inbox && w.runs.Keys <= v.runs.Keys
    && (forall k :: k in w.runs ==> v.runs[k] == w.runs[k].(cancelled := v.runs[k].cancelled))
    && (forall k :: k in v.runs && k !in w.runs ==> v.runs[k].pc.AtCheck?)
  }

  lemma OnlyRunsOwners(w: World, v: World)
    requires OnlyRuns(w, v)
    ensures forall a: nat :: Owner(w, a) <==> Owner(v, a)
    ensures forall a: nat, k :: HandledBy(w, a, k) <==> HandledBy(v, a, k)
  {
  }

  lemma OnlyRunsEntries(w: World, v: World)
    requires OnlyRuns(w, v) && EntriesOk(w)
    ensures EntriesOk(v)
  {
    OnlyRunsOwners(w, v);
    forall k | k in v.inbox.entries ensures Owned(v, k) {
      assert Owned(w, k);
      if !w.inbox.entries[k].completed {
        var a: nat :| Owner(w, a) && KeyOf(w.runs[a]) == k;
        assert Owner(v, a);
      }
    }
  }

  lemma OnlyRunsKeepsInv(w: World, v: World, was: set<Key>)
    requires Inv(w, was) && OnlyRuns(w, v)
    ensures Inv(v, was)
  {
    hide EntriesOk, Owner, HandledBy;
    OnlyRunsOwners(w, v);
    OnlyRunsEntries(w, v);
  }

  lemma NextKeepsInv(handlers: map<HandlerKey, Handler>, w: World, a: Action, was: set<Key>)
    requires Inv(w, was)
    ensures Inv(Next(handlers, w, a), was)
  {
    hide Inv, Effect;
    match a
    case Move(rid, failed) =>
      if rid in w.runs {
        if w.runs[rid].pc.Returned? {
          assert Next(handlers, w, a) == w;
        } else {
          MoveEffect(handlers, w, rid, failed, was);
          EffectKeepsInv(w, Next(handlers, w, a), rid, was);
        }
      }
    case _ => OnlyRunsKeepsInv(w, Next(handlers, w, a), was);
  }

  lemma {:induction false} ExecKeepsInv(
    handlers: map<HandlerKey, Handler>, w: World, actions: seq<Action>, was: set<Key>)
    requires Inv(w, was)
    ensures Inv(Exec(handlers, w, actions), was)
    decreases |actions|
  {
    hide Inv, Next;
    if actions != [] {
      NextKeepsInv(handlers, w, actions[0], was);
      ExecKeepsInv(handlers, Next(handlers, w, actions[0]), actions[1..], was);
    }
  }

  lemma InitialInv(w: World)
    requires Initial(w)
    ensures Inv(w, w.inbox.entries.Keys)
  {
  }

  // ----- what holds after any interleaving of dispatches -----

  /** No dispatch ever loses its claim: completing and releasing always succeed for the owner. */
  lemma OwnersNeverLoseTheirClaim(handlers: map<HandlerKey, Handler>, w: World, actions: seq<Action>, rid: nat)
    requires Initial(w) && rid in Exec(handlers, w, actions).runs
    ensures var d := Exec(handlers, w, actions).runs[rid];
            && (d.pc.Returned? ==> !Lost(d.pc.outcome))
            && (Working(d.pc) ==> Current(Exec(handlers, w, actions).inbox, d.pc.claim))
  {
    InitialInv(w);
    ExecKeepsInv(handlers, w, actions, w.inbox.entries.Keys);
    if Working(Exec(handlers, w, actions).runs[rid].pc) { assert Owner(Exec(handlers, w, actions), rid); }
  }

  /** Two handlers never run at once for one message. */
  lemma OneHandlerPerKey(handlers: map<HandlerKey, Handler>, w: World, actions: seq<Action>, a: nat, b: nat)
    requires Initial(w) && a != b
    requires var v := Exec(handlers, w, actions);
             && a in v.runs && b in v.runs && v.runs[a].pc.AtHandle? && v.runs[b].pc.AtHandle?
    ensures KeyOf(Exec(handlers, w, actions).runs[a]) != KeyOf(Exec(handlers, w, actions).runs[b])
  {
    InitialInv(w);
    ExecKeepsInv(handlers, w, actions, w.inbox.entries.Keys);
  }

  /** Once no dispatch is working, every message is absent or completed. */
  lemma QuietMeansSettled(handlers: map<HandlerKey, Handler>, w: World, actions: seq<Action>, k: Key)
    requires Initial(w) && k in Exec(handlers, w, actions).inbox.entries
    requires forall rid: nat :: rid in Exec(handlers, w, actions).runs ==>
        !Working(Exec(handlers, w, actions).runs[rid].pc)
    ensures Exec(handlers, w, actions).inbox.entries[k].completed
  {
    InitialInv(w);
    ExecKeepsInv(handlers, w, actions, w.inbox.entries.Keys);
    assert Owned(Exec(handlers, w, actions), k);
  }

  /** Handled is reported at most once per message, never for one completed before, and a message
      is completed in the end exactly when it was to begin with or some dispatch handled it. */
  lemma HandledExactlyOnce(handlers: map<HandlerKey, Handler>, w: World, actions: seq<Action>, k: Key)
    requires Initial(w)
    ensures var v := Exec(handlers, w, actions);
            && (forall a: nat, b: nat :: HandledBy(v, a, k) && HandledBy(v, b, k) ==> a == b)
            && (k in w.inbox.entries ==> forall a: nat :: !HandledBy(v, a, k))
            && (k in v.inbox.entries && v.inbox.entries[k].completed <==>
                  k in w.inbox.entries || exists a: nat :: HandledBy(v, a, k))
  {
    InitialInv(w);
    ExecKeepsInv(handlers, w, actions, w.inbox.entries.Keys);
  }

  // ----- only well-formed messages with a handler reach the inbox -----

  /** The checks of a message, and a handler registered for its kind and version. */
  predicate Routable(handlers: map<HandlerKey, Handler>, envelope: Envelope) {
    envelope.Valid() && HandlerKey(envelope.kind, envelope.version) in handlers
  }

  /** What a report says of the message: one that is refused for itself was not handled, is no duplicate
      and is not to be sent again; anything else says that it is well formed and has a handler. */
  ghost predicate ReportMeans(handlers: map<HandlerKey, Handler>, envelope: Envelope, o: Outcome) {
    && (o.error == Some(InvalidEnvelope) <==> !envelope.Valid())
    && (o.error == Some(UnknownHandler) <==>
          envelope.Valid() && HandlerKey(envelope.kind, envelope.version) !in handlers)
    && (o.error == Some(InvalidEnvelope) || o.error == Some(UnknownHandler) ==>
          !o.handled && !o.duplicate && !o.requeue)
    && (o.handled || o.duplicate ==> o.error.None? && !o.requeue && o.handled != o.duplicate)
    && (o.error.None? ==> o.handled || o.duplicate)
    && (o.error == Some(InboxFailed(ContextDone)) ==> !o.requeue)
    && (o.error == Some(InboxFailed(InProgress)) ==> o.requeue)
    && (o.error.Some? && o.error.value.HandlerFailed? ==> o.requeue)
  }

  ghost predicate Routed(handlers: map<HandlerKey, Handler>, w: World) {
    forall rid: nat :: rid in w.runs ==>
      && (w.runs[rid].pc.AtBegin? || Working(w.runs[rid].pc) ==> Routable(handlers, w.runs[rid].envelope))
      && (w.runs[rid].pc.Returned? ==> ReportMeans(handlers, w.runs[rid].envelope, w.runs[rid].pc.outcome))
  }

  lemma StepRouted(handlers: map<HandlerKey, Handler>, s: State, d: Dispatch, failed: bool)
    requires d.pc.AtBegin? || Working(d.pc) ==> Routable(handlers, d.envelope)
    requires d.pc.Returned? ==> ReportMeans(handlers, d.envelope, d.pc.outcome)
    ensures var e := Step(handlers, s, d, failed).1;
            && e.envelope == d.envelope && e.cancelled == d.cancelled
            && (e.pc.AtBegin? || Working(e.pc) ==> Routable(handlers, d.envelope))
            && (e.pc.Returned? ==> ReportMeans(handlers, d.envelope, e.pc.outcome))
  {
    hide ValidTenantId, IsTrimmed, Envelope.Valid;
  }

  lemma {:induction false} ExecRouted(handlers: map<HandlerKey, Handler>, w: World, actions: seq<Action>)
    requires Routed(handlers, w)
    ensures Routed(handlers, Exec(handlers, w, actions))
    decreases |actions|
  {
    hide Step, Routable, ReportMeans;
    if actions != [] {
      if actions[0].Move? && actions[0].rid in w.runs {
        StepRouted(handlers, w.inbox, w.runs[actions[0].rid], actions[0].failed);
      }
      ExecRouted(handlers, Next(handlers, w, actions[0]), actions[1..]);
    }
  }

  /** In every reachable state, a dispatch that is at or beyond its claim is for a well-formed message
      that has a handler, and what each report says of its message is so. */
  lemma OnlyRoutableMessagesAreClaimed(
    handlers: map<HandlerKey, Handler>, w: World, actions: seq<Action>, rid: nat)
    requires Initial(w) && rid in Exec(handlers, w, actions).runs
    ensures var d := Exec(handlers, w, actions).runs[rid];
            && (d.pc.AtBegin? || Working(d.pc) || Handled(d) ==>
                  d.envelope.Valid() && HandlerKey(d.envelope.kind, d.envelope.version) in handlers)
            && (d.pc.Returned? ==> ReportMeans(handlers, d.envelope, d.pc.outcome))
  {
    hide ReportMeans, Exec, Envelope.Valid;
    ExecRouted(handlers, w, actions);
    assert Routed(handlers, Exec(handlers, w, actions));
    var d := Exec(handlers, w, actions).runs[rid];
    if Handled(d) { HandledIsRoutable(handlers, d.envelope, d.pc.outcome); }
  }

  lemma HandledIsRoutable(handlers: map<HandlerKey, Handler>, envelope: Envelope, o: Outcome)
    requires ReportMeans(handlers, envelope, o) && o.handled
    ensures Routable(handlers, envelope)
  {
  }

  predicate Touches(w: World, a: Action, tenant: TenantId) {
    match a
    case Spawn(_, envelope) => envelope.tenant == tenant
    case Cancel(rid) => rid in w.runs && w.runs[rid].envelope.tenant == tenant
    case Move(rid, _) => rid in w.runs && w.runs[rid].envelope.tenant == tenant
  }

  /** The entries of one tenant. */
  function EntriesOf(s: State, tenant: TenantId): map<Key, Entry> {
    map k | k in s.entries && k.tenant == tenant :: s.entries[k]
  }

  lemma StepIsIsolated(handlers: map<HandlerKey, Handler>, w: World, a: Action, was: set<Key>, tenant: TenantId)
    requires Inv(w, was) && !Touches(w, a, tenant)
    ensures EntriesOf(Next(handlers, w, a).inbox, tenant) == EntriesOf(w.inbox, tenant)
  {
    hide Inv;
    if a.Move? && a.rid in w.runs && !w.runs[a.rid].pc.Returned? {
      MoveEffect(handlers, w, a.rid, a.failed, was);
    }
  }

  /** No action of the run is for a message of this tenant. */
  ghost predicate NeverTouches(handlers: map<HandlerKey, Handler>, w: World, actions: seq<Action>, tenant: TenantId)
    decreases |actions|
  {
    actions != [] ==>
      && !Touches(w, actions[0], tenant)
      && NeverTouches(handlers, Next(handlers, w, actions[0]), actions[1..], tenant)
  }

  lemma {:induction false} RunIsIsolated(
    handlers: map<HandlerKey, Handler>, w: World, actions: seq<Action>, was: set<Key>, tenant: TenantId)
    requires Inv(w, was) && NeverTouches(handlers, w, actions, tenant)
    ensures EntriesOf(Exec(handlers, w, actions).inbox, tenant) == EntriesOf(w.inbox, tenant)
    decreases |actions|
  {
    hide Inv, Next, Touches, EntriesOf;
    if actions != [] {
      NextKeepsInv(handlers, w, actions[0], was);
      StepIsIsolated(handlers, w, actions[0], was, tenant);
      RunIsIsolated(handlers, Next(handlers, w, actions[0]), actions[1..], was, tenant);
    }
  }

  /** From any reachable state, whatever other tenants' messages do for however long, this tenant's
      entries stay as they are. */
  lemma TenantsAreIsolated(
    handlers: map<HandlerKey, Handler>, w: World, before: seq<Action>, actions: seq<Action>, tenant: TenantId)
    requires Initial(w) && NeverTouches(handlers, Exec(handlers, w, before), actions, tenant)
    ensures var v := Exec(handlers, w, before);
            EntriesOf(Exec(handlers, v, actions).inbox, tenant) == EntriesOf(v.inbox, tenant)
  {
    InitialInv(w);
    ExecKeepsInv(handlers, w, before, w.inbox.entries.Keys);
    RunIsIsolated(handlers, Exec(handlers, w, before), actions, w.inbox.entries.Keys, tenant);
  }

  // ----- the dispatcher itself -----

  /** A call that somebody else makes on the inbox, with any claim at all. */
  datatype OtherCall =
    | OtherBegin(cancelled: bool, tenant: TenantId, message: string)
    | OtherComplete(cancelled: bool, claim: Claim)
    | OtherRelease(cancelled: bool, claim: Claim)

  function Overtaken(s: State, others: seq<OtherCall>): State {
    if others == [] then s
    else
      var before := Overtaken(s, others[..|others| - 1]);
      match others[|others| - 1]
      case OtherBegin(cancelled, tenant, message) => Begin(before, cancelled, tenant, message).0
      case OtherComplete(cancelled, claim) => Complete(before, cancelled, claim).0
      case OtherRelease(cancelled, claim) => Release(before, cancelled, claim).0
  }

  function StepsLeft(pc: Pc): nat {
    match pc
    case AtCheck => 4
    case AtBegin => 3
    case AtHandle(_) => 2
    case AtComplete(_) => 1
    case AtRelease(_) => 1
    case Returned(_) => 0
  }

  /** Stepping one dispatch to its end while `others` reach the inbox during its handler. */
  function Finish(
    handlers: map<HandlerKey, Handler>, s: State, d: Dispatch, failed: bool, others: seq<OtherCall>): (State, Outcome)
    decreases StepsLeft(d.pc)
  {
    if d.pc.Returned? then (s, d.pc.outcome)
    else
      var (s', d') := Step(handlers, if d.pc.AtHandle? then Overtaken(s, others) else s, d, failed);
      Finish(handlers, s', d', failed, others)
  }

  lemma FinishStep(
    handlers: map<HandlerKey, Handler>, s: State, t: State, d: Dispatch, failed: bool, others: seq<OtherCall>)
    returns (e: Dispatch)
    requires !d.pc.Returned? && t == Step(handlers, if d.pc.AtHandle? then Overtaken(s, others) else s, d, failed).0
    ensures e == Step(handlers, if d.pc.AtHandle? then Overtaken(s, others) else s, d, failed).1
    ensures Finish(handlers, s, d, failed, others) == Finish(handlers, t, e, failed, others)
    ensures e.pc.Returned? ==> Finish(handlers, t, e, failed, others) == (t, e.pc.outcome)
  {
    e := Step(handlers, if d.pc.AtHandle? then Overtaken(s, others) else s, d, failed).1;
  }

  class JobDispatcher {
    const inbox: MemoryInbox
    const handlers: map<HandlerKey, Handler>

    constructor (inbox: MemoryInbox, handlers: map<HandlerKey, Handler>)
      ensures this.inbox == inbox && this.handlers == handlers
    {
      this.inbox, this.handlers := inbox, handlers;
    }

    /** The handler's run: its verdict is a parameter, and so is what happens to the inbox meanwhile. */
    method Handle(failed: bool, others: seq<OtherCall>) returns (error: bool)
      modifies inbox
      ensures inbox.Contents() == Overtaken(old(inbox.Contents()), others) && error == failed
    {
      for k := 0 to |others|
        invariant inbox.Contents() == Overtaken(old(inbox.Contents()), others[..k])
      {
        assert others[..k + 1][..k] == others[..k];
        match others[k]
        case OtherBegin(cancelled, tenant, message) => var _ := inbox.BeginMessage(cancelled, tenant, message);
        case OtherComplete(cancelled, claim) => var _ := inbox.CompleteClaim(cancelled, claim);
        case OtherRelease(cancelled, claim) => var _ := inbox.ReleaseClaim(cancelled, claim);
      }
      assert others[..|others|] == others;
      return failed;
    }

    method DispatchEnvelope(cancelled: bool, envelope: Envelope, failed: bool, others: seq<OtherCall>)
      returns (outcome: Outcome)
      modifies inbox
      ensures (inbox.Contents(), outcome)
           == Finish(handlers, old(inbox.Contents()), Dispatch(envelope, cancelled, AtCheck), failed, others)
      ensures !envelope.Valid() ==>
                outcome == Outcome(false, false, false, Some(InvalidEnvelope))
                && inbox.Contents() == old(inbox.Contents())
      ensures envelope.Valid() && HandlerKey(envelope.kind, envelope.version) !in handlers ==>
                outcome == Outcome(false, false, false, Some(UnknownHandler))
                && inbox.Contents() == old(inbox.Contents())
    {
      hide Begin, Complete, Release, Overtaken, ValidTenantId, IsTrimmed, Finish;
      ghost var d := Dispatch(envelope, cancelled, AtCheck);
      ghost var s := inbox.Contents();
      d := FinishStep(handlers, s, s, d, failed, others);
      if !envelope.Valid() { return Outcome(false, false, false, Some(InvalidEnvelope)); }
      if HandlerKey(envelope.kind, envelope.version) !in handlers {
        return Outcome(false, false, false, Some(UnknownHandler));
      }
      var begun := inbox.BeginMessage(cancelled, envelope.tenant, envelope.id);
      d := FinishStep(handlers, s, inbox.Contents(), d, failed, others);
      if begun.Err? { return Outcome(false, false, begun.error == InProgress, Some(InboxFailed(begun.error))); }
      var claim := begun.value;
      if claim.MemoryClaim? && claim.duplicate { return Outcome(false, true, false, None); }
      s := inbox.Contents();
      var error := Handle(failed, others);
      d := FinishStep(handlers, s, inbox.Contents(), d, failed, others);
      s := inbox.Contents();
      if error {
        var releaseError := inbox.ReleaseClaim(false, claim);
        d := FinishStep(handlers, s, inbox.Contents(), d, failed, others);
        return Outcome(false, false, true, Some(HandlerFailed(releaseError)));
      }
      var completeError := inbox.CompleteClaim(false, claim);
      d := FinishStep(handlers, s, inbox.Contents(), d, failed, others);
      if completeError.Some? { return Outcome(false, false, true, Some(InboxFailed(completeError.value))); }
      return Outcome(true, false, false, None);
    }
  }

  function Moves(rid: nat, failed: bool, n: nat): seq<Action> {
    if n == 0 then [] else [Move(rid, failed)] + Moves(rid, failed, n - 1)
  }

  lemma StepGoesOn(handlers: map<HandlerKey, Handler>, s: State, d: Dispatch, failed: bool)
    ensures var (s', d') := Step(handlers, s, d, failed);
            && d' == d.(pc := d'.pc)
            && (if d.pc.Returned? then (s', d') == (s, d) else StepsLeft(d'.pc) < StepsLeft(d.pc))
  {
    hide Begin, Complete, Release, ValidTenantId, IsTrimmed;
  }

  lemma {:induction false} MovesFinish(handlers: map<HandlerKey, Handler>, w: World, rid: nat, failed: bool, n: nat)
    requires rid in w.runs && StepsLeft(w.runs[rid].pc) <= n
    ensures var (s, outcome) := Finish(handlers, w.inbox, w.runs[rid], failed, []);
            Exec(handlers, w, Moves(rid, failed, n)) == World(s, w.runs[rid := w.runs[rid].(pc := Returned(outcome))])
    decreases n
  {
    hide Step;
    StepGoesOn(handlers, w.inbox, w.runs[rid], failed);
    if n == 0 {
      assert w.runs == w.runs[rid := w.runs[rid]];
    } else {
      var v := Next(handlers, w, Move(rid, failed));
      MovesFinish(handlers, v, rid, failed, n - 1);
      assert Moves(rid, failed, n)[1..] == Moves(rid, failed, n - 1);
      assert v.runs[rid := v.runs[rid].(pc := Returned(Finish(handlers, v.inbox, v.runs[rid], failed, []).1))]
          == w.runs[rid := w.runs[rid].(pc := Returned(Finish(handlers, v.inbox, v.runs[rid], failed, []).1))];
    }
  }

  /** Alone on the inbox, a dispatch is four moves of the machine above. */
  lemma DispatchIsExec(handlers: map<HandlerKey, Handler>, w: World, rid: nat, envelope: Envelope, failed: bool)
    requires rid !in w.runs
    ensures var (s, outcome) := Finish(handlers, w.inbox, Dispatch(envelope, false, AtCheck), failed, []);
            var v := Exec(handlers, w, [Spawn(rid, envelope)] + Moves(rid, failed, 4));
            && v.inbox == s && v.runs == w.runs[rid := Dispatch(envelope, false, Returned(outcome))]
  {
    hide Step, Finish;
    var v := Next(handlers, w, Spawn(rid, envelope));
    MovesFinish(handlers, v, rid, failed, 4);
    assert ([Spawn(rid, envelope)] + Moves(rid, failed, 4))[1..] == Moves(rid, failed, 4);
  }

  // ----- a dispatch among others is a run of the machine -----

  /** The calls on the inbox that the dispatches of the machine make in a run of actions. */
  function CallsOf(handlers: map<HandlerKey, Handler>, w: World, actions: seq<Action>): seq<OtherCall> {
    if actions == [] then []
    else
      var front := actions[..|actions| - 1];
      CallsOf(handlers, w, front) + CallOf(Ran(handlers, w, front), actions[|actions| - 1])
  }

  function CallOf(w: World, a: Action): seq<OtherCall> {
    if !a.Move? || a.rid !in w.runs then []
    else
      var d := w.runs[a.rid];
      match d.pc
      case AtBegin => [OtherBegin(d.cancelled, d.envelope.tenant, d.envelope.id)]
      case AtComplete(claim) => [OtherComplete(false, claim)]
      case AtRelease(claim) => [OtherRelease(false, claim)]
      case _ => []
  }

  /** The world after some actions, last one last. */
  function Ran(handlers: map<HandlerKey, Handler>, w: World, actions: seq<Action>): World {
    if actions == [] then w else Next(handlers, Ran(handlers, w, actions[..|actions| - 1]), actions[|actions| - 1])
  }

  lemma {:induction false} ExecConcat(
    handlers: map<HandlerKey, Handler>, w: World, early: seq<Action>, late: seq<Action>)
    ensures Exec(handlers, w, early + late) == Exec(handlers, Exec(handlers, w, early), late)
    decreases |early|
  {
    hide Next;
    if early == [] {
      assert early + late == late;
    } else {
      assert (early + late)[1..] == early[1..] + late;
      ExecConcat(handlers, Next(handlers, w, early[0]), early[1..], late);
    }
  }

  lemma {:induction false} RanIsExec(handlers: map<HandlerKey, Handler>, w: World, actions: seq<Action>)
    ensures Ran(handlers, w, actions) == Exec(handlers, w, actions)
  {
    hide Next;
    if actions != [] {
      var front, last := actions[..|actions| - 1], actions[|actions| - 1];
      RanIsExec(handlers, w, front);
      ExecConcat(handlers, w, front, [last]);
      assert actions == front + [last] && [last][1..] == [];
      assert Exec(handlers, Next(handlers, Exec(handlers, w, front), last), [])
          == Next(handlers, Exec(handlers, w, front), last);
    }
  }

  lemma OneCallIsMade(handlers: map<HandlerKey, Handler>, w: World, a: Action, calls: seq<OtherCall>, s: State)
    requires w.inbox == Overtaken(s, calls)
    ensures Next(handlers, w, a).inbox == Overtaken(s, calls + CallOf(w, a))
  {
    hide Begin, Complete, Release, ValidTenantId, IsTrimmed;
    if CallOf(w, a) == [] {
      assert calls + CallOf(w, a) == calls;
    } else {
      assert (calls + CallOf(w, a))[..|calls|] == calls;
    }
  }

  /** What a run of actions does to the inbox is what its calls do. */
  lemma {:induction false} CallsAreMade(handlers: map<HandlerKey, Handler>, w: World, actions: seq<Action>)
    ensures Ran(handlers, w, actions).inbox == Overtaken(w.inbox, CallsOf(handlers, w, actions))
  {
    hide Next, CallOf;
    if actions != [] {
      var front, last := actions[..|actions| - 1], actions[|actions| - 1];
      CallsAreMade(handlers, w, front);
      OneCallIsMade(handlers, Ran(handlers, w, front), last, CallsOf(handlers, w, front), w.inbox);
    }
  }

  /** Anything but a step of this dispatch. */
  predicate OfOthers(rid: nat, actions: seq<Action>) {
    forall k :: 0 <= k < |actions| ==> !(actions[k].Move? && actions[k].rid == rid)
  }

  lemma {:induction false} OthersLeaveItThere(
    handlers: map<HandlerKey, Handler>, w: World, rid: nat, actions: seq<Action>)
    requires rid in w.runs && OfOthers(rid, actions)
    ensures var v := Ran(handlers, w, actions);
            rid in v.runs && v.runs[rid] == w.runs[rid].(cancelled := v.runs[rid].cancelled)
  {
    hide Step;
    if actions != [] {
      var front := actions[..|actions| - 1];
      OthersLeaveItThere(handlers, w, rid, front);
      assert !(actions[|actions| - 1].Move? && actions[|actions| - 1].rid == rid);
    }
  }

  /** Cancellation no longer matters to a dispatch that has its claim. */
  lemma LateCancel(
    handlers: map<HandlerKey, Handler>, s: State, d: Dispatch, failed: bool, others: seq<OtherCall>, cancelled: bool)
    requires d.pc.AtComplete? || d.pc.AtRelease?
    ensures Finish(handlers, s, d, failed, others) == Finish(handlers, s, d.(cancelled := cancelled), failed, others)
  {
    hide Complete, Release;
    var e := FinishStep(handlers, s, Step(handlers, s, d, failed).0, d, failed, others);
    var f := FinishStep(handlers, s, Step(handlers, s, d, failed).0, d.(cancelled := cancelled), failed, others);
  }

  /** Two steps end a dispatch whose handler runs. */
  lemma HandledInTwo(
    handlers: map<HandlerKey, Handler>, w: World, rid: nat, failed: bool, s: State, d: Dispatch, others: seq<OtherCall>)
    requires rid in w.runs && d.pc.AtHandle? && w.runs[rid] == d.(cancelled := w.runs[rid].cancelled)
    requires w.inbox == Overtaken(s, others)
    ensures var v := Next(handlers, Next(handlers, w, Move(rid, failed)), Move(rid, failed));
            && v.inbox == Finish(handlers, s, d, failed, others).0
            && v.runs == w.runs[rid := w.runs[rid].(pc := Returned(Finish(handlers, s, d, failed, others).1))]
  {
    hide Complete, Release, Begin, Overtaken, ValidTenantId, IsTrimmed, Finish;
    var e := FinishStep(handlers, s, w.inbox, d, failed, others);
    LateCancel(handlers, w.inbox, e, failed, others, w.runs[rid].cancelled);
    var u := Next(handlers, w, Move(rid, failed));
    var f := FinishStep(handlers, u.inbox, Step(handlers, u.inbox, u.runs[rid], failed).0, u.runs[rid], failed, others);
  }

  /** Two moves take a dispatch to its handler or to its end. */
  lemma BegunInTwo(handlers: map<HandlerKey, Handler>, w: World, rid: nat, failed: bool, others: seq<OtherCall>)
    requires rid in w.runs && w.runs[rid].pc.AtCheck?
    ensures var v := Next(handlers, Next(handlers, w, Move(rid, failed)), Move(rid, failed));
            && rid in v.runs && (v.runs[rid].pc.AtHandle? || v.runs[rid].pc.Returned?)
            && v.runs == w.runs[rid := w.runs[rid].(pc := v.runs[rid].pc)]
            && Finish(handlers, w.inbox, w.runs[rid], failed, others)
                == Finish(handlers, v.inbox, v.runs[rid], failed, others)
  {
    hide Complete, Release, Begin, Overtaken, ValidTenantId, IsTrimmed, Finish;
    var u := Next(handlers, w, Move(rid, failed));
    var e := FinishStep(handlers, w.inbox, u.inbox, w.runs[rid], failed, others);
    assert u.runs[rid] == e;
    if !e.pc.Returned? {
      var v := Next(handlers, u, Move(rid, failed));
      var f := FinishStep(handlers, u.inbox, v.inbox, e, failed, others);
      assert v.runs[rid] == f;
    }
  }

  lemma ReturnedStays(handlers: map<HandlerKey, Handler>, w: World, rid: nat, failed: bool)
    requires rid in w.runs && w.runs[rid].pc.Returned?
    ensures Next(handlers, w, Move(rid, failed)) == w
  {
    assert w.runs[rid := w.runs[rid]] == w.runs;
  }

  /** What happens to the inbox while a handler runs: nothing, if there is no handler. */
  function Meanwhile(w: World, rid: nat, others: seq<Action>): seq<Action> {
    if rid in w.runs && w.runs[rid].pc.AtHandle? then others else []
  }

  lemma TwoMoves(handlers: map<HandlerKey, Handler>, w: World, rid: nat, failed: bool)
    ensures Exec(handlers, w, [Move(rid, failed), Move(rid, failed)])
         == Next(handlers, Next(handlers, w, Move(rid, failed)), Move(rid, failed))
  {
    hide Next;
    var m := Move(rid, failed);
    assert [m, m][1..] == [m] && [m][1..] == [];
    var v := Next(handlers, Next(handlers, w, m), m);
    assert Exec(handlers, v, []) == v;
    assert Exec(handlers, Next(handlers, w, m), [m]) == v;
  }

  /** A dispatch, cancelled or not, whose handler runs while any other dispatches take any steps, ends
      as the machine does: two moves, those steps, two moves. */
  lemma DispatchAmongOthersIsExec(
    handlers: map<HandlerKey, Handler>, w: World, rid: nat, failed: bool, others: seq<Action>)
    requires rid in w.runs && w.runs[rid].pc.AtCheck? && OfOthers(rid, others)
    ensures var moves := [Move(rid, failed), Move(rid, failed)];
            var begun := Exec(handlers, w, moves);
            var during := Meanwhile(begun, rid, others);
            var (s, outcome) := Finish(handlers, w.inbox, w.runs[rid], failed, CallsOf(handlers, begun, others));
            var v := Exec(handlers, w, moves + during + moves);
            && v.inbox == s && rid in v.runs && v.runs[rid].pc == Returned(outcome)
            && v.runs - {rid} == Exec(handlers, begun, during).runs - {rid}
  {
    hide Finish, Next, Overtaken, CallsOf, OfOthers, Exec;
    var moves := [Move(rid, failed), Move(rid, failed)];
    TwoMoves(handlers, w, rid, failed);
    var begun := Exec(handlers, w, moves);
    var during := Meanwhile(begun, rid, others);
    var calls := CallsOf(handlers, begun, others);
    BegunInTwo(handlers, w, rid, failed, calls);
    ExecConcat(handlers, w, moves + during, moves);
    ExecConcat(handlers, w, moves, during);
    var u := Exec(handlers, begun, during);
    RanIsExec(handlers, begun, during);
    TwoMoves(handlers, u, rid, failed);
    if begun.runs[rid].pc.AtHandle? {
      CallsAreMade(handlers, begun, others);
      OthersLeaveItThere(handlers, begun, rid, others);
      HandledInTwo(handlers, u, rid, failed, begun.inbox, begun.runs[rid], calls);
    } else {
      NothingMeanwhile(handlers, begun, rid, failed, calls);
    }
  }

  lemma NothingMeanwhile(handlers: map<HandlerKey, Handler>, w: World, rid: nat, failed: bool, others: seq<OtherCall>)
    requires rid in w.runs && w.runs[rid].pc.Returned?
    ensures Exec(handlers, w, []) == w && Next(handlers, Next(handlers, w, Move(rid, failed)), Move(rid, failed)) == w
    ensures Finish(handlers, w.inbox, w.runs[rid], failed, others) == (w.inbox, w.runs[rid].pc.outcome)
  {
    ReturnedStays(handlers, w, rid, failed);
  }

  /** Whatever the inbox holds, whatever others do and whether or not it was cancelled, a message that is
      not well formed or has no handler leaves the inbox as it was, and so does one cancelled before it is
      claimed; each is answered by its own error, and by nothing else. */
  lemma RefusedDispatchTouchesNothing(
    handlers: map<HandlerKey, Handler>, s: State, envelope: Envelope, cancelled: bool, failed: bool,
    others: seq<OtherCall>)
    ensures var registered := HandlerKey(envelope.kind, envelope.version) in handlers;
            var (t, outcome) := Finish(handlers, s, Dispatch(envelope, cancelled, AtCheck), failed, others);
            && (!envelope.Valid() ==> t == s && outcome == Outcome(false, false, false, Some(InvalidEnvelope)))
            && (envelope.Valid() && !registered ==>
                  t == s && outcome == Outcome(false, false, false, Some(UnknownHandler)))
            && (envelope.Valid() && registered && cancelled ==>
                  t == s && outcome == Outcome(false, false, false, Some(InboxFailed(ContextDone))))
  {
    hide Envelope.Valid, Overtaken;
    var d := Dispatch(envelope, cancelled, AtCheck);
    var e := FinishStep(handlers, s, s, d, failed, others);
    if e.pc.AtBegin? && cancelled { var _ := FinishStep(handlers, s, s, e, failed, others); }
  }

  /** What a dispatch of a new message reports when others reach the inbox while its handler runs: handled
      and completed, or taken back and to be sent again, while its claim is still the current one; and if
      they took the claim away, to be sent again, with the inbox as they left it. */
  lemma DisturbedDispatch(
    handlers: map<HandlerKey, Handler>, s: State, envelope: Envelope, failed: bool, others: seq<OtherCall>)
    requires envelope.Valid() && HandlerKey(envelope.kind, envelope.version) in handlers
    requires Key(envelope.tenant, envelope.id) !in s.entries
    ensures var key := Key(envelope.tenant, envelope.id);
            var claimed := State(s.next + 1, s.entries[key := Entry(s.next + 1, false)]);
            var u := Overtaken(claimed, others);
            var (t, outcome) := Finish(handlers, s, Dispatch(envelope, false, AtCheck), failed, others);
            if key in u.entries && u.entries[key] == Entry(s.next + 1, false) then
              if failed then
                && t == State(u.next, u.entries - {key})
                && outcome == Outcome(false, false, true, Some(HandlerFailed(None)))
              else
                && t == State(u.next, u.entries[key := Entry(s.next + 1, true)])
                && outcome == Outcome(true, false, false, None)
            else
              t == u
              && outcome == Outcome(false, false, true, Some(
                   if failed then HandlerFailed(Some(InvalidClaim)) else InboxFailed(InvalidClaim)))
  {
    hide Overtaken, ValidTenantId, IsTrimmed, Finish;
    var d := Dispatch(envelope, false, AtCheck);
    var key := Key(envelope.tenant, envelope.id);
    var claimed := State(s.next + 1, s.entries[key := Entry(s.next + 1, false)]);
    var u := Overtaken(claimed, others);
    d := FinishStep(handlers, s, s, d, failed, others);
    d := FinishStep(handlers, s, claimed, d, failed, others);
    d := FinishStep(handlers, claimed, u, d, failed, others);
    d := FinishStep(handlers, u, Step(handlers, u, d, failed).0, d, failed, others);
  }

  /** What an undisturbed dispatch of a valid message reports: a new message is handled and completed,
      or taken back and requeued if its handler fails; a completed one is a duplicate; one in
      progress is requeued. */
  lemma UndisturbedDispatch(handlers: map<HandlerKey, Handler>, s: State, envelope: Envelope, failed: bool)
    requires envelope.Valid() && HandlerKey(envelope.kind, envelope.version) in handlers
    ensures var key := Key(envelope.tenant, envelope.id);
            var (t, outcome) := Finish(handlers, s, Dispatch(envelope, false, AtCheck), failed, []);
            if key !in s.entries then
              if failed then
                outcome == Outcome(false, false, true, Some(HandlerFailed(None))) && t == State(s.next + 1, s.entries)
              else
                && outcome == Outcome(true, false, false, None)
                && t == State(s.next + 1, s.entries[key := Entry(s.next + 1, true)])
            else if s.entries[key].completed then outcome == Outcome(false, true, false, None) && t == s
            else outcome == Outcome(false, false, true, Some(InboxFailed(InProgress))) && t == s
  {
    hide Finish, ValidTenantId, IsTrimmed;
    var d := Dispatch(envelope, false, AtCheck);
    var e := FinishStep(handlers, s, s, d, failed, []);
    var u := Step(handlers, s, e, failed).0;
    e := FinishStep(handlers, s, u, e, failed, []);
    if !e.pc.Returned? {
      assert e.pc.AtHandle? && Overtaken(u, []) == u;
      assert u.entries == s.entries[e.pc.claim.key := Entry(s.next + 1, false)];
      e := FinishStep(handlers, u, u, e, failed, []);
      var t := Step(handlers, u, e, failed).0;
      assert failed ==> t.entries == s.entries;
      e := FinishStep(handlers, u, t, e, failed, []);
    }
  }
}
