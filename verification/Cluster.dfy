/** An API server that others change between any two calls, and that may fail any call. */
module Cluster {
  import opened Basics
  import opened StorageGate

  datatype Kind =
    | Namespace | ResourceQuota | LimitRange | ConfigMap | PersistentVolumeClaim | Service | NetworkPolicy | Pod
    | StatefulSet | PodDisruptionBudget | StorageClass | PersistentVolume | Node | Issuer | Certificate

  datatype Id = Id(kind: Kind, name: string)

  /** A persisted object: `uid` tells one life of an identity from the next, `content` is the rest. */
  datatype Stored = Stored(uid: nat, version: nat, content: string)

  datatype Objects = Objects(stored: map<Id, Stored>, issued: nat)

  /** What somebody else does to an identity. */
  datatype Change = Put(id: Id, content: string) | Remove(id: Id)

  function Apply(o: Objects, change: Change): Objects {
    match change
    case Remove(id) => o.(stored := o.stored - {id})
    case Put(id, content) =>
      if id in o.stored then
        o.(stored := o.stored[id := Stored(o.stored[id].uid, o.stored[id].version + 1, content)])
      else Add(o, id, content)
  }

  function Add(o: Objects, id: Id, content: string): Objects {
    Objects(o.stored[id := Stored(o.issued + 1, 1, content)], o.issued + 1)
  }

  function Disturb(o: Objects, others: seq<Change>): Objects {
    if others == [] then o else Apply(Disturb(o, others[..|others| - 1]), others[|others| - 1])
  }

  /** `Refused` fails a call without effect; `Lost` loses the answer of a call that took effect. */
  datatype Fault = Healthy | Refused | Lost

  /** What happens around one call: changes by others first, then the call. `admit` is the server's
      defaulting and admission, `listing` how it lists the stored volumes. */
  datatype Turn = Turn(
    others: seq<Change>, fault: Fault, admit: (Id, string) -> Option<string>, listing: map<Id, Stored> -> seq<Volume>)

  datatype Reading = NotFound | ReadFailed | Present(stored: Stored)

  /** A call that persists nothing, and its answer. Dry runs and listings keep the turn they were made
      in; `base` is the version a dry-run update was sent for, `there` what a listing was made of. */
  datatype Answer =
    | Read(id: Id, reading: Reading)
    | DryRun(id: Id, sent: string, base: Option<nat>, at: nat, canonical: Option<string>)
    | Listed(at: nat, there: map<Id, Stored>, volumes: Option<seq<Volume>>)

  /** A request to create: how many answers came before it, what it changed, and the UID that was answered. */
  datatype Attempt = Attempt(id: Id, place: nat, answer: Option<nat>, before: Objects, after: Objects)

  function VolumesIn(o: Objects): map<Id, Stored> {
    map id | id in o.stored && id.kind.PersistentVolume? :: o.stored[id]
  }

  function Lookup(o: Objects, id: Id): Reading {
    if id in o.stored then Present(o.stored[id]) else NotFound
  }

  /** A request to create never touches what is there. */
  ghost predicate OnlyAdds(a: Attempt) {
    || (a.after == a.before && a.answer.None?)
    || (a.id !in a.before.stored && (exists content :: a.after == Add(a.before, a.id, content))
        && (a.answer.Some? ==> a.answer.value == a.after.issued))
  }

  /** A dry run and a listing were answered by a healthy turn, as that turn admits and lists. */
  ghost predicate Genuine(world: nat -> Turn, clock: nat, answer: Answer) {
    match answer
    case Read(_, _) => true
    case DryRun(id, sent, _, at, canonical) =>
      at < clock && (canonical.Some? ==> world(at).fault.Healthy? && canonical == world(at).admit(id, sent))
    case Listed(at, there, volumes) =>
      at < clock && (volumes.Some? ==> world(at).fault.Healthy? && volumes.value == world(at).listing(there))
  }

  ghost predicate Earlier(a: Answer, b: Answer) {
    a.Read? || b.Read? || a.at < b.at
  }

  /** Every answer is genuine, and they are listed in the order of their turns. */
  ghost predicate Honest(world: nat -> Turn, clock: nat, answers: seq<Answer>) {
    && (forall k {:trigger Genuine(world, clock, answers[k])} :: 0 <= k < |answers| ==>
        Genuine(world, clock, answers[k]))
    && (forall j, k {:trigger Earlier(answers[j], answers[k])} :: 0 <= j < k < |answers| ==>
        Earlier(answers[j], answers[k]))
  }

  lemma HonestGrows(world: nat -> Turn, clock: nat, answers: seq<Answer>, answer: Answer)
    requires Honest(world, clock, answers) && Genuine(world, clock + 1, answer) && (answer.Read? || answer.at == clock)
    ensures Honest(world, clock + 1, answers + [answer])
  {
    var longer := answers + [answer];
    forall k | 0 <= k < |longer| ensures Genuine(world, clock + 1, longer[k]) {
      if k < |answers| { assert Genuine(world, clock, answers[k]); }
    }
    forall j, k | 0 <= j < k < |longer| ensures Earlier(longer[j], longer[k]) {
      assert Genuine(world, clock, answers[j]);
      if k < |answers| { assert Earlier(answers[j], answers[k]); }
    }
  }

  lemma HonestLater(world: nat -> Turn, clock: nat, later: nat, answers: seq<Answer>)
    requires Honest(world, clock, answers) && clock <= later
    ensures Honest(world, later, answers)
  {
    forall k | 0 <= k < |answers| ensures Genuine(world, later, answers[k]) {
      assert Genuine(world, clock, answers[k]);
    }
  }

  class ApiServer {
    const world: nat -> Turn
    var clock: nat
    var objects: Objects
    // History: every call answered without effect and every creation requested, in order.
    ghost var answers: seq<Answer>
    ghost var attempts: seq<Attempt>

    ghost predicate Valid()
      reads this
    {
      && (forall a :: 0 <= a < |attempts| ==> OnlyAdds(attempts[a]))
      && (forall a :: 0 <= a < |attempts| ==> attempts[a].place <= |answers|)
      && Honest(world, clock, answers)
    }

    constructor (world: nat -> Turn, objects: Objects)
      ensures Valid() && this.world == world && this.objects == objects && clock == 0 && answers == [] && attempts == []
    {
      this.world, this.objects, clock := world, objects, 0;
      this.answers, attempts := [], [];
    }

    /** The objects a call sees: what others leave behind. */
    ghost function Seen(): Objects
      reads this
    {
      Disturb(objects, world(clock).others)
    }

    method Interfere() returns (turn: Turn)
      modifies this`clock, this`objects
      ensures turn == world(old(clock)) && clock == old(clock) + 1 && objects == old(Seen())
    {
      turn := world(clock);
      var next := objects;
      for k := 0 to |turn.others|
        invariant next == Disturb(objects, turn.others[..k])
      {
        assert turn.others[..k + 1][..k] == turn.others[..k];
        next := Apply(next, turn.others[k]);
      }
      assert turn.others[..|turn.others|] == turn.others;
      objects, clock := next, clock + 1;
    }

    /** Time passes between two runs of an operator. */
    method Elapse(others: seq<Change>)
      requires Valid()
      modifies this`objects
      ensures Valid() && objects == Disturb(old(objects), others)
    {
      objects := Disturb(objects, others);
    }

    method Get(id: Id) returns (reading: Reading)
      requires Valid()
      modifies this`clock, this`objects, this`answers
      ensures Valid() && clock == old(clock) + 1 && objects == old(Seen())
      ensures reading == if world(old(clock)).fault.Healthy? then Lookup(objects, id) else ReadFailed
      ensures answers == old(answers) + [Read(id, reading)]
    {
      var turn := Interfere();
      reading := if turn.fault.Healthy? then Lookup(objects, id) else ReadFailed;
      HonestGrows(world, old(clock), answers, Read(id, reading));
      answers := answers + [Read(id, reading)];
    }

    /** A dry run persists nothing. */
    method DryRunCreate(id: Id, desired: string) returns (canonical: Option<string>)
      requires Valid()
      modifies this`clock, this`objects, this`answers
      ensures Valid() && clock == old(clock) + 1 && objects == old(Seen())
      ensures canonical == if world(old(clock)).fault.Healthy? && id !in objects.stored
                           then world(old(clock)).admit(id, desired) else None
      ensures answers == old(answers) + [DryRun(id, desired, None, old(clock), canonical)]
    {
      var turn := Interfere();
      canonical := if turn.fault.Healthy? && id !in objects.stored then turn.admit(id, desired) else None;
      ghost var answer := DryRun(id, desired, None, old(clock), canonical);
      HonestGrows(world, old(clock), answers, answer);
      answers := answers + [answer];
    }

    method DryRunUpdate(id: Id, desired: string, version: nat) returns (canonical: Option<string>)
      requires Valid()
      modifies this`clock, this`objects, this`answers
      ensures Valid() && clock == old(clock) + 1 && objects == old(Seen())
      ensures canonical == if world(old(clock)).fault.Healthy? && id in objects.stored
              && objects.stored[id].version == version
                           then world(old(clock)).admit(id, desired) else None
      ensures answers == old(answers) + [DryRun(id, desired, Some(version), old(clock), canonical)]
    {
      var turn := Interfere();
      canonical := if turn.fault.Healthy? && id in objects.stored && objects.stored[id].version == version
                   then turn.admit(id, desired) else None;
      ghost var answer := DryRun(id, desired, Some(version), old(clock), canonical);
      HonestGrows(world, old(clock), answers, answer);
      answers := answers + [answer];
    }

    method Create(id: Id, desired: string) returns (created: Option<Stored>, exists': bool)
      requires Valid()
      modifies this`clock, this`objects, this`attempts
      ensures Valid() && clock == old(clock) + 1
      ensures var turn, seen, content := world(old(clock)), old(Seen()), world(old(clock)).admit(id, desired);
              && objects == (if turn.fault.Refused? || id in seen.stored || content.None? then seen
                             else Add(seen, id, content.value))
              && created == (if turn.fault.Healthy? && objects != seen then Some(objects.stored[id]) else None)
              && (exists' <==> turn.fault.Healthy? && id in seen.stored)
              && attempts == old(attempts) + [Attempt(id, |answers|, if created.Some? then Some(created.value.uid)
                                                      else None, seen, objects)]
    {
      var turn := Interfere();
      var content := turn.admit(id, desired);
      ghost var before := objects;
      exists' := turn.fault.Healthy? && id in objects.stored;
      created := None;
      if !turn.fault.Refused? && id !in objects.stored && content.Some? {
        objects := Add(objects, id, content.value);
        if turn.fault.Healthy? { created := Some(objects.stored[id]); }
      }
      HonestLater(world, old(clock), clock, answers);
      attempts := attempts + [Attempt(id, |answers|, if created.Some? then Some(created.value.uid)
                                      else None, before, objects)];
    }

    method ListVolumes() returns (volumes: Option<seq<Volume>>)
      requires Valid()
      modifies this`clock, this`objects, this`answers
      ensures Valid() && clock == old(clock) + 1 && objects == old(Seen())
      ensures volumes == if world(old(clock)).fault.Healthy? then Some(world(old(clock)).listing(VolumesIn(objects)))
              else None
      ensures answers == old(answers) + [Listed(old(clock), VolumesIn(objects), volumes)]
    {
      var turn := Interfere();
      volumes := if turn.fault.Healthy? then Some(turn.listing(VolumesIn(objects))) else None;
      ghost var answer := Listed(old(clock), VolumesIn(objects), volumes);
      HonestGrows(world, old(clock), answers, answer);
      answers := answers + [answer];
    }
  }

  // ----- reading the history -----

  ghost predicate Saw(answers: seq<Answer>, from: nat, to: nat, id: Id, reading: Reading) {
    exists k :: from <= k < to <= |answers| && answers[k] == Read(id, reading)
  }

  lemma SawKept(
    answers: seq<Answer>, later: seq<Answer>, from: nat, to: nat, from': nat, to': nat, id: Id, reading: Reading)
    requires answers <= later && from' <= from && to <= to' <= |later| && Saw(answers, from, to, id, reading)
    ensures Saw(later, from', to', id, reading)
  {
    var k :| from <= k < to <= |answers| && answers[k] == Read(id, reading);
    assert later[k] == answers[k];
  }

  lemma SawWithin(answers: seq<Answer>, from: nat, to: nat, id: Id, reading: Reading)
    requires Saw(answers, from, to, id, reading)
    ensures from < to <= |answers|
  {
  }

  function ReadingOf(existing: Option<Stored>): Reading {
    if existing.Some? then Present(existing.value) else NotFound
  }

  /** The identities of an inventory that are in a set, in inventory order. */
  function Those(ids: seq<Id>, chosen: set<Id>): seq<Id> {
    if ids == [] then []
    else
      var front := Those(ids[..|ids| - 1], chosen);
      if ids[|ids| - 1] in chosen then front + [ids[|ids| - 1]] else front
  }

  predicate Distinct(ids: seq<Id>) {
    forall i, j :: 0 <= i < j < |ids| ==> ids[i] != ids[j]
  }

  function Elements(ids: seq<Id>): set<Id> {
    set id | id in ids
  }

  lemma AddElement(ids: seq<Id>, id: Id)
    ensures Elements(ids + [id]) == Elements(ids) + {id}
  {
  }

  lemma {:induction false} ThoseAgree(ids: seq<Id>, a: set<Id>, b: set<Id>)
    requires forall id :: id in ids ==> (id in a <==> id in b)
    ensures Those(ids, a) == Those(ids, b)
  {
    if ids != [] { ThoseAgree(ids[..|ids| - 1], a, b); }
  }

  lemma {:induction false} NoneChosen(ids: seq<Id>)
    ensures Those(ids, {}) == []
  {
    if ids != [] { NoneChosen(ids[..|ids| - 1]); }
  }

  /** Adding the next identity of the inventory to a chosen set appends it. */
  lemma ThoseGrow(ids: seq<Id>, i: nat, chosen: set<Id>)
    requires Distinct(ids) && i < |ids| && chosen <= Elements(ids[..i])
    ensures Those(ids[..i + 1], chosen + {ids[i]}) == Those(ids[..i], chosen) + [ids[i]]
    ensures Those(ids[..i + 1], chosen) == Those(ids[..i], chosen)
  {
    assert ids[..i + 1][..i] == ids[..i];
    ThoseAgree(ids[..i], chosen, chosen + {ids[i]});
  }

  lemma {:induction false} ThoseRest(ids: seq<Id>, i: nat, chosen: set<Id>)
    requires Distinct(ids) && i <= |ids| && chosen <= Elements(ids[..i])
    ensures Those(ids, chosen) == Those(ids[..i], chosen)
    decreases |ids| - i
  {
    if i < |ids| {
      ThoseGrow(ids, i, chosen);
      assert Elements(ids[..i]) <= Elements(ids[..i + 1]);
      ThoseRest(ids, i + 1, chosen);
    } else {
      assert ids[..i] == ids;
    }
  }

  lemma {:induction false} ThoseElements(ids: seq<Id>, chosen: set<Id>)
    ensures Elements(Those(ids, chosen)) == Elements(ids) * chosen
  {
    if ids != [] {
      var front, last := ids[..|ids| - 1], ids[|ids| - 1];
      ThoseElements(front, chosen);
      assert ids == front + [last];
      assert Elements(front + [last]) == Elements(front) + {last};
      assert Elements(Those(front, chosen) + [last]) == Elements(Those(front, chosen)) + {last};
    }
  }

  /** A list that names members of the inventory once each, in inventory order. */
  ghost predicate InOrder(list: seq<Id>, ids: seq<Id>) {
    list == Those(ids, Elements(list))
  }

  lemma ThoseAreInOrder(ids: seq<Id>, i: nat, chosen: set<Id>)
    requires Distinct(ids) && i <= |ids|
    ensures InOrder(Those(ids[..i], chosen), ids)
  {
    var list := Those(ids[..i], chosen);
    ThoseElements(ids[..i], chosen);
    ThoseRest(ids, i, Elements(list));
    ThoseAgree(ids[..i], chosen, Elements(list));
  }

  /** Every beginning of such a list is in order too. */
  lemma {:induction false} PrefixInOrder(ids: seq<Id>, chosen: set<Id>, k: nat)
    requires Distinct(ids) && k <= |Those(ids, chosen)|
    ensures InOrder(Those(ids, chosen)[..k], ids)
  {
    var list := Those(ids, chosen);
    if k == |list| {
      assert list[..k] == list && ids[..|ids|] == ids;
      ThoseAreInOrder(ids, |ids|, chosen);
    } else {
      var front, last := ids[..|ids| - 1], ids[|ids| - 1];
      assert list[..k] == Those(front, chosen)[..k];
      PrefixInOrder(front, chosen, k);
      ThoseElements(front, chosen);
      assert last !in front;
      assert forall id :: id in list[..k] ==> id in Those(front, chosen);
      assert last !in Elements(list[..k]) by {
        assert forall id :: id in Those(front, chosen) ==> id in Elements(Those(front, chosen));
        assert last !in Elements(front);
      }
    }
  }

  lemma {:induction false} ThoseDistinct(ids: seq<Id>, chosen: set<Id>)
    requires Distinct(ids)
    ensures Distinct(Those(ids, chosen))
  {
    if ids != [] {
      var front, last := ids[..|ids| - 1], ids[|ids| - 1];
      ThoseDistinct(front, chosen);
      ThoseElements(front, chosen);
      var list := Those(front, chosen);
      assert last !in Elements(front);
      forall i | 0 <= i < |list| ensures list[i] != last {
        assert list[i] in Elements(list);
      }
    }
  }

  lemma {:induction false} ThoseOfThose(ids: seq<Id>, a: set<Id>, b: set<Id>)
    ensures Those(Those(ids, a), b) == Those(ids, a * b)
  {
    if ids != [] {
      var front, last := ids[..|ids| - 1], ids[|ids| - 1];
      ThoseOfThose(front, a, b);
      if last in a { assert (Those(front, a) + [last])[..|Those(front, a)|] == Those(front, a); }
    }
  }

  lemma {:induction false} ThoseAfterHead(head: Id, ids: seq<Id>, chosen: set<Id>)
    ensures Those([head] + ids, chosen) == (if head in chosen then [head] else []) + Those(ids, chosen)
  {
    if ids == [] {
      assert [head] + ids == [head];
      assert [head][..0] == [];
    } else {
      var n := |ids| - 1;
      ThoseAfterHead(head, ids[..n], chosen);
      assert ([head] + ids)[..n + 1] == [head] + ids[..n];
    }
  }

  function IdsOf(attempts: seq<Attempt>): seq<Id> {
    seq(|attempts|, i requires 0 <= i < |attempts| => attempts[i].id)
  }

  // ----- a server nobody else touches -----

  /** From call `from` on, every call finds the same healthy server and no interference. */
  ghost predicate Calm(world: nat -> Turn, from: nat, turn: Turn) {
    turn.others == [] && turn.fault.Healthy? && forall n :: from <= n ==> world(n) == turn
  }

  lemma CalmLater(world: nat -> Turn, from: nat, later: nat, turn: Turn)
    requires Calm(world, from, turn) && from <= later
    ensures Calm(world, later, turn)
  {
  }

  /** Some calls were made and nothing was created; on a calm server nothing changed at all. */
  twostate predicate OnlyReads(server: ApiServer, turn: Turn)
    reads server
  {
    && server.Valid() && server.attempts == old(server.attempts)
    && old(server.answers) <= server.answers && old(server.clock) <= server.clock
    && (Calm(server.world, old(server.clock), turn) ==> server.objects == old(server.objects))
  }
}
