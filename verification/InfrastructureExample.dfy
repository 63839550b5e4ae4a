/** A cluster and rules for which the assumptions of the two-run theorem hold together. */
module InfrastructureExample {
  import opened Basics
  import opened Cluster
  import opened Paths
  import opened StorageGate
  import opened InfrastructureGates
  import opened Infrastructure

  const POSTGRES := Claim("volume-a", "mss-shop-dev", "1", None)
  const REDIS := Claim("volume-b", "mss-shop-dev", "2", None)

  const LISTING := [
    Volume("volume-a", "a", Ref("mss-shop-dev", "mss-shop-postgres-data", "1"), Some("node"), Some("/a"), None, ""),
    Volume("volume-b", "b", Ref("mss-shop-dev", "mss-shop-redis-data", "2"), Some("node"), Some("/b"), None, "")]

  /** An object is in order when it holds what was rendered for it. */
  const RULES := Rules(
    _ => true, (_, _) => true, (_, desired, _) => Some(desired),
    (_, stored: Stored, canonical) => stored.content == canonical,
    _ => true, _ => Some("node"), (canonical, _) => canonical,
    _ => true, _ => None, _ => None, _ => Some("node"), (_, _) => true, (_, _) => true, _ => true,
    (stored: Stored) => if stored.content == "mss-shop-postgres-data" then POSTGRES else REDIS,
    (_, _) => true)

  /** A server that stores what it is given. */
  const SERVER := Turn([], Healthy, (_, desired) => Some(desired), _ => LISTING)

  const EMPTY_CLUSTER := Objects(map[STORAGE_CLASS := Stored(1, 1, "")], 1)

  function Rendered(): (targets: seq<Target>)
    ensures |targets| == 24 && Ids(targets) == INVENTORY
    ensures forall i :: 0 <= i < 24 ==> targets[i] == Target(INVENTORY[i], INVENTORY[i].name)
  {
    seq(24, i requires 0 <= i < 24 => Target(INVENTORY[i], INVENTORY[i].name))
  }

  lemma AcceptableMeans(o: Objects, item: Target)
    ensures Acceptable(RULES, SERVER, o, item) <==> item.id in o.stored && o.stored[item.id].content == item.desired
  {
  }

  lemma BenignAlways(item: Target)
    ensures Benign(RULES, SERVER, item)
  {
    hide Acceptable;
    forall o: Objects | item.id in o.stored && o.stored[item.id].content == item.desired
      ensures Acceptable(RULES, SERVER, o, item) {
      AcceptableMeans(o, item);
    }
  }

  lemma EmptyStage()
    ensures Shaped(Rendered()) && CalmStage(RULES, SERVER, Rendered(), EMPTY_CLUSTER, 0)
  {
    hide Acceptable, Benign, Shaped;
    InventoryIsShaped(Rendered());
    forall i | 0 <= i < 24 ensures Benign(RULES, SERVER, Rendered()[i]) { BenignAlways(Rendered()[i]); }
    InventoryKinds();
    InventoryHasNoStorageClass();
  }

  lemma InventoryHasNoStorageClass()
    ensures STORAGE_CLASS !in INVENTORY
  {
  }

  lemma PathsApart()
    ensures Locations(LISTING[0]) == [Location(Some("node"), "/a")]
    ensures Locations(LISTING[1]) == [Location(Some("node"), "/b")]
    ensures Clean("/a") == "/a" && Clean("/b") == "/b" && !PathsOverlap("/a", "/b") && !PathsOverlap("/b", "/a")
  {
    CleanShort('a');
    CleanShort('b');
    assert "/a" == ['/', 'a'] && "/b" == ['/', 'b'];
    assert Components("/a")[0] != Components("/b")[0];
    OverlapIsNesting("/a", "/b");
    OverlapIsNesting("/b", "/a");
  }

  lemma CleanShort(c: char)
    requires c != '/' && c != '.'
    ensures Components(['/', c]) == [[c]] && Clean(['/', c]) == ['/', c]
  {
    var path := ['/', c];
    assert path[1..] == [c] && [c][1..] == "";
    SplitPiece([c]);
    assert Split(path, '/') == ["", [c]];
    assert Walk(true, [], [[c]]) == [[c]] by { assert [[c]][1..] == []; }
    assert ["", [c]][1..] == [[c]];
  }

  predicate Both(claims: map<string, Claim>, nodes: map<string, string>) {
    && claims == map["mss-shop-postgres-data" := POSTGRES, "mss-shop-redis-data" := REDIS]
    && nodes == map["mss-shop-postgres-data" := "node", "mss-shop-redis-data" := "node"]
  }

  lemma ListingBacked(claims: map<string, Claim>, nodes: map<string, string>)
    requires Both(claims, nodes)
    ensures AllBacked(RULES.reviewed, LISTING, nodes, claims)
  {
    hide Clean, PathsOverlap, Locations;
    NamesDiffer();
    forall name | name in claims ensures Backed(RULES.reviewed, LISTING, nodes, name, claims[name]) {
      var k := if name == "mss-shop-postgres-data" then 0 else 1;
      assert Bound(RULES.reviewed, LISTING[k], name, claims[name]) && OnNode(nodes, name, LISTING[k]);
    }
  }

  lemma PairApart(
    claims: map<string, Claim>, nodes: map<string, string>, a: string, b: string, at: Location, bt: Location)
    requires Both(claims, nodes) && a in claims && b in claims && a != b
    requires LiesAt(LISTING, claims[a], at) && LiesAt(LISTING, claims[b], bt)
    ensures !PathsOverlap(at.path, bt.path)
  {
    hide PathsOverlap, LiesAt, LISTING, Locations;
    PathsApart();
    LiesOnly(claims, nodes, a, at);
    LiesOnly(claims, nodes, b, bt);
    TwoNames(claims, nodes, a);
    TwoNames(claims, nodes, b);
  }

  lemma TwoNames(claims: map<string, Claim>, nodes: map<string, string>, name: string)
    requires Both(claims, nodes) && name in claims
    ensures name == "mss-shop-postgres-data" || name == "mss-shop-redis-data"
  {
  }

  lemma ListingApart(claims: map<string, Claim>, nodes: map<string, string>)
    requires Both(claims, nodes)
    ensures TargetsApart(LISTING, claims)
  {
    hide PathsOverlap, LiesAt, LISTING, Both;
    forall a, b, at, bt | a in claims && b in claims && a != b && LiesAt(LISTING, claims[a], at)
        && LiesAt(LISTING, claims[b], bt)
      ensures !(at.node == bt.node && PathsOverlap(at.path, bt.path))
    {
      PairApart(claims, nodes, a, b, at, bt);
    }
  }

  lemma NoneForeign(claims: map<string, Claim>, nodes: map<string, string>)
    requires Both(claims, nodes)
    ensures |LISTING| == 2 && !Foreign(LISTING[0], claims) && !Foreign(LISTING[1], claims)
  {
    NamesDiffer();
    assert claims["mss-shop-postgres-data"] == POSTGRES && claims["mss-shop-redis-data"] == REDIS;
  }

  lemma ListingAccepted(claims: map<string, Claim>, nodes: map<string, string>)
    requires Both(claims, nodes)
    ensures Accepted(RULES.reviewed, LISTING, nodes, claims)
  {
    hide Named, AllBacked, TargetsApart, Foreign, Harmless, LISTING, Both;
    NamesDiffer();
    ListingBacked(claims, nodes);
    ListingApart(claims, nodes);
    NoneForeign(claims, nodes);
  }

  lemma NamesDiffer()
    ensures Named(LISTING) && POSTGRES.volumeName != REDIS.volumeName
    ensures "mss-shop-postgres-data" != "mss-shop-redis-data"
    ensures Clean("/a") != "/" && Clean("/b") != "/"
  {
    PathsApart();
    assert "volume-a"[7] == 'a' && "volume-b"[7] == 'b';
    assert |"mss-shop-postgres-data"| == 22 && |"mss-shop-redis-data"| == 19;
    assert VolumeName(LISTING[0])[0] == "volume-a" && VolumeName(LISTING[1])[0] == "volume-b";
  }

  lemma LiesOnly(claims: map<string, Claim>, nodes: map<string, string>, name: string, at: Location)
    requires Both(claims, nodes) && name in claims && LiesAt(LISTING, claims[name], at)
    ensures at.path == if name == "mss-shop-postgres-data" then "/a" else "/b"
  {
    hide Clean, PathsOverlap, Locations;
    PathsApart();
    NamesDiffer();
    var i :| 0 <= i < |LISTING| && LISTING[i].name == claims[name].volumeName && Locations(LISTING[i]) == [at];
    assert Locations(LISTING[i])[0] == at;
  }

  /** No change is needed between the runs when claims are bound as soon as they exist. */
  lemma NothingLeftToBind()
    ensures Binds(RULES, SERVER, Rendered(), EMPTY_CLUSTER, [])
  {
    hide CalmStage, StorageReady;
    forall o: Objects | CalmStage(RULES, SERVER, Rendered(), o, 20) ensures ReadyStorage(RULES, SERVER, Rendered(), o) {
      StorageIsReady(o);
    }
  }

  lemma StorageIsReady(o: Objects)
    requires CalmStage(RULES, SERVER, Rendered(), o, 20)
    ensures ReadyStorage(RULES, SERVER, Rendered(), o)
  {
    hide Acceptable, AllBenign, Accepted, INVENTORY;
    var t := Rendered();
    CalmParts(RULES, SERVER, t, o, 20);
    InventoryNames();
    AcceptableMeans(o, t[4]);
    AcceptableMeans(o, t[7]);
    AcceptableMeans(o, t[18]);
    AcceptableMeans(o, t[19]);
    var claimItems, podItems := [t[4], t[7]], [t[18], t[19]];
    ItemNames(claimItems, podItems);
    forall claims, nodes | IsClaims(RULES, o, claimItems, claims) && IsNodes(RULES, o, podItems, nodes)
      ensures Accepted(RULES.reviewed, SERVER.listing(VolumesIn(o)), nodes, claims)
    {
      ClaimsAre(o, claimItems, claims);
      NodesAre(o, podItems, nodes);
      ListingAccepted(claims, nodes);
    }
  }

  lemma InventoryNames()
    ensures |INVENTORY| == 24
    ensures INVENTORY[4] == Id(PersistentVolumeClaim, "mss-shop-postgres-data")
    ensures INVENTORY[7] == Id(PersistentVolumeClaim, "mss-shop-redis-data")
    ensures INVENTORY[18] == Id(Pod, "mss-shop-postgres-storage-binder")
    ensures INVENTORY[19] == Id(Pod, "mss-shop-redis-storage-binder")
  {
  }

  lemma ItemNames(claimItems: seq<Target>, podItems: seq<Target>)
    requires |claimItems| == |podItems| == 2
    requires claimItems[0].id.name == "mss-shop-postgres-data" && claimItems[1].id.name == "mss-shop-redis-data"
    requires podItems[0].id.name == "mss-shop-postgres-storage-binder"
    requires podItems[1].id.name == "mss-shop-redis-storage-binder"
    ensures ClaimNames(claimItems) == BoundNames(podItems) == {"mss-shop-postgres-data", "mss-shop-redis-data"}
    ensures |ClaimNames(claimItems)| == 2
  {
    NamesDiffer();
    BinderNames();
    assert ClaimNames(claimItems) == {claimItems[0].id.name, claimItems[1].id.name};
    assert BoundNames(podItems) == {BinderClaim(podItems[0].id.name), BinderClaim(podItems[1].id.name)};
  }

  lemma BinderNames()
    ensures BinderClaim("mss-shop-postgres-storage-binder") == "mss-shop-postgres-data"
    ensures BinderClaim("mss-shop-redis-storage-binder") == "mss-shop-redis-data"
  {
    assert |"mss-shop-postgres-storage-binder"| != |"mss-shop-redis-storage-binder"|;
  }

  lemma ClaimsAre(o: Objects, items: seq<Target>, claims: map<string, Claim>)
    requires IsClaims(RULES, o, items, claims) && |items| == 2
    requires items[0].id.name == "mss-shop-postgres-data" && items[1].id.name == "mss-shop-redis-data"
    requires o.stored[items[0].id].content == "mss-shop-postgres-data"
    requires o.stored[items[1].id].content == "mss-shop-redis-data"
    ensures claims == map["mss-shop-postgres-data" := POSTGRES, "mss-shop-redis-data" := REDIS]
  {
    NamesDiffer();
    assert claims.Keys == ClaimNames(items) == {items[0].id.name, items[1].id.name};
    assert claims[items[0].id.name] == POSTGRES && claims[items[1].id.name] == REDIS;
  }

  lemma NodesAre(o: Objects, items: seq<Target>, nodes: map<string, string>)
    requires IsNodes(RULES, o, items, nodes) && |items| == 2
    requires items[0].id.name == "mss-shop-postgres-storage-binder"
    requires items[1].id.name == "mss-shop-redis-storage-binder"
    ensures nodes == map["mss-shop-postgres-data" := "node", "mss-shop-redis-data" := "node"]
  {
    BinderNames();
    assert nodes.Keys == BoundNames(items) == {BinderClaim(items[0].id.name), BinderClaim(items[1].id.name)};
  }

  /** So the two-run theorem applies to this cluster. */
  method RunExample() returns (first: Infrastructure.Result, second: Infrastructure.Result)
    ensures first.error.Some? && first.created == INVENTORY[..20]
    ensures second.error.None? && second.created == INVENTORY[20..]
  {
    hide Shaped, CalmStage, Binds;
    EmptyStage();
    NothingLeftToBind();
    var server := new ApiServer(_ => SERVER, EMPTY_CLUSTER);
    var later;
    first, second, later := StageEmptyCluster(server, RULES, Rendered(), [], 0, SERVER);
  }
}
