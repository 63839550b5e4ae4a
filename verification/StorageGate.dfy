/** The exclusive-storage check on a cluster-wide snapshot of persistent volumes. */
module StorageGate {
  import opened Basics
  import opened Paths
  import opened Sorting

  const ENVIRONMENT := "mss-shop-dev"

  datatype ClaimRef = NoRef | InvalidRef | Ref(namespace: string, name: string, uid: string)

  /** `node` is the host an exact affinity pins; `local` and `hostPath` are the raw paths of those
      backends; `rest` stands for every other field. */
  datatype Volume = Volume(
    name: string, uid: string, claimRef: ClaimRef, node: Option<string>,
    local: Option<string>, hostPath: Option<string>, rest: string)

  datatype Claim = Claim(volumeName: string, namespace: string, uid: string, selectedNode: Option<string>)

  datatype Location = Location(node: Option<string>, path: string)

  /** `reviewed` is the verdict on everything about a bound volume that is not spelled out below. */
  type Review = (Volume, Claim) -> bool

  function VolumeKey(volume: Volume): Key { [volume.name, volume.uid] }

  function VolumeName(volume: Volume): Key { [volume.name] }

  function PathAt(node: Option<string>, path: Option<string>): seq<Location> {
    if path.Some? && IsAbs(path.value) then [Location(node, Clean(path.value))] else []
  }

  function Locations(volume: Volume): seq<Location> {
    PathAt(volume.node, volume.local) + PathAt(volume.node, volume.hostPath)
  }

  predicate Bound(reviewed: Review, volume: Volume, name: string, claim: Claim) {
    && volume.name != "" && volume.uid != ""
    && volume.name == claim.volumeName
    && volume.claimRef == Ref(claim.namespace, name, claim.uid)
    && volume.node.Some?
    && (claim.selectedNode.Some? ==> claim.selectedNode == volume.node)
    && volume.local.Some? && IsAbs(volume.local.value) && Clean(volume.local.value) != "/"
    && volume.hostPath.None?
    && reviewed(volume, claim)
  }

  // ----- what the check accepts -----

  predicate Named(volumes: seq<Volume>) {
    && (forall i :: 0 <= i < |volumes| ==> volumes[i].name != "")
    && DistinctBy(VolumeName, volumes)
  }

  predicate OnNode(nodes: map<string, string>, name: string, volume: Volume) {
    volume.node == Some(if name in nodes then nodes[name] else "")
  }

  /** The claim's volume is in the snapshot, bound to it, and on the node of the claim's binder. */
  predicate Backed(reviewed: Review, volumes: seq<Volume>, nodes: map<string, string>, name: string, claim: Claim) {
    exists i :: 0 <= i < |volumes| && Bound(reviewed, volumes[i], name, claim) && OnNode(nodes, name, volumes[i])
  }

  predicate AllBacked(reviewed: Review, volumes: seq<Volume>, nodes: map<string, string>, claims: map<string, Claim>) {
    forall name :: name in claims ==> Backed(reviewed, volumes, nodes, name, claims[name])
  }

  /** Where a claim's data lies. */
  predicate LiesAt(volumes: seq<Volume>, claim: Claim, at: Location) {
    exists i :: 0 <= i < |volumes| && volumes[i].name == claim.volumeName && Locations(volumes[i]) == [at]
  }

  predicate Collides(other: Location, target: Location) {
    PathsOverlap(other.path, target.path) && (other.node.None? || other.node == target.node)
  }

  ghost predicate TargetsApart(volumes: seq<Volume>, claims: map<string, Claim>) {
    forall a, b, at, bt ::
      a in claims && b in claims && a != b && LiesAt(volumes, claims[a], at) && LiesAt(volumes, claims[b], bt) ==>
        !(at.node == bt.node && PathsOverlap(at.path, bt.path))
  }

  predicate Foreign(volume: Volume, claims: map<string, Claim>) {
    forall name :: name in claims ==> claims[name].volumeName != volume.name
  }

  predicate Releases(ref: ClaimRef, name: string, claim: Claim) {
    ref.Ref? ==> !(ref.namespace == ENVIRONMENT && ref.name == name) && ref.uid != claim.uid
  }

  ghost predicate Harmless(volumes: seq<Volume>, claims: map<string, Claim>, volume: Volume) {
    && !volume.claimRef.InvalidRef?
    && (forall name :: name in claims ==> Releases(volume.claimRef, name, claims[name]))
    && (forall k, name, at :: 0 <= k < |Locations(volume)| && name in claims && LiesAt(volumes, claims[name], at) ==>
          !Collides(Locations(volume)[k], at))
  }

  ghost predicate Accepted(
    reviewed: Review, volumes: seq<Volume>, nodes: map<string, string>, claims: map<string, Claim>)
  {
    && Named(volumes)
    && AllBacked(reviewed, volumes, nodes, claims)
    && TargetsApart(volumes, claims)
    && forall i :: 0 <= i < |volumes| && Foreign(volumes[i], claims) ==> Harmless(volumes, claims, volumes[i])
  }

  // ----- the check -----

  lemma IndexGrows(volumes: seq<Volume>, index: map<string, Volume>, volume: Volume)
    requires Named(volumes) && Indexed(volumes, index) && volume.name != "" && volume.name !in index
    ensures Named(volumes + [volume]) && Indexed(volumes + [volume], index[volume.name := volume])
  {
    var longer, bigger := volumes + [volume], index[volume.name := volume];
    forall name | name in bigger
      ensures exists i :: 0 <= i < |longer| && longer[i] == bigger[name] && longer[i].name == name
    {
      if name == volume.name {
        assert longer[|volumes|] == volume;
      } else {
        var i :| 0 <= i < |volumes| && volumes[i] == index[name] && volumes[i].name == name;
        assert longer[i] == index[name];
      }
    }
  }

  method IndexByName(volumes: seq<Volume>) returns (byName: Option<map<string, Volume>>)
    ensures byName.Some? <==> Named(volumes)
    ensures byName.Some? ==> Indexed(volumes, byName.value)
  {
    hide Named, Indexed;
    var index: map<string, Volume> := map[];
    NothingIndexed(volumes);
    for i := 0 to |volumes|
      invariant Named(volumes[..i]) && Indexed(volumes[..i], index)
    {
      var name := volumes[i].name;
      if name == "" || name in index {
        NameRefused(volumes, index, i);
        return None;
      }
      IndexGrows(volumes[..i], index, volumes[i]);
      assert volumes[..i + 1] == volumes[..i] + [volumes[i]];
      index := index[name := volumes[i]];
    }
    assert volumes[..|volumes|] == volumes;
    return Some(index);
  }

  lemma NothingIndexed(volumes: seq<Volume>)
    ensures Named(volumes[..0]) && Indexed(volumes[..0], map[])
  {
  }

  lemma NameRefused(volumes: seq<Volume>, index: map<string, Volume>, i: nat)
    requires i < |volumes| && Indexed(volumes[..i], index) && (volumes[i].name == "" || volumes[i].name in index)
    ensures !Named(volumes)
  {
    if volumes[i].name in index {
      var j :| 0 <= j < i && volumes[..i][j].name == volumes[i].name;
      assert VolumeName(volumes[j]) == VolumeName(volumes[i]);
    }
  }

  predicate Indexed(volumes: seq<Volume>, index: map<string, Volume>) {
    && (forall i :: 0 <= i < |volumes| ==> volumes[i].name in index && index[volumes[i].name] == volumes[i])
    && (forall name :: name in index ==>
        exists i :: 0 <= i < |volumes| && volumes[i] == index[name] && volumes[i].name == name)
  }

  /** The claims looked at so far, with their locations, and no clash among them. */
  ghost predicate Located(
    reviewed: Review, volumes: seq<Volume>, nodes: map<string, string>, claims: map<string, Claim>,
    at: map<string, Location>)
  {
    && at.Keys <= claims.Keys
    && (forall name :: name in at ==>
          Backed(reviewed, volumes, nodes, name, claims[name]) && LiesAt(volumes, claims[name], at[name]))
    && (forall a, b :: a in at && b in at && a != b ==>
        !(at[a].node == at[b].node && PathsOverlap(at[a].path, at[b].path)))
  }

  lemma LocationIsUnique(volumes: seq<Volume>, claim: Claim, a: Location, b: Location)
    requires Named(volumes) && LiesAt(volumes, claim, a) && LiesAt(volumes, claim, b)
    ensures a == b
  {
    var i :| 0 <= i < |volumes| && volumes[i].name == claim.volumeName && Locations(volumes[i]) == [a];
    var j :| 0 <= j < |volumes| && volumes[j].name == claim.volumeName && Locations(volumes[j]) == [b];
    assert VolumeName(volumes[i]) == VolumeName(volumes[j]);
    assert i == j;
    assert [a][0] == [b][0];
  }

  lemma BackedHasVolume(
    reviewed: Review, volumes: seq<Volume>, nodes: map<string, string>, index: map<string, Volume>, name: string,
    claim: Claim)
    requires Named(volumes) && Indexed(volumes, index)
    ensures Backed(reviewed, volumes, nodes, name, claim) <==>
            && claim.volumeName in index && Bound(reviewed, index[claim.volumeName], name, claim)
            && OnNode(nodes, name, index[claim.volumeName])
    ensures claim.volumeName in index && Bound(reviewed, index[claim.volumeName], name, claim) ==>
            var volume := index[claim.volumeName];
            && |Locations(volume)| == 1 && Locations(volume)[0].node == volume.node
            && LiesAt(volumes, claim, Locations(volume)[0])
  {
    hide Clean, PathsOverlap, DistinctBy;
    if claim.volumeName in index && Bound(reviewed, index[claim.volumeName], name, claim) {
      var volume := index[claim.volumeName];
      var i :| 0 <= i < |volumes| && volumes[i] == volume && volumes[i].name == claim.volumeName;
      assert Locations(volume) == [Location(volume.node, Clean(volume.local.value))];
    }
  }

  lemma LocatedApart(
    reviewed: Review, volumes: seq<Volume>, nodes: map<string, string>, claims: map<string, Claim>,
    at: map<string, Location>)
    requires Named(volumes) && Located(reviewed, volumes, nodes, claims, at) && at.Keys == claims.Keys
    ensures AllBacked(reviewed, volumes, nodes, claims) && TargetsApart(volumes, claims)
  {
    hide Backed, LiesAt, PathsOverlap, Named;
    forall a, b, s, t | a in claims && b in claims && a != b && LiesAt(volumes, claims[a], s)
        && LiesAt(volumes, claims[b], t)
      ensures !(s.node == t.node && PathsOverlap(s.path, t.path))
    {
      LocationIsUnique(volumes, claims[a], s, at[a]);
      LocationIsUnique(volumes, claims[b], t, at[b]);
    }
  }

  lemma OverlapIsSymmetric(a: string, b: string)
    ensures PathsOverlap(a, b) == PathsOverlap(b, a)
  {
  }

  /** The claims in whatever order the map yields them. */
  method LocateClaims(
    reviewed: Review, volumes: seq<Volume>, index: map<string, Volume>, claims: map<string, Claim>,
    nodes: map<string, string>)
    returns (located: Option<map<string, Location>>)
    requires Named(volumes) && Indexed(volumes, index)
    ensures located.Some? <==> AllBacked(reviewed, volumes, nodes, claims) && TargetsApart(volumes, claims)
    ensures located.Some? ==>
              Located(reviewed, volumes, nodes, claims, located.value) && located.value.Keys == claims.Keys
  {
    hide Named, Indexed, Bound, PathsOverlap, Backed, LiesAt, Locations;
    var at: map<string, Location> := map[];
    var remaining := claims.Keys;
    while remaining != {}
      invariant remaining <= claims.Keys && at.Keys == claims.Keys - remaining
      invariant Located(reviewed, volumes, nodes, claims, at)
    {
      var name :| name in remaining;
      var claim := claims[name];
      BackedHasVolume(reviewed, volumes, nodes, index, name, claim);
      if claim.volumeName !in index { return None; }
      var volume := index[claim.volumeName];
      if !Bound(reviewed, volume, name, claim) { return None; }
      var locations := Locations(volume);
      if |locations| != 1 || locations[0].node.None? { return None; }
      var location := locations[0];
      if (if name in nodes then nodes[name] else "") != location.node.value { return None; }
      var clash := Clashes(at, location);
      if clash.Some? {
        assert LiesAt(volumes, claims[clash.value], at[clash.value]) && LiesAt(volumes, claim, location);
        return None;
      }
      forall other | other in at ensures PathsOverlap(at[other].path, location.path)
          == PathsOverlap(location.path, at[other].path) {
        OverlapIsSymmetric(at[other].path, location.path);
      }
      at := at[name := location];
      remaining := remaining - {name};
    }
    LocatedApart(reviewed, volumes, nodes, claims, at);
    return Some(at);
  }

  method Clashes(at: map<string, Location>, location: Location) returns (clash: Option<string>)
    ensures clash.Some? ==>
              clash.value in at && location.node == at[clash.value].node
              && PathsOverlap(location.path, at[clash.value].path)
    ensures clash.None? ==> forall name :: name in at ==>
              !(location.node == at[name].node && PathsOverlap(location.path, at[name].path))
  {
    hide PathsOverlap;
    var remaining := at.Keys;
    while remaining != {}
      invariant remaining <= at.Keys
      invariant forall name :: name in at && name !in remaining ==>
                  !(location.node == at[name].node && PathsOverlap(location.path, at[name].path))
    {
      var name :| name in remaining;
      if location.node == at[name].node && PathsOverlap(location.path, at[name].path) { return Some(name); }
      remaining := remaining - {name};
    }
    return None;
  }

  method IsHarmless(volumes: seq<Volume>, claims: map<string, Claim>, at: map<string, Location>, volume: Volume)
    returns (ok: bool)
    requires Named(volumes) && at.Keys == claims.Keys
    requires forall name :: name in claims ==> LiesAt(volumes, claims[name], at[name])
    ensures ok <==> Harmless(volumes, claims, volume)
  {
    hide Named, LiesAt, Locations, Collides;
    if volume.claimRef.InvalidRef? { return false; }
    if volume.claimRef.Ref? {
      var remaining := claims.Keys;
      while remaining != {}
        invariant remaining <= claims.Keys
        invariant forall name :: name in claims && name !in remaining ==> Releases(volume.claimRef, name, claims[name])
      {
        var name :| name in remaining;
        if !Releases(volume.claimRef, name, claims[name]) { return false; }
        remaining := remaining - {name};
      }
    }
    var locations := Locations(volume);
    for k := 0 to |locations|
      invariant forall j, name :: 0 <= j < k && name in claims ==> !Collides(locations[j], at[name])
    {
      var remaining := claims.Keys;
      while remaining != {}
        invariant remaining <= claims.Keys
        invariant forall name :: name in claims && name !in remaining ==> !Collides(locations[k], at[name])
      {
        var name :| name in remaining;
        if Collides(locations[k], at[name]) { return false; }
        remaining := remaining - {name};
      }
    }
    forall k, name, t | 0 <= k < |locations| && name in claims && LiesAt(volumes, claims[name], t)
      ensures !Collides(locations[k], t)
    {
      LocationIsUnique(volumes, claims[name], t, at[name]);
    }
    return true;
  }

  /** Accepts exactly the exclusive snapshots, and returns the sorted inventory that is digested. */
  method ValidateSnapshot(
    reviewed: Review, volumes: seq<Volume>, claims: map<string, Claim>, nodes: map<string, string>)
    returns (inventory: Option<seq<Volume>>)
    ensures inventory.Some? <==> Accepted(reviewed, volumes, nodes, claims)
    ensures inventory.Some? ==> inventory.value == Sort(VolumeKey, volumes)
  {
    hide Named, Indexed, Harmless, TargetsApart, Backed, LiesAt, PathsOverlap;
    var index := IndexByName(volumes);
    if index.None? { return None; }
    var located := LocateClaims(reviewed, volumes, index.value, claims, nodes);
    if located.None? { return None; }
    for i := 0 to |volumes|
      invariant forall j :: 0 <= j < i && Foreign(volumes[j], claims) ==> Harmless(volumes, claims, volumes[j])
    {
      if Foreign(volumes[i], claims) {
        var ok := IsHarmless(volumes, claims, located.value, volumes[i]);
        if !ok { return None; }
      }
    }
    return Some(Sort(VolumeKey, volumes));
  }

  // ----- what an accepted snapshot means -----

  /** No other volume, target or not, that could sit on the claim's node has a path at, above or
      below the claim's path. */
  lemma AcceptedIsExclusive(
    reviewed: Review, volumes: seq<Volume>, nodes: map<string, string>, claims: map<string, Claim>,
    name: string, at: Location, i: nat, k: nat)
    requires Accepted(reviewed, volumes, nodes, claims) && name in claims && LiesAt(volumes, claims[name], at)
    requires i < |volumes| && volumes[i].name != claims[name].volumeName && k < |Locations(volumes[i])|
    requires Locations(volumes[i])[k].node.None? || Locations(volumes[i])[k].node == at.node
    ensures var path := Locations(volumes[i])[k].path;
            !(Components(path) <= Components(at.path)) && !(Components(at.path) <= Components(path))
  {
    hide *;
    var other := Locations(volumes[i])[k];
    OthersDoNotCollide(reviewed, volumes, nodes, claims, name, at, i, k);
    PathsAreClean(volumes[i], k);
    TargetPathIsClean(volumes, claims[name], at);
    OverlapIsNesting(other.path, at.path);
  }

  lemma OthersDoNotCollide(
    reviewed: Review, volumes: seq<Volume>, nodes: map<string, string>, claims: map<string, Claim>,
    name: string, at: Location, i: nat, k: nat)
    requires Accepted(reviewed, volumes, nodes, claims) && name in claims && LiesAt(volumes, claims[name], at)
    requires i < |volumes| && volumes[i].name != claims[name].volumeName && k < |Locations(volumes[i])|
    requires Locations(volumes[i])[k].node.None? || Locations(volumes[i])[k].node == at.node
    ensures !PathsOverlap(Locations(volumes[i])[k].path, at.path)
  {
    hide Named, Backed, AllBacked, LiesAt, PathsOverlap, Locations, Releases;
    if Foreign(volumes[i], claims) {
      assert Harmless(volumes, claims, volumes[i]);
      assert !Collides(Locations(volumes[i])[k], at);
    } else {
      var owner :| owner in claims && claims[owner].volumeName == volumes[i].name;
      TargetLocation(reviewed, volumes, nodes, claims, owner, i);
      assert owner != name;
    }
  }

  lemma TargetPathIsClean(volumes: seq<Volume>, claim: Claim, at: Location)
    requires LiesAt(volumes, claim, at)
    ensures IsAbs(at.path)
  {
    hide Locations;
    var v :| 0 <= v < |volumes| && volumes[v].name == claim.volumeName && Locations(volumes[v]) == [at];
    assert Locations(volumes[v])[0] == at;
    PathsAreClean(volumes[v], 0);
  }

  lemma PathsAreClean(volume: Volume, k: nat)
    requires k < |Locations(volume)|
    ensures IsAbs(Locations(volume)[k].path)
  {
    hide Clean;
    var raw := if |PathAt(volume.node, volume.local)| > k then volume.local.value else volume.hostPath.value;
    assert Locations(volume)[k].path == Clean(raw);
    CleanIsIdempotent(raw);
  }

  lemma TargetLocation(
    reviewed: Review, volumes: seq<Volume>, nodes: map<string, string>, claims: map<string, Claim>, owner: string,
    i: nat)
    requires Named(volumes) && AllBacked(reviewed, volumes, nodes, claims)
    requires owner in claims && i < |volumes| && volumes[i].name == claims[owner].volumeName
    ensures |Locations(volumes[i])| == 1 && LiesAt(volumes, claims[owner], Locations(volumes[i])[0])
    ensures Locations(volumes[i])[0].node.Some?
  {
    hide Clean;
    var claim := claims[owner];
    assert Backed(reviewed, volumes, nodes, owner, claim);
    var j :| 0 <= j < |volumes| && Bound(reviewed, volumes[j], owner, claim) && OnNode(nodes, owner, volumes[j]);
    assert VolumeName(volumes[i]) == VolumeName(volumes[j]);
    assert Locations(volumes[i]) == [Location(volumes[i].node, Clean(volumes[i].local.value))];
  }

  // ----- the same acceptance in terms of directories -----

  /** A directory that the volume keeps data in, as the names on the way to it. */
  ghost predicate KeepsDataIn(volume: Volume, directory: seq<string>) {
    exists path: string ::
      && (volume.local == Some(path) || volume.hostPath == Some(path)) && path != "" && path[0] == '/'
      && Components(path) == directory
  }

  /** A directory of one lies at, above or below a directory of the other. */
  ghost predicate Meet(a: Volume, b: Volume) {
    exists x, y :: KeepsDataIn(a, x) && KeepsDataIn(b, y) && (x <= y || y <= x)
  }

  /** The volume is the claim's own: bound to it both ways, on the node of its binder, and with one local
      directory below the root. */
  ghost predicate Serves(reviewed: Review, volume: Volume, nodes: map<string, string>, name: string, claim: Claim) {
    && volume.name == claim.volumeName && volume.name != "" && volume.uid != ""
    && volume.claimRef == Ref(claim.namespace, name, claim.uid)
    && volume.node == Some(if name in nodes then nodes[name] else "")
    && (claim.selectedNode.None? || claim.selectedNode == volume.node)
    && volume.hostPath.None? && (exists directory :: directory != [] && KeepsDataIn(volume, directory))
    && reviewed(volume, claim)
  }

  /** Names tell volumes apart; every claim has its volume; no other volume that could sit on that node
      meets it; and a volume of no claim refers to none of them, by name in this environment or by UID. */
  ghost predicate Exclusive(
    reviewed: Review, volumes: seq<Volume>, nodes: map<string, string>, claims: map<string, Claim>)
  {
    && (forall i :: 0 <= i < |volumes| ==> volumes[i].name != "")
    && (forall i, j :: 0 <= i < j < |volumes| ==> volumes[i].name != volumes[j].name)
    && (forall name :: name in claims ==>
          exists i :: 0 <= i < |volumes| && Serves(reviewed, volumes[i], nodes, name, claims[name]))
    && (forall name, i, j :: && name in claims && 0 <= i < |volumes| && 0 <= j < |volumes| && i != j
                             && volumes[i].name == claims[name].volumeName
                             && (volumes[j].node.None? || volumes[j].node == volumes[i].node) ==>
          !Meet(volumes[i], volumes[j]))
    && (forall i :: 0 <= i < |volumes| && (forall name :: name in claims ==> volumes[i].name != claims[name].volumeName)
                    ==> LeavesAlone(volumes[i].claimRef, claims))
  }

  ghost predicate LeavesAlone(ref: ClaimRef, claims: map<string, Claim>) {
    match ref
    case NoRef => true
    case InvalidRef => false
    case Ref(namespace, name, uid) =>
      && (namespace == "mss-shop-dev" ==> name !in claims)
      && forall claimed :: claimed in claims ==> claims[claimed].uid != uid
  }

  lemma LocationOf(volume: Volume, directory: seq<string>) returns (k: nat)
    requires KeepsDataIn(volume, directory)
    ensures k < |Locations(volume)| && Locations(volume)[k].node == volume.node
    ensures IsAbs(Locations(volume)[k].path) && Components(Locations(volume)[k].path) == directory
  {
    hide Clean, Components;
    var path: string :|
      && (volume.local == Some(path) || volume.hostPath == Some(path)) && path != "" && path[0] == '/'
      && Components(path) == directory;
    CleanIsIdempotent(path);
    k := if volume.local == Some(path) then 0 else |PathAt(volume.node, volume.local)|;
  }

  lemma DirectoryAt(volume: Volume, k: nat)
    requires k < |Locations(volume)|
    ensures Locations(volume)[k].node == volume.node && IsAbs(Locations(volume)[k].path)
    ensures KeepsDataIn(volume, Components(Locations(volume)[k].path))
  {
    hide Clean, Components;
    var raw := if |PathAt(volume.node, volume.local)| > k then volume.local.value else volume.hostPath.value;
    assert Locations(volume)[k].path == Clean(raw);
    CleanIsIdempotent(raw);
  }

  /** Two volumes meet exactly if some of their locations overlap. */
  lemma MeetMeansOverlap(a: Volume, b: Volume)
    ensures Meet(a, b) <==>
              exists k, l :: 0 <= k < |Locations(a)| && 0 <= l < |Locations(b)|
                && PathsOverlap(Locations(a)[k].path, Locations(b)[l].path)
  {
    hide Locations, KeepsDataIn, PathsOverlap, Components;
    if Meet(a, b) {
      var x, y :| KeepsDataIn(a, x) && KeepsDataIn(b, y) && (x <= y || y <= x);
      var k := LocationOf(a, x);
      var l := LocationOf(b, y);
      OverlapIsNesting(Locations(a)[k].path, Locations(b)[l].path);
    }
    if k, l :| 0 <= k < |Locations(a)| && 0 <= l < |Locations(b)|
               && PathsOverlap(Locations(a)[k].path, Locations(b)[l].path) {
      DirectoryAt(a, k);
      DirectoryAt(b, l);
      OverlapIsNesting(Locations(a)[k].path, Locations(b)[l].path);
    }
  }

  lemma RootIsEmpty(path: string)
    requires IsAbs(path)
    ensures Clean(path) == "/" <==> Components(path) == []
  {
    hide Components, Clean, Join;
    ComponentsArePlain(path);
    EmptyJoin(Components(path));
  }

  lemma ServesMeansBound(
    reviewed: Review, volume: Volume, nodes: map<string, string>, name: string, claim: Claim)
    ensures Serves(reviewed, volume, nodes, name, claim) <==>
              Bound(reviewed, volume, name, claim) && OnNode(nodes, name, volume)
  {
    hide Clean, Components;
    if volume.local.Some? && IsAbs(volume.local.value) {
      RootIsEmpty(volume.local.value);
      assert volume.hostPath.None? ==> KeepsDataIn(volume, Components(volume.local.value));
    }
  }

  lemma OwnVolume(
    reviewed: Review, volumes: seq<Volume>, nodes: map<string, string>, claims: map<string, Claim>, name: string,
    i: nat)
    requires Exclusive(reviewed, volumes, nodes, claims) && name in claims
    requires i < |volumes| && volumes[i].name == claims[name].volumeName
    ensures Serves(reviewed, volumes[i], nodes, name, claims[name])
  {
    hide Serves, Meet, LeavesAlone;
    var k :| 0 <= k < |volumes| && Serves(reviewed, volumes[k], nodes, name, claims[name]);
    assert volumes[k].name == claims[name].volumeName
        by { ServesIsNamed(reviewed, volumes[k], nodes, name, claims[name]); }
    assert i == k;
  }

  lemma ServesIsNamed(reviewed: Review, volume: Volume, nodes: map<string, string>, name: string, claim: Claim)
    requires Serves(reviewed, volume, nodes, name, claim)
    ensures volume.name == claim.volumeName && volume.claimRef == Ref(claim.namespace, name, claim.uid)
  {
  }

  lemma AcceptedThenExclusive(
    reviewed: Review, volumes: seq<Volume>, nodes: map<string, string>, claims: map<string, Claim>)
    requires Accepted(reviewed, volumes, nodes, claims)
    ensures Exclusive(reviewed, volumes, nodes, claims)
  {
    hide Bound, OnNode, Serves, Locations, Meet, PathsOverlap, TargetsApart, LeavesAlone, Named, Backed, Harmless;
    NamedTells(volumes);
    forall name | name in claims
      ensures exists i :: 0 <= i < |volumes| && Serves(reviewed, volumes[i], nodes, name, claims[name])
    {
      BackedServes(reviewed, volumes, nodes, name, claims[name]);
    }
    forall name, i, j | && name in claims && 0 <= i < |volumes| && 0 <= j < |volumes| && i != j
                        && volumes[i].name == claims[name].volumeName
                        && (volumes[j].node.None? || volumes[j].node == volumes[i].node)
      ensures !Meet(volumes[i], volumes[j])
    {
      OthersDoNotMeet(reviewed, volumes, nodes, claims, name, i, j);
    }
    forall i | 0 <= i < |volumes| && forall name :: name in claims ==> volumes[i].name != claims[name].volumeName
      ensures LeavesAlone(volumes[i].claimRef, claims)
    {
      assert Foreign(volumes[i], claims);
      HarmlessLeavesAlone(volumes, claims, volumes[i]);
    }
  }

  lemma NamedTells(volumes: seq<Volume>)
    requires Named(volumes)
    ensures forall i :: 0 <= i < |volumes| ==> volumes[i].name != ""
    ensures forall i, j :: 0 <= i < j < |volumes| ==> volumes[i].name != volumes[j].name
  {
    forall i, j | 0 <= i < j < |volumes| ensures volumes[i].name != volumes[j].name {
      assert VolumeName(volumes[i]) != VolumeName(volumes[j]);
    }
  }

  lemma BackedServes(
    reviewed: Review, volumes: seq<Volume>, nodes: map<string, string>, name: string, claim: Claim)
    requires Backed(reviewed, volumes, nodes, name, claim)
    ensures exists i :: 0 <= i < |volumes| && Serves(reviewed, volumes[i], nodes, name, claim)
  {
    hide Bound, OnNode, Serves;
    var i :| 0 <= i < |volumes| && Bound(reviewed, volumes[i], name, claim) && OnNode(nodes, name, volumes[i]);
    ServesMeansBound(reviewed, volumes[i], nodes, name, claim);
  }

  lemma HarmlessLeavesAlone(volumes: seq<Volume>, claims: map<string, Claim>, volume: Volume)
    ensures Harmless(volumes, claims, volume) ==> LeavesAlone(volume.claimRef, claims)
    ensures LeavesAlone(volume.claimRef, claims) <==>
              !volume.claimRef.InvalidRef? && forall name :: name in claims ==>
                  Releases(volume.claimRef, name, claims[name])
  {
  }

  lemma OthersDoNotMeet(
    reviewed: Review, volumes: seq<Volume>, nodes: map<string, string>, claims: map<string, Claim>, name: string,
    i: nat, j: nat)
    requires Accepted(reviewed, volumes, nodes, claims) && name in claims && i < |volumes| && j < |volumes| && i != j
    requires volumes[i].name == claims[name].volumeName && volumes[i].name != volumes[j].name
    requires volumes[j].node.None? || volumes[j].node == volumes[i].node
    ensures !Meet(volumes[i], volumes[j])
  {
    hide Accepted, Locations, Meet, PathsOverlap, Components, KeepsDataIn;
    var at := TheLocation(reviewed, volumes, nodes, claims, name, i);
    MeetMeansOverlap(volumes[i], volumes[j]);
    forall k, l | 0 <= k < |Locations(volumes[i])| && 0 <= l < |Locations(volumes[j])|
      ensures !PathsOverlap(Locations(volumes[i])[k].path, Locations(volumes[j])[l].path)
    {
      DirectoryAt(volumes[j], l);
      OthersDoNotCollide(reviewed, volumes, nodes, claims, name, at, j, l);
      OverlapIsSymmetric(Locations(volumes[j])[l].path, at.path);
    }
  }

  lemma TheLocation(
    reviewed: Review, volumes: seq<Volume>, nodes: map<string, string>, claims: map<string, Claim>, name: string,
    i: nat)
    returns (at: Location)
    requires Accepted(reviewed, volumes, nodes, claims) && name in claims && i < |volumes|
    requires volumes[i].name == claims[name].volumeName
    ensures Locations(volumes[i]) == [at] && LiesAt(volumes, claims[name], at) && at.node == volumes[i].node
  {
    TargetLocation(reviewed, volumes, nodes, claims, name, i);
    hide Locations, Accepted;
    at := Locations(volumes[i])[0];
    DirectoryAt(volumes[i], 0);
  }

  lemma ExclusiveThenAccepted(
    reviewed: Review, volumes: seq<Volume>, nodes: map<string, string>, claims: map<string, Claim>)
    requires Exclusive(reviewed, volumes, nodes, claims)
    ensures Accepted(reviewed, volumes, nodes, claims)
  {
    hide Exclusive, Named, Backed, LiesAt, PathsOverlap, Harmless;
    NamesTell(reviewed, volumes, nodes, claims);
    forall name | name in claims ensures Backed(reviewed, volumes, nodes, name, claims[name]) {
      ExclusiveBacks(reviewed, volumes, nodes, claims, name);
    }
    forall a, b, at, bt |
      a in claims && b in claims && a != b && LiesAt(volumes, claims[a], at) && LiesAt(volumes, claims[b], bt)
      ensures !(at.node == bt.node && PathsOverlap(at.path, bt.path))
    {
      ClaimsDoNotMeet(reviewed, volumes, nodes, claims, a, b, at, bt);
    }
    forall i | 0 <= i < |volumes| && Foreign(volumes[i], claims) ensures Harmless(volumes, claims, volumes[i]) {
      ForeignIsHarmless(reviewed, volumes, nodes, claims, i);
    }
  }

  lemma ExclusiveBacks(
    reviewed: Review, volumes: seq<Volume>, nodes: map<string, string>, claims: map<string, Claim>, name: string)
    requires Exclusive(reviewed, volumes, nodes, claims) && name in claims
    ensures Backed(reviewed, volumes, nodes, name, claims[name])
  {
    hide Bound, OnNode, Serves, Meet, LeavesAlone;
    var i :| 0 <= i < |volumes| && Serves(reviewed, volumes[i], nodes, name, claims[name]);
    ServesMeansBound(reviewed, volumes[i], nodes, name, claims[name]);
  }

  lemma NamesTell(reviewed: Review, volumes: seq<Volume>, nodes: map<string, string>, claims: map<string, Claim>)
    requires Exclusive(reviewed, volumes, nodes, claims)
    ensures Named(volumes)
  {
    hide Serves, Meet, LeavesAlone;
    forall i, j | 0 <= i < j < |volumes| ensures VolumeName(volumes[i]) != VolumeName(volumes[j]) {
      assert VolumeName(volumes[i])[0] == volumes[i].name && VolumeName(volumes[j])[0] == volumes[j].name;
    }
  }

  /** A volume of a claim, and another one that could sit on its node, have no overlapping locations. */
  lemma OthersApart(
    reviewed: Review, volumes: seq<Volume>, nodes: map<string, string>, claims: map<string, Claim>, name: string,
    i: nat, j: nat, k: nat, l: nat)
    requires Exclusive(reviewed, volumes, nodes, claims) && name in claims && i < |volumes| && j < |volumes| && i != j
    requires volumes[i].name == claims[name].volumeName && k < |Locations(volumes[i])| && l < |Locations(volumes[j])|
    requires Locations(volumes[j])[l].node.None? || Locations(volumes[j])[l].node == Locations(volumes[i])[k].node
    ensures !PathsOverlap(Locations(volumes[i])[k].path, Locations(volumes[j])[l].path)
  {
    hide Serves, Meet, Locations, PathsOverlap, LeavesAlone, KeepsDataIn, Components;
    DirectoryAt(volumes[i], k);
    DirectoryAt(volumes[j], l);
    assert !Meet(volumes[i], volumes[j]);
    MeetMeansOverlap(volumes[i], volumes[j]);
  }

  lemma ClaimsDoNotMeet(
    reviewed: Review, volumes: seq<Volume>, nodes: map<string, string>, claims: map<string, Claim>,
    a: string, b: string, at: Location, bt: Location)
    requires Exclusive(reviewed, volumes, nodes, claims) && a in claims && b in claims && a != b
    requires LiesAt(volumes, claims[a], at) && LiesAt(volumes, claims[b], bt)
    ensures !(at.node == bt.node && PathsOverlap(at.path, bt.path))
  {
    hide Exclusive, Locations, PathsOverlap, Serves;
    var i :| 0 <= i < |volumes| && volumes[i].name == claims[a].volumeName && Locations(volumes[i]) == [at];
    var j :| 0 <= j < |volumes| && volumes[j].name == claims[b].volumeName && Locations(volumes[j]) == [bt];
    OwnVolume(reviewed, volumes, nodes, claims, a, i);
    OwnVolume(reviewed, volumes, nodes, claims, b, j);
    ServesIsNamed(reviewed, volumes[i], nodes, a, claims[a]);
    ServesIsNamed(reviewed, volumes[j], nodes, b, claims[b]);
    assert [at][0] == at && [bt][0] == bt;
    if at.node == bt.node { OthersApart(reviewed, volumes, nodes, claims, a, i, j, 0, 0); }
  }

  lemma ForeignIsHarmless(
    reviewed: Review, volumes: seq<Volume>, nodes: map<string, string>, claims: map<string, Claim>, j: nat)
    requires Exclusive(reviewed, volumes, nodes, claims) && j < |volumes| && Foreign(volumes[j], claims)
    ensures Harmless(volumes, claims, volumes[j])
  {
    hide Locations, PathsOverlap, Serves, Meet, Releases;
    assert LeavesAlone(volumes[j].claimRef, claims);
    HarmlessLeavesAlone(volumes, claims, volumes[j]);
    forall k, name, at | 0 <= k < |Locations(volumes[j])| && name in claims && LiesAt(volumes, claims[name], at)
      ensures !Collides(Locations(volumes[j])[k], at)
    {
      var i :| 0 <= i < |volumes| && volumes[i].name == claims[name].volumeName && Locations(volumes[i]) == [at];
      assert [at][0] == at;
      OverlapIsSymmetric(at.path, Locations(volumes[j])[k].path);
      if Locations(volumes[j])[k].node.None? || Locations(volumes[j])[k].node == at.node {
        OthersApart(reviewed, volumes, nodes, claims, name, i, j, 0, k);
      }
    }
  }

  /** The check accepts exactly the snapshots that are exclusive in terms of names, directories and nodes. */
  lemma AcceptedMeansExclusive(
    reviewed: Review, volumes: seq<Volume>, nodes: map<string, string>, claims: map<string, Claim>)
    ensures Accepted(reviewed, volumes, nodes, claims) <==> Exclusive(reviewed, volumes, nodes, claims)
  {
    hide Accepted, Exclusive;
    if Accepted(reviewed, volumes, nodes, claims) { AcceptedThenExclusive(reviewed, volumes, nodes, claims); }
    if Exclusive(reviewed, volumes, nodes, claims) { ExclusiveThenAccepted(reviewed, volumes, nodes, claims); }
  }

  lemma NamedIsDistinct(volumes: seq<Volume>)
    requires Named(volumes)
    ensures DistinctBy(VolumeKey, volumes)
  {
    forall i, j | 0 <= i < j < |volumes| ensures VolumeKey(volumes[i]) != VolumeKey(volumes[j]) {
      assert VolumeName(volumes[i]) != VolumeName(volumes[j]);
      assert VolumeKey(volumes[i])[0] == volumes[i].name && VolumeKey(volumes[j])[0] == volumes[j].name;
    }
  }

  /** Two accepted snapshots have the same fingerprint exactly when they hold the same volumes, in
      whatever order the server listed them. */
  lemma FingerprintForgetsOrder(a: seq<Volume>, b: seq<Volume>)
    requires Named(a) && Named(b)
    ensures Sort(VolumeKey, a) == Sort(VolumeKey, b) <==> multiset(a) == multiset(b)
  {
    hide Named, Sort, SortedBy, DistinctBy;
    SortIsSorted(VolumeKey, a);
    SortIsSorted(VolumeKey, b);
    if multiset(a) == multiset(b) {
      NamedIsDistinct(a);
      SortForgetsOrder(VolumeKey, a, b);
    }
  }
}
