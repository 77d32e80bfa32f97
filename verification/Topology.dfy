/** Cluster topology: revisions, routes, what an update changes, and grouping by node. */
module Topology {
  import opened Base
  import opened Ascending

  datatype Revision = Revision(epoch: nat, revision: nat) {
    predicate IsNewerThan(current: Revision) {
      epoch > current.epoch || (epoch == current.epoch && (revision == 0 || revision > current.revision))
    }
  }

  datatype Route = Route(active: string, replicas: seq<string>)

  /** `endpoints` gives each node's dial address. */
  datatype ClusterTopology = ClusterTopology(
    bucket: string, bucketUuid: Option<string>, revision: Revision,
    endpoints: map<string, string>, routes: map<nat, Route>)
  {
    function ActiveNode(vbucket: nat): Option<string> {
      if vbucket in routes then Some(routes[vbucket].active) else None
    }

    predicate SameBucket(candidate: ClusterTopology) {
      && bucket == candidate.bucket
      && (bucketUuid.Some? && candidate.bucketUuid.Some? ==> bucketUuid == candidate.bucketUuid)
    }
  }

  datatype Change = Change(
    generation: nat, added: set<string>, removed: set<string>, reconnect: set<string>, rerouted: set<nat>)

  datatype TopologyError = OtherBucket | GenerationOverflow | UnknownVBucket

  /** What a change must report of the step from one topology to the next. */
  ghost predicate Reports(change: Change, before: ClusterTopology, after: ClusterTopology) {
    && (forall n :: n in change.added <==> n in after.endpoints && n !in before.endpoints)
    && (forall n :: n in change.removed <==> n in before.endpoints && n !in after.endpoints)
    && (forall n :: n in change.reconnect <==>
         n in after.endpoints && (n in before.endpoints ==> before.endpoints[n] != after.endpoints[n]))
    && (forall v :: v in change.rerouted <==> before.ActiveNode(v) != after.ActiveNode(v))
  }

  /** The change from one topology to the next, as it is handed to the subscriptions. */
  function ChangeBetween(before: ClusterTopology, after: ClusterTopology, generation: nat): (change: Change)
    ensures Reports(change, before, after)
  {
    var shared := before.endpoints.Keys * after.endpoints.Keys;
    var added := after.endpoints.Keys - before.endpoints.Keys;
    Change(generation, added, before.endpoints.Keys - after.endpoints.Keys,
           added + (set n | n in shared && before.endpoints[n] != after.endpoints[n]),
           set v | v in before.routes.Keys + after.routes.Keys && before.ActiveNode(v) != after.ActiveNode(v))
  }

  datatype State = State(generation: nat, topology: ClusterTopology)

  predicate Accepts(s: State, candidate: ClusterTopology) {
    && s.topology.SameBucket(candidate)
    && candidate.revision.IsNewerThan(s.topology.revision)
    && s.generation < U64_MAX
  }

  function Applied(s: State, candidate: ClusterTopology): State {
    if Accepts(s, candidate) then State(s.generation + 1, candidate) else s
  }

  class TopologyState {
    var generation: nat
    var topology: ClusterTopology

    function Value(): State
      reads this
    {
      State(generation, topology)
    }

    constructor (initial: ClusterTopology)
      ensures Value() == State(1, initial)
    {
      generation := 1;
      topology := initial;
    }

    method Apply(candidate: ClusterTopology) returns (r: Result<Option<Change>, TopologyError>)
      modifies this
      ensures Value() == Applied(old(Value()), candidate)
      ensures r == Err(OtherBucket) <==> !old(topology).SameBucket(candidate)
      ensures r == Ok(None) <==>
              old(topology).SameBucket(candidate) && !candidate.revision.IsNewerThan(old(topology).revision)
      ensures r.Ok? && r.value.Some? <==> Accepts(old(Value()), candidate)
      ensures r.Ok? && r.value.Some? ==>
              r.value.value == ChangeBetween(old(topology), topology, generation)
    {
      if !topology.SameBucket(candidate) {
        return Err(OtherBucket);
      }
      if !candidate.revision.IsNewerThan(topology.revision) {
        return Ok(None);
      }
      var added := candidate.endpoints.Keys - topology.endpoints.Keys;
      var removed := topology.endpoints.Keys - candidate.endpoints.Keys;
      var reconnect := added;
      var shared := topology.endpoints.Keys * candidate.endpoints.Keys;
      var rest := shared;
      while rest != {}
        invariant rest <= shared
        invariant reconnect == added +
                  set n | n in shared - rest && topology.endpoints[n] != candidate.endpoints[n]
        decreases rest
      {
        var node :| node in rest;
        if topology.endpoints[node] != candidate.endpoints[node] {
          reconnect := reconnect + {node};
        }
        rest := rest - {node};
      }
      var all := topology.routes.Keys + candidate.routes.Keys;
      var rerouted := set v | v in all && topology.ActiveNode(v) != candidate.ActiveNode(v);
      if generation >= U64_MAX {
        return Err(GenerationOverflow);
      }
      generation := generation + 1;
      topology := candidate;
      r := Ok(Some(Change(generation, added, removed, reconnect, rerouted)));
    }
  }

  // ---------------------------------------------------------------- runs

  function After(s: State, candidates: seq<ClusterTopology>, count: nat): State
    requires count <= |candidates|
  {
    if count == 0 then s else Applied(After(s, candidates, count - 1), candidates[count - 1])
  }

  predicate AcceptedAt(s: State, candidates: seq<ClusterTopology>, i: nat)
    requires i < |candidates|
  {
    Accepts(After(s, candidates, i), candidates[i])
  }

  function AcceptedCount(s: State, candidates: seq<ClusterTopology>, count: nat): nat
    requires count <= |candidates|
  {
    if count == 0 then 0
    else AcceptedCount(s, candidates, count - 1) + (if AcceptedAt(s, candidates, count - 1) then 1 else 0)
  }

  /** The generation counts the accepted updates; the bucket and the epoch never go back. */
  lemma {:induction false} GenerationCountsUpdates(initial: ClusterTopology, candidates: seq<ClusterTopology>,
                                                   count: nat)
    requires count <= |candidates|
    ensures var s := After(State(1, initial), candidates, count);
            && s.generation == 1 + AcceptedCount(State(1, initial), candidates, count)
            && s.topology.bucket == initial.bucket
            && initial.revision.epoch <= s.topology.revision.epoch
  {
    if count != 0 {
      GenerationCountsUpdates(initial, candidates, count - 1);
    }
  }

  /** Between any two points of a run the epoch never falls and a generation is never reused. */
  lemma {:induction false} RunIsOrdered(s: State, candidates: seq<ClusterTopology>, i: nat, j: nat)
    requires i <= j <= |candidates|
    ensures var a, b := After(s, candidates, i), After(s, candidates, j);
            && a.topology.revision.epoch <= b.topology.revision.epoch
            && a.generation <= b.generation
            && (a.generation == b.generation ==> a == b)
            && (a.topology.revision.epoch == b.topology.revision.epoch
                && (forall k :: i <= k < j ==> candidates[k].revision.revision != 0) ==>
                a.topology.revision.revision <= b.topology.revision.revision)
    decreases j
  {
    if i < j {
      RunIsOrdered(s, candidates, i, j - 1);
    }
  }

  /** The change update `k` hands out reports `v` as rerouted. */
  predicate ReportedAt(s: State, candidates: seq<ClusterTopology>, k: nat, v: nat)
    requires k < |candidates|
  {
    AcceptedAt(s, candidates, k) &&
    v in ChangeBetween(After(s, candidates, k).topology, candidates[k], After(s, candidates, k).generation + 1).rerouted
  }

  /** A vBucket that no change handed out in between reports as rerouted has kept its active node. */
  lemma {:induction false} UnreportedRoutesAreKept(s: State, candidates: seq<ClusterTopology>, i: nat, j: nat, v: nat)
    requires i <= j <= |candidates|
    requires forall k :: i <= k < j ==> !ReportedAt(s, candidates, k, v)
    ensures After(s, candidates, i).topology.ActiveNode(v) == After(s, candidates, j).topology.ActiveNode(v)
    decreases j
  {
    if i < j {
      UnreportedRoutesAreKept(s, candidates, i, j - 1, v);
      assert !ReportedAt(s, candidates, j - 1, v);
    }
  }

  // ---------------------------------------------------------------- the bucket's identity

  /** While every accepted config carries a bucket UUID, it is always the same one. */
  lemma {:induction false} BucketUuidIsKept(s: State, candidates: seq<ClusterTopology>, i: nat, j: nat)
    requires i <= j <= |candidates| && After(s, candidates, i).topology.bucketUuid.Some?
    requires forall k :: i <= k < j && AcceptedAt(s, candidates, k) ==> candidates[k].bucketUuid.Some?
    ensures After(s, candidates, j).topology.bucketUuid == After(s, candidates, i).topology.bucketUuid
    decreases j
  {
    if i < j {
      BucketUuidIsKept(s, candidates, i, j - 1);
      assert AcceptedAt(s, candidates, j - 1) ==> candidates[j - 1].bucketUuid.Some?;
    }
  }

  /** A config without a UUID is where it is lost: from there, and only there, a config of the bucket's
      name passes whatever UUID it carries. */
  lemma {:induction false} AnyUuidPassesIff(current: ClusterTopology, candidate: ClusterTopology)
    ensures (forall uuid :: current.SameBucket(candidate.(bucketUuid := Some(uuid)))) <==>
            current.bucket == candidate.bucket && current.bucketUuid.None?
  {
    if current.bucketUuid.Some? {
      var other := current.bucketUuid.value + "x";
      assert |other| == |current.bucketUuid.value| + 1;
      assert !current.SameBucket(candidate.(bucketUuid := Some(other)));
    } else {
      assert current.SameBucket(candidate.(bucketUuid := Some(""))) <==> current.bucket == candidate.bucket;
    }
  }

  /** So the UUID can change over a run: a config with one, then one without, then one with another. */
  lemma {:induction false} UuidChangesThroughNone(s: State, a: string, b: string)
    requires s.topology.bucketUuid == Some(a) && s.generation < U64_MAX - 1
    ensures var none := s.topology.(bucketUuid := None, revision := Revision(s.topology.revision.epoch + 1, 1));
            var other := none.(bucketUuid := Some(b), revision := Revision(s.topology.revision.epoch + 2, 1));
            && Accepts(s, none) && Accepts(Applied(s, none), other)
            && Applied(Applied(s, none), other).topology.bucketUuid == Some(b)
            && (a != b ==> !Accepts(s, other))
  {
  }

  /** Freshness is no order: within an epoch an unversioned config and any other replace each other. */
  lemma {:induction false} UnversionedReplaceEachOther(a: Revision, b: Revision)
    ensures a.IsNewerThan(b) && b.IsNewerThan(a) <==> a.epoch == b.epoch && (a.revision == 0 || b.revision == 0)
    ensures a.IsNewerThan(a) <==> a.revision == 0
  {
  }

  // ---------------------------------------------------------------- routes

  datatype RouteError = NegativeReplicas | NoMap | TooManyVBuckets | WrongRowLength | BadIndex | NoActive

  predicate IndexFits(index: int, endpoints: seq<string>) {
    -1 <= index < |endpoints|
  }

  predicate RowFits(row: seq<int>, replicas: int, endpoints: seq<string>) {
    && |row| == replicas + 1 && |row| > 0
    && row[0] != -1
    && forall k :: 0 <= k < |row| ==> IndexFits(row[k], endpoints)
  }

  predicate MapFits(rows: seq<seq<int>>, replicas: int, endpoints: seq<string>) {
    && replicas >= 0
    && 1 <= |rows| <= U16_MAX + 1
    && forall v :: 0 <= v < |rows| ==> RowFits(rows[v], replicas, endpoints)
  }

  /** The replica nodes of the first `count` entries, with the empty places left out. */
  function Replicas(row: seq<int>, endpoints: seq<string>, count: nat): seq<string>
    requires count <= |row|
  {
    if count <= 1 then []
    else if 0 <= row[count - 1] < |endpoints|
    then Replicas(row, endpoints, count - 1) + [endpoints[row[count - 1]]]
    else Replicas(row, endpoints, count - 1)
  }

  method BuildRow(row: seq<int>, replicas: nat, endpoints: seq<string>) returns (r: Result<Route, RouteError>)
    ensures r.Ok? <==> RowFits(row, replicas, endpoints)
    ensures r.Ok? ==> r.value == Route(endpoints[row[0]], Replicas(row, endpoints, |row|))
  {
    if |row| != replicas + 1 {
      return Err(WrongRowLength);
    }
    if row[0] == -1 {
      return Err(NoActive);
    }
    if !IndexFits(row[0], endpoints) {
      return Err(BadIndex);
    }
    var nodes: seq<string> := [];
    var i := 1;
    while i < |row|
      invariant 1 <= i <= |row|
      invariant nodes == Replicas(row, endpoints, i)
      invariant forall k :: 0 <= k < i ==> IndexFits(row[k], endpoints)
    {
      if !IndexFits(row[i], endpoints) {
        return Err(BadIndex);
      }
      if row[i] != -1 {
        nodes := nodes + [endpoints[row[i]]];
      }
      i := i + 1;
    }
    r := Ok(Route(endpoints[row[0]], nodes));
  }

  /** Routes are built exactly from the maps that fit, one for every vBucket and no other. */
  method BuildVBucketRoutes(rows: seq<seq<int>>, replicas: int, endpoints: seq<string>)
    returns (r: Result<map<nat, Route>, RouteError>)
    ensures r.Ok? <==> MapFits(rows, replicas, endpoints)
    ensures r.Ok? ==> forall v: nat :: v in r.value <==> v < |rows|
    ensures r.Ok? ==> forall v: nat | v < |rows| ::
              r.value[v] == Route(endpoints[rows[v][0]], Replicas(rows[v], endpoints, |rows[v]|))
  {
    if replicas < 0 {
      return Err(NegativeReplicas);
    }
    if rows == [] {
      return Err(NoMap);
    }
    if |rows| > U16_MAX + 1 {
      return Err(TooManyVBuckets);
    }
    var routes: map<nat, Route> := map[];
    var v := 0;
    while v < |rows|
      invariant 0 <= v <= |rows|
      invariant forall k: nat :: k in routes <==> k < v
      invariant forall k: nat | k < v ::
                  && RowFits(rows[k], replicas, endpoints)
                  && routes[k] == Route(endpoints[rows[k][0]], Replicas(rows[k], endpoints, |rows[k]|))
    {
      var route := BuildRow(rows[v], replicas, endpoints);
      if route.Err? {
        return Err(route.error);
      }
      routes := routes[v := route.value];
      v := v + 1;
    }
    r := Ok(routes);
  }

  lemma {:induction false} ReplicasAreEndpoints(row: seq<int>, endpoints: seq<string>, count: nat)
    requires count <= |row|
    ensures forall n <- Replicas(row, endpoints, count) :: n in endpoints
  {
    if count > 1 {
      ReplicasAreEndpoints(row, endpoints, count - 1);
    }
  }

  // ---------------------------------------------------------------- grouping

  /** The requested vBuckets split by their active nodes, each group ascending without repeats. */
  ghost predicate GroupsOf(topology: ClusterTopology, requested: set<nat>, grouped: map<string, seq<nat>>) {
    && (forall n <- grouped :: grouped[n] != [] && Rises(grouped[n]))
    && (forall n <- grouped, v <- grouped[n] :: v in requested && topology.ActiveNode(v) == Some(n))
    && (forall v <- requested :: v in topology.routes && InGroup(grouped, topology.routes[v].active, v))
  }

  predicate InGroup(grouped: map<string, seq<nat>>, node: string, v: nat) {
    node in grouped && v in grouped[node]
  }

  /** As `GroupsOf`, before the groups are sorted. */
  ghost predicate Collected(topology: ClusterTopology, vbuckets: seq<nat>, count: nat, grouped: map<string, seq<nat>>)
    requires count <= |vbuckets|
  {
    && (forall n <- grouped :: grouped[n] != [])
    && (forall n <- grouped, v <- grouped[n] :: v in vbuckets && topology.ActiveNode(v) == Some(n))
    && (forall k :: 0 <= k < count ==>
         vbuckets[k] in topology.routes && InGroup(grouped, topology.routes[vbuckets[k]].active, vbuckets[k]))
  }

  method ActiveVBucketsByNode(topology: ClusterTopology, vbuckets: seq<nat>)
    returns (r: Result<map<string, seq<nat>>, TopologyError>)
    ensures r.Ok? <==> forall v <- vbuckets :: v in topology.routes
    ensures r.Ok? ==> GroupsOf(topology, (set v <- vbuckets), r.value)
  {
    var grouped: map<string, seq<nat>> := map[];
    var i := 0;
    while i < |vbuckets|
      invariant 0 <= i <= |vbuckets|
      invariant Collected(topology, vbuckets, i, grouped)
    {
      var v := vbuckets[i];
      if v !in topology.routes {
        return Err(UnknownVBucket);
      }
      var node := topology.routes[v].active;
      var group := (if node in grouped then grouped[node] else []) + [v];
      CollectOne(topology, vbuckets, i, grouped, group);
      grouped := grouped[node := group];
      i := i + 1;
    }
    var tidied := map n | n in grouped :: SortedDistinct(grouped[n]);
    TidyingGroups(topology, vbuckets, grouped, tidied);
    r := Ok(tidied);
  }

  lemma {:induction false} CollectOne(topology: ClusterTopology, vbuckets: seq<nat>, i: nat,
                                      grouped: map<string, seq<nat>>, group: seq<nat>)
    requires i < |vbuckets| && Collected(topology, vbuckets, i, grouped)
    requires vbuckets[i] in topology.routes
    requires var node := topology.routes[vbuckets[i]].active;
             group == (if node in grouped then grouped[node] else []) + [vbuckets[i]]
    ensures Collected(topology, vbuckets, i + 1, grouped[topology.routes[vbuckets[i]].active := group])
  {
    var node := topology.routes[vbuckets[i]].active;
    var next := grouped[node := group];
    assert vbuckets[i] in group;
    forall k | 0 <= k < i ensures InGroup(next, topology.routes[vbuckets[k]].active, vbuckets[k]) {
      assert InGroup(grouped, topology.routes[vbuckets[k]].active, vbuckets[k]);
    }
  }

  lemma {:induction false} TidyingGroups(topology: ClusterTopology, vbuckets: seq<nat>,
                                         grouped: map<string, seq<nat>>, tidied: map<string, seq<nat>>)
    requires Collected(topology, vbuckets, |vbuckets|, grouped)
    requires tidied.Keys == grouped.Keys && forall n <- grouped :: Tidies(grouped[n], tidied[n])
    ensures GroupsOf(topology, (set v <- vbuckets), tidied)
    ensures forall v <- vbuckets :: v in topology.routes
  {
    forall n <- tidied ensures tidied[n] != [] {
      assert Tidies(grouped[n], tidied[n]) && grouped[n][0] in grouped[n];
    }
    forall v <- vbuckets ensures v in topology.routes && InGroup(tidied, topology.routes[v].active, v) {
      var k :| 0 <= k < |vbuckets| && vbuckets[k] == v;
      assert InGroup(grouped, topology.routes[vbuckets[k]].active, vbuckets[k]);
    }
  }

  /** Sorting and removing repeats. */
  function SortedDistinct(s: seq<nat>): (r: seq<nat>)
    ensures Tidies(s, r)
  {
    Listed(set v <- s)
  }

  ghost predicate Tidies(s: seq<nat>, r: seq<nat>) {
    Rises(r) && forall v :: v in r <==> v in s
  }

  predicate AtMostOnce(s: seq<nat>, v: nat) {
    forall i, j :: 0 <= i < j < |s| ==> !(s[i] == v && s[j] == v)
  }

  /** The groups are a partition: every requested vBucket is in one group, under one node, once. */
  lemma {:induction false} GroupsPartition(topology: ClusterTopology, requested: set<nat>,
                                           grouped: map<string, seq<nat>>, v: nat)
    requires GroupsOf(topology, requested, grouped)
    ensures v in requested <==> exists n :: InGroup(grouped, n, v)
    ensures forall m, n :: InGroup(grouped, m, v) && InGroup(grouped, n, v) ==> m == n
    ensures forall n <- grouped :: AtMostOnce(grouped[n], v)
  {
    if v in requested {
      assert InGroup(grouped, topology.routes[v].active, v);
    }
  }
}
