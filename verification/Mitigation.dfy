/** Rollback mitigation: which copies are observed, and when a sequence number may be released. */
module Mitigation {
  import opened Base
  import opened Ascending
  import opened Topology

  // ---------------------------------------------------------------- the plan

  /** The distinct nodes that hold a copy of a vBucket. */
  function Copies(topology: ClusterTopology, vbucket: nat): (nodes: set<string>)
    requires vbucket in topology.routes
  {
    {topology.routes[vbucket].active} + set n <- topology.routes[vbucket].replicas
  }

  datatype Plan = Plan(expectedCopies: map<nat, nat>, targets: map<string, seq<nat>>)

  datatype PlanError = NoBranch | NotRouted | NoEndpoint

  predicate Observable(topology: ClusterTopology, branches: map<nat, nat>, vbucket: nat)
    requires vbucket in branches
  {
    && branches[vbucket] != 0
    && vbucket in topology.routes
    && Copies(topology, vbucket) <= topology.endpoints.Keys
  }

  predicate Targets(plan: Plan, node: string, vbucket: nat) {
    node in plan.targets && vbucket in plan.targets[node]
  }

  ghost predicate CountsCopies(topology: ClusterTopology, chosen: set<nat>, expectedCopies: map<nat, nat>) {
    && chosen <= topology.routes.Keys && expectedCopies.Keys == chosen
    && forall v <- chosen :: expectedCopies[v] == |Copies(topology, v)|
  }

  ghost predicate AllRise(targets: map<string, seq<nat>>) {
    forall n <- targets :: targets[n] != [] && Rises(targets[n])
  }

  ghost predicate TargetsCopies(topology: ClusterTopology, chosen: set<nat>, plan: Plan) {
    && chosen <= topology.routes.Keys
    && forall n, v :: Targets(plan, n, v) <==> v in chosen && n in Copies(topology, v)
  }

  /** Every copy of every vBucket in `chosen` is a target of its own node, once, and nothing else is. */
  ghost predicate Plans(topology: ClusterTopology, chosen: set<nat>, plan: Plan) {
    && CountsCopies(topology, chosen, plan.expectedCopies)
    && AllRise(plan.targets)
    && TargetsCopies(topology, chosen, plan)
  }

  /** One vBucket's targets, added node by node. */
  method AddTargets(topology: ClusterTopology, vbucket: nat, targets: map<string, seq<nat>>)
    returns (r: Result<map<string, seq<nat>>, PlanError>)
    requires vbucket in topology.routes
    ensures r.Ok? <==> Copies(topology, vbucket) <= topology.endpoints.Keys
    ensures r.Ok? ==> Extends(targets, r.value, vbucket, Copies(topology, vbucket))
  {
    var next := targets;
    var rest := Copies(topology, vbucket);
    while rest != {}
      invariant rest <= Copies(topology, vbucket)
      invariant Copies(topology, vbucket) - rest <= topology.endpoints.Keys
      invariant Extends(targets, next, vbucket, Copies(topology, vbucket) - rest)
      decreases rest
    {
      var node :| node in rest;
      if node !in topology.endpoints {
        return Err(NoEndpoint);
      }
      var list := if node in next then next[node] else [];
      next := next[node := list + [vbucket]];
      rest := rest - {node};
    }
    assert Copies(topology, vbucket) - rest == Copies(topology, vbucket);
    r := Ok(next);
  }

  ghost predicate Extends(targets: map<string, seq<nat>>, next: map<string, seq<nat>>, vbucket: nat,
                          nodes: set<string>)
  {
    && next.Keys == targets.Keys + nodes
    && (forall n <- nodes :: next[n] == (if n in targets then targets[n] else []) + [vbucket])
    && (forall n <- targets :: n !in nodes ==> next[n] == targets[n])
  }

  method PlanOne(topology: ClusterTopology, branches: map<nat, nat>, v: nat, plan: Plan, ghost chosen: set<nat>)
    returns (r: Result<Plan, PlanError>)
    requires v in branches && Plans(topology, chosen, plan) && forall u <- chosen :: u < v
    ensures r.Ok? <==> Observable(topology, branches, v)
    ensures r.Ok? ==> Plans(topology, chosen + {v}, r.value)
  {
    if branches[v] == 0 {
      return Err(NoBranch);
    }
    if v !in topology.routes {
      return Err(NotRouted);
    }
    var targets := AddTargets(topology, v, plan.targets);
    if targets.Err? {
      return Err(targets.error);
    }
    var next := Plan(plan.expectedCopies[v := |Copies(topology, v)|], targets.value);
    PlanGrows(topology, chosen, v, plan, next);
    r := Ok(next);
  }

  /** A plan exists exactly when every vBucket has a branch, a route and an endpoint for each copy. */
  method BuildPlan(topology: ClusterTopology, branches: map<nat, nat>) returns (r: Result<Plan, PlanError>)
    ensures r.Ok? <==> forall v <- branches :: Observable(topology, branches, v)
    ensures r.Ok? ==> Plans(topology, branches.Keys, r.value)
  {
    var plan := Plan(map[], map[]);
    ghost var chosen: set<nat> := {};
    var rest := branches.Keys;
    while rest != {}
      invariant chosen + rest == branches.Keys
      invariant Separated(chosen, rest)
      invariant forall u <- chosen :: Observable(topology, branches, u)
      invariant Plans(topology, chosen, plan)
      decreases rest
    {
      var v := Least(rest);
      SeparatedAdvance(chosen, rest, v);
      plan :- PlanOne(topology, branches, v, plan, chosen);
      rest := rest - {v};
      chosen := chosen + {v};
    }
    assert chosen == branches.Keys;
    r := Ok(plan);
  }

  ghost predicate AllBelow(targets: map<string, seq<nat>>, v: nat) {
    forall n <- targets :: Below(targets[n], v)
  }

  predicate Below(s: seq<nat>, v: nat) {
    forall i :: 0 <= i < |s| ==> s[i] < v
  }

  ghost predicate Separated(chosen: set<nat>, rest: set<nat>) {
    forall u, w :: u in chosen && w in rest ==> u < w
  }

  lemma {:induction false} SeparatedAdvance(chosen: set<nat>, rest: set<nat>, v: nat)
    requires Separated(chosen, rest) && IsLeast(v, rest)
    ensures Separated(chosen + {v}, rest - {v}) && (chosen + {v}) + (rest - {v}) == chosen + rest
    ensures forall u <- chosen :: u < v
  {
  }

  lemma {:induction false} TargetsAreBelow(topology: ClusterTopology, chosen: set<nat>, plan: Plan, v: nat)
    requires TargetsCopies(topology, chosen, plan) && forall u <- chosen :: u < v
    ensures AllBelow(plan.targets, v)
  {
    forall n, i | n in plan.targets && 0 <= i < |plan.targets[n]| ensures plan.targets[n][i] < v {
      assert Targets(plan, n, plan.targets[n][i]);
    }
  }

  lemma {:induction false} PlanGrows(topology: ClusterTopology, chosen: set<nat>, v: nat, plan: Plan, next: Plan)
    requires Plans(topology, chosen, plan) && v in topology.routes && forall u <- chosen :: u < v
    requires next.expectedCopies == plan.expectedCopies[v := |Copies(topology, v)|]
    requires Extends(plan.targets, next.targets, v, Copies(topology, v))
    ensures Plans(topology, chosen + {v}, next)
  {
    CountsGrow(topology, chosen, v, plan.expectedCopies);
    TargetsAreBelow(topology, chosen, plan, v);
    ListsGrow(plan.targets, next.targets, v, Copies(topology, v));
    TargetsGrow(topology, chosen, v, plan, next);
  }

  lemma {:induction false} CountsGrow(topology: ClusterTopology, chosen: set<nat>, v: nat, counts: map<nat, nat>)
    requires CountsCopies(topology, chosen, counts) && v in topology.routes
    ensures CountsCopies(topology, chosen + {v}, counts[v := |Copies(topology, v)|])
  {
  }

  lemma {:induction false} ListsGrow(targets: map<string, seq<nat>>, next: map<string, seq<nat>>, v: nat,
                                     nodes: set<string>)
    requires AllRise(targets) && AllBelow(targets, v) && Extends(targets, next, v, nodes)
    ensures AllRise(next)
  {
    forall n <- next ensures next[n] != [] && Rises(next[n]) {
      if n in nodes && n in targets {
        assert Rises(targets[n]) && Below(targets[n], v);
      }
    }
  }

  lemma {:induction false} TargetsGrow(topology: ClusterTopology, chosen: set<nat>, v: nat, plan: Plan, next: Plan)
    requires TargetsCopies(topology, chosen, plan) && v in topology.routes && v !in chosen
    requires Extends(plan.targets, next.targets, v, Copies(topology, v))
    ensures TargetsCopies(topology, chosen + {v}, next)
  {
    var copies := Copies(topology, v);
    forall n, u ensures Targets(next, n, u) <==> Targets(plan, n, u) || (u == v && n in copies) {
      if n in copies {
        assert next.targets[n] == (if n in plan.targets then plan.targets[n] else []) + [v];
      }
    }
  }

  // ---------------------------------------------------------------- one cycle

  /** A copy's reply; a node that could not be observed fails every one of its targets. */
  datatype Reply =
    | Unobserved
    | Observed(vbucket: nat, uuid: nat, didFailover: bool, persisted: nat, current: nat)

  datatype Observation = Observation(vbucket: nat, expectedUuid: nat, reply: Reply) {
    predicate Changed() {
      reply.Observed? && (reply.didFailover || reply.uuid != expectedUuid)
    }

    /** The copy answered for this vBucket, on its branch, and soundly. */
    predicate Good() {
      && reply.Observed? && !reply.didFailover && reply.uuid == expectedUuid
      && reply.vbucket == vbucket && reply.persisted <= reply.current
    }
  }

  datatype Outcome = Persisted(uuid: nat, seqno: nat) | Transient | BranchChanged(observedUuid: nat)

  /** The observations of one vBucket, in arrival order. */
  function Group(observations: seq<Observation>, vbucket: nat): (r: seq<Observation>)
    ensures forall i :: 0 <= i < |r| ==> r[i].vbucket == vbucket
  {
    if observations == [] then []
    else if observations[0].vbucket == vbucket then [observations[0]] + Group(observations[1..], vbucket)
    else Group(observations[1..], vbucket)
  }

  /** The last of these observations to report another branch reports this one. */
  ghost predicate ChangedTo(results: seq<Observation>, count: nat, uuid: nat)
    requires count <= |results|
  {
    exists i :: && 0 <= i < count && results[i].Changed() && results[i].reply.uuid == uuid
                && forall j :: i < j < count ==> !results[j].Changed()
  }

  ghost predicate NoneChanged(results: seq<Observation>) {
    forall i :: 0 <= i < |results| ==> !results[i].Changed()
  }

  ghost predicate AllGood(results: seq<Observation>) {
    forall i :: 0 <= i < |results| ==> results[i].Good()
  }

  ghost predicate IsMinimum(seqno: nat, results: seq<Observation>) {
    && (forall i :: 0 <= i < |results| && results[i].Good() ==> seqno <= results[i].reply.persisted)
    && exists i :: 0 <= i < |results| && results[i].Good() && results[i].reply.persisted == seqno
  }

  /** What a vBucket's observations amount to, in whatever order they arrived. */
  ghost predicate Concludes(results: seq<Observation>, expectedCount: nat, outcome: Outcome) {
    match outcome
    case BranchChanged(uuid) => ChangedTo(results, |results|, uuid)
    case Persisted(uuid, seqno) =>
      && results != [] && |results| == expectedCount && AllGood(results)
      && uuid == results[0].expectedUuid && IsMinimum(seqno, results)
    case Transient =>
      NoneChanged(results) && (results == [] || |results| != expectedCount || !AllGood(results))
  }

  method AggregateOne(vbucket: nat, expectedCount: nat, results: seq<Observation>) returns (outcome: Outcome)
    requires forall i :: 0 <= i < |results| ==> results[i].vbucket == vbucket
    ensures Concludes(results, expectedCount, outcome)
  {
    var minimum: Option<nat> := None;
    var expectedUuid: Option<nat> := None;
    var transient := false;
    var changed: Option<nat> := None;
    var i := 0;
    while i < |results|
      invariant 0 <= i <= |results|
      invariant i > 0 ==> changed.Some? || transient || minimum.Some?
      invariant expectedUuid == if i == 0 then None else Some(results[0].expectedUuid)
      invariant changed.None? ==> NoneChanged(results[..i])
      invariant changed.Some? ==> ChangedTo(results, i, changed.value)
      invariant changed.None? ==> (transient <==> !AllGood(results[..i]))
      invariant minimum.None? ==> forall k :: 0 <= k < i ==> !results[k].Good()
      invariant minimum.Some? ==> IsMinimum(minimum.value, results[..i])
    {
      var o := results[i];
      if expectedUuid.None? {
        expectedUuid := Some(o.expectedUuid);
      }
      if o.Changed() {
        changed := Some(o.reply.uuid);
      } else if o.reply.Unobserved? || o.reply.vbucket != vbucket || o.reply.persisted > o.reply.current {
        transient := true;
        assert results[..i + 1][i] == o;
      } else {
        MinimumGrows(results, i, minimum);
        minimum := Some(if minimum.None? then o.reply.persisted else Min(minimum.value, o.reply.persisted));
      }
      MinimumIgnores(results, i, minimum);
      i := i + 1;
    }
    assert results[..i] == results;
    if changed.Some? {
      return BranchChanged(changed.value);
    }
    if |results| != expectedCount || transient {
      return Transient;
    }
    if expectedUuid.Some? && minimum.Some? {
      return Persisted(expectedUuid.value, minimum.value);
    }
    return Transient;
  }

  lemma {:induction false} MinimumGrows(results: seq<Observation>, i: nat, minimum: Option<nat>)
    requires i < |results| && results[i].Good()
    requires minimum.None? ==> forall k :: 0 <= k < i ==> !results[k].Good()
    requires minimum.Some? ==> IsMinimum(minimum.value, results[..i])
    ensures var p := results[i].reply.persisted;
            IsMinimum(if minimum.None? then p else Min(minimum.value, p), results[..i + 1])
  {
    var next := results[..i + 1];
    assert next[i] == results[i];
    if minimum.Some? {
      var k :| 0 <= k < i && results[..i][k].Good() && results[..i][k].reply.persisted == minimum.value;
      assert next[k] == results[..i][k];
      assert forall j :: 0 <= j < i ==> next[j] == results[..i][j];
    }
  }

  lemma {:induction false} MinimumIgnores(results: seq<Observation>, i: nat, minimum: Option<nat>)
    requires i < |results|
    ensures !results[i].Good() && minimum.Some? && IsMinimum(minimum.value, results[..i]) ==>
              IsMinimum(minimum.value, results[..i + 1])
  {
    if !results[i].Good() && minimum.Some? && IsMinimum(minimum.value, results[..i]) {
      var k :| 0 <= k < i && results[..i][k].Good() && results[..i][k].reply.persisted == minimum.value;
      assert results[..i + 1][k] == results[..i][k];
      assert forall j :: 0 <= j < i ==> results[..i + 1][j] == results[..i][j];
    }
  }

  method AggregateObservations(expectedCopies: map<nat, nat>, observations: seq<Observation>)
    returns (batch: map<nat, Outcome>)
    ensures batch.Keys == expectedCopies.Keys
    ensures forall v <- batch :: Concludes(Group(observations, v), expectedCopies[v], batch[v])
  {
    batch := map[];
    var rest := expectedCopies.Keys;
    while rest != {}
      invariant rest <= expectedCopies.Keys
      invariant batch.Keys == expectedCopies.Keys - rest
      invariant forall v <- batch :: Concludes(Group(observations, v), expectedCopies[v], batch[v])
      decreases rest
    {
      var v :| v in rest;
      var outcome := AggregateOne(v, expectedCopies[v], Group(observations, v));
      batch := batch[v := outcome];
      rest := rest - {v};
    }
  }
}
