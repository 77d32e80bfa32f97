/** Observation cycles over time: what a released sequence number is worth. */
module MitigationSafety {
  import opened Base
  import opened Ascending
  import opened Topology
  import opened Mitigation

  // ---------------------------------------------------------------- the snapshot

  datatype Problem = Omitted | WrongBranch | Regressed | Unsettled

  datatype PartitionState = PartitionState(expectedUuid: nat, persisted: Option<nat>, problem: Option<Problem>)

  function AppliedOne(s: PartitionState, outcome: Option<Outcome>): PartitionState {
    match outcome
    case None => s.(problem := Some(Omitted))
    case Some(Transient) => s.(problem := Some(Unsettled))
    case Some(BranchChanged(_)) => s.(persisted := None, problem := Some(WrongBranch))
    case Some(Persisted(uuid, seqno)) =>
      if uuid != s.expectedUuid then s.(persisted := None, problem := Some(WrongBranch))
      else if s.persisted.Some? && seqno < s.persisted.value then s.(persisted := None, problem := Some(Regressed))
      else s.(persisted := Some(seqno), problem := None)
  }

  function OutcomeFor(batch: map<nat, Outcome>, v: nat): Option<Outcome> {
    if v in batch then Some(batch[v]) else None
  }

  class MitigationSnapshot {
    var partitions: map<nat, PartitionState>

    constructor (branches: map<nat, nat>)
      ensures partitions == map v | v in branches :: PartitionState(branches[v], None, None)
    {
      partitions := map v | v in branches :: PartitionState(branches[v], None, None);
    }

    method Apply(batch: map<nat, Outcome>)
      modifies this
      ensures partitions.Keys == old(partitions).Keys
      ensures forall v <- partitions :: partitions[v] == AppliedOne(old(partitions)[v], OutcomeFor(batch, v))
    {
      var rest := partitions.Keys;
      while rest != {}
        invariant rest <= old(partitions).Keys && partitions.Keys == old(partitions).Keys
        invariant forall v <- partitions ::
                    partitions[v] == if v in rest then old(partitions)[v]
                                     else AppliedOne(old(partitions)[v], OutcomeFor(batch, v))
        decreases rest
      {
        var v := Least(rest);
        var state := partitions[v];
        if v !in batch {
          state := state.(problem := Some(Omitted));
        } else {
          match batch[v] {
            case Persisted(uuid, seqno) =>
              if uuid != state.expectedUuid {
                state := state.(persisted := None, problem := Some(WrongBranch));
              } else if state.persisted.Some? && seqno < state.persisted.value {
                state := state.(persisted := None, problem := Some(Regressed));
              } else {
                state := state.(persisted := Some(seqno), problem := None);
              }
            case Transient =>
              state := state.(problem := Some(Unsettled));
            case BranchChanged(_) =>
              state := state.(persisted := None, problem := Some(WrongBranch));
          }
        }
        partitions := partitions[v := state];
        rest := rest - {v};
      }
    }
  }

  predicate Released(s: PartitionState, seqno: nat) {
    seqno == 0 || (s.persisted.Some? && seqno <= s.persisted.value)
  }

  datatype WaitError = Absent | Stalled

  /**
   * Waits through the snapshots seen before the deadline. The result says whether the delivery was
   * delayed, and is an error unless some snapshot releases the sequence number.
   */
  method WaitUntilSafe(seen: seq<map<nat, PartitionState>>, vbucket: nat,
                       seqno: nat) returns (r: Result<bool, WaitError>)
    requires seen != [] && forall s <- seen :: vbucket in s <==> vbucket in seen[0]
    ensures r == Err(Absent) <==> seqno != 0 && vbucket !in seen[0]
    ensures r.Ok? <==> (seqno == 0 || exists s <- seen :: vbucket in s && Released(s[vbucket], seqno))
    ensures r.Ok? && seqno != 0 ==> vbucket in seen[0] && (r.value <==> !Released(seen[0][vbucket], seqno))
    ensures seqno == 0 ==> r == Ok(false)
  {
    if seqno == 0 {
      return Ok(false);
    }
    var delayed := false;
    var i := 0;
    while i < |seen|
      invariant 0 <= i <= |seen|
      invariant delayed == (i > 0)
      invariant forall k :: 0 <= k < i ==> vbucket in seen[k] && !Released(seen[k][vbucket], seqno)
    {
      assert seen[i] in seen;
      if vbucket !in seen[i] {
        return Err(Absent);
      }
      if Released(seen[i][vbucket], seqno) {
        return Ok(delayed);
      }
      delayed := true;
      i := i + 1;
    }
    return Err(Stalled);
  }

  // ---------------------------------------------------------------- one cycle's observations

  /** The nodes in the order their batches arrived, and each copy's reply. */
  datatype Cycle = Cycle(arrivals: seq<string>, replies: map<(string, nat), Reply>) {
    function ReplyOf(node: string, vbucket: nat): Reply {
      if (node, vbucket) in replies then replies[(node, vbucket)] else Unobserved
    }

    function Observe(branches: map<nat, nat>, node: string, vbucket: nat): Observation {
      Observation(vbucket, if vbucket in branches then branches[vbucket] else 0, ReplyOf(node, vbucket))
    }

    /** One node's batch: an observation for each of its targets from `from` on. */
    function Batch(branches: map<nat, nat>, node: string, targets: seq<nat>, from: nat): seq<Observation>
      requires from <= |targets|
      decreases |targets| - from
    {
      if from == |targets| then []
      else [Observe(branches, node, targets[from])] + Batch(branches, node, targets, from + 1)
    }

    /** Everything observed once the first `count` nodes have answered. */
    function Observations(branches: map<nat, nat>, plan: Plan, count: nat): seq<Observation>
      requires count <= |arrivals|
    {
      if count == 0 then []
      else
        var node := arrivals[count - 1];
        Observations(branches, plan, count - 1) +
        (if node in plan.targets then Batch(branches, node, plan.targets[node], 0) else [])
    }

    /** Every planned node's batch arrives exactly once. */
    ghost predicate Complete(plan: Plan) {
      Distinct(arrivals) && forall n :: n in arrivals <==> n in plan.targets
    }
  }

  lemma {:induction false} GroupJoins(a: seq<Observation>, b: seq<Observation>, v: nat)
    ensures Group(a + b, v) == Group(a, v) + Group(b, v)
    decreases |a|
  {
    if a == [] {
      assert a + b == b;
    } else {
      assert (a + b)[1..] == a[1..] + b;
      GroupJoins(a[1..], b, v);
    }
  }

  lemma {:induction false} BatchMisses(c: Cycle, branches: map<nat, nat>, node: string, targets: seq<nat>,
                                       from: nat, v: nat)
    requires from <= |targets| && forall i :: from <= i < |targets| ==> targets[i] != v
    ensures Group(c.Batch(branches, node, targets, from), v) == []
    decreases |targets| - from
  {
    if from < |targets| {
      BatchMisses(c, branches, node, targets, from + 1, v);
      assert c.Batch(branches, node, targets, from)[1..] == c.Batch(branches, node, targets, from + 1);
    }
  }

  lemma {:induction false} BatchHits(c: Cycle, branches: map<nat, nat>, node: string, targets: seq<nat>, from: nat,
                                     at: nat)
    requires Rises(targets) && from <= at < |targets|
    ensures Group(c.Batch(branches, node, targets, from), targets[at]) == [c.Observe(branches, node, targets[at])]
    decreases at - from
  {
    var rest := c.Batch(branches, node, targets, from + 1);
    assert c.Batch(branches, node, targets, from)[1..] == rest;
    if from < at {
      BatchHits(c, branches, node, targets, from + 1, at);
    } else {
      BatchMisses(c, branches, node, targets, from + 1, targets[at]);
    }
  }

  lemma {:induction false} BatchHolds(c: Cycle, branches: map<nat, nat>, node: string, targets: seq<nat>, v: nat)
    requires Rises(targets)
    ensures Group(c.Batch(branches, node, targets, 0), v) ==
            if v in targets then [c.Observe(branches, node, v)] else []
  {
    if v in targets {
      var at :| 0 <= at < |targets| && targets[at] == v;
      BatchHits(c, branches, node, targets, 0, at);
    } else {
      BatchMisses(c, branches, node, targets, 0, v);
    }
  }

  /** The copies among the first `count` nodes to answer, in that order. */
  function Answering(c: Cycle, copies: set<string>, count: nat): seq<string>
    requires count <= |c.arrivals|
  {
    if count == 0 then []
    else
      var before := Answering(c, copies, count - 1);
      if c.arrivals[count - 1] in copies then before + [c.arrivals[count - 1]] else before
  }

  predicate Distinct(s: seq<string>) {
    forall i, j :: 0 <= i < j < |s| ==> s[i] != s[j]
  }

  lemma {:induction false} AnsweringLists(c: Cycle, copies: set<string>, count: nat)
    requires Distinct(c.arrivals) && count <= |c.arrivals|
    ensures Distinct(Answering(c, copies, count))
    ensures forall n :: n in Answering(c, copies, count) <==> n in copies && n in c.arrivals[..count]
  {
    if count != 0 {
      AnsweringLists(c, copies, count - 1);
      var node := c.arrivals[count - 1];
      assert c.arrivals[..count] == c.arrivals[..count - 1] + [node];
      assert node !in Answering(c, copies, count - 1);
    }
  }

  lemma {:induction false} DistinctLength(s: seq<string>, elements: set<string>)
    requires Distinct(s) && forall n :: n in s <==> n in elements
    ensures |s| == |elements|
    decreases |s|
  {
    if s == [] {
      assert elements == {};
    } else {
      var last := s[|s| - 1];
      var front := s[..|s| - 1];
      assert s == front + [last];
      assert last !in front;
      DistinctLength(front, elements - {last});
    }
  }

  /** The results are the observations of these nodes, in order. */
  ghost predicate ObservedFrom(c: Cycle, branches: map<nat, nat>, v: nat, nodes: seq<string>,
                               results: seq<Observation>)
  {
    && |results| == |nodes|
    && forall i :: 0 <= i < |nodes| ==> results[i] == c.Observe(branches, nodes[i], v)
  }

  /** The observations of the copies among the first `count` nodes to answer. */
  function Heard(c: Cycle, branches: map<nat, nat>, v: nat, copies: set<string>, count: nat): seq<Observation>
    requires count <= |c.arrivals|
  {
    if count == 0 then []
    else
      var before := Heard(c, branches, v, copies, count - 1);
      if c.arrivals[count - 1] in copies then before + [c.Observe(branches, c.arrivals[count - 1], v)] else before
  }

  lemma {:induction false} HeardFromAnswering(c: Cycle, branches: map<nat, nat>, v: nat, copies: set<string>,
                                              count: nat)
    requires count <= |c.arrivals|
    ensures ObservedFrom(c, branches, v, Answering(c, copies, count), Heard(c, branches, v, copies, count))
  {
    if count != 0 {
      HeardFromAnswering(c, branches, v, copies, count - 1);
    }
  }

  /** The node's batch observes the vBucket once if the node holds a copy, and not at all otherwise. */
  ghost predicate Covers(c: Cycle, branches: map<nat, nat>, plan: Plan, node: string, v: nat, copies: set<string>) {
    && node in plan.targets
    && Group(c.Batch(branches, node, plan.targets[node], 0), v) ==
       if node in copies then [c.Observe(branches, node, v)] else []
  }

  lemma {:induction false} BatchAdds(branches: map<nat, nat>, plan: Plan, c: Cycle, v: nat, copies: set<string>,
                                     count: nat)
    requires 0 < count <= |c.arrivals| && Covers(c, branches, plan, c.arrivals[count - 1], v, copies)
    requires Group(c.Observations(branches, plan, count - 1), v) == Heard(c, branches, v, copies, count - 1)
    ensures Group(c.Observations(branches, plan, count), v) == Heard(c, branches, v, copies, count)
  {
    var node := c.arrivals[count - 1];
    GroupJoins(c.Observations(branches, plan, count - 1), c.Batch(branches, node, plan.targets[node], 0), v);
    var before := Heard(c, branches, v, copies, count - 1);
    assert before + [] == before;
  }

  ghost predicate AllCover(c: Cycle, branches: map<nat, nat>, plan: Plan, v: nat, copies: set<string>, count: nat)
    requires count <= |c.arrivals|
  {
    count == 0 ||
    (Covers(c, branches, plan, c.arrivals[count - 1], v, copies) && AllCover(c, branches, plan, v, copies, count - 1))
  }

  lemma {:induction false} ResultsSoFar(branches: map<nat, nat>, plan: Plan, c: Cycle, v: nat, copies: set<string>,
                                        count: nat)
    requires count <= |c.arrivals| && AllCover(c, branches, plan, v, copies, count)
    ensures Group(c.Observations(branches, plan, count), v) == Heard(c, branches, v, copies, count)
  {
    if count != 0 {
      ResultsSoFar(branches, plan, c, v, copies, count - 1);
      BatchAdds(branches, plan, c, v, copies, count);
    }
  }

  lemma {:induction false} NodesCover(branches: map<nat, nat>, plan: Plan, c: Cycle, v: nat, copies: set<string>,
                                      count: nat)
    requires AllRise(plan.targets) && c.Complete(plan) && count <= |c.arrivals|
    requires forall n :: Targets(plan, n, v) <==> n in copies
    ensures AllCover(c, branches, plan, v, copies, count)
  {
    if count != 0 {
      var node := c.arrivals[count - 1];
      assert node in c.arrivals;
      assert Targets(plan, node, v) <==> node in copies;
      BatchHolds(c, branches, node, plan.targets[node], v);
      NodesCover(branches, plan, c, v, copies, count - 1);
    }
  }

  function Results(branches: map<nat, nat>, plan: Plan, c: Cycle, v: nat): seq<Observation> {
    Group(c.Observations(branches, plan, |c.arrivals|), v)
  }

  lemma {:induction false} CopiesAreTargets(topology: ClusterTopology, chosen: set<nat>, plan: Plan, v: nat)
    requires Plans(topology, chosen, plan) && v in chosen
    ensures forall n :: Targets(plan, n, v) <==> n in Copies(topology, v)
  {
  }

  /** Once a cycle is over, every planned distinct copy has been heard exactly once. */
  lemma {:induction false} EveryCopyIsHeard(branches: map<nat, nat>, plan: Plan, c: Cycle, v: nat, copies: set<string>)
    returns (nodes: seq<string>)
    requires AllRise(plan.targets) && c.Complete(plan)
    requires forall n :: Targets(plan, n, v) <==> n in copies
    ensures ObservedFrom(c, branches, v, nodes, Results(branches, plan, c, v))
    ensures forall n :: n in nodes <==> n in copies
    ensures |nodes| == |copies|
  {
    var count := |c.arrivals|;
    nodes := Answering(c, copies, count);
    NodesCover(branches, plan, c, v, copies, count);
    ResultsSoFar(branches, plan, c, v, copies, count);
    HeardFromAnswering(c, branches, v, copies, count);
    AnsweringLists(c, copies, count);
    assert c.arrivals[..count] == c.arrivals;
    forall n <- copies ensures n in c.arrivals {
      assert Targets(plan, n, v);
    }
    DistinctLength(nodes, copies);
  }

  // ---------------------------------------------------------------- runs

  /** A copy stands by `seqno`: it is on the expected branch and has persisted at least that much. */
  predicate StandsBy(c: Cycle, branches: map<nat, nat>, node: string, v: nat, seqno: nat) {
    var o := c.Observe(branches, node, v);
    o.Good() && seqno <= o.reply.persisted
  }

  predicate Differs(c: Cycle, branches: map<nat, nat>, node: string, v: nat) {
    c.Observe(branches, node, v).Changed()
  }

  ghost predicate AllStandBy(c: Cycle, branches: map<nat, nat>, copies: set<string>, v: nat, seqno: nat) {
    forall n <- copies :: StandsBy(c, branches, n, v, seqno)
  }

  ghost predicate SomeDiffer(c: Cycle, branches: map<nat, nat>, copies: set<string>, v: nat) {
    exists n <- copies :: Differs(c, branches, n, v)
  }

  /** No copy reports another branch, but not every copy gave a sound answer. */
  ghost predicate Inconclusive(c: Cycle, branches: map<nat, nat>, copies: set<string>, v: nat) {
    !SomeDiffer(c, branches, copies, v) && !AllStandBy(c, branches, copies, v, 0)
  }

  ghost predicate Yields(plan: Plan, branches: map<nat, nat>, c: Cycle, batch: map<nat, Outcome>) {
    && c.Complete(plan)
    && batch.Keys == plan.expectedCopies.Keys
    && forall v <- batch :: Concludes(Results(branches, plan, c, v), plan.expectedCopies[v], batch[v])
  }

  /** The outcome for a vBucket, told from its copies alone: `seqno` is the least they all stand by. */
  ghost predicate Means(c: Cycle, branches: map<nat, nat>, copies: set<string>, v: nat, outcome: Outcome)
    requires v in branches
  {
    match outcome
    case Persisted(uuid, seqno) =>
      && uuid == branches[v] && AllStandBy(c, branches, copies, v, seqno)
      && !AllStandBy(c, branches, copies, v, seqno + 1) && !SomeDiffer(c, branches, copies, v)
    case Transient => Inconclusive(c, branches, copies, v)
    case BranchChanged(_) => SomeDiffer(c, branches, copies, v)
  }

  lemma {:induction false} ConclusionMeans(c: Cycle, branches: map<nat, nat>, copies: set<string>, v: nat,
                                           nodes: seq<string>, results: seq<Observation>, outcome: Outcome)
    requires v in branches && ObservedFrom(c, branches, v, nodes, results) && nodes != []
    requires forall n :: n in nodes <==> n in copies
    requires Concludes(results, |nodes|, outcome)
    ensures Means(c, branches, copies, v, outcome)
  {
    match outcome {
      case Persisted(uuid, seqno) =>
        PersistedMeans(c, branches, copies, v, nodes, results, seqno);
      case Transient =>
        var i :| 0 <= i < |results| && !results[i].Good();
        assert nodes[i] in copies && !StandsBy(c, branches, nodes[i], v, 0);
        NoneDiffer(c, branches, copies, v, nodes, results);
      case BranchChanged(uuid) =>
        var i :| 0 <= i < |results| && results[i].Changed();
        assert nodes[i] in copies && Differs(c, branches, nodes[i], v);
    }
  }

  lemma {:induction false} NoneDiffer(c: Cycle, branches: map<nat, nat>, copies: set<string>, v: nat,
                                      nodes: seq<string>, results: seq<Observation>)
    requires ObservedFrom(c, branches, v, nodes, results) && NoneChanged(results)
    requires forall n :: n in nodes <==> n in copies
    ensures !SomeDiffer(c, branches, copies, v)
  {
    forall n <- copies ensures !Differs(c, branches, n, v) {
      var i :| 0 <= i < |nodes| && nodes[i] == n;
      assert !results[i].Changed();
    }
  }

  lemma {:induction false} PersistedMeans(c: Cycle, branches: map<nat, nat>, copies: set<string>, v: nat,
                                          nodes: seq<string>, results: seq<Observation>, seqno: nat)
    requires v in branches && ObservedFrom(c, branches, v, nodes, results)
    requires forall n :: n in nodes <==> n in copies
    requires AllGood(results) && IsMinimum(seqno, results)
    ensures AllStandBy(c, branches, copies, v, seqno) && !AllStandBy(c, branches, copies, v, seqno + 1)
    ensures !SomeDiffer(c, branches, copies, v)
  {
    forall n <- copies ensures StandsBy(c, branches, n, v, seqno) && !Differs(c, branches, n, v) {
      var i :| 0 <= i < |nodes| && nodes[i] == n;
      assert results[i].Good();
    }
    var i :| 0 <= i < |results| && results[i].Good() && results[i].reply.persisted == seqno;
    assert nodes[i] in copies && !StandsBy(c, branches, nodes[i], v, seqno + 1);
  }

  /** What one cycle's outcome for a vBucket says about its copies. */
  lemma {:induction false} OutcomeMeans(topology: ClusterTopology, branches: map<nat, nat>, plan: Plan, c: Cycle,
                                        batch: map<nat, Outcome>, v: nat)
    requires Plans(topology, branches.Keys, plan) && Yields(plan, branches, c, batch) && v in branches
    ensures Means(c, branches, Copies(topology, v), v, batch[v])
  {
    var copies := Copies(topology, v);
    CopiesAreTargets(topology, branches.Keys, plan, v);
    var nodes := EveryCopyIsHeard(branches, plan, c, v, copies);
    assert topology.routes[v].active in copies;
    ConclusionMeans(c, branches, copies, v, nodes, Results(branches, plan, c, v), batch[v]);
  }

  lemma {:induction false} RepliesDecide(c: Cycle, d: Cycle, branches: map<nat, nat>, copies: set<string>, v: nat,
                                         x: Outcome, y: Outcome)
    requires v in branches && c.replies == d.replies
    requires Means(c, branches, copies, v, x) && Means(d, branches, copies, v, y)
    ensures x.Persisted? == y.Persisted? && x.Transient? == y.Transient?
    ensures x.Persisted? ==> x == y
  {
    forall n, m: nat ensures StandsBy(c, branches, n, v, m) == StandsBy(d, branches, n, v, m)
                      && Differs(c, branches, n, v) == Differs(d, branches, n, v) {
      assert c.Observe(branches, n, v) == d.Observe(branches, n, v);
    }
    assert SomeDiffer(c, branches, copies, v) == SomeDiffer(d, branches, copies, v);
    forall m: nat ensures AllStandBy(c, branches, copies, v, m) == AllStandBy(d, branches, copies, v, m) {
    }
    if x.Persisted? {
      StandingIsPersisted(d, branches, copies, v, y, x.seqno);
      StandingIsPersisted(c, branches, copies, v, x, y.seqno);
    }
  }

  /** Arrival order changes neither the class of an outcome nor the persisted minimum. */
  lemma {:induction false} ArrivalOrderIsIrrelevant(topology: ClusterTopology, branches: map<nat, nat>, plan: Plan,
                                                    c: Cycle, d: Cycle, x: map<nat, Outcome>, y: map<nat, Outcome>,
                                                    v: nat)
    requires Plans(topology, branches.Keys, plan) && v in branches
    requires c.replies == d.replies && Yields(plan, branches, c, x) && Yields(plan, branches, d, y)
    ensures x[v].Persisted? == y[v].Persisted? && x[v].Transient? == y[v].Transient?
    ensures x[v].Persisted? ==> x[v] == y[v]
  {
    OutcomeMeans(topology, branches, plan, c, x, v);
    OutcomeMeans(topology, branches, plan, d, y, v);
    RepliesDecide(c, d, branches, Copies(topology, v), v, x[v], y[v]);
  }

  /** All copies standing by `seqno` can only conclude in a persisted point at or above it. */
  lemma {:induction false} StandingIsPersisted(c: Cycle, branches: map<nat, nat>, copies: set<string>, v: nat,
                                               outcome: Outcome, seqno: nat)
    requires v in branches && Means(c, branches, copies, v, outcome)
    requires AllStandBy(c, branches, copies, v, seqno)
    ensures outcome.Persisted? && outcome.uuid == branches[v] && seqno <= outcome.seqno
  {
    forall low: nat | low <= seqno ensures AllStandBy(c, branches, copies, v, low) {
      StandingWeakens(c, branches, copies, v, seqno, low);
    }
    StandersAgree(c, branches, copies, v, seqno);
    assert outcome.Persisted? ==> outcome.seqno + 1 > seqno;
  }

  lemma {:induction false} StandersAgree(c: Cycle, branches: map<nat, nat>, copies: set<string>, v: nat, seqno: nat)
    requires AllStandBy(c, branches, copies, v, seqno)
    ensures !SomeDiffer(c, branches, copies, v)
  {
    forall n <- copies ensures !Differs(c, branches, n, v) {
      assert StandsBy(c, branches, n, v, seqno);
    }
  }

  lemma {:induction false} StandingWeakens(c: Cycle, branches: map<nat, nat>, copies: set<string>, v: nat,
                                           high: nat, low: nat)
    requires AllStandBy(c, branches, copies, v, high) && low <= high
    ensures AllStandBy(c, branches, copies, v, low)
  {
    forall n <- copies ensures StandsBy(c, branches, n, v, low) {
      assert StandsBy(c, branches, n, v, high);
    }
  }

  lemma {:induction false} InconclusiveIsTransient(c: Cycle, branches: map<nat, nat>, copies: set<string>, v: nat,
                                                   outcome: Outcome)
    requires v in branches && Means(c, branches, copies, v, outcome) && Inconclusive(c, branches, copies, v)
    ensures outcome == Transient
  {
    forall m: nat ensures !AllStandBy(c, branches, copies, v, m) {
      NotAllStand(c, branches, copies, v, m);
    }
  }

  lemma {:induction false} NotAllStand(c: Cycle, branches: map<nat, nat>, copies: set<string>, v: nat, seqno: nat)
    requires !AllStandBy(c, branches, copies, v, 0)
    ensures !AllStandBy(c, branches, copies, v, seqno)
  {
    var n :| n in copies && !StandsBy(c, branches, n, v, 0);
    assert !StandsBy(c, branches, n, v, seqno);
  }

  function StateAfter(uuid: nat, batches: seq<map<nat, Outcome>>, v: nat, count: nat): (s: PartitionState)
    requires count <= |batches|
    ensures s.expectedUuid == uuid
  {
    if count == 0 then PartitionState(uuid, None, None)
    else AppliedOne(StateAfter(uuid, batches, v, count - 1), OutcomeFor(batches[count - 1], v))
  }

  ghost predicate Run(topology: ClusterTopology, branches: map<nat, nat>, plan: Plan,
                      cycles: seq<Cycle>, batches: seq<map<nat, Outcome>>)
  {
    && Plans(topology, branches.Keys, plan)
    && |cycles| == |batches|
    && forall i :: 0 <= i < |cycles| ==> Yields(plan, branches, cycles[i], batches[i])
  }

  /** A run as one vBucket sees it. */
  ghost predicate Meaningful(branches: map<nat, nat>, copies: set<string>, v: nat,
                             cycles: seq<Cycle>, batches: seq<map<nat, Outcome>>)
  {
    && v in branches && |cycles| == |batches|
    && forall i :: 0 <= i < |cycles| ==> v in batches[i] && Means(cycles[i], branches, copies, v, batches[i][v])
  }

  lemma {:induction false} RunIsMeaningful(topology: ClusterTopology, branches: map<nat, nat>, plan: Plan,
                                           cycles: seq<Cycle>, batches: seq<map<nat, Outcome>>, v: nat)
    requires Run(topology, branches, plan, cycles, batches) && v in branches
    ensures Meaningful(branches, Copies(topology, v), v, cycles, batches)
  {
    forall i | 0 <= i < |cycles|
      ensures v in batches[i] && Means(cycles[i], branches, Copies(topology, v), v, batches[i][v])
    {
      OutcomeMeans(topology, branches, plan, cycles[i], batches[i], v);
    }
  }

  lemma {:induction false} LatestConclusive(branches: map<nat, nat>, copies: set<string>, v: nat,
                                            cycles: seq<Cycle>, batches: seq<map<nat, Outcome>>,
                                            count: nat, seqno: nat) returns (k: nat)
    requires Meaningful(branches, copies, v, cycles, batches) && count <= |batches|
    requires seqno != 0 && Released(StateAfter(branches[v], batches, v, count), seqno)
    ensures k < count && AllStandBy(cycles[k], branches, copies, v, seqno)
    ensures forall i :: k < i < count ==> Inconclusive(cycles[i], branches, copies, v)
    decreases count
  {
    k := count - 1;
    assert Means(cycles[k], branches, copies, v, batches[k][v]);
    if batches[k][v].Transient? {
      k := LatestConclusive(branches, copies, v, cycles, batches, k, seqno);
    } else {
      StandingWeakens(cycles[k], branches, copies, v, batches[k][v].seqno, seqno);
    }
  }

  /**
   * Release safety: a nonzero sequence number is released only on the word of the latest conclusive
   * cycle, in which every planned distinct copy was on the expected branch and had persisted at
   * least that much. Every later cycle was inconclusive, so none reported a branch change and none
   * a lower persisted point.
   */
  lemma {:induction false} ReleaseSafety(topology: ClusterTopology, branches: map<nat, nat>, plan: Plan,
                                         cycles: seq<Cycle>, batches: seq<map<nat, Outcome>>,
                                         v: nat, count: nat, seqno: nat) returns (k: nat)
    requires Run(topology, branches, plan, cycles, batches) && v in branches && count <= |batches|
    requires seqno != 0 && Released(StateAfter(branches[v], batches, v, count), seqno)
    ensures k < count && AllStandBy(cycles[k], branches, Copies(topology, v), v, seqno)
    ensures forall i :: k < i < count ==> Inconclusive(cycles[i], branches, Copies(topology, v), v)
  {
    RunIsMeaningful(topology, branches, plan, cycles, batches, v);
    k := LatestConclusive(branches, Copies(topology, v), v, cycles, batches, count, seqno);
  }

  /** At cycle `k` the copies did not fall behind what was persisted before it. */
  ghost predicate NoRegression(branches: map<nat, nat>, copies: set<string>, v: nat,
                               cycles: seq<Cycle>, batches: seq<map<nat, Outcome>>, k: nat)
    requires v in branches && k < |cycles| == |batches|
  {
    var before := StateAfter(branches[v], batches, v, k).persisted;
    before.Some? ==> AllStandBy(cycles[k], branches, copies, v, before.value)
  }

  lemma {:induction false} ReleaseHolds(branches: map<nat, nat>, copies: set<string>, v: nat,
                                        cycles: seq<Cycle>, batches: seq<map<nat, Outcome>>,
                                        k: nat, count: nat, seqno: nat)
    requires Meaningful(branches, copies, v, cycles, batches) && k < count <= |batches|
    requires AllStandBy(cycles[k], branches, copies, v, seqno) && NoRegression(branches, copies, v, cycles, batches, k)
    requires forall i :: k < i < count ==> Inconclusive(cycles[i], branches, copies, v)
    ensures Released(StateAfter(branches[v], batches, v, count), seqno)
    decreases count
  {
    var last := count - 1;
    assert Means(cycles[last], branches, copies, v, batches[last][v]);
    if k < last {
      ReleaseHolds(branches, copies, v, cycles, batches, k, last, seqno);
      InconclusiveIsTransient(cycles[last], branches, copies, v, batches[last][v]);
    } else {
      StandingIsPersisted(cycles[k], branches, copies, v, batches[k][v], seqno);
      var before := StateAfter(branches[v], batches, v, k).persisted;
      if before.Some? {
        StandingIsPersisted(cycles[k], branches, copies, v, batches[k][v], before.value);
      }
    }
  }

  /**
   * The other way: once every copy stands by `seqno` in one cycle, and by the point persisted before
   * it, the sequence number is released and stays so through inconclusive cycles.
   */
  lemma {:induction false} ReleaseIsReached(topology: ClusterTopology, branches: map<nat, nat>, plan: Plan,
                                            cycles: seq<Cycle>, batches: seq<map<nat, Outcome>>,
                                            v: nat, k: nat, count: nat, seqno: nat)
    requires Run(topology, branches, plan, cycles, batches) && v in branches && k < count <= |batches|
    requires AllStandBy(cycles[k], branches, Copies(topology, v), v, seqno)
    requires NoRegression(branches, Copies(topology, v), v, cycles, batches, k)
    requires forall i :: k < i < count ==> Inconclusive(cycles[i], branches, Copies(topology, v), v)
    ensures Released(StateAfter(branches[v], batches, v, count), seqno)
  {
    RunIsMeaningful(topology, branches, plan, cycles, batches, v);
    ReleaseHolds(branches, Copies(topology, v), v, cycles, batches, k, count, seqno);
  }
}
