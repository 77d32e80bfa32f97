/** The Kubernetes watcher: a second producer of balanced assignments. */
module PodWatcher {
  import opened Base
  import opened Ordering
  import opened Assignment

  datatype PodIdentity = PodIdentity(podName: string, uid: string)

  datatype Pod = Pod(podName: string, uid: string, createdAt: nat, ready: bool, terminating: bool) {
    predicate Effective() {
      ready && !terminating
    }
  }

  datatype WatchEvent = Apply(pod: Pod) | Delete(gone: PodIdentity) | Init | InitApply(pod: Pod) | InitDone

  datatype WatchError =
    | OutOfSequence
    | RepeatedPod
    | RepeatedUid
    | GenerationOverflow
    | Fenced
    | AssignmentFailed

  type PodMap = map<string, Pod>

  datatype Watcher = Watcher(
    identity: PodIdentity,
    vbucketCount: nat,
    generation: nat,
    active: PodMap,
    initializing: Option<PodMap>,
    initialized: bool,
    publishedOnce: bool)

  datatype Snapshot = Snapshot(assignment: VBucketAssignment, pods: seq<Pod>)

  /** What `apply` returns: an error, nothing to publish, or a snapshot. */
  type Outcome = Result<Option<Snapshot>, WatchError>

  function NewWatcher(identity: PodIdentity, vbucketCount: nat): Watcher {
    Watcher(identity, vbucketCount, 0, map[], None, false, false)
  }

  predicate UniqueUids(pods: PodMap) {
    forall a, b :: a in pods && b in pods && a != b ==> pods[a].uid != pods[b].uid
  }

  function PodKey(p: Pod): Key {
    Key(p.createdAt, p.uid, p.podName)
  }

  function Keys(pods: PodMap): set<Key> {
    set name | name in pods :: PodKey(pods[name])
  }

  /** The pods of a listing, as far as the map has them. */
  ghost predicate Lists(pods: PodMap, listing: seq<Key>) {
    forall i :: 0 <= i < |listing| ==> listing[i].second in pods
  }

  ghost function PodsOf(pods: PodMap, listing: seq<Key>): seq<Pod>
    requires Lists(pods, listing)
  {
    seq(|listing|, i requires 0 <= i < |listing| => pods[listing[i].second])
  }

  /** Every pod is filed under its own name. */
  predicate Filed(pods: PodMap) {
    forall name :: name in pods ==> pods[name].podName == name
  }

  lemma {:induction false} ListingLists(pods: PodMap)
    requires Filed(pods)
    ensures Lists(pods, Listing(Keys(pods)))
  {
    var s := Listing(Keys(pods));
    forall i | 0 <= i < |s|
      ensures s[i].second in pods
    {
      assert s[i] in Keys(pods);
    }
  }

  ghost function Snapshotted(w: Watcher): (r: (Watcher, Outcome))
    requires Filed(w.active)
    ensures r.0.(publishedOnce := w.publishedOnce) == w
  {
    if w.identity.podName !in w.active then
      (w, if w.publishedOnce then Err(Fenced) else Ok(None))
    else if w.active[w.identity.podName].uid != w.identity.uid then (w, Err(Fenced))
    else
      var listing := Listing(Keys(w.active));
      var position := PositionFrom(listing, w.identity.uid, w.identity.podName, 0);
      if position == |listing| then (w, Err(Fenced))
      else
        match Balanced(w.generation, w.vbucketCount, position + 1, |listing|)
        case Err(_) => (w, Err(AssignmentFailed))
        case Ok(assignment) =>
          ListingLists(w.active);
          (w.(publishedOnce := true), Ok(Some(Snapshot(assignment, PodsOf(w.active, listing)))))
  }

  /** The new active view counts before the snapshot may report a fence. */
  ghost function Committed(w: Watcher, next: PodMap): (r: (Watcher, Outcome))
    requires Filed(next)
    ensures r.0.active == w.active || r.0.active == next
    ensures r.0.initializing == w.initializing
  {
    if !UniqueUids(next) then (w, Err(RepeatedUid))
    else if next == w.active then (w, Ok(None))
    else if w.generation >= U64_MAX then (w, Err(GenerationOverflow))
    else Snapshotted(w.(active := next, generation := w.generation + 1))
  }

  function AfterApply(pods: PodMap, pod: Pod): PodMap {
    if pod.Effective() then pods[pod.podName := pod] else pods - {pod.podName}
  }

  function AfterDelete(pods: PodMap, gone: PodIdentity): PodMap {
    if gone.podName in pods && pods[gone.podName].uid == gone.uid then pods - {gone.podName} else pods
  }

  /** The maps a watcher holds are filed by pod name. */
  ghost predicate WellFiled(w: Watcher) {
    Filed(w.active) && (w.initializing.Some? ==> Filed(w.initializing.value))
  }

  ghost function Handled(w: Watcher, event: WatchEvent): (Watcher, Outcome)
    requires WellFiled(w)
  {
    match event
    case Init => (w.(initializing := Some(map[])), Ok(None))
    case InitApply(pod) =>
      if w.initializing.None? then (w, Err(OutOfSequence))
      else if pod.podName in w.initializing.value then (w, Err(RepeatedPod))
      else if pod.Effective() then
        (w.(initializing := Some(w.initializing.value[pod.podName := pod])), Ok(None))
      else (w, Ok(None))
    case InitDone =>
      if w.initializing.None? then (w, Err(OutOfSequence))
      else Committed(w.(initializing := None, initialized := true), w.initializing.value)
    case Apply(pod) =>
      if !w.initialized || w.initializing.Some? then (w, Err(OutOfSequence))
      else Committed(w, AfterApply(w.active, pod))
    case Delete(gone) =>
      if !w.initialized || w.initializing.Some? then (w, Err(OutOfSequence))
      else Committed(w, AfterDelete(w.active, gone))
  }

  // ---------------------------------------------------------------- the watcher as an object

  class PodMembershipState {
    const identity: PodIdentity
    const vbucketCount: nat
    var generation: nat
    var active: PodMap
    var initializing: Option<PodMap>
    var initialized: bool
    var publishedOnce: bool

    ghost function View(): Watcher
      reads this
    {
      Watcher(identity, vbucketCount, generation, active, initializing, initialized, publishedOnce)
    }

    constructor (identity: PodIdentity, vbucketCount: nat)
      ensures View() == NewWatcher(identity, vbucketCount)
    {
      this.identity, this.vbucketCount := identity, vbucketCount;
      generation, active, initializing := 0, map[], None;
      initialized, publishedOnce := false, false;
    }

    method Handle(event: WatchEvent) returns (r: Outcome)
      requires WellFiled(View())
      modifies this
      ensures (View(), r) == Handled(old(View()), event)
      ensures WellFiled(View())
    {
      match event
      case Init =>
        initializing := Some(map[]);
        r := Ok(None);
      case InitApply(pod) =>
        if initializing.None? {
          return Err(OutOfSequence);
        }
        if pod.podName in initializing.value {
          return Err(RepeatedPod);
        }
        if pod.Effective() {
          initializing := Some(initializing.value[pod.podName := pod]);
        }
        r := Ok(None);
      case InitDone =>
        if initializing.None? {
          return Err(OutOfSequence);
        }
        var next := initializing.value;
        initializing := None;
        initialized := true;
        r := Commit(next);
      case Apply(pod) =>
        if !initialized || initializing.Some? {
          return Err(OutOfSequence);
        }
        r := Commit(AfterApply(active, pod));
      case Delete(gone) =>
        if !initialized || initializing.Some? {
          return Err(OutOfSequence);
        }
        r := Commit(AfterDelete(active, gone));
    }

    method Commit(next: PodMap) returns (r: Outcome)
      requires Filed(next) && WellFiled(View())
      modifies this
      ensures (View(), r) == Committed(old(View()), next)
      ensures WellFiled(View())
    {
      var unique := HasUniqueUids(next);
      if !unique {
        return Err(RepeatedUid);
      }
      if next == active {
        return Ok(None);
      }
      if generation >= U64_MAX {
        return Err(GenerationOverflow);
      }
      active := next;
      generation := generation + 1;
      r := TakeSnapshot();
    }

    method TakeSnapshot() returns (r: Outcome)
      requires WellFiled(View())
      modifies this
      ensures (View(), r) == Snapshotted(old(View()))
      ensures WellFiled(View())
    {
      if identity.podName !in active {
        if publishedOnce {
          return Err(Fenced);
        }
        return Ok(None);
      }
      if active[identity.podName].uid != identity.uid {
        return Err(Fenced);
      }
      var listing := Sort(Keys(active));
      var position := 0;
      while position < |listing| &&
            !(listing[position].first == identity.uid && listing[position].second == identity.podName)
        invariant 0 <= position <= |listing|
        invariant PositionFrom(listing, identity.uid, identity.podName, 0) ==
                  PositionFrom(listing, identity.uid, identity.podName, position)
      {
        position := position + 1;
      }
      if position == |listing| {
        return Err(Fenced);
      }
      var assignment := Balanced(generation, vbucketCount, position + 1, |listing|);
      if assignment.Err? {
        return Err(AssignmentFailed);
      }
      ListingLists(active);
      var pods: seq<Pod> := [];
      var i := 0;
      while i < |listing|
        invariant 0 <= i <= |listing|
        invariant |pods| == i
        invariant forall j :: 0 <= j < i ==> pods[j] == active[listing[j].second]
      {
        pods := pods + [active[listing[i].second]];
        i := i + 1;
      }
      assert pods == PodsOf(active, listing);
      publishedOnce := true;
      r := Ok(Some(Snapshot(assignment.value, pods)));
    }
  }

  method HasUniqueUids(pods: PodMap) returns (unique: bool)
    ensures unique == UniqueUids(pods)
  {
    var seen: set<string> := {};
    var todo := pods.Keys;
    while todo != {}
      invariant todo <= pods.Keys
      invariant forall uid :: uid in seen <==> exists name :: name in pods && name !in todo && pods[name].uid == uid
      invariant forall a, b :: a in pods && b in pods && a !in todo && b !in todo && a != b ==>
                  pods[a].uid != pods[b].uid
      decreases todo
    {
      var name :| name in todo;
      if pods[name].uid in seen {
        return false;
      }
      seen := seen + {pods[name].uid};
      todo := todo - {name};
    }
    return true;
  }

  // ---------------------------------------------------------------- whole runs

  /** The active view holds effective pods with unique UIDs, and so will a finished relist. */
  ghost predicate Inv(w: Watcher) {
    && WellFiled(w)
    && UniqueUids(w.active)
    && AllEffective(w.active)
    && (w.initializing.Some? ==> AllEffective(w.initializing.value))
  }

  ghost predicate AllEffective(pods: PodMap) {
    forall name :: name in pods ==> pods[name].Effective()
  }

  lemma {:induction false} SnapshotKeepsView(w: Watcher)
    requires Filed(w.active)
    ensures Snapshotted(w).0 == w.(publishedOnce := Snapshotted(w).0.publishedOnce)
  {
  }

  lemma {:induction false} CommitKeeps(w: Watcher, next: PodMap)
    requires Inv(w) && Filed(next) && AllEffective(next)
    ensures Inv(Committed(w, next).0)
  {
    if UniqueUids(next) && next != w.active && w.generation < U64_MAX {
      SnapshotKeepsView(w.(active := next, generation := w.generation + 1));
    }
  }

  lemma {:induction false} HandleKeeps(w: Watcher, event: WatchEvent)
    requires Inv(w)
    ensures Inv(Handled(w, event).0)
  {
    match event
    case Init =>
    case InitApply(pod) =>
    case InitDone =>
      if w.initializing.Some? {
        CommitKeeps(w.(initializing := None, initialized := true), w.initializing.value);
      }
    case Apply(pod) =>
      if w.initialized && w.initializing.None? {
        CommitKeeps(w, AfterApply(w.active, pod));
      }
    case Delete(gone) =>
      if w.initialized && w.initializing.None? {
        CommitKeeps(w, AfterDelete(w.active, gone));
      }
  }

  /** The generation rises by one exactly when the active view changes; nothing but the last
      event of a relist, an `Apply` or a `Delete` changes it; and a published snapshot carries
      the new generation. */
  lemma {:induction false} GenerationTracksActive(w: Watcher, event: WatchEvent)
    requires WellFiled(w)
    ensures var (after, outcome) := Handled(w, event);
            && after.generation == w.generation + (if after.active != w.active then 1 else 0)
            && (event.Init? || event.InitApply? ==> after.active == w.active)
            && (outcome.Ok? && outcome.value.Some? ==>
                  && after.active != w.active
                  && outcome.value.value.assignment.generation == after.generation)
  {
  }

  /** The effective pods among the first `count` of a list by name; of several with one name, the first. */
  function Effectives(listed: seq<Pod>, count: nat): PodMap
    requires count <= |listed|
  {
    if count == 0 then map[]
    else
      var before := Effectives(listed, count - 1);
      var last := listed[count - 1];
      if last.Effective() && last.podName !in before then before[last.podName := last] else before
  }

  /** The pod at `i` is the first effective one of its name. */
  predicate Leading(listed: seq<Pod>, i: nat)
    requires i < |listed|
  {
    listed[i].Effective() &&
    forall j :: 0 <= j < i && listed[j].Effective() ==> listed[j].podName != listed[i].podName
  }

  ghost predicate ListsFirst(listed: seq<Pod>, count: nat, pods: PodMap)
    requires count <= |listed|
  {
    && Filed(pods)
    && (forall i :: 0 <= i < count && listed[i].Effective() ==> listed[i].podName in pods)
    && (forall name :: name in pods ==> exists i :: 0 <= i < count && Leading(listed, i) && listed[i] == pods[name])
  }

  lemma {:induction false} EffectivesAreListed(listed: seq<Pod>, count: nat)
    requires count <= |listed|
    ensures ListsFirst(listed, count, Effectives(listed, count))
  {
    if count != 0 {
      EffectivesAreListed(listed, count - 1);
      ListsOneMore(listed, count, Effectives(listed, count - 1), Effectives(listed, count));
    }
  }

  lemma {:induction false} ListsOneMore(listed: seq<Pod>, count: nat, before: PodMap, after: PodMap)
    requires 0 < count <= |listed| && ListsFirst(listed, count - 1, before)
    requires var last := listed[count - 1];
             after == if last.Effective() && last.podName !in before then before[last.podName := last] else before
    ensures ListsFirst(listed, count, after)
  {
    var last := listed[count - 1];
    if last.Effective() && last.podName !in before {
      assert Leading(listed, count - 1);
    }
    forall name | name in after
      ensures exists i :: 0 <= i < count && Leading(listed, i) && listed[i] == after[name]
    {
      if name in before {
        var i :| 0 <= i < count - 1 && Leading(listed, i) && listed[i] == before[name];
        assert after[name] == before[name];
      } else {
        assert after[name] == listed[count - 1] && Leading(listed, count - 1);
      }
    }
  }

  /** `Init` followed by one `InitApply` for each of the first `count` listed pods. */
  ghost function DuringRelist(w: Watcher, listed: seq<Pod>, count: nat): (r: Watcher)
    requires WellFiled(w) && count <= |listed|
    ensures WellFiled(r)
  {
    if count == 0 then Handled(w, Init).0
    else Handled(DuringRelist(w, listed, count - 1), InitApply(listed[count - 1])).0
  }

  /** Every relist is invisible while it runs, and buffers exactly the first effective pod of each name. */
  lemma {:induction false} RelistIsInvisible(w: Watcher, listed: seq<Pod>, count: nat)
    requires WellFiled(w) && count <= |listed|
    ensures DuringRelist(w, listed, count) == w.(initializing := Some(Effectives(listed, count)))
  {
    if count != 0 {
      RelistIsInvisible(w, listed, count - 1);
    }
  }

  /** An entry is refused exactly when an effective pod of its name was listed before. */
  lemma {:induction false} RelistRefusesRepeats(w: Watcher, listed: seq<Pod>, count: nat, next: Pod)
    requires WellFiled(w) && count <= |listed|
    ensures Handled(DuringRelist(w, listed, count), InitApply(next)).1.Err? <==>
            exists i :: 0 <= i < count && listed[i].Effective() && listed[i].podName == next.podName
  {
    RelistIsInvisible(w, listed, count);
    EffectivesAreListed(listed, count);
    if next.podName in Effectives(listed, count) {
      var i :| 0 <= i < count && Leading(listed, i) && listed[i] == Effectives(listed, count)[next.podName];
      assert listed[i].podName == next.podName;
    }
  }

  /** `InitDone` then swaps in the whole relist at once, or refuses it for a repeated UID or for a
      generation that cannot rise. */
  lemma {:induction false} RelistIsAtomic(w: Watcher, listed: seq<Pod>)
    requires WellFiled(w) && w.generation <= U64_MAX
    ensures ListsFirst(listed, |listed|, Effectives(listed, |listed|))
    ensures var after := Handled(DuringRelist(w, listed, |listed|), InitDone).0;
            var next := Effectives(listed, |listed|);
            && after.active == (if UniqueUids(next) && w.generation < U64_MAX then next else w.active)
            && after.initialized && after.initializing.None?
  {
    EffectivesAreListed(listed, |listed|);
    RelistIsInvisible(w, listed, |listed|);
    var next := Effectives(listed, |listed|);
    SnapshotKeepsView(w.(initializing := None, initialized := true, active := next, generation := w.generation + 1));
  }

  lemma {:induction false} HandledStaysFiled(w: Watcher, event: WatchEvent)
    requires WellFiled(w)
    ensures WellFiled(Handled(w, event).0)
  {
    match event
    case Init =>
    case InitApply(pod) =>
    case InitDone =>
      if w.initializing.Some? {
        var r := Committed(w.(initializing := None, initialized := true), w.initializing.value);
        assert r.0.initializing == None;
      }
    case Apply(pod) =>
      var r := Committed(w, AfterApply(w.active, pod));
    case Delete(gone) =>
      var r := Committed(w, AfterDelete(w.active, gone));
  }

  ghost function HandleAll(w: Watcher, events: seq<WatchEvent>): Watcher
    requires WellFiled(w)
    decreases |events|
  {
    if events == [] then w
    else
      HandledStaysFiled(w, events[0]);
      HandleAll(Handled(w, events[0]).0, events[1..])
  }

  /** Generations of the snapshots a run publishes, in order. */
  ghost function Emitted(w: Watcher, events: seq<WatchEvent>): seq<nat>
    requires WellFiled(w)
    decreases |events|
  {
    if events == [] then []
    else
      HandledStaysFiled(w, events[0]);
      var (next, outcome) := Handled(w, events[0]);
      (if outcome.Ok? && outcome.value.Some? then [outcome.value.value.assignment.generation] else [])
      + Emitted(next, events[1..])
  }

  /** Over every event sequence: the invariant holds and emitted generations strictly increase. */
  lemma {:induction false} EmittedGenerationsIncrease(w: Watcher, events: seq<WatchEvent>)
    requires Inv(w)
    ensures Inv(HandleAll(w, events))
    ensures forall i :: 0 <= i < |Emitted(w, events)| ==> w.generation < Emitted(w, events)[i]
    ensures forall i, j :: 0 <= i < j < |Emitted(w, events)| ==> Emitted(w, events)[i] < Emitted(w, events)[j]
    decreases |events|
  {
    if events != [] {
      var next := Handled(w, events[0]).0;
      HandleKeeps(w, events[0]);
      GenerationTracksActive(w, events[0]);
      EmittedGenerationsIncrease(next, events[1..]);
    }
  }

  /** Two pods that see the same active view and count get disjoint slices of it. */
  lemma {:induction false} EqualViewsDisjointSlices(a: Watcher, b: Watcher)
    requires Inv(a) && Inv(b)
    requires a.active == b.active && a.vbucketCount == b.vbucketCount && a.identity != b.identity
    requires Snapshotted(a).1.Ok? && Snapshotted(a).1.value.Some?
    requires Snapshotted(b).1.Ok? && Snapshotted(b).1.value.Some?
    ensures var s, t := Snapshotted(a).1.value.value, Snapshotted(b).1.value.value;
            s.pods == t.pods && s.assignment.vbuckets !! t.assignment.vbuckets
  {
    var listing := Listing(Keys(a.active));
    var i := PositionFrom(listing, a.identity.uid, a.identity.podName, 0);
    var j := PositionFrom(listing, b.identity.uid, b.identity.podName, 0);
    SlicesAreDisjoint(a.vbucketCount, |listing|, i, j);
  }
}
