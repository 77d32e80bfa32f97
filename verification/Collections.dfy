/** The collection-name registry that all of a subscription's vBuckets feed with system events. */
module Collections {
  import opened Base
  import opened Manifests

  datatype EventKind =
    | CollectionCreated(scopeId: nat, collectionId: nat)
    | CollectionDropped(scopeId: nat, collectionId: nat)
    | ScopeDropped(scopeId: nat)
    | Understood
    | Unknown

  datatype SystemEvent = SystemEvent(manifestUid: nat, kind: EventKind, key: string)

  datatype CollectionError = OutsideSelection | LegacyStream | BadName | NameChanged | NameTaken | DroppedAbsent

  /** `observed` is the highest manifest UID taken in; a legacy stream has neither it nor a selection. */
  datatype Registry = Registry(resolved: Option<Resolved>, observed: Option<nat>, stale: bool) {
    predicate Valid() {
      resolved.Some? <==> observed.Some?
    }
  }

  function Fresh(selection: Option<Resolved>): (r: Registry)
    ensures r.Valid()
  {
    Registry(selection, if selection.Some? then Some(selection.value.manifestUid) else None, false)
  }

  predicate Taken(names: map<nat, string>, id: nat, name: string) {
    exists other :: other in names && other != id && names[other] == name
  }

  /** The effect of one event on the names, apart from the manifest-UID gate. */
  function Effect(r: Resolved, event: SystemEvent): Result<map<nat, string>, CollectionError> {
    match event.kind
    case CollectionCreated(scopeId, id) =>
      if scopeId != r.scopeId || r.collectionIds != [] then Ok(r.names)
      else if !ValidName(event.key) then Err(BadName)
      else if id in r.names && r.names[id] != event.key then Err(NameChanged)
      else if Taken(r.names, id, event.key) then Err(NameTaken)
      else Ok(r.names[id := event.key])
    case CollectionDropped(scopeId, id) =>
      if scopeId != r.scopeId then Ok(r.names)
      else if id !in r.names && (r.collectionIds == [] || id in r.collectionIds) then Err(DroppedAbsent)
      else Ok(r.names - {id})
    case ScopeDropped(scopeId) => if scopeId == r.scopeId then Ok(map[]) else Ok(r.names)
    case _ => Ok(r.names)
  }

  function Applied(s: Registry, event: SystemEvent): Result<Registry, CollectionError>
    requires s.Valid()
  {
    if s.observed.None? then Err(LegacyStream)
    else if event.manifestUid <= s.observed.value then Ok(s)
    else
      var names :- Effect(s.resolved.value, event);
      Ok(Registry(Some(s.resolved.value.(names := names)), Some(event.manifestUid), s.stale || event.kind.Unknown?))
  }

  class RegistryState {
    var resolved: Option<Resolved>
    var observed: Option<nat>
    var stale: bool

    function State(): Registry
      reads this
    {
      Registry(resolved, observed, stale)
    }

    constructor (selection: Option<Resolved>)
      ensures State() == Fresh(selection)
    {
      resolved := selection;
      observed := if selection.Some? then Some(selection.value.manifestUid) else None;
      stale := false;
    }

    /** Names one document event, or refuses it; the registry does not change. */
    method Decorate(legacyName: Option<string>, id: Option<nat>) returns (r: Result<string, CollectionError>)
      ensures match NameFor(State(), legacyName, id)
              case Some(name) => r == Ok(name)
              case None => r == Err(OutsideSelection)
    {
      if id.Some? && resolved.Some? && id.value in resolved.value.names {
        return Ok(resolved.value.names[id.value]);
      }
      if id.None? && resolved.None? && legacyName.Some? {
        return Ok(legacyName.value);
      }
      return Err(OutsideSelection);
    }

    /** An error leaves the registry as it was. */
    method ApplySystemEvent(event: SystemEvent) returns (r: Result<(), CollectionError>)
      requires State().Valid()
      modifies this
      ensures State() == After(old(State()), event) && State().Valid()
      ensures match Applied(old(State()), event)
              case Ok(_) => r == Ok(())
              case Err(error) => r == Err(error)
    {
      if observed.None? {
        return Err(LegacyStream);
      }
      if event.manifestUid <= observed.value {
        return Ok(());
      }
      var selection := resolved.value;
      match event.kind {
        case CollectionCreated(scopeId, id) =>
          if scopeId == selection.scopeId && selection.collectionIds == [] {
            if !ValidName(event.key) {
              return Err(BadName);
            }
            if id in selection.names && selection.names[id] != event.key {
              return Err(NameChanged);
            }
            if Taken(selection.names, id, event.key) {
              return Err(NameTaken);
            }
            resolved := Some(selection.(names := selection.names[id := event.key]));
          }
        case CollectionDropped(scopeId, id) =>
          if scopeId == selection.scopeId {
            var wasSelected := selection.collectionIds == [] || id in selection.collectionIds;
            if id !in selection.names && wasSelected {
              return Err(DroppedAbsent);
            }
            resolved := Some(selection.(names := selection.names - {id}));
          }
        case ScopeDropped(scopeId) =>
          if scopeId == selection.scopeId {
            resolved := Some(selection.(names := map[]));
          }
        case Understood =>
        case Unknown =>
          stale := true;
      }
      observed := Some(event.manifestUid);
      r := Ok(());
    }
  }

  // ---------------------------------------------------------------- documents

  /** The name a document event gets; a legacy stream has one name and no collection ids. */
  function NameFor(s: Registry, legacyName: Option<string>, id: Option<nat>): Option<string> {
    match (id, s.resolved)
    case (Some(id), Some(r)) => if id in r.names then Some(r.names[id]) else None
    case (None, None) => legacyName
    case _ => None
  }

  // ---------------------------------------------------------------- runs

  /** The registry once an event was offered to it, whether it was taken, ignored or refused. */
  function After(s: Registry, event: SystemEvent): (t: Registry)
    requires s.Valid()
    ensures t.Valid()
    ensures s.observed.Some? <==> t.observed.Some?
  {
    match Applied(s, event)
    case Ok(t) => t
    case Err(_) => s
  }

  function AfterAll(s: Registry, events: seq<SystemEvent>, count: nat): (t: Registry)
    requires s.Valid() && count <= |events|
    ensures t.Valid()
    ensures s.observed.Some? <==> t.observed.Some?
  {
    if count == 0 then s else After(AfterAll(s, events, count - 1), events[count - 1])
  }

  predicate UidsNeverFall(events: seq<SystemEvent>) {
    forall i, j :: 0 <= i <= j < |events| ==> events[i].manifestUid <= events[j].manifestUid
  }

  predicate UidsRise(events: seq<SystemEvent>) {
    forall i, j :: 0 <= i < j < |events| ==> events[i].manifestUid < events[j].manifestUid
  }

  predicate Covers(s: Registry, event: SystemEvent) {
    s.observed.Some? && event.manifestUid <= s.observed.value
  }

  lemma {:induction false} ObservedNeverFalls(s: Registry, event: SystemEvent)
    requires s.Valid() && s.observed.Some?
    ensures s.observed.value <= After(s, event).observed.value
    ensures Covers(After(s, event), event) || After(s, event) == s
  {
  }

  /** Once an event was offered, either its UID is covered or nothing changed since just before it. */
  lemma {:induction false} CoveredOrUnchanged(s: Registry, events: seq<SystemEvent>, j: nat, k: nat)
    requires s.Valid() && s.observed.Some? && UidsNeverFall(events)
    requires j < k <= |events|
    ensures Covers(AfterAll(s, events, k), events[j]) || AfterAll(s, events, k) == AfterAll(s, events, j)
    decreases k
  {
    ObservedNeverFalls(AfterAll(s, events, k - 1), events[k - 1]);
    if j < k - 1 {
      CoveredOrUnchanged(s, events, j, k - 1);
    }
  }

  /** Redelivering any event of the prefix already taken in changes nothing. */
  lemma {:induction false} RedeliveryIsIdle(s: Registry, events: seq<SystemEvent>, j: nat, k: nat)
    requires s.Valid() && UidsNeverFall(events) && j < k <= |events|
    ensures After(AfterAll(s, events, k), events[j]) == AfterAll(s, events, k)
  {
    if s.observed.Some? {
      CoveredOrUnchanged(s, events, j, k);
      if !Covers(AfterAll(s, events, k), events[j]) {
        // Nothing changed since before event j, so neither did it when it was first offered.
        CoveredOrUnchanged(s, events, j, j + 1);
        CoverageIsKept(s, events, j, j + 1, k);
      }
    }
  }

  lemma {:induction false} CoverageIsKept(s: Registry, events: seq<SystemEvent>, j: nat, m: nat, k: nat)
    requires s.Valid() && s.observed.Some? && j < |events| && m <= k <= |events|
    ensures Covers(AfterAll(s, events, m), events[j]) ==> Covers(AfterAll(s, events, k), events[j])
    decreases k
  {
    if m < k {
      CoverageIsKept(s, events, j, m, k - 1);
      ObservedNeverFalls(AfterAll(s, events, k - 1), events[k - 1]);
    }
  }

  /** A vBucket delivers its next event of the sequence, or is rewound and will repeat some. */
  datatype Visit = Deliver(vbucket: nat) | Rewind(vbucket: nat, to: nat)

  /** `next` gives each vBucket's position in the sequence, `furthest` the longest prefix delivered. */
  datatype Feed = Feed(registry: Registry, next: map<nat, nat>, furthest: nat)

  function Position(f: Feed, vbucket: nat): nat {
    if vbucket in f.next then f.next[vbucket] else 0
  }

  predicate Enabled(f: Feed, events: seq<SystemEvent>, v: Visit) {
    match v
    case Deliver(vb) => Position(f, vb) < |events|
    case Rewind(vb, to) => to <= Position(f, vb)
  }

  function Visited(f: Feed, events: seq<SystemEvent>, v: Visit): Feed
    requires f.registry.Valid() && Enabled(f, events, v)
  {
    match v
    case Deliver(vb) =>
      var at := Position(f, vb);
      Feed(After(f.registry, events[at]), f.next[vb := at + 1], Max(f.furthest, at + 1))
    case Rewind(vb, to) => f.(next := f.next[vb := to])
  }

  predicate Runs(f: Feed, events: seq<SystemEvent>, visits: seq<Visit>)
    requires f.registry.Valid()
    decreases |visits|
  {
    visits == [] ||
    (Enabled(f, events, visits[0]) && Runs(Visited(f, events, visits[0]), events, visits[1..]))
  }

  function Final(f: Feed, events: seq<SystemEvent>, visits: seq<Visit>): Feed
    requires f.registry.Valid() && Runs(f, events, visits)
    decreases |visits|
  {
    if visits == [] then f else Final(Visited(f, events, visits[0]), events, visits[1..])
  }

  ghost predicate InStep(f: Feed, s: Registry, events: seq<SystemEvent>)
    requires s.Valid()
  {
    && f.furthest <= |events|
    && f.registry == AfterAll(s, events, f.furthest)
    && forall vb <- f.next :: f.next[vb] <= f.furthest
  }

  lemma {:induction false} VisitKeepsStep(f: Feed, s: Registry, events: seq<SystemEvent>, v: Visit)
    requires s.Valid() && UidsNeverFall(events) && InStep(f, s, events) && Enabled(f, events, v)
    ensures InStep(Visited(f, events, v), s, events)
  {
    if v.Deliver? && Position(f, v.vbucket) < f.furthest {
      RedeliveryIsIdle(s, events, Position(f, v.vbucket), f.furthest);
    }
  }

  lemma {:induction false} RunKeepsStep(f: Feed, s: Registry, events: seq<SystemEvent>, visits: seq<Visit>)
    requires s.Valid() && UidsNeverFall(events) && InStep(f, s, events) && Runs(f, events, visits)
    ensures InStep(Final(f, events, visits), s, events)
    decreases |visits|
  {
    if visits != [] {
      VisitKeepsStep(f, s, events, visits[0]);
      RunKeepsStep(Visited(f, events, visits[0]), s, events, visits[1..]);
    }
  }

  /**
   * Confluence: however the vBuckets' deliveries of one event sequence interleave, with replays after
   * a rollback and with refused events, the registry is the one that applying the longest delivered
   * prefix once would leave.
   */
  lemma {:induction false} RegistryConfluence(s: Registry, events: seq<SystemEvent>, visits: seq<Visit>)
    requires s.Valid() && UidsNeverFall(events) && Runs(Feed(s, map[], 0), events, visits)
    ensures var f := Final(Feed(s, map[], 0), events, visits);
            f.furthest <= |events| && f.registry == AfterAll(s, events, f.furthest)
  {
    RunKeepsStep(Feed(s, map[], 0), s, events, visits);
  }

  /** Exactly when a document is named, whichever vBucket delivers it and wherever that one stands: its
      collection is among the names after the longest prefix any vBucket has delivered. */
  lemma {:induction false} DocumentIsNamedIff(s: Registry, events: seq<SystemEvent>, visits: seq<Visit>,
                                              legacyName: Option<string>, id: nat)
    requires s.Valid() && UidsNeverFall(events) && Runs(Feed(s, map[], 0), events, visits)
    ensures var f := Final(Feed(s, map[], 0), events, visits);
            && f.furthest <= |events|
            && var r := AfterAll(s, events, f.furthest).resolved;
            && (NameFor(f.registry, legacyName, Some(id)).Some? <==> r.Some? && id in r.value.names)
            && (r.Some? && id in r.value.names ==> NameFor(f.registry, legacyName, Some(id)) == Some(r.value.names[id]))
  {
    RegistryConfluence(s, events, visits);
  }

  predicate Recreates(event: SystemEvent, id: nat) {
    event.kind.CollectionCreated? && event.kind.collectionId == id
  }

  lemma {:induction false} EventAddsNoName(s: Registry, event: SystemEvent, id: nat)
    requires s.Valid() && s.resolved.Some? && id !in s.resolved.value.names && !Recreates(event, id)
    ensures After(s, event).resolved.Some? && id !in After(s, event).resolved.value.names
  {
  }

  /** The names are shared: once one vBucket has delivered a drop, documents of the collection are
      refused on every vBucket, also on those whose own drop is still to come. */
  lemma {:induction false} DropIsShared(s: Registry, events: seq<SystemEvent>, j: nat, k: nat, id: nat)
    requires s.Valid() && s.resolved.Some? && j < k <= |events|
    requires events[j].kind == CollectionDropped(s.resolved.value.scopeId, id)
    requires var met := AfterAll(s, events, j); !Covers(met, events[j]) && Applied(met, events[j]).Ok?
    requires forall i :: j < i < k ==> !Recreates(events[i], id)
    ensures AfterAll(s, events, k).resolved.Some? && id !in AfterAll(s, events, k).resolved.value.names
    decreases k
  {
    if j < k - 1 {
      DropIsShared(s, events, j, k - 1, id);
      EventAddsNoName(AfterAll(s, events, k - 1), events[k - 1], id);
    } else {
      ScopeIsKept(s, events, j);
    }
  }

  lemma {:induction false} ScopeIsKept(s: Registry, events: seq<SystemEvent>, count: nat)
    requires s.Valid() && s.resolved.Some? && count <= |events|
    ensures AfterAll(s, events, count).resolved.Some?
    ensures AfterAll(s, events, count).resolved.value.scopeId == s.resolved.value.scopeId
  {
    if count != 0 {
      ScopeIsKept(s, events, count - 1);
    }
  }

  // ---------------------------------------------------------------- what one prefix leaves

  /** The names when every event takes effect, gate or no gate; a refused event is passed over. */
  function NamesAfter(r: Resolved, events: seq<SystemEvent>, count: nat): Resolved
    requires count <= |events|
  {
    if count == 0 then r
    else
      var before := NamesAfter(r, events, count - 1);
      match Effect(before, events[count - 1])
      case Ok(names) => before.(names := names)
      case Err(_) => before
  }

  /** With rising UIDs above the manifest's own, the gate lets every event through exactly once. */
  lemma {:induction false} EveryEventTakesEffect(s: Registry, events: seq<SystemEvent>, count: nat)
    requires s.Valid() && s.observed.Some? && UidsRise(events) && count <= |events|
    requires forall e <- events :: !Covers(s, e)
    ensures AfterAll(s, events, count).resolved == Some(NamesAfter(s.resolved.value, events, count))
    ensures AfterAll(s, events, count).observed == s.observed
            || exists i :: 0 <= i < count && AfterAll(s, events, count).observed == Some(events[i].manifestUid)
    ensures AfterAll(s, events, count).stale ==
            (s.stale || exists i :: 0 <= i < count && events[i].kind.Unknown?)
  {
    if count != 0 {
      EveryEventTakesEffect(s, events, count - 1);
      var before, last := AfterAll(s, events, count - 1), events[count - 1];
      assert last in events;
      if before.observed != s.observed {
        var i :| 0 <= i < count - 1 && before.observed == Some(events[i].manifestUid);
      }
      assert !Covers(before, last);
    }
  }

  /** No event of the prefix is refused by the registry it meets. */
  predicate NoneRefused(s: Registry, events: seq<SystemEvent>, count: nat)
    requires s.Valid() && count <= |events|
  {
    count == 0 ||
    (NoneRefused(s, events, count - 1) && Applied(AfterAll(s, events, count - 1), events[count - 1]).Ok?)
  }

  /** No event of the prefix is passed over by the manifest-UID gate. */
  predicate NoneGated(s: Registry, events: seq<SystemEvent>, count: nat)
    requires s.Valid() && count <= |events|
  {
    count == 0 ||
    (NoneGated(s, events, count - 1) && !Covers(AfterAll(s, events, count - 1), events[count - 1]))
  }

  predicate RisesAbove(s: Registry, events: seq<SystemEvent>, count: nat)
    requires count <= |events|
  {
    && (forall i :: 0 <= i < count ==> !Covers(s, events[i]))
    && (forall i, j :: 0 <= i < j < count ==> events[i].manifestUid < events[j].manifestUid)
  }

  /** Exactly when the gate passes over nothing: the UIDs strictly rise and lie above the manifest's. */
  lemma {:induction false} GateIsOpenIffUidsRise(s: Registry, events: seq<SystemEvent>, count: nat)
    requires s.Valid() && s.observed.Some? && UidsNeverFall(events) && count <= |events|
    requires NoneRefused(s, events, count)
    ensures NoneGated(s, events, count) <==> RisesAbove(s, events, count)
    ensures NoneGated(s, events, count) ==>
              AfterAll(s, events, count).observed ==
              (if count == 0 then s.observed else Some(events[count - 1].manifestUid))
  {
    if count > 1 {
      GateIsOpenIffUidsRise(s, events, count - 1);
      var before, last := events[count - 2], events[count - 1];
      if RisesAbove(s, events, count) {
        assert before.manifestUid < last.manifestUid;
      } else if RisesAbove(s, events, count - 1) {
        assert !(before.manifestUid < last.manifestUid);
      }
    } else if count == 1 {
      assert AfterAll(s, events, 0) == s;
      assert NoneGated(s, events, 0);
    }
  }

  /** Of two events under one UID, an accepted first leaves the second without effect. */
  lemma {:induction false} SharedUidLosesTheSecond(s: Registry, first: SystemEvent, second: SystemEvent)
    requires s.Valid() && Applied(s, first).Ok? && second.manifestUid <= first.manifestUid
    ensures Applied(After(s, first), second) == Ok(After(s, first))
  {
  }

  /** Such a pair: two collections created under one manifest UID, of which only the first is named. */
  lemma {:induction false} SecondCreationIsLost(r: Resolved)
    requires r.scopeId == 8 && r.collectionIds == [] && r.manifestUid == 5 && r.names == map[]
    ensures var events := [SystemEvent(6, CollectionCreated(8, 20), "a"),
                           SystemEvent(6, CollectionCreated(8, 21), "b")];
            && UidsNeverFall(events)
            && AfterAll(Fresh(Some(r)), events, 2).resolved.value.names == map[20 := "a"]
            && NamesAfter(r, events, 2).names == map[20 := "a", 21 := "b"]
  {
    var a, b := SystemEvent(6, CollectionCreated(8, 20), "a"), SystemEvent(6, CollectionCreated(8, 21), "b");
    var events := [a, b];
    assert !Taken(r.names, 20, "a") && !Taken(map[20 := "a"], 21, "b");
    var first := r.(names := map[20 := "a"]);
    assert Effect(r, a) == Ok(first.names);
    assert NamesAfter(r, events, 1) == first by {
      assert NamesAfter(r, events, 0) == r;
    }
    assert AfterAll(Fresh(Some(r)), events, 1) == Registry(Some(first), Some(6), false) by {
      assert AfterAll(Fresh(Some(r)), events, 0) == Fresh(Some(r));
    }
    assert Effect(first, b) == Ok(map[20 := "a", 21 := "b"]);
  }

  ghost predicate OneNameEach(s: Registry) {
    s.resolved.Some? ==>
      var r := s.resolved.value;
      && Injective(r.names)
      && (r.collectionIds != [] ==> forall id <- r.names :: id in r.collectionIds)
  }

  lemma {:induction false} EventKeepsNames(s: Registry, event: SystemEvent)
    requires s.Valid() && OneNameEach(s)
    ensures OneNameEach(After(s, event))
  {
  }

  /**
   * A registry resolved from an identified manifest never maps two ids to one name, and never names
   * a collection outside its selection, whatever events arrive.
   */
  lemma {:induction false} NamesStayInjective(manifest: Manifest, configured: CollectionFilter, streamId: Option<nat>,
                                              r: Resolved, events: seq<SystemEvent>, count: nat)
    requires manifest.Identified() && ResolvesTo(manifest, configured, streamId, r) && count <= |events|
    ensures OneNameEach(AfterAll(Fresh(Some(r)), events, count))
  {
    if count == 0 {
      ResolvedFilterEncodes(manifest, configured, streamId, r);
    } else {
      NamesStayInjective(manifest, configured, streamId, r, events, count - 1);
      EventKeepsNames(AfterAll(Fresh(Some(r)), events, count - 1), events[count - 1]);
    }
  }
}
