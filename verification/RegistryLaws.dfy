/** What every registry operation keeps, and what the closing snapshot can rely on. */
module RegistryLaws {
  import opened Base
  import opened Ordering
  import opened Assignment
  import opened Registry

  datatype Operation =
    | Join(who: Identity, now: nat)
    | Beat(who: Identity, now: nat)
    | Prune(now: nat)
    | Leave(who: Identity)

  function Applied(d: Document, op: Operation): Result<Document, RegistryError> {
    match op
    case Join(who, now) => AfterRegister(d, who, now)
    case Beat(who, now) => AfterHeartbeat(d, who, now)
    case Prune(now) => AfterPrune(d, now)
    case Leave(who) => AfterRemove(d, who)
  }

  predicate ValidCaller(op: Operation) {
    op.Join? ==> op.who.Valid()
  }

  /** Who is in, as which incarnation, since when: what the assignment depends on. */
  datatype Seat = Seat(incarnation: string, joinedAt: nat)

  function Roster(d: Document): map<string, Seat> {
    map id | id in d.members :: Seat(d.members[id].incarnation, d.members[id].joinedAt)
  }

  /** Who is in, as which incarnation. */
  function Incarnations(d: Document): map<string, string> {
    map id | id in d.members :: d.members[id].incarnation
  }

  lemma {:induction false} FewerMembers(m: map<string, Member>, gone: set<string>)
    ensures |m - gone| <= |m|
  {
    assert (m - gone).Keys == m.Keys - gone;
    var kept := m.Keys - gone;
    assert |m.Keys - kept| == |m.Keys| - |kept|;
  }

  lemma {:induction false} UpdatedSize(m: map<string, Member>, id: string, v: Member)
    ensures |m[id := v]| == if id in m then |m| else |m| + 1
  {
    assert m[id := v].Keys == m.Keys + {id};
  }

  lemma {:induction false} SeatKeepsValid(d: Document, id: string, m: Member)
    requires d.Valid() && ValidMember(id, m)
    requires id in d.members || |d.members| < d.vbucketCount
    ensures d.(members := d.members[id := m]).Valid()
  {
    UpdatedSize(d.members, id, m);
  }

  lemma {:induction false} RemovalKeepsValid(d: Document, gone: set<string>)
    requires d.Valid()
    ensures d.(members := d.members - gone).Valid()
  {
    FewerMembers(d.members, gone);
  }

  lemma {:induction false} JoinKeepsValid(d: Document, who: Identity, now: nat)
    requires who.Valid() && AfterRegister(d, who, now).Ok?
    ensures AfterRegister(d, who, now).value.Valid()
  {
    if Holds(d, who) {
      SeatKeepsValid(d, who.memberId, Refresh(d.members[who.memberId], now));
    } else {
      SeatKeepsValid(d, who.memberId, Member(who.memberId, who.incarnation, now, now));
    }
  }

  lemma {:induction false} BeatKeepsValid(d: Document, who: Identity, now: nat)
    requires AfterHeartbeat(d, who, now).Ok?
    ensures AfterHeartbeat(d, who, now).value.Valid()
  {
    SeatKeepsValid(d, who.memberId, Refresh(d.members[who.memberId], now));
  }

  lemma {:induction false} PruneKeepsValid(d: Document, now: nat)
    requires AfterPrune(d, now).Ok?
    ensures AfterPrune(d, now).value.Valid()
  {
    RemovalKeepsValid(d, StaleIds(d, now));
  }

  lemma {:induction false} LeaveKeepsValid(d: Document, who: Identity)
    requires AfterRemove(d, who).Ok?
    ensures AfterRemove(d, who).value.Valid()
  {
    RemovalKeepsValid(d, {who.memberId});
  }

  predicate SameSettings(d: Document, next: Document) {
    next.vbucketCount == d.vbucketCount && next.staleAfter == d.staleAfter
  }

  lemma {:induction false} OperationKeepsSettings(d: Document, op: Operation)
    requires Applied(d, op).Ok?
    ensures d.Valid() && SameSettings(d, Applied(d, op).value)
  {
    match op
    case Join(who, now) => assert SameSettings(d, AfterRegister(d, who, now).value);
    case Beat(who, now) => assert SameSettings(d, AfterHeartbeat(d, who, now).value);
    case Prune(now) => assert SameSettings(d, AfterPrune(d, now).value);
    case Leave(who) => assert SameSettings(d, AfterRemove(d, who).value);
  }

  /** Every operation preserves validity and the settings. */
  lemma {:induction false} OperationKeepsValid(d: Document, op: Operation)
    requires ValidCaller(op) && Applied(d, op).Ok?
    ensures d.Valid() && Applied(d, op).value.Valid()
    ensures SameSettings(d, Applied(d, op).value)
  {
    OperationKeepsSettings(d, op);
    match op
    case Join(who, now) => JoinKeepsValid(d, who, now);
    case Beat(who, now) => BeatKeepsValid(d, who, now);
    case Prune(now) => PruneKeepsValid(d, now);
    case Leave(who) => LeaveKeepsValid(d, who);
  }

  lemma {:induction false} BeatKeepsRoster(d: Document, id: string, now: nat)
    requires id in d.members
    ensures var next := d.(members := d.members[id := Refresh(d.members[id], now)]);
            Roster(next) == Roster(d) && Incarnations(next) == Incarnations(d)
  {
  }

  lemma {:induction false} RemovalChangesRoster(d: Document, next: Document, gone: set<string>, id: string)
    requires next.members == d.members - gone && id in gone && id in d.members
    ensures Roster(next) != Roster(d) && Incarnations(next) != Incarnations(d)
  {
    assert id in Roster(d) && id !in Roster(next);
    assert id in Incarnations(d) && id !in Incarnations(next);
  }

  lemma {:induction false} JoinChangesRoster(d: Document, next: Document, id: string, m: Member)
    requires next.members == d.members[id := m]
    requires id in d.members ==> d.members[id].incarnation != m.incarnation
    ensures Roster(next) != Roster(d) && Incarnations(next) != Incarnations(d)
  {
    assert id in Roster(next) && Roster(next)[id].incarnation == m.incarnation;
    assert id in Incarnations(next) && Incarnations(next)[id] == m.incarnation;
  }

  /** The generation rises by one exactly when a member or an incarnation changes, and without such a
      change no joining time does either. */
  lemma {:induction false} GenerationTracksRoster(d: Document, op: Operation)
    requires Applied(d, op).Ok?
    ensures var next := Applied(d, op).value;
            && (next.generation == d.generation || next.generation == d.generation + 1)
            && (next.generation == d.generation <==> Incarnations(next) == Incarnations(d))
            && (next.generation == d.generation <==> Roster(next) == Roster(d))
  {
    var next := Applied(d, op).value;
    match op
    case Join(who, now) =>
      if next.generation == d.generation {
        BeatKeepsRoster(d, who.memberId, now);
      } else {
        JoinChangesRoster(d, next, who.memberId, next.members[who.memberId]);
      }
    case Beat(who, now) =>
      BeatKeepsRoster(d, who.memberId, now);
    case Prune(now) =>
      if next.generation != d.generation {
        var id :| id in StaleIds(d, now);
        RemovalChangesRoster(d, next, StaleIds(d, now), id);
      }
    case Leave(who) =>
      if next.generation != d.generation {
        RemovalChangesRoster(d, next, {who.memberId}, who.memberId);
      }
  }

  /** No operation moves a heartbeat back. */
  lemma {:induction false} HeartbeatsNeverFall(d: Document, op: Operation, id: string)
    requires Applied(d, op).Ok?
    requires id in d.members && id in Applied(d, op).value.members
    ensures d.members[id].heartbeatAt <= Applied(d, op).value.members[id].heartbeatAt
  {
  }

  // ---------------------------------------------------------------- the closing snapshot

  lemma {:induction false} KeysAreFew(d: Document, ids: set<string>)
    requires ids <= d.members.Keys
    ensures |set id | id in ids :: MemberKey(d.members[id])| <= |ids|
    decreases ids
  {
    var keys := set id | id in ids :: MemberKey(d.members[id]);
    if ids == {} {
      assert keys == {};
    } else {
      var one :| one in ids;
      KeysAreFew(d, ids - {one});
      var rest := set id | id in ids - {one} :: MemberKey(d.members[id]);
      assert keys == rest + {MemberKey(d.members[one])};
    }
  }

  lemma {:induction false} ListingFits(d: Document)
    requires d.Valid()
    ensures |Listing(Keys(d))| <= d.vbucketCount
  {
    KeysAreFew(d, d.members.Keys);
    assert Keys(d) == set id | id in d.members.Keys :: MemberKey(d.members[id]);
    ListingLength(Listing(Keys(d)), Keys(d));
  }

  /** A member that holds its seat in a valid document always gets a snapshot: the whole
      listing, and the slice of its own position in it. */
  lemma {:induction false} SeatedGetsSnapshot(d: Document, who: Identity)
    requires d.Valid() && Holds(d, who)
    ensures SnapshotOf(d, who).Ok?
    ensures var s := SnapshotOf(d, who).value;
            var index := PositionFrom(Listing(Keys(d)), who.memberId, "", 0);
            && index < |s.members| && |s.members| == |Listing(Keys(d))|
            && s.members[index].memberId == who.memberId
            && Balanced(d.generation, d.vbucketCount, index + 1, |s.members|) == Ok(s.assignment)
  {
    var listing := Listing(Keys(d));
    var key := MemberKey(d.members[who.memberId]);
    assert key in Keys(d);
    assert key in listing;
    ListingFits(d);
    ListedAreMembers(d);
  }

  datatype Action = Register | Heartbeat | Monitor | Quit

  /** One lifecycle action on a loaded document: the new document, and the closing snapshot. */
  ghost function Acted(d: Document, action: Action, who: Identity, now: nat)
    : Result<(Document, Option<Snapshot>), RegistryError>
  {
    match action
    case Register =>
      var pruned :- AfterPrune(d, now);
      var next :- AfterRegister(pruned, who, now);
      var s :- SnapshotOf(next, who);
      Ok((next, Some(s)))
    case Heartbeat =>
      var next :- AfterHeartbeat(d, who, now);
      var s :- SnapshotOf(next, who);
      Ok((next, Some(s)))
    case Monitor =>
      var beat :- AfterHeartbeat(d, who, now);
      var next :- AfterPrune(beat, now);
      var s :- SnapshotOf(next, who);
      Ok((next, Some(s)))
    case Quit =>
      var next :- AfterRemove(d, who);
      Ok((next, None))
  }

  lemma {:induction false} RegisterSeats(d: Document, who: Identity, now: nat)
    requires AfterRegister(d, who, now).Ok?
    ensures Holds(AfterRegister(d, who, now).value, who)
  {
  }

  /** Pruning right after a heartbeat at the same time never prunes the caller. */
  lemma {:induction false} MonitorKeepsItsSeat(d: Document, who: Identity, now: nat)
    requires AfterHeartbeat(d, who, now).Ok?
    requires AfterPrune(AfterHeartbeat(d, who, now).value, now).Ok?
    ensures Holds(AfterPrune(AfterHeartbeat(d, who, now).value, now).value, who)
  {
    var beat := AfterHeartbeat(d, who, now).value;
    assert !IsStale(beat.members[who.memberId], now, beat.staleAfter);
  }

  /** Register never ends fenced; Heartbeat and Monitor are fenced exactly when the loaded
      document no longer seats the caller, and never by their own closing snapshot. */
  lemma {:induction false} ActionsDoNotFenceTheCaller(d: Document, action: Action, who: Identity, now: nat)
    requires d.Valid() && who.Valid() && !action.Quit?
    ensures Acted(d, action, who, now) == Err(Fenced) <==> !action.Register? && !Holds(d, who)
  {
    match action
    case Register =>
      var pruned := AfterPrune(d, now);
      if pruned.Ok? {
        OperationKeepsValid(d, Prune(now));
        var next := AfterRegister(pruned.value, who, now);
        if next.Ok? {
          OperationKeepsValid(pruned.value, Join(who, now));
          RegisterSeats(pruned.value, who, now);
          SeatedGetsSnapshot(next.value, who);
        }
      }
    case Heartbeat =>
      if Holds(d, who) {
        OperationKeepsValid(d, Beat(who, now));
        SeatedGetsSnapshot(AfterHeartbeat(d, who, now).value, who);
      }
    case Monitor =>
      if Holds(d, who) {
        var beat := AfterHeartbeat(d, who, now).value;
        OperationKeepsValid(d, Beat(who, now));
        if AfterPrune(beat, now).Ok? {
          OperationKeepsValid(beat, Prune(now));
          MonitorKeepsItsSeat(d, who, now);
          SeatedGetsSnapshot(AfterPrune(beat, now).value, who);
        }
      }
  }

  /** An action leaves a valid document with the same settings, and a document with the same
      generation has the same roster. */
  lemma {:induction false} ActionKeeps(d: Document, action: Action, who: Identity, now: nat)
    requires d.Valid() && who.Valid() && Acted(d, action, who, now).Ok?
    ensures var next := Acted(d, action, who, now).value.0;
            && next.Valid() && next.vbucketCount == d.vbucketCount && next.staleAfter == d.staleAfter
            && d.generation <= next.generation
            && (next.generation == d.generation ==> Roster(next) == Roster(d))
  {
    match action
    case Register =>
      TwoOperations(d, Prune(now), Join(who, now));
    case Heartbeat =>
      OneOperation(d, Beat(who, now));
    case Monitor =>
      TwoOperations(d, Beat(who, now), Prune(now));
    case Quit =>
      OneOperation(d, Leave(who));
  }

  lemma {:induction false} OneOperation(d: Document, op: Operation)
    requires ValidCaller(op) && Applied(d, op).Ok?
    ensures var next := Applied(d, op).value;
            && next.Valid() && next.vbucketCount == d.vbucketCount && next.staleAfter == d.staleAfter
            && d.generation <= next.generation
            && (next.generation == d.generation ==> Roster(next) == Roster(d))
  {
    OperationKeepsValid(d, op);
    GenerationTracksRoster(d, op);
  }

  lemma {:induction false} TwoOperations(d: Document, first: Operation, second: Operation)
    requires ValidCaller(first) && ValidCaller(second)
    requires Applied(d, first).Ok? && Applied(Applied(d, first).value, second).Ok?
    ensures var next := Applied(Applied(d, first).value, second).value;
            && next.Valid() && next.vbucketCount == d.vbucketCount && next.staleAfter == d.staleAfter
            && d.generation <= next.generation
            && (next.generation == d.generation ==> Roster(next) == Roster(d))
  {
    OneOperation(d, first);
    OneOperation(Applied(d, first).value, second);
  }
}
