/** The membership registry document and its operations. */
module Registry {
  import opened Base
  import opened Ordering
  import opened Assignment

  const SCHEMA_VERSION: nat := 1
  const MAX_ID_LEN: nat := 251

  datatype Identity = Identity(memberId: string, incarnation: string) {
    predicate Valid() {
      ValidIdentifier(memberId) && ValidIdentifier(incarnation)
    }
  }

  datatype Member = Member(memberId: string, incarnation: string, joinedAt: nat, heartbeatAt: nat)

  datatype Document = Document(
    schemaVersion: nat,
    vbucketCount: nat,
    staleAfter: nat,
    generation: nat,
    members: map<string, Member>)
  {
    /** The checks of `RegistryDocument::validate`. */
    predicate Valid() {
      && schemaVersion == SCHEMA_VERSION
      && 1 <= vbucketCount <= MAX_VBUCKETS
      && 1 <= staleAfter
      && |members| <= vbucketCount
      && forall id :: id in members ==> ValidMember(id, members[id])
    }
  }

  datatype RegistryError = InvalidRegistry | DuplicateMember | Fenced | NoCapacity | GenerationOverflow

  predicate ValidIdentifier(s: string) {
    && 1 <= |s| <= MAX_ID_LEN
    && forall i :: 0 <= i < |s| ==> '!' <= s[i] <= '~'
  }

  predicate ValidMember(id: string, m: Member) {
    ValidIdentifier(id) && ValidIdentifier(m.incarnation) && id == m.memberId && m.joinedAt <= m.heartbeatAt
  }

  predicate IsStale(m: Member, now: nat, staleAfter: nat) {
    Max(0, now - m.heartbeatAt) >= staleAfter
  }

  function NewDocument(vbucketCount: nat, staleAfter: nat): Result<Document, RegistryError> {
    if vbucketCount == 0 || vbucketCount > MAX_VBUCKETS || staleAfter == 0 then Err(InvalidRegistry)
    else Ok(Document(SCHEMA_VERSION, vbucketCount, staleAfter, 0, map[]))
  }

  function Refresh(m: Member, now: nat): Member {
    m.(heartbeatAt := Max(m.heartbeatAt, now))
  }

  function AfterRegister(d: Document, who: Identity, now: nat): Result<Document, RegistryError> {
    if !d.Valid() then Err(InvalidRegistry)
    else if who.memberId in d.members && d.members[who.memberId].incarnation == who.incarnation then
      Ok(d.(members := d.members[who.memberId := Refresh(d.members[who.memberId], now)]))
    else if who.memberId in d.members && !IsStale(d.members[who.memberId], now, d.staleAfter) then
      Err(DuplicateMember)
    else if who.memberId !in d.members && |d.members| >= d.vbucketCount then Err(NoCapacity)
    else if d.generation >= U64_MAX then Err(GenerationOverflow)
    else
      Ok(d.(members := d.members[who.memberId := Member(who.memberId, who.incarnation, now, now)],
            generation := d.generation + 1))
  }

  predicate Holds(d: Document, who: Identity) {
    who.memberId in d.members && d.members[who.memberId].incarnation == who.incarnation
  }

  function AfterHeartbeat(d: Document, who: Identity, now: nat): Result<Document, RegistryError> {
    if !d.Valid() then Err(InvalidRegistry)
    else if !Holds(d, who) then Err(Fenced)
    else Ok(d.(members := d.members[who.memberId := Refresh(d.members[who.memberId], now)]))
  }

  function StaleIds(d: Document, now: nat): set<string> {
    set id | id in d.members && IsStale(d.members[id], now, d.staleAfter)
  }

  function AfterPrune(d: Document, now: nat): Result<Document, RegistryError> {
    if !d.Valid() then Err(InvalidRegistry)
    else if StaleIds(d, now) == {} then Ok(d)
    else if d.generation >= U64_MAX then Err(GenerationOverflow)
    else Ok(d.(members := d.members - StaleIds(d, now), generation := d.generation + 1))
  }

  function AfterRemove(d: Document, who: Identity): Result<Document, RegistryError> {
    if !d.Valid() then Err(InvalidRegistry)
    else if who.memberId !in d.members then Ok(d)
    else if !Holds(d, who) then Err(Fenced)
    else if d.generation >= U64_MAX then Err(GenerationOverflow)
    else Ok(d.(members := d.members - {who.memberId}, generation := d.generation + 1))
  }

  /** The members in assignment order and the caller's slice. */
  datatype Snapshot = Snapshot(assignment: VBucketAssignment, members: seq<Member>)

  function MemberKey(m: Member): Key {
    Key(m.joinedAt, m.memberId, "")
  }

  function Keys(d: Document): set<Key> {
    set id | id in d.members :: MemberKey(d.members[id])
  }

  /** The member behind each key of a listing. */
  ghost function MembersOf(d: Document, listing: seq<Key>): seq<Member>
    requires forall i :: 0 <= i < |listing| ==> listing[i].first in d.members
  {
    seq(|listing|, i requires 0 <= i < |listing| => d.members[listing[i].first])
  }

  lemma {:induction false} ListedAreMembers(d: Document)
    requires d.Valid()
    ensures forall i :: 0 <= i < |Listing(Keys(d))| ==> Listing(Keys(d))[i].first in d.members
  {
    var s := Listing(Keys(d));
    forall i | 0 <= i < |s|
      ensures s[i].first in d.members
    {
      assert s[i] in Keys(d);
    }
  }

  ghost function SnapshotOf(d: Document, who: Identity): Result<Snapshot, RegistryError> {
    if !d.Valid() then Err(InvalidRegistry)
    else if !Holds(d, who) then Err(Fenced)
    else
      var listing := Listing(Keys(d));
      var position := PositionFrom(listing, who.memberId, "", 0);
      if position == |listing| then Err(Fenced)
      else
        match Balanced(d.generation, d.vbucketCount, position + 1, |listing|)
        case Err(_) => Err(InvalidRegistry)
        case Ok(assignment) =>
          ListedAreMembers(d);
          Ok(Snapshot(assignment, MembersOf(d, listing)))
  }

  // ---------------------------------------------------------------- the document as an object

  class RegistryDocument {
    const schemaVersion: nat
    const vbucketCount: nat
    const staleAfter: nat
    var generation: nat
    var members: map<string, Member>

    function View(): Document
      reads this
    {
      Document(schemaVersion, vbucketCount, staleAfter, generation, members)
    }

    constructor (d: Document)
      ensures View() == d
    {
      schemaVersion, vbucketCount, staleAfter := d.schemaVersion, d.vbucketCount, d.staleAfter;
      generation, members := d.generation, d.members;
    }

    method Register(who: Identity, now: nat) returns (r: Result<(), RegistryError>)
      modifies this
      ensures match AfterRegister(old(View()), who, now)
              case Err(error) => r == Err(error) && View() == old(View())
              case Ok(next) => r == Ok(()) && View() == next
    {
      if !View().Valid() {
        return Err(InvalidRegistry);
      }
      if who.memberId in members {
        var existing := members[who.memberId];
        if existing.incarnation == who.incarnation {
          existing := existing.(heartbeatAt := Max(existing.heartbeatAt, now));
          members := members[who.memberId := existing];
          return Ok(());
        }
        if !IsStale(existing, now, staleAfter) {
          return Err(DuplicateMember);
        }
      } else if |members| >= vbucketCount {
        return Err(NoCapacity);
      }
      if generation >= U64_MAX {
        return Err(GenerationOverflow);
      }
      members := members[who.memberId := Member(who.memberId, who.incarnation, now, now)];
      generation := generation + 1;
      r := Ok(());
    }

    method Heartbeat(who: Identity, now: nat) returns (r: Result<(), RegistryError>)
      modifies this
      ensures match AfterHeartbeat(old(View()), who, now)
              case Err(error) => r == Err(error) && View() == old(View())
              case Ok(next) => r == Ok(()) && View() == next
    {
      if !View().Valid() {
        return Err(InvalidRegistry);
      }
      if who.memberId !in members {
        return Err(Fenced);
      }
      var member := members[who.memberId];
      if member.incarnation != who.incarnation {
        return Err(Fenced);
      }
      member := member.(heartbeatAt := Max(member.heartbeatAt, now));
      members := members[who.memberId := member];
      r := Ok(());
    }

    method PruneStale(now: nat) returns (r: Result<nat, RegistryError>)
      modifies this
      ensures match AfterPrune(old(View()), now)
              case Err(error) => r == Err(error) && View() == old(View())
              case Ok(next) => r == Ok(|StaleIds(old(View()), now)|) && View() == next
    {
      if !View().Valid() {
        return Err(InvalidRegistry);
      }
      var stale: set<string> := {};
      var todo := members.Keys;
      while todo != {}
        invariant todo <= members.Keys
        invariant forall id :: id in stale <==> id in members && id !in todo && IsStale(members[id], now, staleAfter)
        decreases todo
      {
        var id :| id in todo;
        if IsStale(members[id], now, staleAfter) {
          stale := stale + {id};
        }
        todo := todo - {id};
      }
      assert stale == StaleIds(View(), now);
      if stale == {} {
        return Ok(0);
      }
      if generation >= U64_MAX {
        return Err(GenerationOverflow);
      }
      members := members - stale;
      generation := generation + 1;
      r := Ok(|stale|);
    }

    method Remove(who: Identity) returns (r: Result<bool, RegistryError>)
      modifies this
      ensures match AfterRemove(old(View()), who)
              case Err(error) => r == Err(error) && View() == old(View())
              case Ok(next) => r == Ok(who.memberId in old(members)) && View() == next
    {
      if !View().Valid() {
        return Err(InvalidRegistry);
      }
      if who.memberId !in members {
        return Ok(false);
      }
      if members[who.memberId].incarnation != who.incarnation {
        return Err(Fenced);
      }
      if generation >= U64_MAX {
        return Err(GenerationOverflow);
      }
      members := members - {who.memberId};
      generation := generation + 1;
      r := Ok(true);
    }

    /** Sorts the members, finds the caller, and cuts its slice. */
    method TakeSnapshot(who: Identity) returns (r: Result<Snapshot, RegistryError>)
      ensures r == SnapshotOf(View(), who)
    {
      if !View().Valid() {
        return Err(InvalidRegistry);
      }
      if who.memberId !in members || members[who.memberId].incarnation != who.incarnation {
        return Err(Fenced);
      }
      var keys := Keys(View());
      var listing := Sort(keys);
      var position := 0;
      while position < |listing| && !(listing[position].first == who.memberId && listing[position].second == "")
        invariant 0 <= position <= |listing|
        invariant PositionFrom(listing, who.memberId, "", 0) == PositionFrom(listing, who.memberId, "", position)
      {
        position := position + 1;
      }
      if position == |listing| {
        return Err(Fenced);
      }
      var assignment := Balanced(generation, vbucketCount, position + 1, |listing|);
      if assignment.Err? {
        return Err(InvalidRegistry);
      }
      ListedAreMembers(View());
      var ordered: seq<Member> := [];
      var i := 0;
      while i < |listing|
        invariant 0 <= i <= |listing|
        invariant |ordered| == i
        invariant forall j :: 0 <= j < i ==> ordered[j] == members[listing[j].first]
      {
        ordered := ordered + [members[listing[i].first]];
        i := i + 1;
      }
      assert ordered == MembersOf(View(), listing);
      r := Ok(Snapshot(assignment.value, ordered));
    }
  }
}
