/** What every step keeps about one vBucket. */
module DeliveryLanes {
  import opened Base
  import opened Checkpoints
  import opened Partitions
  import opened Coordinator
  import opened Delivery

  /** Everything logged at or below the version's checkpoint was acknowledged by then. */
  ghost predicate NothingSkipped(v: Version) {
    forall i :: 0 <= i < |v.epoch.log| && v.epoch.log[i].checkpoint.seqno <= v.checkpoint.seqno ==>
      v.epoch.log[i].id in v.epoch.acked
  }

  /** The recorded versions are indexed by generation and end at `processed`. */
  ghost predicate VersionsInv(l: Lane) {
    && |l.versions| == l.partition.generation + 1
    && l.versions[l.partition.generation].checkpoint == l.partition.processed
    && forall g :: 0 <= g < |l.versions| ==> NothingSkipped(l.versions[g])
  }

  ghost predicate IsVersion(l: Lane, c: Checkpoint, generation: int) {
    0 <= generation < |l.versions| && l.versions[generation].checkpoint == c
  }

  /** What the store holds is a version, and confirmed progress never passes it.  Before the
      first write a marked partition is dirty. */
  ghost predicate StoreInv(l: Lane) {
    && IsVersion(l, l.partition.durable, l.partition.durableGeneration)
    && if l.storedGeneration < 0 then
         l.partition.durableGeneration == 0 && (l.marked ==> 0 < l.partition.generation)
       else
         && l.stored.Some? && IsVersion(l, l.stored.value, l.storedGeneration)
         && l.partition.durableGeneration <= l.storedGeneration
  }

  /** Until its changed start is marked, a partition looks clean and is not in the store. */
  ghost predicate OpeningInv(l: Lane) {
    !l.marked ==>
      && l.partition.generation == l.partition.durableGeneration == 0
      && l.partition.durable == l.partition.processed
      && l.storedGeneration < 0
      && l.stored != Some(l.partition.processed)
  }

  ghost predicate EpochInv(l: Lane) {
    Refines(l.partition, l.epoch) && AckedAreIssued(l.epoch, l.partition.nextDeliveryId)
  }

  ghost predicate LaneInv(l: Lane) {
    EpochInv(l) && VersionsInv(l) && StoreInv(l) && OpeningInv(l)
  }

  /** `after` only adds versions and leaves the store alone. */
  ghost predicate Extends(before: Lane, after: Lane) {
    && before.versions <= after.versions && before.storedGeneration == after.storedGeneration
    && (before.marked ==> after.marked)
  }

  /** A capture taken from this lane at some earlier time. */
  ghost predicate Captured(l: Lane, c: Capture) {
    IsVersion(l, c.checkpoint, c.generation)
  }

  lemma {:induction false} ProcessedSkipsNothing(l: Lane)
    requires EpochInv(l)
    ensures NothingSkipped(VersionOf(l))
  {
    forall i | 0 <= i < |l.epoch.log| && l.epoch.log[i].checkpoint.seqno <= l.partition.processed.seqno
      ensures l.epoch.log[i].id in l.epoch.acked
    {
      ProcessedCoversPrefix(l.epoch, l.partition.nextDeliveryId, i);
    }
  }

  /** Recording the new `processed` under the next generation keeps the version history. */
  lemma {:induction false} VersionedKeeps(before: Lane, after: Lane)
    requires VersionsInv(before) && StoreInv(before) && before.marked && after.marked
    requires EpochInv(after)
    requires after.versions == before.versions && after.storedGeneration == before.storedGeneration
    requires after.stored == before.stored
    requires after.partition.durable == before.partition.durable
    requires after.partition.durableGeneration == before.partition.durableGeneration
    requires || (after.partition.generation == before.partition.generation &&
                 after.partition.processed == before.partition.processed)
             || after.partition.generation == before.partition.generation + 1
    ensures LaneInv(Versioned(after, before.partition.generation))
    ensures Extends(before, Versioned(after, before.partition.generation))
  {
    ProcessedSkipsNothing(after);
  }

  lemma {:induction false} TrackKeeps(l: Lane, event: Event)
    requires LaneInv(l) && TrackEvent(l.partition, event).Ok?
    ensures LaneInv(LaneTrack(l, event)) && Extends(l, LaneTrack(l, event))
    ensures LaneTrack(l, event).partition.processed == l.partition.processed
  {
    TrackRefines(l.partition, l.epoch, event);
  }

  lemma {:induction false} AckKeepsEpoch(l: Lane, id: nat, after: Lane)
    requires EpochInv(l) && after.partition == Acknowledge(l.partition, id).0 && after.epoch == LogAck(l.epoch, id)
    ensures EpochInv(after)
  {
    AckRefines(l.partition, l.epoch, id);
  }

  lemma {:induction false} AckKeeps(l: Lane, id: nat)
    requires LaneInv(l) && l.marked && CanBump(l.partition)
    ensures LaneInv(LaneAck(l, id)) && Extends(l, LaneAck(l, id))
    ensures l.partition.processed.seqno <= LaneAck(l, id).partition.processed.seqno
  {
    AckIsMonotone(l.partition, l.epoch, id);
    var after := l.(partition := Acknowledge(l.partition, id).0,
                    epoch := LogAck(l.epoch, id),
                    ackedSeqnos := l.ackedSeqnos + SeqnosOf(l.epoch.log, id));
    AckKeepsEpoch(l, id, after);
    VersionedKeeps(l, after);
  }

  lemma {:induction false} DirtyKeeps(l: Lane)
    requires LaneInv(l) && l.marked
    ensures LaneInv(LaneDirty(l)) && Extends(l, LaneDirty(l))
  {
    VersionedKeeps(l, l.(partition := MarkDirty(l.partition)));
  }

  lemma {:induction false} RebaseKeeps(l: Lane, start: Checkpoint)
    requires LaneInv(l) && l.marked
    ensures LaneInv(LaneRebase(l, start)) && Extends(l, LaneRebase(l, start))
  {
    RebaseRefines(l.partition, l.epoch, start);
    VersionedKeeps(l, Resumed(l, start));
  }

  lemma {:induction false} WriteKeeps(l: Lane, c: Capture)
    requires LaneInv(l) && l.marked && Captured(l, c) && l.storedGeneration <= c.generation
    ensures LaneInv(LaneWrite(l, c))
  {
  }

  lemma {:induction false} CommitKeeps(l: Lane, c: Capture)
    requires LaneInv(l) && l.marked && Captured(l, c) && c.generation <= l.storedGeneration
    ensures LaneInv(LaneCommit(l, c)) && Extends(l, LaneCommit(l, c))
  {
  }

  lemma {:induction false} InitialLaneInv(loaded: Option<Checkpoint>, effective: Checkpoint, past: Past)
    ensures LaneInv(InitialLane(loaded, effective, past))
  {
    NewPartitionRefines(effective);
  }

  lemma {:induction false} MarkKeeps(l: Lane)
    requires LaneInv(l) && !l.marked
    ensures LaneInv(LaneMark(l)) && Extends(l, LaneMark(l))
  {
    var after := l.(partition := MarkDirty(l.partition));
    ProcessedSkipsNothing(after);
    assert LaneMark(l).versions[1].checkpoint == l.partition.processed;
  }

  lemma {:induction false} ProduceKeeps(l: Lane, events: set<nat>)
    requires LaneInv(l)
    ensures LaneInv(l.(events := events)) && Extends(l, l.(events := events))
  {
  }

  /** Clean means persisted: a marked, clean partition has its exact `processed` in the store, and
      equal generations alone already say that `durable` is `processed`.  Before it is marked, a
      changed start is clean without being stored. */
  lemma {:induction false} CleanIsStored(l: Lane)
    requires LaneInv(l)
    ensures l.partition.generation == l.partition.durableGeneration ==> l.partition.durable == l.partition.processed
    ensures !l.partition.IsDirty() ==> (l.stored == Some(l.partition.processed) <==> l.marked)
    ensures !l.marked ==> !l.partition.IsDirty()
  {
  }

  /** Exactly when an ACK keeps the link between generations and checkpoints: it breaks when the
      counter stands at its limit, the generations are equal, and the ACK is for the head of the
      queue, because `processed` moves before the overflow is reported. */
  lemma {:induction false} OverflowBreaksGenerations(l: Lane, id: nat)
    requires LaneInv(l) && l.partition.generation <= U64_MAX
    ensures var p := l.partition;
            var (after, outcome) := Acknowledge(p, id);
            && ((after.generation == after.durableGeneration ==> after.durable == after.processed) <==>
                (CanBump(p) || p.durableGeneration != p.generation || FindDelivery(p.pending, id) != Some(0)))
            && (!CanBump(p) && FindDelivery(p.pending, id) == Some(0) ==> outcome == Err(AckGenerationOverflow))
  {
    var p := l.partition;
    CleanIsStored(l);
    HeadIsUnacknowledged(p, l.epoch);
    match FindDelivery(p.pending, id)
    case None =>
    case Some(i) =>
      var marked := MarkAcked(p.pending, i);
      if i == 0 {
        assert marked[0].acknowledged;
        assert AckedPrefix(marked) >= 1;
        var n := AckedPrefix(marked);
        assert marked[n - 1].checkpoint == p.pending[n - 1].checkpoint;
      } else {
        assert !marked[0].acknowledged;
      }
  }

  /** The failing case exists: a lane at the counter's limit, with its last generation stored and one
      delivery open, keeps the invariant, and acknowledging that delivery leaves equal generations
      for two different checkpoints. */
  lemma {:induction false} OverflowHappens() returns (l: Lane)
    ensures LaneInv(l) && l.partition.generation == U64_MAX
    ensures var (after, outcome) := Acknowledge(l.partition, 1);
            && outcome == Err(AckGenerationOverflow)
            && after.generation == after.durableGeneration && after.durable != after.processed
  {
    var base := Earliest(0);
    var next := base.(seqno := 1, snapshotStart := 1, snapshotEnd := 1);
    var epoch := Epoch(base, 1, [Registration(1, next)], {});
    var version := Version(base, epoch, 0, {}, {});
    var pending := [PendingAck(1, next, false)];
    var p := Partition(base, base, None, 1, pending, 2, U64_MAX, U64_MAX);
    l := Lane(p, Some(base), 0, {}, true, epoch, seq(U64_MAX + 1, _ => version), U64_MAX, {});
    assert Settled(epoch) == 0;
    assert NothingSkipped(version);
    var marked := MarkAcked(pending, 0);
    assert FirstUnacked(marked, 1) == 1;
    assert AckedPrefix(marked) == 1;
  }

  /** Creation and marking together: the opened partition is clean exactly when its start is stored. */
  lemma {:induction false} OpenedCleanIffStored(loaded: Option<Checkpoint>, effective: Checkpoint, past: Past)
    ensures var created := InitialLane(loaded, effective, past);
            && !created.partition.IsDirty()
            && (created.marked <==> loaded == Some(effective))
            && (!created.marked ==> LaneMark(created).partition.IsDirty() && LaneMark(created).marked)
  {
  }
}
