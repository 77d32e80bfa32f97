/** The checkpoint coordinator's shared map of partitions and the methods that update it. */
module Coordinator {
  import opened Base
  import opened Checkpoints
  import opened Partitions
  import opened Ascending

  /** A processed checkpoint captured for one flush, with the generation it belongs to. */
  datatype Capture = Capture(checkpoint: Checkpoint, generation: nat)

  type Batch = map<nat, Capture>
  type PartitionMap = map<nat, Partition>

  function CaptureOf(p: Partition): Capture {
    Capture(p.processed, p.generation)
  }

  function DirtyBatch(ps: PartitionMap): Batch {
    map v | v in ps && ps[v].IsDirty() :: CaptureOf(ps[v])
  }

  function Commit(p: Partition, c: Capture): Partition {
    p.(durable := c.checkpoint, durableGeneration := c.generation)
  }

  function CommitBatch(ps: PartitionMap, batch: Batch): PartitionMap {
    map v | v in ps :: if v in batch then Commit(ps[v], batch[v]) else ps[v]
  }

  function RebaseAll(ps: PartitionMap, effective: map<nat, Checkpoint>): PartitionMap {
    map v | v in ps :: if v in effective then Rebase(ps[v], effective[v]) else ps[v]
  }

  predicate Rebasable(ps: PartitionMap, effective: map<nat, Checkpoint>, bucketUuid: string) {
    forall v :: v in effective ==>
      v in ps && HasIdentity(effective[v], v, bucketUuid) && CanRebase(ps[v], effective[v])
  }

  datatype UpdateError = UntrackedVBucket | InvalidIdentity | GenerationOverflow

  /** What is wrong with one new start, if anything. */
  function RebaseProblem(ps: PartitionMap, start: Checkpoint, v: nat, bucketUuid: string): Option<UpdateError> {
    if v !in ps then Some(UntrackedVBucket)
    else if !HasIdentity(start, v, bucketUuid) then Some(InvalidIdentity)
    else if !CanRebase(ps[v], start) then Some(GenerationOverflow)
    else None
  }

  /** The lowest vBucket whose start is refused, and why. */
  ghost predicate FirstProblem(ps: PartitionMap, effective: map<nat, Checkpoint>, bucketUuid: string, v: nat,
                               e: UpdateError)
  {
    && v in effective && RebaseProblem(ps, effective[v], v, bucketUuid) == Some(e)
    && forall u :: u in effective && u < v ==> RebaseProblem(ps, effective[u], u, bucketUuid).None?
  }

  method FindPending(pending: seq<PendingAck>, id: nat) returns (i: nat)
    ensures i <= |pending|
    ensures FindDelivery(pending, id) == if i < |pending| then Some(i) else None
  {
    i := 0;
    while i < |pending| && pending[i].deliveryId != id
      invariant 0 <= i <= |pending|
      invariant FindDelivery(pending, id) == FindFrom(pending, id, i)
    {
      i := i + 1;
    }
  }

  /** Pops the leading acknowledged entries. */
  method PopAcknowledged(marked: seq<PendingAck>, start: Checkpoint)
    returns (queue: seq<PendingAck>, processed: Checkpoint, advancedTo: Option<Checkpoint>)
    ensures queue == marked[AckedPrefix(marked)..]
    ensures processed == if AckedPrefix(marked) == 0 then start else marked[AckedPrefix(marked) - 1].checkpoint
    ensures advancedTo == if AckedPrefix(marked) == 0 then None else Some(processed)
  {
    queue, processed, advancedTo := marked, start, None;
    ghost var popped := 0;
    while queue != [] && queue[0].acknowledged
      invariant 0 <= popped <= |marked|
      invariant queue == marked[popped..]
      invariant AckedPrefix(marked) == FirstUnacked(marked, popped)
      invariant processed == if popped == 0 then start else marked[popped - 1].checkpoint
      invariant advancedTo == if popped == 0 then None else Some(processed)
      decreases |queue|
    {
      processed := queue[0].checkpoint;
      advancedTo := Some(processed);
      queue := queue[1..];
      popped := popped + 1;
    }
  }

  class CheckpointCoordinator {
    const bucketUuid: string
    var partitions: PartitionMap

    /** Every vBucket starts from its effective start, clean. */
    constructor (bucketUuid: string, starts: map<nat, Checkpoint>)
      ensures this.bucketUuid == bucketUuid
      ensures partitions == map v | v in starts :: NewPartition(starts[v])
    {
      this.bucketUuid := bucketUuid;
      partitions := map v | v in starts :: NewPartition(starts[v]);
    }

    method Track(vbucket: nat, event: Event) returns (r: Result<Option<nat>, TrackError>)
      modifies this
      ensures vbucket !in old(partitions) ==> r == Err(UntrackedEvent) && partitions == old(partitions)
      ensures vbucket in old(partitions) ==>
                match TrackEvent(old(partitions)[vbucket], event)
                case Err(error) => r == Err(error) && partitions == old(partitions)
                case Ok(t) => r == Ok(t.deliveryId) && partitions == old(partitions)[vbucket := t.partition]
    {
      if vbucket !in partitions {
        return Err(UntrackedEvent);
      }
      var p := partitions[vbucket];
      match event
      case Boundary =>
        r := Ok(None);
        assert partitions == partitions[vbucket := p];
      case Marker(w) =>
        if w.start > w.end || w.end < p.processed.seqno {
          return Err(InvalidSnapshot);
        }
        partitions := partitions[vbucket := p.(snapshot := Some(w))];
        r := Ok(None);
      case Sequenced(seqno, manifestUid) =>
        if p.snapshot.None? {
          return Err(MissingSnapshot);
        }
        var w := p.snapshot.value;
        if seqno <= p.lastRegistered || seqno < w.start || seqno > w.end {
          return Err(OutOfOrder);
        }
        var checkpoint := p.processed;
        if p.pending != [] {
          checkpoint := p.pending[|p.pending| - 1].checkpoint;
        }
        checkpoint := checkpoint.(seqno := seqno);
        checkpoint := checkpoint.(snapshotStart := w.start);
        checkpoint := checkpoint.(snapshotEnd := w.end);
        if manifestUid.Some? {
          checkpoint := checkpoint.(manifestUid := manifestUid);
        }
        if !checkpoint.Valid() {
          return Err(InvalidCheckpoint);
        }
        var deliveryId := p.nextDeliveryId;
        if deliveryId >= U64_MAX {
          return Err(DeliveryIdOverflow);
        }
        p := p.(nextDeliveryId := deliveryId + 1);
        p := p.(lastRegistered := seqno);
        p := p.(pending := p.pending + [PendingAck(deliveryId, checkpoint, false)]);
        partitions := partitions[vbucket := p];
        r := Ok(Some(deliveryId));
    }

    /** Finds the delivery, flags it, and pops the queue while its head is acknowledged. */
    method Acknowledge(vbucket: nat, deliveryId: nat) returns (r: Result<AckOutcome, AckError>)
      modifies this
      ensures vbucket !in old(partitions) ==> r == Err(UntrackedAck) && partitions == old(partitions)
      ensures vbucket in old(partitions) ==>
                var (p, outcome) := Partitions.Acknowledge(old(partitions)[vbucket], deliveryId);
                r == outcome && partitions == old(partitions)[vbucket := p]
    {
      if vbucket !in partitions {
        return Err(UntrackedAck);
      }
      var p := partitions[vbucket];
      var i := FindPending(p.pending, deliveryId);
      if i == |p.pending| {
        assert partitions == partitions[vbucket := p];
        return Err(Obsolete);
      }
      var marked := p.pending[i := p.pending[i].(acknowledged := true)];
      var queue, processed, advancedTo := PopAcknowledged(marked, p.processed);
      p := p.(pending := queue, processed := processed);
      partitions := partitions[vbucket := p];
      if advancedTo.Some? {
        if p.generation >= U64_MAX {
          return Err(AckGenerationOverflow);
        }
        p := p.(generation := p.generation + 1);
        partitions := partitions[vbucket := p];
      }
      return Ok(AckOutcome(advancedTo, |queue|));
    }

    method MarkDirty(vbucket: nat) returns (r: Result<(), UpdateError>)
      modifies this
      ensures r == if vbucket !in old(partitions) then Err(UntrackedVBucket)
                   else if !CanBump(old(partitions)[vbucket]) then Err(GenerationOverflow)
                   else Ok(())
      ensures partitions == if r.Ok? then old(partitions)[vbucket := Partitions.MarkDirty(old(partitions)[vbucket])]
                            else old(partitions)
    {
      if vbucket !in partitions {
        return Err(UntrackedVBucket);
      }
      if partitions[vbucket].generation >= U64_MAX {
        return Err(GenerationOverflow);
      }
      var p := partitions[vbucket];
      partitions := partitions[vbucket := p.(generation := p.generation + 1)];
      r := Ok(());
    }

    /** All of the new starts are installed, or none is. */
    method RebasePartitions(effective: map<nat, Checkpoint>) returns (r: Result<(), UpdateError>)
      modifies this
      ensures r.Ok? <==> Rebasable(old(partitions), effective, bucketUuid)
      ensures r.Err? ==> exists v :: FirstProblem(old(partitions), effective, bucketUuid, v, r.error)
      ensures partitions == if r.Ok? then RebaseAll(old(partitions), effective) else old(partitions)
    {
      var todo := effective.Keys;
      while todo != {}
        invariant partitions == old(partitions)
        invariant todo <= effective.Keys
        invariant forall v :: v in effective && v !in todo ==>
                    RebaseProblem(partitions, effective[v], v, bucketUuid).None?
        decreases todo
      {
        var v := Least(todo);
        assert forall u :: u in effective && u < v ==> u !in todo;
        if v !in partitions {
          assert FirstProblem(partitions, effective, bucketUuid, v, UntrackedVBucket);
          return Err(UntrackedVBucket);
        }
        if !HasIdentity(effective[v], v, bucketUuid) {
          assert FirstProblem(partitions, effective, bucketUuid, v, InvalidIdentity);
          return Err(InvalidIdentity);
        }
        if partitions[v].processed != effective[v] && partitions[v].generation >= U64_MAX {
          assert FirstProblem(partitions, effective, bucketUuid, v, GenerationOverflow);
          return Err(GenerationOverflow);
        }
        todo := todo - {v};
      }
      todo := effective.Keys;
      while todo != {}
        invariant todo <= effective.Keys
        invariant partitions.Keys == old(partitions).Keys
        invariant forall v :: v in partitions ==>
                    partitions[v] == if v in effective && v !in todo then Rebase(old(partitions)[v], effective[v])
                                     else old(partitions)[v]
        decreases todo
      {
        var v :| v in todo;
        var p := partitions[v];
        if p.processed != effective[v] {
          p := p.(generation := p.generation + 1);
        }
        p := p.(processed := effective[v], lastRegistered := effective[v].seqno);
        p := p.(snapshot := None, pending := []);
        partitions := partitions[v := p];
        todo := todo - {v};
      }
      r := Ok(());
    }

    /** The flush's capture, taken under the state lock while the gate is held. */
    method CaptureDirty() returns (batch: Batch)
      ensures batch == DirtyBatch(partitions)
    {
      batch := map[];
      var todo := partitions.Keys;
      while todo != {}
        invariant todo <= partitions.Keys
        invariant forall v :: v in batch <==> v in partitions && v !in todo && partitions[v].IsDirty()
        invariant forall v :: v in batch ==> batch[v] == CaptureOf(partitions[v])
        decreases todo
      {
        var v :| v in todo;
        if partitions[v].IsDirty() {
          batch := batch[v := Capture(partitions[v].processed, partitions[v].generation)];
        }
        todo := todo - {v};
      }
    }

    /** The flush's commit, after the store confirmed the whole batch. */
    method CommitSaved(batch: Batch)
      requires batch.Keys <= partitions.Keys
      modifies this
      ensures partitions == CommitBatch(old(partitions), batch)
    {
      var todo := batch.Keys;
      while todo != {}
        invariant todo <= batch.Keys
        invariant partitions.Keys == old(partitions).Keys
        invariant forall v :: v in partitions ==>
                    partitions[v] == if v in batch && v !in todo then Commit(old(partitions)[v], batch[v])
                                     else old(partitions)[v]
        decreases todo
      {
        var v :| v in todo;
        var p := partitions[v];
        p := p.(durable := batch[v].checkpoint);
        p := p.(durableGeneration := batch[v].generation);
        partitions := partitions[v := p];
        todo := todo - {v};
      }
    }
  }
}
