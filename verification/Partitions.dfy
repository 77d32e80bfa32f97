/**
  One vBucket of the checkpoint coordinator: the queue of delivered events, the
  contiguous `processed` point, and the operations on them.  `Epoch` is the simple
  reference model: the whole log since the last rebase with one flag per event.
  */
module Partitions {
  import opened Base
  import opened Checkpoints

  datatype Window = Window(start: nat, end: nat)

  datatype PendingAck = PendingAck(deliveryId: nat, checkpoint: Checkpoint, acknowledged: bool)

  datatype Partition = Partition(
    durable: Checkpoint,
    processed: Checkpoint,
    snapshot: Option<Window>,
    lastRegistered: nat,
    pending: seq<PendingAck>,
    nextDeliveryId: nat,
    generation: nat,
    durableGeneration: nat)
  {
    predicate IsDirty() {
      generation != durableGeneration || durable != processed
    }
  }

  /** What the coordinator sees of a DCP event: a snapshot marker, an event that carries
      a sequence number (system events also carry a manifest UID), or neither. */
  datatype Event =
    | Marker(window: Window)
    | Sequenced(seqno: nat, manifestUid: Option<nat>)
    | Boundary

  datatype TrackError =
    | InvalidSnapshot
    | MissingSnapshot
    | OutOfOrder
    | InvalidCheckpoint
    | DeliveryIdOverflow
    | UntrackedEvent

  datatype Tracked = Tracked(partition: Partition, deliveryId: Option<nat>)

  datatype AckError = UntrackedAck | Obsolete | AckGenerationOverflow

  datatype AckOutcome = AckOutcome(advancedTo: Option<Checkpoint>, pendingEvents: nat)

  function NewPartition(start: Checkpoint): Partition {
    Partition(start, start, None, start.seqno, [], 1, 0, 0)
  }

  // ---------------------------------------------------------------- operations

  function EventCheckpoint(p: Partition, w: Window, seqno: nat, manifestUid: Option<nat>): Checkpoint {
    var last := if p.pending == [] then p.processed else p.pending[|p.pending| - 1].checkpoint;
    var moved := last.(seqno := seqno, snapshotStart := w.start, snapshotEnd := w.end);
    if manifestUid.Some? then moved.(manifestUid := manifestUid) else moved
  }

  function TrackEvent(p: Partition, e: Event): Result<Tracked, TrackError> {
    match e
    case Boundary => Ok(Tracked(p, None))
    case Marker(w) =>
      if w.start > w.end || w.end < p.processed.seqno then Err(InvalidSnapshot)
      else Ok(Tracked(p.(snapshot := Some(w)), None))
    case Sequenced(seqno, uid) =>
      if p.snapshot.None? then Err(MissingSnapshot)
      else
        var w := p.snapshot.value;
        if seqno <= p.lastRegistered || seqno < w.start || seqno > w.end then Err(OutOfOrder)
        else
          var c := EventCheckpoint(p, w, seqno, uid);
          if !c.Valid() then Err(InvalidCheckpoint)
          else if p.nextDeliveryId >= U64_MAX then Err(DeliveryIdOverflow)
          else
            Ok(Tracked(p.(nextDeliveryId := p.nextDeliveryId + 1,
                          lastRegistered := seqno,
                          pending := p.pending + [PendingAck(p.nextDeliveryId, c, false)]),
                       Some(p.nextDeliveryId)))
  }

  /** Index of the first queued delivery with this ID at or after `from`. */
  function FindFrom(pending: seq<PendingAck>, id: nat, from: nat): (r: Option<nat>)
    requires from <= |pending|
    ensures r.Some? ==> from <= r.value < |pending| && pending[r.value].deliveryId == id
    ensures forall j :: from <= j < (if r.Some? then r.value else |pending|) ==> pending[j].deliveryId != id
    decreases |pending| - from
  {
    if from == |pending| then None
    else if pending[from].deliveryId == id then Some(from)
    else FindFrom(pending, id, from + 1)
  }

  function FindDelivery(pending: seq<PendingAck>, id: nat): Option<nat> {
    FindFrom(pending, id, 0)
  }

  /** Index of the first unacknowledged entry at or after `from`. */
  function FirstUnacked(log: seq<PendingAck>, from: nat): (k: nat)
    requires from <= |log|
    ensures from <= k <= |log|
    ensures forall i :: from <= i < k ==> log[i].acknowledged
    ensures k < |log| ==> !log[k].acknowledged
    decreases |log| - from
  {
    if from < |log| && log[from].acknowledged then FirstUnacked(log, from + 1) else from
  }

  /** Number of leading acknowledged entries. */
  function AckedPrefix(log: seq<PendingAck>): (k: nat)
    ensures k <= |log|
  {
    FirstUnacked(log, 0)
  }

  function MarkAcked(log: seq<PendingAck>, i: nat): seq<PendingAck>
    requires i < |log|
  {
    log[i := log[i].(acknowledged := true)]
  }

  /** Pops the leading acknowledged entries of an updated queue.  On a generation overflow
      the queue has already been popped and `processed` moved. */
  function PopAcked(p: Partition, marked: seq<PendingAck>): (Partition, Result<AckOutcome, AckError>) {
    var k := AckedPrefix(marked);
    if k == 0 then
      (p.(pending := marked), Ok(AckOutcome(None, |marked|)))
    else
      var moved := p.(pending := marked[k..], processed := marked[k - 1].checkpoint);
      if p.generation >= U64_MAX then (moved, Err(AckGenerationOverflow))
      else (moved.(generation := p.generation + 1),
            Ok(AckOutcome(Some(marked[k - 1].checkpoint), |marked| - k)))
  }

  /** The partition after one ACK, and what the caller is told. */
  function Acknowledge(p: Partition, id: nat): (Partition, Result<AckOutcome, AckError>) {
    match FindDelivery(p.pending, id)
    case None => (p, Err(Obsolete))
    case Some(i) => PopAcked(p, MarkAcked(p.pending, i))
  }

  predicate CanBump(p: Partition) {
    p.generation < U64_MAX
  }

  /** Only a changed start needs a new generation. */
  predicate CanRebase(p: Partition, start: Checkpoint) {
    p.processed == start || CanBump(p)
  }

  function Rebase(p: Partition, start: Checkpoint): Partition {
    p.(generation := if p.processed != start then p.generation + 1 else p.generation,
       processed := start,
       lastRegistered := start.seqno,
       snapshot := None,
       pending := [])
  }

  function MarkDirty(p: Partition): Partition {
    p.(generation := p.generation + 1)
  }

  // ---------------------------------------------------------------- reference model

  datatype Registration = Registration(id: nat, checkpoint: Checkpoint)

  /** Everything registered since the last rebase, oldest first, on top of `base`, and the
      IDs of the deliveries acknowledged so far. */
  datatype Epoch = Epoch(base: Checkpoint, firstId: nat, log: seq<Registration>, acked: set<nat>)

  function FirstOpen(log: seq<Registration>, acked: set<nat>, from: nat): (k: nat)
    requires from <= |log|
    ensures from <= k <= |log|
    ensures forall i :: from <= i < k ==> log[i].id in acked
    ensures k < |log| ==> log[k].id !in acked
    decreases |log| - from
  {
    if from < |log| && log[from].id in acked then FirstOpen(log, acked, from + 1) else from
  }

  /** Length of the longest fully acknowledged prefix of the log. */
  function Settled(e: Epoch): (k: nat)
    ensures k <= |e.log|
  {
    FirstOpen(e.log, e.acked, 0)
  }

  /** The checkpoint of that prefix. */
  function Contiguous(e: Epoch): Checkpoint {
    var k := Settled(e);
    if k == 0 then e.base else e.log[k - 1].checkpoint
  }

  function LastSeqno(base: Checkpoint, log: seq<Registration>): nat {
    if log == [] then base.seqno else log[|log| - 1].checkpoint.seqno
  }

  ghost predicate Logged(log: seq<Registration>, id: nat) {
    exists i :: 0 <= i < |log| && log[i].id == id
  }

  ghost function LogAck(e: Epoch, id: nat): Epoch {
    if Logged(e.log, id) then e.(acked := e.acked + {id}) else e
  }

  /** Delivery IDs and sequence numbers strictly increase along the log, above `base`. */
  ghost predicate Ordered(base: Checkpoint, firstId: nat, log: seq<Registration>, nextId: nat) {
    && firstId <= nextId
    && (forall i :: 0 <= i < |log| ==> firstId <= log[i].id < nextId && base.seqno < log[i].checkpoint.seqno)
    && (forall i, j :: 0 <= i < j < |log| ==>
          log[i].id < log[j].id && log[i].checkpoint.seqno < log[j].checkpoint.seqno)
  }

  /** The queue holds the log from the first open delivery on, each entry with its flag. */
  ghost predicate QueueMirrors(pending: seq<PendingAck>, e: Epoch, k: nat)
    requires k <= |e.log|
  {
    && |pending| == |e.log| - k
    && forall i :: 0 <= i < |pending| ==>
         pending[i] == PendingAck(e.log[k + i].id, e.log[k + i].checkpoint, e.log[k + i].id in e.acked)
  }

  /** The partition is the fast form of the epoch. */
  ghost predicate Refines(p: Partition, e: Epoch) {
    && Ordered(e.base, e.firstId, e.log, p.nextDeliveryId)
    && QueueMirrors(p.pending, e, Settled(e))
    && p.processed == Contiguous(e)
    && p.lastRegistered == LastSeqno(e.base, e.log)
    && (p.snapshot.Some? ==> p.snapshot.value.start <= p.snapshot.value.end)
  }

  lemma {:induction false} SettledIs(e: Epoch, k: nat)
    requires k <= |e.log|
    requires forall i :: 0 <= i < k ==> e.log[i].id in e.acked
    requires k < |e.log| ==> e.log[k].id !in e.acked
    ensures Settled(e) == k
  {
  }

  /** The queue head is never acknowledged while the partition is at rest, and everything
      queued lies above `processed`. */
  lemma {:induction false} HeadIsUnacknowledged(p: Partition, e: Epoch)
    requires Refines(p, e)
    ensures p.pending != [] ==> !p.pending[0].acknowledged
    ensures p.processed.seqno <= p.lastRegistered
    ensures forall i :: 0 <= i < |p.pending| ==> p.processed.seqno < p.pending[i].checkpoint.seqno
  {
    var k := Settled(e);
    forall i | 0 <= i < |p.pending|
      ensures p.processed.seqno < p.pending[i].checkpoint.seqno
    {
      assert p.pending[i].checkpoint == e.log[k + i].checkpoint;
    }
  }

  /** The events at or below `processed` are exactly the acknowledged prefix. */
  lemma {:induction false} ProcessedCoversPrefix(e: Epoch, nextId: nat, i: nat)
    requires Ordered(e.base, e.firstId, e.log, nextId) && i < |e.log|
    ensures e.log[i].checkpoint.seqno <= Contiguous(e).seqno <==> i < Settled(e)
    ensures i < Settled(e) ==> e.log[i].id in e.acked
  {
    var k := Settled(e);
    if i < k - 1 {
      assert e.log[i].checkpoint.seqno < e.log[k - 1].checkpoint.seqno;
    } else if 0 < k && k - 1 < i {
      assert e.log[k - 1].checkpoint.seqno < e.log[i].checkpoint.seqno;
    }
  }

  lemma {:induction false} NewPartitionRefines(start: Checkpoint)
    ensures Refines(NewPartition(start), Epoch(start, 1, [], {}))
  {
  }

  lemma {:induction false} OrderedAppend(base: Checkpoint, firstId: nat, log: seq<Registration>, d: Registration)
    requires Ordered(base, firstId, log, d.id)
    requires LastSeqno(base, log) < d.checkpoint.seqno
    ensures Ordered(base, firstId, log + [d], d.id + 1)
  {
    var n := |log|;
    forall i | 0 <= i < n
      ensures log[i].checkpoint.seqno <= LastSeqno(base, log)
    {
      assert i < n - 1 ==> log[i].checkpoint.seqno < log[n - 1].checkpoint.seqno;
    }
  }

  lemma {:induction false} IssuesNextId(p: Partition, event: Event)
    requires TrackEvent(p, event).Ok? && TrackEvent(p, event).value.deliveryId.Some?
    ensures event.Sequenced? && TrackEvent(p, event).value.deliveryId.value == p.nextDeliveryId
  {
  }

  function EpochAfterTrack(p: Partition, e: Epoch, event: Event): Epoch
    requires TrackEvent(p, event).Ok?
  {
    if event.Sequenced? then
      e.(log := e.log + [Registration(p.nextDeliveryId,
                                  EventCheckpoint(p, p.snapshot.value, event.seqno, event.manifestUid))])
    else e
  }

  /** No acknowledged ID is above the log. */
  ghost predicate AckedAreIssued(e: Epoch, nextId: nat) {
    forall id :: id in e.acked ==> id < nextId
  }

  lemma {:induction false} TrackRefines(p: Partition, e: Epoch, event: Event)
    requires Refines(p, e) && AckedAreIssued(e, p.nextDeliveryId)
    requires TrackEvent(p, event).Ok?
    ensures Refines(TrackEvent(p, event).value.partition, EpochAfterTrack(p, e, event))
    ensures AckedAreIssued(EpochAfterTrack(p, e, event), TrackEvent(p, event).value.partition.nextDeliveryId)
  {
    if event.Sequenced? {
      var e' := EpochAfterTrack(p, e, event);
      OrderedAppend(e.base, e.firstId, e.log, e'.log[|e.log|]);
      SettledIs(e', Settled(e));
    }
  }

  /** ACK refinement: popping the queue does to `processed` what adding one ID to the
      acknowledged set does to the log's longest acknowledged prefix, for tokens in any order. */
  lemma {:induction false} AckRefines(p: Partition, e: Epoch, id: nat)
    requires Refines(p, e) && AckedAreIssued(e, p.nextDeliveryId)
    ensures Refines(Acknowledge(p, id).0, LogAck(e, id))
    ensures AckedAreIssued(LogAck(e, id), p.nextDeliveryId)
  {
    match FindDelivery(p.pending, id)
    case None => AckOfAbsentToken(p, e, id);
    case Some(i) => AckOfQueuedToken(p, e, id, i);
  }

  lemma {:induction false} AckOfAbsentToken(p: Partition, e: Epoch, id: nat)
    requires Refines(p, e)
    requires FindDelivery(p.pending, id).None?
    ensures LogAck(e, id) == e
  {
    var k := Settled(e);
    forall i | k <= i < |e.log|
      ensures e.log[i].id != id
    {
      assert p.pending[i - k].deliveryId == e.log[i].id;
    }
    if Logged(e.log, id) {
      assert id in e.acked;
      assert e.acked + {id} == e.acked;
    }
  }

  lemma {:induction false} AckOfQueuedToken(p: Partition, e: Epoch, id: nat, i: nat)
    requires Refines(p, e)
    requires FindDelivery(p.pending, id) == Some(i)
    ensures Refines(Acknowledge(p, id).0, LogAck(e, id))
    ensures LogAck(e, id).acked == e.acked + {id} && id < p.nextDeliveryId
  {
    var k := Settled(e);
    assert e.log[k + i].id == id;
    MarkedMirrors(p, e, i);
    PopRefines(p, MarkAcked(p.pending, i), e, e.(acked := e.acked + {id}), k);
  }

  /** Dropping the acknowledged head of a queue that mirrors the log from `k` on. */
  lemma {:induction false} PopRefines(p: Partition, marked: seq<PendingAck>, e: Epoch, e': Epoch, k: nat)
    requires Refines(p, e) && k == Settled(e)
    requires e' == e.(acked := e'.acked) && e.acked <= e'.acked
    requires QueueMirrors(marked, e', k)
    ensures Refines(PopAcked(p, marked).0, e')
  {
    SettledAfterAck(marked, e', k);
    var n := AckedPrefix(marked);
    assert n == 0 ==> marked[n..] == marked;
    assert n > 0 ==> marked[n - 1].checkpoint == e'.log[k + n - 1].checkpoint;
    assert PopAcked(p, marked).0.processed == Contiguous(e');
  }

  lemma {:induction false} MarkedMirrors(p: Partition, e: Epoch, i: nat)
    requires Refines(p, e) && i < |p.pending|
    ensures QueueMirrors(MarkAcked(p.pending, i), e.(acked := e.acked + {p.pending[i].deliveryId}), Settled(e))
  {
    var k := Settled(e);
    forall j | 0 <= j < |p.pending| && j != i
      ensures p.pending[j].deliveryId != p.pending[i].deliveryId
    {
      assert e.log[k + j].id != e.log[k + i].id;
    }
  }

  lemma {:induction false} SettledAfterAck(queue: seq<PendingAck>, e: Epoch, k: nat)
    requires k <= |e.log| && QueueMirrors(queue, e, k)
    requires forall i :: 0 <= i < k ==> e.log[i].id in e.acked
    ensures Settled(e) == k + AckedPrefix(queue)
    ensures QueueMirrors(queue[AckedPrefix(queue)..], e, Settled(e))
  {
    var n := AckedPrefix(queue);
    forall i | k <= i < k + n
      ensures e.log[i].id in e.acked
    {
      assert queue[i - k].acknowledged;
    }
    SettledIs(e, k + n);
  }

  /** An ACK never moves `processed` back, and short of overflow the generation counts its moves. */
  lemma {:induction false} AckIsMonotone(p: Partition, e: Epoch, id: nat)
    requires Refines(p, e)
    ensures p.processed.seqno <= Acknowledge(p, id).0.processed.seqno
    ensures CanBump(p) ==>
              var after := Acknowledge(p, id).0;
              after.generation == p.generation + (if after.processed != p.processed then 1 else 0)
  {
    match FindDelivery(p.pending, id)
    case None =>
    case Some(i) =>
      var marked := MarkAcked(p.pending, i);
      var n := AckedPrefix(marked);
      HeadIsUnacknowledged(p, e);
      if 0 < n {
        assert marked[n - 1].checkpoint == p.pending[n - 1].checkpoint;
      }
  }

  /** A token issued before a rebase never matches a later entry: the ACK is reported
      obsolete and changes nothing. */
  lemma {:induction false} StaleTokenIsObsolete(p: Partition, e: Epoch, id: nat)
    requires Refines(p, e)
    requires id < e.firstId
    ensures Acknowledge(p, id) == (p, Err(Obsolete))
  {
    var k := Settled(e);
    forall j | 0 <= j < |p.pending|
      ensures p.pending[j].deliveryId != id
    {
      assert p.pending[j].deliveryId == e.log[k + j].id;
    }
  }

  lemma {:induction false} RebaseRefines(p: Partition, e: Epoch, start: Checkpoint)
    requires Refines(p, e)
    ensures Refines(Rebase(p, start), Epoch(start, p.nextDeliveryId, [], {}))
  {
  }

  // ---------------------------------------------------------------- runs of one partition

  datatype Operation =
    | Track(event: Event)
    | Ack(deliveryId: nat)
    | Dirty
    | Restart(start: Checkpoint)

  /** Operations that are refused leave the partition as it was. */
  function Perform(p: Partition, op: Operation): Partition {
    match op
    case Track(event) =>
      (match TrackEvent(p, event)
       case Ok(t) => t.partition
       case Err(_) => p)
    case Ack(id) => Acknowledge(p, id).0
    case Dirty => if CanBump(p) then MarkDirty(p) else p
    case Restart(start) => if CanRebase(p, start) then Rebase(p, start) else p
  }

  ghost function PerformOnLog(p: Partition, e: Epoch, op: Operation): Epoch {
    match op
    case Track(event) => if TrackEvent(p, event).Ok? then EpochAfterTrack(p, e, event) else e
    case Ack(id) => LogAck(e, id)
    case Dirty => e
    case Restart(start) => if CanRebase(p, start) then Epoch(start, p.nextDeliveryId, [], {}) else e
  }

  function PerformAll(p: Partition, ops: seq<Operation>): Partition
    decreases |ops|
  {
    if ops == [] then p
    else Perform(PerformAll(p, ops[..|ops| - 1]), ops[|ops| - 1])
  }

  ghost function EpochAfter(p: Partition, e: Epoch, ops: seq<Operation>): Epoch
    decreases |ops|
  {
    if ops == [] then e
    else
      var before := ops[..|ops| - 1];
      PerformOnLog(PerformAll(p, before), EpochAfter(p, e, before), ops[|ops| - 1])
  }

  ghost predicate Tied(p: Partition, e: Epoch) {
    Refines(p, e) && AckedAreIssued(e, p.nextDeliveryId)
  }

  lemma {:induction false} TrackTies(p: Partition, e: Epoch, event: Event)
    requires Tied(p, e) && TrackEvent(p, event).Ok?
    ensures Tied(TrackEvent(p, event).value.partition, EpochAfterTrack(p, e, event))
  {
    TrackRefines(p, e, event);
  }

  lemma {:induction false} AckTies(p: Partition, e: Epoch, id: nat)
    requires Tied(p, e)
    ensures Tied(Acknowledge(p, id).0, LogAck(e, id))
  {
    AckRefines(p, e, id);
    assert Acknowledge(p, id).0.nextDeliveryId == p.nextDeliveryId;
  }

  lemma {:induction false} DirtyTies(p: Partition, e: Epoch)
    requires Tied(p, e)
    ensures Tied(MarkDirty(p), e)
  {
  }

  lemma {:induction false} RebaseTies(p: Partition, e: Epoch, start: Checkpoint)
    requires Tied(p, e)
    ensures Tied(Rebase(p, start), Epoch(start, p.nextDeliveryId, [], {}))
  {
    RebaseRefines(p, e, start);
  }

  lemma {:induction false} PerformRefines(p: Partition, e: Epoch, op: Operation)
    requires Tied(p, e)
    ensures Tied(Perform(p, op), PerformOnLog(p, e, op))
  {
    match op
    case Track(event) => if TrackEvent(p, event).Ok? { TrackTies(p, e, event); }
    case Ack(id) => AckTies(p, e, id);
    case Dirty => DirtyTies(p, e);
    case Restart(start) => RebaseTies(p, e, start);
  }

  /** Over every sequence of registrations, ACKs in any order, and rebases, `processed` is the
      checkpoint of the longest fully acknowledged prefix registered since the last rebase. */
  lemma {:induction false} ProcessedIsLongestPrefix(start: Checkpoint, ops: seq<Operation>)
    ensures var p, e := PerformAll(NewPartition(start), ops),
                        EpochAfter(NewPartition(start), Epoch(start, 1, [], {}), ops);
            Refines(p, e) && AckedAreIssued(e, p.nextDeliveryId)
    decreases |ops|
  {
    if ops == [] {
      NewPartitionRefines(start);
    } else {
      var before := ops[..|ops| - 1];
      ProcessedIsLongestPrefix(start, before);
      PerformRefines(PerformAll(NewPartition(start), before),
                     EpochAfter(NewPartition(start), Epoch(start, 1, [], {}), before),
                     ops[|ops| - 1]);
    }
  }
}
