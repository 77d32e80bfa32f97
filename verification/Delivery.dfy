/**
  The delivery machine: the coordinator, the flush tasks, the checkpoint store, the delivery
  queue with its connection-generation fence, and the reopening driver, as one labelled
  transition system.  Every lock-protected section of the source is one step; timeouts and
  task scheduling are the choice of the next label.  `Lane` carries, beside the real state
  of one vBucket, the history the theorems talk about.
  */
module Delivery {
  import opened Base
  import opened Checkpoints
  import opened Partitions
  import opened Coordinator
  import opened StreamRequests
  import opened Rollback

  /** A value `processed` once had, with the epoch, the responsibility, the producer's history and
      the acknowledged sequence numbers of the moment it took it. */
  datatype Version = Version(checkpoint: Checkpoint, epoch: Epoch, start: nat, events: set<nat>, acked: set<nat>)

  datatype Lane = Lane(
    partition: Partition,
    stored: Option<Checkpoint>,   // what the checkpoint store holds for the vBucket
    // history
    start: nat,                   // lowest sequence number this client has resumed from
    events: set<nat>,             // the sequence numbers the producer holds now
    marked: bool,                 // the opening start was in the store or has been marked dirty
    epoch: Epoch,                 // everything registered since the last rebase
    versions: seq<Version>,       // versions[g] is `processed` at generation g
    storedGeneration: int,        // generation of the last write, -1 before the first
    ackedSeqnos: set<nat>)        // acknowledged so far, cut at every point the stream resumed from

  datatype Token = Token(vbucket: nat, deliveryId: nat)
  datatype Output = Output(connection: nat, token: Token)

  /** A registered delivery is queued for the application, kept by the driver (a listener
      skip, which the driver acknowledges itself), or dropped: the queue closes, or a newer
      topology interrupts the send and leads to a reopen. */
  datatype Fate = Queued | Skipped | Dropped

  /** The subscription is driven once every changed opening start has been marked. */
  datatype Phase = Preparing | Driving | Reopening(starts: Option<map<nat, Checkpoint>>) | Halted

  /** The one save that holds the flush gate, and the entries it has written. */
  datatype Save = Save(batch: Batch, written: set<nat>)

  datatype System = System(
    bucketUuid: string,
    lanes: map<nat, Lane>,
    save: Option<Save>,
    saved: seq<Batch>,            // saves that succeeded, whose flush has not committed yet
    connection: nat,
    queue: seq<Output>,
    held: set<Token>,
    phase: Phase)

  datatype Step =
    | MarkInitial(vbucket: nat)
    | Activate
    | Produce(vbucket: nat, events: set<nat>)
    | Deliver(vbucket: nat, event: Event, fate: Fate)
    | Poll
    | AckToken(token: Token)
    | SetDirty(vbucket: nat)
    | FlushCapture
    | StoreWrite(vbucket: nat)
    | SaveEnd(succeeded: bool)
    | FlushCommit(index: nat)
    | FlushAbandon(index: nat)
    | ReopenBegin
    | ReopenRequest
    | Install(effective: map<nat, Checkpoint>)
    | Halt

  // ---------------------------------------------------------------- one vBucket

  ghost function LaneTrack(l: Lane, event: Event): Lane
    requires TrackEvent(l.partition, event).Ok?
  {
    l.(partition := TrackEvent(l.partition, event).value.partition,
       epoch := EpochAfterTrack(l.partition, l.epoch, event))
  }

  ghost function SeqnosOf(log: seq<Registration>, id: nat): set<nat> {
    set i | 0 <= i < |log| && log[i].id == id :: log[i].checkpoint.seqno
  }

  ghost function VersionOf(l: Lane): Version {
    Version(l.partition.processed, l.epoch, l.start, l.events, l.ackedSeqnos)
  }

  /** A version is recorded whenever the generation moves. */
  ghost function Versioned(l: Lane, generation: nat): Lane {
    if l.partition.generation == generation then l
    else l.(versions := l.versions + [VersionOf(l)])
  }

  ghost function LaneAck(l: Lane, id: nat): Lane {
    Versioned(l.(partition := Acknowledge(l.partition, id).0,
                 epoch := LogAck(l.epoch, id),
                 ackedSeqnos := l.ackedSeqnos + SeqnosOf(l.epoch.log, id)),
              l.partition.generation)
  }

  ghost function LaneDirty(l: Lane): Lane {
    Versioned(l.(partition := MarkDirty(l.partition)), l.partition.generation)
  }

  /** Above the point a stream resumes from, the producer's history may be another one, so only
      the acknowledgements at or below it still count. */
  ghost function Resumed(l: Lane, start: Checkpoint): Lane {
    l.(partition := Rebase(l.partition, start),
       epoch := Epoch(start, l.partition.nextDeliveryId, [], {}),
       start := Min(l.start, start.seqno),
       ackedSeqnos := set n | n in l.ackedSeqnos && n <= start.seqno)
  }

  ghost function LaneRebase(l: Lane, start: Checkpoint): Lane {
    Versioned(Resumed(l, start), l.partition.generation)
  }

  ghost function LaneWrite(l: Lane, c: Capture): Lane {
    l.(stored := Some(c.checkpoint), storedGeneration := c.generation)
  }

  ghost function LaneCommit(l: Lane, c: Capture): Lane {
    l.(partition := Commit(l.partition, c))
  }

  /** What is known of a vBucket when a client starts: since where, under which history, and what
      earlier clients had acknowledged. */
  datatype Past = Past(start: nat, events: set<nat>, acked: set<nat>)

  ghost function NoPast(effective: Checkpoint): Past {
    Past(effective.seqno, {}, {})
  }

  /** The lane when the coordinator is created at `effective`, with `loaded` in the store. */
  ghost function InitialLane(loaded: Option<Checkpoint>, effective: Checkpoint, past: Past): Lane {
    var epoch := Epoch(effective, 1, [], {});
    Lane(NewPartition(effective), loaded, past.start, past.events, loaded == Some(effective), epoch,
         [Version(effective, epoch, past.start, past.events, past.acked)],
         if loaded == Some(effective) then 0 else -1, past.acked)
  }

  /** A changed opening start is marked dirty. */
  ghost function LaneMark(l: Lane): Lane {
    LaneDirty(l).(marked := true)
  }

  ghost predicate AllMarked(lanes: map<nat, Lane>) {
    forall v :: v in lanes ==> lanes[v].marked
  }

  /** The producer may add events, drop superseded ones, and after a reopen hold another history,
      but it never puts an event at or below the last one it delivered on this stream. */
  ghost predicate Evolves(l: Lane, events: set<nat>) {
    forall n :: n in events && n <= l.partition.lastRegistered ==> n in l.events
  }

  // ---------------------------------------------------------------- steps

  ghost function PartitionsOf(lanes: map<nat, Lane>): PartitionMap {
    map v | v in lanes :: lanes[v].partition
  }

  /** The environment offers a manifest-resolved filter and a 64-bit high seqno. */
  ghost predicate Offers(env: Environment) {
    && (env.filter.Some? ==> FilterEncodes(env.filter.value.(streamId := None)))
    && env.high <= U64_MAX
  }

  ghost predicate ReopenedAt(outcome: Result<OpenState, OpenError>, effective: Checkpoint) {
    outcome.Ok? && outcome.value.effective == effective
  }

  /** Some producer lets the vBucket, reopened from `start`, begin at `effective`. */
  ghost predicate ReopensAt(v: nat, bucketUuid: string, start: Checkpoint, effective: Checkpoint) {
    exists env :: Offers(env) && ReopenedAt(Reopen(v, bucketUuid, start, env), effective)
  }

  ghost predicate Opens(s: System, starts: map<nat, Checkpoint>, effective: map<nat, Checkpoint>) {
    && effective.Keys == starts.Keys
    && forall v :: v in starts ==> ReopensAt(v, s.bucketUuid, starts[v], effective[v])
  }

  ghost predicate Enabled(s: System, step: Step) {
    match step
    case MarkInitial(v) => s.phase.Preparing? && v in s.lanes && !s.lanes[v].marked
    case Activate => s.phase.Preparing? && AllMarked(s.lanes)
    case Produce(v, events) => v in s.lanes && Evolves(s.lanes[v], events)
    case Deliver(v, event, _) => s.phase.Driving? && v in s.lanes && TrackEvent(s.lanes[v].partition, event).Ok?
    case Poll => s.queue != []
    case AckToken(t) =>
      !s.phase.Preparing? && t in s.held && t.vbucket in s.lanes && CanBump(s.lanes[t.vbucket].partition)
    case SetDirty(v) => !s.phase.Preparing? && v in s.lanes && CanBump(s.lanes[v].partition)
    case FlushCapture => s.save.None? && DirtyBatch(PartitionsOf(s.lanes)) != map[]
    case StoreWrite(v) => s.save.Some? && v in s.save.value.batch && v in s.lanes
    case SaveEnd(ok) => s.save.Some? && (ok ==> s.save.value.batch.Keys <= s.save.value.written)
    case FlushCommit(k) => k < |s.saved|
    case FlushAbandon(k) => k < |s.saved|
    case ReopenBegin => s.phase.Driving? && s.connection < U64_MAX
    case ReopenRequest => s.phase.Reopening?
    case Install(effective) =>
      && s.phase.Reopening? && s.phase.starts.Some?
      && Opens(s, s.phase.starts.value, effective)
      && Rebasable(PartitionsOf(s.lanes), effective, s.bucketUuid)
    case Halt => s.phase.Driving? || s.phase.Reopening?
  }

  ghost function Processed(s: System): map<nat, Checkpoint> {
    map v | v in s.lanes :: s.lanes[v].partition.processed
  }

  ghost function Without(saved: seq<Batch>, k: nat): seq<Batch>
    requires k < |saved|
  {
    saved[..k] + saved[k + 1..]
  }

  ghost function HandOut(s: System, t: Token, fate: Fate): System {
    match fate
    case Queued => s.(queue := s.queue + [Output(s.connection, t)])
    case Skipped => s.(held := s.held + {t})
    case Dropped => s
  }

  ghost function DoDeliver(s: System, v: nat, event: Event, fate: Fate): System
    requires v in s.lanes && TrackEvent(s.lanes[v].partition, event).Ok?
  {
    var s' := s.(lanes := s.lanes[v := LaneTrack(s.lanes[v], event)]);
    match TrackEvent(s.lanes[v].partition, event).value.deliveryId
    case None => s'
    case Some(id) => HandOut(s', Token(v, id), fate)
  }

  ghost function DoPoll(s: System): System
    requires s.queue != []
  {
    var s' := s.(queue := s.queue[1..]);
    if s.queue[0].connection == s.connection then s'.(held := s.held + {s.queue[0].token}) else s'
  }

  ghost function DoInstall(s: System, effective: map<nat, Checkpoint>): System {
    s.(lanes := map v | v in s.lanes :: if v in effective then LaneRebase(s.lanes[v], effective[v]) else s.lanes[v],
       phase := Driving)
  }

  ghost function Do(s: System, step: Step): System
    requires Enabled(s, step)
  {
    match step
    case MarkInitial(v) => s.(lanes := s.lanes[v := LaneMark(s.lanes[v])])
    case Activate => s.(phase := Driving)
    case Produce(v, events) => s.(lanes := s.lanes[v := s.lanes[v].(events := events)])
    case Deliver(v, event, fate) => DoDeliver(s, v, event, fate)
    case Poll => DoPoll(s)
    case AckToken(t) =>
      s.(lanes := s.lanes[t.vbucket := LaneAck(s.lanes[t.vbucket], t.deliveryId)], held := s.held - {t})
    case SetDirty(v) => s.(lanes := s.lanes[v := LaneDirty(s.lanes[v])])
    case FlushCapture => s.(save := Some(Save(DirtyBatch(PartitionsOf(s.lanes)), {})))
    case StoreWrite(v) =>
      s.(lanes := s.lanes[v := LaneWrite(s.lanes[v], s.save.value.batch[v])],
         save := Some(s.save.value.(written := s.save.value.written + {v})))
    case SaveEnd(ok) => s.(save := None, saved := if ok then s.saved + [s.save.value.batch] else s.saved)
    case FlushCommit(k) =>
      s.(lanes := map v | v in s.lanes ::
                    if v in s.saved[k] then LaneCommit(s.lanes[v], s.saved[k][v]) else s.lanes[v],
         saved := Without(s.saved, k))
    case FlushAbandon(k) => s.(saved := Without(s.saved, k))
    case ReopenBegin => s.(connection := s.connection + 1, phase := Reopening(None))
    case ReopenRequest => s.(phase := Reopening(Some(Processed(s))))
    case Install(effective) => DoInstall(s, effective)
    case Halt => s.(phase := Halted)
  }

  ghost function Initial(bucketUuid: string, loaded: map<nat, Checkpoint>, effective: map<nat, Checkpoint>,
                         past: map<nat, Past>): System
  {
    System(bucketUuid,
           map v | v in effective :: InitialLane(if v in loaded then Some(loaded[v]) else None, effective[v],
                                                 if v in past then past[v] else NoPast(effective[v])),
           None, [], 1, [], {}, Preparing)
  }

  /** `steps` can be taken one after the other from `s`. */
  ghost predicate Runs(s: System, steps: seq<Step>)
    decreases |steps|
  {
    steps == [] || (Enabled(s, steps[0]) && Runs(Do(s, steps[0]), steps[1..]))
  }

  ghost function After(s: System, steps: seq<Step>): System
    requires Runs(s, steps)
    decreases |steps|
  {
    if steps == [] then s else After(Do(s, steps[0]), steps[1..])
  }
}
