/** The invariant of the whole delivery machine, kept by every step of every run. */
module DeliveryInvariant {
  import opened Base
  import opened Checkpoints
  import opened Partitions
  import opened Coordinator
  import opened Delivery
  import opened DeliveryLanes

  ghost predicate LanesInv(lanes: map<nat, Lane>) {
    forall v :: v in lanes ==> LaneInv(lanes[v])
  }

  /** The running save's captures are at least as new as what the store holds. */
  ghost predicate SaveInv(lanes: map<nat, Lane>, save: Option<Save>) {
    save.Some? ==>
      forall v :: v in save.value.batch ==>
        && v in lanes && lanes[v].marked
        && Captured(lanes[v], save.value.batch[v])
        && lanes[v].storedGeneration <= save.value.batch[v].generation
        && (v in save.value.written ==> lanes[v].storedGeneration == save.value.batch[v].generation)
  }

  /** A saved batch waiting for its commit is in the store, or something newer is. */
  ghost predicate BatchSaved(lanes: map<nat, Lane>, batch: Batch) {
    forall v :: v in batch ==>
      && v in lanes && lanes[v].marked
      && Captured(lanes[v], batch[v]) && batch[v].generation <= lanes[v].storedGeneration
  }

  ghost predicate SavedInv(lanes: map<nat, Lane>, saved: seq<Batch>) {
    forall k :: 0 <= k < |saved| ==> BatchSaved(lanes, saved[k])
  }

  /** The starts asked for lie at or below the current `processed`. */
  ghost predicate PhaseInv(lanes: map<nat, Lane>, phase: Phase) {
    && (phase.Preparing? || AllMarked(lanes))
    && (phase.Reopening? && phase.starts.Some? ==>
      && phase.starts.value.Keys == lanes.Keys
      && forall v :: v in lanes ==> phase.starts.value[v].seqno <= lanes[v].partition.processed.seqno)
  }

  ghost predicate Inv(s: System) {
    && LanesInv(s.lanes)
    && SaveInv(s.lanes, s.save)
    && SavedInv(s.lanes, s.saved)
    && PhaseInv(s.lanes, s.phase)
  }

  /** Steps that only add versions leave every capture in flight valid. */
  lemma {:induction false} CapturesSurvive(lanes: map<nat, Lane>, lanes': map<nat, Lane>,
                                           save: Option<Save>, saved: seq<Batch>)
    requires SaveInv(lanes, save) && SavedInv(lanes, saved)
    requires forall v :: v in lanes ==> v in lanes' && Extends(lanes[v], lanes'[v])
    ensures SaveInv(lanes', save) && SavedInv(lanes', saved)
  {
    forall k | 0 <= k < |saved|
      ensures BatchSaved(lanes', saved[k])
    {
      forall v | v in saved[k]
        ensures v in lanes' && lanes'[v].marked && Captured(lanes'[v], saved[k][v]) &&
                saved[k][v].generation <= lanes'[v].storedGeneration
      {
        assert BatchSaved(lanes, saved[k]);
        assert Extends(lanes[v], lanes'[v]);
      }
    }
    if save.Some? {
      forall v | v in save.value.batch
        ensures v in lanes' && lanes'[v].marked && Captured(lanes'[v], save.value.batch[v])
      {
        assert Extends(lanes[v], lanes'[v]);
      }
    }
  }

  lemma {:induction false} LaneReplaced(lanes: map<nat, Lane>, v: nat, l: Lane)
    requires LanesInv(lanes) && LaneInv(l)
    ensures LanesInv(lanes[v := l])
  {
    var lanes' := lanes[v := l];
    forall w | w in lanes'
      ensures LaneInv(lanes'[w])
    {
      if w != v {
        assert lanes'[w] == lanes[w];
      }
    }
  }

  lemma {:induction false} PhaseMoves(lanes: map<nat, Lane>, lanes': map<nat, Lane>, phase: Phase)
    requires PhaseInv(lanes, phase)
    requires lanes'.Keys == lanes.Keys
    requires forall v :: v in lanes ==> lanes[v].partition.processed.seqno <= lanes'[v].partition.processed.seqno
    requires forall v :: v in lanes && lanes[v].marked ==> lanes'[v].marked
    ensures PhaseInv(lanes', phase)
  {
  }

  lemma {:induction false} PhaseMovesOne(lanes: map<nat, Lane>, v: nat, l: Lane, phase: Phase)
    requires PhaseInv(lanes, phase) && v in lanes
    requires lanes[v].partition.processed.seqno <= l.partition.processed.seqno && (lanes[v].marked ==> l.marked)
    ensures PhaseInv(lanes[v := l], phase)
  {
    PhaseMoves(lanes, lanes[v := l], phase);
  }

  lemma {:induction false} CapturesSurviveOne(lanes: map<nat, Lane>, v: nat, l: Lane,
                                              save: Option<Save>, saved: seq<Batch>)
    requires SaveInv(lanes, save) && SavedInv(lanes, saved)
    requires v in lanes && Extends(lanes[v], l)
    ensures SaveInv(lanes[v := l], save) && SavedInv(lanes[v := l], saved)
  {
    CapturesSurvive(lanes, lanes[v := l], save, saved);
  }

  /** One lane moves on without touching the store. */
  lemma {:induction false} LaneMoves(s: System, v: nat, l: Lane)
    requires Inv(s) && v in s.lanes
    requires LaneInv(l) && Extends(s.lanes[v], l)
    requires s.lanes[v].partition.processed.seqno <= l.partition.processed.seqno
    ensures Inv(s.(lanes := s.lanes[v := l]))
  {
    LaneReplaced(s.lanes, v, l);
    CapturesSurviveOne(s.lanes, v, l, s.save, s.saved);
    PhaseMovesOne(s.lanes, v, l, s.phase);
  }

  lemma {:induction false} MarkInitialKeeps(s: System, v: nat)
    requires Inv(s) && Enabled(s, MarkInitial(v))
    ensures Inv(Do(s, MarkInitial(v)))
  {
    MarkKeeps(s.lanes[v]);
    LaneMoves(s, v, LaneMark(s.lanes[v]));
  }

  lemma {:induction false} ProduceKeepsAll(s: System, v: nat, events: set<nat>)
    requires Inv(s) && Enabled(s, Produce(v, events))
    ensures Inv(Do(s, Produce(v, events)))
  {
    ProduceKeeps(s.lanes[v], events);
    LaneMoves(s, v, s.lanes[v].(events := events));
  }

  lemma {:induction false} DeliverKeeps(s: System, v: nat, event: Event, fate: Fate)
    requires Inv(s) && Enabled(s, Deliver(v, event, fate))
    ensures Inv(Do(s, Deliver(v, event, fate)))
  {
    TrackKeeps(s.lanes[v], event);
    LaneMoves(s, v, LaneTrack(s.lanes[v], event));
    var tracked := s.(lanes := s.lanes[v := LaneTrack(s.lanes[v], event)]);
    forall t: Token ensures Inv(HandOut(tracked, t, fate)) {
      HandOutKeeps(tracked, t, fate);
    }
  }

  lemma {:induction false} HandOutKeeps(s: System, t: Token, fate: Fate)
    requires Inv(s)
    ensures Inv(HandOut(s, t, fate))
  {
  }

  lemma {:induction false} AckTokenKeeps(s: System, t: Token)
    requires Inv(s) && Enabled(s, AckToken(t))
    ensures Inv(Do(s, AckToken(t)))
  {
    AckKeeps(s.lanes[t.vbucket], t.deliveryId);
    LaneMoves(s, t.vbucket, LaneAck(s.lanes[t.vbucket], t.deliveryId));
  }

  lemma {:induction false} SetDirtyKeeps(s: System, v: nat)
    requires Inv(s) && Enabled(s, SetDirty(v))
    ensures Inv(Do(s, SetDirty(v)))
  {
    DirtyKeeps(s.lanes[v]);
    LaneMoves(s, v, LaneDirty(s.lanes[v]));
  }

  lemma {:induction false} CaptureKeeps(s: System)
    requires Inv(s) && Enabled(s, FlushCapture)
    ensures Inv(Do(s, FlushCapture))
  {
    var batch := DirtyBatch(PartitionsOf(s.lanes));
    forall v | v in batch
      ensures v in s.lanes && s.lanes[v].marked && Captured(s.lanes[v], batch[v])
      ensures s.lanes[v].storedGeneration <= batch[v].generation
    {
      assert LaneInv(s.lanes[v]);
    }
  }

  lemma {:induction false} WriteKeepsLanes(lanes: map<nat, Lane>, save: Save, v: nat)
    requires LanesInv(lanes) && SaveInv(lanes, Some(save)) && v in save.batch
    ensures LanesInv(lanes[v := LaneWrite(lanes[v], save.batch[v])])
  {
    WriteKeeps(lanes[v], save.batch[v]);
    LaneReplaced(lanes, v, LaneWrite(lanes[v], save.batch[v]));
  }

  lemma {:induction false} WriteKeepsAll(s: System, v: nat)
    requires Inv(s) && Enabled(s, StoreWrite(v))
    ensures Inv(Do(s, StoreWrite(v)))
  {
    WriteKeepsLanes(s.lanes, s.save.value, v);
    WriteKeepsCaptures(s.lanes, s.save.value, s.saved, v);
    PhaseMovesOne(s.lanes, v, LaneWrite(s.lanes[v], s.save.value.batch[v]), s.phase);
  }

  lemma {:induction false} WriteKeepsCaptures(lanes: map<nat, Lane>, save: Save, saved: seq<Batch>, v: nat)
    requires SaveInv(lanes, Some(save)) && SavedInv(lanes, saved) && v in save.batch && v in lanes
    ensures var lanes' := lanes[v := LaneWrite(lanes[v], save.batch[v])];
            && SaveInv(lanes', Some(save.(written := save.written + {v})))
            && SavedInv(lanes', saved)
  {
    var lanes' := lanes[v := LaneWrite(lanes[v], save.batch[v])];
    forall k | 0 <= k < |saved|
      ensures BatchSaved(lanes', saved[k])
    {
      assert BatchSaved(lanes, saved[k]);
    }
  }

  lemma {:induction false} SaveEndKeeps(s: System, ok: bool)
    requires Inv(s) && Enabled(s, SaveEnd(ok))
    ensures Inv(Do(s, SaveEnd(ok)))
  {
    if ok {
      assert BatchSaved(s.lanes, s.save.value.batch);
    }
  }

  lemma {:induction false} WithoutKeeps(lanes: map<nat, Lane>, saved: seq<Batch>, k: nat)
    requires SavedInv(lanes, saved) && k < |saved|
    ensures SavedInv(lanes, Without(saved, k))
  {
  }

  lemma {:induction false} CommitKeepsLanes(lanes: map<nat, Lane>, batch: Batch, lanes': map<nat, Lane>)
    requires LanesInv(lanes) && BatchSaved(lanes, batch)
    requires lanes' == map v | v in lanes :: if v in batch then LaneCommit(lanes[v], batch[v]) else lanes[v]
    ensures LanesInv(lanes')
    ensures forall v :: v in lanes ==> v in lanes' && Extends(lanes[v], lanes'[v])
  {
    forall v | v in lanes
      ensures LaneInv(lanes'[v]) && Extends(lanes[v], lanes'[v])
    {
      if v in batch {
        CommitKeeps(lanes[v], batch[v]);
      }
    }
  }

  lemma {:induction false} CommitKeepsProcessed(lanes: map<nat, Lane>, batch: Batch, lanes': map<nat, Lane>)
    requires lanes' == map v | v in lanes :: if v in batch then LaneCommit(lanes[v], batch[v]) else lanes[v]
    ensures lanes'.Keys == lanes.Keys
    ensures forall v :: v in lanes ==> lanes[v].partition.processed == lanes'[v].partition.processed
  {
  }

  lemma {:induction false} CommitKeepsAll(s: System, k: nat)
    requires Inv(s) && Enabled(s, FlushCommit(k))
    ensures Inv(Do(s, FlushCommit(k)))
  {
    var lanes := Do(s, FlushCommit(k)).lanes;
    CommitKeepsLanes(s.lanes, s.saved[k], lanes);
    CommitKeepsProcessed(s.lanes, s.saved[k], lanes);
    CommittedKeeps(s, k, lanes);
  }

  lemma {:induction false} CommittedKeeps(s: System, k: nat, lanes: map<nat, Lane>)
    requires Inv(s) && k < |s.saved| && LanesInv(lanes) && lanes.Keys == s.lanes.Keys
    requires forall v :: v in s.lanes ==> v in lanes && Extends(s.lanes[v], lanes[v])
    requires forall v :: v in s.lanes ==> s.lanes[v].partition.processed == lanes[v].partition.processed
    ensures Inv(s.(lanes := lanes, saved := Without(s.saved, k)))
  {
    WithoutKeeps(s.lanes, s.saved, k);
    CapturesSurvive(s.lanes, lanes, s.save, Without(s.saved, k));
    PhaseMoves(s.lanes, lanes, s.phase);
  }

  lemma {:induction false} InstalledIs(s: System, effective: map<nat, Checkpoint>, v: nat)
    requires v in s.lanes
    ensures v in DoInstall(s, effective).lanes
    ensures DoInstall(s, effective).lanes[v] ==
            if v in effective then LaneRebase(s.lanes[v], effective[v]) else s.lanes[v]
  {
  }

  lemma {:induction false} InstallKeeps(s: System, effective: map<nat, Checkpoint>)
    requires Inv(s) && Enabled(s, Install(effective))
    ensures Inv(Do(s, Install(effective)))
  {
    var s' := Do(s, Install(effective));
    forall v | v in s.lanes
      ensures LaneInv(s'.lanes[v]) && Extends(s.lanes[v], s'.lanes[v])
    {
      if v in effective {
        RebaseKeeps(s.lanes[v], effective[v]);
      }
    }
    CapturesSurvive(s.lanes, s'.lanes, s.save, s.saved);
  }

  lemma {:induction false} ActivateKeeps(s: System)
    requires Inv(s) && Enabled(s, Activate)
    ensures Inv(Do(s, Activate))
  {
  }

  lemma {:induction false} PollKeeps(s: System)
    requires Inv(s) && Enabled(s, Poll)
    ensures Inv(Do(s, Poll))
  {
  }

  lemma {:induction false} AbandonKeeps(s: System, k: nat)
    requires Inv(s) && Enabled(s, FlushAbandon(k))
    ensures Inv(Do(s, FlushAbandon(k)))
  {
    WithoutKeeps(s.lanes, s.saved, k);
  }

  lemma {:induction false} ReopenKeeps(s: System, step: Step)
    requires Inv(s) && Enabled(s, step) && (step.ReopenBegin? || step.ReopenRequest?)
    ensures Inv(Do(s, step))
  {
  }

  lemma {:induction false} HaltKeeps(s: System)
    requires Inv(s) && Enabled(s, Halt)
    ensures Inv(Do(s, Halt))
  {
  }

  /** Every step keeps the invariant. */
  lemma {:induction false} StepKeeps(s: System, step: Step)
    requires Inv(s) && Enabled(s, step)
    ensures Inv(Do(s, step))
  {
    match step
    case MarkInitial(v) => MarkInitialKeeps(s, v);
    case Activate => ActivateKeeps(s);
    case Produce(v, events) => ProduceKeepsAll(s, v, events);
    case Deliver(v, event, fate) => DeliverKeeps(s, v, event, fate);
    case Poll => PollKeeps(s);
    case AckToken(t) => AckTokenKeeps(s, t);
    case SetDirty(v) => SetDirtyKeeps(s, v);
    case FlushCapture => CaptureKeeps(s);
    case StoreWrite(v) => WriteKeepsAll(s, v);
    case SaveEnd(ok) => SaveEndKeeps(s, ok);
    case FlushCommit(k) => CommitKeepsAll(s, k);
    case FlushAbandon(k) => AbandonKeeps(s, k);
    case ReopenBegin => ReopenKeeps(s, step);
    case ReopenRequest => ReopenKeeps(s, step);
    case Install(effective) => InstallKeeps(s, effective);
    case Halt => HaltKeeps(s);
  }

  lemma {:induction false} InitialInv(bucketUuid: string, loaded: map<nat, Checkpoint>,
                                      effective: map<nat, Checkpoint>, past: map<nat, Past>)
    ensures Inv(Initial(bucketUuid, loaded, effective, past))
  {
    forall v | v in effective
      ensures LaneInv(Initial(bucketUuid, loaded, effective, past).lanes[v])
    {
      InitialLaneInv(if v in loaded then Some(loaded[v]) else None, effective[v],
                     if v in past then past[v] else NoPast(effective[v]));
    }
  }

  lemma {:induction false} RunKeeps(s: System, steps: seq<Step>)
    requires Inv(s) && Runs(s, steps)
    ensures Inv(After(s, steps))
    decreases |steps|
  {
    if steps != [] {
      StepKeeps(s, steps[0]);
      RunKeeps(Do(s, steps[0]), steps[1..]);
    }
  }

  /** A state some run reaches from an opened subscription. */
  ghost predicate Reachable(s: System) {
    exists bucketUuid, loaded, effective, past, steps ::
      Runs(Initial(bucketUuid, loaded, effective, past), steps) &&
      s == After(Initial(bucketUuid, loaded, effective, past), steps)
  }

  lemma {:induction false} ReachableInv(s: System)
    requires Reachable(s)
    ensures Inv(s)
  {
    var bucketUuid, loaded, effective, past, steps :|
      Runs(Initial(bucketUuid, loaded, effective, past), steps) &&
      s == After(Initial(bucketUuid, loaded, effective, past), steps);
    InitialInv(bucketUuid, loaded, effective, past);
    RunKeeps(Initial(bucketUuid, loaded, effective, past), steps);
  }
}
