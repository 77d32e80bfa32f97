/** The connection-generation fence: which queued deliveries reach the application, and which
    ACK tokens still count. */
module DeliveryFence {
  import opened Base
  import opened Checkpoints
  import opened Partitions
  import opened Coordinator
  import opened Delivery
  import opened DeliveryLanes
  import opened DeliveryInvariant

  /** Registered in the current epoch and not acknowledged. */
  ghost predicate Live(l: Lane, id: nat) {
    Logged(l.epoch.log, id) && id !in l.epoch.acked
  }

  ghost predicate TokenLive(lanes: map<nat, Lane>, t: Token) {
    t.vbucket in lanes && Live(lanes[t.vbucket], t.deliveryId)
  }

  ghost predicate Issued(lanes: map<nat, Lane>, t: Token) {
    t.vbucket in lanes && t.deliveryId < lanes[t.vbucket].partition.nextDeliveryId
  }

  ghost predicate QueueInv(s: System) {
    && (forall i :: 0 <= i < |s.queue| ==>
          && s.queue[i].connection <= s.connection
          && Issued(s.lanes, s.queue[i].token)
          && s.queue[i].token !in s.held)
    && (forall i, j :: 0 <= i < j < |s.queue| ==> s.queue[i].token != s.queue[j].token)
  }

  /** What carries the current connection generation is live, and nothing does while the
      driver is reopening. */
  ghost predicate CurrentInv(s: System) {
    forall i :: 0 <= i < |s.queue| && s.queue[i].connection == s.connection ==>
      !s.phase.Reopening? && TokenLive(s.lanes, s.queue[i].token)
  }

  ghost predicate FenceInv(s: System) {
    && QueueInv(s)
    && (forall t :: t in s.held ==> Issued(s.lanes, t))
    && CurrentInv(s)
  }

  lemma {:induction false} TrackKeepsLive(l: Lane, event: Event, id: nat)
    requires Live(l, id) && TrackEvent(l.partition, event).Ok?
    ensures Live(LaneTrack(l, event), id)
  {
    var i :| 0 <= i < |l.epoch.log| && l.epoch.log[i].id == id;
    assert LaneTrack(l, event).epoch.log[i].id == id;
  }

  lemma {:induction false} TrackedIsLive(l: Lane, event: Event)
    requires EpochInv(l) && TrackEvent(l.partition, event).Ok?
    requires TrackEvent(l.partition, event).value.deliveryId.Some?
    ensures Live(LaneTrack(l, event), TrackEvent(l.partition, event).value.deliveryId.value)
  {
    assert LaneTrack(l, event).epoch.log[|l.epoch.log|].id == l.partition.nextDeliveryId;
  }

  lemma {:induction false} TrackKeepsTokens(lanes: map<nat, Lane>, v: nat, event: Event, t: Token)
    requires v in lanes && TrackEvent(lanes[v].partition, event).Ok?
    ensures TokenLive(lanes, t) ==> TokenLive(lanes[v := LaneTrack(lanes[v], event)], t)
    ensures Issued(lanes, t) ==> Issued(lanes[v := LaneTrack(lanes[v], event)], t)
  {
    if t.vbucket == v && Live(lanes[v], t.deliveryId) {
      TrackKeepsLive(lanes[v], event, t.deliveryId);
    }
  }

  /** Registering an event that is not handed out keeps the fence. */
  lemma {:induction false} TrackFences(s: System, v: nat, event: Event)
    requires FenceInv(s) && v in s.lanes && TrackEvent(s.lanes[v].partition, event).Ok?
    ensures FenceInv(s.(lanes := s.lanes[v := LaneTrack(s.lanes[v], event)]))
  {
    forall t: Token
      ensures TokenLive(s.lanes, t) ==> TokenLive(s.lanes[v := LaneTrack(s.lanes[v], event)], t)
      ensures Issued(s.lanes, t) ==> Issued(s.lanes[v := LaneTrack(s.lanes[v], event)], t)
    {
      TrackKeepsTokens(s.lanes, v, event, t);
    }
  }

  /** A token nobody has yet may be queued or held. */
  lemma {:induction false} NewTokenFences(s: System, t: Token, fate: Fate)
    requires FenceInv(s) && !s.phase.Reopening?
    requires Issued(s.lanes, t) && TokenLive(s.lanes, t)
    requires t !in s.held && forall i :: 0 <= i < |s.queue| ==> s.queue[i].token != t
    ensures FenceInv(HandOut(s, t, fate))
  {
    match fate
    case Queued => assert FenceInv(s.(queue := s.queue + [Output(s.connection, t)]));
    case Skipped => assert FenceInv(s.(held := s.held + {t}));
    case Dropped =>
  }

  lemma {:induction false} UnissuedIsNew(s: System, t: Token)
    requires FenceInv(s) && !Issued(s.lanes, t)
    ensures t !in s.held && forall i :: 0 <= i < |s.queue| ==> s.queue[i].token != t
  {
  }

  lemma {:induction false} DeliveredFences(s: System, v: nat, event: Event, fate: Fate)
    requires FenceInv(s) && !s.phase.Reopening?
    requires v in s.lanes && EpochInv(s.lanes[v]) && TrackEvent(s.lanes[v].partition, event).Ok?
    ensures FenceInv(DoDeliver(s, v, event, fate))
  {
    var l := s.lanes[v];
    TrackFences(s, v, event);
    if TrackEvent(l.partition, event).value.deliveryId.Some? {
      IssuesNextId(l.partition, event);
      var t := Token(v, l.partition.nextDeliveryId);
      TrackedIsLive(l, event);
      UnissuedIsNew(s, t);
      NewTokenFences(s.(lanes := s.lanes[v := LaneTrack(l, event)]), t, fate);
    }
  }

  lemma {:induction false} DeliverFences(s: System, v: nat, event: Event, fate: Fate)
    requires Inv(s) && FenceInv(s) && Enabled(s, Deliver(v, event, fate))
    ensures FenceInv(Do(s, Deliver(v, event, fate)))
  {
    assert LaneInv(s.lanes[v]);
    DeliveredFences(s, v, event, fate);
  }

  lemma {:induction false} PollFences(s: System)
    requires FenceInv(s) && Enabled(s, Poll)
    ensures FenceInv(Do(s, Poll))
  {
    var s' := Do(s, Poll);
    forall i | 0 <= i < |s'.queue|
      ensures s'.queue[i] == s.queue[i + 1]
    {
    }
  }

  lemma {:induction false} AckFences(s: System, t: Token)
    requires FenceInv(s) && Enabled(s, AckToken(t))
    ensures FenceInv(Do(s, AckToken(t)))
  {
    var s' := Do(s, AckToken(t));
    var l := s.lanes[t.vbucket];
    assert s'.lanes[t.vbucket].epoch == LogAck(l.epoch, t.deliveryId);
    forall i | 0 <= i < |s.queue| && s.queue[i].connection == s.connection
      ensures TokenLive(s'.lanes, s.queue[i].token)
    {
      assert s.queue[i].token != t;
    }
  }

  lemma {:induction false} InstallFences(s: System, effective: map<nat, Checkpoint>)
    requires FenceInv(s) && Enabled(s, Install(effective))
    ensures FenceInv(Do(s, Install(effective)))
  {
    InstalledFences(s, effective);
  }

  lemma {:induction false} InstalledFences(s: System, effective: map<nat, Checkpoint>)
    requires FenceInv(s) && s.phase.Reopening?
    ensures FenceInv(DoInstall(s, effective))
  {
    var s' := DoInstall(s, effective);
    forall v | v in s.lanes
      ensures v in s'.lanes && s'.lanes[v].partition.nextDeliveryId == s.lanes[v].partition.nextDeliveryId
    {
      InstalledIs(s, effective, v);
    }
  }

  lemma {:induction false} FlushFences(s: System, step: Step)
    requires FenceInv(s) && Enabled(s, step)
    requires step.MarkInitial? || step.Produce? || step.SetDirty? || step.FlushCapture? || step.StoreWrite? ||
             step.SaveEnd? || step.FlushCommit? || step.FlushAbandon?
    ensures FenceInv(Do(s, step))
  {
    var s' := Do(s, step);
    forall v | v in s.lanes
      ensures v in s'.lanes && s'.lanes[v].epoch == s.lanes[v].epoch
      ensures s'.lanes[v].partition.nextDeliveryId == s.lanes[v].partition.nextDeliveryId
    {
    }
    assert s'.queue == s.queue && s'.held == s.held && s'.phase == s.phase && s'.connection == s.connection;
    forall i | 0 <= i < |s.queue| && s.queue[i].connection == s.connection
      ensures TokenLive(s'.lanes, s.queue[i].token)
    {
    }
  }

  lemma {:induction false} PhaseFences(s: System, step: Step)
    requires FenceInv(s) && Enabled(s, step)
    requires step.Activate? || step.ReopenBegin? || step.ReopenRequest? || step.Halt?
    ensures FenceInv(Do(s, step))
  {
    assert Do(s, step).lanes == s.lanes && Do(s, step).queue == s.queue && Do(s, step).held == s.held;
  }

  lemma {:induction false} StepFences(s: System, step: Step)
    requires Inv(s) && FenceInv(s) && Enabled(s, step)
    ensures FenceInv(Do(s, step))
  {
    match step
    case Deliver(v, event, fate) => DeliverFences(s, v, event, fate);
    case Poll => PollFences(s);
    case AckToken(t) => AckFences(s, t);
    case Install(effective) => InstallFences(s, effective);
    case Activate => PhaseFences(s, step);
    case ReopenBegin => PhaseFences(s, step);
    case ReopenRequest => PhaseFences(s, step);
    case Halt => PhaseFences(s, step);
    case _ => FlushFences(s, step);
  }

  lemma {:induction false} RunFences(s: System, steps: seq<Step>)
    requires Inv(s) && FenceInv(s) && Runs(s, steps)
    ensures Inv(After(s, steps)) && FenceInv(After(s, steps))
    decreases |steps|
  {
    if steps != [] {
      StepKeeps(s, steps[0]);
      StepFences(s, steps[0]);
      RunFences(Do(s, steps[0]), steps[1..]);
    }
  }

  lemma {:induction false} ReachableFence(s: System)
    requires Reachable(s)
    ensures Inv(s) && FenceInv(s)
  {
    var bucketUuid, loaded, effective, past, steps :|
      Runs(Initial(bucketUuid, loaded, effective, past), steps) &&
      s == After(Initial(bucketUuid, loaded, effective, past), steps);
    InitialInv(bucketUuid, loaded, effective, past);
    RunFences(Initial(bucketUuid, loaded, effective, past), steps);
  }

  lemma {:induction false} LiveIsQueued(l: Lane, id: nat)
    requires EpochInv(l) && Live(l, id)
    ensures FindDelivery(l.partition.pending, id).Some?
  {
    var e := l.epoch;
    var i :| 0 <= i < |e.log| && e.log[i].id == id;
    var k := Settled(e);
    assert k <= i;
    assert l.partition.pending[i - k].deliveryId == id;
  }

  /** A delivery that passes the fence can always be acknowledged: its token is not obsolete
      at the moment the application receives it. */
  lemma {:induction false} YieldedDeliveryIsAckable(s: System)
    requires Reachable(s) && Enabled(s, Poll)
    requires s.queue[0].connection == s.connection
    ensures var t := s.queue[0].token;
            && t.vbucket in s.lanes
            && Acknowledge(s.lanes[t.vbucket].partition, t.deliveryId).1 != Err(Obsolete)
  {
    ReachableFence(s);
    var t := s.queue[0].token;
    assert EpochInv(s.lanes[t.vbucket]);
    LiveIsQueued(s.lanes[t.vbucket], t.deliveryId);
  }

  lemma {:induction false} AllReopened(s: System, effective: map<nat, Checkpoint>)
    requires PhaseInv(s.lanes, s.phase) && Enabled(s, Install(effective))
    ensures effective.Keys == s.lanes.Keys
  {
  }

  lemma {:induction false} InstalledLane(s: System, effective: map<nat, Checkpoint>, v: nat)
    requires v in s.lanes && v in effective
    ensures v in DoInstall(s, effective).lanes
    ensures DoInstall(s, effective).lanes[v].epoch.firstId == s.lanes[v].partition.nextDeliveryId
  {
    InstalledIs(s, effective, v);
  }

  /** Installing a generation fences every token issued before it: an ACK with one is
      obsolete and changes nothing. */
  lemma {:induction false} InstallFencesTokens(s: System, effective: map<nat, Checkpoint>, t: Token)
    requires Reachable(s) && Enabled(s, Install(effective)) && t in s.held
    ensures var s' := Do(s, Install(effective));
            && t.vbucket in s'.lanes
            && t.deliveryId < s'.lanes[t.vbucket].epoch.firstId
            && Acknowledge(s'.lanes[t.vbucket].partition, t.deliveryId) ==
               (s'.lanes[t.vbucket].partition, Err(Obsolete))
  {
    ReachableFence(s);
    assert Issued(s.lanes, t);
    AllReopened(s, effective);
    InstalledLane(s, effective, t.vbucket);
    var l := Do(s, Install(effective)).lanes[t.vbucket];
    assert EpochInv(l) by {
      StepKeeps(s, Install(effective));
      assert LaneInv(l);
    }
    StaleTokenIsObsolete(l.partition, l.epoch, t.deliveryId);
  }

  lemma {:induction false} FirstIdNeverFalls(s: System, step: Step, v: nat)
    requires Enabled(s, step) && v in s.lanes
    requires s.lanes[v].epoch.firstId <= s.lanes[v].partition.nextDeliveryId
    ensures v in Do(s, step).lanes
    ensures s.lanes[v].epoch.firstId <= Do(s, step).lanes[v].epoch.firstId
  {
  }

  /** A fenced token stays fenced in every continuation of the run. */
  lemma {:induction false} FencedTokenStaysObsolete(s: System, steps: seq<Step>, t: Token)
    requires Inv(s) && Runs(s, steps)
    requires t.vbucket in s.lanes && t.deliveryId < s.lanes[t.vbucket].epoch.firstId
    ensures var s' := After(s, steps);
            && t.vbucket in s'.lanes
            && Acknowledge(s'.lanes[t.vbucket].partition, t.deliveryId) ==
               (s'.lanes[t.vbucket].partition, Err(Obsolete))
    decreases |steps|
  {
    if steps == [] {
      assert EpochInv(s.lanes[t.vbucket]);
      StaleTokenIsObsolete(s.lanes[t.vbucket].partition, s.lanes[t.vbucket].epoch, t.deliveryId);
    } else {
      StepKeeps(s, steps[0]);
      assert EpochInv(s.lanes[t.vbucket]);
      FirstIdNeverFalls(s, steps[0], t.vbucket);
      FencedTokenStaysObsolete(Do(s, steps[0]), steps[1..], t);
    }
  }

  // ---------------------------------------------------------------- steps are coordinator calls

  /** The commit and install steps do to the partitions what the coordinator's methods do. */
  lemma {:induction false} StepsAreCoordinatorCalls(s: System, k: nat, effective: map<nat, Checkpoint>)
    ensures Enabled(s, FlushCommit(k)) ==>
              PartitionsOf(Do(s, FlushCommit(k)).lanes) == CommitBatch(PartitionsOf(s.lanes), s.saved[k])
    ensures Enabled(s, Install(effective)) ==>
              PartitionsOf(Do(s, Install(effective)).lanes) == RebaseAll(PartitionsOf(s.lanes), effective)
  {
    InstallIsRebase(s, effective);
  }

  lemma {:induction false} InstallIsRebase(s: System, effective: map<nat, Checkpoint>)
    ensures PartitionsOf(DoInstall(s, effective).lanes) == RebaseAll(PartitionsOf(s.lanes), effective)
  {
  }
}
