/** What the delivery machine promises in every reachable state. */
module DeliveryTheorems {
  import opened Base
  import opened Checkpoints
  import opened Partitions
  import opened Coordinator
  import opened Rollback
  import opened Delivery
  import opened DeliveryLanes
  import opened DeliveryInvariant

  /** Over every interleaving of flushes (late commits, timeouts, partial writes), ACKs and
      rebases, a clean partition has its exact `processed` checkpoint in the store.  The one
      exception is a changed opening start before it is marked, and once the subscription is
      active there is none. */
  lemma {:induction false} CleanMeansPersisted(s: System, v: nat)
    requires Reachable(s) && v in s.lanes
    ensures var p := s.lanes[v].partition;
            && (p.generation == p.durableGeneration ==> p.durable == p.processed)
            && (!p.IsDirty() ==> (s.lanes[v].stored == Some(p.processed) <==> s.lanes[v].marked))
            && (!s.phase.Preparing? ==> s.lanes[v].marked)
  {
    ReachableInv(s);
    CleanIsStored(s.lanes[v]);
  }

  /** What a flush writes is the version of the generation it captured: `processed` at that
      moment, when no event of the epoch at or below it was still unacknowledged. */
  lemma {:induction false} StoreNeverAhead(s: System, v: nat)
    requires Reachable(s) && Enabled(s, StoreWrite(v))
    ensures var captured := s.save.value.batch[v].generation;
            var written := Do(s, StoreWrite(v)).lanes[v];
            && captured < |written.versions|
            && written.stored == Some(written.versions[captured].checkpoint)
            && NothingSkipped(written.versions[captured])
  {
    ReachableInv(s);
    assert LaneInv(s.lanes[v]) && Captured(s.lanes[v], s.save.value.batch[v]);
  }

  /** At each rebase, every event registered since the previous one and never acknowledged
      lies above the new start, also when ACKs landed after the start was asked for. */
  lemma {:induction false} AtLeastOnceAcrossReopen(s: System, effective: map<nat, Checkpoint>, v: nat, i: nat)
    requires Reachable(s) && Enabled(s, Install(effective))
    requires v in s.lanes && i < |s.lanes[v].epoch.log|
    requires s.lanes[v].epoch.log[i].id !in s.lanes[v].epoch.acked
    ensures var after := Do(s, Install(effective)).lanes[v];
            && after.partition.processed.seqno < s.lanes[v].epoch.log[i].checkpoint.seqno
            && after.partition.lastRegistered == after.partition.processed.seqno
  {
    ReachableInv(s);
    EffectiveBelowProcessed(s, effective, v);
    UnackedIsAhead(s.lanes[v], i);
    InstalledStart(s, effective, v);
  }

  lemma {:induction false} UnackedIsAhead(l: Lane, i: nat)
    requires LaneInv(l) && i < |l.epoch.log| && l.epoch.log[i].id !in l.epoch.acked
    ensures l.partition.processed.seqno < l.epoch.log[i].checkpoint.seqno
  {
    ProcessedCoversPrefix(l.epoch, l.partition.nextDeliveryId, i);
  }

  lemma {:induction false} InstalledStart(s: System, effective: map<nat, Checkpoint>, v: nat)
    requires Enabled(s, Install(effective)) && v in s.lanes && v in effective
    ensures v in Do(s, Install(effective)).lanes
    ensures var after := Do(s, Install(effective)).lanes[v].partition;
            after.processed.seqno == after.lastRegistered == effective[v].seqno
  {
  }

  lemma {:induction false} EffectiveBelowProcessed(s: System, effective: map<nat, Checkpoint>, v: nat)
    requires Inv(s) && Enabled(s, Install(effective)) && v in s.lanes
    ensures v in effective
    ensures effective[v].seqno <= s.lanes[v].partition.processed.seqno
  {
    var starts := s.phase.starts.value;
    assert v in starts;
    ReopensBehind(v, s.bucketUuid, starts[v], effective[v]);
  }

  lemma {:induction false} ReopensBehind(v: nat, bucketUuid: string, start: Checkpoint, effective: Checkpoint)
    requires ReopensAt(v, bucketUuid, start, effective)
    ensures effective.seqno <= start.seqno
  {
    var env :| Offers(env) && ReopenedAt(Reopen(v, bucketUuid, start, env), effective);
    ReopenNeverSkips(v, bucketUuid, start, env);
  }

  // ---------------------------------------------------------------- nothing is skipped by a restart

  /** The producer leaves out no event it holds between two deliveries. */
  ghost predicate GapFree(s: System, step: Step, v: nat) {
    step.Deliver? && step.event.Sequenced? && step.vbucket == v && v in s.lanes ==>
      NoGap(s.lanes[v], step.event.seqno)
  }

  ghost predicate NoGap(l: Lane, seqno: nat) {
    forall n :: n in l.events ==> !(l.partition.lastRegistered < n < seqno)
  }

  ghost predicate RunsGapFree(s: System, steps: seq<Step>, v: nat)
    decreases |steps|
  {
    steps == [] ||
    (Enabled(s, steps[0]) && GapFree(s, steps[0], v) && RunsGapFree(Do(s, steps[0]), steps[1..], v))
  }

  ghost predicate AckedUpTo(l: Lane, seqno: nat) {
    forall n :: n in l.events && l.start < n <= seqno ==> n in l.ackedSeqnos
  }

  /** Every event the producer held when the version was recorded, above the start and at or below
      its checkpoint, was acknowledged under that history. */
  ghost predicate Complete(version: Version) {
    forall n :: n in version.events && version.start < n <= version.checkpoint.seqno ==> n in version.acked
  }

  ghost predicate HasSeqno(log: seq<Registration>, n: nat) {
    exists i :: 0 <= i < |log| && log[i].checkpoint.seqno == n
  }

  ghost predicate LogComplete(e: Epoch, events: set<nat>) {
    forall n :: n in events && e.base.seqno < n <= LastSeqno(e.base, e.log) ==> HasSeqno(e.log, n)
  }

  ghost predicate AckedAreRecorded(l: Lane) {
    forall i :: 0 <= i < |l.epoch.log| && l.epoch.log[i].id in l.epoch.acked ==>
      l.epoch.log[i].checkpoint.seqno in l.ackedSeqnos
  }

  /** The base and the log account for every event the producer holds up to the last one delivered. */
  ghost predicate Accounted(l: Lane) {
    AckedUpTo(l, l.epoch.base.seqno) && LogComplete(l.epoch, l.events) && AckedAreRecorded(l)
  }

  ghost predicate Covered(l: Lane) {
    Accounted(l) && forall g :: 0 <= g < |l.versions| ==> Complete(l.versions[g])
  }

  lemma {:induction false} ProcessedIsCovered(l: Lane)
    requires EpochInv(l) && Accounted(l)
    ensures AckedUpTo(l, l.partition.processed.seqno)
  {
    var e := l.epoch;
    HeadIsUnacknowledged(l.partition, e);
    forall n | n in l.events && l.start < n <= l.partition.processed.seqno
      ensures n in l.ackedSeqnos
    {
      if e.base.seqno < n {
        assert HasSeqno(e.log, n);
        var i :| 0 <= i < |e.log| && e.log[i].checkpoint.seqno == n;
        ProcessedCoversPrefix(e, l.partition.nextDeliveryId, i);
      }
    }
  }

  lemma {:induction false} LogGrows(log: seq<Registration>, d: Registration, base: Checkpoint, events: set<nat>)
    requires forall n :: n in events && base.seqno < n <= LastSeqno(base, log) ==> HasSeqno(log, n)
    requires forall n :: n in events ==> !(LastSeqno(base, log) < n < d.checkpoint.seqno)
    ensures forall n :: n in events && base.seqno < n <= d.checkpoint.seqno ==> HasSeqno(log + [d], n)
  {
    var longer := log + [d];
    assert longer[|log|] == d;
    forall n | n in events && base.seqno < n <= d.checkpoint.seqno
      ensures HasSeqno(longer, n)
    {
      if n != d.checkpoint.seqno {
        var i :| 0 <= i < |log| && log[i].checkpoint.seqno == n;
        assert longer[i].checkpoint.seqno == n;
      }
    }
  }

  lemma {:induction false} TrackCovers(l: Lane, event: Event)
    requires LaneInv(l) && Covered(l) && TrackEvent(l.partition, event).Ok?
    requires event.Sequenced? ==> NoGap(l, event.seqno)
    ensures Covered(LaneTrack(l, event))
  {
    if event.Sequenced? {
      var d := LaneTrack(l, event).epoch.log[|l.epoch.log|];
      LogGrows(l.epoch.log, d, l.epoch.base, l.events);
    }
  }

  lemma {:induction false} VersionedCovers(l: Lane, generation: nat)
    requires EpochInv(l) && Covered(l)
    ensures Covered(Versioned(l, generation))
  {
    ProcessedIsCovered(l);
    assert Complete(VersionOf(l));
  }

  lemma {:induction false} AckCovers(l: Lane, id: nat)
    requires LaneInv(l) && Covered(l)
    ensures Covered(LaneAck(l, id))
  {
    var after := l.(partition := Acknowledge(l.partition, id).0,
                    epoch := LogAck(l.epoch, id),
                    ackedSeqnos := l.ackedSeqnos + SeqnosOf(l.epoch.log, id));
    AckKeepsEpoch(l, id, after);
    AckAccounts(l, id, after);
    VersionedCovers(after, l.partition.generation);
  }

  lemma {:induction false} AckAccounts(l: Lane, id: nat, after: Lane)
    requires Covered(l) && after.start == l.start && after.events == l.events && after.versions == l.versions
    requires after.epoch == LogAck(l.epoch, id) && after.ackedSeqnos == l.ackedSeqnos + SeqnosOf(l.epoch.log, id)
    ensures Covered(after)
  {
    forall i | 0 <= i < |after.epoch.log| && after.epoch.log[i].id in after.epoch.acked
      ensures after.epoch.log[i].checkpoint.seqno in after.ackedSeqnos
    {
      if l.epoch.log[i].id == id {
        assert l.epoch.log[i].checkpoint.seqno in SeqnosOf(l.epoch.log, id);
      }
    }
  }

  /** Cutting the acknowledgements at the point the stream resumes from leaves none of them open. */
  lemma {:induction false} RebaseCovers(l: Lane, start: Checkpoint)
    requires LaneInv(l) && Covered(l) && start.seqno <= l.partition.processed.seqno
    ensures Covered(LaneRebase(l, start))
  {
    ProcessedIsCovered(l);
    RebaseRefines(l.partition, l.epoch, start);
    var after := Resumed(l, start);
    assert AckedUpTo(after, start.seqno);
    VersionedCovers(after, l.partition.generation);
  }

  lemma {:induction false} ProduceCovers(l: Lane, events: set<nat>)
    requires LaneInv(l) && Covered(l) && Evolves(l, events)
    ensures Covered(l.(events := events))
  {
    HeadIsUnacknowledged(l.partition, l.epoch);
    var after := l.(events := events);
    assert l.epoch.base.seqno <= l.partition.lastRegistered by {
      BaseIsBehind(l.partition, l.epoch);
    }
    assert AckedUpTo(after, l.epoch.base.seqno);
  }

  lemma {:induction false} BaseIsBehind(p: Partition, e: Epoch)
    requires Refines(p, e)
    ensures e.base.seqno <= p.lastRegistered
  {
  }

  lemma {:induction false} SameHistoryCovers(l: Lane, l': Lane)
    requires Covered(l)
    requires l'.start == l.start && l'.events == l.events && l'.epoch == l.epoch
    requires l'.versions == l.versions && l'.ackedSeqnos == l.ackedSeqnos
    ensures Covered(l')
  {
  }

  lemma {:induction false} DirtyCovers(l: Lane)
    requires LaneInv(l) && Covered(l)
    ensures Covered(LaneDirty(l))
  {
    var after := l.(partition := MarkDirty(l.partition));
    SameHistoryCovers(l, after);
    VersionedCovers(after, l.partition.generation);
  }

  lemma {:induction false} MarkCovers(l: Lane)
    requires LaneInv(l) && Covered(l)
    ensures Covered(LaneMark(l))
  {
    DirtyCovers(l);
    SameHistoryCovers(LaneDirty(l), LaneMark(l));
  }

  lemma {:induction false} InstallCovers(s: System, effective: map<nat, Checkpoint>, v: nat)
    requires Inv(s) && Enabled(s, Install(effective)) && v in s.lanes && Covered(s.lanes[v])
    ensures v in Do(s, Install(effective)).lanes && Covered(Do(s, Install(effective)).lanes[v])
  {
    EffectiveBelowProcessed(s, effective, v);
    RebaseCovers(s.lanes[v], effective[v]);
    assert Do(s, Install(effective)).lanes[v] == LaneRebase(s.lanes[v], effective[v]);
  }

  /** Steps that leave every lane's history alone. */
  ghost predicate KeepsHistory(step: Step) {
    && !step.MarkInitial? && !step.Produce? && !step.Deliver?
    && !step.AckToken? && !step.SetDirty? && !step.Install?
  }

  lemma {:induction false} QuietStep(s: System, step: Step, v: nat)
    requires Enabled(s, step) && KeepsHistory(step) && v in s.lanes
    ensures v in Do(s, step).lanes
    ensures var l, l' := s.lanes[v], Do(s, step).lanes[v];
            && l'.start == l.start && l'.events == l.events && l'.epoch == l.epoch
            && l'.versions == l.versions && l'.ackedSeqnos == l.ackedSeqnos
  {
  }

  lemma {:induction false} StepCovers(s: System, step: Step, v: nat)
    requires Inv(s) && Enabled(s, step) && GapFree(s, step, v)
    requires v in s.lanes && Covered(s.lanes[v])
    ensures v in Do(s, step).lanes && Covered(Do(s, step).lanes[v])
  {
    var l := s.lanes[v];
    assert LaneInv(l);
    if KeepsHistory(step) {
      QuietStep(s, step, v);
      SameHistoryCovers(l, Do(s, step).lanes[v]);
    } else if step.Install? {
      InstallCovers(s, step.effective, v);
    } else {
      OneLaneCovers(s, step, v);
    }
  }

  lemma {:induction false} OneLaneCovers(s: System, step: Step, v: nat)
    requires Enabled(s, step) && GapFree(s, step, v)
    requires v in s.lanes && LaneInv(s.lanes[v]) && Covered(s.lanes[v])
    requires !KeepsHistory(step) && !step.Install?
    ensures v in Do(s, step).lanes && Covered(Do(s, step).lanes[v])
  {
    var l := s.lanes[v];
    var l' := Do(s, step).lanes[v];
    match step
    case MarkInitial(w) => if v == w { MarkCovers(l); }
    case Produce(w, events) => if v == w { ProduceCovers(l, events); }
    case Deliver(w, event, _) => if v == w { TrackCovers(l, event); assert l' == LaneTrack(l, event); }
    case AckToken(t) => if v == t.vbucket { AckCovers(l, t.deliveryId); }
    case SetDirty(w) => if v == w { DirtyCovers(l); }
  }

  lemma {:induction false} RunCovers(s: System, steps: seq<Step>, v: nat)
    requires Inv(s) && v in s.lanes && Covered(s.lanes[v]) && RunsGapFree(s, steps, v)
    ensures Runs(s, steps) && Inv(After(s, steps))
    ensures v in After(s, steps).lanes && Covered(After(s, steps).lanes[v])
    decreases |steps|
  {
    if steps != [] {
      StepKeeps(s, steps[0]);
      StepCovers(s, steps[0], v);
      RunCovers(Do(s, steps[0]), steps[1..], v);
    }
  }

  /** What earlier clients acknowledged accounts for the history up to where this one starts. */
  ghost predicate Credited(past: Past, seqno: nat) {
    forall n :: n in past.events && past.start < n <= seqno ==> n in past.acked
  }

  lemma {:induction false} InitialCovers(loaded: Option<Checkpoint>, effective: Checkpoint, past: Past)
    requires Credited(past, effective.seqno)
    ensures Covered(InitialLane(loaded, effective, past))
  {
    var l := InitialLane(loaded, effective, past);
    assert AckedUpTo(l, effective.seqno) && Complete(l.versions[0]);
  }

  /** What the theorem below says of one vBucket: everything the producer holds above the start and
      up to `processed` is acknowledged, and what this client stored last is a version that was
      complete under the history it was taken under. */
  ghost predicate SkipsNothing(l: Lane) {
    && AckedUpTo(l, l.partition.processed.seqno)
    && (l.storedGeneration >= 0 ==>
          && l.storedGeneration < |l.versions|
          && l.stored == Some(l.versions[l.storedGeneration].checkpoint)
          && Complete(l.versions[l.storedGeneration]))
  }

  lemma {:induction false} CoveredSkipsNothing(l: Lane)
    requires LaneInv(l) && Covered(l)
    ensures SkipsNothing(l)
  {
    ProcessedIsCovered(l);
  }

  /** Restart safety, over whole runs with any number of reopens, rollbacks to other histories,
      failed flushes and late commits: a producer may change its history at every reopen above the
      point the stream resumes from, add events and drop superseded ones at any time.  As long as
      it delivers without gaps, resuming from the store skips no event of the history the stored
      checkpoint belongs to. */
  lemma {:induction false} RestartSkipsNothing(bucketUuid: string, loaded: map<nat, Checkpoint>,
                                               effective: map<nat, Checkpoint>, past: map<nat, Past>,
                                               steps: seq<Step>, v: nat)
    requires RunsGapFree(Initial(bucketUuid, loaded, effective, past), steps, v) && v in effective
    requires v in past ==> Credited(past[v], effective[v].seqno)
    ensures Runs(Initial(bucketUuid, loaded, effective, past), steps)
    ensures var s := After(Initial(bucketUuid, loaded, effective, past), steps);
            v in s.lanes && SkipsNothing(s.lanes[v])
  {
    var s0 := Initial(bucketUuid, loaded, effective, past);
    InitialInv(bucketUuid, loaded, effective, past);
    InitialCovers(if v in loaded then Some(loaded[v]) else None, effective[v],
                  if v in past then past[v] else NoPast(effective[v]));
    RunSkipsNothing(s0, steps, v);
  }

  lemma {:induction false} RunSkipsNothing(s: System, steps: seq<Step>, v: nat)
    requires Inv(s) && v in s.lanes && Covered(s.lanes[v]) && RunsGapFree(s, steps, v)
    ensures Runs(s, steps) && v in After(s, steps).lanes && SkipsNothing(After(s, steps).lanes[v])
  {
    RunCovers(s, steps, v);
    CoveredSkipsNothing(After(s, steps).lanes[v]);
  }

  lemma {:induction false} FirstDeliveryIsOpen(l: Lane, window: Window, uid: Option<nat>, n: nat)
    requires l.epoch.log == [] && l.epoch.acked == {}
    requires TrackEvent(l.partition, Marker(window)).Ok?
    requires TrackEvent(LaneTrack(l, Marker(window)).partition, Sequenced(n, uid)).Ok?
    ensures var again := LaneTrack(LaneTrack(l, Marker(window)), Sequenced(n, uid));
            && |again.epoch.log| == 1 && again.epoch.log[0].id == l.partition.nextDeliveryId
            && again.epoch.log[0].checkpoint.seqno == n && again.epoch.acked == {}
            && again.ackedSeqnos == l.ackedSeqnos && again.partition.processed == l.partition.processed
  {
  }

  /** A resumed stream does not count acknowledgements of another history: an event redelivered above
      the resume point is registered and open again, although its number was acknowledged before. */
  lemma {:induction false} RewindReopensNumbers(l: Lane, start: Checkpoint, window: Window, uid: Option<nat>, n: nat)
    requires LaneInv(l) && n in l.ackedSeqnos && start.seqno < n
    requires TrackEvent(LaneRebase(l, start).partition, Marker(window)).Ok?
    requires TrackEvent(LaneTrack(LaneRebase(l, start), Marker(window)).partition, Sequenced(n, uid)).Ok?
    ensures var again := LaneTrack(LaneTrack(LaneRebase(l, start), Marker(window)), Sequenced(n, uid));
            && |again.epoch.log| == 1 && again.epoch.log[0].id == l.partition.nextDeliveryId
            && again.epoch.log[0].checkpoint.seqno == n
            && again.epoch.log[0].id !in again.epoch.acked && n !in again.ackedSeqnos
            && again.partition.processed.seqno < n
  {
    FirstDeliveryIsOpen(LaneRebase(l, start), window, uid, n);
  }
}
