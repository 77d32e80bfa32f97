/**
  One client after the other on the same checkpoint store.  Each lifetime is a run of the delivery
  machine that starts from what the store holds; the ledger keeps, for the stored checkpoint, the
  history it was taken under and what had been acknowledged by then.
  */
module DeliveryLifetimes {
  import opened Base
  import opened Checkpoints
  import opened Partitions
  import opened Delivery
  import opened DeliveryLanes
  import opened DeliveryInvariant
  import opened DeliveryTheorems

  datatype Life = Life(
    loaded: map<nat, Checkpoint>, effective: map<nat, Checkpoint>, past: map<nat, Past>, steps: seq<Step>)

  ghost function Begin(bucketUuid: string, life: Life): System {
    Initial(bucketUuid, life.loaded, life.effective, life.past)
  }

  /** The version behind what the store holds for the vBucket when the run has ended; a lifetime that
      wrote nothing leaves the one before. */
  ghost function Ledger(l: Lane, before: Option<Version>): Option<Version> {
    if 0 <= l.storedGeneration < |l.versions| then Some(l.versions[l.storedGeneration]) else before
  }

  /** What a new lifetime knows of the stored version when it resumes at `seqno`: above that point the
      producer may hold another history, at or below it none of its events are new. */
  ghost predicate Resumes(past: Past, version: Version, seqno: nat) {
    && past.start == Min(version.start, seqno)
    && past.acked == (set n | n in version.acked && n <= seqno)
    && forall n :: n in past.events && n <= seqno ==> n in version.events
  }

  /** How a lifetime starts.  The first one finds no version of ours and starts anywhere; a later one
      loads the stored checkpoint and is opened from it by some producer. */
  ghost predicate Begins(bucketUuid: string, life: Life, v: nat, ledger: Option<Version>) {
    && v in life.effective
    && match ledger
       case None => v !in life.past
       case Some(version) =>
         && v in life.loaded && life.loaded[v] == version.checkpoint
         && ReopensAt(v, bucketUuid, version.checkpoint, life.effective[v])
         && v in life.past && Resumes(life.past[v], version, life.effective[v].seqno)
  }

  /** The lifetimes follow one another on one store, each with a producer that leaves no gaps. */
  ghost predicate Follow(bucketUuid: string, lives: seq<Life>, v: nat, ledger: Option<Version>)
    decreases |lives|
  {
    lives == [] ||
    (&& Begins(bucketUuid, lives[0], v, ledger)
     && RunsGapFree(Begin(bucketUuid, lives[0]), lives[0].steps, v)
     && Runs(Begin(bucketUuid, lives[0]), lives[0].steps)
     && v in After(Begin(bucketUuid, lives[0]), lives[0].steps).lanes
     && Follow(bucketUuid, lives[1..], v, Ledger(EndLane(bucketUuid, lives[0], v), ledger)))
  }

  ghost function EndLane(bucketUuid: string, life: Life, v: nat): Lane
    requires Runs(Begin(bucketUuid, life), life.steps)
    requires v in After(Begin(bucketUuid, life), life.steps).lanes
  {
    After(Begin(bucketUuid, life), life.steps).lanes[v]
  }

  ghost function LastLedger(bucketUuid: string, lives: seq<Life>, v: nat, ledger: Option<Version>): Option<Version>
    requires Follow(bucketUuid, lives, v, ledger)
    decreases |lives|
  {
    if lives == [] then ledger
    else LastLedger(bucketUuid, lives[1..], v, Ledger(EndLane(bucketUuid, lives[0], v), ledger))
  }

  // ---------------------------------------------------------------- who acknowledged what

  /** The sequence numbers of the vBucket that one step acknowledges. */
  ghost function AckedBy(s: System, step: Step, v: nat): set<nat> {
    if step.AckToken? && step.token.vbucket == v && v in s.lanes
    then SeqnosOf(s.lanes[v].epoch.log, step.token.deliveryId)
    else {}
  }

  ghost function AckedDuring(s: System, steps: seq<Step>, v: nat): set<nat>
    requires Runs(s, steps)
    decreases |steps|
  {
    if steps == [] then {} else AckedBy(s, steps[0], v) + AckedDuring(Do(s, steps[0]), steps[1..], v)
  }

  /** Everything acknowledged in any of the lifetimes. */
  ghost function AckedEver(bucketUuid: string, lives: seq<Life>, v: nat, ledger: Option<Version>): set<nat>
    requires Follow(bucketUuid, lives, v, ledger)
    decreases |lives|
  {
    if lives == [] then {}
    else
      AckedDuring(Begin(bucketUuid, lives[0]), lives[0].steps, v) +
      AckedEver(bucketUuid, lives[1..], v, Ledger(EndLane(bucketUuid, lives[0], v), ledger))
  }

  /** The lane, and every version it has recorded, claims no acknowledgement beyond `known` and no
      start above `start`. */
  ghost predicate Claims(l: Lane, known: set<nat>, start: nat) {
    && l.ackedSeqnos <= known && l.start <= start
    && forall g :: 0 <= g < |l.versions| ==> ClaimsVersion(l.versions[g], known, start)
  }

  ghost predicate ClaimsVersion(version: Version, known: set<nat>, start: nat) {
    version.acked <= known && version.start <= start
  }

  lemma {:induction false} ClaimsMore(l: Lane, known: set<nat>, more: set<nat>, start: nat)
    requires Claims(l, known, start)
    ensures Claims(l, known + more, start)
  {
    forall g | 0 <= g < |l.versions| ensures ClaimsVersion(l.versions[g], known + more, start) {
      assert ClaimsVersion(l.versions[g], known, start);
    }
  }

  lemma {:induction false} VersionedClaims(l: Lane, generation: nat, known: set<nat>, start: nat)
    requires Claims(l, known, start)
    ensures Claims(Versioned(l, generation), known, start)
  {
    assert ClaimsVersion(VersionOf(l), known, start);
  }

  lemma {:induction false} SameClaims(l: Lane, l': Lane, known: set<nat>, start: nat)
    requires Claims(l, known, start)
    requires l'.versions == l.versions && l'.ackedSeqnos <= known && l'.start <= start
    ensures Claims(l', known, start)
  {
  }

  lemma {:induction false} LaneClaims(s: System, step: Step, v: nat, known: set<nat>, start: nat)
    requires Enabled(s, step) && v in s.lanes && Claims(s.lanes[v], known, start)
    ensures v in Do(s, step).lanes
    ensures Claims(Do(s, step).lanes[v], known + AckedBy(s, step, v), start)
  {
    var l, more := s.lanes[v], AckedBy(s, step, v);
    ClaimsMore(l, known, more, start);
    if KeepsHistory(step) {
      QuietStep(s, step, v);
      SameClaims(l, Do(s, step).lanes[v], known + more, start);
    } else {
      LoudClaims(s, step, v, known + more, start);
    }
  }

  lemma {:induction false} AckClaims(l: Lane, id: nat, known: set<nat>, start: nat)
    requires Claims(l, known, start) && SeqnosOf(l.epoch.log, id) <= known
    ensures Claims(LaneAck(l, id), known, start)
  {
    var after := l.(partition := Acknowledge(l.partition, id).0,
                    epoch := LogAck(l.epoch, id),
                    ackedSeqnos := l.ackedSeqnos + SeqnosOf(l.epoch.log, id));
    SameClaims(l, after, known, start);
    VersionedClaims(after, l.partition.generation, known, start);
  }

  lemma {:induction false} DirtyClaims(l: Lane, known: set<nat>, start: nat)
    requires Claims(l, known, start)
    ensures Claims(LaneDirty(l), known, start) && Claims(LaneMark(l), known, start)
  {
    var after := l.(partition := MarkDirty(l.partition));
    SameClaims(l, after, known, start);
    VersionedClaims(after, l.partition.generation, known, start);
    SameClaims(LaneDirty(l), LaneMark(l), known, start);
  }

  lemma {:induction false} RebaseClaims(l: Lane, at: Checkpoint, known: set<nat>, start: nat)
    requires Claims(l, known, start)
    ensures Claims(LaneRebase(l, at), known, start)
  {
    SameClaims(l, Resumed(l, at), known, start);
    VersionedClaims(Resumed(l, at), l.partition.generation, known, start);
  }

  lemma {:induction false} LoudClaims(s: System, step: Step, v: nat, known: set<nat>, start: nat)
    requires Enabled(s, step) && v in s.lanes && Claims(s.lanes[v], known, start)
    requires !KeepsHistory(step) && AckedBy(s, step, v) <= known
    ensures v in Do(s, step).lanes && Claims(Do(s, step).lanes[v], known, start)
  {
    var l := s.lanes[v];
    match step
    case MarkInitial(w) => if v == w { DirtyClaims(l, known, start); }
    case Produce(w, events) => if v == w { SameClaims(l, l.(events := events), known, start); }
    case Deliver(w, event, _) => if v == w { SameClaims(l, LaneTrack(l, event), known, start); }
    case AckToken(t) => if v == t.vbucket { AckClaims(l, t.deliveryId, known, start); }
    case SetDirty(w) => if v == w { DirtyClaims(l, known, start); }
    case Install(effective) =>
      InstalledIs(s, effective, v);
      if v in effective { RebaseClaims(l, effective[v], known, start); }
  }

  lemma {:induction false} RunClaims(s: System, steps: seq<Step>, v: nat, known: set<nat>, start: nat)
    requires Runs(s, steps) && v in s.lanes && Claims(s.lanes[v], known, start)
    ensures v in After(s, steps).lanes
    ensures Claims(After(s, steps).lanes[v], known + AckedDuring(s, steps, v), start)
    decreases |steps|
  {
    if steps == [] {
      ClaimsMore(s.lanes[v], known, {}, start);
    } else {
      var more := AckedBy(s, steps[0], v);
      LaneClaims(s, steps[0], v, known, start);
      RunClaims(Do(s, steps[0]), steps[1..], v, known + more, start);
      var rest := AckedDuring(Do(s, steps[0]), steps[1..], v);
      assert (known + more) + rest == known + (more + rest);
    }
  }

  // ---------------------------------------------------------------- over all lifetimes

  /** The version was complete, claims only what is known to be acknowledged, and nothing of what lies
      above the first start is left out of it. */
  ghost predicate Sound(version: Version, known: set<nat>, start: nat) {
    Complete(version) && ClaimsVersion(version, known, start)
  }

  lemma {:induction false} ResumedIsCredited(past: Past, version: Version, seqno: nat)
    requires Resumes(past, version, seqno) && Complete(version) && seqno <= version.checkpoint.seqno
    ensures Credited(past, seqno)
  {
    forall n | n in past.events && past.start < n <= seqno ensures n in past.acked {
      assert n in version.events && version.start < n;
    }
  }

  ghost function PastOf(life: Life, v: nat): Past
    requires v in life.effective
  {
    if v in life.past then life.past[v] else NoPast(life.effective[v])
  }

  lemma {:induction false} BeginsCredited(bucketUuid: string, life: Life, v: nat, ledger: Option<Version>,
                                          known: set<nat>, start: nat)
    requires Begins(bucketUuid, life, v, ledger)
    requires ledger.Some? ==> Sound(ledger.value, known, start)
    requires ledger.None? ==> life.effective[v].seqno == start
    ensures Credited(PastOf(life, v), life.effective[v].seqno)
    ensures PastOf(life, v).acked <= known && PastOf(life, v).start <= start
  {
    if ledger.Some? {
      ReopensBehind(v, bucketUuid, ledger.value.checkpoint, life.effective[v]);
      ResumedIsCredited(life.past[v], ledger.value, life.effective[v].seqno);
    }
  }

  /** One lifetime: from a sound ledger it leaves a sound ledger. */
  lemma {:induction false} LifeKeepsLedger(bucketUuid: string, life: Life, v: nat, ledger: Option<Version>,
                                           known: set<nat>, start: nat)
    requires Begins(bucketUuid, life, v, ledger)
    requires ledger.Some? ==> Sound(ledger.value, known, start)
    requires ledger.None? ==> life.effective[v].seqno == start
    requires RunsGapFree(Begin(bucketUuid, life), life.steps, v)
    ensures Runs(Begin(bucketUuid, life), life.steps)
    ensures v in After(Begin(bucketUuid, life), life.steps).lanes
    ensures var after := Ledger(EndLane(bucketUuid, life, v), ledger);
            after.Some? ==> Sound(after.value, known + AckedDuring(Begin(bucketUuid, life), life.steps, v), start)
  {
    BeginsCredited(bucketUuid, life, v, ledger, known, start);
    RestartSkipsNothing(bucketUuid, life.loaded, life.effective, life.past, life.steps, v);
    var s := Begin(bucketUuid, life);
    var more := AckedDuring(s, life.steps, v);
    InitialClaims(bucketUuid, life, v, known, start);
    RunClaims(s, life.steps, v, known, start);
    EndLedger(EndLane(bucketUuid, life, v), ledger, known, more, start);
  }

  lemma {:induction false} InitialClaims(bucketUuid: string, life: Life, v: nat, known: set<nat>, start: nat)
    requires v in life.effective && PastOf(life, v).acked <= known && PastOf(life, v).start <= start
    ensures v in Begin(bucketUuid, life).lanes && Claims(Begin(bucketUuid, life).lanes[v], known, start)
  {
    var l := Begin(bucketUuid, life).lanes[v];
    assert ClaimsVersion(l.versions[0], known, start);
  }

  lemma {:induction false} EndLedger(l: Lane, ledger: Option<Version>, known: set<nat>, more: set<nat>, start: nat)
    requires SkipsNothing(l) && Claims(l, known + more, start)
    requires ledger.Some? ==> Sound(ledger.value, known, start)
    ensures Ledger(l, ledger).Some? ==> Sound(Ledger(l, ledger).value, known + more, start)
  {
    if 0 <= l.storedGeneration < |l.versions| {
      assert ClaimsVersion(l.versions[l.storedGeneration], known + more, start);
    }
  }

  /** Where the first lifetime that stored anything started; `start` if the ledger is not empty before. */
  ghost function FirstStart(bucketUuid: string, lives: seq<Life>, v: nat, ledger: Option<Version>, start: nat): nat
    requires Follow(bucketUuid, lives, v, ledger)
    decreases |lives|
  {
    if lives == [] then start
    else
      FirstStart(bucketUuid, lives[1..], v, Ledger(EndLane(bucketUuid, lives[0], v), ledger),
                 if ledger.None? then lives[0].effective[v].seqno else start)
  }

  lemma {:induction false} LedgerStaysSound(bucketUuid: string, lives: seq<Life>, v: nat, ledger: Option<Version>,
                                            known: set<nat>, start: nat)
    requires Follow(bucketUuid, lives, v, ledger)
    requires ledger.Some? ==> Sound(ledger.value, known, start)
    ensures var last := LastLedger(bucketUuid, lives, v, ledger);
            last.Some? ==> Sound(last.value, known + AckedEver(bucketUuid, lives, v, ledger),
                                 FirstStart(bucketUuid, lives, v, ledger, start))
    decreases |lives|
  {
    if lives == [] {
      assert known + {} == known;
    } else {
      var first := if ledger.None? then lives[0].effective[v].seqno else start;
      var more := AckedDuring(Begin(bucketUuid, lives[0]), lives[0].steps, v);
      var next := Ledger(EndLane(bucketUuid, lives[0], v), ledger);
      LifeKeepsLedger(bucketUuid, lives[0], v, ledger, known, first);
      LedgerStaysSound(bucketUuid, lives[1..], v, next, known + more, first);
      var rest := AckedEver(bucketUuid, lives[1..], v, next);
      assert (known + more) + rest == known + (more + rest);
    }
  }

  /**
   * No event is lost over any sequence of lifetimes on one store, with crashes at any point, unwritten
   * and half-written flushes, and rollbacks to other histories within and between them: every event of
   * the history the stored checkpoint was taken under, above where the first lifetime that stored
   * anything started and at or below that checkpoint, was acknowledged in one of the lifetimes.
   */
  lemma {:induction false} LifetimesSkipNothing(bucketUuid: string, lives: seq<Life>, v: nat, n: nat)
    requires Follow(bucketUuid, lives, v, None) && LastLedger(bucketUuid, lives, v, None).Some?
    requires var version := LastLedger(bucketUuid, lives, v, None).value;
             n in version.events && FirstStart(bucketUuid, lives, v, None, 0) < n <= version.checkpoint.seqno
    ensures n in AckedEver(bucketUuid, lives, v, None)
  {
    LedgerStaysSound(bucketUuid, lives, v, None, {}, 0);
    var version := LastLedger(bucketUuid, lives, v, None).value;
    assert {} + AckedEver(bucketUuid, lives, v, None) == AckedEver(bucketUuid, lives, v, None);
    assert version.start < n;
  }

  ghost predicate Unwritten(l: Lane, loaded: Option<Checkpoint>) {
    l.storedGeneration < 0 ==> l.stored == loaded
  }

  lemma {:induction false} StepLeavesUnwritten(s: System, step: Step, v: nat, loaded: Option<Checkpoint>)
    requires Enabled(s, step) && v in s.lanes && Unwritten(s.lanes[v], loaded)
    ensures v in Do(s, step).lanes && Unwritten(Do(s, step).lanes[v], loaded)
  {
    if step.Install? {
      InstalledIs(s, step.effective, v);
    }
  }

  lemma {:induction false} RunLeavesUnwritten(s: System, steps: seq<Step>, v: nat, loaded: Option<Checkpoint>)
    requires Runs(s, steps) && v in s.lanes && Unwritten(s.lanes[v], loaded)
    ensures v in After(s, steps).lanes && Unwritten(After(s, steps).lanes[v], loaded)
    decreases |steps|
  {
    if steps != [] {
      StepLeavesUnwritten(s, steps[0], v, loaded);
      RunLeavesUnwritten(Do(s, steps[0]), steps[1..], v, loaded);
    }
  }

  /** The ledger is about the store: what a lifetime leaves there is the checkpoint of its version,
      written by it or found at its start. */
  lemma {:induction false} LedgerIsStored(bucketUuid: string, life: Life, v: nat, ledger: Option<Version>)
    requires Begins(bucketUuid, life, v, ledger) && (ledger.Some? ==> Complete(ledger.value))
    requires RunsGapFree(Begin(bucketUuid, life), life.steps, v)
    ensures Runs(Begin(bucketUuid, life), life.steps)
    ensures v in After(Begin(bucketUuid, life), life.steps).lanes
    ensures var l := EndLane(bucketUuid, life, v);
            Ledger(l, ledger).Some? ==> l.stored == Some(Ledger(l, ledger).value.checkpoint)
  {
    BeginsCredited(bucketUuid, life, v, ledger,
                   if ledger.Some? then ledger.value.acked else {},
                   if ledger.Some? then ledger.value.start else life.effective[v].seqno);
    RestartSkipsNothing(bucketUuid, life.loaded, life.effective, life.past, life.steps, v);
    RunLeavesUnwritten(Begin(bucketUuid, life), life.steps, v, if v in life.loaded then Some(life.loaded[v]) else None);
  }
}
