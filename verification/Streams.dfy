/**
  The connection worker's per-vBucket acceptance rule, and its fit with the coordinator:
  whatever the worker lets through, the coordinator registers.
  */
module Streams {
  import opened Base
  import opened Checkpoints
  import opened Partitions

  datatype Progress = Progress(lastSeqno: nat, endSeqno: nat, snapshot: Option<Window>)

  datatype ObserveError = OutsideDelivered | BeforeMarker | OutsideSnapshot | NonMonotonic

  function Observed(p: Progress, m: Event): Result<Progress, ObserveError> {
    match m
    case Boundary => Ok(p)
    case Marker(w) =>
      if w.end < p.lastSeqno || w.end > p.endSeqno then Err(OutsideDelivered)
      else Ok(p.(snapshot := Some(w)))
    case Sequenced(seqno, _) =>
      if p.snapshot.None? then Err(BeforeMarker)
      else if seqno < p.snapshot.value.start || seqno > p.snapshot.value.end || seqno > p.endSeqno then
        Err(OutsideSnapshot)
      else if seqno <= p.lastSeqno then Err(NonMonotonic)
      else Ok(p.(lastSeqno := seqno))
  }

  class PartitionProgress {
    var lastSeqno: nat
    const endSeqno: nat
    var snapshot: Option<Window>

    ghost function View(): Progress
      reads this
    {
      Progress(lastSeqno, endSeqno, snapshot)
    }

    constructor (lastSeqno: nat, endSeqno: nat)
      ensures View() == Progress(lastSeqno, endSeqno, None)
    {
      this.lastSeqno := lastSeqno;
      this.endSeqno := endSeqno;
      snapshot := None;
    }

    method Observe(m: Event) returns (r: Result<(), ObserveError>)
      modifies this
      ensures match Observed(old(View()), m)
              case Ok(next) => r == Ok(()) && View() == next
              case Err(error) => r == Err(error) && View() == old(View())
    {
      match m
      case Boundary => r := Ok(());
      case Marker(w) =>
        if w.end < lastSeqno || w.end > endSeqno {
          return Err(OutsideDelivered);
        }
        snapshot := Some(w);
        r := Ok(());
      case Sequenced(seqno, _) =>
        if snapshot.None? {
          return Err(BeforeMarker);
        }
        var w := snapshot.value;
        if seqno < w.start || seqno > w.end || seqno > endSeqno {
          return Err(OutsideSnapshot);
        }
        if seqno <= lastSeqno {
          return Err(NonMonotonic);
        }
        lastSeqno := seqno;
        r := Ok(());
    }
  }

  // ---------------------------------------------------------------- the two layers together

  /** A message from the wire, or an application ACK that lands between two messages. */
  datatype Arrival = Message(event: Event) | AckArrives(deliveryId: nat)

  /** The frame parser lets no reversed snapshot through. */
  predicate Parsed(a: Arrival) {
    a.Message? && a.event.Marker? ==> a.event.window.start <= a.event.window.end
  }

  /** The worker's view after the arrivals, or `None` if it refused a message. */
  function ObserveAll(w: Progress, arrivals: seq<Arrival>): Option<Progress>
    decreases |arrivals|
  {
    if arrivals == [] then Some(w)
    else if arrivals[0].AckArrives? then ObserveAll(w, arrivals[1..])
    else
      match Observed(w, arrivals[0].event)
      case Ok(next) => ObserveAll(next, arrivals[1..])
      case Err(_) => None
  }

  /** The coordinator's partition after the arrivals, or `None` if it refused a message. */
  function TrackAll(p: Partition, arrivals: seq<Arrival>): Option<Partition>
    decreases |arrivals|
  {
    if arrivals == [] then Some(p)
    else if arrivals[0].AckArrives? then TrackAll(Acknowledge(p, arrivals[0].deliveryId).0, arrivals[1..])
    else
      match TrackEvent(p, arrivals[0].event)
      case Ok(t) => TrackAll(t.partition, arrivals[1..])
      case Err(_) => None
  }

  /** The reference epoch the arrivals build. */
  ghost function EpochAll(p: Partition, e: Epoch, arrivals: seq<Arrival>): Epoch
    requires TrackAll(p, arrivals).Some?
    decreases |arrivals|
  {
    if arrivals == [] then e
    else if arrivals[0].AckArrives? then
      EpochAll(Acknowledge(p, arrivals[0].deliveryId).0, LogAck(e, arrivals[0].deliveryId), arrivals[1..])
    else
      EpochAll(TrackEvent(p, arrivals[0].event).value.partition, EpochAfterTrack(p, e, arrivals[0].event),
               arrivals[1..])
  }

  ghost predicate Simulates(w: Progress, p: Partition, e: Epoch) {
    && Refines(p, e) && AckedAreIssued(e, p.nextDeliveryId)
    && w.lastSeqno == p.lastRegistered
    && w.snapshot == p.snapshot
    && w.lastSeqno <= w.endSeqno
  }

  lemma {:induction false} MessageSimulates(w: Progress, p: Partition, e: Epoch, m: Event)
    requires Simulates(w, p, e) && Parsed(Message(m)) && Observed(w, m).Ok?
    requires p.nextDeliveryId < U64_MAX
    ensures TrackEvent(p, m).Ok?
    ensures Simulates(Observed(w, m).value, TrackEvent(p, m).value.partition, EpochAfterTrack(p, e, m))
  {
    HeadIsUnacknowledged(p, e);
    assert TrackEvent(p, m).Ok?;
    TrackRefines(p, e, m);
  }

  lemma {:induction false} RegisteredWithinBounds(w: Progress, p: Partition, e: Epoch)
    requires Simulates(w, p, e)
    ensures forall i :: 0 <= i < |e.log| ==> e.base.seqno < e.log[i].checkpoint.seqno <= w.endSeqno
    ensures forall i, j :: 0 <= i < j < |e.log| ==> e.log[i].checkpoint.seqno < e.log[j].checkpoint.seqno
  {
    var last := |e.log| - 1;
    forall i | 0 <= i < |e.log|
      ensures e.log[i].checkpoint.seqno <= w.lastSeqno
    {
      assert i < last ==> e.log[i].checkpoint.seqno < e.log[last].checkpoint.seqno;
    }
  }

  /** Layer simulation: with ACKs landing anywhere in between, every message sequence the
      worker accepts is accepted by the coordinator from the matching state, and both then
      agree on the last sequence number and the snapshot. */
  lemma {:induction false} LayersAgree(w: Progress, p: Partition, e: Epoch, arrivals: seq<Arrival>)
    requires Simulates(w, p, e)
    requires forall i :: 0 <= i < |arrivals| ==> Parsed(arrivals[i])
    requires p.nextDeliveryId + |arrivals| <= U64_MAX
    requires ObserveAll(w, arrivals).Some?
    ensures TrackAll(p, arrivals).Some?
    ensures Simulates(ObserveAll(w, arrivals).value, TrackAll(p, arrivals).value, EpochAll(p, e, arrivals))
    ensures ObserveAll(w, arrivals).value.endSeqno == w.endSeqno
    ensures EpochAll(p, e, arrivals).base == e.base
    decreases |arrivals|
  {
    if arrivals != [] {
      match arrivals[0]
      case AckArrives(id) =>
        AckSimulates(w, p, e, id);
        LayersAgree(w, Acknowledge(p, id).0, LogAck(e, id), arrivals[1..]);
      case Message(m) =>
        MessageSimulates(w, p, e, m);
        LayersAgree(Observed(w, m).value, TrackEvent(p, m).value.partition, EpochAfterTrack(p, e, m), arrivals[1..]);
    }
  }

  lemma {:induction false} AckSimulates(w: Progress, p: Partition, e: Epoch, id: nat)
    requires Simulates(w, p, e)
    ensures Simulates(w, Acknowledge(p, id).0, LogAck(e, id))
    ensures Acknowledge(p, id).0.nextDeliveryId == p.nextDeliveryId
  {
    AckRefines(p, e, id);
    assert Acknowledge(p, id).0.lastRegistered == p.lastRegistered;
  }

  /** From a freshly opened stream and the rebased partition: what the worker lets through is
      registered in strictly increasing order, above the start and at or below the frozen end. */
  lemma {:induction false} RegistrationsStayInWindow(p: Partition, e: Epoch, start: Checkpoint, end: nat,
                                                     arrivals: seq<Arrival>)
    requires Refines(p, e) && start.seqno <= end
    requires forall i :: 0 <= i < |arrivals| ==> Parsed(arrivals[i])
    requires p.nextDeliveryId + |arrivals| <= U64_MAX
    requires ObserveAll(Progress(start.seqno, end, None), arrivals).Some?
    ensures TrackAll(Rebase(p, start), arrivals).Some?
    ensures ObserveAll(Progress(start.seqno, end, None), arrivals).value.lastSeqno ==
            TrackAll(Rebase(p, start), arrivals).value.lastRegistered
    ensures var log := EpochAll(Rebase(p, start), Epoch(start, p.nextDeliveryId, [], {}), arrivals).log;
            && (forall i :: 0 <= i < |log| ==> start.seqno < log[i].checkpoint.seqno <= end)
            && (forall i, j :: 0 <= i < j < |log| ==> log[i].checkpoint.seqno < log[j].checkpoint.seqno)
  {
    var w := Progress(start.seqno, end, None);
    var e0 := Epoch(start, p.nextDeliveryId, [], {});
    RebaseRefines(p, e, start);
    LayersAgree(w, Rebase(p, start), e0, arrivals);
    RegisteredWithinBounds(ObserveAll(w, arrivals).value, TrackAll(Rebase(p, start), arrivals).value,
                           EpochAll(Rebase(p, start), e0, arrivals));
  }

  /** What the coordinator accepts in the matching state and the worker does not. */
  predicate OnlyTracked(w: Progress, p: Partition, m: Event) {
    match m
    case Marker(window) => p.processed.seqno <= window.end && (window.end < w.lastSeqno || w.endSeqno < window.end)
    case Sequenced(seqno, _) =>
      w.snapshot.Some? && w.snapshot.value.start <= seqno <= w.snapshot.value.end
      && w.lastSeqno < seqno && w.endSeqno < seqno
    case Boundary => false
  }

  /** The simulation does not reverse, and this is exactly where: a marker that ends between
      `processed` and the last delivery or beyond the frozen end, and an event of the snapshot
      beyond that end. */
  lemma {:induction false} CoordinatorIsLooser(w: Progress, p: Partition, e: Epoch, m: Event)
    requires Simulates(w, p, e) && Parsed(Message(m)) && p.nextDeliveryId < U64_MAX
    ensures TrackEvent(p, m).Ok? && Observed(w, m).Err? <==> OnlyTracked(w, p, m)
  {
    HeadIsUnacknowledged(p, e);
  }

  /** Such states are reached: on a stream opened at the very start, one delivery in flight is enough
      for the coordinator to take an older marker that the worker refuses. */
  lemma {:induction false} LooserInFlight()
    returns (arrivals: seq<Arrival>, w: Progress, p: Partition, e: Epoch, m: Event)
    ensures var start, end := Earliest(0), 20;
            && ObserveAll(Progress(start.seqno, end, None), arrivals) == Some(w)
            && TrackAll(Rebase(NewPartition(start), start), arrivals) == Some(p)
    ensures Simulates(w, p, e) && |p.pending| == 1 && !p.pending[0].acknowledged
    ensures Parsed(Message(m)) && TrackEvent(p, m).Ok? && Observed(w, m).Err?
  {
    var start := Earliest(0);
    var opening, e0 := Rebase(NewPartition(start), start), Epoch(start, 1, [], {});
    var w0, w1 := Progress(0, 20, None), Progress(0, 20, Some(Window(1, 9)));
    NewPartitionRefines(start);
    RebaseRefines(NewPartition(start), e0, start);
    arrivals := [Message(Marker(Window(1, 9))), Message(Sequenced(9, None))];
    assert arrivals[1..] == [Message(Sequenced(9, None))] && arrivals[1..][1..] == [];
    assert Observed(w0, Marker(Window(1, 9))) == Ok(w1) && Observed(w1, Sequenced(9, None)).Ok?;
    assert ObserveAll(w1, arrivals[1..]).Some?;
    assert ObserveAll(w0, arrivals).Some?;
    LayersAgree(w0, opening, e0, arrivals);
    w, p, e := ObserveAll(w0, arrivals).value, TrackAll(opening, arrivals).value, EpochAll(opening, e0, arrivals);
    m := Marker(Window(3, 5));
    var marked := TrackEvent(opening, Marker(Window(1, 9))).value.partition;
    assert TrackAll(marked, arrivals[1..]).Some?;
    assert p.processed == start;
  }
}
