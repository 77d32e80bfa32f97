/** The checks `stream_request` and `StreamFilter::encode` make before a request goes out. */
module StreamRequests {
  import opened Base

  datatype StreamFilter = StreamFilter(
    scopeId: Option<nat>,
    collectionIds: seq<nat>,
    manifestUid: Option<nat>,
    streamId: Option<nat>)

  predicate Distinct(ids: seq<nat>) {
    forall i, j :: 0 <= i < j < |ids| ==> ids[i] != ids[j]
  }

  predicate FilterEncodes(f: StreamFilter) {
    && !(f.scopeId.Some? && f.collectionIds != [])
    && Distinct(f.collectionIds)
    && f.streamId != Some(0)
  }

  datatype WireRequest = WireRequest(
    vbucketUuid: nat,
    start: nat,
    end: nat,
    snapshotStart: nat,
    snapshotEnd: nat,
    filter: Option<StreamFilter>)

  predicate WireEncodes(w: WireRequest) {
    && w.start <= w.end
    && w.snapshotStart <= w.snapshotEnd
    && !(w.start > w.snapshotEnd && w.snapshotEnd != 0)
    && (w.filter.Some? ==> FilterEncodes(w.filter.value))
  }
}
