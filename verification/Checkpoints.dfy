/** Durable resume positions, shared by the checkpoint coordinator and the stream opener. */
module Checkpoints {
  import opened Base

  datatype Checkpoint = Checkpoint(
    bucketUuid: Option<string>,
    vbucket: nat,
    vbucketUuid: nat,
    seqno: nat,
    snapshotStart: nat,
    snapshotEnd: nat,
    manifestUid: Option<nat>)
  {
    /** The ordering and snapshot checks of `DcpCheckpoint::validate`. */
    predicate Valid() {
      && snapshotStart <= snapshotEnd
      && seqno <= snapshotEnd
      && (seqno == 0 || snapshotStart <= seqno)
    }
  }

  function Earliest(vbucket: nat): Checkpoint {
    Checkpoint(None, vbucket, 0, 0, 0, 0, None)
  }

  /** A checkpoint filed under `vbucket` for the bucket `bucketUuid`. */
  predicate HasIdentity(c: Checkpoint, vbucket: nat, bucketUuid: string) {
    c.vbucket == vbucket && c.bucketUuid == Some(bucketUuid) && c.Valid()
  }
}
