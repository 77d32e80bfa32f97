# rust-dcp: a verified model of ordered, at-least-once delivery

rust-dcp is a Couchbase DCP consumer. It promises ordered, at-least-once, checkpoint-safe delivery of
a bucket's change feed, across ACKs in any order, failed checkpoint flushes, producer rollbacks,
reconnections and a changing group of processes that share the bucket's vBuckets. This project models
the state machines that promise rests on and proves what they keep. `dafny verify dfyconfig.toml`
checks all of it.

How it is laid out:

- `Base`, `Checkpoints`, `Partitions`, `Coordinator`: one vBucket's delivery queue against a reference
  log of registrations and ACKs, and the coordinator object that holds the partitions.
- `StreamRequests`, `Rollback`: the request checks, start resolution and the bounded rewind loop.
- `Delivery`, `DeliveryLanes`, `DeliveryInvariant`, `DeliveryTheorems`, `DeliveryFence`,
  `DeliveryLifetimes`: the coordinator, the flush tasks, the checkpoint store, the delivery queue with
  its generation fence and the reopening driver as one labelled transition system, and one client after
  the other on one store. Each lock-protected section is a step; scheduling and timeouts are the choice
  of the next label. The store takes all, some or none of a save's entries.
- `Streams`, `FlowControl`: the worker's acceptance rule simulated by the coordinator, and byte credit.
- `Assignment`, `Ordering`, `Registry`, `RegistryLaws`, `CasProtocol`, `PodWatcher`: balanced slices,
  the shared registry document, many processes doing load, act, compare-and-swap, and the Kubernetes
  watcher.
- `Bytes`, `Uleb128`, `Framing`, `FrameHeaders`, `FrameCodec`, `CodecStream`: the Memcached binary
  frame codec (collection ids as unsigned LEB128, section 7.6 of the DWARF 5 standard) and incremental
  decoding.
- `Manifests`, `Collections`: manifest resolution and the collection-name registry fed by all vBuckets.
- `Ascending`, `Topology`, `Mitigation`, `MitigationSafety`: topology updates and grouping, the
  observation plan and the persistence watermark.
- `Transport`: pipelined request correlation.

State the source mutates is a class whose methods are proved equal to specification functions on
values; the theorems are about those functions and about runs of them.

Points where the code decides and the model follows it:

- An ACK advances `processed` before its generation-overflow check, so at the 64-bit limit the link
  between generations and checkpoints breaks (`DeliveryLanes.OverflowBreaksGenerations` gives the exact
  condition, `DeliveryLanes.OverflowHappens` an instance); below it, it always holds.
- The LEB128 decoder accepts padded encodings of up to five bytes.
- Framing extras force a flexible magic; a missing collection id is sent as 0 where keys carry one, and
  an explicit 0 comes back as none where they do not.
- Two system events with one manifest UID: only the first takes effect.
- Between the creation of the coordinator and the marking of changed opening starts such a partition is
  clean without being stored.
- The name registry is shared by all vBuckets: once one of them delivers a collection's drop, another
  one's earlier documents of that collection are refused.
- A topology config without a bucket UUID lets the next one bring any UUID, so three configs
  change it.
- Topology revision 0 is accepted within an equal epoch, so two configs can replace each other.
- A pod's new active view is committed before the snapshot may report that the pod itself is fenced.

## Model

| member | source | states |
|---|---|---|
| `Partitions.TrackRefines` | crates/rust-dcp-core/src/checkpoint_runtime.rs:413-479 | An accepted marker or event keeps the partition the fast form of its reference log: one registration is appended for a sequenced event, with a new delivery id and a higher sequence number; nothing else in the log moves. |
| `Partitions.AckRefines` | crates/rust-dcp-core/src/checkpoint_runtime.rs:112-158 | An ACK in any order, of a queued, repeated or unknown token, takes the partition to the fast form of the log with that registration marked: popping the queue computes the longest acknowledged prefix. |
| `Partitions.HeadIsUnacknowledged` | crates/rust-dcp-core/src/checkpoint_runtime.rs:128-158 | At rest the head of the pending queue is never acknowledged, and `processed` never passes the last registered sequence number. |
| `Partitions.ProcessedCoversPrefix` | crates/rust-dcp-core/src/checkpoint_runtime.rs:128-158 | Everything at or below `processed` in the log is acknowledged; everything unacknowledged lies strictly above it. |
| `Partitions.AckIsMonotone` | crates/rust-dcp-core/src/checkpoint_runtime.rs:112-158 | No ACK moves `processed` back, and short of overflow the generation rises by one exactly when `processed` moves. |
| `Partitions.StaleTokenIsObsolete` | crates/rust-dcp-core/src/checkpoint_runtime.rs:596-607 | A token issued before the last rebase matches no queue entry: its ACK is obsolete and changes nothing. |
| `Partitions.RebaseRefines` | crates/rust-dcp-core/src/checkpoint_runtime.rs:583-609 | A rebase starts an empty log at the new checkpoint whose delivery ids are all above every id issued before. |
| `Partitions.ProcessedIsLongestPrefix` | crates/rust-dcp-core/src/checkpoint_runtime.rs:112-479 | Over every run of tracking, ACKs, dirty marks and rebases, `processed` is the checkpoint of the longest fully acknowledged prefix registered since the last rebase. |
| `Coordinator.CheckpointCoordinator.Track` | crates/rust-dcp-core/src/checkpoint_runtime.rs:413-479 | The registration loop body under the partition lock: all error cases in source order, the new partition and delivery id, every other partition untouched, and no change on error. |
| `Coordinator.CheckpointCoordinator.Acknowledge` | crates/rust-dcp-core/src/checkpoint_runtime.rs:112-158 | Marks, then pops the queue in a loop; the whole new state equals the specification function, also when the generation counter overflows after `processed` has moved. |
| `Coordinator.CheckpointCoordinator.MarkDirty` | crates/rust-dcp-core/src/checkpoint_runtime.rs:501-514 | Raises the generation of one partition; an unknown vBucket and an overflow each have their own error and change nothing. |
| `Coordinator.CheckpointCoordinator.RebasePartitions` | crates/rust-dcp-core/src/checkpoint_runtime.rs:583-609 | Validates every start before touching any partition, then rebases exactly the named ones; on an error nothing has changed, and it is the error of the lowest vBucket whose start is refused. |
| `Coordinator.CheckpointCoordinator.CaptureDirty` | crates/rust-dcp-core/src/checkpoint_runtime.rs:655-667 | The captured batch holds exactly the dirty partitions with their `processed` checkpoint and generation. |
| `Coordinator.CheckpointCoordinator.CommitSaved` | crates/rust-dcp-core/src/checkpoint_runtime.rs:708-716 | A commit sets `durable` and its generation to what was captured for exactly the captured partitions, also when a later flush has committed already. |
| `Rollback.OpenPartition` | crates/rust-dcp-core/src/stream.rs:533-622 | The open loop, with its sixteen-rewind bound as the measure, computes the specified result for every sequence of producer replies, failover logs and handler decisions, error by error. |
| `Rollback.FindBranch` | crates/rust-dcp-core/src/stream.rs:189-210 | Finds the first failover entry that covers the rewind point. |
| `Rollback.OpenLoopChain` | crates/rust-dcp-core/src/stream.rs:533-622 | For every producer: at most sixteen rewinds, each starting where the one before ended and strictly lower, each naming the covering branch of that round's log; the end never changes, the effective start is the end of the chain, and no retry fails its own bound or filter checks. |
| `Rollback.CoveringIsNewest` | crates/rust-dcp-core/src/stream.rs:189-210 | On a newest-first log the branch named by a rewind is the newest one that covers it, and none is found only if none covers it. |
| `Rollback.RewindStaysSendable` | crates/rust-dcp-core/src/stream.rs:189-210 | A rewind keeps the end, vBucket and bucket, goes strictly back, and yields a request that still passes the wire checks. |
| `Rollback.SendableEncodes` | crates/rust-dcp-protocol/src/command.rs:706-741 | A request with a valid checkpoint at or below its end passes every bound check of the stream-request encoder. |
| `Rollback.ResolvedIsSendable` | crates/rust-dcp-core/src/stream.rs:56-153 | Whatever start position, mode and high sequence number, a resolved request is sendable, has the asked-for identity, and starts exactly where asked, at or below the high sequence number. |
| `Rollback.ResolveStartIsSendable` | crates/rust-dcp-core/src/client.rs:297-407 | The same through the preflight rewind of a checkpoint ahead of the producer and the frozen end: the start is the lower of the checkpoint and the high sequence number. |
| `Rollback.ReopenNeverSkips` | crates/rust-dcp-core/src/client.rs:297-460 | Resolving and opening one vBucket from a checkpoint never starts after that checkpoint, never exceeds the end, keeps the bucket identity, and never fails on encoding. |
| `DeliveryInvariant.StepKeeps` | crates/rust-dcp-core/src/client.rs:1651-2018 | Every step of the delivery machine (opening marks, activation, changes of the producer's history, delivery, poll, ACK, dirty mark, capture, store write, save end, late commit, abandoned flush, reopen, install, halt) keeps the invariant. |
| `DeliveryInvariant.ReachableInv` | crates/rust-dcp-core/src/client.rs:1285-2018 | The invariant holds in every state any run can reach. |
| `DeliveryLanes.CleanIsStored` | crates/rust-dcp-core/src/checkpoint_runtime.rs:806-810 | Under the lane invariant equal generations mean `durable` is `processed`, and a clean partition has its exact `processed` in the store if and only if its opening start has been marked. |
| `DeliveryLanes.OverflowBreaksGenerations` | crates/rust-dcp-core/src/checkpoint_runtime.rs:141-158 | Exactly when an ACK keeps the link between generations and checkpoints: always, except with the counter at its 64-bit limit, equal generations and an ACK for the head of the queue, where `processed` moves before the overflow is reported. |
| `DeliveryLanes.OverflowHappens` | crates/rust-dcp-core/src/checkpoint_runtime.rs:112-158 | An instance: a partition that meets the lane invariant, at the limit, whose head ACK ends in the overflow error with equal generations and a `processed` that is not `durable`. |
| `DeliveryLanes.OpenedCleanIffStored` | crates/rust-dcp-core/src/client.rs:912-933 | A created partition is clean, also when its start is not in the store; marking then makes it dirty exactly in that case. |
| `DeliveryTheorems.CleanMeansPersisted` | crates/rust-dcp-core/src/checkpoint_runtime.rs:632-716 | Over every interleaving of late commits, timed-out detached saves, partial writes, ACKs and rebases, a partition that is not dirty has its exact `processed` checkpoint in the store, if and only if its opening start has been marked; from activation on, every one has. |
| `DeliveryTheorems.StoreNeverAhead` | crates/rust-dcp-core/src/checkpoint_runtime.rs:655-692 | What a flush writes is the version of the generation it captured: `processed` of that moment, when no event of the epoch at or below it was unacknowledged. |
| `DeliveryTheorems.AtLeastOnceAcrossReopen` | crates/rust-dcp-core/src/client.rs:1860-2018 | At each rebase, every event registered since the previous one and never acknowledged lies above the new effective start, also when ACKs landed after the start was asked for. |
| `DeliveryTheorems.EffectiveBelowProcessed` | crates/rust-dcp-core/src/client.rs:1973-2018 | The effective start of an installed generation is at or below the `processed` of that moment. |
| `DeliveryTheorems.RestartSkipsNothing` | crates/rust-dcp-core/src/checkpoint_runtime.rs:632-716 | Over whole runs with any number of reopens, rollbacks to other histories, failed flushes and late commits, a producer without gaps, and whatever earlier clients had acknowledged: everything the producer holds above the resume point and up to `processed` is acknowledged, and the checkpoint stored last is a version for which every event of the history it was taken under, above the resume point and at or below it, was acknowledged under that history. |
| `DeliveryTheorems.RebaseCovers` | crates/rust-dcp-core/src/client.rs:1973-2018 | Cutting the acknowledgements at the point a stream resumes from leaves no event below it open, whatever history follows above. |
| `DeliveryTheorems.RewindReopensNumbers` | crates/rust-dcp-core/src/client.rs:1973-2018 | After a rewind below an acknowledged event, the event delivered again under that number gets a new delivery id, is unacknowledged, holds `processed` below it, and its number no longer counts as acknowledged. |
| `DeliveryLifetimes.LifetimesSkipNothing` | crates/rust-dcp-core/src/client.rs:1285-1329 | Over any sequence of clients on one store, each started from what the one before left there, with crashes anywhere and rollbacks within and between them: every event of the history the stored checkpoint was taken under, from the first start up to that checkpoint, was acknowledged in one of the lifetimes. |
| `DeliveryLifetimes.LifeKeepsLedger` | crates/rust-dcp-core/src/checkpoint_runtime.rs:632-716 | One lifetime takes a sound ledger (the stored version is complete under its history and claims only real acknowledgements) to a sound ledger. |
| `DeliveryLifetimes.LedgerIsStored` | crates/rust-dcp-core/src/checkpoint_runtime.rs:655-692 | What a lifetime leaves in the store is the checkpoint of the ledger's version, written by it or found at its start. |
| `DeliveryFence.YieldedDeliveryIsAckable` | crates/rust-dcp-core/src/client.rs:633-657 | A delivery that passes the connection-generation fence has a token the coordinator still accepts. |
| `DeliveryFence.InstallFencesTokens` | crates/rust-dcp-core/src/client.rs:1973-2018 | Installing a generation makes every token held from before obsolete. |
| `DeliveryFence.FencedTokenStaysObsolete` | crates/rust-dcp-core/src/checkpoint_runtime.rs:583-609 | A fenced token stays obsolete in every continuation of the run. |
| `DeliveryFence.StepsAreCoordinatorCalls` | crates/rust-dcp-core/src/checkpoint_runtime.rs:583-716 | The commit and install steps of the machine do to the partitions exactly what the coordinator's methods are proved to do. |
| `Streams.PartitionProgress.Observe` | crates/rust-dcp-core/src/stream.rs:661-703 | The worker's acceptance rule computes its specification and leaves the progress unchanged on every error. |
| `Streams.LayersAgree` | crates/rust-dcp-core/src/stream.rs:661-703 | With ACKs landing anywhere in between, every message sequence the worker accepts is accepted by the coordinator from the matching state, and both then agree on the last sequence number and the snapshot. |
| `Streams.RegistrationsStayInWindow` | crates/rust-dcp-core/src/checkpoint_runtime.rs:413-479 | From a rebased partition, what is registered strictly increases, lies above the start and at or below the frozen end. |
| `Streams.CoordinatorIsLooser` | crates/rust-dcp-core/src/checkpoint_runtime.rs:413-445 | Exactly where the simulation does not reverse: a marker that ends between `processed` and the last delivery or beyond the frozen end, and an event of the snapshot beyond that end. |
| `Streams.LooserInFlight` | crates/rust-dcp-core/src/checkpoint_runtime.rs:413-445 | An instance: arrivals that take a fresh worker and a rebased partition to such a state, with one unacknowledged delivery, where the worker refuses the next message and the coordinator takes it. |
| `FlowControl.FlowCredit.Flush` | crates/rust-dcp-core/src/stream.rs:751-764 | The flush loop sends the specified 32-bit pieces, stops at the first failed send, and keeps what it could not send. |
| `FlowControl.FlowCredit.Record` | crates/rust-dcp-core/src/stream.rs:732-749 | A recorded frame adds its bytes, or overflows without a change, and flushes at the threshold. |
| `FlowControl.AckThreshold` | crates/rust-dcp-core/src/stream.rs:711-730 | The bisection returns the least integer from 1 to the buffer size that is not below the real target. |
| `FlowControl.FlushConserves` | crates/rust-dcp-core/src/stream.rs:751-764 | The pieces are nonzero 32-bit amounts that add up to what left the backlog; a backlog remains only if the connection stopped. |
| `FlowControl.CreditIsConserved` | crates/rust-dcp-core/src/stream.rs:710-764 | Over every run, also with connections that fail inside a flush, acknowledged bytes plus pending bytes equal recorded bytes and every acknowledgement is between 1 and the 32-bit maximum. |
| `FlowControl.BacklogStaysBelowThreshold` | crates/rust-dcp-core/src/stream.rs:732-749 | After each successful record the backlog is below the threshold. |
| `Assignment.BalancedPartition` | crates/rust-dcp-core/src/assignment.rs:46-84 | For every member count up to the vBucket count up to 65536, slices are nonempty, disjoint, cover the range once, and differ by at most one with the larger first. |
| `Assignment.SlicesAreAdjacent` | crates/rust-dcp-core/src/assignment.rs:46-84 | Slices are contiguous and each ends where the next one starts. |
| `Assignment.SlicesSpanTheRange` | crates/rust-dcp-core/src/assignment.rs:46-84 | The first slice starts at 0 and the last one ends at the vBucket count. |
| `Assignment.SlicesAreDisjoint` | crates/rust-dcp-core/src/assignment.rs:46-84 | Two different members' slices share no vBucket. |
| `Assignment.SomeSliceOwns` | crates/rust-dcp-core/src/assignment.rs:46-84 | Every vBucket in the range has an owner. |
| `Ordering.Sort` | crates/rust-dcp-membership-couchbase/src/model.rs:333-377 | The insertion sort by joining time and name yields the one ascending listing of the members' keys. |
| `Ordering.SortingIsUnique` | crates/rust-dcp-membership-couchbase/src/model.rs:333-377 | Two ascending listings of one key set are the same sequence, so the order does not depend on how it was computed. |
| `Registry.RegistryDocument.Register` | crates/rust-dcp-membership-couchbase/src/model.rs:228-263 | Registers, refreshes or takes over a member, or fails with the document unchanged. |
| `Registry.RegistryDocument.Heartbeat` | crates/rust-dcp-membership-couchbase/src/model.rs:266-285 | Refreshes the caller's heartbeat without moving it back, or reports a fence with the document unchanged. |
| `Registry.RegistryDocument.PruneStale` | crates/rust-dcp-membership-couchbase/src/model.rs:288-308 | Removes exactly the stale members and raises the generation once if there are any. |
| `Registry.RegistryDocument.Remove` | crates/rust-dcp-membership-couchbase/src/model.rs:311-330 | Removes the caller's own incarnation only. |
| `Registry.RegistryDocument.TakeSnapshot` | crates/rust-dcp-membership-couchbase/src/model.rs:333-384 | Lists the members in assignment order and gives the caller its slice. |
| `RegistryLaws.OperationKeepsValid` | crates/rust-dcp-membership-couchbase/src/model.rs:159-330 | Every operation preserves document validity and the settings. |
| `RegistryLaws.GenerationTracksRoster` | crates/rust-dcp-membership-couchbase/src/model.rs:228-330 | An operation keeps the generation or raises it by one, and keeps it if and only if every member id keeps its incarnation, which is if and only if the ordered roster stays the same. |
| `RegistryLaws.HeartbeatsNeverFall` | crates/rust-dcp-membership-couchbase/src/model.rs:228-330 | No operation moves a heartbeat back. |
| `RegistryLaws.SeatedGetsSnapshot` | crates/rust-dcp-membership-couchbase/src/model.rs:333-384 | A seated caller always gets a snapshot, with the members in order and its own slice. |
| `RegistryLaws.ActionsDoNotFenceTheCaller` | crates/rust-dcp-membership-couchbase/src/runtime.rs:440-459 | Register never ends fenced; Heartbeat and Monitor are fenced exactly when the loaded document no longer seats the caller, never by their own closing snapshot. |
| `RegistryLaws.MonitorKeepsItsSeat` | crates/rust-dcp-membership-couchbase/src/runtime.rs:440-459 | Pruning right after a heartbeat at the same time never prunes the caller. |
| `RegistryLaws.ActionKeeps` | crates/rust-dcp-membership-couchbase/src/runtime.rs:440-459 | A whole action leaves a valid document, the same settings, a generation that never falls, and the same roster under the same generation. |
| `CasProtocol.MutateRegistry` | crates/rust-dcp-membership-couchbase/src/runtime.rs:414-478 | The retry loop with others acting between every load and the end of its attempt: it passes through the given worlds of the whole system, writes one revision on a changing success and none otherwise or on an error, and a returned snapshot is published there and is of its own write or, unchanged, of the revision its last attempt loaded. |
| `CasProtocol.Attempted` | crates/rust-dcp-membership-couchbase/src/runtime.rs:421-470 | One pass of the loop takes exactly the load, the others' steps and the end of an attempt in the system, adding its own write at most; it is repeated only when another process wrote. |
| `CasProtocol.DecideOnce` | crates/rust-dcp-membership-couchbase/src/runtime.rs:421-463 | Between load and write an attempt decides as specified; a snapshot is of the loaded document when nothing changed and of the new one otherwise. |
| `CasProtocol.RoundsAreRun` | crates/rust-dcp-membership-couchbase/src/runtime.rs:414-478 | The rounds of one process's loop are a run of the whole system. |
| `CasProtocol.Act` | crates/rust-dcp-membership-couchbase/src/runtime.rs:440-459 | One lifecycle action step by step computes its specification; a returned snapshot is the snapshot of the document it leaves. |
| `CasProtocol.StepKeeps` | crates/rust-dcp-membership-couchbase/src/runtime.rs:414-478 | Every load, write attempt and lost process keeps the invariant over stored revisions, loaded documents and published snapshots. |
| `CasProtocol.SameGenerationExclusivity` | crates/rust-dcp-membership-couchbase/src/runtime.rs:414-478 | Over every interleaving of loads and compare-and-swap writes by any number of processes with arbitrary clocks, snapshots published with one generation list the same members in the same order, and different members' vBuckets are disjoint. |
| `CasProtocol.ReturnedIsExclusive` | crates/rust-dcp-membership-couchbase/src/runtime.rs:414-478 | The snapshot the loop returns, started in any reachable state, against anything published until then or in any continuation under its generation: the same members in the same order, disjoint vBuckets for another member and the same assignment for the same one. |
| `CasProtocol.SnapshotCoversRange` | crates/rust-dcp-membership-couchbase/src/model.rs:333-384 | The members a published snapshot lists share out the whole range: each vBucket belongs to exactly one of them. |
| `PodWatcher.PodMembershipState.Handle` | crates/rust-dcp-membership-kubernetes/src/model.rs:223-289 | Each watch event takes the watcher to the specified state and outcome. |
| `PodWatcher.PodMembershipState.Commit` | crates/rust-dcp-membership-kubernetes/src/model.rs:291-306 | A new active view counts before its snapshot may report a fence. |
| `PodWatcher.PodMembershipState.TakeSnapshot` | crates/rust-dcp-membership-kubernetes/src/model.rs:308-363 | The snapshot lists the active pods in order with the caller's slice, or says why there is none. |
| `PodWatcher.HasUniqueUids` | crates/rust-dcp-membership-kubernetes/src/model.rs:374-385 | True exactly when no two pods share a UID. |
| `PodWatcher.HandleKeeps` | crates/rust-dcp-membership-kubernetes/src/model.rs:223-306 | Over every event the active map holds only effective pods with unique UIDs. |
| `PodWatcher.GenerationTracksActive` | crates/rust-dcp-membership-kubernetes/src/model.rs:291-306 | The generation rises by one exactly when the active map changes; an emitted snapshot carries the new generation. |
| `PodWatcher.RelistIsInvisible` | crates/rust-dcp-membership-kubernetes/src/model.rs:223-262 | For every list, until InitDone, listing pods changes nothing but the list being collected: not the active map, the generation or what was published. |
| `PodWatcher.RelistRefusesRepeats` | crates/rust-dcp-membership-kubernetes/src/model.rs:229-247 | An entry is refused exactly when an effective pod of its name was listed before. |
| `PodWatcher.RelistIsAtomic` | crates/rust-dcp-membership-kubernetes/src/model.rs:223-306 | A whole relist makes the active map exactly the first effective pod of each name listed, or leaves it when two of them share a UID or the generation cannot rise. |
| `PodWatcher.EmittedGenerationsIncrease` | crates/rust-dcp-membership-kubernetes/src/model.rs:223-363 | Over every event sequence the emitted generations strictly increase. |
| `PodWatcher.EqualViewsDisjointSlices` | crates/rust-dcp-membership-kubernetes/src/model.rs:308-363 | Two pods with equal active maps get the same list and disjoint slices. |
| `Uleb128.EncodeUleb` | crates/rust-dcp-protocol/src/uleb128.rs:6-17 | The shift loop appends the specified bytes. |
| `Uleb128.DecodeUleb` | crates/rust-dcp-protocol/src/uleb128.rs:26-57 | The decoding loop computes its specification, error by error. |
| `Uleb128.UlebRoundTrip` | crates/rust-dcp-protocol/src/uleb128.rs:6-57 | Every 32-bit value decodes to itself with its exact length, whatever follows, in at most five bytes. |
| `Uleb128.DecodeAccepts` | crates/rust-dcp-protocol/src/uleb128.rs:26-57 | The decoder accepts exactly the complete runs of one to five bytes whose value fits 32 bits, padded ones included, and returns that value and length. |
| `Framing.EncodeFramingExtras` | crates/rust-dcp-protocol/src/codec.rs:268-300 | The loop appends every entry with its nibbles and extension bytes, or fails on the first entry that is too large. |
| `Framing.DecodeFramingExtras` | crates/rust-dcp-protocol/src/codec.rs:302-334 | The consuming loop computes its specification, with each truncation error. |
| `Framing.FramingRoundTrip` | crates/rust-dcp-protocol/src/codec.rs:268-334 | Whatever framing extras encode decode to the same list. |
| `FrameHeaders.HeaderRoundTrip` | crates/rust-dcp-protocol/src/codec.rs:55-140 | Every classic or flexible header that fits reads back as itself, whatever follows. |
| `FrameCodec.Encode` | crates/rust-dcp-protocol/src/codec.rs:147-252 | Appends the encoded frame, or fails with the first error in source order and leaves the destination as it was. |
| `FrameCodec.Decode` | crates/rust-dcp-protocol/src/codec.rs:55-141 | Takes one whole packet off the buffer or nothing; a bad magic or an oversized length leaves the buffer, a malformed body does not. |
| `FrameCodec.FrameRoundTrip` | crates/rust-dcp-protocol/src/codec.rs:55-334 | One encoded frame decodes to its normal form (flexible magic with framing extras, collection id present exactly where keys carry one, exact wire size) and leaves every later byte in the buffer. |
| `FrameCodec.PrefixIsHeldBack` | crates/rust-dcp-protocol/src/codec.rs:55-80 | Any strict prefix of an encoded frame yields nothing and is kept. |
| `CodecStream.StreamRoundTrip` | crates/rust-dcp-protocol/src/codec.rs:55-334 | Any encodable frames, concatenated, cut into any chunks and possibly cut short inside one more frame, decode to exactly those frames in normal form, with only the cut frame's bytes left over and no error. |
| `CodecStream.ChunkingIsIrrelevant` | crates/rust-dcp-protocol/src/codec.rs:55-141 | For any bytes, malformed ones included, how they are cut into chunks changes neither the frames decoded nor the failure that ends the stream. |
| `CodecStream.VerdictsStand` | crates/rust-dcp-protocol/src/codec.rs:55-141 | Bytes that arrive later change no frame and no error already decided, and stay in the buffer. |
| `Manifests.ValidateIdentity` | crates/rust-dcp-core/src/collections.rs:501-535 | Accepts exactly the manifests in which scope UIDs and names are unique, collection UIDs are unique across all scopes and collection names within each. |
| `Manifests.Resolve` | crates/rust-dcp-core/src/collections.rs:445-499 | Resolves the first scope of the name and its collections by name; each error is returned exactly under its own condition. |
| `Manifests.ResolvedFilterEncodes` | crates/rust-dcp-protocol/src/command.rs:190-241 | A filter resolved from an identified manifest passes the encoder's filter checks exactly when its stream id is not zero, and its id-to-name map is injective. |
| `Collections.RegistryState.ApplySystemEvent` | crates/rust-dcp-core/src/collections.rs:280-342 | A system event is taken, ignored or refused as specified, and a refused one changes nothing. |
| `Collections.RegistryConfluence` | crates/rust-dcp-core/src/collections.rs:280-342 | However the vBuckets' deliveries of one event sequence with never-falling manifest UIDs interleave, with replays after a rollback and with refused events, the registry is the one that applying the longest delivered prefix once leaves. |
| `Collections.EveryEventTakesEffect` | crates/rust-dcp-core/src/collections.rs:280-342 | With strictly increasing UIDs above the manifest's, the UID gate lets every event take effect once, so the names are those of the ungated sequence. |
| `Collections.GateIsOpenIffUidsRise` | crates/rust-dcp-core/src/collections.rs:280-342 | When no event is refused and UIDs never fall, the gate passes over none if and only if the UIDs strictly rise and all lie above the manifest's. |
| `Collections.SharedUidLosesTheSecond` | crates/rust-dcp-core/src/collections.rs:280-290 | Of any two events under one UID, an accepted first leaves the second without effect. |
| `Collections.SecondCreationIsLost` | crates/rust-dcp-core/src/collections.rs:280-325 | An instance: two collections created under one manifest UID, of which only the first is named. |
| `Collections.NamesStayInjective` | crates/rust-dcp-core/src/collections.rs:280-342 | No run of events maps two ids to one name or names a collection outside an explicit selection. |
| `Collections.RegistryState.Decorate` | crates/rust-dcp-core/src/collections.rs:235-270 | A document gets the name of its collection id, the default name on a stream without collections, or is refused as outside the selection. |
| `Collections.DocumentIsNamedIff` | crates/rust-dcp-core/src/collections.rs:235-270 | After any interleaving of the vBuckets' deliveries a document is named if and only if its id is named by the longest delivered prefix applied once, and then with that name. |
| `Collections.DropIsShared` | crates/rust-dcp-core/src/collections.rs:280-342 | Once a drop has taken effect, by whichever vBucket, the id has no name until an event recreates it: documents that another vBucket had before its own drop are refused. |
| `Mitigation.BuildPlan` | crates/rust-dcp-core/src/rollback_mitigation.rs:45-92 | A plan exists exactly when every vBucket has a branch, a route and an endpoint for each copy; it then targets every distinct copy once and nothing else, in ascending lists none of which is empty. |
| `Mitigation.AggregateOne` | crates/rust-dcp-core/src/rollback_mitigation.rs:246-307 | One vBucket's observations conclude in the branch of the last copy that reports another one, in the minimum over all copies if every expected copy answered soundly, and in a transient otherwise. |
| `Mitigation.AggregateObservations` | crates/rust-dcp-core/src/rollback_mitigation.rs:234-309 | Every planned vBucket, and no other, gets the conclusion of its own observations. |
| `MitigationSafety.MitigationSnapshot.Apply` | crates/rust-dcp-core/src/rollback_mitigation.rs:347-393 | Each partition moves by its own outcome, in whatever order they are visited. |
| `MitigationSafety.WaitUntilSafe` | crates/rust-dcp-core/src/rollback_mitigation.rs:427-475 | Succeeds exactly when the sequence number is zero or some snapshot seen in time releases it; a nonzero one was delayed exactly when the first snapshot did not release it. |
| `MitigationSafety.EveryCopyIsHeard` | crates/rust-dcp-core/src/rollback_mitigation.rs:94-120 | Once a cycle is over, a vBucket's results are one observation from each distinct copy. |
| `MitigationSafety.ArrivalOrderIsIrrelevant` | crates/rust-dcp-core/src/rollback_mitigation.rs:234-309 | The order in which the nodes' batches arrive changes neither the class of an outcome nor the persisted minimum. |
| `MitigationSafety.ReleaseSafety` | crates/rust-dcp-core/src/rollback_mitigation.rs:347-475 | Over every run, a nonzero sequence number is released only on the word of the latest conclusive cycle, in which every planned distinct copy was on the expected branch and had persisted at least that much; every later cycle was inconclusive. |
| `MitigationSafety.ReleaseIsReached` | crates/rust-dcp-core/src/rollback_mitigation.rs:347-475 | The converse: such a cycle without a regression releases it, and inconclusive cycles keep it released. |
| `Transport.KvConnection.RequestBatch` | crates/rust-dcp-core/src/transport.rs:196-258 | On completion the response at each place is the first to carry that request's token, the tokens sent are distinct and nonzero with explicit ones kept, and every other frame read was set aside once in arrival order. |
| `Transport.Collect` | crates/rust-dcp-core/src/transport.rs:227-240 | The correlation loop: each response goes to its request's place, everything else to the queue, and it stops with the frame that answers the last request. |
| `Transport.KvConnection.AssignTokens` | crates/rust-dcp-core/src/transport.rs:196-220 | Fails exactly on a repeated explicit token, before allocating any. |
| `Transport.KvConnection.AllocateUnused` | crates/rust-dcp-core/src/transport.rs:213-219 | The skipping loop terminates for every batch smaller than the cyclic token space and returns the first unused token from the next one on. |
| `Transport.KvConnection.AllocateToken` | crates/rust-dcp-core/src/transport.rs:260-264 | Tokens run cyclically through the 32-bit space and are never zero. |
| `Transport.KvConnection.Request` | crates/rust-dcp-core/src/transport.rs:168-187 | The first response with the request's token is returned and all frames before it are set aside in order. |
| `Transport.KvConnection.ReceiveFrame` | crates/rust-dcp-core/src/transport.rs:155-160 | Frames set aside come back first, in order; nothing is lost or repeated. |
| `Transport.FramesAreConserved` | crates/rust-dcp-core/src/transport.rs:227-240 | Every frame read either answers one request of the batch or is set aside. |
| `Topology.TopologyState.Apply` | crates/rust-dcp-core/src/topology.rs:368-429 | Accepts exactly newer configs of the same bucket and returns the change between the two topologies, with each error under its own condition. |
| `Topology.ChangeBetween` | crates/rust-dcp-core/src/topology.rs:374-428 | The change reports exactly the added, removed and re-addressed nodes and the vBuckets whose active node differs. |
| `Topology.GenerationCountsUpdates` | crates/rust-dcp-core/src/topology.rs:368-429 | Over every run the generation is one plus the accepted updates, the bucket's name stays, and the epoch never falls. |
| `Topology.RunIsOrdered` | crates/rust-dcp-core/src/topology.rs:98-102 | Between any two points of a run the epoch never falls, a generation names one topology, and within an epoch versioned configs never go back. |
| `Topology.UnreportedRoutesAreKept` | crates/rust-dcp-core/src/topology.rs:403-420 | A vBucket that no change returned in between lists as rerouted has kept its active node all along. |
| `Topology.BucketUuidIsKept` | crates/rust-dcp-core/src/topology.rs:522-538 | While every accepted config carries a bucket UUID it is always the same one. |
| `Topology.AnyUuidPassesIff` | crates/rust-dcp-core/src/topology.rs:529-537 | A config passes whatever UUID it carries if and only if it has the bucket's name and the current topology has no UUID: one config without it is where the identity is lost. |
| `Topology.UuidChangesThroughNone` | crates/rust-dcp-core/src/topology.rs:522-538 | From any topology with a UUID two accepted configs, the first without one, lead to any other UUID, which a direct update refuses. |
| `Topology.UnversionedReplaceEachOther` | crates/rust-dcp-core/src/topology.rs:98-102 | Freshness is no order: two configs are newer than each other exactly when they share an epoch and one of them is unversioned. |
| `Topology.BuildVBucketRoutes` | crates/rust-dcp-core/src/topology.rs:863-913 | Routes are built exactly from the maps that fit: one per vBucket and no other, the active node and the present replicas in order. |
| `Topology.ReplicasAreEndpoints` | crates/rust-dcp-core/src/topology.rs:863-938 | Every replica of a built route is one of the endpoints. |
| `Topology.ActiveVBucketsByNode` | crates/rust-dcp-core/src/topology.rs:258-274 | Fails exactly on an unrouted vBucket; otherwise groups the request by active node, each group ascending without repeats. |
| `Topology.GroupsPartition` | crates/rust-dcp-core/src/topology.rs:258-274 | The groups are a partition: a vBucket is requested exactly when some group holds it, in one group only, once. |

## Left out

- Counter overflow inside delivery runs: a run ends before a 64-bit generation, delivery-id or connection counter overflows; the operations themselves model the overflow errors.
- Streams.LayersAgree: assumes the delivery ids left suffice for the messages, because at the 64-bit limit the coordinator refuses what the worker accepts.
- DeliveryTheorems.RestartSkipsNothing: assumes a producer that leaves out no event it holds between two deliveries and puts none at or below the last one delivered on a stream, as the protocol does; its history may otherwise change at any time, and above the resume point at every reopen. The delivery theorems that are not built on it need no such assumption.
- DeliveryLifetimes.LifetimesSkipNothing: assumes such a producer in every lifetime, and that between lifetimes it adds no event at or below the point the next one resumes from; clients on one store follow one another and do not overlap.
- CasProtocol.SameGenerationExclusivity: assumes the registry document is never deleted from outside, because a new document restarts its generations.
- FlowControl.AckThreshold: the ratio times the buffer size is a real number, without f64 rounding.
- Transport.KvConnection.RequestBatch: the batch has at most 2^32 - 1 requests, beyond which the token-skipping loop of the source has no free token to find; running out of arriving frames stands for both a closed peer and a timeout.
- MitigationSafety.WaitUntilSafe: the snapshots seen before the deadline are a sequence given to it, in place of a watch channel and a clock.
- PodWatcher.PodMembershipState.Handle: label and readiness parsing is a flag on the pod.
- Validation of the initial checkpoint set (one bucket identity for all vBuckets) and of subscription settings.
- Stream-end handling, topology polling and the reconnect back-off of the driver: only the reopening they lead to is modelled.
- Event payloads, the conversion of wire messages to events, and the fixed-layout command and response parsers.
- Sockets, TLS, bootstrap, HELLO negotiation and SASL; Snappy and CRC32; JSON and base64.
- The file, XATTR and SDK stores: a checkpoint store is a map, the membership store one compare-and-swap cell.
- Metrics, health reports, configuration builders, address and ordinal parsing: only easy members.
- Error texts: an error is the constructor that names its cause.
- Frame sizes near the platform's usize limit: lengths are unbounded integers checked against the same 8-, 16- and 32-bit limits.
