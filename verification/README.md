# Lin-KV in Dafny

Lin-KV is a replicated key-value store: a hand-written Raft, a multi-version store with leases, transactions,
compaction and watches, an apply loop that executes each client request once, and a persister that survives
crashes. The project models these four parts and proves what they promise.

**Raft** (`RaftTypes`, `RaftStep`, `RaftNode`, `RaftSystem`, `RaftElection`, `RaftShape`, `RaftLog`, `RaftCommit`,
`RaftAccept`, `RaftSafety`, `RaftCatchUp`, `RaftLimits`, `RaftDrive`, `RaftScenario`). Each handler that runs under the
lock is one atomic step. `RaftStep` gives the steps as functions on values; the class `RaftNode.Raft` is the code with
its fields and loops, proved equal to them. `RaftSystem` runs any number of peers, at least two, over a network that
loses, delays, reorders and duplicates messages, InstallSnapshot included, with crashes and restarts from disk at any
time. Election Safety and the shape of the logs hold of all its runs.

Because a follower cuts its log on every non-empty AppendEntries, the commit-level theorems need one assumption: a peer
handles the AppendEntries of one leader and term in the order they were built. `RaftLimits` states exactly when a cut is
harmless, and `RaftScenario` has a run without the assumption in which two state machines differ. Snapshots may come in
any order. InstallSnapshot can leave a log that fits no leader's; Log Matching holds of all runs in which every snapshot
installed fits, and the commit-level theorems hold whether they fit or not, because a peer with such a log never wins an
election.

**The store** (`Keys`, `MvccSpec`, `MvccHistory`, `MvccRange`, `MvccLease`, `MvccTxn`, `MvccRun`, `MvccSnapshot`,
`MvccStore`, `MvccLimits`). One list of all writes, where write number r has revision r, explains histories, events,
index and every read that compaction left answerable. `MvccSpec` has the operations as functions; the class
`MvccStore.KVStore` is the code with its loops. `Watch`, `WatchChannel` and `WatchHub` model the hand-over of events
to watchers as a step system, the channel that two goroutines share, and the lists behind it as a class;
`WatchScenario` has its failures as runs.

**The apply loop** (`ApplySpec`, `ApplyOnce`, `ApplyServer`, `ReplicaState`, `Replicas`, `ReplicaLimits`).
Exactly-once execution over any log, recovery from a snapshot at any split, and the cluster and its servers put
together. The clock and the order in which maps are visited are inputs, each server's own.

**The persister** (`Codec`, `PersisterSpec`, `PersisterDisk`). File formats byte by byte, and saves, openings and
migration with a crash between any two file replacements.

## Where the code does less than its names suggest

Each of these is a lemma with a concrete input, next to the exact condition under which the code is right.

- A late AppendEntries of the same leader and term makes a follower drop a committed entry
  (`RaftLimits.LateMessageCutsCommitted`) and in the end two state machines differ
  (`RaftScenario.LateMessageSplitsStateMachines`); the cut is harmless iff the message ends no earlier than what was
  acknowledged (`RaftLimits.CutKeepsAcknowledgedIffFresh`).
- InstallSnapshot keeps the old suffix without comparing the term at the boundary, and Log Matching is lost:
  `RaftScenario.InstallBreaksLogMatching`, `RaftLimits.InstallKeepsLogMatchingIff`.
- A snapshot taken after compaction dropped a version is not restored: `MvccLimits.CompactedSnapshotIsRejected`,
  `MvccSnapshot.AcceptsIff`. Nor is one taken before the first write, so after a restart a granted lease can be gone
  while its request counts as executed: `ApplyOnce.GrantedLeaseIsLost`, `ApplyOnce.RestartRecoversIff`.
- Lease expiry is decided by each server's own clock while it applies the log: `ReplicaLimits.ClocksPart`,
  `Replicas.AgreesIff`.
- A replicated LeaseRevoke visits the lease's keys in the order of a Go map, so the tombstones' revisions, and then the
  branches of transactions that compare them, differ between servers: `ReplicaLimits.OrdersPart`,
  `ReplicaState.OrderMattersIff`.
- Range at revision 0 right after compacting the current revision finds nothing: `MvccLimits.RangeMissesLiveKey`,
  `MvccRange.RangeAtZero`. So do prefix reads of an empty prefix or one of 0xff bytes:
  `MvccLimits.PrefixesMissLiveKey`, `MvccRange.PrefixRangeIff`.
- AttachKey can bind a key that is not live: `MvccLimits.AttachBindsDeadKey`, `MvccRun.LeasedKeysLiveIff`.
- A watcher's backlog and its live events share a channel without an order between them:
  `WatchScenario.BacklogComesLate`, `WatchChannel.InOrderIff`.
- A backlog event that finds the channel full is dropped and never arrives: `WatchScenario.LongBacklogDrops`,
  `WatchChannel.DroppedNeverArrives`, `WatchChannel.ArrivesIff`.
- Cancelling a watcher that is still being served, as the end of a client's stream does
  (internal/server/kvserver/rpc_adapter.go:81), stops the process: `WatchScenario.CancelStops`, `WatchChannel.HazardIff`.
- Events that come with a restored snapshot are not queued, so a watcher that was registered before misses them:
  `WatchScenario.RestoreMisses`, `Watch.MissedIff`.

All files are given to the verifier together: `dafny verify dfyconfig.toml`.

## Model

| member | source | states |
|---|---|---|
| `RaftSafety.ElectionSafety` | internal/raft/vote.go:18-147 | over every run with loss, delay, reordering, duplication, snapshots and crashes, at most one peer ever leads in a term |
| `RaftSafety.LogMatching` | internal/raft/append.go:46-88 | in every state of every run whose installed snapshots fit, two logs with the same term at an index agree on all earlier entries both retain, although each non-empty AppendEntries cuts the log |
| `RaftSafety.LeaderLogMatching` | internal/raft/snapshot.go:99-121 | with any snapshots and fresh messages, Log Matching holds between a leader and every peer of its term or an earlier one |
| `RaftSafety.LeadersHaveCommitted` | internal/raft/leader.go:259-286 | Leader Completeness over runs: what any peer ever considered committed is, with its whole prefix, in the log of every leader of that term or a later one from then on |
| `RaftSafety.CommittedLogsAgree` | internal/raft/append.go:90-98 | two peers that consider an index committed, each at its own time, hold the same log through it |
| `RaftSafety.StateMachineSafety` | internal/raft/applier.go:36-63 | no two incarnations of any peers ever hand different commands to their state machines for one index |
| `RaftSafety.CommittedIsOnMajority` | internal/raft/leader.go:121-123 | what any peer considers committed is stored with its prefix on a majority, although `matchIndex` is set to the snapshot index without an acknowledgement on election, on compaction and on any InstallSnapshot reply |
| `RaftAccept.SnapshotReplyBelief` | internal/raft/leader.go:98-127 | an InstallSnapshot reply, whatever it says, keeps `matchIndex` truthful above the snapshot |
| `RaftSafety.CommittedStaysStored` | internal/raft/leader.go:259-286 | a committed position stays stored, with everything before it, on the majority that acknowledged it |
| `RaftSafety.AnnouncedCommitIsVerified` | internal/raft/leader.go:131-156 | every AppendEntries has LeaderCommit ≤ PrevLogIndex + len(Entries), so no follower moves its commit index past what the message verified |
| `RaftSafety.LogShapeInEveryState` | internal/raft/persister.go:94-115 | in every state each log starts at its boundary, is numbered without gaps and equals its disk copy; with ordered delivery lastIncludeIndex ≤ lastApplied ≤ commitIndex ≤ last index |
| `RaftSafety.OrderedRunsAreFresh` | internal/raft/leader.go:131-166 | handling one leader's AppendEntries of a term in the order built implies the condition the commit-level theorems use |
| `RaftSafety.InOrderIsFresh` | internal/raft/append.go:83-88 | a message handled in order never ends before what its receiver acknowledged to that leader |
| `RaftElection.QuorumsMeet` | internal/raft/vote.go:127-131 | two majorities share a peer |
| `RaftElection.VacantTerm` | internal/raft/vote.go:127-147 | a candidate that collects a majority finds its term without a leader |
| `RaftElection.ElectionsKept` | internal/raft/vote.go:10-152 | every step of the cluster keeps the election invariant: one vote per peer and term, every leader backed by a majority of votes of its term |
| `RaftLog.SameTermSamePrefix` | internal/raft/append.go:53-80 | two logs backed by the recorded leaders' logs agree through any index where their terms agree |
| `RaftLog.AcceptAgrees` | internal/raft/append.go:83-88 | an accepted message leaves the log equal to the sender's through the message's end, whatever the old suffix was |
| `RaftLog.SentMessageOk` | internal/raft/leader.go:137-156 | every message a leader builds is a contiguous part of its log up to its end |
| `RaftLog.HoldsInstall` | internal/raft/snapshot.go:99-121 | the effect of InstallSnapshot on the log as if nothing had been dropped: the sender's prefix, then the old suffix |
| `RaftLog.LogsKept` | internal/raft/append.go:9-101 | every step of the cluster that elects no peer with a log unlike every leader's keeps every message, and every log above its snapshot boundary, backed by the logs of the leaders of their terms |
| `RaftLog.WholeKept` | internal/raft/snapshot.go:99-121 | with fitting snapshots each log stays backed as a whole |
| `RaftShape.ShapesKept` | internal/raft/persister.go:94-115 | every step on any network keeps every log numbered from its boundary and equal to its disk copy |
| `RaftCommit.LeaderCompleteness` | internal/raft/vote.go:39-55 | a committed position is in the log of the leader of every later term |
| `RaftCommit.CommittedAgree` | internal/raft/leader.go:259-286 | any two committed positions agree on everything up to the smaller one |
| `RaftCommit.UpToDateCovers` | internal/raft/vote.go:39-48 | a log that passes the up-to-date check contains everything the voter's own term protects |
| `RaftCommit.VoteIsSafe` | internal/raft/vote.go:39-55 | a voter that acknowledged a live position grants its vote only to candidates that have it, or the position is dead |
| `RaftCommit.WinnerInherits` | internal/raft/vote.go:127-147 | a winner's log contains every earlier position that is not dead |
| `RaftCommit.WinnerIsWhole` | internal/raft/vote.go:127-147 | a candidate with a majority of votes has a log that is backed as a whole, whatever snapshots it installed |
| `RaftCommit.CommitHasQuorum` | internal/raft/leader.go:259-286 | whatever the commit search accepts was acknowledged in the current term by the leader and every peer it counts, a majority |
| `RaftAccept.AcceptKeepsCommitted` | internal/raft/append.go:83-98 | cutting the log for a fresh message never removes a committed entry |
| `RaftAccept.CommittedMeetsLeader` | internal/raft/snapshot.go:99-121 | what a peer believes committed, through messages or a snapshot, is what every leader of its term or a later one has |
| `RaftAccept.InstallCommits` | internal/raft/snapshot.go:68-136 | installing a snapshot, fitting or not, removes no committed entry, keeps every acknowledgement true and adds only what is committed |
| `RaftAccept.CommitsKept` | internal/raft/leader.go:19-286 | every step with fresh messages keeps the commit invariant, and no step elects a peer whose log a snapshot left unlike every leader's |
| `RaftLimits.CutKeepsAcknowledgedIffFresh` | internal/raft/append.go:85-88 | the unconditional cut keeps everything acknowledged to the leader if and only if the message ends no earlier than the acknowledgement |
| `RaftLimits.OneLeaderBuildsThem` | internal/raft/leader.go:131-156 | the three messages of the counterexample are built by one leader in one term |
| `RaftLimits.LateMessageCutsCommitted` | internal/raft/append.go:83-98 | handled out of order, they make a follower lose an entry it knew to be committed |
| `RaftLimits.InstallKeepsLogMatchingIff` | internal/raft/snapshot.go:99-121 | after InstallSnapshot Log Matching holds against every log there can be, if and only if nothing is retained behind the boundary or the replaced boundary entry had the term of the snapshot |
| `RaftCatchUp.ReachablePair` | internal/raft/leader.go:131-249 | a leader and a peer of a term no later, in any state of a fresh run, satisfy what the catch-up theorem assumes |
| `RaftCatchUp.RefusalMakesProgress` | internal/raft/append.go:53-80 | each refusal moves `nextIndex` strictly towards acceptance or the follower's boundary |
| `RaftCatchUp.AcceptedRound` | internal/raft/append.go:83-98 | an accepted round leaves the follower agreeing with the leader through the leader's last index |
| `RaftCatchUp.Confirmed` | internal/raft/leader.go:194-205 | the reply to an accepted round sets `matchIndex` to the end of what was shipped, `nextIndex` behind it, and changes nothing else |
| `RaftCatchUp.CatchUp` | internal/raft/leader.go:131-249 | the exchange of rounds ends, with the follower agreeing through the leader's end or the leader at its snapshot boundary |
| `RaftScenario.AnyCommandCanBeApplied` | internal/raft/leader.go:19-286 | for every command there is a run with ordered AppendEntries that elects a leader, replicates, commits and applies it |
| `RaftScenario.LateMessageSplitsStateMachines` | internal/raft/append.go:83-98 | a run of three peers in which one AppendEntries arrives late and two state machines are given different commands for one index |
| `RaftScenario.InstallBreaksLogMatching` | internal/raft/snapshot.go:99-121 | an ordered run of five peers in which an InstallSnapshot is sent and installed, and two logs have the same entry at an index and different terms before it |
| `RaftDrive.ReachedIsClosed` | internal/raft/leader.go:19-286 | the end of a run stays the end of a run after any step, of an ordered one after any ordered step |
| `RaftStep.AppendKeepsShape` | internal/raft/append.go:9-101 | any AppendEntries, accepted or refused, keeps the node sound and equal to its disk copy, and numbered entries keep the log numbered |
| `RaftStep.SnapshotKeepsShape` | internal/raft/snapshot.go:7-55 | a local snapshot keeps the log's shape and the disk copy |
| `RaftStep.InstallKeepsShape` | internal/raft/snapshot.go:68-136 | InstallSnapshot keeps the log's shape and the disk copy for every argument |
| `RaftStep.ElectionKeepsShape` | internal/raft/vote.go:67-100 | starting an election keeps the log's shape and the disk copy |
| `RaftStep.Highest` | internal/raft/leader.go:259-286 | the commit search yields the greatest index that may be committed, or the present one if there is none |
| `RaftNode.Raft.constructor` | internal/raft/raft.go:104-148 | a peer (re)starts as its durable record says |
| `RaftNode.Raft.ReadPersist` | internal/raft/persister.go:67-119 | after it the durable part is the record on disk, so after `Persist`, in this incarnation or a later one, it is the identity on the durable part |
| `RaftNode.Raft.Persist` | internal/raft/persister.go:23-52 | a restart from what it wrote gives back term, vote, boundary, log and snapshot |
| `RaftStep.PersistThenRestart` | internal/raft/persister.go:23-119 | `readPersist` undoes `persist`: nothing durable is lost by a crash, commit and applied index fall back to the boundary, and a second restart changes nothing |
| `RaftNode.Raft.InitLeaderProgress` | internal/raft/leader.go:9-17 | the loop over the peers sets progress to the end of the log and to the snapshot index |
| `RaftNode.Raft.RequestVote` | internal/raft/vote.go:10-55 | refines the vote step on values |
| `RaftNode.Raft.StartElection` | internal/raft/vote.go:67-106 | refines the campaign step on values |
| `RaftNode.Raft.VoteReplied` | internal/raft/vote.go:107-148 | refines the counting of one reply on values |
| `RaftNode.Raft.Start` | internal/raft/raft.go:56-96 | refines the propose step on values |
| `RaftNode.Raft.CountReplicas` | internal/raft/leader.go:271-276 | the inner loop counts exactly the peers that match |
| `RaftNode.Raft.UpdateCommitIndex` | internal/raft/leader.go:259-286 | the downward search finds the greatest committable index |
| `RaftNode.Raft.PrepareSend` | internal/raft/leader.go:61-166 | refines building a message on values |
| `RaftNode.Raft.AppendReplied` | internal/raft/leader.go:171-249 | refines handling an AppendEntries reply on values |
| `RaftNode.Raft.SnapshotReplied` | internal/raft/leader.go:98-127 | refines handling an InstallSnapshot reply on values |
| `RaftNode.Raft.BackUp` | internal/raft/append.go:69-73 | the back-up loop finds the first index of the conflicting term's run |
| `RaftNode.Raft.AppendEntries` | internal/raft/append.go:9-101 | refines the AppendEntries step on values |
| `RaftNode.Raft.DropThrough` | internal/raft/snapshot.go:19-29 | the filtering loop keeps exactly the entries after the boundary |
| `RaftNode.Raft.Snapshot` | internal/raft/snapshot.go:7-55 | refines the local snapshot step on values |
| `RaftNode.Raft.RaiseProgress` | internal/raft/snapshot.go:43-52 | the loop raises every progress entry to the boundary and lowers none |
| `RaftNode.Raft.InstallSnapshot` | internal/raft/snapshot.go:68-136 | refines the InstallSnapshot step on values |
| `RaftNode.Raft.Apply` | internal/raft/applier.go:30-63 | the collecting loop emits exactly the commands after `lastApplied` through the commit index, in order |
| `MvccRun.HistoricalReads` | internal/storage/mvcc/kv_store.go:132-184 | after any sequence of puts, deletes, transactions, lease operations, attaches and compactions, Get at 0 or after the compacted revision returns what replaying that many writes gives |
| `MvccRun.LeaseConsistency` | internal/storage/mvcc/lease.go:60-81 | after any sequence of operations, AttachKey included, a lease lists a key iff the key points to it |
| `MvccRun.LeasedKeysLiveIff` | internal/storage/mvcc/lease.go:46-58 | at every point of a sequence of operations every leased key reads as live, iff every AttachKey in it failed or hit a live key |
| `MvccRun.DoKeeps` | internal/storage/mvcc/kv_store.go:53-239 | every operation keeps the store explained by one list of writes, extended by exactly the operation's own writes, and keeps leased keys live iff it attaches no dead key |
| `MvccHistory.GetIsReplay` | internal/storage/mvcc/kv_store.go:132-196 | Get equals replay in every store explained by a list of writes, compacted or not |
| `MvccHistory.RefinesAppend` | internal/storage/mvcc/kv_store.go:97-130 | a put or delete appends one write with the next revision to histories, events and index at once |
| `MvccHistory.RefinesCompact` | internal/storage/mvcc/compact.go:9-43 | compaction succeeds iff the revision lies after the compacted one and not after the current one, and leaves exactly the later events |
| `MvccHistory.CompactKeepsVisible` | internal/storage/mvcc/compact.go:20-28 | compaction leaves the visible version of every key at every revision from the compacted one on unchanged |
| `MvccHistory.CompactHistoryIsSuffix` | internal/storage/mvcc/compact.go:45-57 | what is kept of a history is a non-empty suffix; anything dropped is covered by a version at or before the revision |
| `MvccHistory.VersionsIncreasing` | internal/storage/mvcc/kv_store.go:111-117 | histories are non-empty and strictly increasing in every explained store |
| `MvccRange.RangeIsPointwise` | internal/storage/mvcc/range.go:4-40 | Range at any revision but 0 is exactly the ascending list of keys whose pointwise Get succeeds, with its values |
| `MvccRange.RangeAtZero` | internal/storage/mvcc/range.go:8-13 | at revision 0 Range is pointwise iff something was written after the compacted revision or nothing in the interval is live |
| `MvccRange.PrefixRangeIff` | internal/storage/mvcc/range.go:42-60 | PrefixRange at any revision lists the live keys with the prefix, iff some prefix byte is below 0xff and at revision 0 something was written after the compacted one, or there are none |
| `MvccRange.VisitedKeys` | internal/storage/mvcc/memory_backend.go:64-69 | the visited slice of the index is sorted and has exactly the interval's keys |
| `Keys.PrefixIsInterval` | internal/storage/mvcc/range.go:49-60 | a key has the prefix iff it lies between the prefix and prefixEnd bytewise |
| `Keys.InsertKeeps` | internal/storage/mvcc/memory_backend.go:101-112 | insertion keeps the index strictly sorted and adds exactly the key |
| `Keys.RemoveKeeps` | internal/storage/mvcc/memory_backend.go:114-122 | deletion keeps the index strictly sorted and removes exactly the key |
| `MvccLease.PutKeeps` | internal/storage/mvcc/kv_store.go:53-74 | Put succeeds iff its lease is 0 or known and not expired, changes nothing otherwise, and moves the key's binding |
| `MvccLease.DeleteKeeps` | internal/storage/mvcc/kv_store.go:212-239 | Delete writes one tombstone and unbinds the key |
| `MvccLease.GrantKeeps` | internal/storage/mvcc/lease.go:27-43 | a granted id is new and usable at once iff its TTL is not negative |
| `MvccLease.KeepAliveKeeps` | internal/storage/mvcc/lease.go:98-118 | KeepAlive renews the lease by its TTL iff it is known and not expired, changes nothing else, and nothing at all otherwise |
| `MvccLease.AttachKeepsIff` | internal/storage/mvcc/lease.go:46-58 | AttachKey binds the key and keeps bindings and leases consistent in every consistent store; leased keys stay live iff it fails or the key is live |
| `MvccLease.RevokeEffect` | internal/storage/mvcc/lease.go:162-203 | LeaseRevoke writes one tombstone per attached key and nothing else, advances the revision by their count and leaves other histories alone |
| `MvccLease.RevokeLiveMap` | internal/storage/mvcc/lease.go:168-190 | what reads as live after a revoke does not depend on the order of the map iteration |
| `MvccTxn.TxnAtomic` | internal/storage/mvcc/txn.go:8-116 | a transaction fails iff some put of the branch taken has a bad lease, then changes nothing; otherwise it equals the single operations in order, one revision per write |
| `MvccTxn.ExecIsFold` | internal/storage/mvcc/txn.go:62-104 | executing the branch is running the public operations one after the other |
| `MvccTxn.GetsReadInOrder` | internal/storage/mvcc/txn.go:65-88 | each get returns, at its place in the results, what the operations before it left |
| `MvccTxn.LastRevIsLastWrite` | internal/storage/mvcc/txn.go:12-20 | a compare sees the revision of the key's last write, whatever was compacted, and 0 iff there was none |
| `MvccTxn.FirstBad` | internal/storage/mvcc/txn.go:51-60 | the lease check finds nothing iff no put of the branch has a bad lease |
| `MvccSnapshot.RoundTrip` | internal/storage/mvcc/kv_store.go:241-468 | an accepted snapshot rebuilds histories, index, events, revisions, leases and bindings exactly, in any store |
| `MvccSnapshot.AcceptsIff` | internal/storage/mvcc/kv_store.go:263-292 | Restore accepts a store's snapshot iff something was written and the versions in the store number the current revision |
| `MvccSnapshot.RestoredIsExplained` | internal/storage/mvcc/kv_store.go:241-348 | a store that takes over an accepted snapshot is explained by the writes of the store that made it |
| `MvccLimits.CompactedSnapshotIsRejected` | internal/storage/mvcc/kv_store.go:281-292 | two puts of one key compacted at the second: the snapshot is rejected |
| `MvccLimits.RangeMissesLiveKey` | internal/storage/mvcc/range.go:8-13 | a put compacted at its own revision: Range at 0 finds nothing, Get finds it |
| `MvccLimits.PrefixesMissLiveKey` | internal/storage/mvcc/range.go:49-60 | the key 0xff is read by Get and found under neither of its prefixes |
| `MvccLimits.AttachBindsDeadKey` | internal/storage/mvcc/lease.go:46-58 | a grant and an attach leave a leased key that was never written |
| `MvccSnapshot.UncompactedIsWhole` | internal/storage/mvcc/compact.go:9-43 | a store never compacted has every version |
| `MvccSnapshot.EmptyIsRejected` | internal/storage/mvcc/kv_store.go:251-254 | the snapshot of a store without writes is never restored |
| `MvccSnapshot.DroppedIsRejected` | internal/storage/mvcc/kv_store.go:281-292 | a store that lost a version to compaction has a snapshot that is not restored |
| `MvccStore.SearchVersion` | internal/storage/mvcc/index.go:26-50 | the binary search finds what the linear search finds |
| `MvccStore.LatestVisibleRevision` | internal/storage/mvcc/index.go:26-50 | returns the latest version not newer than the revision unless it is a tombstone |
| `MvccStore.PrefixEndOf` | internal/storage/mvcc/range.go:49-60 | the loop on the byte buffer computes the end used by the interval theorem |
| `MvccStore.KVStore.constructor` | internal/storage/mvcc/kv_store.go:11-46 | a new store is empty and explained by no writes |
| `MvccStore.KVStore.InsertKeyIntoIndex` | internal/storage/mvcc/memory_backend.go:101-112 | the index gains the key at its place |
| `MvccStore.KVStore.DeleteKeyFromIndex` | internal/storage/mvcc/memory_backend.go:114-122 | the index loses the key |
| `MvccStore.KVStore.SetRevisions` | internal/storage/mvcc/memory_backend.go:49-62 | map and index change together |
| `MvccStore.KVStore.AppendWrite` | internal/storage/mvcc/kv_store.go:97-130 | one write takes the next revision and is appended to its history and to the events |
| `MvccStore.KVStore.DeleteLocked` | internal/storage/mvcc/kv_store.go:212-239 | one tombstone, and the key is unbound |
| `MvccStore.KVStore.BindKeyToLease` | internal/storage/mvcc/lease.go:60-69 | the key leaves its old lease and joins the new one |
| `MvccStore.KVStore.DetachKey` | internal/storage/mvcc/lease.go:71-81 | the key leaves its lease, if it has one |
| `MvccStore.KVStore.LookupLease` | internal/storage/mvcc/lease.go:84-95 | finds a lease exactly when a put under it would succeed, and then with exactly the keys bound to it |
| `MvccStore.KVStore.AttachKey` | internal/storage/mvcc/lease.go:46-58 | refines attaching and keeps the invariant of the store, whether or not the key is live |
| `MvccStore.KVStore.LeaseGrant` | internal/storage/mvcc/lease.go:27-43 | refines granting and keeps the store's invariant |
| `MvccStore.KVStore.LeaseKeepAlive` | internal/storage/mvcc/lease.go:98-118 | refines renewing and keeps the store's invariant |
| `MvccStore.KVStore.LeaseRevoke` | internal/storage/mvcc/lease.go:162-203 | the delete loop adds exactly the tombstones of the lease's keys |
| `MvccStore.KVStore.Put` | internal/storage/mvcc/kv_store.go:53-95 | refines the put on values, keeps the invariant and extends the list of writes by this put iff it succeeds |
| `MvccStore.KVStore.Delete` | internal/storage/mvcc/kv_store.go:199-210 | refines the delete on values and extends the list of writes by a tombstone |
| `MvccStore.KVStore.Get` | internal/storage/mvcc/kv_store.go:132-184 | the binary search on the stored history returns the replay of the writes |
| `MvccStore.KVStore.Range` | internal/storage/mvcc/range.go:4-40 | the loop returns the pointwise list, at revision 0 if something was written after the compacted one |
| `MvccStore.KVStore.PrefixRange` | internal/storage/mvcc/range.go:42-47 | calls Range with prefixEnd |
| `MvccStore.KVStore.RewriteCompactedHistory` | internal/storage/mvcc/compact.go:45-57 | keeps the history from the version before the first later one |
| `MvccStore.KVStore.Compact` | internal/storage/mvcc/compact.go:9-43 | the two loops refine compaction and change no write |
| `MvccStore.KVStore.FilterEvents` | internal/storage/mvcc/compact.go:30-39 | keeps exactly the events after the revision |
| `MvccStore.KVStore.CompareAll` | internal/storage/mvcc/txn.go:11-42 | the early-exit loop is the conjunction of the compares |
| `MvccStore.KVStore.ValidateLeases` | internal/storage/mvcc/txn.go:51-60 | returns the first bad lease's error |
| `MvccStore.KVStore.ExecuteAll` | internal/storage/mvcc/txn.go:62-104 | the execution loop yields the state and the results of the operations in order |
| `MvccStore.KVStore.Txn` | internal/storage/mvcc/txn.go:8-116 | refines the transaction and extends the list of writes by the branch's writes iff it succeeds |
| `MvccStore.KVStore.Snapshot` | internal/storage/mvcc/kv_store.go:350-468 | the loops build the snapshot of the value, for every map visiting order |
| `MvccStore.KVStore.Check` | internal/storage/mvcc/kv_store.go:263-292 | the checks with `seen` and `maxRev` accept exactly contiguous revisions ending at the current one |
| `MvccStore.KVStore.Restore` | internal/storage/mvcc/kv_store.go:241-348 | replaces the whole state, or nothing for a rejected snapshot; the store stays in order, explained by the writes of the store that made the snapshot |
| `MvccStore.KVStore.ReplaceState` | internal/storage/mvcc/memory_backend.go:93-99 | rebuilds histories, index, events, revisions and leases from the snapshot |
| `MvccStore.KVStore.RestoreLeases` | internal/storage/mvcc/lease.go:227-251 | rebuilds the leases, skipping ids that are not positive |
| `ApplyOnce.ExactlyOnce` | internal/server/kvserver/apply.go:44-99 | after any log the store is the one obtained by running, without a table, exactly the commands whose number exceeds the client's table entry and every earlier number of that client |
| `ApplyOnce.ExecutedIffNew` | internal/server/kvserver/apply.go:48-74 | the loop executes an entry iff it is new in that sense |
| `ApplyOnce.TableIsHighest` | internal/server/kvserver/apply.go:78-80 | the table holds the highest number seen of each client |
| `ApplyOnce.NewIncreases` | internal/server/kvserver/apply.go:52-70 | no request is executed twice: a client's executed numbers strictly increase |
| `ApplyOnce.RepeatGetsSameReply` | internal/server/kvserver/apply.go:57-70 | a repeated request changes nothing and gets the first reply until its client moves on |
| `ApplyOnce.MissingPayloadIsSkipped` | internal/command/command.go:24-74 | a command whose own payload is missing, or of unknown kind, is never executed, wherever it stands in a log |
| `ApplyOnce.SnapshotThenRest` | internal/server/kvserver/apply.go:106-136 | snapshot at any split after a first write, restore on any server, apply the rest: the same server as applying the whole log |
| `ApplyOnce.RestoreIff` | internal/server/kvserver/snapshot.go:7-26 | a restored server equals the one that made the snapshot iff something had been written or its store already was the same |
| `ApplyOnce.RestartRecoversIff` | internal/server/kvserver/server.go:36-38 | a restarted server recovers the snapshot iff something had been written or no lease had ever been granted |
| `ApplyOnce.GrantedLeaseIsLost` | internal/storage/mvcc/kv_store.go:251-254 | a log of one lease grant whose lease is lost on restart while the table says it was granted |
| `ApplyOnce.RunExplained` | internal/server/kvserver/apply.go:138-257 | every log leaves the store explained by a list of writes and uncompacted |
| `ApplyServer.KVServer.constructor` | internal/server/kvserver/server.go:13-38 | a new server is empty |
| `ApplyServer.KVServer.PerformKV` | internal/server/kvserver/apply.go:157-187 | refines put and delete commands, with their error replies |
| `ApplyServer.KVServer.PerformTxn` | internal/server/kvserver/apply.go:189-206 | refines transaction commands |
| `ApplyServer.KVServer.PerformLease` | internal/server/kvserver/apply.go:208-257 | refines the three lease commands |
| `ApplyServer.KVServer.PerformCommand` | internal/server/kvserver/apply.go:138-155 | dispatches by kind |
| `ApplyServer.KVServer.ApplyOne` | internal/server/kvserver/apply.go:33-99 | refines one turn of the loop, with the reply for the waiter |
| `ApplyServer.KVServer.ApplyLoop` | internal/server/kvserver/apply.go:13-104 | refines the loop over a whole log |
| `ApplyServer.KVServer.MakeSnapshotOf` | internal/server/kvserver/snapshot.go:7-26 | store and both tables together |
| `ApplyServer.KVServer.RestoreFrom` | internal/server/kvserver/apply.go:106-136 | replaces both tables even when the store rejects its part; the store stays in order |
| `ApplyServer.KVServer.RestoreAndApply` | internal/server/kvserver/apply.go:13-136 | the server object that takes over a snapshot and applies the rest is the one that applied the whole log |
| `Replicas.ReplicasAgreeIff` | internal/server/kvserver/apply.go:13-104 | in every cluster run with ordered AppendEntries, of any two servers, each with its own clock and map order, the one behind has been point by point what the one ahead was, up to expiry times, iff their clocks and orders agree at every entry executed |
| `Replicas.AlikeIff` | internal/server/kvserver/apply.go:44-99 | two servers that apply the same commands are alike at every point, tables and replies included, iff they agree at every executed entry |
| `Replicas.DeliveriesArePrefixes` | internal/raft/applier.go:36-63 | of two gap-free delivery sequences one is a prefix of the other |
| `Replicas.AgreesIff` | internal/storage/mvcc/lease.go:84-118 | two servers alike answer a command alike and stay alike, iff each lease it looks up is expired on both by their own clocks or on neither and a revoke visits the keys in the same order |
| `Replicas.SameSidesAgree` | internal/storage/mvcc/lease.go:84-95 | same side of the own expiry for every lease looked up, and at most one key in a revoked lease, is enough |
| `ReplicaState.FirstBadIs` | internal/storage/mvcc/txn.go:51-60 | a transaction fails as expired iff a put under an expired lease precedes every put under an unknown one, as unknown iff only the latter exist |
| `ReplicaState.OrderMattersIff` | internal/storage/mvcc/lease.go:162-203 | two revokes of one lease leave the same store iff they visited its keys in the same order |
| `ReplicaState.OneKeyOneOrder` | internal/storage/mvcc/lease.go:172-176 | a lease with at most one key has one order |
| `ReplicaState.RevokeRevisions` | internal/storage/mvcc/lease.go:180-184 | the key visited i-th gets the i-th revision after the current one |
| `ReplicaState.AlikeReads` | internal/storage/mvcc/kv_store.go:132-184 | stores equal up to expiry times answer every read and compare alike |
| `ReplicaState.TimelessExec` | internal/storage/mvcc/txn.go:62-104 | what a branch does and returns does not depend on expiry times |
| `ReplicaLimits.ClocksPart` | internal/storage/mvcc/lease.go:90-93 | a two-command log on which two clocks leave different values for a key |
| `ReplicaLimits.OrdersPart` | internal/storage/mvcc/lease.go:173-184 | a five-command log on which two visiting orders of one revoke leave different values for a key |
| `PersisterSpec.NeverAMix` | internal/storage/persister/disk.go:71-199 | in every history of openings, saves and crashes between any two file writes, a reload succeeds and gives exactly the last completed pair or exactly the one whose save was cut |
| `PersisterSpec.SaveIsAtomic` | internal/storage/persister/disk.go:162-199 | a save cut before its last write leaves exactly the old state, with its last write exactly the new |
| `PersisterSpec.OpenIsAtomic` | internal/storage/persister/disk.go:108-151 | opening, including the migration of the older file, cut after any write changes nothing a later opening sees |
| `PersisterSpec.SavesAside` | internal/storage/persister/disk.go:154-159 | all writes of a save but the manifest go to slots not in force |
| `PersisterSpec.MigrationCompletes` | internal/storage/persister/disk.go:127-148 | a completed migration is loaded back as the migrated pair |
| `PersisterDisk.DiskPersister.constructor` | internal/storage/persister/disk.go:55-62 | starts without a snapshot slot |
| `PersisterDisk.DiskPersister.Replace` | internal/storage/wal/segment.go:53-79 | one file is replaced as a whole |
| `PersisterDisk.DiskPersister.LoadSlots` | internal/storage/persister/disk.go:85-105 | loads the slots the manifest names, or nothing if one is unreadable |
| `PersisterDisk.DiskPersister.MigrateLegacyFile` | internal/storage/persister/disk.go:108-151 | refines the migration, with every intermediate directory |
| `PersisterDisk.DiskPersister.LoadFromDisk` | internal/storage/persister/disk.go:71-83 | every directory passed through reloads to the same pair |
| `PersisterDisk.DiskPersister.Save` | internal/storage/persister/disk.go:162-199 | every directory passed through reloads to the old pair, the last one to the new |
| `Codec.FileRoundTrip` | internal/storage/wal/segment.go:19-50 | decoding an encoded payload gives the payload |
| `Codec.DecodeAcceptsIff` | internal/storage/snapshot/snapshot.go:49-70 | a file is accepted iff it is empty or the encoding of some payload |
| `Codec.EncodeFile` | internal/storage/snapshot/snapshot.go:38-47 | the buffer is filled with magic, big-endian length and payload |
| `Codec.LegacyRoundTrip` | internal/storage/persister/disk.go:201-234 | the older file's two payloads are read back |
| `Codec.LegacyFits` | internal/storage/persister/disk.go:214-226 | whatever the older file yields fits the newer format |
| `Codec.NumberRoundTrip` | internal/storage/wal/segment.go:23-23 | a length below 2^64 survives its eight bytes |
| `Codec.BytesRoundTrip` | internal/storage/wal/segment.go:42-42 | eight bytes are the encoding of the number they stand for |
| `Watch.HandOff` | internal/storage/mvcc/watcher.go:10-145 | wherever registration falls between a write, its queueing and its dispatch, backlog followed by live is exactly the matching events from the start that no snapshot brought since, as far as the dispatcher has come |
| `WatchChannel.InOrderIff` | internal/storage/mvcc/watcher.go:66-74 | what was sent on a watcher's channel has increasing revisions iff none of its own backlog was sent after its first live event, and nothing of its backlog was lost iff none of its sends found the channel full |
| `WatchChannel.ArrivesIff` | internal/storage/mvcc/watcher.go:66-110 | a channel has carried exactly the matching events in order iff its backlog is through, each send of it found room and came before the first live event |
| `WatchChannel.DroppedNeverArrives` | internal/storage/mvcc/watcher.go:68-71 | a backlog event that finds the channel full is never on the channel later |
| `WatchChannel.HazardIff` | internal/storage/mvcc/watcher.go:147-195 | a step leaves a closed channel that someone is still to send on, iff it cancels a watcher whose backlog is not through or that is still due the event |
| `WatchChannel.SafeRunsGoOn` | internal/storage/mvcc/watcher.go:99-113 | with no such cancellation no run stops on a closed channel |
| `WatchChannel.HazardStops` | internal/storage/mvcc/watcher.go:66-113 | after one there are steps that do |
| `WatchScenario.CancelStops` | internal/storage/mvcc/watcher.go:65-73 | a run of four steps in which a watcher is cancelled before its backlog is sent and the next send stops the process |
| `WatchScenario.BacklogComesLate` | internal/storage/mvcc/watcher.go:98-112 | a run in which the second of two events is on the channel before the first |
| `WatchScenario.LongBacklogDrops` | internal/storage/mvcc/watcher.go:23-73 | a run in which the last of seventeen stored events does not fit the channel and is dropped |
| `WatchScenario.RestoreMisses` | internal/storage/mvcc/kv_store.go:334-345 | a run in which a registered watcher is never handed the event of a restored snapshot |
| `Watch.HandsOverOnce` | internal/storage/mvcc/watcher.go:24-64 | an event is in the backlog iff it was there at registration, live iff it was written later and dispatched; live revisions strictly increase |
| `Watch.MissedIff` | internal/storage/mvcc/kv_store.go:334-345 | once the queue is drained a matching event was handed over, on one side only, iff it did not come with a snapshot restored after registration |
| `Watch.NothingIsMissed` | internal/storage/mvcc/watcher.go:78-143 | in a run without a restore, once the queue is drained every matching event from the start was handed over on exactly one side |
| `Watch.AccountNext` | internal/storage/mvcc/watcher.go:103-112 | the comparison with `lastSentRev` sends a matching dispatched event exactly when the backlog lacks it and it is not before the start |
| `Watch.StepKeeps` | internal/storage/mvcc/watcher.go:10-195 | every step of writer, queue, dispatcher, registration, cancelling, compaction and restoring keeps every watcher's account |
| `Watch.CollectBacklog` | internal/storage/mvcc/watcher.go:24-45 | the loop collects the stored matching events and the newest revision among them |
| `WatchHub.Hub.constructor` | internal/storage/mvcc/kv_store.go:17-46 | no watchers |
| `WatchHub.Hub.WatchFrom` | internal/storage/mvcc/watcher.go:10-64 | refines registration, refused iff the start is compacted |
| `WatchHub.Hub.CancelWatcher` | internal/storage/mvcc/watcher.go:147-195 | removes the watcher from its list and from the table, and nothing else |
| `WatchHub.Hub.CopyOfExact` | internal/storage/mvcc/watcher.go:95-97 | the copied list holds each registered watcher of the key once |
| `WatchHub.Hub.CopyOfPrefixes` | internal/storage/mvcc/watcher.go:116-126 | the copied lists hold each registered watcher of a prefix of the key once, whatever the map order |
| `WatchHub.Hub.ServeAll` | internal/storage/mvcc/watcher.go:99-113 | serves each of a copied list in turn, up to a send on a channel closed since the copy |
| `WatchHub.Hub.Offer` | internal/storage/mvcc/watcher.go:103-112 | skips, sends, cancels on a full channel, or stops on a closed one |
| `WatchHub.ServeManyIsSteps` | internal/storage/mvcc/watcher.go:99-113 | the loop over a copied list is the dispatcher's steps one after the other |
| `WatchHub.Without` | internal/storage/mvcc/watcher.go:160-166 | the loop removes exactly the id |

## Left out

- Compaction beyond what was applied: `Compact` in `RaftSystem` and `RaftSafety` takes an index not above `lastApplied`, as the apply loop passes it (internal/server/kvserver/apply.go:98); the code itself checks only that it is above the snapshot boundary (internal/raft/snapshot.go:12).
- The bytes of a snapshot: that they are the state after the entries it replaces is the apply loop's part.
- A snapshot restored into a store that is not an earlier state of the one it was taken from: `Restore` in `Watch` continues the log.
- Clusters of one peer in `RaftSystem`: such a peer leads without a vote; the node model covers its branches.
- Ordering of AppendEntries: an assumption of the commit-level theorems, see above.
- The leader's own entries of `nextIndex` and `matchIndex`, which nothing reads.
- ReadIndex and linearizable reads: acknowledgements are not tied to the read's own round, so the expected theorem does not follow from this code.
- The writes of Get and Range to the request table: they are local to the leader and not replicated.
- Waiters, cached results by log index and role events: notification only.
- Timers, tickers, goroutines, shutdown and liveness beyond the follower catch-up.
- Sharing of slices between messages and logs: messages are values.
- Protobuf: serialization is the identity on values, except that an empty list of entries comes back as none.
- gRPC, client retry, configuration, logging and scripts.
- The Lin-DB backend.
- Temporary files, fsync, rename and the JSON text of the manifest: each file replacement is one atomic step.
- `Revision.Sub`, which is always 0, and 64-bit overflow of revisions, terms, indices and clocks.
- `sort.Search`, `sort.Strings` and `sort.Slice` are functions with the documented results.
- The background expiration loop: it calls LeaseRevoke, which is modelled.
- The number of places in a watcher's channel: any send may find it full, which cancels the watcher when it is served live and drops the event when it is sent from the backlog.
- More than one concurrent writer to the event queue.
