# EdgeKV, verified

A Dafny model of one EdgeKV Raft group, from the consensus protocol down to the
bytes of its write-ahead log, and of the key-value store it replicates.

The model has five layers.

* **Consensus** (`Consensus.dfy`). A history of campaigns, votes, elections,
  leader logs, acknowledgements and commits, with seven actions and one
  inductive invariant. Its core is that whatever may still become committed is
  in the log of every later leader.
* **The group** (`Replica.dfy`, `Cluster.dfy`). Each critical section of a
  replica is a transition function. A step of the group is one such section or
  one unlocked action of an applier or a sender. Messages may be lost, delayed,
  reordered and duplicated. A replica may crash between steps and inside any
  save, with a prefix of the batch written, and restarts from its storage.
  Pre-vote, check-quorum, snapshots, fast backtracking, ReadIndex and leadership
  transfer are steps like any other. `Link.dfy` says how replicas and messages
  relate to a history; `Frames`, `Preserve`, `NodeElection`, `NodeLeader`,
  `NodeFollower`, `NodeApplier`, `Reads` and `Steps` show that every step keeps
  the relation.
* **Runs** (`Votes`, `Safety`, `Senders`, `Proposals`, `Placements`,
  `Linearizable`, `Handlers`, `CommitSteps`, `Overlap`, `ReplicatedStore`). What
  follows for whole runs; `Traces`, `Episodes` and `LateRead` build the one run
  that breaks safety. `Ballots`, `Receivers`, `Replies` and `Results` say what
  each exchange must achieve, which safety alone leaves open: a vote that is due
  is granted, a request that fits is accepted, an acknowledgement counts, an
  applied proposal gets its result.
* **The store** (`KvSpec`, `StoreHistory`, `StoreTheorems`, `Store`). Versions,
  compare-and-set, deduplication, snapshot and restore.
* **Stable storage** (`DiskSpec`, `MemStorage`, `Recovery`, `Segments`,
  `RaftStore`, `Restart`, `Retention`, `WalFormat`, `Wal`, `Layout`). The in-memory storage
  is the meaning of the `Storage` contract; the segment store refines it through
  crashes inside saves, rotations, snapshots and deletions. `Retention` follows a
  replica's files along the runs of the group. `Layout` joins the records to the
  bytes of the write-ahead log.

Code that the repository writes as objects updated in place is a class here
(`Raft`, `RaftLog`, `MemStorage`, `Store`, `RaftStore`, `Wal`), with each method
proved against the function that the theorems speak about. Where the code would
panic, the method has a precondition, and a theorem about runs shows that the
precondition always holds (`AppendEntriesIsSafe`, `MemoryMatchesDisk`,
`ReplicationInRange`, `ApplierInRange`).

## Conventions

* Node IDs are numbers, 0 standing for the empty ID. Terms, indexes and versions
  are unbounded, except that the deduplication window uses 64-bit unsigned
  subtraction and the record length is cut to 32 bits, as in the code.
* Time is a counter that moves with every step; a request is stamped when it is
  handed to the transport, after it was built. Timeouts may fire at any step.
* A run is **timely** if every snapshot that a replica installs covers only what
  a leader of the request's term or a lower one has committed by then. Point 3
  below says why that matters and when it holds. Election safety, the accounting
  of proposals and of acknowledgements, and what a read waits for need no such
  condition.
* The state machine of the group theorems is any deterministic machine; a
  snapshot is its state. `RestoreInvertsSnapshot` justifies that for the store.
* Marshalling and unmarshalling are identified. The WAL checksum is a parameter.

## What the code does not promise

Five points where the code falls short of what its comments or contracts say,
or relies on something outside it. Each has a concrete case and an exact
condition.

1. **Recovery can resurrect overwritten entries.** `Load` skips a record inside
   the snapshot without dropping the tail replayed so far. Recovery is exact if
   and only if the log goes on after the snapshot or no surviving record does
   (`RecoversIff`, `InOrderIff`, `RestartIsExactIff`; counterexample
   `SkippedOverwriteResurrects`). A replica that restarts with such a tail
   reports an older last term and can vote for a candidate that lacks a
   committed entry (`ResurrectedTailMisleadsVote`), so the theorems about runs
   hold for this storage only while the condition does. A replay that clears the
   tail on such a record needs no condition (`ClearingIsExact`).
2. **Oversized records are acknowledged and then lost.** `Append` does not check
   the record size that reading enforces. What was written is read back if and
   only if every record is within `maxRecordSize`, whatever its length
   (`ReadBackIff`).
3. **A snapshot can be read too late.** `replicateOnce` decides under the lock to
   send a snapshot; `sendSnapshot` reads the storage after releasing it, by which
   time the sender may have stepped down and stored a snapshot of a later term.
   It still sends under the old term and relies on the cancelled context to stop
   the send. The `Transport` interface does not promise that; the gRPC transport
   refuses a cancelled context, the in-memory network delivers when it has no
   delay configured. The group has the two actions as separate steps, and then
   state machine safety and leader completeness fail: `LateReadBreaksSafety` is a
   run of seven replicas in which two commit different entries at one index,
   after a replica with a mixed log voted for a candidate without the committed
   entry. They hold in every timely run, and a run is timely if and only if every
   commit index was reached by a leader of that replica's term or a lower one
   (`TimelyIffEarned`). A transport that refuses a cancelled context, as the gRPC
   one does, makes every run timely, late reads or not: the context is cancelled
   when the sender steps down, so a snapshot is taken only from a sender that
   leads, and a term of office has no gaps (`LiveSendsAreTimely`,
   `OfficeUnbroken`). It also suffices that senders still lead when they read
   (`SittingReadsAreTimely`). The same late read is the one case in which
   AppendEntries across a snapshot, which skips what the snapshot covers without
   comparing terms, mixes logs (`OverlapAgreesIff`, `OverlapAlwaysAgrees`,
   `StaleSnapshotMixesTerms`).
4. **A crash inside a log-discarding snapshot leaves a dishonest tag.** Between
   the rotation and the rename, the new segment's tag may lie below the live
   last index, and a later snapshot can make the store delete entries that it
   needs (`CutShortDiscardLosesLog`). Deleting by tag keeps the log if and only
   if what is left starts at or below the first index above the snapshot, or
   holds nothing while the log ends within it (`DropKeepsIff`; `RenameSnapshot`
   and `Gc` state the same for the store). Raft as a whole meets the condition:
   a replica whose install was cut short overwrites the conflicting tail before
   it commits that far. That holds in every timely run in which the installs cut
   short are of snapshots committed in time, too (`SnapshotsKeepLog`), and so,
   with no other hypothesis, in every run with either guard of point 3
   (`GuardedSnapshotsKeepLog`).
5. **A crash inside a rotation can lose term and vote.** The new segment becomes
   durable before the hard state that heads it. If deletion by tag then removes
   the older segments, the hard state is gone: it survives if and only if what is
   left holds a hard state record (`DropKeepsIff`, `RotateCutShort`). With the
   whole log inside the snapshot the next `Load` already deletes them, and the
   replica votes twice in a term after one more restart
   (`CutShortRotationVotesTwice`). The theorems about runs hold for this storage
   only while the condition does.

## Model

| member | source | states |
|---|---|---|
| `CommitRule.QuorumIndexIsGreatest` | internal/raft/replication.go:136-145 | the sorted element at n minus quorum is the greatest index that a quorum has reached, both directions |
| `Consensus.UpToDateHolds` | internal/raft/election.go:147-155 | a candidate that passes the up-to-date check against a voter holds everything possibly committed that the voter holds |
| `Consensus.CastVoteKeeps` | internal/raft/election.go:140-160 | granting a vote once per term to an up-to-date candidate keeps the consensus invariant |
| `Consensus.ElectKeeps` | internal/raft/election.go:60-69 | a quorum of grants makes a leader whose log holds everything possibly committed in earlier terms |
| `Consensus.ExtendKeeps` | internal/raft/raft.go:311-317 | a leader appending entries of its own term, even after it was deposed without knowing, keeps the invariant |
| `Consensus.AcceptKeeps` | internal/raft/replication.go:199-217 | taking over a prefix of the leader's log, and acknowledging it, never drops what may be committed |
| `Consensus.SettleKeeps` | internal/raft/replication.go:147-153 | committing an index of the current term held by a quorum keeps the invariant |
| `NodeFollower.FreshFacts` | internal/raft/replication.go:202-213 | the loop over incoming entries stops exactly where the log and the leader's log first differ |
| `NodeFollower.MergeFits` | internal/raft/replication.go:199-217 | memory and disk after the merge are the log that contains the leader's prefix, unchanged if it already did |
| `NodeFollower.AppendReplyTrue` | internal/raft/replication.go:185-197 | a success means the whole prefix is held; a rejection names a real conflict at or below the previous index |
| `NodeLeader.CommitIsJustified` | internal/raft/replication.go:136-155 | when the leader's commit index moves, a quorum has durably acknowledged that index in its term |
| `Reads.ConfirmedRead` | internal/raft/apply.go:198-210 | a quorum of acknowledgements of requests sent since the read began rules out that a later leader was elected before it |
| `Steps.StepKeeps` | internal/raft/types.go:5-8 | every step of the group, of all twenty-six kinds, keeps replicas, messages, answers and reads linked to a consensus history that only grows and whose new commits a leader made; installing a snapshot does so if a commit of the request's term or below covers it |
| `Steps.CutAnswerStep` | internal/raft/raft.go:342-350 | a crash inside a save made while answering a message, with any prefix of the batch written, keeps the relation and commits nothing |
| `Steps.CutProposeStep` | internal/raft/apply.go:67-101 | the same for a leader crashing while it saves proposals |
| `Frames.SentInTermIff` | internal/raft/replication.go:231-245 | a snapshot read at any time is part of the log its sender led with in the request's term exactly when a commit of that term or below covers it |
| `Safety.RunExplained` | internal/raft/types.go:5-8 | every state of every timely run is explained by a history, each extending the earlier ones, and every commit in it was made by a leader |
| `Safety.TimelyIffEarned` | internal/raft/replication.go:49-59 | for every run: snapshots are installed in time if and only if every replica's commit index was reached by a leader of its term or a lower one |
| `Votes.OfficeUnbroken` | internal/raft/raft.go:267-328 | who leads a term at two moments of any run leads it at every moment between |
| `Senders.LiveSendsAreTimely` | internal/transport/grpc.go:87-92 | every run is timely in which a snapshot is handed to the transport only while its sender leads the request's term, which a refused cancelled context ensures, whenever it was read |
| `Senders.SittingReadsAreTimely` | internal/raft/replication.go:231-245 | so is every run in which senders still lead their term when they read their storage |
| `LateRead.LateReadBreaksSafety` | internal/raft/replication.go:231-245 | for every state machine there is a run in which a late read makes two replicas commit different entries at one index, with a leader lacking a committed entry on the way |
| `LateRead.NoDivergence` | internal/raft/replication.go:158-227 | in no timely run do two replicas commit different entries at one index |
| `Votes.OneLeaderPerTerm` | internal/raft/election.go:18-70 | over all states of any run, timely or not, two leaders of one term are the same node |
| `Votes.NoTermWonTwice` | internal/raft/election.go:46-69 | no two elections of any run are won in the same term, not even by one node that crashed in between |
| `Safety.LogsMatch` | internal/raft/replication.go:158-227 | two replicas at any two moments of a timely run that hold the same term at an index hold the same entries below it |
| `Safety.OneSequenceApplied` | internal/raft/apply.go:248-314 | in a timely run one sequence of entries explains, in every state, every replica's committed log, stored snapshot and state machine, and every answer given |
| `Safety.LeadersHoldCommitted` | internal/raft/replication.go:128-155 | whatever a replica has committed in a timely run is in the log, or inside the snapshot, of every leader of a higher term, earlier or later, and of every later leader of the same term |
| `Safety.ReadCoversCommits` | internal/raft/apply.go:179-222 | in a timely run no replica had committed past a confirmed read's index when the read began |
| `Safety.ReadsSeeAnsweredWrites` | internal/raft/apply.go:114-127 | in a timely run a state served once the read's index is applied is a replay that includes every write answered before the read began |
| `Safety.ReadsNeverGoBack` | internal/raft/apply.go:179-242 | in a timely run a read that begins after a state was visible anywhere has an index at least that far |
| `Proposals.ProposalsAccounted` | internal/raft/apply.go:67-101 | in any run, timely or not, every proposal is answered at most once, with its own command, and never both waiting and answered; without crashes none is forgotten |
| `Placements.ResultsAtOwnIndex` | internal/raft/apply.go:67-101 | two proposals that got results got them at different indexes |
| `Placements.ResultsBelongToProposals` | internal/raft/apply.go:288-308 | every result returned under a proposal's ID is that of the command proposed under it, as committed at an index of the one sequence that explains every replica |
| `Results.ProposalsTaken` | internal/raft/apply.go:67-101 | a leader that is not handing over appends every proposed command in order and has each proposal wait at its index; anyone else fails them all |
| `Results.WaitersGetResults` | internal/raft/apply.go:288-308 | in a timely run every proposal that waits when its entry has been applied is answered with the result its command has at that index of the one sequence |
| `Results.FinishedNeverFail` | internal/raft/apply.go:288-308 | and it is never told that it failed, before or after |
| `Results.FailureMeansNoLeader` | internal/raft/raft.go:279-288 | in a timely run a proposal fails only by being refused or in the step in which its leader loses its office |
| `Results.ApplierReachesCommit` | internal/raft/apply.go:248-314 | in a timely run a round of the applier ends with everything applied that was committed when it began; then a snapshot is due exactly if enough was applied since the last one |
| `Results.SnapshotsTaken` | internal/raft/apply.go:316-350 | a due snapshot is taken of what is applied, stored unless a newer one is, and the log compacted to it |
| `Placements.LaterResultsFurther` | internal/raft/apply.go:67-101 | whatever any replica had committed before a proposal was made lies below the index of its result |
| `Placements.ResultsInOrder` | internal/raft/apply.go:67-101 | a proposal made after another got its result gets its own at a higher index |
| `Linearizable.ClientsSeeOneHistory` | internal/raft/apply.go:114-127 | in a timely run one sequence of entries gives every write with a result and every served read its outcome at its point; writes have points of their own, and points follow real time |
| `Handlers.AppendEntriesIsSafe` | internal/raft/replication.go:158-217 | in every timely run, writing never truncates at or below the commit index or snapshot, never appends out of order and never leaves a gap on disk |
| `Handlers.ReplicationInRange` | internal/raft/replication.go:55-72 | the next index is between 1 and the end of the log, the slice asked for is in memory, and a compacted peer can be sent a stored snapshot |
| `Handlers.MemoryMatchesDisk` | internal/raft/raft.go:338-350 | in every timely run the log in memory and the log on disk end at the same index |
| `Handlers.ApplierInRange` | internal/raft/apply.go:276-277 | the applier's slice is in range and not empty |
| `Handlers.RejectionLowersNext` | internal/raft/replication.go:108-118 | a rejection in the leader's term moves the next index strictly below the rejected request's start, and not below 1 |
| `Handlers.ResendLoopEnds` | internal/raft/replication.go:108-118 | the resend loop ends: rejections that follow one another, each of the request the last one asked for, are at most as many as the first request's previous index |
| `Replies.AppendReplyTaken` | internal/raft/replication.go:84-119 | a reply taken in its term counts as an acknowledgement of the time its request was sent; a success that confirms more moves match and next index right behind it |
| `Replies.SnapshotReplyTaken` | internal/raft/replication.go:251-268 | a reply to a snapshot does the same: the match reaches the snapshot and the next index is right after the match |
| `Replies.SnapshotAgainOnlyPast` | internal/raft/replication.go:55-59 | in any run, after that reply another snapshot is decided on for the peer only once the log is compacted past it or the peer has rejected a request |
| `Replies.BacktracksNoFurther` | internal/raft/replication.go:108-118 | in a timely run a rejection never sets the next index back over an index at which the receiver agreed with an entry the leader has |
| `Replies.MajorityAcknowledges` | internal/raft/apply.go:198-210 | in any run, once the replies of a majority to requests sent since a time are taken, every read begun by then can be confirmed and check-quorum does not depose the leader |
| `Receivers.AppendEntriesAnswered` | internal/raft/replication.go:158-227 | a request is accepted exactly if the log goes on where it starts; then all its entries are held, in memory and on disk, and the commit index moves as far as the leader's and the request allow; else the log stays and the hint names the conflict |
| `Receivers.InstallSnapshotAnswered` | internal/raft/replication.go:271-308 | a snapshot of what is committed changes nothing; any other becomes commit index and start of the log, is on disk and waits to be restored; the suffix stays exactly if the log agrees with it |
| `Receivers.RequestBuilt` | internal/raft/replication.go:61-72 | a request starts at the peer's next index, carries all entries up to the limit, and the leader's commit index |
| `Receivers.CampaignBegun` | internal/raft/election.go:46-57 | a campaign is in the next term with the own vote on disk, and its request shows the end of the log |
| `Receivers.OfficeTaken` | internal/raft/raft.go:295-328 | a winner appends a no-op of its term and starts every peer right after its own log, with nothing matched and all heard from |
| `Receivers.NewerTermDeposes` | internal/raft/replication.go:84-95 | hearing of a newer term makes a follower of that term, on disk, whatever the node was |
| `Receivers.AloneStepsDown` | internal/raft/raft.go:238-240 | a leader without a majority of acknowledgements steps down in its term |
| `Receivers.TransferBegins` | internal/raft/apply.go:360-382 | a transfer can begin towards any peer heard from recently, refuses proposals while it lasts, and ending it restores everything |
| `Receivers.TargetCampaigns` | internal/raft/apply.go:386-409 | a caught-up target can be told to campaign, and then can |
| `Receivers.ReadWaitsForCommit` | internal/raft/apply.go:179-197 | in any run a read's index is what its leader had committed when it began, its own no-op included |
| `Handlers.TransferTargetCanWin` | internal/raft/apply.go:386-409 | when TimeoutNow may be sent, the target's log passes the up-to-date check at every node of that term or lower |
| `Handlers.TransferStaysCaughtUp` | internal/raft/apply.go:364-409 | while the transfer lasts the leader's log does not grow and a caught-up target stays caught up |
| `CommitSteps.MedianIsFigure2` | internal/raft/replication.go:136-155 | along ascending terms, testing only the median finds the greatest index of the leader's term that a majority of the group holds, as Figure 2 of the Raft paper asks |
| `CommitSteps.CommitRuleIsFigure2` | internal/raft/replication.go:128-155 | in every step of a timely run that leaves a node leading, its commit index moves to the greatest index Figure 2 allows and stays if there is none |
| `Overlap.OverlapAgreesIff` | internal/raft/replication.go:174-183 | skipping entries inside the snapshot yields a log that agrees with the request exactly when the skipped term equals the snapshot's |
| `Overlap.OverlapAlwaysAgrees` | internal/raft/replication.go:174-183 | in every timely run the terms are equal |
| `Overlap.StaleSnapshotMixesTerms` | internal/raft/replication.go:231-245 | a snapshot of a later term carried by an old request leads to a log whose terms decrease |
| `ReplicatedStore.ReplicasServeOneHistory` | internal/store/store.go:160-190 | over every timely run, each replica's data is what the history of one log says, each result given out is that of the command or of the execution it repeats, and every replica's table can be snapshotted without loss |
| `Raft.CollectVotes` | internal/raft/election.go:83-129 | stopping early, either way, gives the verdict of the full count: enough of the answers grant the vote |
| `Ballots.VerdictIsMajority` | internal/raft/election.go:83-129 | that verdict is exactly whether the granters and the candidate are a majority of the group, which elections and pre-votes ask for |
| `Ballots.VoteAnswered` | internal/raft/election.go:132-161 | a vote is granted exactly if the term is no older, no other candidate has the vote in it and the log is as recent; it is on disk first |
| `Ballots.PreVoteAnswered` | internal/raft/election.go:165-177 | a pre-vote is granted exactly if the term is newer, the node does not lead, has not heard from a leader recently and the log is as recent; nothing changes |
| `Ballots.AcksCountMajority` | internal/raft/raft.go:359-369 | counting acknowledgements decides exactly whether those since a time are of a majority |
| `Raft.Raft.constructor` | internal/raft/raft.go:92-138 | a restart rebuilds the replica from its storage |
| `Raft.Raft.Persist` | internal/raft/raft.go:342-350 | hard state and entries are saved as the transition says |
| `Raft.Raft.FailWaiters` | internal/raft/raft.go:352-357 | every waiting proposal is answered with a failure, and none stays |
| `Raft.Raft.BecomeFollower` | internal/raft/raft.go:267-293 | the step-down transition, vote cleared and durable on a new term |
| `Raft.Raft.AdvanceCommit` | internal/raft/replication.go:136-155 | the commit rule, by building and sorting the match indexes |
| `Raft.Raft.BecomeLeader` | internal/raft/raft.go:295-328 | the leader transition with its no-op |
| `Raft.Raft.HasQuorumAckSince` | internal/raft/raft.go:359-369 | the counting loop decides the quorum |
| `Raft.Raft.StartElection` | internal/raft/election.go:46-57 | new term and own vote, durable, and the request sent out |
| `Raft.Raft.LogUpToDate` | internal/raft/election.go:179-187 | the comparison of section 5.4.1 of the Raft paper |
| `Raft.Raft.HandleRequestVote` | internal/raft/election.go:132-161 | the vote transition, response and failed proposals |
| `Raft.Raft.FirstFresh` | internal/raft/replication.go:202-213 | the first incoming entry that is not held, and all after it |
| `Raft.Raft.Merge` | internal/raft/replication.go:199-217 | the merge transition in memory and on disk |
| `Raft.Raft.AppendSameTerm` | internal/raft/replication.go:172-227 | skip, consistency check, hint, merge and commit within the term |
| `Raft.Raft.HandleAppendEntries` | internal/raft/replication.go:158-227 | the whole receiver, given only that it would not panic |
| `Raft.Raft.HandleInstallSnapshot` | internal/raft/replication.go:271-308 | the whole receiver, keeping or discarding the suffix |
| `Raft.Raft.RecordAck` | internal/raft/replication.go:121-126 | the acknowledged send time becomes the later of the known one and the reply's, which AppendReplyTaken and MajorityAcknowledges rely on |
| `Raft.Raft.OnAppendReply` | internal/raft/replication.go:84-119 | the leader's reaction to a reply |
| `Raft.Raft.OnSnapshotReply` | internal/raft/replication.go:251-268 | the leader's reaction to an installed snapshot, which SnapshotReplyTaken characterises |
| `Raft.Raft.AppendProposals` | internal/raft/apply.go:67-101 | entries appended and durable, waiters registered under their indexes, commit rule applied |
| `Raft.Raft.ApplyTaken` | internal/raft/apply.go:279-286 | the state machine is called once per command, in order |
| `Raft.Raft.FinishTaken` | internal/raft/apply.go:288-308 | each waiter of an applied index is answered once, by the first entry there, with the result if the entry is its own, and removed |
| `RaftLog.RaftLog.Term` | internal/raft/log.go:32-42 | the term at an index, or that the log does not have it |
| `RaftLog.RaftLog.Slice` | internal/raft/log.go:44-55 | the entries of a range in memory |
| `RaftLog.RaftLog.Append` | internal/raft/log.go:57-64 | entries that follow are appended |
| `RaftLog.RaftLog.TruncateFrom` | internal/raft/log.go:66-75 | an index and everything after it are dropped |
| `RaftLog.RaftLog.FirstIndexOfTerm` | internal/raft/log.go:77-88 | the backward scan computes the start of the run |
| `RaftLog.RaftLog.LastIndexOfTerm` | internal/raft/log.go:90-102 | the backward scan with its early exit |
| `RaftLog.RaftLog.CompactTo` | internal/raft/log.go:104-116 | compaction keeps standing for the same full log |
| `LogSpec.FirstIndexStartsRun` | internal/raft/log.go:77-88 | the index found starts the run of the term that ends at the given index |
| `RaftLog.LastIndexIsLast` | internal/raft/log.go:90-102 | along ascending terms the scan finds the last entry of the term if and only if there is one |
| `RaftLog.ScanMissesTerm` | internal/raft/log.go:97-99 | along descending terms it can miss it |
| `MemStorage.MemStorage.Save` | internal/raft/storage_mem.go:35-57 | an existing index replaces the tail |
| `MemStorage.MemStorage.SaveSnapshot` | internal/raft/storage_mem.go:59-78 | the newest snapshot stays, with the log after it or none |
| `StoreHistory.ExecutionsApart` | internal/store/store.go:175-188 | two executions of one request ID lie further apart than the window |
| `StoreHistory.StoreFollowsHistory` | internal/store/store.go:164-190 | after any log, data, FIFO and table are what the history of executions says |
| `StoreHistory.DedupRefinesHistory` | internal/store/store.go:164-190 | an occurrence executes exactly when no execution of its ID lies within the window; otherwise it changes no data and answers that execution's outcome |
| `StoreTheorems.RestoreInvertsSnapshot` | internal/store/store.go:253-302 | restoring gives back data, table and FIFO |
| `StoreTheorems.SnapshotCommutes` | internal/store/store.go:253-302 | restoring a snapshot taken at any point and applying the rest equals applying everything |
| `StoreTheorems.VersionCountsChanges` | internal/store/store.go:126-129 | a key's version is the number of successful puts and deletes on it |
| `StoreTheorems.CasNoAba` | internal/store/store.go:137-149 | a compare-and-set on a visible version succeeds only if the record has not changed since any moment it showed that version |
| `StoreTheorems.LastChangeWins` | internal/store/store.go:208-232 | a key's record is exactly what the last successful put or delete on it wrote; a delete keeps how the value was to be cached |
| `StoreTheorems.SucceedsIff` | internal/store/store.go:195-232 | a command that executes succeeds exactly when the version it expects is the one shown, and a delete only on a live key |
| `StoreTheorems.AnswersVersion` | internal/store/store.go:195-232 | a command that executes answers the version shown if another was expected, else that there is nothing to delete, else the number of successful changes of its key, its own included |
| `StoreTheorems.AnsweredVersionIsShown` | internal/store/store.go:198-221 | the version a put answers is the one shown exactly until the key changes again |
| `Store.Store.constructor` | internal/store/store.go:75-81 | an empty store with the default window |
| `Store.Store.Get` | internal/store/store.go:93-111 | a deleted key is as absent as one never written; a live one shows value, version and all its attributes |
| `Store.Store.EvictDedup` | internal/store/store.go:239-251 | the eviction loop forgets exactly the IDs older than the window |
| `Store.Store.ApplyLocked` | internal/store/store.go:192-237 | compare and write in one place, with the answer that AnswersVersion characterises |
| `Store.Store.Apply` | internal/store/store.go:160-190 | evict, answer a repeat or execute and remember; FIFO and table stay in step |
| `Store.Store.Snapshot` | internal/store/store.go:253-275 | what is written restores to the same state, in whatever order records come |
| `Store.Store.Restore` | internal/store/store.go:277-302 | the state becomes that of the store the snapshot was taken from |
| `Store.ApplyKeepsStep` | internal/store/store.go:164-190 | FIFO and table stay in step whatever indexes entries carry |
| `Recovery.RecoveryIsExactIff` | internal/raftstore/raftstore.go:94-125 | replay reports no gap, and is exact exactly when the last record lies above the snapshot or none does |
| `Recovery.ClearingIsExact` | internal/raftstore/raftstore.go:94-125 | a replay that drops the tail on a record inside the snapshot is always exact |
| `Recovery.SkippedOverwriteResurrects` | internal/raftstore/raftstore.go:108-110 | a trace on which the replay returns an entry that the in-memory storage dropped |
| `Segments.AppendIsSave` | internal/raftstore/raftstore.go:137-166 | appending a batch to the active segment is saving it |
| `Segments.RotateKeeps` | internal/raftstore/raftstore.go:176-189 | starting a segment changes nothing that the files stand for, with the hard state at its head or, after a crash, without |
| `Segments.DropKeeps` | internal/raftstore/raftstore.go:242-259 | deleting segments that are not needed loses neither log nor snapshot, and leaves the hard state exactly if the rest holds one |
| `Segments.DropKeepsIff` | internal/raftstore/raftstore.go:242-259 | what is left determines the log if and only if it starts at or below the first index above the snapshot, or is empty with the log inside the snapshot, and otherwise a restart finds a gap or nothing; it determines the hard state if and only if it holds one |
| `Segments.ShortestByTag` | internal/raftstore/raftstore.go:242-259 | with tags in order, deletion stops only before a second segment whose tag lies beyond the snapshot |
| `Segments.CutShortDiscardLosesLog` | internal/raftstore/raftstore.go:208-225 | a discarding snapshot cut short by a crash, one entry more and a local snapshot: deletion by tag leaves a gap |
| `Segments.RenameIsSave` | internal/raftstore/raftstore.go:228-239 | renaming a snapshot of the existing log into place is saving it |
| `Segments.DiscardIsSave` | internal/raftstore/raftstore.go:211-225 | the rename switches state and log in one step |
| `Segments.RecoversIff` | internal/raftstore/raftstore.go:78-135 | what the files stand for is recovered exactly when the surviving records are in order |
| `Segments.InOrderIff` | internal/raftstore/raftstore.go:108-120 | the records are in order exactly when the log goes on after the snapshot or no surviving record does |
| `Restart.RestartIsExactIff` | internal/raft/raft.go:119-136 | a replica restarted from the files equals one restarted from the storage they stand for under exactly that condition, and otherwise comes back with a longer log |
| `Restart.ResurrectedTailMisleadsVote` | internal/raft/election.go:179-187 | a replica restarted with a resurrected tail grants a vote that exact recovery refuses, to a candidate lacking a committed entry |
| `Restart.CutShortRotationVotesTwice` | internal/raftstore/raftstore.go:176-189 | a rotation cut short by a crash, with the log inside the snapshot: the segment with the vote is deleted, and the restarted replica grants a second vote in the term |
| `Retention.WroteIsSaved` | internal/raft/raft.go:342-350 | the entries attributed to a step are the ones that storage holds after it on top of what it held |
| `Retention.DoomedBelow` | internal/raft/replication.go:271-308 | a replica whose log contradicts what was committed up to an index has committed less than that and does not lead |
| `Retention.StepWritesLow` | internal/raft/replication.go:199-217 | whatever such a replica writes starts at or below that index |
| `Retention.SnapshotsKeepLog` | internal/raftstore/raftstore.go:197-259 | in every timely run in which installs cut short by a crash are of snapshots committed in time, too, whatever a replica's files went through, a snapshot of what it has committed meets the condition under which deletion by tag keeps the log |
| `Retention.GuardedSnapshotsKeepLog` | internal/raftstore/raftstore.go:197-259 | the same with no hypothesis on the run but that snapshots are read, or sent, by sitting leaders |
| `RaftStore.RaftStore.constructor` | internal/raftstore/raftstore.go:66-76 | a fresh store is empty |
| `RaftStore.RaftStore.Write` | internal/raftstore/raftstore.go:137-166 | hard state and entries as one batch: the stored value becomes what the in-memory storage would hold |
| `RaftStore.RaftStore.Save` | internal/raftstore/raftstore.go:137-174 | the same through rotation and deletion: in a sound store nothing is lost, and in any store log and hard state each survive exactly under their condition |
| `RaftStore.RaftStore.SaveCutShort` | internal/raftstore/raftstore.go:137-166 | a crash inside a save leaves a prefix of its records, which is a save of a prefix of the batch |
| `RaftStore.RaftStore.Rotate` | internal/raftstore/raftstore.go:176-189 | a segment tagged with the next index and headed by the hard state is added; the stored value is unchanged |
| `RaftStore.RaftStore.RotateCutShort` | internal/wal/wal.go:291-315 | a crash before the head is written leaves the stored value, and deletion safe exactly if the tag is beyond the snapshot or there was no hard state |
| `RaftStore.RaftStore.StartSnapshot` | internal/raftstore/raftstore.go:197-226 | a stale snapshot is refused; until the rename the stored value is unchanged |
| `RaftStore.RaftStore.RenameSnapshot` | internal/raftstore/raftstore.go:228-232 | the rename is the step at which the stored value becomes the one with the snapshot; deletion stays safe, after a switch or rotation cut short exactly if the later segments start low enough and hold the hard state |
| `RaftStore.RaftStore.PublishSnapshot` | internal/raftstore/raftstore.go:234-240 | publishing and deleting change nothing stored |
| `RaftStore.RaftStore.RemovalPoint` | internal/raftstore/raftstore.go:242-256 | the loop over tags finds the last segment the snapshot covers without a gap, or the snapshot's first segment, and no later one |
| `RaftStore.RaftStore.RemoveBefore` | internal/wal/wal.go:317-340 | a prefix of the segments goes, never the active one |
| `RaftStore.RaftStore.Gc` | internal/raftstore/raftstore.go:242-259 | the longest prefix of the segments goes that minimum segment and tags allow; log and hard state each survive exactly under their condition, and always while the store is sound |
| `RaftStore.RaftStore.GcCutShort` | internal/wal/wal.go:317-340 | a crash after any number of deletions loses nothing while the store is sound |
| `RaftStore.RaftStore.ReplayWal` | internal/raftstore/raftstore.go:89-128 | last hard state, and the entries above the snapshot or a gap |
| `RaftStore.RaftStore.Load` | internal/raftstore/raftstore.go:78-135 | from any files an error exactly on a gap; after a crash at any point term, vote and snapshot come back, and the log comes back exactly when the surviving records are in order |
| `WalFormat.PutU32` | internal/wal/wal.go:263-264 | four little-endian bytes that read back as the number |
| `WalFormat.ReadFits` | internal/wal/wal.go:198-239 | whatever a file holds, only records of accepted size are read from it |
| `WalFormat.ReadIsExact` | internal/wal/wal.go:198-239 | whatever bytes a file holds, reading returns exactly the records whose encodings, checksums included, it begins with, and stops torn exactly where no further one follows |
| `WalFormat.ReadBackIff` | internal/wal/wal.go:198-280 | records of any length written are read back if and only if none is over the size limit |
| `WalFormat.StopsAtOversized` | internal/wal/wal.go:198-280 | everything before the first oversized record is read; reading stops torn right there exactly if the length as cut to 32 bits is over the limit or the checksum tells |
| `WalFormat.TornTail` | internal/wal/wal.go:154-191 | any prefix of the last batch reads as all earlier records and its whole records, ending right after them, torn unless cut at a boundary |
| `Wal.Wal.Append` | internal/wal/wal.go:256-273 | the encoded batch is appended to the active segment |
| `Wal.Wal.ReadSegment` | internal/wal/wal.go:195-239 | the reading loop computes the scan |
| `Wal.Wal.ReadAll` | internal/wal/wal.go:154-191 | all records in order, a torn tail of the last segment cut off, the same damage elsewhere an error |
| `Wal.CollectFailsIff` | internal/wal/wal.go:154-191 | reading all segments fails exactly if one before the last is damaged, and otherwise yields what each reads as, in order |
| `Wal.CrashKeepsAcked` | internal/wal/wal.go:154-191 | after a crash inside an append, everything acknowledged and a whole-record prefix of the batch come back, and later appends land right after them |
| `Layout.CrashedSaveReads` | internal/wal/wal.go:256-280 | for any encoding that tells records apart, whatever bytes of a save a crash lets through, reading finds exactly the records of a save cut short and leaves files that hold just those |
| `Layout.CrashedRotationReads` | internal/wal/wal.go:292-315 | a crash inside a rotation leaves the new segment with its head or without |

## Left out

- The theorems about runs are stated for timely runs, except election safety, the accounting of proposals and of acknowledgements, and what a read waits for, because agreement between replicas fails without that; point 3 above says when runs are timely.
- Store.Store.Snapshot: asks that FIFO and table be in step, which every operation keeps and restoring keeps for snapshots a store made.
- Retention.SnapshotsKeepLog: also asks that installs cut short by a crash are of snapshots committed in time, which the guards of point 3 ensure; it is about the log only, the hard state has the condition of point 5.
- A crash inside a save is a step of the group; the losses of points 1 and 5 are not, because they are the storage breaking its contract.
- Wal.Wal.Append: what is durable after a crash is stated by TornTail and CrashKeepsAcked; fsync itself is not modelled.
- Receivers.TransferBegins: takes every peer as heard from recently; that refusal of a transfer depends on real time.
- Segment names, directory listing, file system errors and the snapshot file's own checksum.
- Deletion at byte level; it is modelled on segments of records.
- Channels, condition variables and goroutine wake-ups; a wait is a step that becomes possible.
- Liveness, real time and randomised timeouts.
- Version counters wrapping at 64 bits.
- Put, CAS and Delete of the store as separate entry points, Len, and the store's window setting; they are calls of the modelled operations or plain assignments.
- gRPC beyond its refusal of a cancelled context, protobuf, HTTP, sharding, the CDN cache, metrics and configuration defaults.
- Membership changes, which the repository does not have.
