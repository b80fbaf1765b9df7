# Verified model of a Raft library with asynchronous persistence

In this library a term, a vote or a log entry takes effect in memory at once. A
single writer makes it durable later, and only what a node says to others waits
for the disk. This project states that design in Dafny and proves what it has to
guarantee.

- **Consensus.** `Protocol` is a state machine over a fixed set of voters. Each
  node has a memory state, a disk state, a FIFO of writes on their way, and
  replies held back until their write completes. Messages may be lost,
  reordered and repeated; a crash keeps the disk only. `Invariant`, `Facts`,
  `CoreSteps`, `Growth`, `ElectionSteps` and `ReplicationSteps` hold the
  inductive invariant; `Safety` draws election safety, log matching and the
  durability of votes and acknowledgements from it, for every run. `Commitment`,
  `CommitSteps` and `CommitSafety` add commit safety, leader completeness and
  read safety, for every run whose leaders take only results that are vouched
  for. `StaleResults` is a complete run that shows why they have to be.
- **The node's handlers.** `Handlers` is the node as a class whose methods are
  the event handlers; each is proved to be a step of the protocol.
  `StepLaws` says, on the fields alone, what each step does: who gets a vote,
  what an append leaves, what a completed write releases. `DurabilityGate` is the
  deferral of callbacks alone, failed writes included. `LogBridge` ties the protocol's log to the log class.
- **The log.** `RaftLog` is the log class: unwritten segments over storage, and
  a term-run index in place of term reads. `LogSpec`, `Unstable`, `InFlight` and
  `Overlay` are its specification and the proof that storage, segments, runs and
  queued writes describe one log through every interleaving with the writer;
  `LogTight` that memory holds no more than what is still being written.
- **The writer.** `StorageWriter` is the coalescing queue as a class,
  `WriterProtocol` its goroutine, wake-ups and close as a state machine.
- **Fast backup.** `FastBackup`, `BackupSteps` and `BackupInRuns`: the
  follower's hint, the leader's lookup, and how many rejections they can cost.
  `Heartbeats` covers the same check once logs are compacted.
- **Around the core.** `Quorum` and `Counting` (quorum sizes, the counting
  loops, intersection), `ReadIndex` and `ReadsInRuns` (linearizable read rounds,
  and what their answers are worth in a run), `ClientTable`, `ApplyLoop`,
  `NoticeCuts` and `Applier` (exactly-once table and apply loop), with
  `TableLaws` and `ApplyLaws` saying what the table holds and what state a log
  amounts to; `Bytes`, `PeerCodec`, `SnapshotCodec` and `WireLaws` (entry,
  membership and snapshot encodings, and their layouts byte by byte); `Balance`
  (leader balancer); `Recovery` and `RecoveryLaws` (disaster recovery, and what
  configuration entries mean to it).

An entry with index `i` is `log[i - 1]` in the protocol, where an index is also
the length of the prefix it ends. Elections and log matching follow sections 5.2
to 5.4 of "In Search of an Understandable Consensus Algorithm"; quorum sizes
follow Flexible Paxos with election quorums never below a majority.

Some expected properties are false of the code. Each has a lemma with an input
that shows it and, beside it, the exact condition or the assumption under which
it holds:

| expected | fails | holds |
|---|---|---|
| a node commits only what a quorum acknowledged to it | `StaleResultBreaksSafety` | `VouchedIff`: a result keeps it so exactly when it is of the leader's term, raises nothing, or was acknowledged in that term as well; `StateMachineSafety` follows, and by `DisagreementIsUnvouched` every disagreement comes from a result that is not |
| the log's last term is right | `CompactionForgets` | `StepSound`, `RunSound`: exactly except between a compaction that forgets it and the next operation that records it |
| work runs only after its write is durable | `FailedWriteReleases` | `RunsTooSoonIff`: exactly when no work is registered for a write already reported as failed; `NothingTooSoon` before the first failed write |
| a passed consistency check means a shared entry | `HeartbeatOutrunsLog` | `PassingIsSharingIff`: exactly when one of the logs describes it |
| a rejection moves nextIndex back | `IndexMatchingIsNotEnough` | `MovesBackIff` exactly; `RejectionNarrows` for logs a run can produce |
| a commit meets an election | `UnsharedPoliciesMiss` | `CommitMeetsElection` for a shared policy; `MeetIff` exactly |
| how commits are cut into notices does not matter | `RepeatInOneNotice` | `CutsDoNotMatterIff`: exactly when each lookup before a flush finds what it would after it; `RepeatsIff` reads that off the log; `FreshCuts` and `ApartIsSteadyCuts` give logs where it holds |
| both client tables stay equal | `LowerNumberPartsTables` | `TablesInStep`, exactly, entry by entry; `LockstepCuts` for rising numbers |
| a node that serves reads alone is the only voter of both configurations | `HiddenVoter` | `SingleExactly`: when it is taken for one, exactly; `SoleVoterConfirms`: its answers are sound all the same |
| a truncated membership is refused | `MembershipPrefix` | exactly when the cut is before its last eight bytes |
| a repeated recovery reports the discarded entries | a crash after the truncation | `DiscardReportLost`: exactly when the crash came before the truncation |

`dafny verify dfyconfig.toml` checks the project.

## Model

| member | source | states |
|---|---|---|
| `Quorum.CommitQuorumFor` | quorum.go:56-64 | without a policy the smallest majority; with one, that many voters, or all of them when there are fewer |
| `Quorum.ElectionQuorumFor` | quorum.go:69-74 | always a majority, always overlapping a commit quorum of the same policy, and no larger than that takes |
| `Quorum.QuorumNeeded` | quorum.go:79-87 | the larger of what the applied and the latest policy need, and for an election never less than a majority |
| `ReplicationSteps.StepInv` | node_replication.go:21-194 | every enabled step of the protocol (stand, vote, append, truncate, acknowledge, commit, land, complete, crash, policy change) keeps the whole inductive invariant |
| `ElectionSteps.AskVoteInv` | node_election.go:15-120 | answering a vote request, granted or not and whatever write it waits for, keeps the invariant |
| `ElectionSteps.StandInv` | node_transitions.go:112-154 | starting a candidacy whose own vote is not yet on disk keeps the invariant |
| `ElectionSteps.ElectedInv` | node_transitions.go:158-222 | taking leadership with a majority of ballots and appending the no-op before it is durable keeps the invariant |
| `ReplicationSteps.AppendInv` | node_replication.go:53-144 | accepting entries over a conflicting suffix keeps the invariant, with the acknowledgement held back until its writes land |
| `CoreSteps.CoreLand` | storage_writer.go:317-344 | moving the oldest queued write to disk keeps every promise already made |
| `CoreSteps.CoreCrash` | raft_log.go:113-161 | a crash that keeps only the disk keeps every promise already made |
| `ReplicationSteps.RecordInv` | node.go:1565-1580 | queueing the commit index for storage changes nothing a promise depends on |
| `Safety.RunInv` | node_replication.go:21-194 | the invariant holds in every state of every run |
| `Safety.ElectionSafety` | node_election.go:198-242 | in every run, two nodes that lead in the same term, at whatever moments and under whatever quorum policies, are one node |
| `Safety.LogMatching` | node_replication.go:53-144 | two logs met anywhere in a run, in memory or as any disk image a crash could leave, that hold the same term at any two positions are identical up to the lower one |
| `Safety.VoteDurable` | node_election.go:26-36 | once a granted vote is in the network, every disk image a crash could leave has that vote or a later term |
| `Safety.OneVotePerTerm` | node_election.go:84-119 | across crashes and restarts a node never sends granted votes to two candidates in one term |
| `Safety.TermDurable` | node.go:1722-1736 | no message leaves a node before its term is on disk |
| `Safety.AckDurable` | node_replication.go:166-193 | once an append success is in the network, every disk image a crash could leave keeps the acknowledged entries, unless a later leader replaced them |
| `Commitment.LeaderCompleteness` | node_replication.go:612-717 | every later leader starts from a log that holds everything a commit quorum acknowledged |
| `Commitment.VouchedIff` | node_replication.go:472-490 | taking a result leaves every match index of the leader acknowledged in its own term if and only if the result is of that term or later, raises nothing, or was acknowledged in that term as well |
| `CommitSteps.StepCommit` | node_replication.go:384-529 | every step keeps the commit invariant when results are vouched for, as VouchedIff says, and the nodes share one policy |
| `CommitSafety.StateMachineSafety` | node_replication.go:612-717 | whatever two nodes treat as committed, at any two moments of a run whose results are vouched for, agrees up to the lower commit index |
| `CommitSafety.LeadersHoldCommitted` | raft_log.go:699-706 | a leader of the same or a later term holds everything any node treated as committed before |
| `CommitSafety.ReadSafety` | node_readindex.go:223-257 | a commit index captured by a leader that has committed in its term, and confirmed afterwards by a commit quorum still in that term, is at least every commit index any node had when it was captured |
| `StaleResults.StaleResultBreaksSafety` | node_replication.go:472-490 | a crash-free run under one policy in which a leader takes a success of its own earlier term that nobody vouches for, and two nodes commit different entries at index 2 |
| `StaleResults.DisagreementIsUnvouched` | node_replication.go:472-490 | in every run under a shared policy in which two nodes disagree on a committed entry, some leader took a result nobody vouched for |
| `BackupInRuns.RunRealTerms` | node_transitions.go:112-154 | in every run no log holds an entry of term 0 |
| `BackupInRuns.BackupBound` | node_replication.go:413-468 | the rejection bound of fast backup holds between any two nodes in every state of every run |
| `Handlers.NodeLoop.constructor` | raft_log.go:113-161 | a node starts as the protocol restarts it: from its disk, with nothing pending |
| `Handlers.NodeLoop.SaveTerm` | node.go:1703-1720 | term and vote take effect at once, one hard-state write is queued, and the unsafe-term mark is that write |
| `Handlers.NodeLoop.SendGate` | node.go:1731-1736 | the gate is late enough: no write still on its way behind it touches the hard state or the log the reply vouches for |
| `Handlers.NodeLoop.AfterWrite` | node.go:1865-1873 | a reply whose write has completed goes out, any other is held with its write number |
| `Handlers.NodeLoop.BecomeFollower` | node_transitions.go:11-21 | is the protocol's step to a follower, saving the term only when it rises |
| `Handlers.NodeLoop.BecomeCandidate` | node_transitions.go:112-154 | is the protocol's stand step, own vote and campaign both held on the hard-state write |
| `Handlers.NodeLoop.HandleRequestVote` | node_election.go:15-120 | grants exactly when the candidate's log is up to date and its term is higher, or equal with the vote free or already the candidate's; a grant is in memory and in the queued hard state, and the reply waits for that write or leaves at once; is the protocol's vote answer with an admissible gate |
| `Handlers.NodeLoop.VotesSuffice` | node_election.go:198-206 | says yes exactly when the protocol counts the election as won |
| `Handlers.NodeLoop.HandleVoteResult` | node_election.go:208-242 | is the protocol's handling of a vote: step down, ignore, count, or win |
| `Handlers.NodeLoop.BecomeLeader` | node_transitions.go:158-222 | is the protocol's win: no-op appended at the term start, match indexes cleared, nextIndex of every peer at the no-op; the commit attempt that follows cannot succeed before the no-op is on disk |
| `Handlers.NodeLoop.TakeEntries` | node_replication.go:109-144 | appends exactly what the log lacks and truncates a conflicting suffix first |
| `Handlers.NodeLoop.HandleAppendEntries` | node_replication.go:21-194 | acknowledges exactly what follows on from the log; what it takes is merged in, the commit index moves to the leader's as far as the request reaches and never back; anything else changes no entry; refused without an answer exactly when it would be taken and the backlog is full; is the protocol's append answer, gated on a write that covers what it acknowledges |
| `Handlers.NodeLoop.Propose` | node_loop.go:375-407 | appends the proposed commands in the leader's term |
| `Handlers.NodeLoop.MaybeAdvanceCommit` | node_replication.go:666-717 | commits only an index of the own term that a commit quorum holds, the node itself counted exactly where no write it has not seen completed touches the log that far, and leaves no higher such index |
| `Handlers.NodeLoop.HandleAppendResult` | node_replication.go:384-490 | is the protocol's handling of a result; a success moves nextIndex past what it covers, a rejection moves it exactly as fast backup says |
| `Handlers.NodeLoop.HandleWriteCompletion` | node.go:1882-1909 | is the protocol's completion: what the write gated is released, a due campaign asks for votes or wins alone |
| `Handlers.NodeLoop.HandleWriteCompletions` | node.go:1877-1911 | the completions of one turn are that many protocol completions in order, followed by a commit attempt that is justified and maximal |
| `Handlers.NodeLoop.StableIndex` | raft_log.go:225-237 | is the highest index no uncompleted write touches, and every lower one is untouched too |
| `Handlers.NodeLoop.MaybeRecordCommit` | node.go:1565-1580 | hands storage an index only when it has moved by 256, never past the commit index and never past what is known to be on disk |
| `Handlers.NodeLoop.RunDeferred` | node.go:1925-1943 | releases exactly what is due, keeps exactly the rest in the order it was registered, and reports a due campaign |
| `Handlers.CrownedIsElected` | node_transitions.go:158-222 | the node a win leaves behind is the one the protocol's election leaves behind |
| `Handlers.EmittedIsEmit` | node.go:1865-1873 | the class's way of holding or sending a reply is the protocol's |
| `Handlers.CompletionIsStep` | node.go:1877-1911 | a handled completion is a protocol step of the whole state |
| `LogBridge.AppendIsAppend` | raft_log.go:392-419 | the log class's append is the protocol's append |
| `LogBridge.CutIsCut` | raft_log.go:573-608 | the log class's suffix truncation is the protocol's truncation, down to the first index and to the empty log |
| `LogBridge.SameRestriction` | raft_log.go:699-706 | the log class's up-to-date test is the protocol's election restriction |
| `LogBridge.CoveringIsSafe` | raft_log.go:338-355 | the write writeSeqCovering names is one the protocol's gate accepts |
| `StepLaws.VoteGrantedExactly` | node_election.go:37-119 | for every node and request: granted if and only if the candidate deserves it; term, vote, queued hard state, role and reply afterwards, and nothing else changed |
| `StepLaws.StandingAsks` | node_transitions.go:112-154 | a stand takes the next term and the own vote, queues both as one write, and holds the campaign and the own vote on exactly that write |
| `StepLaws.VoteCounted` | node_election.go:208-242 | a vote counts if and only if it is granted, in the candidate's own term; the candidate leads at once if and only if the voters in hand reach the election quorum |
| `StepLaws.LeadersStart` | node_transitions.go:158-222 | a new leader's log is its own with the no-op of its term, queued for disk, at termStart |
| `StepLaws.AppendAnsweredExactly` | node_replication.go:21-194 | for every node and request: acknowledged if and only if it is of no earlier term and follows on; commit index, term, vote, role and reply afterwards; the log then has the entries |
| `StepLaws.AppendMerges` | node_replication.go:109-144 | nothing is cut from a log that has the entries already; otherwise it becomes the part both have and then what was sent |
| `StepLaws.AppendCarriesTheLog` | node_replication.go:255-350 | what a leader sends is the piece of its log after prev, the term at prev and its commit index |
| `StepLaws.ProposalsKeepOrder` | node_loop.go:375-407 | command i of a batch is entry i behind the old log, in the leader's term |
| `StepLaws.ResultCounted` | node_replication.go:384-490 | a success raises its sender's match index to what it acknowledges, never lowers it, and moves nobody else's; a higher term demotes |
| `StepLaws.CountedExactly` | node_replication.go:612-661 | who counts for an index: peers that acknowledged it, and the leader once no queued write touches its log that far |
| `StepLaws.EmitsOrHolds` | node.go:1865-1873 | a reply leaves at once if and only if its write has completed; otherwise it is held and nothing is said |
| `StepLaws.CompletionReleases` | node.go:1877-1911 | a completion sends everything that waited for no later write and nothing else, keeps the rest, and starts a due campaign |
| `StepLaws.CrashKeepsTheDisk` | raft_log.go:113-161 | a crash leaves the disk state, an empty queue and nothing held |
| `LogBridge.StableAgrees` | raft_log.go:225-237 | on an uncompacted log the class's stable index is the one the handlers compute: exactly the indexes no uncompleted write touches |
| `LogBridge.CoveringAgrees` | raft_log.go:338-355 | the write the class names for an entry is the one the handlers name |
| `LogBridge.StableIsSafe` | raft_log.go:225-237 | no write queued, or landed and not seen to complete, touches the log up to stableIndex |
| `DurabilityGate.OnceOnly` | node.go:1865-1954 | over any sequence of registrations and completions, every registered callback is waiting, has run or has failed, and exactly once |
| `DurabilityGate.NothingTooSoon` | node.go:1865-1954 | before the first failed write, over any sequence of events, nothing ran before its write was durable |
| `DurabilityGate.RunsTooSoonIff` | node.go:1865-1911 | over any sequence of registrations and completions of a writer that fails everything after its first failure, some work runs without its write on disk if and only if some work is registered for a write already reported as failed |
| `DurabilityGate.DueInOrder` | node.go:1925-1943 | what is due and what stays are picked out of the deferred list in the order of registration |
| `DurabilityGate.CompletionExactly` | node.go:1877-1954 | a good completion runs exactly the due work, in order, and keeps the rest; a failed one fails everything, in order |
| `DurabilityGate.FailedWriteReleases` | node.go:1885-1895 | after one failed write, work registered on it runs as a success |
| `DurabilityGate.Gate.AfterWrite` | node.go:1865-1873 | runs at once or defers, as specified |
| `DurabilityGate.Gate.HandleCompletion` | node.go:1877-1911 | a good completion runs what is due, a failed one counts the write and fails everything deferred |
| `DurabilityGate.Gate.RunDeferred` | node.go:1925-1943 | splits the deferred list by write number and keeps the order of both parts |
| `DurabilityGate.Gate.FailDeferred` | node.go:1946-1954 | fails everything deferred, once |
| `Overlay.AppendedOk` | raft_log.go:392-419 | an append to a valid overlay is valid and the log it stands for gained exactly the entries |
| `Overlay.CutOk` | raft_log.go:573-608 | a suffix truncation anywhere above the snapshot, the first index included, is valid and removes exactly the suffix, from segments, runs and queued writes together |
| `Overlay.CompactedOk` | node_snapshot.go:589-592 | local compaction removes exactly the prefix; the last term is right afterwards if and only if an entry is left and it was right before, or nothing is left and the snapshot term does not change |
| `Overlay.InstalledOk` | raft_log.go:666-689 | installing a snapshot keeps the log after it when the log agrees with it and clears the log otherwise, and records the last term whenever nothing is left |
| `Overlay.LandedOk` | storage_writer.go:317-344 | a write reaching storage leaves the log unchanged |
| `Overlay.CompletedOk` | raft_log.go:359-373 | forgetting the segments a completed write covers leaves the log unchanged |
| `Overlay.StepValid` | raft_log.go:392-689 | from a valid overlay an operation leaves a valid one if and only if it is not a compaction that forgets the last term |
| `Overlay.StepSound` | raft_log.go:392-689 | every operation keeps segments, runs, queued writes and storage describing one log, also after a forgotten last term; the last term is right after it if and only if the operation does not forget it and it was right before or is recorded anew |
| `Overlay.RunSound` | raft_log.go:225-689 | through every interleaving of log operations with writer progress the overlay describes one log throughout, and its last term is right except between a compaction that forgets it and the next operation that records it |
| `Overlay.RunValid` | raft_log.go:225-689 | in particular the overlay is valid throughout a run with no such compaction |
| `Overlay.CompactionForgets` | raft_log.go:647-651 | compacting a one-entry log leaves a last term of 0 |
| `RaftLog.StableIsStored` | raft_log.go:225-237 | storage holds the log's own entry at every index up to stableIndex and will go on holding it whatever still lands, and stableIndex is the last index when nothing is pending |
| `LogTight.RunTight` | raft_log.go:225-689 | through every run each segment in memory has its write in flight, and the durable point covers everything below the segments now and after every completion to come |
| `RaftLog.StableIsExact` | raft_log.go:225-237 | an entry is at or below stableIndex if and only if no write queued, or landed and not seen to complete, touches it |
| `RaftLog.HeldIsWritten` | raft_log.go:338-355 | an entry above stableIndex is in a segment whose write is in flight, so the fallback to the newest write is never taken for an entry the log has |
| `RaftLog.SettleAfter` | raft_log.go:338-355 | once every write up to the covering one has landed, the entry is on disk for good |
| `RaftLog.RaftLog.constructor` | raft_log.go:113-161 | opening a log gives a valid overlay of exactly what storage holds |
| `RaftLog.RaftLog.LoadRuns` | raft_log.go:171-188 | reading the stored log in batches rebuilds its term-run index |
| `RaftLog.RaftLog.StableIndex` | raft_log.go:225-237 | computes the stable index, which StableIsExact characterises |
| `RaftLog.RaftLog.WriteSeqCovering` | raft_log.go:338-355 | names the last write in flight that touches the entry, 0 when the entry is stable; once that write has landed the entry is on disk for good |
| `RaftLog.RaftLog.TermAt` | raft_log.go:427-446 | answers exactly for index 0, the snapshot boundary and the indexes the log holds, with the term a scan would find |
| `RaftLog.RaftLog.TermRunStart` | raft_log.go:470-476 | gives the first index of the uniform run a scan back would find, 0 outside the log |
| `RaftLog.RaftLog.LastIndexOfTerm` | raft_log.go:485-503 | gives the highest index of the term a scan would find, or none if no entry has it |
| `RaftLog.RaftLog.Entries` | raft_log.go:542-570 | returns the true slice stitched from storage and memory, and refuses one that starts before the log |
| `RaftLog.RaftLog.Append` | raft_log.go:392-419 | is the specified append, segments, runs, bytes and queued write alike |
| `RaftLog.RaftLog.DropUnstableFrom` | raft_log.go:280-295 | the loop cuts the segments as specified and the byte count stays exact |
| `RaftLog.RaftLog.DropUnstableBelow` | raft_log.go:300-319 | the loop trims the segments as specified and the byte count stays exact |
| `RaftLog.RaftLog.TruncateRunsFrom` | raft_log.go:519-526 | the loop keeps the runs that start before the cut |
| `RaftLog.RaftLog.TruncateRunsBelow` | raft_log.go:530-538 | the loop drops the runs below the cut and moves the start of the one that spans it |
| `RaftLog.RaftLog.TruncateSuffix` | raft_log.go:573-608 | is the specified truncation, refused past the end with nothing changed |
| `RaftLog.RaftLog.TruncatePrefix` | raft_log.go:632-656 | is the specified prefix truncation |
| `RaftLog.RaftLog.InstallSnapshot` | raft_log.go:666-689 | is the specified install |
| `RaftLog.RaftLog.HandleSnapshotResult` | node_snapshot.go:589-592 | truncates first and records the snapshot after, as specified |
| `RaftLog.RaftLog.Stabilize` | raft_log.go:359-373 | a good completion releases what it covers, a failed one changes nothing |
| `RaftLog.RaftLog.CanDescribe` | raft_log.go:615-629 | accepts exactly the snapshot boundary, the held indexes and the true beginning, and then the whole log after the index is readable |
| `RaftLog.RaftLog.IsUpToDate` | raft_log.go:699-706 | compares by the term at the end of the log, then by length |
| `LogSpec.RunsAppended` | raft_log.go:508-515 | extending the runs keeps them exact for the extended log |
| `LogSpec.RunsCutOk` | raft_log.go:519-526 | cutting the runs keeps them exact for the cut log |
| `LogSpec.RunsTrimOk` | raft_log.go:530-538 | trimming the runs keeps them exact for the trimmed log |
| `Unstable.UnstableSlice` | raft_log.go:256-277 | gathers exactly the log's entries of the range from the segments |
| `FastBackup.RejectionNarrows` | node_replication.go:413-468 | a rejection moves nextIndex to at most the rejected index and never below one past the common prefix, and to exactly that when the leader knows the conflicting term |
| `FastBackup.Resume` | node_replication.go:443-466 | the leader resumes past what is acknowledged and past its own last entry of the conflicting term, and otherwise at the hint |
| `FastBackup.AcceptedIsCommon` | node_replication.go:53-82 | a probe succeeds if and only if it lies within the common prefix |
| `FastBackup.RejectionBound` | node_replication.go:413-468 | a lock-step probe is rejected at most once per diverging run of the follower, plus once |
| `FastBackup.IndexMatchingIsNotEnough` | node_replication.go:444-458 | logs that match index by index only: a rejection moves nextIndex forward |
| `FastBackup.MovesBackIff` | node_replication.go:444-458 | with index-by-index matching a rejection moves back if and only if the follower is short or the leader's last entry of the conflicting term lies before the probe |
| `BackupSteps.CheckPrev` | node_replication.go:53-82 | the follower's check and hint, read off the run index, are the specified ones |
| `BackupSteps.NextAfterRejection` | node_replication.go:443-466 | the leader's resumption point, read off the run index, is the specified one |
| `Heartbeats.HeartbeatPrev` | node_replication.go:209-218 | a heartbeat names the entry before nextIndex, with term 0 where the log has none |
| `Heartbeats.PrevPasses` | node_replication.go:53-59 | the follower's check passes exactly when its own term or 0 equals the one sent |
| `Heartbeats.PassingIsSharingIff` | node_replication.go:53-59 | passing the check means sharing the entry if and only if one of the two logs still describes it |
| `Heartbeats.HeartbeatOutrunsLog` | node_replication.go:161-165 | a heartbeat from a compacted leader raises an empty follower's commit index past its log |
| `StorageWriter.PutAllIsAppend` | storage_writer.go:352-412 | storing consecutive entries one by one is one append of them all |
| `StorageWriter.CoalescedAppends` | storage_writer.go:352-412 | one joined append leaves the storage that the appends one by one leave |
| `StorageWriter.PairedWithAppends` | storage_writer.go:352-412 | a hard state written together with the appends behind it leaves the storage that the operations one by one leave |
| `StorageWriter.SerialIsReplay` | storage_writer.go:352-412 | for appends numbered as the log numbers them, the stored log is the one the log class takes its writes to mean |
| `StorageWriter.SerialHard` | storage_writer.go:364-398 | the stored term and vote are those of the last hard-state write, and stay without one |
| `StorageWriter.SerialCommit` | storage_writer.go:399-407 | the stored commit index is the last one written where storage keeps it, and never changes where it does not |
| `StorageWriter.NextRun` | storage_writer.go:269-314 | takes a non-empty run that one call can carry; appends are joined as far as fits, and a hard state with the appends behind it where storage can take both |
| `StorageWriter.Writer.Enqueue` | storage_writer.go:165-184 | accepts at the end of the queue, drops after close, and starts the writer once |
| `StorageWriter.Writer.Close` | storage_writer.go:214-239 | drops nothing that is queued, wakes a running writer once, announces the exit of one that never ran once, and lets no writer start afterwards |
| `StorageWriter.Writer.Take` | storage_writer.go:269-314 | takes a prefix of the queue joined as far as it can be, and stops only when closed and empty |
| `StorageWriter.Writer.Run` | storage_writer.go:352-412 | makes one call, or none for a commit index storage does not keep and for appends without entries; success leaves the storage of the operations one by one, failure leaves it alone and is reported |
| `StorageWriter.Writer.Execute` | storage_writer.go:317-344 | keeps the storage equal to the operations reported good, reports each of the batch once in order, and calls storage no more after a failure |
| `StorageWriter.Writer.TakeDone` | storage_writer.go:188-194 | hands over every report not yet collected, in order |
| `StorageWriter.Writer.Work` | storage_writer.go:242-257 | one round of the loop reports what it takes and stops only when closed and drained |
| `WriterProtocol.StepInv` | storage_writer.go:165-257 | every step of enqueuers, loop, wake-ups and close keeps each accepted operation in exactly one place, in order |
| `WriterProtocol.HandedOver` | storage_writer.go:165-184 | an operation handed over before the close is accepted behind the earlier ones and owes a wake-up or a start; after the close it is dropped |
| `WriterProtocol.CloseRequested` | storage_writer.go:214-239 | a close is remembered, drops nothing, and owes the writer a wake-up, or the closing of the exited channel when none was ever started |
| `WriterProtocol.ExecutedIsDone` | storage_writer.go:269-344 | what is taken and executed is reported next, in the order it was queued |
| `WriterProtocol.NoLostWakeUp` | storage_writer.go:165-257 | whenever the writer sleeps with work waiting, a wake-up is pending or about to be sent |
| `WriterProtocol.CloseDrains` | storage_writer.go:214-239 | when close has returned, everything accepted has been reported, in order |
| `WriterProtocol.NothingAfterClose` | storage_writer.go:214-239 | nothing is accepted or reported after close has returned |
| `WriterProtocol.QuietIsDrained` | storage_writer.go:242-257 | a writer with no step of its own left has reported everything, and a requested close has returned |
| `WriterProtocol.FallsQuiet` | storage_writer.go:242-257 | the writer's own steps between two enqueues are bounded by what is left to do |
| `Counting.HasQuorumAck` | node_replication.go:537-557 | says yes exactly when the acknowledged voters, as a set, reach the quorum of the voters, as a set |
| `Counting.SpansEnoughZones` | node_replication.go:570-593 | says yes exactly when the holders cover the required number of distinct zones |
| `Counting.ReplicatedOnMajority` | node_replication.go:612-661 | says yes exactly when the holders reach the commit quorum, witnesses counted only while a full voter is down, and the zones suffice |
| `Counting.CountedExactly` | node_replication.go:537-661 | who is in the counted sets, peer by peer: voters, the acknowledged among them, and those that hold an index, witnesses if they count |
| `Counting.StandInExactly` | node_replication.go:570-661 | witnesses stand in if and only if a full voter that lacks the entry is down; the zones are those of the holders |
| `Counting.CountedAreVoters` | node_replication.go:612-661 | everything the loops count is a voter |
| `Counting.ElectionsMeet` | quorum.go:66-74 | any two election sets meet, whatever policies the candidates hold |
| `Counting.CommitMeetsElection` | quorum.go:76-87 | a commit set meets an election set whenever the two nodes share an applied or latest policy |
| `Counting.UnsharedPoliciesMiss` | quorum.go:76-87 | without a shared policy they can be disjoint |
| `Counting.MeetIff` | quorum.go:76-87 | all sets that count meet all election sets if and only if the two thresholds exceed the number of voters |
| `Counting.JointElectionMeets` | node_election.go:185-206 | a joint election meets every commit and election of the old and of the new configuration |
| `ReadIndex.Reads.HandleReadIndex` | node_readindex.go:53-126 | keeps every answer given so far sound: its index was captured at or after the arrival and confirmed by this node with a commit quorum on barriers sent later in the same term; the new read is answered or queued once |
| `ReadIndex.Reads.HandleBarrierAck` | node_replication.go:500-521 | answers the round exactly when the peers heard in this generation and term are a commit quorum of every configuration in force; a late, repeated or foreign answer resolves nothing, and no read is lost |
| `ReadIndex.Reads.StartReadBatch` | node_readindex.go:130-142 | captures the commit index as it is now, after every read of the batch arrived, and asks every peer or serves alone |
| `ReadIndex.Reads.ConfirmReadBatch` | node_readindex.go:223-257 | answers every read of the batch with the captured index, in order, and opens a round for those that waited |
| `ReadIndex.Reads.IsConfirmed` | node_replication.go:512-517 | says yes exactly when a commit quorum of every configuration in force has answered |
| `ReadIndex.Reads.Tick` | node_loop.go:116-129 | re-sends the barrier of an open round and nothing else, and keeps every later answer sound |
| `ReadIndex.Reads.CommitAdvanced` | node_replication.go:666-717 | a follower's commit index moves as a leader's does; the first commit of a leader's term opens the reads that waited for it |
| `ReadIndex.Reads.StepDown` | node_loop.go:521-535 | every queued read is refused once, and none is left |
| `ReadIndex.ResolvedSound` | node_readindex.go:223-257 | answering a confirmed batch with the index its round captured is sound for every read in it |
| `ReadIndex.IsSingleVoter` | node.go:1102-1112 | says yes exactly when the specification does, and SingleExactly says when that is |
| `ReadIndex.SingleExactly` | node.go:1102-1112 | a node is taken for the only voter if and only if it votes, nobody else in its configuration does, and every voter of the other configuration is listed in the first, since a peer in both keeps its role there |
| `ReadIndex.HiddenVoter` | node.go:1102-1112 | a voter of the new configuration that the old one lists without a vote goes unnoticed |
| `ReadIndex.SoleVoterConfirms` | node_readindex.go:89-95 | the only voter is a commit quorum by itself and part of every election quorum, so it needs no answer |
| `ReadsInRuns.ReadIsCurrent` | node_readindex.go:223-257 | in a run, the index of a soundly answered read is at least every commit index any node had when the round captured it |
| `ReadIndex.StillSound` | node_readindex.go:53-126 | an answer once sound stays sound through every later event |
| `Balance.Plan` | balance.go:62-148 | terminates; the transfers are a chain of moves from the host's real leaders that conserves leaders, never raises the maximum or lowers the minimum, with no host both sending and receiving, each group at most once when groups have one leader, ending within one or with the chosen pair blocked |
| `Balance.PlanStep` | balance.go:104-146 | one move keeps all of that |
| `Balance.MovedIsCloser` | balance.go:104-146 | every move makes the loads strictly more even, which bounds the plan |
| `Balance.EligibleExactly` | balance.go:51-59 | a replica can take over if and only if it is another node that votes, is no witness and lags by no more than the bound, 1024 when none is set |
| `Balance.FindMove` | balance.go:51-59 | finds an eligible target on the host, or there is none |
| `ClientTable.TableIsRecent` | client_dedup.go:25-95 | after any history of writes and cap changes the table is a front part of the clients ordered by last write |
| `TableLaws.ExactlyTheMostRecent` | client_dedup.go:64-81 | with a bound that never moves the table is exactly the clients written last, as many as the bound allows |
| `TableLaws.RecentExactly` | client_dedup.go:25-81 | the order is the order of last writes: everybody ever written, each with what was written last, the latest first |
| `TableLaws.WriteExactly` | client_dedup.go:64-81 | a write puts its client first and leaves the others in order; the client written longest ago goes if and only if a new one finds the table full |
| `TableLaws.CapExactly` | client_dedup.go:87-95 | a smaller bound keeps the front of the table and drops the rest from the back, one by one |
| `TableLaws.LookupExactly` | client_dedup.go:46-52 | a lookup finds the client's one record, or says that there is none |
| `TableLaws.LoadExactly` | client_dedup.go:122-134 | loading keeps every client's first record, in order, and of those as many as the bound allows |
| `ClientTable.LoadSame` | client_dedup.go:119-134 | loading the records of a table gives the same table |
| `ClientTable.ReloadIsInvisible` | node.go:2262-2284 | cutting any history, saving and reloading changes neither the later contents nor the evictions, nor their order |
| `ClientTable.HistorySplit` | client_dedup.go:54-95 | contents and evictions compose over any split of a history |
| `ClientTable.ClientLru.Get` | client_dedup.go:46-52 | looks up the client's cached result without changing the order |
| `ClientTable.ClientLru.Put` | client_dedup.go:64-81 | list and map together are the specified table afterwards, and the evicted client is the specified one |
| `ClientTable.ClientLru.SetCap` | client_dedup.go:87-95 | evicts exactly the oldest ones over the cap, oldest first |
| `ClientTable.ClientLru.Records` | client_dedup.go:110-117 | lists the table in order |
| `ClientTable.ClientLru.LoadFrom` | client_dedup.go:122-134 | replaces the table by the first records, without repeats, that fit |
| `ApplyLoop.NoticedAnswers` | node.go:2423-2539 | one result per index, in index order, for every log |
| `NoticeCuts.CutsDoNotMatter` | node.go:2423-2539 | if every lookup made before the collected run is applied finds what it would find afterwards, then however the commits are cut into notices, results, state and table are those of applying one entry at a time, for every state machine, table and bound |
| `NoticeCuts.CutsDoNotMatterIff` | node.go:2500-2511 | on a state machine that tells its successes apart, the results are those of one entry at a time if and only if that holds |
| `NoticeCuts.FreshCuts` | node.go:2423-2539 | that holds of every cut of a log with no repeated request, whatever the bound |
| `NoticeCuts.ApartIsSteadyCuts` | node.go:2423-2539 | with an unbounded table it holds of every cut in which a notice names each client at most once, retries included |
| `NoticeCuts.RetriedOnce` | node.go:2493-2511 | then a request that succeeded and is committed again in a later notice gets the first answer and the state machine does not see it again |
| `NoticeCuts.RepeatsIff` | node.go:2500-2511 | one notice to a fresh node answers what one entry at a time would if and only if no entry repeats the number its client used last |
| `NoticeCuts.RepeatInOneNotice` | node.go:2505-2511 | a request repeated inside one notice is applied twice |
| `ApplyLoop.TablesInStep` | node_loop.go:420-455 | the two client tables agree after an entry if and only if the client is new, its number rises, it failed, or it repeats the client already in front |
| `ApplyLoop.LowerNumberPartsTables` | node_loop.go:441-451 | a lower number from a known client parts the two tables |
| `ApplyLoop.Lockstep` | node_loop.go:420-455 | with rising numbers per client the two tables agree after every entry applied one at a time |
| `NoticeCuts.LockstepCuts` | node_loop.go:420-455 | with rising numbers per client, however commits are cut into notices, the two tables agree after every entry |
| `ApplyLaws.FlushedFolds` | apply_batch.go:26-110 | after a run the state is the fold over its payloads, each result is the outcome at the state its predecessors left, and the table is what those results write |
| `ApplyLaws.NoticesFold` | node.go:2423-2539 | however a log without repeated requests is cut into notices, the state is the fold over all its payloads in order, every entry is answered from the state its predecessors left, and the table is what those answers write |
| `ApplyLaws.ExactlyOnce` | node.go:2423-2539 | with an unbounded table and a client at most once in a notice, the state after any cut is the fold over the payloads of the requests that are no retries, each once and in order |
| `Applier.Applier.HandleCommit` | node.go:2455-2539 | the loop over a notice, with its pending runs, is the specified one: machine, table, results and lastApplied; without repeated requests the state is the fold over the payloads in order and each entry is answered from the state its predecessors left |
| `Applier.Applier.ApplyPending` | apply_batch.go:26-75 | flushing a run folds its payloads into the state, writes the table from the results, reports each in order and moves lastApplied |
| `Applier.Applier.ApplyEntries` | apply_batch.go:85-110 | the state is the fold over the payloads in order, with one outcome per entry, from the state before it |
| `Bytes.LeRoundTrip` | client_dedup.go:375-438 | a little-endian field reads back if and only if the number fits its width |
| `Bytes.BeRoundTrip` | config_change.go:148-166 | a big-endian field reads back if and only if the number fits its width |
| `PeerCodec.PeersRoundTrip` | config_change.go:279-313 | a peer list reads back with any trailing bytes preserved if it is in range, and otherwise is refused or reads back different |
| `PeerCodec.PeersPrefix` | config_change.go:291-313 | every strict prefix of a peer list is refused |
| `PeerCodec.AppendPeerList` | config_change.go:279-287 | the loop writes the specified bytes |
| `PeerCodec.DecodePeerList` | config_change.go:291-313 | the loop reads the specified list and rest, or refuses |
| `PeerCodec.MembershipRoundTrip` | config_change.go:211-257 | a membership, simple or joint, reads back if and only if everything fits its field |
| `PeerCodec.MembershipPrefix` | config_change.go:224-257 | a membership cut inside its last eight bytes reads back with quorum 0, any other strict prefix is refused |
| `PeerCodec.FinaliseRoundTrip` | config_change.go:125-136 | a finalise entry reads back if and only if its list is in range |
| `PeerCodec.JointRoundTrip` | config_change.go:103-121 | a joint entry reads back both lists if and only if both are in range |
| `WireLaws.PeerLayout` | config_change.go:279-287 | a peer is its ID's length big end first, a role byte with bit 0 for voters and bit 1 for witnesses, and the ID |
| `WireLaws.MembershipLayout` | config_change.go:211-222 | a membership is a kind byte, 0 or 1, its lists with the old one first, and the quorum policy in eight bytes |
| `WireLaws.DedupLayout` | client_dedup.go:151-168 | a once-only command is its four-byte marker, the client's ID with its length, the number and the command |
| `WireLaws.FrameLayout` | client_dedup.go:249-280 | a snapshot frame starts with the eight marker bytes of the third layout and the three lengths |
| `WireLaws.FirstLayoutRead` | client_dedup.go:290-362 | a frame of the first layout reads back as a table with no membership and no bound |
| `WireLaws.SecondLayoutRead` | client_dedup.go:290-362 | a frame of the second layout reads back table and membership, with no bound |
| `WireLaws.ForeignRead` | client_dedup.go:303-308 | a file with none of the markers is state-machine data from its first byte |
| `WireLaws.SectionsRead` | client_dedup.go:318-362 | a limits section gives its bound in its first eight bytes and may be longer; a shorter one, or a bound beyond a signed integer, is refused |
| `SnapshotCodec.TableRoundTrip` | client_dedup.go:375-438 | a client table reads back, order included, if and only if everything fits its field |
| `SnapshotCodec.TablePrefix` | client_dedup.go:402-438 | every strict prefix of a client table is refused |
| `SnapshotCodec.EncodeClientTable` | client_dedup.go:375-400 | the loop writes the specified bytes |
| `SnapshotCodec.DecodeClientTable` | client_dedup.go:402-438 | the loop reads the specified table or refuses |
| `SnapshotCodec.DedupRoundTrip` | client_dedup.go:143-189 | a deduplicated command is recognised, is not a config entry, and reads back if and only if client and number fit their fields |
| `SnapshotCodec.DedupPrefix` | client_dedup.go:170-189 | a deduplicated command cut anywhere in its header is refused |
| `SnapshotCodec.FrameRoundTrip` | client_dedup.go:249-362 | a snapshot frame reads back table, membership, policy and cap, with the reader left at the state machine's bytes |
| `SnapshotCodec.FramePrefix` | client_dedup.go:290-362 | every strict prefix that ends inside the framing is refused |
| `Recovery.RecoverySucceeds` | recovery.go:496-586 | after recovery the entries up to the proven floor are unchanged, the log ends with the new membership in a term above every earlier one, and the report names exactly the promoted or discarded band |
| `Recovery.ReinspectionAgrees` | recovery.go:167-227 | inspecting the recovered store returns exactly the new membership when its list fits the encoding |
| `Recovery.RerunAfterCrash` | recovery.go:496-586 | after a crash between any two writes, a re-run has the same floor, keeps the same entries and completes |
| `Recovery.RerunAfterCrashes` | recovery.go:496-586 | after any number of attempts, each cut short anywhere or finished, what was proven committed is unchanged, an accepted attempt ends as a recovery, and one after attempts all cut short is accepted |
| `Recovery.RerunAfterSuccess` | recovery.go:520-545 | after a finished recovery a re-run is refused if and only if it discards and nothing is proven committed |
| `Recovery.DiscardReportLost` | recovery.go:540-575 | the re-run still reports the discarded band if and only if the crash came before the truncation |
| `Recovery.KnownIsHeld` | recovery.go:167-227 | what counts as committed lies between the snapshot and the end of the log |
| `Recovery.ValidateMembers` | recovery.go:590-623 | accepts exactly the lists with distinct, non-empty ids in which the node itself is the one voter |
| `Recovery.Store.Inspect` | recovery.go:167-227 | the replay loop over the config entries gives the membership and completeness that AddEntry, RemoveEntry, JointEntry, FinaliseEntry and OtherEntries describe entry by entry |
| `RecoveryLaws.AddEntry` | recovery.go:308-319 | bytes of an add entry: a listed peer takes the new role where it stands, a new one goes to the end, everybody else stays, in each list of a joint membership |
| `RecoveryLaws.RemoveEntry` | recovery.go:320-325 | bytes of a remove entry: nobody of that ID is left and the others stay in order, in each list of a joint membership |
| `RecoveryLaws.JointEntry` | recovery.go:326-339 | bytes of a joint entry: the membership in effect, not the one the entry carries, is the old side |
| `RecoveryLaws.FinaliseEntry` | recovery.go:340-350 | bytes of a finalise entry: its list is the membership, and the membership is complete |
| `RecoveryLaws.OtherEntries` | recovery.go:308-313 | any other command leaves the membership alone |
| `RecoveryLaws.InspectStart` | recovery.go:249-273 | before any entry the membership is the snapshot's, and complete only with one |
| `RecoveryLaws.KnownExactly` | recovery.go:167-227 | proven committed are the snapshot and the recorded commit index, as far as the log reaches |
| `RecoveryLaws.AcceptsExactly` | recovery.go:496-545 | recovery goes ahead if and only if the node is the only voter of the new membership, no more is claimed than the log has, and a discard does not throw away a log of which nothing is proven |
| `RecoveryLaws.TermIsNext` | recovery.go:550-563 | the recovery term is the next after every term storage knows, with the vote in it free |
| `Recovery.Store.RecoverCluster` | recovery.go:496-586 | does exactly the first planned writes the storage lets through, reports only when all are done, and touches nothing when refused |

## Left out

- Read leases: they depend on clock rates.
- Membership and quorum-policy changes in commit safety: voters are fixed and some policy is shared by all nodes throughout; election safety and the durability results allow policies to change at any step.
- Witnesses, learners and zones in the runs: every node is a full voter there; `Counting` covers the loops that count witnesses and zones.
- Snapshots and compaction in the runs: the log class has them, and `Heartbeats` says what goes wrong with them.
- Pre-vote, leader stickiness, check-quorum and leadership transfer: they change no persistent state or only when an election starts, which the runs leave open.
- Timers, election timeouts and transports: any step may happen at any time, any message may be lost, delayed or repeated.
- Failed writes in the runs and in `Handlers`: a write lands or the node crashes; `DurabilityGate` and `StorageWriter` model failing writes.
- Snapshot capture, chunk streaming and install goroutines: only their effect on the log and the client table is modelled.
- Storage backends: a store is a map of entries with a hard state whose calls succeed or fail as a whole.
- HTTP handlers, easyraft, managers, discovery, metrics, tracing and watchers: plumbing around the core.
- The apply loop's one-by-one reads after a failed range read, and a batch state machine that fails a whole batch.
- Read progress: a late barrier answer can recreate the acknowledgement set with no round in flight, so only the safety of answers is stated.
- Non-normalised peer addresses, and the byte contents of a state machine's snapshot: both are opaque byte strings.
- Protocol: nextIndex and the conflict hint are not part of a state there, a leader may send any slice of its log; `Handlers` and `FastBackup` have them.
- NoticeCuts.CutsDoNotMatterIff: says nothing of state machines that answer two different successes alike, since their results need not show a second application.
- Handlers.NodeLoop.HandleAppendEntries: assumes that a request with a previous entry names a term of at least 1, which holds of uncompacted leaders; `Heartbeats` treats the other case.
- Handlers.NodeLoop.WriteSeqCovering: computed from the uncompleted writes where the code reads its segments; `LogBridge.CoveringAgrees` shows that both name the same write, on uncompacted logs.
- Handlers.NodeLoop.StableIndex: computed from the uncompleted writes; `LogBridge.StableAgrees` shows that the log class names the same index, on uncompacted logs.
- LogBridge: prefix truncations are not part of the protocol's queue, so the bridge speaks of queues without them.
- Handlers.NodeLoop.MaybeRecordCommit: an event of its own here, where the code calls it after every move of the commit index or of the disk.
- Handlers.NodeLoop.BecomeLeader: re-appending a pending finalise entry belongs to membership changes and is left out.
- BackupSteps.CheckPrev: for logs that were never compacted; on compacted logs `Heartbeats.PrevPasses` states the check without the hint.
- RaftLog.RaftLog.constructor: a stored snapshot ahead of the stored log is not admitted.
- Balance.Plan: hosts are scanned for a busiest and a least busy one where the code sorts, so any choice among equals is covered and the tie order is not stated.
- ClientTable.ClientLru.Put: the linked list is a sequence of element handles with a map from handles to records, so the pointers between its elements are not captured.
- ReadIndex.Reads.HandleReadIndex: each read is named once; forwarding a read to another node is not part of the model.
- WriterProtocol.NoLostWakeUp: the mutex and the wake channel are taken as atomic steps.
