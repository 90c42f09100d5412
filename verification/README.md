# A model of the Raft core, its log stores and its apply path

The repository is a replicated key-value store. This project models the part that makes the replicas one
store: the Raft node (`internal/raft`), the two log stores below it (`internal/storage`) and the server
that applies committed commands above it (`internal/server/kv_server.go`).

## How the model is built

**Nodes as values.** `Steps.dfy` holds one function for each critical section under the node's lock:
starting an election, answering and counting votes, becoming leader, proposing, taking a heartbeat round,
building a request, answering it, taking in the reply, collecting entries to apply, booting from storage.
For the two RPC handlers it also lists the storage calls they make, in order.

**The cluster.** `Clusters.dfy` is a transition system over any number of nodes whose steps are exactly
these functions, plus the loss of a message, a crash, and a crash after any number of the storage calls of a
handler. Messages remain in the network when they are received, so they may be delayed, reordered and
repeated without limit; a reply carries the request it answers. An election may start in every state,
Leader included, since the timer gives up the lock before the election begins
(internal/raft/election.go:25-28). A heartbeat round reads term and commit index first and the log only
later (internal/raft/replication.go:49-57), so the model keeps the rounds that have been started as separate
state. A run is any finite sequence of such steps from empty storage.

**The proof.** `Histories.dfy` adds a history that no decision looks at: each term's leader, electors and log,
every vote and the log the candidate stood on, every acknowledgement, and what each incarnation handed to
its state machine. The invariant is local: the history alone, one node against it, one message against it.
`HistoryProofs`, `ElectionProofs`, `ReplicationProofs` and `CrashProofs` show it for each kind of step, and
`Invariant.dfy` joins them. `HandlerSpecs.dfy` says what each step does to a reachable state in terms of votes,
leaders' logs and quorums, in both directions. `Safety.dfy`, `Hints.dfy`, `Durability.dfy`, `BackOff.dfy`,
`Progress.dfy` and `CommitKnowledge.dfy` draw the conclusions for whole runs. `KeyValue.dfy`, `Reads.dfy` and
`Acknowledgements.dfy` carry them up to the replicated map, its reads and its acknowledged writes.

**The objects.** `RaftNode.dfy`, `RaftLog.dfy`, `StoreSpec.dfy` (memory store), `BadgerLog.dfy` and
`KVServer.dfy` hold the classes the Go code updates in place, loops included. Each node method is specified
by the function of `Steps.dfy` that the cluster takes its steps with, and each handler by the list of its
storage calls too, so the theorems about runs are about these methods.

## What is assumed

- Node IDs are not empty, as the code demands (internal/raft/raft.go:120).
- Every node's peer list is exactly the other nodes, without duplicates. `parsePeers` does not enforce this
  (cmd/server/main.go:217-226).
- Storage calls do not fail, and each of them is atomic.
- Terms and log indices do not reach the limits of int64. Log keys are modelled with int64 wrap-around.
- A command is decoded by some fixed partial function of its bytes; every theorem holds for each one.

## Findings

- A follower clamps its commit index to its own last index and not to the last new entry, as Figure 2 of the
  extended Raft paper asks. It is safe here because a leader always sends its whole suffix, so that no
  request carries a commit index beyond its own entries (`Safety.FollowerCommitVerified`).
- The 12-byte log keys sort in numeric order if and only if both indices have the same sign
  (`LogKeys.KeyOrderIsNumeric`). For this reason the two stores part ways on ranges that start below zero and
  on cuts below -1. They also part ways on appends below the first index, which one store skips and the other
  keeps, and beyond the last one, where one store fills the gap. `StoresAgree.ReadBoth`, `CutBoth` and
  `AppendToBoth` say exactly when they agree; `NegativeStartDiffers` and `NegativeCutDiffers` are cases in
  which they do not.
- `Log.TruncateAfter` leaves a sound log if and only if its index is not negative
  (`CachedLog.RaftLog.TruncateAfter`); below zero it sets `lastIndex` below zero. The append handler never
  asks for that.
- The commit rule is looked at only when a peer has answered (internal/raft/replication.go:137), so a cluster
  of one elects itself and appends, but never commits. With two nodes or more every reachable state, after
  whatever losses and crashes, leaves any quorum a way to commit any command by itself
  (`Progress.CommitPossible`).
- A nil result from a write need not mean that the client's own command was applied. Request IDs start again
  at zero on every server and after every restart (internal/server/kv_server.go:320), while the log is applied
  again from its first entry, so a different command may carry the same ID
  (`Server.ForeignCommandAcknowledged`). `Acknowledgements.AcknowledgedByProposal` says exactly when the
  acknowledgement is the client's own.
- The documentation promises linearizable operations (README.md:9). The guard of Get does not give that: a
  leader that has not yet committed an entry of its own term passes it with an old map (`Reads.StaleRead`).
  `Reads.ReadIsCurrent` gives a condition under which no read misses anything, for all runs, and
  `Reads.QuorumConfirms` how a leader could establish the part of it that it cannot see by itself.

## Model

| member | source | states |
|---|---|---|
| Safety.StateMachineSafety | internal/raft/replication.go:173-244 | any two nodes at any two times of a run hold equal entries at every index that both know to be committed |
| Safety.ApplyStreamsAgree | internal/raft/replication.go:208-256 | all apply streams, of all nodes and all their incarnations, at any two times, are prefixes of one another |
| Safety.LeaderCompleteness | internal/raft/replication.go:181-198 | what a node knows to be committed in some term is in the log of whoever leads a later term, at any time |
| Safety.ElectionSafety | internal/raft/election.go:112-123 | two nodes that lead in the same term, at whatever times, are the same node |
| Safety.OneVotePerTerm | internal/raft/rpc_handlers.go:43-64 | a vote, once cast, is the only vote of that node in that term, across crashes |
| Safety.LogMatching | internal/raft/rpc_handlers.go:102-152 | equal terms at an index mean equal logs up to that index, for any two nodes at any two times |
| Safety.GaplessApply | internal/raft/replication.go:223-243 | every incarnation emits the indices 1, 2, 3, ... without skip or repeat, and never beyond its commit index or its log |
| Safety.CommittedOnQuorum | internal/raft/replication.go:173-199 | a quorum holds each committed prefix in durable logs at every later time, crashes included |
| Safety.HolderHolds | internal/raft/rpc_handlers.go:125-152 | a node that acknowledged a committed entry still holds it |
| Safety.MatchIndexSound | internal/raft/replication.go:126-134 | a peer in the leader's term holds as much of the leader's log as matchIndex says, and nextIndex is in 1..lastIndex+1 |
| Safety.FollowerCommitVerified | internal/raft/rpc_handlers.go:155-162 | every request in flight has its commit index inside what it carries; it is accepted exactly if the logs agree up to the probed index; the commit index becomes the larger of the two, inside the prefix then shared with that leader; no shared entry is removed |
| Safety.ProposalIdentified | internal/raft/replication.go:274-302 | an entry with the index and term that Propose returned, in any log at any time, is the proposed command |
| Safety.RunExtends | internal/raft/raft.go:119-197 | along a run no vote, leader, elector or acknowledgement is ever taken back and leader logs only grow |
| Invariant.InitOk | internal/raft/raft.go:119-168 | the invariant holds when every node boots from empty storage |
| Invariant.StepOk | internal/raft/rpc_handlers.go:18-167 | every step, crashes inside handlers included, keeps the whole invariant and only adds to the history |
| Invariant.RunOk | internal/raft/raft.go:119-197 | the invariant holds in every state of every run |
| Durability.CommittedNeverLost | internal/raft/rpc_handlers.go:86-152 | a prefix that a node once knew to be committed is in that node's log at every later time |
| Durability.StepKeepsCommitted | internal/raft/rpc_handlers.go:125-152 | no single step takes a committed prefix out of a log |
| Durability.StepChangesLog | internal/raft/log.go:212-236 | a step lets a log grow or moves it along a merge with the leader of its new term, and never lowers the term |
| Durability.BooksGrow | internal/raft/replication.go:117-137 | within an incarnation commitIndex, lastApplied and the stream only grow; within a term a leader's matchIndex only grows |
| BackOffProofs.RejectionMovesBack | internal/raft/replication.go:138-168 | a rejection of the probe at nextIndex k, however late, sets nextIndex into 1..k-1 on all branches |
| BackOffProofs.ExchangeOutcome | internal/raft/replication.go:61-169 | every exchange of round, request, answer and taking in of that answer: if accepted, the follower holds the leader's whole log and at least the round's commit index, the leader knows it and has committed what a quorum holds; if rejected, nextIndex moves strictly back, but not back over anything the two logs share |
| BackOffProofs.ProbingEnds | internal/raft/replication.go:138-168 | of any exchanges one after the other starting at nextIndex k, at most k-1 are rejected before the first accepted one, which leaves the follower with the leader's log |
| BackOffProofs.RejectionsBounded | internal/raft/replication.go:114-168 | the same bound in the midst of arbitrary other steps of all nodes, as long as the leader leads, probes one at a time and has not been accepted |
| BackOffProofs.AcceptedIsHeld | internal/raft/replication.go:126-134 | in the midst of other steps, an accepted answer means that the follower, while in that term, holds the leader's log up to the request's last entry |
| BackOffProofs.ProbingConverges | internal/raft/replication.go:138-168 | from every such state the exchanges can be carried to the first accepted one |
| BackOffProofs.FollowerCatchesUp | internal/raft/replication.go:61-169 | every run with a leader and a follower not ahead of it goes on, by at most k exchanges, to the follower holding the leader's log |
| Progress.CommitPossible | internal/raft/replication.go:126-137 | from every state of every run, for every quorum and every command: by steps of the quorum's nodes alone one of them is elected, the command is committed, and all of them know it and have handed it to their state machines, if and only if the cluster has at least two nodes |
| Progress.ElectSomeone | internal/raft/election.go:50-172 | from every state satisfying the invariant any quorum can elect one of its nodes by steps of its own |
| Progress.BestNode | internal/raft/raft.go:398-408 | in every non-empty set of nodes one log is at least as up to date as all of them |
| Progress.Elect | internal/raft/election.go:151-172 | a candidate wins when those with votes counted and those in the set it waits for, none of them ahead in term, vote or log, are a majority |
| Progress.CatchUp | internal/raft/replication.go:61-169 | a leader can bring any of its peers up to date one after the other without undoing what it knows of the others |
| Progress.AllCommitted | internal/raft/replication.go:173-199 | a leader whose peers in some quorum are up to date has committed its whole log after the last answer |
| Progress.Tell | internal/raft/rpc_handlers.go:155-162 | one more round lets every one of them know all of it to be committed |
| Progress.Serve | internal/raft/replication.go:208-257 | and their state machines can then receive the whole log, entry by entry |
| Progress.AloneForEver | internal/raft/replication.go:126-137 | with fewer than two nodes no message is ever sent and commitIndex stays 0 in every run |
| HandlerSpecs.VotesGranted | internal/raft/rpc_handlers.go:18-67 | every vote request received in a run is granted if and only if its term is not behind, the node has voted for nobody else in it, and the log the candidate stood on is at least as up to date; the answer's term, and the node's new term, vote and role |
| HandlerSpecs.BallotsCounted | internal/raft/election.go:151-172 | every vote answer taken in during a run: ignored unless awaited, a later term ends the candidacy, a grant counts once, and the candidate leads if and only if its votes are more than half |
| HandlerSpecs.WaitIsCounted | internal/raft/election.go:112-123 | the last test of an election: leader if and only if a candidate with more than half of the votes, with the no-op appended and fresh books for every peer |
| HandlerSpecs.ElectionStarts | internal/raft/election.go:50-96 | the next term, a vote for itself on record, exactly one request to each other member, describing the log stood on |
| HandlerSpecs.RequestBuilt | internal/raft/replication.go:68-97 | a request is built by a leader of the round's term only, and carries its log from nextIndex to the end, the term before it and the round's commit index |
| HandlerSpecs.RoundAdds | internal/raft/replication.go:42-58 | a round adds the leader's term and present commit index, and nothing for others |
| HandlerSpecs.RequestsAnswered | internal/raft/rpc_handlers.go:71-167 | every append request received in a run: when it is accepted, the new log, commit index, term, role, vote and leader, the match index and the exact conflict hints |
| HandlerSpecs.AnswersTakenIn | internal/raft/replication.go:114-168 | every append answer taken in during a run: when it is ignored, when it ends the rule, the exact nextIndex and matchIndex, and the largest current-term index held by a quorum as commit index |
| HandlerSpecs.CommitIsLargest | internal/raft/replication.go:173-199 | checkCommit moves if and only if some quorum with the leader in it holds a current-term index above the commit index, and then to the largest such index |
| HandlerSpecs.BackOffIs | internal/raft/replication.go:138-168 | the next probe goes right behind the leader's last entry of the conflicting term, or to the hinted index, or one back |
| HandlerSpecs.CollectedIsCommitted | internal/raft/replication.go:223-243 | after collecting, exactly the committed part of the log has been emitted, in order |
| HandlerSpecs.DeliversNext | internal/raft/replication.go:251-257 | a delivery hands over the next emitted message, if there is one |
| HandlerSpecs.BootForgets | internal/raft/raft.go:135-197 | a boot keeps term, vote and log and forgets everything else |
| HandlerSpecs.VoteWritesAre | internal/raft/rpc_handlers.go:33-64 | the vote handler's storage calls: the later term first, then the vote |
| HandlerSpecs.MergeWritesAre | internal/raft/rpc_handlers.go:126-152 | the append loop's storage calls: one truncation where the logs part, unless the log ends there, then single appends; none if nothing is new |
| Hints.ProposalAnswered | internal/raft/replication.go:274-302 | at any time of a run a leader appends at the next index and returns it with its term; any other node changes nothing and names a node that has led a term up to its own, or nobody |
| Hints.RunHinted | internal/raft/rpc_handlers.go:92-96 | in every run a node's leaderId is a node that has led a term up to its own, or empty |
| HistoryProofs.QuorumsMeet | internal/raft/raft.go:312-316 | any two quorums of a cluster of any size share a node |
| HistoryProofs.QuorumSizeIsMajority | internal/raft/raft.go:312-316 | the quorum computed from the peer list is more than half of the cluster |
| HistoryProofs.UpToDateKept | internal/raft/raft.go:398-408 | a voter that holds an acknowledged entry votes only for a log that holds it, or that a later term overruled |
| HistoryProofs.LaterLeadersHold | internal/raft/replication.go:181-198 | what a quorum acknowledged in its own term is in every later leader's log |
| HistoryProofs.TermsAscend | internal/raft/replication.go:285-291 | terms never decrease along a log |
| ElectionProofs.ElectionMoves | internal/raft/election.go:50-78 | starting an election in any role keeps the invariant, and its requests describe the log stood on |
| ElectionProofs.VoteMoves | internal/raft/rpc_handlers.go:18-67 | answering a vote request keeps the invariant |
| ElectionProofs.GrantKept | internal/raft/rpc_handlers.go:43-64 | all that a voter had acknowledged is kept by the log it votes for |
| ElectionProofs.VoteAnswerMoves | internal/raft/election.go:151-172 | counting a reply keeps the invariant, whichever election it came from |
| ElectionProofs.WinIsFirst | internal/raft/election.go:112-123 | a candidate that counts a quorum has a quorum of recorded voters, and nobody has led its term before |
| ElectionProofs.WonMoves | internal/raft/election.go:177-218 | becoming leader keeps the invariant |
| ReplicationProofs.ProposalMoves | internal/raft/replication.go:274-302 | appending a proposal keeps the invariant |
| ReplicationProofs.SendOk | internal/raft/replication.go:68-97 | a request built from an earlier heartbeat round is a true excerpt of the leader's log up to its end, with a commit index inside it |
| ReplicationProofs.AppendMoves | internal/raft/rpc_handlers.go:71-167 | answering an append request keeps the invariant |
| ReplicationProofs.AcceptCommit | internal/raft/rpc_handlers.go:155-162 | the clamped commit index is backed by a committed prefix and equals the leader's when it moves |
| ReplicationProofs.RejectionOk | internal/raft/rpc_handlers.go:102-122 | the hints of a rejection point strictly before the probe, in the leader's log too |
| ReplicationProofs.AppendAnswerMoves | internal/raft/replication.go:114-168 | taking in any reply, stale or repeated, keeps the invariant |
| ReplicationProofs.BackedOffOk | internal/raft/replication.go:138-168 | the new nextIndex is at least 1 and at most the rejected prevLogIndex |
| ReplicationProofs.CountIsSize | internal/raft/replication.go:187-192 | the counting loop counts distinct peers |
| ReplicationProofs.CommittableCommitted | internal/raft/replication.go:179-198 | whatever checkCommit commits was acknowledged by a quorum in the current term |
| ReplicationProofs.CollectsAll | internal/raft/replication.go:223-243 | under the invariant the collecting loop never meets a missing entry and stops at the commit index |
| CrashProofs.CrashMoves | internal/raft/raft.go:171-197 | a crash and a boot from storage keep the invariant |
| CrashProofs.VoteHaltedDurable | internal/raft/rpc_handlers.go:33-64 | what storage holds when the vote handler stops after some of its writes |
| CrashProofs.CrashInVoteMoves | internal/raft/rpc_handlers.go:33-64 | stopping the vote handler after any of its writes and booting again keeps the invariant |
| CrashProofs.CrashInAppendMoves | internal/raft/rpc_handlers.go:86-152 | stopping the append handler after any of its writes and booting again keeps the invariant |
| LogSpec.MergeSpec | internal/raft/rpc_handlers.go:126-152 | the loop leaves the log unchanged if it holds the entries and makes it the leader's prefix otherwise; no gap |
| LogSpec.PartialMerge | internal/raft/rpc_handlers.go:126-152 | after any number of its storage calls the log is unchanged or a leader prefix no shorter than what was shared |
| LogSpec.MergeKeepsShared | internal/raft/rpc_handlers.go:126-152 | every such log keeps all that was shared with the leader |
| LogSpec.MergeWritesRefine | internal/raft/rpc_handlers.go:126-152 | the loop's storage calls, replayed, give the merged log and touch neither term nor vote |
| LogSpec.FirstIndexOfTermIsFirst | internal/raft/log.go:277-287 | the conflict hint is the first index of that term |
| LogSpec.FirstIndexOfTermAbsent | internal/raft/log.go:277-287 | and 1 if the log has none |
| LogSpec.LastIndexOfTermIsLast | internal/raft/replication.go:143-149 | the backward scan finds the last index of that term, or none |
| Steps.CommitTargetIsLargest | internal/raft/replication.go:173-199 | checkCommit moves to the largest current-term index held by a quorum, and stays when there is none |
| Steps.VoteWritesRefine | internal/raft/rpc_handlers.go:33-64 | the vote handler's storage calls, replayed, give its durable result |
| Steps.AppendWritesRefine | internal/raft/rpc_handlers.go:86-152 | the append handler's storage calls, replayed, give its durable result |
| KeyValue.ReplayConverges | internal/server/kv_server.go:181-201 | replaying from the start onto a map left by any earlier incarnations gives the map obtained from empty, once caught up |
| KeyValue.LastWriteWins | internal/server/kv_server.go:181-201 | after any stream a key holds its last put, is absent after a last delete, and is as before when neither occurs |
| KeyValue.CommandEffect | internal/server/kv_server.go:181-201 | puts and deletes change their key and nothing else; no error if and only if the kind is known |
| KeyValue.FoldAllIsFold | internal/raft/raft.go:135-197 | the durable map over several incarnations is the fold of every message ever received |
| KeyValue.FoldForgets | internal/server/kv_server.go:181-201 | maps that differ only in keys a stream touches are made equal by it |
| KeyValue.RecoveredStore | internal/raft/raft.go:135-197 | in a run, a recovered replica's durable map depends only on what it received since its last boot |
| KeyValue.ReplicasConverge | internal/raft/replication.go:231-242 | recovered replicas that received equally many messages hold equal maps, at any two times |
| Nodes.RaftNode.constructor | internal/raft/raft.go:119-197 | a node boots over any storage with its term, vote and log and with volatile state cleared; it is sound if and only if the stored last index is the number of stored entries |
| Nodes.RaftNode.StepDownTo | internal/raft/raft.go:347-368 | adopts the term, clears the vote and saves both |
| Nodes.RaftNode.IsLogUpToDate | internal/raft/raft.go:398-408 | compares last terms first, then last indices, through the cache |
| Nodes.RaftNode.BeginElection | internal/raft/election.go:50-78 | the cluster's election step, with the vote saved before anyone is asked |
| Nodes.RaftNode.OnRequestVote | internal/raft/rpc_handlers.go:18-67 | the cluster's vote step, and exactly the storage calls of VoteWrites |
| Nodes.RaftNode.OnVote | internal/raft/election.go:151-172 | the cluster's vote-reply step |
| Nodes.RaftNode.ElectIfWon | internal/raft/election.go:112-123 | the cluster's test for a won election |
| Nodes.RaftNode.Lead | internal/raft/election.go:177-218 | nothing unless a candidate; else both books set for every peer by a loop, then the no-op appended |
| Nodes.RaftNode.BeginRound | internal/raft/replication.go:42-58 | the cluster's heartbeat step: term and commit index read together, by a leader only |
| Nodes.RaftNode.ProposeCommand | internal/raft/replication.go:274-302 | the cluster's proposal step, with the error for a node that does not lead |
| Nodes.RaftNode.MakeAppend | internal/raft/replication.go:61-97 | the request that the cluster sends, and no change to the node |
| Nodes.RaftNode.OnAppendEntries | internal/raft/rpc_handlers.go:71-167 | the cluster's append step, and exactly the storage calls of AppendWrites |
| Nodes.RaftNode.CheckPrev | internal/raft/rpc_handlers.go:102-122 | the consistency check and the hints of a rejection |
| Nodes.RaftNode.MergeEntries | internal/raft/rpc_handlers.go:126-152 | the truncate and append loop is the merge, with its storage calls in order |
| Nodes.RaftNode.OnAppendResult | internal/raft/replication.go:114-168 | the cluster's append-reply step |
| Nodes.RaftNode.FindLastIndexOfTerm | internal/raft/replication.go:143-149 | the backward scan is LastIndexOfTerm |
| Nodes.RaftNode.AdvanceCommit | internal/raft/replication.go:173-199 | the loop without early exit ends at the largest committable index |
| Nodes.RaftNode.CountReplicas | internal/raft/replication.go:187-192 | the inner loop counts the peers at or beyond the index |
| Nodes.RaftNode.CollectCommitted | internal/raft/replication.go:223-243 | the cluster's collecting step, with lastApplied moved before the entry is read |
| Nodes.RaftNode.SendNext | internal/raft/replication.go:251-257 | the cluster's delivery step: the collected messages go out in order |
| CachedLog.RaftLog.constructor | internal/raft/log.go:25-39 | over any storage, lastIndex is what storage reports; the log is sound if and only if that is the number of entries and they start at index 1 |
| CachedLog.RaftLog.CacheEntry | internal/raft/log.go:113-137 | the cache never exceeds its size; it is the old one with the entry, or, if that is too much, exactly its indices from the smallest plus half the size on |
| CachedLog.RaftLog.GetEntry | internal/raft/log.go:81-109 | answers as the stored sequence does; a miss is cached and nothing else changes |
| CachedLog.RaftLog.GetTerm | internal/raft/log.go:65-78 | the term in the stored sequence, zero where there is none |
| CachedLog.RaftLog.LastTerm | internal/raft/log.go:49-62 | the last term in the stored sequence |
| CachedLog.RaftLog.GetEntries | internal/raft/log.go:140-159 | the range of the stored sequence |
| CachedLog.RaftLog.Append | internal/raft/log.go:163-181 | the sequence with the entry put at its index, by one storage call, whatever the index |
| CachedLog.RaftLog.TruncateAfter | internal/raft/log.go:212-236 | the sequence cut after the index; the log is left sound if and only if the index is not negative |
| CachedLog.RaftLog.FindFirstIndexOfTerm | internal/raft/log.go:277-287 | the scan is FirstIndexOfTerm |
| StoreSpec.AppendsReplay | internal/storage/memory.go:125-168 | one batch append does what that many single appends do |
| StoreSpec.StoreIsLog | internal/storage/memory.go:125-286 | with first index 1 the offset slice is the plain log under append, read, range and cut |
| StoreSpec.AppendReads | internal/storage/memory.go:125-168 | after an append every index reads as before, but for the entry's own and the blanks that fill a gap |
| StoreSpec.TruncationReads | internal/storage/memory.go:266-316 | after a truncation exactly the indices on one side read as before, and the others read nothing |
| StoreSpec.RangeReads | internal/storage/memory.go:200-242 | a range read returns exactly the entries at its indices, in order |
| Memory.MemoryStorage.SaveRaftState | internal/storage/memory.go:90-103 | term and vote are replaced together; the log stays |
| Memory.MemoryStorage.AppendLogEntries | internal/storage/memory.go:125-168 | entry by entry: skip, overwrite, append or fill the gap |
| Memory.MemoryStorage.GetLogEntry | internal/storage/memory.go:171-197 | the entry at the index, none outside the stored range |
| Memory.MemoryStorage.GetLogEntries | internal/storage/memory.go:200-242 | the stored entries in [start, end), clamped at both ends |
| Memory.MemoryStorage.GetLastLogIndexAndTerm | internal/storage/memory.go:245-263 | index and term of the last entry; without entries those of the snapshot, if there is one |
| Memory.MemoryStorage.SaveSnapshot | internal/storage/memory.go:319-334 | the snapshot's index and term; the log stays |
| Memory.MemoryStorage.TruncateLogAfter | internal/storage/memory.go:266-286 | keeps exactly the entries up to the index |
| Memory.MemoryStorage.TruncateLogBefore | internal/storage/memory.go:289-316 | keeps exactly the entries from the index on and moves the first index |
| LogKeys.ParseInvertsMake | internal/storage/badger.go:80-90 | parsing inverts making for every int64, and keys have 12 bytes |
| LogKeys.MakeInvertsParse | internal/storage/badger.go:80-90 | making inverts parsing for every 12-byte key with the prefix |
| LogKeys.KeyOrder | internal/storage/badger.go:80-85 | byte order of keys is the order of the indices as uint64 |
| LogKeys.KeyOrderIsNumeric | internal/storage/badger.go:80-85 | it is numeric order if and only if the indices have the same sign |
| LogKeys.PrefixConvex | internal/storage/badger.go:275-294 | whatever sorts between two log keys has the log prefix, so a scan may stop at the first key without it |
| BadgerLog.BadgerStorage.AppendLogEntries | internal/storage/badger.go:199-223 | later entries replace earlier ones at the same index, for every int64 index |
| BadgerLog.BadgerStorage.GetLogEntry | internal/storage/badger.go:226-253 | the entry stored at the index, or none, for every int64 |
| BadgerLog.BadgerStorage.GetLogEntries | internal/storage/badger.go:256-302 | whatever is stored and for every int64 range: the entries in key order from the start key up to the first whose index is not below the end |
| BadgerLog.ScanOfIndices | internal/storage/badger.go:275-294 | with non-negative indices stored, the scan gives exactly [start, end) in ascending order, and nothing for a negative start |
| BadgerLog.BadgerStorage.GetLastLogEntry | internal/storage/badger.go:313-346 | the reverse seek finds the last key of the log |
| BadgerLog.BadgerStorage.GetLastLogIndexAndTerm | internal/storage/badger.go:305-369 | index and term of that entry; without entries those of the snapshot, or zeros |
| BadgerLog.BadgerStorage.SaveSnapshot | internal/storage/badger.go:448-468 | the snapshot's index and term; the log stays |
| BadgerLog.BadgerStorage.TruncateLogAfter | internal/storage/badger.go:372-402 | deletes exactly the keys after that of the index, with int64 wrap-around |
| BadgerLog.BadgerStorage.TruncateLogBefore | internal/storage/badger.go:405-439 | deletes from the first key on until the first index not below the given one, whatever is stored |
| BadgerLog.CutsOfIndices | internal/storage/badger.go:386-436 | with non-negative indices stored, the truncations keep exactly the indices from, or up to, the given one; a cut below -1 deletes nothing |
| StoresAgree.OpRefines | internal/storage/memory.go:125-316 | each allowed operation on the slice, batches included, is that operation on the map from index to entry, and leaves no gap |
| StoresAgree.RangeRefines | internal/storage/memory.go:200-242 | a range of the slice is the range of the map for every start and end |
| StoresAgree.LastRefines | internal/storage/memory.go:245-263 | the last entry of the slice has the largest index of the map |
| StoresAgree.RunBoth | internal/storage/badger.go:199-439 | both stores hold the same log and snapshot after any allowed sequence of batch appends, cuts at either end and snapshots |
| StoresAgree.ReadBoth | internal/storage/badger.go:226-369 | and then give the same entry at every int64 index, the same last index and term, and the same range if and only if it does not start below zero or has nothing in it |
| StoresAgree.AppendToBoth | internal/storage/memory.go:125-168 | after appending an entry at any int64 index to both stores they hold the same log if and only if it lands between the first index and the one after the last |
| StoresAgree.CutBoth | internal/storage/badger.go:372-402 | after cutting both stores at any int64 index they hold the same log if and only if the index is at least -1 or the log was empty |
| StoresAgree.NegativeStartDiffers | internal/storage/badger.go:275-294 | two stores with one entry at index 1, read from -1: one returns it and the other does not |
| StoresAgree.NegativeCutDiffers | internal/storage/badger.go:386-399 | the same two stores, cut after -2: one still has the entry |
| Server.KVServer.Register | internal/server/kv_server.go:315-334 | a fresh request ID, with its empty channel in the table before anything is proposed |
| Server.KVServer.HandleApplyMsg | internal/server/kv_server.go:139-178 | a snapshot or a message without command changes nothing; else the data moves by the message, and the channel of a pending request leaves the table for good and gets this apply's result |
| Server.KVServer.DoCommand | internal/server/kv_server.go:181-201 | put, delete, no-op and the unknown kind, with a nil error for exactly the first three |
| Server.KVServer.Get | internal/server/kv_server.go:223-279 | refused if and only if a linearizable read finds the node not leading or not caught up; otherwise the stored value, or missing |
| Server.KVServer.ApplyAll | internal/server/kv_server.go:119-136 | the apply loop's data is the fold of the command messages in order |
| Server.KVServer.Receive | internal/server/kv_server.go:365-390 | a nil result means that the first message since the registration that carries this request ID was applied without error; and unless the request was given up, that message's result, nil for every known kind, is what the client gets |
| Server.ForeignCommandAcknowledged | internal/server/kv_server.go:315-334 | a server that gets a nil result although its own command was never applied: a different command with the same request ID was |
| Acknowledgements.AcknowledgedByProposal | internal/server/kv_server.go:139-178 | in every run, the message that acknowledges a request is the proposed entry if and only if that entry was received at the index and term Propose returned and no message before it, since the registration, carries the request ID |
| Acknowledgements.ReceivedIsProposal | internal/raft/replication.go:274-302 | a received message with the index and term that Propose returned is the proposed command |
| Acknowledgements.Acknowledge | internal/server/kv_server.go:365-390 | if no other entry of the log carries the request ID, a nil result means that the very entry that was proposed was applied after the registration; and once it is applied, a client that has not given up gets nil for a known kind and the error otherwise |
| Reads.ReadIsCurrent | internal/server/kv_server.go:223-279 | in every run: if a leader with a committed entry of its own term, and no later leader, receives all it knew to be committed, every message that any replica had received when the read began is among those its reads answer from: a key's last put, or missing |
| Reads.ReadsAnswerLastWrite | internal/server/kv_server.go:223-279 | every read at every replica: refused exactly if linearizable and not leading, or behind; otherwise the last put among all messages ever received, or missing |
| Reads.ConfirmedKnowsAll | internal/server/kv_server.go:238-245 | such a leader's commit index is at least the length of every stream received anywhere so far |
| Reads.QuorumConfirms | internal/server/kv_server.go:212-222 | as long as a quorum has seen no later term, no later term has a leader |
| Reads.StaleRead | internal/server/kv_server.go:223-279 | a run of two nodes in which the guard lets a new leader answer that a key is missing although the other node has committed and applied a put to it, and reads it |
| CommitKnowledge.RunInformed | internal/raft/replication.go:173-199 | while no later term has a leader, nobody knows an entry of the leader's own term to be committed before the leader does |
| CommitKnowledge.LedSince | internal/raft/election.go:112-123 | whoever leads a term led it ever since it had a leader, and its commit index only rose |
| Server.KVServer.Cancel | internal/server/kv_server.go:338-384 | giving up takes the request out of the table and touches nothing else |
| Server.KVServer.Stop | internal/server/kv_server.go:99-117 | every pending channel gets the error, no other channel changes, and the table is empty |

## Left out

- Snapshots in the cluster: HandleInstallSnapshot, Log.TruncateBefore and snapshot recovery; nothing in internal/raft sends InstallSnapshot, and applySnapshot is empty. The stores keep a snapshot's index and term, not its data.
- Reads.ReadIsCurrent: one direction only; a read may also be current by chance, when nothing was committed that it could miss.
- The waiting loop and the timeout of Get: a read is seen at the moment it is let through.
- Liveness and time: timers, channels, goroutine shutdown; Progress and BackOffProofs.FollowerCatchesUp show that a continuation exists, not that the scheduler takes it.
- Failing storage calls: the error branches of every file, and what a node does after them.
- Data races on the cache map under the read lock; each call on the log is taken as atomic.
- Encodings and plumbing: JSON, protobuf, gRPC, HTTP, WebSocket, metrics, configuration, web dashboard.
- BadgerDB itself: the database is a map with an iterator in byte order; transactions are atomic.
- The key-value halves of both stores are the map of module KeyValue.
- Log.HasEntry and Log.AppendEntries, which no modelled code calls.
