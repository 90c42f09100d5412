/** internal/raft: one node, as the object the Go code updates in place. Each method is one critical
    section under the node's lock and is specified by the function of module Steps that the cluster model
    takes its steps with; the handlers also say which storage calls they make, in which order. */
module Nodes {
  import opened Types
  import opened LogSpec
  import opened Steps
  import opened Memory
  import opened CachedLog

  class RaftNode {
    const id: Id
    const peers: seq<Id>
    const storage: MemoryStorage
    const log: RaftLog

    var currentTerm: int
    var votedFor: Id
    var commitIndex: int
    var lastApplied: int
    var nextIndex: map<Id, int>
    var matchIndex: map<Id, int>
    var role: Role
    var leaderId: Id

    // state of the goroutines that work for the node
    var votesReceived: int
    var awaiting: set<Id>
    var heartbeats: set<Heartbeat>
    var emitted: seq<ApplyMsg>
    var delivered: nat

    /** Memory and storage agree whenever the lock is free. */
    ghost predicate Valid()
      reads this, log, storage
    {
      && log.storage == storage
      && log.Valid()
      && storage.currentTerm == currentTerm
      && storage.votedFor == votedFor
    }

    /** The node as a value. */
    ghost function Value(): Node
      reads this, storage
    {
      Node(id, peers, currentTerm, votedFor, storage.logEntries, commitIndex, lastApplied, nextIndex, matchIndex,
           role, leaderId, votesReceived, awaiting, heartbeats, emitted, delivered)
    }

    /** NewRaftNode with restoreState: boots from whatever storage holds, and is sound exactly over a storage
        whose last index tells how many entries there are. */
    constructor (myId: Id, others: seq<Id>, s: MemoryStorage)
      ensures storage == s && fresh(log)
      ensures Valid() <==> Restorable(s)
      ensures Value() == Boot(myId, others, s.Persisted())
    {
      id, peers, storage := myId, others, s;
      currentTerm, votedFor := s.currentTerm, s.votedFor;
      commitIndex, lastApplied := 0, 0;
      nextIndex, matchIndex := map[], map[];
      role, leaderId := Follower, "";
      votesReceived, awaiting, heartbeats, emitted, delivered := 0, {}, {}, [], 0;
      log := new RaftLog(s);
    }

    method PersistState()
      requires log.storage == storage && log.Valid()
      modifies storage`currentTerm, storage`votedFor, storage`journal
      ensures Valid()
      ensures storage.journal == old(storage.journal) + [SaveState(currentTerm, votedFor)]
    {
      storage.SaveRaftState(currentTerm, votedFor);
    }

    method StepDownTo(newTerm: int)
      requires Valid()
      modifies this`currentTerm, this`votedFor, this`role
      modifies storage`currentTerm, storage`votedFor, storage`journal
      ensures Valid()
      ensures Value() == StepDown(old(Value()), newTerm)
      ensures storage.journal == old(storage.journal) + [SaveState(newTerm, "")]
    {
      currentTerm := newTerm;
      votedFor := "";
      role := Follower;
      PersistState();
    }

    method IsLogUpToDate(lastLogIndex: int, lastLogTerm: int) returns (ok: bool)
      requires Valid()
      modifies log`cache
      ensures Valid()
      ensures ok == UpToDate(storage.logEntries, lastLogIndex, lastLogTerm)
    {
      var myLastIndex := log.lastIndex;
      var myLastTerm := log.LastTerm();
      if lastLogTerm != myLastTerm {
        return lastLogTerm > myLastTerm;
      }
      return lastLogIndex >= myLastIndex;
    }

    // ------------------------------------------------------------- elections

    method BeginElection() returns (call: VoteArgs)
      requires Valid()
      modifies this`role, this`currentTerm, this`votedFor, this`votesReceived, this`awaiting
      modifies log`cache, storage`currentTerm, storage`votedFor, storage`journal
      ensures Valid()
      ensures Value() == StartElection(old(Value())) && call == VoteCall(Value())
      ensures storage.journal == old(storage.journal) + [SaveState(currentTerm, id)]
    {
      BecomeCandidate();
      call := AskForVote();
    }

    method BecomeCandidate()
      requires Valid()
      modifies this`role, this`currentTerm, this`votedFor, this`votesReceived, this`awaiting
      modifies storage`currentTerm, storage`votedFor, storage`journal
      ensures Valid()
      ensures Value() == StartElection(old(Value()))
      ensures storage.journal == old(storage.journal) + [SaveState(currentTerm, id)]
    {
      StandForElection();
      PersistState();
    }

    /** The part of it in memory, before the vote is saved. */
    method StandForElection()
      modifies this`role, this`currentTerm, this`votedFor, this`votesReceived, this`awaiting
      ensures Value() == StartElection(old(Value()))
    {
      role := Candidate;
      currentTerm := currentTerm + 1;
      votedFor := id;
      votesReceived := 1;
      awaiting := ElementsOf(peers);
    }

    /** The request every peer gets. */
    method AskForVote() returns (call: VoteArgs)
      requires Valid()
      modifies log`cache
      ensures Valid()
      ensures call == VoteCall(Value())
    {
      var lastLogTerm := log.LastTerm();
      call := VoteArgs(currentTerm, id, log.lastIndex, lastLogTerm);
    }

    method OnRequestVote(req: VoteArgs) returns (resp: VoteResult)
      requires Valid()
      modifies this`role, this`currentTerm, this`votedFor
      modifies log`cache, storage`currentTerm, storage`votedFor, storage`journal
      ensures Valid()
      ensures (Value(), resp) == HandleRequestVote(old(Value()), req)
      ensures storage.journal == old(storage.journal) + VoteWrites(old(Value()), req)
    {
      resp := VoteResult(currentTerm, false);
      if req.term < currentTerm {
        return;
      }
      if req.term > currentTerm {
        StepDownTo(req.term);
      }
      resp := VoteResult(currentTerm, false);
      var canVote := votedFor == "" || votedFor == req.candidateId;
      var logUpToDate := IsLogUpToDate(req.lastLogIndex, req.lastLogTerm);
      if canVote && logUpToDate {
        votedFor := req.candidateId;
        PersistState();
        resp := VoteResult(currentTerm, true);
      }
    }

    method OnVote(peer: Id, call: VoteArgs, resp: VoteResult)
      requires Valid()
      modifies this, log`lastIndex, log`cache
      modifies storage`currentTerm, storage`votedFor, storage`logEntries, storage`journal
      ensures Valid()
      ensures Value() == OnVoteReply(old(Value()), peer, call, resp)
    {
      if role != Candidate || currentTerm != call.term || peer !in awaiting {
        return;
      }
      awaiting := awaiting - {peer};
      if resp.term > currentTerm {
        StepDownTo(resp.term);
        return;
      }
      if resp.granted {
        votesReceived := votesReceived + 1;
        ElectIfWon();
      }
    }

    method ElectIfWon()
      requires Valid()
      modifies this`role, this`leaderId, this`nextIndex, this`matchIndex, log`lastIndex, log`cache
      modifies storage`logEntries, storage`journal
      ensures Valid()
      ensures Value() == CheckWon(old(Value()))
    {
      if role == Candidate && votesReceived >= (|peers| + 1) / 2 + 1 {
        Lead();
      }
    }

    /** becomeLeader, which does nothing unless the node is a candidate. */
    method Lead()
      requires Valid()
      modifies this`role, this`leaderId, this`nextIndex, this`matchIndex, log`lastIndex, log`cache
      modifies storage`logEntries, storage`journal
      ensures Valid()
      ensures Value() == if old(role) == Candidate then BecomeLeader(old(Value())) else old(Value())
    {
      if role != Candidate {
        return;
      }
      TakeOver();
    }

    method TakeOver()
      requires Valid()
      modifies this`role, this`leaderId, this`nextIndex, this`matchIndex, log`lastIndex, log`cache
      modifies storage`logEntries, storage`journal
      ensures Valid()
      ensures Value() == BecomeLeader(old(Value()))
    {
      ghost var n := Value();
      AssumeOffice(log.lastIndex);
      var noop := Entry(currentTerm, log.lastIndex + 1, []);
      AppendNext(noop);
      assert Value() == BecomeLeader(n);
    }

    /** The part of it in memory, before the no-op is appended. */
    method AssumeOffice(lastIndex: int)
      modifies this`role, this`leaderId, this`nextIndex, this`matchIndex
      ensures Value() == old(Value()).(
                role := Leader,
                leaderId := id,
                nextIndex := SetForAll(old(nextIndex), peers, lastIndex + 1),
                matchIndex := SetForAll(old(matchIndex), peers, 0))
    {
      role := Leader;
      leaderId := id;
      InitBooks(lastIndex);
    }

    /** The loop that sets nextIndex and matchIndex for every peer. */
    method InitBooks(lastIndex: int)
      modifies this`nextIndex, this`matchIndex
      ensures nextIndex == SetForAll(old(nextIndex), peers, lastIndex + 1)
      ensures matchIndex == SetForAll(old(matchIndex), peers, 0)
    {
      var k := 0;
      while k < |peers|
        invariant 0 <= k <= |peers|
        invariant nextIndex == SetForAll(old(nextIndex), peers[..k], lastIndex + 1)
        invariant matchIndex == SetForAll(old(matchIndex), peers[..k], 0)
      {
        SetOneMore(old(nextIndex), peers, k, lastIndex + 1);
        SetOneMore(old(matchIndex), peers, k, 0);
        nextIndex := nextIndex[peers[k] := lastIndex + 1];
        matchIndex := matchIndex[peers[k] := 0];
        k := k + 1;
      }
      assert peers[..k] == peers;
    }

    static lemma SetOneMore(m: map<Id, int>, ps: seq<Id>, k: nat, v: int)
      requires k < |ps|
      ensures SetForAll(m, ps[..k], v)[ps[k] := v] == SetForAll(m, ps[..k + 1], v)
    {
      assert ps[..k + 1] == ps[..k] + [ps[k]];
    }

    /** Appending the entry that comes next. */
    method AppendNext(e: Entry)
      requires Valid()
      requires e.index == |storage.logEntries| + 1
      modifies log`lastIndex, log`cache, storage`logEntries, storage`journal
      ensures Valid()
      ensures storage.logEntries == old(storage.logEntries) + [e]
      ensures storage.journal == old(storage.journal) + [AppendEntry(e)]
    {
      log.Append(e);
      assert old(storage.logEntries) + seq(0, _ => BLANK_ENTRY) + [e] == old(storage.logEntries) + [e];
    }

    // ----------------------------------------------------------- replication

    method ProposeCommand(command: Bytes) returns (result: ProposeResult)
      requires Valid()
      modifies log`lastIndex, log`cache, storage`logEntries, storage`journal
      ensures Valid()
      ensures (Value(), result) == Propose(old(Value()), command)
    {
      if role != Leader {
        return NotLeader(leaderId);
      }
      var entry := Entry(currentTerm, log.lastIndex + 1, command);
      AppendNext(entry);
      return Proposed(entry.index, entry.term);
    }

    /** The critical section of sendHeartbeats. */
    method BeginRound() returns (hb: Option<Heartbeat>)
      modifies this`heartbeats
      ensures Value() == TakeHeartbeat(old(Value()))
      ensures hb == if role == Leader then Some(Heartbeat(currentTerm, commitIndex)) else None
    {
      if role != Leader {
        return None;
      }
      hb := Some(Heartbeat(currentTerm, commitIndex));
      heartbeats := heartbeats + {hb.value};
    }

    method MakeAppend(peer: Id, hb: Heartbeat) returns (call: Option<AppendArgs>)
      requires Valid()
      modifies log`cache
      ensures Valid()
      ensures Value() == old(Value())
      ensures call == BuildAppend(Value(), peer, hb)
    {
      if role != Leader || currentTerm != hb.term {
        return None;
      }
      ghost var n := Value();
      var next := Lookup(nextIndex, peer);
      var prevLogTerm := log.GetTerm(next - 1);
      var entries := [];
      if next <= log.lastIndex {
        entries := log.GetEntries(next, log.lastIndex + 1);
      }
      assert entries == if next <= |n.log| then Range(n.log, next, |n.log| + 1) else [];
      assert Value() == n;
      return Some(AppendArgs(hb.term, id, next - 1, prevLogTerm, entries, hb.commit));
    }

    method OnAppendEntries(req: AppendArgs) returns (resp: AppendResult)
      requires Valid()
      modifies this`role, this`currentTerm, this`votedFor, this`leaderId, this`commitIndex
      modifies log`lastIndex, log`cache, storage`currentTerm, storage`votedFor, storage`logEntries, storage`journal
      ensures Valid()
      ensures (Value(), resp) == HandleAppendEntries(old(Value()), req)
      ensures storage.journal == old(storage.journal) + AppendWrites(old(Value()), req)
    {
      hide Indexed, CacheAgrees, Merge, MergeWrites, Rejection, PrevMatches, ClampedCommit, FollowSender, HandleAppendEntries, AppendWrites;
      resp := AppendResult(currentTerm, false, 0, 0, 0);
      if req.term < currentTerm {
        StaleRequest(Value(), req);
        return;
      }
      ghost var n := Value();
      HandledAs(n, req);
      Follow(req);
      resp := CheckAndMerge(req);
    }

    /** The handler on values, read in the order of the code. */
    static lemma HandledAs(n: Node, req: AppendArgs)
      requires req.term >= n.currentTerm
      ensures var m := FollowSender(n, req);
              && m.log == n.log && m.commitIndex == n.commitIndex && m.currentTerm == req.term
              && (!PrevMatches(n.log, req) ==>
                    && HandleAppendEntries(n, req) == (m, Rejection(m, req))
                    && AppendWrites(n, req) == (if req.term > n.currentTerm then [SaveState(req.term, "")] else []))
              && (PrevMatches(n.log, req) ==>
                    var x := Merge(n.log, req.entries);
                    && HandleAppendEntries(n, req) ==
                       (m.(log := x, commitIndex := ClampedCommit(n.commitIndex, req.leaderCommit, |x|)),
                        AppendResult(req.term, true, 0, 0, |x|))
                    && AppendWrites(n, req) ==
                       (if req.term > n.currentTerm then [SaveState(req.term, "")] else []) + MergeWrites(n.log, req.entries))
    {
      hide Merge, MergeWrites, Rejection, PrevMatches;
    }

    static lemma StaleRequest(n: Node, req: AppendArgs)
      requires req.term < n.currentTerm
      ensures HandleAppendEntries(n, req) == (n, AppendResult(n.currentTerm, false, 0, 0, 0)) && AppendWrites(n, req) == []
    {
    }

    /** The rest of the handler, once the sender is followed. */
    method CheckAndMerge(req: AppendArgs) returns (resp: AppendResult)
      requires Valid()
      modifies this`commitIndex, log`lastIndex, log`cache, storage`logEntries, storage`journal
      ensures Valid()
      ensures !PrevMatches(old(storage.logEntries), req) ==>
                Value() == old(Value()) && resp == Rejection(old(Value()), req) && storage.journal == old(storage.journal)
      ensures PrevMatches(old(storage.logEntries), req) ==>
                var x := Merge(old(storage.logEntries), req.entries);
                && Value() == old(Value()).(log := x, commitIndex := ClampedCommit(old(commitIndex), req.leaderCommit, |x|))
                && resp == AppendResult(currentTerm, true, 0, 0, |x|)
                && storage.journal == old(storage.journal) + MergeWrites(old(storage.logEntries), req.entries)
    {
      var conflict := CheckPrev(req);
      if conflict.Some? {
        return conflict.value;
      }
      MergeEntries(req.entries);
      CommitUpTo(req.leaderCommit);
      return AppendResult(currentTerm, true, 0, 0, log.lastIndex);
    }

    /** Adopting the sender's term and following it. */
    method Follow(req: AppendArgs)
      requires Valid()
      requires req.term >= currentTerm
      modifies this`role, this`currentTerm, this`votedFor, this`leaderId
      modifies storage`currentTerm, storage`votedFor, storage`journal
      ensures Valid()
      ensures Value() == FollowSender(old(Value()), req)
      ensures storage.journal == old(storage.journal) + if req.term > old(currentTerm) then [SaveState(req.term, "")] else []
    {
      if req.term > currentTerm {
        StepDownTo(req.term);
      }
      if role == Candidate {
        role := Follower;
      }
      leaderId := req.leaderId;
    }

    /** The consistency check, with the hints to send back when it fails. */
    method CheckPrev(req: AppendArgs) returns (conflict: Option<AppendResult>)
      requires Valid()
      modifies log`cache
      ensures Valid()
      ensures conflict == if PrevMatches(storage.logEntries, req) then None else Some(Rejection(Value(), req))
    {
      if req.prevLogIndex > 0 {
        if log.lastIndex < req.prevLogIndex {
          return Some(AppendResult(currentTerm, false, 0, log.lastIndex + 1, 0));
        }
        var prevEntry := log.GetEntry(req.prevLogIndex);
        if prevEntry.value.term != req.prevLogTerm {
          var conflictIndex := log.FindFirstIndexOfTerm(prevEntry.value.term);
          return Some(AppendResult(currentTerm, false, prevEntry.value.term, conflictIndex, 0));
        }
      }
      return None;
    }

    method CommitUpTo(leaderCommit: int)
      requires Valid()
      modifies this`commitIndex
      ensures Valid()
      ensures commitIndex == ClampedCommit(old(commitIndex), leaderCommit, |storage.logEntries|)
    {
      if leaderCommit > commitIndex {
        var newCommitIndex := leaderCommit;
        if log.lastIndex < newCommitIndex {
          newCommitIndex := log.lastIndex;
        }
        commitIndex := newCommitIndex;
      }
    }

    /** The loop that truncates and appends entry by entry. */
    method MergeEntries(entries: seq<Entry>)
      requires Valid()
      modifies log`lastIndex, log`cache, storage`logEntries, storage`journal
      ensures Valid()
      ensures storage.logEntries == Merge(old(storage.logEntries), entries)
      ensures storage.journal == old(storage.journal) + MergeWrites(old(storage.logEntries), entries)
    {
      hide Merge, MergeWrites, MergeOne, MergeOneWrites;
      var k := 0;
      MergeNone(storage.logEntries, entries);
      while k < |entries|
        invariant 0 <= k <= |entries|
        invariant Valid()
        invariant storage.logEntries == Merge(old(storage.logEntries), entries[..k])
        invariant storage.journal == old(storage.journal) + MergeWrites(old(storage.logEntries), entries[..k])
      {
        MergeNext(old(storage.logEntries), entries, k);
        MergeEntry(entries[k]);
        k := k + 1;
      }
      assert entries[..k] == entries;
    }

    method MergeEntry(entry: Entry)
      requires Valid()
      modifies log`lastIndex, log`cache, storage`logEntries, storage`journal
      ensures Valid()
      ensures storage.logEntries == MergeOne(old(storage.logEntries), entry)
      ensures storage.journal == old(storage.journal) + MergeOneWrites(old(storage.logEntries), entry)
    {
      var existing := log.GetEntry(entry.index);
      if existing.Some? && existing.value.term != entry.term {
        log.TruncateAfter(entry.index - 1);
      }
      if existing.None? || existing.value.term != entry.term {
        log.Append(entry);
      }
    }

    method OnAppendResult(peer: Id, call: AppendArgs, resp: AppendResult)
      requires Valid()
      modifies this`role, this`currentTerm, this`votedFor, this`nextIndex, this`matchIndex, this`commitIndex
      modifies log`cache, storage`currentTerm, storage`votedFor, storage`journal
      ensures Valid()
      ensures Value() == OnAppendReply(old(Value()), peer, call, resp)
    {
      if role != Leader || currentTerm != call.term {
        return;
      }
      if resp.term > currentTerm {
        StepDownTo(resp.term);
        return;
      }
      if resp.success {
        var newMatchIndex := call.prevLogIndex + |call.entries|;
        if newMatchIndex > Lookup(matchIndex, peer) {
          matchIndex := matchIndex[peer := newMatchIndex];
        }
        nextIndex := nextIndex[peer := newMatchIndex + 1];
        AdvanceCommit();
      } else if resp.conflictTerm > 0 {
        var foundIndex := FindLastIndexOfTerm(resp.conflictTerm);
        if foundIndex > 0 {
          nextIndex := nextIndex[peer := foundIndex + 1];
        } else {
          nextIndex := nextIndex[peer := resp.conflictIndex];
        }
      } else if resp.conflictIndex > 0 {
        nextIndex := nextIndex[peer := resp.conflictIndex];
      } else {
        nextIndex := nextIndex[peer := if Lookup(nextIndex, peer) > 1 then nextIndex[peer] - 1 else Lookup(nextIndex, peer)];
      }
    }

    /** The backward scan for a term. */
    method FindLastIndexOfTerm(term: int) returns (found: int)
      requires Valid()
      modifies log`cache
      ensures Valid()
      ensures found == LastIndexOfTerm(storage.logEntries, term, |storage.logEntries|)
    {
      var i := log.lastIndex;
      while i >= 1
        invariant 0 <= i <= log.lastIndex
        invariant Valid()
        invariant LastIndexOfTerm(storage.logEntries, term, i) == LastIndexOfTerm(storage.logEntries, term, |storage.logEntries|)
      {
        var t := log.GetTerm(i);
        if t == term {
          return i;
        }
        i := i - 1;
      }
      return 0;
    }

    /** checkCommit: one pass over all indices above the commit index, without early exit. */
    method AdvanceCommit()
      requires Valid()
      modifies this`commitIndex, log`cache
      ensures Valid()
      ensures Value() == CheckCommit(old(Value()))
    {
      if role != Leader {
        return;
      }
      ghost var n0 := Value();
      var n := commitIndex + 1;
      while n <= log.lastIndex
        invariant n0.commitIndex + 1 <= n
        invariant n <= log.lastIndex + 1 || n == n0.commitIndex + 1
        invariant Valid()
        invariant Value() == n0.(commitIndex := CommitTarget(n0, n - 1))
      {
        var t := log.GetTerm(n);
        if t == currentTerm {
          var others := CountReplicas(n);
          if 1 + others >= (|peers| + 1) / 2 + 1 {
            commitIndex := n;
          }
        }
        n := n + 1;
      }
      TargetCapped(n0, n - 1);
    }

    /** The inner loop that counts replicas. */
    method CountReplicas(index: int) returns (count: int)
      ensures count == CountMatching(peers, matchIndex, index)
    {
      count := 0;
      var k := 0;
      while k < |peers|
        invariant 0 <= k <= |peers|
        invariant count == CountMatching(peers[..k], matchIndex, index)
      {
        assert peers[..k + 1][..k] == peers[..k];
        if Lookup(matchIndex, peers[k]) >= index {
          count := count + 1;
        }
        k := k + 1;
      }
      assert peers[..k] == peers;
    }

    static lemma TargetCapped(n: Node, upto: int)
      requires upto == |n.log| || (upto == n.commitIndex && |n.log| <= upto)
      ensures CommitTarget(n, upto) == CommitTarget(n, |n.log|)
    {
    }

    // ----------------------------------------------------------------- apply

    /** The next message goes over the apply channel. */
    method SendNext() returns (msg: Option<ApplyMsg>)
      modifies this`delivered
      ensures Value() == Deliver(old(Value()))
      ensures msg == if old(delivered) < |emitted| then Some(emitted[old(delivered)]) else None
    {
      if delivered >= |emitted| {
        return None;
      }
      msg := Some(emitted[delivered]);
      delivered := delivered + 1;
    }

    method CollectCommitted()
      requires Valid()
      modifies this`lastApplied, this`emitted, log`cache
      ensures Valid()
      ensures Value() == CollectApply(old(Value()))
    {
      hide Indexed, CacheAgrees;
      while lastApplied < commitIndex
        invariant Valid()
        invariant CollectApply(Value()) == CollectApply(old(Value()))
        decreases commitIndex - lastApplied
      {
        lastApplied := lastApplied + 1;
        var entry := log.GetEntry(lastApplied);
        if entry.None? {
          return;
        }
        emitted := emitted + [ApplyMsg(entry.value.command, entry.value.index, entry.value.term)];
      }
    }
  }
}
