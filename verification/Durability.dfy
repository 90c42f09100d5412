/** How a single step may change a node, and what no step ever takes away from it. */
module Durability {
  import opened Types
  import opened LogSpec
  import opened Steps
  import opened Histories
  import opened Clusters
  import opened HistoryProofs
  import opened ReplicationProofs
  import opened CrashProofs
  import opened Invariant
  import opened Safety

  /** The log grew, or it is a log that a merge with the leader of the node's new term passes through. */
  ghost predicate LogChange(h: History, n: Node, n': Node) {
    && n.currentTerm <= n'.currentTerm
    && (|| Agree(n.log, n'.log, |n.log|)
        || (n'.currentTerm in h.terms
            && exists upto :: MergedTo(n.log, LeaderLog(h, n'.currentTerm), upto, n'.log)))
  }

  /** Every step, a crash inside a handler included, changes every log in one of these two ways. */
  lemma StepChangesLog(s: Cluster, step: Step, s': Cluster, p: Id)
    requires Inv(s) && NextBy(s, step, s')
    requires p in s.nodes
    ensures p in s'.nodes && LogChange(s.h, s.nodes[p], s'.nodes[p])
  {
    hide HistoryOk, NodeOk, NetOk, MergeWrites, VoteWrites, AppendWrites, VoteHalted, HandleRequestVote, OnVoteReply, CheckWon,
         HandleAppendEntries, OnAppendReply, RecordElection, RecordVote, RecordLead, RecordAck, RecordCrash, RecordSavedVote;
    match step
    case Vote(m) => VoteChanges(s.h, s.nodes[m.dst], m.vote);
    case VoteAnswer(m) => VoteReplyChanges(s.h, s.nodes[m.vote.candidateId], m.src, m.vote, m.voteResult);
    case WaitOver(i) => WonChanges(s.h, s.nodes[i]);
    case Append(m) =>
      if p == m.dst {
        AppendChangesLog(s, m);
      }
    case AppendAnswer(m) => AnswerChanges(s.h, s.nodes[m.append.leaderId], m.src, m.append, m.appendResult);
    case Collect(i) =>
      if p == i {
        CollectChangesLog(s.ids, s.h, s.nodes[i]);
      }
    case CrashInVote(m, calls) =>
      VoteHaltedDurable(s.nodes[m.dst], m.vote, calls);
      VoteHaltedSame(s.nodes[m.dst], m.vote, calls);
    case CrashInAppend(m, calls) =>
      if p == m.dst {
        CrashInAppendChangesLog(s, m, calls);
      }
    case _ =>
  }

  lemma VoteChanges(h: History, n: Node, a: VoteArgs)
    ensures LogChange(h, n, HandleRequestVote(n, a).0)
    ensures Grew(n, HandleRequestVote(n, a).0)
  {
  }

  lemma WonChanges(h: History, n: Node)
    ensures LogChange(h, n, CheckWon(n))
    ensures Grew(n, CheckWon(n))
  {
  }

  lemma VoteReplyChanges(h: History, n: Node, peer: Id, a: VoteArgs, r: VoteResult)
    ensures LogChange(h, n, OnVoteReply(n, peer, a, r))
    ensures Grew(n, OnVoteReply(n, peer, a, r))
  {
    WonChanges(h, n.(awaiting := n.awaiting - {peer}, votesReceived := n.votesReceived + 1));
  }

  lemma AnswerChanges(h: History, n: Node, src: Id, a: AppendArgs, r: AppendResult)
    ensures LogChange(h, n, OnAppendReply(n, src, a, r))
    ensures Grew(n, OnAppendReply(n, src, a, r))
  {
    CommitTargetIsLargest(Counted(n, src, a), |n.log|);
  }

  lemma CollectChangesLog(ids: set<Id>, h: History, n: Node)
    requires NodeOk(ids, h, n)
    ensures LogChange(h, n, CollectApply(n))
  {
    CollectsAll(n);
  }

  lemma AppendChangesLog(s: Cluster, m: Msg)
    requires Inv(s)
    requires m.AppendRequest? && Receives(s, m)
    ensures LogChange(s.h, s.nodes[m.dst], HandleAppendEntries(s.nodes[m.dst], m.append).0)
  {
    hide VotesOk, ElectorsOk, StandingOk, AcksOk, PastOk, CandidateOk, LeaderOk, AckedOk, CommitOk, Merge;
    var n, a := s.nodes[m.dst], m.append;
    assert MsgOk(s.ids, s.h, m) && NodeOk(s.ids, s.h, n);
    if a.term >= n.currentTerm && PrevMatches(n.log, a) {
      AcceptedLog(s.ids, s.h, n, a);
    }
  }

  lemma CrashInAppendChangesLog(s: Cluster, m: Msg, calls: nat)
    requires Inv(s)
    requires m.AppendRequest? && Receives(s, m)
    requires calls <= |AppendWrites(s.nodes[m.dst], m.append)|
    ensures var n := s.nodes[m.dst];
            var d := Replay(DurableOf(n), AppendWrites(n, m.append)[..calls]);
            LogChange(s.h, n, Boot(n.id, n.peers, d))
  {
    hide TermsOk, ElectorsOk, VotesOk, StandingOk, AcksOk, PastOk, ConfigOk, BallotOk, CandidateOk, LeaderOk, AckedOk,
         CommitOk, AppendWrites, AppendRequestOk;
    assert MsgOk(s.ids, s.h, m) && NodeOk(s.ids, s.h, s.nodes[m.dst]);
    HaltedChangesLog(s.ids, s.h, s.nodes[m.dst], m.append, calls);
  }

  lemma HaltedChangesLog(ids: set<Id>, h: History, n: Node, a: AppendArgs, calls: nat)
    requires TermsOk(ids, h) && NodeLogOk(h, n)
    requires AppendRequestOk(ids, h, n.id, a)
    requires calls <= |AppendWrites(n, a)|
    ensures LogChange(h, n, Boot(n.id, n.peers, Replay(DurableOf(n), AppendWrites(n, a)[..calls])))
  {
    hide TermsOk, MergeWrites, MergedTo, Matching, IsSuffixPart;
    var ws := AppendWrites(n, a);
    var first := if a.term > n.currentTerm then [SaveState(a.term, "")] else [];
    if calls <= |first| {
      assert ws[..calls] == first[..calls];
      ReplayOne(DurableOf(n), first[..calls]);
    } else {
      var k := calls - |first|;
      assert ws[..calls] == first + MergeWrites(n.log, a.entries)[..k];
      ReplayConcat(DurableOf(n), first, MergeWrites(n.log, a.entries)[..k]);
      ReplayOne(DurableOf(n), first);
      PrevMatchesAgree(ids, h, n, a);
      PartialMerge(Replay(DurableOf(n), first), LeaderLog(h, a.term), a.prevLogIndex, a.entries, k);
    }
  }

  /** No step takes a committed prefix out of a log. */
  lemma StepKeepsCommitted(s: Cluster, step: Step, s': Cluster, p: Id, k: int)
    requires Inv(s) && NextBy(s, step, s')
    requires p in s.nodes
    requires 0 <= k <= |s.nodes[p].log|
    requires Backed(s.ids, s.h, s.nodes[p].log, k, s.nodes[p].currentTerm)
    ensures p in s'.nodes
    ensures Agree(s.nodes[p].log, s'.nodes[p].log, k)
    ensures Backed(s.ids, s'.h, s'.nodes[p].log, k, s'.nodes[p].currentTerm)
  {
    hide NodeOk, NetOk, NextBy, TermsOk, ElectorsOk, VotesOk, StandingOk, AcksOk, PastOk;
    var n := s.nodes[p];
    StepChangesLog(s, step, s', p);
    StepOk(s, step, s');
    var n' := s'.nodes[p];
    if !Agree(n.log, n'.log, |n.log|) {
      var upto :| MergedTo(n.log, LeaderLog(s.h, n'.currentTerm), upto, n'.log);
      BackedInLeader(s.ids, s.h, n.log, k, n.currentTerm, n'.currentTerm);
      MergeKeepsShared(n.log, LeaderLog(s.h, n'.currentTerm), upto, n'.log, k);
    }
    BackedExtends(s.ids, s.h, s'.h, n.log, k, n.currentTerm);
    BackedLater(s.ids, s'.h, n.log, k, n.currentTerm, n'.currentTerm);
    BackedOther(s.ids, s'.h, n.log, n'.log, k, n'.currentTerm);
  }

  /** An entry that a node once knew to be committed never leaves that node's log again: not by truncation,
      and not by a crash at any point of any handler. */
  lemma {:induction false} CommittedNeverLost(run: seq<Cluster>, i: nat, j: nat, p: Id)
    requires IsRun(run) && i <= j < |run|
    requires p in run[i].nodes
    ensures p in run[j].nodes
    ensures Agree(run[i].nodes[p].log, run[j].nodes[p].log, run[i].nodes[p].commitIndex)
    ensures Backed(run[j].ids, run[j].h, run[j].nodes[p].log, run[i].nodes[p].commitIndex, run[j].nodes[p].currentTerm)
  {
    hide Init, NextBy, HistoryOk, NetOk, Backed;
    RunOk(run, i);
    assert NodeOk(run[i].ids, run[i].h, run[i].nodes[p]);
    if i < j {
      CommittedNeverLost(run, i, j - 1, p);
      RunOk(run, j - 1);
      assert Next(run[j - 1], run[j - 1 + 1]);
      var step :| NextBy(run[j - 1], step, run[j]);
      StepOk(run[j - 1], step, run[j]);
      StepKeepsCommitted(run[j - 1], step, run[j], p, run[i].nodes[p].commitIndex);
    }
  }

  // ------------------------------------------------------------------ progress

  predicate Crashes(step: Step, p: Id) {
    match step
    case Crash(i) => i == p
    case CrashInVote(m, _) => m.VoteRequest? && m.dst == p
    case CrashInAppend(m, _) => m.AppendRequest? && m.dst == p
    case _ => false
  }

  ghost predicate Grew(n: Node, n': Node) {
    && n.commitIndex <= n'.commitIndex
    && n.lastApplied <= n'.lastApplied
    && n.emitted <= n'.emitted
    && (n.role == Leader && n'.role == Leader && n.currentTerm == n'.currentTerm ==> MatchesGrew(n, n'))
  }

  ghost predicate MatchesGrew(n: Node, n': Node) {
    forall q :: q in n.peers ==> Lookup(n.matchIndex, q) <= Lookup(n'.matchIndex, q)
  }

  /** Within one incarnation the commit index, the applied index and the emitted stream only grow, and
      within one term a leader's matchIndex only grows. */
  lemma BooksGrow(s: Cluster, step: Step, s': Cluster, p: Id)
    requires Inv(s) && NextBy(s, step, s')
    requires p in s.nodes && !Crashes(step, p)
    ensures p in s'.nodes && Grew(s.nodes[p], s'.nodes[p])
  {
    hide HistoryOk, NodeOk, NetOk, VoteWrites, AppendWrites, Replay, CollectApply, HandleRequestVote, OnVoteReply, CheckWon,
         HandleAppendEntries, OnAppendReply, RecordElection, RecordVote, RecordLead, RecordAck, RecordCrash, RecordSavedVote;
    match step
    case Vote(m) => VoteChanges(s.h, s.nodes[m.dst], m.vote);
    case VoteAnswer(m) => VoteReplyChanges(s.h, s.nodes[m.vote.candidateId], m.src, m.vote, m.voteResult);
    case WaitOver(i) => WonChanges(s.h, s.nodes[i]);
    case Append(m) =>
      if p == m.dst {
        AppendGrows(s, m);
      }
    case AppendAnswer(m) => AnswerChanges(s.h, s.nodes[m.append.leaderId], m.src, m.append, m.appendResult);
    case Collect(i) =>
      if p == i {
        CollectGrows(s.ids, s.h, s.nodes[p]);
      }
    case _ =>
  }

  lemma CollectGrows(ids: set<Id>, h: History, n: Node)
    requires NodeOk(ids, h, n)
    ensures Grew(n, CollectApply(n))
  {
    CollectsAll(n);
  }

  lemma AppendGrows(s: Cluster, m: Msg)
    requires Inv(s)
    requires m.AppendRequest? && Receives(s, m)
    ensures Grew(s.nodes[m.dst], HandleAppendEntries(s.nodes[m.dst], m.append).0)
  {
    hide TermsOk, ElectorsOk, AcksOk, VotesOk, StandingOk, PastOk, CandidateOk, LeaderOk, BallotOk, ConfigOk, NodeLogOk,
         AckedOk, CommitOk, AppendRequestOk, Merge;
    var n, a := s.nodes[m.dst], m.append;
    assert MsgOk(s.ids, s.h, m) && NodeOk(s.ids, s.h, n);
    if a.term >= n.currentTerm {
      FollowOk(s.ids, s.h, n, a);
      if PrevMatches(n.log, a) {
        AcceptCommit(s.ids, s.h, FollowSender(n, a), a);
      }
    }
  }
}
