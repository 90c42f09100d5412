/** The steps of log replication, commitment, apply, crash and restart keep the invariant. */
module ReplicationProofs {
  import opened Types
  import opened LogSpec
  import opened Steps
  import opened Histories
  import opened Clusters
  import opened HistoryProofs
  import opened ElectionProofs

  // -------------------------------------------------------------- proposing

  lemma ProposalMoves(ids: set<Id>, h: History, n: Node, command: Bytes)
    requires HistoryOk(ids, h) && NodeOk(ids, h, n)
    requires n.role == Leader
    ensures var n' := Propose(n, command).0;
            Moves(ids, h, n', {}, RecordLead(ids, h, n'))
  {
    hide TermsOk, ElectorsOk, VotesOk, StandingOk, AcksOk, PastOk, BallotOk, CandidateOk, NodeLogOk, AckedOk, CommitOk, ApplyOk;
    var n' := Propose(n, command).0;
    ProposalIsStep(ids, h, n, command);
    ProposalHistoryOk(ids, h, n, command);
    ProposalNodeOk(ids, h, n, command);
  }

  lemma ProposalIsStep(ids: set<Id>, h: History, n: Node, command: Bytes)
    requires LeaderOk(h, n) && n.role == Leader
    ensures var n' := Propose(n, command).0;
            HistoryStep(h, RecordLead(ids, h, n'), n.id, n.currentTerm)
  {
    var n' := Propose(n, command).0;
    var h' := RecordLead(ids, h, n');
    assert TermsStep(h, h', n.id, n.currentTerm);
    assert AcksStep(h, h', n.id, n.currentTerm);
  }

  lemma ProposalHistoryOk(ids: set<Id>, h: History, n: Node, command: Bytes)
    requires HistoryOk(ids, h) && NodeOk(ids, h, n)
    requires n.role == Leader
    ensures HistoryOk(ids, RecordLead(ids, h, Propose(n, command).0))
  {
    hide TermsOk, ElectorsOk, VotesOk, StandingOk, AcksOk, PastOk, CandidateOk, NodeLogOk, AckedOk, CommitOk, ApplyOk;
    var h' := RecordLead(ids, h, Propose(n, command).0);
    ProposalIsStep(ids, h, n, command);
    QuietFrame(ids, h, h', n.id, n.currentTerm);
    ProposalTermsOk(ids, h, n, command);
    ProposalAcksOk(ids, h, n, command);
  }

  lemma ProposalAcksOk(ids: set<Id>, h: History, n: Node, command: Bytes)
    requires AcksOk(ids, h) && LeaderOk(h, n) && n.role == Leader && n.id in ids
    ensures AcksOk(ids, RecordLead(ids, h, Propose(n, command).0))
  {
  }

  lemma ProposalTermsOk(ids: set<Id>, h: History, n: Node, command: Bytes)
    requires TermsOk(ids, h) && LeaderOk(h, n) && n.role == Leader
    ensures TermsOk(ids, RecordLead(ids, h, Propose(n, command).0))
  {
    ProposalIsStep(ids, h, n, command);
    TermsFrame(ids, h, RecordLead(ids, h, Propose(n, command).0), n.id, n.currentTerm);
    ProposalTermOk(ids, h, n, command);
  }

  lemma ProposalTermOk(ids: set<Id>, h: History, n: Node, command: Bytes)
    requires TermsOk(ids, h) && LeaderOk(h, n) && n.role == Leader
    ensures TermOk(ids, RecordLead(ids, h, Propose(n, command).0), n.currentTerm)
  {
    var n' := Propose(n, command).0;
    var h' := RecordLead(ids, h, n');
    assert TermOk(ids, h, n.currentTerm);
    ProposalIsStep(ids, h, n, command);
    LogInStep(h, h', n.id, n.currentTerm, n.log);
    LogInExtended(h', n.log, n'.log);
  }

  lemma ProposalNodeOk(ids: set<Id>, h: History, n: Node, command: Bytes)
    requires HistoryOk(ids, h) && NodeOk(ids, h, n)
    requires n.role == Leader
    requires HistoryOk(ids, RecordLead(ids, h, Propose(n, command).0))
    ensures NodeOk(ids, RecordLead(ids, h, Propose(n, command).0), Propose(n, command).0)
  {
    var n' := Propose(n, command).0;
    var h' := RecordLead(ids, h, n');
    ProposalIsStep(ids, h, n, command);
    assert TermOk(ids, h', n.currentTerm);
    LeadAcked(ids, h, h', n, n');
    LeadCommit(ids, h, h', n, n');
    ProposalLeaderOk(ids, h, n, command);
    assert BallotOk(h', n');
  }

  lemma ProposalLeaderOk(ids: set<Id>, h: History, n: Node, command: Bytes)
    requires ConfigOk(ids, n) && LeaderOk(h, n) && n.role == Leader
    ensures LeaderOk(RecordLead(ids, h, Propose(n, command).0), Propose(n, command).0)
  {
    var n' := Propose(n, command).0;
    var h' := RecordLead(ids, h, n');
    forall p | p in n'.peers
      ensures 0 <= Lookup(n'.matchIndex, p) <= Ack(h', n.currentTerm, p)
    {
      assert p in ElementsOf(n.peers);
      assert Ack(h', n.currentTerm, p) == Ack(h, n.currentTerm, p);
    }
  }

  // ---------------------------------------------------------------- sending

  lemma HeartbeatMoves(ids: set<Id>, h: History, n: Node)
    requires HistoryOk(ids, h) && NodeOk(ids, h, n)
    ensures Moves(ids, h, TakeHeartbeat(n), {}, h)
  {
    MovesAlone(ids, h, TakeHeartbeat(n), {});
  }

  /** Whatever a leader sends is a part of its log that reaches the log's end, with a commit index inside
      it, although the commit index was read earlier than the log. */
  lemma SendOk(ids: set<Id>, h: History, n: Node, peer: Id, hb: Heartbeat)
    requires NodeOk(ids, h, n)
    requires peer in n.peers && hb in n.heartbeats
    requires BuildAppend(n, peer, hb).Some?
    ensures AppendRequestOk(ids, h, peer, BuildAppend(n, peer, hb).value)
  {
    var a := BuildAppend(n, peer, hb).value;
    assert peer in ElementsOf(n.peers);
    assert a.prevLogIndex + |a.entries| == |n.log|;
    forall i | 0 <= i < |a.entries|
      ensures a.entries[i] == n.log[a.prevLogIndex + i] && a.entries[i].index == a.prevLogIndex + i + 1
    {
      assert EntryIn(h, n.log, a.prevLogIndex + i);
    }
    BackedShorter(ids, h, n.log, n.commitIndex, hb.commit, n.currentTerm);
  }

  // --------------------------------------------------------------- receiving

  /** A node that meets a request of its own term, or a later one, ends up a follower in that term. */
  lemma FollowOk(ids: set<Id>, h: History, n: Node, a: AppendArgs)
    requires NodeOk(ids, h, n)
    requires AppendRequestOk(ids, h, n.id, a)
    requires n.currentTerm <= a.term
    ensures NodeOk(ids, h, FollowSender(n, a))
    ensures FollowSender(n, a).role == Follower
    ensures FollowSender(n, a).currentTerm == a.term
  {
    if a.term > n.currentTerm {
      StepDownOk(ids, h, n, a.term);
    }
    var m := if a.term > n.currentTerm then StepDown(n, a.term) else n;
    assert m.role != Leader;
  }

  /** The consistency check succeeds only on a log that agrees with the sender up to the probed index. */
  lemma PrevMatchesAgree(ids: set<Id>, h: History, n: Node, a: AppendArgs)
    requires TermsOk(ids, h) && LogIn(h, n.log)
    requires AppendRequestOk(ids, h, n.id, a)
    requires PrevMatches(n.log, a)
    ensures Agree(n.log, LeaderLog(h, a.term), a.prevLogIndex)
    ensures Matching(n.log, LeaderLog(h, a.term))
  {
    assert TermOk(ids, h, a.term);
    LogsMatch(h, n.log, LeaderLog(h, a.term));
  }

  /** Any log that MergedTo allows is as good as the old one: it is made of leaders' entries, keeps every
      acknowledgement and keeps the committed prefix. */
  lemma MergedOk(ids: set<Id>, h: History, n: Node, u: int, upto: int, x: Log)
    requires TermsOk(ids, h) && ElectorsOk(h) && AcksOk(ids, h)
    requires NodeLogOk(h, n) && AckedOk(h, n.id, n.log, n.currentTerm) && CommitOk(ids, h, n)
    requires u == n.currentTerm && u in h.terms
    requires MergedTo(n.log, LeaderLog(h, u), upto, x)
    ensures NodeLogOk(h, n.(log := x))
    ensures AckedOk(h, n.id, x, n.currentTerm)
    ensures Agree(n.log, x, n.commitIndex)
    ensures n.commitIndex <= |LeaderLog(h, u)| && Agree(x, LeaderLog(h, u), n.commitIndex)
  {
    MergedLogOk(ids, h, n, u, upto, x);
    BackedInLeader(ids, h, n.log, n.commitIndex, u, u);
    MergeKeepsShared(n.log, LeaderLog(h, u), upto, x, n.commitIndex);
    forall t, m | 0 < m <= Ack(h, t, n.id)
      ensures AckKept(h, x, n.currentTerm, t, m)
    {
      assert AckKept(h, n.log, n.currentTerm, t, m);
      assert (t, n.id) in h.acks;
      MergedKept(h, n, u, upto, x, t, m);
    }
  }

  lemma MergedLogOk(ids: set<Id>, h: History, n: Node, u: int, upto: int, x: Log)
    requires TermsOk(ids, h)
    requires NodeLogOk(h, n)
    requires u == n.currentTerm && u in h.terms
    requires MergedTo(n.log, LeaderLog(h, u), upto, x)
    ensures NodeLogOk(h, n.(log := x))
  {
    if x != n.log {
      assert TermOk(ids, h, u);
      var q :| IsCut(n.log, LeaderLog(h, u), upto, x, q);
      forall i | 0 <= i < |x|
        ensures EntryIn(h, x, i)
      {
        assert EntryIn(h, LeaderLog(h, u), i);
      }
    }
  }

  lemma MergedKept(h: History, n: Node, u: int, upto: int, x: Log, t: int, m: int)
    requires MergedTo(n.log, LeaderLog(h, u), upto, x)
    requires u in h.terms && u == n.currentTerm
    requires AckKept(h, n.log, n.currentTerm, t, m)
    requires m <= |LeaderLog(h, t)|
    ensures AckKept(h, x, n.currentTerm, t, m)
  {
    var leader := LeaderLog(h, u);
    if Agree(LeaderLog(h, t), n.log, m) {
      if Agree(LeaderLog(h, t), leader, m) {
        MergeKeepsShared(n.log, leader, upto, x, m);
      } else {
        assert t < u < n.currentTerm + 1;
      }
    }
  }

  lemma AppendMoves(ids: set<Id>, h: History, n: Node, a: AppendArgs)
    requires HistoryOk(ids, h) && NodeOk(ids, h, n)
    requires AppendRequestOk(ids, h, n.id, a)
    ensures var (n', r) := HandleAppendEntries(n, a);
            Moves(ids, h, n', {AppendReply(n.id, a, r)},
                  if r.success then RecordAck(h, n.id, a.term, a.prevLogIndex + |a.entries|) else h)
  {
    hide TermsOk, ElectorsOk, VotesOk, StandingOk, AcksOk, PastOk, BallotOk, CandidateOk, LeaderOk, AckedOk, CommitOk, ApplyOk, Merge, Rejection;
    var (n', r) := HandleAppendEntries(n, a);
    if a.term < n.currentTerm {
      MovesAlone(ids, h, n, {AppendReply(n.id, a, r)});
    } else {
      var m := FollowSender(n, a);
      FollowOk(ids, h, n, a);
      if PrevMatches(m.log, a) {
        AcceptMoves(ids, h, m, a);
      } else {
        RejectionOk(ids, h, m, a);
        MovesAlone(ids, h, m, {AppendReply(n.id, a, r)});
      }
    }
  }

  /** What the accepting follower becomes. */
  function Accepted(m: Node, a: AppendArgs): Node {
    var log := Merge(m.log, a.entries);
    m.(log := log, commitIndex := ClampedCommit(m.commitIndex, a.leaderCommit, |log|))
  }

  lemma AcceptMoves(ids: set<Id>, h: History, m: Node, a: AppendArgs)
    requires HistoryOk(ids, h) && NodeOk(ids, h, m)
    requires AppendRequestOk(ids, h, m.id, a)
    requires m.role == Follower && m.currentTerm == a.term && PrevMatches(m.log, a)
    ensures var h' := RecordAck(h, m.id, a.term, a.prevLogIndex + |a.entries|);
            Moves(ids, h, Accepted(m, a),
                  {AppendReply(m.id, a, AppendResult(a.term, true, 0, 0, |Accepted(m, a).log|))}, h')
  {
    hide TermsOk, ElectorsOk, VotesOk, StandingOk, AcksOk, PastOk, LeaderOk, CandidateOk, NodeLogOk, AckedOk, CommitOk, ApplyOk, Merge;
    var upto := a.prevLogIndex + |a.entries|;
    var h' := RecordAck(h, m.id, a.term, upto);
    var n' := Accepted(m, a);
    var sent := {AppendReply(m.id, a, AppendResult(a.term, true, 0, 0, |n'.log|))};
    AcceptReplyOk(ids, h, h', m.id, a, |n'.log|);
    AckIsStep(h, h', m.id, a.term, upto);
    AcceptNodeOk(ids, h, h', m, a);
    AckHistoryOk(ids, h, h', m.id, a.term, upto);
    assert Moves(ids, h, n', sent, h');
  }

  lemma AcceptReplyOk(ids: set<Id>, h: History, h': History, i: Id, a: AppendArgs, last: int)
    requires AppendRequestOk(ids, h, i, a) && i in ids
    requires h' == RecordAck(h, i, a.term, a.prevLogIndex + |a.entries|)
    ensures SentOk(ids, h', {AppendReply(i, a, AppendResult(a.term, true, 0, 0, last))})
  {
  }

  lemma AckIsStep(h: History, h': History, i: Id, t: int, m: int)
    requires h' == RecordAck(h, i, t, m)
    ensures HistoryStep(h, h', i, t)
    ensures h'.terms == h.terms && h'.votes == h.votes && h'.standing == h.standing && h'.past == h.past
    ensures Ack(h', t, i) == if m > Ack(h, t, i) then m else Ack(h, t, i)
  {
    assert AcksStep(h, h', i, t);
  }

  lemma AckHistoryOk(ids: set<Id>, h: History, h': History, i: Id, t: int, m: int)
    requires HistoryOk(ids, h) && VotesNotAfter(h, i, t)
    requires i in ids && t in h.terms && 0 <= m <= |LeaderLog(h, t)|
    requires h' == RecordAck(h, i, t, m)
    ensures HistoryOk(ids, h')
  {
    AckIsStep(h, h', i, t, m);
    AckInRange(ids, h, h', i, t, m);
    HistoryFrame(ids, h, h', i, t);
  }

  lemma AckInRange(ids: set<Id>, h: History, h': History, i: Id, t: int, m: int)
    requires AcksOk(ids, h)
    requires i in ids && t in h.terms && 0 <= m <= |LeaderLog(h, t)|
    requires h' == RecordAck(h, i, t, m)
    ensures AcksOk(ids, h')
  {
  }

  /** The merged log as MergedTo sees it, and how far it agrees with the sender. */
  lemma AcceptedLog(ids: set<Id>, h: History, m: Node, a: AppendArgs)
    requires TermsOk(ids, h) && LogIn(h, m.log)
    requires AppendRequestOk(ids, h, m.id, a)
    requires PrevMatches(m.log, a)
    ensures var upto := a.prevLogIndex + |a.entries|;
            var x := Merge(m.log, a.entries);
            MergedTo(m.log, LeaderLog(h, a.term), upto, x) && Agree(x, LeaderLog(h, a.term), upto)
  {
    var leader := LeaderLog(h, a.term);
    var upto := a.prevLogIndex + |a.entries|;
    PrevMatchesAgree(ids, h, m, a);
    MergeSpec(m.log, leader, a.prevLogIndex, a.entries);
    MergedFully(m.log, leader, upto, Merge(m.log, a.entries));
  }

  lemma AcceptNodeOk(ids: set<Id>, h: History, h': History, m: Node, a: AppendArgs)
    requires TermsOk(ids, h) && ElectorsOk(h) && AcksOk(ids, h) && NodeOk(ids, h, m)
    requires AppendRequestOk(ids, h, m.id, a)
    requires m.role == Follower && m.currentTerm == a.term && PrevMatches(m.log, a)
    requires h' == RecordAck(h, m.id, a.term, a.prevLogIndex + |a.entries|)
    ensures NodeOk(ids, h', Accepted(m, a))
  {
    hide TermsOk, ElectorsOk, AcksOk, NodeLogOk, CommitOk, AppendRequestOk, AckedOk, Merge;
    AckIsStep(h, h', m.id, a.term, a.prevLogIndex + |a.entries|);
    AcceptCommit(ids, h, m, a);
    AcceptCommitStep(ids, h, h', m, Accepted(m, a));
    AcceptLogOk(ids, h, h', m, a);
    FollowerOk(ids, h, h', m, Accepted(m, a));
  }

  /** A follower whose log and commit index change: nothing else about it needs to be shown again. */
  lemma FollowerOk(ids: set<Id>, h: History, h': History, m: Node, n': Node)
    requires ConfigOk(ids, m) && BallotOk(h, m) && m.role == Follower
    requires n' == m.(log := n'.log, commitIndex := n'.commitIndex)
    requires h'.terms == h.terms && h'.votes == h.votes && h'.standing == h.standing
    requires NodeLogOk(h', n') && AckedOk(h', n'.id, n'.log, n'.currentTerm)
    requires CommitOk(ids, h', n') && ApplyOk(n')
    ensures NodeOk(ids, h', n')
  {
  }

  lemma AcceptLogOk(ids: set<Id>, h: History, h': History, m: Node, a: AppendArgs)
    requires TermsOk(ids, h) && ElectorsOk(h) && AcksOk(ids, h)
    requires NodeLogOk(h, m) && AckedOk(h, m.id, m.log, m.currentTerm) && CommitOk(ids, h, m)
    requires AppendRequestOk(ids, h, m.id, a)
    requires m.currentTerm == a.term && PrevMatches(m.log, a)
    requires h' == RecordAck(h, m.id, a.term, a.prevLogIndex + |a.entries|)
    ensures NodeLogOk(h', Accepted(m, a))
    ensures AckedOk(h', m.id, Accepted(m, a).log, m.currentTerm)
  {
    hide TermsOk, ElectorsOk, AcksOk, CommitOk, AckedOk, Merge;
    var upto := a.prevLogIndex + |a.entries|;
    var n' := Accepted(m, a);
    AcceptedLog(ids, h, m, a);
    MergedOk(ids, h, m, a.term, upto, n'.log);
    AcceptAcked(ids, h, h', n', upto);
    AckIsStep(h, h', m.id, a.term, upto);
    LogInStep(h, h', m.id, a.term, n'.log);
  }

  lemma AcceptAcked(ids: set<Id>, h: History, h': History, n: Node, upto: int)
    requires TermsOk(ids, h) && AcksOk(ids, h)
    requires n.currentTerm in h.terms
    requires AckedOk(h, n.id, n.log, n.currentTerm)
    requires Agree(n.log, LeaderLog(h, n.currentTerm), upto)
    requires h' == RecordAck(h, n.id, n.currentTerm, upto)
    ensures AckedOk(h', n.id, n.log, n.currentTerm)
  {
    AckIsStep(h, h', n.id, n.currentTerm, upto);
    forall t, k | 0 < k <= Ack(h', t, n.id)
      ensures AckKept(h', n.log, n.currentTerm, t, k)
    {
      if k <= Ack(h, t, n.id) {
        assert (t, n.id) in h.acks;
        assert AckKept(h, n.log, n.currentTerm, t, k);
        KeptStep(ids, h, h', n.id, n.currentTerm, t, k, n.log, n.currentTerm + 1);
      } else {
        assert t == n.currentTerm && k <= upto;
        assert Agree(LeaderLog(h', t), n.log, k);
      }
    }
  }

  /** The follower's commit index stays inside the prefix it has just verified against the sender, although
      it is clamped only to the follower's own last index. */
  lemma AcceptCommit(ids: set<Id>, h: History, m: Node, a: AppendArgs)
    requires TermsOk(ids, h) && ElectorsOk(h) && AcksOk(ids, h)
    requires NodeLogOk(h, m) && AckedOk(h, m.id, m.log, m.currentTerm) && CommitOk(ids, h, m)
    requires AppendRequestOk(ids, h, m.id, a)
    requires m.currentTerm == a.term && PrevMatches(m.log, a)
    ensures CommitOk(ids, h, Accepted(m, a))
    ensures Accepted(m, a).commitIndex == if a.leaderCommit > m.commitIndex then a.leaderCommit else m.commitIndex
    ensures a.leaderCommit <= a.prevLogIndex + |a.entries|
    ensures Agree(m.log, Accepted(m, a).log, m.commitIndex)
    ensures Agree(Accepted(m, a).log, LeaderLog(h, a.term), Accepted(m, a).commitIndex)
  {
    hide TermsOk, ElectorsOk, AcksOk, AckedOk, MergedTo, Merge;
    var upto := a.prevLogIndex + |a.entries|;
    var n' := Accepted(m, a);
    AcceptedLog(ids, h, m, a);
    MergedOk(ids, h, m, a.term, upto, n'.log);
    if a.leaderCommit > m.commitIndex {
      assert n'.commitIndex == a.leaderCommit;
      BackedOther(ids, h, LeaderLog(h, a.term), n'.log, a.leaderCommit, a.term);
    } else {
      BackedOther(ids, h, m.log, n'.log, m.commitIndex, a.term);
    }
  }

  lemma AcceptCommitStep(ids: set<Id>, h: History, h': History, m: Node, n': Node)
    requires HistoryStep(h, h', n'.id, n'.currentTerm)
    requires CommitOk(ids, h, n') && CommitOk(ids, h, m) && ApplyOk(m)
    requires n' == m.(log := n'.log, commitIndex := n'.commitIndex)
    requires m.commitIndex <= n'.commitIndex && Agree(m.log, n'.log, m.commitIndex)
    ensures CommitOk(ids, h', n') && ApplyOk(n')
  {
    BackedStep(ids, h, h', n'.id, n'.currentTerm, n'.log, n'.commitIndex, n'.currentTerm, n'.currentTerm);
  }

  /** The hints of a rejection point strictly before the probe: the leader has no entry of the conflicting
      term at or after the probed index. */
  lemma RejectionOk(ids: set<Id>, h: History, m: Node, a: AppendArgs)
    requires TermsOk(ids, h) && NodeLogOk(h, m)
    requires AppendRequestOk(ids, h, m.id, a)
    requires m.currentTerm == a.term && !PrevMatches(m.log, a)
    ensures AppendReplyOk(h, m.id, a, Rejection(m, a))
  {
    var leader := LeaderLog(h, a.term);
    var r := Rejection(m, a);
    assert TermOk(ids, h, a.term);
    var p := a.prevLogIndex - 1;
    if |m.log| < a.prevLogIndex {
      forall i | p <= i < |leader|
        ensures leader[i].term != r.conflictTerm
      {
        assert EntryIn(h, leader, i);
      }
    } else {
      FirstIndexOfTermIsFirst(m.log, r.conflictTerm, 0, p);
      assert EntryIn(h, m.log, p);
      assert leader[p].term != r.conflictTerm;
      forall i | p <= i < |leader|
        ensures leader[i].term != r.conflictTerm
      {
        if leader[i].term == r.conflictTerm {
          SameStretch(h, m.log, leader, p, i);
          assert false;
        }
      }
      assert r.conflictTerm != a.term;
    }
  }

  // ------------------------------------------------------------ committing

  lemma AppendAnswerMoves(ids: set<Id>, h: History, n: Node, src: Id, a: AppendArgs, r: AppendResult)
    requires HistoryOk(ids, h) && NodeOk(ids, h, n)
    requires MsgOk(ids, h, AppendReply(src, a, r)) && a.leaderId == n.id
    ensures Moves(ids, h, OnAppendReply(n, src, a, r), {}, h)
  {
    hide TermsOk, ElectorsOk, VotesOk, StandingOk, AcksOk, PastOk, ConfigOk, BallotOk, CandidateOk, LeaderOk, NodeLogOk, AckedOk, CommitOk, ApplyOk;
    var n' := OnAppendReply(n, src, a, r);
    if n.role != Leader || n.currentTerm != a.term {
    } else if r.term > n.currentTerm {
      StepDownOk(ids, h, n, r.term);
    } else if r.success {
      var counted := Counted(n, src, a);
      CountedOk(ids, h, n, src, a);
      CheckCommitOk(ids, h, counted);
    } else {
      BackedOffOk(ids, h, n, src, a, r);
    }
    MovesAlone(ids, h, n', {});
  }

  /** The leader's books after a successful reply. */
  function Counted(n: Node, peer: Id, a: AppendArgs): Node {
    var match' := a.prevLogIndex + |a.entries|;
    n.(matchIndex := if match' > Lookup(n.matchIndex, peer) then n.matchIndex[peer := match'] else n.matchIndex,
       nextIndex := n.nextIndex[peer := match' + 1])
  }

  lemma CountedOk(ids: set<Id>, h: History, n: Node, src: Id, a: AppendArgs)
    requires NodeOk(ids, h, n)
    requires n.role == Leader && n.currentTerm == a.term
    requires 0 <= a.prevLogIndex && a.prevLogIndex + |a.entries| <= |LeaderLog(h, a.term)|
    requires a.prevLogIndex + |a.entries| <= Ack(h, a.term, src)
    ensures NodeOk(ids, h, Counted(n, src, a))
  {
  }

  lemma BackedOffOk(ids: set<Id>, h: History, n: Node, src: Id, a: AppendArgs, r: AppendResult)
    requires NodeOk(ids, h, n)
    requires n.role == Leader && n.currentTerm == a.term
    requires 0 <= a.prevLogIndex && a.prevLogIndex + |a.entries| <= |LeaderLog(h, a.term)|
    requires AppendReplyOk(h, src, a, r) && !r.success && r.term <= a.term
    ensures NodeOk(ids, h, OnAppendReply(n, src, a, r))
    ensures 1 <= BackOff(n, src, r) <= a.prevLogIndex
  {
    LastIndexOfTermIsLast(n.log, r.conflictTerm, |n.log|);
  }

  /** The peers that the leader believes to hold index i. */
  function Holding(peers: seq<Id>, matchIndex: map<Id, int>, i: int): set<Id> {
    set p | p in peers && Lookup(matchIndex, p) >= i
  }

  /** The counting loop counts distinct peers. */
  lemma {:induction false} CountIsSize(peers: seq<Id>, matchIndex: map<Id, int>, i: int)
    requires NoDuplicates(peers)
    ensures CountMatching(peers, matchIndex, i) == |Holding(peers, matchIndex, i)|
  {
    if |peers| > 0 {
      CountIsSize(peers[..|peers| - 1], matchIndex, i);
      HoldingGrows(peers, matchIndex, i);
    }
  }

  lemma HoldingGrows(peers: seq<Id>, matchIndex: map<Id, int>, i: int)
    requires NoDuplicates(peers) && |peers| > 0
    ensures var rest, last := peers[..|peers| - 1], peers[|peers| - 1];
            && last !in Holding(rest, matchIndex, i)
            && Holding(peers, matchIndex, i) ==
               if Lookup(matchIndex, last) >= i then Holding(rest, matchIndex, i) + {last} else Holding(rest, matchIndex, i)
  {
    var rest, last := peers[..|peers| - 1], peers[|peers| - 1];
    assert peers == rest + [last];
  }

  /** What checkCommit commits is committed: a quorum has acknowledged it in the leader's own term. */
  lemma CommittableCommitted(ids: set<Id>, h: History, n: Node, i: int)
    requires ConfigOk(ids, n) && LeaderOk(h, n) && n.role == Leader && 1 <= n.currentTerm
    requires Committable(n, i)
    ensures Committed(ids, h, n.currentTerm, i)
  {
    QuorumSizeIsMajority(ids, n);
    CountIsSize(n.peers, n.matchIndex, i);
    var holders := Holding(n.peers, n.matchIndex, i);
    var q := holders + {n.id};
    assert n.id !in holders by {
      assert n.id !in ElementsOf(n.peers);
    }
    assert holders <= ElementsOf(n.peers);
    assert IsQuorum(ids, q);
    assert AckedBy(h, q, n.currentTerm, i);
  }

  lemma CheckCommitOk(ids: set<Id>, h: History, n: Node)
    requires TermsOk(ids, h) && NodeOk(ids, h, n)
    requires n.role == Leader
    ensures NodeOk(ids, h, CheckCommit(n))
  {
    var n' := CheckCommit(n);
    assert TermOk(ids, h, n.currentTerm);
    CommitTargetIsLargest(n, |n.log|);
    if n'.commitIndex > n.commitIndex {
      CommittableCommitted(ids, h, n, n'.commitIndex);
      assert BackedBy(ids, h, n.log, n'.commitIndex, n.currentTerm, n.currentTerm, n'.commitIndex);
    }
  }

  // --------------------------------------------------------------- applying

  /** The collecting loop catches up with the commit index, emitting each entry once and in order, and
      never meets a missing entry. */
  lemma {:induction false} CollectsAll(n: Node)
    requires 0 <= n.commitIndex <= |n.log|
    requires ApplyOk(n)
    ensures CollectApply(n) == n.(lastApplied := n.commitIndex, emitted := CollectApply(n).emitted)
    ensures ApplyOk(CollectApply(n))
    ensures n.emitted <= CollectApply(n).emitted
    decreases n.commitIndex - n.lastApplied
  {
    if n.lastApplied < n.commitIndex {
      var e := n.log[n.lastApplied];
      var m := n.(lastApplied := n.lastApplied + 1, emitted := n.emitted + [ToApply(e)]);
      assert CollectApply(n) == CollectApply(m);
      CollectsAll(m);
    }
  }

  lemma CollectMoves(ids: set<Id>, h: History, n: Node)
    requires HistoryOk(ids, h) && NodeOk(ids, h, n)
    ensures Moves(ids, h, CollectApply(n), {}, h)
  {
    var n' := CollectApply(n);
    CollectsAll(n);
    RolesSame(ids, h, n, n');
    MovesAlone(ids, h, n', {});
  }

  lemma DeliverMoves(ids: set<Id>, h: History, n: Node)
    requires HistoryOk(ids, h) && NodeOk(ids, h, n)
    ensures Moves(ids, h, Deliver(n), {}, h)
  {
    RolesSame(ids, h, n, Deliver(n));
    MovesAlone(ids, h, Deliver(n), {});
  }

  /** Roles do not look at what has been applied. */
  lemma RolesSame(ids: set<Id>, h: History, n: Node, n': Node)
    requires CandidateOk(ids, h, n) && LeaderOk(h, n)
    requires n' == n.(lastApplied := n'.lastApplied, emitted := n'.emitted, delivered := n'.delivered)
    ensures CandidateOk(ids, h, n') && LeaderOk(h, n')
  {
    if n.role == Candidate {
      var g :| CountedVotes(ids, h, n, g);
      assert CountedVotes(ids, h, n', g);
    }
  }
}
