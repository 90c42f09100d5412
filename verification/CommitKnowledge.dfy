/** Who knows what to be committed: as long as no later term has a leader, nobody knows an entry of the
    leader's own term to be committed before the leader itself does. */
module CommitKnowledge {
  import opened Types
  import opened LogSpec
  import opened Steps
  import opened Histories
  import opened Clusters
  import opened ElectionProofs
  import opened ReplicationProofs
  import opened Invariant
  import opened Safety
  import opened Durability

  /** Where it can be read off that an index is committed. */
  datatype Source = AtNode(p: Id) | InFlight(m: Msg) | InPast(p: Id, k: nat)

  /** The source tells that index i, which holds an entry of term t, is committed. */
  ghost predicate Tells(s: Cluster, source: Source, t: int, i: int) {
    match source
    case AtNode(p) => p in s.nodes && 1 <= i <= s.nodes[p].commitIndex && TermAt(s.nodes[p].log, i) == t
    case InFlight(m) =>
      m in s.net && m.AppendRequest? && 1 <= i <= m.append.leaderCommit && TermAt(LeaderLog(s.h, m.append.term), i) == t
    case InPast(p, k) =>
      p in s.h.past && k < |s.h.past[p]| && 1 <= i <= |s.h.past[p][k]| && s.h.past[p][k][i - 1].term == t
  }

  /** Node l leads, and nobody leads or has led a later term. */
  ghost predicate LeadsLatest(s: Cluster, l: Id) {
    l in s.nodes && s.nodes[l].role == Leader && forall u :: u in s.h.terms ==> u <= s.nodes[l].currentTerm
  }

  ghost predicate Informed(s: Cluster) {
    forall l, source, i :: LeadsLatest(s, l) && Tells(s, source, s.nodes[l].currentTerm, i) ==> i <= s.nodes[l].commitIndex
  }

  // ------------------------------------------------- where knowledge comes from

  /** Some leader of term t or later has committed up to i. */
  ghost predicate LeaderKnows(s: Cluster, t: int, i: int) {
    exists l :: l in s.nodes && s.nodes[l].role == Leader && t <= s.nodes[l].currentTerm && i <= s.nodes[l].commitIndex
  }

  ghost predicate ToldBefore(s: Cluster, t: int, i: int) {
    exists source :: Tells(s, source, t, i)
  }

  /** A commit index rises only by a request that carries it, or at a leader. */
  lemma CommitRises(s: Cluster, step: Step, s': Cluster, p: Id)
    requires Inv(s) && NextBy(s, step, s')
    requires p in s.nodes && p in s'.nodes && s'.nodes[p].commitIndex > s.nodes[p].commitIndex
    ensures (step.Append? && step.m.AppendRequest? && step.m.dst == p) || s'.nodes[p].role == Leader
  {
    hide HistoryOk, NetOk, NodeOk, VoteWrites, AppendWrites, Replay, CollectApply, HandleRequestVote, OnVoteReply, CheckWon,
         HandleAppendEntries, OnAppendReply, RecordElection, RecordVote, RecordLead, RecordAck, RecordCrash, RecordSavedVote;
    assert NodeOk(s.ids, s.h, s.nodes[p]);
    CommitNonNegative(s, p);
    match step
    case Vote(m) => VoteKeepsCommit(s.nodes[m.dst], m.vote);
    case VoteAnswer(m) => VoteReplyKeepsCommit(s.nodes[m.vote.candidateId], m.src, m.vote, m.voteResult);
    case WaitOver(i) => WonKeepsCommit(s.nodes[i]);
    case AppendAnswer(m) => AnswerCommit(s.nodes[m.append.leaderId], m.src, m.append, m.appendResult);
    case Collect(i) =>
      if p == i {
        CollectKeepsCommit(s.ids, s.h, s.nodes[i]);
      }
    case _ =>
  }

  lemma CommitNonNegative(s: Cluster, p: Id)
    requires Inv(s) && p in s.nodes
    ensures 0 <= s.nodes[p].commitIndex <= |s.nodes[p].log|
  {
    hide HistoryOk, NetOk;
    assert NodeOk(s.ids, s.h, s.nodes[p]);
  }

  lemma VoteKeepsCommit(n: Node, a: VoteArgs)
    ensures HandleRequestVote(n, a).0.commitIndex == n.commitIndex
  {
  }

  lemma WonKeepsCommit(n: Node)
    ensures CheckWon(n).commitIndex == n.commitIndex
  {
  }

  lemma VoteReplyKeepsCommit(n: Node, src: Id, a: VoteArgs, r: VoteResult)
    ensures OnVoteReply(n, src, a, r).commitIndex == n.commitIndex
  {
  }

  lemma AnswerCommit(n: Node, src: Id, a: AppendArgs, r: AppendResult)
    ensures OnAppendReply(n, src, a, r).commitIndex > n.commitIndex ==> OnAppendReply(n, src, a, r).role == Leader
  {
  }

  lemma CollectKeepsCommit(ids: set<Id>, h: History, n: Node)
    requires NodeOk(ids, h, n)
    ensures CollectApply(n).commitIndex == n.commitIndex
  {
    CollectsAll(n);
  }

  /** What a request told the follower it had told before. */
  lemma RequestTold(s: Cluster, m: Msg, t: int, i: int)
    requires Inv(s) && m.AppendRequest? && Receives(s, m)
    requires var n' := HandleAppendEntries(s.nodes[m.dst], m.append).0;
             s.nodes[m.dst].commitIndex < i <= n'.commitIndex && TermAt(n'.log, i) == t
    ensures Tells(s, InFlight(m), t, i)
  {
    hide Inv, HandleAppendEntries;
    CommitVerified(s, m);
    CommitNonNegative(s, m.dst);
  }

  lemma NodeToldBefore(s: Cluster, step: Step, s': Cluster, p: Id, t: int, i: int)
    requires Inv(s) && NextBy(s, step, s')
    requires Tells(s', AtNode(p), t, i)
    ensures ToldBefore(s, t, i) || LeaderKnows(s', t, i)
  {
    hide Inv, NextBy, Backed;
    StepOk(s, step, s');
    KeysAreIds(s);
    KeysAreIds(s');
    CommitNonNegative(s, p);
    if i <= s.nodes[p].commitIndex {
      NodeBacked(s, p);
      StepKeepsCommitted(s, step, s', p, s.nodes[p].commitIndex);
      assert Tells(s, AtNode(p), t, i);
    } else {
      CommitRises(s, step, s', p);
      if s'.nodes[p].role == Leader {
        CommitNonNegative(s', p);
        TermsInLog(s', p, i);
      } else {
        assert NextBy(s, step, s');
        AppendTold(s, step, s', p, t, i);
      }
    }
  }

  lemma NodeBacked(s: Cluster, p: Id)
    requires Inv(s) && p in s.nodes
    ensures Backed(s.ids, s.h, s.nodes[p].log, s.nodes[p].commitIndex, s.nodes[p].currentTerm)
  {
    hide HistoryOk, NetOk;
    assert NodeOk(s.ids, s.h, s.nodes[p]);
  }

  lemma TermsInLog(s: Cluster, p: Id, i: int)
    requires Inv(s) && p in s.nodes && 1 <= i <= |s.nodes[p].log|
    ensures TermAt(s.nodes[p].log, i) <= s.nodes[p].currentTerm && TermAt(s.nodes[p].log, i) in s.h.terms
  {
    hide HistoryOk, NetOk;
    assert NodeOk(s.ids, s.h, s.nodes[p]) && EntryIn(s.h, s.nodes[p].log, i - 1);
  }

  lemma AppendTold(s: Cluster, step: Step, s': Cluster, p: Id, t: int, i: int)
    requires Inv(s) && NextBy(s, step, s')
    requires step.Append? && step.m.AppendRequest? && step.m.dst == p
    requires p in s.nodes && s.nodes[p].commitIndex < i && Tells(s', AtNode(p), t, i)
    ensures ToldBefore(s, t, i)
  {
    hide Inv, HandleAppendEntries;
    RequestTold(s, step.m, t, i);
  }

  /** A request tells no more than its sender knew. */
  lemma SentToldBefore(s: Cluster, step: Step, s': Cluster, m: Msg, t: int, i: int)
    requires Inv(s) && NextBy(s, step, s')
    requires Tells(s', InFlight(m), t, i)
    ensures ToldBefore(s, t, i)
  {
    hide Inv, NextBy;
    StepOk(s, step, s');
    if m in s.net {
      RequestInLog(s, m);
      assert RecordKept(s.h.terms[m.append.term], s'.h.terms[m.append.term]);
      assert Tells(s, InFlight(m), t, i);
    } else {
      NewRequest(s, step, s', m);
      SenderKnew(s, step, m, t, i);
    }
  }

  lemma RequestInLog(s: Cluster, m: Msg)
    requires Inv(s) && m in s.net && m.AppendRequest?
    ensures m.append.term in s.h.terms && m.append.leaderCommit <= |LeaderLog(s.h, m.append.term)|
  {
    hide HistoryOk, NodeOk;
    assert MsgOk(s.ids, s.h, m);
  }

  lemma NewRequest(s: Cluster, step: Step, s': Cluster, m: Msg)
    requires NextBy(s, step, s') && m.AppendRequest? && m in s'.net && m !in s.net
    ensures step.SendAppend? && step.i in s.nodes && step.peer in s.nodes[step.i].peers && step.hb in s.nodes[step.i].heartbeats
    ensures BuildAppend(s.nodes[step.i], step.peer, step.hb) == Some(m.append) && s'.h == s.h
  {
    hide HandleRequestVote, OnVoteReply, CheckWon, HandleAppendEntries, OnAppendReply, CollectApply, VoteWrites, AppendWrites,
         Replay, RecordElection, RecordVote, RecordLead, RecordAck, RecordCrash, RecordSavedVote, BuildAppend;
  }

  lemma SenderKnew(s: Cluster, step: Step, m: Msg, t: int, i: int)
    requires Inv(s) && m.AppendRequest?
    requires step.SendAppend? && step.i in s.nodes && step.peer in s.nodes[step.i].peers && step.hb in s.nodes[step.i].heartbeats
    requires BuildAppend(s.nodes[step.i], step.peer, step.hb) == Some(m.append)
    requires 1 <= i <= m.append.leaderCommit && TermAt(LeaderLog(s.h, m.append.term), i) == t
    ensures Tells(s, AtNode(step.i), t, i)
  {
    hide HistoryOk, NetOk, Backed;
    assert NodeOk(s.ids, s.h, s.nodes[step.i]);
  }

  /** What an incarnation had received when it ended, its node knew. */
  lemma PastToldBefore(s: Cluster, step: Step, s': Cluster, p: Id, k: nat, t: int, i: int)
    requires Inv(s) && NextBy(s, step, s')
    requires Tells(s', InPast(p, k), t, i)
    ensures ToldBefore(s, t, i)
  {
    hide Inv, NextBy;
    PastGrows(s, step, s', p);
    if p in s.h.past && k < |s.h.past[p]| {
      assert Tells(s, InPast(p, k), t, i);
    } else {
      ReceivedKnown(s, p, i);
      assert Tells(s, AtNode(p), t, i);
    }
  }

  lemma PastGrows(s: Cluster, step: Step, s': Cluster, p: Id)
    requires Inv(s) && NextBy(s, step, s') && p in s'.h.past
    ensures p in s.h.past
    ensures s'.h.past[p] == s.h.past[p] || (p in s.nodes && s'.h.past[p] == s.h.past[p] + [ReceivedBy(s.nodes[p])])
  {
    hide Inv, NextBy, RecordCrash;
    PastOnRecord(s);
    if step.Crash? || step.CrashInVote? || step.CrashInAppend? {
      var i, h := CrashRecorded(s, step, s');
      CrashAddsPast(h, s.nodes[i], p);
    } else {
      PastUntouched(s, step, s');
    }
  }

  lemma CrashAddsPast(h: History, n: Node, p: Id)
    requires n.id in h.past
    ensures RecordCrash(h, n).past.Keys == h.past.Keys
    ensures p in h.past ==>
              RecordCrash(h, n).past[p] == if p == n.id then h.past[p] + [ReceivedBy(n)] else h.past[p]
  {
  }

  lemma CrashRecorded(s: Cluster, step: Step, s': Cluster) returns (i: Id, h: History)
    requires NextBy(s, step, s') && (step.Crash? || step.CrashInVote? || step.CrashInAppend?)
    ensures i in s.nodes && h.past == s.h.past && s'.h == RecordCrash(h, s.nodes[i])
  {
    hide VoteWrites, AppendWrites, Replay, RecordCrash, Boot;
    h := s.h;
    match step
    case Crash(j) => i := j;
    case CrashInAppend(m, calls) => i := m.dst;
    case CrashInVote(m, calls) =>
      i := m.dst;
      h := RecordSavedVote(s.h, i, Replay(DurableOf(s.nodes[i]), VoteWrites(s.nodes[i], m.vote)[..calls]));
  }

  lemma PastUntouched(s: Cluster, step: Step, s': Cluster)
    requires NextBy(s, step, s') && !step.Crash? && !step.CrashInVote? && !step.CrashInAppend?
    ensures s'.h.past == s.h.past
  {
    hide HandleRequestVote, OnVoteReply, CheckWon, HandleAppendEntries, OnAppendReply, CollectApply, BuildAppend, StartElection,
         RecordElection, RecordVote, RecordWin, RecordLead, RecordAck;
    match step
    case Election(i) => RecordsKeepPast(s.ids, s.h, StartElection(s.nodes[i]), s.nodes[i]);
    case Vote(m) => RecordsKeepPast(s.ids, s.h, HandleRequestVote(s.nodes[m.dst], m.vote).0, s.nodes[m.dst]);
    case VoteAnswer(m) =>
      var n := s.nodes[m.vote.candidateId];
      RecordsKeepPast(s.ids, s.h, OnVoteReply(n, m.src, m.vote, m.voteResult), n);
    case WaitOver(i) => RecordsKeepPast(s.ids, s.h, CheckWon(s.nodes[i]), s.nodes[i]);
    case Proposal(i, command) => RecordsKeepPast(s.ids, s.h, Propose(s.nodes[i], command).0, s.nodes[i]);
    case Append(m) => AckKeepsPast(s.h, m.dst, m.append.term, m.append.prevLogIndex + |m.append.entries|);
    case _ =>
  }

  lemma PastOnRecord(s: Cluster)
    requires Inv(s)
    ensures s.h.past.Keys == s.ids == s.nodes.Keys
    ensures forall i :: i in s.nodes ==> s.nodes[i].id == i
  {
    hide TermsOk, ElectorsOk, VotesOk, StandingOk, AcksOk, NodeOk, NetOk;
  }

  lemma RecordsKeepPast(ids: set<Id>, h: History, n: Node, before: Node)
    ensures RecordElection(h, n).past == h.past
    ensures RecordVote(h, n).past == h.past
    ensures RecordLead(ids, h, n).past == h.past
    ensures RecordWin(ids, h, before, n).past == h.past
  {
  }

  lemma AckKeepsPast(h: History, i: Id, t: int, m: int)
    ensures RecordAck(h, i, t, m).past == h.past
  {
  }

  lemma ReceivedKnown(s: Cluster, p: Id, i: int)
    requires Inv(s) && p in s.nodes && 1 <= i <= |ReceivedBy(s.nodes[p])|
    ensures i <= s.nodes[p].commitIndex
    ensures ReceivedBy(s.nodes[p])[i - 1].term == TermAt(s.nodes[p].log, i)
  {
    hide HistoryOk, NetOk;
    assert NodeOk(s.ids, s.h, s.nodes[p]);
  }

  lemma StepTold(s: Cluster, step: Step, s': Cluster, source: Source, t: int, i: int)
    requires Inv(s) && NextBy(s, step, s')
    requires Tells(s', source, t, i)
    ensures ToldBefore(s, t, i) || LeaderKnows(s', t, i)
  {
    hide Inv, NextBy, Tells;
    match source
    case AtNode(p) => NodeToldBefore(s, step, s', p, t, i);
    case InFlight(m) => SentToldBefore(s, step, s', m, t, i);
    case InPast(p, k) => PastToldBefore(s, step, s', p, k, t, i);
  }

  // ------------------------------------------------------------ leadership

  /** What is known to be committed was made by a leader. */
  lemma ToldTerm(s: Cluster, source: Source, t: int, i: int)
    requires Inv(s) && Tells(s, source, t, i)
    ensures t in s.h.terms
  {
    hide Inv;
    match source
    case AtNode(p) =>
      CommitNonNegative(s, p);
      TermsInLog(s, p, i);
    case InFlight(m) =>
      RequestInLog(s, m);
      TermsInLeaderLog(s, m.append.term, i);
    case InPast(p, k) =>
      TermsInPast(s, p, k, i);
  }

  lemma TermsInLeaderLog(s: Cluster, u: int, i: int)
    requires Inv(s) && u in s.h.terms && 1 <= i <= |LeaderLog(s.h, u)|
    ensures TermAt(LeaderLog(s.h, u), i) in s.h.terms
  {
    hide ElectorsOk, VotesOk, StandingOk, AcksOk, PastOk, NodesOk, NetOk;
    assert TermOk(s.ids, s.h, u) && EntryIn(s.h, LeaderLog(s.h, u), i - 1);
  }

  lemma TermsInPast(s: Cluster, p: Id, k: nat, i: int)
    requires Inv(s) && p in s.h.past && k < |s.h.past[p]| && 1 <= i <= |s.h.past[p][k]|
    ensures s.h.past[p][k][i - 1].term in s.h.terms
  {
    hide ElectorsOk, VotesOk, StandingOk, AcksOk, NodesOk, NetOk;
    var stream := s.h.past[p][k];
    assert StreamBacked(s.ids, s.h, stream);
    var u, v :| StreamBackedBy(s.ids, s.h, stream, u, v);
    TermsInLeaderLog(s, u, i);
  }

  /** Leadership begins only in a term that had no leader. */
  lemma LeadsAfresh(s: Cluster, step: Step, s': Cluster, l: Id, t: int)
    requires Inv(s) && NextBy(s, step, s')
    requires Leads(s', l, t) && t in s.h.terms
    ensures Leads(s, l, t)
  {
    hide Inv, NextBy;
    if step.VoteAnswer? || step.WaitOver? {
      ElectedAfresh(s, step, s', l, t);
    } else if step.Crash? || step.CrashInVote? || step.CrashInAppend? {
      CrashedAfresh(s, step, s', l, t);
    } else {
      NobodyElected(s, step, s', l, t);
    }
  }

  lemma ElectedAfresh(s: Cluster, step: Step, s': Cluster, l: Id, t: int)
    requires Inv(s) && NextBy(s, step, s') && (step.VoteAnswer? || step.WaitOver?)
    requires Leads(s', l, t) && t in s.h.terms
    ensures Leads(s, l, t)
  {
    hide HistoryOk, NetOk, NodeOk, OnVoteReply, CheckWon, RecordWin;
    match step
    case VoteAnswer(m) =>
      if l == m.vote.candidateId {
        AnswerIsFresh(s, m);
      }
    case WaitOver(i) =>
      if l == i {
        assert NodeOk(s.ids, s.h, s.nodes[i]);
        WinIsFresh(s.ids, s.h, s.nodes[i]);
      }
  }

  lemma CrashedAfresh(s: Cluster, step: Step, s': Cluster, l: Id, t: int)
    requires NextBy(s, step, s') && (step.Crash? || step.CrashInVote? || step.CrashInAppend?)
    requires Leads(s', l, t)
    ensures Leads(s, l, t)
  {
    hide VoteWrites, AppendWrites, Replay, RecordCrash, RecordSavedVote;
  }

  lemma NobodyElected(s: Cluster, step: Step, s': Cluster, l: Id, t: int)
    requires Inv(s) && NextBy(s, step, s')
    requires !step.VoteAnswer? && !step.WaitOver? && !step.Crash? && !step.CrashInVote? && !step.CrashInAppend?
    requires Leads(s', l, t)
    ensures Leads(s, l, t)
  {
    hide HistoryOk, NetOk, NodeOk, CollectApply, HandleRequestVote, HandleAppendEntries, OnAppendReply, RecordElection, RecordVote,
         RecordLead, RecordAck, BuildAppend;
    match step
    case Vote(m) => VoteMakesNoLeader(s.nodes[m.dst], m.vote);
    case Append(m) => AppendMakesNoLeader(s.nodes[m.dst], m.append);
    case AppendAnswer(m) => ReplyMakesNoLeader(s.nodes[m.append.leaderId], m.src, m.append, m.appendResult);
    case Collect(i) =>
      assert NodeOk(s.ids, s.h, s.nodes[i]);
      CollectMakesNoLeader(s.ids, s.h, s.nodes[i]);
    case _ =>
  }

  ghost predicate SameRule(n: Node, n': Node) {
    n'.role == Leader ==> n.role == Leader && n.currentTerm == n'.currentTerm
  }

  lemma VoteMakesNoLeader(n: Node, a: VoteArgs)
    ensures SameRule(n, HandleRequestVote(n, a).0)
  {
  }

  lemma AppendMakesNoLeader(n: Node, a: AppendArgs)
    ensures SameRule(n, HandleAppendEntries(n, a).0)
  {
    hide Merge, Rejection;
  }

  lemma ReplyMakesNoLeader(n: Node, src: Id, a: AppendArgs, r: AppendResult)
    ensures SameRule(n, OnAppendReply(n, src, a, r))
  {
  }

  lemma CollectMakesNoLeader(ids: set<Id>, h: History, n: Node)
    requires NodeOk(ids, h, n)
    ensures SameRule(n, CollectApply(n))
  {
    CollectsAll(n);
  }

  lemma WinIsFresh(ids: set<Id>, h: History, n: Node)
    requires HistoryOk(ids, h) && NodeOk(ids, h, n)
    ensures SameRule(n, CheckWon(n)) || (CheckWon(n).currentTerm !in h.terms)
  {
    hide HistoryOk, NodeOk;
    if n.role == Candidate && n.votesReceived >= QuorumSize(n) {
      WinIsFirst(ids, h, n);
    }
  }

  lemma AnswerIsFresh(s: Cluster, m: Msg)
    requires Inv(s) && m.VoteReply? && Receives(s, m)
    ensures var n := s.nodes[m.vote.candidateId];
            var n' := OnVoteReply(n, m.src, m.vote, m.voteResult);
            SameRule(n, n') || n'.currentTerm !in s.h.terms
  {
    hide HistoryOk;
    var n := s.nodes[m.vote.candidateId];
    assert MsgOk(s.ids, s.h, m) && NodeOk(s.ids, s.h, n);
    if n.role == Candidate && n.currentTerm == m.vote.term && m.src in n.awaiting && m.voteResult.term <= n.currentTerm && m.voteResult.granted {
      var counted := n.(awaiting := n.awaiting - {m.src}, votesReceived := n.votesReceived + 1);
      CountOk(s.ids, s.h, n, m.src, true);
      WinIsFresh(s.ids, s.h, counted);
    }
  }

  // ------------------------------------------------------------ the invariant

  /** As long as no later term has a leader, the leader is the first to know about entries of its own term. */
  lemma StepInformed(s: Cluster, step: Step, s': Cluster)
    requires Inv(s) && NextBy(s, step, s') && Informed(s)
    ensures Informed(s')
  {
    hide Inv, NextBy, Tells;
    StepOk(s, step, s');
    forall l, source, i | LeadsLatest(s', l) && Tells(s', source, s'.nodes[l].currentTerm, i)
      ensures i <= s'.nodes[l].commitIndex
    {
      var t := s'.nodes[l].currentTerm;
      StepTold(s, step, s', source, t, i);
      if LeaderKnows(s', t, i) {
        var k :| k in s'.nodes && s'.nodes[k].role == Leader && t <= s'.nodes[k].currentTerm && i <= s'.nodes[k].commitIndex;
        SoleLeader(s', l, k);
      } else {
        var before :| Tells(s, before, t, i);
        ToldTerm(s, before, t, i);
        LeadsAfresh(s, step, s', l, t);
        LeadsKeepsBooks(s, step, s', l, t);
      }
    }
  }

  lemma SoleLeader(s: Cluster, l: Id, k: Id)
    requires Inv(s) && LeadsLatest(s, l)
    requires k in s.nodes && s.nodes[k].role == Leader && s.nodes[l].currentTerm <= s.nodes[k].currentTerm
    ensures k == l
  {
    hide Inv;
    LeaderOnRecord(s, k);
    LeaderOnRecord(s, l);
  }

  lemma LeaderOnRecord(s: Cluster, l: Id)
    requires Inv(s) && l in s.nodes && s.nodes[l].role == Leader
    ensures s.nodes[l].currentTerm in s.h.terms && s.h.terms[s.nodes[l].currentTerm].leader == l
    ensures LeaderLog(s.h, s.nodes[l].currentTerm) == s.nodes[l].log
  {
    hide HistoryOk, NetOk;
    assert NodeOk(s.ids, s.h, s.nodes[l]);
  }

  lemma LeadsKeepsBooks(s: Cluster, step: Step, s': Cluster, l: Id, t: int)
    requires Inv(s) && NextBy(s, step, s') && Leads(s, l, t) && Leads(s', l, t)
    ensures s.nodes[l].commitIndex <= s'.nodes[l].commitIndex
  {
    hide Inv;
    if Crashes(step, l) {
      hide VoteWrites, AppendWrites, Replay;
      assert false;
    }
    BooksGrow(s, step, s', l);
  }

  lemma {:induction false} RunInformed(run: seq<Cluster>, k: nat)
    requires IsRun(run) && k < |run|
    ensures Informed(run[k])
  {
    hide NextBy, Inv;
    if k > 0 {
      RunInformed(run, k - 1);
      RunOk(run, k - 1);
      assert Next(run[k - 1], run[k - 1 + 1]);
      var step :| NextBy(run[k - 1], step, run[k]);
      StepInformed(run[k - 1], step, run[k]);
    }
  }

  /** Whoever leads a term that had a leader at an earlier time led it then, with no higher commit index. */
  lemma {:induction false} LedSince(run: seq<Cluster>, i: nat, j: nat, l: Id, t: int)
    requires IsRun(run) && i <= j < |run|
    requires Leads(run[j], l, t) && t in run[i].h.terms
    ensures Leads(run[i], l, t)
    ensures run[i].nodes[l].commitIndex <= run[j].nodes[l].commitIndex
  {
    hide Init, NextBy, Inv, Extends;
    if i < j {
      RunOk(run, j - 1);
      assert Next(run[j - 1], run[j - 1 + 1]);
      var step :| NextBy(run[j - 1], step, run[j]);
      RunExtends(run, i, j - 1);
      TermKept(run[i].h, run[j - 1].h, t);
      LeadsAfresh(run[j - 1], step, run[j], l, t);
      LeadsKeepsBooks(run[j - 1], step, run[j], l, t);
      LedSince(run, i, j - 1, l, t);
    }
  }

  lemma TermKept(h: History, h': History, t: int)
    requires Extends(h, h') && t in h.terms
    ensures t in h'.terms
  {
  }
}
