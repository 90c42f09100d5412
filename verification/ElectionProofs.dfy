/** The steps of an election keep the invariant. */
module ElectionProofs {
  import opened Types
  import opened LogSpec
  import opened Steps
  import opened Histories
  import opened Clusters
  import opened HistoryProofs

  // ------------------------------------------------------------- standing

  lemma ElectionMoves(ids: set<Id>, h: History, n: Node)
    requires HistoryOk(ids, h) && NodeOk(ids, h, n)
    ensures var n' := StartElection(n);
            Moves(ids, h, n', VoteRequests(n'), RecordElection(h, n'))
  {
    var n' := StartElection(n);
    ElectionIsStep(h, n);
    ElectionHistoryOk(ids, h, n);
    ElectionNodeOk(ids, h, n);
    ElectionSentOk(ids, h, n);
  }

  lemma ElectionIsStep(h: History, n: Node)
    requires BallotOk(h, n)
    ensures HistoryStep(h, RecordElection(h, StartElection(n)), n.id, n.currentTerm + 1)
  {
  }

  lemma ElectionSentOk(ids: set<Id>, h: History, n: Node)
    requires ConfigOk(ids, n)
    ensures SentOk(ids, RecordElection(h, StartElection(n)), VoteRequests(StartElection(n)))
  {
    forall p | p in n.peers
      ensures p != n.id
    {
      assert p in ElementsOf(n.peers);
    }
  }

  lemma ElectionHistoryOk(ids: set<Id>, h: History, n: Node)
    requires HistoryOk(ids, h) && NodeOk(ids, h, n)
    ensures HistoryOk(ids, RecordElection(h, StartElection(n)))
  {
    var h' := RecordElection(h, StartElection(n));
    var t := n.currentTerm + 1;
    ElectionIsStep(h, n);
    ElectorsFrame(ids, h, h', n.id, t);
    TermsFrame(ids, h, h', n.id, t);
    PastFrame(ids, h, h', n.id, t);
    ElectionVotesOk(ids, h, n);
    ElectionStandingOk(h, n);
  }

  lemma ElectionStandingOk(h: History, n: Node)
    requires StandingOk(h) && BallotOk(h, n) && NodeLogOk(h, n)
    ensures StandingOk(RecordElection(h, StartElection(n)))
  {
    var h' := RecordElection(h, StartElection(n));
    var t := n.currentTerm + 1;
    ElectionIsStep(h, n);
    StandingFrame(h, h', n.id, t);
    LogInStep(h, h', n.id, t, n.log);
  }

  lemma ElectionVotesOk(ids: set<Id>, h: History, n: Node)
    requires TermsOk(ids, h) && AcksOk(ids, h) && VotesOk(h)
    requires BallotOk(h, n) && AckedOk(h, n.id, n.log, n.currentTerm)
    ensures VotesOk(RecordElection(h, StartElection(n)))
  {
    var h' := RecordElection(h, StartElection(n));
    var t := n.currentTerm + 1;
    ElectionIsStep(h, n);
    VotesFrame(ids, h, h', n.id, t);
    SelfVoteKept(h, n);
    VoterKeptStep(ids, h, h', n.id, t, n.id, n.log, t);
    assert VoteOk(h', t, n.id);
  }

  lemma SelfVoteKept(h: History, n: Node)
    requires AckedOk(h, n.id, n.log, n.currentTerm)
    ensures VoterKept(h, n.id, n.log, n.currentTerm + 1)
  {
    forall t, m | t < n.currentTerm + 1 && 0 < m <= Ack(h, t, n.id) && OwnEntry(h, t, m)
      ensures Kept(h, t, m, n.log, n.currentTerm + 1)
    {
      assert AckKept(h, n.log, n.currentTerm, t, m);
    }
  }

  lemma ElectionNodeOk(ids: set<Id>, h: History, n: Node)
    requires HistoryOk(ids, h) && NodeOk(ids, h, n)
    ensures NodeOk(ids, RecordElection(h, StartElection(n)), StartElection(n))
  {
    hide TermsOk, ElectorsOk, VotesOk, StandingOk, AcksOk, PastOk, HistoryStep, Backed, AckedOk, LogIn, ApplyOk, TermsUpTo;
    var n' := StartElection(n);
    var h' := RecordElection(h, n');
    var t := n'.currentTerm;
    ElectionIsStep(h, n);
    ElectionTerms(n);
    LogInStep(h, h', n.id, t, n.log);
    AckedLater(h, n.id, n.log, n.currentTerm, t);
    AckedSame(h, h', n');
    BackedStep(ids, h, h', n.id, t, n.log, n.commitIndex, n.currentTerm, t);
    assert CountedVotes(ids, h', n', {n.id});
  }

  lemma ElectionTerms(n: Node)
    ensures TermsUpTo(n.log, n.currentTerm) ==> TermsUpTo(StartElection(n).log, n.currentTerm + 1)
    ensures ApplyOk(n) ==> ApplyOk(StartElection(n))
  {
  }

  /** What is kept does not depend on votes or standings. */
  lemma AckedSame(h: History, h': History, n: Node)
    requires AckedOk(h, n.id, n.log, n.currentTerm)
    requires h'.terms == h.terms && h'.acks == h.acks
    ensures AckedOk(h', n.id, n.log, n.currentTerm)
  {
    forall t, m | 0 < m <= Ack(h', t, n.id)
      ensures AckKept(h', n.log, n.currentTerm, t, m)
    {
      assert AckKept(h, n.log, n.currentTerm, t, m);
      if !Agree(LeaderLog(h, t), n.log, m) {
        var u :| t < u < n.currentTerm + 1 && u in h.terms && !Agree(LeaderLog(h, t), LeaderLog(h, u), m);
        assert !Agree(LeaderLog(h', t), LeaderLog(h', u), m);
      }
    }
  }

  // --------------------------------------------------------------- voting

  lemma VoteMoves(ids: set<Id>, h: History, n: Node, a: VoteArgs)
    requires HistoryOk(ids, h) && NodeOk(ids, h, n)
    requires VoteRequestOk(h, n.id, a)
    ensures var (n', r) := HandleRequestVote(n, a);
            Moves(ids, h, n', {VoteReply(n.id, a, r)}, if r.granted then RecordVote(h, n') else h)
  {
    hide HistoryOk, NodeOk;
    if a.term > n.currentTerm {
      StepDownOk(ids, h, n, a.term);
      VoteInTermMoves(ids, h, StepDown(n, a.term), a);
    } else {
      VoteInTermMoves(ids, h, n, a);
    }
  }

  lemma VoteInTermMoves(ids: set<Id>, h: History, n: Node, a: VoteArgs)
    requires HistoryOk(ids, h) && NodeOk(ids, h, n)
    requires VoteRequestOk(h, n.id, a)
    requires a.term <= n.currentTerm
    ensures var (n', r) := HandleRequestVote(n, a);
            Moves(ids, h, n', {VoteReply(n.id, a, r)}, if r.granted then RecordVote(h, n') else h)
  {
    hide TermsOk, ElectorsOk, VotesOk, StandingOk, AcksOk, PastOk, ConfigOk, CandidateOk, LeaderOk, NodeLogOk, AckedOk, CommitOk, ApplyOk;
    var (n', r) := HandleRequestVote(n, a);
    if r.granted {
      GrantIsStep(ids, h, n, a);
      GrantHistoryOk(ids, h, n, a);
      GrantNodeOk(ids, h, n, a);
    } else {
      MovesAlone(ids, h, n', {VoteReply(n.id, a, r)});
    }
  }

  ghost predicate CanGrant(h: History, n: Node, a: VoteArgs) {
    && VoteRequestOk(h, n.id, a)
    && n.currentTerm == a.term
    && (n.votedFor == "" || n.votedFor == a.candidateId)
    && UpToDate(n.log, a.lastLogIndex, a.lastLogTerm)
  }

  lemma GrantIsStep(ids: set<Id>, h: History, n: Node, a: VoteArgs)
    requires BallotOk(h, n)
    requires CanGrant(h, n, a)
    ensures HistoryStep(h, RecordVote(h, n.(votedFor := a.candidateId)), n.id, a.term)
  {
  }

  lemma GrantHistoryOk(ids: set<Id>, h: History, n: Node, a: VoteArgs)
    requires HistoryOk(ids, h) && NodeOk(ids, h, n)
    requires CanGrant(h, n, a)
    ensures HistoryOk(ids, RecordVote(h, n.(votedFor := a.candidateId)))
  {
    var h' := RecordVote(h, n.(votedFor := a.candidateId));
    var t := a.term;
    GrantIsStep(ids, h, n, a);
    ElectorsFrame(ids, h, h', n.id, t);
    StandingFrame(h, h', n.id, t);
    TermsFrame(ids, h, h', n.id, t);
    PastFrame(ids, h, h', n.id, t);
    GrantVotesOk(ids, h, n, a);
  }

  lemma GrantVotesOk(ids: set<Id>, h: History, n: Node, a: VoteArgs)
    requires HistoryOk(ids, h) && NodeOk(ids, h, n)
    requires CanGrant(h, n, a)
    ensures VotesOk(RecordVote(h, n.(votedFor := a.candidateId)))
  {
    var h' := RecordVote(h, n.(votedFor := a.candidateId));
    var t := a.term;
    GrantIsStep(ids, h, n, a);
    VotesFrame(ids, h, h', n.id, t);
    if t !in h.terms {
      var cand := h.standing[(t, a.candidateId)];
      GrantKept(ids, h, n, cand, t);
      VoterKeptStep(ids, h, h', n.id, t, n.id, cand, t);
      assert VoteOk(h', t, n.id);
    }
  }

  lemma GrantNodeOk(ids: set<Id>, h: History, n: Node, a: VoteArgs)
    requires NodeOk(ids, h, n)
    requires CanGrant(h, n, a)
    ensures NodeOk(ids, RecordVote(h, n.(votedFor := a.candidateId)), n.(votedFor := a.candidateId))
  {
    var n' := n.(votedFor := a.candidateId);
    var h' := RecordVote(h, n');
    GrantIsStep(ids, h, n, a);
    LogInStep(h, h', n.id, a.term, n.log);
    AckedSame(h, h', n');
    BackedStep(ids, h, h', n.id, a.term, n.log, n.commitIndex, a.term, a.term);
    GrantRoles(ids, h, n, a);
    GrantBallot(h, n, a);
  }

  lemma GrantBallot(h: History, n: Node, a: VoteArgs)
    requires BallotOk(h, n)
    requires CanGrant(h, n, a)
    ensures BallotOk(RecordVote(h, n.(votedFor := a.candidateId)), n.(votedFor := a.candidateId))
  {
  }

  lemma GrantRoles(ids: set<Id>, h: History, n: Node, a: VoteArgs)
    requires NodeOk(ids, h, n)
    requires VoteRequestOk(h, n.id, a)
    requires n.currentTerm == a.term
    requires n.votedFor == "" || n.votedFor == a.candidateId
    ensures var n' := n.(votedFor := a.candidateId);
            CandidateOk(ids, RecordVote(h, n'), n') && LeaderOk(RecordVote(h, n'), n')
  {
    assert n.role != Candidate;
  }

  /** The voter's acknowledgements are kept by the candidate it votes for. */
  lemma GrantKept(ids: set<Id>, h: History, n: Node, cand: Log, u: int)
    requires TermsOk(ids, h) && LogIn(h, n.log) && AckedOk(h, n.id, n.log, n.currentTerm)
    requires u == n.currentTerm && u !in h.terms
    requires LogIn(h, cand) && TermsUpTo(cand, u - 1)
    requires UpToDate(n.log, |cand|, LastTerm(cand))
    ensures VoterKept(h, n.id, cand, u)
  {
    forall t, m | t < u && 0 < m <= Ack(h, t, n.id) && OwnEntry(h, t, m)
      ensures Kept(h, t, m, cand, u)
    {
      assert AckKept(h, n.log, n.currentTerm, t, m);
      if Agree(LeaderLog(h, t), n.log, m) {
        UpToDateKept(ids, h, t, m, n.log, cand, u);
      } else {
        var v :| t < v < u + 1 && v in h.terms && !Agree(LeaderLog(h, t), LeaderLog(h, v), m);
        assert t < v < u;
      }
    }
  }

  // -------------------------------------------------------------- winning

  lemma VoteAnswerMoves(ids: set<Id>, h: History, n: Node, src: Id, a: VoteArgs, r: VoteResult)
    requires HistoryOk(ids, h) && NodeOk(ids, h, n)
    requires VoteReplyOk(h, src, a, r) && a.candidateId == n.id
    ensures var n' := OnVoteReply(n, src, a, r);
            Moves(ids, h, n', {}, RecordWin(ids, h, n, n'))
  {
    hide HistoryOk, NodeOk;
    if n.role != Candidate || n.currentTerm != a.term || src !in n.awaiting {
      MovesAlone(ids, h, n, {});
    } else {
      CountOk(ids, h, n, src, r.granted);
      var waiting := n.(awaiting := n.awaiting - {src});
      assert OnVoteReply(n, src, a, r) ==
             if r.term > n.currentTerm then StepDown(waiting, r.term)
             else if r.granted then CheckWon(waiting.(votesReceived := n.votesReceived + 1))
             else waiting;
      CountedMoves(ids, h, n.(awaiting := n.awaiting - {src}), r);
    }
  }

  lemma CountedMoves(ids: set<Id>, h: History, n: Node, r: VoteResult)
    requires HistoryOk(ids, h) && NodeOk(ids, h, n)
    requires n.role == Candidate
    requires r.granted ==> NodeOk(ids, h, n.(votesReceived := n.votesReceived + 1))
    ensures r.term > n.currentTerm ==> Moves(ids, h, StepDown(n, r.term), {}, h)
    ensures r.term <= n.currentTerm && r.granted ==>
              var counted := n.(votesReceived := n.votesReceived + 1);
              Moves(ids, h, CheckWon(counted), {}, RecordWin(ids, h, counted, CheckWon(counted)))
    ensures r.term <= n.currentTerm && !r.granted ==> Moves(ids, h, n, {}, h)
  {
    hide HistoryOk, NodeOk;
    if r.term > n.currentTerm {
      StepDownOk(ids, h, n, r.term);
      MovesAlone(ids, h, StepDown(n, r.term), {});
    } else if r.granted {
      WonMoves(ids, h, n.(votesReceived := n.votesReceived + 1));
    } else {
      MovesAlone(ids, h, n, {});
    }
  }

  /** Consuming a reply: the counter still counts distinct voters. */
  lemma CountOk(ids: set<Id>, h: History, n: Node, peer: Id, granted: bool)
    requires NodeOk(ids, h, n)
    requires n.role == Candidate && peer in n.awaiting
    requires granted ==> (n.currentTerm, peer) in h.votes && h.votes[(n.currentTerm, peer)] == n.id
    ensures NodeOk(ids, h, n.(awaiting := n.awaiting - {peer}))
    ensures granted ==> NodeOk(ids, h, n.(awaiting := n.awaiting - {peer}, votesReceived := n.votesReceived + 1))
  {
    var g :| CountedVotes(ids, h, n, g);
    var n' := n.(awaiting := n.awaiting - {peer});
    assert CountedVotes(ids, h, n', g);
    if granted {
      var n'' := n'.(votesReceived := n.votesReceived + 1);
      assert CountedVotes(ids, h, n'', g + {peer});
    }
  }

  /** The test for a won election. */
  lemma WonMoves(ids: set<Id>, h: History, n: Node)
    requires HistoryOk(ids, h) && NodeOk(ids, h, n)
    ensures Moves(ids, h, CheckWon(n), {}, RecordWin(ids, h, n, CheckWon(n)))
  {
    hide TermsOk, ElectorsOk, VotesOk, StandingOk, AcksOk, PastOk, ConfigOk, BallotOk, CandidateOk, LeaderOk, NodeLogOk, AckedOk, CommitOk, ApplyOk;
    if n.role == Candidate && n.votesReceived >= QuorumSize(n) {
      WinIsFirst(ids, h, n);
      WinIsStep(ids, h, n);
      WinHistoryOk(ids, h, n);
      WinNodeOk(ids, h, n);
    } else {
      MovesAlone(ids, h, n, {});
    }
  }

  /** Election safety at the moment it matters: a candidate with a quorum is the first to win its term. */
  lemma WinIsFirst(ids: set<Id>, h: History, n: Node)
    requires HistoryOk(ids, h) && NodeOk(ids, h, n)
    requires n.role == Candidate && n.votesReceived >= QuorumSize(n)
    ensures n.currentTerm !in h.terms
    ensures IsQuorum(ids, Voters(ids, h, n.currentTerm, n.id))
  {
    var t := n.currentTerm;
    var g :| CountedVotes(ids, h, n, g);
    QuorumSizeIsMajority(ids, n);
    SubsetSize(g, Voters(ids, h, t, n.id));
    if t in h.terms {
      assert TermOk(ids, h, t);
      var p := QuorumsMeet(ids, g, h.terms[t].electors);
      assert false;
    }
  }

  lemma WinIsStep(ids: set<Id>, h: History, n: Node)
    requires AcksOk(ids, h)
    requires n.currentTerm !in h.terms
    ensures HistoryStep(h, RecordLead(ids, h, BecomeLeader(n)), n.id, n.currentTerm)
  {
    hide BecomeLeader, Voters;
    var h' := RecordLead(ids, h, BecomeLeader(n));
    WinKeepsName(n);
    assert (n.currentTerm, n.id) !in h.acks;
    assert TermsStep(h, h', n.id, n.currentTerm);
    assert AcksStep(h, h', n.id, n.currentTerm);
  }

  lemma WinKeepsName(n: Node)
    ensures BecomeLeader(n).id == n.id && BecomeLeader(n).currentTerm == n.currentTerm
  {
  }

  lemma WinHistoryOk(ids: set<Id>, h: History, n: Node)
    requires HistoryOk(ids, h) && NodeOk(ids, h, n)
    requires n.role == Candidate && n.currentTerm !in h.terms
    requires IsQuorum(ids, Voters(ids, h, n.currentTerm, n.id))
    ensures HistoryOk(ids, RecordLead(ids, h, BecomeLeader(n)))
  {
    hide TermsOk, ElectorsOk, VotesOk, StandingOk, AcksOk, PastOk, BallotOk, CandidateOk, LeaderOk, NodeLogOk, AckedOk, CommitOk,
         ApplyOk, BecomeLeader, RecordLead;
    WinKeepsRest(ids, h, n);
    WinAcksOk(ids, h, n);
    WinTermsOk(ids, h, n);
    WinElectorsOk(ids, h, n);
    WinJoins(ids, RecordLead(ids, h, BecomeLeader(n)));
  }

  lemma WinJoins(ids: set<Id>, h: History)
    requires TermsOk(ids, h) && ElectorsOk(h) && VotesOk(h) && StandingOk(h) && AcksOk(ids, h) && PastOk(ids, h)
    ensures HistoryOk(ids, h)
  {
    hide TermsOk, ElectorsOk, VotesOk, StandingOk, AcksOk, PastOk;
  }

  lemma WinKeepsRest(ids: set<Id>, h: History, n: Node)
    requires HistoryOk(ids, h) && NodeOk(ids, h, n)
    requires n.role == Candidate && n.currentTerm !in h.terms
    ensures var h' := RecordLead(ids, h, BecomeLeader(n));
            VotesOk(h') && StandingOk(h') && PastOk(ids, h')
  {
    hide CandidateOk, LeaderOk, NodeLogOk, AckedOk, CommitOk, ApplyOk, HistoryStep, TermsOk, ElectorsOk,
         AcksOk, BecomeLeader, VoteOk;
    var h' := RecordLead(ids, h, BecomeLeader(n));
    var t := n.currentTerm;
    WinIsStep(ids, h, n);
    VotesFrame(ids, h, h', n.id, t);
    StandingFrame(h, h', n.id, t);
    PastFrame(ids, h, h', n.id, t);
    WinKeepsName(n);
  }

  lemma WinAcksOk(ids: set<Id>, h: History, n: Node)
    requires AcksOk(ids, h) && n.id in ids && n.currentTerm !in h.terms
    ensures AcksOk(ids, RecordLead(ids, h, BecomeLeader(n)))
  {
  }

  lemma WinTermsOk(ids: set<Id>, h: History, n: Node)
    requires HistoryOk(ids, h) && NodeOk(ids, h, n)
    requires n.role == Candidate && n.currentTerm !in h.terms
    requires IsQuorum(ids, Voters(ids, h, n.currentTerm, n.id))
    ensures TermsOk(ids, RecordLead(ids, h, BecomeLeader(n)))
  {
    WinIsStep(ids, h, n);
    StandsBelow(ids, h, n);
    TermsFrame(ids, h, RecordLead(ids, h, BecomeLeader(n)), n.id, n.currentTerm);
    WinTermOk(ids, h, n);
  }

  lemma WinTermOk(ids: set<Id>, h: History, n: Node)
    requires LogIn(h, n.log) && TermsUpTo(n.log, n.currentTerm - 1)
    requires n.id in ids && 1 <= n.currentTerm && n.currentTerm !in h.terms
    requires HistoryStep(h, RecordLead(ids, h, BecomeLeader(n)), n.id, n.currentTerm)
    requires IsQuorum(ids, Voters(ids, h, n.currentTerm, n.id))
    ensures TermOk(ids, RecordLead(ids, h, BecomeLeader(n)), n.currentTerm)
  {
    var n' := BecomeLeader(n);
    var h' := RecordLead(ids, h, n');
    LogInStep(h, h', n.id, n.currentTerm, n.log);
    LogInExtended(h', n.log, n'.log);
  }

  lemma WinElectorsOk(ids: set<Id>, h: History, n: Node)
    requires HistoryOk(ids, h) && NodeOk(ids, h, n)
    requires n.role == Candidate && n.currentTerm !in h.terms
    ensures ElectorsOk(RecordLead(ids, h, BecomeLeader(n)))
  {
    var n' := BecomeLeader(n);
    var h' := RecordLead(ids, h, n');
    var t := n.currentTerm;
    WinIsStep(ids, h, n);
    ElectorsFrame(ids, h, h', n.id, t);
    forall p | p in h'.terms[t].electors
      ensures VoterKept(h', p, LeaderLog(h', t), t)
    {
      assert VoteOk(h, t, p);
      VoterKeptStep(ids, h, h', n.id, t, p, n.log, t);
      VoterKeptLonger(h', p, n.log, n'.log, t);
    }
  }

  /** The no-op that a new leader appends is the first entry of its term. */
  lemma StandsBelow(ids: set<Id>, h: History, n: Node)
    requires HistoryOk(ids, h) && NodeOk(ids, h, n)
    requires n.role == Candidate
    ensures TermsUpTo(n.log, n.currentTerm - 1)
  {
    assert TermsUpTo(h.standing[(n.currentTerm, n.id)], n.currentTerm - 1);
  }

  /** Adding to a leader's log an entry of its own term, with the next index. */
  lemma LogInExtended(h: History, log: Log, log': Log)
    requires LogIn(h, log)
    requires |log'| == |log| + 1 && Agree(log, log', |log|)
    requires var e := log'[|log|];
             e.index == |log| + 1 && 1 <= e.term && e.term in h.terms && LeaderLog(h, e.term) == log'
    ensures LogIn(h, log')
  {
    forall i | 0 <= i < |log'|
      ensures EntryIn(h, log', i)
    {
      if i < |log| {
        assert EntryIn(h, log, i);
      }
    }
  }

  lemma WinNodeOk(ids: set<Id>, h: History, n: Node)
    requires HistoryOk(ids, h) && NodeOk(ids, h, n)
    requires n.role == Candidate && n.currentTerm !in h.terms
    requires HistoryOk(ids, RecordLead(ids, h, BecomeLeader(n)))
    ensures NodeOk(ids, RecordLead(ids, h, BecomeLeader(n)), BecomeLeader(n))
  {
    hide ElectorsOk, VotesOk, StandingOk, PastOk, HistoryStep, AckedOk;
    var n' := BecomeLeader(n);
    var h' := RecordLead(ids, h, n');
    WinIsStep(ids, h, n);
    assert TermOk(ids, h', n.currentTerm);
    LeadAcked(ids, h, h', n, n');
    LeadCommit(ids, h, h', n, n');
    WinLeaderOk(ids, h', n, n');
    WinBallot(ids, h, n);
  }

  lemma WinBallot(ids: set<Id>, h: History, n: Node)
    requires BallotOk(h, n)
    ensures BallotOk(RecordLead(ids, h, BecomeLeader(n)), BecomeLeader(n))
  {
  }

  /** Extending the log leaves the committed prefix and what was emitted from it in place. */
  lemma LeadCommit(ids: set<Id>, h: History, h': History, n: Node, n': Node)
    requires CommitOk(ids, h, n) && ApplyOk(n)
    requires HistoryStep(h, h', n.id, n.currentTerm)
    requires n' == n.(log := n'.log, role := n'.role, leaderId := n'.leaderId, nextIndex := n'.nextIndex,
                      matchIndex := n'.matchIndex)
    requires Agree(n.log, n'.log, |n.log|)
    ensures CommitOk(ids, h', n') && ApplyOk(n')
  {
    BackedStep(ids, h, h', n.id, n.currentTerm, n.log, n.commitIndex, n.currentTerm, n.currentTerm);
    BackedOther(ids, h', n.log, n'.log, n.commitIndex, n.currentTerm);
  }

  lemma WinLeaderOk(ids: set<Id>, h: History, n: Node, n': Node)
    requires AcksOk(ids, h)
    requires n' == BecomeLeader(n)
    requires n.currentTerm in h.terms && h.terms[n.currentTerm].leader == n.id
    requires LeaderLog(h, n.currentTerm) == n'.log && Ack(h, n.currentTerm, n.id) == |n'.log|
    ensures LeaderOk(h, n')
  {
    forall p | p in n'.peers
      ensures 0 <= Lookup(n'.matchIndex, p) <= Ack(h, n.currentTerm, p)
    {
      assert (n.currentTerm, p) in h.acks ==> 0 <= h.acks[(n.currentTerm, p)];
    }
  }

  /** A leader that has just extended its log keeps everything it acknowledged. */
  lemma LeadAcked(ids: set<Id>, h: History, h': History, n: Node, n': Node)
    requires TermsOk(ids, h) && AcksOk(ids, h)
    requires AckedOk(h, n.id, n.log, n.currentTerm)
    requires HistoryStep(h, h', n.id, n.currentTerm)
    requires n'.id == n.id && n'.currentTerm == n.currentTerm
    requires Agree(n.log, n'.log, |n.log|)
    requires LeaderLog(h', n.currentTerm) == n'.log
    requires Ack(h', n.currentTerm, n.id) <= |n'.log|
    ensures AckedOk(h', n'.id, n'.log, n'.currentTerm)
  {
    forall t, m | 0 < m <= Ack(h', t, n'.id)
      ensures AckKept(h', n'.log, n'.currentTerm, t, m)
    {
      if t != n.currentTerm {
        assert Ack(h', t, n.id) == Ack(h, t, n.id);
        assert (t, n.id) in h.acks;
        assert AckKept(h, n.log, n.currentTerm, t, m);
        KeptStep(ids, h, h', n.id, n.currentTerm, t, m, n.log, n.currentTerm + 1);
      } else {
        assert Agree(LeaderLog(h', t), n'.log, m);
      }
    }
  }
}
