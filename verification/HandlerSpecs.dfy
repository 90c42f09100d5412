/** What each critical section does in a reachable state, told from outside: by the votes in the history, the
    logs of leaders and the members of the cluster, not by the code's own tests. Each statement fixes the new
    state of the node and the answer it gives, in both directions. */
module HandlerSpecs {
  import opened Types
  import opened LogSpec
  import opened Steps
  import opened Histories
  import opened Clusters
  import opened HistoryProofs
  import opened ReplicationProofs
  import opened Invariant

  function Larger(a: int, b: int): int {
    if a >= b then a else b
  }

  // ------------------------------------------------------------------- votes

  /** Log x is at least as up to date as log y: a later last term, or the same one and no shorter. */
  predicate AtLeast(x: Log, y: Log) {
    LastTerm(x) > LastTerm(y) || (LastTerm(x) == LastTerm(y) && |x| >= |y|)
  }

  /** Node p has voted in term t for nobody but possibly c. */
  predicate FreeFor(h: History, p: Id, t: int, c: Id) {
    (t, p) in h.votes ==> h.votes[(t, p)] == c
  }

  /** How a vote request is answered: yes exactly if its term is not behind, the node has not voted for anybody
      else in it, and the log the candidate stood on is at least as up to date as the node's. */
  ghost predicate VoteDecided(s: Cluster, m: Msg)
    requires m.VoteRequest? && Receives(s, m)
  {
    var n, a := s.nodes[m.dst], m.vote;
    var (n', r) := HandleRequestVote(n, a);
    && (a.term, a.candidateId) in s.h.standing
    && (r.granted <==>
          && a.term >= n.currentTerm
          && FreeFor(s.h, m.dst, a.term, a.candidateId)
          && AtLeast(s.h.standing[(a.term, a.candidateId)], n.log))
    && r.term == n'.currentTerm == Larger(a.term, n.currentTerm)
    && n'.votedFor == (if r.granted then a.candidateId else if a.term > n.currentTerm then "" else n.votedFor)
    && n'.role == (if a.term > n.currentTerm then Follower else n.role)
    && n' == n.(currentTerm := n'.currentTerm, votedFor := n'.votedFor, role := n'.role)
  }

  lemma VoteIsDecided(s: Cluster, m: Msg)
    requires Inv(s)
    requires m.VoteRequest? && Receives(s, m)
    ensures VoteDecided(s, m)
  {
    hide HistoryOk, CandidateOk, LeaderOk, AckedOk, CommitOk, ApplyOk, NodeLogOk, AppendRequestOk, AppendReplyOk;
    assert MsgOk(s.ids, s.h, m) && NodeOk(s.ids, s.h, s.nodes[m.dst]);
  }

  /** Every vote request that is received in a run, however late. */
  lemma VotesGranted(run: seq<Cluster>, k: nat, m: Msg)
    requires IsRun(run) && k < |run|
    requires m.VoteRequest? && Receives(run[k], m)
    ensures VoteDecided(run[k], m)
  {
    hide IsRun, Inv, VoteDecided;
    RunOk(run, k);
    VoteIsDecided(run[k], m);
  }

  /** A new leader has the log it stood on and an empty entry of its term, and knows nothing of its peers. */
  ghost predicate NewLeader(n: Node, n': Node) {
    && n'.role == Leader && n'.leaderId == n.id
    && n'.log == n.log + [Entry(n.currentTerm, |n.log| + 1, [])]
    && (forall p :: p in n.peers ==> Lookup(n'.nextIndex, p) == |n.log| + 1 && Lookup(n'.matchIndex, p) == 0)
    && n' == n.(role := Leader, leaderId := n.id, log := n'.log, nextIndex := n'.nextIndex, matchIndex := n'.matchIndex)
  }

  /** Whether the votes counted by a candidate are more than half of the cluster decides whether it leads. */
  ghost predicate Tallied(ids: set<Id>, n: Node, n': Node) {
    if 2 * n.votesReceived > |ids| then NewLeader(n, n') else n' == n
  }

  /** How an answer to a vote request is taken in: not at all unless the candidate still waits for it; a later
      term ends the candidacy; a granted vote counts once. */
  ghost predicate BallotCounted(s: Cluster, m: Msg)
    requires m.VoteReply? && Receives(s, m)
  {
    var n, r := s.nodes[m.vote.candidateId], m.voteResult;
    var n' := OnVoteReply(n, m.src, m.vote, r);
    var rest := n.(awaiting := n.awaiting - {m.src});
    if n.role != Candidate || n.currentTerm != m.vote.term || m.src !in n.awaiting then n' == n
    else if r.term > n.currentTerm then n' == rest.(currentTerm := r.term, votedFor := "", role := Follower)
    else if r.granted then Tallied(s.ids, rest.(votesReceived := n.votesReceived + 1), n')
    else n' == rest
  }

  lemma BallotIsCounted(s: Cluster, m: Msg)
    requires Inv(s)
    requires m.VoteReply? && Receives(s, m)
    ensures BallotCounted(s, m)
  {
    hide HistoryOk, NetOk, BallotOk, CandidateOk, LeaderOk, AckedOk, CommitOk, ApplyOk, NodeLogOk, CheckWon, Tallied;
    var n := s.nodes[m.vote.candidateId];
    assert NodeOk(s.ids, s.h, n);
    WinIsMajority(s.ids, n.(awaiting := n.awaiting - {m.src}, votesReceived := n.votesReceived + 1));
  }

  lemma WinIsMajority(ids: set<Id>, n: Node)
    requires ConfigOk(ids, n)
    ensures n.role == Candidate ==> Tallied(ids, n, CheckWon(n))
    ensures n.role != Candidate ==> CheckWon(n) == n
  {
    QuorumSizeIsMajority(ids, n);
  }

  /** When the wait for votes is over. */
  lemma WaitIsCounted(s: Cluster, i: Id)
    requires Inv(s) && i in s.nodes
    ensures s.nodes[i].role == Candidate ==> Tallied(s.ids, s.nodes[i], CheckWon(s.nodes[i]))
    ensures s.nodes[i].role != Candidate ==> CheckWon(s.nodes[i]) == s.nodes[i]
  {
    hide HistoryOk, NetOk, Tallied, CheckWon;
    assert NodeOk(s.ids, s.h, s.nodes[i]);
    WinIsMajority(s.ids, s.nodes[i]);
  }

  /** Starting an election, in whatever role: the next term, a vote for itself on record, and one request for
      that term to each other member, which describes the log stood on. */
  ghost predicate ElectionStarted(s: Cluster, i: Id, s': Cluster)
    requires i in s.nodes
  {
    var n := s.nodes[i];
    var t, others := n.currentTerm + 1, s.ids - {i};
    && s'.nodes == s.nodes[i := n.(role := Candidate, currentTerm := t, votedFor := i, votesReceived := 1, awaiting := others)]
    && (t, i) in s'.h.votes && s'.h.votes[(t, i)] == i
    && (t, i) in s'.h.standing && s'.h.standing[(t, i)] == n.log
    && (forall p :: p in others ==> VoteRequest(p, VoteArgs(t, i, |n.log|, LastTerm(n.log))) in s'.net)
    && (forall m :: m in s'.net && m !in s.net ==> m.VoteRequest? && m.dst in others && m.vote.term == t)
  }

  lemma ElectionStarts(s: Cluster, i: Id)
    requires Inv(s) && i in s.nodes
    ensures ElectionStarted(s, i, ElectionEffect(s, i))
  {
    hide HistoryOk, NetOk, BallotOk, CandidateOk, LeaderOk, AckedOk, CommitOk, ApplyOk, NodeLogOk;
    var n := s.nodes[i];
    assert NodeOk(s.ids, s.h, n);
    assert forall p :: p in s.ids - {i} ==> p in ElementsOf(n.peers);
    assert forall p :: p in n.peers ==> p in ElementsOf(n.peers);
  }

  // ----------------------------------------------------------------- requests

  /** The request that a leader builds for a peer: from nextIndex on to the end of its log, with the commit
      index of the round. Nobody but a leader of that term builds one. */
  lemma RequestBuilt(s: Cluster, i: Id, peer: Id, hb: Heartbeat)
    requires Inv(s) && i in s.nodes && peer in s.nodes[i].peers
    ensures var n := s.nodes[i];
            match BuildAppend(n, peer, hb)
            case None => !Leads(s, i, hb.term)
            case Some(a) =>
              && Leads(s, i, hb.term)
              && a.term == n.currentTerm && a.leaderId == i
              && 0 <= a.prevLogIndex == Lookup(n.nextIndex, peer) - 1 <= |n.log|
              && n.log[..a.prevLogIndex] + a.entries == n.log
              && a.prevLogTerm == LastTerm(n.log[..a.prevLogIndex])
              && a.leaderCommit == hb.commit
  {
    hide HistoryOk, NetOk, BallotOk, CandidateOk, AckedOk, CommitOk, ApplyOk, NodeLogOk;
    var n := s.nodes[i];
    assert NodeOk(s.ids, s.h, n);
    if n.role == Leader {
      assert n.log[|n.log|..] == [];
      var next := Lookup(n.nextIndex, peer);
      assert next <= |n.log| ==> n.log[next - 1..|n.log|] == n.log[next - 1..];
      assert next == |n.log| + 1 ==> n.log[..next - 1] + [] == n.log;
    }
  }

  /** A round adds the leader's term and present commit index, and nothing for anybody else. */
  lemma RoundAdds(n: Node, hb: Heartbeat)
    ensures hb in TakeHeartbeat(n).heartbeats <==>
            hb in n.heartbeats || (n.role == Leader && hb.term == n.currentTerm && hb.commit == n.commitIndex)
    ensures TakeHeartbeat(n) == n.(heartbeats := TakeHeartbeat(n).heartbeats)
  {
  }

  /** Why a probe at index prev was refused: the log is too short, or it holds another term there; the hint is
      then where that term begins. */
  ghost predicate HintsAt(log: Log, prev: int, r: AppendResult) {
    if |log| < prev then r.conflictTerm == 0 && r.conflictIndex == |log| + 1
    else
      && 1 <= r.conflictIndex <= prev
      && r.conflictTerm == log[prev - 1].term == log[r.conflictIndex - 1].term
      && forall i :: 0 <= i < r.conflictIndex - 1 ==> log[i].term != r.conflictTerm
  }

  /** How an append request is answered. A stale one changes nothing. Any other one makes the node a follower of
      its sender, and is accepted exactly if the node's log agrees with the log of the sending leader up to the
      probed index. Then the log is that leader's up to the last entry sent, unless it was already longer, and
      the commit index the larger of the two. */
  ghost predicate RequestAnswered(s: Cluster, m: Msg)
    requires m.AppendRequest? && Receives(s, m)
  {
    var n, a := s.nodes[m.dst], m.append;
    var (n', r) := HandleAppendEntries(n, a);
    var leader, upto := LeaderLog(s.h, a.term), a.prevLogIndex + |a.entries|;
    && a.term in s.h.terms && s.h.terms[a.term].leader == a.leaderId && 0 <= a.prevLogIndex <= upto <= |leader|
    && (a.term < n.currentTerm ==> n' == n && r == AppendResult(n.currentTerm, false, 0, 0, 0))
    && (a.term >= n.currentTerm ==>
          && n'.currentTerm == r.term == a.term
          && n'.role == Follower && n'.leaderId == a.leaderId
          && n'.votedFor == (if a.term > n.currentTerm then "" else n.votedFor)
          && n' == n.(currentTerm := a.term, votedFor := n'.votedFor, role := Follower, leaderId := a.leaderId,
                      log := n'.log, commitIndex := n'.commitIndex)
          && (r.success <==> Agree(n.log, leader, a.prevLogIndex))
          && (r.success ==>
                && n'.log == (if Agree(n.log, leader, upto) then n.log else leader[..upto])
                && n'.commitIndex == Larger(n.commitIndex, a.leaderCommit)
                && r.matchIndex == |n'.log|)
          && (!r.success ==>
                n'.log == n.log && n'.commitIndex == n.commitIndex && HintsAt(n.log, a.prevLogIndex, r)))
  }

  lemma RequestIsAnswered(s: Cluster, m: Msg)
    requires Inv(s)
    requires m.AppendRequest? && Receives(s, m)
    ensures RequestAnswered(s, m)
  {
    hide ElectorsOk, VotesOk, StandingOk, AcksOk, PastOk, BallotOk, CandidateOk, LeaderOk, AckedOk, CommitOk, ApplyOk, ConfigOk,
         TermsOk, Merge, Rejection, PrevMatches, LogIn, Backed, FollowSender;
    var n, a := s.nodes[m.dst], m.append;
    assert MsgOk(s.ids, s.h, m) && NodeOk(s.ids, s.h, n);
    if a.term >= n.currentTerm {
      FollowOk(s.ids, s.h, n, a);
      FollowShape(n, a);
      CheckIsAgreement(s.ids, s.h, n, a);
      if PrevMatches(n.log, a) {
        AcceptanceIs(s.ids, s.h, n, a);
      } else {
        RejectionIs(FollowSender(n, a), a);
      }
    }
  }

  lemma FollowShape(n: Node, a: AppendArgs)
    requires a.term >= n.currentTerm && FollowSender(n, a).role == Follower
    ensures FollowSender(n, a) ==
            n.(currentTerm := a.term, votedFor := if a.term > n.currentTerm then "" else n.votedFor, role := Follower,
               leaderId := a.leaderId)
  {
  }

  lemma CheckIsAgreement(ids: set<Id>, h: History, n: Node, a: AppendArgs)
    requires TermsOk(ids, h) && LogIn(h, n.log)
    requires AppendRequestOk(ids, h, n.id, a)
    ensures PrevMatches(n.log, a) <==> Agree(n.log, LeaderLog(h, a.term), a.prevLogIndex)
  {
    if PrevMatches(n.log, a) {
      PrevMatchesAgree(ids, h, n, a);
    }
  }

  lemma AcceptanceIs(ids: set<Id>, h: History, n: Node, a: AppendArgs)
    requires TermsOk(ids, h) && LogIn(h, n.log)
    requires AppendRequestOk(ids, h, n.id, a) && PrevMatches(n.log, a)
    ensures var leader, upto := LeaderLog(h, a.term), a.prevLogIndex + |a.entries|;
            var x := Merge(n.log, a.entries);
            && x == (if Agree(n.log, leader, upto) then n.log else leader[..upto])
            && ClampedCommit(n.commitIndex, a.leaderCommit, |x|) == Larger(n.commitIndex, a.leaderCommit)
  {
    hide Merge;
    PrevMatchesAgree(ids, h, n, a);
    MergeSpec(n.log, LeaderLog(h, a.term), a.prevLogIndex, a.entries);
  }

  lemma RejectionIs(n: Node, a: AppendArgs)
    requires !PrevMatches(n.log, a)
    ensures var r := Rejection(n, a);
            !r.success && r.term == n.currentTerm && HintsAt(n.log, a.prevLogIndex, r)
  {
    if a.prevLogIndex <= |n.log| {
      FirstIndexOfTermIsFirst(n.log, n.log[a.prevLogIndex - 1].term, 0, a.prevLogIndex - 1);
    }
  }

  /** Every append request that is received in a run, however late. */
  lemma RequestsAnswered(run: seq<Cluster>, k: nat, m: Msg)
    requires IsRun(run) && k < |run|
    requires m.AppendRequest? && Receives(run[k], m)
    ensures RequestAnswered(run[k], m)
  {
    hide IsRun, Inv, RequestAnswered;
    RunOk(run, k);
    RequestIsAnswered(run[k], m);
  }

  // ----------------------------------------------------------------- commitment

  /** Index i holds an entry of the leader's term, and it and those it knows to hold i are a quorum. */
  ghost predicate HeldByQuorum(ids: set<Id>, n: Node, i: int, q: set<Id>) {
    && 1 <= i <= |n.log| && n.log[i - 1].term == n.currentTerm
    && IsQuorum(ids, q) && n.id in q
    && forall p :: p in q && p != n.id ==> Lookup(n.matchIndex, p) >= i
  }

  /** The largest index above the old commit index that a quorum holds, if there is one. */
  ghost predicate CommitsLargest(ids: set<Id>, n: Node, commit: int) {
    && n.commitIndex <= commit
    && (commit > n.commitIndex ==> exists q :: HeldByQuorum(ids, n, commit, q))
    && forall i, q :: n.commitIndex < i && HeldByQuorum(ids, n, i, q) ==> i <= commit
  }

  lemma CommittableIsHeld(ids: set<Id>, n: Node, i: int) returns (q: set<Id>)
    requires ConfigOk(ids, n) && 1 <= n.currentTerm && Committable(n, i)
    ensures HeldByQuorum(ids, n, i, q)
  {
    var holders := Holding(n.peers, n.matchIndex, i);
    QuorumSizeIsMajority(ids, n);
    CountIsSize(n.peers, n.matchIndex, i);
    assert forall p :: p in holders ==> p in ElementsOf(n.peers);
    q := holders + {n.id};
  }

  lemma HeldIsCommittable(ids: set<Id>, n: Node, i: int, q: set<Id>)
    requires ConfigOk(ids, n) && HeldByQuorum(ids, n, i, q)
    ensures Committable(n, i)
  {
    var holders := Holding(n.peers, n.matchIndex, i);
    QuorumSizeIsMajority(ids, n);
    CountIsSize(n.peers, n.matchIndex, i);
    forall p | p in q - {n.id}
      ensures p in holders
    {
      assert p in ElementsOf(n.peers);
    }
    SubsetSize(q - {n.id}, holders);
  }

  /** checkCommit at a leader: exactly the current-term indices that a quorum holds are committed, up to the
      largest of them. */
  lemma CommitIsLargest(ids: set<Id>, n: Node)
    requires ConfigOk(ids, n) && 1 <= n.currentTerm && n.role == Leader && 0 <= n.commitIndex <= |n.log|
    ensures CommitsLargest(ids, n, CheckCommit(n).commitIndex)
    ensures CheckCommit(n) == n.(commitIndex := CheckCommit(n).commitIndex)
  {
    hide Committable, HeldByQuorum, ConfigOk;
    var commit := CheckCommit(n).commitIndex;
    CommitTargetIsLargest(n, |n.log|);
    if commit > n.commitIndex {
      var q := CommittableIsHeld(ids, n, commit);
    }
    forall i, q | n.commitIndex < i && HeldByQuorum(ids, n, i, q)
      ensures i <= commit
    {
      HeldIsCommittable(ids, n, i, q);
      HeldInLog(ids, n, i, q);
    }
  }

  lemma HeldInLog(ids: set<Id>, n: Node, i: int, q: set<Id>)
    requires HeldByQuorum(ids, n, i, q)
    ensures i <= |n.log|
  {
  }

  /** Where the next probe goes after a refusal: behind the last entry of the conflicting term, if the leader
      has one, and otherwise to the hinted index. Without any hint, one back. */
  ghost predicate BackedOff(n: Node, old': int, r: AppendResult, next: int) {
    if r.conflictTerm > 0 && (exists i :: 0 <= i < |n.log| && n.log[i].term == r.conflictTerm) then
      && 2 <= next <= |n.log| + 1 && n.log[next - 2].term == r.conflictTerm
      && forall i :: next - 1 <= i < |n.log| ==> n.log[i].term != r.conflictTerm
    else if r.conflictTerm > 0 || r.conflictIndex > 0 then next == r.conflictIndex
    else next == (if old' > 1 then old' - 1 else old')
  }

  /** How an answer to an append request is taken in: not at all unless the leader still leads that term; a later
      term ends its rule; an accepted request raises what is known about the peer and may commit; a refused one
      only moves the next probe. */
  ghost predicate AnswerTakenIn(s: Cluster, m: Msg)
    requires m.AppendReply? && Receives(s, m)
  {
    var n, a, r := s.nodes[m.append.leaderId], m.append, m.appendResult;
    var n' := OnAppendReply(n, m.src, a, r);
    var upto := a.prevLogIndex + |a.entries|;
    if n.role != Leader || n.currentTerm != a.term then n' == n
    else if r.term > n.currentTerm then n' == n.(currentTerm := r.term, votedFor := "", role := Follower)
    else
      && (forall p :: p != m.src ==>
            Lookup(n'.nextIndex, p) == Lookup(n.nextIndex, p) && Lookup(n'.matchIndex, p) == Lookup(n.matchIndex, p))
      && n' == n.(nextIndex := n'.nextIndex, matchIndex := n'.matchIndex, commitIndex := n'.commitIndex)
      && (r.success ==>
            && Lookup(n'.matchIndex, m.src) == Larger(Lookup(n.matchIndex, m.src), upto)
            && Lookup(n'.nextIndex, m.src) == upto + 1
            && CommitsLargest(s.ids, n'.(commitIndex := n.commitIndex), n'.commitIndex))
      && (!r.success ==>
            && n'.matchIndex == n.matchIndex && n'.commitIndex == n.commitIndex
            && BackedOff(n, Lookup(n.nextIndex, m.src), r, Lookup(n'.nextIndex, m.src)))
  }

  lemma AnswerIsTakenIn(s: Cluster, m: Msg)
    requires Inv(s)
    requires m.AppendReply? && Receives(s, m)
    ensures AnswerTakenIn(s, m)
  {
    hide ElectorsOk, VotesOk, StandingOk, AcksOk, PastOk, BallotOk, CandidateOk, AckedOk, Backed, ApplyOk, NetOk,
         CommitsLargest, BackedOff, BackOff, CheckCommit, LogIn;
    var n, a, r := s.nodes[m.append.leaderId], m.append, m.appendResult;
    assert NodeOk(s.ids, s.h, n);
    if n.role == Leader && n.currentTerm == a.term && r.term <= n.currentTerm {
      assert TermOk(s.ids, s.h, n.currentTerm);
      if r.success {
        CommitIsLargest(s.ids, Counted(n, m.src, a));
      } else {
        BackOffIs(n, m.src, r);
      }
    }
  }

  lemma BackOffIs(n: Node, peer: Id, r: AppendResult)
    ensures BackedOff(n, Lookup(n.nextIndex, peer), r, BackOff(n, peer, r))
  {
    LastIndexOfTermIsLast(n.log, r.conflictTerm, |n.log|);
  }

  /** Every answer to an append request that is taken in during a run, however late. */
  lemma AnswersTakenIn(run: seq<Cluster>, k: nat, m: Msg)
    requires IsRun(run) && k < |run|
    requires m.AppendReply? && Receives(run[k], m)
    ensures AnswerTakenIn(run[k], m)
  {
    hide IsRun, Inv, AnswerTakenIn;
    RunOk(run, k);
    AnswerIsTakenIn(run[k], m);
  }

  /** Every answer to a vote request that is taken in during a run, however late. */
  lemma BallotsCounted(run: seq<Cluster>, k: nat, m: Msg)
    requires IsRun(run) && k < |run|
    requires m.VoteReply? && Receives(run[k], m)
    ensures BallotCounted(run[k], m)
  {
    hide IsRun, Inv, BallotCounted;
    RunOk(run, k);
    BallotIsCounted(run[k], m);
  }

  // ------------------------------------------------------------- apply and restart

  /** After collecting, a node has emitted exactly the committed part of its log, in order. */
  lemma CollectedIsCommitted(s: Cluster, i: Id)
    requires Inv(s) && i in s.nodes
    ensures var n, n' := s.nodes[i], CollectApply(s.nodes[i]);
            && |n'.emitted| == n'.lastApplied == n.commitIndex <= |n.log|
            && (forall k :: 0 <= k < n.commitIndex ==> n'.emitted[k] == ApplyMsg(n.log[k].command, k + 1, n.log[k].term))
            && n' == n.(lastApplied := n.commitIndex, emitted := n'.emitted)
  {
    hide HistoryOk, NetOk, BallotOk, CandidateOk, LeaderOk, AckedOk, ConfigOk, Backed, CollectApply;
    var n := s.nodes[i];
    assert NodeOk(s.ids, s.h, n);
    CollectsAll(n);
    forall k | 0 <= k < n.commitIndex
      ensures n.log[k].index == k + 1
    {
      assert EntryIn(s.h, n.log, k);
    }
  }

  /** A boot takes term, vote and log from storage and starts as a follower that knows nothing else. */
  lemma BootForgets(id: Id, peers: seq<Id>, d: Durable)
    ensures var n := Boot(id, peers, d);
            && n.id == id && n.peers == peers && DurableOf(n) == d
            && n.role == Follower && n.leaderId == "" && n.commitIndex == n.lastApplied == n.delivered == 0
            && n.emitted == [] && n.heartbeats == {} && n.awaiting == {}
            && forall p :: Lookup(n.nextIndex, p) == 0 && Lookup(n.matchIndex, p) == 0
  {
  }

  /** The next message is delivered, if there is one. */
  lemma DeliversNext(n: Node)
    requires n.delivered <= |n.emitted|
    ensures ReceivedBy(Deliver(n)) ==
            ReceivedBy(n) + (if n.delivered < |n.emitted| then [n.emitted[n.delivered]] else [])
    ensures Deliver(n) == n.(delivered := |ReceivedBy(Deliver(n))|)
  {
  }

  // ------------------------------------------------------------------- storage calls

  /** What the vote handler writes: a later term first, without a vote; then the vote, before it is answered. */
  lemma VoteWritesAre(n: Node, a: VoteArgs)
    ensures var ws, r := VoteWrites(n, a), HandleRequestVote(n, a).1;
            && |ws| == (if a.term > n.currentTerm then 1 else 0) + (if r.granted then 1 else 0)
            && (a.term > n.currentTerm ==> ws[0] == SaveState(a.term, ""))
            && (r.granted ==> ws[|ws| - 1] == SaveState(r.term, a.candidateId))
  {
  }

  /** Single appends of the log's entries from index a + 1 to b. */
  function AppendsFrom(log: Log, a: int, b: int): seq<Write>
    requires 0 <= a && b <= |log|
    decreases b - a
  {
    if a >= b then [] else AppendsFrom(log, a, b - 1) + [AppendEntry(log[b - 1])]
  }

  /** What the append loop writes, for entries of a leader that follow a matched index, where c is how far the
      logs agree: nothing if the log holds them all; otherwise one truncation behind c, unless the log ends
      there, and then single appends from c on. */
  lemma {:induction false} MergeWritesAre(log: Log, leader: Log, prev: int, es: seq<Entry>, c: int)
    requires IsSuffixPart(leader, prev, es) && Matching(log, leader)
    requires prev <= c && Agree(log, leader, c) && !Agree(log, leader, c + 1)
    ensures MergeWrites(log, es) ==
            if prev + |es| <= c then []
            else (if c < |log| then [TruncateAfter(c)] else []) + AppendsFrom(leader, c, prev + |es|)
  {
    hide Merge, MergeOneWrites, Matching;
    if |es| > 0 {
      var before, e, upto := es[..|es| - 1], es[|es| - 1], prev + |es|;
      MergeWritesAre(log, leader, prev, before, c);
      MergeSpec(log, leader, prev, before);
      WritesOfTurn(log, leader, upto, e, c, Merge(log, before));
    }
  }

  lemma WritesOfTurn(log: Log, leader: Log, upto: int, e: Entry, c: int, mid: Log)
    requires 0 < upto <= |leader| && e == leader[upto - 1] && e.index == upto
    requires Matching(log, leader) && 0 <= c && Agree(log, leader, c) && !Agree(log, leader, c + 1)
    requires Agree(log, leader, upto - 1) ==> mid == log
    requires !Agree(log, leader, upto - 1) ==> mid == leader[..upto - 1]
    ensures MergeOneWrites(mid, e) ==
            if upto <= c then []
            else if upto == c + 1 then (if c < |log| then [TruncateAfter(c)] else []) + [AppendEntry(e)]
            else [AppendEntry(e)]
  {
    if upto <= c {
      AgreeShorter(log, leader, c, upto - 1);
      AgreeShorter(log, leader, c, upto);
    } else if upto > c + 1 {
      AgreeShorter(log, leader, upto - 1, c + 1);
    }
  }
}
