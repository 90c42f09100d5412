/** The invariant holds in every state of every run. */
module Invariant {
  import opened Types
  import opened LogSpec
  import opened Steps
  import opened Histories
  import opened Clusters
  import opened ElectionProofs
  import opened ReplicationProofs
  import opened CrashProofs

  lemma InitOk(s: Cluster)
    requires Init(s)
    ensures Inv(s)
  {
  }

  /** Every step keeps the invariant, and only adds to the history. */
  lemma StepOk(s: Cluster, step: Step, s': Cluster)
    requires Inv(s)
    requires NextBy(s, step, s')
    ensures Inv(s') && Extends(s.h, s'.h)
    ensures s'.ids == s.ids
  {
    hide Inv, Receives;
    match step
    case Election(i) => ElectionStepOk(s, i);
    case Vote(m) => VoteStepOk(s, m);
    case VoteAnswer(m) => VoteAnswerStepOk(s, m);
    case WaitOver(i) => WaitOverStepOk(s, i);
    case Proposal(i, command) => ProposalStepOk(s, i, command);
    case HeartbeatRound(i) => HeartbeatStepOk(s, i);
    case SendAppend(i, peer, hb) => SendStepOk(s, i, peer, hb);
    case Append(m) => AppendStepOk(s, m);
    case AppendAnswer(m) => AppendAnswerStepOk(s, m);
    case Collect(i) => CollectStepOk(s, i);
    case DeliverNext(i) => DeliverStepOk(s, i);
    case Crash(i) => CrashStepOk(s, i);
    case CrashInVote(m, calls) => CrashInVoteStepOk(s, m, calls, s');
    case CrashInAppend(m, calls) => CrashInAppendStepOk(s, m, calls, s');
    case Lose(m) => LoseStepOk(s, m);
  }

  lemma ElectionStepOk(s: Cluster, i: Id)
    requires Inv(s)
    requires i in s.nodes
    ensures Inv(ElectionEffect(s, i)) && Extends(s.h, ElectionEffect(s, i).h)
  {
    hide HistoryOk, NodeOk;
    var n := StartElection(s.nodes[i]);
    ElectionMoves(s.ids, s.h, s.nodes[i]);
    Rejoin(s, i, n, VoteRequests(n), RecordElection(s.h, n));
  }

  lemma WaitOverStepOk(s: Cluster, i: Id)
    requires Inv(s)
    requires i in s.nodes
    ensures Inv(WaitOverEffect(s, i)) && Extends(s.h, WaitOverEffect(s, i).h)
  {
    hide HistoryOk, NodeOk;
    WonMoves(s.ids, s.h, s.nodes[i]);
    Rejoin(s, i, CheckWon(s.nodes[i]), {}, WaitOverEffect(s, i).h);
  }

  lemma HeartbeatStepOk(s: Cluster, i: Id)
    requires Inv(s)
    requires i in s.nodes
    ensures Inv(Update(s, i, TakeHeartbeat(s.nodes[i]), {}, s.h)) && Extends(s.h, s.h)
  {
    hide HistoryOk, NodeOk;
    HeartbeatMoves(s.ids, s.h, s.nodes[i]);
    Rejoin(s, i, TakeHeartbeat(s.nodes[i]), {}, s.h);
  }

  lemma DeliverStepOk(s: Cluster, i: Id)
    requires Inv(s)
    requires i in s.nodes
    ensures Inv(Update(s, i, Deliver(s.nodes[i]), {}, s.h)) && Extends(s.h, s.h)
  {
    hide HistoryOk, NodeOk;
    DeliverMoves(s.ids, s.h, s.nodes[i]);
    Rejoin(s, i, Deliver(s.nodes[i]), {}, s.h);
  }

  lemma CrashStepOk(s: Cluster, i: Id)
    requires Inv(s)
    requires i in s.nodes
    ensures var s' := CrashEffect(s, i, DurableOf(s.nodes[i]), s.h);
            Inv(s') && Extends(s.h, s'.h)
  {
    hide HistoryOk, NodeOk;
    CrashMoves(s.ids, s.h, s.nodes[i]);
    Rejoin(s, i, Restart(s.nodes[i]), {}, RecordCrash(s.h, s.nodes[i]));
  }

  lemma LoseStepOk(s: Cluster, m: Msg)
    requires Inv(s)
    ensures Inv(s.(net := s.net - {m})) && Extends(s.h, s.h)
  {
    hide HistoryOk, NodeOk;
    ExtendsSelf(s.h);
  }

  lemma VoteStepOk(s: Cluster, m: Msg)
    requires Inv(s)
    requires m.VoteRequest? && Receives(s, m)
    ensures Inv(VoteEffect(s, m)) && Extends(s.h, VoteEffect(s, m).h)
  {
    hide HistoryOk, NodeOk;
    assert MsgOk(s.ids, s.h, m);
    VoteMoves(s.ids, s.h, s.nodes[m.dst], m.vote);
    var (n, r) := HandleRequestVote(s.nodes[m.dst], m.vote);
    Rejoin(s, m.dst, n, {VoteReply(m.dst, m.vote, r)}, VoteEffect(s, m).h);
  }

  lemma VoteAnswerStepOk(s: Cluster, m: Msg)
    requires Inv(s)
    requires m.VoteReply? && Receives(s, m)
    ensures Inv(VoteAnswerEffect(s, m)) && Extends(s.h, VoteAnswerEffect(s, m).h)
  {
    hide HistoryOk, NodeOk;
    assert MsgOk(s.ids, s.h, m);
    var n := s.nodes[m.vote.candidateId];
    VoteAnswerMoves(s.ids, s.h, n, m.src, m.vote, m.voteResult);
    Rejoin(s, n.id, OnVoteReply(n, m.src, m.vote, m.voteResult), {}, VoteAnswerEffect(s, m).h);
  }

  lemma ProposalStepOk(s: Cluster, i: Id, command: Bytes)
    requires Inv(s)
    requires i in s.nodes
    ensures Inv(ProposalEffect(s, i, command)) && Extends(s.h, ProposalEffect(s, i, command).h)
  {
    hide HistoryOk, NodeOk;
    var n := s.nodes[i];
    var n' := Propose(n, command).0;
    if n.role == Leader {
      ProposalMoves(s.ids, s.h, n, command);
      Rejoin(s, i, n', {}, RecordLead(s.ids, s.h, n'));
    } else {
      MovesAlone(s.ids, s.h, n, {});
      Rejoin(s, i, n, {}, s.h);
    }
  }

  lemma SendStepOk(s: Cluster, i: Id, peer: Id, hb: Heartbeat)
    requires Inv(s)
    requires i in s.nodes && peer in s.nodes[i].peers && hb in s.nodes[i].heartbeats
    ensures Inv(SendAppendEffect(s, i, peer, hb)) && Extends(s.h, SendAppendEffect(s, i, peer, hb).h)
  {
    hide HistoryOk, NodeOk;
    ExtendsSelf(s.h);
    if BuildAppend(s.nodes[i], peer, hb).Some? {
      SendOk(s.ids, s.h, s.nodes[i], peer, hb);
    }
  }

  lemma AppendStepOk(s: Cluster, m: Msg)
    requires Inv(s)
    requires m.AppendRequest? && Receives(s, m)
    ensures Inv(AppendEffect(s, m)) && Extends(s.h, AppendEffect(s, m).h)
  {
    hide HistoryOk, NodeOk, Merge, AppendRequestOk, Rejection, RecordAck;
    assert MsgOk(s.ids, s.h, m);
    AppendMoves(s.ids, s.h, s.nodes[m.dst], m.append);
    var (n, r) := HandleAppendEntries(s.nodes[m.dst], m.append);
    assert n.id == m.dst;
    Rejoin(s, m.dst, n, {AppendReply(m.dst, m.append, r)}, AppendEffect(s, m).h);
  }

  lemma AppendAnswerStepOk(s: Cluster, m: Msg)
    requires Inv(s)
    requires m.AppendReply? && Receives(s, m)
    ensures Inv(AppendAnswerEffect(s, m)) && Extends(s.h, AppendAnswerEffect(s, m).h)
  {
    hide HistoryOk, NodeOk;
    assert MsgOk(s.ids, s.h, m);
    var n := s.nodes[m.append.leaderId];
    AppendAnswerMoves(s.ids, s.h, n, m.src, m.append, m.appendResult);
    Rejoin(s, n.id, OnAppendReply(n, m.src, m.append, m.appendResult), {}, s.h);
  }

  lemma CollectStepOk(s: Cluster, i: Id)
    requires Inv(s)
    requires i in s.nodes
    ensures Inv(Update(s, i, CollectApply(s.nodes[i]), {}, s.h)) && Extends(s.h, s.h)
  {
    hide HistoryOk;
    CollectMoves(s.ids, s.h, s.nodes[i]);
    CollectsAll(s.nodes[i]);
    Rejoin(s, i, CollectApply(s.nodes[i]), {}, s.h);
  }

  lemma CrashInVoteStepOk(s: Cluster, m: Msg, calls: nat, s': Cluster)
    requires Inv(s)
    requires NextBy(s, CrashInVote(m, calls), s')
    ensures Inv(s') && Extends(s.h, s'.h)
  {
    hide HistoryOk, NodeOk, VoteWrites;
    assert MsgOk(s.ids, s.h, m);
    CrashInVoteMoves(s.ids, s.h, s.nodes[m.dst], m.vote, calls);
    Rejoin(s, m.dst, s'.nodes[m.dst], {}, s'.h);
  }

  lemma CrashInAppendStepOk(s: Cluster, m: Msg, calls: nat, s': Cluster)
    requires Inv(s)
    requires NextBy(s, CrashInAppend(m, calls), s')
    ensures Inv(s') && Extends(s.h, s'.h)
  {
    hide HistoryOk, NodeOk, AppendWrites;
    assert MsgOk(s.ids, s.h, m);
    CrashInAppendMoves(s.ids, s.h, s.nodes[m.dst], m.append, calls);
    Rejoin(s, m.dst, s'.nodes[m.dst], {}, s'.h);
  }

  /** The invariant holds in every state of every run. */
  lemma {:induction false} RunOk(run: seq<Cluster>, k: nat)
    requires IsRun(run)
    requires k < |run|
    ensures Inv(run[k])
  {
    if k == 0 {
      InitOk(run[0]);
    } else {
      RunOk(run, k - 1);
      assert Next(run[k - 1], run[k - 1 + 1]);
      var step :| NextBy(run[k - 1], step, run[k]);
      StepOk(run[k - 1], step, run[k]);
    }
  }
}
