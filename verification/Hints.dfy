/** The hint that a node gives to a client it cannot serve. */
module Hints {
  import opened Types
  import opened LogSpec
  import opened Steps
  import opened Histories
  import opened Clusters
  import opened Invariant
  import opened HandlerSpecs

  /** Node p, while in term t, names somebody who led a term up to t, or nobody. */
  ghost predicate HintOk(h: History, n: Node) {
    n.leaderId != "" ==> exists t :: t in h.terms && t <= n.currentTerm && h.terms[t].leader == n.leaderId
  }

  ghost predicate Hinted(s: Cluster) {
    forall p :: p in s.nodes ==> HintOk(s.h, s.nodes[p])
  }

  /** The hint stays, and the term does not go back. */
  ghost predicate HintKept(n: Node, n': Node) {
    n'.leaderId == n.leaderId && n.currentTerm <= n'.currentTerm
  }

  lemma HintExtends(h: History, h': History, n: Node, n': Node)
    requires Extends(h, h') && HintOk(h, n) && HintKept(n, n')
    ensures HintOk(h', n')
  {
    if n.leaderId != "" {
      var t :| t in h.terms && t <= n.currentTerm && h.terms[t].leader == n.leaderId;
      assert RecordKept(h.terms[t], h'.terms[t]);
    }
  }

  /** A node that leads names itself, and leads on record. */
  lemma LeaderHints(s: Cluster, p: Id)
    requires Inv(s) && p in s.nodes && s.nodes[p].role == Leader && s.nodes[p].leaderId == p
    ensures HintOk(s.h, s.nodes[p])
  {
    hide HistoryOk, NetOk;
    assert NodeOk(s.ids, s.h, s.nodes[p]);
    var t := s.nodes[p].currentTerm;
    assert t in s.h.terms && s.h.terms[t].leader == p;
  }

  lemma NameIs(s: Cluster, p: Id)
    requires Inv(s) && p in s.nodes
    ensures s.nodes[p].id == p
  {
    hide HistoryOk, NetOk, NodeOk;
  }

  lemma ElectionHint(s: Cluster, step: Step, s': Cluster, p: Id)
    requires Inv(s) && NextBy(s, step, s') && p in s.nodes && HintOk(s.h, s.nodes[p])
    requires step.VoteAnswer? || step.WaitOver? || step.Election? || step.Vote?
    ensures p in s'.nodes && HintOk(s'.h, s'.nodes[p])
  {
    hide Inv, HintOk, HandleRequestVote, OnVoteReply, CheckWon, RecordVote, RecordWin, RecordElection, AtLeast, FreeFor;
    StepOk(s, step, s');
    match step {
      case Election(i) =>
      case Vote(m) => VoteIsDecided(s, m);
      case VoteAnswer(m) =>
        NameIs(s, m.vote.candidateId);
        BallotIsCounted(s, m);
      case WaitOver(i) =>
        NameIs(s, i);
        WaitIsCounted(s, i);
    }
    if HintKept(s.nodes[p], s'.nodes[p]) {
      HintExtends(s.h, s'.h, s.nodes[p], s'.nodes[p]);
    } else {
      LeaderHints(s', p);
    }
  }

  lemma ReplicationHint(s: Cluster, step: Step, s': Cluster, p: Id)
    requires Inv(s) && NextBy(s, step, s') && p in s.nodes && HintOk(s.h, s.nodes[p])
    requires step.Proposal? || step.HeartbeatRound? || step.SendAppend? || step.AppendAnswer? || step.Collect? || step.DeliverNext?
    ensures p in s'.nodes && HintOk(s'.h, s'.nodes[p])
  {
    hide Inv, HintOk, OnAppendReply, CollectApply, BuildAppend, RecordLead, CommitsLargest, BackedOff;
    StepOk(s, step, s');
    match step {
      case AppendAnswer(m) => AnswerIsTakenIn(s, m);
      case Collect(i) => CollectedIsCommitted(s, i);
      case _ =>
    }
    HintExtends(s.h, s'.h, s.nodes[p], s'.nodes[p]);
  }

  lemma RequestHint(s: Cluster, step: Step, s': Cluster, p: Id)
    requires Inv(s) && NextBy(s, step, s') && p in s.nodes && HintOk(s.h, s.nodes[p])
    requires step.Append?
    ensures p in s'.nodes && HintOk(s'.h, s'.nodes[p])
  {
    hide Inv, HandleAppendEntries, RecordAck, HintsAt;
    StepOk(s, step, s');
    RequestIsAnswered(s, step.m);
    var t := step.m.append.term;
    assert RecordKept(s.h.terms[t], s'.h.terms[t]);
    if p != step.m.dst || t < s.nodes[p].currentTerm {
      HintExtends(s.h, s'.h, s.nodes[p], s'.nodes[p]);
    }
  }

  lemma CrashHint(s: Cluster, step: Step, s': Cluster, p: Id)
    requires Inv(s) && NextBy(s, step, s') && p in s.nodes && HintOk(s.h, s.nodes[p])
    requires step.Crash? || step.CrashInVote? || step.CrashInAppend? || step.Lose?
    ensures p in s'.nodes && HintOk(s'.h, s'.nodes[p])
  {
    hide Inv, HintOk, VoteWrites, AppendWrites, Replay, RecordCrash, RecordSavedVote;
    StepOk(s, step, s');
    if s'.nodes[p] == s.nodes[p] {
      HintExtends(s.h, s'.h, s.nodes[p], s'.nodes[p]);
    } else {
      NoHint(s'.h, s'.nodes[p]);
    }
  }

  lemma NoHint(h: History, n: Node)
    ensures n.leaderId == "" ==> HintOk(h, n)
  {
  }

  lemma StepHinted(s: Cluster, step: Step, s': Cluster)
    requires Inv(s) && Hinted(s) && NextBy(s, step, s')
    ensures Hinted(s')
  {
    hide Inv, NextBy, HintOk;
    StepOk(s, step, s');
    KeysAreIds(s);
    KeysAreIds(s');
    forall p | p in s'.nodes
      ensures HintOk(s'.h, s'.nodes[p])
    {
      if step.VoteAnswer? || step.WaitOver? || step.Election? || step.Vote? {
        ElectionHint(s, step, s', p);
      } else if step.Append? {
        RequestHint(s, step, s', p);
      } else if step.Crash? || step.CrashInVote? || step.CrashInAppend? || step.Lose? {
        CrashHint(s, step, s', p);
      } else {
        ReplicationHint(s, step, s', p);
      }
    }
  }

  lemma {:induction false} RunHinted(run: seq<Cluster>, k: nat)
    requires IsRun(run) && k < |run|
    ensures Hinted(run[k])
  {
    hide NextBy, Inv;
    if k > 0 {
      RunHinted(run, k - 1);
      RunOk(run, k - 1);
      assert Next(run[k - 1], run[k - 1 + 1]);
      var step :| NextBy(run[k - 1], step, run[k]);
      StepHinted(run[k - 1], step, run[k]);
    }
  }

  /** How Propose answers, at any time of a run: a leader adds the command at the next index in its own term; any
      other node changes nothing and names a node that has led a term up to its own, or nobody. */
  lemma ProposalAnswered(run: seq<Cluster>, k: nat, p: Id, command: Bytes)
    requires IsRun(run) && k < |run| && p in run[k].nodes
    ensures var n := run[k].nodes[p];
            var (n', r) := Propose(n, command);
            && (n.role == Leader ==>
                  && r == Proposed(|n.log| + 1, n.currentTerm)
                  && n' == n.(log := n.log + [Entry(n.currentTerm, |n.log| + 1, command)]))
            && (n.role != Leader ==>
                  && n' == n && r.NotLeader? && r.leaderId == n.leaderId
                  && (r.leaderId != "" ==>
                        exists t :: t in run[k].h.terms && t <= n.currentTerm && run[k].h.terms[t].leader == r.leaderId))
  {
    hide IsRun;
    RunHinted(run, k);
    assert HintOk(run[k].h, run[k].nodes[p]);
  }
}
