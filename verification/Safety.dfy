/** What every run of the cluster guarantees. The theorems compare any two states of one run, taken at
    any two times, under loss, delay, repetition, reordering and crashes. */
module Safety {
  import opened Types
  import opened LogSpec
  import opened Steps
  import opened Histories
  import opened Clusters
  import opened HistoryProofs
  import opened ReplicationProofs
  import opened Invariant
  import opened HandlerSpecs

  // ----------------------------------------------------------- along one run

  /** From any state of a run to any later one, the history only grows and the members stay the same. */
  lemma {:induction false} RunExtends(run: seq<Cluster>, i: nat, j: nat)
    requires IsRun(run)
    requires i <= j < |run|
    ensures Extends(run[i].h, run[j].h)
    ensures run[j].ids == run[i].ids
  {
    hide Init, NextBy, Inv;
    if i == j {
      ExtendsSelf(run[i].h);
    } else {
      RunExtends(run, i, j - 1);
      RunOk(run, j - 1);
      assert Next(run[j - 1], run[j - 1 + 1]);
      var step :| NextBy(run[j - 1], step, run[j]);
      StepOk(run[j - 1], step, run[j]);
      ExtendsTransitive(run[i].h, run[j - 1].h, run[j].h);
    }
  }

  lemma CommittedExtends(ids: set<Id>, h: History, h': History, u: int, m: int)
    requires Extends(h, h')
    requires Committed(ids, h, u, m)
    ensures Committed(ids, h', u, m)
    ensures Agree(LeaderLog(h, u), LeaderLog(h', u), m)
  {
    assert RecordKept(h.terms[u], h'.terms[u]);
    var q :| IsQuorum(ids, q) && AckedBy(h, q, u, m);
    forall p | p in q
      ensures Ack(h', u, p) >= m
    {
      assert Ack(h, u, p) >= m;
      assert Ack(h, u, p) <= Ack(h', u, p);
    }
    assert AckedBy(h', q, u, m);
  }

  lemma BackedExtends(ids: set<Id>, h: History, h': History, log: Log, k: int, t: int)
    requires Extends(h, h')
    requires Backed(ids, h, log, k, t)
    ensures Backed(ids, h', log, k, t)
  {
    if k > 0 {
      var u, m :| BackedBy(ids, h, log, k, t, u, m);
      CommittedExtends(ids, h, h', u, m);
      assert BackedBy(ids, h', log, k, t, u, m);
    }
  }

  lemma StreamBackedExtends(ids: set<Id>, h: History, h': History, stream: seq<ApplyMsg>)
    requires Extends(h, h')
    requires StreamBacked(ids, h, stream)
    ensures StreamBacked(ids, h', stream)
  {
    if |stream| > 0 {
      var u, m :| StreamBackedBy(ids, h, stream, u, m);
      CommittedExtends(ids, h, h', u, m);
      assert StreamBackedBy(ids, h', stream, u, m);
    }
  }

  // ------------------------------------------------------------- election safety

  /** At most one node is ever leader in a term. */
  lemma ElectionSafety(run: seq<Cluster>, i: nat, j: nat, p: Id, q: Id)
    requires IsRun(run) && i < |run| && j < |run|
    requires p in run[i].nodes && q in run[j].nodes
    requires run[i].nodes[p].role == Leader && run[j].nodes[q].role == Leader
    requires run[i].nodes[p].currentTerm == run[j].nodes[q].currentTerm
    ensures p == q
  {
    hide IsRun, HistoryOk, NetOk;
    RunOk(run, i);
    RunOk(run, j);
    var t := run[i].nodes[p].currentTerm;
    assert LeaderOk(run[i].h, run[i].nodes[p]) && LeaderOk(run[j].h, run[j].nodes[q]);
    if i <= j {
      RunExtends(run, i, j);
      assert RecordKept(run[i].h.terms[t], run[j].h.terms[t]);
    } else {
      RunExtends(run, j, i);
      assert RecordKept(run[j].h.terms[t], run[i].h.terms[t]);
    }
  }

  /** A node casts at most one vote in a term, crashes or not. */
  lemma OneVotePerTerm(run: seq<Cluster>, i: nat, j: nat, p: Id)
    requires IsRun(run) && i <= j < |run|
    requires p in run[i].nodes && p in run[j].nodes
    requires run[i].nodes[p].currentTerm == run[j].nodes[p].currentTerm
    requires run[i].nodes[p].votedFor != ""
    ensures run[j].nodes[p].votedFor == run[i].nodes[p].votedFor
  {
    hide IsRun, HistoryOk, NetOk;
    RunOk(run, i);
    RunOk(run, j);
    RunExtends(run, i, j);
    assert BallotOk(run[i].h, run[i].nodes[p]) && BallotOk(run[j].h, run[j].nodes[p]);
  }

  // ---------------------------------------------------------------- log matching

  /** If two logs, at any two times, hold the same term at the same index, they are equal up to that index. */
  lemma LogMatching(run: seq<Cluster>, i: nat, j: nat, p: Id, q: Id, index: int)
    requires IsRun(run) && i < |run| && j < |run|
    requires p in run[i].nodes && q in run[j].nodes
    requires 1 <= index <= |run[i].nodes[p].log| && index <= |run[j].nodes[q].log|
    requires TermAt(run[i].nodes[p].log, index) == TermAt(run[j].nodes[q].log, index)
    ensures Agree(run[i].nodes[p].log, run[j].nodes[q].log, index)
  {
    hide IsRun, HistoryOk, NetOk, Extends;
    RunOk(run, i);
    RunOk(run, j);
    var k := if i <= j then j else i;
    RunExtends(run, i, k);
    RunExtends(run, j, k);
    var a, b := run[i].nodes[p], run[j].nodes[q];
    assert NodeLogOk(run[i].h, a) && NodeLogOk(run[j].h, b);
    LogInExtends(run[i].h, run[k].h, a.log);
    LogInExtends(run[j].h, run[k].h, b.log);
    LogsMatch(run[k].h, a.log, b.log);
    assert Agree(a.log, b.log, index - 1 + 1);
  }

  // --------------------------------------------------------- leader completeness

  /** Whatever a node knows to be committed while in term t is in the log of every node that ever leads a
      later term, whether it led before or after that moment. */
  lemma LeaderCompleteness(run: seq<Cluster>, i: nat, j: nat, p: Id, q: Id)
    requires IsRun(run) && i < |run| && j < |run|
    requires p in run[i].nodes && q in run[j].nodes
    requires run[j].nodes[q].role == Leader
    requires run[i].nodes[p].currentTerm < run[j].nodes[q].currentTerm
    ensures Agree(run[i].nodes[p].log, run[j].nodes[q].log, run[i].nodes[p].commitIndex)
  {
    hide IsRun, HistoryOk, NetOk, Extends, NodeLogOk, LeaderOk, CommitOk;
    RunOk(run, i);
    RunOk(run, j);
    var k := if i <= j then j else i;
    RunOk(run, k);
    RunExtends(run, i, k);
    RunExtends(run, j, k);
    RunExtends(run, 0, i);
    RunExtends(run, 0, j);
    var n, l := run[i].nodes[p], run[j].nodes[q];
    LaterLeaderHolds(run[i].ids, run[i].h, run[j].h, run[k].h, n, l);
  }

  lemma LaterLeaderHolds(ids: set<Id>, hn: History, hl: History, h: History, n: Node, l: Node)
    requires HistoryOk(ids, hl) && HistoryOk(ids, h)
    requires Extends(hn, h) && Extends(hl, h)
    requires CommitOk(ids, hn, n) && NodeLogOk(hn, n)
    requires l.role == Leader && LeaderOk(hl, l)
    requires n.currentTerm < l.currentTerm
    ensures Agree(n.log, l.log, n.commitIndex)
  {
    hide ElectorsOk, VotesOk, StandingOk, AcksOk, PastOk;
    var u := l.currentTerm;
    assert TermOk(ids, hl, u);
    BackedExtends(ids, hn, h, n.log, n.commitIndex, n.currentTerm);
    assert RecordKept(hl.terms[u], h.terms[u]);
    BackedInLeader(ids, h, n.log, n.commitIndex, n.currentTerm, u);
    assert l.log[|l.log| - 1].term == u > n.currentTerm;
    assert n.commitIndex < |l.log|;
  }

  // -------------------------------------------------------- state machine safety

  /** Any two nodes, at any two times, hold the same entry at every index that both know to be committed. */
  lemma StateMachineSafety(run: seq<Cluster>, i: nat, j: nat, p: Id, q: Id, index: int)
    requires IsRun(run) && i < |run| && j < |run|
    requires p in run[i].nodes && q in run[j].nodes
    requires index <= run[i].nodes[p].commitIndex && index <= run[j].nodes[q].commitIndex
    ensures Agree(run[i].nodes[p].log, run[j].nodes[q].log, index)
  {
    hide IsRun, HistoryOk, NetOk, Extends;
    RunOk(run, i);
    RunOk(run, j);
    var k := if i <= j then j else i;
    RunOk(run, k);
    RunExtends(run, i, k);
    RunExtends(run, j, k);
    var a, b := run[i].nodes[p], run[j].nodes[q];
    assert CommitOk(run[i].ids, run[i].h, a) && CommitOk(run[j].ids, run[j].h, b);
    CommittedPrefixesAgree(run[k].ids, run[i].h, run[j].h, run[k].h, a, b, index);
  }

  lemma CommittedPrefixesAgree(ids: set<Id>, ha: History, hb: History, h: History, a: Node, b: Node, index: int)
    requires HistoryOk(ids, h)
    requires Extends(ha, h) && Extends(hb, h)
    requires CommitOk(ids, ha, a) && CommitOk(ids, hb, b)
    requires index <= a.commitIndex && index <= b.commitIndex
    ensures Agree(a.log, b.log, index)
  {
    hide TermsOk, ElectorsOk, VotesOk, StandingOk, AcksOk, PastOk;
    BackedExtends(ids, ha, h, a.log, a.commitIndex, a.currentTerm);
    BackedExtends(ids, hb, h, b.log, b.commitIndex, b.currentTerm);
    BackedAgree(ids, h, a.log, a.commitIndex, a.currentTerm, b.log, b.commitIndex, b.currentTerm, index);
  }

  /** What node p's state machine received in its earlier incarnations and has received, or is about to
      receive, in this one. */
  ghost predicate IsStream(s: Cluster, p: Id, stream: seq<ApplyMsg>) {
    && p in s.nodes
    && (stream == s.nodes[p].emitted || (p in s.h.past && stream in s.h.past[p]))
  }

  lemma StreamOk(s: Cluster, p: Id, stream: seq<ApplyMsg>)
    requires Inv(s)
    requires IsStream(s, p, stream)
    ensures StreamBacked(s.ids, s.h, stream)
  {
    hide TermsOk, ElectorsOk, VotesOk, StandingOk, AcksOk, ConfigOk, BallotOk, CandidateOk, LeaderOk, AckedOk, NetOk;
    var n := s.nodes[p];
    assert NodeOk(s.ids, s.h, n);
    if stream == n.emitted {
      if |stream| > 0 {
        var u, m :| BackedBy(s.ids, s.h, n.log, n.commitIndex, n.currentTerm, u, m);
        assert StreamBackedBy(s.ids, s.h, stream, u, m);
      }
    } else {
      var j :| 0 <= j < |s.h.past[p]| && s.h.past[p][j] == stream;
    }
  }

  /** All apply streams of all nodes and all incarnations, at any two times, are prefixes of one another. */
  lemma ApplyStreamsAgree(run: seq<Cluster>, i: nat, j: nat, p: Id, q: Id, a: seq<ApplyMsg>, b: seq<ApplyMsg>)
    requires IsRun(run) && i < |run| && j < |run|
    requires IsStream(run[i], p, a) && IsStream(run[j], q, b)
    ensures a <= b || b <= a
  {
    hide IsRun, Inv, Extends;
    RunOk(run, i);
    RunOk(run, j);
    var k := if i <= j then j else i;
    RunOk(run, k);
    RunExtends(run, i, k);
    RunExtends(run, j, k);
    StreamOk(run[i], p, a);
    StreamOk(run[j], q, b);
    StreamBackedExtends(run[k].ids, run[i].h, run[k].h, a);
    StreamBackedExtends(run[k].ids, run[j].h, run[k].h, b);
    InvHistory(run[k]);
    StreamsComparable(run[k].ids, run[k].h, a, b);
  }

  lemma InvHistory(s: Cluster)
    requires Inv(s)
    ensures HistoryOk(s.ids, s.h)
  {
  }

  lemma StreamsComparable(ids: set<Id>, h: History, a: seq<ApplyMsg>, b: seq<ApplyMsg>)
    requires TermsOk(ids, h) && ElectorsOk(h)
    requires StreamBacked(ids, h, a) && StreamBacked(ids, h, b)
    ensures a <= b || b <= a
  {
    if |a| > 0 && |b| > 0 {
      var ua, ma :| StreamBackedBy(ids, h, a, ua, ma);
      var ub, mb :| StreamBackedBy(ids, h, b, ub, mb);
      if ua <= ub {
        LaterLeadersHold(ids, h, ua, ma, ub);
      } else {
        LaterLeadersHold(ids, h, ub, mb, ua);
      }
    }
  }

  /** Gapless apply: every incarnation emits the indices 1, 2, 3, ... with no skip and no repeat, and the
      last one emitted is lastApplied. */
  lemma GaplessApply(run: seq<Cluster>, k: nat, p: Id, stream: seq<ApplyMsg>)
    requires IsRun(run) && k < |run|
    requires IsStream(run[k], p, stream)
    ensures forall i :: 0 <= i < |stream| ==> stream[i].index == i + 1
    ensures |run[k].nodes[p].emitted| == run[k].nodes[p].lastApplied
    ensures run[k].nodes[p].lastApplied <= run[k].nodes[p].commitIndex <= |run[k].nodes[p].log|
  {
    hide IsRun;
    RunOk(run, k);
    StreamOk(run[k], p, stream);
    assert NodeOk(run[k].ids, run[k].h, run[k].nodes[p]);
    StreamIndices(run[k].ids, run[k].h, stream);
  }

  lemma StreamIndices(ids: set<Id>, h: History, stream: seq<ApplyMsg>)
    requires TermsOk(ids, h)
    requires StreamBacked(ids, h, stream)
    ensures forall i :: 0 <= i < |stream| ==> stream[i].index == i + 1
  {
    if |stream| > 0 {
      var u, m :| StreamBackedBy(ids, h, stream, u, m);
      assert TermOk(ids, h, u);
      forall i | 0 <= i < |stream|
        ensures stream[i].index == i + 1
      {
        assert EntryIn(h, LeaderLog(h, u), i);
      }
    }
  }

  // ------------------------------------------------------------------ durability

  /** Once a node knows an entry to be committed, a quorum holds it in durable logs at every later moment,
      also right after crashes in the middle of handlers. */
  lemma CommittedOnQuorum(run: seq<Cluster>, i: nat, j: nat, p: Id) returns (quorum: set<Id>)
    requires IsRun(run) && i <= j < |run|
    requires p in run[i].nodes && run[i].nodes[p].commitIndex > 0
    ensures IsQuorum(run[j].ids, quorum) && quorum <= run[j].nodes.Keys
    ensures forall q :: q in quorum ==>
              Agree(run[i].nodes[p].log, run[j].nodes[q].log, run[i].nodes[p].commitIndex)
  {
    hide IsRun, HistoryOk, NetOk, Extends, Committed, ConfigOk, BallotOk, CandidateOk, LeaderOk, NodeLogOk, AckedOk;
    RunOk(run, i);
    RunOk(run, j);
    RunExtends(run, i, j);
    var n, s := run[i].nodes[p], run[j];
    assert NodeOk(run[i].ids, run[i].h, n);
    BackedExtends(s.ids, run[i].h, s.h, n.log, n.commitIndex, n.currentTerm);
    var u, m :| BackedBy(s.ids, s.h, n.log, n.commitIndex, n.currentTerm, u, m);
    quorum := Holders(s.ids, s.h, u, m);
    forall q | q in quorum
      ensures Agree(n.log, s.nodes[q].log, n.commitIndex)
    {
      assert NodeOk(s.ids, s.h, s.nodes[q]);
      HolderHolds(s.ids, s.h, s.nodes[q], u, m);
    }
  }

  lemma Holders(ids: set<Id>, h: History, u: int, m: int) returns (quorum: set<Id>)
    requires Committed(ids, h, u, m)
    ensures IsQuorum(ids, quorum)
    ensures forall q :: q in quorum ==> Ack(h, u, q) >= m
  {
    quorum :| IsQuorum(ids, quorum) && AckedBy(h, quorum, u, m);
  }

  /** A node that acknowledged a committed entry holds it for ever. */
  lemma HolderHolds(ids: set<Id>, h: History, n: Node, u: int, m: int)
    requires HistoryOk(ids, h) && AckedOk(h, n.id, n.log, n.currentTerm)
    requires Committed(ids, h, u, m) && Ack(h, u, n.id) >= m
    ensures Agree(LeaderLog(h, u), n.log, m)
  {
    hide TermsOk, ElectorsOk, VotesOk, StandingOk, AcksOk, PastOk;
    assert AckKept(h, n.log, n.currentTerm, u, m);
    forall v | u < v && v in h.terms
      ensures Agree(LeaderLog(h, u), LeaderLog(h, v), m)
    {
      LaterLeadersHold(ids, h, u, m, v);
    }
  }

  // -------------------------------------------------------------- the leader's books

  /** matchIndex soundness: as long as a peer is in the leader's term, it holds as much of the leader's log
      as the leader believes, whatever replies were lost, late or repeated. */
  lemma MatchIndexSound(run: seq<Cluster>, k: nat, l: Id, p: Id)
    requires IsRun(run) && k < |run|
    requires l in run[k].nodes && p in run[k].nodes[l].peers && p in run[k].nodes
    requires run[k].nodes[l].role == Leader
    requires run[k].nodes[p].currentTerm == run[k].nodes[l].currentTerm
    ensures Agree(run[k].nodes[l].log, run[k].nodes[p].log, Lookup(run[k].nodes[l].matchIndex, p))
    ensures 1 <= Lookup(run[k].nodes[l].nextIndex, p) <= |run[k].nodes[l].log| + 1
  {
    hide IsRun, NetOk, HistoryOk;
    RunOk(run, k);
    var s := run[k];
    var n, f := s.nodes[l], s.nodes[p];
    assert NodeOk(s.ids, s.h, n) && NodeOk(s.ids, s.h, f);
    var m := Lookup(n.matchIndex, p);
    if m > 0 {
      assert AckKept(s.h, f.log, f.currentTerm, n.currentTerm, m);
    }
  }

  /** Receiving the request m in state s: its commit index lies inside the part of the leader's log that it
      carries or matches; the follower accepts it exactly if its log agrees with the leader's up to the probed
      index; it then keeps everything it shared with that leader, and its commit index becomes the larger of
      the two, within what it then shares if it moves. */
  ghost predicate Verified(s: Cluster, m: Msg)
    requires m.AppendRequest? && Receives(s, m)
  {
    var n, a := s.nodes[m.dst], m.append;
    var (n', r) := HandleAppendEntries(n, a);
    && a.term in s.h.terms
    && var leader := s.h.terms[a.term].log;
    && a.leaderCommit <= a.prevLogIndex + |a.entries|
    && (r.success <==> a.term >= n.currentTerm && Agree(n.log, leader, a.prevLogIndex))
    && n'.commitIndex == (if r.success && a.leaderCommit > n.commitIndex then a.leaderCommit else n.commitIndex)
    && (n'.commitIndex > n.commitIndex ==> Agree(n'.log, leader, n'.commitIndex))
    && (a.term >= n.currentTerm ==> forall c :: Agree(n.log, leader, c) ==> Agree(n'.log, leader, c))
  }

  /** Whatever request is in flight, however often and late it is received. */
  lemma FollowerCommitVerified(run: seq<Cluster>, k: nat, m: Msg)
    requires IsRun(run) && k < |run|
    requires m.AppendRequest? && Receives(run[k], m)
    ensures Verified(run[k], m)
  {
    hide IsRun, Inv, Verified;
    RunOk(run, k);
    CommitVerified(run[k], m);
  }

  lemma CommitVerified(s: Cluster, m: Msg)
    requires Inv(s)
    requires m.AppendRequest? && Receives(s, m)
    ensures Verified(s, m)
  {
    hide TermsOk, ElectorsOk, VotesOk, StandingOk, AcksOk, PastOk, BallotOk, CandidateOk, LeaderOk, AckedOk,
         CommitOk, ApplyOk, Merge, ConfigOk;
    var n, a := s.nodes[m.dst], m.append;
    assert MsgOk(s.ids, s.h, m) && NodeOk(s.ids, s.h, n);
    if a.term >= n.currentTerm {
      FollowOk(s.ids, s.h, n, a);
      CheckIsAgreement(s.ids, s.h, n, a);
      if PrevMatches(n.log, a) {
        var f := FollowSender(n, a);
        AcceptCommit(s.ids, s.h, f, a);
        AcceptedLog(s.ids, s.h, f, a);
        SharedKept(s.h, n.log, a);
      }
    }
  }

  lemma SharedKept(h: History, log: Log, a: AppendArgs)
    requires MergedTo(log, LeaderLog(h, a.term), a.prevLogIndex + |a.entries|, Merge(log, a.entries))
    ensures forall c :: Agree(log, LeaderLog(h, a.term), c) ==> Agree(Merge(log, a.entries), LeaderLog(h, a.term), c)
  {
    forall c | Agree(log, LeaderLog(h, a.term), c)
      ensures Agree(Merge(log, a.entries), LeaderLog(h, a.term), c)
    {
      MergeKeepsShared(log, LeaderLog(h, a.term), a.prevLogIndex + |a.entries|, Merge(log, a.entries), c);
    }
  }

  /** The index and term that Propose returns identify the command for good: an entry with that index and term,
      in any log at any time of the run, holds this command. */
  lemma ProposalIdentified(run: seq<Cluster>, i: nat, j: nat, l: Id, command: Bytes, q: Id, index: int, term: int)
    requires IsRun(run) && i < |run| - 1 && j < |run|
    requires NextBy(run[i], Proposal(l, command), run[i + 1])
    requires Propose(run[i].nodes[l], command).1 == Proposed(index, term)
    requires q in run[j].nodes && 1 <= index <= |run[j].nodes[q].log|
    requires TermAt(run[j].nodes[q].log, index) == term
    ensures run[j].nodes[q].log[index - 1] == Entry(term, index, command)
  {
    hide IsRun, Inv, Extends, NextBy;
    RunOk(run, i);
    RunOk(run, j);
    ProposalLogged(run[i], run[i + 1], l, command);
    EntryCreated(run[j], q, index);
    if j <= i {
      RunExtends(run, j, i);
      LeaderLogKept(run[j].h, run[i].h, term);
      assert false;
    } else {
      RunExtends(run, i + 1, j);
      LeaderLogKept(run[i + 1].h, run[j].h, term);
    }
  }

  /** The new entry is the next one of its term's leader log. */
  lemma ProposalLogged(s: Cluster, s': Cluster, l: Id, command: Bytes)
    requires Inv(s) && NextBy(s, Proposal(l, command), s')
    requires Propose(s.nodes[l], command).1.Proposed?
    ensures var r := Propose(s.nodes[l], command).1;
            && r.term in s.h.terms && r.term in s'.h.terms
            && r.index == |LeaderLog(s.h, r.term)| + 1
            && LeaderLog(s'.h, r.term) == LeaderLog(s.h, r.term) + [Entry(r.term, r.index, command)]
  {
    hide HistoryOk, NetOk;
    assert LeaderOk(s.h, s.nodes[l]);
  }

  lemma EntryCreated(s: Cluster, q: Id, index: int)
    requires Inv(s) && q in s.nodes && 1 <= index <= |s.nodes[q].log|
    ensures var e := s.nodes[q].log[index - 1];
            e.term in s.h.terms && index <= |LeaderLog(s.h, e.term)| && LeaderLog(s.h, e.term)[index - 1] == e
  {
    hide HistoryOk, NetOk;
    assert NodeLogOk(s.h, s.nodes[q]) && EntryIn(s.h, s.nodes[q].log, index - 1);
  }

  lemma LeaderLogKept(h: History, h': History, t: int)
    requires Extends(h, h') && t in h.terms
    ensures Agree(LeaderLog(h, t), LeaderLog(h', t), |LeaderLog(h, t)|)
  {
    assert RecordKept(h.terms[t], h'.terms[t]);
  }
}
