/** What a cluster can still do, whatever has happened to it: from every state of every run, the nodes of any
    quorum, by steps of their own alone, can commit any given command, all know it and all hand it to their
    state machines, provided that the cluster has at least two nodes. The code never commits anything on a
    cluster of one, since it looks at the commit rule only when a peer has answered. */
module Progress {
  import opened Types
  import opened LogSpec
  import opened Steps
  import opened Histories
  import opened Clusters
  import opened HistoryProofs
  import opened Invariant
  import opened HandlerSpecs
  import opened BackOffProofs
  import Safety

  // ------------------------------------------------------------ reachability

  /** By steps of nodes in q alone. */
  ghost predicate Reaches(q: set<Id>, s: Cluster, s': Cluster) {
    exists trace :: IsTrace(q, trace) && trace[0] == s && trace[|trace| - 1] == s'
  }

  lemma ReachesSelf(q: set<Id>, s: Cluster)
    ensures Reaches(q, s, s)
  {
    assert IsTrace(q, [s]);
  }

  lemma ReachesBy(q: set<Id>, s: Cluster, step: Step, s': Cluster)
    requires Inv(s) && NextBy(s, step, s') && Actor(step).Some? && Actor(step).value in q
    ensures Reaches(q, s, s') && Inv(s') && s'.ids == s.ids
  {
    hide Inv, NextBy, Actor;
    StepOk(s, step, s');
    assert NextIn(q, s, s');
    assert IsTrace(q, [s, s']);
  }

  lemma ReachesVia(q: set<Id>, a: Cluster, b: Cluster, c: Cluster)
    requires Reaches(q, a, b) && Reaches(q, b, c)
    ensures Reaches(q, a, c)
  {
    hide NextIn;
    var t :| IsTrace(q, t) && t[0] == a && t[|t| - 1] == b;
    var u :| IsTrace(q, u) && u[0] == b && u[|u| - 1] == c;
    TraceJoins(q, t, u);
  }

  lemma NamedByKey(s: Cluster, i: Id)
    requires Inv(s) && i in s.nodes
    ensures s.nodes[i].id == i && i in s.ids && ConfigOk(s.ids, s.nodes[i])
    ensures s.nodes.Keys == s.ids
  {
    hide HistoryOk, NetOk, BallotOk, CandidateOk, LeaderOk, NodeLogOk, AckedOk, CommitOk, ApplyOk;
    assert NodeOk(s.ids, s.h, s.nodes[i]);
  }

  // ------------------------------------------------------------ the best candidate

  /** In every set of nodes, some node's log is at least as up to date as all of them. */
  lemma {:induction false} BestNode(nodes: map<Id, Node>, some: set<Id>) returns (i: Id)
    requires some != {} && some <= nodes.Keys
    ensures i in some
    ensures forall j :: j in some ==> AtLeast(nodes[i].log, nodes[j].log)
    decreases |some|
  {
    i :| i in some;
    if some != {i} {
      var j := BestNode(nodes, some - {i});
      if AtLeast(nodes[j].log, nodes[i].log) {
        i := j;
      }
    }
  }

  lemma {:induction false} TopTerm(nodes: map<Id, Node>, some: set<Id>) returns (t: int)
    requires some <= nodes.Keys
    ensures forall j :: j in some ==> nodes[j].currentTerm < t
    decreases |some|
  {
    t := 0;
    if some != {} {
      var i :| i in some;
      t := TopTerm(nodes, some - {i});
      if t <= nodes[i].currentTerm {
        t := nodes[i].currentTerm + 1;
      }
    }
  }

  // ------------------------------------------------------------ an election

  /** No node of q has seen a later term than i, which is one of them. */
  ghost predicate Foremost(s: Cluster, q: set<Id>, i: Id) {
    && i in q && q <= s.nodes.Keys
    && forall j :: j in q ==> s.nodes[j].currentTerm <= s.nodes[i].currentTerm
  }

  /** Node p has been asked and will vote for i: it is not ahead in term, has voted for nobody else in it, and
      holds no better log. */
  ghost predicate Willing(s: Cluster, i: Id, p: Id)
    requires i in s.nodes
  {
    && p in s.nodes && p != i
    && s.nodes[p].currentTerm <= s.nodes[i].currentTerm
    && FreeFor(s.h, p, s.nodes[i].currentTerm, i)
    && AtLeast(s.nodes[i].log, s.nodes[p].log)
    && VoteRequest(p, VoteCall(s.nodes[i])) in s.net
  }

  /** Everyone in q whose answer i waits for will vote for it, and with the votes it has they are a majority. */
  ghost predicate Campaign(s: Cluster, q: set<Id>, i: Id) {
    && Foremost(s, q, i)
    && s.nodes[i].role == Candidate
    && 2 * (s.nodes[i].votesReceived + |s.nodes[i].awaiting * q|) > |s.ids|
    && forall p :: p in s.nodes[i].awaiting * q ==> Willing(s, i, p)
  }

  /** Starting elections until the term reaches a bound. */
  lemma {:induction false} Stand(s: Cluster, q: set<Id>, i: Id, t: int) returns (s': Cluster)
    requires Inv(s) && i in s.nodes && i in q
    ensures Reaches(q, s, s') && Inv(s') && s'.ids == s.ids
    ensures i in s'.nodes && s'.nodes == s.nodes[i := s'.nodes[i]]
    ensures var n, n' := s.nodes[i], s'.nodes[i];
            && t <= n'.currentTerm
            && n'.log == n.log && n'.role == Candidate
            && n'.votesReceived == 1 && n'.awaiting == s.ids - {i}
            && forall p :: p in s.ids - {i} ==> VoteRequest(p, VoteCall(n')) in s'.net
    decreases if t > s.nodes[i].currentTerm then t - s.nodes[i].currentTerm else 0
  {
    hide Inv, Reaches, ElectionEffect;
    s' := ElectionEffect(s, i);
    NamedByKey(s, i);
    ElectionStarts(s, i);
    assert Actor(Election(i)) == Some(i);
    ReachesBy(q, s, Election(i), s');
    if s'.nodes[i].currentTerm < t {
      var s1 := s';
      s' := Stand(s1, q, i, t);
      ReachesVia(q, s, s1, s');
    }
  }

  /** Node p answers the request. */
  lemma Grant(s: Cluster, q: set<Id>, i: Id, p: Id) returns (s': Cluster)
    requires Inv(s) && i in s.nodes && s.nodes[i].role == Candidate && Willing(s, i, p) && p in q
    ensures Reaches(q, s, s') && Inv(s') && s'.ids == s.ids
    ensures p in s'.nodes && s'.nodes == s.nodes[p := s'.nodes[p]] && s.net <= s'.net
    ensures s'.nodes[p].currentTerm == s.nodes[i].currentTerm
    ensures VoteReply(p, VoteCall(s.nodes[i]), VoteResult(s.nodes[i].currentTerm, true)) in s'.net
    ensures forall v :: v in s'.h.votes && v.1 != p ==> v in s.h.votes && s'.h.votes[v] == s.h.votes[v]
  {
    hide Inv, Reaches, HandleRequestVote, AtLeast;
    var m := VoteRequest(p, VoteCall(s.nodes[i]));
    StoodOn(s, i);
    NamedByKey(s, p);
    VoteIsDecided(s, m);
    s' := VoteEffect(s, m);
    assert Actor(Vote(m)) == Some(p);
    ReachesBy(q, s, Vote(m), s');
  }

  /** A candidate stands on its log. */
  lemma StoodOn(s: Cluster, i: Id)
    requires Inv(s) && i in s.nodes && s.nodes[i].role == Candidate
    ensures VoteCall(s.nodes[i]).candidateId == i
    ensures (s.nodes[i].currentTerm, i) in s.h.standing && s.h.standing[(s.nodes[i].currentTerm, i)] == s.nodes[i].log
  {
    hide HistoryOk, NetOk;
    assert NodeOk(s.ids, s.h, s.nodes[i]);
  }

  function OneMore(n: Node, p: Id): Node {
    n.(awaiting := n.awaiting - {p}, votesReceived := n.votesReceived + 1)
  }

  /** The candidate takes in the vote of p. */
  lemma TakeVote(s: Cluster, q: set<Id>, i: Id, p: Id) returns (s': Cluster)
    requires Inv(s) && i in s.nodes && i in q && s.nodes[i].role == Candidate && p in s.nodes[i].awaiting
    requires VoteReply(p, VoteCall(s.nodes[i]), VoteResult(s.nodes[i].currentTerm, true)) in s.net
    ensures Reaches(q, s, s') && Inv(s') && s'.ids == s.ids
    ensures i in s'.nodes && s'.nodes == s.nodes[i := s'.nodes[i]] && s'.net == s.net && s'.h.votes == s.h.votes
    ensures s'.nodes[i].currentTerm == s.nodes[i].currentTerm
    ensures s'.nodes[i].role == Leader || s'.nodes[i] == OneMore(s.nodes[i], p)
  {
    hide Inv, Reaches, OnVoteReply, NewLeader;
    var m := VoteReply(p, VoteCall(s.nodes[i]), VoteResult(s.nodes[i].currentTerm, true));
    StoodOn(s, i);
    s' := VoteAnswerEffect(s, m);
    assert Actor(VoteAnswer(m)) == Some(i);
    ReachesBy(q, s, VoteAnswer(m), s');
    BallotIsCounted(s, m);
    LeadersKeepTerm(OneMore(s.nodes[i], p), s'.nodes[i]);
  }

  /** One more vote. */
  lemma OneVote(s: Cluster, q: set<Id>, i: Id, p: Id) returns (s': Cluster)
    requires Inv(s) && Campaign(s, q, i) && p in s.nodes[i].awaiting * q
    ensures Reaches(q, s, s') && Inv(s') && s'.ids == s.ids && Foremost(s', q, i)
    ensures s'.nodes[i].role == Leader || (s'.nodes[i] == OneMore(s.nodes[i], p) && Campaign(s', q, i))
  {
    hide Inv, Reaches, AtLeast, VoteTaken, OneMore, FreeFor;
    assert Willing(s, i, p);
    var s1 := Grant(s, q, i, p);
    s' := TakeVote(s1, q, i, p);
    ReachesVia(q, s, s1, s');
    if s'.nodes[i].role != Leader {
      VoteIsTaken(s, i, p, s1, s');
      StillCampaigning(s, q, i, p, s');
    }
  }

  lemma LeadersKeepTerm(n: Node, n': Node)
    ensures NewLeader(n, n') ==> n'.currentTerm == n.currentTerm && n'.role == Leader
  {
  }

  /** The state after p's vote for i has been counted. */
  ghost predicate VoteTaken(s: Cluster, i: Id, p: Id, s': Cluster)
    requires i in s.nodes
  {
    && i in s'.nodes && p in s'.nodes && p != i && s'.ids == s.ids && s.net <= s'.net
    && (forall r :: r in s.nodes && r != i && r != p ==> r in s'.nodes && s'.nodes[r] == s.nodes[r])
    && s'.nodes[i] == OneMore(s.nodes[i], p)
    && (forall v :: v in s'.h.votes && v.1 != p ==> v in s.h.votes && s'.h.votes[v] == s.h.votes[v])
  }

  lemma VoteIsTaken(s: Cluster, i: Id, p: Id, s1: Cluster, s': Cluster)
    requires i in s.nodes && p in s.nodes && p != i && s'.ids == s.ids
    requires p in s1.nodes && s1.nodes == s.nodes[p := s1.nodes[p]] && s.net <= s1.net
    requires s'.nodes == s1.nodes[i := OneMore(s.nodes[i], p)] && s'.net == s1.net && s'.h.votes == s1.h.votes
    requires forall v :: v in s1.h.votes && v.1 != p ==> v in s.h.votes && s1.h.votes[v] == s.h.votes[v]
    ensures VoteTaken(s, i, p, s')
  {
  }

  lemma WillingStill(s: Cluster, i: Id, p: Id, s': Cluster, r: Id)
    requires i in s.nodes && Willing(s, i, r) && r != p && VoteTaken(s, i, p, s')
    ensures Willing(s', i, r)
  {
    hide AtLeast;
  }

  lemma StillCampaigning(s: Cluster, q: set<Id>, i: Id, p: Id, s': Cluster)
    requires Campaign(s, q, i) && p in s.nodes[i].awaiting * q && VoteTaken(s, i, p, s') && Foremost(s', q, i)
    ensures Campaign(s', q, i)
  {
    hide Willing;
    assert s'.nodes[i].awaiting * q == s.nodes[i].awaiting * q - {p};
    forall r | r in s'.nodes[i].awaiting * q
      ensures Willing(s', i, r)
    {
      WillingStill(s, i, p, s', r);
    }
  }

  /** Whoever can count on a majority wins. */
  lemma {:induction false} Elect(s: Cluster, q: set<Id>, i: Id) returns (s': Cluster)
    requires Inv(s) && Campaign(s, q, i)
    ensures Reaches(q, s, s') && Inv(s') && s'.ids == s.ids
    ensures Foremost(s', q, i) && s'.nodes[i].role == Leader
    decreases |s.nodes[i].awaiting * q|
  {
    hide Inv, Reaches, CheckWon, Willing, NewLeader;
    var n := s.nodes[i];
    if 2 * n.votesReceived > |s.ids| {
      WaitIsCounted(s, i);
      LeadersKeepTerm(n, CheckWon(n));
      s' := WaitOverEffect(s, i);
      assert Actor(WaitOver(i)) == Some(i);
      ReachesBy(q, s, WaitOver(i), s');
    } else {
      var p :| p in n.awaiting * q;
      s' := OneVote(s, q, i, p);
      if s'.nodes[i].role != Leader {
        var s1 := s';
        assert s1.nodes[i].awaiting * q == n.awaiting * q - {p};
        s' := Elect(s1, q, i);
        ReachesVia(q, s, s1, s');
      }
    }
  }

  /** A node has not voted in a term it has not seen. */
  lemma Unvoted(s: Cluster, p: Id, t: int)
    requires Inv(s) && p in s.nodes && s.nodes[p].currentTerm < t
    ensures (t, p) !in s.h.votes
  {
    hide HistoryOk, NetOk;
    assert NodeOk(s.ids, s.h, s.nodes[p]);
  }

  /** From every state any quorum can elect one of its nodes. */
  lemma ElectSomeone(s: Cluster, q: set<Id>) returns (s': Cluster, l: Id)
    requires Inv(s) && IsQuorum(s.ids, q)
    ensures Reaches(q, s, s') && Inv(s') && s'.ids == s.ids
    ensures Foremost(s', q, l) && s'.nodes[l].role == Leader
  {
    hide Inv, Reaches, AtLeast;
    KeysAreIds(s);
    l := BestNode(s.nodes, q);
    NamedByKey(s, l);
    var t := TopTerm(s.nodes, q);
    var s1 := Stand(s, q, l, t);
    forall p | p in s1.nodes[l].awaiting * q
      ensures Willing(s1, l, p)
    {
      Unvoted(s1, p, s1.nodes[l].currentTerm);
    }
    assert s1.nodes[l].awaiting * q == q - {l};
    assert Campaign(s1, q, l);
    s' := Elect(s1, q, l);
    ReachesVia(q, s, s1, s');
  }

  // ------------------------------------------------------------ replication

  /** Node l leads, with nobody in q ahead of it. */
  ghost predicate Reigns(s: Cluster, q: set<Id>, l: Id) {
    Foremost(s, q, l) && s.nodes[l].role == Leader
  }

  ghost predicate PeerHolds(s: Cluster, l: Id, f: Id) {
    && l in s.nodes && f in s.nodes
    && Agree(s.nodes[l].log, s.nodes[f].log, |s.nodes[l].log|)
    && Lookup(s.nodes[l].matchIndex, f) == |s.nodes[l].log|
  }

  ghost predicate AllHold(s: Cluster, l: Id, some: set<Id>) {
    forall f :: f in some ==> PeerHolds(s, l, f)
  }

  lemma PairedIn(s: Cluster, q: set<Id>, l: Id, f: Id)
    requires Inv(s) && Reigns(s, q, l) && f in q && f != l
    ensures Paired(s, l, f)
  {
    hide Inv;
    NamedByKey(s, l);
    assert f in ElementsOf(s.nodes[l].peers);
  }

  /** An exchange with f leaves the rule of l and the other peers as they were. */
  lemma AfterExchange(s: Cluster, q: set<Id>, l: Id, f: Id, s': Cluster, some: set<Id>)
    requires Inv(s) && Inv(s') && Reigns(s, q, l) && f in q && f != l && f !in some
    requires Paired(s', l, f) && SameLeader(s.nodes[l], s'.nodes[l]) && Undisturbed(s, s', l, f)
    requires AllHold(s, l, some) && l !in some
    ensures Reigns(s', q, l) && AllHold(s', l, some)
  {
    hide Inv, Agree;
    KeysAreIds(s);
    KeysAreIds(s');
    forall p | p in some
      ensures PeerHolds(s', l, p)
    {
      assert PeerHolds(s, l, p);
    }
  }

  /** The leader brings its peers in q up to date one after the other. */
  lemma {:induction false} CatchUp(s: Cluster, q: set<Id>, l: Id, some: set<Id>) returns (s': Cluster)
    requires Inv(s) && Reigns(s, q, l) && some <= q - {l}
    ensures Reaches(q, s, s') && Inv(s') && s'.ids == s.ids
    ensures Reigns(s', q, l) && SameLeader(s.nodes[l], s'.nodes[l])
    ensures AllHold(s', l, some)
    ensures some != {} ==> Settled(s'.ids, s'.nodes[l])
    decreases |some|
  {
    hide Inv, Reaches, Settled, Agree, IsProbing, AllRejected, PeerHolds;
    if some == {} {
      s' := s;
      ReachesSelf(q, s);
    } else {
      var f :| f in some;
      var s1 := CatchUp(s, q, l, some - {f});
      PairedIn(s1, q, l, f);
      s' := CatchUpOne(s1, q, l, f);
      AfterExchange(s1, q, l, f, s', some - {f});
      ReachesVia(q, s, s1, s');
    }
  }

  lemma CatchUpOne(s: Cluster, q: set<Id>, l: Id, f: Id) returns (s': Cluster)
    requires Inv(s) && Paired(s, l, f) && l in q && f in q
    ensures Reaches(q, s, s') && Inv(s') && Paired(s', l, f)
    ensures SameLeader(s.nodes[l], s'.nodes[l]) && Undisturbed(s, s', l, f)
    ensures PeerHolds(s', l, f) && Settled(s'.ids, s'.nodes[l])
  {
    hide Inv, NextIn, Settled, IsExchange;
    var chain := ProbingConverges(s, l, f);
    ProbingEnds(chain, l, f, |chain| - 1);
    s' := chain[|chain| - 1].end;
    var trace := ProbingTrace(chain, l, f);
    TraceWithin({l, f}, q, trace);
  }

  lemma TraceWithin(some: set<Id>, q: set<Id>, trace: seq<Cluster>)
    requires IsTrace(some, trace) && some <= q
    ensures IsTrace(q, trace)
  {
    hide NextBy, Actor;
    forall k | 0 <= k < |trace| - 1
      ensures NextIn(q, trace[k], trace[k + 1])
    {
      assert NextIn(some, trace[k], trace[k + 1]);
    }
  }

  /** Once all its peers in the quorum are up to date and the leader has looked, all of its log is committed. */
  lemma AllCommitted(s: Cluster, q: set<Id>, l: Id)
    requires Inv(s) && Reigns(s, q, l) && IsQuorum(s.ids, q)
    requires AllHold(s, l, q - {l}) && Settled(s.ids, s.nodes[l])
    ensures s.nodes[l].commitIndex == |s.nodes[l].log| > 0
  {
    hide Inv, Agree;
    var n := s.nodes[l];
    OwnLastEntry(s, l);
    NamedByKey(s, l);
    forall p | p in q && p != n.id
      ensures Lookup(n.matchIndex, p) >= |n.log|
    {
      assert PeerHolds(s, l, p);
    }
    assert HeldByQuorum(s.ids, n, |n.log|, q);
  }

  lemma OwnLastEntry(s: Cluster, l: Id)
    requires Inv(s) && l in s.nodes && s.nodes[l].role == Leader
    ensures var n := s.nodes[l];
            |n.log| > 0 && n.log[|n.log| - 1].term == n.currentTerm && n.commitIndex <= |n.log|
  {
    hide ElectorsOk, VotesOk, StandingOk, AcksOk, PastOk, NetOk, BallotOk, CandidateOk, AckedOk;
    assert NodeOk(s.ids, s.h, s.nodes[l]) && TermOk(s.ids, s.h, s.nodes[l].currentTerm);
  }

  // ------------------------------------------------------- the followers learn of it

  /** A follower that holds all of the leader's log holds nothing else. */
  lemma HoldsNoMore(s: Cluster, q: set<Id>, l: Id, f: Id)
    requires Inv(s) && Reigns(s, q, l) && f in q
    requires Agree(s.nodes[l].log, s.nodes[f].log, |s.nodes[l].log|)
    ensures s.nodes[f].log == s.nodes[l].log
  {
    hide ElectorsOk, VotesOk, StandingOk, AcksOk, PastOk, NetOk, BallotOk, CandidateOk, AckedOk, CommitOk, ApplyOk, ConfigOk;
    var n, m := s.nodes[l], s.nodes[f];
    OwnLastEntry(s, l);
    assert NodeOk(s.ids, s.h, n) && NodeOk(s.ids, s.h, m);
    TermsAscend(s.ids, s.h, m.log, |n.log| - 1, |m.log| - 1);
    assert EntryIn(s.h, m.log, |m.log| - 1);
    assert m.log[|m.log| - 1].term == n.currentTerm;
  }

  /** The node holds the leader's log and knows all of it to be committed. */
  ghost predicate Knows(s: Cluster, l: Id, f: Id) {
    && l in s.nodes && f in s.nodes
    && s.nodes[f].log == s.nodes[l].log && s.nodes[f].commitIndex == |s.nodes[l].log|
  }

  ghost predicate AllKnow(s: Cluster, l: Id, some: set<Id>) {
    forall f :: f in some ==> Knows(s, l, f)
  }

  /** One more exchange tells a follower that is up to date. */
  lemma TellOne(s: Cluster, q: set<Id>, l: Id, f: Id) returns (s': Cluster)
    requires Inv(s) && Reigns(s, q, l) && f in q && f != l && PeerHolds(s, l, f)
    requires s.nodes[l].commitIndex == |s.nodes[l].log|
    ensures Reaches(q, s, s') && Inv(s') && Paired(s', l, f)
    ensures SameLeader(s.nodes[l], s'.nodes[l]) && Undisturbed(s, s', l, f)
    ensures PeerHolds(s', l, f) && Knows(s', l, f)
  {
    hide Inv, Reaches, Settled, NextIn;
    PairedIn(s, q, l, f);
    var e := NextExchange(s, l, f);
    ExchangeOutcome(e, l, f);
    s' := e.end;
    assert Agree(s.nodes[f].log, s.nodes[l].log, |s.nodes[l].log|);
    assert e.answer.success;
    ExchangeReaches(e, q, l, f);
    AfterExchange(s, q, l, f, s', {});
    HoldsNoMore(s', q, l, f);
    CommitWithinLog(s', f);
  }

  lemma CommitWithinLog(s: Cluster, f: Id)
    requires Inv(s) && f in s.nodes
    ensures s.nodes[f].commitIndex <= |s.nodes[f].log|
  {
    hide HistoryOk, NetOk;
    assert NodeOk(s.ids, s.h, s.nodes[f]);
  }

  lemma ExchangeReaches(e: Exchange, q: set<Id>, l: Id, f: Id)
    requires IsExchange(e, l, f) && l in q && f in q
    ensures Reaches(q, e.start, e.end)
  {
    hide IsExchange, NextIn;
    assert IsProbing([e], l, f);
    var trace := ProbingTrace([e], l, f);
    TraceWithin({l, f}, q, trace);
  }

  lemma {:induction false} Tell(s: Cluster, q: set<Id>, l: Id, some: set<Id>) returns (s': Cluster)
    requires Inv(s) && Reigns(s, q, l) && some <= q - {l} && AllHold(s, l, q - {l})
    requires s.nodes[l].commitIndex == |s.nodes[l].log|
    ensures Reaches(q, s, s') && Inv(s') && s'.ids == s.ids
    ensures Reigns(s', q, l) && SameLeader(s.nodes[l], s'.nodes[l]) && s'.nodes[l].commitIndex == |s'.nodes[l].log|
    ensures AllHold(s', l, q - {l}) && AllKnow(s', l, some)
    decreases |some|
  {
    hide Inv, Reaches, PeerHolds;
    if some == {} {
      s' := s;
      ReachesSelf(q, s);
    } else {
      var f :| f in some;
      var s1 := Tell(s, q, l, some - {f});
      s' := TellOne(s1, q, l, f);
      ReachesVia(q, s, s1, s');
      AfterExchange(s1, q, l, f, s', q - {l} - {f});
      CommitWithinLog(s', l);
      assert AllHold(s', l, q - {l});
      forall p | p in some
        ensures Knows(s', l, p)
      {
        if p != f {
          assert Knows(s1, l, p);
        }
      }
    }
  }

  // ------------------------------------------------------- the state machines get it

  /** The node's state machine has received all of the node's log. */
  ghost predicate Served(n: Node) {
    && |ReceivedBy(n)| == |n.log|
    && forall k :: 0 <= k < |n.log| ==> ReceivedBy(n)[k] == ApplyMsg(n.log[k].command, k + 1, n.log[k].term)
  }

  /** The same node but for what it has collected and delivered. */
  ghost predicate SameButServed(n: Node, n': Node) {
    n' == n.(lastApplied := n'.lastApplied, emitted := n'.emitted, delivered := n'.delivered)
  }

  lemma ServeOne(s: Cluster, q: set<Id>, p: Id) returns (s': Cluster)
    requires Inv(s) && p in s.nodes && p in q && s.nodes[p].commitIndex == |s.nodes[p].log|
    ensures Reaches(q, s, s') && Inv(s') && s'.ids == s.ids
    ensures p in s'.nodes && s'.nodes == s.nodes[p := s'.nodes[p]]
    ensures SameButServed(s.nodes[p], s'.nodes[p]) && Served(s'.nodes[p])
  {
    hide Inv, Reaches, CollectApply;
    var s1 := Update(s, p, CollectApply(s.nodes[p]), {}, s.h);
    assert Actor(Collect(p)) == Some(p);
    ReachesBy(q, s, Collect(p), s1);
    CollectedIsCommitted(s, p);
    DeliveredWithin(s1, p);
    s' := DeliverAll(s1, q, p);
    ReachesVia(q, s, s1, s');
  }

  lemma DeliveredWithin(s: Cluster, p: Id)
    requires Inv(s) && p in s.nodes
    ensures s.nodes[p].delivered <= |s.nodes[p].emitted|
  {
    hide HistoryOk, NetOk;
    assert NodeOk(s.ids, s.h, s.nodes[p]);
  }

  lemma {:induction false} DeliverAll(s: Cluster, q: set<Id>, p: Id) returns (s': Cluster)
    requires Inv(s) && p in s.nodes && p in q && s.nodes[p].delivered <= |s.nodes[p].emitted|
    ensures Reaches(q, s, s') && Inv(s') && s'.ids == s.ids
    ensures s'.nodes == s.nodes[p := s.nodes[p].(delivered := |s.nodes[p].emitted|)]
    decreases |s.nodes[p].emitted| - s.nodes[p].delivered
  {
    hide Inv, Reaches;
    if s.nodes[p].delivered == |s.nodes[p].emitted| {
      s' := s;
      ReachesSelf(q, s);
    } else {
      var s1 := Update(s, p, Deliver(s.nodes[p]), {}, s.h);
      assert Actor(DeliverNext(p)) == Some(p);
      ReachesBy(q, s, DeliverNext(p), s1);
      s' := DeliverAll(s1, q, p);
      ReachesVia(q, s, s1, s');
    }
  }

  ghost predicate AllServed(s: Cluster, some: set<Id>) {
    forall p :: p in some ==> p in s.nodes && Served(s.nodes[p])
  }

  lemma {:induction false} Serve(s: Cluster, q: set<Id>, some: set<Id>) returns (s': Cluster)
    requires Inv(s) && some <= q <= s.nodes.Keys
    requires forall p :: p in some ==> s.nodes[p].commitIndex == |s.nodes[p].log|
    ensures Reaches(q, s, s') && Inv(s') && s'.ids == s.ids
    ensures s'.nodes.Keys == s.nodes.Keys && forall p :: p in s.nodes ==> SameButServed(s.nodes[p], s'.nodes[p])
    ensures AllServed(s', some)
    decreases |some|
  {
    hide Inv, Reaches, Served;
    if some == {} {
      s' := s;
      ReachesSelf(q, s);
    } else {
      var p :| p in some;
      var s1 := Serve(s, q, some - {p});
      assert SameButServed(s.nodes[p], s1.nodes[p]);
      s' := ServeOne(s1, q, p);
      ReachesVia(q, s, s1, s');
      forall r | r in some
        ensures r in s'.nodes && Served(s'.nodes[r])
      {
        assert r != p ==> r in some - {p};
      }
    }
  }

  // ------------------------------------------------------------ the theorem

  /** Node l leads, with the command at the end of its log, and every node of q holds that log, knows all of it
      to be committed and has handed all of it to its state machine. */
  ghost predicate CommittedBy(s: Cluster, q: set<Id>, l: Id, command: Bytes) {
    && l in q && l in s.nodes && s.nodes[l].role == Leader
    && var log := s.nodes[l].log;
    && |log| > 0 && log[|log| - 1] == Entry(s.nodes[l].currentTerm, |log|, command)
    && forall f :: f in q ==> f in s.nodes && s.nodes[f].log == log && s.nodes[f].commitIndex == |log| && Served(s.nodes[f])
  }

  /** The longer run goes on from the shorter one up to such a state, by steps of nodes in q alone. */
  ghost predicate Commits(run: seq<Cluster>, longer: seq<Cluster>, q: set<Id>, l: Id, command: Bytes) {
    && |run| > 0 && run <= longer && IsRun(longer)
    && IsTrace(q, longer[|run| - 1..])
    && CommittedBy(longer[|longer| - 1], q, l, command)
  }

  ghost predicate CanCommit(run: seq<Cluster>, q: set<Id>, command: Bytes) {
    exists longer, l :: Commits(run, longer, q, l, command)
  }

  /** Electing someone and proposing to it. */
  lemma ProposeSomewhere(s: Cluster, q: set<Id>, command: Bytes) returns (s': Cluster, l: Id)
    requires Inv(s) && IsQuorum(s.ids, q)
    ensures Reaches(q, s, s') && Inv(s') && s'.ids == s.ids && Reigns(s', q, l)
    ensures var n := s'.nodes[l];
            |n.log| > 0 && n.log[|n.log| - 1] == Entry(n.currentTerm, |n.log|, command)
  {
    hide Inv, Reaches;
    var s1;
    s1, l := ElectSomeone(s, q);
    s' := ProposalEffect(s1, l, command);
    assert Actor(Proposal(l, command)) == Some(l);
    ReachesBy(q, s1, Proposal(l, command), s');
    ReachesVia(q, s, s1, s');
  }

  /** Then bringing everyone in the quorum up to date, committing, telling them and serving them. */
  lemma CommitFrom(s: Cluster, q: set<Id>, command: Bytes) returns (s': Cluster, l: Id)
    requires Inv(s) && IsQuorum(s.ids, q) && |s.ids| >= 2
    ensures Reaches(q, s, s')
    ensures CommittedBy(s', q, l, command)
  {
    hide Inv, Reaches, Settled, Served, PeerHolds;
    var s1;
    s1, l := ProposeSomewhere(s, q, command);
    OthersRemain(s.ids, q, l);
    var s2 := CatchUp(s1, q, l, q - {l});
    AllCommitted(s2, q, l);
    var s3 := Tell(s2, q, l, q - {l});
    forall p | p in q
      ensures Knows(s3, l, p)
    {
    }
    s' := Serve(s3, q, q);
    ReachesVia(q, s, s1, s2);
    ReachesVia(q, s, s2, s3);
    ReachesVia(q, s, s3, s');
    forall f | f in q
      ensures f in s'.nodes && s'.nodes[f].log == s'.nodes[l].log && s'.nodes[f].commitIndex == |s'.nodes[l].log| && Served(s'.nodes[f])
    {
      assert Knows(s3, l, f);
      assert SameButServed(s3.nodes[f], s'.nodes[f]) && SameButServed(s3.nodes[l], s'.nodes[l]);
    }
  }

  lemma OthersRemain(ids: set<Id>, q: set<Id>, l: Id)
    requires IsQuorum(ids, q) && |ids| >= 2
    ensures q - {l} != {}
  {
    if q - {l} == {} {
      SubsetSize(q, {l});
      assert false;
    }
  }

  // ------------------------------------------------------------ a cluster of one

  /** No message, no peer, nothing committed. */
  ghost predicate Alone(s: Cluster) {
    && s.net == {}
    && forall i :: i in s.nodes ==>
         s.nodes[i].peers == [] && s.nodes[i].commitIndex == 0 && s.nodes[i].lastApplied == 0
  }

  lemma AloneStep(s: Cluster, step: Step, s': Cluster)
    requires Alone(s) && NextBy(s, step, s')
    ensures Alone(s')
  {
    hide NextBy;
    NoMessageNeeded(s, step, s');
    AloneAfter(s, step, s');
  }

  predicate TakesMessage(step: Step) {
    step.Vote? || step.VoteAnswer? || step.Append? || step.AppendAnswer? || step.CrashInVote? || step.CrashInAppend?
  }

  lemma NoMessageNeeded(s: Cluster, step: Step, s': Cluster)
    requires s.net == {} && NextBy(s, step, s')
    ensures !TakesMessage(step)
  {
    hide VoteEffect, VoteAnswerEffect, AppendEffect, AppendAnswerEffect, CrashEffect, VoteWrites, AppendWrites, Replay;
  }

  lemma AloneAfter(s: Cluster, step: Step, s': Cluster)
    requires Alone(s) && NextBy(s, step, s') && !TakesMessage(step)
    ensures Alone(s')
  {
    hide RecordElection, RecordLead, RecordCrash, RecordWin;
  }

  lemma FirstIsElement(s: seq<Id>)
    ensures s == [] || s[0] in ElementsOf(s)
  {
  }

  lemma {:induction false} AloneForEver(run: seq<Cluster>, k: nat)
    requires IsRun(run) && |run[0].ids| < 2 && k < |run|
    ensures Alone(run[k])
  {
    hide NextBy;
    if k == 0 {
      forall i | i in run[0].nodes
        ensures run[0].nodes[i].peers == []
      {
        SubsetSize({i}, run[0].ids);
        assert run[0].ids == {i} by {
          if j :| j in run[0].ids && j != i {
            SubsetSize({i, j}, run[0].ids);
            assert false;
          }
        }
        FirstIsElement(run[0].nodes[i].peers);
      }
    } else {
      AloneForEver(run, k - 1);
      assert Next(run[k - 1], run[k - 1 + 1]);
      var step :| NextBy(run[k - 1], step, run[k]);
      AloneStep(run[k - 1], step, run[k]);
    }
  }

  /** From every state of every run, for every quorum and every command: the nodes of the quorum alone can still
      commit the command and serve it to all their state machines, if and only if the cluster has at least two
      nodes. */
  lemma CommitPossible(run: seq<Cluster>, q: set<Id>, command: Bytes)
    requires IsRun(run) && IsQuorum(run[0].ids, q)
    ensures CanCommit(run, q, command) <==> |run[0].ids| >= 2
  {
    if |run[0].ids| >= 2 {
      CommitsWithTwo(run, q, command);
    } else {
      NeverAlone(run, q, command);
    }
  }

  lemma CommitsWithTwo(run: seq<Cluster>, q: set<Id>, command: Bytes)
    requires IsRun(run) && IsQuorum(run[0].ids, q) && |run[0].ids| >= 2
    ensures CanCommit(run, q, command)
  {
    hide Inv, Next, NextIn, Init, CommittedBy;
    var s := run[|run| - 1];
    RunOk(run, |run| - 1);
    Safety.RunExtends(run, 0, |run| - 1);
    var s', l := CommitFrom(s, q, command);
    var trace :| IsTrace(q, trace) && trace[0] == s && trace[|trace| - 1] == s';
    RunGoesOn(run, q, trace);
    assert Commits(run, run + trace[1..], q, l, command);
  }

  lemma NeverAlone(run: seq<Cluster>, q: set<Id>, command: Bytes)
    requires IsRun(run) && |run[0].ids| < 2
    ensures !CanCommit(run, q, command)
  {
    hide Next, NextIn, Init, Served;
    forall longer, l
      ensures !Commits(run, longer, q, l, command)
    {
      if Commits(run, longer, q, l, command) {
        assert longer[0] == run[0];
        AloneForEver(longer, |longer| - 1);
        assert false;
      }
    }
  }
}
