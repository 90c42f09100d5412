/** Crashing at any moment, also between the storage calls of a handler, and booting again from storage
    keeps the invariant. */
module CrashProofs {
  import opened Types
  import opened LogSpec
  import opened Steps
  import opened Histories
  import opened Clusters
  import opened HistoryProofs
  import opened ElectionProofs
  import opened ReplicationProofs

  /** What the state machine had received is the start of a committed prefix. */
  lemma DeliveredBacked(ids: set<Id>, h: History, n: Node)
    requires CommitOk(ids, h, n) && ApplyOk(n)
    ensures StreamBacked(ids, h, n.emitted[..n.delivered])
  {
    if n.delivered > 0 {
      var u, m :| BackedBy(ids, h, n.log, n.commitIndex, n.currentTerm, u, m);
      assert StreamBackedBy(ids, h, n.emitted[..n.delivered], u, m);
    }
  }

  /** Node n stops with history h' behind it and boots from its durable state. */
  lemma RebootMoves(ids: set<Id>, h: History, h': History, n: Node)
    requires HistoryStep(h, h', n.id, n.currentTerm)
    requires HistoryOk(ids, h') && NodeOk(ids, h', n)
    ensures Moves(ids, h, Restart(n), {}, RecordCrash(h', n))
  {
    hide TermsOk, ElectorsOk, VotesOk, StandingOk, AcksOk, PastOk, ConfigOk, BallotOk, CandidateOk, LeaderOk, NodeLogOk, AckedOk, CommitOk;
    var h'' := RecordCrash(h', n);
    assert HistoryStep(h, h'', n.id, n.currentTerm);
    RebootHistoryOk(ids, h', n);
    RebootNodeOk(ids, h', h'', n);
  }

  lemma RebootHistoryOk(ids: set<Id>, h: History, n: Node)
    requires HistoryOk(ids, h) && NodeOk(ids, h, n)
    ensures HistoryOk(ids, RecordCrash(h, n))
  {
    hide TermsOk, ElectorsOk, VotesOk, StandingOk, AckedOk, CommitOk, ApplyOk, LeaderOk, CandidateOk;
    var h' := RecordCrash(h, n);
    var t := n.currentTerm;
    SameButPast(h, h', n.id, t);
    ElectorsFrame(ids, h, h', n.id, t);
    VotesFrame(ids, h, h', n.id, t);
    StandingFrame(h, h', n.id, t);
    TermsFrame(ids, h, h', n.id, t);
    RebootPastOk(ids, h, n);
    RebootRest(ids, h, h');
  }

  lemma SameButPast(h: History, h': History, i: Id, t: int)
    requires h' == h.(past := h'.past)
    ensures HistoryStep(h, h', i, t)
  {
  }

  lemma RebootRest(ids: set<Id>, h: History, h': History)
    requires h' == h.(past := h'.past)
    requires AcksOk(ids, h)
    requires forall u :: u in h.terms && LeaderLog(h', u) == LeaderLog(h, u) ==> TermOk(ids, h', u)
    requires forall u, p :: u in h.terms && p in h.terms[u].electors ==> VoterKept(h', p, LeaderLog(h', u), u)
    requires forall u, p :: (u, p) in h.votes && u !in h'.terms ==> VoteOk(h', u, p)
    requires forall k :: k in h.standing ==> LogIn(h', h.standing[k]) && TermsUpTo(h.standing[k], k.0 - 1)
    ensures TermsOk(ids, h') && ElectorsOk(h') && VotesOk(h') && StandingOk(h') && AcksOk(ids, h')
  {
  }

  lemma RebootPastOk(ids: set<Id>, h: History, n: Node)
    requires PastOk(ids, h) && n.id in ids
    requires CommitOk(ids, h, n) && ApplyOk(n)
    ensures PastOk(ids, RecordCrash(h, n))
  {
    var h' := RecordCrash(h, n);
    SameButPast(h, h', n.id, n.currentTerm);
    DeliveredBacked(ids, h, n);
    StreamBackedStep(ids, h, h', n.id, n.currentTerm, n.emitted[..n.delivered]);
    forall i, j | i in ids && 0 <= j < |h'.past[i]|
      ensures StreamBacked(ids, h', h'.past[i][j])
    {
      if j < |h.past[i]| {
        StreamBackedStep(ids, h, h', n.id, n.currentTerm, h.past[i][j]);
      }
    }
  }

  lemma RebootNodeOk(ids: set<Id>, h: History, h': History, n: Node)
    requires NodeOk(ids, h, n)
    requires h' == h.(past := h'.past)
    ensures NodeOk(ids, h', Restart(n))
  {
    SameButPast(h, h', n.id, n.currentTerm);
    LogInStep(h, h', n.id, n.currentTerm, n.log);
    AckedSame(h, h', n);
  }

  lemma CrashMoves(ids: set<Id>, h: History, n: Node)
    requires HistoryOk(ids, h) && NodeOk(ids, h, n)
    ensures Moves(ids, h, Boot(n.id, n.peers, DurableOf(n)), {}, RecordCrash(h, n))
  {
    SameButPast(h, h, n.id, n.currentTerm);
    RebootMoves(ids, h, h, n);
  }

  // -------------------------------------------------------- inside the vote handler

  /** The node as it would stand, had the vote handler stopped after `calls` storage calls. */
  function VoteHalted(n: Node, a: VoteArgs, calls: nat): Node {
    if calls == 0 then n
    else if calls == |VoteWrites(n, a)| then HandleRequestVote(n, a).0
    else StepDown(n, a.term)
  }

  lemma VoteHaltedDurable(n: Node, a: VoteArgs, calls: nat)
    requires calls <= |VoteWrites(n, a)|
    ensures Replay(DurableOf(n), VoteWrites(n, a)[..calls]) == DurableOf(VoteHalted(n, a, calls))
  {
    var ws := VoteWrites(n, a);
    if calls == |ws| {
      assert ws[..calls] == ws;
      VoteWritesRefine(n, a);
    } else {
      ReplayOne(DurableOf(n), ws[..calls]);
    }
  }

  lemma VoteHaltedSame(n: Node, a: VoteArgs, calls: nat)
    requires calls <= |VoteWrites(n, a)|
    ensures var x := VoteHalted(n, a, calls);
            && x.log == n.log && n.currentTerm <= x.currentTerm
            && x.id == n.id && x.peers == n.peers && x.emitted == n.emitted && x.delivered == n.delivered
  {
  }

  lemma CrashInVoteMoves(ids: set<Id>, h: History, n: Node, a: VoteArgs, calls: nat)
    requires HistoryOk(ids, h) && NodeOk(ids, h, n)
    requires VoteRequestOk(h, n.id, a)
    requires calls <= |VoteWrites(n, a)|
    ensures var d := Replay(DurableOf(n), VoteWrites(n, a)[..calls]);
            Moves(ids, h, Boot(n.id, n.peers, d), {}, RecordCrash(RecordSavedVote(h, n.id, d), n))
  {
    hide HistoryOk, NodeOk, VoteWrites, VoteHalted, Replay, HistoryStep;
    var x := VoteHalted(n, a, calls);
    var d := DurableOf(x);
    VoteHaltedDurable(n, a, calls);
    VoteHaltedSame(n, a, calls);
    var h' := RecordSavedVote(h, n.id, d);
    VoteHaltedOk(ids, h, n, a, calls);
    RebootMoves(ids, h, h', x);
    assert RecordCrash(h', n) == RecordCrash(h', x);
  }

  lemma VoteHaltedOk(ids: set<Id>, h: History, n: Node, a: VoteArgs, calls: nat)
    requires HistoryOk(ids, h) && NodeOk(ids, h, n)
    requires VoteRequestOk(h, n.id, a)
    requires calls <= |VoteWrites(n, a)|
    ensures var x := VoteHalted(n, a, calls);
            var h' := RecordSavedVote(h, n.id, DurableOf(x));
            HistoryStep(h, h', x.id, x.currentTerm) && HistoryOk(ids, h') && NodeOk(ids, h', x)
  {
    hide TermsOk, ElectorsOk, VotesOk, StandingOk, AcksOk, PastOk, ConfigOk, CandidateOk, LeaderOk, NodeLogOk,
         AckedOk, CommitOk, ApplyOk;
    var x := VoteHalted(n, a, calls);
    var h' := RecordSavedVote(h, n.id, DurableOf(x));
    if a.term > n.currentTerm {
      StepDownOk(ids, h, n, a.term);
    }
    if x == HandleRequestVote(n, a).0 && HandleRequestVote(n, a).1.granted {
      VoteMoves(ids, h, n, a);
      assert h' == RecordVote(h, x);
    } else {
      assert NodeOk(ids, h, x);
      SavedVoteKnown(h, x);
      SameButPast(h, h, x.id, x.currentTerm);
    }
  }

  lemma SavedVoteKnown(h: History, n: Node)
    requires BallotOk(h, n)
    ensures RecordSavedVote(h, n.id, DurableOf(n)) == h
  {
    if n.votedFor != "" {
      assert h.votes[(n.currentTerm, n.id) := n.votedFor] == h.votes;
    }
  }

  // ------------------------------------------------------ inside the append handler

  /** The node as it would stand, had the append handler stopped after `calls` storage calls: nothing done,
      or following the sender with a log that is part way through the merge. */
  lemma AppendHalted(ids: set<Id>, h: History, n: Node, a: AppendArgs, calls: nat) returns (x: Node)
    requires HistoryOk(ids, h) && NodeOk(ids, h, n)
    requires AppendRequestOk(ids, h, n.id, a)
    requires calls <= |AppendWrites(n, a)|
    ensures DurableOf(x) == Replay(DurableOf(n), AppendWrites(n, a)[..calls])
    ensures NodeOk(ids, h, x)
    ensures x.id == n.id && x.peers == n.peers && x.emitted == n.emitted && x.delivered == n.delivered
  {
    hide TermsOk, ElectorsOk, VotesOk, StandingOk, AcksOk, PastOk, NodeOk, MergeWrites, AppendRequestOk, PrevMatches;
    var ws := AppendWrites(n, a);
    if calls == 0 {
      assert ws[..calls] == [];
      x := n;
    } else {
      var first := if a.term > n.currentTerm then [SaveState(a.term, "")] else [];
      var rest := ws[|first|..];
      var m := FollowSender(n, a);
      FollowOk(ids, h, n, a);
      AppendWritesShape(n, a, first, rest);
      assert ws[..calls] == first + rest[..calls - |first|];
      ReplayConcat(DurableOf(n), first, rest[..calls - |first|]);
      ReplayOne(DurableOf(n), first);
      assert Replay(DurableOf(n), first) == DurableOf(m);
      x := MergeHalted(ids, h, m, a, rest, calls - |first|);
    }
  }

  lemma AppendWritesShape(n: Node, a: AppendArgs, first: seq<Write>, rest: seq<Write>)
    requires first == if a.term > n.currentTerm then [SaveState(a.term, "")] else []
    requires |AppendWrites(n, a)| > 0 && rest == AppendWrites(n, a)[|first|..]
    ensures a.term >= n.currentTerm
    ensures rest == if PrevMatches(n.log, a) then MergeWrites(n.log, a.entries) else []
  {
  }

  lemma MergeHalted(ids: set<Id>, h: History, m: Node, a: AppendArgs, rest: seq<Write>, calls: nat) returns (x: Node)
    requires HistoryOk(ids, h) && NodeOk(ids, h, m)
    requires AppendRequestOk(ids, h, m.id, a)
    requires m.role == Follower && m.currentTerm == a.term
    requires rest == if PrevMatches(m.log, a) then MergeWrites(m.log, a.entries) else []
    requires calls <= |rest|
    ensures DurableOf(x) == Replay(DurableOf(m), rest[..calls])
    ensures NodeOk(ids, h, x)
    ensures x == m.(log := x.log)
  {
    hide TermsOk, ElectorsOk, VotesOk, StandingOk, AcksOk, PastOk, ConfigOk, BallotOk, CandidateOk, LeaderOk, AckedOk, MergeWrites, Matching;
    if PrevMatches(m.log, a) {
      PrevMatchesAgree(ids, h, m, a);
      PartialMerge(DurableOf(m), LeaderLog(h, a.term), a.prevLogIndex, a.entries, calls);
      var d := Replay(DurableOf(m), rest[..calls]);
      x := m.(log := d.log);
      HaltedOk(ids, h, m, a.term, a.prevLogIndex + |a.entries|, x);
    } else {
      assert rest[..calls] == [];
      x := m;
    }
  }

  lemma HaltedOk(ids: set<Id>, h: History, m: Node, u: int, upto: int, x: Node)
    requires TermsOk(ids, h) && ElectorsOk(h) && AcksOk(ids, h) && NodeOk(ids, h, m)
    requires m.role == Follower && m.currentTerm == u && u in h.terms
    requires MergedTo(m.log, LeaderLog(h, u), upto, x.log)
    requires x == m.(log := x.log)
    ensures NodeOk(ids, h, x)
    ensures Agree(m.log, x.log, m.commitIndex)
  {
    hide TermsOk, ElectorsOk, AcksOk, AckedOk, NodeLogOk;
    MergedOk(ids, h, m, u, upto, x.log);
    BackedOther(ids, h, m.log, x.log, m.commitIndex, u);
    FollowerOk(ids, h, h, m, x);
  }

  lemma CrashInAppendMoves(ids: set<Id>, h: History, n: Node, a: AppendArgs, calls: nat)
    requires HistoryOk(ids, h) && NodeOk(ids, h, n)
    requires AppendRequestOk(ids, h, n.id, a)
    requires calls <= |AppendWrites(n, a)|
    ensures Moves(ids, h, Boot(n.id, n.peers, Replay(DurableOf(n), AppendWrites(n, a)[..calls])), {}, RecordCrash(h, n))
  {
    hide HistoryOk, NodeOk, AppendRequestOk, AppendWrites;
    var x := AppendHalted(ids, h, n, a, calls);
    CrashMoves(ids, h, x);
    assert RecordCrash(h, n) == RecordCrash(h, x);
  }
}
