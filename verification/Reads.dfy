/** internal/server/kv_server.go: the guarded read. The guard of Get does not make every read current; these
    are a run in which it does not, and the condition under which it does, for all runs. */
module Reads {
  import opened Types
  import opened LogSpec
  import opened Steps
  import opened Histories
  import opened Clusters
  import opened HistoryProofs
  import opened Invariant
  import opened Safety
  import opened CommitKnowledge
  import opened BackOffProofs
  import opened Progress
  import opened KeyValue

  /** Get, as if guard and read were one. With the linearizable flag, the node must lead and have applied what it
      knows to be committed; the read itself is of the durable map. */
  function GuardedGet(decode: Decoder, s: Cluster, p: Id, key: string, linearizable: bool): ReadResult
    requires p in s.nodes
  {
    var n, kv := s.nodes[p], Store(decode, s, p);
    if linearizable && n.role != Leader then NotTheLeader
    else if linearizable && n.lastApplied < n.commitIndex then NotYetApplied
    else if key in kv then KeyFound(kv[key])
    else KeyMissing
  }

  /** What a client is told: that the node does not lead, that it has not caught up, or the value of the last put
      to the key in the given messages, unless a delete came after it. */
  ghost predicate AnswersLastWrite(decode: Decoder, s: Cluster, p: Id, key: string, linearizable: bool, msgs: seq<ApplyMsg>)
    requires p in s.nodes
  {
    var n, r := s.nodes[p], GuardedGet(decode, s, p, key, linearizable);
    && (r == NotTheLeader <==> linearizable && n.role != Leader)
    && (r == NotYetApplied <==> linearizable && n.role == Leader && n.lastApplied < n.commitIndex)
    && (r != NotTheLeader && r != NotYetApplied ==>
          match LastWrite(decode, msgs, key)
          case None => r == KeyMissing
          case Some(c) => r == if c.kind == PUT then KeyFound(c.value) else KeyMissing)
  }

  /** Every read at every replica, with or without the flag: it answers from all messages that the replica's state
      machine ever received. */
  lemma ReadsAnswerLastWrite(decode: Decoder, s: Cluster, p: Id, key: string, linearizable: bool)
    requires p in s.nodes
    ensures AnswersLastWrite(decode, s, p, key, linearizable, Joined(Earlier(s, p) + [Received(s, p)]))
  {
    hide Fold, FoldAll, LastWrite, Joined;
    FoldAllIsFold(decode, map[], Earlier(s, p) + [Received(s, p)]);
    LastWriteWins(decode, map[], Joined(Earlier(s, p) + [Received(s, p)]), key);
  }

  /** At a replica that has recovered, only those received since it booted count. */
  lemma RecoveredAnswerLastWrite(decode: Decoder, run: seq<Cluster>, j: nat, p: Id, key: string, linearizable: bool)
    requires IsRun(run) && j < |run| && p in run[j].nodes && Recovered(run[j], p)
    ensures AnswersLastWrite(decode, run[j], p, key, linearizable, Received(run[j], p))
  {
    hide IsRun, Fold, FoldAll, LastWrite, Recovered, Store;
    RecoveredStore(decode, run, j, p);
    LastWriteWins(decode, map[], Received(run[j], p), key);
  }

  // ------------------------------------------------------- when reads are current

  /** The state machine of node p has received the stream, in this incarnation or in an earlier one. */
  ghost predicate HasReceived(s: Cluster, p: Id, stream: seq<ApplyMsg>) {
    p in s.nodes && (stream == Received(s, p) || stream in Earlier(s, p))
  }

  /** The leader has committed an entry of its own term, and nobody leads or has led a later one. */
  ghost predicate Confirmed(s: Cluster, l: Id) {
    LeadsLatest(s, l) && TermAt(s.nodes[l].log, s.nodes[l].commitIndex) == s.nodes[l].currentTerm
  }

  /** Whatever any state machine had received by then, a confirmed leader knows to be committed. */
  lemma ConfirmedKnowsAll(run: seq<Cluster>, k: nat, i: nat, l: Id, p: Id, stream: seq<ApplyMsg>)
    requires IsRun(run) && k <= i < |run|
    requires Confirmed(run[i], l) && HasReceived(run[k], p, stream)
    ensures |stream| <= run[i].nodes[l].commitIndex
  {
    hide IsRun, Inv, Extends, Tells;
    RunOk(run, k);
    RunOk(run, i);
    CommitNonNegative(run[i], l);
    if |stream| > 0 {
      RunExtends(run, k, i);
      var x := |stream|;
      var t := stream[x - 1].term;
      var source := StreamTells(run[k], p, stream);
      ToldTerm(run[k], source, t, x);
      TermKept(run[k].h, run[i].h, t);
      LeaderOnRecord(run[i], l);
      if t == run[i].nodes[l].currentTerm {
        LedSince(run, k, i, l, t);
        LatestBefore(run[k], run[i], l);
        RunInformed(run, k);
      } else {
        ReceivedBacked(run[k], p, stream);
        StreamBackedExtends(run[i].ids, run[k].h, run[i].h, stream);
        EarlierTermBelow(run[i], l, stream);
      }
    }
  }

  lemma LatestBefore(s: Cluster, s': Cluster, l: Id)
    requires Extends(s.h, s'.h) && LeadsLatest(s', l) && Leads(s, l, s'.nodes[l].currentTerm)
    ensures LeadsLatest(s, l)
  {
  }

  /** A stream tells what it holds at its end. */
  lemma StreamTells(s: Cluster, p: Id, stream: seq<ApplyMsg>) returns (source: Source)
    requires Inv(s) && HasReceived(s, p, stream) && |stream| > 0
    ensures Tells(s, source, stream[|stream| - 1].term, |stream|)
  {
    hide Inv;
    if stream == Received(s, p) {
      ReceivedKnown(s, p, |stream|);
      source := AtNode(p);
    } else {
      var k :| 0 <= k < |Earlier(s, p)| && Earlier(s, p)[k] == stream;
      source := InPast(p, k);
    }
  }

  lemma ReceivedBacked(s: Cluster, p: Id, stream: seq<ApplyMsg>)
    requires Inv(s) && HasReceived(s, p, stream)
    ensures StreamBacked(s.ids, s.h, stream)
  {
    hide Inv, Committed;
    if stream in Earlier(s, p) {
      StreamOk(s, p, stream);
    } else {
      StreamOk(s, p, s.nodes[p].emitted);
      if |stream| > 0 {
        var u, m :| StreamBackedBy(s.ids, s.h, s.nodes[p].emitted, u, m);
        assert StreamBackedBy(s.ids, s.h, stream, u, m);
      }
    }
  }

  /** A committed stream that ends in an earlier term ends before the leader's own entries. */
  lemma EarlierTermBelow(s: Cluster, l: Id, stream: seq<ApplyMsg>)
    requires Inv(s) && Confirmed(s, l)
    requires StreamBacked(s.ids, s.h, stream) && |stream| > 0
    requires stream[|stream| - 1].term < s.nodes[l].currentTerm
    ensures |stream| <= s.nodes[l].commitIndex
  {
    hide Inv;
    LeaderOnRecord(s, l);
    CommitNonNegative(s, l);
    InvTerms(s, l);
    var n := s.nodes[l];
    var u, m :| StreamBackedBy(s.ids, s.h, stream, u, m);
    LaterLeadersHold(s.ids, s.h, u, m, n.currentTerm);
    if n.commitIndex < |stream| {
      TermsAscend(s.ids, s.h, n.log, n.commitIndex - 1, |stream| - 1);
      assert false;
    }
  }

  lemma InvTerms(s: Cluster, l: Id)
    requires Inv(s) && l in s.nodes
    ensures TermsOk(s.ids, s.h) && ElectorsOk(s.h) && LogIn(s.h, s.nodes[l].log)
    ensures forall u :: u in s.h.terms ==> 1 <= u
  {
    hide VotesOk, StandingOk, AcksOk, PastOk, NetOk, ElectorsOk;
    assert NodeOk(s.ids, s.h, s.nodes[l]);
    forall u | u in s.h.terms
      ensures 1 <= u
    {
      assert TermOk(s.ids, s.h, u);
    }
  }

  /** When a guarded read is current: if the leader was confirmed at time i, and at the time j of the read the
      same incarnation has received all that was committed at time i, then the map that is read is the fold of
      a stream that every state machine's stream of time i or before is a prefix of. No command that anybody
      had applied when the read began is missing from it, and the client gets the last write of that stream. */
  lemma ReadIsCurrent(decode: Decoder, run: seq<Cluster>, i: nat, j: nat, l: Id)
    requires IsRun(run) && i <= j < |run|
    requires Confirmed(run[i], l)
    requires l in run[j].nodes && Earlier(run[j], l) == Earlier(run[i], l)
    requires |Received(run[j], l)| >= run[i].nodes[l].commitIndex
    ensures Store(decode, run[j], l) == Fold(decode, map[], Received(run[j], l))
    ensures forall key, linearizable :: AnswersLastWrite(decode, run[j], l, key, linearizable, Received(run[j], l))
    ensures forall k, p, stream :: 0 <= k <= i && HasReceived(run[k], p, stream) ==> stream <= Received(run[j], l)
  {
    hide IsRun, Confirmed, Fold, FoldAll, AnswersLastWrite, Store;
    forall k: nat, p, stream | k <= i && HasReceived(run[k], p, stream)
      ensures stream <= Received(run[j], l)
    {
      ConfirmedKnowsAll(run, k, i, l, p, stream);
      StreamsCompare(run, k, j, p, l, stream);
    }
    forall x | 0 <= x < |Earlier(run[j], l)|
      ensures |Earlier(run[j], l)[x]| <= |Received(run[j], l)|
    {
      ConfirmedIsMember(run[i], l);
      assert HasReceived(run[i], l, Earlier(run[i], l)[x]);
      ConfirmedKnowsAll(run, i, i, l, l, Earlier(run[i], l)[x]);
    }
    RecoveredStore(decode, run, j, l);
    forall key, linearizable
      ensures AnswersLastWrite(decode, run[j], l, key, linearizable, Received(run[j], l))
    {
      RecoveredAnswerLastWrite(decode, run, j, l, key, linearizable);
    }
  }

  lemma ConfirmedIsMember(s: Cluster, l: Id)
    requires Confirmed(s, l)
    ensures l in s.nodes
  {
  }

  lemma StreamsCompare(run: seq<Cluster>, k: nat, j: nat, p: Id, l: Id, stream: seq<ApplyMsg>)
    requires IsRun(run) && k < |run| && j < |run| && l in run[j].nodes
    requires HasReceived(run[k], p, stream)
    ensures |stream| <= |Received(run[j], l)| ==> stream <= Received(run[j], l)
  {
    hide IsRun;
    var long := if stream in Earlier(run[k], p) then stream else run[k].nodes[p].emitted;
    ApplyStreamsAgree(run, k, j, p, l, long, run[j].nodes[l].emitted);
  }

  /** A leader can confirm the second half of the condition with its peers: as long as a quorum has seen no
      later term, no later term has a leader. */
  lemma QuorumConfirms(s: Cluster, l: Id, quorum: set<Id>)
    requires Inv(s) && l in s.nodes && s.nodes[l].role == Leader
    requires IsQuorum(s.ids, quorum) && quorum <= s.nodes.Keys
    requires forall p :: p in quorum ==> s.nodes[p].currentTerm <= s.nodes[l].currentTerm
    ensures LeadsLatest(s, l)
  {
    hide ElectorsOk, VotesOk, StandingOk, AcksOk, PastOk, NetOk, CandidateOk, NodeLogOk, AckedOk, CommitOk, ApplyOk;
    forall u | u in s.h.terms
      ensures u <= s.nodes[l].currentTerm
    {
      assert TermOk(s.ids, s.h, u);
      var p := QuorumsMeet(s.ids, quorum, s.h.terms[u].electors);
      assert BallotOk(s.h, s.nodes[p]);
    }
  }

  // ------------------------------------------------------------- a stale read

  const PAIR: set<Id> := {"a", "b"}

  const NOBODY: Durable := Durable(0, "", [])

  /** Two nodes with empty storage. */
  function Pair(): Cluster {
    Cluster({"a", "b"}, map["a" := Boot("a", ["b"], NOBODY), "b" := Boot("b", ["a"], NOBODY)], {}, EmptyHistory({"a", "b"}))
  }

  /** Where the pair has got to: the state of both nodes, and no incarnation has ended. */
  ghost predicate At(s: Cluster, a: Node, b: Node) {
    && Inv(s) && Reaches(PAIR, Pair(), s)
    && s.nodes == map["a" := a, "b" := b]
    && s.h.past == map["a" := [], "b" := []]
  }

  /** A step from there on. */
  lemma Go(s: Cluster, step: Step, s': Cluster, a: Node, b: Node)
    requires Inv(s) && Reaches(PAIR, Pair(), s) && NextBy(s, step, s') && Actor(step).Some? && Actor(step).value in PAIR
    requires s'.nodes == map["a" := a, "b" := b]
    requires s'.h.past == map["a" := [], "b" := []]
    ensures At(s', a, b)
  {
    hide Inv, NextBy, Reaches, Actor;
    ReachesBy(PAIR, s, step, s');
    ReachesVia(PAIR, Pair(), s, s');
  }

  function Follower1(): Node {
    Boot("b", ["a"], NOBODY).(currentTerm := 1, votedFor := "a")
  }

  function Leader1(): Node {
    Node("a", ["b"], 1, "a", [NoOp(1, 1)], 0, 0, map["b" := 1], map["b" := 0], Leader, "a", 2, {}, {}, [], 0)
  }

  function NoOp(term: int, index: int): Entry {
    Entry(term, index, [])
  }

  lemma PairStarts()
    ensures Init(Pair()) && At(Pair(), Boot("a", ["b"], NOBODY), Boot("b", ["a"], NOBODY))
  {
    hide Inv, Reaches;
    PairInit();
    InitOk(Pair());
    ReachesSelf(PAIR, Pair());
  }

  lemma PairInit()
    ensures Init(Pair())
  {
    assert ElementsOf(["b"]) == {"a", "b"} - {"a"} && ElementsOf(["a"]) == {"a", "b"} - {"b"};
  }

  /** Node a is elected in term 1. */
  lemma FirstElection() returns (s: Cluster)
    ensures At(s, Leader1(), Follower1())
  {
    hide Inv, Reaches, Init;
    PairStarts();
    var s0 := Pair();
    var a1 := StartElection(s0.nodes["a"]);
    var call := VoteRequest("b", VoteCall(a1));
    var s1 := ElectionEffect(s0, "a");
    assert "b" in a1.peers;
    Go(s0, Election("a"), s1, a1, s0.nodes["b"]);
    var s2 := VoteEffect(s1, call);
    Go(s1, Vote(call), s2, a1, Follower1());
    var reply := VoteReply("b", VoteCall(a1), VoteResult(1, true));
    s := VoteAnswerEffect(s2, reply);
    FirstWin();
    Go(s2, VoteAnswer(reply), s, Leader1(), Follower1());
  }

  lemma FirstWin()
    ensures OnVoteReply(StartElection(Boot("a", ["b"], NOBODY)), "b", VoteArgs(1, "a", 0, 0), VoteResult(1, true)) == Leader1()
  {
    var n := StartElection(Boot("a", ["b"], NOBODY));
    assert n.awaiting - {"b"} == {};
    SetForOne(1);
    SetForOne(0);
  }

  lemma SetForOne(v: int)
    ensures SetForAll(map[], ["b"], v) == map["b" := v]
  {
  }

  // the command is proposed, replicated and delivered at a

  function Both(command: Bytes): Log {
    [NoOp(1, 1), Entry(1, 2, command)]
  }

  function Proposed1(command: Bytes): Node {
    Leader1().(log := Both(command))
  }

  function Told1(command: Bytes): Node {
    Proposed1(command).(heartbeats := {Heartbeat(1, 0)})
  }

  function Request(command: Bytes): AppendArgs {
    AppendArgs(1, "a", 0, 0, Both(command), 0)
  }

  function Held1(command: Bytes): Node {
    Follower1().(leaderId := "a", log := Both(command))
  }

  function Committed1(command: Bytes): Node {
    Told1(command).(matchIndex := map["b" := 2], nextIndex := map["b" := 3], commitIndex := 2)
  }

  function Stream(command: Bytes): seq<ApplyMsg> {
    [ApplyMsg([], 1, 1), ApplyMsg(command, 2, 1)]
  }

  function Applied1(command: Bytes, delivered: nat): Node {
    Committed1(command).(lastApplied := 2, emitted := Stream(command), delivered := delivered)
  }

  lemma FirstCommand(command: Bytes) returns (s: Cluster)
    ensures At(s, Told1(command), Follower1())
    ensures AppendRequest("b", Request(command)) in s.net
  {
    hide Inv, Reaches;
    var s3 := FirstElection();
    var s4 := ProposalEffect(s3, "a", command);
    assert Leader1().log + [Entry(1, 2, command)] == Both(command);
    Go(s3, Proposal("a", command), s4, Proposed1(command), Follower1());
    var s5 := Update(s4, "a", TakeHeartbeat(s4.nodes["a"]), {}, s4.h);
    assert Proposed1(command).heartbeats + {Heartbeat(1, 0)} == {Heartbeat(1, 0)};
    Go(s4, HeartbeatRound("a"), s5, Told1(command), Follower1());
    s := SendAppendEffect(s5, "a", "b", Heartbeat(1, 0));
    FirstRequest(command);
    assert "b" in s5.nodes["a"].peers;
    Go(s5, SendAppend("a", "b", Heartbeat(1, 0)), s, Told1(command), Follower1());
  }

  lemma FirstRequest(command: Bytes)
    ensures BuildAppend(Told1(command), "b", Heartbeat(1, 0)) == Some(Request(command))
  {
    assert Both(command)[0..2] == Both(command);
  }

  lemma FirstAnswer(command: Bytes)
    ensures HandleAppendEntries(Follower1(), Request(command)) == (Held1(command), AppendResult(1, true, 0, 0, 2))
  {
    MergeSpec([], Both(command), 0, Both(command));
    assert Both(command)[..2] == Both(command);
  }

  lemma FirstCommit(command: Bytes)
    ensures OnAppendReply(Told1(command), "b", Request(command), AppendResult(1, true, 0, 0, 2)) == Committed1(command)
  {
    var n := Told1(command).(matchIndex := map["b" := 2], nextIndex := map["b" := 3]);
    assert CountMatching(["b"][..0], n.matchIndex, 2) == 0;
    assert CountMatching(["b"], n.matchIndex, 2) == 1;
    assert Committable(n, 2);
    assert CommitTarget(n, 2) == 2;
  }

  lemma FirstCollect(command: Bytes)
    ensures CollectApply(Committed1(command)) == Applied1(command, 0)
  {
    var n := Committed1(command);
    var n1 := n.(lastApplied := 1, emitted := [ApplyMsg([], 1, 1)]);
    assert n.emitted + [ToApply(n.log[0])] == n1.emitted;
    assert CollectApply(n) == CollectApply(n1);
    var n2 := n1.(lastApplied := 2, emitted := [ApplyMsg([], 1, 1)] + [ApplyMsg(command, 2, 1)]);
    assert CollectApply(n1) == CollectApply(n2);
  }

  lemma FirstReplication(command: Bytes) returns (s: Cluster)
    ensures At(s, Committed1(command), Held1(command))
  {
    hide Inv, Reaches, HandleAppendEntries, OnAppendReply;
    var s6 := FirstCommand(command);
    var m := AppendRequest("b", Request(command));
    var s7 := AppendEffect(s6, m);
    FirstAnswer(command);
    Go(s6, Append(m), s7, Told1(command), Held1(command));
    var reply := AppendReply("b", Request(command), AppendResult(1, true, 0, 0, 2));
    s := AppendAnswerEffect(s7, reply);
    FirstCommit(command);
    Go(s7, AppendAnswer(reply), s, Committed1(command), Held1(command));
  }

  lemma FirstApply(command: Bytes) returns (s: Cluster)
    ensures At(s, Applied1(command, 0), Held1(command))
  {
    hide Inv, Reaches, CollectApply;
    var s8 := FirstReplication(command);
    s := Update(s8, "a", CollectApply(s8.nodes["a"]), {}, s8.h);
    FirstCollect(command);
    Go(s8, Collect("a"), s, Applied1(command, 0), Held1(command));
  }

  lemma FirstDelivery(command: Bytes) returns (s: Cluster)
    ensures At(s, Applied1(command, 2), Held1(command))
  {
    hide Inv, Reaches;
    var s9 := FirstApply(command);
    var s10 := Update(s9, "a", Deliver(s9.nodes["a"]), {}, s9.h);
    Go(s9, DeliverNext("a"), s10, Applied1(command, 1), Held1(command));
    s := Update(s10, "a", Deliver(s10.nodes["a"]), {}, s10.h);
    Go(s10, DeliverNext("a"), s, Applied1(command, 2), Held1(command));
  }

  // node b is elected in term 2

  function Standing2(command: Bytes): Node {
    StartElection(Held1(command))
  }

  function Voted2(command: Bytes): Node {
    Applied1(command, 2).(role := Follower, currentTerm := 2, votedFor := "b")
  }

  function Leader2(command: Bytes): Node {
    BecomeLeader(Standing2(command).(awaiting := {}, votesReceived := 2))
  }

  lemma SecondCandidacy(command: Bytes) returns (s: Cluster)
    ensures At(s, Applied1(command, 2), Standing2(command))
    ensures VoteRequest("a", VoteCall(Standing2(command))) in s.net
  {
    hide Inv, Reaches;
    var s0 := FirstDelivery(command);
    assert "a" in Standing2(command).peers;
    s := ElectionEffect(s0, "b");
    Go(s0, Election("b"), s, Applied1(command, 2), Standing2(command));
  }

  lemma SecondBallot(command: Bytes) returns (s: Cluster)
    ensures At(s, Voted2(command), Standing2(command))
    ensures VoteReply("a", VoteCall(Standing2(command)), VoteResult(2, true)) in s.net
  {
    hide Inv, Reaches, HandleRequestVote, Standing2, Voted2, Applied1;
    var s1 := SecondCandidacy(command);
    var call := VoteRequest("a", VoteCall(Standing2(command)));
    s := VoteEffect(s1, call);
    SecondVote(command);
    Go(s1, Vote(call), s, Voted2(command), Standing2(command));
  }

  lemma SecondElection(command: Bytes) returns (s: Cluster)
    ensures At(s, Voted2(command), Leader2(command))
  {
    hide Inv, Reaches, OnVoteReply, Standing2, Voted2, Leader2;
    var s2 := SecondBallot(command);
    var reply := VoteReply("a", VoteCall(Standing2(command)), VoteResult(2, true));
    StandsAsB(command);
    s := VoteAnswerEffect(s2, reply);
    SecondWin(command);
    Go(s2, VoteAnswer(reply), s, Voted2(command), Leader2(command));
  }

  lemma StandsAsB(command: Bytes)
    ensures Standing2(command).id == "b"
  {
  }

  lemma SecondVote(command: Bytes)
    ensures HandleRequestVote(Applied1(command, 2), VoteCall(Standing2(command))) == (Voted2(command), VoteResult(2, true))
  {
  }

  lemma SecondWin(command: Bytes)
    ensures OnVoteReply(Standing2(command), "a", VoteCall(Standing2(command)), VoteResult(2, true)) == Leader2(command)
  {
    assert Standing2(command).awaiting - {"a"} == {};
  }

  /** After that election both nodes hold the command, and only a has applied it. */
  lemma WhatBothReceived(s: Cluster, command: Bytes)
    requires s.nodes == map["a" := Voted2(command), "b" := Leader2(command)]
    ensures Received(s, "a") == Stream(command) && Received(s, "b") == []
    ensures s.nodes["b"].role == Leader && s.nodes["b"].lastApplied == s.nodes["b"].commitIndex == 0
  {
  }

  lemma PutIsApplied(decode: Decoder, command: Bytes, c: Command)
    requires |command| > 0 && decode(command) == Some(c) && c.kind == PUT
    ensures c.key in Fold(decode, map[], Stream(command)) && Fold(decode, map[], Stream(command))[c.key] == c.value
    ensures c.key !in Fold(decode, map[], [])
  {
    var stream := Stream(command);
    FoldNext(decode, map[], stream);
  }

  /** A stale read: node a has committed and applied a put, b has been elected since, and b's guard lets
      through a read that does not find the key. */
  lemma StaleRead(decode: Decoder, command: Bytes, c: Command) returns (run: seq<Cluster>)
    requires |command| > 0 && decode(command) == Some(c) && c.kind == PUT
    ensures IsRun(run)
    ensures var s := run[|run| - 1];
            && "a" in s.nodes && "b" in s.nodes
            && ApplyMsg(command, 2, 1) in Received(s, "a")
            && c.key in Store(decode, s, "a") && Store(decode, s, "a")[c.key] == c.value
            && GuardedGet(decode, s, "a", c.key, false) == KeyFound(c.value)
            && GuardedGet(decode, s, "b", c.key, true) == KeyMissing
  {
    hide Inv, Next, NextIn, Init, Fold, FoldAll, Stream, Voted2, Leader2;
    PairStarts();
    var s := SecondElection(command);
    var trace :| IsTrace(PAIR, trace) && trace[0] == Pair() && trace[|trace| - 1] == s;
    assert IsRun([Pair()]);
    RunGoesOn([Pair()], PAIR, trace);
    run := [Pair()] + trace[1..];
    assert run == trace;
    WhatBothReceived(s, command);
    OnlyStream(decode, Stream(command));
    OnlyStream(decode, []);
    PutIsApplied(decode, command, c);
    StreamEnds(command);
  }

  lemma StreamEnds(command: Bytes)
    ensures |Stream(command)| == 2 && Stream(command)[1] == ApplyMsg(command, 2, 1)
  {
  }

  lemma OnlyStream(decode: Decoder, stream: seq<ApplyMsg>)
    ensures FoldAll(decode, map[], [] + [stream]) == Fold(decode, map[], stream)
  {
    assert ([] + [stream])[..0] == [];
  }
}
