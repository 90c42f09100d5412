/** The cluster as a transition system. A step is one critical section of one node, the loss of a
    message, or a crash, possibly in the middle of a handler's storage calls. Messages stay in the network
    after they are received, so that they can be delayed, reordered and repeated without limit. */
module Clusters {
  import opened Types
  import opened LogSpec
  import opened Steps
  import opened Histories

  datatype Cluster = Cluster(ids: set<Id>, nodes: map<Id, Node>, net: set<Msg>, h: History)

  datatype Step =
    | Election(i: Id)
    | Vote(m: Msg)
    | VoteAnswer(m: Msg)
    | WaitOver(i: Id)
    | Proposal(i: Id, command: Bytes)
    | HeartbeatRound(i: Id)
    | SendAppend(i: Id, peer: Id, hb: Heartbeat)
    | Append(m: Msg)
    | AppendAnswer(m: Msg)
    | Collect(i: Id)
    | DeliverNext(i: Id)
    | Crash(i: Id)
    | CrashInVote(m: Msg, calls: nat)
    | CrashInAppend(m: Msg, calls: nat)
    | Lose(m: Msg)

  // ------------------------------------------------------- keeping the history

  function RecordElection(h: History, n: Node): History {
    h.(votes := h.votes[(n.currentTerm, n.id) := n.id], standing := h.standing[(n.currentTerm, n.id) := n.log])
  }

  function RecordVote(h: History, n: Node): History {
    h.(votes := h.votes[(n.currentTerm, n.id) := n.votedFor])
  }

  function Voters(ids: set<Id>, h: History, t: int, c: Id): set<Id> {
    set p | p in ids && (t, p) in h.votes && h.votes[(t, p)] == c
  }

  /** Node n leads its term: the term's log is now n's, all of it acknowledged by n itself. */
  function RecordLead(ids: set<Id>, h: History, n: Node): History {
    var t := n.currentTerm;
    var electors := if t in h.terms then h.terms[t].electors else Voters(ids, h, t, n.id);
    h.(terms := h.terms[t := TermRecord(n.id, electors, n.log)], acks := h.acks[(t, n.id) := |n.log|])
  }

  function RecordAck(h: History, i: Id, t: int, m: int): History {
    if m <= Ack(h, t, i) then h else h.(acks := h.acks[(t, i) := m])
  }

  /** The incarnation of n ends; what its state machine received becomes past. */
  function RecordCrash(h: History, n: Node): History {
    h.(past := h.past[n.id := (if n.id in h.past then h.past[n.id] else []) + [ReceivedBy(n)]])
  }

  // ---------------------------------------------------------------- transitions

  /** Node i becomes n, the messages `sent` are added and the history becomes h. */
  function Update(s: Cluster, i: Id, n: Node, sent: set<Msg>, h: History): Cluster {
    s.(nodes := s.nodes[i := n], net := s.net + sent, h := h)
  }

  function VoteRequests(n: Node): set<Msg> {
    set p | p in n.peers :: VoteRequest(p, VoteCall(n))
  }

  /** Wherever the election code may have made n a leader, record it. */
  function RecordWin(ids: set<Id>, h: History, before: Node, after: Node): History {
    if before.role == Candidate && after.role == Leader then RecordLead(ids, h, after) else h
  }

  predicate Receives(s: Cluster, m: Msg) {
    && m in s.net
    && match m
       case VoteRequest(dst, _) => dst in s.nodes
       case AppendRequest(dst, _) => dst in s.nodes
       case VoteReply(_, a, _) => a.candidateId in s.nodes
       case AppendReply(_, a, _) => a.leaderId in s.nodes
  }

  function VoteEffect(s: Cluster, m: Msg): Cluster
    requires m.VoteRequest? && Receives(s, m)
  {
    var (n, r) := HandleRequestVote(s.nodes[m.dst], m.vote);
    Update(s, m.dst, n, {VoteReply(m.dst, m.vote, r)}, if r.granted then RecordVote(s.h, n) else s.h)
  }

  function VoteAnswerEffect(s: Cluster, m: Msg): Cluster
    requires m.VoteReply? && Receives(s, m)
  {
    var n := s.nodes[m.vote.candidateId];
    var n' := OnVoteReply(n, m.src, m.vote, m.voteResult);
    Update(s, m.vote.candidateId, n', {}, RecordWin(s.ids, s.h, n, n'))
  }

  function WaitOverEffect(s: Cluster, i: Id): Cluster
    requires i in s.nodes
  {
    var n' := CheckWon(s.nodes[i]);
    Update(s, i, n', {}, RecordWin(s.ids, s.h, s.nodes[i], n'))
  }

  function ElectionEffect(s: Cluster, i: Id): Cluster
    requires i in s.nodes
  {
    var n' := StartElection(s.nodes[i]);
    Update(s, i, n', VoteRequests(n'), RecordElection(s.h, n'))
  }

  function ProposalEffect(s: Cluster, i: Id, command: Bytes): Cluster
    requires i in s.nodes
  {
    var (n', r) := Propose(s.nodes[i], command);
    Update(s, i, n', {}, if r.Proposed? then RecordLead(s.ids, s.h, n') else s.h)
  }

  function SendAppendEffect(s: Cluster, i: Id, peer: Id, hb: Heartbeat): Cluster
    requires i in s.nodes
  {
    match BuildAppend(s.nodes[i], peer, hb)
    case None => s
    case Some(a) => s.(net := s.net + {AppendRequest(peer, a)})
  }

  function AppendEffect(s: Cluster, m: Msg): Cluster
    requires m.AppendRequest? && Receives(s, m)
  {
    var a := m.append;
    var (n, r) := HandleAppendEntries(s.nodes[m.dst], a);
    Update(s, m.dst, n, {AppendReply(m.dst, a, r)},
           if r.success then RecordAck(s.h, m.dst, a.term, a.prevLogIndex + |a.entries|) else s.h)
  }

  function AppendAnswerEffect(s: Cluster, m: Msg): Cluster
    requires m.AppendReply? && Receives(s, m)
  {
    var i := m.append.leaderId;
    Update(s, i, OnAppendReply(s.nodes[i], m.src, m.append, m.appendResult), {}, s.h)
  }

  /** Node i loses its memory and boots again from d. */
  function CrashEffect(s: Cluster, i: Id, d: Durable, h: History): Cluster
    requires i in s.nodes
  {
    Update(s, i, Boot(s.nodes[i].id, s.nodes[i].peers, d), {}, RecordCrash(h, s.nodes[i]))
  }

  /** The votes of a handler that crashed after its vote was saved still count. */
  function RecordSavedVote(h: History, i: Id, d: Durable): History {
    if d.votedFor != "" then h.(votes := h.votes[(d.term, i) := d.votedFor]) else h
  }

  predicate NextBy(s: Cluster, step: Step, s': Cluster) {
    match step
    case Election(i) => i in s.nodes && s' == ElectionEffect(s, i)
    case Vote(m) => m.VoteRequest? && Receives(s, m) && s' == VoteEffect(s, m)
    case VoteAnswer(m) => m.VoteReply? && Receives(s, m) && s' == VoteAnswerEffect(s, m)
    case WaitOver(i) => i in s.nodes && s' == WaitOverEffect(s, i)
    case Proposal(i, command) => i in s.nodes && s' == ProposalEffect(s, i, command)
    case HeartbeatRound(i) => i in s.nodes && s' == Update(s, i, TakeHeartbeat(s.nodes[i]), {}, s.h)
    case SendAppend(i, peer, hb) =>
      && i in s.nodes && peer in s.nodes[i].peers && hb in s.nodes[i].heartbeats
      && s' == SendAppendEffect(s, i, peer, hb)
    case Append(m) => m.AppendRequest? && Receives(s, m) && s' == AppendEffect(s, m)
    case AppendAnswer(m) => m.AppendReply? && Receives(s, m) && s' == AppendAnswerEffect(s, m)
    case Collect(i) => i in s.nodes && s' == Update(s, i, CollectApply(s.nodes[i]), {}, s.h)
    case DeliverNext(i) => i in s.nodes && s' == Update(s, i, Deliver(s.nodes[i]), {}, s.h)
    case Crash(i) => i in s.nodes && s' == CrashEffect(s, i, DurableOf(s.nodes[i]), s.h)
    case CrashInVote(m, calls) =>
      && m.VoteRequest? && Receives(s, m)
      && var ws := VoteWrites(s.nodes[m.dst], m.vote);
         calls <= |ws|
         && var d := Replay(DurableOf(s.nodes[m.dst]), ws[..calls]);
            s' == CrashEffect(s, m.dst, d, RecordSavedVote(s.h, m.dst, d))
    case CrashInAppend(m, calls) =>
      && m.AppendRequest? && Receives(s, m)
      && var ws := AppendWrites(s.nodes[m.dst], m.append);
         calls <= |ws| && s' == CrashEffect(s, m.dst, Replay(DurableOf(s.nodes[m.dst]), ws[..calls]), s.h)
    case Lose(m) => s' == s.(net := s.net - {m})
  }

  /** The node that takes the step; nobody takes losses and crashes. */
  function Actor(step: Step): Option<Id> {
    match step
    case Election(i) => Some(i)
    case Vote(m) => if m.VoteRequest? then Some(m.dst) else None
    case VoteAnswer(m) => if m.VoteReply? then Some(m.vote.candidateId) else None
    case WaitOver(i) => Some(i)
    case Proposal(i, _) => Some(i)
    case HeartbeatRound(i) => Some(i)
    case SendAppend(i, _, _) => Some(i)
    case Append(m) => if m.AppendRequest? then Some(m.dst) else None
    case AppendAnswer(m) => if m.AppendReply? then Some(m.append.leaderId) else None
    case Collect(i) => Some(i)
    case DeliverNext(i) => Some(i)
    case _ => None
  }

  /** A step of one of the nodes in q. */
  ghost predicate NextIn(q: set<Id>, s: Cluster, s': Cluster) {
    exists step :: NextBy(s, step, s') && Actor(step).Some? && Actor(step).value in q
  }

  ghost predicate Next(s: Cluster, s': Cluster) {
    exists step :: NextBy(s, step, s')
  }

  /** Every node starts with empty storage. */
  ghost predicate Init(s: Cluster) {
    && "" !in s.ids
    && s.nodes.Keys == s.ids
    && (forall i :: i in s.ids ==>
          && s.nodes[i] == Boot(i, s.nodes[i].peers, Durable(0, "", []))
          && NoDuplicates(s.nodes[i].peers)
          && ElementsOf(s.nodes[i].peers) == s.ids - {i})
    && s.net == {}
    && s.h == EmptyHistory(s.ids)
  }

  /** A run is a sequence of cluster states, each the result of a step from the one before. */
  ghost predicate IsRun(run: seq<Cluster>) {
    && |run| > 0
    && Init(run[0])
    && forall k :: 0 <= k < |run| - 1 ==> Next(run[k], run[k + 1])
  }

  ghost predicate NodesOk(s: Cluster)
    requires s.nodes.Keys == s.ids
  {
    forall i :: i in s.ids ==> s.nodes[i].id == i && NodeOk(s.ids, s.h, s.nodes[i])
  }

  ghost predicate NetOk(s: Cluster) {
    SentOk(s.ids, s.h, s.net)
  }

  ghost predicate Inv(s: Cluster) {
    && "" !in s.ids
    && s.nodes.Keys == s.ids
    && HistoryOk(s.ids, s.h)
    && NodesOk(s)
    && NetOk(s)
  }

  lemma KeysAreIds(s: Cluster)
    requires Inv(s)
    ensures s.nodes.Keys == s.ids
  {
    hide HistoryOk, NodeOk, NetOk;
  }

  ghost predicate Leads(s: Cluster, l: Id, t: int) {
    l in s.nodes && s.nodes[l].role == Leader && s.nodes[l].currentTerm == t
  }

  /** What there is to show about a step of one node: the history it leaves, its own new state and the
      messages it sends. */
  ghost predicate Moves(ids: set<Id>, h: History, n: Node, sent: set<Msg>, h': History) {
    && HistoryStep(h, h', n.id, n.currentTerm)
    && HistoryOk(ids, h')
    && NodeOk(ids, h', n)
    && SentOk(ids, h', sent)
  }

  ghost predicate SentOk(ids: set<Id>, h: History, sent: set<Msg>) {
    forall m :: m in sent ==> MsgOk(ids, h, m)
  }

  /** Everything else follows: bystanders and messages in flight are untouched. */
  lemma Rejoin(s: Cluster, i: Id, n: Node, sent: set<Msg>, h: History)
    requires Inv(s)
    requires i in s.ids && n.id == i
    requires Moves(s.ids, s.h, n, sent, h)
    ensures Inv(Update(s, i, n, sent, h))
    ensures Extends(s.h, h)
  {
    hide TermsOk, ElectorsOk, VotesOk, StandingOk, AcksOk, PastOk, ConfigOk, BallotOk, CandidateOk, LeaderOk, NodeLogOk, AckedOk, CommitOk, ApplyOk, MsgOk;
    OthersOk(s, i, n, h);
    InFlightOk(s, i, n, sent, h);
    StepExtends(s.h, h, i, n.currentTerm);
    var s' := Update(s, i, n, sent, h);
    assert s'.nodes.Keys == s'.ids;
    assert NodesOk(s');
    assert NetOk(s');
  }

  lemma InFlightOk(s: Cluster, i: Id, n: Node, sent: set<Msg>, h: History)
    requires NetOk(s)
    requires HistoryStep(s.h, h, i, n.currentTerm)
    requires SentOk(s.ids, h, sent)
    ensures SentOk(s.ids, h, s.net + sent)
  {
    forall m | m in s.net
      ensures MsgOk(s.ids, h, m)
    {
      MsgOkStep(s.ids, s.h, h, i, n.currentTerm, m);
    }
  }

  lemma OthersOk(s: Cluster, i: Id, n: Node, h: History)
    requires Inv(s)
    requires HistoryStep(s.h, h, i, n.currentTerm)
    ensures forall j :: j in s.ids && j != i ==> NodeOk(s.ids, h, s.nodes[j])
  {
    forall j | j in s.ids && j != i
      ensures NodeOk(s.ids, h, s.nodes[j])
    {
      BystanderOk(s.ids, s.h, h, i, n.currentTerm, s.nodes[j]);
    }
  }

  /** A step that only changes its node. */
  lemma MovesAlone(ids: set<Id>, h: History, n: Node, sent: set<Msg>)
    requires HistoryOk(ids, h) && NodeOk(ids, h, n) && SentOk(ids, h, sent)
    ensures Moves(ids, h, n, sent, h)
  {
  }
}
