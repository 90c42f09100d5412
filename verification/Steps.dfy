/** What each critical section of a RaftNode does, as a function on node values.

    The cluster model takes its steps with these functions, and the methods of class RaftNode are
    specified by them. */
module Steps {
  import opened Types
  import opened LogSpec

  function QuorumSize(n: Node): int {
    (|n.peers| + 1) / 2 + 1
  }

  /** isLogUpToDate: the candidate's last entry against ours, term first, then index. */
  predicate UpToDate(log: Log, lastLogIndex: int, lastLogTerm: int) {
    if lastLogTerm != LastTerm(log) then lastLogTerm > LastTerm(log) else lastLogIndex >= |log|
  }

  function StepDown(n: Node, term: int): Node {
    n.(currentTerm := term, votedFor := "", role := Follower)
  }

  // ---------------------------------------------------------------- elections

  /** startElection up to the point where it releases the lock and asks its peers. It does not look at
      the current role. */
  function StartElection(n: Node): Node {
    n.(role := Candidate,
       currentTerm := n.currentTerm + 1,
       votedFor := n.id,
       votesReceived := 1,
       awaiting := ElementsOf(n.peers))
  }

  /** The request that a running election sends to every peer. */
  function VoteCall(n: Node): VoteArgs {
    VoteArgs(n.currentTerm, n.id, |n.log|, LastTerm(n.log))
  }

  function HandleRequestVote(n: Node, a: VoteArgs): (Node, VoteResult) {
    if a.term < n.currentTerm then (n, VoteResult(n.currentTerm, false))
    else
      var m := if a.term > n.currentTerm then StepDown(n, a.term) else n;
      if (m.votedFor == "" || m.votedFor == a.candidateId) && UpToDate(m.log, a.lastLogIndex, a.lastLogTerm) then
        (m.(votedFor := a.candidateId), VoteResult(m.currentTerm, true))
      else
        (m, VoteResult(m.currentTerm, false))
  }

  /** The reply half of sendRequestVote. Each peer is asked once per election, so a reply from a peer that
      is no longer awaited has already been consumed. */
  function OnVoteReply(n: Node, peer: Id, a: VoteArgs, r: VoteResult): Node {
    if n.role != Candidate || n.currentTerm != a.term || peer !in n.awaiting then n
    else
      var m := n.(awaiting := n.awaiting - {peer});
      if r.term > m.currentTerm then StepDown(m, r.term)
      else if r.granted then CheckWon(m.(votesReceived := m.votesReceived + 1))
      else m
  }

  /** The test for a won election, made after each granted vote and once more when the wait ends. */
  function CheckWon(n: Node): Node {
    if n.role == Candidate && n.votesReceived >= QuorumSize(n) then BecomeLeader(n) else n
  }

  /** The map with every listed peer set to v. */
  function SetForAll(m: map<Id, int>, ps: seq<Id>, v: int): map<Id, int> {
    m + (map p | p in ps :: v)
  }

  function BecomeLeader(n: Node): Node {
    n.(role := Leader,
       leaderId := n.id,
       nextIndex := SetForAll(n.nextIndex, n.peers, |n.log| + 1),
       matchIndex := SetForAll(n.matchIndex, n.peers, 0),
       log := n.log + [Entry(n.currentTerm, |n.log| + 1, [])])
  }

  // -------------------------------------------------------------- replication

  function Propose(n: Node, command: Bytes): (Node, ProposeResult) {
    if n.role != Leader then (n, NotLeader(n.leaderId))
    else
      var e := Entry(n.currentTerm, |n.log| + 1, command);
      (n.(log := n.log + [e]), Proposed(e.index, e.term))
  }

  /** sendHeartbeats: term and commit index are read here, the log only later, by each sending goroutine. */
  function TakeHeartbeat(n: Node): Node {
    if n.role != Leader then n
    else n.(heartbeats := n.heartbeats + {Heartbeat(n.currentTerm, n.commitIndex)})
  }

  /** The request half of sendAppendEntries. */
  function BuildAppend(n: Node, peer: Id, hb: Heartbeat): Option<AppendArgs> {
    if n.role != Leader || n.currentTerm != hb.term then None
    else
      var next := Lookup(n.nextIndex, peer);
      var entries := if next <= |n.log| then Range(n.log, next, |n.log| + 1) else [];
      Some(AppendArgs(hb.term, n.id, next - 1, TermAt(n.log, next - 1), entries, hb.commit))
  }

  /** HandleAppendEntries up to the consistency check: the term is adopted and the sender followed. */
  function FollowSender(n: Node, a: AppendArgs): Node {
    var m := if a.term > n.currentTerm then StepDown(n, a.term) else n;
    m.(role := if m.role == Candidate then Follower else m.role, leaderId := a.leaderId)
  }

  /** The consistency check on the entry before the new ones. */
  predicate PrevMatches(log: Log, a: AppendArgs) {
    a.prevLogIndex <= 0 || (a.prevLogIndex <= |log| && log[a.prevLogIndex - 1].term == a.prevLogTerm)
  }

  /** The hints sent back when the consistency check fails. */
  function Rejection(m: Node, a: AppendArgs): AppendResult
    requires !PrevMatches(m.log, a)
  {
    if |m.log| < a.prevLogIndex then AppendResult(m.currentTerm, false, 0, |m.log| + 1, 0)
    else
      var t := m.log[a.prevLogIndex - 1].term;
      AppendResult(m.currentTerm, false, t, FirstIndexOfTerm(m.log, t), 0)
  }

  function ClampedCommit(commit: int, leaderCommit: int, last: int): int {
    if leaderCommit > commit then (if last < leaderCommit then last else leaderCommit) else commit
  }

  function HandleAppendEntries(n: Node, a: AppendArgs): (Node, AppendResult) {
    if a.term < n.currentTerm then (n, AppendResult(n.currentTerm, false, 0, 0, 0))
    else
      var m := FollowSender(n, a);
      if !PrevMatches(m.log, a) then (m, Rejection(m, a))
      else
        var log := Merge(m.log, a.entries);
        (m.(log := log, commitIndex := ClampedCommit(m.commitIndex, a.leaderCommit, |log|)),
         AppendResult(m.currentTerm, true, 0, 0, |log|))
  }

  /** The new nextIndex after a rejected probe. */
  function BackOff(n: Node, peer: Id, r: AppendResult): int {
    if r.conflictTerm > 0 then
      var found := LastIndexOfTerm(n.log, r.conflictTerm, |n.log|);
      if found > 0 then found + 1 else r.conflictIndex
    else if r.conflictIndex > 0 then r.conflictIndex
    else if Lookup(n.nextIndex, peer) > 1 then n.nextIndex[peer] - 1
    else Lookup(n.nextIndex, peer)
  }

  /** The reply half of sendAppendEntries. */
  function OnAppendReply(n: Node, peer: Id, a: AppendArgs, r: AppendResult): Node {
    if n.role != Leader || n.currentTerm != a.term then n
    else if r.term > n.currentTerm then StepDown(n, r.term)
    else if r.success then
      var match' := a.prevLogIndex + |a.entries|;
      CheckCommit(n.(
        matchIndex := if match' > Lookup(n.matchIndex, peer) then n.matchIndex[peer := match'] else n.matchIndex,
        nextIndex := n.nextIndex[peer := match' + 1]))
    else n.(nextIndex := n.nextIndex[peer := BackOff(n, peer, r)])
  }

  /** The peers known to hold index i, counted as the loop does. */
  function CountMatching(peers: seq<Id>, matchIndex: map<Id, int>, i: int): nat {
    if |peers| == 0 then 0
    else
      CountMatching(peers[..|peers| - 1], matchIndex, i)
      + (if Lookup(matchIndex, peers[|peers| - 1]) >= i then 1 else 0)
  }

  /** Index i holds an entry of the current term and a quorum, this node included, holds it. */
  predicate Committable(n: Node, i: int) {
    TermAt(n.log, i) == n.currentTerm && 1 + CountMatching(n.peers, n.matchIndex, i) >= QuorumSize(n)
  }

  /** The largest committable index above commitIndex and at most upto, or commitIndex. */
  function CommitTarget(n: Node, upto: int): int
    decreases upto - n.commitIndex
  {
    if upto <= n.commitIndex then n.commitIndex
    else if Committable(n, upto) then upto
    else CommitTarget(n, upto - 1)
  }

  function CheckCommit(n: Node): Node {
    if n.role != Leader then n else n.(commitIndex := CommitTarget(n, |n.log|))
  }

  /** checkCommit commits the largest current-term index above the old commit index that a quorum holds,
      and nothing when there is none. */
  lemma {:induction false} CommitTargetIsLargest(n: Node, upto: int)
    ensures n.commitIndex <= CommitTarget(n, upto)
    ensures CommitTarget(n, upto) > n.commitIndex ==> CommitTarget(n, upto) <= upto && Committable(n, CommitTarget(n, upto))
    ensures forall i :: CommitTarget(n, upto) < i <= upto ==> !Committable(n, i)
    decreases upto - n.commitIndex
  {
    if upto > n.commitIndex && !Committable(n, upto) {
      CommitTargetIsLargest(n, upto - 1);
    }
  }

  // -------------------------------------------------------------------- apply

  function ToApply(e: Entry): ApplyMsg {
    ApplyMsg(e.command, e.index, e.term)
  }

  /** The collecting loop of applyLoop; lastApplied moves before the entry is read. */
  function CollectApply(n: Node): Node
    decreases n.commitIndex - n.lastApplied
  {
    if n.lastApplied >= n.commitIndex then n
    else
      var m := n.(lastApplied := n.lastApplied + 1);
      match EntryAt(m.log, m.lastApplied)
      case None => m
      case Some(e) => CollectApply(m.(emitted := m.emitted + [ToApply(e)]))
  }

  /** The key-value server takes the next message from the channel. */
  function Deliver(n: Node): Node {
    if n.delivered < |n.emitted| then n.(delivered := n.delivered + 1) else n
  }

  /** What the state machine of n has received since the node booted. */
  function ReceivedBy(n: Node): seq<ApplyMsg> {
    if n.delivered <= |n.emitted| then n.emitted[..n.delivered] else n.emitted
  }

  // --------------------------------------------------------- crash and restart

  function DurableOf(n: Node): Durable {
    Durable(n.currentTerm, n.votedFor, n.log)
  }

  /** NewRaftNode over what storage holds. */
  function Boot(id: Id, peers: seq<Id>, d: Durable): Node {
    Node(id, peers, d.term, d.votedFor, d.log, 0, 0, map[], map[], Follower, "", 0, {}, {}, [], 0)
  }

  function Restart(n: Node): Node {
    Boot(n.id, n.peers, DurableOf(n))
  }

  /** The storage calls of HandleRequestVote, in order. */
  function VoteWrites(n: Node, a: VoteArgs): seq<Write> {
    var (m, r) := HandleRequestVote(n, a);
    (if a.term > n.currentTerm then [SaveState(a.term, "")] else [])
    + (if r.granted then [SaveState(a.term, a.candidateId)] else [])
  }

  /** The storage calls of HandleAppendEntries, in order. */
  function AppendWrites(n: Node, a: AppendArgs): seq<Write> {
    (if a.term > n.currentTerm then [SaveState(a.term, "")] else [])
    + (if a.term >= n.currentTerm && PrevMatches(n.log, a) then MergeWrites(n.log, a.entries) else [])
  }

  /** Running all its storage calls brings storage to the handler's own result. */
  lemma VoteWritesRefine(n: Node, a: VoteArgs)
    ensures Replay(DurableOf(n), VoteWrites(n, a)) == DurableOf(HandleRequestVote(n, a).0)
  {
    var first := if a.term > n.currentTerm then [SaveState(a.term, "")] else [];
    var second := if HandleRequestVote(n, a).1.granted then [SaveState(a.term, a.candidateId)] else [];
    ReplayConcat(DurableOf(n), first, second);
    ReplayOne(DurableOf(n), first);
    ReplayOne(Replay(DurableOf(n), first), second);
  }

  lemma ReplayOne(d: Durable, ws: seq<Write>)
    requires |ws| <= 1
    ensures Replay(d, ws) == if |ws| == 0 then d else ApplyWrite(d, ws[0])
  {
    if |ws| == 1 {
      assert Replay(d, ws[..0]) == d;
    }
  }

  lemma AppendWritesRefine(n: Node, a: AppendArgs)
    ensures Replay(DurableOf(n), AppendWrites(n, a)) == DurableOf(HandleAppendEntries(n, a).0)
  {
    var first := if a.term > n.currentTerm then [SaveState(a.term, "")] else [];
    var second := if a.term >= n.currentTerm && PrevMatches(n.log, a) then MergeWrites(n.log, a.entries) else [];
    ReplayConcat(DurableOf(n), first, second);
    ReplayOne(DurableOf(n), first);
    MergeWritesRefine(Replay(DurableOf(n), first), a.entries);
  }
}
