/** What a run has done so far, and what it can never undo.

    A History records, for every term, who led it, who elected that leader and the leader's log; every
    vote ever cast, with the log each candidate stood on; how far each node has ever acknowledged each
    term's leader; and what every past incarnation of a node handed to its state machine. None of the
    code's decisions look at it. The invariants below are about the history alone, about one node
    against the history, or about one message against the history. */
module Histories {
  import opened Types
  import opened LogSpec
  import opened Steps

  datatype TermRecord = TermRecord(leader: Id, electors: set<Id>, log: Log)

  datatype History = History(
    terms: map<int, TermRecord>,
    votes: map<(int, Id), Id>,
    standing: map<(int, Id), Log>,
    acks: map<(int, Id), int>,
    past: map<Id, seq<seq<ApplyMsg>>>)

  function EmptyHistory(ids: set<Id>): History {
    History(map[], map[], map[], map[], map i | i in ids :: [])
  }

  function LeaderLog(h: History, t: int): Log {
    if t in h.terms then h.terms[t].log else []
  }

  /** How many leading entries of term t's leader log node p has ever acknowledged. */
  function Ack(h: History, t: int, p: Id): int {
    if (t, p) in h.acks then h.acks[(t, p)] else 0
  }

  predicate IsQuorum(ids: set<Id>, q: set<Id>) {
    q <= ids && |q| >= |ids| / 2 + 1
  }

  // ------------------------------------------------------------------- logs

  predicate EntryIn(h: History, log: Log, i: nat)
    requires i < |log|
  {
    && 1 <= log[i].term
    && log[i].index == i + 1
    && log[i].term in h.terms
    && Agree(log, LeaderLog(h, log[i].term), i + 1)
  }

  /** Every entry was created by the leader of its term, on top of the log it is found on here. */
  predicate LogIn(h: History, log: Log) {
    forall i :: 0 <= i < |log| ==> EntryIn(h, log, i)
  }

  predicate TermsUpTo(log: Log, t: int) {
    forall i :: 0 <= i < |log| ==> log[i].term <= t
  }

  // ---------------------------------------------------- what acknowledgements buy

  /** Some term after t and below bound had a leader whose log lacks the first m entries of t's leader. */
  ghost predicate Overruled(h: History, t: int, m: int, bound: int) {
    exists u :: t < u < bound && u in h.terms && !Agree(LeaderLog(h, t), LeaderLog(h, u), m)
  }

  /** `log` holds the first m entries of t's leader, unless a leader of a later term lacked them. */
  ghost predicate Kept(h: History, t: int, m: int, log: Log, bound: int) {
    Agree(LeaderLog(h, t), log, m) || Overruled(h, t, m, bound)
  }

  /** Index m of t's leader log holds an entry of term t itself. */
  predicate OwnEntry(h: History, t: int, m: int) {
    1 <= m <= |LeaderLog(h, t)| && LeaderLog(h, t)[m - 1].term == t
  }

  /** Whatever p had acknowledged of a term before u, `log` keeps. */
  ghost predicate VoterKept(h: History, p: Id, log: Log, u: int) {
    forall t, m :: t < u && 0 < m <= Ack(h, t, p) && OwnEntry(h, t, m) ==> Kept(h, t, m, log, u)
  }

  ghost predicate AckedBy(h: History, q: set<Id>, t: int, m: int) {
    forall p :: p in q ==> Ack(h, t, p) >= m
  }

  /** The commit rule: index m holds an entry of term t and a quorum has acknowledged it in term t. */
  ghost predicate Committed(ids: set<Id>, h: History, t: int, m: int) {
    && t in h.terms
    && OwnEntry(h, t, m)
    && exists q :: IsQuorum(ids, q) && AckedBy(h, q, t, m)
  }

  /** The first k entries of `log` are the first k entries of some committed prefix of a term up to t. */
  ghost predicate Backed(ids: set<Id>, h: History, log: Log, k: int, t: int) {
    k <= 0 || exists u, m :: BackedBy(ids, h, log, k, t, u, m)
  }

  ghost predicate BackedBy(ids: set<Id>, h: History, log: Log, k: int, t: int, u: int, m: int) {
    && u <= t
    && k <= m
    && Committed(ids, h, u, m)
    && Agree(log, LeaderLog(h, u), k)
  }

  /** The stream is the start of some committed prefix. */
  ghost predicate StreamBacked(ids: set<Id>, h: History, stream: seq<ApplyMsg>) {
    |stream| == 0 || exists u, m :: StreamBackedBy(ids, h, stream, u, m)
  }

  ghost predicate StreamBackedBy(ids: set<Id>, h: History, stream: seq<ApplyMsg>, u: int, m: int) {
    && Committed(ids, h, u, m)
    && |stream| <= m
    && IsStreamOf(stream, LeaderLog(h, u))
  }

  predicate IsStreamOf(stream: seq<ApplyMsg>, log: Log) {
    && |stream| <= |log|
    && forall i :: 0 <= i < |stream| ==> stream[i] == ToApply(log[i])
  }

  // ------------------------------------------------------- history invariant

  ghost predicate TermOk(ids: set<Id>, h: History, t: int)
    requires t in h.terms
  {
    var r := h.terms[t];
    && 1 <= t
    && r.leader in ids
    && IsQuorum(ids, r.electors)
    && (forall p :: p in r.electors ==> (t, p) in h.votes && h.votes[(t, p)] == r.leader)
    && LogIn(h, r.log)
    && TermsUpTo(r.log, t)
    && |r.log| > 0
    && LastTerm(r.log) == t
  }

  ghost predicate TermsOk(ids: set<Id>, h: History) {
    forall t :: t in h.terms ==> TermOk(ids, h, t)
  }

  /** Each elector's acknowledgements of earlier terms are kept by the leader it elected. */
  ghost predicate ElectorsOk(h: History) {
    forall u, p :: u in h.terms && p in h.terms[u].electors ==> VoterKept(h, p, LeaderLog(h, u), u)
  }

  /** While a term has no leader, the same holds of every voter and the log its candidate stands on. */
  ghost predicate VotesOk(h: History) {
    forall u, p :: (u, p) in h.votes && u !in h.terms ==> VoteOk(h, u, p)
  }

  ghost predicate VoteOk(h: History, u: int, p: Id)
    requires (u, p) in h.votes
  {
    var c := h.votes[(u, p)];
    (u, c) in h.standing && VoterKept(h, p, h.standing[(u, c)], u)
  }

  ghost predicate StandingOk(h: History) {
    forall k :: k in h.standing ==> LogIn(h, h.standing[k]) && TermsUpTo(h.standing[k], k.0 - 1)
  }

  ghost predicate AcksOk(ids: set<Id>, h: History) {
    forall k :: k in h.acks ==> k.0 in h.terms && k.1 in ids && 0 <= h.acks[k] <= |LeaderLog(h, k.0)|
  }

  ghost predicate PastOk(ids: set<Id>, h: History) {
    && h.past.Keys == ids
    && forall i, j :: i in ids && 0 <= j < |h.past[i]| ==> StreamBacked(ids, h, h.past[i][j])
  }

  ghost predicate HistoryOk(ids: set<Id>, h: History) {
    && TermsOk(ids, h)
    && ElectorsOk(h)
    && VotesOk(h)
    && StandingOk(h)
    && AcksOk(ids, h)
    && PastOk(ids, h)
  }

  // ---------------------------------------------------------- node invariant

  ghost predicate ConfigOk(ids: set<Id>, n: Node) {
    && n.id in ids
    && n.id != ""
    && NoDuplicates(n.peers)
    && ElementsOf(n.peers) == ids - {n.id}
  }

  ghost predicate BallotOk(h: History, n: Node) {
    && (n.votedFor != "" ==> (n.currentTerm, n.id) in h.votes && h.votes[(n.currentTerm, n.id)] == n.votedFor)
    && (n.votedFor == "" ==> (n.currentTerm, n.id) !in h.votes)
    && (forall t :: (t, n.id) in h.votes ==> t <= n.currentTerm)
    && (forall t :: (t, n.id) in h.standing ==> t <= n.currentTerm)
    && (forall t :: t in h.terms && h.terms[t].leader == n.id ==> t <= n.currentTerm)
  }

  ghost predicate CandidateOk(ids: set<Id>, h: History, n: Node) {
    n.role == Candidate ==>
      && 1 <= n.currentTerm
      && n.votedFor == n.id
      && (n.currentTerm, n.id) in h.standing
      && h.standing[(n.currentTerm, n.id)] == n.log
      && (n.currentTerm in h.terms ==> h.terms[n.currentTerm].leader != n.id)
      && exists g :: CountedVotes(ids, h, n, g)
  }

  /** g are the nodes behind the counter votesReceived. */
  ghost predicate CountedVotes(ids: set<Id>, h: History, n: Node, g: set<Id>) {
    && g <= ids
    && n.awaiting <= ids
    && |g| == n.votesReceived
    && g !! n.awaiting
    && forall p :: p in g ==> (n.currentTerm, p) in h.votes && h.votes[(n.currentTerm, p)] == n.id
  }

  ghost predicate LeaderOk(h: History, n: Node) {
    n.role == Leader ==>
      && n.currentTerm in h.terms
      && h.terms[n.currentTerm].leader == n.id
      && h.terms[n.currentTerm].log == n.log
      && Ack(h, n.currentTerm, n.id) == |n.log|
      && (forall p :: p in n.peers ==> 1 <= Lookup(n.nextIndex, p) <= |n.log| + 1)
      && (forall p :: p in n.peers ==> 0 <= Lookup(n.matchIndex, p) <= Ack(h, n.currentTerm, p))
  }

  ghost predicate NodeLogOk(h: History, n: Node) {
    && 0 <= n.currentTerm
    && LogIn(h, n.log)
    && TermsUpTo(n.log, n.currentTerm)
  }

  /** The node has acknowledged no term after its own, and keeps what it acknowledged. */
  ghost predicate AckedOk(h: History, i: Id, log: Log, term: int) {
    forall t, m :: 0 < m <= Ack(h, t, i) ==> AckKept(h, log, term, t, m)
  }

  ghost predicate AckKept(h: History, log: Log, term: int, t: int, m: int) {
    t <= term && Kept(h, t, m, log, term + 1)
  }

  ghost predicate CommitOk(ids: set<Id>, h: History, n: Node) {
    && 0 <= n.commitIndex <= |n.log|
    && Backed(ids, h, n.log, n.commitIndex, n.currentTerm)
    && (forall b :: b in n.heartbeats ==> 0 <= b.commit <= n.commitIndex)
  }

  ghost predicate ApplyOk(n: Node) {
    && 0 <= n.lastApplied <= n.commitIndex
    && n.lastApplied == |n.emitted|
    && IsStreamOf(n.emitted, n.log)
    && n.delivered <= |n.emitted|
  }

  ghost predicate NodeOk(ids: set<Id>, h: History, n: Node) {
    && ConfigOk(ids, n)
    && BallotOk(h, n)
    && CandidateOk(ids, h, n)
    && LeaderOk(h, n)
    && NodeLogOk(h, n)
    && AckedOk(h, n.id, n.log, n.currentTerm)
    && CommitOk(ids, h, n)
    && ApplyOk(n)
  }

  // ------------------------------------------------------- message invariant

  ghost predicate VoteRequestOk(h: History, dst: Id, a: VoteArgs) {
    && dst != a.candidateId
    && a.candidateId != ""
    && (a.term, a.candidateId) in h.standing
    && var log := h.standing[(a.term, a.candidateId)];
       a.lastLogIndex == |log| && a.lastLogTerm == LastTerm(log)
  }

  ghost predicate VoteReplyOk(h: History, src: Id, a: VoteArgs, r: VoteResult) {
    r.granted ==> (a.term, src) in h.votes && h.votes[(a.term, src)] == a.candidateId
  }

  /** The request carries a part of its sender's log that reaches the end the log had at that moment, and
      a commit index inside that part. */
  ghost predicate AppendRequestOk(ids: set<Id>, h: History, dst: Id, a: AppendArgs) {
    && a.term in h.terms
    && h.terms[a.term].leader == a.leaderId
    && dst != a.leaderId
    && IsSuffixPart(LeaderLog(h, a.term), a.prevLogIndex, a.entries)
    && a.prevLogTerm == TermAt(LeaderLog(h, a.term), a.prevLogIndex)
    && 0 <= a.leaderCommit <= a.prevLogIndex + |a.entries|
    && Backed(ids, h, LeaderLog(h, a.term), a.leaderCommit, a.term)
  }

  /** Everything a leader may conclude from a reply, however old. */
  ghost predicate AppendReplyOk(h: History, src: Id, a: AppendArgs, r: AppendResult) {
    && (r.success ==> a.prevLogIndex + |a.entries| <= Ack(h, a.term, src))
    && (!r.success && r.term <= a.term ==>
          && 1 <= r.conflictIndex <= a.prevLogIndex
          && 0 <= r.conflictTerm < a.term
          && forall i :: a.prevLogIndex - 1 <= i < |LeaderLog(h, a.term)| ==>
               LeaderLog(h, a.term)[i].term != r.conflictTerm)
  }

  ghost predicate MsgOk(ids: set<Id>, h: History, m: Msg) {
    match m
    case VoteRequest(dst, a) => VoteRequestOk(h, dst, a)
    case VoteReply(src, a, r) => VoteReplyOk(h, src, a, r)
    case AppendRequest(dst, a) => AppendRequestOk(ids, h, dst, a)
    case AppendReply(src, a, r) =>
      a.term in h.terms && src != h.terms[a.term].leader && src in ids
      && 0 <= a.prevLogIndex && a.prevLogIndex + |a.entries| <= |LeaderLog(h, a.term)|
      && AppendReplyOk(h, src, a, r)
  }

  // --------------------------------------------------------- how history moves

  /** A step of node i, which ends it in term t, may add votes by i in t, a standing log of i in t, a new
      record or new entries for t if i leads it, and a higher acknowledgement of t by i. */
  ghost predicate HistoryStep(h: History, h': History, i: Id, t: int) {
    && TermsStep(h, h', i, t)
    && (forall k :: k in h.votes ==> k in h'.votes && h'.votes[k] == h.votes[k])
    && (forall k :: k in h'.votes && k !in h.votes ==> k == (t, i))
    && (forall k :: k in h.standing ==> k in h'.standing && h'.standing[k] == h.standing[k])
    && (forall k :: k in h'.standing && k !in h.standing ==> k == (t, i))
    && AcksStep(h, h', i, t)
  }

  ghost predicate TermsStep(h: History, h': History, i: Id, t: int) {
    && (forall u :: u in h.terms ==> u in h'.terms && RecordStep(h.terms[u], h'.terms[u], u, i, t))
    && (forall u :: u in h'.terms && u !in h.terms ==> u == t && h'.terms[u].leader == i)
  }

  /** The record of term u may only gain entries of term u, and only in a step of its leader. */
  ghost predicate RecordStep(r: TermRecord, r': TermRecord, u: int, i: Id, t: int) {
    && r'.leader == r.leader
    && r'.electors == r.electors
    && Agree(r.log, r'.log, |r.log|)
    && (u != t || r.leader != i ==> r'.log == r.log)
    && (forall k :: |r.log| <= k < |r'.log| ==> r'.log[k].term == u)
  }

  ghost predicate AcksStep(h: History, h': History, i: Id, t: int) {
    && (forall u, p :: Ack(h, u, p) <= Ack(h', u, p))
    && (forall u, p :: (u, p) != (t, i) ==> Ack(h', u, p) == Ack(h, u, p))
  }

  /** What a later history has at least kept of an earlier one. */
  ghost predicate Extends(h: History, h': History) {
    && (forall u :: u in h.terms ==> u in h'.terms && RecordKept(h.terms[u], h'.terms[u]))
    && (forall k :: k in h.votes ==> k in h'.votes && h'.votes[k] == h.votes[k])
    && (forall u, p :: Ack(h, u, p) <= Ack(h', u, p))
  }

  ghost predicate RecordKept(r: TermRecord, r': TermRecord) {
    r'.leader == r.leader && r'.electors == r.electors && Agree(r.log, r'.log, |r.log|)
  }

  lemma StepExtends(h: History, h': History, i: Id, t: int)
    requires HistoryStep(h, h', i, t)
    ensures Extends(h, h')
  {
    forall u | u in h.terms
      ensures u in h'.terms && RecordKept(h.terms[u], h'.terms[u])
    {
      assert RecordStep(h.terms[u], h'.terms[u], u, i, t);
    }
  }

  lemma ExtendsSelf(h: History)
    ensures Extends(h, h)
  {
  }

  lemma ExtendsTransitive(a: History, b: History, c: History)
    requires Extends(a, b) && Extends(b, c)
    ensures Extends(a, c)
  {
    forall u | u in a.terms
      ensures u in c.terms && RecordKept(a.terms[u], c.terms[u])
    {
      assert RecordKept(a.terms[u], b.terms[u]) && RecordKept(b.terms[u], c.terms[u]);
    }
    forall u, p
      ensures Ack(a, u, p) <= Ack(c, u, p)
    {
      assert Ack(a, u, p) <= Ack(b, u, p) <= Ack(c, u, p);
    }
  }

  /** A log made by leaders of an earlier history was made by leaders of the later one. */
  lemma LogInExtends(h: History, h': History, log: Log)
    requires Extends(h, h') && LogIn(h, log)
    ensures LogIn(h', log)
  {
    forall j | 0 <= j < |log|
      ensures EntryIn(h', log, j)
    {
      assert EntryIn(h, log, j);
      assert RecordKept(h.terms[log[j].term], h'.terms[log[j].term]);
    }
  }

  // --------------------------------------------------------- what stays true

  lemma LogInStep(h: History, h': History, i: Id, t: int, log: Log)
    requires HistoryStep(h, h', i, t)
    requires LogIn(h, log)
    ensures LogIn(h', log)
  {
    forall j | 0 <= j < |log|
      ensures EntryIn(h', log, j)
    {
      assert EntryIn(h, log, j);
      var u := log[j].term;
      assert Agree(h.terms[u].log, h'.terms[u].log, |h.terms[u].log|);
    }
  }

  /** A later leader that lacked a prefix will always lack it, although its own log grows. */
  lemma OverruledStep(ids: set<Id>, h: History, h': History, i: Id, t: int, u: int, m: int, bound: int)
    requires TermsOk(ids, h)
    requires HistoryStep(h, h', i, t)
    requires u in h.terms && m <= |LeaderLog(h, u)|
    requires Overruled(h, u, m, bound)
    ensures Overruled(h', u, m, bound)
  {
    var v :| u < v < bound && v in h.terms && !Agree(LeaderLog(h, u), LeaderLog(h, v), m);
    LackStep(ids, h, h', i, t, u, m, v);
  }

  lemma LackStep(ids: set<Id>, h: History, h': History, i: Id, t: int, u: int, m: int, v: int)
    requires TermsOk(ids, h)
    requires HistoryStep(h, h', i, t)
    requires u in h.terms && m <= |LeaderLog(h, u)|
    requires u < v && v in h.terms
    requires !Agree(LeaderLog(h, u), LeaderLog(h, v), m)
    ensures !Agree(LeaderLog(h', u), LeaderLog(h', v), m)
  {
    var a, b := LeaderLog(h, u), LeaderLog(h, v);
    var a', b' := LeaderLog(h', u), LeaderLog(h', v);
    assert TermOk(ids, h, u) && TermOk(ids, h, v);
    assert Agree(a, a', |a|) && Agree(b, b', |b|);
    if m <= |b| {
      var k :| 0 <= k < m && a[k] != b[k];
      assert a'[k] != b'[k];
    } else {
      var k := |b| - 1;
      assert a[k].term <= u < v == b[k].term;
      assert a'[k] != b'[k];
    }
  }

  lemma KeptStep(ids: set<Id>, h: History, h': History, i: Id, t: int, u: int, m: int, log: Log, bound: int)
    requires TermsOk(ids, h)
    requires HistoryStep(h, h', i, t)
    requires u in h.terms && m <= |LeaderLog(h, u)|
    requires Kept(h, u, m, log, bound)
    ensures Kept(h', u, m, log, bound)
  {
    assert Agree(LeaderLog(h, u), LeaderLog(h', u), |LeaderLog(h, u)|);
    if Overruled(h, u, m, bound) {
      OverruledStep(ids, h, h', i, t, u, m, bound);
    }
  }

  /** If what p acknowledged of terms below v is untouched, what it kept at v is still kept. */
  lemma VoterKeptStep(ids: set<Id>, h: History, h': History, i: Id, t: int, p: Id, log: Log, v: int)
    requires TermsOk(ids, h) && AcksOk(ids, h)
    requires HistoryStep(h, h', i, t)
    requires p != i || v <= t
    requires VoterKept(h, p, log, v)
    ensures VoterKept(h', p, log, v)
  {
    forall u, m | u < v && 0 < m <= Ack(h', u, p) && OwnEntry(h', u, m)
      ensures Kept(h', u, m, log, v)
    {
      assert Ack(h', u, p) == Ack(h, u, p);
      assert (u, p) in h.acks;
      assert Agree(LeaderLog(h, u), LeaderLog(h', u), |LeaderLog(h, u)|);
      assert OwnEntry(h, u, m);
      KeptStep(ids, h, h', i, t, u, m, log, v);
    }
  }

  lemma CommittedStep(ids: set<Id>, h: History, h': History, i: Id, t: int, u: int, m: int)
    requires HistoryStep(h, h', i, t)
    requires Committed(ids, h, u, m)
    ensures Committed(ids, h', u, m)
    ensures Agree(LeaderLog(h, u), LeaderLog(h', u), m)
  {
    assert Agree(LeaderLog(h, u), LeaderLog(h', u), |LeaderLog(h, u)|);
    var q :| IsQuorum(ids, q) && AckedBy(h, q, u, m);
    forall p | p in q
      ensures Ack(h', u, p) >= m
    {
      assert Ack(h, u, p) >= m;
    }
    assert AckedBy(h', q, u, m);
  }

  lemma BackedStep(ids: set<Id>, h: History, h': History, i: Id, t: int, log: Log, k: int, v: int, v': int)
    requires HistoryStep(h, h', i, t)
    requires Backed(ids, h, log, k, v)
    requires v <= v'
    ensures Backed(ids, h', log, k, v')
  {
    if k > 0 {
      var u, m :| BackedBy(ids, h, log, k, v, u, m);
      CommittedStep(ids, h, h', i, t, u, m);
      assert BackedBy(ids, h', log, k, v', u, m);
    }
  }

  lemma StreamBackedStep(ids: set<Id>, h: History, h': History, i: Id, t: int, stream: seq<ApplyMsg>)
    requires HistoryStep(h, h', i, t)
    requires StreamBacked(ids, h, stream)
    ensures StreamBacked(ids, h', stream)
  {
    if |stream| > 0 {
      var u, m :| StreamBackedBy(ids, h, stream, u, m);
      CommittedStep(ids, h, h', i, t, u, m);
      assert StreamBackedBy(ids, h', stream, u, m);
    }
  }

  /** A node that takes no part in a step keeps its invariant. */
  lemma BystanderOk(ids: set<Id>, h: History, h': History, i: Id, t: int, n: Node)
    requires TermsOk(ids, h) && AcksOk(ids, h)
    requires HistoryStep(h, h', i, t)
    requires NodeOk(ids, h, n)
    requires n.id != i
    ensures NodeOk(ids, h', n)
  {
    assert BallotOk(h', n);
    BystanderCandidate(ids, h, h', i, t, n);
    BystanderLeader(h, h', i, t, n);
    LogInStep(h, h', i, t, n.log);
    BystanderAcked(ids, h, h', i, t, n);
    BackedStep(ids, h, h', i, t, n.log, n.commitIndex, n.currentTerm, n.currentTerm);
  }

  lemma BystanderCandidate(ids: set<Id>, h: History, h': History, i: Id, t: int, n: Node)
    requires HistoryStep(h, h', i, t)
    requires CandidateOk(ids, h, n)
    requires n.id != i
    ensures CandidateOk(ids, h', n)
  {
    if n.role == Candidate {
      var g :| CountedVotes(ids, h, n, g);
      assert CountedVotes(ids, h', n, g);
    }
  }

  lemma BystanderLeader(h: History, h': History, i: Id, t: int, n: Node)
    requires HistoryStep(h, h', i, t)
    requires LeaderOk(h, n)
    requires n.id != i
    ensures LeaderOk(h', n)
  {
    if n.role == Leader {
      assert Ack(h', n.currentTerm, n.id) == Ack(h, n.currentTerm, n.id);
      forall p | p in n.peers
        ensures 0 <= Lookup(n.matchIndex, p) <= Ack(h', n.currentTerm, p)
      {
        assert Ack(h, n.currentTerm, p) <= Ack(h', n.currentTerm, p);
      }
    }
  }

  lemma BystanderAcked(ids: set<Id>, h: History, h': History, i: Id, t: int, n: Node)
    requires TermsOk(ids, h) && AcksOk(ids, h)
    requires HistoryStep(h, h', i, t)
    requires AckedOk(h, n.id, n.log, n.currentTerm)
    requires n.id != i
    ensures AckedOk(h', n.id, n.log, n.currentTerm)
  {
    forall u, m | 0 < m <= Ack(h', u, n.id)
      ensures AckKept(h', n.log, n.currentTerm, u, m)
    {
      assert Ack(h', u, n.id) == Ack(h, u, n.id);
      assert (u, n.id) in h.acks;
      assert AckKept(h, n.log, n.currentTerm, u, m);
      KeptStep(ids, h, h', i, t, u, m, n.log, n.currentTerm + 1);
    }
  }

  /** A message in flight keeps its invariant. */
  lemma MsgOkStep(ids: set<Id>, h: History, h': History, i: Id, t: int, m: Msg)
    requires HistoryStep(h, h', i, t)
    requires MsgOk(ids, h, m)
    ensures MsgOk(ids, h', m)
  {
    match m
    case VoteRequest(dst, a) =>
    case VoteReply(src, a, r) =>
    case AppendRequest(dst, a) =>
      assert Agree(LeaderLog(h, a.term), LeaderLog(h', a.term), |LeaderLog(h, a.term)|);
      BackedStep(ids, h, h', i, t, LeaderLog(h, a.term), a.leaderCommit, a.term, a.term);
      BackedOther(ids, h', LeaderLog(h, a.term), LeaderLog(h', a.term), a.leaderCommit, a.term);
    case AppendReply(src, a, r) =>
      assert Agree(LeaderLog(h, a.term), LeaderLog(h', a.term), |LeaderLog(h, a.term)|);
      assert Ack(h, a.term, src) <= Ack(h', a.term, src);
  }

  lemma BackedOther(ids: set<Id>, h: History, log: Log, log': Log, k: int, t: int)
    requires Backed(ids, h, log, k, t)
    requires Agree(log, log', k)
    ensures Backed(ids, h, log', k, t)
  {
    if k > 0 {
      var u, m :| BackedBy(ids, h, log, k, t, u, m);
      assert BackedBy(ids, h, log', k, t, u, m);
    }
  }
}
