/** Finding the point where a follower's log joins the leader's: every rejected probe moves nextIndex
    strictly back, and a leader left alone with a follower brings it up to date. */
module BackOffProofs {
  import opened Types
  import opened LogSpec
  import opened Steps
  import opened Histories
  import opened Clusters
  import opened ReplicationProofs
  import opened HistoryProofs
  import opened Invariant
  import opened HandlerSpecs

  /** A rejection of the probe at nextIndex k, however late it arrives, sets nextIndex to something from 1
      to k - 1. */
  lemma RejectionMovesBack(run: seq<Cluster>, i: nat, m: Msg)
    requires IsRun(run) && i < |run|
    requires m.AppendReply? && Receives(run[i], m)
    requires var n := run[i].nodes[m.append.leaderId];
             n.role == Leader && n.currentTerm == m.append.term
    requires !m.appendResult.success && m.appendResult.term <= m.append.term
    ensures var n := run[i].nodes[m.append.leaderId];
            var k := m.append.prevLogIndex + 1;
            1 <= OnAppendReply(n, m.src, m.append, m.appendResult).nextIndex[m.src] < k
  {
    hide IsRun, HistoryOk;
    RunOk(run, i);
    var s := run[i];
    var n := s.nodes[m.append.leaderId];
    assert MsgOk(s.ids, s.h, m) && NodeOk(s.ids, s.h, n);
    BackedOffOk(s.ids, s.h, n, m.src, m.append, m.appendResult);
  }

  /** The leader and the follower of an exchange: the follower is not ahead of the leader's term. */
  ghost predicate Paired(s: Cluster, l: Id, f: Id) {
    && l in s.nodes && f in s.nodes
    && s.nodes[l].role == Leader
    && f in s.nodes[l].peers
    && s.nodes[f].currentTerm <= s.nodes[l].currentTerm
  }

  /** States that follow from one another by steps of nodes in q alone. */
  ghost predicate IsTrace(q: set<Id>, trace: seq<Cluster>) {
    |trace| > 0 && forall k :: 0 <= k < |trace| - 1 ==> NextIn(q, trace[k], trace[k + 1])
  }

  lemma TraceJoins(q: set<Id>, a: seq<Cluster>, b: seq<Cluster>)
    requires IsTrace(q, a) && IsTrace(q, b) && |a| > 0 && |b| > 0
    requires a[|a| - 1] == b[0]
    ensures IsTrace(q, a + b[1..]) && |a + b[1..]| == |a| + |b| - 1 > 0
    ensures (a + b[1..])[0] == a[0]
    ensures (a + b[1..])[|a + b[1..]| - 1] == b[|b| - 1]
  {
    var c := a + b[1..];
    forall k | 0 <= k < |c| - 1
      ensures NextIn(q, c[k], c[k + 1])
    {
      if k < |a| - 1 {
        assert c[k] == a[k] && c[k + 1] == a[k + 1];
      } else {
        assert c[k] == b[k - (|a| - 1)] && c[k + 1] == b[k - (|a| - 1) + 1];
      }
    }
  }

  /** A run goes on along a trace. */
  lemma RunGoesOn(run: seq<Cluster>, q: set<Id>, trace: seq<Cluster>)
    requires IsRun(run) && IsTrace(q, trace) && |trace| > 0 && run[|run| - 1] == trace[0]
    ensures IsRun(run + trace[1..]) && (run + trace[1..])[|run| - 1..] == trace
  {
    hide Init, NextBy;
    var c := run + trace[1..];
    forall k | 0 <= k < |c| - 1
      ensures Next(c[k], c[k + 1])
    {
      if k < |run| - 1 {
        assert Next(run[k], run[k + 1]);
      } else {
        var x := k - (|run| - 1);
        assert c[k] == trace[x] && c[k + 1] == trace[x + 1];
        assert NextIn(q, trace[x], trace[x + 1]);
      }
    }
    assert c[|run| - 1..] == trace;
  }

  /** The leader as one exchange leaves it: only its books on f and its heartbeats may have moved. */
  ghost predicate SameLeader(n: Node, n': Node) {
    && n'.role == Leader
    && n'.currentTerm == n.currentTerm
    && n'.log == n.log
    && n'.peers == n.peers
    && n'.id == n.id
    && n.commitIndex <= n'.commitIndex
  }

  /** The follower holds the leader's whole log, the leader knows it and has committed what it may. */
  ghost predicate CaughtUp(s: Cluster, l: Id, f: Id) {
    && l in s.nodes && f in s.nodes
    && Agree(s.nodes[l].log, s.nodes[f].log, |s.nodes[l].log|)
    && Lookup(s.nodes[l].matchIndex, f) == |s.nodes[l].log|
    && Settled(s.ids, s.nodes[l])
  }

  /** Every entry of its term that the leader knows a quorum to hold is committed. */
  ghost predicate Settled(ids: set<Id>, n: Node) {
    forall i, q :: HeldByQuorum(ids, n, i, q) ==> i <= n.commitIndex
  }

  /** Nothing has happened to nodes other than l and f, or to what l believes about them. */
  ghost predicate Undisturbed(s: Cluster, s': Cluster, l: Id, f: Id) {
    && s'.ids == s.ids
    && l in s.nodes && l in s'.nodes
    && (forall q :: q in s.nodes && q != l && q != f ==> q in s'.nodes && s'.nodes[q] == s.nodes[q])
    && (forall q :: q != f ==> Lookup(s'.nodes[l].matchIndex, q) == Lookup(s.nodes[l].matchIndex, q))
  }

  // ------------------------------------------------------------- one exchange

  /** A leader's probe and what becomes of it: the states before and after each of the four steps, the request
      sent and the answer to it. */
  datatype Exchange = Exchange(
    start: Cluster, round: Cluster, sent: Cluster, answered: Cluster, end: Cluster,
    hb: Heartbeat, request: AppendArgs, answer: AppendResult)

  /** The four steps are a heartbeat round of l, the sending of the request to f, its handling by f and the
      taking in of f's answer to that very request. */
  ghost predicate IsExchange(e: Exchange, l: Id, f: Id) {
    && NextBy(e.start, HeartbeatRound(l), e.round)
    && NextBy(e.round, SendAppend(l, f, e.hb), e.sent)
    && BuildAppend(e.round.nodes[l], f, e.hb) == Some(e.request) && e.request.leaderId == l
    && NextBy(e.sent, Append(AppendRequest(f, e.request)), e.answered)
    && e.answer == HandleAppendEntries(e.sent.nodes[f], e.request).1
    && NextBy(e.answered, AppendAnswer(AppendReply(f, e.request, e.answer)), e.end)
  }

  lemma Round(s: Cluster, l: Id, f: Id, s': Cluster)
    requires Inv(s) && Paired(s, l, f)
    requires NextBy(s, HeartbeatRound(l), s')
    ensures Inv(s') && Paired(s', l, f)
    ensures Heartbeat(s.nodes[l].currentTerm, s.nodes[l].commitIndex) in s'.nodes[l].heartbeats
    ensures SameLeader(s.nodes[l], s'.nodes[l]) && s'.nodes[l].nextIndex == s.nodes[l].nextIndex
    ensures Undisturbed(s, s', l, f) && s'.nodes[f] == s.nodes[f]
  {
    hide Inv;
    PairDistinct(s, l, f);
    StepOk(s, HeartbeatRound(l), s');
  }

  lemma Probe(s: Cluster, l: Id, f: Id, hb: Heartbeat, a: AppendArgs, s': Cluster)
    requires Inv(s) && Paired(s, l, f)
    requires NextBy(s, SendAppend(l, f, hb), s') && BuildAppend(s.nodes[l], f, hb) == Some(a)
    ensures Inv(s') && s'.nodes == s.nodes && s'.ids == s.ids && AppendRequest(f, a) in s'.net
    ensures a.term == s.nodes[l].currentTerm && a.leaderId == l
    ensures 0 <= a.prevLogIndex == Lookup(s.nodes[l].nextIndex, f) - 1 <= |s.nodes[l].log|
    ensures a.prevLogIndex + |a.entries| == |s.nodes[l].log|
    ensures a.leaderCommit == hb.commit
  {
    hide Inv;
    StepOk(s, SendAppend(l, f, hb), s');
    ProbeShape(s, l, f, hb, a);
  }

  lemma ProbeShape(s: Cluster, l: Id, f: Id, hb: Heartbeat, a: AppendArgs)
    requires Inv(s) && Paired(s, l, f)
    requires BuildAppend(s.nodes[l], f, hb) == Some(a)
    ensures a.leaderId == l
    ensures 0 <= a.prevLogIndex == Lookup(s.nodes[l].nextIndex, f) - 1 <= |s.nodes[l].log|
    ensures a.prevLogIndex + |a.entries| == |s.nodes[l].log|
    ensures a.leaderCommit == hb.commit
  {
    hide Inv, BuildAppend;
    RequestBuilt(s, l, f, hb);
    assert |s.nodes[l].log[..a.prevLogIndex] + a.entries| == |s.nodes[l].log|;
  }

  lemma Answer(s: Cluster, l: Id, f: Id, a: AppendArgs, s': Cluster)
    requires Inv(s) && Paired(s, l, f)
    requires NextBy(s, Append(AppendRequest(f, a)), s')
    requires a.term == s.nodes[l].currentTerm && a.leaderId == l
    requires a.prevLogIndex + |a.entries| == |s.nodes[l].log|
    ensures var r := HandleAppendEntries(s.nodes[f], a).1;
            && Inv(s') && AppendReply(f, a, r) in s'.net
            && r.term == a.term
            && l in s'.nodes && f in s'.nodes && s'.nodes[l] == s.nodes[l] && Paired(s', l, f)
            && (r.success ==>
                  Agree(s.nodes[l].log, s'.nodes[f].log, |s.nodes[l].log|) && s'.nodes[f].commitIndex >= a.leaderCommit)
            && (!r.success ==>
                  && s'.nodes[f].log == s.nodes[f].log && HintsAt(s.nodes[f].log, a.prevLogIndex, r)
                  && !Agree(s.nodes[f].log, s.nodes[l].log, a.prevLogIndex))
            && Undisturbed(s, s', l, f)
  {
    hide HandleAppendEntries, Inv;
    PairDistinct(s, l, f);
    StepOk(s, Append(AppendRequest(f, a)), s');
    RequestIsAnswered(s, AppendRequest(f, a));
    LeaderLogIs(s, l);
  }

  lemma LeaderLogIs(s: Cluster, l: Id)
    requires Inv(s) && l in s.nodes && s.nodes[l].role == Leader
    ensures LeaderLog(s.h, s.nodes[l].currentTerm) == s.nodes[l].log
    ensures s.nodes[l].currentTerm in s.h.terms && s.h.terms[s.nodes[l].currentTerm].leader == l
  {
    hide HistoryOk, NetOk;
    assert NodeOk(s.ids, s.h, s.nodes[l]);
  }

  lemma PairDistinct(s: Cluster, l: Id, f: Id)
    requires Inv(s) && Paired(s, l, f)
    ensures l != f
  {
    hide HistoryOk, NetOk;
    assert NodeOk(s.ids, s.h, s.nodes[l]);
    assert f in ElementsOf(s.nodes[l].peers);
  }

  lemma SettledAfter(ids: set<Id>, n: Node, commit: int)
    requires CommitsLargest(ids, n.(commitIndex := commit), n.commitIndex)
    ensures Settled(ids, n) && commit <= n.commitIndex
  {
    forall i, q | HeldByQuorum(ids, n, i, q)
      ensures i <= n.commitIndex
    {
      assert HeldByQuorum(ids, n.(commitIndex := commit), i, q);
    }
  }

  lemma Conclude(s: Cluster, l: Id, f: Id, a: AppendArgs, r: AppendResult, s': Cluster)
    requires Inv(s) && Paired(s, l, f)
    requires NextBy(s, AppendAnswer(AppendReply(f, a, r)), s')
    requires a.term == s.nodes[l].currentTerm && a.leaderId == l && r.term == a.term
    requires a.prevLogIndex + |a.entries| == |s.nodes[l].log|
    requires r.success ==> Agree(s.nodes[l].log, s.nodes[f].log, |s.nodes[l].log|)
    ensures Inv(s') && Paired(s', l, f)
    ensures SameLeader(s.nodes[l], s'.nodes[l]) && s'.nodes[f] == s.nodes[f]
    ensures r.success ==> CaughtUp(s', l, f)
    ensures !r.success ==> 1 <= Lookup(s'.nodes[l].nextIndex, f) <= a.prevLogIndex
    ensures !r.success ==> BackedOff(s.nodes[l], Lookup(s.nodes[l].nextIndex, f), r, Lookup(s'.nodes[l].nextIndex, f))
    ensures Undisturbed(s, s', l, f)
  {
    hide Inv, OnAppendReply, Settled, BackOff, BackedOff, CommitsLargest;
    var m := AppendReply(f, a, r);
    PairDistinct(s, l, f);
    StepOk(s, AppendAnswer(m), s');
    AnswerIsTakenIn(s, m);
    if r.success {
      SettledAfter(s.ids, s'.nodes[l], s.nodes[l].commitIndex);
      MatchInLog(s', l, f);
    } else {
      ProbeMovesBack(s, l, f, a, r);
    }
  }

  lemma ProbeMovesBack(s: Cluster, l: Id, f: Id, a: AppendArgs, r: AppendResult)
    requires Inv(s) && Paired(s, l, f)
    requires AppendReply(f, a, r) in s.net
    requires a.term == s.nodes[l].currentTerm && r.term == a.term && !r.success
    ensures 1 <= Lookup(OnAppendReply(s.nodes[l], f, a, r).nextIndex, f) <= a.prevLogIndex
  {
    hide HistoryOk;
    assert MsgOk(s.ids, s.h, AppendReply(f, a, r)) && NodeOk(s.ids, s.h, s.nodes[l]);
    BackedOffOk(s.ids, s.h, s.nodes[l], f, a, r);
  }

  lemma MatchInLog(s: Cluster, l: Id, f: Id)
    requires Inv(s) && Paired(s, l, f)
    ensures Lookup(s.nodes[l].matchIndex, f) <= |s.nodes[l].log|
  {
    hide TermsOk, ElectorsOk, VotesOk, StandingOk, PastOk, NetOk, AckedOk, CommitOk, NodeLogOk;
    assert NodeOk(s.ids, s.h, s.nodes[l]);
    assert (s.nodes[l].currentTerm, f) in s.h.acks ==> s.h.acks[(s.nodes[l].currentTerm, f)] <= |s.nodes[l].log|;
  }

  /** Going back after a refusal never goes back over entries that the two logs share. */
  lemma SharedBelow(ids: set<Id>, h: History, n: Node, log: Log, prev: int, before: int, r: AppendResult, next: int, c: int)
    requires TermsOk(ids, h) && LogIn(h, n.log) && LogIn(h, log)
    requires 1 <= prev <= |n.log| && !Agree(log, n.log, prev)
    requires HintsAt(log, prev, r) && BackedOff(n, before, r, next)
    requires Agree(log, n.log, c)
    ensures c < next
  {
    if prev <= |log| {
      assert EntryIn(h, log, prev - 1);
      assert c < prev;
      if next <= c {
        TermsAscend(ids, h, log, c - 1, prev - 1);
        if r.conflictIndex != next {
          TermsAscend(ids, h, n.log, next - 2, c - 1);
        }
      }
    }
  }

  lemma LogsInHistory(s: Cluster, l: Id, f: Id)
    requires Inv(s) && l in s.nodes && f in s.nodes
    ensures TermsOk(s.ids, s.h) && LogIn(s.h, s.nodes[l].log) && LogIn(s.h, s.nodes[f].log)
  {
    hide ElectorsOk, VotesOk, StandingOk, AcksOk, PastOk, NetOk, TermsOk;
    assert NodeOk(s.ids, s.h, s.nodes[l]) && NodeOk(s.ids, s.h, s.nodes[f]);
  }

  /** Every exchange, from whatever state it starts: an accepted probe leaves the follower with the leader's
      whole log and the commit index of the round; a rejected one moves nextIndex strictly back, but not back
      over anything that the two logs share. */
  lemma ExchangeOutcome(e: Exchange, l: Id, f: Id)
    requires IsExchange(e, l, f)
    requires Inv(e.start) && Paired(e.start, l, f)
    ensures Inv(e.end) && Paired(e.end, l, f)
    ensures SameLeader(e.start.nodes[l], e.end.nodes[l]) && Undisturbed(e.start, e.end, l, f)
    ensures e.answer.success ==> CaughtUp(e.end, l, f) && e.end.nodes[f].commitIndex >= e.hb.commit
    ensures !e.answer.success ==>
              1 <= Lookup(e.end.nodes[l].nextIndex, f) < Lookup(e.start.nodes[l].nextIndex, f)
    ensures !e.answer.success ==> forall c ::
              Agree(e.start.nodes[f].log, e.start.nodes[l].log, c) ==> c < Lookup(e.end.nodes[l].nextIndex, f)
    ensures 1 <= Lookup(e.start.nodes[l].nextIndex, f) <= |e.start.nodes[l].log| + 1
  {
    hide Inv, NextBy, BuildAppend, HandleAppendEntries, CaughtUp, BackedOff, HintsAt, LogIn, TermsOk;
    Round(e.start, l, f, e.round);
    Probe(e.round, l, f, e.hb, e.request, e.sent);
    Answer(e.sent, l, f, e.request, e.answered);
    Conclude(e.answered, l, f, e.request, e.answer, e.end);
    if !e.answer.success {
      var next := Lookup(e.end.nodes[l].nextIndex, f);
      LogsInHistory(e.answered, l, f);
      forall c | Agree(e.start.nodes[f].log, e.start.nodes[l].log, c)
        ensures c < next
      {
        var n := e.answered.nodes[l];
        SharedBelow(e.answered.ids, e.answered.h, n, e.answered.nodes[f].log, e.request.prevLogIndex,
                    Lookup(n.nextIndex, f), e.answer, next, c);
      }
    }
  }

  /** From every state with a leader and a follower not ahead of it there is such an exchange, with the
      leader's present commit index. */
  lemma NextExchange(s: Cluster, l: Id, f: Id) returns (e: Exchange)
    requires Inv(s) && Paired(s, l, f)
    ensures IsExchange(e, l, f) && e.start == s && e.hb == Heartbeat(s.nodes[l].currentTerm, s.nodes[l].commitIndex)
  {
    hide Inv, NextBy, HandleAppendEntries, BuildAppend, AppendEffect, AppendAnswerEffect;
    var n := s.nodes[l];
    var hb := Heartbeat(n.currentTerm, n.commitIndex);
    var s1 := Update(s, l, TakeHeartbeat(n), {}, s.h);
    RoundTaken(s, l);
    Round(s, l, f, s1);
    var a := ProbeSent(s1, l, f, hb);
    var s2 := SendAppendEffect(s1, l, f, hb);
    Probe(s1, l, f, hb, a, s2);
    var s3 := AppendEffect(s2, AppendRequest(f, a));
    RequestHandled(s2, AppendRequest(f, a));
    Answer(s2, l, f, a, s3);
    var r := HandleAppendEntries(s2.nodes[f], a).1;
    var s4 := AppendAnswerEffect(s3, AppendReply(f, a, r));
    ReplyHandled(s3, AppendReply(f, a, r));
    e := Exchange(s, s1, s2, s3, s4, hb, a, r);
  }

  lemma RoundTaken(s: Cluster, l: Id)
    requires l in s.nodes
    ensures NextBy(s, HeartbeatRound(l), Update(s, l, TakeHeartbeat(s.nodes[l]), {}, s.h))
  {
  }

  lemma ProbeSent(s: Cluster, l: Id, f: Id, hb: Heartbeat) returns (a: AppendArgs)
    requires Paired(s, l, f) && hb in s.nodes[l].heartbeats && hb.term == s.nodes[l].currentTerm
    ensures BuildAppend(s.nodes[l], f, hb) == Some(a)
    ensures NextBy(s, SendAppend(l, f, hb), SendAppendEffect(s, l, f, hb))
  {
    a := BuildAppend(s.nodes[l], f, hb).value;
  }

  lemma RequestHandled(s: Cluster, m: Msg)
    requires m.AppendRequest? && Receives(s, m)
    ensures NextBy(s, Append(m), AppendEffect(s, m))
  {
  }

  lemma ReplyHandled(s: Cluster, m: Msg)
    requires m.AppendReply? && Receives(s, m)
    ensures NextBy(s, AppendAnswer(m), AppendAnswerEffect(s, m))
  {
  }

  // ---------------------------------------------------------- probing one at a time

  /** Exchanges one after the other. */
  ghost predicate IsProbing(chain: seq<Exchange>, l: Id, f: Id) {
    && (forall k :: 0 <= k < |chain| ==> IsExchange(chain[k], l, f))
    && (forall k :: 0 <= k < |chain| - 1 ==> chain[k].end == chain[k + 1].start)
  }

  ghost predicate AllRejected(chain: seq<Exchange>, n: nat) {
    n <= |chain| && forall k :: 0 <= k < n ==> !chain[k].answer.success
  }

  /** However long it goes on, every exchange starts from a sound state with the same leader, and each
      rejection so far has taken at least one off nextIndex. */
  lemma {:induction false} ProbingDescends(chain: seq<Exchange>, l: Id, f: Id, n: nat)
    requires IsProbing(chain, l, f) && n < |chain|
    requires Inv(chain[0].start) && Paired(chain[0].start, l, f)
    requires AllRejected(chain, n)
    ensures Inv(chain[n].start) && Paired(chain[n].start, l, f)
    ensures SameLeader(chain[0].start.nodes[l], chain[n].start.nodes[l])
    ensures Undisturbed(chain[0].start, chain[n].start, l, f)
    ensures 1 <= Lookup(chain[n].start.nodes[l].nextIndex, f) <= Lookup(chain[0].start.nodes[l].nextIndex, f) - n
  {
    hide Inv, IsExchange, CaughtUp;
    if n > 0 {
      ProbingDescends(chain, l, f, n - 1);
      ExchangeOutcome(chain[n - 1], l, f);
      assert chain[n - 1].end == chain[n - 1 + 1].start;
    }
    ExchangeOutcome(chain[n], l, f);
  }

  /** Back-off terminates: of any exchanges one after the other, starting at nextIndex k, at most k - 1 are
      rejected before the first accepted one, and that one leaves the follower with the leader's whole log. */
  lemma ProbingEnds(chain: seq<Exchange>, l: Id, f: Id, n: nat)
    requires IsProbing(chain, l, f) && |chain| > 0
    requires Inv(chain[0].start) && Paired(chain[0].start, l, f)
    requires AllRejected(chain, n)
    ensures n <= Lookup(chain[0].start.nodes[l].nextIndex, f) - 1
    ensures n < |chain| && chain[n].answer.success ==>
              && CaughtUp(chain[n].end, l, f)
              && SameLeader(chain[0].start.nodes[l], chain[n].end.nodes[l])
              && Inv(chain[n].end) && Paired(chain[n].end, l, f) && Undisturbed(chain[0].start, chain[n].end, l, f)
  {
    hide Inv, IsExchange, CaughtUp;
    if n < |chain| {
      ProbingDescends(chain, l, f, n);
      ExchangeOutcome(chain[n], l, f);
    } else {
      ProbingDescends(chain, l, f, n - 1);
      ExchangeOutcome(chain[n - 1], l, f);
    }
  }

  /** And it can always be carried to its end. */
  lemma {:induction false} ProbingConverges(s: Cluster, l: Id, f: Id) returns (chain: seq<Exchange>)
    requires Inv(s) && Paired(s, l, f)
    ensures IsProbing(chain, l, f) && |chain| > 0 && chain[0].start == s
    ensures AllRejected(chain, |chain| - 1) && chain[|chain| - 1].answer.success
    decreases Lookup(s.nodes[l].nextIndex, f)
  {
    hide Inv, IsExchange, CaughtUp;
    var e := NextExchange(s, l, f);
    ExchangeOutcome(e, l, f);
    chain := [e];
    if !e.answer.success {
      var rest := ProbingConverges(e.end, l, f);
      chain := [e] + rest;
      assert forall k :: 0 < k < |chain| ==> chain[k] == rest[k - 1];
    }
  }

  lemma ExchangeSteps(e: Exchange, l: Id, f: Id)
    requires IsExchange(e, l, f)
    ensures NextIn({l, f}, e.start, e.round) && NextIn({l, f}, e.round, e.sent)
    ensures NextIn({l, f}, e.sent, e.answered) && NextIn({l, f}, e.answered, e.end)
  {
    hide NextBy, BuildAppend, HandleAppendEntries;
    assert Actor(HeartbeatRound(l)) == Some(l) && Actor(SendAppend(l, f, e.hb)) == Some(l);
    assert Actor(Append(AppendRequest(f, e.request))) == Some(f);
    assert Actor(AppendAnswer(AppendReply(f, e.request, e.answer))) == Some(l);
  }

  /** The states that the exchanges pass through. */
  lemma {:induction false} ProbingTrace(chain: seq<Exchange>, l: Id, f: Id) returns (trace: seq<Cluster>)
    requires IsProbing(chain, l, f) && |chain| > 0
    ensures IsTrace({l, f}, trace) && |trace| == 4 * |chain| + 1
    ensures trace[0] == chain[0].start && trace[|trace| - 1] == chain[|chain| - 1].end
  {
    hide NextBy;
    var e := chain[|chain| - 1];
    assert IsExchange(e, l, f);
    trace := [e.start, e.round, e.sent, e.answered, e.end];
    ExchangeSteps(e, l, f);
    assert IsTrace({l, f}, trace);
    if |chain| > 1 {
      var before := chain[..|chain| - 1];
      var first := ProbingTrace(before, l, f);
      assert chain[|chain| - 2].end == chain[|chain| - 2 + 1].start;
      TraceJoins({l, f}, first, trace);
      trace := first + trace[1..];
    }
  }

  /** Every run that has reached a leader and a follower not ahead of its term can go on, by exchanges alone,
      until the follower holds the leader's log. */
  lemma FollowerCatchesUp(run: seq<Cluster>, l: Id, f: Id) returns (longer: seq<Cluster>, chain: seq<Exchange>)
    requires IsRun(run)
    requires Paired(run[|run| - 1], l, f)
    ensures IsProbing(chain, l, f) && 0 < |chain| <= Lookup(run[|run| - 1].nodes[l].nextIndex, f)
    ensures IsRun(longer) && run <= longer && |longer| == |run| + 4 * |chain|
    ensures chain[0].start == run[|run| - 1] && chain[|chain| - 1].end == longer[|longer| - 1]
    ensures CaughtUp(longer[|longer| - 1], l, f)
    ensures SameLeader(run[|run| - 1].nodes[l], longer[|longer| - 1].nodes[l])
  {
    hide Inv, Next, Init, CaughtUp, SameLeader, IsExchange;
    RunOk(run, |run| - 1);
    chain := ProbingConverges(run[|run| - 1], l, f);
    ProbingEnds(chain, l, f, |chain| - 1);
    var trace := ProbingTrace(chain, l, f);
    RunGoesOn(run, {l, f}, trace);
    longer := run + trace[1..];
  }

  // ------------------------------------------------- probing in the midst of other steps

  /** The steps taken along the states of a trace. */
  ghost predicate Follows(trace: seq<Cluster>, steps: seq<Step>) {
    && |trace| == |steps| + 1
    && forall k :: 0 <= k < |steps| ==> NextBy(trace[k], steps[k], trace[k + 1])
  }

  /** The step takes in an answer of f to a request of l in term t. */
  predicate Answers(step: Step, l: Id, f: Id, t: int) {
    step.AppendAnswer? && step.m.AppendReply? && step.m.append.leaderId == l && step.m.src == f && step.m.append.term == t
  }

  predicate Accepts(step: Step, l: Id, f: Id, t: int) {
    Answers(step, l, f, t) && step.m.appendResult.success
  }

  predicate Rejects(step: Step, l: Id, f: Id, t: int) {
    Answers(step, l, f, t) && !step.m.appendResult.success
  }

  /** Probes go out one at a time: an answer is taken in while nextIndex is still what the probe was built from. */
  predicate InTurn(s: Cluster, step: Step, l: Id, f: Id, t: int) {
    Answers(step, l, f, t) ==> step.m.append.prevLogIndex + 1 == NextIndexFor(s, l, f)
  }

  function NextIndexFor(s: Cluster, l: Id, f: Id): int {
    if l in s.nodes then Lookup(s.nodes[l].nextIndex, f) else 0
  }

  function Rejections(steps: seq<Step>, l: Id, f: Id, t: int): nat {
    if |steps| == 0 then 0
    else Rejections(steps[..|steps| - 1], l, f, t) + (if Rejects(steps[|steps| - 1], l, f, t) then 1 else 0)
  }

  /** While l leads term t, nothing but f's answers moves nextIndex for f. */
  lemma NextIndexMoves(s: Cluster, step: Step, s': Cluster, l: Id, f: Id, t: int)
    requires Inv(s) && NextBy(s, step, s')
    requires Leads(s, l, t) && Leads(s', l, t)
    ensures !Answers(step, l, f, t) ==> Lookup(s'.nodes[l].nextIndex, f) == Lookup(s.nodes[l].nextIndex, f)
    ensures Rejects(step, l, f, t) ==> 1 <= Lookup(s'.nodes[l].nextIndex, f) <= step.m.append.prevLogIndex
  {
    hide HistoryOk, NodeOk, NetOk, MergeWrites, VoteWrites, AppendWrites, Merge, OnVoteReply, CheckWon, CollectApply,
         OnAppendReply, RecordElection, RecordVote, RecordLead, RecordAck, RecordCrash, RecordSavedVote;
    match step
    case VoteAnswer(m) => LeaderIgnoresVotes(s.nodes[m.vote.candidateId], m.src, m.vote, m.voteResult);
    case WaitOver(i) => LeaderIgnoresVotes(s.nodes[i], i, VoteCall(s.nodes[i]), VoteResult(0, false));
    case AppendAnswer(m) =>
      if m.append.leaderId == l {
        AnswerMoves(s, m, l, f, t);
      }
    case Collect(i) => CollectKeepsBooks(s.nodes[i]);
    case _ =>
  }

  lemma LeaderIgnoresVotes(n: Node, src: Id, a: VoteArgs, r: VoteResult)
    ensures n.role == Leader ==> OnVoteReply(n, src, a, r) == n && CheckWon(n) == n
  {
  }

  lemma {:induction false} CollectKeepsBooks(n: Node)
    ensures CollectApply(n).nextIndex == n.nextIndex
    decreases n.commitIndex - n.lastApplied
  {
    if n.lastApplied < n.commitIndex {
      var m := n.(lastApplied := n.lastApplied + 1);
      if EntryAt(m.log, m.lastApplied).Some? {
        CollectKeepsBooks(m.(emitted := m.emitted + [ToApply(EntryAt(m.log, m.lastApplied).value)]));
      }
    }
  }

  lemma AnswerMoves(s: Cluster, m: Msg, l: Id, f: Id, t: int)
    requires Inv(s) && Leads(s, l, t)
    requires m.AppendReply? && Receives(s, m) && m.append.leaderId == l
    requires OnAppendReply(s.nodes[l], m.src, m.append, m.appendResult).role == Leader
    requires OnAppendReply(s.nodes[l], m.src, m.append, m.appendResult).currentTerm == t
    ensures var n' := OnAppendReply(s.nodes[l], m.src, m.append, m.appendResult);
            && (m.src != f || m.append.term != t ==> Lookup(n'.nextIndex, f) == Lookup(s.nodes[l].nextIndex, f))
            && (m.src == f && m.append.term == t && !m.appendResult.success ==>
                  1 <= Lookup(n'.nextIndex, f) <= m.append.prevLogIndex)
  {
    hide HistoryOk;
    assert MsgOk(s.ids, s.h, m) && NodeOk(s.ids, s.h, s.nodes[l]);
    if m.append.term == t && !m.appendResult.success && m.appendResult.term <= t {
      BackedOffOk(s.ids, s.h, s.nodes[l], m.src, m.append, m.appendResult);
    }
  }

  /** Back-off terminates whatever else goes on: as long as l leads and f has not accepted, a leader that probes
      f one at a time, starting at nextIndex k, takes in at most k - 1 rejections, whatever all nodes do in
      between. */
  lemma {:induction false} RejectionsBounded(trace: seq<Cluster>, steps: seq<Step>, l: Id, f: Id, t: int)
    requires Follows(trace, steps) && Inv(trace[0])
    requires forall k :: 0 <= k < |trace| ==> Leads(trace[k], l, t) && f in trace[k].nodes[l].peers
    requires forall k :: 0 <= k < |steps| ==> InTurn(trace[k], steps[k], l, f, t) && !Accepts(steps[k], l, f, t)
    ensures Rejections(steps, l, f, t) <= NextIndexFor(trace[0], l, f) - NextIndexFor(trace[|steps|], l, f)
    ensures 1 <= NextIndexFor(trace[|steps|], l, f)
    ensures Inv(trace[|steps|])
    decreases |steps|
  {
    hide Inv, NextBy;
    if |steps| == 0 {
      NextIndexPositive(trace[0], l, f);
    } else {
      var last := |steps| - 1;
      assert InTurn(trace[last], steps[last], l, f, t);
      RejectionsBounded(trace[..|trace| - 1], steps[..last], l, f, t);
      assert NextBy(trace[last], steps[last], trace[last + 1]);
      StepOk(trace[last], steps[last], trace[last + 1]);
      NextIndexMoves(trace[last], steps[last], trace[last + 1], l, f, t);
    }
  }

  lemma NextIndexPositive(s: Cluster, l: Id, f: Id)
    requires Inv(s) && l in s.nodes && s.nodes[l].role == Leader && f in s.nodes[l].peers
    ensures 1 <= Lookup(s.nodes[l].nextIndex, f)
  {
    hide HistoryOk, NetOk;
    assert NodeOk(s.ids, s.h, s.nodes[l]);
    assert f in ElementsOf(s.nodes[l].peers);
  }

  /** And the first accepted answer, in the midst of other steps: as long as f is in the leader's term, it
      holds the leader's log up to the last entry of the accepted request. */
  lemma AcceptedIsHeld(s: Cluster, step: Step, s': Cluster, l: Id, f: Id, t: int)
    requires Inv(s) && NextBy(s, step, s')
    requires Leads(s, l, t) && f in s.nodes && s.nodes[f].currentTerm == t
    requires Accepts(step, l, f, t) && step.m.appendResult.term <= t
    ensures Agree(s.nodes[l].log, s.nodes[f].log, step.m.append.prevLogIndex + |step.m.append.entries|)
  {
    hide TermsOk, ElectorsOk, VotesOk, StandingOk, PastOk, ConfigOk, BallotOk, CandidateOk, NodeLogOk, CommitOk, ApplyOk;
    assert MsgOk(s.ids, s.h, step.m) && NodeOk(s.ids, s.h, s.nodes[l]) && NodeOk(s.ids, s.h, s.nodes[f]);
    var m := step.m.append.prevLogIndex + |step.m.append.entries|;
    if m > 0 {
      assert AckKept(s.h, s.nodes[f].log, t, t, m);
    }
  }
}
