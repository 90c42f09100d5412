/** Consequences of the history invariant: quorums meet, logs match, and every later leader holds what
    was committed before it. */
module HistoryProofs {
  import opened Types
  import opened LogSpec
  import opened Steps
  import opened Histories

  // ------------------------------------------------------------------ quorums

  lemma QuorumsMeet(ids: set<Id>, a: set<Id>, b: set<Id>) returns (p: Id)
    requires IsQuorum(ids, a) && IsQuorum(ids, b)
    ensures p in a && p in b
  {
    if a * b == {} {
      assert |a + b| == |a| + |b|;
      SubsetSize(a + b, ids);
      assert false;
    }
    p :| p in a * b;
  }

  lemma {:induction false} ElementsCount(s: seq<Id>)
    requires NoDuplicates(s)
    ensures |ElementsOf(s)| == |s|
  {
    if |s| > 0 {
      var rest := s[..|s| - 1];
      ElementsCount(rest);
      assert ElementsOf(s) == ElementsOf(rest) + {s[|s| - 1]};
    }
  }

  /** The node's own quorum size, computed from its peer list, is a majority of the cluster. */
  lemma QuorumSizeIsMajority(ids: set<Id>, n: Node)
    requires ConfigOk(ids, n)
    ensures QuorumSize(n) == |ids| / 2 + 1
  {
    ElementsCount(n.peers);
    assert ids == ElementsOf(n.peers) + {n.id};
  }

  // --------------------------------------------------------------------- logs

  /** Log matching: two logs made by leaders agree up to any index where they have the same term. */
  lemma LogsMatch(h: History, a: Log, b: Log)
    requires LogIn(h, a) && LogIn(h, b)
    ensures Matching(a, b)
  {
    forall i | 0 <= i < |a| && i < |b| && a[i].term == b[i].term
      ensures Agree(a, b, i + 1)
    {
      assert EntryIn(h, a, i) && EntryIn(h, b, i);
    }
  }

  /** Terms never decrease along a log. */
  lemma TermsAscend(ids: set<Id>, h: History, log: Log, i: int, j: int)
    requires TermsOk(ids, h)
    requires LogIn(h, log)
    requires 0 <= i <= j < |log|
    ensures log[i].term <= log[j].term
  {
    assert EntryIn(h, log, j);
    assert TermOk(ids, h, log[j].term);
  }

  /** An entry of term t at two places puts term t everywhere between, in any log: two logs that hold
      entries of term t hold them in the same stretch. */
  lemma SameStretch(h: History, a: Log, b: Log, i: int, j: int)
    requires LogIn(h, a) && LogIn(h, b)
    requires 0 <= i < |a| && i <= j < |b|
    requires a[i].term == b[j].term
    ensures a[i] == b[i]
  {
    assert EntryIn(h, a, i) && EntryIn(h, b, j);
  }

  // --------------------------------------------------------- leader completeness

  /** The vote-time comparison does its work: a voter that still holds an acknowledged entry of term t
      votes only for a candidate that holds it too, or whose log comes from a term that overruled it. */
  lemma UpToDateKept(ids: set<Id>, h: History, t: int, m: int, log: Log, cand: Log, u: int)
    requires TermsOk(ids, h)
    requires LogIn(h, log) && LogIn(h, cand) && TermsUpTo(cand, u - 1)
    requires OwnEntry(h, t, m) && t < u
    requires Agree(LeaderLog(h, t), log, m)
    requires UpToDate(log, |cand|, LastTerm(cand))
    ensures Kept(h, t, m, cand, u)
  {
    var a, c := LastTerm(log), LastTerm(cand);
    assert t in h.terms && TermOk(ids, h, t);
    TermsAscend(ids, h, log, m - 1, |log| - 1);
    assert EntryIn(h, log, |log| - 1);
    assert 1 <= t <= a <= c;
    assert EntryIn(h, cand, |cand| - 1);
    if c == a {
      assert Agree(log, LeaderLog(h, c), |log|) && Agree(cand, LeaderLog(h, c), |cand|);
    } else if Agree(LeaderLog(h, t), LeaderLog(h, c), m) {
      assert LeaderLog(h, c)[|cand| - 1].term == c > t;
      assert m < |cand|;
    } else {
      assert t < c < u && c in h.terms;
    }
  }

  /** Leader completeness on the history: what is committed in term t is in the log of the leader of every
      later term. */
  lemma {:induction false} LaterLeadersHold(ids: set<Id>, h: History, t: int, m: int, u: int)
    requires TermsOk(ids, h) && ElectorsOk(h)
    requires Committed(ids, h, t, m)
    requires t <= u && u in h.terms
    ensures Agree(LeaderLog(h, t), LeaderLog(h, u), m)
    decreases u - t
  {
    if t < u {
      var q :| IsQuorum(ids, q) && AckedBy(h, q, t, m);
      assert TermOk(ids, h, u);
      var p := QuorumsMeet(ids, q, h.terms[u].electors);
      assert Ack(h, t, p) >= m;
      assert VoterKept(h, p, LeaderLog(h, u), u);
      assert Kept(h, t, m, LeaderLog(h, u), u);
      forall v | t < v < u && v in h.terms
        ensures Agree(LeaderLog(h, t), LeaderLog(h, v), m)
      {
        LaterLeadersHold(ids, h, t, m, v);
      }
    }
  }

  /** Two backed prefixes agree as far as both reach. */
  lemma BackedAgree(ids: set<Id>, h: History, a: Log, ka: int, ta: int, b: Log, kb: int, tb: int, k: int)
    requires TermsOk(ids, h) && ElectorsOk(h)
    requires Backed(ids, h, a, ka, ta) && Backed(ids, h, b, kb, tb)
    requires k <= ka && k <= kb
    ensures k > 0 ==> Agree(a, b, k)
  {
    if k > 0 {
      var ua, ma :| BackedBy(ids, h, a, ka, ta, ua, ma);
      var ub, mb :| BackedBy(ids, h, b, kb, tb, ub, mb);
      if ua <= ub {
        LaterLeadersHold(ids, h, ua, ma, ub);
      } else {
        LaterLeadersHold(ids, h, ub, mb, ua);
      }
    }
  }

  /** A prefix committed by a term up to u is in u's leader log. */
  lemma BackedInLeader(ids: set<Id>, h: History, log: Log, k: int, t: int, u: int)
    requires TermsOk(ids, h) && ElectorsOk(h)
    requires 0 <= k
    requires Backed(ids, h, log, k, t)
    requires t <= u && u in h.terms
    ensures k <= |log| ==> Agree(log, LeaderLog(h, u), k)
  {
    if k > 0 {
      var v, m :| BackedBy(ids, h, log, k, t, v, m);
      LaterLeadersHold(ids, h, v, m, u);
    }
  }

  // ---------------------------------------------------------- frames of a step

  /** Node i ends the step in a term that none of its earlier votes exceed. */
  ghost predicate VotesNotAfter(h: History, i: Id, t: int) {
    forall u :: (u, i) in h.votes ==> u <= t
  }

  lemma ElectorsFrame(ids: set<Id>, h: History, h': History, i: Id, t: int)
    requires TermsOk(ids, h) && AcksOk(ids, h) && ElectorsOk(h)
    requires HistoryStep(h, h', i, t)
    requires VotesNotAfter(h, i, t)
    ensures forall u, p :: u in h.terms && p in h.terms[u].electors ==> VoterKept(h', p, LeaderLog(h', u), u)
  {
    forall u, p | u in h.terms && p in h.terms[u].electors
      ensures VoterKept(h', p, LeaderLog(h', u), u)
    {
      assert TermOk(ids, h, u);
      assert (u, p) in h.votes;
      VoterKeptStep(ids, h, h', i, t, p, LeaderLog(h, u), u);
      VoterKeptLonger(h', p, LeaderLog(h, u), LeaderLog(h', u), u);
    }
  }

  lemma VoterKeptLonger(h: History, p: Id, log: Log, log': Log, u: int)
    requires VoterKept(h, p, log, u)
    requires Agree(log, log', |log|)
    ensures VoterKept(h, p, log', u)
  {
    forall t, m | t < u && 0 < m <= Ack(h, t, p) && OwnEntry(h, t, m)
      ensures Kept(h, t, m, log', u)
    {
      assert Kept(h, t, m, log, u);
    }
  }

  lemma VotesFrame(ids: set<Id>, h: History, h': History, i: Id, t: int)
    requires TermsOk(ids, h) && AcksOk(ids, h) && VotesOk(h)
    requires HistoryStep(h, h', i, t)
    requires VotesNotAfter(h, i, t)
    ensures forall u, p :: (u, p) in h.votes && u !in h'.terms ==> VoteOk(h', u, p)
  {
    forall u, p | (u, p) in h.votes && u !in h'.terms
      ensures VoteOk(h', u, p)
    {
      assert VoteOk(h, u, p);
      VoterKeptStep(ids, h, h', i, t, p, h.standing[(u, h.votes[(u, p)])], u);
    }
  }

  lemma StandingFrame(h: History, h': History, i: Id, t: int)
    requires StandingOk(h)
    requires HistoryStep(h, h', i, t)
    ensures forall k :: k in h.standing ==> LogIn(h', h.standing[k]) && TermsUpTo(h.standing[k], k.0 - 1)
  {
    forall k | k in h.standing
      ensures LogIn(h', h.standing[k]) && TermsUpTo(h.standing[k], k.0 - 1)
    {
      LogInStep(h, h', i, t, h.standing[k]);
    }
  }

  lemma TermsFrame(ids: set<Id>, h: History, h': History, i: Id, t: int)
    requires TermsOk(ids, h)
    requires HistoryStep(h, h', i, t)
    ensures forall u :: u in h.terms && LeaderLog(h', u) == LeaderLog(h, u) ==> TermOk(ids, h', u)
  {
    forall u | u in h.terms && LeaderLog(h', u) == LeaderLog(h, u)
      ensures TermOk(ids, h', u)
    {
      assert TermOk(ids, h, u);
      LogInStep(h, h', i, t, LeaderLog(h, u));
    }
  }

  lemma PastFrame(ids: set<Id>, h: History, h': History, i: Id, t: int)
    requires PastOk(ids, h)
    requires HistoryStep(h, h', i, t)
    requires h'.past == h.past
    ensures PastOk(ids, h')
  {
    forall j, k | j in ids && 0 <= k < |h'.past[j]|
      ensures StreamBacked(ids, h', h'.past[j][k])
    {
      StreamBackedStep(ids, h, h', i, t, h.past[j][k]);
    }
  }

  /** A step that creates no term, vote or standing keeps all of the history invariant but the range of
      what changed in the logs and acknowledgements. */
  lemma QuietFrame(ids: set<Id>, h: History, h': History, i: Id, t: int)
    requires HistoryOk(ids, h)
    requires HistoryStep(h, h', i, t)
    requires VotesNotAfter(h, i, t)
    requires h'.terms.Keys == h.terms.Keys
    requires forall u :: u in h.terms ==> h'.terms[u].electors == h.terms[u].electors
    requires h'.votes == h.votes && h'.standing == h.standing && h'.past == h.past
    ensures ElectorsOk(h') && VotesOk(h') && StandingOk(h') && PastOk(ids, h')
  {
    ElectorsFrame(ids, h, h', i, t);
    VotesFrame(ids, h, h', i, t);
    StandingFrame(h, h', i, t);
    PastFrame(ids, h, h', i, t);
  }

  /** If the leader logs are untouched too, only the acknowledgements remain. */
  lemma HistoryFrame(ids: set<Id>, h: History, h': History, i: Id, t: int)
    requires HistoryOk(ids, h)
    requires HistoryStep(h, h', i, t)
    requires VotesNotAfter(h, i, t)
    requires h'.terms == h.terms && h'.votes == h.votes && h'.standing == h.standing && h'.past == h.past
    requires AcksOk(ids, h')
    ensures HistoryOk(ids, h')
  {
    hide ElectorsOk, VotesOk, StandingOk, AcksOk, PastOk;
    QuietFrame(ids, h, h', i, t);
    TermsFrame(ids, h, h', i, t);
  }

  // ------------------------------------------------------------ moving a node on

  /** Moving to a later term keeps what was acknowledged. */
  lemma AckedLater(h: History, i: Id, log: Log, term: int, term': int)
    requires AckedOk(h, i, log, term)
    requires term <= term'
    ensures AckedOk(h, i, log, term')
  {
    forall t, m | 0 < m <= Ack(h, t, i)
      ensures AckKept(h, log, term', t, m)
    {
      assert AckKept(h, log, term, t, m);
    }
  }

  lemma BackedLater(ids: set<Id>, h: History, log: Log, k: int, t: int, t': int)
    requires Backed(ids, h, log, k, t)
    requires t <= t'
    ensures Backed(ids, h, log, k, t')
  {
    if k > 0 {
      var u, m :| BackedBy(ids, h, log, k, t, u, m);
      assert BackedBy(ids, h, log, k, t', u, m);
    }
  }

  lemma BackedShorter(ids: set<Id>, h: History, log: Log, k: int, j: int, t: int)
    requires Backed(ids, h, log, k, t)
    requires j <= k
    ensures Backed(ids, h, log, j, t)
  {
    if j > 0 {
      var u, m :| BackedBy(ids, h, log, k, t, u, m);
      assert BackedBy(ids, h, log, j, t, u, m);
    }
  }

  /** Stepping down into a later term is always allowed. */
  lemma StepDownOk(ids: set<Id>, h: History, n: Node, t: int)
    requires NodeOk(ids, h, n)
    requires t > n.currentTerm
    ensures NodeOk(ids, h, StepDown(n, t))
  {
    AckedLater(h, n.id, n.log, n.currentTerm, t);
    BackedLater(ids, h, n.log, n.commitIndex, n.currentTerm, t);
  }
}
