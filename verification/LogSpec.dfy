/** The log as a plain sequence: what reads, appends, truncations and the merge loop of
    HandleAppendEntries mean, and what the merge loop writes to storage on the way. */
module LogSpec {
  import opened Types

  /** The two logs hold the same entries at their first k positions. */
  predicate Agree(a: Log, b: Log, k: int) {
    && k <= |a|
    && k <= |b|
    && forall i :: 0 <= i < k ==> a[i] == b[i]
  }

  function LastTerm(log: Log): int {
    if |log| == 0 then 0 else log[|log| - 1].term
  }

  /** Log.GetTerm: zero where there is no entry. */
  function TermAt(log: Log, index: int): int {
    if 1 <= index <= |log| then log[index - 1].term else 0
  }

  /** Log.GetEntry: nil where there is no entry. */
  function EntryAt(log: Log, index: int): Option<Entry> {
    if 1 <= index <= |log| then Some(log[index - 1]) else None
  }

  /** Log.GetEntries on [start, end). */
  function Range(log: Log, start: int, end: int): seq<Entry> {
    var stop := if end > |log| + 1 then |log| + 1 else end;
    if start < 1 || start >= stop then [] else log[start - 1..stop - 1]
  }

  /** The index of the first entry of term t at or after position from + 1, or 1 when there is none. */
  function FirstIndexOfTermFrom(log: Log, t: int, from: nat): int
    requires from <= |log|
    decreases |log| - from
  {
    if from == |log| then 1
    else if log[from].term == t then from + 1
    else FirstIndexOfTermFrom(log, t, from + 1)
  }

  /** Log.findFirstIndexOfTerm. */
  function FirstIndexOfTerm(log: Log, t: int): int {
    FirstIndexOfTermFrom(log, t, 0)
  }

  /** The largest index at most `upto` whose entry has term t, or 0. */
  function LastIndexOfTerm(log: Log, t: int, upto: nat): nat
    requires upto <= |log|
  {
    if upto == 0 then 0
    else if log[upto - 1].term == t then upto
    else LastIndexOfTerm(log, t, upto - 1)
  }

  /** FirstIndexOfTerm really is the first. */
  lemma {:induction false} FirstIndexOfTermIsFirst(log: Log, t: int, from: nat, at: nat)
    requires from <= at < |log|
    requires log[at].term == t
    ensures from + 1 <= FirstIndexOfTermFrom(log, t, from) <= at + 1
    ensures log[FirstIndexOfTermFrom(log, t, from) - 1].term == t
    ensures forall i :: from <= i < FirstIndexOfTermFrom(log, t, from) - 1 ==> log[i].term != t
    decreases |log| - from
  {
    if log[from].term != t {
      FirstIndexOfTermIsFirst(log, t, from + 1, at);
    }
  }

  /** Without an entry of the term it is 1. */
  lemma {:induction false} FirstIndexOfTermAbsent(log: Log, t: int, from: nat)
    requires from <= |log|
    requires forall i :: from <= i < |log| ==> log[i].term != t
    ensures FirstIndexOfTermFrom(log, t, from) == 1
    decreases |log| - from
  {
    if from < |log| {
      FirstIndexOfTermAbsent(log, t, from + 1);
    }
  }

  /** LastIndexOfTerm really is the last. */
  lemma {:induction false} LastIndexOfTermIsLast(log: Log, t: int, upto: nat)
    requires upto <= |log|
    ensures LastIndexOfTerm(log, t, upto) <= upto
    ensures LastIndexOfTerm(log, t, upto) > 0 ==> log[LastIndexOfTerm(log, t, upto) - 1].term == t
    ensures forall i :: LastIndexOfTerm(log, t, upto) <= i < upto ==> log[i].term != t
  {
    if upto > 0 && log[upto - 1].term != t {
      LastIndexOfTermIsLast(log, t, upto - 1);
    }
  }

  const BLANK_ENTRY := Entry(0, 0, [])

  /** AppendLogEntries on one entry, with the first index at 1: skip, overwrite, append or fill the gap. */
  function Put(log: Log, e: Entry): Log {
    if e.index < 1 then log
    else if e.index <= |log| then log[e.index - 1 := e]
    else log + seq(e.index - 1 - |log|, _ => BLANK_ENTRY) + [e]
  }

  function Truncated(log: Log, index: int): Log {
    if index >= |log| then log else if index < 0 then [] else log[..index]
  }

  /** One turn of the loop of HandleAppendEntries. */
  function MergeOne(log: Log, e: Entry): Log {
    match EntryAt(log, e.index)
    case None => Put(log, e)
    case Some(present) => if present.term != e.term then Put(Truncated(log, e.index - 1), e) else log
  }

  /** The whole loop, over the entries in order. */
  function Merge(log: Log, es: seq<Entry>): Log {
    if |es| == 0 then log else MergeOne(Merge(log, es[..|es| - 1]), es[|es| - 1])
  }

  /** The storage calls of one turn of the loop. */
  function MergeOneWrites(log: Log, e: Entry): seq<Write> {
    match EntryAt(log, e.index)
    case None => [AppendEntry(e)]
    case Some(present) => if present.term != e.term then [TruncateAfter(e.index - 1), AppendEntry(e)] else []
  }

  /** The storage calls of the whole loop, in order. */
  function MergeWrites(log: Log, es: seq<Entry>): seq<Write> {
    if |es| == 0 then []
    else
      var before := es[..|es| - 1];
      MergeWrites(log, before) + MergeOneWrites(Merge(log, before), es[|es| - 1])
  }

  lemma MergeNone(log: Log, es: seq<Entry>)
    ensures Merge(log, es[..0]) == log && MergeWrites(log, es[..0]) == []
  {
  }

  /** The loop, one entry further. */
  lemma MergeNext(log: Log, es: seq<Entry>, k: nat)
    requires k < |es|
    ensures Merge(log, es[..k + 1]) == MergeOne(Merge(log, es[..k]), es[k])
    ensures MergeWrites(log, es[..k + 1]) == MergeWrites(log, es[..k]) + MergeOneWrites(Merge(log, es[..k]), es[k])
  {
    assert es[..k + 1][..k] == es[..k];
  }

  function ApplyWrite(d: Durable, w: Write): Durable {
    match w
    case SaveState(t, v) => d.(term := t, votedFor := v)
    case AppendEntry(e) => d.(log := Put(d.log, e))
    case TruncateAfter(i) => d.(log := Truncated(d.log, i))
  }

  /** The durable state after a sequence of storage calls. */
  function Replay(d: Durable, ws: seq<Write>): Durable {
    if |ws| == 0 then d else ApplyWrite(Replay(d, ws[..|ws| - 1]), ws[|ws| - 1])
  }

  lemma {:induction false} ReplayConcat(d: Durable, a: seq<Write>, b: seq<Write>)
    ensures Replay(d, a + b) == Replay(Replay(d, a), b)
  {
    if |b| == 0 {
      assert a + b == a;
    } else {
      assert (a + b)[..|a + b| - 1] == a + b[..|b| - 1];
      ReplayConcat(d, a, b[..|b| - 1]);
    }
  }

  /** Running the loop's storage calls to the end gives the merged log and touches nothing else. */
  lemma {:induction false} MergeWritesRefine(d: Durable, es: seq<Entry>)
    ensures Replay(d, MergeWrites(d.log, es)) == d.(log := Merge(d.log, es))
  {
    if |es| > 0 {
      var before := es[..|es| - 1];
      var e := es[|es| - 1];
      MergeWritesRefine(d, before);
      var mid := d.(log := Merge(d.log, before));
      ReplayConcat(d, MergeWrites(d.log, before), MergeOneWrites(mid.log, e));
      MergeOneWritesRefine(mid, e);
    }
  }

  lemma MergeOneWritesRefine(d: Durable, e: Entry)
    ensures Replay(d, MergeOneWrites(d.log, e)) == d.(log := MergeOne(d.log, e))
  {
    var ws := MergeOneWrites(d.log, e);
    if |ws| == 1 {
      assert Replay(d, ws[..0]) == d;
    } else if |ws| == 2 {
      assert ws[..1] == [ws[0]];
      assert Replay(d, ws[..1][..0]) == d;
    }
  }

  /** Every log seen while `log` is being merged with entries of `leader`, up to index `upto`: either
      still `log`, or a prefix of `leader` no shorter than what the two logs have in common. */
  ghost predicate MergedTo(log: Log, leader: Log, upto: int, x: Log) {
    x == log || exists q :: IsCut(log, leader, upto, x, q)
  }

  ghost predicate IsCut(log: Log, leader: Log, upto: int, x: Log, q: int) {
    && 0 <= q <= upto
    && |x| == q
    && Agree(x, leader, q)
    && forall c :: q < c ==> !Agree(log, leader, c)
  }

  /** What log matching says about one pair: equal terms at an index mean equal logs up to it. */
  ghost predicate Matching(a: Log, b: Log) {
    forall i :: 0 <= i < |a| && i < |b| && a[i].term == b[i].term ==> Agree(a, b, i + 1)
  }

  /** `es` are the entries of `leader` that follow index `prev`, with their indices set correctly. */
  ghost predicate IsSuffixPart(leader: Log, prev: int, es: seq<Entry>) {
    && 0 <= prev
    && prev + |es| <= |leader|
    && forall i :: 0 <= i < |es| ==> es[i] == leader[prev + i] && es[i].index == prev + i + 1
  }

  /** The merge loop refines its specification: when the leader's entries follow a matched index, the log
      is left unchanged if it already holds them, and otherwise becomes exactly the leader's log up to the
      last entry sent. No gap ever appears. */
  lemma {:induction false} MergeSpec(log: Log, leader: Log, prev: int, es: seq<Entry>)
    requires IsSuffixPart(leader, prev, es)
    requires Agree(log, leader, prev)
    requires Matching(log, leader)
    ensures Agree(log, leader, prev + |es|) ==> Merge(log, es) == log
    ensures !Agree(log, leader, prev + |es|) ==> Merge(log, es) == leader[..prev + |es|]
  {
    if |es| > 0 {
      var q := prev + |es|;
      MergeSpec(log, leader, prev, es[..|es| - 1]);
      var mid := Merge(log, es[..|es| - 1]);
      AgreeShorter(log, leader, q, q - 1);
      if Agree(log, leader, q - 1) {
        MergeOneMatched(log, leader, q, es[|es| - 1]);
      } else {
        MergeOneExtends(mid, leader, q, es[|es| - 1]);
      }
    }
  }

  lemma AgreeShorter(a: Log, b: Log, k: int, j: int)
    requires j <= k
    ensures Agree(a, b, k) ==> Agree(a, b, j)
  {
  }

  lemma MergeOneExtends(mid: Log, leader: Log, q: int, e: Entry)
    requires 0 < q <= |leader|
    requires e == leader[q - 1] && e.index == q
    requires mid == leader[..q - 1]
    ensures MergeOne(mid, e) == leader[..q]
  {
    var gap := seq(q - 1 - |mid|, _ => BLANK_ENTRY);
    assert gap == [];
    assert mid + gap + [e] == leader[..q];
  }

  lemma MergeOneMatched(log: Log, leader: Log, q: int, e: Entry)
    requires 0 < q <= |leader|
    requires e == leader[q - 1] && e.index == q
    requires Agree(log, leader, q - 1)
    requires Matching(log, leader)
    ensures Agree(log, leader, q) ==> MergeOne(log, e) == log
    ensures !Agree(log, leader, q) ==> MergeOne(log, e) == leader[..q]
  {
    assert log[..q - 1] == leader[..q - 1];
    if |log| < q {
      assert log == log[..q - 1];
      MergeOneExtends(log, leader, q, e);
    } else if log[q - 1].term != e.term {
      var cut := log[..q - 1];
      var gap := seq(q - 1 - |cut|, _ => BLANK_ENTRY);
      assert gap == [];
      assert cut + gap + [e] == leader[..q];
    }
  }

  /** Stopping the loop after any number of its storage calls leaves one of the logs that MergedTo
      describes. */
  lemma {:induction false} PartialMerge(d: Durable, leader: Log, prev: int, es: seq<Entry>, j: nat)
    requires IsSuffixPart(leader, prev, es)
    requires Agree(d.log, leader, prev)
    requires Matching(d.log, leader)
    requires j <= |MergeWrites(d.log, es)|
    ensures Replay(d, MergeWrites(d.log, es)[..j]).term == d.term
    ensures Replay(d, MergeWrites(d.log, es)[..j]).votedFor == d.votedFor
    ensures MergedTo(d.log, leader, prev + |es|, Replay(d, MergeWrites(d.log, es)[..j]).log)
  {
    var all := MergeWrites(d.log, es);
    if |es| == 0 {
      assert all[..j] == [];
    } else {
      var before := es[..|es| - 1];
      var e := es[|es| - 1];
      var first := MergeWrites(d.log, before);
      var mid := d.(log := Merge(d.log, before));
      var last := MergeOneWrites(mid.log, e);
      if j <= |first| {
        assert all[..j] == first[..j];
        PartialMerge(d, leader, prev, before, j);
        var x := Replay(d, first[..j]).log;
        if x != d.log {
          var q :| IsCut(d.log, leader, prev + |before|, x, q);
          assert IsCut(d.log, leader, prev + |es|, x, q);
        }
      } else {
        assert all[..j] == first + last[..j - |first|];
        ReplayConcat(d, first, last[..j - |first|]);
        MergeWritesRefine(d, before);
        PartialMergeOne(d, leader, prev, es, mid, last, j - |first|);
      }
    }
  }

  lemma PartialMergeOne(d: Durable, leader: Log, prev: int, es: seq<Entry>, mid: Durable, last: seq<Write>, k: nat)
    requires IsSuffixPart(leader, prev, es)
    requires Agree(d.log, leader, prev)
    requires Matching(d.log, leader)
    requires |es| > 0
    requires mid == d.(log := Merge(d.log, es[..|es| - 1]))
    requires last == MergeOneWrites(mid.log, es[|es| - 1])
    requires 0 < k <= |last|
    ensures Replay(mid, last[..k]).term == d.term
    ensures Replay(mid, last[..k]).votedFor == d.votedFor
    ensures MergedTo(d.log, leader, prev + |es|, Replay(mid, last[..k]).log)
  {
    var before := es[..|es| - 1];
    var q := prev + |es|;
    MergeSpec(d.log, leader, prev, before);
    if k == |last| {
      assert last[..k] == last;
      MergeOneWritesRefine(mid, es[|es| - 1]);
      MergeSpec(d.log, leader, prev, es);
      assert Merge(d.log, es) == MergeOne(mid.log, es[|es| - 1]);
      MergedFully(d.log, leader, q, Merge(d.log, es));
    } else {
      // the conflicting entry has been cut off and not yet replaced
      assert last[..1][..0] == [];
      assert last[..1] == [last[0]];
      assert Replay(mid, last[..1][..0]) == mid;
      var x := Replay(mid, last[..1]).log;
      assert x == Truncated(mid.log, q - 1);
      if Agree(d.log, leader, q - 1) {
        assert mid.log == d.log;
        assert !Agree(d.log, leader, q);
        NoAgreeBeyond(d.log, leader, q);
        assert IsCut(d.log, leader, q, x, q - 1);
      } else {
        assert false;
      }
    }
  }

  lemma MergedFully(log: Log, leader: Log, upto: int, x: Log)
    requires 0 <= upto <= |leader|
    requires Agree(log, leader, upto) ==> x == log
    requires !Agree(log, leader, upto) ==> x == leader[..upto]
    ensures MergedTo(log, leader, upto, x)
  {
    if !Agree(log, leader, upto) {
      NoAgreeBeyond(log, leader, upto);
      assert IsCut(log, leader, upto, x, upto);
    }
  }

  lemma NoAgreeBeyond(a: Log, b: Log, q: int)
    requires !Agree(a, b, q)
    ensures forall c :: q <= c ==> !Agree(a, b, c)
  {
    forall c | q <= c
      ensures !Agree(a, b, c)
    {
      AgreeShorter(a, b, c, q);
    }
  }

  /** Whatever the old log shared with the leader, every intermediate log still shares: a delayed or
      repeated message never removes an entry the follower already has in common with that leader. */
  lemma MergeKeepsShared(log: Log, leader: Log, upto: int, x: Log, k: int)
    requires MergedTo(log, leader, upto, x)
    requires Agree(log, leader, k)
    ensures Agree(x, leader, k)
  {
    if x != log {
      var q :| IsCut(log, leader, upto, x, q);
      assert k <= q;
    }
  }
}
