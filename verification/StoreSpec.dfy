/** A log store as a value: entries from a first index on, without gaps in their positions. */
module StoreSpec {
  import opened Types
  import opened LogSpec

  /** The entry at position i stands for index first + i. */
  datatype Store = Store(first: int, entries: seq<Entry>)

  /** AppendLogEntries on one entry: skip before the first index, overwrite, append, or fill the gap. */
  function StoreAppend(s: Store, e: Entry): Store {
    var pos := e.index - s.first;
    if pos < 0 then s
    else if pos < |s.entries| then s.(entries := s.entries[pos := e])
    else s.(entries := s.entries + seq(pos - |s.entries|, _ => BLANK_ENTRY) + [e])
  }

  function StoreAppendAll(s: Store, es: seq<Entry>): Store {
    if |es| == 0 then s else StoreAppend(StoreAppendAll(s, es[..|es| - 1]), es[|es| - 1])
  }

  function StoreGet(s: Store, index: int): Option<Entry> {
    if s.first <= index < s.first + |s.entries| then Some(s.entries[index - s.first]) else None
  }

  /** GetLogEntries on [start, end), clamped to what is stored. */
  function StoreRange(s: Store, start: int, end: int): seq<Entry> {
    var lo := if start < s.first then s.first else start;
    var hi := if end > s.first + |s.entries| then s.first + |s.entries| else end;
    if lo >= hi then [] else s.entries[lo - s.first..hi - s.first]
  }

  function StoreTruncateAfter(s: Store, index: int): Store {
    if index < s.first then s.(entries := [])
    else if index - s.first + 1 < |s.entries| then s.(entries := s.entries[..index - s.first + 1])
    else s
  }

  function StoreTruncateBefore(s: Store, index: int): Store {
    if index <= s.first then s
    else if index - s.first >= |s.entries| then Store(index, [])
    else Store(index, s.entries[index - s.first..])
  }

  /** Index and term recorded in the last entry; without entries, those of the snapshot, if there is one. */
  function StoreLast(s: Store, snapshot: (int, int)): (int, int) {
    if |s.entries| == 0 then (if snapshot.0 > 0 then snapshot else (0, 0))
    else var e := s.entries[|s.entries| - 1]; (e.index, e.term)
  }

  /** The storage calls that append the entries one by one. */
  function Appends(es: seq<Entry>): seq<Write> {
    seq(|es|, i requires 0 <= i < |es| => AppendEntry(es[i]))
  }

  /** One call that appends a batch does to the log what so many single appends do. */
  lemma {:induction false} AppendsReplay(d: Durable, es: seq<Entry>)
    ensures Replay(d, Appends(es)) == d.(log := StoreAppendAll(Store(1, d.log), es).entries)
    ensures StoreAppendAll(Store(1, d.log), es).first == 1
  {
    if |es| > 0 {
      var before, e := es[..|es| - 1], es[|es| - 1];
      AppendsReplay(d, before);
      assert Appends(es)[..|es| - 1] == Appends(before);
      StoreIsLog(StoreAppendAll(Store(1, d.log), before).entries, e, 0, 1, 1);
    }
  }

  /** What can be read after an append: the entry at its index, blanks where a gap was filled, and everything else
      as before; an entry before the first index leaves no trace. */
  lemma AppendReads(s: Store, e: Entry, k: int)
    ensures StoreAppend(s, e).first == s.first
    ensures StoreGet(StoreAppend(s, e), k) ==
            if e.index < s.first then StoreGet(s, k)
            else if k == e.index then Some(e)
            else if s.first + |s.entries| <= k < e.index then Some(BLANK_ENTRY)
            else StoreGet(s, k)
  {
  }

  /** What can be read after a truncation: exactly the indices up to the given one, or from it on. */
  lemma TruncationReads(s: Store, i: int, k: int)
    ensures StoreGet(StoreTruncateAfter(s, i), k) == if k <= i then StoreGet(s, k) else None
    ensures StoreGet(StoreTruncateBefore(s, i), k) == if k >= i then StoreGet(s, k) else None
  {
  }

  /** What a range read returns: the entries at the indices in it, one after the other. */
  lemma RangeReads(s: Store, start: int, end: int, k: nat)
    ensures k < |StoreRange(s, start, end)| ==>
              var lo := if start < s.first then s.first else start;
              lo + k < end && StoreGet(s, lo + k) == Some(StoreRange(s, start, end)[k])
    ensures forall i :: start <= i < end && StoreGet(s, i).Some? ==> StoreGet(s, i).value in StoreRange(s, start, end)
  {
    forall i | start <= i < end && StoreGet(s, i).Some?
      ensures StoreGet(s, i).value in StoreRange(s, start, end)
    {
      var lo := if start < s.first then s.first else start;
      assert StoreRange(s, start, end)[i - lo] == StoreGet(s, i).value;
    }
  }

  /** With the first index at 1, a store is the plain log. */
  lemma StoreIsLog(log: Log, e: Entry, index: int, start: int, end: int)
    ensures StoreAppend(Store(1, log), e) == Store(1, Put(log, e))
    ensures StoreGet(Store(1, log), index) == EntryAt(log, index)
    ensures StoreTruncateAfter(Store(1, log), index) == Store(1, Truncated(log, index))
    ensures start >= 1 ==> StoreRange(Store(1, log), start, end) == Range(log, start, end)
  {
    hide StoreAppend, Put;
    AppendIsPut(log, e);
  }

  lemma AppendIsPut(log: Log, e: Entry)
    ensures StoreAppend(Store(1, log), e) == Store(1, Put(log, e))
  {
    var gap := seq(if e.index - 1 > |log| then e.index - 1 - |log| else 0, _ => BLANK_ENTRY);
    if |log| < e.index {
      assert StoreAppend(Store(1, log), e).entries == log + gap + [e];
      assert Put(log, e) == log + gap + [e];
    }
  }
}

/** internal/storage/memory.go: the Raft half of MemoryStorage. */
module Memory {
  import opened Types
  import opened LogSpec
  import opened StoreSpec

  class MemoryStorage {
    var currentTerm: int
    var votedFor: Id
    var logEntries: seq<Entry>
    var firstIndex: int
    var snapshotIndex: int
    var snapshotTerm: int
    /** Every call that changed durable state, in order. */
    ghost var journal: seq<Write>

    ghost function Contents(): Store
      reads this
    {
      Store(firstIndex, logEntries)
    }

    ghost function Snapshot(): (int, int)
      reads this
    {
      (snapshotIndex, snapshotTerm)
    }

    ghost function Persisted(): Durable
      reads this
    {
      Durable(currentTerm, votedFor, logEntries)
    }

    constructor ()
      ensures Contents() == Store(1, []) && Persisted() == Durable(0, "", []) && Snapshot() == (0, 0)
      ensures journal == []
    {
      snapshotIndex, snapshotTerm := 0, 0;
      currentTerm, votedFor := 0, "";
      logEntries, firstIndex := [], 1;
      journal := [];
    }

    method SaveRaftState(term: int, vote: Id)
      modifies this`currentTerm, this`votedFor, this`journal
      ensures currentTerm == term && votedFor == vote
      ensures journal == old(journal) + [SaveState(term, vote)]
      ensures Persisted() == ApplyWrite(old(Persisted()), SaveState(term, vote))
    {
      currentTerm, votedFor := term, vote;
      journal := journal + [SaveState(term, vote)];
    }

    method AppendLogEntries(entries: seq<Entry>)
      modifies this`logEntries, this`journal
      ensures Contents() == StoreAppendAll(old(Contents()), entries)
      ensures journal == old(journal) + Appends(entries)
      ensures firstIndex == 1 ==> Persisted() == Replay(old(Persisted()), Appends(entries))
    {
      var k := 0;
      while k < |entries|
        invariant 0 <= k <= |entries|
        invariant Contents() == StoreAppendAll(old(Contents()), entries[..k])
        invariant journal == old(journal) + Appends(entries[..k])
      {
        ghost var before := Contents();
        var entry := entries[k];
        var pos := entry.index - firstIndex;
        if pos < 0 {
          // before the first index: skipped
        } else if pos < |logEntries| {
          logEntries := logEntries[pos := entry];
        } else if pos == |logEntries| {
          assert before.entries + seq(0, _ => BLANK_ENTRY) + [entry] == logEntries + [entry];
          logEntries := logEntries + [entry];
        } else {
          FillGap(pos);
          logEntries := logEntries + [entry];
        }
        assert Contents() == StoreAppend(before, entry);
        assert entries[..k + 1][..k] == entries[..k];
        assert Appends(entries[..k + 1]) == Appends(entries[..k]) + [AppendEntry(entry)];
        journal := journal + [AppendEntry(entry)];
        k := k + 1;
      }
      assert entries[..k] == entries;
      if firstIndex == 1 {
        AppendsReplay(old(Persisted()), entries);
      }
    }

    /** The inner loop that fills a gap with empty entries. */
    method FillGap(pos: int)
      requires |logEntries| <= pos
      modifies this`logEntries
      ensures logEntries == old(logEntries) + seq(pos - |old(logEntries)|, _ => BLANK_ENTRY)
    {
      while |logEntries| < pos
        invariant |old(logEntries)| <= |logEntries| <= pos
        invariant logEntries == old(logEntries) + seq(|logEntries| - |old(logEntries)|, _ => BLANK_ENTRY)
      {
        logEntries := logEntries + [BLANK_ENTRY];
      }
    }

    method GetLogEntry(index: int) returns (entry: Option<Entry>)
      ensures entry == StoreGet(Contents(), index)
    {
      if index < firstIndex {
        return None;
      }
      var pos := index - firstIndex;
      if pos >= |logEntries| {
        return None;
      }
      return Some(logEntries[pos]);
    }

    method GetLogEntries(startIndex: int, endIndex: int) returns (result: seq<Entry>)
      ensures result == StoreRange(Contents(), startIndex, endIndex)
    {
      if startIndex >= endIndex {
        return [];
      }
      var start := if startIndex < firstIndex then firstIndex else startIndex;
      var last := firstIndex + |logEntries|;
      var end := if endIndex > last then last else endIndex;
      if start >= end {
        return [];
      }
      result := CopyPositions(start - firstIndex, end - firstIndex);
    }

    /** The copying loop, on positions. */
    method CopyPositions(startPos: int, endPos: int) returns (result: seq<Entry>)
      requires 0 <= startPos <= endPos <= |logEntries|
      ensures result == logEntries[startPos..endPos]
    {
      result := [];
      var i := startPos;
      while i < endPos
        invariant startPos <= i <= endPos
        invariant result == logEntries[startPos..i]
      {
        result := result + [logEntries[i]];
        i := i + 1;
      }
    }

    /** The snapshot's data are left out. */
    method SaveSnapshot(index: int, term: int)
      modifies this`snapshotIndex, this`snapshotTerm
      ensures Snapshot() == (index, term)
    {
      snapshotIndex, snapshotTerm := index, term;
    }

    method GetLastLogIndexAndTerm() returns (index: int, term: int)
      ensures (index, term) == StoreLast(Contents(), Snapshot())
    {
      if |logEntries| == 0 {
        if snapshotIndex > 0 {
          return snapshotIndex, snapshotTerm;
        }
        return 0, 0;
      }
      var lastEntry := logEntries[|logEntries| - 1];
      return lastEntry.index, lastEntry.term;
    }

    method TruncateLogAfter(index: int)
      modifies this`logEntries, this`journal
      ensures Contents() == StoreTruncateAfter(old(Contents()), index)
      ensures journal == old(journal) + [TruncateAfter(index)]
      ensures firstIndex == 1 ==> Persisted() == ApplyWrite(old(Persisted()), TruncateAfter(index))
    {
      journal := journal + [TruncateAfter(index)];
      if index < firstIndex {
        logEntries := [];
        return;
      }
      var pos := index - firstIndex + 1;
      if pos < |logEntries| {
        logEntries := logEntries[..pos];
      }
    }

    method TruncateLogBefore(index: int)
      modifies this`logEntries, this`firstIndex
      ensures Contents() == StoreTruncateBefore(old(Contents()), index)
    {
      if index <= firstIndex {
        return;
      }
      var pos := index - firstIndex;
      if pos >= |logEntries| {
        logEntries, firstIndex := [], index;
        return;
      }
      logEntries, firstIndex := logEntries[pos..], index;
    }
  }
}
