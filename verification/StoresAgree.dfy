/** The two log stores give the same answers. Both are compared with the plain map from index to entry. */
module StoresAgree {
  import opened Types
  import opened LogSpec
  import opened StoreSpec
  import opened Memory
  import opened LogKeys
  import opened BadgerLog

  /** The offset slice as a map. */
  function MapOf(s: Store): LogMap {
    map i | s.first <= i < s.first + |s.entries| && StoreGet(s, i).Some? :: StoreGet(s, i).value
  }

  /** Every entry carries the index of its position, and the indices are non-negative int64. */
  ghost predicate GapFree(s: Store) {
    && 0 <= s.first
    && s.first + |s.entries| <= TWO_63
    && forall k :: 0 <= k < |s.entries| ==> s.entries[k].index == s.first + k
  }

  datatype Op = Append(entries: seq<Entry>) | CutAfter(index: int) | CutBefore(index: int) | Snapshot(index: int, term: int)

  /** The entry lands between the first index and the one after the last. */
  predicate InPlace(s: Store, e: Entry) {
    s.first <= e.index <= s.first + |s.entries| && IsInt64(e.index)
  }

  /** The operations on which the stores agree: every entry of a batch lands in place, a cut at the end is not
      below -1, and a snapshot has a positive index. */
  ghost predicate Allowed(s: Store, op: Op) {
    match op
    case Append(es) => forall k :: 0 <= k < |es| ==> InPlace(StoreAppendAll(s, es[..k]), es[k])
    case CutAfter(i) => -1 <= i && IsInt64(i)
    case CutBefore(i) => IsInt64(i)
    case Snapshot(i, t) => i > 0
  }

  function OnStore(s: Store, op: Op): Store {
    match op
    case Append(es) => StoreAppendAll(s, es)
    case CutAfter(i) => StoreTruncateAfter(s, i)
    case CutBefore(i) => StoreTruncateBefore(s, i)
    case Snapshot(_, _) => s
  }

  ghost function OnMap(m: LogMap, op: Op): LogMap {
    match op
    case Append(es) => PutAll(m, es)
    case CutAfter(i) => CutBack(m, i)
    case CutBefore(i) => CutFront(m, i)
    case Snapshot(_, _) => m
  }

  /** Each allowed operation on the slice is the operation of the same name on the map. */
  lemma OpRefines(s: Store, op: Op)
    requires GapFree(s) && Allowed(s, op)
    ensures GapFree(OnStore(s, op))
    ensures MapOf(OnStore(s, op)) == OnMap(MapOf(s), op)
  {
    match op
    case Append(es) => AppendAllRefines(s, es);
    case CutAfter(i) =>
      CutsOfIndices(MapOf(s), i);
      CutAfterRefines(s, i);
    case CutBefore(i) =>
      CutsOfIndices(MapOf(s), i);
      CutBeforeRefines(s, i);
    case Snapshot(_, _) =>
  }

  lemma CutAfterRefines(s: Store, i: int)
    requires GapFree(s)
    ensures GapFree(StoreTruncateAfter(s, i))
    ensures MapOf(StoreTruncateAfter(s, i)) == KeepUpTo(MapOf(s), i)
  {
    var s' := StoreTruncateAfter(s, i);
    forall k
      ensures StoreGet(s', k) == if k <= i then StoreGet(s, k) else None
    {
      TruncationReads(s, i, k);
    }
    SameReads(MapOf(s'), KeepUpTo(MapOf(s), i));
  }

  lemma CutBeforeRefines(s: Store, i: int)
    requires GapFree(s) && i <= TWO_63
    ensures GapFree(StoreTruncateBefore(s, i))
    ensures MapOf(StoreTruncateBefore(s, i)) == KeepFrom(MapOf(s), i)
  {
    var s' := StoreTruncateBefore(s, i);
    forall k
      ensures StoreGet(s', k) == if k >= i then StoreGet(s, k) else None
    {
      TruncationReads(s, i, k);
    }
    SameReads(MapOf(s'), KeepFrom(MapOf(s), i));
  }

  lemma SameReads<K, V>(a: map<K, V>, b: map<K, V>)
    requires forall k :: k in a <==> k in b
    requires forall k :: k in a && k in b ==> a[k] == b[k]
    ensures a == b
  {
    assert a.Keys == b.Keys;
  }

  lemma {:induction false} AppendAllRefines(s: Store, es: seq<Entry>)
    requires GapFree(s) && Allowed(s, Append(es))
    ensures GapFree(StoreAppendAll(s, es))
    ensures MapOf(StoreAppendAll(s, es)) == PutAll(MapOf(s), es)
  {
    if |es| > 0 {
      var before, e := es[..|es| - 1], es[|es| - 1];
      forall k | 0 <= k < |before|
        ensures InPlace(StoreAppendAll(s, before[..k]), before[k])
      {
        assert before[..k] == es[..k];
      }
      AppendAllRefines(s, before);
      AppendRefines(StoreAppendAll(s, before), e);
    }
  }

  lemma AppendRefines(s: Store, e: Entry)
    requires GapFree(s) && InPlace(s, e)
    ensures GapFree(StoreAppend(s, e))
    ensures MapOf(StoreAppend(s, e)) == MapOf(s)[ToUint64(e.index) := e]
  {
    var pos := e.index - s.first;
    if pos == |s.entries| {
      assert StoreAppend(s, e).entries == s.entries + [e];
    }
    var m := MapOf(StoreAppend(s, e));
    assert m.Keys == MapOf(s)[e.index := e].Keys;
  }

  /** A range read of the slice is the range of the map, for every start and end. */
  lemma {:induction false} RangeRefines(s: Store, start: int, end: int)
    ensures StoreRange(s, start, end) == RangeOf(MapOf(s), start, end)
    decreases end - start
  {
    if start < end {
      RangeRefines(s, start, end - 1);
      RangeGrows(s, start, end);
      var m := MapOf(s);
      assert end - 1 in m <==> StoreGet(s, end - 1).Some?;
      assert end - 1 in m ==> m[end - 1] == StoreGet(s, end - 1).value;
    }
  }

  lemma RangeGrows(s: Store, start: int, end: int)
    requires start < end
    ensures StoreRange(s, start, end) ==
            StoreRange(s, start, end - 1) + (match StoreGet(s, end - 1) case None => [] case Some(e) => [e])
  {
    var lo := if start < s.first then s.first else start;
    if s.first <= end - 1 < s.first + |s.entries| && lo <= end - 1 {
      var k := end - 1 - s.first;
      assert s.entries[lo - s.first..k + 1] == s.entries[lo - s.first..k] + [s.entries[k]];
    }
  }

  /** The last entry of the slice has the largest index of the map. */
  lemma LastRefines(s: Store, e: Entry, snapshot: (int, int))
    requires GapFree(s) && IsLast(MapOf(s), Some(e))
    ensures StoreLast(s, snapshot) == (e.index, e.term)
  {
    var m := MapOf(s);
    var i :| i in m && m[i] == e && forall j :: j in m ==> j <= i;
    assert s.first + |s.entries| - 1 in m;
  }

  // --------------------------------------------------------------- both stores

  /** The two stores hold the same gap-free log and the same snapshot. */
  ghost predicate Same(mem: MemoryStorage, bad: BadgerStorage)
    reads mem, bad
  {
    && SameLog(mem, bad)
    && bad.Snapshot() == mem.Snapshot()
    && (mem.snapshotIndex > 0 || mem.Snapshot() == (0, 0))
  }

  ghost predicate SameLog(mem: MemoryStorage, bad: BadgerStorage)
    reads mem, bad
  {
    bad.Valid() && GapFree(mem.Contents()) && bad.contents == MapOf(mem.Contents())
  }

  /** The operations allowed one after the other. */
  ghost predicate AllAllowed(s: Store, ops: seq<Op>)
    decreases |ops|
  {
    |ops| == 0 || (Allowed(s, ops[0]) && AllAllowed(OnStore(s, ops[0]), ops[1..]))
  }

  /** Whatever allowed sequence of operations both stores go through, they hold the same log afterwards. */
  method RunBoth(mem: MemoryStorage, bad: BadgerStorage, ops: seq<Op>)
    requires Same(mem, bad)
    requires AllAllowed(mem.Contents(), ops)
    modifies mem, bad
    ensures Same(mem, bad)
  {
    var k := 0;
    while k < |ops|
      invariant 0 <= k <= |ops|
      invariant Same(mem, bad)
      invariant AllAllowed(mem.Contents(), ops[k..])
    {
      assert ops[k..][1..] == ops[k + 1..];
      Both(mem, bad, ops[k]);
      k := k + 1;
    }
  }

  /** One operation on both. */
  method Both(mem: MemoryStorage, bad: BadgerStorage, op: Op)
    requires Same(mem, bad)
    requires Allowed(mem.Contents(), op)
    modifies mem, bad
    ensures mem.Contents() == OnStore(old(mem.Contents()), op)
    ensures Same(mem, bad)
  {
    hide StoreAppendAll, PutAll, Represents;
    OpRefines(mem.Contents(), op);
    match op
    case Append(es) =>
      AllInt64(mem.Contents(), es);
      mem.AppendLogEntries(es);
      bad.AppendLogEntries(es);
    case CutAfter(i) =>
      mem.TruncateLogAfter(i);
      bad.TruncateLogAfter(i);
    case CutBefore(i) =>
      mem.TruncateLogBefore(i);
      bad.TruncateLogBefore(i);
    case Snapshot(i, t) =>
      mem.SaveSnapshot(i, t);
      bad.SaveSnapshot(i, t, []);
  }

  lemma AllInt64(s: Store, es: seq<Entry>)
    requires Allowed(s, Append(es))
    ensures forall k :: 0 <= k < |es| ==> IsInt64(es[k].index)
  {
    forall k | 0 <= k < |es|
      ensures IsInt64(es[k].index)
    {
      assert InPlace(StoreAppendAll(s, es[..k]), es[k]);
    }
  }

  datatype Reads = Reads(entry: Option<Entry>, range: seq<Entry>, lastIndex: int, lastTerm: int)

  /** A caller's range on which the stores agree: it does not start below zero, or there is nothing in it. */
  predicate RangesAgree(s: Store, start: int, end: int) {
    0 <= start || start >= end || |s.entries| == 0 || end <= s.first
  }

  /** Then they answer every read alike: the same entry at every index, the same last index and term, and the
      same range exactly if it does not start below zero or has nothing in it. */
  method ReadBoth(mem: MemoryStorage, bad: BadgerStorage, index: int, start: int, end: int)
    returns (fromMemory: Reads, fromBadger: Reads)
    requires Same(mem, bad)
    requires IsInt64(index) && IsInt64(start) && IsInt64(end)
    ensures fromMemory.entry == fromBadger.entry == StoreGet(mem.Contents(), index)
    ensures (fromMemory.lastIndex, fromMemory.lastTerm) == (fromBadger.lastIndex, fromBadger.lastTerm)
    ensures fromMemory.range == StoreRange(mem.Contents(), start, end)
    ensures fromMemory.range == fromBadger.range <==> RangesAgree(mem.Contents(), start, end)
  {
    hide Represents;
    var entry := mem.GetLogEntry(index);
    var lastIndex, lastTerm := mem.GetLastLogIndexAndTerm();
    var range := mem.GetLogEntries(start, end);
    fromMemory := Reads(entry, range, lastIndex, lastTerm);
    entry := bad.GetLogEntry(index);
    range := bad.GetLogEntries(start, end);
    lastIndex, lastTerm := LastFromBadger(mem, bad);
    fromBadger := Reads(entry, range, lastIndex, lastTerm);
    if start < end {
      ScansAgree(mem.Contents(), start, end);
    }
  }

  method LastFromBadger(ghost mem: MemoryStorage, bad: BadgerStorage) returns (index: int, term: int)
    requires Same(mem, bad)
    ensures (index, term) == StoreLast(mem.Contents(), mem.Snapshot())
  {
    index, term := bad.GetLastLogIndexAndTerm();
    ghost var s := mem.Contents();
    if |s.entries| == 0 {
      assert bad.contents == map[];
    } else {
      assert s.first in bad.contents;
      ghost var e :| IsLast(bad.contents, Some(e)) && (index, term) == (e.index, e.term);
      LastRefines(s, e, mem.Snapshot());
    }
  }

  /** The scan returns the same range as the slice exactly if it does not start below zero or has nothing to
      return. */
  lemma ScansAgree(s: Store, start: int, end: int)
    requires GapFree(s) && IsInt64(start) && start < end
    ensures StoreRange(s, start, end) == ScanOf(MapOf(s), start, end) <==> RangesAgree(s, start, end)
  {
    ScanOfIndices(MapOf(s), start, end);
    RangeRefines(s, start, end);
  }

  // -------------------------------------------------- where the stores part ways

  /** Appending one entry to both, wherever it lands: they still hold the same log exactly if it lands in
      place. Below the first index, one store skips it and the other one keeps it; beyond the last one, one
      fills the gap and the other one does not. */
  method AppendToBoth(mem: MemoryStorage, bad: BadgerStorage, e: Entry)
    requires SameLog(mem, bad) && IsInt64(e.index)
    modifies mem, bad
    ensures bad.Valid() && mem.Contents() == StoreAppend(old(mem.Contents()), e)
    ensures bad.contents == MapOf(mem.Contents()) <==> InPlace(old(mem.Contents()), e)
  {
    AppendsAgree(mem.Contents(), e);
    assert [e][..0] == [];
    assert StoreAppendAll(mem.Contents(), [e]) == StoreAppend(mem.Contents(), e);
    assert PutAll(bad.contents, [e]) == bad.contents[ToUint64(e.index) := e];
    mem.AppendLogEntries([e]);
    bad.AppendLogEntries([e]);
  }

  lemma AppendsAgree(s: Store, e: Entry)
    requires GapFree(s) && IsInt64(e.index)
    ensures MapOf(StoreAppend(s, e)) == MapOf(s)[ToUint64(e.index) := e] <==> InPlace(s, e)
  {
    if InPlace(s, e) {
      AppendRefines(s, e);
    } else {
      var both := MapOf(s)[ToUint64(e.index) := e];
      if e.index < s.first {
        assert ToUint64(e.index) in both && ToUint64(e.index) !in MapOf(StoreAppend(s, e));
      } else {
        var gap := s.first + |s.entries|;
        assert gap in MapOf(StoreAppend(s, e)) && gap !in both;
      }
    }
  }

  /** Cutting both after any index: they still hold the same log exactly if the index is at least -1 or the log
      was empty. Below -1, one store drops everything and the other one nothing. */
  method CutBoth(mem: MemoryStorage, bad: BadgerStorage, index: int)
    requires SameLog(mem, bad) && IsInt64(index)
    modifies mem, bad
    ensures bad.Valid() && mem.Contents() == StoreTruncateAfter(old(mem.Contents()), index)
    ensures bad.contents == MapOf(mem.Contents()) <==> index >= -1 || |old(mem.logEntries)| == 0
  {
    CutsAgree(mem.Contents(), index);
    mem.TruncateLogAfter(index);
    bad.TruncateLogAfter(index);
  }

  lemma CutsAgree(s: Store, index: int)
    requires GapFree(s) && IsInt64(index)
    ensures MapOf(StoreTruncateAfter(s, index)) == CutBack(MapOf(s), index) <==> index >= -1 || |s.entries| == 0
  {
    CutsOfIndices(MapOf(s), index);
    CutAfterRefines(s, index);
    if index < -1 && |s.entries| > 0 {
      assert s.first in MapOf(s) && s.first !in KeepUpTo(MapOf(s), index);
    }
  }

  /** Two stores with one entry at index 1 each: read from -1, one returns it and the other one does not. */
  method NegativeStartDiffers() returns (fromMemory: seq<Entry>, fromBadger: seq<Entry>)
    ensures fromMemory == [Entry(1, 1, [])] && fromBadger == []
  {
    var mem, bad := OneEntryEach();
    fromMemory := mem.GetLogEntries(-1, 2);
    fromBadger := bad.GetLogEntries(-1, 2);
    ScanOfIndices(MapOf(mem.Contents()), -1, 2);
  }

  /** The same two stores, cut after -2: one still has the entry. */
  method NegativeCutDiffers() returns (fromMemory: Option<Entry>, fromBadger: Option<Entry>)
    ensures fromMemory == None && fromBadger == Some(Entry(1, 1, []))
  {
    var mem, bad := OneEntryEach();
    CutsOfIndices(bad.contents, -2);
    mem.TruncateLogAfter(-2);
    bad.TruncateLogAfter(-2);
    fromMemory := mem.GetLogEntry(1);
    fromBadger := bad.GetLogEntry(1);
  }

  method OneEntryEach() returns (mem: MemoryStorage, bad: BadgerStorage)
    ensures fresh(mem) && fresh(bad)
    ensures SameLog(mem, bad) && mem.Contents() == Store(1, [Entry(1, 1, [])])
  {
    mem := new MemoryStorage();
    bad := new BadgerStorage();
    assert MapOf(mem.Contents()) == map[];
    var e := Entry(1, 1, []);
    AppendRefines(mem.Contents(), e);
    assert [] + seq(0, _ => BLANK_ENTRY) + [e] == [e];
    AppendToBoth(mem, bad, e);
  }
}
