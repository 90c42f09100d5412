/** internal/storage/badger.go: the log half of BadgerStorage, as scans over a map sorted by byte keys. The
    database below is an ordered iterator over a map; JSON encoding of the values is left out. */
module BadgerLog {
  import opened Types
  import opened LogKeys

  /** What a key holds: a log entry, the index and term of the snapshot, or something else. */
  datatype Value = LogValue(entry: Entry) | SnapshotMeta(index: int, term: int) | OtherValue(bytes: Bytes)

  type Database = map<Key, Value>

  const SNAPSHOT_META: Key := [115, 110, 97, 112, 58, 109, 101, 116, 97] // "snap:meta"
  const SNAPSHOT_DATA: Key := [115, 110, 97, 112, 58, 100, 97, 116, 97] // "snap:data"

  // ------------------------------------------------------- the log as a map

  /** Entries by slot, that is, by their index as uint64. */
  type LogMap = map<int, Entry>

  predicate IsIndex(i: int) {
    0 <= i < TWO_63
  }

  /** The entries of m with slot in [start, end), in order of slot. */
  function RangeOf(m: LogMap, start: int, end: int): seq<Entry>
    decreases end - start
  {
    if start >= end then []
    else RangeOf(m, start, end - 1) + (if end - 1 in m then [m[end - 1]] else [])
  }

  function KeepUpTo(m: LogMap, last: int): LogMap {
    map i | i in m && i <= last :: m[i]
  }

  function KeepFrom(m: LogMap, first: int): LogMap {
    map i | i in m && i >= first :: m[i]
  }

  /** The entry with the largest slot is e; or there is none. */
  ghost predicate IsLast(m: LogMap, e: Option<Entry>) {
    match e
    case None => m == map[]
    case Some(e) => exists i :: i in m && m[i] == e && forall j :: j in m ==> j <= i
  }

  /** Only entries with a non-negative index are stored. */
  ghost predicate NoneNegative(m: LogMap) {
    forall i :: i in m ==> IsIndex(i)
  }

  /** Some entry with a non-negative index, at least i, is stored. */
  ghost predicate Beyond(m: LogMap, i: int) {
    exists u :: u in m && i <= u && IsIndex(u)
  }

  /** What GetLogEntries returns for start < end, whatever is stored: the scan goes in slot order, in which
      negative indices follow all others, and stops at the first index not below the end. */
  ghost function ScanOf(m: LogMap, start: int, end: int): seq<Entry> {
    if start < 0 then RangeOf(m, ToUint64(start), if end < 0 then ToUint64(end) else TWO_64)
    else if Beyond(m, end) then RangeOf(m, start, end)
    else RangeOf(m, start, TWO_64)
  }

  /** What TruncateLogBefore leaves, whatever is stored. */
  ghost function CutFront(m: LogMap, index: int): LogMap {
    if Beyond(m, index) then (if index < 0 then m else KeepFrom(m, index))
    else if index < 0 then KeepFrom(m, ToUint64(index))
    else map[]
  }

  /** What TruncateLogAfter leaves, whatever is stored. */
  function CutBack(m: LogMap, index: int): LogMap {
    KeepUpTo(m, if index < -1 then ToUint64(index) else index)
  }

  /** With non-negative indices only, the scan returns exactly [start, end) for a non-negative start and
      nothing for a negative one, ... */
  lemma ScanOfIndices(m: LogMap, start: int, end: int)
    requires NoneNegative(m) && IsInt64(start) && start < end
    ensures start >= 0 ==> ScanOf(m, start, end) == RangeOf(m, start, end)
    ensures start < 0 ==> ScanOf(m, start, end) == []
  {
    if start < 0 {
      RangeEmpty(m, ToUint64(start), if end < 0 then ToUint64(end) else TWO_64);
    } else if !Beyond(m, end) {
      if end <= TWO_64 {
        RangeSplit(m, start, end, TWO_64);
        RangeEmpty(m, end, TWO_64);
      } else {
        RangeSplit(m, start, TWO_64, end);
        RangeEmpty(m, TWO_64, end);
      }
    }
  }

  /** ... the one truncation keeps exactly the indices from the given one on, and the other one exactly those
      up to it, unless it is below -1. */
  lemma CutsOfIndices(m: LogMap, index: int)
    requires NoneNegative(m) && IsInt64(index)
    ensures CutFront(m, index) == KeepFrom(m, index)
    ensures index >= -1 ==> CutBack(m, index) == KeepUpTo(m, index)
    ensures index < -1 ==> CutBack(m, index) == m
  {
    if Beyond(m, index) {
      assert index < 0 ==> KeepFrom(m, index) == m;
    } else {
      NoneBeyond(m, index);
      assert forall i :: i in m ==> 0 <= i < index;
    }
  }

  lemma NoneBeyond(m: LogMap, index: int)
    requires NoneNegative(m) && !Beyond(m, index)
    ensures KeepFrom(m, index) == map[]
    ensures forall i :: i in m ==> i < index
  {
    forall i | i in m
      ensures i < index
    {
      assert IsIndex(i);
    }
  }

  lemma {:induction false} RangeSplit(m: LogMap, a: int, b: int, c: int)
    requires a <= b <= c
    ensures RangeOf(m, a, c) == RangeOf(m, a, b) + RangeOf(m, b, c)
    decreases c - b
  {
    if b < c {
      RangeSplit(m, a, b, c - 1);
    }
  }

  lemma {:induction false} RangeEmpty(m: LogMap, a: int, b: int)
    requires forall i :: a <= i < b ==> i !in m
    ensures RangeOf(m, a, b) == []
    decreases b - a
  {
    if a < b {
      RangeEmpty(m, a, b - 1);
    }
  }

  /** Ranges with the same stored slots are the same. */
  lemma RangeSameEnd(m: LogMap, a: int, b: int, c: int)
    requires a <= b && a <= c
    requires forall i :: i in m && a <= i ==> (i < b <==> i < c)
    ensures RangeOf(m, a, b) == RangeOf(m, a, c)
  {
    var lo, hi := if b <= c then b else c, if b <= c then c else b;
    RangeSplit(m, a, lo, hi);
    RangeEmpty(m, lo, hi);
  }

  /** The log keys of db are exactly those of m, with m's entries under them. */
  ghost predicate Represents(db: Database, m: LogMap) {
    && (forall i :: i in m ==> IsSlot(i) && SlotKey(i) in db && db[SlotKey(i)] == LogValue(m[i]))
    && (forall k :: k in db && HasPrefix(k) ==> IsKeyOf(k, m))
  }

  ghost predicate IsKeyOf(k: Key, m: LogMap) {
    |k| == 12 && KeySlot(k) in m && IsSlot(KeySlot(k)) && SlotKey(KeySlot(k)) == k
  }

  ghost predicate Sorted(keys: seq<Key>) {
    forall i, j :: 0 <= i < j < |keys| ==> Less(keys[i], keys[j])
  }

  // -------------------------------------------------------- ordered iteration

  /** The position of the first key not before `key`: where Seek puts a forward iterator. */
  method Seek(keys: seq<Key>, key: Key) returns (p: nat)
    requires Sorted(keys)
    ensures p <= |keys|
    ensures forall q :: 0 <= q < p ==> Less(keys[q], key)
    ensures forall q :: p <= q < |keys| ==> !Less(keys[q], key)
  {
    p := 0;
    while p < |keys| && Less(keys[p], key)
      invariant p <= |keys|
      invariant forall q :: 0 <= q < p ==> Less(keys[q], key)
    {
      p := p + 1;
    }
    forall q | p <= q < |keys|
      ensures !Less(keys[q], key)
    {
      if q > p {
        LessTotal(keys[q], key);
        LessTotal(keys[p], key);
        if Less(keys[q], key) {
          LessTransitive(keys[p], keys[q], key);
        }
      }
    }
  }

  method Insert(keys: seq<Key>, key: Key) returns (result: seq<Key>)
    requires Sorted(keys) && key !in keys
    ensures Sorted(result)
    ensures forall k :: k in result <==> k in keys || k == key
  {
    var p := Seek(keys, key);
    result := keys[..p] + [key] + keys[p..];
    forall i, j | 0 <= i < j < |result|
      ensures Less(result[i], result[j])
    {
      if i < p && j == p {
      } else if i == p && j > p {
        assert result[j] == keys[j - 1];
        LessTotal(keys[j - 1], key);
      } else if i < p < j {
        assert result[i] == keys[i] && result[j] == keys[j - 1];
      } else if j < p {
        assert result[i] == keys[i] && result[j] == keys[j];
      } else {
        assert result[i] == keys[i - 1] && result[j] == keys[j - 1];
      }
    }
    forall k
      ensures k in result <==> k in keys || k == key
    {
      assert keys == keys[..p] + keys[p..];
    }
  }

  /** All keys of the database, in byte order. */
  method OrderedKeys(db: Database) returns (keys: seq<Key>)
    ensures Sorted(keys)
    ensures forall k :: k in keys <==> k in db
  {
    keys := [];
    var rest := db.Keys;
    while rest != {}
      invariant rest <= db.Keys
      invariant Sorted(keys)
      invariant forall k :: k in keys <==> k in db && k !in rest
      decreases rest
    {
      var k := Pick(rest);
      rest := rest - {k};
      keys := Insert(keys, k);
    }
  }

  class BadgerStorage {
    var db: Database
    ghost var contents: LogMap

    ghost predicate Valid()
      reads this
    {
      Represents(db, contents)
    }

    /** Index and term of the snapshot, zeros when there is none. */
    function Snapshot(): (int, int)
      reads this
    {
      if SNAPSHOT_META in db && db[SNAPSHOT_META].SnapshotMeta? then (db[SNAPSHOT_META].index, db[SNAPSHOT_META].term)
      else (0, 0)
    }

    constructor ()
      ensures Valid() && contents == map[] && Snapshot() == (0, 0)
    {
      db, contents := map[], map[];
    }

    method AppendLogEntries(entries: seq<Entry>)
      requires Valid()
      requires forall i :: 0 <= i < |entries| ==> IsInt64(entries[i].index)
      modifies this
      ensures Valid() && Snapshot() == old(Snapshot())
      ensures contents == PutAll(old(contents), entries)
    {
      var k := 0;
      while k < |entries|
        invariant 0 <= k <= |entries|
        invariant Valid() && Snapshot() == old(Snapshot())
        invariant contents == PutAll(old(contents), entries[..k])
      {
        var e := entries[k];
        assert entries[..k + 1][..k] == entries[..k];
        PutKeepsRepresentation(db, contents, ToUint64(e.index), e);
        SlotInverse(ToUint64(e.index));
        db := db[MakeLogKey(e.index) := LogValue(e)];
        contents := contents[ToUint64(e.index) := e];
        k := k + 1;
      }
      assert entries[..k] == entries;
    }

    method SaveSnapshot(index: int, term: int, data: Bytes)
      requires Valid()
      modifies this`db
      ensures Valid() && Snapshot() == (index, term)
    {
      assert SNAPSHOT_META[0] != PREFIX[0] && SNAPSHOT_DATA[0] != PREFIX[0] && SNAPSHOT_META[5] != SNAPSHOT_DATA[5];
      db := db[SNAPSHOT_META := SnapshotMeta(index, term)];
      db := db[SNAPSHOT_DATA := OtherValue(data)];
    }

    method GetLogEntry(index: int) returns (entry: Option<Entry>)
      requires Valid()
      requires IsInt64(index)
      ensures entry == if ToUint64(index) in contents then Some(contents[ToUint64(index)]) else None
    {
      SlotInverse(ToUint64(index));
      var key := MakeLogKey(index);
      if key in db {
        return match db[key] case LogValue(e) => Some(e) case _ => None;
      }
      return None;
    }

    /** Seeks to the first key and scans until the index reaches the end. */
    method GetLogEntries(startIndex: int, endIndex: int) returns (entries: seq<Entry>)
      requires Valid()
      requires IsInt64(startIndex) && IsInt64(endIndex)
      ensures startIndex >= endIndex ==> entries == []
      ensures startIndex < endIndex ==> entries == ScanOf(contents, startIndex, endIndex)
      ensures startIndex < endIndex ==>
                exists stop :: && StopsAt(contents, ToUint64(startIndex), stop, endIndex)
                               && entries == RangeOf(contents, ToUint64(startIndex), stop)
    {
      hide RangeOf, SlotKey, FromBigEndian, Less, SplitsAt, ScanOf;
      if startIndex >= endIndex {
        return [];
      }
      entries := [];
      var keys := OrderedKeys(db);
      var startKey := MakeLogKey(startIndex);
      var p := Seek(keys, startKey);
      ghost var start := ToUint64(startIndex);
      ghost var first, lo := p, start;
      SlotInverse(start);
      LogKeysAreLong(db, contents, keys);
      SeekPosition(db, contents, keys, p, start);
      RangeEmpty(contents, start, start);
      while p < |keys| && HasPrefix(keys[p]) && ParseLogKey(keys[p]) < endIndex
        invariant first <= p <= |keys|
        invariant start <= lo <= TWO_64
        invariant entries == RangeOf(contents, start, lo) && SplitsAt(contents, keys, p, lo)
        invariant AllBelow(contents, start, lo, endIndex)
      {
        ScanOne(db, contents, keys, p, start, lo, endIndex);
        entries := entries + [db[keys[p]].entry];
        lo := KeySlot(keys[p]) + 1;
        p := p + 1;
      }
      ghost var stop := ScanStop(db, contents, keys, p, lo, endIndex, startKey);
      RangeSameEnd(contents, start, lo, stop);
      ScanIs(contents, startIndex, endIndex, stop);
    }

    /** The reverse seek for the last entry. */
    method GetLastLogEntry() returns (entry: Option<Entry>)
      requires Valid()
      ensures IsLast(contents, entry)
    {
      var keys := OrderedKeys(db);
      var seekKey := PREFIX + [255, 255, 255, 255, 255, 255, 255, 255];
      SeekKeyIsLargest();
      var p: nat := |keys|;
      while p > 0 && Less(seekKey, keys[p - 1])
        invariant p <= |keys|
        invariant forall q :: p <= q < |keys| ==> Less(seekKey, keys[q])
      {
        p := p - 1;
      }
      LastPosition(db, contents, keys, p, seekKey);
      if p > 0 && HasPrefix(keys[p - 1]) {
        assert KeySlot(keys[p - 1]) in contents;
        return Some(db[keys[p - 1]].entry);
      }
      return None;
    }

    /** Without log entries, index and term are those of the snapshot. */
    method GetLastLogIndexAndTerm() returns (index: int, term: int)
      requires Valid()
      ensures contents == map[] ==> (index, term) == Snapshot()
      ensures contents != map[] ==> exists e :: IsLast(contents, Some(e)) && (index, term) == (e.index, e.term)
    {
      var last := GetLastLogEntry();
      match last
      case Some(e) => return e.index, e.term;
      case None =>
        if SNAPSHOT_META in db && db[SNAPSHOT_META].SnapshotMeta? {
          return db[SNAPSHOT_META].index, db[SNAPSHOT_META].term;
        }
        return 0, 0;
    }

    /** Deletes the keys from that of index + 1 on. */
    method TruncateLogAfter(index: int)
      requires Valid()
      requires IsInt64(index)
      modifies this
      ensures Valid() && Snapshot() == old(Snapshot())
      ensures contents == CutBack(old(contents), index)
      ensures forall u :: u in contents <==> u in old(contents) && u < ToUint64(Successor(index))
    {
      var keys := OrderedKeys(db);
      var startKey := MakeLogKey(Successor(index));
      var p := Seek(keys, startKey);
      var keysToDelete := [];
      ghost var first := p;
      while p < |keys| && HasPrefix(keys[p])
        invariant first <= p <= |keys|
        invariant keysToDelete == keys[first..p]
        invariant forall q :: first <= q < p ==> HasPrefix(keys[q])
      {
        keysToDelete := keysToDelete + [keys[p]];
        p := p + 1;
      }
      ghost var kept := CutBack(contents, index);
      forall i | i in contents
        ensures i in kept <==> SlotKey(i) !in keysToDelete
      {
        AfterDoomed(db, contents, keys, first, p, ToUint64(Successor(index)), i);
        SliceHolds(keys, first, p, SlotKey(i));
      }
      DeleteAll(keysToDelete, kept);
    }

    /** The loop that deletes the collected keys. */
    method DeleteAll(keysToDelete: seq<Key>, ghost kept: LogMap)
      requires Valid()
      requires forall k :: k in keysToDelete ==> HasPrefix(k)
      requires forall i :: i in kept <==> i in contents && SlotKey(i) !in keysToDelete
      requires forall i :: i in kept ==> kept[i] == contents[i]
      modifies this
      ensures Valid() && contents == kept && Snapshot() == old(Snapshot())
    {
      var j := 0;
      while j < |keysToDelete|
        invariant 0 <= j <= |keysToDelete|
        invariant contents == old(contents)
        invariant db == old(db) - set k | k in keysToDelete[..j]
      {
        assert keysToDelete[..j + 1] == keysToDelete[..j] + [keysToDelete[j]];
        db := db - {keysToDelete[j]};
        j := j + 1;
      }
      assert keysToDelete[..j] == keysToDelete;
      DeleteKeepsRepresentation(old(db), contents, kept, set k | k in keysToDelete);
      contents := kept;
    }

    /** Deletes the keys from the first one on until the index reaches the given one. */
    method TruncateLogBefore(index: int)
      requires Valid()
      requires IsInt64(index)
      modifies this
      ensures Valid() && Snapshot() == old(Snapshot())
      ensures contents == CutFront(old(contents), index)
      ensures exists stop :: StopsAt(old(contents), 0, stop, index) && contents == KeepFrom(old(contents), stop)
    {
      hide RangeOf, SlotKey, FromBigEndian, Less, SplitsAt, CutFront, Represents;
      SlotsOnly(db, contents);
      var keys := OrderedKeys(db);
      var p := Seek(keys, PREFIX);
      var keysToDelete := [];
      ghost var first, lo := p, 0;
      LogKeysAreLong(db, contents, keys);
      PrefixPosition(db, contents, keys, p);
      while p < |keys| && HasPrefix(keys[p]) && ParseLogKey(keys[p]) < index
        invariant db == old(db) && contents == old(contents)
        invariant first <= p <= |keys|
        invariant keysToDelete == keys[first..p]
        invariant 0 <= lo <= TWO_64
        invariant SplitsAt(contents, keys, p, lo) && AllBelow(contents, 0, lo, index)
        invariant forall q :: first <= q < p ==> HasPrefix(keys[q])
      {
        ScanOne(db, contents, keys, p, 0, lo, index);
        lo := KeySlot(keys[p]) + 1;
        keysToDelete := keysToDelete + [keys[p]];
        p := p + 1;
      }
      ghost var stop := ScanStop(db, contents, keys, p, lo, index, PREFIX);
      ghost var kept := KeepFrom(contents, stop);
      CutFrontIs(contents, index, stop);
      forall i | i in contents
        ensures i in kept <==> SlotKey(i) !in keysToDelete
      {
        BeforeDoomed(db, contents, keys, first, p, lo, i);
        SliceHolds(keys, first, p, SlotKey(i));
      }
      DeleteAll(keysToDelete, kept);
    }
  }

  // ---------------------------------------------------------------- where scans stop

  /** Every stored slot in [start, lo) has an index below the end. */
  ghost predicate AllBelow(m: LogMap, start: int, lo: int, end: int) {
    forall u :: u in m && start <= u < lo ==> ToInt64(u) < end
  }

  /** A scan that began at `start` has passed everything below `stop`, and `stop` ends it: it holds an index
      not below the end, or is the end of all slots. */
  ghost predicate StopsAt(m: LogMap, start: int, stop: int, end: int) {
    && start <= stop <= TWO_64
    && AllBelow(m, start, stop, end)
    && (stop == TWO_64 || (stop in m && ToInt64(stop) >= end))
  }

  /** One turn of the scan. */
  lemma ScanOne(db: Database, m: LogMap, keys: seq<Key>, p: nat, start: int, lo: int, end: int)
    requires Represents(db, m) && AllKeys(db, keys)
    requires p < |keys| && HasPrefix(keys[p]) && |keys[p]| == 12 && ParseLogKey(keys[p]) < end
    requires SplitsAt(m, keys, p, lo) && start <= lo <= TWO_64 && AllBelow(m, start, lo, end)
    ensures var slot := KeySlot(keys[p]);
            && lo <= slot < TWO_64 && keys[p] in db && db[keys[p]].LogValue?
            && SplitsAt(m, keys, p + 1, slot + 1) && AllBelow(m, start, slot + 1, end)
            && RangeOf(m, start, slot + 1) == RangeOf(m, start, lo) + [db[keys[p]].entry]
  {
    hide RangeOf, SlotKey, FromBigEndian, Less;
    var slot := KeySlot(keys[p]);
    AdvanceOne(db, m, keys, p, lo);
    RangeSplit(m, start, lo, slot + 1);
    NoneBetween(db, m, keys, p, lo, slot);
  }

  lemma NoneBetween(db: Database, m: LogMap, keys: seq<Key>, p: nat, lo: int, slot: int)
    requires Represents(db, m) && AllKeys(db, keys)
    requires p < |keys| && SplitsAt(m, keys, p, lo) && SplitsAt(m, keys, p + 1, slot + 1)
    requires HasPrefix(keys[p]) && |keys[p]| == 12 && KeySlot(keys[p]) == slot
    ensures forall u :: u in m && lo <= u < slot + 1 ==> u == slot
  {
    forall u | u in m && lo <= u < slot + 1
      ensures u == slot
    {
      var q := Find(db, m, keys, u);
    }
  }

  lemma ScanIs(m: LogMap, start: int, end: int, stop: int)
    requires IsInt64(start) && IsInt64(end) && start < end
    requires forall u :: u in m ==> IsSlot(u)
    requires StopsAt(m, ToUint64(start), stop, end)
    ensures RangeOf(m, ToUint64(start), stop) == ScanOf(m, start, end)
  {
    if start < 0 {
      RangeSameEnd(m, ToUint64(start), stop, if end < 0 then ToUint64(end) else TWO_64);
    } else if Beyond(m, end) {
      RangeSameEnd(m, start, stop, end);
    } else {
      assert stop == TWO_64;
    }
  }

  lemma CutFrontIs(m: LogMap, index: int, stop: int)
    requires IsInt64(index)
    requires forall u :: u in m ==> IsSlot(u)
    requires StopsAt(m, 0, stop, index)
    ensures KeepFrom(m, stop) == CutFront(m, index)
  {
    if Beyond(m, index) {
      var u :| u in m && index <= u && IsIndex(u);
      assert forall i :: i in m ==> (i >= stop <==> index < 0 || i >= index);
    } else if index < 0 {
      assert forall i :: i in m ==> (i >= stop <==> i >= ToUint64(index));
    } else {
      assert stop == TWO_64;
    }
  }

  lemma SliceHolds(keys: seq<Key>, a: nat, b: nat, k: Key)
    requires a <= b <= |keys|
    ensures k in keys[a..b] <==> exists q :: a <= q < b && keys[q] == k
  {
    if k in keys[a..b] {
      var r :| 0 <= r < b - a && keys[a..b][r] == k;
      assert keys[a + r] == k;
    }
    forall q | a <= q < b && keys[q] == k
      ensures k in keys[a..b]
    {
      assert keys[a..b][q - a] == k;
    }
  }

  lemma SlotsOnly(db: Database, m: LogMap)
    requires Represents(db, m)
    ensures forall u :: u in m ==> IsSlot(u)
  {
  }

  lemma LogKeysAreLong(db: Database, m: LogMap, keys: seq<Key>)
    requires Represents(db, m) && AllKeys(db, keys)
    ensures forall q :: 0 <= q < |keys| && HasPrefix(keys[q]) ==> |keys[q]| == 12
  {
    forall q | 0 <= q < |keys| && HasPrefix(keys[q])
      ensures |keys[q]| == 12
    {
      assert keys[q] in keys && IsKeyOf(keys[q], m);
    }
  }

  function PutAll(m: LogMap, es: seq<Entry>): LogMap {
    if |es| == 0 then m else PutAll(m, es[..|es| - 1])[ToUint64(es[|es| - 1].index) := es[|es| - 1]]
  }

  lemma PutKeepsRepresentation(db: Database, m: LogMap, slot: int, e: Entry)
    requires Represents(db, m)
    requires IsSlot(slot)
    ensures Represents(db[SlotKey(slot) := LogValue(e)], m[slot := e])
  {
    var db' := db[SlotKey(slot) := LogValue(e)];
    var m' := m[slot := e];
    SlotInverse(slot);
    forall i | i in m'
      ensures IsSlot(i) && SlotKey(i) in db' && db'[SlotKey(i)] == LogValue(m'[i])
    {
      SlotInverse(i);
    }
  }

  /** Deleting the keys of exactly the dropped slots. */
  lemma DeleteKeepsRepresentation(db: Database, m: LogMap, kept: LogMap, doomed: set<Key>)
    requires Represents(db, m)
    requires forall i :: i in kept <==> i in m && SlotKey(i) !in doomed
    requires forall i :: i in kept ==> kept[i] == m[i]
    requires forall k :: k in doomed ==> HasPrefix(k)
    ensures Represents(db - doomed, kept)
  {
    forall k | k in db - doomed && HasPrefix(k)
      ensures IsKeyOf(k, kept)
    {
      assert IsKeyOf(k, m);
    }
  }

  /** The stored log keys before position p have slots below lo, those from p on have slot lo or more. */
  ghost predicate SplitsAt(m: LogMap, keys: seq<Key>, p: nat, lo: int)
    requires p <= |keys|
  {
    && (forall q :: 0 <= q < p && HasPrefix(keys[q]) ==> IsKeyOf(keys[q], m) && KeySlot(keys[q]) < lo)
    && (forall q :: p <= q < |keys| && HasPrefix(keys[q]) ==> IsKeyOf(keys[q], m) && KeySlot(keys[q]) >= lo)
  }

  ghost predicate AllKeys(db: Database, keys: seq<Key>) {
    Sorted(keys) && forall k :: k in keys <==> k in db
  }

  /** Where the key of a stored slot stands. */
  lemma Find(db: Database, m: LogMap, keys: seq<Key>, i: int) returns (q: nat)
    requires Represents(db, m) && AllKeys(db, keys)
    requires i in m
    ensures q < |keys| && keys[q] == SlotKey(i) && HasPrefix(keys[q]) && |keys[q]| == 12 && KeySlot(keys[q]) == i
  {
    SlotInverse(i);
    assert SlotKey(i) in keys;
    q :| 0 <= q < |keys| && keys[q] == SlotKey(i);
  }

  lemma SeekPosition(db: Database, m: LogMap, keys: seq<Key>, p: nat, start: int)
    requires Represents(db, m) && AllKeys(db, keys)
    requires IsSlot(start) && p <= |keys|
    requires forall q :: 0 <= q < p ==> Less(keys[q], SlotKey(start))
    requires forall q :: p <= q < |keys| ==> !Less(keys[q], SlotKey(start))
    ensures SplitsAt(m, keys, p, start)
  {
    forall q | 0 <= q < |keys| && HasPrefix(keys[q])
      ensures IsKeyOf(keys[q], m)
      ensures q < p <==> KeySlot(keys[q]) < start
    {
      assert keys[q] in db;
      assert IsKeyOf(keys[q], m);
      SlotOrder(KeySlot(keys[q]), start);
    }
  }

  lemma PrefixPosition(db: Database, m: LogMap, keys: seq<Key>, p: nat)
    requires Represents(db, m) && AllKeys(db, keys) && p <= |keys|
    requires forall q :: 0 <= q < p ==> Less(keys[q], PREFIX)
    ensures SplitsAt(m, keys, p, 0)
  {
    forall q | 0 <= q < |keys| && HasPrefix(keys[q])
      ensures q >= p && IsKeyOf(keys[q], m)
    {
      NotBeforePrefix(keys[q]);
      assert keys[q] in db;
    }
  }

  /** The key at the scan position is the next stored slot at or after lo. */
  lemma AdvanceOne(db: Database, m: LogMap, keys: seq<Key>, p: nat, lo: int)
    requires Represents(db, m) && AllKeys(db, keys)
    requires p < |keys| && HasPrefix(keys[p])
    requires SplitsAt(m, keys, p, lo)
    ensures IsKeyOf(keys[p], m) && keys[p] in db && db[keys[p]] == LogValue(m[KeySlot(keys[p])])
    ensures lo <= KeySlot(keys[p])
    ensures RangeOf(m, lo, KeySlot(keys[p]) + 1) == [m[KeySlot(keys[p])]]
    ensures SplitsAt(m, keys, p + 1, KeySlot(keys[p]) + 1)
  {
    assert keys[p] in keys;
    var idx := KeySlot(keys[p]);
    forall q | 0 <= q < |keys| && HasPrefix(keys[q])
      ensures q <= p <==> KeySlot(keys[q]) <= idx
    {
      assert keys[q] in keys && IsKeyOf(keys[q], m);
      SlotOrder(KeySlot(keys[q]), idx);
      SlotOrder(idx, KeySlot(keys[q]));
      if q < p {
        assert Less(keys[q], keys[p]);
      } else if p < q {
        assert Less(keys[p], keys[q]);
      }
    }
    forall i | lo <= i < idx
      ensures i !in m
    {
      if i in m {
        var q := Find(db, m, keys, i);
        assert false;
      }
    }
    RangeEmpty(m, lo, idx);
  }

  /** Between a key with the log prefix and a later one there are only such keys. */
  lemma PrefixBetween(keys: seq<Key>, low: Key, p: nat, q: nat)
    requires Sorted(keys) && HasPrefix(low)
    requires p < q < |keys| && HasPrefix(keys[q])
    requires !Less(keys[p], low)
    ensures HasPrefix(keys[p])
  {
    LessTotal(keys[p], low);
    if keys[p] != low {
      PrefixConvex(low, keys[p], keys[q]);
    }
  }

  /** Stored slots in key order are in numeric order. */
  lemma PositionsAscend(db: Database, m: LogMap, keys: seq<Key>, p: nat, q: nat)
    requires Represents(db, m) && AllKeys(db, keys)
    requires p < q < |keys| && HasPrefix(keys[p]) && HasPrefix(keys[q])
    ensures IsKeyOf(keys[p], m) && IsKeyOf(keys[q], m)
    ensures KeySlot(keys[p]) < KeySlot(keys[q])
  {
    assert keys[p] in keys && keys[q] in keys;
    assert IsKeyOf(keys[p], m) && IsKeyOf(keys[q], m);
    SlotOrder(KeySlot(keys[p]), KeySlot(keys[q]));
  }

  /** The scan stops at the next stored slot, if there is one. */
  lemma ScanStop(db: Database, m: LogMap, keys: seq<Key>, p: nat, lo: int, end: int, low: Key) returns (stop: int)
    requires Represents(db, m) && AllKeys(db, keys)
    requires p <= |keys| && HasPrefix(low) && 0 <= lo <= TWO_64
    requires SplitsAt(m, keys, p, lo)
    requires p < |keys| ==> !Less(keys[p], low)
    requires p < |keys| && HasPrefix(keys[p]) ==> |keys[p]| == 12 && ToInt64(KeySlot(keys[p])) >= end
    ensures lo <= stop <= TWO_64
    ensures forall u :: u in m && lo <= u ==> stop <= u
    ensures stop == TWO_64 || (stop in m && ToInt64(stop) >= end)
  {
    if p < |keys| && HasPrefix(keys[p]) {
      stop := KeySlot(keys[p]);
      assert IsKeyOf(keys[p], m);
    } else {
      stop := TWO_64;
    }
    forall u | u in m && lo <= u
      ensures stop <= u
    {
      var q := Find(db, m, keys, u);
      if p < q {
        PrefixBetween(keys, low, p, q);
        PositionsAscend(db, m, keys, p, q);
      }
    }
  }

  /** index + 1 in int64 arithmetic, which wraps around. */
  function Successor(index: int): (next: int)
    requires IsInt64(index)
    ensures IsInt64(next)
  {
    if index == TWO_63 - 1 then -TWO_63 else index + 1
  }

  /** The scan of TruncateLogAfter meets exactly the keys of the slots from the given one on. */
  lemma AfterDoomed(db: Database, m: LogMap, keys: seq<Key>, first: nat, p: nat, next: int, i: int)
    requires Represents(db, m) && AllKeys(db, keys)
    requires IsSlot(next) && first <= p <= |keys|
    requires forall q :: 0 <= q < first ==> Less(keys[q], SlotKey(next))
    requires forall q :: first <= q < |keys| ==> !Less(keys[q], SlotKey(next))
    requires forall q :: first <= q < p ==> HasPrefix(keys[q])
    requires p < |keys| ==> !HasPrefix(keys[p])
    requires i in m
    ensures (exists q :: first <= q < p && keys[q] == SlotKey(i)) <==> i >= next
  {
    var q := Find(db, m, keys, i);
    SlotInverse(next);
    SeekPosition(db, m, keys, first, next);
    if first <= q && p < q {
      PrefixBetween(keys, SlotKey(next), p, q);
    }
    forall r | 0 <= r < |keys| && keys[r] == keys[q]
      ensures r == q
    {
      Distinct(keys, r, q);
    }
  }

  lemma Distinct(keys: seq<Key>, p: nat, q: nat)
    requires Sorted(keys)
    requires p < |keys| && q < |keys| && keys[p] == keys[q]
    ensures p == q
  {
    LessTotal(keys[p], keys[q]);
  }

  /** The scan of TruncateLogBefore has met exactly the keys of the slots below its position. */
  lemma BeforeDoomed(db: Database, m: LogMap, keys: seq<Key>, first: nat, p: nat, lo: int, i: int)
    requires Represents(db, m) && AllKeys(db, keys)
    requires first <= p <= |keys|
    requires forall q :: 0 <= q < first ==> Less(keys[q], PREFIX)
    requires SplitsAt(m, keys, p, lo)
    requires i in m
    ensures (exists q :: first <= q < p && keys[q] == SlotKey(i)) <==> i < lo
  {
    var q := Find(db, m, keys, i);
    NotBeforePrefix(keys[q]);
    forall r | 0 <= r < |keys| && keys[r] == keys[q]
      ensures r == q
    {
      Distinct(keys, r, q);
    }
  }

  lemma NotBeforePrefix(k: Key)
    requires HasPrefix(k)
    ensures !Less(k, PREFIX)
  {
    assert k == PREFIX + k[4..];
    LessSamePrefix(PREFIX, k[4..], []);
    assert PREFIX + [] == PREFIX;
  }

  /** Eight bytes 0xFF after the prefix make the key of the largest slot. */
  lemma SeekKeyIsLargest()
    ensures PREFIX + [255, 255, 255, 255, 255, 255, 255, 255] == SlotKey(TWO_64 - 1)
  {
    var s: Key := [255, 255, 255, 255, 255, 255, 255, 255];
    EightBytes();
    FromBigEndianBound(s);
    LargestValue(s);
  }

  lemma {:induction false} LargestValue(s: Key)
    requires forall i :: 0 <= i < |s| ==> s[i] == 255
    ensures FromBigEndian(s) == Pow256(|s|) - 1
  {
    if |s| > 0 {
      LargestValue(s[..|s| - 1]);
    }
  }

  /** Where the reverse scan stops: at the last stored log key, if there is one. */
  lemma LastPosition(db: Database, m: LogMap, keys: seq<Key>, p: nat, seekKey: Key)
    requires Represents(db, m) && AllKeys(db, keys)
    requires p <= |keys| && seekKey == SlotKey(TWO_64 - 1)
    requires forall q :: p <= q < |keys| ==> Less(seekKey, keys[q])
    requires p > 0 ==> !Less(seekKey, keys[p - 1])
    ensures p > 0 && HasPrefix(keys[p - 1]) ==>
              && IsKeyOf(keys[p - 1], m) && keys[p - 1] in db
              && db[keys[p - 1]] == LogValue(m[KeySlot(keys[p - 1])])
              && forall i :: i in m ==> i <= KeySlot(keys[p - 1])
    ensures !(p > 0 && HasPrefix(keys[p - 1])) ==> m == map[]
  {
    SlotInverse(TWO_64 - 1);
    if p > 0 && HasPrefix(keys[p - 1]) {
      assert keys[p - 1] in keys;
    }
    forall i | i in m
      ensures p > 0 && HasPrefix(keys[p - 1]) && i <= KeySlot(keys[p - 1])
    {
      var q := Find(db, m, keys, i);
      SlotOrder(i, TWO_64 - 1);
      LessTotal(keys[q], seekKey);
      assert q < p;
      if q < p - 1 {
        LastHasPrefix(keys, q, p - 1, seekKey);
        PositionsAscend(db, m, keys, q, p - 1);
      }
    }
  }

  lemma LastHasPrefix(keys: seq<Key>, q: nat, last: nat, seekKey: Key)
    requires Sorted(keys) && q < last < |keys|
    requires HasPrefix(keys[q]) && HasPrefix(seekKey) && !Less(seekKey, keys[last])
    ensures HasPrefix(keys[last])
  {
    LessTotal(keys[last], seekKey);
    if keys[last] != seekKey {
      PrefixConvex(keys[q], keys[last], seekKey);
    }
  }
}
