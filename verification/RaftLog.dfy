/** internal/raft/log.go: the log with its write-through cache. */
module CachedLog {
  import opened Types
  import opened LogSpec
  import opened StoreSpec
  import opened Memory

  /** Every entry carries the index of its position, unless it fills a gap. */
  ghost predicate Indexed(log: Log) {
    forall i :: 0 <= i < |log| ==> log[i].index == i + 1 || log[i].index < 1
  }

  /** What a boot reads from storage as the last index is the number of entries, and they start at index 1. */
  ghost predicate Restorable(s: MemoryStorage)
    reads s
  {
    && s.firstIndex == 1
    && Indexed(s.logEntries)
    && StoreLast(s.Contents(), s.Snapshot()).0 == |s.logEntries|
  }

  /** Every cached index inside the log agrees with what is stored. */
  ghost predicate CacheAgrees(cache: map<int, Entry>, log: Log) {
    forall k :: k in cache ==> k <= |log| && (1 <= k ==> cache[k] == log[k - 1])
  }

  /** The cache after an entry was put into it: it has it and all it had, unless that is too much; then every index
      below the smallest one plus half the capacity is gone. */
  ghost predicate CachedAfter(before: map<int, Entry>, after: map<int, Entry>, entry: Entry, size: int) {
    var full := before[entry.index := entry];
    if |full| <= size then after == full
    else exists least :: least in full && (forall k :: k in full ==> least <= k) && KeptFrom(full, after, least + size / 2)
  }

  /** Exactly the indices from the threshold on are kept, with their entries. */
  ghost predicate KeptFrom(full: map<int, Entry>, after: map<int, Entry>, threshold: int) {
    && (forall k :: k in after <==> k in full && k >= threshold)
    && (forall k :: k in after ==> after[k] == full[k])
  }

  class RaftLog {
    const storage: MemoryStorage
    var lastIndex: int
    var cache: map<int, Entry>
    const cacheSize: int

    ghost predicate Valid()
      reads this, storage
    {
      && storage.firstIndex == 1
      && lastIndex == |storage.logEntries|
      && Indexed(storage.logEntries)
      && cacheSize >= 2
      && |cache| <= cacheSize
      && CacheAgrees(cache, storage.logEntries)
    }

    /** The log as a plain sequence. */
    ghost function Entries(): Log
      reads this, storage
    {
      storage.logEntries
    }

    /** Boots over any storage; the log is sound exactly over a restorable one. */
    constructor (s: MemoryStorage)
      ensures storage == s && cacheSize == 1000 && cache == map[]
      ensures lastIndex == StoreLast(s.Contents(), s.Snapshot()).0
      ensures Valid() <==> Restorable(s)
    {
      storage := s;
      cache := map[];
      cacheSize := 1000;
      var index, _ := s.GetLastLogIndexAndTerm();
      lastIndex := index;
    }

    /** Puts the entry under the index it carries and, when the cache overflows, drops every index below the
        smallest cached index plus half the capacity. */
    method CacheEntry(entry: Entry)
      requires cacheSize >= 2 && |cache| <= cacheSize
      modifies this`cache
      ensures |cache| <= cacheSize
      ensures CachedAfter(old(cache), cache, entry, cacheSize)
      ensures forall k :: k in cache ==> if k == entry.index then cache[k] == entry else k in old(cache) && cache[k] == old(cache)[k]
    {
      ghost var before := cache;
      cache := cache[entry.index := entry];
      assert cache.Keys == before.Keys + {entry.index};
      if |cache| > cacheSize {
        ghost var full := cache;
        var minIndex := entry.index;
        var keys := cache.Keys;
        while keys != {}
          invariant cache == full && keys <= cache.Keys
          invariant minIndex in cache
          invariant forall k :: k in cache && k !in keys ==> minIndex <= k
          decreases keys
        {
          var idx := Pick(keys);
          if idx < minIndex {
            minIndex := idx;
          }
          keys := keys - {idx};
        }
        Evict(minIndex + cacheSize / 2);
        assert minIndex in full && minIndex !in cache;
        assert forall k :: k in cache.Keys ==> k in full.Keys - {minIndex};
        SubsetSize(cache.Keys, full.Keys - {minIndex});
      }
    }

    method Evict(threshold: int)
      modifies this`cache
      ensures KeptFrom(old(cache), cache, threshold)
    {
      var keys := cache.Keys;
      while keys != {}
        invariant keys <= old(cache).Keys
        invariant forall k :: k in cache ==> k in old(cache) && cache[k] == old(cache)[k]
        invariant forall k :: k in old(cache) ==> (k in cache <==> k in keys || k >= threshold)
        decreases keys
      {
        var idx := Pick(keys);
        if idx < threshold {
          cache := cache - {idx};
        }
        keys := keys - {idx};
      }
    }

    /** Reading may fill the cache; it never changes what is stored. */
    method GetEntry(index: int) returns (entry: Option<Entry>)
      requires Valid()
      modifies this`cache
      ensures Valid()
      ensures entry == EntryAt(Entries(), index)
      ensures entry.None? || index in old(cache) ==> cache == old(cache)
      ensures entry.Some? && index !in old(cache) ==> CachedAfter(old(cache), cache, entry.value, cacheSize)
    {
      if index < 1 || index > lastIndex {
        return None;
      }
      if index in cache {
        return Some(cache[index]);
      }
      entry := storage.GetLogEntry(index);
      CacheEntry(entry.value);
    }

    method GetTerm(index: int) returns (term: int)
      requires Valid()
      modifies this`cache
      ensures Valid()
      ensures term == TermAt(Entries(), index)
    {
      if index == 0 {
        return 0;
      }
      var entry := GetEntry(index);
      return match entry case None => 0 case Some(e) => e.term;
    }

    method LastTerm() returns (term: int)
      requires Valid()
      modifies this`cache
      ensures Valid()
      ensures term == LogSpec.LastTerm(Entries())
    {
      if lastIndex == 0 {
        return 0;
      }
      term := GetTerm(lastIndex);
    }

    method GetEntries(start: int, end: int) returns (entries: seq<Entry>)
      requires Valid()
      ensures entries == Range(Entries(), start, end)
    {
      if start >= end || start < 1 {
        return [];
      }
      var stop := if end > lastIndex + 1 then lastIndex + 1 else end;
      entries := storage.GetLogEntries(start, stop);
    }

    method Append(entry: Entry)
      requires Valid()
      modifies this`lastIndex, this`cache, storage`logEntries, storage`journal
      ensures Valid()
      ensures Entries() == Put(old(Entries()), entry) && CachedAfter(old(cache), cache, entry, cacheSize)
      ensures storage.journal == old(storage.journal) + [AppendEntry(entry)]
    {
      ghost var before := storage.Contents();
      storage.AppendLogEntries([entry]);
      assert [entry][..0] == [];
      assert StoreAppendAll(before, [entry][..0]) == before;
      StoreIsLog(before.entries, entry, 0, 1, 1);
      if entry.index > lastIndex {
        lastIndex := entry.index;
      }
      CacheEntry(entry);
    }

    /** Below zero the code empties the log but moves lastIndex below zero: it leaves a sound log exactly when
        the index is not negative. */
    method TruncateAfter(index: int)
      requires Valid()
      modifies this`lastIndex, this`cache, storage`logEntries, storage`journal
      ensures Valid() <==> 0 <= index
      ensures lastIndex == if index >= old(lastIndex) then old(lastIndex) else index
      ensures Entries() == Truncated(old(Entries()), index)
      ensures forall k :: k in cache <==> k in old(cache) && (k <= index || index >= old(lastIndex))
      ensures storage.journal == old(storage.journal) + if index >= old(lastIndex) then [] else [Write.TruncateAfter(index)]
    {
      if index >= lastIndex {
        return;
      }
      StoreIsLog(storage.logEntries, BLANK_ENTRY, index, 1, 1);
      storage.TruncateLogAfter(index);
      lastIndex := index;
      DropAfter(index);
    }

    method DropAfter(index: int)
      modifies this`cache
      ensures |cache| <= |old(cache)|
      ensures forall k :: k in cache <==> k in old(cache) && k <= index
      ensures forall k :: k in cache ==> cache[k] == old(cache)[k]
    {
      var keys := cache.Keys;
      while keys != {}
        invariant keys <= old(cache).Keys
        invariant forall k :: k in cache ==> k in old(cache) && cache[k] == old(cache)[k]
        invariant forall k :: k in old(cache) ==> (k in cache <==> k in keys || k <= index)
        invariant |cache| <= |old(cache)|
        decreases keys
      {
        var idx := Pick(keys);
        if idx > index && idx in cache {
          assert (cache - {idx}).Keys == cache.Keys - {idx};
          cache := cache - {idx};
        }
        keys := keys - {idx};
      }
    }

    method FindFirstIndexOfTerm(term: int) returns (index: int)
      requires Valid()
      modifies this`cache
      ensures Valid()
      ensures index == FirstIndexOfTerm(Entries(), term)
    {
      var i := 1;
      while i <= lastIndex
        invariant 1 <= i <= lastIndex + 1
        invariant Valid()
        invariant FirstIndexOfTermFrom(Entries(), term, i - 1) == FirstIndexOfTerm(Entries(), term)
      {
        var entry := GetEntry(i);
        if entry.Some? && entry.value.term == term {
          return i;
        }
        i := i + 1;
      }
      return 1;
    }
  }
}
