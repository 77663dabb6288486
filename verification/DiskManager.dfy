/** The shared dataset cache on local disk: listing, LRU eviction, stale temporary directories. */
module DiskManager {
  import opened Models
  import opened Sorting
  import opened PathEncoding

  /** File contents by path inside a directory. */
  type Files = map<string, string>

  datatype Directory = Directory(files: Files, mtime: Time)

  /** The directories right under the cache directory, by name. */
  type Cache = map<string, Directory>

  datatype CacheEntry = CacheEntry(name: string, sizeBytes: nat, mtime: Time)

  // ---- sizes --------------------------------------------------------------------------------

  ghost function Size(files: Files): nat {
    if files == map[] then 0
    else
      var path :| path in files;
      |files[path]| + Size(files - {path})
  }

  /** The size does not depend on the order in which files are visited. */
  lemma {:induction false} SizeWithout(files: Files, path: string)
    requires path in files
    ensures Size(files) == |files[path]| + Size(files - {path})
    decreases files
  {
    var first :| path in files && first in files && Size(files) == |files[first]| + Size(files - {first});
    if first != path {
      var rest := files - {first};
      assert rest - {path} == (files - {path}) - {first};
      SizeWithout(rest, path);
      SizeWithout(files - {path}, first);
    }
  }

  method DirectorySizeBytes(files: Files) returns (total: nat)
    ensures total == Size(files)
  {
    total := 0;
    var todo := files;
    while todo != map[]
      invariant todo.Keys <= files.Keys && forall p :: p in todo ==> todo[p] == files[p]
      invariant total + Size(todo) == Size(files)
      decreases |todo|
    {
      var path :| path in todo;
      SizeWithout(todo, path);
      total := total + |todo[path]|;
      todo := todo - {path};
    }
  }

  // ---- listing ------------------------------------------------------------------------------

  ghost function EntryOf(cache: Cache, name: string): CacheEntry
    requires name in cache
  {
    CacheEntry(name, Size(cache[name].files), cache[name].mtime)
  }

  /** The entries are the finished directories of the cache, each once, in whatever order. */
  ghost predicate Lists(cache: Cache, entries: seq<CacheEntry>) {
    && (forall e :: e in entries ==> e.name in cache && !IsTmp(e.name) && e == EntryOf(cache, e.name))
    && (forall name :: name in cache && !IsTmp(name) ==> EntryOf(cache, name) in entries)
    && (forall i, j :: 0 <= i < j < |entries| ==> entries[i].name != entries[j].name)
  }

  method ListCacheEntries(cache: Cache) returns (entries: seq<CacheEntry>)
    ensures Lists(cache, entries)
  {
    entries := [];
    var todo := cache.Keys;
    while todo != {}
      invariant todo <= cache.Keys
      invariant forall e :: e in entries ==>
        e.name in cache && e.name !in todo && !IsTmp(e.name) && e == EntryOf(cache, e.name)
      invariant forall name :: name in cache && name !in todo && !IsTmp(name) ==> EntryOf(cache, name) in entries
      invariant forall i, j :: 0 <= i < j < |entries| ==> entries[i].name != entries[j].name
      decreases |todo|
    {
      var name :| name in todo;
      todo := todo - {name};
      if IsTmp(name) {
        continue;
      }
      var size := DirectorySizeBytes(cache[name].files);
      ghost var before := entries;
      entries := entries + [CacheEntry(name, size, cache[name].mtime)];
      assert forall i :: 0 <= i < |before| ==> before[i] in before;
    }
  }

  // ---- eviction -----------------------------------------------------------------------------

  function ByMtime(entry: CacheEntry): int {
    entry.mtime
  }

  function Total(entries: seq<CacheEntry>): nat {
    if entries == [] then 0 else entries[0].sizeBytes + Total(entries[1..])
  }

  ghost function Names(entries: seq<CacheEntry>): set<string> {
    set e | e in entries :: e.name
  }

  /** A listing in least-recently-used order. */
  ghost predicate LruOrder(cache: Cache, order: seq<CacheEntry>) {
    Lists(cache, order) && Ascending(order, ByMtime)
  }

  /** k is the least number of entries whose removal from the front brings the total to at most the cap. */
  ghost predicate ShortestPrefix(order: seq<CacheEntry>, cap: int, k: nat) {
    && k <= |order|
    && (k < |order| ==> Total(order[k..]) <= cap)
    && (forall j :: 0 <= j < k ==> Total(order[j..]) > cap)
  }

  ghost predicate Evicted(before: Cache, after: Cache, cap: int, order: seq<CacheEntry>, k: nat) {
    LruOrder(before, order) && ShortestPrefix(order, cap, k) && after == before - Names(order[..k])
  }

  class Disk {
    var cache: Cache

    constructor ()
      ensures cache == map[]
    {
      cache := map[];
    }

    method RemoveTree(name: string)
      modifies this
      ensures cache == old(cache) - {name}
    {
      cache := cache - {name};
    }

    method EvictLruUntilUnderCap(maxBytes: int) returns (removed: seq<string>, ghost order: seq<CacheEntry>)
      modifies this
      ensures |removed| <= |order| && Evicted(old(cache), cache, maxBytes, order, |removed|)
      ensures forall i :: 0 <= i < |removed| ==> removed[i] == order[i].name
    {
      hide Lists, Ascending, Names, Total, StableSort, LruOrder;
      var listed := ListCacheEntries(cache);
      var entries := StableSort(listed, ByMtime);
      SortedLru(cache, listed);
      order := entries;
      var total := Total(entries);
      removed := [];
      NothingEvicted(entries);
      for k := 0 to |entries|
        invariant |removed| == k
        invariant total == Total(entries[k..])
        invariant forall i :: 0 <= i < k ==> removed[i] == entries[i].name
        invariant forall j :: 0 <= j < k ==> Total(entries[j..]) > maxBytes
        invariant cache == old(cache) - Names(entries[..k])
      {
        if total <= maxBytes {
          return;
        }
        NextToEvict(entries, k);
        RemoveTree(entries[k].name);
        total := total - entries[k].sizeBytes;
        removed := removed + [entries[k].name];
      }
    }

    /** Removes exactly the temporary directories older than the threshold: fresh ones and finished entries stay. */
    method CleanupStaleTmpDirs(olderThan: int, now: Time) returns (removed: seq<string>)
      modifies this
      ensures cache == map name | name in old(cache) && !StaleTmp(old(cache), name, olderThan, now) :: old(cache)[name]
      ensures forall name :: name in removed <==>
        name in old(cache) && |name| >= 4 && name[|name| - 4..] == ".tmp" && now - old(cache)[name].mtime > olderThan
      ensures forall name :: name in cache <==> name in old(cache) && name !in removed
    {
      removed := [];
      var before := cache;
      var todo := cache.Keys;
      while todo != {}
        invariant todo <= before.Keys
        invariant cache == map name | name in before && (name in todo || !StaleTmp(before, name, olderThan, now)) ::
          before[name]
        invariant forall name :: name in removed <==>
          name in before && name !in todo && StaleTmp(before, name, olderThan, now)
        decreases |todo|
      {
        var name :| name in todo;
        todo := todo - {name};
        if IsTmp(name) && now - before[name].mtime > olderThan {
          RemoveTree(name);
          removed := removed + [name];
        }
      }
    }
  }

  predicate StaleTmp(cache: Cache, name: string, olderThan: int, now: Time)
    requires name in cache
  {
    IsTmp(name) && now - cache[name].mtime > olderThan
  }

  lemma NothingEvicted(entries: seq<CacheEntry>)
    ensures Names(entries[..0]) == {} && entries[0..] == entries
  {
  }

  lemma NextToEvict(entries: seq<CacheEntry>, k: nat)
    requires k < |entries|
    ensures Names(entries[..k + 1]) == Names(entries[..k]) + {entries[k].name}
    ensures Total(entries[k..]) == entries[k].sizeBytes + Total(entries[k + 1..])
  {
  }

  lemma SortedLru(cache: Cache, listed: seq<CacheEntry>)
    requires Lists(cache, listed)
    ensures LruOrder(cache, StableSort(listed, ByMtime))
  {
    SortIsStable(listed, ByMtime, 0);
    SortedLists(cache, listed);
  }

  /** Sorting a listing gives a listing. */
  lemma SortedLists(cache: Cache, listed: seq<CacheEntry>)
    requires Lists(cache, listed)
    ensures Lists(cache, StableSort(listed, ByMtime))
  {
    var sorted := StableSort(listed, ByMtime);
    assert forall e :: e in sorted <==> e in multiset(sorted);
    assert forall e :: e in listed <==> e in multiset(listed);
    forall i, j | 0 <= i < j < |sorted|
      ensures sorted[i].name != sorted[j].name
    {
      if sorted[i].name == sorted[j].name {
        assert sorted[i] == EntryOf(cache, sorted[i].name) == sorted[j];
        Twice(sorted, i, j);
        OnlyOnce(listed, sorted[i]);
        assert false;
      }
    }
  }

  lemma Twice(s: seq<CacheEntry>, i: nat, j: nat)
    requires i < j < |s| && s[i] == s[j]
    ensures multiset(s)[s[i]] >= 2
  {
    assert s == s[..j] + [s[j]] + s[j + 1..];
    assert s[i] in s[..j];
  }

  lemma {:induction false} OnlyOnce(s: seq<CacheEntry>, e: CacheEntry)
    requires forall i, j :: 0 <= i < j < |s| ==> s[i].name != s[j].name
    ensures multiset(s)[e] <= 1
  {
    if s != [] {
      var init, last := s[..|s| - 1], s[|s| - 1];
      assert s == init + [last];
      OnlyOnce(init, e);
      if last == e {
        assert e !in init;
      }
    }
  }

  // ---- what eviction guarantees -------------------------------------------------------------

  lemma {:induction false} TotalFalls(entries: seq<CacheEntry>, i: nat, j: nat)
    requires i <= j <= |entries|
    ensures Total(entries[j..]) <= Total(entries[i..])
    decreases j - i
  {
    if i < j {
      TotalFalls(entries, i + 1, j);
      assert entries[i..][1..] == entries[i + 1..];
    }
  }

  /** The number removed is determined by the order and the cap. */
  lemma PrefixIsUnique(order: seq<CacheEntry>, cap: int, k1: nat, k2: nat)
    requires ShortestPrefix(order, cap, k1) && ShortestPrefix(order, cap, k2)
    ensures k1 == k2
  {
  }

  /** Least recently used first: the remaining total is at most the cap, one removal fewer would exceed it,
      nothing kept is older than anything removed. */
  lemma EvictionIsLru(before: Cache, after: Cache, cap: nat, order: seq<CacheEntry>, k: nat)
    requires Evicted(before, after, cap, order, k)
    ensures Total(order[k..]) <= cap
    ensures k > 0 ==> Total(order[k - 1..]) > cap
    ensures forall i :: 0 <= i < |order| ==> (order[i].name in after <==> k <= i)
    ensures forall kept, gone :: kept in after && !IsTmp(kept) && gone in before && gone !in after ==>
      before[gone].mtime <= before[kept].mtime
    ensures forall name :: name in before && IsTmp(name) ==> name in after && after[name] == before[name]
  {
  }

  /** An entry survives exactly when it and everything used no earlier in the order fit the cap together. */
  lemma SurvivesIff(before: Cache, after: Cache, cap: nat, order: seq<CacheEntry>, k: nat, i: nat)
    requires Evicted(before, after, cap, order, k) && i < |order|
    ensures order[i].name in after <==> Total(order[i..]) <= cap
    ensures order[i].name in after ==> after[order[i].name] == before[order[i].name]
  {
    EvictionIsLru(before, after, cap, order, k);
    if k <= i {
      TotalFalls(order, k, i);
    }
  }

  /** In particular the most recently used entry survives exactly when it fits alone. */
  lemma LastSurvivesIff(before: Cache, after: Cache, cap: nat, order: seq<CacheEntry>, k: nat)
    requires Evicted(before, after, cap, order, k) && order != []
    ensures order[|order| - 1].name in after <==> order[|order| - 1].sizeBytes <= cap
  {
    var last := |order| - 1;
    SurvivesIff(before, after, cap, order, k, last);
    assert order[last..] == [order[last]];
    assert Total([order[last]]) == order[last].sizeBytes;
  }

  // ---- the size of the cache ----------------------------------------------------------------

  /** The finished directories together, in whatever order they are visited. */
  ghost function CacheSize(cache: Cache): nat {
    if cache == map[] then 0
    else
      var name :| name in cache;
      CacheSize(cache - {name}) + if IsTmp(name) then 0 else Size(cache[name].files)
  }

  lemma {:induction false} CacheSizeWithout(cache: Cache, name: string)
    requires name in cache
    ensures CacheSize(cache) == CacheSize(cache - {name}) + if IsTmp(name) then 0 else Size(cache[name].files)
    decreases cache
  {
    hide IsTmp, Size;
    var first :| name in cache && first in cache && CacheSize(cache) ==
      CacheSize(cache - {first}) + if IsTmp(first) then 0 else Size(cache[first].files);
    if first != name {
      assert cache - {first} - {name} == cache - {name} - {first};
      CacheSizeWithout(cache - {first}, name);
      CacheSizeWithout(cache - {name}, first);
    }
  }

  lemma {:induction false} OnlyTmp(cache: Cache)
    requires forall name :: name in cache ==> IsTmp(name)
    ensures CacheSize(cache) == 0
    decreases cache
  {
    hide IsTmp;
    if cache != map[] {
      var name :| name in cache;
      CacheSizeWithout(cache, name);
      OnlyTmp(cache - {name});
    }
  }

  /** The total of a listing is the size of the cache. */
  lemma {:induction false} TotalIsCacheSize(cache: Cache, entries: seq<CacheEntry>)
    requires Lists(cache, entries)
    ensures Total(entries) == CacheSize(cache)
    decreases |entries|
  {
    hide IsTmp, Size, CacheSize;
    if entries == [] {
      OnlyTmp(cache);
    } else {
      var first := entries[0];
      assert first in entries;
      CacheSizeWithout(cache, first.name);
      RestIsListed(cache, entries);
      TotalIsCacheSize(cache - {first.name}, entries[1..]);
    }
  }

  lemma RestIsListed(cache: Cache, entries: seq<CacheEntry>)
    requires Lists(cache, entries) && entries != []
    ensures Lists(cache - {entries[0].name}, entries[1..])
  {
    hide IsTmp, Size;
    var smaller, rest := cache - {entries[0].name}, entries[1..];
    InRest(entries);
    assert forall name :: name in smaller ==> EntryOf(smaller, name) == EntryOf(cache, name);
    forall name | name in smaller && !IsTmp(name)
      ensures EntryOf(smaller, name) in rest
    {
      assert EntryOf(cache, name) in entries;
    }
  }

  lemma InRest(entries: seq<CacheEntry>)
    requires entries != [] && forall i, j :: 0 <= i < j < |entries| ==> entries[i].name != entries[j].name
    ensures forall e :: e in entries[1..] <==> e in entries && e.name != entries[0].name
  {
    assert entries == [entries[0]] + entries[1..];
    forall e | e in entries[1..]
      ensures e.name != entries[0].name
    {
      var k :| 0 <= k < |entries[1..]| && entries[1..][k] == e;
      assert entries[k + 1] == e;
    }
  }

  lemma {:induction false} SuffixIsListed(cache: Cache, entries: seq<CacheEntry>, k: nat)
    requires Lists(cache, entries) && k <= |entries|
    ensures Lists(cache - Names(entries[..k]), entries[k..])
    decreases k
  {
    hide Lists, Names;
    if k == 0 {
      NothingEvicted(entries);
      assert cache - {} == cache;
    } else {
      SuffixIsListed(cache, entries, k - 1);
      NextToEvict(entries, k - 1);
      RestIsListed(cache - Names(entries[..k - 1]), entries[k - 1..]);
      assert entries[k - 1..][1..] == entries[k..];
      assert cache - Names(entries[..k]) == cache - Names(entries[..k - 1]) - {entries[k - 1].name};
    }
  }

  /** After an eviction the finished directories fit the cap, and with the last one removed they would not have. */
  lemma EvictionFits(before: Cache, after: Cache, cap: nat, order: seq<CacheEntry>, k: nat)
    requires Evicted(before, after, cap, order, k)
    ensures CacheSize(after) <= cap
    ensures k > 0 ==> CacheSize(before - Names(order[..k - 1])) > cap
    ensures CacheSize(before) <= cap ==> k == 0 && after == before
  {
    hide Lists, Names, CacheSize, Total;
    SuffixIsListed(before, order, k);
    TotalIsCacheSize(after, order[k..]);
    TotalIsCacheSize(before, order);
    NothingEvicted(order);
    EmptyTotal();
    if k > 0 {
      SuffixIsListed(before, order, k - 1);
      TotalIsCacheSize(before - Names(order[..k - 1]), order[k - 1..]);
    }
    assert k == |order| ==> order[k..] == [];
    assert before - {} == before;
  }

  lemma EmptyTotal()
    ensures Total([]) == 0
  {
  }
}
