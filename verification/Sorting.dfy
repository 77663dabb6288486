/** The stable sort of the standard library that both the job store and the cache evictor rely on. */
module Sorting {

  function InsertLast<T>(s: seq<T>, x: T, key: T -> int): (r: seq<T>)
    ensures multiset(r) == multiset(s) + multiset{x} && |r| == |s| + 1
  {
    if s == [] || key(s[|s| - 1]) <= key(x) then s + [x]
    else
      assert s == s[..|s| - 1] + [s[|s| - 1]];
      InsertLast(s[..|s| - 1], x, key) + [s[|s| - 1]]
  }

  function StableSort<T>(s: seq<T>, key: T -> int): (r: seq<T>)
    ensures multiset(r) == multiset(s)
  {
    if s == [] then []
    else
      assert s == s[..|s| - 1] + [s[|s| - 1]];
      InsertLast(StableSort(s[..|s| - 1], key), s[|s| - 1], key)
  }

  ghost predicate Ascending<T>(s: seq<T>, key: T -> int) {
    forall i, j :: 0 <= i < j < |s| ==> key(s[i]) <= key(s[j])
  }

  /** The elements with one key, in order. */
  ghost function WithKey<T>(s: seq<T>, key: T -> int, k: int): seq<T> {
    if s == [] then []
    else WithKey(s[..|s| - 1], key, k) + if key(s[|s| - 1]) == k then [s[|s| - 1]] else []
  }

  lemma {:induction false} InsertAscending<T>(s: seq<T>, x: T, key: T -> int)
    requires Ascending(s, key)
    ensures Ascending(InsertLast(s, x, key), key)
  {
    if s == [] || key(s[|s| - 1]) <= key(x) {
    } else {
      var r := InsertLast(s[..|s| - 1], x, key);
      InsertAscending(s[..|s| - 1], x, key);
      forall i | 0 <= i < |r|
        ensures key(r[i]) <= key(s[|s| - 1])
      {
        assert r[i] in multiset(r);
        assert r[i] == x || r[i] in s[..|s| - 1];
      }
    }
  }

  lemma WithKeyAppend<T>(s: seq<T>, x: T, key: T -> int, k: int)
    ensures WithKey(s + [x], key, k) == WithKey(s, key, k) + if key(x) == k then [x] else []
  {
  }

  lemma {:induction false} InsertIsStable<T>(s: seq<T>, x: T, key: T -> int, k: int)
    requires Ascending(s, key)
    ensures WithKey(InsertLast(s, x, key), key, k) == WithKey(s + [x], key, k)
  {
    if s == [] || key(s[|s| - 1]) <= key(x) {
    } else {
      var init, last := s[..|s| - 1], s[|s| - 1];
      var inserted := InsertLast(init, x, key);
      assert InsertLast(s, x, key) == inserted + [last];
      calc {
        WithKey(inserted + [last], key, k);
        { WithKeyAppend(inserted, last, key, k); }
        WithKey(inserted, key, k) + if key(last) == k then [last] else [];
        { InsertIsStable(init, x, key, k); WithKeyAppend(init, x, key, k); }
        WithKey(init, key, k) + (if key(x) == k then [x] else []) + if key(last) == k then [last] else [];
        WithKey(init, key, k) + (if key(last) == k then [last] else []) + if key(x) == k then [x] else [];
        WithKey(s, key, k) + if key(x) == k then [x] else [];
        { WithKeyAppend(s, x, key, k); }
        WithKey(s + [x], key, k);
      }
    }
  }

  /** The result is ascending and elements with equal keys keep their order. */
  lemma {:induction false} SortIsStable<T>(s: seq<T>, key: T -> int, k: int)
    ensures Ascending(StableSort(s, key), key)
    ensures WithKey(StableSort(s, key), key, k) == WithKey(s, key, k)
  {
    if s != [] {
      var init, x := s[..|s| - 1], s[|s| - 1];
      SortIsStable(init, key, k);
      InsertAscending(StableSort(init, key), x, key);
      InsertIsStable(StableSort(init, key), x, key, k);
      WithKeyAppend(StableSort(init, key), x, key, k);
    }
  }

  lemma InsertGreatest<T>(s: seq<T>, x: T, key: T -> int)
    requires s == [] || key(s[|s| - 1]) <= key(x)
    ensures InsertLast(s, x, key) == s + [x]
  {
  }

  lemma {:induction false} SortOfAscending<T>(s: seq<T>, key: T -> int)
    requires Ascending(s, key)
    ensures StableSort(s, key) == s
  {
    hide InsertLast;
    if s != [] {
      var init, x := s[..|s| - 1], s[|s| - 1];
      SortOfAscending(init, key);
      InsertGreatest(init, x, key);
      assert s == init + [x];
    }
  }
}
