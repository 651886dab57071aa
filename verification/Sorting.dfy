/** A stable sort by an integer key, the meaning of Rust's `sort_by_key`. */
module Sorting {

  /** Places an item after every item whose key is not greater. */
  function Insert<T>(items: seq<T>, item: T, key: T -> int): seq<T> {
    if items == [] then
      [item]
    else
      var last := items[|items| - 1];
      if key(item) < key(last) then Insert(items[..|items| - 1], item, key) + [last] else items + [item]
  }

  /** Items enter from first to last. */
  function SortByKey<T>(items: seq<T>, key: T -> int): seq<T> {
    if items == [] then []
    else Insert(SortByKey(items[..|items| - 1], key), items[|items| - 1], key)
  }

  ghost predicate Sorted<T>(items: seq<T>, key: T -> int) {
    forall i, j :: 0 <= i < j < |items| ==> key(items[i]) <= key(items[j])
  }

  /** The items that share one key, in order: what a stable sort may not disturb. */
  function WithKey<T>(items: seq<T>, key: T -> int, k: int): seq<T> {
    if items == [] then []
    else
      var last := items[|items| - 1];
      WithKey(items[..|items| - 1], key, k) + if key(last) == k then [last] else []
  }

  lemma SplitLast<T>(items: seq<T>)
    requires items != []
    ensures items == items[..|items| - 1] + [items[|items| - 1]]
    ensures multiset(items) == multiset(items[..|items| - 1]) + multiset{items[|items| - 1]}
  {
  }

  lemma {:induction false} InsertPermutes<T>(items: seq<T>, item: T, key: T -> int)
    ensures multiset(Insert(items, item, key)) == multiset(items) + multiset{item}
  {
    if items != [] {
      SplitLast(items);
      if key(item) < key(items[|items| - 1]) {
        InsertPermutes(items[..|items| - 1], item, key);
      }
    }
  }

  lemma {:induction false} InsertSorts<T>(items: seq<T>, item: T, key: T -> int)
    requires Sorted(items, key)
    ensures Sorted(Insert(items, item, key), key)
    ensures forall x :: x in Insert(items, item, key) ==> x in items || x == item
  {
    if items != [] && key(item) < key(items[|items| - 1]) {
      var n := |items| - 1;
      InsertSorts(items[..n], item, key);
      var inner := Insert(items[..n], item, key);
      forall i | 0 <= i < |inner| ensures key(inner[i]) <= key(items[n]) {
        assert inner[i] in inner;
      }
    }
  }

  /** The result is a permutation of the input. */
  lemma {:induction false} SortByKeyPermutes<T>(items: seq<T>, key: T -> int)
    ensures multiset(SortByKey(items, key)) == multiset(items)
  {
    if items != [] {
      SplitLast(items);
      SortByKeyPermutes(items[..|items| - 1], key);
      InsertPermutes(SortByKey(items[..|items| - 1], key), items[|items| - 1], key);
    }
  }

  /** The result is in key order. */
  lemma {:induction false} SortByKeySorts<T>(items: seq<T>, key: T -> int)
    ensures Sorted(SortByKey(items, key), key)
  {
    if items != [] {
      SortByKeySorts(items[..|items| - 1], key);
      InsertSorts(SortByKey(items[..|items| - 1], key), items[|items| - 1], key);
    }
  }

  lemma WithKeyAppends<T>(items: seq<T>, last: T, key: T -> int, k: int)
    ensures WithKey(items + [last], key, k) == WithKey(items, key, k) + if key(last) == k then [last] else []
  {
    assert (items + [last])[..|items|] == items;
  }

  lemma {:induction false} InsertIsStable<T>(items: seq<T>, item: T, key: T -> int, k: int)
    ensures WithKey(Insert(items, item, key), key, k) ==
            WithKey(items, key, k) + if key(item) == k then [item] else []
  {
    if items == [] {
      assert [item][..0] == [];
    } else {
      var init, last := items[..|items| - 1], items[|items| - 1];
      if key(item) < key(last) {
        InsertIsStable(init, item, key, k);
        WithKeyAppends(Insert(init, item, key), last, key, k);
      } else {
        WithKeyAppends(items, item, key, k);
      }
    }
  }

  /** The result is stable: every group of equal keys keeps its order. */
  lemma {:induction false} SortByKeyIsStable<T>(items: seq<T>, key: T -> int, k: int)
    ensures WithKey(SortByKey(items, key), key, k) == WithKey(items, key, k)
  {
    if items != [] {
      SortByKeyIsStable(items[..|items| - 1], key, k);
      InsertIsStable(SortByKey(items[..|items| - 1], key), items[|items| - 1], key, k);
    }
  }
}
