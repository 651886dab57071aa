/** Keeping the items of a list that satisfy a predicate, in order. */
module Filtering {

  function Filter<T>(items: seq<T>, keep: T -> bool): seq<T> {
    if items == [] then []
    else
      var n := |items| - 1;
      Filter(items[..n], keep) + if keep(items[n]) then [items[n]] else []
  }

  lemma {:induction false} FilterAgrees<T>(items: seq<T>, p: T -> bool, q: T -> bool)
    requires forall e :: e in items ==> p(e) == q(e)
    ensures Filter(items, p) == Filter(items, q)
  {
    if items != [] {
      FilterAgrees(items[..|items| - 1], p, q);
    }
  }

  lemma {:induction false} FilterJoins<T>(first: seq<T>, second: seq<T>, p: T -> bool)
    ensures Filter(first + second, p) == Filter(first, p) + Filter(second, p)
  {
    if second == [] {
      assert first + second == first;
    } else {
      var n := |second| - 1;
      FilterJoins(first, second[..n], p);
      assert (first + second)[..|first| + n] == first + second[..n];
    }
  }

  function Both<T>(p: T -> bool, q: T -> bool): T -> bool {
    (x: T) => p(x) && q(x)
  }

  lemma {:induction false} FilterTwice<T>(items: seq<T>, p: T -> bool, q: T -> bool)
    ensures Filter(Filter(items, p), q) == Filter(items, Both(p, q))
  {
    if items != [] {
      var n := |items| - 1;
      FilterTwice(items[..n], p, q);
      FilterJoins(Filter(items[..n], p), if p(items[n]) then [items[n]] else [], q);
      FilterOfOne(items[n], q);
    }
  }

  lemma FilterOfOne<T>(e: T, q: T -> bool)
    ensures Filter([e], q) == if q(e) then [e] else []
  {
    assert [e][..0] == [];
  }

  lemma {:induction false} FilterKeepsExactly<T>(items: seq<T>, p: T -> bool, e: T)
    ensures e in Filter(items, p) <==> e in items && p(e)
  {
    if items != [] {
      FilterKeepsExactly(items[..|items| - 1], p, e);
      assert items == items[..|items| - 1] + [items[|items| - 1]];
    }
  }

  lemma {:induction false} FilterIsNoLonger<T>(items: seq<T>, p: T -> bool)
    ensures |Filter(items, p)| <= |items|
    ensures |Filter(items, p)| == |items| ==> Filter(items, p) == items
  {
    if items != [] {
      FilterIsNoLonger(items[..|items| - 1], p);
    }
  }

  lemma {:induction false} FilterTrue<T>(items: seq<T>, p: T -> bool)
    requires forall e :: e in items ==> p(e)
    ensures Filter(items, p) == items
  {
    if items != [] {
      var n := |items| - 1;
      assert items == items[..n] + [items[n]];
      FilterTrue(items[..n], p);
    }
  }

  lemma {:induction false} FilterFalse<T>(items: seq<T>, p: T -> bool)
    requires forall e :: e in items ==> !p(e)
    ensures Filter(items, p) == []
  {
    if items != [] {
      FilterFalse(items[..|items| - 1], p);
    }
  }
}
