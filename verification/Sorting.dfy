/** `Array.prototype.sort` with a comparator, as insertion sort: what it returns depends only on the comparator. */
module Sorting {
  /** Irreflexive, transitive, and total on the values at hand. */
  ghost predicate Orders<T(!new)>(less: (T, T) -> bool, s: seq<T>) {
    && (forall a, b :: a in s && b in s && a != b ==> less(a, b) || less(b, a))
    && (forall a :: a in s ==> !less(a, a))
    && (forall a, b, c :: a in s && b in s && c in s && less(a, b) && less(b, c) ==> less(a, c))
  }

  /** Strictly increasing: equal values do not occur. */
  ghost predicate Increasing<T(!new)>(less: (T, T) -> bool, s: seq<T>) {
    forall i, j :: 0 <= i < j < |s| ==> less(s[i], s[j])
  }

  function Insert<T(!new)>(less: (T, T) -> bool, s: seq<T>, x: T): (r: seq<T>)
    ensures multiset(r) == multiset(s) + multiset{x}
  {
    if s == [] then [x]
    else
      var last := s[|s| - 1];
      assert s == s[..|s| - 1] + [last];
      if less(x, last) then Insert(less, s[..|s| - 1], x) + [last] else s + [x]
  }

  function Sort<T(!new)>(less: (T, T) -> bool, s: seq<T>): (r: seq<T>)
    ensures multiset(r) == multiset(s)
  {
    if s == [] then []
    else
      assert s == s[..|s| - 1] + [s[|s| - 1]];
      Insert(less, Sort(less, s[..|s| - 1]), s[|s| - 1])
  }

  lemma SameElements<T>(a: seq<T>, b: seq<T>, x: T)
    requires multiset(a) == multiset(b)
    ensures x in a <==> x in b
  {
    assert x in multiset(a) <==> x in multiset(b);
  }

  lemma {:induction false} InsertIncreasing<T(!new)>(less: (T, T) -> bool, all: seq<T>, s: seq<T>, x: T)
    requires Orders(less, all) && x in all && x !in s && (forall y :: y in s ==> y in all) && Increasing(less, s)
    ensures Increasing(less, Insert(less, s, x))
    decreases |s|
  {
    if s != [] {
      var init, last := s[..|s| - 1], s[|s| - 1];
      assert last in s && forall i :: 0 <= i < |init| ==> init[i] == s[i] && init[i] in s;
      if less(x, last) {
        InsertIncreasing(less, all, init, x);
        var r := Insert(less, init, x);
        forall i | 0 <= i < |r| ensures less(r[i], last) {
          assert multiset(r) == multiset(init) + multiset{x};
          assert r[i] in multiset(r);
          assert r[i] in init || r[i] == x;
        }
      } else {
        forall i | 0 <= i < |s| ensures less(s[i], x) {
          assert s[i] in s;
        }
      }
    }
  }

  /** Sorting distinct values by an order on them puts them in strictly increasing order. */
  lemma {:induction false} SortIncreasing<T(!new)>(less: (T, T) -> bool, all: seq<T>, s: seq<T>)
    requires Orders(less, all) && (forall y :: y in s ==> y in all)
    requires forall i, j :: 0 <= i < j < |s| ==> s[i] != s[j]
    ensures Increasing(less, Sort(less, s))
    decreases |s|
  {
    if s != [] {
      var init, x := s[..|s| - 1], s[|s| - 1];
      assert x in s && forall i :: 0 <= i < |init| ==> init[i] == s[i] && init[i] in s;
      SortIncreasing(less, all, init);
      var r := Sort(less, init);
      forall y ensures y in r <==> y in init { SameElements(r, init, y); }
      InsertIncreasing(less, all, r, x);
    }
  }
}
