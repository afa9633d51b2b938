/** The stable sort of `Array.prototype.sort`, by a comparator value. */
module StableSort {

  ghost predicate NoDuplicates<T>(s: seq<T>) {
    forall i, j | 0 <= i < j < |s| :: s[i] != s[j]
  }

  function Insert<T>(x: T, xs: seq<T>, cmp: (T, T) -> int): (out: seq<T>)
    ensures multiset(out) == multiset(xs) + multiset{x}
  {
    if xs == [] || cmp(xs[|xs| - 1], x) <= 0 then xs + [x]
    else
      assert xs == xs[..|xs| - 1] + [xs[|xs| - 1]];
      Insert(x, xs[..|xs| - 1], cmp) + [xs[|xs| - 1]]
  }

  function Sort<T>(xs: seq<T>, cmp: (T, T) -> int): (out: seq<T>)
    ensures multiset(out) == multiset(xs)
  {
    if xs == [] then []
    else
      assert xs == xs[..|xs| - 1] + [xs[|xs| - 1]];
      Insert(xs[|xs| - 1], Sort(xs[..|xs| - 1], cmp), cmp)
  }

  ghost predicate Ordered<T>(xs: seq<T>, cmp: (T, T) -> int) {
    forall i, j | 0 <= i < j < |xs| :: cmp(xs[i], xs[j]) <= 0
  }

  /** On the members of `s` the comparator is a total preorder. */
  ghost predicate Preorder<T>(s: set<T>, cmp: (T, T) -> int) {
    && (forall a, b | a in s && b in s :: cmp(a, b) <= 0 || cmp(b, a) <= 0)
    && (forall a, b, c | a in s && b in s && c in s && cmp(a, b) <= 0 && cmp(b, c) <= 0 :: cmp(a, c) <= 0)
  }

  function Members<T>(xs: seq<T>): set<T> {
    set x | x in xs
  }

  lemma SameMembers<T>(a: seq<T>, b: seq<T>)
    requires multiset(a) == multiset(b)
    ensures |a| == |b|
    ensures forall x :: x in a <==> x in b
  {
    assert |multiset(a)| == |multiset(b)|;
    forall x
      ensures x in a <==> x in b
    {
      assert x in a <==> x in multiset(a);
      assert x in b <==> x in multiset(b);
    }
  }

  lemma InsertMembers<T>(x: T, xs: seq<T>, cmp: (T, T) -> int)
    ensures forall y :: y in Insert(x, xs, cmp) ==> y == x || y in xs
  {
    forall y | y in Insert(x, xs, cmp)
      ensures y == x || y in xs
    {
      assert y in multiset(Insert(x, xs, cmp));
    }
  }

  lemma OrderedAppends<T>(xs: seq<T>, last: T, cmp: (T, T) -> int)
    requires Ordered(xs, cmp) && forall y | y in xs :: cmp(y, last) <= 0
    ensures Ordered(xs + [last], cmp)
  {
  }

  lemma {:induction false} InsertOrders<T>(x: T, xs: seq<T>, s: set<T>, cmp: (T, T) -> int)
    requires Preorder(s, cmp) && x in s && (forall y | y in xs :: y in s)
    requires Ordered(xs, cmp)
    ensures Ordered(Insert(x, xs, cmp), cmp)
  {
    if xs == [] {
    } else {
      var n := |xs| - 1;
      var last, before := xs[n], xs[..n];
      assert last in xs && xs == before + [last];
      if cmp(last, x) <= 0 {
        forall y | y in xs
          ensures cmp(y, x) <= 0
        {
          assert y == last || cmp(y, last) <= 0;
        }
        OrderedAppends(xs, x, cmp);
      } else {
        InsertOrders(x, before, s, cmp);
        InsertMembers(x, before, cmp);
        assert cmp(x, last) <= 0;
        forall y | y in Insert(x, before, cmp)
          ensures cmp(y, last) <= 0
        {
          assert y == x || y in before;
        }
        OrderedAppends(Insert(x, before, cmp), last, cmp);
      }
    }
  }

  lemma {:induction false} SortOrders<T>(xs: seq<T>, s: set<T>, cmp: (T, T) -> int)
    requires Preorder(s, cmp) && forall y | y in xs :: y in s
    ensures Ordered(Sort(xs, cmp), cmp)
  {
    if xs != [] {
      var n := |xs| - 1;
      SortOrders(xs[..n], s, cmp);
      var sorted := Sort(xs[..n], cmp);
      SameMembers(sorted, xs[..n]);
      forall y | y in sorted
        ensures y in s
      {
        assert y in multiset(sorted) && y in multiset(xs[..n]);
        assert y in xs[..n] && y in xs;
      }
      assert xs[n] in xs;
      InsertOrders(xs[n], sorted, s, cmp);
    }
  }

  lemma {:induction false} OccursOnce<T>(a: seq<T>, x: T)
    requires NoDuplicates(a)
    ensures multiset(a)[x] <= 1
  {
    if a != [] {
      var n := |a| - 1;
      assert a == a[..n] + [a[n]];
      OccursOnce(a[..n], x);
    }
  }

  lemma PermutationKeepsNoDuplicates<T>(a: seq<T>, b: seq<T>)
    requires NoDuplicates(a) && multiset(a) == multiset(b)
    ensures NoDuplicates(b)
  {
    forall i, j | 0 <= i < j < |b|
      ensures b[i] != b[j]
    {
      if b[i] == b[j] {
        assert b == b[..i] + [b[i]] + b[i + 1..j] + [b[j]] + b[j + 1..];
        assert multiset(b)[b[i]] >= 2;
        OccursOnce(a, b[i]);
      }
    }
  }
}
