/** Enumerating map keys and sorting them, as Go's map iteration and package sort do. */
module Collections {
  ghost predicate Distinct<T>(xs: seq<T>) { forall i, j :: 0 <= i < j < |xs| ==> xs[i] != xs[j] }

  // A sort rearranges, and what it makes of a collection does not depend on the order it came in.
  ghost predicate Sorts<T(!new)>(sort: seq<T> -> seq<T>) {
    && (forall a :: multiset(sort(a)) == multiset(a))
    && (forall a, b :: multiset(a) == multiset(b) ==> sort(a) == sort(b))
  }

  lemma {:induction false} DistinctByCount<T>(xs: seq<T>)
    ensures Distinct(xs) <==> forall x :: multiset(xs)[x] <= 1
  {
    if xs != [] {
      var init, last := xs[..|xs| - 1], xs[|xs| - 1];
      assert xs == init + [last];
      DistinctByCount(init);
      assert Distinct(xs) <==> Distinct(init) && last !in init;
      assert last in init <==> last in multiset(init);
      forall x ensures multiset(xs)[x] == multiset(init)[x] + (if x == last then 1 else 0) {}
    }
  }

  lemma SortedDistinct<T(!new)>(xs: seq<T>, sort: seq<T> -> seq<T>)
    requires Sorts(sort) && Distinct(xs)
    ensures Distinct(sort(xs)) && forall x :: x in sort(xs) <==> x in xs
  {
    var sorted := sort(xs);
    assert multiset(sorted) == multiset(xs);
    forall x ensures x in sorted <==> x in xs { assert x in sorted <==> x in multiset(sorted); assert x in xs <==> x in multiset(xs); }
    DistinctByCount(xs);
    DistinctByCount(sorted);
  }

  lemma SameCounts<T>(xs: seq<T>, ys: seq<T>)
    requires Distinct(xs) && Distinct(ys) && forall x :: x in xs <==> x in ys
    ensures multiset(xs) == multiset(ys)
  {
    DistinctByCount(xs);
    DistinctByCount(ys);
    forall x ensures multiset(xs)[x] == multiset(ys)[x] {
      assert x in xs <==> x in multiset(xs);
      assert x in ys <==> x in multiset(ys);
    }
  }

  // The keys in whatever order the map yields them.
  method Iterate<K(==), V>(m: map<K, V>) returns (order: seq<K>)
    ensures Distinct(order) && forall k :: k in order <==> k in m
  {
    order := [];
    var left := m.Keys;
    while left != {}
      invariant left <= m.Keys && Distinct(order) && forall k :: k in order <==> k in m && k !in left
    {
      var k :| k in left;
      order := order + [k];
      left := left - {k};
    }
  }
}
