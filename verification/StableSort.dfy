/** sort.SliceStable: the result is ordered, keeps every element, and is the same
    whatever order the elements came in when no two of them tie. */
module StableSort {
  import opened Keyed

  predicate Sorted<T>(less: (T, T) -> bool, xs: seq<T>) {
    forall i, j | 0 <= i < j < |xs| :: !less(xs[j], xs[i])
  }

  ghost predicate StrictWeakOrder<T(!new)>(less: (T, T) -> bool) {
    && (forall x :: !less(x, x))
    && (forall x, y, z :: less(x, y) && less(y, z) ==> less(x, z))
    && (forall x, y, z :: less(x, z) ==> less(x, y) || less(y, z))
  }

  function Insert<T>(less: (T, T) -> bool, x: T, xs: seq<T>): seq<T> {
    if xs == [] then [x]
    else if less(x, xs[0]) then [x] + xs
    else [xs[0]] + Insert(less, x, xs[1..])
  }

  function Sort<T>(less: (T, T) -> bool, xs: seq<T>): seq<T> {
    if xs == [] then []
    else Insert(less, xs[|xs| - 1], Sort(less, xs[..|xs| - 1]))
  }

  lemma {:induction false} InsertKeepsElements<T>(less: (T, T) -> bool, x: T, xs: seq<T>)
    ensures multiset(Insert(less, x, xs)) == multiset(xs) + multiset{x}
  {
    if xs != [] && !less(x, xs[0]) {
      InsertKeepsElements(less, x, xs[1..]);
      assert xs == [xs[0]] + xs[1..];
    }
  }

  lemma {:induction false} InsertKeepsOrder<T(!new)>(less: (T, T) -> bool, x: T, xs: seq<T>)
    requires StrictWeakOrder(less) && Sorted(less, xs)
    ensures Sorted(less, Insert(less, x, xs))
  {
    if xs != [] && !less(x, xs[0]) {
      InsertKeepsOrder(less, x, xs[1..]);
      var rest := Insert(less, x, xs[1..]);
      InsertKeepsElements(less, x, xs[1..]);
      forall j | 0 <= j < |rest|
        ensures !less(rest[j], xs[0])
      {
        assert rest[j] in multiset(xs[1..]) + multiset{x};
      }
    }
  }

  /** Sorting permutes. */
  lemma {:induction false} SortKeepsElements<T>(less: (T, T) -> bool, xs: seq<T>)
    ensures multiset(Sort(less, xs)) == multiset(xs)
    ensures |Sort(less, xs)| == |xs|
    ensures forall x :: x in Sort(less, xs) <==> x in xs
  {
    if xs != [] {
      var init, x := xs[..|xs| - 1], xs[|xs| - 1];
      SortKeepsElements(less, init);
      InsertKeepsElements(less, x, Sort(less, init));
      assert xs == init + [x];
    }
    assert |multiset(Sort(less, xs))| == |multiset(xs)|;
    assert forall x :: x in Sort(less, xs) <==> x in multiset(Sort(less, xs));
    assert forall x :: x in xs <==> x in multiset(xs);
  }

  lemma {:induction false} SortOrders<T(!new)>(less: (T, T) -> bool, xs: seq<T>)
    requires StrictWeakOrder(less)
    ensures Sorted(less, Sort(less, xs))
  {
    if xs != [] {
      SortOrders(less, xs[..|xs| - 1]);
      InsertKeepsOrder(less, xs[|xs| - 1], Sort(less, xs[..|xs| - 1]));
    }
  }

  lemma {:induction false} InsertKeepsDistinct<T, K>(less: (T, T) -> bool, key: T -> K, x: T, xs: seq<T>)
    requires DistinctBy(key, xs) && forall y | y in xs :: key(y) != key(x)
    ensures DistinctBy(key, Insert(less, x, xs))
  {
    if xs != [] && !less(x, xs[0]) {
      InsertKeepsDistinct(less, key, x, xs[1..]);
      var rest := Insert(less, x, xs[1..]);
      InsertKeepsElements(less, x, xs[1..]);
      forall j | 0 <= j < |rest|
        ensures key(rest[j]) != key(xs[0])
      {
        assert rest[j] in multiset(xs[1..]) + multiset{x};
      }
    }
  }

  lemma {:induction false} SortKeepsDistinct<T, K>(less: (T, T) -> bool, key: T -> K, xs: seq<T>)
    requires DistinctBy(key, xs)
    ensures DistinctBy(key, Sort(less, xs))
  {
    if xs != [] {
      var init := xs[..|xs| - 1];
      SortKeepsDistinct(less, key, init);
      SortKeepsElements(less, init);
      forall y | y in Sort(less, init)
        ensures key(y) != key(xs[|xs| - 1])
      {
        assert y in multiset(Sort(less, init)) && y in multiset(init);
        assert y in init;
        var i :| 0 <= i < |init| && init[i] == y;
        assert xs[i] == y;
      }
      InsertKeepsDistinct(less, key, xs[|xs| - 1], Sort(less, init));
    }
  }
}
