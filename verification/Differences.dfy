/** The difference of two keyed lists, and what it takes to be one: applied to the old list it
    gives the new one, and it is empty exactly when there is nothing to apply. */
module Differences {
  import opened Text
  import opened Keyed

  datatype Change<R> = Change(before: Option<R>, after: Option<R>)

  /** A list as a map from key to element; later entries win. */
  function ByKey<K, R>(key: R -> K, xs: seq<R>): map<K, R> {
    if xs == [] then map[]
    else ByKey(key, xs[..|xs| - 1])[key(xs[|xs| - 1]) := xs[|xs| - 1]]
  }

  function Lookup<K, R>(m: map<K, R>, k: K): Option<R> {
    if k in m then Some(m[k]) else None
  }

  predicate Same<R>(same: (R, R) -> bool, a: Option<R>, b: Option<R>) {
    if a.Some? && b.Some? then same(a.value, b.value) else a.None? && b.None?
  }

  function ChangeAt<K, R>(left: map<K, R>, right: map<K, R>, k: K): Change<R> {
    Change(Lookup(left, k), Lookup(right, k))
  }

  /** The changes for a list of keys. */
  function ChangesFor<K, R>(same: (R, R) -> bool, left: map<K, R>, right: map<K, R>, keys: seq<K>): seq<Change<R>> {
    if keys == [] then []
    else
      var k := keys[|keys| - 1];
      ChangesFor(same, left, right, keys[..|keys| - 1])
      + if Same(same, Lookup(left, k), Lookup(right, k)) then [] else [ChangeAt(left, right, k)]
  }

  /** Elements that are the same are filed under the same key. */
  ghost predicate Equivalence<K, R(!new)>(key: R -> K, same: (R, R) -> bool) {
    && (forall a :: same(a, a))
    && (forall a, b :: same(a, b) ==> key(a) == key(b))
  }

  // ---- The loops ----

  method Index<K, R>(key: R -> K, xs: seq<R>) returns (m: map<K, R>)
    ensures m == ByKey(key, xs)
  {
    m := map[];
    for i := 0 to |xs|
      invariant m == ByKey(key, xs[..i])
    {
      assert xs[..i + 1][..i] == xs[..i];
      m := m[key(xs[i]) := xs[i]];
    }
    assert xs[..|xs|] == xs;
  }

  method ListChanges<K, R>(same: (R, R) -> bool, left: map<K, R>, right: map<K, R>, keys: seq<K>)
    returns (changes: seq<Change<R>>)
    ensures changes == ChangesFor(same, left, right, keys)
  {
    changes := [];
    for i := 0 to |keys|
      invariant changes == ChangesFor(same, left, right, keys[..i])
    {
      assert keys[..i + 1][..i] == keys[..i];
      if !Same(same, Lookup(left, keys[i]), Lookup(right, keys[i])) {
        changes := changes + [ChangeAt(left, right, keys[i])];
      }
    }
    assert keys[..|keys|] == keys;
  }

  // ---- Carrying a difference out ----

  function Replace<K, R>(m: map<K, R>, k: K, value: Option<R>): map<K, R> {
    if value.Some? then m[k := value.value] else m - {k}
  }

  /** Carry out the changes one after the other. A change is about the key of what it replaces
      or adds. */
  function Patch<K, R>(key: R -> K, m: map<K, R>, changes: seq<Change<R>>): map<K, R> {
    if changes == [] then m
    else
      var rest, last := Patch(key, m, changes[..|changes| - 1]), changes[|changes| - 1];
      if last.after.Some? then Replace(rest, key(last.after.value), last.after)
      else if last.before.Some? then Replace(rest, key(last.before.value), None)
      else rest
  }

  ghost predicate Filed<K, R>(key: R -> K, m: map<K, R>) {
    forall k | k in m :: key(m[k]) == k
  }

  lemma {:induction false} ByKeyFiles<K, R>(key: R -> K, xs: seq<R>)
    ensures Filed(key, ByKey(key, xs))
    ensures forall k :: k in ByKey(key, xs) ==> ByKey(key, xs)[k] in xs
    ensures forall x | x in xs :: key(x) in ByKey(key, xs)
  {
    if xs != [] {
      ByKeyFiles(key, xs[..|xs| - 1]);
      assert xs == xs[..|xs| - 1] + [xs[|xs| - 1]];
    }
  }

  /** With one element per key the map loses nothing. */
  lemma {:induction false} ByKeyKeeps<K, R>(key: R -> K, xs: seq<R>, x: R)
    requires DistinctBy(key, xs) && x in xs
    ensures key(x) in ByKey(key, xs) && ByKey(key, xs)[key(x)] == x
  {
    var init, last := xs[..|xs| - 1], xs[|xs| - 1];
    assert xs == init + [last];
    if x != last {
      ByKeyKeeps(key, init, x);
      var i :| 0 <= i < |init| && init[i] == x;
      assert key(xs[i]) != key(last);
    }
  }

  /** One more change is about its key only. */
  lemma PatchOne<K, R>(key: R -> K, m: map<K, R>, left: map<K, R>, right: map<K, R>, changes: seq<Change<R>>, k: K,
                       other: K)
    requires Filed(key, left) && Filed(key, right) && (k in left || k in right)
    ensures Lookup(Patch(key, m, changes + [ChangeAt(left, right, k)]), other) ==
            if other == k then Lookup(right, k) else Lookup(Patch(key, m, changes), other)
  {
    assert (changes + [ChangeAt(left, right, k)])[..|changes|] == changes;
  }

  /** The keys handled so far have their new element, the others still their old one. */
  lemma {:induction false} PatchStep<K, R(!new)>(key: R -> K, same: (R, R) -> bool, left: map<K, R>, right: map<K, R>,
                                                 keys: seq<K>, k: K)
    requires Filed(key, left) && Filed(key, right) && Equivalence(key, same)
    requires forall x | x in keys :: x in left || x in right
    ensures k !in keys ==> Lookup(Patch(key, left, ChangesFor(same, left, right, keys)), k) == Lookup(left, k)
    ensures k in keys ==> Same(same, Lookup(Patch(key, left, ChangesFor(same, left, right, keys)), k), Lookup(right, k))
  {
    if keys != [] {
      var init, last := keys[..|keys| - 1], keys[|keys| - 1];
      assert keys == init + [last];
      PatchStep(key, same, left, right, init, k);
      var done := ChangesFor(same, left, right, init);
      PatchOne(key, left, left, right, done, last, k);
      assert done + [] == done;
      assert Same(same, Lookup(right, k), Lookup(right, k));
    }
  }

  /** Two maps with the same keys and the same elements. */
  ghost predicate SameMap<K, R>(same: (R, R) -> bool, a: map<K, R>, b: map<K, R>) {
    a.Keys == b.Keys && forall k | k in a :: same(a[k], b[k])
  }

  lemma SameEverywhere<K, R>(same: (R, R) -> bool, a: map<K, R>, b: map<K, R>)
    requires forall k :: Same(same, Lookup(a, k), Lookup(b, k))
    ensures SameMap(same, a, b)
  {
    forall k
      ensures k in a <==> k in b
      ensures k in a ==> same(a[k], b[k])
    {
      assert Same(same, Lookup(a, k), Lookup(b, k));
    }
  }

  /** Applying the difference to the old elements gives the new ones. */
  lemma DiffIsAPatch<K(!new), R(!new)>(key: R -> K, same: (R, R) -> bool, left: map<K, R>, right: map<K, R>,
                                       keys: seq<K>)
    requires Filed(key, left) && Filed(key, right) && Equivalence(key, same)
    requires forall k :: k in keys <==> k in left || k in right
    ensures SameMap(same, Patch(key, left, ChangesFor(same, left, right, keys)), right)
  {
    var patched := Patch(key, left, ChangesFor(same, left, right, keys));
    forall k
      ensures Same(same, Lookup(patched, k), Lookup(right, k))
    {
      PatchStep(key, same, left, right, keys, k);
    }
    SameEverywhere(same, patched, right);
  }

  /** Every change reported is one, and none is missing. */
  lemma {:induction false} ChangesAreExact<K, R>(same: (R, R) -> bool, left: map<K, R>, right: map<K, R>, keys: seq<K>,
                                                 c: Change<R>)
    ensures c in ChangesFor(same, left, right, keys) <==>
            exists k | k in keys :: !Same(same, Lookup(left, k), Lookup(right, k)) && c == ChangeAt(left, right, k)
  {
    if keys != [] {
      var init, last := keys[..|keys| - 1], keys[|keys| - 1];
      assert keys == init + [last];
      ChangesAreExact(same, left, right, init, c);
    }
  }

  /** The sides of a change come from the lists, under one key. */
  lemma ChangeHasKey<K, R>(key: R -> K, same: (R, R) -> bool, before: seq<R>, after: seq<R>, keys: seq<K>, c: Change<R>)
    returns (k: K)
    requires c in ChangesFor(same, ByKey(key, before), ByKey(key, after), keys)
    ensures c.before.Some? ==> c.before.value in before && key(c.before.value) == k
    ensures c.after.Some? ==> c.after.value in after && key(c.after.value) == k
  {
    var left, right := ByKey(key, before), ByKey(key, after);
    ChangesAreExact(same, left, right, keys, c);
    k :| k in keys && !Same(same, Lookup(left, k), Lookup(right, k)) && c == ChangeAt(left, right, k);
    ByKeyFiles(key, before);
    ByKeyFiles(key, after);
    assert k in left ==> left[k] in before;
    assert k in right ==> right[k] in after;
  }

  /** Each element of either list has its counterpart in the other. */
  ghost predicate SameElements<R>(same: (R, R) -> bool, a: seq<R>, b: seq<R>) {
    && (forall x | x in a :: exists y | y in b :: same(x, y))
    && (forall y | y in b :: exists x | x in a :: same(x, y))
  }

  lemma SameMapSameElements<K, R(!new)>(key: R -> K, same: (R, R) -> bool, a: seq<R>, b: seq<R>)
    requires DistinctBy(key, a) && DistinctBy(key, b)
    requires SameMap(same, ByKey(key, a), ByKey(key, b))
    ensures SameElements(same, a, b)
  {
    ByKeyFiles(key, a);
    ByKeyFiles(key, b);
    forall x | x in a ensures exists y | y in b :: same(x, y) { ByKeyKeeps(key, a, x); }
    forall y | y in b ensures exists x | x in a :: same(x, y) { ByKeyKeeps(key, b, y); }
  }

  lemma CounterpartIsFiled<K, R(!new)>(key: R -> K, same: (R, R) -> bool, x: R, y: R, b: seq<R>)
    requires DistinctBy(key, b) && Equivalence(key, same)
    requires y in b && same(x, y)
    ensures key(x) in ByKey(key, b) && same(x, ByKey(key, b)[key(x)])
  {
    ByKeyKeeps(key, b, y);
  }

  lemma FirstHalf<K, R(!new)>(key: R -> K, same: (R, R) -> bool, a: seq<R>, b: seq<R>)
    requires DistinctBy(key, b) && Equivalence(key, same)
    requires forall x | x in a :: exists y | y in b :: same(x, y)
    ensures forall k | k in ByKey(key, a) :: k in ByKey(key, b) && same(ByKey(key, a)[k], ByKey(key, b)[k])
  {
    ByKeyFiles(key, a);
    forall k | k in ByKey(key, a)
      ensures k in ByKey(key, b) && same(ByKey(key, a)[k], ByKey(key, b)[k])
    {
      var x := ByKey(key, a)[k];
      var y :| y in b && same(x, y);
      CounterpartIsFiled(key, same, x, y, b);
    }
  }

  lemma SecondHalf<K, R(!new)>(key: R -> K, same: (R, R) -> bool, a: seq<R>, b: seq<R>)
    requires DistinctBy(key, a) && Equivalence(key, same)
    requires forall y | y in b :: exists x | x in a :: same(x, y)
    ensures forall k | k in ByKey(key, b) :: k in ByKey(key, a)
  {
    ByKeyFiles(key, b);
    forall k | k in ByKey(key, b)
      ensures k in ByKey(key, a)
    {
      var y := ByKey(key, b)[k];
      var x :| x in a && same(x, y);
      ByKeyKeeps(key, a, x);
    }
  }

  lemma SameElementsSameMap<K, R(!new)>(key: R -> K, same: (R, R) -> bool, a: seq<R>, b: seq<R>)
    requires DistinctBy(key, a) && DistinctBy(key, b) && Equivalence(key, same)
    requires SameElements(same, a, b)
    ensures SameMap(same, ByKey(key, a), ByKey(key, b))
  {
    FirstHalf(key, same, a, b);
    SecondHalf(key, same, a, b);
  }

  /** The difference is empty exactly when there is nothing to apply. */
  lemma DiffIsEmptyIffSame<K(!new), R(!new)>(key: R -> K, same: (R, R) -> bool, before: seq<R>, after: seq<R>,
                                             keys: seq<K>)
    requires DistinctBy(key, before) && DistinctBy(key, after) && Equivalence(key, same)
    requires forall k :: k in keys <==> k in ByKey(key, before) || k in ByKey(key, after)
    ensures ChangesFor(same, ByKey(key, before), ByKey(key, after), keys) == [] <==> SameElements(same, before, after)
  {
    var left, right := ByKey(key, before), ByKey(key, after);
    var changes := ChangesFor(same, left, right, keys);
    if changes == [] {
      forall k
        ensures Same(same, Lookup(left, k), Lookup(right, k))
      {
        ChangesAreExact(same, left, right, keys, ChangeAt(left, right, k));
      }
      SameEverywhere(same, left, right);
      SameMapSameElements(key, same, before, after);
    } else {
      ChangesAreExact(same, left, right, keys, changes[0]);
      if SameElements(same, before, after) {
        SameElementsSameMap(key, same, before, after);
        assert false;
      }
    }
  }
}
