/** The two loops the projection code repeats: appending what each element contributes, and
    keeping one element per key. */
module Keyed {
  import opened Text

  // ---- Appending ----

  function FlatMap<T, R>(f: T -> seq<R>, xs: seq<T>): seq<R> {
    if xs == [] then [] else FlatMap(f, xs[..|xs| - 1]) + f(xs[|xs| - 1])
  }

  method AppendEach<T, R>(f: T -> seq<R>, xs: seq<T>, start: seq<R>) returns (out: seq<R>)
    ensures out == start + FlatMap(f, xs)
  {
    out := start;
    for i := 0 to |xs|
      invariant out == start + FlatMap(f, xs[..i])
    {
      assert xs[..i + 1][..i] == xs[..i];
      out := out + f(xs[i]);
    }
    assert xs[..|xs|] == xs;
  }

  lemma FlatMapGrows<T, R>(f: T -> seq<R>, xs: seq<T>, n: nat)
    requires n < |xs|
    ensures FlatMap(f, xs[..n + 1]) == FlatMap(f, xs[..n]) + f(xs[n])
  {
    assert xs[..n + 1][..n] == xs[..n];
  }

  lemma {:induction false} FlatMapHas<T, R>(f: T -> seq<R>, xs: seq<T>, r: R)
    ensures r in FlatMap(f, xs) <==> exists x | x in xs :: r in f(x)
  {
    if xs != [] {
      FlatMapHas(f, xs[..|xs| - 1], r);
      assert xs == xs[..|xs| - 1] + [xs[|xs| - 1]];
    }
  }

  lemma {:induction false} FlatMapCongruence<S, T, R>(f: S -> seq<R>, g: T -> seq<R>, xs: seq<S>, ys: seq<T>)
    requires |xs| == |ys| && forall i | 0 <= i < |xs| :: f(xs[i]) == g(ys[i])
    ensures FlatMap(f, xs) == FlatMap(g, ys)
  {
    if xs != [] {
      FlatMapCongruence(f, g, xs[..|xs| - 1], ys[..|ys| - 1]);
    }
  }

  lemma ConcatAssociates<R>(a: seq<R>, b: seq<R>, c: seq<R>)
    ensures (a + b) + c == a + (b + c)
  {
  }

  // ---- Steps that may fail ----

  /** Every element in turn, unless one fails. */
  function Traverse<T, R>(f: T -> Option<R>, xs: seq<T>): Option<seq<R>> {
    if xs == [] then Some([])
    else
      var before, last := Traverse(f, xs[..|xs| - 1]), f(xs[|xs| - 1]);
      if before.None? || last.None? then None else Some(before.value + [last.value])
  }

  lemma {:induction false} TraverseFails<T, R>(f: T -> Option<R>, xs: seq<T>, i: nat)
    requires i < |xs| && f(xs[i]).None?
    ensures Traverse(f, xs).None?
  {
    if i < |xs| - 1 {
      TraverseFails(f, xs[..|xs| - 1], i);
    }
  }

  // ---- The only element that answers ----

  function Positions<T>(p: T -> bool, xs: seq<T>): seq<nat> {
    if xs == [] then []
    else Positions(p, xs[..|xs| - 1]) + if p(xs[|xs| - 1]) then [|xs| - 1] else []
  }

  lemma {:induction false} PositionsAre<T>(p: T -> bool, xs: seq<T>, i: nat)
    ensures i in Positions(p, xs) <==> i < |xs| && p(xs[i])
  {
    if xs != [] {
      PositionsAre(p, xs[..|xs| - 1], i);
    }
  }

  /** The position of the element that answers, if exactly one does. */
  function Only<T>(p: T -> bool, xs: seq<T>): Option<nat> {
    var found := Positions(p, xs);
    if |found| == 1 then Some(found[0]) else None
  }

  lemma OnlyAnswers<T>(p: T -> bool, xs: seq<T>)
    ensures Only(p, xs).Some? ==> Only(p, xs).value < |xs| && p(xs[Only(p, xs).value])
    ensures Only(p, xs).Some? ==> forall i | 0 <= i < |xs| && p(xs[i]) :: i == Only(p, xs).value
  {
    var found := Positions(p, xs);
    forall i: nat
      ensures i in found <==> i < |xs| && p(xs[i])
    {
      PositionsAre(p, xs, i);
    }
    if |found| == 1 {
      assert found[0] in found;
      assert forall i | i in found :: i == found[0];
    }
  }

  // ---- One element per key ----

  predicate DistinctBy<T, K(==)>(key: T -> K, xs: seq<T>) {
    forall i, j | 0 <= i < j < |xs| :: key(xs[i]) != key(xs[j])
  }

  predicate HasKey<T, K(==)>(key: T -> K, xs: seq<T>, k: K) {
    exists i | 0 <= i < |xs| :: key(xs[i]) == k
  }

  function KeyIndex<T, K(==)>(key: T -> K, xs: seq<T>, k: K): (i: nat)
    requires HasKey(key, xs, k)
    ensures i < |xs| && key(xs[i]) == k
  {
    if key(xs[0]) == k then 0
    else
      assert exists j | 0 <= j < |xs[1..]| :: key(xs[1..][j]) == k by {
        var j :| 0 <= j < |xs| && key(xs[j]) == k;
        assert xs[1..][j - 1] == xs[j];
      }
      1 + KeyIndex(key, xs[1..], k)
  }

  /** The first element of each key, combined with the later ones of that key. */
  function DedupeBy<T, K(==)>(key: T -> K, merge: (T, T) -> T, xs: seq<T>): seq<T> {
    if xs == [] then []
    else
      var rest, x := DedupeBy(key, merge, xs[..|xs| - 1]), xs[|xs| - 1];
      if !HasKey(key, rest, key(x)) then rest + [x]
      else
        var i := KeyIndex(key, rest, key(x));
        rest[i := merge(rest[i], x)]
  }

  ghost predicate KeepsKey<T(!new), K>(key: T -> K, merge: (T, T) -> T) {
    forall a, b :: key(merge(a, b)) == key(a)
  }

  lemma {:induction false} DedupeIsDistinct<T(!new), K>(key: T -> K, merge: (T, T) -> T, xs: seq<T>)
    requires KeepsKey(key, merge)
    ensures DistinctBy(key, DedupeBy(key, merge, xs))
  {
    if xs != [] {
      DedupeIsDistinct(key, merge, xs[..|xs| - 1]);
    }
  }

  /** Every key survives. */
  lemma {:induction false} DedupeKeepsKeys<T(!new), K>(key: T -> K, merge: (T, T) -> T, xs: seq<T>, x: T)
    requires KeepsKey(key, merge) && x in xs
    ensures HasKey(key, DedupeBy(key, merge, xs), key(x))
  {
    var init, last := xs[..|xs| - 1], xs[|xs| - 1];
    var rest, out := DedupeBy(key, merge, init), DedupeBy(key, merge, xs);
    assert xs == init + [last];
    if x in init {
      DedupeKeepsKeys(key, merge, init, x);
      var i :| 0 <= i < |rest| && key(rest[i]) == key(x);
      assert key(out[i]) == key(x);
    } else if HasKey(key, rest, key(last)) {
      var i := KeyIndex(key, rest, key(last));
      assert key(out[i]) == key(x);
    } else {
      assert out[|rest|] == x;
    }
  }

  /** With a merge that changes nothing a property depends on, the property carries over. */
  lemma {:induction false} DedupeKeepsProperty<T(!new), K>(key: T -> K, merge: (T, T) -> T, xs: seq<T>, p: T -> bool)
    requires forall a, b :: p(a) ==> p(merge(a, b))
    requires forall x | x in xs :: p(x)
    ensures forall x | x in DedupeBy(key, merge, xs) :: p(x)
  {
    if xs != [] {
      DedupeKeepsProperty(key, merge, xs[..|xs| - 1], p);
    }
  }

  ghost predicate Indexed<T, K>(key: T -> K, xs: seq<T>, seen: map<K, nat>) {
    && (forall k | k in seen :: seen[k] < |xs| && key(xs[seen[k]]) == k)
    && (forall j | 0 <= j < |xs| :: key(xs[j]) in seen && seen[key(xs[j])] == j)
  }

  lemma IndexedFinds<T, K>(key: T -> K, xs: seq<T>, seen: map<K, nat>, k: K)
    requires Indexed(key, xs, seen)
    ensures k in seen <==> HasKey(key, xs, k)
    ensures k in seen ==> KeyIndex(key, xs, k) == seen[k]
  {
    if k in seen {
      assert HasKey(key, xs, k);
    }
  }

  /** The loop with its index map. */
  method Dedupe<T(!new), K(==)>(key: T -> K, merge: (T, T) -> T, xs: seq<T>) returns (out: seq<T>)
    requires KeepsKey(key, merge)
    ensures out == DedupeBy(key, merge, xs)
  {
    var seen: map<K, nat> := map[];
    out := [];
    for i := 0 to |xs|
      invariant out == DedupeBy(key, merge, xs[..i])
      invariant Indexed(key, out, seen)
    {
      var x := xs[i];
      assert xs[..i + 1][..i] == xs[..i];
      IndexedFinds(key, out, seen, key(x));
      if key(x) in seen {
        out := out[seen[key(x)] := merge(out[seen[key(x)]], x)];
      } else {
        seen := seen[key(x) := |out|];
        out := out + [x];
      }
    }
    assert xs[..|xs|] == xs;
  }
}
