/** Folding over the unordered pairs of a sequence, and why the order does not matter. */
module Pairs {

  /** The entries of x with each of others, in order. */
  function With<T, C>(pair: (T, T) -> seq<C>, x: T, others: seq<T>): seq<C> {
    if others == [] then [] else pair(x, others[0]) + With(pair, x, others[1..])
  }

  function All<T, C>(pair: (T, T) -> seq<C>, xs: seq<T>): seq<C> {
    if xs == [] then [] else With(pair, xs[0], xs[1..]) + All(pair, xs[1..])
  }

  lemma {:induction false} WithAre<T, C>(pair: (T, T) -> seq<C>, x: T, others: seq<T>, c: C)
    ensures c in With(pair, x, others) <==> exists k | 0 <= k < |others| :: c in pair(x, others[k])
  {
    if others != [] {
      WithAre(pair, x, others[1..], c);
      if k :| 0 <= k < |others| && c in pair(x, others[k]) {
        assert k > 0 ==> others[1..][k - 1] == others[k];
      }
    }
  }

  lemma {:induction false} AllAre<T, C>(pair: (T, T) -> seq<C>, xs: seq<T>, c: C)
    ensures c in All(pair, xs) <==> exists i, j | 0 <= i < j < |xs| :: c in pair(xs[i], xs[j])
  {
    if xs != [] {
      var t := xs[1..];
      AllAre(pair, t, c);
      WithAre(pair, xs[0], t, c);
      if i, j :| 0 <= i < j < |xs| && c in pair(xs[i], xs[j]) {
        assert t[j - 1] == xs[j] && (i > 0 ==> t[i - 1] == xs[i]);
      }
      if i, j :| 0 <= i < j < |t| && c in pair(t[i], t[j]) {
        assert xs[i + 1] == t[i] && xs[j + 1] == t[j];
      }
      if k :| 0 <= k < |t| && c in pair(xs[0], t[k]) {
        assert xs[k + 1] == t[k];
      }
    }
  }

  lemma WithStep<T, C>(pair: (T, T) -> seq<C>, x: T, xs: seq<T>, j: nat, done: seq<C>, total: seq<C>)
    requires j < |xs| && done + With(pair, x, xs[j..]) == total
    ensures (done + pair(x, xs[j])) + With(pair, x, xs[j + 1..]) == total
  {
    assert xs[j..][1..] == xs[j + 1..];
    var a, b := pair(x, xs[j]), With(pair, x, xs[j + 1..]);
    assert done + (a + b) == (done + a) + b;
  }

  lemma AllStep<T, C>(pair: (T, T) -> seq<C>, xs: seq<T>, i: nat, done: seq<C>, total: seq<C>)
    requires i < |xs| && done + All(pair, xs[i..]) == total
    ensures (done + With(pair, xs[i], xs[i + 1..])) + All(pair, xs[i + 1..]) == total
  {
    assert xs[i..][1..] == xs[i + 1..];
    var a, b := With(pair, xs[i], xs[i + 1..]), All(pair, xs[i + 1..]);
    assert done + (a + b) == (done + a) + b;
  }

  /** The inner loop of a quadratic comparison: element i against every later one. */
  method CollectRow<T(!new), M(!new), C>(xs: seq<T>, matchers: seq<M>, i: nat, report: (T, T, M, M) -> seq<C>,
                               ghost matcher: T -> M, ghost pair: (T, T) -> seq<C>) returns (out: seq<C>)
    requires forall a, b :: pair(a, b) == report(a, b, matcher(a), matcher(b))
    requires i < |xs| == |matchers| && forall k | 0 <= k < |xs| :: matchers[k] == matcher(xs[k])
    ensures out == With(pair, xs[i], xs[i + 1..])
  {
    out := [];
    for j := i + 1 to |xs|
      invariant out + With(pair, xs[i], xs[j..]) == With(pair, xs[i], xs[i + 1..])
    {
      WithStep(pair, xs[i], xs, j, out, With(pair, xs[i], xs[i + 1..]));
      out := out + report(xs[i], xs[j], matchers[i], matchers[j]);
    }
  }

  /** The whole comparison, with every element's matcher computed once. */
  method Collect<T(!new), M(!new), C>(xs: seq<T>, matcher: T -> M, report: (T, T, M, M) -> seq<C>,
                            ghost pair: (T, T) -> seq<C>) returns (out: seq<C>)
    requires forall a, b :: pair(a, b) == report(a, b, matcher(a), matcher(b))
    ensures out == All(pair, xs)
  {
    var matchers: seq<M> := [];
    for i := 0 to |xs|
      invariant |matchers| == i && forall k | 0 <= k < i :: matchers[k] == matcher(xs[k])
    {
      matchers := matchers + [matcher(xs[i])];
    }
    out := [];
    assert xs[0..] == xs;
    for i := 0 to |xs|
      invariant out + All(pair, xs[i..]) == All(pair, xs)
    {
      var row := CollectRow(xs, matchers, i, report, matcher, pair);
      AllStep(pair, xs, i, out, All(pair, xs));
      out := out + row;
    }
  }

  // ---- Independence of order ----

  ghost predicate Symmetric<T, C>(pair: (T, T) -> seq<C>, xs: seq<T>) {
    forall i, j | 0 <= i < |xs| && 0 <= j < |xs| && i != j :: pair(xs[i], xs[j]) == pair(xs[j], xs[i])
  }

  function Without<T>(xs: seq<T>, k: nat): seq<T>
    requires k < |xs|
  {
    xs[..k] + xs[k + 1..]
  }

  lemma WithoutTail<T>(xs: seq<T>, k: nat)
    requires 0 < k < |xs|
    ensures Without(xs, k) == [xs[0]] + Without(xs[1..], k - 1) && xs[1..][k - 1] == xs[k]
    ensures Without(xs, k)[0] == xs[0] && Without(xs, k)[1..] == Without(xs[1..], k - 1)
  {
  }

  lemma {:induction false} WithPullsOut<T, C>(pair: (T, T) -> seq<C>, x: T, others: seq<T>, k: nat)
    requires k < |others|
    ensures multiset(With(pair, x, others)) == multiset(pair(x, others[k]))
      + multiset(With(pair, x, Without(others, k)))
  {
    if k == 0 {
      assert Without(others, 0) == others[1..];
    } else {
      WithPullsOut(pair, x, others[1..], k - 1);
      WithoutTail(others, k);
    }
  }

  lemma SymmetricTail<T, C>(pair: (T, T) -> seq<C>, xs: seq<T>)
    requires Symmetric(pair, xs) && xs != []
    ensures Symmetric(pair, xs[1..])
  {
  }

  /** Any element can be taken out first. */
  lemma {:induction false} AllPullsOut<T, C>(pair: (T, T) -> seq<C>, xs: seq<T>, k: nat)
    requires k < |xs| && Symmetric(pair, xs)
    ensures multiset(All(pair, xs)) == multiset(With(pair, xs[k], Without(xs, k))) + multiset(All(pair, Without(xs, k)))
  {
    if k == 0 {
      assert Without(xs, 0) == xs[1..];
    } else {
      SymmetricTail(pair, xs);
      AllPullsOut(pair, xs[1..], k - 1);
      WithoutTail(xs, k);
      WithPullsOut(pair, xs[0], xs[1..], k - 1);
      assert pair(xs[0], xs[k]) == pair(xs[k], xs[0]);
    }
  }

  lemma WithoutMultiset<T>(xs: seq<T>, k: nat)
    requires k < |xs|
    ensures multiset(Without(xs, k)) == multiset(xs) - multiset{xs[k]}
  {
    assert xs == xs[..k] + [xs[k]] + xs[k + 1..];
  }

  lemma {:induction false} WithIsUnordered<T, C>(pair: (T, T) -> seq<C>, x: T, a: seq<T>, b: seq<T>)
    requires multiset(a) == multiset(b)
    ensures multiset(With(pair, x, a)) == multiset(With(pair, x, b))
    decreases |a|
  {
    if a == [] {
      assert b == [] by { assert |multiset(b)| == |b|; }
    } else {
      assert a[0] in multiset(b);
      var k :| 0 <= k < |b| && b[k] == a[0];
      assert Without(a, 0) == a[1..];
      WithoutMultiset(a, 0);
      WithoutMultiset(b, k);
      WithIsUnordered(pair, x, a[1..], Without(b, k));
      WithPullsOut(pair, x, b, k);
    }
  }

  lemma SymmetricWithout<T, C>(pair: (T, T) -> seq<C>, xs: seq<T>, k: nat)
    requires Symmetric(pair, xs) && k < |xs|
    ensures Symmetric(pair, Without(xs, k))
  {
    var ys := Without(xs, k);
    forall i, j | 0 <= i < |ys| && 0 <= j < |ys| && i != j
      ensures pair(ys[i], ys[j]) == pair(ys[j], ys[i])
    {
      var p, q := if i < k then i else i + 1, if j < k then j else j + 1;
      assert ys[i] == xs[p] && ys[j] == xs[q];
    }
  }

  /** A symmetric fold over pairs does not depend on the order of the elements. */
  lemma {:induction false} AllIsUnordered<T, C>(pair: (T, T) -> seq<C>, a: seq<T>, b: seq<T>)
    requires multiset(a) == multiset(b) && Symmetric(pair, a) && Symmetric(pair, b)
    ensures multiset(All(pair, a)) == multiset(All(pair, b))
    decreases |a|
  {
    if a == [] {
      assert b == [] by { assert |multiset(b)| == |b|; }
    } else {
      assert a[0] in multiset(b);
      var k :| 0 <= k < |b| && b[k] == a[0];
      assert Without(a, 0) == a[1..];
      WithoutMultiset(a, 0);
      WithoutMultiset(b, k);
      SymmetricWithout(pair, a, 0);
      SymmetricWithout(pair, b, k);
      WithIsUnordered(pair, a[0], a[1..], Without(b, k));
      AllIsUnordered(pair, a[1..], Without(b, k));
      AllPullsOut(pair, b, k);
    }
  }
}
