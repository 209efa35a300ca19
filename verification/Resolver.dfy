/** resolveRoutes: the integer precedence and the sort pick the route that nginx's
    precedence rules pick, whatever order the routes are listed in. */
module Resolver {
  import opened Text
  import opened Patterns
  import opened Routes
  import opened Conflicts
  import opened StableSort

  // ---- The comparator is a strict weak order ----

  /** The comparator as a lexicographic order on four keys. */
  predicate KeyedLess(h1: string, n1: nat, p1: string, k1: string, h2: string, n2: nat, p2: string, k2: string) {
    if h1 != h2 then Less(h1, h2) else if n1 != n2 then n1 > n2 else if p1 != p2 then Less(p1, p2) else Less(k1, k2)
  }

  lemma RouteLessIsKeyed(a: Route, b: Route)
    ensures RouteLess(a, b) == KeyedLess(
      NormalizeHost(a.publicHost), a.precedence, a.pattern, RouteSortKey(a),
      NormalizeHost(b.publicHost), b.precedence, b.pattern, RouteSortKey(b))
  {
  }

  lemma LessSplits(a: string, b: string, c: string)
    ensures Less(a, c) ==> Less(a, b) || Less(b, c)
    ensures Less(a, b) && Less(b, c) ==> Less(a, c)
    ensures !Less(a, a)
    ensures a != c && !Less(a, c) ==> Less(c, a)
  {
    LessIsIrreflexive(a);
    LessIsTotal(a, c);
    LessIsTotal(a, b);
    LessIsTotal(b, c);
    if Less(a, b) && Less(b, c) {
      LessIsTransitive(a, b, c);
    }
    if Less(a, c) && Less(b, a) {
      LessIsTransitive(b, a, c);
    }
  }

  lemma KeyedLessSplits(h1: string, n1: nat, p1: string, k1: string, h2: string, n2: nat, p2: string, k2: string,
                        h3: string, n3: nat, p3: string, k3: string)
    ensures KeyedLess(h1, n1, p1, k1, h2, n2, p2, k2) && KeyedLess(h2, n2, p2, k2, h3, n3, p3, k3)
      ==> KeyedLess(h1, n1, p1, k1, h3, n3, p3, k3)
    ensures KeyedLess(h1, n1, p1, k1, h3, n3, p3, k3)
      ==> KeyedLess(h1, n1, p1, k1, h2, n2, p2, k2) || KeyedLess(h2, n2, p2, k2, h3, n3, p3, k3)
    ensures !KeyedLess(h1, n1, p1, k1, h1, n1, p1, k1)
  {
    LessSplits(h1, h2, h3);
    LessSplits(h1, h3, h2);
    LessSplits(h2, h3, h1);
    LessSplits(h2, h1, h3);
    LessSplits(p1, p2, p3);
    LessSplits(p1, p3, p2);
    LessSplits(p2, p3, p1);
    LessSplits(p2, p1, p3);
    LessSplits(k1, k2, k3);
  }

  /** Sorting with sortRoutes' comparator is well defined. */
  lemma RouteLessIsStrictWeak()
    ensures StrictWeakOrder(RouteLess)
  {
    forall x, y, z
      ensures !RouteLess(x, x)
      ensures RouteLess(x, y) && RouteLess(y, z) ==> RouteLess(x, z)
      ensures RouteLess(x, z) ==> RouteLess(x, y) || RouteLess(y, z)
    {
      RouteLessSplits(x, y, z);
    }
  }

  lemma RouteLessSplits(x: Route, y: Route, z: Route)
    ensures !RouteLess(x, x)
    ensures RouteLess(x, y) && RouteLess(y, z) ==> RouteLess(x, z)
    ensures RouteLess(x, z) ==> RouteLess(x, y) || RouteLess(y, z)
  {
    RouteLessIsKeyed(x, x);
    RouteLessIsKeyed(x, y);
    RouteLessIsKeyed(y, z);
    RouteLessIsKeyed(x, z);
    KeyedLessSplits(
      NormalizeHost(x.publicHost), x.precedence, x.pattern, RouteSortKey(x),
      NormalizeHost(y.publicHost), y.precedence, y.pattern, RouteSortKey(y),
      NormalizeHost(z.publicHost), z.precedence, z.pattern, RouteSortKey(z));
  }

  // ---- Resolution ----

  predicate IsCandidate(route: Route, host: string, path: string) {
    NormalizeHost(route.publicHost) == NormalizeHost(host) && RouteMatches(route, NormalizeRequestPath(path))
  }

  function Candidates(routes: seq<Route>, host: string, path: string): seq<Route> {
    if routes == [] then []
    else
      var route := routes[|routes| - 1];
      Candidates(routes[..|routes| - 1], host, path) + if IsCandidate(route, host, path) then [route] else []
  }

  function Resolve(routes: seq<Route>, host: string, path: string): Option<Route> {
    var sorted := Sort(RouteLess, Candidates(routes, host, path));
    if sorted == [] then None else Some(sorted[0])
  }

  method ResolveRoutes(routes: seq<Route>, host: string, path: string) returns (winner: Option<Route>)
    ensures winner == Resolve(routes, host, path)
  {
    var candidates := [];
    for i := 0 to |routes|
      invariant candidates == Candidates(routes[..i], host, path)
    {
      assert routes[..i + 1][..i] == routes[..i];
      if IsCandidate(routes[i], host, path) {
        candidates := candidates + [routes[i]];
      }
    }
    assert routes[..|routes|] == routes;
    var sorted := Sort(RouteLess, candidates);
    winner := if sorted == [] then None else Some(sorted[0]);
  }

  lemma {:induction false} CandidatesAre(routes: seq<Route>, host: string, path: string)
    ensures forall r :: r in Candidates(routes, host, path) <==> r in routes && IsCandidate(r, host, path)
  {
    if routes != [] {
      CandidatesAre(routes[..|routes| - 1], host, path);
      assert routes == routes[..|routes| - 1] + [routes[|routes| - 1]];
    }
  }

  /** The winner is a candidate that no candidate precedes. */
  lemma ResolveIsFirst(routes: seq<Route>, host: string, path: string)
    ensures match Resolve(routes, host, path)
      case None => forall r | r in routes :: !IsCandidate(r, host, path)
      case Some(w) =>
        && w in routes && IsCandidate(w, host, path)
        && forall r | r in routes && IsCandidate(r, host, path) :: !RouteLess(r, w)
  {
    var candidates := Candidates(routes, host, path);
    CandidatesAre(routes, host, path);
    RouteLessIsStrictWeak();
    SortKeepsElements(RouteLess, candidates);
    SortOrders(RouteLess, candidates);
    var sorted := Sort(RouteLess, candidates);
    if sorted != [] {
      forall r | r in candidates
        ensures !RouteLess(r, sorted[0])
      {
        assert r in sorted;
        var j :| 0 <= j < |sorted| && sorted[j] == r;
        if j == 0 {
          RouteLessSplits(r, r, r);
        }
      }
    } else {
      forall r | r in routes
        ensures !IsCandidate(r, host, path)
      {
        assert r !in sorted;
      }
    }
  }

  // ---- The tie-breakers agree ----

  lemma {:induction false} LessOfParts(a: string, x: string, b: string, y: string)
    requires '\0' !in a && '\0' !in b
    ensures Less(a + "\0" + x, b + "\0" + y) <==> Less(a, b) || (a == b && Less(x, y))
  {
    var l, r := a + "\0" + x, b + "\0" + y;
    assert l[0] == (if a == "" then '\0' else a[0]) && r[0] == (if b == "" then '\0' else b[0]);
    if a == "" || b == "" {
      assert a == "" ==> l[1..] == x;
      assert b == "" ==> r[1..] == y;
      assert a != "" ==> a[0] > '\0' by { assert a != "" ==> a[0] in a; }
      assert b != "" ==> b[0] > '\0' by { assert b != "" ==> b[0] in b; }
    } else {
      assert l[1..] == a[1..] + "\0" + x && r[1..] == b[1..] + "\0" + y;
      LessOfParts(a[1..], x, b[1..], y);
      assert a == [a[0]] + a[1..] && b == [b[0]] + b[1..];
    }
  }

  function Owner(app: string, service: string): string {
    if app == "" && service == "" then "" else app + "\0" + service
  }

  function SortKey(host: string, pattern: string, app: string, service: string, target: string): string {
    Join([host, pattern, app, service, target], '\0')
  }

  lemma SortKeyUnfolds(h: string, p: string, a: string, s: string, t: string)
    ensures SortKey(h, p, a, s, t) == h + "\0" + (p + "\0" + (a + "\0" + (s + "\0" + t)))
  {
    assert Join([t], '\0') == t;
    assert [s, t][1..] == [t];
    assert Join([s, t], '\0') == s + "\0" + t;
    assert [a, s, t][1..] == [s, t];
    assert Join([a, s, t], '\0') == a + "\0" + (s + "\0" + t);
    assert [p, a, s, t][1..] == [a, s, t];
    assert Join([p, a, s, t], '\0') == p + "\0" + (a + "\0" + (s + "\0" + t));
    assert [h, p, a, s, t][1..] == [p, a, s, t];
  }

  /** Owner order decides the sort key, on one host and pattern. */
  lemma OwnerOrderIsSortOrder(h: string, p: string, a: string, s: string, t: string, b: string, u: string, v: string)
    requires '\0' !in h && '\0' !in p && '\0' !in a && '\0' !in s && '\0' !in b && '\0' !in u
    requires Less(Owner(a, s), Owner(b, u))
    ensures Less(SortKey(h, p, a, s, t), SortKey(h, p, b, u, v))
  {
    SortKeyUnfolds(h, p, a, s, t);
    SortKeyUnfolds(h, p, b, u, v);
    LessOfParts(h, p + "\0" + (a + "\0" + (s + "\0" + t)), h, p + "\0" + (b + "\0" + (u + "\0" + v)));
    LessOfParts(p, a + "\0" + (s + "\0" + t), p, b + "\0" + (u + "\0" + v));
    LessOfParts(a, s + "\0" + t, b, u + "\0" + v);
    LessOfParts(s, t, u, v);
    LessOfParts(a, s, b, u);
  }

  lemma OwnerIsInjective(a: string, s: string, b: string, u: string)
    requires '\0' !in a && '\0' !in b
    requires Owner(a, s) == Owner(b, u)
    ensures a == b && s == u
  {
    if Owner(a, s) != "" {
      SplitAtSeparator('\0', a, s, b, u);
    }
  }

  // ---- The precedence number is nginx's precedence ----

  /** Of two routes that match one path, an exact one has the higher number, and of two
      prefixes the longer one, whatever the lengths: an exact match is as long as the path. */
  lemma PrecedenceOfMatches(a: Route, b: Route, path: string)
    requires WellFormed(a) && WellFormed(b) && RouteMatches(a, path) && RouteMatches(b, path)
    ensures a.exact && !b.exact ==> a.precedence > b.precedence
    ensures a.exact && b.exact ==> RouteInfo(a) == RouteInfo(b) && a.precedence == b.precedence
    ensures !a.exact && !b.exact ==> a.precedence == RouteInfo(a).length && b.precedence == RouteInfo(b).length
    ensures !a.exact && !b.exact && a.precedence == b.precedence ==> RouteInfo(a) == RouteInfo(b)
    ensures RouteInfo(a).path == RouteInfo(b).path && a.exact == b.exact ==> RouteInfo(a) == RouteInfo(b)
  {
    RouteShape(a);
    RouteShape(b);
    var p, q, s := RouteInfo(a).path, RouteInfo(b).path, NormalizeRequestPath(path);
    if a.exact && !b.exact && q != "/" {
      assert q + "/" <= s;
      assert q != "" && s != "/";
    } else if !a.exact && !b.exact && |p| == |q| && p != "/" && q != "/" {
      PrefixTransitive(p, p + "/", s);
      PrefixTransitive(q, q + "/", s);
      PrefixesCompare(p, q, s);
    }
  }

  /** Between routes with one pattern, sort order is owner order. */
  lemma TieGoesToOwner(w: Route, r: Route)
    requires WellFormed(w) && WellFormed(r) && RouteKey(w) != RouteKey(r)
    requires NormalizeHost(w.publicHost) == NormalizeHost(r.publicHost)
    requires w.pattern == r.pattern && !Less(RouteSortKey(r), RouteSortKey(w))
    ensures Less(RouteOwnerKey(w), RouteOwnerKey(r))
  {
    var h := NormalizeHost(w.publicHost);
    assert RouteOwnerKey(w) == Owner(w.canonicalAppID, w.serviceID);
    assert RouteOwnerKey(r) == Owner(r.canonicalAppID, r.serviceID);
    LessIsTotal(RouteOwnerKey(w), RouteOwnerKey(r));
    if RouteOwnerKey(w) == RouteOwnerKey(r) {
      OwnerIsInjective(w.canonicalAppID, w.serviceID, r.canonicalAppID, r.serviceID);
      assert false;
    } else if Less(RouteOwnerKey(r), RouteOwnerKey(w)) {
      OwnerOrderIsSortOrder(h, w.pattern, r.canonicalAppID, r.serviceID, r.target, w.canonicalAppID, w.serviceID,
                            w.target);
      assert false;
    }
  }

  /** w beats r, whichever is named first. */
  predicate Beats(w: Route, r: Route) {
    ConflictWinner(w, r).winning == w && ConflictWinner(r, w).winning == w
  }

  lemma BeatsByOwner(w: Route, r: Route)
    requires RouteInfo(w) == RouteInfo(r) && Less(RouteOwnerKey(w), RouteOwnerKey(r))
    ensures Beats(w, r)
  {
    LessIsAsymmetric(RouteOwnerKey(w), RouteOwnerKey(r));
    LessIsIrreflexive(RouteOwnerKey(w));
  }

  lemma BeatsByPrecedence(w: Route, r: Route)
    requires var p, q := RouteInfo(w), RouteInfo(r);
      (p.exact && !q.exact) || (p.exact == q.exact && p.length > q.length && p.path != q.path)
    ensures Beats(w, r)
  {
  }

  lemma NotAfter(w: Route, r: Route)
    requires NormalizeHost(w.publicHost) == NormalizeHost(r.publicHost) && !RouteLess(r, w)
    ensures w.precedence >= r.precedence
    ensures w.precedence == r.precedence && w.pattern == r.pattern ==> !Less(RouteSortKey(r), RouteSortKey(w))
  {
    RouteLessIsKeyed(r, w);
  }

  lemma FirstBeats(w: Route, r: Route, path: string)
    requires WellFormed(w) && WellFormed(r) && RouteMatches(w, path) && RouteMatches(r, path)
    requires NormalizeHost(w.publicHost) == NormalizeHost(r.publicHost)
    requires RouteInfo(w) == RouteInfo(r) ==> w.pattern == r.pattern
    requires RouteKey(w) != RouteKey(r)
    requires !RouteLess(r, w)
    ensures Beats(w, r)
  {
    PrecedenceOfMatches(w, r, path);
    PrecedenceOfMatches(r, w, path);
    NotAfter(w, r);
    if RouteInfo(w) == RouteInfo(r) {
      TieGoesToOwner(w, r);
      BeatsByOwner(w, r);
    } else {
      BeatsByPrecedence(w, r);
    }
  }

  lemma BeatingIsOneWay(a: Route, b: Route)
    requires Beats(a, b) && Beats(b, a)
    ensures a == b
  {
  }

  lemma DistinctKeys(routes: seq<Route>, a: Route, b: Route)
    requires WorkspaceRoutes(routes) && a in routes && b in routes && a != b
    ensures RouteKey(a) != RouteKey(b)
  {
    var i :| 0 <= i < |routes| && routes[i] == a;
    var j :| 0 <= j < |routes| && routes[j] == b;
    assert i < j || j < i;
  }

  /** resolveRoutes finds a route exactly when one matches, and the one it finds beats every
      other matching route under nginx precedence and the ownership tie-breaker. */
  lemma ResolverPicksTheWinner(routes: seq<Route>, host: string, path: string)
    requires WorkspaceRoutes(routes)
    ensures match Resolve(routes, host, path)
      case None => forall r | r in routes :: !IsCandidate(r, host, path)
      case Some(w) =>
        && w in routes && IsCandidate(w, host, path)
        && forall r | r in routes && IsCandidate(r, host, path) && r != w :: Beats(w, r)
  {
    ResolveIsFirst(routes, host, path);
    if w :| Resolve(routes, host, path) == Some(w) {
      forall r | r in routes && IsCandidate(r, host, path) && r != w
        ensures Beats(w, r)
      {
        DistinctKeys(routes, w, r);
        FirstBeats(w, r, NormalizeRequestPath(path));
      }
    }
  }

  /** The resolution does not depend on the order the routes are listed in. */
  lemma ResolverIsUnordered(a: seq<Route>, b: seq<Route>, host: string, path: string)
    requires WorkspaceRoutes(a) && WorkspaceRoutes(b) && multiset(a) == multiset(b)
    ensures Resolve(a, host, path) == Resolve(b, host, path)
  {
    assert forall r :: r in a <==> r in multiset(a);
    assert forall r :: r in b <==> r in multiset(b);
    ResolverPicksTheWinner(a, host, path);
    ResolverPicksTheWinner(b, host, path);
    var x, y := Resolve(a, host, path), Resolve(b, host, path);
    if x.Some? && y.Some? && x != y {
      BeatingIsOneWay(x.value, y.value);
    }
  }
}
