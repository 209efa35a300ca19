/** Matching, overlap and ownership of routes, and the conflict report. */
module Conflicts {
  import opened Text
  import opened Patterns
  import opened Routes
  import opened StableSort
  import opened Pairs

  // ---- Matching and overlap ----

  /** routeMatches: whether a route answers a request path. */
  predicate RouteMatches(route: Route, path: string) {
    var info, p := RouteInfo(route), NormalizeRequestPath(path);
    if info.exact then p == info.path
    else if info.path == "/" then true
    else if HasSuffix(route.pattern, "/*") then info.path + "/" <= p
    else p == info.path || info.path + "/" <= p
  }

  predicate PrefixContains(prefix: string, path: string) {
    var q, p := NormalizeRequestPath(prefix), NormalizeRequestPath(path);
    q == "/" || p == q || q + "/" <= p
  }

  predicate PrefixRouteContains(route: Route, path: string) {
    var info, p := RouteInfo(route), NormalizeRequestPath(path);
    if info.exact then p == info.path
    else if info.path == "/" then true
    else if HasSuffix(route.pattern, "/*") then info.path + "/" <= p
    else p == info.path || info.path + "/" <= p
  }

  /** routeMatchersOverlap */
  predicate RouteMatchersOverlap(left: Route, right: Route) {
    var l, r := RouteInfo(left), RouteInfo(right);
    if l.exact && r.exact then l.path == r.path
    else if l.exact then PrefixRouteContains(right, l.path)
    else if r.exact then PrefixRouteContains(left, r.path)
    else PrefixContains(l.path, r.path) || PrefixContains(r.path, l.path)
  }

  /** The matcher conflictsForRoutes computes once per route. */
  datatype Matcher = Matcher(host: string, owner: string, path: string, exact: bool, wildcard: bool)

  function MatcherOf(route: Route): Matcher {
    Matcher(NormalizeHost(route.publicHost), RouteOwnerKey(route), RouteInfo(route).path, RouteInfo(route).exact,
            HasSuffix(route.pattern, "/*"))
  }

  predicate Contains(prefix: string, path: string) {
    prefix == "/" || path == prefix || prefix + "/" <= path
  }

  /** The overlaps closure of conflictsForRoutes. */
  predicate MatchersOverlap(a: Matcher, b: Matcher) {
    if a.exact && b.exact then a.path == b.path
    else
      var prefix, other := if a.exact then b else a, if a.exact then a else b;
      if other.exact then
        prefix.path == "/" || (prefix.path == other.path && !prefix.wildcard) || prefix.path + "/" <= other.path
      else Contains(prefix.path, other.path) || Contains(other.path, prefix.path)
  }

  // ---- Ownership ----

  function RouteOwnerKey(route: Route): string {
    var app, service := TrimSpace(route.canonicalAppID), TrimSpace(route.serviceID);
    if app == "" && service == "" then "" else app + "\0" + service
  }

  function Bool(b: bool): string {
    if b then "true" else "false"
  }

  function SixDigits(n: nat): string {
    var d := Decimal(n);
    (if |d| < 6 then seq(6 - |d|, _ => '0') else "") + d
  }

  function RouteConflictSortKey(route: Route): string {
    var info := RouteInfo(route);
    Join([NormalizeHost(route.publicHost), info.path, Bool(info.exact), SixDigits(info.length),
          route.canonicalAppID, route.serviceID, route.pattern], '\0')
  }

  datatype Verdict = Verdict(winning: Route, shadowed: Route, samePattern: bool)

  /** routeConflictWinner: nginx precedence, then canonical identity. */
  function ConflictWinner(left: Route, right: Route): Verdict {
    var l, r := RouteInfo(left), RouteInfo(right);
    if l.path == r.path && l.exact == r.exact then
      if Less(RouteOwnerKey(right), RouteOwnerKey(left))
         || (RouteOwnerKey(right) == RouteOwnerKey(left)
             && Less(RouteConflictSortKey(right), RouteConflictSortKey(left)))
      then Verdict(right, left, true) else Verdict(left, right, true)
    else if l.exact != r.exact then
      if l.exact then Verdict(left, right, false) else Verdict(right, left, false)
    else if l.length != r.length then
      if l.length > r.length then Verdict(left, right, false) else Verdict(right, left, false)
    else if Less(RouteConflictSortKey(right), RouteConflictSortKey(left)) then Verdict(right, left, false)
    else Verdict(left, right, false)
  }

  predicate IsIntentional(left: Route, right: Route, samePattern: bool) {
    if samePattern then left.intentionalOverride && right.intentionalOverride
    else left.intentionalOverride || right.intentionalOverride
  }

  // ---- Well-formed routes, as the builder makes them ----

  predicate Token(s: string) {
    '\0' !in s && TrimSpace(s) == s
  }

  predicate WellFormed(route: Route) {
    && CanonicalPattern(route.pattern)
    && '\0' !in route.pattern && '\0' !in route.publicHost && NormalizeHost(route.publicHost) == route.publicHost
    && Token(route.canonicalAppID) && Token(route.serviceID) && !route.remoteFallback
    && (route.exact == RouteInfo(route).exact)
    && (route.exact ==> !HasSuffix(route.pattern, "/*"))
    && route.precedence == RouteInfo(route).length + if route.exact then 100000 else 0
  }

  /** The routes of one workspace: well formed, one per key, and one spelling of the root. */
  predicate WorkspaceRoutes(routes: seq<Route>) {
    && (forall r | r in routes :: WellFormed(r))
    && (forall i, j | 0 <= i < j < |routes| :: RouteKey(routes[i]) != RouteKey(routes[j]))
    && (forall r, s | r in routes && s in routes && RouteInfo(r) == RouteInfo(s) :: r.pattern == s.pattern)
  }

  /** What a well-formed route matches, in terms of its pattern alone. */
  lemma RouteShape(r: Route)
    requires WellFormed(r)
    ensures CanonicalPath(RouteInfo(r).path)
    ensures r.exact ==> RouteInfo(r).path == r.pattern && (r.pattern == "/" || RouteInfo(r).length == |r.pattern|)
    ensures !r.exact && RouteInfo(r).path != "/" ==>
      r.pattern == RouteInfo(r).path + "/*" && HasSuffix(r.pattern, "/*") && RouteInfo(r).length == |RouteInfo(r).path|
    ensures RouteInfo(r).path == "/" ==> RouteInfo(r).length == 0
  {
    CanonicalPatternInfo(r.pattern);
    if r.pattern != "/" && r.pattern != "/*" && !HasSuffix(r.pattern, "/*") {
      CanonicalPathIsNormal(r.pattern);
    }
  }

  // ---- Overlap is exact ----

  /** Normalising a canonical path extended by one segment changes nothing. */
  lemma ChildPathIsNormal(p: string)
    requires CanonicalPath(p)
    ensures var child := (if p == "/" then "" else p) + "/x";
      NormalizeRequestPath(child) == child && CanonicalPath(child)
  {
    var child := (if p == "/" then "" else p) + "/x";
    assert forall c | c in child :: c in p || c == '/' || c == 'x';
    assert CanonicalPath(child);
    CanonicalPathIsNormal(child);
  }

  lemma OverlapHasPath(a: Route, b: Route) returns (path: string)
    requires WellFormed(a) && WellFormed(b) && MatchersOverlap(MatcherOf(a), MatcherOf(b))
    ensures RouteMatches(a, path) && RouteMatches(b, path)
  {
    RouteShape(a);
    RouteShape(b);
    var p, q := RouteInfo(a).path, RouteInfo(b).path;
    CanonicalPathIsNormal(p);
    CanonicalPathIsNormal(q);
    if a.exact {
      path := p;
    } else if b.exact {
      path := q;
    } else {
      var longer := if Contains(p, q) then q else p;
      path := (if longer == "/" then "" else longer) + "/x";
      ChildPathIsNormal(longer);
      ChildIsUnder(p, longer);
      ChildIsUnder(q, longer);
    }
  }

  lemma ChildIsUnder(p: string, longer: string)
    requires Contains(p, longer)
    ensures p == "/" || p + "/" <= (if longer == "/" then "" else longer) + "/x"
  {
    var child := (if longer == "/" then "" else longer) + "/x";
    if p != "/" && longer != "/" {
      assert longer + "/" <= child;
      if p + "/" <= longer {
        PrefixTransitive(p + "/", longer, child);
      }
    } else if p != "/" {
      assert p + "/" <= "/" ==> p == "";
    }
  }

  lemma PrefixesNest(p: string, q: string, s: string)
    requires p + "/" <= s && q + "/" <= s && |p| <= |q|
    ensures Contains(p, q)
  {
    PrefixTransitive(q, q + "/", s);
    if |p| < |q| {
      PrefixesCompare(p + "/", q, s);
    } else {
      PrefixTransitive(p, p + "/", s);
      PrefixesCompare(p, q, s);
    }
  }

  lemma SharedPathOverlaps(a: Route, b: Route, path: string)
    requires WellFormed(a) && WellFormed(b)
    requires RouteMatches(a, path) && RouteMatches(b, path)
    ensures MatchersOverlap(MatcherOf(a), MatcherOf(b))
  {
    RouteShape(a);
    RouteShape(b);
    var p, q, s := RouteInfo(a).path, RouteInfo(b).path, NormalizeRequestPath(path);
    if !a.exact && !b.exact && p != "/" && q != "/" {
      if |p| <= |q| {
        PrefixesNest(p, q, s);
      } else {
        PrefixesNest(q, p, s);
      }
    }
  }

  lemma ContainmentTestsAgree(p: string, q: string)
    requires CanonicalPath(p) && CanonicalPath(q)
    ensures PrefixContains(p, q) == Contains(p, q)
  {
    CanonicalPathIsNormal(p);
    CanonicalPathIsNormal(q);
  }

  lemma OverlapTestsAgree(a: Route, b: Route)
    requires WellFormed(a) && WellFormed(b)
    ensures MatchersOverlap(MatcherOf(a), MatcherOf(b)) == RouteMatchersOverlap(a, b)
  {
    RouteShape(a);
    RouteShape(b);
    var p, q := RouteInfo(a).path, RouteInfo(b).path;
    if !RouteInfo(a).exact && !RouteInfo(b).exact {
      ContainmentTestsAgree(p, q);
      ContainmentTestsAgree(q, p);
    } else {
      CanonicalPathIsNormal(p);
      CanonicalPathIsNormal(q);
    }
  }

  /** The report's overlap test holds exactly of the routes some request reaches both of, and
      it is the overlap routeMatchersOverlap computes. */
  lemma OverlapIsExact(a: Route, b: Route)
    requires WellFormed(a) && WellFormed(b)
    ensures MatchersOverlap(MatcherOf(a), MatcherOf(b)) <==>
      exists path :: RouteMatches(a, path) && RouteMatches(b, path)
    ensures MatchersOverlap(MatcherOf(a), MatcherOf(b)) == RouteMatchersOverlap(a, b)
  {
    if MatchersOverlap(MatcherOf(a), MatcherOf(b)) {
      var path := OverlapHasPath(a, b);
    } else {
      forall path
        ensures !(RouteMatches(a, path) && RouteMatches(b, path))
      {
        if RouteMatches(a, path) && RouteMatches(b, path) {
          SharedPathOverlaps(a, b, path);
        }
      }
    }
    OverlapTestsAgree(a, b);
  }

  // ---- The report ----

  datatype RouteConflict = RouteConflict(left: Route, right: Route, winning: Route, shadowed: Route, samePattern: bool,
                                         intentional: bool)

  predicate Competes(a: Matcher, b: Matcher) {
    a.host == b.host && a.owner != "" && b.owner != "" && a.owner != b.owner && MatchersOverlap(a, b)
  }

  /** The entry for a competing pair, the same whichever route comes first. */
  function ConflictOf(left: Route, right: Route): RouteConflict {
    var swap := Less(RouteConflictSortKey(right), RouteConflictSortKey(left));
    var a, b := if swap then right else left, if swap then left else right;
    var verdict := ConflictWinner(a, b);
    RouteConflict(a, b, verdict.winning, verdict.shadowed, verdict.samePattern,
                  IsIntentional(left, right, verdict.samePattern))
  }

  /** The body of the pair loop, given both matchers. */
  function ReportPair(left: Route, right: Route, a: Matcher, b: Matcher): seq<RouteConflict> {
    if Competes(a, b) then [ConflictOf(left, right)] else []
  }

  function ReportOf(left: Route, right: Route): seq<RouteConflict> {
    ReportPair(left, right, MatcherOf(left), MatcherOf(right))
  }

  function ReportKey(c: RouteConflict): string {
    Join([NormalizeHost(c.left.publicHost), c.winning.pattern, c.shadowed.pattern, c.left.canonicalAppID,
          c.left.serviceID, c.right.canonicalAppID, c.right.serviceID], '\0')
  }

  predicate ReportLess(a: RouteConflict, b: RouteConflict) {
    Less(ReportKey(a), ReportKey(b))
  }

  function ConflictsForRoutes(routes: seq<Route>): seq<RouteConflict> {
    Sort(ReportLess, All(ReportOf, routes))
  }

  method ReportConflicts(routes: seq<Route>) returns (conflicts: seq<RouteConflict>)
    ensures conflicts == ConflictsForRoutes(routes)
  {
    conflicts := Collect(routes, MatcherOf, ReportPair, ReportOf);
    conflicts := Sort(ReportLess, conflicts);
  }

  // ---- The report is exact and does not depend on the order of the routes ----

  /** Two routes some request reaches both of, on one host, with different owners. */
  ghost predicate Ambiguous(a: Route, b: Route) {
    && NormalizeHost(a.publicHost) == NormalizeHost(b.publicHost)
    && RouteOwnerKey(a) != "" && RouteOwnerKey(b) != "" && RouteOwnerKey(a) != RouteOwnerKey(b)
    && exists path :: RouteMatches(a, path) && RouteMatches(b, path)
  }

  lemma ReportedIsAmbiguous(a: Route, b: Route, c: RouteConflict)
    requires WellFormed(a) && WellFormed(b)
    ensures c in ReportOf(a, b) <==> Ambiguous(a, b) && c == ConflictOf(a, b)
  {
    OverlapIsExact(a, b);
  }

  /** Conflict detection is exact: what is reported is the ambiguous pairs, all of them. */
  lemma ConflictReportIsExact(routes: seq<Route>, c: RouteConflict)
    requires forall r | r in routes :: WellFormed(r)
    ensures c in ConflictsForRoutes(routes) <==> exists i, j | 0 <= i < j < |routes| ::
      Ambiguous(routes[i], routes[j]) && c == ConflictOf(routes[i], routes[j])
  {
    SortKeepsElements(ReportLess, All(ReportOf, routes));
    AllAre(ReportOf, routes, c);
    forall i, j | 0 <= i < j < |routes|
      ensures c in ReportOf(routes[i], routes[j]) <==>
        Ambiguous(routes[i], routes[j]) && c == ConflictOf(routes[i], routes[j])
    {
      ReportedIsAmbiguous(routes[i], routes[j], c);
    }
  }

  lemma SixDigitsHasNoNul(n: nat)
    ensures '\0' !in SixDigits(n)
  {
    DecimalNonempty(n);
  }

  lemma SevenParts(a: seq<string>, b: seq<string>)
    requires |a| == |b| == 7 && Free('\0', a) && Free('\0', b)
    requires Join(a, '\0') == Join(b, '\0')
    ensures a[4] == b[4] && a[5] == b[5]
  {
    JoinIsInjective(a, b, '\0');
  }

  function ConflictSortParts(route: Route): seq<string> {
    var info := RouteInfo(route);
    [NormalizeHost(route.publicHost), info.path, Bool(info.exact), SixDigits(info.length),
     route.canonicalAppID, route.serviceID, route.pattern]
  }

  lemma MatchPathHasNoNul(route: Route)
    requires WellFormed(route)
    ensures '\0' !in RouteInfo(route).path
  {
    RouteShape(route);
    var path := RouteInfo(route).path;
    assert path <= route.pattern || path == "/";
    assert forall c | c in path :: c in route.pattern || c == '/';
  }

  lemma FreeParts(h: string, p: string, e: bool, d: string, a: string, s: string, q: string)
    requires '\0' !in h && '\0' !in p && '\0' !in d && '\0' !in a && '\0' !in s && '\0' !in q
    ensures Free('\0', [h, p, Bool(e), d, a, s, q])
  {
    assert '\0' !in Bool(e);
  }

  lemma ConflictSortPartsAreFree(route: Route)
    requires WellFormed(route)
    ensures Free('\0', ConflictSortParts(route))
  {
    MatchPathHasNoNul(route);
    var info := RouteInfo(route);
    SixDigitsHasNoNul(info.length);
    FreeParts(NormalizeHost(route.publicHost), info.path, info.exact, SixDigits(info.length),
              route.canonicalAppID, route.serviceID, route.pattern);
  }

  lemma SortKeyNamesOwner(a: Route, b: Route)
    requires WellFormed(a) && WellFormed(b)
    requires RouteConflictSortKey(a) == RouteConflictSortKey(b)
    ensures a.canonicalAppID == b.canonicalAppID && a.serviceID == b.serviceID
  {
    ConflictSortPartsAreFree(a);
    ConflictSortPartsAreFree(b);
    SevenParts(ConflictSortParts(a), ConflictSortParts(b));
  }

  lemma ReportIsSymmetric(a: Route, b: Route)
    requires WellFormed(a) && WellFormed(b)
    ensures ReportOf(a, b) == ReportOf(b, a)
  {
    assert Competes(MatcherOf(a), MatcherOf(b)) == Competes(MatcherOf(b), MatcherOf(a));
    if Competes(MatcherOf(a), MatcherOf(b)) {
      var p, q := RouteConflictSortKey(a), RouteConflictSortKey(b);
      if p == q {
        SortKeyNamesOwner(a, b);
        assert false;
      }
      LessIsTotal(p, q);
      if Less(p, q) {
        LessIsAsymmetric(p, q);
      } else {
        LessIsAsymmetric(q, p);
      }
    }
  }

  /** The report, as a bag, does not depend on the order the routes come in. */
  lemma ConflictReportIsUnordered(a: seq<Route>, b: seq<Route>)
    requires forall r | r in a :: WellFormed(r)
    requires multiset(a) == multiset(b)
    ensures multiset(ConflictsForRoutes(a)) == multiset(ConflictsForRoutes(b))
  {
    forall r | r in b
      ensures r in a
    {
      assert r in multiset(b);
    }
    forall r, s | WellFormed(r) && WellFormed(s)
      ensures ReportOf(r, s) == ReportOf(s, r)
    {
      ReportIsSymmetric(r, s);
    }
    assert Symmetric(ReportOf, a) && Symmetric(ReportOf, b);
    AllIsUnordered(ReportOf, a, b);
    SortKeepsElements(ReportLess, All(ReportOf, a));
    SortKeepsElements(ReportLess, All(ReportOf, b));
  }
}
