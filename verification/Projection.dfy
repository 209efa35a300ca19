/** Which routes a host of a routing workspace has, and which nginx locations its server has: both
    come from the same pattern entries. */
module Projection {
  import opened Text
  import opened Model
  import opened Routes
  import opened Conflicts
  import opened RouteBuilder
  import opened Keyed
  import opened StableSort
  import Renderer

  /** Validation and the session-host check: valid applications with distinct identities, and no
      application domain that is the default host. */
  ghost predicate RoutingWorkspace(ws: Workspace) {
    && ValidWorkspace(ws) && !ws.IsLocalApps()
    && (forall a, b |
          a in ws.applications && b in ws.applications && a.CanonicalAppID() == b.CanonicalAppID() :: a == b)
    && (forall a | a in ws.applications :: a.CanonicalAppID() != "")
    && (forall a | a in ws.applications && a.domain != "" :: NormalizeHost(a.domain) != NormalizeHost(ws.LocalDomain()))
  }

  predicate Listed(ws: Workspace, app: Application) {
    app in ws.applications && !Skipped(ws, app, None)
  }

  // ---- The servers of a workspace ----

  /** The default server, or the one of an application whose domain and identifier are no other
      application's. */
  ghost predicate HasServer(ws: Workspace, d: Option<Application>) {
    d.Some? ==>
      && d.value in ws.applications && d.value.domain != ""
      && (forall a | a in ws.applications && a.id == d.value.id :: a == d.value)
      && (forall a | a in ws.applications && a.domain != ""
          && NormalizeHost(a.domain) == NormalizeHost(d.value.domain) :: a == d.value)
  }

  function HostOf(ws: Workspace, d: Option<Application>): string {
    if d.Some? then d.value.domain else ws.LocalDomain()
  }

  /** The application a domain belongs to needs a target of its own. */
  predicate HasOwnTarget(ws: Workspace, app: Application) {
    (AppMode(ws, app) == "local" && app.port > 0) || (app.remoteBaseUrl != "" && ws.RemoteBaseUrl(app) != "")
  }

  /** The applications a server answers for: the listed ones, and its own. */
  predicate On(ws: Workspace, d: Option<Application>, app: Application) {
    app in ws.applications && if d == Some(app) then HasOwnTarget(ws, app) else Listed(ws, app)
  }

  /** The route an entry of such an application gives on the server's host. */
  function RouteOf(ws: Workspace, d: Option<Application>, app: Application, e: Entry): Route {
    BuildRoute(ws, Some(app), HostOf(ws, d), e.pattern, AppMode(ws, app), e.exact)
  }

  // ---- From entries to routes ----

  lemma {:induction false} SortKeepsKeys(routes: seq<Route>, key: string)
    requires HasKey(RouteKey, routes, key)
    ensures exists r :: r in Sort(RouteLess, routes) && RouteKey(r) == key
  {
    var i :| 0 <= i < |routes| && RouteKey(routes[i]) == key;
    SortKeepsElements(RouteLess, routes);
    assert routes[i] in Sort(RouteLess, routes);
  }

  lemma RawRouteIsKept(ws: Workspace, raw: Route) returns (r: Route)
    requires raw in RawRoutes(ws)
    ensures r in NormalizedRoutes(ws) && RouteKey(r) == RouteKey(raw)
  {
    assert KeepsKey(RouteKey, MergeRoutes);
    DedupeKeepsKeys(RouteKey, MergeRoutes, RawRoutes(ws), raw);
    SortKeepsKeys(DedupeBy(RouteKey, MergeRoutes, RawRoutes(ws)), RouteKey(raw));
    r :| r in NormalizedRoutes(ws) && RouteKey(r) == RouteKey(raw);
  }

  lemma EqualKeys(a: Route, b: Route)
    requires WellFormed(a) && WellFormed(b) && RouteKey(a) == RouteKey(b)
    ensures NormalizeHost(a.publicHost) == NormalizeHost(b.publicHost) && a.pattern == b.pattern
    ensures a.canonicalAppID == b.canonicalAppID && a.serviceID == b.serviceID
  {
    FourParts(NormalizeHost(a.publicHost), a.pattern, a.canonicalAppID, a.serviceID,
              NormalizeHost(b.publicHost), b.pattern, b.canonicalAppID, b.serviceID);
  }

  lemma FourParts(h: string, p: string, a: string, s: string, g: string, q: string, b: string, t: string)
    requires '\0' !in h && '\0' !in p && '\0' !in a && '\0' !in s && '\0' !in g && '\0' !in q && '\0' !in b
    requires '\0' !in t
    requires Join([h, p, a, s], '\0') == Join([g, q, b, t], '\0')
    ensures h == g && p == q && a == b && s == t
  {
    var l, r := [h, p, a, s], [g, q, b, t];
    JoinIsInjective(l, r, '\0');
    assert l[0] == r[0] && l[1] == r[1] && l[2] == r[2] && l[3] == r[3];
  }

  lemma AppRoutesHave(ws: Workspace, d: Option<Application>, app: Application, e: Entry)
    requires e in RoutePatternEntries(app)
    ensures RouteOf(ws, d, app, e) in AppRoutes(ws, app, HostOf(ws, d), AppMode(ws, app))
  {
    var entries := RoutePatternEntries(app);
    var i :| 0 <= i < |entries| && entries[i] == e;
    assert AppRoutes(ws, app, HostOf(ws, d), AppMode(ws, app))[i] == RouteOf(ws, d, app, e);
  }

  lemma HostHasRoute(ws: Workspace, d: Option<Application>, app: Application, e: Entry)
    requires RoutingWorkspace(ws) && HasServer(ws, d) && On(ws, d, app) && e in RoutePatternEntries(app)
    ensures RouteOf(ws, d, app, e) in HostRoutes(ws, HostOf(ws, d), d)
  {
    AppRoutesHave(ws, d, app, e);
    if d == Some(app) {
      assert RouteOf(ws, d, app, e) in DomainRoutes(ws, app, HostOf(ws, d));
    } else {
      assert RouteOf(ws, d, app, e) in SharedRoutesOf(ws, HostOf(ws, d), d)(app);
      FlatMapHas(SharedRoutesOf(ws, HostOf(ws, d), d), ws.applications, RouteOf(ws, d, app, e));
    }
  }

  lemma HostRouteIsRaw(ws: Workspace, d: Option<Application>, r: Route)
    requires !ws.IsLocalApps() && HasServer(ws, d) && r in HostRoutes(ws, HostOf(ws, d), d)
    ensures r in RawRoutes(ws)
  {
    if d.Some? {
      assert r in DomainHostRoutesOf(ws)(d.value);
      FlatMapHas(DomainHostRoutesOf(ws), ws.applications, r);
    }
  }

  /** Every entry of an application a server answers for is a route of its host. */
  lemma EntryHasRoute(ws: Workspace, d: Option<Application>, app: Application, e: Entry) returns (r: Route)
    requires RoutingWorkspace(ws) && HasServer(ws, d) && On(ws, d, app) && e in RoutePatternEntries(app)
    ensures r in NormalizedRoutes(ws) && r.pattern == e.pattern && r.canonicalAppID == app.CanonicalAppID()
    ensures NormalizeHost(r.publicHost) == NormalizeHost(HostOf(ws, d))
  {
    HostHasRoute(ws, d, app, e);
    var raw := RouteOf(ws, d, app, e);
    HostRouteIsRaw(ws, d, raw);
    RawRoutesAreRegular(ws, raw);
    r := RawRouteIsKept(ws, raw);
    RoutingRoutesAreRegular(ws);
    EqualKeys(r, raw);
  }

  // ---- From routes to entries ----

  /** Deduplication and sorting only change the override mark. */
  predicate FromRaw(raw: seq<Route>, r: Route) {
    exists q | q in raw :: SameShape(q, r)
  }

  function IsFromRaw(raw: seq<Route>): Route -> bool {
    (r: Route) => FromRaw(raw, r)
  }

  lemma MergedIsFromRaw(raw: seq<Route>, a: Route, b: Route)
    requires FromRaw(raw, a)
    ensures FromRaw(raw, MergeRoutes(a, b))
  {
    var q :| q in raw && SameShape(q, a);
    assert SameShape(q, MergeRoutes(a, b));
  }

  lemma NormalizedRouteIsRaw(ws: Workspace, r: Route) returns (raw: Route)
    requires r in NormalizedRoutes(ws)
    ensures raw in RawRoutes(ws) && SameShape(raw, r)
  {
    var all := RawRoutes(ws);
    forall q | q in all ensures IsFromRaw(all)(q) { assert SameShape(q, q); }
    forall a, b ensures IsFromRaw(all)(a) ==> IsFromRaw(all)(MergeRoutes(a, b)) {
      if FromRaw(all, a) { MergedIsFromRaw(all, a, b); }
    }
    ProjectionKeeps(all, IsFromRaw(all));
    assert IsFromRaw(all)(r);
    raw :| raw in all && SameShape(raw, r);
  }

  /** A route of any host is an entry of an application it answers for, or a catch-all. */
  lemma HostRouteHasEntry(ws: Workspace, d: Option<Application>, r: Route) returns (app: Application, e: Entry)
    requires r in HostRoutes(ws, HostOf(ws, d), d) && r.pattern != "/*" && (d.Some? ==> d.value in ws.applications)
    ensures On(ws, d, app) && e in RoutePatternEntries(app)
    ensures r.pattern == e.pattern && r.canonicalAppID == app.CanonicalAppID()
      && r.publicHost == NormalizeHost(HostOf(ws, d))
  {
    var host := HostOf(ws, d);
    FlatMapHas(SharedRoutesOf(ws, host, d), ws.applications, r);
    if a :| a in ws.applications && r in SharedRoutesOf(ws, host, d)(a) {
      app := a;
      e := AppRouteHasEntry(ws, app, host, AppMode(ws, app), r);
    } else {
      FallbackPattern(ws, host, d);
      assert r in DomainRoutes(ws, d.value, host);
      app := d.value;
      e := AppRouteHasEntry(ws, app, host, AppMode(ws, app), r);
    }
  }

  lemma FallbackPattern(ws: Workspace, host: string, domainApp: Option<Application>)
    ensures FallbackRoute(ws, host, domainApp).pattern == "/*"
  {
    FallbackShape(ws, host, domainApp);
  }

  lemma AppRouteHasEntry(ws: Workspace, app: Application, host: string, mode: string, r: Route) returns (e: Entry)
    requires r in AppRoutes(ws, app, host, mode)
    ensures e in RoutePatternEntries(app) && r.pattern == e.pattern
    ensures r.canonicalAppID == app.CanonicalAppID() && r.publicHost == NormalizeHost(host)
  {
    var routes := AppRoutes(ws, app, host, mode);
    var i :| 0 <= i < |routes| && routes[i] == r;
    e := RoutePatternEntries(app)[i];
  }

  lemma RawRouteHasEntry(ws: Workspace, r: Route) returns (d: Option<Application>, app: Application, e: Entry)
    requires !ws.IsLocalApps() && r in RawRoutes(ws) && r.pattern != "/*"
    ensures d.Some? ==> d.value in ws.applications && d.value.domain != ""
    ensures On(ws, d, app) && e in RoutePatternEntries(app)
    ensures r.pattern == e.pattern && r.canonicalAppID == app.CanonicalAppID()
      && r.publicHost == NormalizeHost(HostOf(ws, d))
  {
    FlatMapHas(DomainHostRoutesOf(ws), ws.applications, r);
    if a :| a in ws.applications && r in DomainHostRoutesOf(ws)(a) {
      d := Some(a);
    } else {
      d := None;
    }
    app, e := HostRouteHasEntry(ws, d, r);
  }

  lemma HostsTellServers(ws: Workspace, d: Option<Application>, other: Option<Application>)
    requires RoutingWorkspace(ws) && HasServer(ws, d)
    requires other.Some? ==> other.value in ws.applications && other.value.domain != ""
    requires NormalizeHost(HostOf(ws, other)) == NormalizeHost(HostOf(ws, d))
    ensures other == d
  {
  }

  /** Every route of a host except the catch-all is an entry of an application it answers for. */
  lemma RouteHasEntry(ws: Workspace, d: Option<Application>, r: Route) returns (app: Application, e: Entry)
    requires RoutingWorkspace(ws) && HasServer(ws, d) && r in NormalizedRoutes(ws) && r.pattern != "/*"
    requires NormalizeHost(r.publicHost) == NormalizeHost(HostOf(ws, d))
    ensures On(ws, d, app) && e in RoutePatternEntries(app)
    ensures r.pattern == e.pattern && r.canonicalAppID == app.CanonicalAppID()
  {
    var raw := NormalizedRouteIsRaw(ws, r);
    var other;
    other, app, e := RawRouteHasEntry(ws, raw);
    assert StableHost(HostOf(ws, other));
    HostsTellServers(ws, d, other);
  }

  // ---- The patterns the renderer looks up ----

  lemma {:induction false} PatternsForAre(routes: seq<Route>, appID: string, pattern: string)
    ensures pattern in Renderer.PatternsFor(routes, appID)
      <==> exists r | r in routes :: r.canonicalAppID == appID && r.pattern == pattern
  {
    if routes != [] {
      PatternsForAre(routes[..|routes| - 1], appID, pattern);
      assert routes == routes[..|routes| - 1] + [routes[|routes| - 1]];
    }
  }

  lemma AppWithID(ws: Workspace, a: Application, b: Application)
    requires RoutingWorkspace(ws) && a in ws.applications && b in ws.applications
    requires a.CanonicalAppID() == b.CanonicalAppID()
    ensures a == b
  {
  }

  /** What is looked up for an application is its own entries, and perhaps the catch-all. */
  lemma PatternHasEntry(ws: Workspace, app: Application, pattern: string) returns (e: Entry)
    requires RoutingWorkspace(ws) && app in ws.applications && pattern != "/*"
    requires pattern in Renderer.PatternsFor(NormalizedRoutes(ws), app.CanonicalAppID())
    ensures e in RoutePatternEntries(app) && e.pattern == pattern
  {
    PatternsForAre(NormalizedRoutes(ws), app.CanonicalAppID(), pattern);
    var r :| r in NormalizedRoutes(ws) && r.canonicalAppID == app.CanonicalAppID() && r.pattern == pattern;
    var raw := NormalizedRouteIsRaw(ws, r);
    var other, owner;
    other, owner, e := RawRouteHasEntry(ws, raw);
    AppWithID(ws, owner, app);
  }

  /** An application that a server answers for always has patterns to look up, so the renderer's
      guess is never used. */
  lemma EntryIsLookedUp(ws: Workspace, d: Option<Application>, app: Application, e: Entry)
    requires RoutingWorkspace(ws) && HasServer(ws, d) && On(ws, d, app) && e in RoutePatternEntries(app)
    ensures e.pattern in Renderer.PatternsFor(NormalizedRoutes(ws), app.CanonicalAppID())
  {
    var r := EntryHasRoute(ws, d, app, e);
    PatternsForAre(NormalizedRoutes(ws), app.CanonicalAppID(), e.pattern);
  }
}
