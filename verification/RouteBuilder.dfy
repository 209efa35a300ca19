/** buildNormalizedRoutes as the source runs it, and the shape of what it builds. */
module RouteBuilder {
  import opened Text
  import opened Model
  import opened Patterns
  import opened Routes
  import opened Conflicts
  import opened StableSort
  import opened Keyed

  // ---- The loops ----

  method AppendForHost(ws: Workspace, routes: seq<Route>, host: string, domainApp: Option<Application>)
    returns (out: seq<Route>)
    ensures out == routes + HostRoutes(ws, host, domainApp)
  {
    out := AppendEach(SharedRoutesOf(ws, host, domainApp), ws.applications, routes);
    var last: seq<Route> := [];
    if domainApp.Some? {
      last := DomainRoutes(ws, domainApp.value, host);
    }
    last := last + [FallbackRoute(ws, host, domainApp)];
    ConcatAssociates(routes, FlatMap(SharedRoutesOf(ws, host, domainApp), ws.applications), last);
    out := out + last;
  }

  method CollectRoutes(ws: Workspace) returns (routes: seq<Route>)
    ensures routes == RawRoutes(ws)
  {
    if ws.IsLocalApps() {
      routes := AppendEach(LocalAppRoutesOf(ws), ws.applications, []);
    } else {
      routes := AppendForHost(ws, [], ws.LocalDomain(), None);
      assert routes == HostRoutes(ws, ws.LocalDomain(), None);
      routes := AppendEach(DomainHostRoutesOf(ws), ws.applications, routes);
    }
  }

  method BuildNormalizedRoutes(ws: Workspace) returns (routes: seq<Route>)
    ensures routes == NormalizedRoutes(ws)
  {
    routes := CollectRoutes(ws);
    assert KeepsKey(RouteKey, MergeRoutes);
    routes := Dedupe(RouteKey, MergeRoutes, routes);
    routes := Sort(RouteLess, routes);
  }

  // ---- What validation guarantees about an application ----

  predicate ValidPath(path: string) {
    CanonicalPath(path) && path != "/" && '\0' !in path
  }

  predicate ValidPattern(pattern: string) {
    CanonicalPattern(pattern) && '\0' !in pattern
  }

  predicate ValidApplication(app: Application) {
    && Token(app.CanonicalAppID()) && Token(app.serviceID)
    && CanonicalPath(app.PublicRoutePath())
    && (app.PublicRoutePath() != "/" ==> ValidPath(NormalizeRequestPath(app.IngressPath())))
    && (app.BackendContextPath() != "" && app.BackendContextPath() != "/" ==> ValidPath(app.BackendContextPath()))
    && (HasOwnPattern(app) ==> ValidPattern(NormalizeRequestPath(app.routePattern.value)))
  }

  /** A host that normalising once settles. */
  predicate StableHost(host: string) {
    '\0' !in host && NormalizeHost(NormalizeHost(host)) == NormalizeHost(host)
  }

  predicate ValidWorkspace(ws: Workspace) {
    StableHost(ws.LocalDomain()) && forall app | app in ws.applications ::
      ValidApplication(app) && StableHost(app.domain)
  }

  // ---- Hosts that validation accepts are stable ----

  predicate HostChar(c: char) {
    'a' <= c <= 'z' || '0' <= c <= '9' || c == '-' || c == '.'
  }

  lemma {:induction false} LowerIsIdentity(s: string)
    requires forall c | c in s :: HostChar(c)
    ensures Lower(s) == s
  {
    if s != "" {
      assert s[0] in s;
      LowerIsIdentity(s[1..]);
    }
  }

  lemma PlainHostNormalizes(host: string)
    requires forall c | c in host :: HostChar(c)
    ensures NormalizeHost(host) == TrimSuffix(host, ".")
  {
    TrimSpaceIsIdentity(host);
    forall i | 0 <= i < |host|
      ensures host[i] != ':'
    {
      assert host[i] in host;
    }
    LowerIsIdentity(TrimSuffix(host, "."));
  }

  lemma TrimDotSettles(host: string)
    requires !HasSuffix(host, "..")
    ensures TrimSuffix(TrimSuffix(host, "."), ".") == TrimSuffix(host, ".")
  {
    var once := TrimSuffix(host, ".");
    assert HasSuffix(host, ".") && HasSuffix(once, ".") ==> HasSuffix(host, "..");
  }

  /** Lower-case dotted names, with or without one trailing dot, are stable. */
  lemma HostnamesAreStable(host: string)
    requires forall c | c in host :: HostChar(c)
    requires !HasSuffix(host, "..")
    ensures StableHost(host)
  {
    TrimDotSettles(host);
    PlainHostNormalizes(host);
    PlainHostNormalizes(TrimSuffix(host, "."));
    SettledHostIsStable(host, TrimSuffix(host, "."));
  }

  lemma SettledHostIsStable(host: string, once: string)
    requires forall c | c in host :: HostChar(c)
    requires NormalizeHost(host) == once && NormalizeHost(once) == once
    ensures StableHost(host)
  {
  }

  predicate GoodEntry(e: Entry) {
    && CanonicalPattern(e.pattern) && '\0' !in e.pattern
    && (RoutePatternInfo(e.pattern).exact || e.exact) == !HasSuffix(e.pattern, "/*")
  }

  lemma WildcardEntryIsGood(path: string)
    requires ValidPath(path)
    ensures GoodEntry(Entry(path + "/*", false))
  {
    var p := path + "/*";
    WildcardPatternInfo(path);
    assert '\0' !in p;
    assert CanonicalPattern(p);
  }

  lemma ExactEntryIsGood(path: string)
    requires ValidPath(path)
    ensures GoodEntry(Entry(path, true))
  {
    CanonicalPathIsNormal(path);
  }

  lemma RootEntryIsGood()
    ensures GoodEntry(Entry("/*", false)) && GoodEntry(Entry("/", true))
  {
    RootPatternInfo();
    assert !HasSuffix("/", "/*") && '\0' !in "/*" && '\0' !in "/";
    assert CanonicalPath("/");
  }

  lemma ContextPathIsNormal(app: Application)
    requires ValidApplication(app)
    ensures IsContextRoot(app) <==>
      app.PublicRoutePath() == "/" && app.BackendContextPath() != "" && app.BackendContextPath() != "/"
    ensures IsContextRoot(app) ==> NormalizeRequestPath(app.BackendContextPath()) == app.BackendContextPath()
  {
    NormalContext(app.BackendContextPath());
  }

  lemma NormalContext(context: string)
    requires context != "" && context != "/" ==> ValidPath(context)
    ensures context != "" ==> NormalizeRequestPath(context) == context && TrimSpace(context) == context
    ensures TrimSpace("") == ""
  {
    if context != "" {
      assert CanonicalPath("/");
      CanonicalPathIsNormal(context);
    }
  }

  lemma OwnPatternEntriesAreGood(pattern: string, e: Entry)
    requires ValidPattern(pattern) && e in OwnPatternEntries(pattern)
    ensures GoodEntry(e)
  {
    RootEntryIsGood();
    RootPatternInfo();
    CanonicalPatternInfo(pattern);
  }

  lemma ContextEntriesAreGood(context: string, e: Entry)
    requires ValidPath(context) && e in ContextEntries(context)
    ensures GoodEntry(e)
  {
    RootEntryIsGood();
    ExactEntryIsGood(context);
    WildcardEntryIsGood(context);
  }

  lemma PathEntriesAreGood(path: string, e: Entry)
    requires ValidPath(path) && e in PathEntries(path)
    ensures GoodEntry(e)
  {
    ExactEntryIsGood(path);
    WildcardEntryIsGood(path);
  }

  lemma EntriesAreGood(app: Application, e: Entry)
    requires ValidApplication(app) && e in RoutePatternEntries(app)
    ensures GoodEntry(e)
  {
    if IsContextRoot(app) {
      ContextPathIsNormal(app);
      ContextEntriesAreGood(NormalizeRequestPath(app.BackendContextPath()), e);
    } else if HasOwnPattern(app) {
      OwnPatternEntriesAreGood(NormalizeRequestPath(app.routePattern.value), e);
    } else if app.PublicRoutePath() != "/" {
      CanonicalPathIsNormal(app.PublicRoutePath());
      PathEntriesAreGood(NormalizeRequestPath(app.IngressPath()), e);
    } else {
      RootEntryIsGood();
    }
  }

  // ---- What the builder guarantees about the routes ----

  /** A well-formed route whose exactness can be read off its pattern. */
  predicate Regular(route: Route) {
    WellFormed(route) && route.exact == !HasSuffix(route.pattern, "/*")
  }

  /** The single route of a local-apps application. */
  predicate RootOnly(route: Route) {
    WellFormed(route) && route.pattern == "/" && !route.exact
  }

  lemma {:induction false} LowerHasNoNul(s: string)
    requires '\0' !in s
    ensures '\0' !in Lower(s)
  {
    if s != "" {
      LowerHasNoNul(s[1..]);
    }
  }

  lemma {:induction false} BeforeColonIsPrefix(s: string)
    ensures forall c | c in BeforeColon(s) :: c in s
  {
    if s != "" && s[0] != ':' {
      BeforeColonIsPrefix(s[1..]);
    }
  }

  lemma {:induction false} TrimLeftSpaceIsPart(s: string)
    ensures forall c | c in TrimLeftSpace(s) :: c in s
  {
    if s != "" && IsSpace(s[0]) {
      TrimLeftSpaceIsPart(s[1..]);
    }
  }

  lemma {:induction false} TrimRightSpaceIsPart(s: string)
    ensures forall c | c in TrimRightSpace(s) :: c in s
  {
    if s != "" && IsSpace(s[|s| - 1]) {
      TrimRightSpaceIsPart(s[..|s| - 1]);
    }
  }

  lemma NormalizeHostHasNoNul(host: string)
    requires '\0' !in host
    ensures '\0' !in NormalizeHost(host)
  {
    TrimLeftSpaceIsPart(host);
    TrimRightSpaceIsPart(TrimLeftSpace(host));
    var trimmed := TrimSpace(host);
    BeforeColonIsPrefix(trimmed);
    var bare := TrimSuffix(DropPort(trimmed), ".");
    assert forall c | c in bare :: c in DropPort(trimmed);
    LowerHasNoNul(bare);
  }

  lemma BuiltIsRegular(ws: Workspace, app: Option<Application>, host: string, e: Entry, mode: string)
    requires GoodEntry(e) && StableHost(host)
    requires app.Some? ==> ValidApplication(app.value)
    ensures Regular(BuildRoute(ws, app, host, e.pattern, mode, e.exact))
  {
    NormalizeHostHasNoNul(host);
    var r := BuildRoute(ws, app, host, e.pattern, mode, e.exact);
    assert RouteInfo(r).exact == r.exact;
    assert TrimSpace("") == "" && '\0' !in "";
  }

  lemma AppRoutesAreRegular(ws: Workspace, app: Application, host: string, mode: string)
    requires ValidApplication(app) && StableHost(host)
    ensures forall r | r in AppRoutes(ws, app, host, mode) :: Regular(r)
  {
    var entries := RoutePatternEntries(app);
    forall i | 0 <= i < |entries|
      ensures Regular(BuildRoute(ws, Some(app), host, entries[i].pattern, mode, entries[i].exact))
    {
      EntriesAreGood(app, entries[i]);
      BuiltIsRegular(ws, Some(app), host, entries[i], mode);
    }
  }

  lemma {:induction false} DefaultRootAppIsListed(apps: seq<Application>)
    ensures DefaultRootApp(apps).Some? ==> DefaultRootApp(apps).value in apps && IsRootApp(DefaultRootApp(apps).value)
  {
    if apps != [] {
      DefaultRootAppIsListed(apps[..|apps| - 1]);
    }
  }

  predicate SameShape(a: Route, b: Route) {
    && a.pattern == b.pattern && a.publicHost == b.publicHost && a.canonicalAppID == b.canonicalAppID
    && a.serviceID == b.serviceID && a.exact == b.exact && a.precedence == b.precedence
      && a.remoteFallback == b.remoteFallback
  }

  lemma ShapeDecides(a: Route, b: Route)
    requires SameShape(a, b)
    ensures Regular(a) == Regular(b) && RootOnly(a) == RootOnly(b)
  {
  }

  /** The mode the catch-all of a host is built with. */
  function FallbackMode(ws: Workspace, domainApp: Option<Application>): string {
    var root := if domainApp.Some? then domainApp else DefaultRootApp(ws.applications);
    if root.Some? && root.value.active && root.value.port > 0 then "local"
    else if root.Some? then AppMode(ws, root.value) else "remote"
  }

  lemma FallbackShape(ws: Workspace, host: string, domainApp: Option<Application>)
    ensures var root := if domainApp.Some? then domainApp else DefaultRootApp(ws.applications);
      SameShape(FallbackRoute(ws, host, domainApp),
                BuildRoute(ws, root, host, "/*", FallbackMode(ws, domainApp), false))
  {
  }

  lemma FallbackIsRegular(ws: Workspace, host: string, domainApp: Option<Application>)
    requires ValidWorkspace(ws) && StableHost(host)
    requires domainApp.Some? ==> domainApp.value in ws.applications
    ensures Regular(FallbackRoute(ws, host, domainApp))
  {
    RootEntryIsGood();
    DefaultRootAppIsListed(ws.applications);
    var root := if domainApp.Some? then domainApp else DefaultRootApp(ws.applications);
    var mode := FallbackMode(ws, domainApp);
    FallbackShape(ws, host, domainApp);
    BuiltIsRegular(ws, root, host, Entry("/*", false), mode);
    ShapeDecides(FallbackRoute(ws, host, domainApp), BuildRoute(ws, root, host, "/*", mode, false));
  }

  lemma SharedRoutesAreRegular(ws: Workspace, host: string, domainApp: Option<Application>, app: Application)
    requires ValidApplication(app) && StableHost(host)
    ensures forall r | r in SharedRoutesOf(ws, host, domainApp)(app) :: Regular(r)
  {
    AppRoutesAreRegular(ws, app, host, AppMode(ws, app));
  }

  lemma DomainRoutesAreRegular(ws: Workspace, app: Application, host: string)
    requires ValidApplication(app) && StableHost(host)
    ensures forall r | r in DomainRoutes(ws, app, host) :: Regular(r)
  {
    AppRoutesAreRegular(ws, app, host, AppMode(ws, app));
  }

  lemma HostRoutesAreRegular(ws: Workspace, host: string, domainApp: Option<Application>, r: Route)
    requires ValidWorkspace(ws) && StableHost(host)
    requires domainApp.Some? ==> domainApp.value in ws.applications
    requires r in HostRoutes(ws, host, domainApp)
    ensures Regular(r)
  {
    FlatMapHas(SharedRoutesOf(ws, host, domainApp), ws.applications, r);
    if app :| app in ws.applications && r in SharedRoutesOf(ws, host, domainApp)(app) {
      SharedRoutesAreRegular(ws, host, domainApp, app);
    } else if r == FallbackRoute(ws, host, domainApp) {
      FallbackIsRegular(ws, host, domainApp);
    } else {
      DomainRoutesAreRegular(ws, domainApp.value, host);
    }
  }

  lemma RawRoutesAreRegular(ws: Workspace, r: Route)
    requires ValidWorkspace(ws) && !ws.IsLocalApps() && r in RawRoutes(ws)
    ensures Regular(r)
  {
    FlatMapHas(DomainHostRoutesOf(ws), ws.applications, r);
    if app :| app in ws.applications && r in DomainHostRoutesOf(ws)(app) {
      HostRoutesAreRegular(ws, app.domain, Some(app), r);
    } else {
      HostRoutesAreRegular(ws, ws.LocalDomain(), None, r);
    }
  }

  lemma LocalRouteIsRoot(ws: Workspace, app: Application)
    requires ValidApplication(app) && StableHost(app.domain)
    ensures RootOnly(BuildRoute(ws, Some(app), app.domain, "/", "local", false))
  {
    NormalizeHostHasNoNul(app.domain);
    CanonicalPatternInfo("/");
    var r := BuildRoute(ws, Some(app), app.domain, "/", "local", false);
    assert '\0' !in r.pattern && CanonicalPattern(r.pattern);
    assert RouteInfo(r) == PatternInfo("/", false, 0);
  }

  lemma LocalRoutesOfAppAreRoots(ws: Workspace, app: Application, r: Route)
    requires ValidApplication(app) && StableHost(app.domain) && r in LocalAppRoutesOf(ws)(app)
    ensures RootOnly(r)
  {
    LocalRouteIsRoot(ws, app);
  }

  lemma RawLocalRoutesAreRoots(ws: Workspace, r: Route)
    requires ValidWorkspace(ws) && ws.IsLocalApps() && r in RawRoutes(ws)
    ensures RootOnly(r)
  {
    FlatMapHas(LocalAppRoutesOf(ws), ws.applications, r);
    var app :| app in ws.applications && r in LocalAppRoutesOf(ws)(app);
    LocalRoutesOfAppAreRoots(ws, app, r);
  }

  lemma RegularRoutesHaveOnePattern(a: Route, b: Route)
    requires Regular(a) && Regular(b) && RouteInfo(a) == RouteInfo(b)
    ensures a.pattern == b.pattern
  {
    CanonicalPatternInfo(a.pattern);
    CanonicalPatternInfo(b.pattern);
    RouteShape(a);
    RouteShape(b);
  }

  /** Deduplicating and sorting keep what depends on the shape of routes only. */
  lemma ProjectionKeeps(raw: seq<Route>, p: Route -> bool)
    requires forall a, b :: p(a) ==> p(MergeRoutes(a, b))
    requires forall r | r in raw :: p(r)
    ensures forall r | r in Sort(RouteLess, DedupeBy(RouteKey, MergeRoutes, raw)) :: p(r)
    ensures DistinctBy(RouteKey, Sort(RouteLess, DedupeBy(RouteKey, MergeRoutes, raw)))
  {
    var deduped := DedupeBy(RouteKey, MergeRoutes, raw);
    assert KeepsKey(RouteKey, MergeRoutes);
    DedupeIsDistinct(RouteKey, MergeRoutes, raw);
    DedupeKeepsProperty(RouteKey, MergeRoutes, raw, p);
    SortKeepsDistinct(RouteLess, RouteKey, deduped);
    SortKeepsElements(RouteLess, deduped);
  }

  lemma MergeKeepsShape(a: Route, b: Route)
    ensures Regular(a) ==> Regular(MergeRoutes(a, b))
    ensures RootOnly(a) ==> RootOnly(MergeRoutes(a, b))
  {
    ShapeDecides(a, MergeRoutes(a, b));
  }

  lemma RoutingRoutesAreRegular(ws: Workspace)
    requires ValidWorkspace(ws) && !ws.IsLocalApps()
    ensures forall r | r in NormalizedRoutes(ws) :: Regular(r)
    ensures DistinctBy(RouteKey, NormalizedRoutes(ws))
  {
    var raw := RawRoutes(ws);
    forall r | r in raw ensures Regular(r) { RawRoutesAreRegular(ws, r); }
    forall a, b ensures Regular(a) ==> Regular(MergeRoutes(a, b)) { MergeKeepsShape(a, b); }
    ProjectionKeeps(raw, Regular);
  }

  lemma LocalRoutesAreRoots(ws: Workspace)
    requires ValidWorkspace(ws) && ws.IsLocalApps()
    ensures forall r | r in NormalizedRoutes(ws) :: RootOnly(r)
    ensures DistinctBy(RouteKey, NormalizedRoutes(ws))
  {
    var raw := RawRoutes(ws);
    forall r | r in raw ensures RootOnly(r) { RawLocalRoutesAreRoots(ws, r); }
    forall a, b ensures RootOnly(a) ==> RootOnly(MergeRoutes(a, b)) { MergeKeepsShape(a, b); }
    ProjectionKeeps(raw, RootOnly);
  }

  /** Whatever the order of registration, the builder yields one well-formed route per key. */
  lemma NormalizedRoutesAreWellFormed(ws: Workspace)
    requires ValidWorkspace(ws)
    ensures WorkspaceRoutes(NormalizedRoutes(ws))
  {
    var routes := NormalizedRoutes(ws);
    if ws.IsLocalApps() {
      LocalRoutesAreRoots(ws);
    } else {
      RoutingRoutesAreRegular(ws);
      forall r, s | r in routes && s in routes && RouteInfo(r) == RouteInfo(s)
        ensures r.pattern == s.pattern
      {
        RegularRoutesHaveOnePattern(r, s);
      }
    }
  }
}
