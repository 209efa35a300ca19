/** buildConfig from workspaces to the compacted configuration, and what its proof headers say. */
module ConfigBuilder {
  import opened Text
  import opened Model
  import opened Nginx
  import opened Renderer
  import opened Keyed
  import opened Compact
  import opened CompactMeaning
  import opened Interning
  import opened Projection
  import Patterns
  import Resolver
  import Routes
  import RouteBuilder
  import Agreement

  // ---- Interning and compaction together ----

  /** The eight headers of a reply; the ready location sends none of them. */
  function HeadersOf(maps: seq<ProofMap>, reply: Reply): Option<seq<string>> {
    match reply
    case Ready => None
    case Passed(NotFound) => None
    case Passed(Served(_, id)) => Some(Headers(maps, id))
  }

  /** What is sent through interned indices and compacted maps. */
  function Headers8(servers: seq<Server>, s: nat, uri: string): Option<seq<string>>
    requires s < |InternServers(servers).items|
  {
    var interned := InternServers(servers);
    var n := |interned.items|;
    HeadersOf(Columns(interned.table),
              ReplyOf(AllMaps(interned.items, n), CompactedServers(interned.items, n)[s].locations, uri))
  }

  /** What the location the uncompacted server would choose has to say. */
  function ChosenHeaders(locations: seq<Location>, uri: string): Option<seq<string>> {
    match Select(Printed(locations), uri)
    case None => None
    case Some(l) => if IsReady(l) then None else Some(ProofFields(l.proof))
  }

  lemma ChosenHeadersAre(locations: seq<Location>, uri: string)
    ensures ChosenHeaders(locations, uri) == match Select(locations, uri)
      case None => None
      case Some(l) => if uri == READY_PATH then None else Some(ProofFields(l.proof))
  {
    PrintedSelects(locations, uri);
    FirstExactFinds(locations, uri);
    FirstRegexFinds(locations, uri);
    LongestPrefixFinds(locations, uri);
  }

  lemma InternedIsRenderable(servers: seq<Server>, s: nat)
    requires s < |servers| && Renderable(servers[s].locations)
    ensures |InternServers(servers).items| == |servers| && Renderable(InternServers(servers).items[s].locations)
  {
    InternServersLength(servers);
    var before, after := servers[s].locations, InternServers(servers).items[s].locations;
    InternedLength(servers, s);
    forall j | 0 <= j < |before|
      ensures after[j] == before[j].(proofIndex := after[j].proofIndex)
    {
      InternedLocation(servers, s, j);
    }
    forall l | l in after
      ensures (l.modifier == "=" || l.modifier == "") && l.proofSelector == "" && Plain(l.pattern)
    {
      var j :| 0 <= j < |after| && after[j] == l;
      assert before[j] in before;
    }
  }

  lemma InternedLength(servers: seq<Server>, s: nat)
    requires s < |servers|
    ensures |InternServers(servers).items| == |servers|
    ensures |InternServers(servers).items[s].locations| == |servers[s].locations|
  {
    InternServersLength(servers);
    InternServersAt(servers, s);
    var table :| InternLocations(table, servers[s].locations).table <= InternServers(servers).table
      && InternServers(servers).items[s]
        == servers[s].(locations := InternLocations(table, servers[s].locations).items);
    InternLocationsGrows(table, servers[s].locations);
  }

  ghost predicate SameButIndex(before: seq<Location>, after: seq<Location>) {
    |before| == |after| && forall i | 0 <= i < |before| :: after[i] == before[i].(proofIndex := after[i].proofIndex)
  }

  lemma SelectsSameIndex(before: seq<Location>, after: seq<Location>, uri: string) returns (j: nat)
    requires Renderable(before) && Renderable(after) && SameButIndex(before, after)
    ensures Select(before, uri).Some? == Select(after, uri).Some?
    ensures Select(before, uri).Some? ==>
      j < |before| && Select(before, uri).value == before[j] && Select(after, uri).value == after[j]
  {
    SelectPicks(before, uri);
    SelectPicks(after, uri);
    j := 0;
    if Select(after, uri).Some? {
      var i :| 0 <= i < |after| && after[i] == Select(after, uri).value;
      assert before[i] in before;
    }
    if Select(before, uri).Some? {
      j :| 0 <= j < |before| && before[j] == Select(before, uri).value;
      PickCarriesOver(before, after, j, uri);
      PicksIsUnique(after, uri, after[j], Select(after, uri).value);
    }
  }

  /** Interning does not change which location is selected. */
  lemma InternedSelects(servers: seq<Server>, s: nat, uri: string)
    requires s < |servers| && Renderable(servers[s].locations)
    ensures |InternServers(servers).items| == |servers|
    ensures var a, b := Select(servers[s].locations, uri), Select(InternServers(servers).items[s].locations, uri);
      && a.Some? == b.Some?
      && (a.Some? ==>
          && b.value == a.value.(proofIndex := b.value.proofIndex)
          && b.value.proofIndex < |InternServers(servers).table|
          && InternServers(servers).table[b.value.proofIndex] == a.value.proof)
  {
    InternedIsRenderable(servers, s);
    InternedLength(servers, s);
    var before, after := servers[s].locations, InternServers(servers).items[s].locations;
    forall j | 0 <= j < |before|
      ensures after[j] == before[j].(proofIndex := after[j].proofIndex)
    {
      InternedLocation(servers, s, j);
    }
    var j := SelectsSameIndex(before, after, uri);
    if Select(before, uri).Some? {
      InternedLocation(servers, s, j);
    }
  }

  lemma PickCarriesOver(before: seq<Location>, after: seq<Location>, j: nat, uri: string)
    requires SameButIndex(before, after)
    requires j < |before| && Picks(before, uri, before[j])
    ensures Picks(after, uri, after[j])
  {
    forall l | l in after
      ensures MatchesExact(l, uri) ==> MatchesExact(before[j], uri)
      ensures MatchesPrefix(l, uri) && !MatchesExact(before[j], uri) ==> |l.pattern| <= |before[j].pattern|
    {
      var i :| 0 <= i < |after| && after[i] == l;
      assert before[i] in before;
    }
  }

  /** End to end: for every request without a final newline, the eight header values selected
      through interned indices and compacted maps are the fields of the proof of the location
      the uncompacted server would choose, except at the ready path, where none is sent. */
  lemma HeadersTellTheChosenLocation(servers: seq<Server>, s: nat, uri: string)
    requires s < |servers| && Renderable(servers[s].locations) && uri == Chomp(uri)
    ensures |InternServers(servers).items| == |servers|
    ensures Headers8(servers, s, uri) == ChosenHeaders(servers[s].locations, uri)
    ensures uri == READY_PATH ==> Headers8(servers, s, uri) == None
  {
    InternedIsRenderable(servers, s);
    InternedSelects(servers, s, uri);
    ChosenHeadersAre(servers[s].locations, uri);
    var interned := InternServers(servers);
    var n := |interned.items|;
    ReplyIs(AllMaps(interned.items, n), CompactedServers(interned.items, n)[s].locations, uri);
    CompactionPreservesMeaning(interned.items, s, uri);
    if l :| Select(interned.items[s].locations, uri) == Some(l) {
      SelectPicks(interned.items[s].locations, uri);
      HeadersOfEntry(interned.table, l.proofIndex);
    }
  }

  // ---- The servers are renderable ----

  predicate GoodLocation(l: Location) {
    (l.modifier == "=" || l.modifier == "") && l.proofSelector == "" && Plain(l.pattern)
  }

  lemma CanonicalPatternIsPlain(p: string)
    requires Patterns.CanonicalPattern(p)
    ensures Plain(NginxPlace(p).pattern)
  {
    Agreement.CleanCanonical(p);
    Patterns.CanonicalPatternInfo(p);
    if p != "/*" && HasSuffix(p, "/*") {
      Agreement.WildcardShape(p);
    }
  }

  lemma PatternLocationIsGood(app: Application, proxy: Proxy, strip: bool, proof: ResponseProof, p: string)
    requires Patterns.CanonicalPattern(p)
    ensures GoodLocation(PatternLocation(app, proxy, strip, proof, p))
  {
    CanonicalPatternIsPlain(p);
  }

  lemma CachedLocationsAreGood(app: Application, cached: seq<string>, proxy: Proxy, strip: bool, proof: ResponseProof,
                               l: Location)
    requires cached != [] && forall p | p in cached :: Patterns.CanonicalPattern(p)
    requires l in LocationsForPatterns(RoutePathPatterns(app, cached), app, proxy, strip, proof)
    ensures GoodLocation(l)
  {
    Agreement.PatternLocationsAre(cached, app, proxy, strip, proof, l);
    var p :| p in cached && l == PatternLocation(app, proxy, strip, proof, p);
    PatternLocationIsGood(app, proxy, strip, proof, p);
  }

  lemma ContextIsPlain(app: Application)
    requires RouteBuilder.ValidApplication(app) && RendersContext(app)
    ensures var c := CleanPath(app.BackendContextPath()); Plain(c) && Plain(c + "/")
  {
    Agreement.CleanCanonical(app.BackendContextPath());
    assert IsSpace('\n');
  }

  lemma LocalLocationsAreGood(ws: Workspace, app: Application, cached: seq<string>, l: Location)
    requires RouteBuilder.ValidApplication(app) && cached != []
    requires forall p | p in cached :: Patterns.CanonicalPattern(p)
    requires l in LocalAppLocations(ws, app, cached)
    ensures GoodLocation(l)
  {
    if RendersContext(app) {
      ContextIsPlain(app);
    } else {
      CachedLocationsAreGood(app, cached, LocalProxy(app.port, false), app.stripOrigin,
                             RouteProof(ws, Some(app), "local"), l);
    }
  }

  lemma RemoteLocationsAreGood(env: Env, ws: Workspace, app: Application, base: string, mode: string,
                               cached: seq<string>, l: Location)
    requires RouteBuilder.ValidApplication(app) && cached != []
    requires forall p | p in cached :: Patterns.CanonicalPattern(p)
    requires l in RemoteAppLocations(env, ws, app, base, mode, cached)
    ensures GoodLocation(l)
  {
    if RendersContext(app) {
      ContextIsPlain(app);
    } else {
      CachedLocationsAreGood(app, cached, env.remoteProxy(base), false, RouteProof(ws, Some(app), mode), l);
    }
  }

  lemma CachedPatternsAreCanonical(ws: Workspace, appID: string)
    requires RoutingWorkspace(ws)
    ensures forall p | p in PatternsFor(Routes.NormalizedRoutes(ws), appID) :: Patterns.CanonicalPattern(p)
  {
    RouteBuilder.RoutingRoutesAreRegular(ws);
    forall p | p in PatternsFor(Routes.NormalizedRoutes(ws), appID)
      ensures Patterns.CanonicalPattern(p)
    {
      PatternsForAre(Routes.NormalizedRoutes(ws), appID, p);
    }
  }

  /** The application that owns a domain always owns that server's catch-all route. */
  lemma DomainAppHasPatterns(ws: Workspace, app: Application)
    requires RoutingWorkspace(ws) && app in ws.applications && app.domain != ""
    ensures PatternsFor(Routes.NormalizedRoutes(ws), app.CanonicalAppID()) != []
  {
    var raw := Routes.FallbackRoute(ws, app.domain, Some(app));
    RouteBuilder.FallbackShape(ws, app.domain, Some(app));
    assert raw in Routes.HostRoutes(ws, app.domain, Some(app));
    assert raw in Routes.DomainHostRoutesOf(ws)(app);
    FlatMapHas(Routes.DomainHostRoutesOf(ws), ws.applications, raw);
    var r := RawRouteIsKept(ws, raw);
    RouteBuilder.RawRoutesAreRegular(ws, raw);
    RouteBuilder.RoutingRoutesAreRegular(ws);
    EqualKeys(r, raw);
    PatternsForAre(Routes.NormalizedRoutes(ws), app.CanonicalAppID(), r.pattern);
  }

  lemma TracesAre(env: Env, ws: Workspace)
    ensures var traces := TraceLocations(env, ws);
      && |traces| == 2 && GoodLocation(traces[0]) && GoodLocation(traces[1])
      && traces[0].modifier == "=" && traces[1].modifier == "=" && traces[0].pattern != traces[1].pattern
  {
    var p, q := TRACE_PATHS[0], TRACE_PATHS[1];
    assert p == "/__rementor/trace" && q == "/_rementor/trace";
    assert p[2] != q[2];
  }

  lemma TraceIsGood(env: Env, ws: Workspace, l: Location)
    requires l in TraceLocations(env, ws)
    ensures GoodLocation(l)
  {
    TracesAre(env, ws);
  }

  /** One application on any server of its workspace. */
  lemma AppLocationIsGood(env: Env, ws: Workspace, app: Application, base: string, l: Location)
    requires RoutingWorkspace(ws) && app in ws.applications
    requires Listed(ws, app) || app.domain != ""
    requires var cached := PatternsFor(Routes.NormalizedRoutes(ws), app.CanonicalAppID());
      l in LocalAppLocations(ws, app, cached)
        || l in RemoteAppLocations(env, ws, app, base, RemoteEffectiveMode(app), cached)
    ensures GoodLocation(l)
  {
    var cached := PatternsFor(Routes.NormalizedRoutes(ws), app.CanonicalAppID());
    CachedPatternsAreCanonical(ws, app.CanonicalAppID());
    if app.domain != "" {
      DomainAppHasPatterns(ws, app);
    } else {
      Agreement.SomeEntryIsLookedUp(ws, None, app);
    }
    if l in LocalAppLocations(ws, app, cached) {
      LocalLocationsAreGood(ws, app, cached, l);
    } else {
      RemoteLocationsAreGood(env, ws, app, base, RemoteEffectiveMode(app), cached, l);
    }
  }

  lemma FallbackIsGood(env: Env, ws: Workspace, domainApp: Option<Application>)
    ensures GoodLocation(FallbackLocation(env, ws, domainApp))
  {
  }

  lemma DefaultServerIsGood(env: Env, ws: Workspace, l: Location)
    requires RoutingWorkspace(ws) && l in RawLocations(env, ws, Routes.NormalizedRoutes(ws), None)
    ensures GoodLocation(l)
  {
    Agreement.RawLocationIs(env, ws, None, l);
    if Agreement.IsTrace(env, ws, l) {
      TraceIsGood(env, ws, l);
    } else if app :| On(ws, None, app) && l in Agreement.AppLocations(env, ws, Routes.NormalizedRoutes(ws), app) {
      AppLocationIsGood(env, ws, app, ws.RemoteBaseUrl(app), l);
    } else {
      FallbackIsGood(env, ws, None);
    }
  }

  lemma DomainPassIsGood(env: Env, ws: Workspace, domainApp: Application, app: Application, l: Location)
    requires RoutingWorkspace(ws) && app in ws.applications
    requires l in DomainPass(env, ws, Routes.NormalizedRoutes(ws), domainApp)(app)
    ensures GoodLocation(l)
  {
    Agreement.ListedIff(ws, app);
    AppLocationIsGood(env, ws, app, ws.RemoteBaseUrl(app), l);
  }

  lemma DomainRawIs(env: Env, ws: Workspace, routes: seq<Routes.Route>, app: Application, l: Location)
    requires l in RawLocations(env, ws, routes, Some(app))
    ensures l in TraceLocations(env, ws) || l in FlatMap(DomainPass(env, ws, routes, app), ws.applications)
      || l in DomainAppLocations(env, ws, routes, app) || l == FallbackLocation(env, ws, Some(app))
  {
  }

  lemma DomainAppIsGood(env: Env, ws: Workspace, app: Application, l: Location)
    requires RoutingWorkspace(ws) && app in ws.applications && app.domain != ""
    requires l in DomainAppLocations(env, ws, Routes.NormalizedRoutes(ws), app)
    ensures GoodLocation(l)
  {
    AppLocationIsGood(env, ws, app, app.remoteBaseUrl, l);
  }

  lemma DomainServerIsGood(env: Env, ws: Workspace, app: Application, l: Location)
    requires RoutingWorkspace(ws) && app in ws.applications && app.domain != ""
    requires l in RawLocations(env, ws, Routes.NormalizedRoutes(ws), Some(app))
    ensures GoodLocation(l)
  {
    var routes := Routes.NormalizedRoutes(ws);
    DomainRawIs(env, ws, routes, app, l);
    if l in TraceLocations(env, ws) {
      TraceIsGood(env, ws, l);
    } else if l in FlatMap(DomainPass(env, ws, routes, app), ws.applications) {
      FlatMapHas(DomainPass(env, ws, routes, app), ws.applications, l);
      var other :| other in ws.applications && l in DomainPass(env, ws, routes, app)(other);
      DomainPassIsGood(env, ws, app, other, l);
    } else if l in DomainAppLocations(env, ws, routes, app) {
      DomainAppIsGood(env, ws, app, l);
    } else {
      FallbackIsGood(env, ws, Some(app));
    }
  }

  lemma DedupedIsRenderable(raw: seq<Location>)
    requires forall l | l in raw :: GoodLocation(l)
    ensures Renderable(DedupedLocations(raw))
  {
    Agreement.DedupedIsUnique(raw);
    forall l | l in DedupedLocations(raw)
      ensures GoodLocation(l)
    {
      Agreement.DedupedIsRaw(raw, l);
    }
  }

  /** What validation guarantees of every workspace handed to the renderer. */
  ghost predicate Renders(ws: Workspace) {
    ws.IsLocalApps() || RoutingWorkspace(ws)
  }

  lemma DefaultServerIsRenderable(env: Env, ws: Workspace)
    requires RoutingWorkspace(ws)
    ensures Renderable(RoutingServer(env, ws.LocalDomain(), ws, Routes.NormalizedRoutes(ws), None).locations)
  {
    var raw := RawLocations(env, ws, Routes.NormalizedRoutes(ws), None);
    forall l | l in raw ensures GoodLocation(l) { DefaultServerIsGood(env, ws, l); }
    DedupedIsRenderable(raw);
  }

  lemma DomainServerIsRenderable(env: Env, ws: Workspace, app: Application)
    requires RoutingWorkspace(ws) && app in ws.applications && app.domain != ""
    ensures Renderable(RoutingServer(env, app.domain, ws, Routes.NormalizedRoutes(ws), Some(app)).locations)
  {
    var raw := RawLocations(env, ws, Routes.NormalizedRoutes(ws), Some(app));
    forall l | l in raw ensures GoodLocation(l) { DomainServerIsGood(env, ws, app, l); }
    DedupedIsRenderable(raw);
  }

  lemma TracesAndRootAreRenderable(traces: seq<Location>, root: Location)
    requires |traces| == 2 && GoodLocation(traces[0]) && GoodLocation(traces[1]) && GoodLocation(root)
    requires traces[0].modifier == "=" && traces[1].modifier == "=" && root.modifier == ""
    requires traces[0].pattern != traces[1].pattern
    ensures Renderable(traces + [root])
  {
    assert (traces + [root])[0] == traces[0] && (traces + [root])[1] == traces[1];
  }

  lemma LocalAppServerIsRenderable(env: Env, ws: Workspace, app: Application, server: Server)
    requires server in LocalAppServer(env, ws)(app)
    ensures Renderable(server.locations)
  {
    var root := PlainLocation(Place("", "/"), LocalProxy(app.port, false), RouteProof(ws, Some(app), "local"));
    TracesAre(env, ws);
    TracesAndRootAreRenderable(TraceLocations(env, ws), root);
  }

  lemma WorkspaceServersAreRenderable(env: Env, ws: Workspace, server: Server)
    requires Renders(ws) && server in WorkspaceServers(env)(ws)
    ensures Renderable(server.locations)
  {
    var routes := Routes.NormalizedRoutes(ws);
    if ws.IsLocalApps() {
      FlatMapHas(LocalAppServer(env, ws), ws.applications, server);
      var app :| app in ws.applications && server in LocalAppServer(env, ws)(app);
      LocalAppServerIsRenderable(env, ws, app, server);
    } else if server == RoutingServer(env, ws.LocalDomain(), ws, routes, None) {
      DefaultServerIsRenderable(env, ws);
    } else {
      FlatMapHas(DomainServer(env, ws, routes), ws.applications, server);
      var app :| app in ws.applications && server in DomainServer(env, ws, routes)(app);
      DomainServerIsRenderable(env, ws, app);
    }
  }

  /** Every server buildConfig assembles meets what compaction and selection need, and has no
      place twice as it is printed, unless one of its locations is at the ready location's. */
  lemma ServersAreRenderable(env: Env, workspaces: seq<Workspace>, domain: string, s: nat)
    requires forall ws | ws in workspaces :: Renders(ws)
    requires s < |AllServers(env, workspaces, domain)|
    ensures var locations := AllServers(env, workspaces, domain)[s].locations;
      Renderable(locations) && (Unique(Printed(locations)) <==> !exists l | l in locations :: IsReady(l))
  {
    ServerIsRenderable(env, workspaces, domain, s);
    PrintedIsUniqueIff(AllServers(env, workspaces, domain)[s].locations);
  }

  /** The server of a host, default or an application's own. */
  function ServerOf(env: Env, ws: Workspace, d: Option<Application>): Server {
    RoutingServer(env, HostOf(ws, d), ws, Routes.NormalizedRoutes(ws), d)
  }

  /** For a workspace's server that is exactly an application it answers for asking for that very
      path. */
  lemma ServerIsPrintableIff(env: Env, ws: Workspace, d: Option<Application>)
    requires RoutingWorkspace(ws) && HasServer(ws, d)
    ensures Unique(Printed(ServerOf(env, ws, d).locations))
      <==> !exists app, e | On(ws, d, app) && e in Routes.RoutePatternEntries(app) :: e.pattern == READY_PATH
  {
    var locations := Agreement.ServerLocations(env, ws, d);
    Agreement.DedupedIsUnique(Agreement.ServerRaw(env, ws, d));
    PrintedIsUniqueIff(locations);
    Agreement.ServerIsReadyIff(env, ws, d);
  }

  lemma ServerIsRenderable(env: Env, workspaces: seq<Workspace>, domain: string, s: nat)
    requires forall ws | ws in workspaces :: Renders(ws)
    requires s < |AllServers(env, workspaces, domain)|
    ensures Renderable(AllServers(env, workspaces, domain)[s].locations)
  {
    var servers := AllServers(env, workspaces, domain);
    if s > 0 {
      assert servers[s] in FlatMap(WorkspaceServers(env), workspaces);
      FlatMapHas(WorkspaceServers(env), workspaces, servers[s]);
      var ws :| ws in workspaces && servers[s] in WorkspaceServers(env)(ws);
      WorkspaceServersAreRenderable(env, ws, servers[s]);
    }
  }

  // ---- The header names the application the resolver names ----

  lemma {:induction false} BeforeQueryIsShort(s: string)
    ensures |BeforeQuery(s)| <= |s|
  {
    if s != "" && s[0] !in "?#" {
      BeforeQueryIsShort(s[1..]);
    }
  }

  lemma {:induction false} TrimRightSpaceIsPrefix(s: string)
    ensures TrimRightSpace(s) <= s
  {
    if s != "" && IsSpace(s[|s| - 1]) {
      TrimRightSpaceIsPrefix(s[..|s| - 1]);
    }
  }

  lemma NormalisingDropsFinalNewline(path: string)
    requires |path| > 1 && path[0] == '/' && path[|path| - 1] == '\n'
    ensures |Patterns.NormalizeRequestPath(path)| < |path|
  {
    var p := TrimSpace(path);
    assert IsSpace('\n') && !IsSpace('/');
    assert TrimLeftSpace(path) == path && p == TrimRightSpace(path[..|path| - 1]);
    TrimRightSpaceIsPrefix(path[..|path| - 1]);
    BeforeQueryIsShort(p);
    var q := BeforeQuery(p);
    assert p != "" ==> "/" <= q;
    Patterns.TrimRightSlashEnds(if "/" <= q then q else "/" + q);
  }

  lemma NormalPathIsChomped(path: string)
    requires Patterns.NormalPath(path)
    ensures path == Chomp(path)
  {
    Patterns.NormalPathIsAbsolute(path);
    if |path| > 1 && path[|path| - 1] == '\n' {
      NormalisingDropsFinalNewline(path);
    }
  }

  lemma ServerOfIsRenderable(env: Env, ws: Workspace, d: Option<Application>)
    requires RoutingWorkspace(ws) && HasServer(ws, d)
    ensures Renderable(ServerOf(env, ws, d).locations)
  {
    if d.Some? {
      DomainServerIsRenderable(env, ws, d.value);
    } else {
      DefaultServerIsRenderable(env, ws);
    }
  }

  /** For a request to a host of a workspace, the application header that the compacted
      configuration sends is the application the resolver names, unless both fall through; at the
      ready path none is sent. */
  lemma HeaderNamesResolvedApplication(env: Env, ws: Workspace, d: Option<Application>, servers: seq<Server>, s: nat,
                                       path: string)
    requires RoutingWorkspace(ws) && HasServer(ws, d) && Agreement.OneOwner(ws, d)
    requires s < |servers| && servers[s] == ServerOf(env, ws, d)
    requires Patterns.NormalPath(path) && path !in TRACE_PATHS
    ensures |InternServers(servers).items| == |servers|
    ensures Headers8(servers, s, path).Some? <==> path != READY_PATH
    ensures var headers, route := Headers8(servers, s, path),
      Resolver.Resolve(Routes.NormalizedRoutes(ws), HostOf(ws, d), path);
      && route.Some?
      && (headers.Some? ==>
            && |headers.value| == 8
            && (route.value.pattern != "/*" ==> headers.value[0] == route.value.canonicalAppID))
  {
    ServerOfIsRenderable(env, ws, d);
    NormalPathIsChomped(path);
    HeadersTellTheChosenLocation(servers, s, path);
    ChosenHeadersAre(servers[s].locations, path);
    Agreement.SameChoices(env, ws, d, path);
  }

  // ---- buildConfig ----

  /** The header values nginx sends for a request to server s. */
  ghost function ServedHeaders(cfg: Config, s: nat, uri: string): Option<seq<string>>
    reads cfg
    requires s < |cfg.servers|
  {
    HeadersOf(cfg.proofMaps, ReplyOf(cfg.routeMaps, cfg.servers[s].locations, uri))
  }

  /** Assembles, interns and compacts. */
  method BuildConfig(env: Env, workspaces: seq<Workspace>, domain: string) returns (cfg: Config)
    requires forall ws | ws in workspaces :: Renders(ws)
    ensures fresh(cfg)
    ensures |cfg.servers| == |AllServers(env, workspaces, domain)|
    ensures forall s, uri | 0 <= s < |cfg.servers| && uri == Chomp(uri) ::
      ServedHeaders(cfg, s, uri) == ChosenHeaders(AllServers(env, workspaces, domain)[s].locations, uri)
  {
    var servers := AppendEach(WorkspaceServers(env), workspaces, [ControlServer(env, domain)]);
    cfg := new Config(servers);
    InternProofs(cfg);
    ghost var interned := InternServers(servers);
    CompactLocations(cfg);
    InternServersLength(servers);
    assert cfg.routeMaps == AllMaps(interned.items, |interned.items|);
    forall s, uri | 0 <= s < |cfg.servers| && uri == Chomp(uri)
      ensures ServedHeaders(cfg, s, uri) == Headers8(servers, s, uri)
      ensures Headers8(servers, s, uri) == ChosenHeaders(servers[s].locations, uri)
    {
      ServersAreRenderable(env, workspaces, domain, s);
      HeadersTellTheChosenLocation(servers, s, uri);
    }
  }
}
