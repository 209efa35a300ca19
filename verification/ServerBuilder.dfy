/** routingServer, dedupeLocations and the pattern table of buildConfig, as the source runs them. */
module ServerBuilder {
  import opened Text
  import opened Model
  import opened Nginx
  import opened Renderer
  import opened Keyed
  import opened StableSort
  import Routes
  import RouteBuilder

  /** The patterns buildConfig looks up for an application. */
  function Listed(patterns: map<string, seq<string>>, appID: string): seq<string> {
    if appID in patterns then patterns[appID] else []
  }

  ghost predicate ListsPatterns(patterns: map<string, seq<string>>, routes: seq<Routes.Route>) {
    forall id :: Listed(patterns, id) == PatternsFor(routes, id)
  }

  /** The patterns of each application, each once. */
  method CollectPatterns(routes: seq<Routes.Route>) returns (patterns: map<string, seq<string>>)
    ensures ListsPatterns(patterns, routes)
  {
    patterns := map[];
    var seen: set<(string, string)> := {};
    for i := 0 to |routes|
      invariant ListsPatterns(patterns, routes[..i])
      invariant forall id, p :: (id, p) in seen <==> p in PatternsFor(routes[..i], id)
    {
      var route := routes[i];
      assert routes[..i + 1][..i] == routes[..i];
      var id := route.canonicalAppID;
      if (id, route.pattern) !in seen {
        patterns := patterns[id := Listed(patterns, id) + [route.pattern]];
        seen := seen + {(id, route.pattern)};
      }
    }
    assert routes[..|routes|] == routes;
  }

  /** dedupeLocations */
  method DedupeLocations(locations: seq<Location>) returns (out: seq<Location>)
    ensures out == DedupedLocations(locations)
  {
    assert KeepsKey(LocationKey, KeepFirst);
    out := Dedupe(LocationKey, KeepFirst, locations);
    out := Sort(RankLess, out);
  }

  // ---- The passes over the applications, with the patterns looked up ----

  function LocalPart(ws: Workspace, patterns: map<string, seq<string>>): Application -> seq<Location> {
    (app: Application) =>
      if app.domain != "" || !RunsLocally(app) then []
      else LocalAppLocations(ws, app, Listed(patterns, app.CanonicalAppID()))
  }

  function RemotePart(env: Env, ws: Workspace, patterns: map<string, seq<string>>): Application -> seq<Location> {
    (app: Application) =>
      if app.domain != "" || RunsLocally(app) || ws.RemoteBaseUrl(app) == "" then []
      else RemoteAppLocations(env, ws, app, ws.RemoteBaseUrl(app), RemoteEffectiveMode(app),
                              Listed(patterns, app.CanonicalAppID()))
  }

  function OtherPart(env: Env, ws: Workspace, patterns: map<string, seq<string>>, domainApp: Application)
    : Application -> seq<Location>
  {
    (app: Application) =>
      if app.domain != "" || app.id == domainApp.id then []
      else if RunsLocally(app) then LocalAppLocations(ws, app, Listed(patterns, app.CanonicalAppID()))
      else if ws.RemoteBaseUrl(app) == "" then []
      else RemoteAppLocations(env, ws, app, ws.RemoteBaseUrl(app), RemoteEffectiveMode(app),
                              Listed(patterns, app.CanonicalAppID()))
  }

  lemma LocalPartIs(ws: Workspace, routes: seq<Routes.Route>, patterns: map<string, seq<string>>)
    requires ListsPatterns(patterns, routes)
    ensures FlatMap(LocalPart(ws, patterns), ws.applications) == FlatMap(LocalPass(ws, routes), ws.applications)
  {
    forall app ensures LocalPart(ws, patterns)(app) == LocalPass(ws, routes)(app) {}
    FlatMapCongruence(LocalPart(ws, patterns), LocalPass(ws, routes), ws.applications, ws.applications);
  }

  lemma RemotePartIs(env: Env, ws: Workspace, routes: seq<Routes.Route>, patterns: map<string, seq<string>>)
    requires ListsPatterns(patterns, routes)
    ensures FlatMap(RemotePart(env, ws, patterns), ws.applications)
      == FlatMap(RemotePass(env, ws, routes), ws.applications)
  {
    forall app ensures RemotePart(env, ws, patterns)(app) == RemotePass(env, ws, routes)(app) {}
    FlatMapCongruence(RemotePart(env, ws, patterns), RemotePass(env, ws, routes), ws.applications, ws.applications);
  }

  lemma OtherPartIs(env: Env, ws: Workspace, routes: seq<Routes.Route>, patterns: map<string, seq<string>>,
                    domainApp: Application)
    requires ListsPatterns(patterns, routes)
    ensures FlatMap(OtherPart(env, ws, patterns, domainApp), ws.applications)
      == FlatMap(DomainPass(env, ws, routes, domainApp), ws.applications)
  {
    forall app ensures OtherPart(env, ws, patterns, domainApp)(app) == DomainPass(env, ws, routes, domainApp)(app) {}
    FlatMapCongruence(OtherPart(env, ws, patterns, domainApp), DomainPass(env, ws, routes, domainApp), ws.applications,
                      ws.applications);
  }

  method AppendDomainApp(env: Env, ws: Workspace, routes: seq<Routes.Route>, patterns: map<string, seq<string>>,
                         app: Application, start: seq<Location>)
    returns (locations: seq<Location>)
    requires ListsPatterns(patterns, routes)
    ensures locations == start + DomainAppLocations(env, ws, routes, app)
  {
    var own := Listed(patterns, app.CanonicalAppID());
    locations := start;
    if RunsLocally(app) {
      locations := locations + LocalAppLocations(ws, app, own);
    } else if app.remoteBaseUrl != "" {
      locations := locations + RemoteAppLocations(env, ws, app, app.remoteBaseUrl, RemoteEffectiveMode(app), own);
    }
  }

  method CollectLocations(env: Env, ws: Workspace, routes: seq<Routes.Route>, patterns: map<string, seq<string>>,
                          domainApp: Option<Application>)
    returns (locations: seq<Location>)
    requires ListsPatterns(patterns, routes)
    ensures locations == RawLocations(env, ws, routes, domainApp)
  {
    ghost var traces := TraceLocations(env, ws);
    locations := TraceLocations(env, ws);
    if domainApp.None? {
      locations := AppendEach(LocalPart(ws, patterns), ws.applications, locations);
      locations := AppendEach(RemotePart(env, ws, patterns), ws.applications, locations);
      LocalPartIs(ws, routes, patterns);
      RemotePartIs(env, ws, routes, patterns);
      ConcatAssociates(traces, FlatMap(LocalPass(ws, routes), ws.applications),
                       FlatMap(RemotePass(env, ws, routes), ws.applications));
    } else {
      locations := AppendEach(OtherPart(env, ws, patterns, domainApp.value), ws.applications, locations);
      locations := AppendDomainApp(env, ws, routes, patterns, domainApp.value, locations);
      OtherPartIs(env, ws, routes, patterns, domainApp.value);
      ConcatAssociates(traces, FlatMap(DomainPass(env, ws, routes, domainApp.value), ws.applications),
                       DomainAppLocations(env, ws, routes, domainApp.value));
    }
    locations := locations + [FallbackLocation(env, ws, domainApp)];
  }

  /** routingServer */
  method BuildRoutingServer(env: Env, name: string, ws: Workspace, routes: seq<Routes.Route>,
                            patterns: map<string, seq<string>>, domainApp: Option<Application>)
    returns (server: Server)
    requires ListsPatterns(patterns, routes)
    ensures server == RoutingServer(env, name, ws, routes, domainApp)
  {
    var locations := CollectLocations(env, ws, routes, patterns, domainApp);
    locations := DedupeLocations(locations);
    server := Server(name, env.listen, locations);
  }

  /** The server of an application with a domain of its own. */
  method BuildDomainServer(env: Env, ws: Workspace, routes: seq<Routes.Route>, patterns: map<string, seq<string>>,
                           app: Application)
    returns (servers: seq<Server>)
    requires ListsPatterns(patterns, routes)
    ensures servers == DomainServer(env, ws, routes)(app)
  {
    if app.domain == "" {
      return [];
    }
    var server := BuildRoutingServer(env, app.domain, ws, routes, patterns, Some(app));
    servers := [server];
  }

  method BuildDomainServers(env: Env, ws: Workspace, routes: seq<Routes.Route>, patterns: map<string, seq<string>>,
                            default: Server)
    returns (servers: seq<Server>)
    requires ListsPatterns(patterns, routes)
    ensures servers == [default] + FlatMap(DomainServer(env, ws, routes), ws.applications)
  {
    servers := [default];
    for i := 0 to |ws.applications|
      invariant servers == [default] + FlatMap(DomainServer(env, ws, routes), ws.applications[..i])
    {
      var own := BuildDomainServer(env, ws, routes, patterns, ws.applications[i]);
      FlatMapGrows(DomainServer(env, ws, routes), ws.applications, i);
      servers := servers + own;
    }
    assert ws.applications[..|ws.applications|] == ws.applications;
  }

  /** The servers of one workspace. */
  method BuildWorkspaceServers(env: Env, ws: Workspace) returns (servers: seq<Server>)
    ensures servers == WorkspaceServers(env)(ws)
  {
    if ws.IsLocalApps() {
      servers := AppendEach(LocalAppServer(env, ws), ws.applications, []);
      return;
    }
    var routes := RouteBuilder.BuildNormalizedRoutes(ws);
    var patterns := CollectPatterns(routes);
    var default := BuildRoutingServer(env, ws.LocalDomain(), ws, routes, patterns, None);
    servers := BuildDomainServers(env, ws, routes, patterns, default);
  }
}
