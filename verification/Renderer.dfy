/** routingServer and its helpers: the nginx locations of a workspace. */
module Renderer {
  import opened Text
  import opened Model
  import opened Nginx
  import opened Keyed
  import opened StableSort
  import Regex
  import Routes

  /** What rendering takes from its surroundings. The proxy of a remote base URL comes from the
      URL parser of the host language. */
  datatype Env = Env(listen: seq<string>, controlPort: nat, remoteProxy: string -> Proxy)

  // ---- Paths ----

  function CleanPath(path: string): string {
    if path == "" then "/"
    else
      var p := if "/" <= path then path else "/" + path;
      if |p| > 1 then TrimRightSlash(p) else p
  }

  datatype Place = Place(modifier: string, pattern: string)

  /** nginxLocationPattern: a wildcard becomes a prefix with a trailing slash. */
  function NginxPlace(pattern: string): Place {
    var p := CleanPath(pattern);
    if p == "/*" || p == "/" then Place("", "/")
    else if HasSuffix(p, "/*") then Place("", TrimSuffix(p, "*"))
    else Place("=", p)
  }

  datatype RewriteRule = RewriteRule(pattern: string, target: string)

  function ExplicitContextRewrite(app: Application, pattern: string): RewriteRule {
    var publicPath, upstream := CleanPath(app.PublicRoutePath()), CleanPath(app.BackendContextPath());
    var p := CleanPath(pattern);
    if app.legacyPublicPath || TrimSpace(app.publicPath) == "" || upstream == "/" || upstream == publicPath
       || p == "/" || p == "/*" then RewriteRule("", "")
    else
      var prefix := TrimSuffix(p, "/*");
      if prefix == p then RewriteRule("^" + Regex.QuoteMeta(prefix) + "$", upstream)
      else RewriteRule("^" + Regex.QuoteMeta(prefix) + "(.*)$", upstream + "$1")
  }

  // ---- Proofs and proxies ----

  function LocalProxy(port: nat, stripPrefix: bool): Proxy {
    Proxy("http", "localhost", port, if stripPrefix then "/" else "", "localhost", "localhost", "", false)
  }

  function ControlPlaneProof(): ResponseProof {
    ResponseProof("rementor", "rementor-control-plane", "control-plane", "control-plane", "", "local", "0", "none")
  }

  /** The workspace half of a proof. */
  function WorkspaceProof(ws: Workspace, proof: ResponseProof): ResponseProof {
    var p := if ws.workspaceID != ""
             then proof.(workspace := ws.workspaceID, environment := ws.EnvironmentID(), session := ws.SessionID())
             else proof;
    p.(routeVersion := Decimal(ws.route.routeVersion),
       operationID := if ws.route.operationID != "" then ws.route.operationID else p.operationID)
  }

  function RouteProof(ws: Workspace, app: Option<Application>, mode: string): ResponseProof {
    var base := WorkspaceProof(ws, ResponseProof("unknown", "unknown", "unknown", "unknown", "", mode, "0", "none"));
    if app.None? then base
    else
      var a := app.value;
      base.(
        appID := if a.CanonicalAppID() != "" then a.CanonicalAppID() else base.appID,
        serviceID := if a.serviceID != "" then a.serviceID else base.serviceID,
        routeVersion :=
          if base.routeVersion != "0" then base.routeVersion
          else if a.route.routeVersion != 0 then Decimal(a.route.routeVersion)
          else if a.lastOperation.Some?
            && a.lastOperation.value.routeVersion != 0 then Decimal(a.lastOperation.value.routeVersion)
          else base.routeVersion,
        operationID :=
          if base.operationID != "none" then base.operationID
          else if a.route.operationID != "" then a.route.operationID
          else if a.lastOperation.Some?
            && a.lastOperation.value.operationID != "" then a.lastOperation.value.operationID
          else base.operationID)
  }

  function PlainLocation(place: Place, proxy: Proxy, proof: ResponseProof): Location {
    Location(0, "", place.modifier, place.pattern, "", "", proxy, "", true, true, false, false, proof, false)
  }

  const TRACE_PATHS := ["/__rementor/trace", "/_rementor/trace"]

  function TraceLocation(env: Env, ws: Workspace, path: string): Location {
    PlainLocation(Place("=", path), LocalProxy(env.controlPort, false),
                  WorkspaceProof(ws, ControlPlaneProof())).(trace := true)
  }

  function TraceLocations(env: Env, ws: Workspace): seq<Location> {
    [TraceLocation(env, ws, TRACE_PATHS[0]), TraceLocation(env, ws, TRACE_PATHS[1])]
  }

  // ---- The locations of one application ----

  /** The patterns of one application over the normalized routes, without repetitions. */
  function PatternsFor(routes: seq<Routes.Route>, appID: string): seq<string> {
    if routes == [] then []
    else
      var rest, route := PatternsFor(routes[..|routes| - 1], appID), routes[|routes| - 1];
      if route.canonicalAppID == appID && route.pattern !in rest then rest + [route.pattern] else rest
  }

  /** routePathPatterns: the shared projection, or a defensive guess when it has nothing. */
  function RoutePathPatterns(app: Application, cached: seq<string>): seq<string> {
    if cached != [] then cached
    else if app.routePattern.Some? && app.routePattern.value != "" then [app.routePattern.value]
    else if app.PublicRoutePath() == "/" then ["/*"]
    else
      var path := CleanPath(if app.BackendContextPath() != "" then app.BackendContextPath() else app.PublicRoutePath());
      [path, path + "/*"]
  }

  function PatternLocation(app: Application, proxy: Proxy, stripOrigin: bool, proof: ResponseProof,
                           pattern: string): Location
  {
    var rule := ExplicitContextRewrite(app, pattern);
    PlainLocation(NginxPlace(pattern), proxy, proof)
      .(rewrite := rule.target, rewritePattern := rule.pattern, stripOrigin := stripOrigin)
  }

  function PatternLocationOf(app: Application, proxy: Proxy, stripOrigin: bool,
                             proof: ResponseProof): string -> seq<Location>
  {
    (pattern: string) => [PatternLocation(app, proxy, stripOrigin, proof, pattern)]
  }

  function LocationsForPatterns(patterns: seq<string>, app: Application, proxy: Proxy, stripOrigin: bool,
                                proof: ResponseProof): seq<Location>
  {
    FlatMap(PatternLocationOf(app, proxy, stripOrigin, proof), patterns)
  }

  predicate RendersContext(app: Application) {
    app.PublicRoutePath() == "/" && app.BackendContextPath() != "" && app.BackendContextPath() != "/"
  }

  function LocalAppLocations(ws: Workspace, app: Application, cached: seq<string>): seq<Location> {
    var proof := RouteProof(ws, Some(app), "local");
    if RendersContext(app) then
      var context := CleanPath(app.BackendContextPath());
      [PlainLocation(Place("=", "/"), LocalProxy(app.port, false), proof).(stripOrigin := app.stripOrigin),
       PlainLocation(Place("=", context), Proxy("", "", 0, "", "", "", "", false), proof).(redirect := context + "/",
         passHeaders := false),
       PlainLocation(Place("", context + "/"), LocalProxy(app.port, true), proof).(stripOrigin := app.stripOrigin)]
    else LocationsForPatterns(RoutePathPatterns(app, cached), app, LocalProxy(app.port, false), app.stripOrigin, proof)
  }

  function RemoteAppLocations(env: Env, ws: Workspace, app: Application, base: string, mode: string,
                              cached: seq<string>): seq<Location>
  {
    var proof, proxy := RouteProof(ws, Some(app), mode), env.remoteProxy(base);
    if RendersContext(app) then
      var context := CleanPath(app.BackendContextPath());
      [PlainLocation(Place("=", "/"), proxy, proof).(rewrite := context + "/home"),
       PlainLocation(Place("=", context), proxy, proof),
       PlainLocation(Place("", context + "/"), proxy, proof)]
    else LocationsForPatterns(RoutePathPatterns(app, cached), app, proxy, false, proof)
  }

  function RemoteEffectiveMode(app: Application): string {
    if app.active && app.port == 0 then "fallback" else "remote"
  }

  predicate RunsLocally(app: Application) {
    app.active && app.port > 0
  }

  // ---- The locations of one server ----

  predicate IsRemoteRoot(app: Application) {
    app.domain == "" && app.PublicRoutePath() == "/" && app.remoteBaseUrl != ""
  }

  function FirstRemoteRoot(apps: seq<Application>): Option<Application> {
    if apps == [] then None
    else if IsRemoteRoot(apps[0]) then Some(apps[0])
    else FirstRemoteRoot(apps[1..])
  }

  function FallbackFrom(env: Env, ws: Workspace, root: Option<Application>): Location {
    if root.Some? && RunsLocally(root.value) then
      PlainLocation(Place("", "/"), LocalProxy(root.value.port, false), RouteProof(ws, root, "local"))
        .(stripOrigin := root.value.stripOrigin)
    else
      var ownBase := root.Some? && root.value.remoteBaseUrl != "";
      var base := if ownBase then root.value.remoteBaseUrl else ws.DefaultRemoteBaseURL();
      var rewrite :=
        if ownBase && root.value.BackendContextPath() != "" && root.value.BackendContextPath() != "/"
        then CleanPath(root.value.BackendContextPath()) + "$uri" else "";
      PlainLocation(Place("", "/"), env.remoteProxy(base), RouteProof(ws, root, "fallback")).(rewrite := rewrite)
  }

  function FallbackLocation(env: Env, ws: Workspace, domainApp: Option<Application>): Location {
    FallbackFrom(env, ws, if domainApp.Some? then domainApp else FirstRemoteRoot(ws.applications))
  }

  function LocalPass(ws: Workspace, routes: seq<Routes.Route>): Application -> seq<Location> {
    (app: Application) =>
      if app.domain != "" || !RunsLocally(app) then []
      else LocalAppLocations(ws, app, PatternsFor(routes, app.CanonicalAppID()))
  }

  function RemotePass(env: Env, ws: Workspace, routes: seq<Routes.Route>): Application -> seq<Location> {
    (app: Application) =>
      if app.domain != "" || RunsLocally(app) || ws.RemoteBaseUrl(app) == "" then []
      else RemoteAppLocations(env, ws, app, ws.RemoteBaseUrl(app), RemoteEffectiveMode(app),
                              PatternsFor(routes, app.CanonicalAppID()))
  }

  /** The single pass of a domain server over the other applications. */
  function DomainPass(env: Env, ws: Workspace, routes: seq<Routes.Route>,
                      domainApp: Application): Application -> seq<Location>
  {
    (app: Application) =>
      if app.domain != "" || app.id == domainApp.id then []
      else if RunsLocally(app) then LocalAppLocations(ws, app, PatternsFor(routes, app.CanonicalAppID()))
      else if ws.RemoteBaseUrl(app) == "" then []
      else RemoteAppLocations(env, ws, app, ws.RemoteBaseUrl(app), RemoteEffectiveMode(app),
                              PatternsFor(routes, app.CanonicalAppID()))
  }

  function DomainAppLocations(env: Env, ws: Workspace, routes: seq<Routes.Route>, app: Application): seq<Location> {
    var cached := PatternsFor(routes, app.CanonicalAppID());
    if RunsLocally(app) then LocalAppLocations(ws, app, cached)
    else if app.remoteBaseUrl != "" then
      RemoteAppLocations(env, ws, app, app.remoteBaseUrl, RemoteEffectiveMode(app), cached)
    else []
  }

  /** Every location of a server before duplicates are dropped. */
  function RawLocations(env: Env, ws: Workspace, routes: seq<Routes.Route>,
                        domainApp: Option<Application>): seq<Location>
  {
    TraceLocations(env, ws)
    + (if domainApp.None? then
         FlatMap(LocalPass(ws, routes), ws.applications) + FlatMap(RemotePass(env, ws, routes), ws.applications)
       else
         FlatMap(DomainPass(env, ws, routes, domainApp.value), ws.applications)
           + DomainAppLocations(env, ws, routes, domainApp.value))
    + [FallbackLocation(env, ws, domainApp)]
  }

  function LocationKey(l: Location): string {
    l.modifier + " " + l.pattern
  }

  function KeepFirst(kept: Location, l: Location): Location {
    kept
  }

  function LocationRank(l: Location): nat {
    if l.modifier == "=" then 0 else if l.pattern != "/" then 1 else 2
  }

  predicate RankLess(a: Location, b: Location) {
    LocationRank(a) < LocationRank(b)
  }

  /** dedupeLocations: the first location of each modifier and pattern, by rank. */
  function DedupedLocations(locations: seq<Location>): seq<Location> {
    Sort(RankLess, DedupeBy(LocationKey, KeepFirst, locations))
  }

  function RoutingServer(env: Env, name: string, ws: Workspace, routes: seq<Routes.Route>,
                         domainApp: Option<Application>): Server
  {
    Server(name, env.listen, DedupedLocations(RawLocations(env, ws, routes, domainApp)))
  }

  // ---- The servers of a configuration ----

  function ControlServer(env: Env, domain: string): Server {
    Server(domain, env.listen, [PlainLocation(Place("", "/"), LocalProxy(env.controlPort, false), ControlPlaneProof())])
  }

  function LocalAppServer(env: Env, ws: Workspace): Application -> seq<Server> {
    (app: Application) =>
      if app.domain == "" || app.port == 0 then []
      else [Server(app.domain, env.listen,
                   TraceLocations(env, ws)
                   + [PlainLocation(Place("", "/"), LocalProxy(app.port, false), RouteProof(ws, Some(app), "local"))])]
  }

  function DomainServer(env: Env, ws: Workspace, routes: seq<Routes.Route>): Application -> seq<Server> {
    (app: Application) => if app.domain == "" then [] else [RoutingServer(env, app.domain, ws, routes, Some(app))]
  }

  function WorkspaceServers(env: Env): Workspace -> seq<Server> {
    (ws: Workspace) =>
      if ws.IsLocalApps() then FlatMap(LocalAppServer(env, ws), ws.applications)
      else
        var routes := Routes.NormalizedRoutes(ws);
        [RoutingServer(env, ws.LocalDomain(), ws, routes, None)]
          + FlatMap(DomainServer(env, ws, routes), ws.applications)
  }

  /** The servers buildConfig assembles, before proof ids and compaction. */
  function AllServers(env: Env, workspaces: seq<Workspace>, domain: string): seq<Server> {
    [ControlServer(env, domain)] + FlatMap(WorkspaceServers(env), workspaces)
  }
}
