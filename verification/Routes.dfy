/** The normalized route projection of a workspace: which application owns which host and
    pattern, with an explicit precedence. */
module Routes {
  import opened Text
  import opened Model
  import opened Patterns
  import opened StableSort
  import opened Keyed

  datatype Route = Route(
    workspaceID: string, environment: string, publicHost: string, pattern: string,
    canonicalAppID: string, serviceID: string, repository: string,
    desiredMode: string, effectiveMode: string, target: string,
    localTarget: string, remoteTarget: string, remoteFallback: bool, upstreamContext: string,
    precedence: nat, precedenceReason: string, exact: bool, intentionalOverride: bool)

  // ---- Hosts ----

  function Lower(s: string): string {
    if s == "" then ""
    else [if 'A' <= s[0] <= 'Z' then s[0] - 'A' + 'a' else s[0]] + Lower(s[1..])
  }

  /** The host of a host:port pair; anything else is left alone. */
  function DropPort(host: string): string {
    if exists i | 0 <= i < |host| :: host[i] == ':' && ':' !in host[..i] && ':' !in host[i + 1..] then
      BeforeColon(host)
    else host
  }

  function BeforeColon(s: string): string {
    if s == "" || s[0] == ':' then "" else [s[0]] + BeforeColon(s[1..])
  }

  function NormalizeHost(host: string): string {
    Lower(TrimSuffix(DropPort(TrimSpace(host)), "."))
  }

  // ---- One route ----

  datatype Entry = Entry(pattern: string, exact: bool)

  /** A root application with an upstream context gets three special locations. */
  predicate IsContextRoot(app: Application) {
    var context := app.BackendContextPath();
    app.PublicRoutePath() == "/" && TrimSpace(context) != "" && NormalizeRequestPath(context) != "/"
  }

  function ContextEntries(context: string): seq<Entry> {
    [Entry("/", true), Entry(context, true), Entry(context + "/*", false)]
  }

  predicate HasOwnPattern(app: Application) {
    app.routePattern.Some? && TrimSpace(app.routePattern.value) != ""
  }

  function OwnPatternEntries(pattern: string): seq<Entry> {
    if pattern == "/" then [Entry("/*", false)] else [Entry(pattern, RoutePatternInfo(pattern).exact)]
  }

  function PathEntries(path: string): seq<Entry> {
    [Entry(path, true), Entry(path + "/*", false)]
  }

  /** routePatternEntries: the patterns an application asks for. */
  function RoutePatternEntries(app: Application): seq<Entry> {
    if IsContextRoot(app) then ContextEntries(NormalizeRequestPath(app.BackendContextPath()))
    else if HasOwnPattern(app) then OwnPatternEntries(NormalizeRequestPath(app.routePattern.value))
    else if app.PublicRoutePath() == "/" || TrimSpace(app.PublicRoutePath()) == "" then [Entry("/*", false)]
    else PathEntries(NormalizeRequestPath(app.IngressPath()))
  }

  function RouteInfo(route: Route): PatternInfo {
    var info := RoutePatternInfo(route.pattern);
    if route.exact then info.(exact := true) else info
  }

  function AppMode(ws: Workspace, app: Application): string {
    if ws.IsLocalApps() || app.active then "local" else "remote"
  }

  function LocalTarget(app: Application): string {
    if app.port > 0 then "http://localhost:" + Decimal(app.port) else ""
  }

  function Target(ws: Workspace, app: Application, mode: string): string {
    if mode == "local" && LocalTarget(app) != "" then LocalTarget(app) else ws.RemoteBaseUrl(app)
  }

  function EffectiveMode(target: string, local: string, mode: string): string {
    if target == "" && mode == "remote" then "fallback"
    else if target == "" then "unknown"
    else if mode == "local" && target != local then "remote"
    else mode
  }

  /** buildRouteWithExact */
  function BuildRoute(ws: Workspace, app: Option<Application>, host: string, pattern: string, mode: string,
                      exactOverride: bool): Route
  {
    var info := RoutePatternInfo(pattern);
    var exact := info.exact || exactOverride;
    var target := if app.Some? then Target(ws, app.value, mode) else "";
    var local := if app.Some? then LocalTarget(app.value) else "";
    Route(ws.workspaceID, ws.EnvironmentID(), NormalizeHost(host), pattern,
          if app.Some? then app.value.CanonicalAppID() else "",
          if app.Some? then app.value.serviceID else "",
          if app.Some? then app.value.repository else "",
          mode, EffectiveMode(target, local, mode), target, local,
          if app.Some? then ws.RemoteBaseUrl(app.value) else "", false,
          if app.Some? then app.value.BackendContextPath() else "",
          info.length + if exact then 100000 else 0,
          if exact then "exact match" else if info.path != "/" then "longest prefix" else "root fallback",
          exact, app.Some? && app.value.routeOverride)
  }

  // ---- The routes of one host ----

  function AppRoutes(ws: Workspace, app: Application, host: string, mode: string): seq<Route> {
    var entries := RoutePatternEntries(app);
    seq(|entries|, i requires 0 <= i < |entries| =>
      BuildRoute(ws, Some(app), host, entries[i].pattern, mode, entries[i].exact))
  }

  /** An application that owns a domain is routed there and not on the shared host, and an
      application with nothing to answer gets no route. */
  predicate Skipped(ws: Workspace, app: Application, domainApp: Option<Application>) {
    var mode := AppMode(ws, app);
    || app.domain != ""
    || (domainApp.Some? && app.CanonicalAppID() == domainApp.value.CanonicalAppID())
    || (mode == "local" && app.port == 0 && ws.RemoteBaseUrl(app) == "")
    || (mode == "remote" && ws.RemoteBaseUrl(app) == "")
  }

  /** What one application contributes to a shared host. */
  function SharedRoutesOf(ws: Workspace, host: string, domainApp: Option<Application>): Application -> seq<Route> {
    (app: Application) => if Skipped(ws, app, domainApp) then [] else AppRoutes(ws, app, host, AppMode(ws, app))
  }

  function DomainRoutes(ws: Workspace, app: Application, host: string): seq<Route> {
    var mode := AppMode(ws, app);
    if (mode == "local" && app.port > 0) || (app.remoteBaseUrl != "" && ws.RemoteBaseUrl(app) != "")
    then AppRoutes(ws, app, host, mode) else []
  }

  function RootAppSortKey(app: Application): string {
    Join([app.CanonicalAppID(), app.serviceID, app.id], '\0')
  }

  predicate IsRootApp(app: Application) {
    app.domain == "" && NormalizeRequestPath(app.PublicRoutePath()) == "/"
  }

  /** defaultRootApp: the root application with the least key. */
  function DefaultRootApp(apps: seq<Application>): Option<Application> {
    if apps == [] then None
    else
      var root, app := DefaultRootApp(apps[..|apps| - 1]), apps[|apps| - 1];
      if IsRootApp(app) && (root.None? || Less(RootAppSortKey(app), RootAppSortKey(root.value))) then Some(app)
      else root
  }

  function FallbackRoute(ws: Workspace, host: string, domainApp: Option<Application>): Route {
    var root := if domainApp.Some? then domainApp else DefaultRootApp(ws.applications);
    if root.Some? && root.value.active && root.value.port > 0 then
      BuildRoute(ws, root, host, "/*", "local", false).(intentionalOverride := true)
    else
      var mode := if root.Some? then AppMode(ws, root.value) else "remote";
      var fallback := BuildRoute(ws, root, host, "/*", mode, false).(intentionalOverride := true);
      if root.Some? then fallback
      else
        var target := ws.DefaultRemoteBaseURL();
        fallback.(target := target, remoteTarget := target,
                  effectiveMode := if target != "" then "remote" else fallback.effectiveMode)
  }

  /** The domain application's own routes, then the server's catch-all. */
  function LastRoutes(ws: Workspace, host: string, domainApp: Option<Application>): seq<Route> {
    (if domainApp.Some? then DomainRoutes(ws, domainApp.value, host) else [])
    + [FallbackRoute(ws, host, domainApp)]
  }

  function HostRoutes(ws: Workspace, host: string, domainApp: Option<Application>): seq<Route> {
    FlatMap(SharedRoutesOf(ws, host, domainApp), ws.applications) + LastRoutes(ws, host, domainApp)
  }

  function DomainHostRoutesOf(ws: Workspace): Application -> seq<Route> {
    (app: Application) => if app.domain != "" then HostRoutes(ws, app.domain, Some(app)) else []
  }

  function LocalAppRoutesOf(ws: Workspace): Application -> seq<Route> {
    (app: Application) => if app.domain == "" || app.port == 0 then []
      else [BuildRoute(ws, Some(app), app.domain, "/", "local", false)]
  }

  function RawRoutes(ws: Workspace): seq<Route> {
    if ws.IsLocalApps() then FlatMap(LocalAppRoutesOf(ws), ws.applications)
    else HostRoutes(ws, ws.LocalDomain(), None) + FlatMap(DomainHostRoutesOf(ws), ws.applications)
  }

  // ---- Deduplication and order ----

  function RouteKey(route: Route): string {
    Join([NormalizeHost(route.publicHost), route.pattern, route.canonicalAppID, route.serviceID], '\0')
  }

  /** A coalesced entry is intentional if any of its sources is. */
  function MergeRoutes(kept: Route, route: Route): Route {
    if route.intentionalOverride then kept.(intentionalOverride := true) else kept
  }

  function RouteSortKey(route: Route): string {
    Join([NormalizeHost(route.publicHost), route.pattern, route.canonicalAppID, route.serviceID, route.target], '\0')
  }

  /** The comparator of sortRoutes. */
  predicate RouteLess(left: Route, right: Route) {
    if NormalizeHost(left.publicHost) != NormalizeHost(right.publicHost) then
      Less(NormalizeHost(left.publicHost), NormalizeHost(right.publicHost))
    else if left.precedence != right.precedence then left.precedence > right.precedence
    else if left.pattern != right.pattern then Less(left.pattern, right.pattern)
    else Less(RouteSortKey(left), RouteSortKey(right))
  }

  function NormalizedRoutes(ws: Workspace): seq<Route> {
    Sort(RouteLess, DedupeBy(RouteKey, MergeRoutes, RawRoutes(ws)))
  }
}
