/** Which fields of a workspace its routes depend on: neither operations and versions nor
    aliases nor what is shown about the proxy. */
module Relevance {
  import opened Text
  import opened Model
  import opened Routes
  import opened Keyed

  const NO_STATUS := RouteStatus("", "", "", "", "", false, "", "", None)
  const NO_ROUTE := RouteState(0, "", NO_STATUS)

  function BareApp(app: Application): Application {
    app.(aliases := [], route := NO_ROUTE, lastOperation := None, sharedWith := [])
  }

  function BareApps(apps: seq<Application>): seq<Application> {
    seq(|apps|, i requires 0 <= i < |apps| => BareApp(apps[i]))
  }

  /** The workspace without its operations, versions, aliases and runtime annotations. */
  function Bare(ws: Workspace): Workspace {
    ws.(route := NO_ROUTE, lastOperation := None, applications := BareApps(ws.applications))
  }

  /** Workspaces that route alike. */
  predicate Alike(a: Workspace, b: Workspace) {
    Bare(a) == Bare(b)
  }

  // ---- What is shown of versions and operations ----

  /** What a response proof says for an application when its workspace has no version. */
  function OwnVersion(app: Application): nat {
    if app.route.routeVersion != 0 then app.route.routeVersion
    else if app.lastOperation.Some? then app.lastOperation.value.routeVersion
    else 0
  }

  function OwnOperation(app: Application): string {
    if app.route.operationID != "" then app.route.operationID
    else if app.lastOperation.Some? then app.lastOperation.value.operationID
    else ""
  }

  predicate HasOperation(ws: Workspace) {
    ws.route.operationID != "" && ws.route.operationID != "none"
  }

  predicate TwinApps(ws: Workspace, x: Application, y: Application) {
    && BareApp(x) == BareApp(y)
    && (ws.route.routeVersion != 0 || OwnVersion(x) == OwnVersion(y))
    && (HasOperation(ws) || OwnOperation(x) == OwnOperation(y))
  }

  /** Workspaces that route alike and show the same versions and operations. */
  predicate Twins(a: Workspace, b: Workspace) {
    && Alike(a, b) && a.route.routeVersion == b.route.routeVersion && a.route.operationID == b.route.operationID
    && |a.applications| == |b.applications|
    && forall i | 0 <= i < |a.applications| :: TwinApps(a, a.applications[i], b.applications[i])
  }

  predicate TwinLists(a: seq<Workspace>, b: seq<Workspace>) {
    |a| == |b| && forall i | 0 <= i < |a| :: Twins(a[i], b[i])
  }

  function BareOption(app: Option<Application>): Option<Application> {
    if app.Some? then Some(BareApp(app.value)) else None
  }

  lemma BuildRouteIsBare(ws: Workspace, app: Option<Application>, host: string, pattern: string, mode: string,
                         exact: bool)
    ensures BuildRoute(Bare(ws), BareOption(app), host, pattern, mode, exact)
      == BuildRoute(ws, app, host, pattern, mode, exact)
  {
  }

  lemma EntriesAreBare(app: Application)
    ensures RoutePatternEntries(BareApp(app)) == RoutePatternEntries(app)
  {
  }

  lemma AppRoutesAreBare(ws: Workspace, app: Application, host: string, mode: string)
    ensures AppRoutes(Bare(ws), BareApp(app), host, mode) == AppRoutes(ws, app, host, mode)
  {
    var entries := RoutePatternEntries(app);
    EntriesAreBare(app);
    forall i | 0 <= i < |entries|
      ensures BuildRoute(Bare(ws), Some(BareApp(app)), host, entries[i].pattern, mode, entries[i].exact)
           == BuildRoute(ws, Some(app), host, entries[i].pattern, mode, entries[i].exact)
    {
      BuildRouteIsBare(ws, Some(app), host, entries[i].pattern, mode, entries[i].exact);
    }
  }

  lemma SkippedIsBare(ws: Workspace, app: Application, domainApp: Option<Application>)
    ensures Skipped(Bare(ws), BareApp(app), BareOption(domainApp)) == Skipped(ws, app, domainApp)
    ensures AppMode(Bare(ws), BareApp(app)) == AppMode(ws, app)
  {
  }

  lemma SharedRoutesAreBare(ws: Workspace, host: string, domainApp: Option<Application>, app: Application)
    ensures SharedRoutesOf(Bare(ws), host, BareOption(domainApp))(BareApp(app))
      == SharedRoutesOf(ws, host, domainApp)(app)
  {
    SkippedIsBare(ws, app, domainApp);
    AppRoutesAreBare(ws, app, host, AppMode(ws, app));
  }

  lemma DomainRoutesAreBare(ws: Workspace, app: Application, host: string)
    ensures DomainRoutes(Bare(ws), BareApp(app), host) == DomainRoutes(ws, app, host)
  {
    AppRoutesAreBare(ws, app, host, AppMode(ws, app));
  }

  lemma {:induction false} DefaultRootAppIsBare(apps: seq<Application>)
    ensures DefaultRootApp(BareApps(apps)) == BareOption(DefaultRootApp(apps))
  {
    if apps != [] {
      DefaultRootAppIsBare(apps[..|apps| - 1]);
      assert BareApps(apps)[..|apps| - 1] == BareApps(apps[..|apps| - 1]);
    }
  }

  lemma FallbackIsBare(ws: Workspace, host: string, domainApp: Option<Application>)
    ensures FallbackRoute(Bare(ws), host, BareOption(domainApp)) == FallbackRoute(ws, host, domainApp)
  {
    DefaultRootAppIsBare(ws.applications);
    var root := if domainApp.Some? then domainApp else DefaultRootApp(ws.applications);
    BuildRouteIsBare(ws, root, host, "/*", "local", false);
    BuildRouteIsBare(ws, root, host, "/*", if root.Some? then AppMode(ws, root.value) else "remote", false);
  }

  lemma HostRoutesAreBare(ws: Workspace, host: string, domainApp: Option<Application>)
    ensures HostRoutes(Bare(ws), host, BareOption(domainApp)) == HostRoutes(ws, host, domainApp)
  {
    var apps := ws.applications;
    forall i | 0 <= i < |apps|
      ensures SharedRoutesOf(ws, host, domainApp)(apps[i])
        == SharedRoutesOf(Bare(ws), host, BareOption(domainApp))(BareApps(apps)[i])
    {
      SharedRoutesAreBare(ws, host, domainApp, apps[i]);
    }
    FlatMapCongruence(SharedRoutesOf(ws, host, domainApp), SharedRoutesOf(Bare(ws), host, BareOption(domainApp)), apps,
                      BareApps(apps));
    FallbackIsBare(ws, host, domainApp);
    if domainApp.Some? {
      DomainRoutesAreBare(ws, domainApp.value, host);
    }
  }

  lemma RawRoutesAreBare(ws: Workspace)
    ensures RawRoutes(Bare(ws)) == RawRoutes(ws)
  {
    var apps := ws.applications;
    if ws.IsLocalApps() {
      forall i | 0 <= i < |apps|
        ensures LocalAppRoutesOf(ws)(apps[i]) == LocalAppRoutesOf(Bare(ws))(BareApps(apps)[i])
      {
        BuildRouteIsBare(ws, Some(apps[i]), apps[i].domain, "/", "local", false);
      }
      FlatMapCongruence(LocalAppRoutesOf(ws), LocalAppRoutesOf(Bare(ws)), apps, BareApps(apps));
    } else {
      HostRoutesAreBare(ws, ws.LocalDomain(), None);
      forall i | 0 <= i < |apps|
        ensures DomainHostRoutesOf(ws)(apps[i]) == DomainHostRoutesOf(Bare(ws))(BareApps(apps)[i])
      {
        HostRoutesAreBare(ws, apps[i].domain, Some(apps[i]));
      }
      FlatMapCongruence(DomainHostRoutesOf(ws), DomainHostRoutesOf(Bare(ws)), apps, BareApps(apps));
    }
  }

  /** Workspaces that differ only in operations, versions, aliases and annotations have the same
      routes. */
  lemma RoutesDependOnBare(a: Workspace, b: Workspace)
    requires Alike(a, b)
    ensures NormalizedRoutes(a) == NormalizedRoutes(b)
  {
    RawRoutesAreBare(a);
    RawRoutesAreBare(b);
  }
}
