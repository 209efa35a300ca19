/** What rendering reads of a workspace: what its routes depend on, and the versions and the
    operations it shows. */
module Rendering {
  import opened Text
  import opened Model
  import opened Nginx
  import opened Renderer
  import opened Keyed
  import opened Relevance
  import Routes

  // ---- Proofs ----

  predicate TwinOptions(ws: Workspace, x: Option<Application>, y: Option<Application>) {
    x.Some? == y.Some? && (x.Some? ==> TwinApps(ws, x.value, y.value))
  }

  lemma AlikeFields(a: Workspace, b: Workspace)
    requires Alike(a, b)
    ensures a == b.(route := a.route, lastOperation := a.lastOperation, applications := a.applications)
  {
    assert Bare(a) == Bare(b);
  }

  lemma TwinFields(ws: Workspace, x: Application, y: Application)
    requires TwinApps(ws, x, y)
    ensures x == y.(aliases := x.aliases, route := x.route, lastOperation := x.lastOperation,
                    sharedWith := x.sharedWith)
  {
    assert BareApp(x) == BareApp(y);
  }

  lemma DecimalIsZeroIff(n: nat)
    ensures Decimal(n) == "0" <==> n == 0
  {
    if n != 0 && Decimal(n) == "0" {
      DecimalIsInjective(n, 0);
    }
  }

  lemma TwinHeads(a: Workspace, b: Workspace, proof: ResponseProof)
    requires Twins(a, b)
    ensures WorkspaceProof(a, proof) == WorkspaceProof(b, proof)
  {
    AlikeFields(a, b);
  }

  /** The application's half of a proof: it fills in what the workspace does not say. */
  lemma ProofTells(ws: Workspace, app: Application, mode: string)
    ensures RouteProof(ws, Some(app), mode).routeVersion ==
      Decimal(if ws.route.routeVersion != 0 then ws.route.routeVersion else OwnVersion(app))
    ensures RouteProof(ws, Some(app), mode).operationID ==
      if HasOperation(ws) then ws.route.operationID else if OwnOperation(app) != "" then OwnOperation(app) else "none"
  {
    DecimalIsZeroIff(ws.route.routeVersion);
  }

  lemma TwinProof(a: Workspace, b: Workspace, x: Option<Application>, y: Option<Application>, mode: string)
    requires Twins(a, b) && TwinOptions(a, x, y)
    ensures RouteProof(a, x, mode) == RouteProof(b, y, mode)
  {
    TwinHeads(a, b, ResponseProof("unknown", "unknown", "unknown", "unknown", "", mode, "0", "none"));
    if x.Some? {
      TwinFields(a, x.value, y.value);
      ProofTells(a, x.value, mode);
      ProofTells(b, y.value, mode);
    }
  }

  lemma TwinTraces(env: Env, a: Workspace, b: Workspace)
    requires Twins(a, b)
    ensures TraceLocations(env, a) == TraceLocations(env, b)
  {
    TwinHeads(a, b, ControlPlaneProof());
  }

  // ---- The locations of one application ----

  lemma TwinPatterns(patterns: seq<string>, ws: Workspace, x: Application, y: Application, proxy: Proxy,
                     stripOrigin: bool, proof: ResponseProof)
    requires TwinApps(ws, x, y)
    ensures LocationsForPatterns(patterns, x, proxy, stripOrigin, proof)
      == LocationsForPatterns(patterns, y, proxy, stripOrigin, proof)
  {
    var f, g := PatternLocationOf(x, proxy, stripOrigin, proof), PatternLocationOf(y, proxy, stripOrigin, proof);
    TwinFields(ws, x, y);
    forall i | 0 <= i < |patterns|
      ensures f(patterns[i]) == g(patterns[i])
    {
      assert ExplicitContextRewrite(x, patterns[i]) == ExplicitContextRewrite(y, patterns[i]);
    }
    FlatMapCongruence(f, g, patterns, patterns);
  }

  lemma TwinLocal(a: Workspace, b: Workspace, x: Application, y: Application, cached: seq<string>)
    requires Twins(a, b) && TwinApps(a, x, y)
    ensures LocalAppLocations(a, x, cached) == LocalAppLocations(b, y, cached)
  {
    TwinFields(a, x, y);
    TwinProof(a, b, Some(x), Some(y), "local");
    assert RoutePathPatterns(x, cached) == RoutePathPatterns(y, cached);
    TwinPatterns(RoutePathPatterns(x, cached), a, x, y, LocalProxy(x.port, false), x.stripOrigin,
                 RouteProof(a, Some(x), "local"));
  }

  lemma TwinRemote(env: Env, a: Workspace, b: Workspace, x: Application, y: Application, base: string, mode: string,
                   cached: seq<string>)
    requires Twins(a, b) && TwinApps(a, x, y)
    ensures RemoteAppLocations(env, a, x, base, mode, cached) == RemoteAppLocations(env, b, y, base, mode, cached)
  {
    TwinFields(a, x, y);
    TwinProof(a, b, Some(x), Some(y), mode);
    assert RoutePathPatterns(x, cached) == RoutePathPatterns(y, cached);
    TwinPatterns(RoutePathPatterns(x, cached), a, x, y, env.remoteProxy(base), false, RouteProof(a, Some(x), mode));
  }

  /** What decides which pass takes an application. */
  lemma TwinChoices(a: Workspace, b: Workspace, x: Application, y: Application)
    requires Twins(a, b) && TwinApps(a, x, y)
    ensures x.domain == y.domain && x.id == y.id && x.remoteBaseUrl == y.remoteBaseUrl && x.port == y.port
    ensures RunsLocally(x) == RunsLocally(y) && RemoteEffectiveMode(x) == RemoteEffectiveMode(y)
    ensures x.CanonicalAppID() == y.CanonicalAppID() && a.RemoteBaseUrl(x) == b.RemoteBaseUrl(y)
  {
    AlikeFields(a, b);
    TwinFields(a, x, y);
  }

  lemma TwinLocalPass(a: Workspace, b: Workspace, routes: seq<Routes.Route>, x: Application, y: Application)
    requires Twins(a, b) && TwinApps(a, x, y)
    ensures LocalPass(a, routes)(x) == LocalPass(b, routes)(y)
  {
    TwinChoices(a, b, x, y);
    TwinLocal(a, b, x, y, PatternsFor(routes, x.CanonicalAppID()));
  }

  lemma TwinRemotePass(env: Env, a: Workspace, b: Workspace, routes: seq<Routes.Route>, x: Application, y: Application)
    requires Twins(a, b) && TwinApps(a, x, y)
    ensures RemotePass(env, a, routes)(x) == RemotePass(env, b, routes)(y)
  {
    TwinChoices(a, b, x, y);
    TwinRemote(env, a, b, x, y, a.RemoteBaseUrl(x), RemoteEffectiveMode(x), PatternsFor(routes, x.CanonicalAppID()));
  }

  lemma TwinDomainPass(env: Env, a: Workspace, b: Workspace, routes: seq<Routes.Route>, d: Application, e: Application,
                       x: Application, y: Application)
    requires Twins(a, b) && TwinApps(a, d, e) && TwinApps(a, x, y)
    ensures DomainPass(env, a, routes, d)(x) == DomainPass(env, b, routes, e)(y)
  {
    TwinChoices(a, b, d, e);
    TwinChoices(a, b, x, y);
    if RunsLocally(x) {
      TwinLocal(a, b, x, y, PatternsFor(routes, x.CanonicalAppID()));
    } else {
      TwinRemote(env, a, b, x, y, a.RemoteBaseUrl(x), RemoteEffectiveMode(x), PatternsFor(routes, x.CanonicalAppID()));
    }
  }

  lemma TwinDomainApp(env: Env, a: Workspace, b: Workspace, routes: seq<Routes.Route>, x: Application, y: Application)
    requires Twins(a, b) && TwinApps(a, x, y)
    ensures DomainAppLocations(env, a, routes, x) == DomainAppLocations(env, b, routes, y)
  {
    TwinChoices(a, b, x, y);
    if RunsLocally(x) {
      TwinLocal(a, b, x, y, PatternsFor(routes, x.CanonicalAppID()));
    } else {
      TwinRemote(env, a, b, x, y, x.remoteBaseUrl, RemoteEffectiveMode(x), PatternsFor(routes, x.CanonicalAppID()));
    }
  }

  // ---- The locations of one server ----

  lemma {:induction false} TwinRoots(ws: Workspace, xs: seq<Application>, ys: seq<Application>)
    requires |xs| == |ys| && forall i | 0 <= i < |xs| :: TwinApps(ws, xs[i], ys[i])
    ensures TwinOptions(ws, FirstRemoteRoot(xs), FirstRemoteRoot(ys))
  {
    if xs != [] {
      TwinFields(ws, xs[0], ys[0]);
      TwinRoots(ws, xs[1..], ys[1..]);
    }
  }

  lemma TwinFallbackFrom(env: Env, a: Workspace, b: Workspace, x: Option<Application>, y: Option<Application>)
    requires Twins(a, b) && TwinOptions(a, x, y)
    ensures FallbackFrom(env, a, x) == FallbackFrom(env, b, y)
  {
    AlikeFields(a, b);
    TwinProof(a, b, x, y, "local");
    TwinProof(a, b, x, y, "fallback");
    if x.Some? {
      TwinFields(a, x.value, y.value);
    }
  }

  lemma TwinFallback(env: Env, a: Workspace, b: Workspace, d: Option<Application>, e: Option<Application>)
    requires Twins(a, b) && TwinOptions(a, d, e)
    ensures FallbackLocation(env, a, d) == FallbackLocation(env, b, e)
  {
    TwinRoots(a, a.applications, b.applications);
    TwinFallbackFrom(env, a, b, if d.Some? then d else FirstRemoteRoot(a.applications),
                     if e.Some? then e else FirstRemoteRoot(b.applications));
  }

  lemma TwinPasses(env: Env, a: Workspace, b: Workspace, routes: seq<Routes.Route>)
    requires Twins(a, b)
    ensures FlatMap(LocalPass(a, routes), a.applications) == FlatMap(LocalPass(b, routes), b.applications)
    ensures FlatMap(RemotePass(env, a, routes), a.applications) == FlatMap(RemotePass(env, b, routes), b.applications)
  {
    forall i | 0 <= i < |a.applications|
      ensures LocalPass(a, routes)(a.applications[i]) == LocalPass(b, routes)(b.applications[i])
      ensures RemotePass(env, a, routes)(a.applications[i]) == RemotePass(env, b, routes)(b.applications[i])
    {
      TwinLocalPass(a, b, routes, a.applications[i], b.applications[i]);
      TwinRemotePass(env, a, b, routes, a.applications[i], b.applications[i]);
    }
    FlatMapCongruence(LocalPass(a, routes), LocalPass(b, routes), a.applications, b.applications);
    FlatMapCongruence(RemotePass(env, a, routes), RemotePass(env, b, routes), a.applications, b.applications);
  }

  lemma TwinDomainPasses(env: Env, a: Workspace, b: Workspace, routes: seq<Routes.Route>, d: Application,
                         e: Application)
    requires Twins(a, b) && TwinApps(a, d, e)
    ensures FlatMap(DomainPass(env, a, routes, d), a.applications)
      == FlatMap(DomainPass(env, b, routes, e), b.applications)
  {
    forall i | 0 <= i < |a.applications|
      ensures DomainPass(env, a, routes, d)(a.applications[i]) == DomainPass(env, b, routes, e)(b.applications[i])
    {
      TwinDomainPass(env, a, b, routes, d, e, a.applications[i], b.applications[i]);
    }
    FlatMapCongruence(DomainPass(env, a, routes, d), DomainPass(env, b, routes, e), a.applications, b.applications);
  }

  lemma TwinRaw(env: Env, a: Workspace, b: Workspace, routes: seq<Routes.Route>, d: Option<Application>,
                e: Option<Application>)
    requires Twins(a, b) && TwinOptions(a, d, e)
    ensures RawLocations(env, a, routes, d) == RawLocations(env, b, routes, e)
  {
    TwinTraces(env, a, b);
    TwinFallback(env, a, b, d, e);
    if d.None? {
      TwinPasses(env, a, b, routes);
    } else {
      TwinDomainPasses(env, a, b, routes, d.value, e.value);
      TwinDomainApp(env, a, b, routes, d.value, e.value);
    }
  }

  lemma TwinRoutingServer(env: Env, name: string, a: Workspace, b: Workspace, routes: seq<Routes.Route>,
                          d: Option<Application>, e: Option<Application>)
    requires Twins(a, b) && TwinOptions(a, d, e)
    ensures RoutingServer(env, name, a, routes, d) == RoutingServer(env, name, b, routes, e)
  {
    TwinRaw(env, a, b, routes, d, e);
  }

  // ---- The servers of a workspace ----

  lemma TwinDomainServers(env: Env, a: Workspace, b: Workspace, routes: seq<Routes.Route>)
    requires Twins(a, b)
    ensures FlatMap(DomainServer(env, a, routes), a.applications)
      == FlatMap(DomainServer(env, b, routes), b.applications)
  {
    forall i | 0 <= i < |a.applications|
      ensures DomainServer(env, a, routes)(a.applications[i]) == DomainServer(env, b, routes)(b.applications[i])
    {
      TwinFields(a, a.applications[i], b.applications[i]);
      TwinRoutingServer(env, a.applications[i].domain, a, b, routes, Some(a.applications[i]), Some(b.applications[i]));
    }
    FlatMapCongruence(DomainServer(env, a, routes), DomainServer(env, b, routes), a.applications, b.applications);
  }

  lemma TwinLocalServers(env: Env, a: Workspace, b: Workspace)
    requires Twins(a, b)
    ensures FlatMap(LocalAppServer(env, a), a.applications) == FlatMap(LocalAppServer(env, b), b.applications)
  {
    forall i | 0 <= i < |a.applications|
      ensures LocalAppServer(env, a)(a.applications[i]) == LocalAppServer(env, b)(b.applications[i])
    {
      TwinTraces(env, a, b);
      TwinFields(a, a.applications[i], b.applications[i]);
      TwinProof(a, b, Some(a.applications[i]), Some(b.applications[i]), "local");
    }
    FlatMapCongruence(LocalAppServer(env, a), LocalAppServer(env, b), a.applications, b.applications);
  }

  /** Workspaces that route alike and show the same versions and operations have the same
      servers, proof headers included. */
  lemma TwinsHaveTheSameServers(env: Env, a: Workspace, b: Workspace)
    requires Twins(a, b)
    ensures WorkspaceServers(env)(a) == WorkspaceServers(env)(b)
  {
    AlikeFields(a, b);
    if a.IsLocalApps() {
      TwinLocalServers(env, a, b);
    } else {
      var routes := Routes.NormalizedRoutes(a);
      RoutesDependOnBare(a, b);
      TwinRoutingServer(env, a.LocalDomain(), a, b, routes, None, None);
      TwinDomainServers(env, a, b, routes);
    }
  }

  // ---- The text ----

  /** What the text of a workspace is written from. */
  datatype Section = Section(workspace: Workspace, servers: seq<Server>)

  function SectionOf(env: Env, ws: Workspace): Section {
    Section(Bare(ws), WorkspaceServers(env)(ws))
  }

  function Sections(env: Env, wss: seq<Workspace>): seq<Section> {
    seq(|wss|, i requires 0 <= i < |wss| => SectionOf(env, wss[i]))
  }

  /** Lists of such workspaces are written from the same sections. */
  lemma TwinsReadTheSame(env: Env, a: seq<Workspace>, b: seq<Workspace>)
    requires TwinLists(a, b)
    ensures Sections(env, a) == Sections(env, b)
  {
    forall i | 0 <= i < |a|
      ensures SectionOf(env, a[i]) == SectionOf(env, b[i])
    {
      TwinsHaveTheSameServers(env, a[i], b[i]);
    }
  }
}
