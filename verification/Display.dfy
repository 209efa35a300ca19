/** projectedRoutes: what is shown of a workspace's routes, with the state last seen loaded. */
module Display {
  import opened Model
  import opened Routes
  import opened Keyed
  import opened Differences
  import opened Protocol
  import Conflicts
  import RouteBuilder
  import Runs

  datatype Verification = Verified | Stale | NeverLoaded

  datatype Health = Up | Behind | Unavailable | Unknown

  datatype Shown = Shown(route: Route, routeVersion: nat, operationID: string, verification: Verification,
                         health: Health)

  /** verificationStatusForSnapshot */
  function VerificationOf(cache: Cache, ws: Workspace): Verification {
    if ws.workspaceID !in cache || cache[ws.workspaceID].routes.None? then NeverLoaded
    else if cache[ws.workspaceID].verified && cache[ws.workspaceID].version == ws.route.routeVersion then Verified
    else Stale
  }

  /** proxyHealthForSnapshot; a state that was never loaded or marked is unknown. */
  function HealthOf(cache: Cache, ws: Workspace): Health {
    if ws.workspaceID !in cache then Unknown
    else if !cache[ws.workspaceID].verified then Unavailable
    else if cache[ws.workspaceID].routes.None? then Unknown
    else if cache[ws.workspaceID].version == ws.route.routeVersion then Up
    else Behind
  }

  function LoadedRoutes(cache: Cache, ws: Workspace): seq<Route> {
    if ws.workspaceID in cache && cache[ws.workspaceID].routes.Some? then cache[ws.workspaceID].routes.value else []
  }

  /** The effective fields come from what was loaded under the same key. */
  function Effectively(loaded: map<string, Route>, route: Route): Route {
    if RouteKey(route) in loaded then
      var actual := loaded[RouteKey(route)];
      route.(effectiveMode := actual.effectiveMode, target := actual.target, remoteFallback := false)
    else route.(effectiveMode := "unknown", target := "", remoteFallback := false)
  }

  function ShownRoute(cache: Cache, ws: Workspace, loaded: map<string, Route>, route: Route): Shown {
    Shown(Effectively(loaded, route), ws.route.routeVersion, ws.route.operationID, VerificationOf(cache, ws),
          HealthOf(cache, ws))
  }

  function Projected(cache: Cache, ws: Workspace, routes: seq<Route>): seq<Shown> {
    var loaded := ByKey(RouteKey, LoadedRoutes(cache, ws));
    seq(|routes|, i requires 0 <= i < |routes| => ShownRoute(cache, ws, loaded, routes[i]))
  }

  /** The loop over the desired routes. */
  method ProjectedRoutes(cache: Cache, ws: Workspace) returns (shown: seq<Shown>)
    ensures shown == Projected(cache, ws, NormalizedRoutes(ws))
  {
    var desired := RouteBuilder.BuildNormalizedRoutes(ws);
    shown := ShowEach(cache, ws, desired);
  }

  method ShowEach(cache: Cache, ws: Workspace, desired: seq<Route>) returns (shown: seq<Shown>)
    ensures shown == Projected(cache, ws, desired)
  {
    var loaded := Index(RouteKey, LoadedRoutes(cache, ws));
    shown := [];
    for i := 0 to |desired|
      invariant |shown| == i
      invariant forall k | 0 <= k < i :: shown[k] == ShownRoute(cache, ws, loaded, desired[k])
    {
      shown := shown + [ShownRoute(cache, ws, loaded, desired[i])];
    }
  }

  lemma VerifiedIsReported(cache: Cache, ws: Workspace)
    ensures VerificationOf(cache, ws) == Verified <==> ReportedVerified(cache, ws)
    ensures HealthOf(cache, ws) == Up <==> ReportedVerified(cache, ws)
  {
  }

  lemma LoadedShowsItself(routes: seq<Route>, i: nat)
    requires DistinctBy(RouteKey, routes) && i < |routes| && !routes[i].remoteFallback
    ensures Effectively(ByKey(RouteKey, routes), routes[i]) == routes[i]
  {
    ByKeyKeeps(RouteKey, routes, routes[i]);
  }

  /** What is shown as verified, in any reachable state, is exactly what the workspace routes,
      effective modes and targets included, on a proxy that is shown to be up. */
  lemma VerifiedShowsTheRoutes(rules: Rules, run: Runs.Run, n: nat, ws: Workspace, i: nat)
    requires Runs.IsRun(rules, run) && n < |run.states| && ws in run.states[n].memory
    requires VerificationOf(run.states[n].cache, ws) == Verified
    requires Conflicts.WorkspaceRoutes(rules.routes(ws)) && i < |rules.routes(ws)|
    ensures Projected(run.states[n].cache, ws, rules.routes(ws))[i]
         == Shown(rules.routes(ws)[i], ws.route.routeVersion, ws.route.operationID, Verified, Up)
  {
    var routes := rules.routes(ws);
    VerifiedIsReported(run.states[n].cache, ws);
    Runs.VerifiedIsHonest(rules, run, n, ws);
    assert routes[i] in routes && Conflicts.WellFormed(routes[i]);
    LoadedShowsItself(routes, i);
  }

  /** Nothing is shown as effective that was not loaded. */
  lemma EffectiveWasLoaded(cache: Cache, ws: Workspace, routes: seq<Route>, i: nat)
    requires i < |routes|
    ensures var shown := Projected(cache, ws, routes)[i].route;
      || (shown.effectiveMode == "unknown" && shown.target == "")
      || exists r | r in LoadedRoutes(cache, ws) ::
           RouteKey(r) == RouteKey(routes[i]) && shown.effectiveMode == r.effectiveMode && shown.target == r.target
  {
    var loaded := ByKey(RouteKey, LoadedRoutes(cache, ws));
    ByKeyFiles(RouteKey, LoadedRoutes(cache, ws));
    if RouteKey(routes[i]) in loaded {
      assert loaded[RouteKey(routes[i])] in LoadedRoutes(cache, ws);
    }
  }
}
