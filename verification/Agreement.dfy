/** The resolver and nginx choose the same application and pattern, on the default host and on
    that of every application with a domain of its own. */
module Agreement {
  import opened Text
  import opened Model
  import opened Patterns
  import opened Routes
  import opened Conflicts
  import opened Resolver
  import opened RouteBuilder
  import opened Keyed
  import opened StableSort
  import opened Projection
  import opened Nginx
  import opened Renderer

  // ---- Where an entry goes in nginx ----

  /** The nginx place of a pattern entry. */
  function EntryPlace(e: Entry): Place {
    if e.pattern == "/*" then Place("", "/")
    else if HasSuffix(e.pattern, "/*") then Place("", TrimSuffix(e.pattern, "*"))
    else Place("=", e.pattern)
  }

  function PlaceOf(l: Location): Place {
    Place(l.modifier, l.pattern)
  }

  lemma CleanCanonical(p: string)
    requires CanonicalPattern(p)
    ensures CleanPath(p) == p
  {
    CanonicalPatternInfo(p);
    RootPatternInfo();
    assert p[0] == '/' && (p == "/" || p[|p| - 1] != '/') by {
      if p != "/*" && HasSuffix(p, "/*") {
        assert p[|p| - 1] == p[|p| - 2..][1];
      }
    }
  }

  lemma PatternPlace(e: Entry)
    requires GoodEntry(e) && e.pattern != "/"
    ensures NginxPlace(e.pattern) == EntryPlace(e)
  {
    CleanCanonical(e.pattern);
  }

  /** A wildcard becomes the prefix that its requests share. */
  lemma WildcardShape(pattern: string)
    requires CanonicalPattern(pattern) && HasSuffix(pattern, "/*") && pattern != "/*"
    ensures TrimSuffix(pattern, "*") == RoutePatternInfo(pattern).path + "/"
    ensures RoutePatternInfo(pattern).path != "/"
  {
    CanonicalPatternInfo(pattern);
    var base := TrimSuffix(pattern, "/*");
    assert pattern == (base + "/") + "*";
    assert HasSuffix(pattern, "*");
  }

  /** A location at the place of a route's entry. */
  predicate Corresponds(r: Route, l: Location) {
    Regular(r) && PlaceOf(l) == EntryPlace(Entry(r.pattern, r.exact))
  }

  lemma ExactMatches(r: Route, l: Location, path: string)
    requires Corresponds(r, l) && NormalPath(path) && !HasSuffix(r.pattern, "/*")
    ensures l.modifier == "=" && r.exact
    ensures RouteMatches(r, path) <==> MatchesExact(l, path)
  {
    RouteShape(r);
    assert HasSuffix("/*", "/*");
  }

  lemma WildcardMatches(r: Route, l: Location, path: string)
    requires Corresponds(r, l) && NormalPath(path) && HasSuffix(r.pattern, "/*")
    ensures l.modifier == "" && !r.exact
    ensures RouteMatches(r, path) <==> MatchesPrefix(l, path)
    ensures r.pattern != "/*" ==> |l.pattern| == RouteInfo(r).length + 1 && RouteInfo(r).length > 0
    ensures r.pattern == "/*" ==> l.pattern == "/" && RouteInfo(r).length == 0
  {
    NormalPathIsAbsolute(path);
    RouteShape(r);
    if r.pattern != "/*" {
      WildcardShape(r.pattern);
    } else {
      RootPatternInfo();
    }
  }

  /** On normal paths corresponding routes and locations match alike. */
  lemma CorrespondingMatch(r: Route, l: Location, path: string)
    requires Corresponds(r, l) && NormalPath(path)
    ensures r.exact == (l.modifier == "=")
    ensures RouteMatches(r, path) <==> MatchesExact(l, path) || MatchesPrefix(l, path)
  {
    if HasSuffix(r.pattern, "/*") {
      WildcardMatches(r, l, path);
    } else {
      ExactMatches(r, l, path);
    }
  }

  // ---- The locations of a server ----

  predicate IsTrace(env: Env, ws: Workspace, l: Location) {
    l in TraceLocations(env, ws)
  }

  predicate IsCatchAll(l: Location) {
    l.modifier == "" && l.pattern == "/"
  }

  /** l is where entry e of app goes, and its proof names app. */
  predicate Emits(app: Application, e: Entry, l: Location) {
    PlaceOf(l) == EntryPlace(e) && l.proof.appID == app.CanonicalAppID()
  }

  lemma RendersContextIsContextRoot(app: Application)
    requires ValidApplication(app)
    ensures RendersContext(app) == IsContextRoot(app)
    ensures RendersContext(app) ==>
      var c := app.BackendContextPath();
      ValidPath(c) && CleanPath(c) == c && RoutePatternEntries(app) == ContextEntries(c)
  {
    ContextPathIsNormal(app);
    if RendersContext(app) {
      CleanCanonical(app.BackendContextPath());
    }
  }

  lemma ContextPlaces(c: string)
    requires ValidPath(c)
    ensures EntryPlace(Entry("/", true)) == Place("=", "/")
    ensures EntryPlace(Entry(c, true)) == Place("=", c)
    ensures EntryPlace(Entry(c + "/*", false)) == Place("", c + "/")
  {
    WildcardPatternInfo(c);
    CanonicalPathIsNormal(c);
    assert c + "/*" == (c + "/") + "*" && !HasSuffix("/", "/*");
  }

  /** The locations of an application on a server that answers for it. */
  function AppLocations(env: Env, ws: Workspace, routes: seq<Route>, app: Application): seq<Location> {
    var cached := PatternsFor(routes, app.CanonicalAppID());
    if RunsLocally(app) then LocalAppLocations(ws, app, cached)
    else RemoteAppLocations(env, ws, app, ws.RemoteBaseUrl(app), RemoteEffectiveMode(app), cached)
  }

  lemma ProofNamesApp(ws: Workspace, app: Application, mode: string)
    requires app.CanonicalAppID() != ""
    ensures RouteProof(ws, Some(app), mode).appID == app.CanonicalAppID()
  {
  }

  /** Pattern locations sit at the places of their patterns and name their application. */
  lemma PatternLocationsAre(patterns: seq<string>, app: Application, proxy: Proxy, strip: bool, proof: ResponseProof,
                            l: Location)
    ensures l in LocationsForPatterns(patterns, app, proxy, strip, proof)
      <==> exists p | p in patterns :: l == PatternLocation(app, proxy, strip, proof, p)
  {
    FlatMapHas(PatternLocationOf(app, proxy, strip, proof), patterns, l);
  }

  lemma PatternLocationPlace(app: Application, proxy: Proxy, strip: bool, proof: ResponseProof, p: string)
    ensures PlaceOf(PatternLocation(app, proxy, strip, proof, p)) == NginxPlace(p)
    ensures PatternLocation(app, proxy, strip, proof, p).proof == proof
  {
  }

  /** The catch-all pattern goes to the catch-all location. */
  lemma CatchAllPlace()
    ensures NginxPlace("/*") == Place("", "/")
  {
    assert CanonicalPattern("/*");
    CleanCanonical("/*");
  }

  lemma CachedLocations(ws: Workspace, d: Option<Application>, app: Application, proxy: Proxy, strip: bool,
                        proof: ResponseProof, l: Location)
    requires RoutingWorkspace(ws) && HasServer(ws, d) && On(ws, d, app) && !RendersContext(app)
    requires proof.appID == app.CanonicalAppID()
    requires l in LocationsForPatterns(RoutePathPatterns(app, PatternsFor(NormalizedRoutes(ws), app.CanonicalAppID())),
                                       app, proxy, strip, proof)
    ensures IsCatchAll(l) || exists e :: e in RoutePatternEntries(app) && Emits(app, e, l)
  {
    var cached := PatternsFor(NormalizedRoutes(ws), app.CanonicalAppID());
    SomeEntryIsLookedUp(ws, d, app);
    PatternLocationsAre(cached, app, proxy, strip, proof, l);
    var p :| p in cached && l == PatternLocation(app, proxy, strip, proof, p);
    PatternLocationPlace(app, proxy, strip, proof, p);
    CatchAllPlace();
    if p != "/*" {
      var e := PatternHasEntry(ws, app, p);
      EntriesAreGood(app, e);
      RootEntryOnlyForContext(app, e);
      PatternPlace(e);
      assert Emits(app, e, l);
    }
  }

  lemma SomeEntryIsLookedUp(ws: Workspace, d: Option<Application>, app: Application)
    requires RoutingWorkspace(ws) && HasServer(ws, d) && On(ws, d, app)
    ensures PatternsFor(NormalizedRoutes(ws), app.CanonicalAppID()) != []
  {
    EntryIsLookedUp(ws, d, app, RoutePatternEntries(app)[0]);
  }

  /** The exact root is asked for by context-root applications only. */
  lemma RootEntryOnlyForContext(app: Application, e: Entry)
    requires ValidApplication(app) && e in RoutePatternEntries(app) && !RendersContext(app)
    ensures e.pattern != "/"
  {
    RendersContextIsContextRoot(app);
    if !HasOwnPattern(app) && app.PublicRoutePath() != "/" {
      CanonicalPathIsNormal(app.PublicRoutePath());
    }
  }

  /** The three locations of a context root, place by place. */
  predicate ContextTriple(locations: seq<Location>, app: Application, c: string) {
    && |locations| == 3
    && PlaceOf(locations[0]) == Place("=", "/") && PlaceOf(locations[1]) == Place("=", c)
    && PlaceOf(locations[2]) == Place("", c + "/")
    && locations[0].proof.appID == app.CanonicalAppID() && locations[1].proof.appID == app.CanonicalAppID()
    && locations[2].proof.appID == app.CanonicalAppID()
  }

  lemma LocalContextPlaces(ws: Workspace, app: Application, cached: seq<string>)
    requires RendersContext(app) && app.CanonicalAppID() != ""
    ensures ContextTriple(LocalAppLocations(ws, app, cached), app, CleanPath(app.BackendContextPath()))
  {
    ProofNamesApp(ws, app, "local");
  }

  lemma RemoteContextPlaces(env: Env, ws: Workspace, app: Application, base: string, mode: string, cached: seq<string>)
    requires RendersContext(app) && app.CanonicalAppID() != ""
    ensures ContextTriple(RemoteAppLocations(env, ws, app, base, mode, cached), app,
                          CleanPath(app.BackendContextPath()))
  {
    ProofNamesApp(ws, app, mode);
  }

  lemma TripleEmits(app: Application, locations: seq<Location>, c: string, i: nat)
    requires ValidPath(c) && ContextTriple(locations, app, c) && i < 3
    ensures Emits(app, ContextEntries(c)[i], locations[i])
  {
    ContextPlaces(c);
    assert i == 0 || i == 1 || i == 2;
  }

  lemma ContextEmits(env: Env, ws: Workspace, d: Option<Application>, app: Application)
    requires RoutingWorkspace(ws) && HasServer(ws, d) && On(ws, d, app) && RendersContext(app)
    ensures var locations, entries := AppLocations(env, ws, NormalizedRoutes(ws), app), RoutePatternEntries(app);
      |locations| == |entries| == 3 && forall i | 0 <= i < 3 :: Emits(app, entries[i], locations[i])
  {
    var cached := PatternsFor(NormalizedRoutes(ws), app.CanonicalAppID());
    RendersContextIsContextRoot(app);
    LocalContextPlaces(ws, app, cached);
    RemoteContextPlaces(env, ws, app, ws.RemoteBaseUrl(app), RemoteEffectiveMode(app), cached);
    var locations, c := AppLocations(env, ws, NormalizedRoutes(ws), app), app.BackendContextPath();
    forall i | 0 <= i < 3
      ensures Emits(app, ContextEntries(c)[i], locations[i])
    {
      TripleEmits(app, locations, c, i);
    }
  }

  lemma ContextLocation(env: Env, ws: Workspace, d: Option<Application>, app: Application, l: Location)
    requires RoutingWorkspace(ws) && HasServer(ws, d) && On(ws, d, app) && RendersContext(app)
    requires l in AppLocations(env, ws, NormalizedRoutes(ws), app)
    ensures exists e :: e in RoutePatternEntries(app) && Emits(app, e, l)
  {
    ContextEmits(env, ws, d, app);
    var locations := AppLocations(env, ws, NormalizedRoutes(ws), app);
    var i :| 0 <= i < |locations| && locations[i] == l;
    assert Emits(app, RoutePatternEntries(app)[i], l);
  }

  lemma AppLocationHasEntry(env: Env, ws: Workspace, d: Option<Application>, app: Application, l: Location)
    requires RoutingWorkspace(ws) && HasServer(ws, d) && On(ws, d, app)
    requires l in AppLocations(env, ws, NormalizedRoutes(ws), app)
    ensures IsCatchAll(l) || exists e :: e in RoutePatternEntries(app) && Emits(app, e, l)
  {
    if RendersContext(app) {
      ContextLocation(env, ws, d, app, l);
    } else if RunsLocally(app) {
      ProofNamesApp(ws, app, "local");
      CachedLocations(ws, d, app, LocalProxy(app.port, false), app.stripOrigin, RouteProof(ws, Some(app), "local"), l);
    } else {
      ProofNamesApp(ws, app, RemoteEffectiveMode(app));
      CachedLocations(ws, d, app, env.remoteProxy(ws.RemoteBaseUrl(app)), false,
                      RouteProof(ws, Some(app), RemoteEffectiveMode(app)), l);
    }
  }

  lemma CachedLocationFor(ws: Workspace, d: Option<Application>, app: Application, proxy: Proxy, strip: bool,
                          proof: ResponseProof, e: Entry)
    returns (l: Location)
    requires RoutingWorkspace(ws) && HasServer(ws, d) && On(ws, d, app) && !RendersContext(app)
    requires proof.appID == app.CanonicalAppID()
    requires e in RoutePatternEntries(app)
    ensures l in LocationsForPatterns(RoutePathPatterns(app, PatternsFor(NormalizedRoutes(ws), app.CanonicalAppID())),
                                      app, proxy, strip, proof)
    ensures Emits(app, e, l)
  {
    var cached := PatternsFor(NormalizedRoutes(ws), app.CanonicalAppID());
    SomeEntryIsLookedUp(ws, d, app);
    EntryIsLookedUp(ws, d, app, e);
    l := PatternLocation(app, proxy, strip, proof, e.pattern);
    PatternLocationsAre(cached, app, proxy, strip, proof, l);
    PatternLocationPlace(app, proxy, strip, proof, e.pattern);
    EntriesAreGood(app, e);
    RootEntryOnlyForContext(app, e);
    PatternPlace(e);
  }

  lemma AppEmitsEntry(env: Env, ws: Workspace, d: Option<Application>, app: Application, e: Entry) returns (l: Location)
    requires RoutingWorkspace(ws) && HasServer(ws, d) && On(ws, d, app) && e in RoutePatternEntries(app)
    ensures l in AppLocations(env, ws, NormalizedRoutes(ws), app) && Emits(app, e, l)
  {
    if RendersContext(app) {
      ContextEmits(env, ws, d, app);
      var entries := RoutePatternEntries(app);
      var i :| 0 <= i < |entries| && entries[i] == e;
      l := AppLocations(env, ws, NormalizedRoutes(ws), app)[i];
    } else if RunsLocally(app) {
      ProofNamesApp(ws, app, "local");
      l := CachedLocationFor(ws, d, app, LocalProxy(app.port, false), app.stripOrigin,
                             RouteProof(ws, Some(app), "local"), e);
    } else {
      ProofNamesApp(ws, app, RemoteEffectiveMode(app));
      l := CachedLocationFor(ws, d, app, env.remoteProxy(ws.RemoteBaseUrl(app)), false,
                             RouteProof(ws, Some(app), RemoteEffectiveMode(app)), e);
    }
  }

  // ---- A server as a whole ----

  function ServerRaw(env: Env, ws: Workspace, d: Option<Application>): seq<Location> {
    RawLocations(env, ws, NormalizedRoutes(ws), d)
  }

  function ServerLocations(env: Env, ws: Workspace, d: Option<Application>): seq<Location> {
    DedupedLocations(ServerRaw(env, ws, d))
  }

  lemma ListedIff(ws: Workspace, app: Application)
    requires !ws.IsLocalApps() && app in ws.applications
    ensures Listed(ws, app) <==> app.domain == "" && (RunsLocally(app) || ws.RemoteBaseUrl(app) != "")
    ensures HasOwnTarget(ws, app) <==> RunsLocally(app) || app.remoteBaseUrl != ""
  {
  }

  /** The two passes emit the listed applications, each with its own locations. */
  lemma PassEmits(env: Env, ws: Workspace, app: Application, l: Location)
    requires RoutingWorkspace(ws) && app in ws.applications
    ensures var routes := NormalizedRoutes(ws);
      l in LocalPass(ws, routes)(app) || l in RemotePass(env, ws, routes)(app)
      <==> Listed(ws, app) && l in AppLocations(env, ws, routes, app)
  {
    ListedIff(ws, app);
  }

  lemma PassesHave(env: Env, ws: Workspace, l: Location)
    requires RoutingWorkspace(ws)
    ensures var routes := NormalizedRoutes(ws);
      l in FlatMap(LocalPass(ws, routes), ws.applications) || l in FlatMap(RemotePass(env, ws, routes), ws.applications)
      <==> exists app :: On(ws, None, app) && l in AppLocations(env, ws, routes, app)
  {
    var routes := NormalizedRoutes(ws);
    FlatMapHas(LocalPass(ws, routes), ws.applications, l);
    FlatMapHas(RemotePass(env, ws, routes), ws.applications, l);
    forall app | app in ws.applications
      ensures l in LocalPass(ws, routes)(app) || l in RemotePass(env, ws, routes)(app)
        <==> On(ws, None, app) && l in AppLocations(env, ws, routes, app)
    {
      PassEmits(env, ws, app, l);
    }
  }

  /** The single pass of a domain server emits the listed applications too. */
  lemma DomainPassEmits(env: Env, ws: Workspace, d: Application, app: Application, l: Location)
    requires RoutingWorkspace(ws) && HasServer(ws, Some(d)) && app in ws.applications
    ensures var routes := NormalizedRoutes(ws);
      l in DomainPass(env, ws, routes, d)(app) <==>
        app != d && On(ws, Some(d), app) && l in AppLocations(env, ws, routes, app)
  {
    ListedIff(ws, app);
  }

  lemma OwnLocationsAre(env: Env, ws: Workspace, d: Application, l: Location)
    requires RoutingWorkspace(ws) && HasServer(ws, Some(d))
    ensures var routes := NormalizedRoutes(ws);
      l in DomainAppLocations(env, ws, routes, d) <==> On(ws, Some(d), d) && l in AppLocations(env, ws, routes, d)
  {
    ListedIff(ws, d);
  }

  lemma DomainPassesHave(env: Env, ws: Workspace, d: Application, l: Location)
    requires RoutingWorkspace(ws) && HasServer(ws, Some(d))
    ensures var routes := NormalizedRoutes(ws);
      l in FlatMap(DomainPass(env, ws, routes, d), ws.applications) || l in DomainAppLocations(env, ws, routes, d)
      <==> exists app :: On(ws, Some(d), app) && l in AppLocations(env, ws, routes, app)
  {
    var routes := NormalizedRoutes(ws);
    FlatMapHas(DomainPass(env, ws, routes, d), ws.applications, l);
    OwnLocationsAre(env, ws, d, l);
    forall app | app in ws.applications
      ensures l in DomainPass(env, ws, routes, d)(app) <==>
        app != d && On(ws, Some(d), app) && l in AppLocations(env, ws, routes, app)
    {
      DomainPassEmits(env, ws, d, app, l);
    }
  }

  lemma RawLocationsHave(env: Env, ws: Workspace, routes: seq<Route>, d: Option<Application>, l: Location)
    ensures l in RawLocations(env, ws, routes, d) <==>
      || l in TraceLocations(env, ws)
      || l == FallbackLocation(env, ws, d)
      || (d.None? && (l in FlatMap(LocalPass(ws, routes), ws.applications)
                      || l in FlatMap(RemotePass(env, ws, routes), ws.applications)))
      || (d.Some? && (l in FlatMap(DomainPass(env, ws, routes, d.value), ws.applications)
                      || l in DomainAppLocations(env, ws, routes, d.value)))
  {
  }

  lemma RawLocationIs(env: Env, ws: Workspace, d: Option<Application>, l: Location)
    requires RoutingWorkspace(ws) && HasServer(ws, d)
    ensures l in ServerRaw(env, ws, d) <==>
      || IsTrace(env, ws, l)
      || l == FallbackLocation(env, ws, d)
      || exists app :: On(ws, d, app) && l in AppLocations(env, ws, NormalizedRoutes(ws), app)
  {
    RawLocationsHave(env, ws, NormalizedRoutes(ws), d, l);
    if d.Some? {
      DomainPassesHave(env, ws, d.value, l);
    } else {
      PassesHave(env, ws, l);
    }
  }

  /** Every location but the trace pair and the catch-all is an entry of a listed application. */
  lemma RawLocationHasEntry(env: Env, ws: Workspace, d: Option<Application>, l: Location)
    returns (app: Application, e: Entry)
    requires RoutingWorkspace(ws) && HasServer(ws, d) && l in ServerRaw(env, ws, d) && !IsTrace(env, ws, l)
    requires !IsCatchAll(l)
    ensures On(ws, d, app) && e in RoutePatternEntries(app) && Emits(app, e, l)
  {
    RawLocationIs(env, ws, d, l);
    app :| On(ws, d, app) && l in AppLocations(env, ws, NormalizedRoutes(ws), app);
    AppLocationHasEntry(env, ws, d, app, l);
    e :| e in RoutePatternEntries(app) && Emits(app, e, l);
  }

  lemma EntryHasRawLocation(env: Env, ws: Workspace, d: Option<Application>, app: Application, e: Entry)
    returns (l: Location)
    requires RoutingWorkspace(ws) && HasServer(ws, d) && On(ws, d, app) && e in RoutePatternEntries(app)
    ensures l in ServerRaw(env, ws, d) && Emits(app, e, l)
  {
    l := AppEmitsEntry(env, ws, d, app, e);
    RawLocationIs(env, ws, d, l);
  }

  function Among(raw: seq<Location>): Location -> bool {
    (l: Location) => l in raw
  }

  lemma DedupedIsRaw(raw: seq<Location>, l: Location)
    requires l in DedupedLocations(raw)
    ensures l in raw
  {
    DedupeKeepsProperty(LocationKey, KeepFirst, raw, Among(raw));
    SortKeepsElements(RankLess, DedupeBy(LocationKey, KeepFirst, raw));
  }

  lemma EqualPlaces(a: Location, b: Location)
    requires ' ' !in a.modifier && ' ' !in b.modifier && LocationKey(a) == LocationKey(b)
    ensures PlaceOf(a) == PlaceOf(b)
  {
    SplitAtSeparator(' ', a.modifier, a.pattern, b.modifier, b.pattern);
  }

  lemma RawIsKept(raw: seq<Location>, l: Location) returns (kept: Location)
    requires l in raw && forall x | x in raw :: ' ' !in x.modifier
    ensures kept in DedupedLocations(raw) && PlaceOf(kept) == PlaceOf(l)
  {
    var deduped := DedupeBy(LocationKey, KeepFirst, raw);
    assert KeepsKey(LocationKey, KeepFirst);
    DedupeKeepsKeys(LocationKey, KeepFirst, raw, l);
    var i :| 0 <= i < |deduped| && LocationKey(deduped[i]) == LocationKey(l);
    kept := deduped[i];
    SortKeepsElements(RankLess, deduped);
    DedupedIsRaw(raw, kept);
    EqualPlaces(kept, l);
  }

  lemma DedupedIsUnique(raw: seq<Location>)
    ensures Unique(DedupedLocations(raw))
  {
    assert KeepsKey(LocationKey, KeepFirst);
    DedupeIsDistinct(LocationKey, KeepFirst, raw);
    SortKeepsDistinct(RankLess, LocationKey, DedupeBy(LocationKey, KeepFirst, raw));
  }

  lemma TraceIsExact(env: Env, ws: Workspace, l: Location)
    requires IsTrace(env, ws, l)
    ensures l.modifier == "=" && l.pattern in TRACE_PATHS
  {
  }

  lemma EntryModifier(e: Entry)
    ensures EntryPlace(e).modifier == "=" || EntryPlace(e).modifier == ""
  {
  }

  lemma RawModifiers(env: Env, ws: Workspace, d: Option<Application>, l: Location)
    requires RoutingWorkspace(ws) && HasServer(ws, d) && l in ServerRaw(env, ws, d)
    ensures l.modifier == "=" || l.modifier == ""
  {
    if IsTrace(env, ws, l) {
      TraceIsExact(env, ws, l);
    } else if !IsCatchAll(l) {
      var app, e := RawLocationHasEntry(env, ws, d, l);
      EntryModifier(e);
    }
  }

  /** The pattern that goes to a place. */
  function PatternOfPlace(place: Place): string {
    if place.modifier == "=" then place.pattern
    else if place.pattern == "/" then "/*"
    else place.pattern + "*"
  }

  lemma PlaceDeterminesPattern(e: Entry)
    requires GoodEntry(e)
    ensures PatternOfPlace(EntryPlace(e)) == e.pattern
  {
    if HasSuffix(e.pattern, "/*") && e.pattern != "/*" {
      WildcardShape(e.pattern);
      CanonicalPatternInfo(e.pattern);
    }
  }

  lemma PlaceNamesPattern(e: Entry, f: Entry)
    requires GoodEntry(e) && GoodEntry(f) && EntryPlace(e) == EntryPlace(f)
    ensures e.pattern == f.pattern
  {
    PlaceDeterminesPattern(e);
    PlaceDeterminesPattern(f);
  }

  lemma OnlyCatchAllIsCatchAll(e: Entry)
    requires GoodEntry(e) && e.pattern != "/*"
    ensures EntryPlace(e) != Place("", "/")
  {
    if HasSuffix(e.pattern, "/*") {
      WildcardShape(e.pattern);
      CanonicalPatternInfo(e.pattern);
    }
  }

  /** No two listed applications ask for one pattern, the catch-all apart. */
  ghost predicate OneOwner(ws: Workspace, d: Option<Application>) {
    forall a, b, e, f | On(ws, d, a) && On(ws, d, b) && e in RoutePatternEntries(a) && f in RoutePatternEntries(b)
      && e.pattern == f.pattern && e.pattern != "/*" :: a == b
  }

  predicate OnHost(ws: Workspace, d: Option<Application>, r: Route) {
    NormalizeHost(r.publicHost) == NormalizeHost(HostOf(ws, d))
  }

  /** The kept location of an entry belongs to the entry's application. */
  lemma KeptLocationIsOwned(env: Env, ws: Workspace, d: Option<Application>, app: Application, e: Entry, kept: Location)
    requires RoutingWorkspace(ws) && HasServer(ws, d) && OneOwner(ws, d) && On(ws, d, app)
    requires e in RoutePatternEntries(app) && e.pattern != "/*"
    requires kept in ServerLocations(env, ws, d) && PlaceOf(kept) == EntryPlace(e) && !IsTrace(env, ws, kept)
    ensures kept.proof.appID == app.CanonicalAppID()
  {
    EntriesAreGood(app, e);
    OnlyCatchAllIsCatchAll(e);
    DedupedIsRaw(ServerRaw(env, ws, d), kept);
    var owner, f := RawLocationHasEntry(env, ws, d, kept);
    EntriesAreGood(owner, f);
    PlaceNamesPattern(e, f);
  }

  lemma RawHasNoSpace(env: Env, ws: Workspace, d: Option<Application>, l: Location)
    requires RoutingWorkspace(ws) && HasServer(ws, d) && l in ServerRaw(env, ws, d)
    ensures ' ' !in l.modifier
  {
    RawModifiers(env, ws, d, l);
  }

  lemma ServerHasNoSpaces(env: Env, ws: Workspace, d: Option<Application>, raw: seq<Location>)
    requires RoutingWorkspace(ws) && HasServer(ws, d) && raw == ServerRaw(env, ws, d)
    ensures forall x | x in raw :: ' ' !in x.modifier
  {
    forall x | x in raw ensures ' ' !in x.modifier { RawHasNoSpace(env, ws, d, x); }
  }

  lemma RawLocationIsKept(env: Env, ws: Workspace, d: Option<Application>, raw: Location) returns (kept: Location)
    requires RoutingWorkspace(ws) && HasServer(ws, d) && raw in ServerRaw(env, ws, d)
    ensures kept in ServerLocations(env, ws, d) && PlaceOf(kept) == PlaceOf(raw)
  {
    ServerHasNoSpaces(env, ws, d, ServerRaw(env, ws, d));
    kept := RawIsKept(ServerRaw(env, ws, d), raw);
  }

  lemma EntryHasKeptLocation(env: Env, ws: Workspace, d: Option<Application>, app: Application, e: Entry)
    returns (l: Location)
    requires RoutingWorkspace(ws) && HasServer(ws, d) && On(ws, d, app) && e in RoutePatternEntries(app)
    ensures l in ServerLocations(env, ws, d) && PlaceOf(l) == EntryPlace(e)
  {
    var raw := EntryHasRawLocation(env, ws, d, app, e);
    l := RawLocationIsKept(env, ws, d, raw);
  }

  lemma TraceNeedsTracePath(env: Env, ws: Workspace, r: Route, l: Location, path: string)
    requires Corresponds(r, l) && NormalPath(path) && RouteMatches(r, path) && path !in TRACE_PATHS
    ensures !IsTrace(env, ws, l)
  {
    CorrespondingMatch(r, l, path);
    if IsTrace(env, ws, l) {
      TraceIsExact(env, ws, l);
    }
  }

  /** The location of a route that matches the request. */
  lemma RouteHasLocation(env: Env, ws: Workspace, d: Option<Application>, r: Route, path: string) returns (l: Location)
    requires RoutingWorkspace(ws) && HasServer(ws, d) && OneOwner(ws, d) && NormalPath(path) && path !in TRACE_PATHS
    requires r in NormalizedRoutes(ws) && OnHost(ws, d, r) && r.pattern != "/*" && RouteMatches(r, path)
    ensures l in ServerLocations(env, ws, d) && Corresponds(r, l) && l.proof.appID == r.canonicalAppID
  {
    RoutingRoutesAreRegular(ws);
    var app, e := RouteHasEntry(ws, d, r);
    l := EntryHasKeptLocation(env, ws, d, app, e);
    assert Corresponds(r, l);
    TraceNeedsTracePath(env, ws, r, l, path);
    KeptLocationIsOwned(env, ws, d, app, e, l);
  }

  /** The route of a location that is neither a trace nor the catch-all. */
  lemma LocationHasRoute(env: Env, ws: Workspace, d: Option<Application>, l: Location) returns (r: Route)
    requires RoutingWorkspace(ws) && HasServer(ws, d) && l in ServerLocations(env, ws, d) && !IsTrace(env, ws, l)
    requires !IsCatchAll(l)
    ensures r in NormalizedRoutes(ws) && OnHost(ws, d, r) && r.pattern != "/*" && Corresponds(r, l)
  {
    DedupedIsRaw(ServerRaw(env, ws, d), l);
    var app, e := RawLocationHasEntry(env, ws, d, l);
    r := EntryHasRoute(ws, d, app, e);
    RoutingRoutesAreRegular(ws);
    assert EntryPlace(e) == EntryPlace(Entry(r.pattern, r.exact));
  }

  // ---- The ready location's place ----

  /** A listed application asks for that path exactly when a location is at its place. */
  lemma ServerIsReadyIff(env: Env, ws: Workspace, d: Option<Application>)
    requires RoutingWorkspace(ws) && HasServer(ws, d)
    ensures (exists l | l in ServerLocations(env, ws, d) :: IsReady(l))
      <==> exists app, e | On(ws, d, app) && e in RoutePatternEntries(app) :: e.pattern == READY_PATH
  {
    if l :| l in ServerLocations(env, ws, d) && IsReady(l) {
      ReadyHasEntry(env, ws, d, l);
    }
    if app, e :| On(ws, d, app) && e in RoutePatternEntries(app) && e.pattern == READY_PATH {
      var l := EntryHasKeptLocation(env, ws, d, app, e);
      ReadyPlace(e);
      assert IsReady(l);
    }
  }

  lemma ReadyPlace(e: Entry)
    ensures e.pattern == READY_PATH ==> EntryPlace(e) == Place("=", READY_PATH)
    ensures EntryPlace(e) == Place("=", READY_PATH) ==> e.pattern == READY_PATH
  {
    assert READY_PATH[|READY_PATH| - 1] == 'y';
  }

  lemma ReadyIsNoTrace()
    ensures READY_PATH !in TRACE_PATHS
  {
    assert TRACE_PATHS[0][12] == 't' && READY_PATH[12] == 'c' && TRACE_PATHS[1][2] == 'r' && READY_PATH[2] == '_';
  }

  lemma ReadyHasEntry(env: Env, ws: Workspace, d: Option<Application>, l: Location)
    requires RoutingWorkspace(ws) && HasServer(ws, d) && l in ServerLocations(env, ws, d) && IsReady(l)
    ensures exists app, e | On(ws, d, app) && e in RoutePatternEntries(app) :: e.pattern == READY_PATH
  {
    DedupedIsRaw(ServerRaw(env, ws, d), l);
    ReadyIsNoTrace();
    if IsTrace(env, ws, l) {
      TraceIsExact(env, ws, l);
    }
    var app, e := RawLocationHasEntry(env, ws, d, l);
    ReadyPlace(e);
  }

  // ---- Both sides pick the same ----

  /** A winning route other than the catch-all is at the location nginx picks. */
  lemma WinnerIsPicked(env: Env, ws: Workspace, d: Option<Application>, r: Route, path: string) returns (l: Location)
    requires RoutingWorkspace(ws) && HasServer(ws, d) && OneOwner(ws, d) && NormalPath(path) && path !in TRACE_PATHS
    requires r in NormalizedRoutes(ws) && OnHost(ws, d, r) && r.pattern != "/*" && RouteMatches(r, path)
    requires forall q | q in NormalizedRoutes(ws) && OnHost(ws, d, q) && RouteMatches(q, path) && q != r :: Beats(r, q)
    ensures Picks(ServerLocations(env, ws, d), path, l) && Corresponds(r, l) && l.proof.appID == r.canonicalAppID
  {
    l := RouteHasLocation(env, ws, d, r, path);
    CorrespondingMatch(r, l, path);
    if !r.exact {
      forall x | x in ServerLocations(env, ws, d) && (MatchesExact(x, path) || MatchesPrefix(x, path))
        ensures !MatchesExact(x, path) && |x.pattern| <= |l.pattern|
      {
        LocationIsBeaten(env, ws, d, r, l, x, path);
      }
    }
  }

  /** Against a winning prefix route no location is exact or longer. */
  lemma LocationIsBeaten(env: Env, ws: Workspace, d: Option<Application>, r: Route, l: Location, x: Location,
                         path: string)
    requires RoutingWorkspace(ws) && HasServer(ws, d) && NormalPath(path) && path !in TRACE_PATHS
    requires r in NormalizedRoutes(ws) && RouteMatches(r, path) && !r.exact && Corresponds(r, l) && r.pattern != "/*"
    requires forall q | q in NormalizedRoutes(ws) && OnHost(ws, d, q) && RouteMatches(q, path) && q != r :: Beats(r, q)
    requires x in ServerLocations(env, ws, d) && (MatchesExact(x, path) || MatchesPrefix(x, path))
    ensures !MatchesExact(x, path) && |x.pattern| <= |l.pattern|
  {
    WildcardMatches(r, l, path);
    if IsTrace(env, ws, x) {
      TraceIsExact(env, ws, x);
      assert false;
    } else if !IsCatchAll(x) {
      var q := LocationHasRoute(env, ws, d, x);
      CorrespondingMatch(q, x, path);
      if q != r {
        assert Beats(r, q);
        BeatenIsShorter(r, q);
        WildcardMatches(q, x, path);
      }
    }
  }

  lemma BeatenIsShorter(r: Route, q: Route)
    requires Regular(r) && Regular(q) && !r.exact && Beats(r, q)
    ensures !q.exact && RouteInfo(q).length <= RouteInfo(r).length
  {
    RouteShape(r);
    RouteShape(q);
  }

  lemma CatchAllExists(env: Env, ws: Workspace, d: Option<Application>) returns (l: Location)
    requires RoutingWorkspace(ws) && HasServer(ws, d)
    ensures l in ServerLocations(env, ws, d) && IsCatchAll(l)
  {
    var raw := FallbackLocation(env, ws, d);
    RawLocationIs(env, ws, d, raw);
    l := RawLocationIsKept(env, ws, d, raw);
  }

  lemma FallbackIsRaw(ws: Workspace, d: Option<Application>)
    requires RoutingWorkspace(ws) && HasServer(ws, d)
    ensures FallbackRoute(ws, HostOf(ws, d), d) in RawRoutes(ws)
  {
    assert FallbackRoute(ws, HostOf(ws, d), d) in LastRoutes(ws, HostOf(ws, d), d);
    HostRouteIsRaw(ws, d, FallbackRoute(ws, HostOf(ws, d), d));
  }

  lemma CatchAllRouteExists(ws: Workspace, d: Option<Application>) returns (r: Route)
    requires RoutingWorkspace(ws) && HasServer(ws, d)
    ensures r in NormalizedRoutes(ws) && OnHost(ws, d, r) && r.pattern == "/*"
  {
    var raw := FallbackRoute(ws, HostOf(ws, d), d);
    FallbackIsRaw(ws, d);
    FallbackPattern(ws, HostOf(ws, d), d);
    RawRoutesAreRegular(ws, raw);
    r := RawRouteIsKept(ws, raw);
    RoutingRoutesAreRegular(ws);
    EqualKeys(r, raw);
    FallbackShape(ws, HostOf(ws, d), d);
  }

  /** What both sides choose, when they agree. */
  predicate SameChoice(r: Route, l: Location) {
    if IsCatchAll(l) || r.pattern == "/*" then IsCatchAll(l) && r.pattern == "/*"
    else Corresponds(r, l) && l.proof.appID == r.canonicalAppID
  }

  lemma LocationsAreSelectable(env: Env, ws: Workspace, d: Option<Application>)
    requires RoutingWorkspace(ws) && HasServer(ws, d)
    ensures Unique(ServerLocations(env, ws, d))
    ensures forall l | l in ServerLocations(env, ws, d) :: l.modifier == "=" || l.modifier == ""
  {
    DedupedIsUnique(ServerRaw(env, ws, d));
    forall l | l in ServerLocations(env, ws, d)
      ensures l.modifier == "=" || l.modifier == ""
    {
      DedupedIsRaw(ServerRaw(env, ws, d), l);
      RawModifiers(env, ws, d, l);
    }
  }

  /** Both sides choose the same application at the same pattern, or both fall through to the
      catch-all. */
  predicate Agree(r: Option<Route>, l: Option<Location>) {
    r.Some? && l.Some? && !IsReady(l.value) && SameChoice(r.value, l.value)
  }

  /** For every normal request path but the two trace paths, the resolver and the nginx server as
      it is printed agree, except at the ready path. */
  lemma ResolverAgreesWithNginx(env: Env, ws: Workspace, d: Option<Application>, path: string)
    requires RoutingWorkspace(ws) && HasServer(ws, d) && OneOwner(ws, d) && NormalPath(path) && path !in TRACE_PATHS
    ensures Resolve(NormalizedRoutes(ws), HostOf(ws, d), path).Some?
    ensures
      Agree(Resolve(NormalizedRoutes(ws), HostOf(ws, d), path), Select(Printed(ServerLocations(env, ws, d)), path))
      <==> path != READY_PATH
  {
    SameChoices(env, ws, d, path);
    PrintedAgrees(ServerLocations(env, ws, d), Resolve(NormalizedRoutes(ws), HostOf(ws, d), path), path);
  }

  lemma PrintedAgrees(locations: seq<Location>, r: Option<Route>, path: string)
    requires r.Some? && Select(locations, path).Some? && SameChoice(r.value, Select(locations, path).value)
    ensures Agree(r, Select(Printed(locations), path)) <==> path != READY_PATH
  {
    PrintedSelects(locations, path);
    FirstExactFinds(locations, path);
    FirstRegexFinds(locations, path);
    LongestPrefixFinds(locations, path);
  }

  /** Among the server's own locations. */
  lemma SameChoices(env: Env, ws: Workspace, d: Option<Application>, path: string)
    requires RoutingWorkspace(ws) && HasServer(ws, d) && OneOwner(ws, d) && NormalPath(path) && path !in TRACE_PATHS
    ensures var l, r := Select(ServerLocations(env, ws, d), path), Resolve(NormalizedRoutes(ws), HostOf(ws, d), path);
      l.Some? && r.Some? && SameChoice(r.value, l.value)
  {
    NormalizedRoutesAreWellFormed(ws);
    ResolverPicksTheWinner(NormalizedRoutes(ws), HostOf(ws, d), path);
    LocationsAreSelectable(env, ws, d);
    SelectPicks(ServerLocations(env, ws, d), path);
    var winner := Resolve(NormalizedRoutes(ws), HostOf(ws, d), path);
    forall q | q in NormalizedRoutes(ws)
      ensures IsCandidate(q, HostOf(ws, d), path) <==> OnHost(ws, d, q) && RouteMatches(q, path)
    {
    }
    CatchAllMatches(env, ws, d, path);
    if winner.value.pattern != "/*" {
      var l := WinnerIsPicked(env, ws, d, winner.value, path);
      PicksIsUnique(ServerLocations(env, ws, d), path, l, Select(ServerLocations(env, ws, d), path).value);
      NotCatchAll(winner.value, l);
    } else {
      PickedIsCatchAll(env, ws, d, winner.value, Select(ServerLocations(env, ws, d), path).value, path);
    }
  }

  lemma NotCatchAll(r: Route, l: Location)
    requires Corresponds(r, l) && r.pattern != "/*"
    ensures !IsCatchAll(l)
  {
    if HasSuffix(r.pattern, "/*") {
      WildcardShape(r.pattern);
      CanonicalPatternInfo(r.pattern);
    }
  }

  lemma CatchAllMatches(env: Env, ws: Workspace, d: Option<Application>, path: string)
    requires RoutingWorkspace(ws) && HasServer(ws, d) && NormalPath(path)
    ensures exists r :: r in NormalizedRoutes(ws) && OnHost(ws, d, r) && RouteMatches(r, path)
    ensures exists l :: l in ServerLocations(env, ws, d) && MatchesPrefix(l, path)
  {
    NormalPathIsAbsolute(path);
    var l := CatchAllExists(env, ws, d);
    var r := CatchAllRouteExists(ws, d);
    RoutingRoutesAreRegular(ws);
    RouteShape(r);
    RootPatternInfo();
    assert RouteMatches(r, path) && MatchesPrefix(l, path);
  }

  /** When the catch-all route wins, nginx falls through too. */
  lemma PickedIsCatchAll(env: Env, ws: Workspace, d: Option<Application>, r: Route, l: Location, path: string)
    requires RoutingWorkspace(ws) && HasServer(ws, d) && NormalPath(path) && path !in TRACE_PATHS
    requires r in NormalizedRoutes(ws) && r.pattern == "/*"
    requires forall q | q in NormalizedRoutes(ws) && OnHost(ws, d, q) && RouteMatches(q, path) && q != r :: Beats(r, q)
    requires Picks(ServerLocations(env, ws, d), path, l)
    ensures IsCatchAll(l)
  {
    RoutingRoutesAreRegular(ws);
    if IsTrace(env, ws, l) {
      TraceIsExact(env, ws, l);
      assert false;
    } else if !IsCatchAll(l) {
      var q := LocationHasRoute(env, ws, d, l);
      CorrespondingMatch(q, l, path);
      BeatenIsShorter(r, q);
      WildcardMatches(q, l, path);
      RootPatternInfo();
      assert false;
    }
  }
}
