/** The renderer's cache: a fragment is reused when everything rendering reads is unchanged. */
module RenderCache {
  import opened Text
  import opened Model
  import opened Nginx
  import opened Renderer
  import opened Keyed
  import opened Relevance
  import Compact
  import Hosts
  import Interning
  import Planning
  import Rendering
  import Routes
  import ServerBuilder

  // ---- What the key keeps ----

  /** Verification results and annotations do not reach the configuration. */
  function KeyApp(app: Application): Application {
    app.(route := app.route.(status := NO_STATUS), sharedWith := [])
  }

  function KeyApps(apps: seq<Application>): seq<Application> {
    seq(|apps|, i requires 0 <= i < |apps| => KeyApp(apps[i]))
  }

  function KeyWorkspace(ws: Workspace): Workspace {
    ws.(route := ws.route.(status := NO_STATUS), applications := KeyApps(ws.applications))
  }

  lemma KeyIsBare(ws: Workspace)
    ensures Alike(KeyWorkspace(ws), ws)
  {
    assert BareApps(KeyApps(ws.applications)) == BareApps(ws.applications);
  }

  lemma KeyRoutes(ws: Workspace)
    ensures Routes.NormalizedRoutes(KeyWorkspace(ws)) == Routes.NormalizedRoutes(ws)
  {
    KeyIsBare(ws);
    RoutesDependOnBare(KeyWorkspace(ws), ws);
  }

  // ---- Rendering reads nothing else ----

  /** A workspace and what its key keeps of it have the same servers. */
  lemma KeyServers(env: Env, ws: Workspace)
    ensures WorkspaceServers(env)(KeyWorkspace(ws)) == WorkspaceServers(env)(ws)
  {
    KeyIsBare(ws);
    Rendering.TwinsHaveTheSameServers(env, KeyWorkspace(ws), ws);
  }

  // ---- One workspace rendered ----

  /** A workspace's share of the configuration, with its own maps. */
  datatype Fragment = Fragment(servers: seq<Server>, proofMaps: seq<ProofMap>, routeMaps: seq<RouteProofMap>)

  /** What buildConfig makes of these servers, without the first, the control plane's. */
  function FragmentFrom(servers: seq<Server>): Fragment {
    var interned := Interning.InternServers(servers);
    var n := |interned.items|;
    var compacted := Compact.CompactedServers(interned.items, n);
    Fragment(if n == 0 then [] else compacted[1..], Interning.Columns(interned.table),
             Compact.AllMaps(interned.items, n))
  }

  /** What validation says of a workspace and of the control plane's domain. It is shown neither
      operations nor versions nor aliases nor annotations. */
  type Validation = (Workspace, string) -> bool

  /** renderConfig for one workspace: refused when it is not valid or its routes conflict by
      accident. */
  function RenderedWorkspace(env: Env, validation: Validation, domain: string): Workspace -> Option<Fragment> {
    (ws: Workspace) =>
      if !validation(Bare(ws), domain) || Planning.HasAccidentalConflict(Routes.NormalizedRoutes(ws)) then None
      else Some(FragmentFrom([ControlServer(env, domain)] + WorkspaceServers(env)(ws)))
  }

  method Assemble(servers: seq<Server>) returns (fragment: Fragment)
    ensures fragment == FragmentFrom(servers)
  {
    var cfg := new Config(servers);
    Interning.InternProofs(cfg);
    Compact.CompactLocations(cfg);
    fragment := Fragment(if |cfg.servers| == 0 then [] else cfg.servers[1..], cfg.proofMaps, cfg.routeMaps);
  }

  method RenderWorkspace(env: Env, validation: Validation, domain: string, ws: Workspace)
    returns (fragment: Option<Fragment>)
    ensures fragment == RenderedWorkspace(env, validation, domain)(ws)
  {
    if !validation(Bare(ws), domain) || Planning.HasAccidentalConflict(Routes.NormalizedRoutes(ws)) {
      return None;
    }
    var servers := ServerBuilder.BuildWorkspaceServers(env, ws);
    var f := Assemble([ControlServer(env, domain)] + servers);
    fragment := Some(f);
  }

  // ---- The cache ----

  /** Everything a fragment was rendered from; the source keeps its hash. */
  datatype Key = Key(workspace: Workspace, domain: string, listen: seq<string>)

  datatype Cached = Cached(key: Key, fragment: Fragment)

  function KeyOf(ws: Workspace, domain: string, listen: seq<string>): Key {
    Key(KeyWorkspace(ws), domain, listen)
  }

  class Provider {
    var renderCache: map<string, Cached>
    const controlPort: nat
    const remoteProxy: string -> Proxy
    const validation: Validation

    constructor (controlPort: nat, remoteProxy: string -> Proxy, validation: Validation)
      ensures Valid() && this.controlPort == controlPort && this.remoteProxy == remoteProxy
        && this.validation == validation
    {
      this.controlPort, this.remoteProxy, this.validation := controlPort, remoteProxy, validation;
      renderCache := map[];
    }

    function EnvFor(listen: seq<string>): Env {
      Env(listen, controlPort, remoteProxy)
    }

    /** Each entry is the rendering of its own key. */
    ghost predicate Faithful(entry: Cached) {
      Some(entry.fragment)
        == RenderedWorkspace(EnvFor(entry.key.listen), validation, entry.key.domain)(entry.key.workspace)
    }

    ghost predicate Valid()
      reads this
    {
      forall id | id in renderCache :: Faithful(renderCache[id])
    }

    /** The fragment of one workspace, from the cache if its key is the same. */
    method FragmentFor(ws: Workspace, domain: string, listen: seq<string>) returns (entry: Option<Cached>)
      requires Valid()
      ensures entry.None? <==> RenderedWorkspace(EnvFor(listen), validation, domain)(ws).None?
      ensures entry.Some? ==>
        Faithful(entry.value) && Some(entry.value.fragment) == RenderedWorkspace(EnvFor(listen), validation, domain)(ws)
    {
      var key := KeyOf(ws, domain, listen);
      KeyRendering(EnvFor(listen), validation, domain, ws);
      if ws.workspaceID in renderCache && renderCache[ws.workspaceID].key == key {
        return Some(renderCache[ws.workspaceID]);
      }
      var fragment := RenderWorkspace(EnvFor(listen), validation, domain, ws);
      entry := if fragment.None? then None else Some(Cached(key, fragment.value));
    }

    /** render: whatever was rendered before, the result is that of rendering afresh. */
    method Render(workspaces: seq<Workspace>, domain: string, listen: seq<string>) returns (out: Option<seq<Fragment>>)
      requires Valid()
      modifies this
      ensures Valid()
      ensures out ==
        if Hosts.Unambiguous(Hosts.Owners(workspaces, domain)) then
          Traverse(RenderedWorkspace(EnvFor(listen), validation, domain), workspaces)
        else None
      ensures out.None? ==> renderCache == old(renderCache)
    {
      var conflict := Hosts.ValidateSessionHosts(workspaces, domain);
      if conflict.Some? {
        return None;
      }
      ghost var render := RenderedWorkspace(EnvFor(listen), validation, domain);
      var next: map<string, Cached> := map[];
      var fragments: seq<Fragment> := [];
      for i := 0 to |workspaces|
        invariant Traverse(render, workspaces[..i]) == Some(fragments)
        invariant forall id | id in next :: Faithful(next[id])
        invariant renderCache == old(renderCache)
      {
        var ws := workspaces[i];
        assert workspaces[..i + 1][..i] == workspaces[..i];
        var entry := FragmentFor(ws, domain, listen);
        if entry.None? {
          TraverseFails(render, workspaces, i);
          return None;
        }
        next := next[ws.workspaceID := entry.value];
        fragments := fragments + [entry.value.fragment];
      }
      assert workspaces[..|workspaces|] == workspaces;
      renderCache := next;
      out := Some(fragments);
    }
  }

  /** The key decides the rendering. */
  lemma KeyRendering(env: Env, validation: Validation, domain: string, ws: Workspace)
    ensures RenderedWorkspace(env, validation, domain)(KeyWorkspace(ws))
      == RenderedWorkspace(env, validation, domain)(ws)
  {
    KeyServers(env, ws);
    KeyRoutes(ws);
    KeyIsBare(ws);
  }
}
