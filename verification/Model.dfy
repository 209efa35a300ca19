/** Workspaces and applications, with the accessors every other component goes through. */
module Model {
  import opened Text

  /** The part of a RouteState that is recomputed from the last proxy snapshot. */
  datatype RouteStatus = RouteStatus(
    desiredMode: string, effectiveMode: string, target: string, localTarget: string,
    remoteTarget: string, remoteFallback: bool, proxyHealth: string,
    verificationStatus: string, verifiedAt: Option<nat>)

  datatype RouteState = RouteState(routeVersion: nat, operationID: string, status: RouteStatus)

  datatype Operation = Operation(operationID: string, correlationID: string, routeVersion: nat, kind: string)

  datatype Application = Application(
    id: string, appID: string, serviceID: string, repository: string, aliases: seq<string>,
    name: string, path: string, publicPath: string, domain: string, remoteBaseUrl: string,
    context: string, upstreamContext: string, frontendRoot: string, frontendRootSource: string,
    legacyPublicPath: bool, legacyUpstreamContext: bool, health: string, port: nat, active: bool,
    routePattern: Option<string>, routeOverride: bool, stripOrigin: bool,
    route: RouteState, lastOperation: Option<Operation>, sharedWith: seq<string>)
  {
    function PublicRoutePath(): string {
      if TrimSpace(publicPath) != "" then TrimSpace(publicPath) else TrimSpace(path)
    }

    function IngressPath(): string {
      if legacyPublicPath && legacyUpstreamContext && TrimSpace(context) != "" then TrimSpace(context)
      else if TrimSpace(publicPath) != "" then TrimSpace(publicPath)
      else if TrimSpace(upstreamContext) == "" && TrimSpace(context) != "" then TrimSpace(context)
      else TrimSpace(path)
    }

    function BackendContextPath(): string {
      if TrimSpace(upstreamContext) != "" then TrimSpace(upstreamContext) else TrimSpace(context)
    }

    function CanonicalAppID(): string {
      if TrimSpace(appID) != "" then TrimSpace(appID) else TrimSpace(id)
    }
  }

  datatype RoutingConfig = RoutingConfig(mode: string, localDomain: string, defaultRemoteBaseURL: string)

  datatype SessionRef = SessionRef(environmentID: string, hostPrefix: string, baselineVersion: nat)

  datatype Workspace = Workspace(
    workspaceID: string, kind: string, name: Option<string>, color: Option<string>,
    routing: Option<RoutingConfig>, session: Option<SessionRef>,
    applications: seq<Application>, route: RouteState, lastOperation: Option<Operation>)
  {
    predicate IsLocalApps() {
      kind == "local-apps"
    }

    function EnvironmentID(): string {
      if session.Some? then session.value.environmentID else workspaceID
    }

    function SessionID(): string {
      if session.Some? then workspaceID else ""
    }

    function DefaultRemoteBaseURL(): string {
      if routing.Some? then routing.value.defaultRemoteBaseURL else ""
    }

    function LocalDomain(): string {
      if routing.Some? then routing.value.localDomain else "api.localhost"
    }

    function RemoteBaseUrl(app: Application): string {
      if app.remoteBaseUrl != "" then app.remoteBaseUrl else DefaultRemoteBaseURL()
    }
  }
}
