/** What a route transaction keeps in step: the workspaces in memory, the durable rows, the
    loaded proxy, the journal, the cache of effective routes and the idempotency records. */
module Protocol {
  import opened Text
  import opened Model
  import opened Routes

  // ---- Plans, as the protocol sees them ----

  datatype PlanInput = PlanInput(application: string, desiredMode: string, routePattern: Option<string>, strict: bool)

  datatype Plan = Plan(
    workspaceID: string, environment: string, baseVersion: nat, applicationID: string,
    desiredMode: string, routePattern: Option<string>, before: seq<Route>, after: seq<Route>, warnings: seq<string>,
    strict: bool)

  /** A plan, the application it edits, and what decides whether it may be applied. */
  datatype Planned = Planned(plan: Plan, index: nat, edited: Application, changed: bool, accidental: bool)

  /** What the protocol takes from the route algebra. */
  datatype Rules = Rules(
    mode: string -> Option<string>,
    plan: (Workspace, PlanInput) -> Option<Planned>,
    routes: Workspace -> seq<Route>,
    render: seq<Workspace> -> string,
    accidental: seq<Route> -> bool,
    valid: seq<Workspace> -> bool)

  /** What an idempotency key stands for; the source keeps its hash. */
  datatype Intent = Intent(
    workspaceID: string, environment: string, applicationID: string, desiredMode: string, routePattern: Option<string>)

  function IntentOf(plan: Plan): Intent {
    Intent(plan.workspaceID, plan.environment, plan.applicationID, plan.desiredMode, plan.routePattern)
  }

  // ---- Workspaces by identifier ----

  predicate UniqueIDs(wss: seq<Workspace>) {
    && (forall i, j | 0 <= i < j < |wss| :: wss[i].workspaceID != wss[j].workspaceID)
    && (forall ws | ws in wss :: UniqueApps(ws.applications))
  }

  predicate UniqueApps(apps: seq<Application>) {
    forall i, j | 0 <= i < j < |apps| :: apps[i].id != apps[j].id
  }

  predicate Names(wss: seq<Workspace>, id: string, i: int) {
    0 <= i < |wss| && wss[i].workspaceID == id
  }

  function IndexFrom(wss: seq<Workspace>, id: string, start: nat): (r: Option<nat>)
    requires start <= |wss|
    decreases |wss| - start
    ensures r.Some? ==> Names(wss, id, r.value)
    ensures r.None? ==> forall i | start <= i < |wss| :: wss[i].workspaceID != id
  {
    if start == |wss| then None
    else if wss[start].workspaceID == id then Some(start)
    else IndexFrom(wss, id, start + 1)
  }

  /** findWorkspace */
  function IndexOf(wss: seq<Workspace>, id: string): (r: Option<nat>)
    ensures r.Some? ==> Names(wss, id, r.value)
    ensures r.None? ==> forall i | 0 <= i < |wss| :: wss[i].workspaceID != id
  {
    IndexFrom(wss, id, 0)
  }

  // ---- Stamping an operation ----

  function StampApp(app: Application, op: Operation): Application {
    app.(route := app.route.(routeVersion := op.routeVersion, operationID := op.operationID), lastOperation := Some(op))
  }

  /** applyOperation without an application */
  function Stamp(ws: Workspace, op: Operation): Workspace {
    ws.(route := ws.route.(routeVersion := op.routeVersion, operationID := op.operationID), lastOperation := Some(op))
  }

  /** What ApplyRoutePlan commits: one application edited, it and its workspace stamped. */
  function EditedWorkspace(ws: Workspace, index: nat, edited: Application, op: Operation): Workspace
    requires index < |ws.applications|
  {
    Stamp(ws, op).(applications := ws.applications[index := StampApp(edited, op)])
  }

  /** What SyncRoute commits: the workspace and all its applications stamped. */
  function StampAll(ws: Workspace, op: Operation): Workspace {
    Stamp(ws, op).(
      applications := seq(|ws.applications|, i requires 0 <= i < |ws.applications| => StampApp(ws.applications[i], op)))
  }

  // ---- What applying does to a candidate ----

  /** projectRouteStates, as far as it is saved: every application gets the version and the
      operation of its workspace. */
  function ProjectedApp(ws: Workspace, app: Application): Application {
    app.(route := app.route.(routeVersion := ws.route.routeVersion, operationID := ws.route.operationID))
  }

  function Projected(ws: Workspace): Workspace {
    ws.(applications :=
          seq(|ws.applications|, i requires 0 <= i < |ws.applications| => ProjectedApp(ws, ws.applications[i])))
  }

  /** What is saved and becomes current of a candidate that was applied. */
  function Published(wss: seq<Workspace>): seq<Workspace> {
    seq(|wss|, i requires 0 <= i < |wss| => Projected(wss[i]))
  }

  /** Workspaces whose applications all have their version and operation. */
  predicate Aligned(wss: seq<Workspace>) {
    forall ws | ws in wss :: Projected(ws) == ws
  }

  lemma ProjectedTwice(ws: Workspace)
    ensures Projected(Projected(ws)) == Projected(ws)
  {
    assert Projected(Projected(ws)).applications == Projected(ws).applications;
  }

  lemma PublishedIsAligned(wss: seq<Workspace>)
    ensures Aligned(Published(wss))
  {
    forall ws | ws in Published(wss)
      ensures Projected(ws) == ws
    {
      var i :| 0 <= i < |wss| && ws == Projected(wss[i]);
      ProjectedTwice(wss[i]);
    }
  }

  lemma PublishedIsUnique(wss: seq<Workspace>)
    requires UniqueIDs(wss)
    ensures UniqueIDs(Published(wss))
  {
    forall ws | ws in Published(wss)
      ensures UniqueApps(ws.applications)
    {
      var i :| 0 <= i < |wss| && ws == Projected(wss[i]);
      assert wss[i] in wss;
    }
  }

  // ---- The durable rows ----

  /** The columns a state save writes. */
  function SaveApp(row: Application, from: Application): Application {
    row.(active := from.active, routePattern := from.routePattern,
         route := row.route.(routeVersion := from.route.routeVersion, operationID := from.route.operationID),
         lastOperation := from.lastOperation)
  }

  /** One UPDATE per saved application; it reaches the rows with that identifier. */
  function SaveAppRow(row: Application, from: seq<Application>): Application {
    if from == [] then row
    else
      var r, last := SaveAppRow(row, from[..|from| - 1]), from[|from| - 1];
      if last.id == row.id then SaveApp(r, last) else r
  }

  function SaveRow(row: Workspace, from: Workspace): Workspace {
    row.(route := row.route.(routeVersion := from.route.routeVersion, operationID := from.route.operationID),
         lastOperation := from.lastOperation,
         applications :=
           seq(|row.applications|,
               i requires 0 <= i < |row.applications| => SaveAppRow(row.applications[i], from.applications)))
  }

  function SaveWorkspaceRow(row: Workspace, from: seq<Workspace>): Workspace {
    if from == [] then row
    else
      var r, last := SaveWorkspaceRow(row, from[..|from| - 1]), from[|from| - 1];
      if last.workspaceID == row.workspaceID then SaveRow(r, last) else r
  }

  /** SaveState: nothing but the state columns of existing rows changes. */
  function Saved(rows: seq<Workspace>, from: seq<Workspace>): seq<Workspace> {
    seq(|rows|, i requires 0 <= i < |rows| => SaveWorkspaceRow(rows[i], from))
  }

  /** Candidates that differ from the rows in state columns only. */
  predicate SameApp(row: Application, from: Application) {
    row.id == from.id && SaveApp(row, from) == from
  }

  predicate SameWorkspace(row: Workspace, from: Workspace) {
    && row.workspaceID == from.workspaceID
    && from == row.(route := row.route.(routeVersion := from.route.routeVersion, operationID := from.route.operationID),
                    lastOperation := from.lastOperation, applications := from.applications)
    && |row.applications| == |from.applications|
    && forall i | 0 <= i < |row.applications| :: SameApp(row.applications[i], from.applications[i])
  }

  predicate SameDefinitions(rows: seq<Workspace>, from: seq<Workspace>) {
    |rows| == |from| && forall i | 0 <= i < |rows| :: SameWorkspace(rows[i], from[i])
  }

  lemma {:induction false} SaveAppRowSkips(row: Application, from: seq<Application>)
    requires forall a | a in from :: a.id != row.id
    ensures SaveAppRow(row, from) == row
  {
    if from != [] {
      SaveAppRowSkips(row, from[..|from| - 1]);
    }
  }

  lemma {:induction false} SaveAppRowFinds(row: Application, from: seq<Application>, i: nat)
    requires UniqueApps(from) && i < |from| && from[i].id == row.id
    ensures SaveAppRow(row, from) == SaveApp(row, from[i])
  {
    var init := from[..|from| - 1];
    if i < |init| {
      SaveAppRowFinds(row, init, i);
    } else {
      SaveAppRowSkips(row, init);
    }
  }

  lemma {:induction false} SaveWorkspaceRowSkips(row: Workspace, from: seq<Workspace>)
    requires forall ws | ws in from :: ws.workspaceID != row.workspaceID
    ensures SaveWorkspaceRow(row, from) == row
  {
    if from != [] {
      SaveWorkspaceRowSkips(row, from[..|from| - 1]);
    }
  }

  lemma {:induction false} SaveWorkspaceRowFinds(row: Workspace, from: seq<Workspace>, i: nat)
    requires forall a, b | 0 <= a < b < |from| :: from[a].workspaceID != from[b].workspaceID
    requires i < |from| && from[i].workspaceID == row.workspaceID
    ensures SaveWorkspaceRow(row, from) == SaveRow(row, from[i])
  {
    var init, last := from[..|from| - 1], from[|from| - 1];
    if i < |init| {
      SaveWorkspaceRowFinds(row, init, i);
    } else {
      SaveWorkspaceRowSkips(row, init);
    }
  }

  lemma SaveRowWrites(row: Workspace, from: Workspace)
    requires SameWorkspace(row, from) && UniqueApps(from.applications)
    ensures SaveRow(row, from) == from
  {
    forall i | 0 <= i < |row.applications|
      ensures SaveAppRow(row.applications[i], from.applications) == from.applications[i]
    {
      assert SameApp(row.applications[i], from.applications[i]);
      SaveAppRowFinds(row.applications[i], from.applications, i);
    }
    assert SaveRow(row, from).applications == from.applications;
  }

  /** A state save writes the whole candidate when only state columns changed. */
  lemma SaveWritesCandidate(rows: seq<Workspace>, from: seq<Workspace>)
    requires SameDefinitions(rows, from) && UniqueIDs(from)
    ensures Saved(rows, from) == from
  {
    forall i | 0 <= i < |rows|
      ensures SaveWorkspaceRow(rows[i], from) == from[i]
    {
      assert SameWorkspace(rows[i], from[i]) && from[i] in from;
      SaveWorkspaceRowFinds(rows[i], from, i);
      SaveRowWrites(rows[i], from[i]);
    }
  }

  lemma EditKeepsDefinition(ws: Workspace, index: nat, edited: Application, op: Operation)
    requires index < |ws.applications| && SameApp(ws.applications[index], edited)
    ensures SameWorkspace(ws, EditedWorkspace(ws, index, edited, op))
  {
  }

  lemma StampAllKeepsDefinition(ws: Workspace, op: Operation)
    ensures SameWorkspace(ws, StampAll(ws, op))
  {
  }

  lemma ReplaceKeepsDefinitions(wss: seq<Workspace>, i: nat, ws: Workspace)
    requires i < |wss| && SameWorkspace(wss[i], ws)
    ensures SameDefinitions(wss, wss[i := ws])
    ensures UniqueIDs(wss) ==> UniqueIDs(wss[i := ws])
  {
    var after := wss[i := ws];
    forall w | w in after && UniqueIDs(wss)
      ensures UniqueApps(w.applications)
    {
      if w == ws {
        assert wss[i] in wss;
        forall a, b | 0 <= a < b < |ws.applications|
          ensures ws.applications[a].id != ws.applications[b].id
        {
          assert SameApp(wss[i].applications[a], ws.applications[a]);
          assert SameApp(wss[i].applications[b], ws.applications[b]);
        }
      } else {
        assert w in wss;
      }
    }
  }

  lemma ProjectedKeepsDefinition(row: Workspace, from: Workspace)
    requires SameWorkspace(row, from)
    ensures SameWorkspace(row, Projected(from))
  {
    forall i | 0 <= i < |row.applications|
      ensures SameApp(row.applications[i], Projected(from).applications[i])
    {
      assert SameApp(row.applications[i], from.applications[i]);
    }
  }

  lemma PublishedKeepsDefinitions(rows: seq<Workspace>, from: seq<Workspace>)
    requires SameDefinitions(rows, from)
    ensures SameDefinitions(rows, Published(from))
  {
    forall i | 0 <= i < |rows|
      ensures SameWorkspace(rows[i], Published(from)[i])
    {
      ProjectedKeepsDefinition(rows[i], from[i]);
    }
  }

  // ---- The journal ----

  datatype Status = Prepared | ProxyApplied | Committed | Failed | RolledBack

  datatype Rollback = NotNeeded | NotRequired | Restored | RestoreFailed

  datatype ResultStatus = Applied | AppliedWithWarning | Unchanged | IdempotentReplay | Recovered

  datatype Result = Result(
    plan: Option<Plan>, operation: Operation, changed: bool, verified: bool, status: ResultStatus, degraded: bool)

  datatype JournalEntry = JournalEntry(
    operationID: string, workspaceID: string, key: string, intent: Option<Intent>, correlationID: string,
    expectedVersion: nat, routeVersion: nat, status: Status, degraded: bool, rollback: Rollback, result: Option<Result>)

  predicate Pending(e: JournalEntry) {
    e.status == Prepared || e.status == ProxyApplied
  }

  /** Every other entry, in order. */
  function Without(journal: seq<JournalEntry>, operationID: string): seq<JournalEntry> {
    if journal == [] then []
    else
      Without(journal[..|journal| - 1], operationID)
      + if journal[|journal| - 1].operationID == operationID then [] else [journal[|journal| - 1]]
  }

  /** saveRouteOperation: insert or replace; the journal is read in update order. */
  function Put(journal: seq<JournalEntry>, e: JournalEntry): seq<JournalEntry> {
    Without(journal, e.operationID) + [e]
  }

  lemma {:induction false} WithoutHas(journal: seq<JournalEntry>, id: string, x: JournalEntry)
    ensures x in Without(journal, id) <==> x in journal && x.operationID != id
  {
    if journal != [] {
      WithoutHas(journal[..|journal| - 1], id, x);
      assert journal == journal[..|journal| - 1] + [journal[|journal| - 1]];
    }
  }

  lemma PutHas(journal: seq<JournalEntry>, e: JournalEntry, x: JournalEntry)
    ensures x in Put(journal, e) <==> x == e || (x in journal && x.operationID != e.operationID)
  {
    WithoutHas(journal, e.operationID, x);
  }

  lemma {:induction false} WithoutAbsent(journal: seq<JournalEntry>, id: string)
    requires forall x | x in journal :: x.operationID != id
    ensures Without(journal, id) == journal
  {
    if journal != [] {
      WithoutAbsent(journal[..|journal| - 1], id);
      assert journal == journal[..|journal| - 1] + [journal[|journal| - 1]];
    }
  }

  /** Updating an entry twice leaves the last update. */
  lemma PutTwice(journal: seq<JournalEntry>, e: JournalEntry, f: JournalEntry)
    requires e.operationID == f.operationID
    ensures Put(Put(journal, e), f) == Put(journal, f)
  {
    var rest := Without(journal, e.operationID);
    forall x | x in rest ensures x.operationID != e.operationID { WithoutHas(journal, e.operationID, x); }
    WithoutAbsent(rest, e.operationID);
    assert (rest + [e])[..|rest|] == rest;
  }

  // ---- The cache of effective routes ----

  datatype Cached = Cached(routes: Option<seq<Route>>, version: nat, verified: bool)

  type Cache = map<string, Cached>

  function Recorded(routes: Workspace -> seq<Route>, cache: Cache, wss: seq<Workspace>): Cache {
    if wss == [] then cache
    else
      var last := wss[|wss| - 1];
      Recorded(routes, cache,
               wss[..|wss| - 1])[last.workspaceID := Cached(Some(routes(last)), last.route.routeVersion, true)]
  }

  function MarkedOne(cached: Option<Cached>): Cached {
    if cached.Some? then cached.value.(verified := false) else Cached(None, 0, false)
  }

  function CachedAt(cache: Cache, id: string): Option<Cached> {
    if id in cache then Some(cache[id]) else None
  }

  function MarkedUnavailable(cache: Cache, wss: seq<Workspace>): Cache {
    if wss == [] then cache
    else
      var rest, id := MarkedUnavailable(cache, wss[..|wss| - 1]), wss[|wss| - 1].workspaceID;
      rest[id := MarkedOne(CachedAt(rest, id))]
  }

  /** routesAreEffective */
  predicate Effective(cache: Cache, id: string, routes: seq<Route>) {
    id in cache && cache[id].routes == Some(routes) && cache[id].verified
  }

  /** The cache says this workspace is verified as published. */
  predicate ReportedVerified(cache: Cache, ws: Workspace) {
    var id := ws.workspaceID;
    id in cache && cache[id].routes.Some? && cache[id].verified && cache[id].version == ws.route.routeVersion
  }

  lemma {:induction false} RecordedAt(routes: Workspace -> seq<Route>, cache: Cache, wss: seq<Workspace>, ws: Workspace)
    requires forall i, j | 0 <= i < j < |wss| :: wss[i].workspaceID != wss[j].workspaceID
    requires ws in wss
    ensures CachedAt(Recorded(routes, cache, wss), ws.workspaceID)
      == Some(Cached(Some(routes(ws)), ws.route.routeVersion, true))
  {
    var init, last := wss[..|wss| - 1], wss[|wss| - 1];
    assert wss == init + [last];
    if ws != last {
      RecordedAt(routes, cache, init, ws);
    }
  }

  // ---- Everything at once ----

  /** What the proxy has loaded: these workspaces, or, after a failed apply, nothing that is
      known but the file it includes. */
  datatype Served = Serving(workspaces: seq<Workspace>) | Unsettled(file: Option<seq<Workspace>>)

  /** The file the proxy includes has the text these workspaces are rendered to. */
  predicate InFile(render: seq<Workspace> -> string, proxy: Served, wss: seq<Workspace>) {
    match proxy
    case Serving(loaded) => render(loaded) == render(wss)
    case Unsettled(file) => file.Some? && render(file.value) == render(wss)
  }

  /** What survives a crash. */
  datatype Disk = Disk(durable: seq<Workspace>, journal: seq<JournalEntry>)

  datatype Record = Record(intent: Option<Intent>, result: Result)

  type Replay = map<(string, string), Record>

  datatype Sys = Sys(
    memory: seq<Workspace>, next: nat, cache: Cache, replay: Replay,
    disk: Disk, proxy: Served, tokens: nat)

  function OperationName(n: nat): string {
    "op-" + Decimal(n)
  }

  ghost predicate Issued(tokens: nat, id: string) {
    exists n: nat | n < tokens :: OperationName(n) == id
  }

  lemma NextNameIsFresh(tokens: nat)
    ensures !Issued(tokens, OperationName(tokens))
    ensures Issued(tokens + 1, OperationName(tokens))
  {
    if Issued(tokens, OperationName(tokens)) {
      var n: nat :| n < tokens && OperationName(n) == OperationName(tokens);
      assert OperationName(n)[3..] == Decimal(n) && OperationName(tokens)[3..] == Decimal(tokens);
      DecimalIsInjective(n, tokens);
      assert false;
    }
  }

  // ---- Versions ----

  function Max(a: nat, b: nat): nat {
    if a < b then b else a
  }

  predicate AppsBelow(ws: Workspace, version: nat) {
    forall app | app in ws.applications :: app.route.routeVersion <= version
  }

  predicate VersionsBelow(wss: seq<Workspace>, next: nat) {
    forall ws | ws in wss :: ws.route.routeVersion <= next && AppsBelow(ws, next)
  }
}
