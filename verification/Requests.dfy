/** What ApplyRoutePlan and SyncRoute do to the state, case by case, as relations between the
    state before and after. */
module Requests {
  import opened Text
  import opened Model
  import opened Protocol
  import opened Relevance
  import opened Transaction

  // ---- Requests ----

  /** A plan as it arrives, with its expected version and idempotency key. The fingerprint is
      the hash of a plan, so it stands for the plan itself. */
  datatype Request = Request(
    workspaceID: string, environment: string, applicationID: string, desiredMode: string,
    routePattern: Option<string>, baseVersion: nat, fingerprint: Option<Plan>, hasRoutes: bool,
    strict: bool, expectedVersion: nat, key: string, correlationID: string)

  datatype Refusal =
    | WrongWorkspace | NoApplication | NoMode | BadMode | KeyReused | UnknownWorkspace | NotPlannable
    | VersionConflict(expected: nat, actual: nat) | PlanChanged | AccidentalConflicts | InvalidCandidate

  datatype Checked = Bad(why: Refusal) | Fine(intent: Intent)

  predicate Blank(s: string) {
    TrimSpace(s) == ""
  }

  /** The checks made before the lock is taken, and the intent the key will stand for. */
  function Check(mode: string -> Option<string>, wsID: string, req: Request): Checked {
    var workspaceID := if Blank(req.workspaceID) then wsID else req.workspaceID;
    var environment := if Blank(req.environment) then wsID else req.environment;
    if workspaceID != wsID then Bad(WrongWorkspace)
    else if Blank(req.applicationID) then Bad(NoApplication)
    else if Blank(req.desiredMode) then Bad(NoMode)
    else if mode(req.desiredMode).None? then Bad(BadMode)
    else Fine(Intent(wsID, environment, req.applicationID, mode(req.desiredMode).value, req.routePattern))
  }

  /** The version the caller says it planned against, if it says so at all. */
  function Expected(req: Request): nat {
    if req.expectedVersion == 0 then req.baseVersion else req.expectedVersion
  }

  predicate Stale(req: Request, current: nat) {
    && (Expected(req) != 0 || req.baseVersion != 0 || req.fingerprint.Some? || req.hasRoutes)
    && (Expected(req) != current || (req.baseVersion != 0 && req.baseVersion != current))
  }

  datatype Decision =
    | Refuse(why: Refusal)
    | Again(result: Result)
    | NoOp(i: nat, planned: Planned, intent: Intent)
    | Proceed(i: nat, planned: Planned, intent: Intent)

  function Input(intent: Intent, strict: bool): PlanInput {
    PlanInput(intent.applicationID, intent.desiredMode, intent.routePattern, strict)
  }

  /** What a plan for this workspace leads to. */
  function DecidePlanned(ws: Workspace, i: nat, req: Request, intent: Intent, planned: Option<Planned>): Decision {
    if planned.None? then Refuse(NotPlannable)
    else if Stale(req, ws.route.routeVersion) then
      Refuse(VersionConflict(if req.baseVersion != 0 then req.baseVersion else Expected(req), ws.route.routeVersion))
    else if req.fingerprint.Some? && req.fingerprint.value != planned.value.plan then Refuse(PlanChanged)
    else if planned.value.accidental then Refuse(AccidentalConflicts)
    else if !planned.value.changed then NoOp(i, planned.value, intent)
    else Proceed(i, planned.value, intent)
  }

  function DecideFresh(rules: Rules, memory: seq<Workspace>, wsID: string, req: Request, intent: Intent): Decision {
    var i := IndexOf(memory, wsID);
    if i.None? then Refuse(UnknownWorkspace)
    else DecidePlanned(memory[i.value], i.value, req, intent, rules.plan(memory[i.value], Input(intent, req.strict)))
  }

  function Replayed(record: Record): Result {
    record.result.(changed := false, status := IdempotentReplay)
  }

  /** The idempotency record decides first, then the version, then the plan. */
  function Decide(rules: Rules, memory: seq<Workspace>, replay: Replay, wsID: string, req: Request): Decision {
    var key := (wsID, TrimSpace(req.key));
    match Check(rules.mode, wsID, req)
    case Bad(why) => Refuse(why)
    case Fine(intent) =>
      if key.1 != "" && key in replay then
        if replay[key].intent != Some(intent) then Refuse(KeyReused) else Again(Replayed(replay[key]))
      else DecideFresh(rules, memory, wsID, req, intent)
  }

  // ---- The operation a request begins ----

  function Begun(a: Sys): Sys {
    a.(next := a.next + 1, tokens := a.tokens + 1)
  }

  function Begins(a: Sys, kind: string, correlationID: string): Operation {
    Operation(OperationName(a.tokens), correlationID, a.next + 1, kind)
  }

  function ApplyEntry(wsID: string, key: string, intent: Intent, op: Operation, expectedVersion: nat): JournalEntry {
    JournalEntry(op.operationID, wsID, key, Some(intent), op.correlationID, expectedVersion, op.routeVersion,
                 Prepared, false, NotNeeded, None)
  }

  function SyncEntry(wsID: string, op: Operation, expectedVersion: nat): JournalEntry {
    JournalEntry(op.operationID, wsID, "", None, op.correlationID, expectedVersion, op.routeVersion, Prepared, false,
                 NotNeeded, None)
  }

  predicate Applicable(memory: seq<Workspace>, i: nat, planned: Planned) {
    i < |memory| && planned.index < |memory[i].applications|
  }

  function PlannedCandidate(memory: seq<Workspace>, i: nat, planned: Planned, op: Operation): seq<Workspace>
    requires Applicable(memory, i, planned)
  {
    memory[i := EditedWorkspace(memory[i], planned.index, planned.edited, op)]
  }

  function SyncCandidate(memory: seq<Workspace>, i: nat, op: Operation): seq<Workspace>
    requires i < |memory|
  {
    memory[i := StampAll(memory[i], op)]
  }

  // ---- Outcomes ----

  datatype Outcome =
    | Refused(why: Refusal)
    | Replay(result: Result)
    | NothingToDo(result: Result)
    | CommittedAs(result: Result)
    | NotApplied(end: Ended)

  function Remember(replay: Protocol.Replay, wsID: string, key: string, intent: Intent, result: Result): Protocol.Replay
  {
    if key == "" then replay else replay[(wsID, key) := Record(Some(intent), result)]
  }

  function NoOpResult(a: Sys, ws: Workspace, planned: Planned, op: Operation): Result {
    Result(Some(planned.plan), op, false, Effective(a.cache, ws.workspaceID, planned.plan.after), Protocol.Unchanged,
           false)
  }

  function NoOpOperation(a: Sys, ws: Workspace, correlationID: string): Operation {
    Operation(OperationName(a.tokens), correlationID, ws.route.routeVersion, "route-apply")
  }

  function NoOpEntry(wsID: string, key: string, intent: Intent, op: Operation, result: Result): JournalEntry {
    JournalEntry(op.operationID, wsID, key, Some(intent), op.correlationID, op.routeVersion, op.routeVersion,
                 Committed, false, NotNeeded, Some(result))
  }

  /** Nothing changes but the records of the request; the durable one is best effort. */
  predicate NoOpStep(a: Sys, ws: Workspace, planned: Planned, intent: Intent, wsID: string, req: Request, out: Outcome,
                     b: Sys)
  {
    var key := TrimSpace(req.key);
    var op := NoOpOperation(a, ws, req.correlationID);
    var result := NoOpResult(a, ws, planned, op);
    && out == NothingToDo(result)
    && b == a.(tokens := a.tokens + 1, replay := Remember(a.replay, wsID, key, intent, result),
               disk := a.disk.(journal := b.disk.journal))
    && (b.disk.journal == a.disk.journal
        || (key != "" && b.disk.journal == Put(a.disk.journal, NoOpEntry(wsID, key, intent, op, result))))
  }

  function AppliedResult(plan: Plan, op: Operation, verified: bool): Result {
    Result(Some(plan), op, true, verified, Applied, false)
  }

  /** A caller is told when the journal was not written. */
  function Reported(result: Result, written: bool): Result {
    if written then result else result.(status := AppliedWithWarning, degraded := true)
  }

  ghost predicate CommitStep(rules: Rules, a: Sys, candidate: seq<Workspace>, e: JournalEntry, key: string,
                             intent: Intent, result: Result, reported: Result, b: Sys)
  {
    && b == a.(memory := Published(candidate), cache := Recorded(rules.routes, a.cache, candidate),
               proxy := Serving(candidate), disk := Disk(Published(candidate), b.disk.journal),
               replay := Remember(a.replay, e.workspaceID, key, intent, reported))
    && exists written ::
      b.disk.journal == Finished(a.disk.journal, e, Some(result), written) && reported == Reported(result, written)
  }

  /** A plan that passed every check. */
  ghost predicate ProceedStep(rules: Rules, a: Sys, i: nat, planned: Planned, intent: Intent, wsID: string,
                              req: Request, out: Outcome, b: Sys)
  {
    && Applicable(a.memory, i, planned)
    && var op := Begins(a, "route-apply", req.correlationID);
       var key := TrimSpace(req.key);
       var candidate := PlannedCandidate(a.memory, i, planned, op);
       var e := ApplyEntry(wsID, key, intent, op, a.memory[i].route.routeVersion);
       match out
       case Refused(why) => why == InvalidCandidate && !rules.valid(candidate) && b == Begun(a)
       case NotApplied(end) => rules.valid(candidate) && Abandoned(rules, Begun(a), candidate, e, end, b)
       case CommittedAs(reported) =>
         && rules.valid(candidate)
         && CommitStep(rules, Begun(a), candidate, e, key, intent, AppliedResult(planned.plan, op, true), reported, b)
       case _ => false
  }

  /** What a crash during a committing request can leave on disk. */
  ghost predicate ProceedReaches(rules: Rules, a: Sys, i: nat, planned: Planned, intent: Intent, wsID: string,
                                 req: Request, d: Disk)
  {
    || d == a.disk
    || (Applicable(a.memory, i, planned)
        && var op := Begins(a, "route-apply", req.correlationID);
           var candidate := PlannedCandidate(a.memory, i, planned, op);
           Reached(a.disk, candidate, ApplyEntry(wsID, TrimSpace(req.key), intent, op, a.memory[i].route.routeVersion),
                   Some(AppliedResult(planned.plan, op, true)), d))
  }

  predicate NoOpReaches(a: Sys, ws: Workspace, planned: Planned, intent: Intent, wsID: string, req: Request, d: Disk) {
    var op := NoOpOperation(a, ws, req.correlationID);
    || d == a.disk
    || (TrimSpace(req.key) != ""
        && d == a.disk.(journal :=
                        Put(a.disk.journal,
                            NoOpEntry(wsID, TrimSpace(req.key), intent, op, NoOpResult(a, ws, planned, op)))))
  }

  /** What a crash during any request can leave on disk. */
  ghost predicate ApplyReaches(rules: Rules, a: Sys, wsID: string, req: Request, d: Disk) {
    match Decide(rules, a.memory, a.replay, wsID, req)
    case Refuse(_) => d == a.disk
    case Again(_) => d == a.disk
    case NoOp(i, planned, intent) => i < |a.memory| && NoOpReaches(a, a.memory[i], planned, intent, wsID, req, d)
    case Proceed(i, planned, intent) => ProceedReaches(rules, a, i, planned, intent, wsID, req, d)
  }

  ghost predicate ApplyStep(rules: Rules, a: Sys, wsID: string, req: Request, out: Outcome, b: Sys) {
    match Decide(rules, a.memory, a.replay, wsID, req)
    case Refuse(why) => out == Refused(why) && b == a
    case Again(result) => out == Replay(result) && b == a
    case NoOp(i, planned, intent) => i < |a.memory| && NoOpStep(a, a.memory[i], planned, intent, wsID, req, out, b)
    case Proceed(i, planned, intent) => ProceedStep(rules, a, i, planned, intent, wsID, req, out, b)
  }

  // ---- Synchronising ----

  datatype SyncOutcome =
    | SyncRefused(why: Refusal)
    | InSync(operation: Operation)
    | Drift
    | Repaired(operation: Operation, degraded: bool)
    | SyncNotApplied(end: Ended)

  /** The cache has this workspace's routes at its published version. */
  predicate CacheInSync(rules: Rules, cache: Cache, ws: Workspace) {
    var id := ws.workspaceID;
    Effective(cache, id, rules.routes(ws)) && cache[id].version == ws.route.routeVersion
  }

  function RepairOperation(a: Sys, correlationID: string): Operation {
    Begins(a, "route-sync", correlationID)
  }

  function RepairCandidate(a: Sys, i: nat, correlationID: string): seq<Workspace>
    requires i < |a.memory|
  {
    SyncCandidate(a.memory, i, RepairOperation(a, correlationID))
  }

  function RepairEntry(a: Sys, wsID: string, i: nat, correlationID: string): JournalEntry
    requires i < |a.memory|
  {
    SyncEntry(wsID, RepairOperation(a, correlationID), a.memory[i].route.routeVersion)
  }

  ghost predicate RepairStep(rules: Rules, a: Sys, wsID: string, i: nat, correlationID: string, out: SyncOutcome,
                             b: Sys)
    requires i < |a.memory|
  {
    var candidate, e := RepairCandidate(a, i, correlationID), RepairEntry(a, wsID, i, correlationID);
    match out
    case SyncNotApplied(end) => Abandoned(rules, Begun(a), candidate, e, end, b)
    case Repaired(operation, degraded) =>
      && operation == RepairOperation(a, correlationID)
      && b == Begun(a).(memory := Published(candidate), cache := Recorded(rules.routes, a.cache, candidate),
                        proxy := Serving(candidate),
                        disk := Disk(Published(candidate), Finished(a.disk.journal, e, None, !degraded)))
    case _ => false
  }

  /** The proxy is asked; being in sync is its answer, and only a repair touches it. */
  ghost predicate SyncStep(rules: Rules, a: Sys, wsID: string, correlationID: string, repair: bool, out: SyncOutcome,
                           b: Sys)
  {
    var found := IndexOf(a.memory, wsID);
    if found.None? then out == SyncRefused(UnknownWorkspace) && b == a
    else
      var i := found.value;
      match out
      case SyncRefused(why) =>
        && why == AccidentalConflicts && rules.accidental(rules.routes(a.memory[i]))
        && repair && b == a
      case InSync(_) =>
        && InFile(rules.render, a.proxy, a.memory)
        && b == a.(tokens := a.tokens + 1,
                   cache :=
                     if CacheInSync(rules, a.cache, a.memory[i]) then a.cache
                     else Recorded(rules.routes, a.cache, a.memory))
      case Drift => !repair && b == a
      case _ =>
        && repair && !rules.accidental(rules.routes(a.memory[i]))
        && RepairStep(rules, a, wsID, i, correlationID, out, b)
  }

  ghost predicate SyncReaches(a: Sys, wsID: string, correlationID: string, d: Disk) {
    var found := IndexOf(a.memory, wsID);
    || d == a.disk
    || (found.Some?
        && Reached(a.disk, RepairCandidate(a, found.value, correlationID),
                   RepairEntry(a, wsID, found.value, correlationID), None, d))
  }

  // ---- What holds between requests ----

  /** What the rules promise: a plan edits state columns of one application and is based on the
      current version, routes depend on what is relevant to them and the rendered text on what is
      shown, and validation insists on unique identifiers. */
  ghost predicate Lawful(rules: Rules) {
    && (forall ws, input :: rules.plan(ws, input).Some? ==> LawfulPlan(ws, rules.plan(ws, input).value))
    && (forall a, b {:trigger Alike(a, b)} :: Alike(a, b) ==> rules.routes(a) == rules.routes(b))
    && (forall a, b {:trigger TwinLists(a, b)} :: TwinLists(a, b) ==> rules.render(a) == rules.render(b))
    && (forall wss :: rules.valid(wss) ==> UniqueIDs(wss))
  }

  predicate LawfulPlan(ws: Workspace, p: Planned) {
    && p.index < |ws.applications| && SameApp(ws.applications[p.index], p.edited)
    && p.plan.workspaceID == ws.workspaceID && p.plan.baseVersion == ws.route.routeVersion
  }

  /** No workspace is reported verified with routes other than its own. */
  ghost predicate Honest(rules: Rules, memory: seq<Workspace>, cache: Cache) {
    forall ws | ws in memory && ReportedVerified(cache, ws) :: cache[ws.workspaceID].routes == Some(rules.routes(ws))
  }

  ghost predicate EntriesIssued(tokens: nat, journal: seq<JournalEntry>) {
    forall e | e in journal :: Issued(tokens, e.operationID)
  }

  /** The operations a workspace's applications were last part of have been handed out. */
  ghost predicate Traced(tokens: nat, ws: Workspace) {
    forall app | app in ws.applications && app.lastOperation.Some? ::
      Issued(tokens, app.lastOperation.value.operationID)
  }

  ghost predicate OperationsIssued(tokens: nat, wss: seq<Workspace>) {
    forall ws | ws in wss :: Traced(tokens, ws)
  }

  ghost predicate Good(rules: Rules, s: Sys) {
    && Lawful(rules)
    && s.memory == s.disk.durable && UniqueIDs(s.memory)
    && VersionsBelow(s.memory, s.next)
    && Honest(rules, s.memory, s.cache)
    && EntriesIssued(s.tokens, s.disk.journal)
    && OperationsIssued(s.tokens, s.memory)
  }

  lemma ProjectedIsAlike(ws: Workspace)
    ensures Alike(Projected(ws), ws)
  {
    assert BareApps(Projected(ws).applications) == BareApps(ws.applications);
  }

  /** What a transaction needs, when it starts. */
  lemma PlannedIsReady(rules: Rules, a: Sys, i: nat, planned: Planned, op: Operation, e: JournalEntry)
    requires Good(rules, a) && i < |a.memory| && LawfulPlan(a.memory[i], planned)
    requires e.status == Prepared && e.routeVersion == a.next + 1
    ensures Applicable(a.memory, i, planned)
    ensures Ready(Begun(a), PlannedCandidate(a.memory, i, planned, op), e)
  {
    EditKeepsDefinition(a.memory[i], planned.index, planned.edited, op);
    ReplaceKeepsDefinitions(a.memory, i, EditedWorkspace(a.memory[i], planned.index, planned.edited, op));
  }

  lemma SyncIsReady(rules: Rules, a: Sys, i: nat, op: Operation, e: JournalEntry)
    requires Good(rules, a) && i < |a.memory|
    requires e.status == Prepared && e.routeVersion == a.next + 1
    ensures Ready(Begun(a), SyncCandidate(a.memory, i, op), e)
  {
    StampAllKeepsDefinition(a.memory[i], op);
    ReplaceKeepsDefinitions(a.memory, i, StampAll(a.memory[i], op));
  }

  /** Right after loading a candidate the cache has its routes. */
  lemma LoadedIsEffective(rules: Rules, cache: Cache, wss: seq<Workspace>, i: nat)
    requires UniqueIDs(wss) && i < |wss|
    ensures Effective(Recorded(rules.routes, cache, wss), wss[i].workspaceID, rules.routes(wss[i]))
  {
    RecordedAt(rules.routes, cache, wss, wss[i]);
  }
}
