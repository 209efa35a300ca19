/** Whole runs: requests, synchronisations, other mutations, and crashes followed by a load, in
    any order. */
module Runs {
  import opened Text
  import opened Model
  import opened Protocol
  import opened Transaction
  import opened Requests
  import opened Invariants
  import opened Mutations
  import opened Changes
  import opened Relevance
  import opened Recovery

  datatype Event =
    | Requested(wsID: string, req: Request, out: Outcome)
    | Synced(wsID: string, correlationID: string, repair: bool, sync: SyncOutcome)
    | Changed(required: bool, change: Change, persist: Persist, correlationID: string, changed: MutateOutcome)
    | CrashedRequest(wsID: string, req: Request, disk: Disk)
    | CrashedSync(wsID: string, correlationID: string, disk: Disk)
    | CrashedChange(change: Change, persist: Persist, correlationID: string, disk: Disk)

  /** A crash leaves one of the disks the operation went through, and a complete load follows. */
  ghost predicate Step(rules: Rules, a: Sys, ev: Event, b: Sys) {
    match ev
    case Requested(wsID, req, out) => ApplyStep(rules, a, wsID, req, out, b)
    case Synced(wsID, correlationID, repair, out) => SyncStep(rules, a, wsID, correlationID, repair, out, b)
    case Changed(required, change, persist, correlationID, out) =>
      LawfulChange(change, persist) && MutateStep(rules, a, required, change, correlationID, out, b)
    case CrashedRequest(wsID, req, disk) => ApplyReaches(rules, a, wsID, req, disk)
      && b == Reloaded(rules, disk, a.tokens + 1)
    case CrashedSync(wsID, correlationID, disk) => SyncReaches(a, wsID, correlationID, disk)
      && b == Reloaded(rules, disk, a.tokens + 1)
    case CrashedChange(change, persist, correlationID, disk) =>
      LawfulChange(change, persist) && MutateReaches(rules, a, change, correlationID, disk)
        && b == Reloaded(rules, disk, a.tokens + 1)
  }

  datatype Run = Run(states: seq<Sys>, events: seq<Event>)

  ghost predicate StepAt(rules: Rules, run: Run, i: nat) {
    i < |run.events| && |run.states| == |run.events| + 1 && Step(rules, run.states[i], run.events[i], run.states[i + 1])
  }

  ghost predicate IsRun(rules: Rules, run: Run) {
    && |run.states| == |run.events| + 1
    && Good(rules, run.states[0])
    && forall i: nat | i < |run.events| :: StepAt(rules, run, i)
  }

  /** No journal update was lost: whenever an operation is over, its entry is closed. */
  ghost predicate Undisturbed(run: Run) {
    forall s | s in run.states :: Closed(s.disk.journal)
  }

  // ---- Every reachable state ----

  lemma ReachedKeepsGood(rules: Rules, a: Sys, candidate: seq<Workspace>, e: JournalEntry, result: Option<Result>,
                         d: Disk)
    requires Starts(rules, a, candidate, e) && Reached(a.disk, candidate, e, result, d)
    ensures Good(rules, Reloaded(rules, d, a.tokens + 1))
  {
    if d == a.disk {
      BeginningKeepsGood(rules, a);
      ReloadIsGood(rules, d, a.tokens + 1);
    } else if ReachedBefore(a.disk, e, d) {
      var f :| Advances(e, f) && f.status != Committed && d == Disk(a.disk.durable, Put(a.disk.journal, f));
      EntryKeepsGood(rules, a, candidate, e, f, d.durable);
    } else {
      var written :| d == Disk(Published(candidate), Finished(a.disk.journal, e, result, written));
      EntryKeepsGood(rules, a, candidate, e, FinishedEntry(e, result, written), d.durable);
    }
  }

  lemma SameJournalKeepsGood(rules: Rules, a: Sys, d: Disk)
    requires Good(rules, a) && UniqueIDs(d.durable) && OperationsIssued(a.tokens + 1, d.durable)
    requires d.journal == a.disk.journal
    ensures Good(rules, Reloaded(rules, d, a.tokens + 1))
  {
    IssuedLater(a.tokens, a.tokens + 1, d.journal);
    ReloadIsGood(rules, d, a.tokens + 1);
  }

  lemma SameDiskKeepsGood(rules: Rules, a: Sys)
    requires Good(rules, a)
    ensures Good(rules, Reloaded(rules, a.disk, a.tokens + 1))
  {
    OperationsIssuedLater(a.tokens, a.tokens + 1, a.memory);
    SameJournalKeepsGood(rules, a, a.disk);
  }

  lemma CrashedChangeKeepsGood(rules: Rules, a: Sys, change: Change, persist: Persist, correlationID: string, d: Disk)
    requires Good(rules, a) && LawfulChange(change, persist) && MutateReaches(rules, a, change, correlationID, d)
    ensures Good(rules, Reloaded(rules, d, a.tokens + 1))
  {
    if d == a.disk {
      SameDiskKeepsGood(rules, a);
    } else {
      var candidate := MutateCandidate(a, change, correlationID);
      ChangeStarts(rules, a, change, persist, correlationID);
      PublishedIsUnique(candidate);
      PublishedIsIssued(a.tokens + 1, candidate);
      SameJournalKeepsGood(rules, a, d);
    }
  }

  lemma NoOpCrashKeepsGood(rules: Rules, a: Sys, ws: Workspace, planned: Planned, intent: Intent, wsID: string,
                           req: Request, d: Disk)
    requires Good(rules, a) && NoOpReaches(a, ws, planned, intent, wsID, req, d)
    ensures Good(rules, Reloaded(rules, d, a.tokens + 1))
  {
    var op := NoOpOperation(a, ws, req.correlationID);
    var e := NoOpEntry(wsID, TrimSpace(req.key), intent, op, NoOpResult(a, ws, planned, op));
    NextNameIsFresh(a.tokens);
    BeginningKeepsGood(rules, a);
    PutIsIssued(a.tokens + 1, a.disk.journal, e);
    ReloadIsGood(rules, d, a.tokens + 1);
  }

  lemma CrashedRequestKeepsGood(rules: Rules, a: Sys, wsID: string, req: Request, d: Disk)
    requires Good(rules, a) && ApplyReaches(rules, a, wsID, req, d)
    ensures Good(rules, Reloaded(rules, d, a.tokens + 1))
  {
    DecisionIsPlanned(rules, a.memory, a.replay, wsID, req);
    match Decide(rules, a.memory, a.replay, wsID, req) {
      case Refuse(_) => SameDiskKeepsGood(rules, a);
      case Again(_) => SameDiskKeepsGood(rules, a);
      case NoOp(i, planned, intent) => NoOpCrashKeepsGood(rules, a, a.memory[i], planned, intent, wsID, req, d);
      case Proceed(i, planned, intent) => CrashedPlanKeepsGood(rules, a, i, planned, intent, wsID, req, d);
    }
  }

  lemma CrashedPlanKeepsGood(rules: Rules, a: Sys, i: nat, planned: Planned, intent: Intent, wsID: string, req: Request,
                             d: Disk)
    requires Good(rules, a) && i < |a.memory| && LawfulPlan(a.memory[i], planned)
    requires ProceedReaches(rules, a, i, planned, intent, wsID, req, d)
    ensures Good(rules, Reloaded(rules, d, a.tokens + 1))
  {
    var op := Begins(a, "route-apply", req.correlationID);
    var e := ApplyEntry(wsID, TrimSpace(req.key), intent, op, a.memory[i].route.routeVersion);
    PlannedStarts(rules, a, i, planned, op, e);
    var result := Some(AppliedResult(planned.plan, op, true));
    assert Reached(a.disk, PlannedCandidate(a.memory, i, planned, op), e, result, d);
    ReachedKeepsGood(rules, a, PlannedCandidate(a.memory, i, planned, op), e, result, d);
  }

  lemma CrashedSyncKeepsGood(rules: Rules, a: Sys, wsID: string, correlationID: string, d: Disk)
    requires Good(rules, a) && SyncReaches(a, wsID, correlationID, d)
    ensures Good(rules, Reloaded(rules, d, a.tokens + 1))
  {
    if d == a.disk {
      SameDiskKeepsGood(rules, a);
    } else {
      var i := IndexOf(a.memory, wsID).value;
      RepairStarts(rules, a, wsID, i, correlationID);
      ReachedKeepsGood(rules, a, RepairCandidate(a, i, correlationID), RepairEntry(a, wsID, i, correlationID), None, d);
    }
  }

  lemma StepKeepsGood(rules: Rules, a: Sys, ev: Event, b: Sys)
    requires Good(rules, a) && Step(rules, a, ev, b)
    ensures Good(rules, b)
  {
    match ev {
      case Requested(wsID, req, out) => ApplyKeepsGood(rules, a, wsID, req, out, b);
      case Synced(wsID, correlationID, repair, out) => SyncKeepsGood(rules, a, wsID, correlationID, repair, out, b);
      case Changed(required, change, persist, correlationID, out) =>
        MutateKeepsGood(rules, a, required, change, persist, correlationID, out, b);
      case CrashedRequest(wsID, req, disk) => CrashedRequestKeepsGood(rules, a, wsID, req, disk);
      case CrashedSync(wsID, correlationID, disk) => CrashedSyncKeepsGood(rules, a, wsID, correlationID, disk);
      case CrashedChange(change, persist, correlationID, disk) =>
        CrashedChangeKeepsGood(rules, a, change, persist, correlationID, disk);
    }
  }

  /** In every reachable state memory is what is durable, versions are below the counter, and
      no workspace is reported verified with routes other than its own. */
  lemma {:induction false} EveryStateIsGood(rules: Rules, run: Run, i: nat)
    requires IsRun(rules, run) && i < |run.states|
    ensures Good(rules, run.states[i])
  {
    if i > 0 {
      EveryStateIsGood(rules, run, i - 1);
      assert StepAt(rules, run, i - 1);
      StepKeepsGood(rules, run.states[i - 1], run.events[i - 1], run.states[i]);
    }
  }

  // ---- All or nothing ----

  ghost predicate Registered(s: Sys, id: string) {
    IndexOf(s.memory, id).Some?
  }

  ghost function WorkspaceOf(s: Sys, id: string): Workspace
    requires Registered(s, id)
  {
    s.memory[IndexOf(s.memory, id).value]
  }

  /** Every application has its workspace's version and operation, and no workspace claims an
      operation called "none", which a response proof takes for having none. */
  ghost predicate Consistent(wss: seq<Workspace>) {
    Aligned(wss) && forall ws | ws in wss :: ws.route.operationID != "none"
  }

  /** Memory is what was published of the workspaces the proxy has loaded. */
  ghost predicate InStep(s: Sys) {
    s.proxy.Serving? && Published(s.proxy.workspaces) == s.memory
  }

  /** The text the proxy has is the one memory is rendered to. */
  ghost predicate SameText(rules: Rules, s: Sys) {
    s.proxy.Serving? && rules.render(s.proxy.workspaces) == rules.render(s.memory)
  }

  /** Success changes memory, rows and proxy together; anything else leaves memory and rows
      alone, and the proxy too unless degraded is reported. */
  lemma AllOrNothing(rules: Rules, a: Sys, wsID: string, req: Request, out: Outcome, b: Sys)
    requires Good(rules, a) && ApplyStep(rules, a, wsID, req, out, b)
    ensures b.memory == b.disk.durable
    ensures out.CommittedAs? ==> InStep(b) && b.memory != a.memory && (Consistent(a.memory) ==> SameText(rules, b))
    ensures !out.CommittedAs? ==> b.memory == a.memory
    ensures !out.CommittedAs? && !(out.NotApplied? && out.end.Aborted? && out.end.degraded) ==>
      b.proxy == a.proxy || b.proxy == Serving(b.memory)
  {
    ApplyKeepsGood(rules, a, wsID, req, out, b);
    DecisionIsPlanned(rules, a.memory, a.replay, wsID, req);
    if out.CommittedAs? {
      CommitChangesMemory(rules, a, wsID, req, out, b);
      CommitShowsTheSame(rules, a, wsID, req, out, b);
    }
  }

  lemma CommitShowsTheSame(rules: Rules, a: Sys, wsID: string, req: Request, out: Outcome, b: Sys)
    requires Good(rules, a) && ApplyStep(rules, a, wsID, req, out, b) && out.CommittedAs?
    ensures Consistent(a.memory) ==> SameText(rules, b)
  {
    DecisionIsPlanned(rules, a.memory, a.replay, wsID, req);
    var d, op := Decide(rules, a.memory, a.replay, wsID, req), Begins(a, "route-apply", req.correlationID);
    var e := ApplyEntry(wsID, TrimSpace(req.key), d.intent, op, a.memory[d.i].route.routeVersion);
    PlannedStarts(rules, a, d.i, d.planned, op, e);
    PublishedShowsTheSame(rules, a, PlannedCandidate(a.memory, d.i, d.planned, op));
  }

  lemma CommitChangesMemory(rules: Rules, a: Sys, wsID: string, req: Request, out: Outcome, b: Sys)
    requires Good(rules, a) && ApplyStep(rules, a, wsID, req, out, b) && out.CommittedAs?
    ensures var d := Decide(rules, a.memory, a.replay, wsID, req);
      && d.Proceed? && Names(a.memory, wsID, d.i) && Names(b.memory, wsID, d.i) && |b.memory| == |a.memory|
      && b.memory[d.i].route.routeVersion == a.next + 1 && a.memory[d.i].route.routeVersion <= a.next
      && InStep(b)
  {
    DecisionIsPlanned(rules, a.memory, a.replay, wsID, req);
    var d := Decide(rules, a.memory, a.replay, wsID, req);
    assert a.memory[d.i] in a.memory;
  }

  // ---- Publishing shows the same ----

  lemma StampedShowsTheSame(ws: Workspace, version: nat, tokens: nat)
    requires IsStamped(ws, version, OperationName(tokens)) && version > 0
    ensures Twins(ws, Projected(ws))
  {
    ProjectedIsAlike(ws);
    NameIsAnOperation(tokens);
  }

  lemma NameIsAnOperation(tokens: nat)
    ensures OperationName(tokens) != "" && OperationName(tokens) != "none"
  {
    assert OperationName(tokens)[0] == 'o';
  }

  lemma ReboundShowsTheSame(before: Workspace, ws: Workspace, tokens: nat)
    requires Rebound(before, ws, OperationName(tokens)) && Projected(before) == before
    requires before.route.operationID != "none"
    ensures Twins(ws, Projected(ws))
  {
    ProjectedIsAlike(ws);
    forall i | 0 <= i < |ws.applications|
      ensures TwinApps(ws, ws.applications[i], Projected(ws).applications[i])
    {
      var app := ws.applications[i];
      if !Carries(app, OperationName(tokens)) {
        assert Projected(before).applications[i] == app;
      }
    }
  }

  lemma AlignedShowsTheSame(ws: Workspace)
    requires Projected(ws) == ws
    ensures Twins(ws, Projected(ws))
  {
  }

  /** From consistent workspaces on, the text the proxy gets is the one what is published is
      rendered to. */
  lemma PublishedShowsTheSame(rules: Rules, a: Sys, c: seq<Workspace>)
    requires Lawful(rules) && Stamped(a.memory, c, a.next + 1, OperationName(a.tokens))
    ensures Consistent(a.memory) ==> rules.render(Published(c)) == rules.render(c)
  {
    if Consistent(a.memory) {
      forall i | 0 <= i < |c|
        ensures Twins(c[i], Published(c)[i])
      {
        assert StampedOne(a.memory, c[i], a.next + 1, OperationName(a.tokens));
        if c[i] in a.memory {
          AlignedShowsTheSame(c[i]);
        } else if IsStamped(c[i], a.next + 1, OperationName(a.tokens)) {
          StampedShowsTheSame(c[i], a.next + 1, a.tokens);
        } else {
          var before :| before in a.memory && Rebound(before, c[i], OperationName(a.tokens));
          ReboundShowsTheSame(before, c[i], a.tokens);
        }
      }
      assert TwinLists(c, Published(c));
    }
  }

  /** A repair gives its workspace a higher version and the routes it had. */
  lemma SyncAllOrNothing(rules: Rules, a: Sys, wsID: string, correlationID: string, repair: bool, out: SyncOutcome,
                         b: Sys)
    requires Good(rules, a) && SyncStep(rules, a, wsID, correlationID, repair, out, b)
    ensures b.memory == b.disk.durable
    ensures out.Repaired? ==>
      && InStep(b) && (Consistent(a.memory) ==> SameText(rules, b)) && b.next == a.next + 1
      && Registered(a, wsID) && Registered(b, wsID)
      && WorkspaceOf(b, wsID).route.routeVersion == b.next > WorkspaceOf(a, wsID).route.routeVersion
      && rules.routes(WorkspaceOf(b, wsID)) == rules.routes(WorkspaceOf(a, wsID))
    ensures !out.Repaired? ==> b.memory == a.memory && b.next == a.next
    ensures !out.Repaired? && !(out.SyncNotApplied? && out.end.Aborted? && out.end.degraded) ==>
      b.proxy == a.proxy || b.proxy == Serving(b.memory)
  {
    SyncKeepsGood(rules, a, wsID, correlationID, repair, out, b);
    if out.Repaired? {
      var i := IndexOf(a.memory, wsID).value;
      RepairStarts(rules, a, wsID, i, correlationID);
      PublishedShowsTheSame(rules, a, RepairCandidate(a, i, correlationID));
      RepairRaisesVersion(rules, a, wsID, correlationID, b);
    }
  }

  lemma RepairRaisesVersion(rules: Rules, a: Sys, wsID: string, correlationID: string, b: Sys)
    requires Good(rules, a) && Good(rules, b) && Registered(a, wsID)
    requires b.memory == Published(RepairCandidate(a, IndexOf(a.memory, wsID).value, correlationID))
    ensures Registered(b, wsID)
      && WorkspaceOf(b, wsID).route.routeVersion == a.next + 1 > WorkspaceOf(a, wsID).route.routeVersion
    ensures rules.routes(WorkspaceOf(b, wsID)) == rules.routes(WorkspaceOf(a, wsID))
  {
    var i, op := IndexOf(a.memory, wsID).value, RepairOperation(a, correlationID);
    IndexIs(b.memory, wsID, i);
    assert a.memory[i] in a.memory;
    StampAllIsAlike(a.memory[i], op);
    ProjectedIsAlike(StampAll(a.memory[i], op));
    assert Alike(WorkspaceOf(b, wsID), a.memory[i]);
  }

  lemma StampAllIsAlike(ws: Workspace, op: Operation)
    ensures Alike(StampAll(ws, op), ws)
  {
    assert BareApps(StampAll(ws, op).applications) == BareApps(ws.applications);
  }

  /** Other mutations report the failure to restore the proxy instead of a flag. What becomes
      current is published of a candidate in which every workspace is as it was, is stamped above
      every earlier version, or has bindings the operation is written on. */
  lemma MutateAllOrNothing(rules: Rules, a: Sys, required: bool, change: Change, persist: Persist,
                           correlationID: string, out: MutateOutcome, b: Sys)
    requires Good(rules, a) && LawfulChange(change, persist)
    requires MutateStep(rules, a, required, change, correlationID, out, b)
    ensures b.memory == b.disk.durable
    ensures out.Mutated? && required ==> InStep(b) && (Consistent(a.memory) ==> SameText(rules, b))
    ensures out.Mutated? ==>
      && b.next == a.next + 1 && b.memory == Published(MutateCandidate(a, change, correlationID))
      && Stamped(a.memory, MutateCandidate(a, change, correlationID), b.next, OperationName(a.tokens))
    ensures forall ws | ws in a.memory :: ws.route.routeVersion <= a.next && AppsBelow(ws, a.next)
    ensures !out.Mutated? ==> b.memory == a.memory
    ensures !out.Mutated? && out != NotRouted(RestoreFailed) && out != NotSaved(false) && required ==>
      b.proxy == a.proxy || b.proxy == Serving(b.memory)
  {
    MutateKeepsGood(rules, a, required, change, persist, correlationID, out, b);
    if out.Mutated? {
      ChangeStarts(rules, a, change, persist, correlationID);
      PublishedShowsTheSame(rules, a, MutateCandidate(a, change, correlationID));
    }
  }

  /** A committed edit of one workspace raises its version and no other. */
  lemma EditRaisesVersion(rules: Rules, a: Sys, required: bool, kind: string, wsID: string,
                          accepts: seq<Workspace> -> bool, edit: (Workspace, Operation) -> Workspace, persist: Persist,
                          correlationID: string, op: Operation, b: Sys)
    requires Good(rules, a) && LawfulEdit(edit, persist) && Registered(a, wsID)
    requires MutateStep(rules, a, required, Change(kind, accepts, EditOne(wsID, edit)), correlationID, Mutated(op), b)
    ensures var i := IndexOf(a.memory, wsID).value;
      && |b.memory| == |a.memory|
      && b.memory[i].route.routeVersion == op.routeVersion == b.next > a.memory[i].route.routeVersion
      && forall k | 0 <= k < |a.memory| && k != i :: b.memory[k] == Projected(a.memory[k])
  {
    assert WorkspaceOf(a, wsID) in a.memory;
    assert IsStamped(edit(WorkspaceOf(a, wsID), op), op.routeVersion, op.operationID);
  }

  /** What is reported verified is what the workspace routes, in every reachable state. */
  lemma VerifiedIsHonest(rules: Rules, run: Run, i: nat, ws: Workspace)
    requires IsRun(rules, run) && i < |run.states| && ws in run.states[i].memory
    requires ReportedVerified(run.states[i].cache, ws)
    ensures run.states[i].cache[ws.workspaceID].routes == Some(rules.routes(ws))
    ensures ws in run.states[i].disk.durable && ws.route.routeVersion <= run.states[i].next
  {
    EveryStateIsGood(rules, run, i);
  }

  // ---- Crashes ----

  lemma PlanTargets(a: Sys, i: nat, planned: Planned, op: Operation, e: JournalEntry)
    requires Applicable(a.memory, i, planned) && Names(a.memory, e.workspaceID, i) && op.routeVersion == e.routeVersion
    ensures Targets(a, PlannedCandidate(a.memory, i, planned, op), e)
  {
    assert Names(PlannedCandidate(a.memory, i, planned, op), e.workspaceID, i);
  }

  /** A crash anywhere in ApplyRoutePlan. */
  lemma InterruptedRequestRecovers(rules: Rules, a: Sys, wsID: string, req: Request, d: Disk)
    requires Good(rules, a) && Closed(a.disk.journal) && ApplyReaches(rules, a, wsID, req, d)
    ensures var dec := Decide(rules, a.memory, a.replay, wsID, req);
      if dec.Proceed? then
        var op := Begins(a, "route-apply", req.correlationID);
        && Applicable(a.memory, dec.i, dec.planned)
        && var e := ApplyEntry(wsID, TrimSpace(req.key), dec.intent, op, a.memory[dec.i].route.routeVersion);
           Recovers(rules, a, PlannedCandidate(a.memory, dec.i, dec.planned, op), e, d,
                    Reloaded(rules, d, a.tokens + 1))
      else d.durable == a.memory && Closed(d.journal)
  {
    DecisionIsPlanned(rules, a.memory, a.replay, wsID, req);
    match Decide(rules, a.memory, a.replay, wsID, req) {
      case Refuse(_) =>
      case Again(_) =>
      case NoOp(i, planned, intent) =>
        var op := NoOpOperation(a, a.memory[i], req.correlationID);
        ClosedAfterPut(a.disk.journal,
                       NoOpEntry(wsID, TrimSpace(req.key), intent, op, NoOpResult(a, a.memory[i], planned, op)));
      case Proceed(i, planned, intent) =>
        var op := Begins(a, "route-apply", req.correlationID);
        var e := ApplyEntry(wsID, TrimSpace(req.key), intent, op, a.memory[i].route.routeVersion);
        PlannedStarts(rules, a, i, planned, op, e);
        PlanTargets(a, i, planned, op, e);
        CrashSafety(rules, a, PlannedCandidate(a.memory, i, planned, op), e,
                    Some(AppliedResult(planned.plan, op, true)), d);
    }
  }

  /** A crash anywhere in SyncRoute. */
  lemma InterruptedSyncRecovers(rules: Rules, a: Sys, wsID: string, correlationID: string, i: nat, d: Disk)
    requires Good(rules, a) && Closed(a.disk.journal) && IndexOf(a.memory, wsID) == Some(i)
    requires SyncReaches(a, wsID, correlationID, d)
    ensures Recovers(rules, a, RepairCandidate(a, i, correlationID), RepairEntry(a, wsID, i, correlationID), d,
                     Reloaded(rules, d, a.tokens + 1))
  {
    RepairStarts(rules, a, wsID, i, correlationID);
    assert Names(RepairCandidate(a, i, correlationID), wsID, i);
    CrashSafety(rules, a, RepairCandidate(a, i, correlationID), RepairEntry(a, wsID, i, correlationID), None, d);
  }
}
