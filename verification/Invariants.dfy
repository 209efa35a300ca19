/** What every step keeps: memory is what is durable, versions stay below the counter, and no
    workspace is reported verified with routes it does not have. */
module Invariants {
  import opened Text
  import opened Model
  import opened Protocol
  import opened Transaction
  import opened Relevance
  import opened Requests

  /** An application that the operation is written on. */
  predicate Carries(app: Application, id: string) {
    && app.lastOperation.Some? && app.lastOperation.value.operationID == id == app.route.operationID
    && app.route.routeVersion == app.lastOperation.value.routeVersion
  }

  /** A workspace of which only bindings of an application changed, in what its routes do not
      depend on, and those carry the operation: what registering an alias does elsewhere. */
  predicate Rebound(before: Workspace, ws: Workspace, id: string) {
    && ws == before.(applications := ws.applications) && Alike(before, ws)
    && |ws.applications| == |before.applications|
    && forall k | 0 <= k < |ws.applications| ::
      ws.applications[k] == before.applications[k] || Carries(ws.applications[k], id)
  }

  /** Every workspace of a candidate is as it was, is stamped, or has bindings that are. */
  predicate Stamped(memory: seq<Workspace>, candidate: seq<Workspace>, version: nat, id: string) {
    forall ws | ws in candidate :: StampedOne(memory, ws, version, id)
  }

  predicate StampedOne(memory: seq<Workspace>, ws: Workspace, version: nat, id: string) {
    || ws in memory
    || IsStamped(ws, version, id)
    || exists before | before in memory :: Rebound(before, ws, id)
  }

  predicate IsStamped(ws: Workspace, version: nat, id: string) {
    ws.route.routeVersion == version && ws.route.operationID == id
  }

  lemma SameIsStamped(memory: seq<Workspace>, version: nat, id: string)
    ensures Stamped(memory, memory, version, id)
  {
  }

  /** The versions of a published candidate. */
  lemma PublishedIsBelow(memory: seq<Workspace>, candidate: seq<Workspace>, version: nat, id: string)
    requires VersionsBelow(memory, version) && Stamped(memory, candidate, version, id)
    ensures VersionsBelow(Published(candidate), version)
  {
    forall ws | ws in Published(candidate)
      ensures ws.route.routeVersion <= version && AppsBelow(ws, version)
    {
      var i :| 0 <= i < |candidate| && ws == Projected(candidate[i]);
      assert StampedOne(memory, candidate[i], version, id);
    }
  }

  lemma BelowLater(wss: seq<Workspace>, next: nat, later: nat)
    requires VersionsBelow(wss, next) && next <= later
    ensures VersionsBelow(wss, later)
  {
    forall ws | ws in wss
      ensures AppsBelow(ws, later)
    {
      assert AppsBelow(ws, next);
    }
  }

  // ---- The operations on applications ----

  lemma NameIsIssuedLater(tokens: nat, later: nat, id: string)
    requires Issued(tokens, id) && tokens <= later
    ensures Issued(later, id)
  {
  }

  lemma TracedLater(tokens: nat, later: nat, ws: Workspace)
    requires Traced(tokens, ws) && tokens <= later
    ensures Traced(later, ws)
  {
    forall app | app in ws.applications && app.lastOperation.Some?
      ensures Issued(later, app.lastOperation.value.operationID)
    {
      NameIsIssuedLater(tokens, later, app.lastOperation.value.operationID);
    }
  }

  lemma OperationsIssuedLater(tokens: nat, later: nat, wss: seq<Workspace>)
    requires OperationsIssued(tokens, wss) && tokens <= later
    ensures OperationsIssued(later, wss)
  {
    forall ws | ws in wss ensures Traced(later, ws) { TracedLater(tokens, later, ws); }
  }

  lemma ProjectedIsTraced(tokens: nat, ws: Workspace)
    requires Traced(tokens, ws)
    ensures Traced(tokens, Projected(ws))
  {
    var after := Projected(ws);
    forall app | app in after.applications && app.lastOperation.Some?
      ensures Issued(tokens, app.lastOperation.value.operationID)
    {
      var i :| 0 <= i < |ws.applications| && app == ProjectedApp(ws, ws.applications[i]);
      assert ws.applications[i] in ws.applications;
    }
  }

  lemma PublishedIsIssued(tokens: nat, wss: seq<Workspace>)
    requires OperationsIssued(tokens, wss)
    ensures OperationsIssued(tokens, Published(wss))
  {
    forall ws | ws in Published(wss)
      ensures Traced(tokens, ws)
    {
      var i :| 0 <= i < |wss| && ws == Projected(wss[i]);
      assert wss[i] in wss;
      ProjectedIsTraced(tokens, wss[i]);
    }
  }

  // ---- Honest caches ----

  lemma {:induction false} RecordedElsewhere(rules: Rules, cache: Cache, wss: seq<Workspace>, id: string)
    requires forall ws | ws in wss :: ws.workspaceID != id
    ensures CachedAt(Recorded(rules.routes, cache, wss), id) == CachedAt(cache, id)
  {
    if wss != [] {
      RecordedElsewhere(rules, cache, wss[..|wss| - 1], id);
    }
  }

  lemma SameIDSameWorkspace(wss: seq<Workspace>, a: Workspace, b: Workspace)
    requires UniqueIDs(wss) && a in wss && b in wss && a.workspaceID == b.workspaceID
    ensures a == b
  {
    var i :| 0 <= i < |wss| && wss[i] == a;
    var j :| 0 <= j < |wss| && wss[j] == b;
  }

  /** Recording workspaces is honest about them. */
  lemma RecordingIsHonest(rules: Rules, cache: Cache, wss: seq<Workspace>)
    requires UniqueIDs(wss)
    ensures Honest(rules, wss, Recorded(rules.routes, cache, wss))
  {
    forall ws | ws in wss && ReportedVerified(Recorded(rules.routes, cache, wss), ws)
      ensures Recorded(rules.routes, cache, wss)[ws.workspaceID].routes == Some(rules.routes(ws))
    {
      RecordedAt(rules.routes, cache, wss, ws);
    }
  }

  /** What is honest about a candidate is honest about what is published of it. */
  lemma HonestIsPublished(rules: Rules, wss: seq<Workspace>, cache: Cache)
    requires Lawful(rules) && Honest(rules, wss, cache)
    ensures Honest(rules, Published(wss), cache)
  {
    forall ws | ws in Published(wss) && ReportedVerified(cache, ws)
      ensures cache[ws.workspaceID].routes == Some(rules.routes(ws))
    {
      var i :| 0 <= i < |wss| && ws == Projected(wss[i]);
      assert wss[i] in wss && ReportedVerified(cache, wss[i]);
      ProjectedIsAlike(wss[i]);
    }
  }

  /** A workspace of the candidate that kept its version routes as it did. */
  lemma UnstampedRoutesAlike(rules: Rules, memory: seq<Workspace>, c: Workspace, ws: Workspace, version: nat,
                             id: string)
    requires Lawful(rules) && UniqueIDs(memory) && ws in memory && c.workspaceID == ws.workspaceID
    requires StampedOne(memory, c, version, id) && c.route.routeVersion < version
    ensures rules.routes(c) == rules.routes(ws)
  {
    if c in memory {
      SameIDSameWorkspace(memory, c, ws);
    } else {
      var before :| before in memory && Rebound(before, c, id);
      SameIDSameWorkspace(memory, before, ws);
      assert Alike(before, c);
    }
  }

  /** Recording a candidate that is then given up is honest about the old workspaces: those it
      changed have a version of their own, even if that version is handed out again later. */
  lemma RecordingACandidateIsHonest(rules: Rules, cache: Cache, memory: seq<Workspace>, candidate: seq<Workspace>,
                                    version: nat, id: string)
    requires UniqueIDs(memory) && UniqueIDs(candidate)
    requires Lawful(rules) && Honest(rules, memory, cache) && Stamped(memory, candidate, version, id)
    requires forall ws | ws in memory :: ws.route.routeVersion < version
    ensures Honest(rules, memory, Recorded(rules.routes, cache, candidate))
  {
    var after := Recorded(rules.routes, cache, candidate);
    forall ws | ws in memory && ReportedVerified(after, ws)
      ensures after[ws.workspaceID].routes == Some(rules.routes(ws))
    {
      if c :| c in candidate && c.workspaceID == ws.workspaceID {
        RecordedAt(rules.routes, cache, candidate, c);
        assert c.route.routeVersion == ws.route.routeVersion && StampedOne(memory, c, version, id);
        UnstampedRoutesAlike(rules, memory, c, ws, version, id);
      } else {
        RecordedElsewhere(rules, cache, candidate, ws.workspaceID);
        assert CachedAt(after, ws.workspaceID) == CachedAt(cache, ws.workspaceID);
      }
    }
  }

  lemma CacheLeftIsHonest(rules: Rules, a: Sys, candidate: seq<Workspace>, version: nat, id: string, cache: Cache)
    requires UniqueIDs(a.memory) && UniqueIDs(candidate)
    requires Lawful(rules) && Honest(rules, a.memory, a.cache) && Stamped(a.memory, candidate, version, id)
    requires forall ws | ws in a.memory :: ws.route.routeVersion < version
    requires CacheLeft(rules, a, candidate, cache)
    ensures Honest(rules, a.memory, cache)
  {
    RecordingACandidateIsHonest(rules, a.cache, a.memory, candidate, version, id);
    RecordingIsHonest(rules, a.cache, a.memory);
    RecordingIsHonest(rules, Recorded(rules.routes, a.cache, candidate), a.memory);
  }

  lemma IssuedLater(tokens: nat, later: nat, journal: seq<JournalEntry>)
    requires EntriesIssued(tokens, journal) && tokens <= later
    ensures EntriesIssued(later, journal)
  {
    forall e | e in journal
      ensures Issued(later, e.operationID)
    {
      assert Issued(tokens, e.operationID);
    }
  }

  lemma PutIsIssued(tokens: nat, journal: seq<JournalEntry>, e: JournalEntry)
    requires EntriesIssued(tokens, journal) && Issued(tokens, e.operationID)
    ensures EntriesIssued(tokens, Put(journal, e))
  {
    forall x | x in Put(journal, e)
      ensures Issued(tokens, x.operationID)
    {
      PutHas(journal, e, x);
    }
  }

  /** The state a transaction starts from, with the version and the name it was given. */
  ghost predicate Starts(rules: Rules, a: Sys, candidate: seq<Workspace>, e: JournalEntry) {
    && Good(rules, a) && UniqueIDs(candidate)
    && e.routeVersion == a.next + 1 && e.operationID == OperationName(a.tokens)
    && Stamped(a.memory, candidate, e.routeVersion, e.operationID) && OperationsIssued(a.tokens + 1, candidate)
  }

  /** Giving a transaction up keeps the invariant, also when its version is released. */
  lemma AbandoningKeepsGood(rules: Rules, a: Sys, candidate: seq<Workspace>, e: JournalEntry, end: Ended, b: Sys)
    requires Starts(rules, a, candidate, e) && Abandoned(rules, Begun(a), candidate, e, end, b)
    ensures Good(rules, b)
  {
    CacheLeftIsHonest(rules, Begun(a), candidate, e.routeVersion, e.operationID, b.cache);
    NextNameIsFresh(a.tokens);
    OperationsIssuedLater(a.tokens, a.tokens + 1, a.memory);
    IssuedLater(a.tokens, a.tokens + 1, a.disk.journal);
    if b.disk.journal != a.disk.journal {
      var f :| Advances(e, f) && f.status != Committed && b.disk.journal == Put(a.disk.journal, f);
      PutIsIssued(a.tokens + 1, a.disk.journal, f);
    }
  }

  /** What a committed candidate makes of memory. */
  lemma PublishingKeepsGood(rules: Rules, a: Sys, candidate: seq<Workspace>, e: JournalEntry)
    requires Starts(rules, a, candidate, e)
    ensures UniqueIDs(Published(candidate)) && VersionsBelow(Published(candidate), a.next + 1)
    ensures Honest(rules, Published(candidate), Recorded(rules.routes, a.cache, candidate))
    ensures OperationsIssued(a.tokens + 1, Published(candidate))
  {
    BelowLater(a.memory, a.next, a.next + 1);
    PublishedIsBelow(a.memory, candidate, e.routeVersion, e.operationID);
    PublishedIsUnique(candidate);
    PublishedIsIssued(a.tokens + 1, candidate);
    RecordingIsHonest(rules, a.cache, candidate);
    HonestIsPublished(rules, candidate, Recorded(rules.routes, a.cache, candidate));
  }

  lemma CommittingKeepsGood(rules: Rules, a: Sys, candidate: seq<Workspace>, e: JournalEntry, key: string,
                            intent: Intent, result: Result, reported: Result, b: Sys)
    requires Starts(rules, a, candidate, e)
    requires CommitStep(rules, Begun(a), candidate, e, key, intent, result, reported, b)
    ensures Good(rules, b)
  {
    PublishingKeepsGood(rules, a, candidate, e);
    NextNameIsFresh(a.tokens);
    IssuedLater(a.tokens, a.tokens + 1, a.disk.journal);
    PutIsIssued(a.tokens + 1, a.disk.journal, e.(status := Committed, result := Some(result)));
    PutIsIssued(a.tokens + 1, a.disk.journal, e.(status := ProxyApplied));
  }

  lemma ReplacingStamps(memory: seq<Workspace>, i: nat, ws: Workspace, version: nat, id: string)
    requires i < |memory| && IsStamped(ws, version, id)
    ensures Stamped(memory, memory[i := ws], version, id)
  {
    var after := memory[i := ws];
    forall w | w in after
      ensures StampedOne(memory, w, version, id)
    {
      var k :| 0 <= k < |after| && after[k] == w;
      assert k != i ==> memory[k] in memory;
    }
  }

  lemma ReplacingIsIssued(tokens: nat, memory: seq<Workspace>, i: nat, ws: Workspace)
    requires i < |memory| && OperationsIssued(tokens, memory) && Traced(tokens, ws)
    ensures OperationsIssued(tokens, memory[i := ws])
  {
    var after := memory[i := ws];
    forall w | w in after
      ensures Traced(tokens, w)
    {
      var k :| 0 <= k < |after| && after[k] == w;
      assert k != i ==> memory[k] in memory;
    }
  }

  lemma EditedIsTraced(tokens: nat, ws: Workspace, index: nat, edited: Application, op: Operation)
    requires index < |ws.applications| && Traced(tokens, ws) && Issued(tokens, op.operationID)
    ensures Traced(tokens, EditedWorkspace(ws, index, edited, op))
  {
    var after := EditedWorkspace(ws, index, edited, op);
    forall app | app in after.applications && app.lastOperation.Some?
      ensures Issued(tokens, app.lastOperation.value.operationID)
    {
      var k :| 0 <= k < |after.applications| && after.applications[k] == app;
      assert k != index ==> ws.applications[k] in ws.applications;
    }
  }

  lemma StampAllIsTraced(tokens: nat, ws: Workspace, op: Operation)
    requires Issued(tokens, op.operationID)
    ensures Traced(tokens, StampAll(ws, op))
  {
  }

  lemma PlannedStarts(rules: Rules, a: Sys, i: nat, planned: Planned, op: Operation, e: JournalEntry)
    requires Good(rules, a) && i < |a.memory| && LawfulPlan(a.memory[i], planned)
    requires op.routeVersion == a.next + 1 == e.routeVersion && e.status == Prepared
    requires e.operationID == OperationName(a.tokens) == op.operationID
    ensures Applicable(a.memory, i, planned) && Starts(rules, a, PlannedCandidate(a.memory, i, planned, op), e)
  {
    PlannedIsReady(rules, a, i, planned, op, e);
    NextNameIsFresh(a.tokens);
    OperationsIssuedLater(a.tokens, a.tokens + 1, a.memory);
    var changed := EditedWorkspace(a.memory[i], planned.index, planned.edited, op);
    assert a.memory[i] in a.memory;
    EditedIsTraced(a.tokens + 1, a.memory[i], planned.index, planned.edited, op);
    ReplacingIsIssued(a.tokens + 1, a.memory, i, changed);
    ReplacingStamps(a.memory, i, changed, e.routeVersion, e.operationID);
  }

  lemma BeginningKeepsGood(rules: Rules, a: Sys)
    requires Good(rules, a)
    ensures Good(rules, Begun(a)) && Good(rules, a.(tokens := a.tokens + 1))
  {
    IssuedLater(a.tokens, a.tokens + 1, a.disk.journal);
    OperationsIssuedLater(a.tokens, a.tokens + 1, a.memory);
    BelowLater(a.memory, a.next, a.next + 1);
  }

  lemma ProceedKeepsGood(rules: Rules, a: Sys, i: nat, planned: Planned, intent: Intent, wsID: string, req: Request,
                         out: Outcome, b: Sys)
    requires Good(rules, a) && i < |a.memory| && LawfulPlan(a.memory[i], planned)
    requires ProceedStep(rules, a, i, planned, intent, wsID, req, out, b)
    ensures Good(rules, b)
  {
    var op := Begins(a, "route-apply", req.correlationID);
    var e := ApplyEntry(wsID, TrimSpace(req.key), intent, op, a.memory[i].route.routeVersion);
    var candidate := PlannedCandidate(a.memory, i, planned, op);
    PlannedStarts(rules, a, i, planned, op, e);
    match out {
      case Refused(_) => BeginningKeepsGood(rules, a);
      case NotApplied(end) => AbandoningKeepsGood(rules, a, candidate, e, end, b);
      case CommittedAs(reported) =>
        CommittingKeepsGood(rules, a, candidate, e, TrimSpace(req.key), intent, AppliedResult(planned.plan, op, true),
                            reported, b);
    }
  }

  lemma NoOpKeepsGood(rules: Rules, a: Sys, ws: Workspace, planned: Planned, intent: Intent, wsID: string, req: Request,
                      out: Outcome, b: Sys)
    requires Good(rules, a) && NoOpStep(a, ws, planned, intent, wsID, req, out, b)
    ensures Good(rules, b)
  {
    NextNameIsFresh(a.tokens);
    BeginningKeepsGood(rules, a);
    var op := NoOpOperation(a, ws, req.correlationID);
    PutIsIssued(a.tokens + 1, a.disk.journal,
                NoOpEntry(wsID, TrimSpace(req.key), intent, op, NoOpResult(a, ws, planned, op)));
  }

  /** What a decision was based on. */
  lemma DecisionIsPlanned(rules: Rules, memory: seq<Workspace>, replay: Replay, wsID: string, req: Request)
    requires Lawful(rules)
    ensures var d := Decide(rules, memory, replay, wsID, req);
      d.NoOp? || d.Proceed? ==>
        && Names(memory, wsID, d.i) && rules.plan(memory[d.i], Input(d.intent, req.strict)) == Some(d.planned)
        && LawfulPlan(memory[d.i], d.planned)
        && !Stale(req, memory[d.i].route.routeVersion)
        && (req.fingerprint.Some? ==> req.fingerprint.value == d.planned.plan)
        && Check(rules.mode, wsID, req) == Fine(d.intent)
        && (TrimSpace(req.key) != "" ==> (wsID, TrimSpace(req.key)) !in replay)
  {
  }

  /** Every request keeps the invariant. */
  lemma ApplyKeepsGood(rules: Rules, a: Sys, wsID: string, req: Request, out: Outcome, b: Sys)
    requires Good(rules, a) && ApplyStep(rules, a, wsID, req, out, b)
    ensures Good(rules, b)
  {
    DecisionIsPlanned(rules, a.memory, a.replay, wsID, req);
    match Decide(rules, a.memory, a.replay, wsID, req) {
      case Refuse(_) =>
      case Again(_) =>
      case NoOp(i, planned, intent) => NoOpKeepsGood(rules, a, a.memory[i], planned, intent, wsID, req, out, b);
      case Proceed(i, planned, intent) => ProceedKeepsGood(rules, a, i, planned, intent, wsID, req, out, b);
    }
  }

  lemma RepairStarts(rules: Rules, a: Sys, wsID: string, i: nat, correlationID: string)
    requires Good(rules, a) && i < |a.memory|
    ensures Starts(rules, a, RepairCandidate(a, i, correlationID), RepairEntry(a, wsID, i, correlationID))
  {
    var op, e := RepairOperation(a, correlationID), RepairEntry(a, wsID, i, correlationID);
    SyncIsReady(rules, a, i, op, e);
    NextNameIsFresh(a.tokens);
    OperationsIssuedLater(a.tokens, a.tokens + 1, a.memory);
    StampAllIsTraced(a.tokens + 1, a.memory[i], op);
    ReplacingIsIssued(a.tokens + 1, a.memory, i, StampAll(a.memory[i], op));
    ReplacingStamps(a.memory, i, StampAll(a.memory[i], op), e.routeVersion, e.operationID);
  }

  lemma RepairedIsGood(rules: Rules, a: Sys, candidate: seq<Workspace>, e: JournalEntry, written: bool, b: Sys)
    requires Starts(rules, a, candidate, e)
    requires b == Begun(a).(memory := Published(candidate), cache := Recorded(rules.routes, a.cache, candidate),
                            proxy := Serving(candidate),
                            disk := Disk(Published(candidate), Finished(a.disk.journal, e, None, written)))
    ensures Good(rules, b)
  {
    PublishingKeepsGood(rules, a, candidate, e);
    NextNameIsFresh(a.tokens);
    IssuedLater(a.tokens, a.tokens + 1, a.disk.journal);
    PutIsIssued(a.tokens + 1, a.disk.journal, e.(status := Committed, result := None));
    PutIsIssued(a.tokens + 1, a.disk.journal, e.(status := ProxyApplied));
  }

  lemma RepairKeepsGood(rules: Rules, a: Sys, wsID: string, i: nat, correlationID: string, out: SyncOutcome, b: Sys)
    requires Good(rules, a) && i < |a.memory| && RepairStep(rules, a, wsID, i, correlationID, out, b)
    ensures Good(rules, b)
  {
    var candidate, e := RepairCandidate(a, i, correlationID), RepairEntry(a, wsID, i, correlationID);
    RepairStarts(rules, a, wsID, i, correlationID);
    match out {
      case SyncNotApplied(end) => AbandoningKeepsGood(rules, a, candidate, e, end, b);
      case Repaired(_, degraded) => RepairedIsGood(rules, a, candidate, e, !degraded, b);
    }
  }

  /** Every synchronisation keeps the invariant. */
  lemma SyncKeepsGood(rules: Rules, a: Sys, wsID: string, correlationID: string, repair: bool, out: SyncOutcome, b: Sys)
    requires Good(rules, a) && SyncStep(rules, a, wsID, correlationID, repair, out, b)
    ensures Good(rules, b)
  {
    var found := IndexOf(a.memory, wsID);
    if found.Some? {
      match out {
        case SyncRefused(_) =>
        case Drift =>
        case InSync(_) =>
          RecordingIsHonest(rules, a.cache, a.memory);
          BeginningKeepsGood(rules, a);
        case SyncNotApplied(_) => RepairKeepsGood(rules, a, wsID, found.value, correlationID, out, b);
        case Repaired(_, _) => RepairKeepsGood(rules, a, wsID, found.value, correlationID, out, b);
      }
    }
  }

  /** Being in sync is said of a proxy whose file is what memory says, and leaves the cache
      saying so; unless the last apply failed, that is also what the proxy serves. */
  lemma InSyncIsVerified(rules: Rules, a: Sys, wsID: string, correlationID: string, repair: bool, out: SyncOutcome,
                         b: Sys)
    requires Good(rules, a) && SyncStep(rules, a, wsID, correlationID, repair, out, b) && out.InSync?
    ensures InFile(rules.render, b.proxy, b.memory) && b.memory == a.memory
    ensures b.proxy.Serving? ==> rules.render(b.proxy.workspaces) == rules.render(b.memory)
    ensures exists ws | ws in b.memory && ws.workspaceID == wsID ::
      ReportedVerified(b.cache, ws) && b.cache[wsID].routes == Some(rules.routes(ws))
  {
    var ws := a.memory[IndexOf(a.memory, wsID).value];
    RecordedAt(rules.routes, a.cache, a.memory, ws);
    assert ReportedVerified(b.cache, ws);
  }
}
