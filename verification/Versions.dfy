/** What the version of a workspace stands for, over whole runs: its routes, and the workspace
    itself until an alias is registered for an identity it binds. */
module Versions {
  import opened Text
  import opened Model
  import opened Relevance
  import opened Protocol
  import opened Transaction
  import opened Requests
  import opened Invariants
  import opened Mutations
  import opened Changes
  import opened Recovery
  import opened Runs

  // ---- Operations written on bindings only ----

  /** The operation is written on some application but not on the workspace. */
  predicate OnBindingsOnly(ws: Workspace, version: nat, id: string) {
    !IsStamped(ws, version, id) && exists app | app in ws.applications :: Carries(app, id)
  }

  predicate BindsIn(a: Sys, c: seq<Workspace>, id: string) {
    exists ws | ws in c :: ws.workspaceID == id && OnBindingsOnly(ws, a.next + 1, OperationName(a.tokens))
  }

  /** The change went through: it returned success, or it crashed with its rows saved. */
  predicate GoesThrough(a: Sys, ev: Event) {
    || (ev.Changed? && ev.changed.Mutated?)
    || (ev.CrashedChange? && ev.change.accepts(a.memory)
        && ev.disk.durable == Published(MutateCandidate(a, ev.change, ev.correlationID)))
  }

  /** The event is a change that goes through and writes its operation on bindings of this
      workspace only. */
  predicate Rebinds(a: Sys, ev: Event, id: string) {
    GoesThrough(a, ev) && BindsIn(a, MutateCandidate(a, ev.change, ev.correlationID), id)
  }

  lemma FreshIsNotCarried(rules: Rules, a: Sys, ws: Workspace, app: Application)
    requires Good(rules, a) && ws in a.memory && app in ws.applications
    ensures !Carries(app, OperationName(a.tokens))
  {
    NextNameIsFresh(a.tokens);
    assert Traced(a.tokens, ws);
  }

  /** Every workspace of a candidate is as it was or stamped. */
  ghost predicate Whole(a: Sys, c: seq<Workspace>) {
    forall ws | ws in c :: ws in a.memory || IsStamped(ws, a.next + 1, OperationName(a.tokens))
  }

  lemma WholeBindsNothing(rules: Rules, a: Sys, c: seq<Workspace>, id: string)
    requires Good(rules, a) && Whole(a, c)
    ensures !BindsIn(a, c, id)
  {
    forall ws, app | ws in c && ws in a.memory && app in ws.applications
      ensures !Carries(app, OperationName(a.tokens))
    {
      FreshIsNotCarried(rules, a, ws, app);
    }
  }

  /** No other change than registering an alias does that. */
  lemma StampingRebindsNothing(rules: Rules, a: Sys, ev: Event, b: Sys, id: string)
    requires Good(rules, a) && Step(rules, a, ev, b) && (ev.Changed? || ev.CrashedChange?) && StampsWhole(ev.change)
    ensures !Rebinds(a, ev, id)
  {
    if GoesThrough(a, ev) {
      var c := MutateCandidate(a, ev.change, ev.correlationID);
      assert Whole(a, c);
      WholeBindsNothing(rules, a, c, id);
    }
  }

  // ---- How a step moves memory ----

  /** Memory stays, or becomes what is published of a candidate. */
  ghost predicate Moves(a: Sys, c: seq<Workspace>, b: Sys) {
    && Stamped(a.memory, c, a.next + 1, OperationName(a.tokens))
    && (b.memory == Published(c) || (b.memory == a.memory && c == a.memory))
  }

  lemma ReachedDurable(start: Disk, candidate: seq<Workspace>, e: JournalEntry, result: Option<Result>, d: Disk)
    requires Reached(start, candidate, e, result, d)
    ensures d.durable == start.durable || d.durable == Published(candidate)
  {
  }

  lemma StayingMoves(a: Sys, b: Sys) returns (c: seq<Workspace>)
    requires b.memory == a.memory
    ensures c == a.memory && Moves(a, c, b) && Whole(a, c)
  {
    c := a.memory;
    SameIsStamped(a.memory, a.next + 1, OperationName(a.tokens));
  }

  lemma ReplacingMoves(a: Sys, i: nat, ws: Workspace, b: Sys) returns (c: seq<Workspace>)
    requires i < |a.memory| && IsStamped(ws, a.next + 1, OperationName(a.tokens))
    requires b.memory == a.memory || b.memory == Published(a.memory[i := ws])
    ensures Moves(a, c, b) && Whole(a, c)
  {
    if b.memory == a.memory {
      c := StayingMoves(a, b);
    } else {
      c := a.memory[i := ws];
      ReplacingStamps(a.memory, i, ws, a.next + 1, OperationName(a.tokens));
      forall w | w in c
        ensures w in a.memory || w == ws
      {
        var k :| 0 <= k < |c| && c[k] == w;
        assert k != i ==> a.memory[k] in a.memory;
      }
    }
  }

  lemma PlanMoves(a: Sys, i: nat, planned: Planned, req: Request, b: Sys) returns (c: seq<Workspace>)
    requires Applicable(a.memory, i, planned)
    requires b.memory == a.memory
      || b.memory == Published(PlannedCandidate(a.memory, i, planned, Begins(a, "route-apply", req.correlationID)))
    ensures Moves(a, c, b) && Whole(a, c)
  {
    var op := Begins(a, "route-apply", req.correlationID);
    c := ReplacingMoves(a, i, EditedWorkspace(a.memory[i], planned.index, planned.edited, op), b);
  }

  lemma RequestMoves(rules: Rules, a: Sys, wsID: string, req: Request, out: Outcome, b: Sys) returns (c: seq<Workspace>)
    requires Good(rules, a) && ApplyStep(rules, a, wsID, req, out, b)
    ensures Moves(a, c, b) && Whole(a, c)
  {
    DecisionIsPlanned(rules, a.memory, a.replay, wsID, req);
    match Decide(rules, a.memory, a.replay, wsID, req) {
      case Proceed(i, planned, intent) => c := PlanMoves(a, i, planned, req, b);
      case _ => c := StayingMoves(a, b);
    }
  }

  lemma CrashedRequestMoves(rules: Rules, a: Sys, wsID: string, req: Request, d: Disk, b: Sys)
    returns (c: seq<Workspace>)
    requires Good(rules, a) && ApplyReaches(rules, a, wsID, req, d) && b.memory == d.durable
    ensures Moves(a, c, b) && Whole(a, c)
  {
    DecisionIsPlanned(rules, a.memory, a.replay, wsID, req);
    match Decide(rules, a.memory, a.replay, wsID, req) {
      case Proceed(i, planned, intent) =>
        if d == a.disk {
          c := StayingMoves(a, b);
        } else {
          var op := Begins(a, "route-apply", req.correlationID);
          ReachedDurable(a.disk, PlannedCandidate(a.memory, i, planned, op),
                         ApplyEntry(wsID, TrimSpace(req.key), intent, op, a.memory[i].route.routeVersion),
                         Some(AppliedResult(planned.plan, op, true)), d);
          c := PlanMoves(a, i, planned, req, b);
        }
      case _ => c := StayingMoves(a, b);
    }
  }

  lemma RepairMoves(a: Sys, i: nat, correlationID: string, b: Sys) returns (c: seq<Workspace>)
    requires i < |a.memory|
    requires b.memory == a.memory || b.memory == Published(RepairCandidate(a, i, correlationID))
    ensures Moves(a, c, b) && Whole(a, c)
  {
    c := ReplacingMoves(a, i, StampAll(a.memory[i], RepairOperation(a, correlationID)), b);
  }

  lemma SyncMoves(rules: Rules, a: Sys, wsID: string, correlationID: string, repair: bool, out: SyncOutcome, b: Sys)
    returns (c: seq<Workspace>)
    requires Good(rules, a) && SyncStep(rules, a, wsID, correlationID, repair, out, b)
    ensures Moves(a, c, b) && Whole(a, c)
  {
    if out.Repaired? {
      c := RepairMoves(a, IndexOf(a.memory, wsID).value, correlationID, b);
    } else {
      c := StayingMoves(a, b);
    }
  }

  lemma CrashedSyncMoves(rules: Rules, a: Sys, wsID: string, correlationID: string, d: Disk, b: Sys)
    returns (c: seq<Workspace>)
    requires Good(rules, a) && SyncReaches(a, wsID, correlationID, d) && b.memory == d.durable
    ensures Moves(a, c, b) && Whole(a, c)
  {
    if d == a.disk {
      c := StayingMoves(a, b);
    } else {
      var i := IndexOf(a.memory, wsID).value;
      ReachedDurable(a.disk, RepairCandidate(a, i, correlationID), RepairEntry(a, wsID, i, correlationID), None, d);
      c := RepairMoves(a, i, correlationID, b);
    }
  }

  /** A change moves memory to its candidate, or, if it does not go through, not at all. */
  lemma ChangeMoves(rules: Rules, a: Sys, ev: Event, b: Sys) returns (c: seq<Workspace>)
    requires Good(rules, a) && Step(rules, a, ev, b) && (ev.Changed? || ev.CrashedChange?)
    ensures Moves(a, c, b)
    ensures if GoesThrough(a, ev) then c == MutateCandidate(a, ev.change, ev.correlationID) else Whole(a, c)
  {
    if GoesThrough(a, ev) {
      c := MutateCandidate(a, ev.change, ev.correlationID);
      ChangeStarts(rules, a, ev.change, ev.persist, ev.correlationID);
    } else {
      c := StayingMoves(a, b);
    }
  }

  lemma StepMoves(rules: Rules, a: Sys, ev: Event, b: Sys, id: string) returns (c: seq<Workspace>)
    requires Good(rules, a) && Step(rules, a, ev, b)
    ensures Moves(a, c, b) && (Rebinds(a, ev, id) <==> BindsIn(a, c, id))
  {
    match ev {
      case Requested(wsID, req, out) => c := RequestMoves(rules, a, wsID, req, out, b);
      case Synced(wsID, correlationID, repair, out) => c := SyncMoves(rules, a, wsID, correlationID, repair, out, b);
      case CrashedRequest(wsID, req, disk) => c := CrashedRequestMoves(rules, a, wsID, req, disk, b);
      case CrashedSync(wsID, correlationID, disk) => c := CrashedSyncMoves(rules, a, wsID, correlationID, disk, b);
      case _ => c := ChangeMoves(rules, a, ev, b);
    }
    if !GoesThrough(a, ev) {
      WholeBindsNothing(rules, a, c, id);
    }
  }

  // ---- Published workspaces ----

  lemma MovingAligns(a: Sys, c: seq<Workspace>, b: Sys)
    requires Moves(a, c, b)
    ensures b.memory == a.memory || Aligned(b.memory)
    ensures Consistent(a.memory) ==> Consistent(b.memory)
  {
    if b.memory == Published(c) {
      PublishedIsAligned(c);
      if Consistent(a.memory) {
        PublishedHasOperations(a, c);
      }
    }
  }

  lemma PublishedHasOperations(a: Sys, c: seq<Workspace>)
    requires Stamped(a.memory, c, a.next + 1, OperationName(a.tokens))
    requires Consistent(a.memory)
    ensures forall ws | ws in Published(c) :: ws.route.operationID != "none"
  {
    NameIsAnOperation(a.tokens);
    forall ws | ws in Published(c)
      ensures ws.route.operationID != "none"
    {
      var i :| 0 <= i < |c| && ws == Projected(c[i]);
      assert StampedOne(a.memory, c[i], a.next + 1, OperationName(a.tokens));
    }
  }

  /** Applications have the version and the operation of their workspace, in every state of a run
      that starts so. */
  lemma {:induction false} EveryStateIsConsistent(rules: Rules, run: Run, i: nat)
    requires IsRun(rules, run) && Consistent(run.states[0].memory) && i < |run.states|
    ensures Consistent(run.states[i].memory)
  {
    if i > 0 {
      EveryStateIsConsistent(rules, run, i - 1);
      EveryStateIsGood(rules, run, i - 1);
      assert StepAt(rules, run, i - 1);
      var c := StepMoves(rules, run.states[i - 1], run.events[i - 1], run.states[i], "");
      MovingAligns(run.states[i - 1], c, run.states[i]);
    }
  }

  // ---- One workspace over a step ----

  /** The same but for bindings, in what its routes do not depend on. */
  predicate Kept(was: Workspace, now: Workspace) {
    now == was.(applications := now.applications) && |now.applications| == |was.applications| && Alike(now, was)
  }

  /** An application's last operation was not handed out before. */
  ghost predicate TouchedSince(tokens: nat, ws: Workspace) {
    exists app | app in ws.applications && app.lastOperation.Some? ::
      !Issued(tokens, app.lastOperation.value.operationID)
  }

  /** From one state to a later one: a higher version, or the same version and, if its bindings
      were written on, an operation that is new; otherwise the workspace or what is published of it. */
  ghost predicate Continues(tokens: nat, was: Workspace, now: Workspace, rebound: bool) {
    || now.route.routeVersion > was.route.routeVersion
    || (Kept(was, now) && if rebound then TouchedSince(tokens, now) else now == was || now == Projected(was))
  }

  lemma ProjectedIsKept(ws: Workspace)
    ensures Kept(ws, Projected(ws))
  {
    ProjectedIsAlike(ws);
  }

  lemma KeptFurther(was: Workspace, since: Workspace, now: Workspace)
    requires Kept(was, since) && Kept(since, now)
    ensures Kept(was, now)
  {
  }

  /** The workspace of the candidate that a published one comes from. */
  lemma SourceOf(c: seq<Workspace>, now: Workspace) returns (x: Workspace)
    requires now in Published(c)
    ensures x in c && now == Projected(x)
  {
    var i :| 0 <= i < |c| && Published(c)[i] == now;
    x := c[i];
  }

  lemma OnlySource(a: Sys, c: seq<Workspace>, x: Workspace)
    requires UniqueIDs(Published(c)) && x in c
    ensures BindsIn(a, c, x.workspaceID) <==> OnBindingsOnly(x, a.next + 1, OperationName(a.tokens))
  {
    forall ws | ws in c && ws.workspaceID == x.workspaceID
      ensures ws == x
    {
      var i :| 0 <= i < |c| && c[i] == ws;
      var j :| 0 <= j < |c| && c[j] == x;
      assert Published(c)[i].workspaceID == Published(c)[j].workspaceID;
    }
  }

  lemma ReboundContinues(was: Workspace, x: Workspace, version: nat, tokens: nat)
    requires Rebound(was, x, OperationName(tokens)) && !IsStamped(x, version, OperationName(tokens))
    ensures Continues(tokens, was, Projected(x), OnBindingsOnly(x, version, OperationName(tokens)))
  {
    ProjectedIsAlike(x);
    NextNameIsFresh(tokens);
    if app :| app in x.applications && Carries(app, OperationName(tokens)) {
      var k :| 0 <= k < |x.applications| && x.applications[k] == app;
      assert Projected(x).applications[k] in Projected(x).applications;
    } else {
      assert x.applications == was.applications;
    }
  }

  lemma MovingContinues(rules: Rules, a: Sys, c: seq<Workspace>, b: Sys, was: Workspace, now: Workspace)
    requires Good(rules, a) && Good(rules, b) && Moves(a, c, b)
    requires was in a.memory && now in b.memory && was.workspaceID == now.workspaceID
    ensures Continues(a.tokens, was, now, BindsIn(a, c, was.workspaceID))
  {
    if b.memory == Published(c) {
      PublishedContinues(rules, a, c, b, was, now);
    } else {
      SameIDSameWorkspace(a.memory, was, now);
      StayingBindsNothing(rules, a, was.workspaceID);
    }
  }

  lemma ProceedSpendsNames(rules: Rules, a: Sys, i: nat, planned: Planned, intent: Intent, wsID: string, req: Request,
                           out: Outcome, b: Sys)
    requires ProceedStep(rules, a, i, planned, intent, wsID, req, out, b)
    ensures b.tokens >= a.tokens
  {
  }

  lemma RequestSpendsNames(rules: Rules, a: Sys, wsID: string, req: Request, out: Outcome, b: Sys)
    requires ApplyStep(rules, a, wsID, req, out, b)
    ensures b.tokens >= a.tokens
  {
    match Decide(rules, a.memory, a.replay, wsID, req) {
      case Proceed(i, planned, intent) => ProceedSpendsNames(rules, a, i, planned, intent, wsID, req, out, b);
      case _ =>
    }
  }

  lemma StepSpendsNames(rules: Rules, a: Sys, ev: Event, b: Sys)
    requires Step(rules, a, ev, b)
    ensures b.tokens >= a.tokens
  {
    match ev {
      case Requested(wsID, req, out) => RequestSpendsNames(rules, a, wsID, req, out, b);
      case _ =>
    }
  }

  /** What a step makes of a workspace that is registered before and after. */
  lemma StepContinues(rules: Rules, a: Sys, ev: Event, b: Sys, was: Workspace, now: Workspace)
    requires Good(rules, a) && Good(rules, b) && Step(rules, a, ev, b)
    requires was in a.memory && now in b.memory && was.workspaceID == now.workspaceID
    ensures Continues(a.tokens, was, now, Rebinds(a, ev, was.workspaceID))
  {
    var c := StepMoves(rules, a, ev, b, was.workspaceID);
    MovingContinues(rules, a, c, b, was, now);
  }

  lemma StayingBindsNothing(rules: Rules, a: Sys, id: string)
    requires Good(rules, a)
    ensures !BindsIn(a, a.memory, id)
  {
    WholeBindsNothing(rules, a, a.memory, id);
  }

  lemma PublishedContinues(rules: Rules, a: Sys, c: seq<Workspace>, b: Sys, was: Workspace, now: Workspace)
    requires Good(rules, a) && Good(rules, b) && Moves(a, c, b) && b.memory == Published(c)
    requires was in a.memory && now in b.memory && was.workspaceID == now.workspaceID
    ensures Continues(a.tokens, was, now, BindsIn(a, c, was.workspaceID))
  {
    var version, name := a.next + 1, OperationName(a.tokens);
    var x := SourceOf(c, now);
    OnlySource(a, c, x);
    assert StampedOne(a.memory, x, version, name);
    if !IsStamped(x, version, name) {
      if x in a.memory {
        SameIDSameWorkspace(a.memory, was, x);
        ProjectedIsKept(was);
        MemberBindsNothing(rules, a, x);
      } else {
        var before :| before in a.memory && Rebound(before, x, name);
        SameIDSameWorkspace(a.memory, was, before);
        ReboundContinues(was, x, version, a.tokens);
      }
    }
  }

  lemma MemberBindsNothing(rules: Rules, a: Sys, x: Workspace)
    requires Good(rules, a) && x in a.memory
    ensures !OnBindingsOnly(x, a.next + 1, OperationName(a.tokens))
  {
    forall app | app in x.applications
      ensures !Carries(app, OperationName(a.tokens))
    {
      FreshIsNotCarried(rules, a, x, app);
    }
  }

  // ---- Over a run ----

  ghost predicate RegisteredIn(states: seq<Sys>, id: string) {
    forall s | s in states :: Registered(s, id)
  }

  predicate ReboundIn(run: Run, i: nat, j: nat, id: string)
    requires |run.states| == |run.events| + 1
  {
    exists k | i <= k < j && k < |run.events| :: Rebinds(run.states[k], run.events[k], id)
  }

  lemma TouchedLater(tokens: nat, later: nat, ws: Workspace)
    requires TouchedSince(later, ws) && tokens <= later
    ensures TouchedSince(tokens, ws)
  {
    var app :| app in ws.applications && app.lastOperation.Some? && !Issued(later, app.lastOperation.value.operationID);
    if Issued(tokens, app.lastOperation.value.operationID) {
      NameIsIssuedLater(tokens, later, app.lastOperation.value.operationID);
    }
  }

  lemma ProjectionKeepsTouched(tokens: nat, ws: Workspace)
    requires TouchedSince(tokens, ws)
    ensures TouchedSince(tokens, Projected(ws))
  {
    var app :| app in ws.applications && app.lastOperation.Some?
      && !Issued(tokens, app.lastOperation.value.operationID);
    var k :| 0 <= k < |ws.applications| && ws.applications[k] == app;
    assert Projected(ws).applications[k] in Projected(ws).applications;
  }

  lemma ContinuesFurther(tokens: nat, was: Workspace, since: Workspace, rebound: bool, later: nat, now: Workspace,
                         again: bool)
    requires Continues(tokens, was, since, rebound) && Continues(later, since, now, again) && tokens <= later
    ensures Continues(tokens, was, now, rebound || again)
  {
    if now.route.routeVersion <= was.route.routeVersion {
      KeptFurther(was, since, now);
      if again {
        TouchedLater(tokens, later, now);
      } else if rebound {
        ProjectionKeepsTouched(tokens, since);
      } else {
        ProjectedTwice(was);
      }
    }
  }

  lemma EventContinues(rules: Rules, run: Run, k: nat, id: string)
    requires IsRun(rules, run) && k < |run.events| && Registered(run.states[k], id) && Registered(run.states[k + 1], id)
    ensures run.states[k].tokens <= run.states[k + 1].tokens
    ensures Continues(run.states[k].tokens, WorkspaceOf(run.states[k], id), WorkspaceOf(run.states[k + 1], id),
                      Rebinds(run.states[k], run.events[k], id))
  {
    var a, b := run.states[k], run.states[k + 1];
    EveryStateIsGood(rules, run, k);
    EveryStateIsGood(rules, run, k + 1);
    assert StepAt(rules, run, k);
    StepSpendsNames(rules, a, run.events[k], b);
    StepContinues(rules, a, run.events[k], b, WorkspaceOf(a, id), WorkspaceOf(b, id));
  }

  lemma ReboundByNext(run: Run, i: nat, k: nat, id: string)
    requires |run.states| == |run.events| + 1 && i <= k < |run.events|
    ensures ReboundIn(run, i, k + 1, id) <==> ReboundIn(run, i, k, id) || Rebinds(run.states[k], run.events[k], id)
  {
  }

  lemma NextContinues(rules: Rules, run: Run, i: nat, k: nat, id: string)
    requires IsRun(rules, run) && i <= k < |run.events|
    requires Registered(run.states[i], id) && Registered(run.states[k], id) && Registered(run.states[k + 1], id)
    requires run.states[i].tokens <= run.states[k].tokens
    requires Continues(run.states[i].tokens, WorkspaceOf(run.states[i], id), WorkspaceOf(run.states[k], id),
                       ReboundIn(run, i, k, id))
    ensures run.states[i].tokens <= run.states[k + 1].tokens
    ensures Continues(run.states[i].tokens, WorkspaceOf(run.states[i], id), WorkspaceOf(run.states[k + 1], id),
                      ReboundIn(run, i, k + 1, id))
  {
    EventContinues(rules, run, k, id);
    ReboundByNext(run, i, k, id);
    ContinuesFurther(run.states[i].tokens, WorkspaceOf(run.states[i], id), WorkspaceOf(run.states[k], id),
                     ReboundIn(run, i, k, id), run.states[k].tokens, WorkspaceOf(run.states[k + 1], id),
                     Rebinds(run.states[k], run.events[k], id));
  }

  lemma {:induction false} ContinuesThroughout(rules: Rules, run: Run, i: nat, j: nat, id: string)
    requires IsRun(rules, run) && i <= j < |run.states| && forall k | i <= k <= j :: Registered(run.states[k], id)
    ensures run.states[i].tokens <= run.states[j].tokens
    ensures Continues(run.states[i].tokens, WorkspaceOf(run.states[i], id), WorkspaceOf(run.states[j], id),
                      ReboundIn(run, i, j, id))
    decreases j
  {
    if i < j {
      ContinuesThroughout(rules, run, i, j - 1, id);
      NextContinues(rules, run, i, j - 1, id);
    } else {
      assert !ReboundIn(run, i, j, id);
    }
  }

  lemma TouchedIsChanged(tokens: nat, was: Workspace, now: Workspace)
    requires Traced(tokens, was) && Kept(was, now) && TouchedSince(tokens, now)
    ensures Projected(now) != Projected(was) && now != was
  {
    var app :| app in now.applications && app.lastOperation.Some?
      && !Issued(tokens, app.lastOperation.value.operationID);
    var k :| 0 <= k < |now.applications| && now.applications[k] == app;
    assert was.applications[k] in was.applications;
    assert Projected(now).applications[k].lastOperation != Projected(was).applications[k].lastOperation;
  }

  lemma ContinuedIsSameIff(tokens: nat, was: Workspace, now: Workspace, rebound: bool)
    requires Traced(tokens, was) && Continues(tokens, was, now, rebound)
    requires now.route.routeVersion <= was.route.routeVersion
    ensures Projected(now) == Projected(was) <==> !rebound
    ensures Projected(was) == was ==> (now == was <==> !rebound)
  {
    if rebound {
      TouchedIsChanged(tokens, was, now);
    } else {
      ProjectedTwice(was);
    }
  }

  /** While a workspace stays registered its version never falls, also across failed operations
      that give versions back and across restarts. The same version means the same routes. Under
      the same version the workspace is what it was, up to the versions of its applications,
      exactly when no alias was registered elsewhere for an identity it binds; and if they had its
      own version, it is the same. */
  lemma VersionsIdentifyRoutes(rules: Rules, run: Run, i: nat, j: nat, id: string)
    requires IsRun(rules, run) && i <= j < |run.states| && RegisteredIn(run.states[i..j + 1], id)
    ensures Registered(run.states[i], id) && Registered(run.states[j], id)
    ensures var was, now := WorkspaceOf(run.states[i], id), WorkspaceOf(run.states[j], id);
      && now.route.routeVersion >= was.route.routeVersion
      && (now.route.routeVersion == was.route.routeVersion ==>
            && rules.routes(now) == rules.routes(was)
            && (Projected(now) == Projected(was) <==> !ReboundIn(run, i, j, id))
            && (Projected(was) == was ==> (now == was <==> !ReboundIn(run, i, j, id))))
  {
    forall k | i <= k <= j
      ensures Registered(run.states[k], id)
    {
      assert run.states[k] == run.states[i..j + 1][k - i];
    }
    ContinuesThroughout(rules, run, i, j, id);
    EveryStateIsGood(rules, run, i);
    var was, now := WorkspaceOf(run.states[i], id), WorkspaceOf(run.states[j], id);
    if now.route.routeVersion <= was.route.routeVersion {
      assert was in run.states[i].memory && Alike(now, was);
      ContinuedIsSameIff(run.states[i].tokens, was, now, ReboundIn(run, i, j, id));
    }
  }

  // ---- Registering an alias ----

  lemma AliasCarries(token: string -> string, canonical: string, alias: string, op: Operation, ws: Workspace)
    requires forall app | app in ws.applications :: !Carries(app, op.operationID)
    ensures
      (exists app | app in BindingsOf(token, canonical, alias, op, ws).applications :: Carries(app, op.operationID))
      <==> Binds(ws, canonical)
  {
    var bound := BindingsOf(token, canonical, alias, op, ws);
    if app :| app in ws.applications && app.CanonicalAppID() == canonical {
      var k :| 0 <= k < |ws.applications| && ws.applications[k] == app;
      assert bound.applications[k] in bound.applications && Carries(bound.applications[k], op.operationID);
    }
    forall app | app in bound.applications && Carries(app, op.operationID)
      ensures Binds(ws, canonical)
    {
      var k :| 0 <= k < |bound.applications| && bound.applications[k] == app;
      assert ws.applications[k] in ws.applications;
    }
  }

  lemma AliasCandidateAt(token: string -> string, wsID: string, canonical: string, alias: string, wss: seq<Workspace>,
                         op: Operation, i: nat)
    requires i < |wss| && UniqueIDs(wss)
    ensures var after := AliasRegistered(token, wsID, canonical, alias)(wss, op);
      && |after| == |wss|
      && after[i] ==
           if wss[i].workspaceID == wsID then Stamp(BindingsOf(token, canonical, alias, op, wss[i]), op)
           else BindingsOf(token, canonical, alias, op, wss[i])
  {
    if wss[i].workspaceID == wsID {
      IndexIs(wss, wsID, i);
    }
  }

  /** It writes its operation on bindings only in every other workspace that binds the identity. */
  lemma AliasBindsIff(rules: Rules, a: Sys, token: string -> string, wsID: string, canonical: string, alias: string,
                      correlationID: string, i: nat)
    requires Good(rules, a) && i < |a.memory|
    ensures var op := Begins(a, "upsert", correlationID);
      BindsIn(a, AliasRegistered(token, wsID, canonical, alias)(a.memory, op), a.memory[i].workspaceID)
      <==> a.memory[i].workspaceID != wsID && Binds(a.memory[i], canonical)
  {
    var op := Begins(a, "upsert", correlationID);
    var c := AliasRegistered(token, wsID, canonical, alias)(a.memory, op);
    AliasCandidateAt(token, wsID, canonical, alias, a.memory, op, i);
    assert a.memory[i] in a.memory;
    forall app | app in a.memory[i].applications
      ensures !Carries(app, op.operationID)
    {
      FreshIsNotCarried(rules, a, a.memory[i], app);
    }
    AliasCarries(token, canonical, alias, op, a.memory[i]);
    forall k | 0 <= k < |c| && c[k].workspaceID == a.memory[i].workspaceID
      ensures k == i
    {
      AliasCandidateAt(token, wsID, canonical, alias, a.memory, op, k);
    }
    assert c[i] in c;
    assert BindsIn(a, c, a.memory[i].workspaceID) <==> OnBindingsOnly(c[i], a.next + 1, OperationName(a.tokens));
  }

  /** Registering an alias writes its operation on bindings only in every other workspace that
      binds the identity, and nowhere else. */
  lemma AliasRebindsIff(rules: Rules, a: Sys, token: string -> string, wsID: string, reference: string, alias: string,
                        ev: Event, b: Sys, i: nat)
    requires Good(rules, a) && Step(rules, a, ev, b) && i < |a.memory|
    requires GoesThrough(a, ev) && ev.change == RegisterAlias(token, wsID, reference, alias)
    ensures Referenced(token, wsID, reference, a.memory).Some?
    ensures Rebinds(a, ev, a.memory[i].workspaceID) <==>
      a.memory[i].workspaceID != wsID && Binds(a.memory[i], Referenced(token, wsID, reference, a.memory).value)
  {
    AliasBindsIff(rules, a, token, wsID, Referenced(token, wsID, reference, a.memory).value, alias, ev.correlationID,
                  i);
  }

  /** A valid change can go through. */
  lemma MutationOf(rules: Rules, a: Sys, required: bool, change: Change, persist: Persist, correlationID: string)
    returns (ev: Event, b: Sys)
    requires LawfulChange(change, persist) && change.accepts(a.memory)
    requires rules.valid(MutateCandidate(a, change, correlationID))
    ensures Step(rules, a, ev, b) && b.memory == Published(MutateCandidate(a, change, correlationID))
    ensures ev == Changed(required, change, persist, correlationID, Mutated(MutateOperation(a, change, correlationID)))
  {
    var candidate := MutateCandidate(a, change, correlationID);
    ev := Changed(required, change, persist, correlationID, Mutated(MutateOperation(a, change, correlationID)));
    b := Begun(a).(memory := Published(candidate), disk := a.disk.(durable := Published(candidate)),
                   cache := Recorded(rules.routes, a.cache, candidate), proxy := Serving(candidate));
  }

  /** Wherever an alias may be registered for an identity that another workspace binds too, that
      workspace changes under the version it had, its applications having that version too. */
  lemma AliasChangesUnderOneVersion(rules: Rules, a: Sys, token: string -> string, wsID: string, reference: string,
                                    alias: string, correlationID: string, i: nat)
    returns (ev: Event, b: Sys)
    requires Good(rules, a) && i < |a.memory| && a.memory[i].workspaceID != wsID
    requires RegisterAlias(token, wsID, reference, alias).accepts(a.memory)
    requires rules.valid(MutateCandidate(a, RegisterAlias(token, wsID, reference, alias), correlationID))
    requires Referenced(token, wsID, reference, a.memory).Some?
    requires Binds(a.memory[i], Referenced(token, wsID, reference, a.memory).value)
    ensures Step(rules, a, ev, b) && Rebinds(a, ev, a.memory[i].workspaceID)
    ensures Registered(b, a.memory[i].workspaceID)
    ensures var now := WorkspaceOf(b, a.memory[i].workspaceID);
      && now != a.memory[i] && now.route == a.memory[i].route && rules.routes(now) == rules.routes(a.memory[i])
      && forall app | app in now.applications :: app.route.routeVersion == now.route.routeVersion
  {
    var change, id := RegisterAlias(token, wsID, reference, alias), a.memory[i].workspaceID;
    var op := MutateOperation(a, change, correlationID);
    RegisterAliasIsLawful(token, wsID, reference, alias);
    ev, b := MutationOf(rules, a, false, change, ReplaceRows, correlationID);
    AliasRebindsIff(rules, a, token, wsID, reference, alias, ev, b, i);
    NextNameIsFresh(a.tokens);
    assert a.memory[i] in a.memory;
    SiblingsKeepTheirVersion(token, wsID, Referenced(token, wsID, reference, a.memory).value, alias, a.memory, op, i,
                             a.tokens);
    StepKeepsGood(rules, a, ev, b);
    IndexIs(b.memory, id, i);
  }

  // ---- No lost updates ----

  /** The request took effect: it returned success, or it crashed with its rows saved. */
  ghost predicate Takes(a: Sys, ev: Event) {
    (ev.Requested? && ev.out.CommittedAs?) || (ev.CrashedRequest? && ev.disk.durable != a.disk.durable)
  }

  /** What took effect was planned against the version it replaced. */
  lemma TakingFollowsThePlan(rules: Rules, a: Sys, ev: Event, b: Sys)
    requires Good(rules, a) && Step(rules, a, ev, b) && Takes(a, ev)
    ensures Registered(a, ev.wsID) && Registered(b, ev.wsID)
    ensures !Stale(ev.req, WorkspaceOf(a, ev.wsID).route.routeVersion)
    ensures ev.req.fingerprint.Some? ==>
      ev.req.fingerprint.value.baseVersion == WorkspaceOf(a, ev.wsID).route.routeVersion
    ensures WorkspaceOf(b, ev.wsID).route.routeVersion > WorkspaceOf(a, ev.wsID).route.routeVersion
  {
    var wsID, req := ev.wsID, ev.req;
    DecisionIsPlanned(rules, a.memory, a.replay, wsID, req);
    StepKeepsGood(rules, a, ev, b);
    var d := Decide(rules, a.memory, a.replay, wsID, req);
    var op := Begins(a, "route-apply", req.correlationID);
    if ev.CrashedRequest? {
      ReachedDurable(a.disk, PlannedCandidate(a.memory, d.i, d.planned, op),
                     ApplyEntry(wsID, TrimSpace(req.key), d.intent, op, a.memory[d.i].route.routeVersion),
                     Some(AppliedResult(d.planned.plan, op, true)), ev.disk);
    }
    assert b.memory == Published(PlannedCandidate(a.memory, d.i, d.planned, op));
    IndexIs(a.memory, wsID, d.i);
    IndexIs(b.memory, wsID, d.i);
    assert a.memory[d.i] in a.memory;
  }

  /** Of all plans made for one version of a workspace at most one ever takes effect. */
  lemma NoLostUpdates(rules: Rules, run: Run, i: nat, j: nat)
    requires IsRun(rules, run) && i < j < |run.events|
    requires Takes(run.states[i], run.events[i]) && Takes(run.states[j], run.events[j])
    requires run.events[i].wsID == run.events[j].wsID
    requires RegisteredIn(run.states[i..j + 1], run.events[i].wsID)
    requires run.events[i].req.fingerprint.Some? && run.events[j].req.fingerprint.Some?
    ensures run.events[i].req.fingerprint.value.baseVersion < run.events[j].req.fingerprint.value.baseVersion
  {
    var id := run.events[i].wsID;
    EveryStateIsGood(rules, run, i);
    EveryStateIsGood(rules, run, j);
    assert StepAt(rules, run, i);
    TakingFollowsThePlan(rules, run.states[i], run.events[i], run.states[i + 1]);
    assert StepAt(rules, run, j);
    TakingFollowsThePlan(rules, run.states[j], run.events[j], run.states[j + 1]);
    assert RegisteredIn(run.states[i + 1..j + 1], id) by {
      forall s | s in run.states[i + 1..j + 1] ensures Registered(s, id) { assert s in run.states[i..j + 1]; }
    }
    VersionsIdentifyRoutes(rules, run, i + 1, j, id);
  }
}
