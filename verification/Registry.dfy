/** The registry: the in-memory workspaces and the operations that change them together with
    the proxy, the database and the journal. */
module Registries {
  import opened Text
  import opened Model
  import opened Protocol
  import opened Environment
  import opened Transaction
  import opened Requests
  import opened Invariants
  import opened Mutations
  import opened Recovery

  class Registry {
    var workspaces: seq<Workspace>
    var nextRouteVersion: nat
    var effective: Cache
    var replay: Replay
    const world: World
    const rules: Rules

    /** The outcome of every compensation tried. */
    ghost var compensations: seq<bool>

    constructor (world: World, rules: Rules)
      ensures this.world == world && this.rules == rules
      ensures workspaces == [] && nextRouteVersion == 0 && effective == map[] && replay == map[]
    {
      this.world, this.rules := world, rules;
      workspaces, nextRouteVersion, effective, replay, compensations := [], 0, map[], map[], [];
    }

    ghost function Now(): Sys
      reads this, world
    {
      Sys(workspaces, nextRouteVersion, effective, replay, world.OnDisk(), world.proxy, world.tokens)
    }

    method RecordEffectiveRoutes(wss: seq<Workspace>)
      modifies this`effective
      ensures effective == Recorded(rules.routes, old(effective), wss)
    {
      ghost var before := effective;
      for i := 0 to |wss|
        invariant effective == Recorded(rules.routes, before, wss[..i])
      {
        assert wss[..i + 1][..i] == wss[..i];
        var loaded := Cached(Some(rules.routes(wss[i])), wss[i].route.routeVersion, true);
        effective := effective[wss[i].workspaceID := loaded];
      }
      assert wss[..|wss|] == wss;
    }

    method MarkRoutingUnavailable(wss: seq<Workspace>)
      modifies this`effective
      ensures effective == MarkedUnavailable(old(effective), wss)
    {
      ghost var before := effective;
      for i := 0 to |wss|
        invariant effective == MarkedUnavailable(before, wss[..i])
      {
        assert wss[..i + 1][..i] == wss[..i];
        var id := wss[i].workspaceID;
        effective := effective[id := MarkedOne(CachedAt(effective, id))];
      }
      assert wss[..|wss|] == wss;
    }

    /** The applications of one workspace in projectRouteStates. */
    method ProjectApplications(ws: Workspace) returns (projected: Workspace)
      ensures projected == Projected(ws)
    {
      var apps: seq<Application> := [];
      for i := 0 to |ws.applications|
        invariant |apps| == i && forall k | 0 <= k < i :: apps[k] == ProjectedApp(ws, ws.applications[k])
      {
        apps := apps + [ProjectedApp(ws, ws.applications[i])];
      }
      projected := ws.(applications := apps);
      assert projected.applications == Projected(ws).applications;
    }

    /** projectRouteStates */
    method ProjectRouteStates(wss: seq<Workspace>) returns (projected: seq<Workspace>)
      ensures projected == Published(wss)
    {
      projected := [];
      for i := 0 to |wss|
        invariant |projected| == i && forall k | 0 <= k < i :: projected[k] == Projected(wss[k])
      {
        var ws := ProjectApplications(wss[i]);
        projected := projected + [ws];
      }
    }

    /** applyRouting, for a provider that applies atomically. The caller's workspaces are projected
        if it succeeds. */
    method ApplyRouting(wss: seq<Workspace>, required: bool) returns (ok: bool, projected: seq<Workspace>)
      modifies this`effective, world`proxy, world`available
      ensures projected == if ok then Published(wss) else wss
      ensures ok && required ==> world.proxy == Serving(wss)
      ensures ok && required ==> effective == Recorded(rules.routes, old(effective), wss)
      ensures ok && !required ==>
        || (world.proxy == Serving(wss) && effective == Recorded(rules.routes, old(effective), wss))
        || (world.proxy == old(world.proxy) && effective == MarkedUnavailable(old(effective), wss))
      ensures !ok ==> effective == old(effective)
      ensures !ok && !world.available ==> world.proxy == old(world.proxy)
      ensures ok ==> rules.valid(wss)
    {
      if !rules.valid(wss) {
        return false, wss;
      }
      if !required {
        var up := world.Poll();
        if !up {
          MarkRoutingUnavailable(wss);
          projected := ProjectRouteStates(wss);
          return true, projected;
        }
      }
      ok := world.ApplyRouting(wss);
      projected := wss;
      if ok {
        RecordEffectiveRoutes(wss);
        projected := ProjectRouteStates(wss);
      }
    }

    /** rollbackRoute */
    method RollbackRoute(previous: seq<Workspace>) returns (ok: bool)
      modifies this`effective, this`compensations, world`proxy, world`available
      ensures ok ==> world.proxy == Serving(previous) && effective == Recorded(rules.routes, old(effective), previous)
      ensures !ok ==> effective == old(effective)
      ensures compensations == old(compensations) + [ok]
    {
      var projected;
      ok, projected := ApplyRouting(previous, true);
      compensations := compensations + [ok];
    }

    /** rollbackDurableState */
    method RollbackDurableState(previous: seq<Workspace>) returns (ok: bool)
      requires world.durable == previous && UniqueIDs(previous)
      modifies this`compensations, world`durable, world`trail
      ensures world.durable == previous
      ensures world.trail == old(world.trail) + [world.OnDisk()]
      ensures compensations == old(compensations) + [ok]
    {
      SavingAgainChangesNothing(previous);
      ok := world.SaveState(previous);
      compensations := compensations + [ok];
    }

    /** rollbackAfterApplyFailure: nothing to undo when the provider is not there. */
    method RollbackAfterApplyFailure(previous: seq<Workspace>) returns (rollback: Rollback)
      modifies this`effective, this`compensations, world`proxy, world`available
      ensures rollback in {NotRequired, Restored, RestoreFailed}
      ensures rollback == NotRequired <==> !old(world.available)
      ensures rollback == NotRequired ==> world.proxy == old(world.proxy) && compensations == old(compensations)
      ensures rollback == Restored ==>
        world.proxy == Serving(previous) && effective == Recorded(rules.routes, old(effective), previous)
      ensures rollback != Restored ==> effective == old(effective)
      ensures rollback != NotRequired ==> compensations == old(compensations) + [rollback == Restored]
    {
      if !world.available {
        return NotRequired;
      }
      var ok := RollbackRoute(previous);
      rollback := if ok then Restored else RestoreFailed;
    }

    /** releaseOperationVersion */
    method ReleaseOperationVersion(routeVersion: nat)
      modifies this`nextRouteVersion
      ensures nextRouteVersion ==
        if old(nextRouteVersion) == routeVersion > 0 then routeVersion - 1 else old(nextRouteVersion)
    {
      if nextRouteVersion == routeVersion && routeVersion > 0 {
        nextRouteVersion := routeVersion - 1;
      }
    }

    /** UpdateRouteOperation for the entry already written. */
    method AdvanceEntry(f: JournalEntry, ghost start: Disk, ghost e: JournalEntry, ghost candidate: seq<Workspace>,
                        ghost result: Option<Result>, ghost before: seq<Disk>)
      returns (ok: bool)
      requires Advances(e, f) && f.status != Committed
      requires world.durable == start.durable
      requires world.journal == start.journal || exists g :: WrittenAs(start.journal, e, g, world.journal)
      requires Walked(before, world.trail, start, candidate, e, result)
      modifies world`journal, world`trail
      ensures world.journal == if ok then Put(start.journal, f) else old(world.journal)
      ensures Walked(before, world.trail, start, candidate, e, result)
    {
      ok := world.WriteEntry(f);
      if old(world.journal) != start.journal {
        var g :| WrittenAs(start.journal, e, g, old(world.journal));
        PutTwice(start.journal, g, f);
        StepBefore(before, old(world.trail), start, candidate, e, result, if ok then f else g);
      } else if ok {
        StepBefore(before, old(world.trail), start, candidate, e, result, f);
      } else {
        WalkOn(before, old(world.trail), start, candidate, e, result, start);
      }
    }

    /** Whether any of the compensations tried since then failed. */
    ghost predicate CompensationFailed(before: seq<bool>)
      reads this
    {
      before <= compensations && false in compensations[|before|..]
    }

    /** Close the entry, best effort, and give its version back. */
    method Close(ghost a: Sys, ghost candidate: seq<Workspace>, e: JournalEntry, f: JournalEntry, stage: Stage,
                 ghost result: Option<Result>, ghost before: seq<Disk>)
      returns (end: Ended)
      requires Started(a, e) && Undone(rules, a, candidate, f.rollback, Now()) && nextRouteVersion == e.routeVersion
      requires exists g :: WrittenAs(a.disk.journal, e, g, world.journal)
      requires Advances(e, f) && f.status != Committed && f.degraded == (f.rollback == RestoreFailed)
      requires stage != AtJournal
      requires Walked(before, world.trail, a.disk, candidate, e, result)
      modifies this`nextRouteVersion, world`journal, world`trail
      ensures end == Aborted(stage, f.rollback, f.degraded)
      ensures Abandoned(rules, a, candidate, e, end, Now())
      ensures Walked(before, world.trail, a.disk, candidate, e, result)
    {
      var ok := AdvanceEntry(f, a.disk, e, candidate, result, before);
      ReleaseOperationVersion(e.routeVersion);
      end := Aborted(stage, f.rollback, f.degraded);
      if ok {
        assert WrittenAs(a.disk.journal, e, f, world.journal);
      }
    }

    /** Write the entry, then load the candidate into the proxy. */
    method ApplyCandidate(candidate: seq<Workspace>, e: JournalEntry, ghost result: Option<Result>) 
      returns (end: Ended, published: seq<Workspace>)
      requires Ready(Now(), candidate, e)
      modifies this`nextRouteVersion, this`effective, this`compensations
      modifies world`journal, world`proxy, world`available, world`trail
      ensures end.Done? ==> published == Published(candidate)
      ensures end.Done? ==> Loaded(rules, old(Now()), candidate, e, Prepared, Now())
      ensures end.Aborted? ==> Abandoned(rules, old(Now()), candidate, e, end, Now())
      ensures Walked(old(world.trail), world.trail, old(world.OnDisk()), candidate, e, result)
      ensures end.Done? ==> compensations == old(compensations) && rules.valid(candidate)
      ensures end.Aborted? ==> (end.degraded <==> CompensationFailed(old(compensations)))
    {
      ghost var start, trail := world.OnDisk(), world.trail;
      var ok := AdvanceEntry(e, start, e, candidate, result, trail);
      if !ok {
        ReleaseOperationVersion(e.routeVersion);
        return Aborted(AtJournal, NotRequired, false), candidate;
      }
      ok, published := ApplyRouting(candidate, true);
      if ok {
        return Done, published;
      }
      end := UndoApply(old(Now()), candidate, e, result, trail);
    }

    /** What follows a failed apply. */
    method UndoApply(ghost a: Sys, ghost candidate: seq<Workspace>, e: JournalEntry,
            ghost result: Option<Result>, ghost before: seq<Disk>)
      returns (end: Ended)
      requires Started(a, e)
      requires Now() == a.(disk := a.disk.(journal := Put(a.disk.journal, e)), proxy := world.proxy)
      requires !world.available ==> world.proxy == a.proxy
      requires Walked(before, world.trail, a.disk, candidate, e, result)
      modifies this`nextRouteVersion, this`effective, this`compensations
      modifies world`journal, world`proxy, world`available, world`trail
      ensures Abandoned(rules, a, candidate, e, end, Now())
      ensures Walked(before, world.trail, a.disk, candidate, e, result)
      ensures end.degraded <==> CompensationFailed(old(compensations))
    {
      assert WrittenAs(a.disk.journal, e, e, world.journal);
      var rollback := RollbackAfterApplyFailure(workspaces);
      assert compensations == old(compensations) + if rollback == NotRequired then [] else [rollback == Restored];
      end := Close(a, candidate, e, FailedEntry(e, rollback), AtProxy, result, before);
    }

    /** Note in the journal that the proxy has the candidate. */
    method MarkApplied(ghost a: Sys, candidate: seq<Workspace>, e: JournalEntry,
            ghost result: Option<Result>, ghost before: seq<Disk>)
      returns (end: Ended)
      requires Started(a, e) && Loaded(rules, a, candidate, e, Prepared, Now())
      requires Walked(before, world.trail, a.disk, candidate, e, result)
      modifies this`nextRouteVersion, this`effective, this`compensations
      modifies world`journal, world`proxy, world`available, world`trail
      ensures end.Done? ==> Loaded(rules, a, candidate, e, ProxyApplied, Now())
      ensures end.Aborted? ==> Abandoned(rules, a, candidate, e, end, Now())
      ensures Walked(before, world.trail, a.disk, candidate, e, result)
      ensures end.Done? ==> compensations == old(compensations)
      ensures end.Aborted? ==> (end.degraded <==> CompensationFailed(old(compensations)))
    {
      var previous := workspaces;
      assert WrittenAs(a.disk.journal, e, e, world.journal);
      var ok := AdvanceEntry(e.(status := ProxyApplied), a.disk, e, candidate, result, before);
      if ok {
        return Done;
      }
      ok := RollbackRoute(previous);
      var rollback := if ok then Restored else RestoreFailed;
      assert compensations == old(compensations) + [ok];
      end := Close(a, candidate, e, RolledBackEntry(e, rollback), AtProxyEntry, result, before);
    }

    /** Save the rows, then memory. */
    method CommitCandidate(ghost a: Sys, ghost candidate: seq<Workspace>, published: seq<Workspace>, e: JournalEntry,
            ghost result: Option<Result>, ghost before: seq<Disk>)
      returns (end: Ended)
      requires Ready(a, candidate, e) && Loaded(rules, a, candidate, e, ProxyApplied, Now())
      requires published == Published(candidate)
      requires Walked(before, world.trail, a.disk, candidate, e, result)
      modifies this`workspaces, this`nextRouteVersion, this`effective, this`compensations
      modifies world`durable, world`journal, world`proxy, world`available, world`trail
      ensures end.Done? ==> Completed(rules, a, candidate, e, Now())
      ensures end.Aborted? ==> Abandoned(rules, a, candidate, e, end, Now())
      ensures Walked(before, world.trail, a.disk, candidate, e, result)
      ensures end.Done? ==> compensations == old(compensations)
      ensures end.Aborted? ==> (end.degraded <==> CompensationFailed(old(compensations)))
    {
      PublishedKeepsDefinitions(workspaces, candidate);
      PublishedIsUnique(candidate);
      SaveWritesCandidate(workspaces, published);
      var ok := world.SaveState(published);
      if ok {
        StepAfter(before, old(world.trail), a.disk, candidate, e, result, false);
        workspaces := published;
        end := Done;
      } else {
        StepBefore(before, old(world.trail), a.disk, candidate, e, result, e.(status := ProxyApplied));
        end := UndoSave(a, candidate, e, result, before);
      }
    }

    /** Degraded is reported exactly when a compensation failed. */
    ghost predicate Accounted(out: Outcome, before: seq<bool>)
      reads this
    {
      if out.NotApplied? then out.end.Aborted? && (out.end.degraded <==> CompensationFailed(before))
      else compensations == before
    }

    /** The transaction proper; memory changes only after the proxy and the rows have. */
    method Transact(candidate: seq<Workspace>, e: JournalEntry, ghost result: Option<Result>) returns (end: Ended)
      requires Ready(Now(), candidate, e)
      modifies this`workspaces, this`nextRouteVersion, this`effective, this`compensations
      modifies world`durable, world`journal, world`proxy, world`available, world`trail
      ensures end.Done? ==> Completed(rules, old(Now()), candidate, e, Now())
      ensures end.Aborted? ==> Abandoned(rules, old(Now()), candidate, e, end, Now())
      ensures Walked(old(world.trail), world.trail, old(world.OnDisk()), candidate, e, result)
      ensures end.Done? ==> compensations == old(compensations) && rules.valid(candidate)
      ensures end.Aborted? ==> (end.degraded <==> CompensationFailed(old(compensations)))
    {
      var published;
      end, published := ApplyCandidate(candidate, e, result);
      if end.Done? {
        end := MarkApplied(old(Now()), candidate, e, result, old(world.trail));
      }
      if end.Done? {
        end := CommitCandidate(old(Now()), candidate, published, e, result, old(world.trail));
      }
    }

    /** What follows a failed state save: put the rows and the proxy back. */
    method UndoSave(ghost a: Sys, ghost candidate: seq<Workspace>, e: JournalEntry,
            ghost result: Option<Result>, ghost before: seq<Disk>)
      returns (end: Ended)
      requires Started(a, e) && UniqueIDs(a.memory)
      requires Loaded(rules, a, candidate, e, ProxyApplied, Now())
      requires Walked(before, world.trail, a.disk, candidate, e, result)
      modifies this`nextRouteVersion, this`effective, this`compensations
      modifies world`durable, world`journal, world`proxy, world`available, world`trail
      ensures Abandoned(rules, a, candidate, e, end, Now())
      ensures Walked(before, world.trail, a.disk, candidate, e, result)
      ensures end.Aborted? && (end.degraded <==> CompensationFailed(old(compensations)))
    {
      var durable := RollbackDurableState(workspaces);
      StepBefore(before, old(world.trail), a.disk, candidate, e, result, e.(status := ProxyApplied));
      var proxy;
      end, proxy := UndoLoad(a, candidate, e, durable, result, before);
      assert compensations == old(compensations) + [durable, proxy];
    }

    /** The proxy half of that, and the entry. */
    method UndoLoad(ghost a: Sys, ghost candidate: seq<Workspace>, e: JournalEntry, durable: bool,
            ghost result: Option<Result>, ghost before: seq<Disk>)
      returns (end: Ended, proxy: bool)
      requires Started(a, e)
      requires Loaded(rules, a, candidate, e, ProxyApplied, Now())
      requires Walked(before, world.trail, a.disk, candidate, e, result)
      modifies this`nextRouteVersion, this`effective, this`compensations
      modifies world`journal, world`proxy, world`available, world`trail
      ensures Abandoned(rules, a, candidate, e, end, Now())
      ensures Walked(before, world.trail, a.disk, candidate, e, result)
      ensures compensations == old(compensations) + [proxy] && end.Aborted? && end.degraded == !(durable && proxy)
    {
      assert WrittenAs(a.disk.journal, e, e.(status := ProxyApplied), world.journal);
      proxy := RollbackRoute(workspaces);
      var rollback := if proxy && durable then Restored else RestoreFailed;
      end := Close(a, candidate, e, RolledBackEntry(e, rollback), AtPersist, result, before);
    }

    ghost predicate Valid()
      reads this, world
    {
      Good(rules, Now())
    }

    /** findWorkspace */
    method FindWorkspace(wsID: string) returns (found: Option<nat>)
      ensures found == IndexOf(workspaces, wsID)
    {
      for i := 0 to |workspaces|
        invariant IndexOf(workspaces, wsID) == IndexFrom(workspaces, wsID, i)
      {
        if workspaces[i].workspaceID == wsID {
          return Some(i);
        }
      }
      found := None;
    }

    /** beginOperation */
    method BeginOperation(kind: string, correlationID: string) returns (op: Operation)
      modifies this`nextRouteVersion, world`tokens
      ensures op == Begins(old(Now()), kind, correlationID)
      ensures nextRouteVersion == old(nextRouteVersion) + 1 && world.tokens == old(world.tokens) + 1
    {
      nextRouteVersion := nextRouteVersion + 1;
      var id := world.NewOperationID();
      op := Operation(id, correlationID, nextRouteVersion, kind);
    }

    /** Record what a no-op answered, in memory and, best effort, in the journal. */
    method AnswerNoOp(wsID: string, ws: Workspace, planned: Planned, intent: Intent, req: Request)
      returns (out: Outcome)
      modifies this`replay, world`journal, world`trail, world`tokens
      ensures NoOpStep(old(Now()), ws, planned, intent, wsID, req, out, Now())
      ensures old(world.trail) <= world.trail
      ensures forall d | d in world.trail[|old(world.trail)|..] ::
        NoOpReaches(old(Now()), ws, planned, intent, wsID, req, d)
    {
      var key := TrimSpace(req.key);
      var id := world.NewOperationID();
      var op := Operation(id, req.correlationID, ws.route.routeVersion, "route-apply");
      var verified := Effective(effective, ws.workspaceID, planned.plan.after);
      var result := Result(Some(planned.plan), op, false, verified, Unchanged, false);
      if key != "" {
        replay := replay[(wsID, key) := Record(Some(intent), result)];
        var written := world.WriteEntry(NoOpEntry(wsID, key, intent, op, result));
      }
      out := NothingToDo(result);
    }

    /** Close a committed entry, best effort. */
    method FinishEntry(e: JournalEntry, result: Option<Result>, ghost a: Sys, ghost candidate: seq<Workspace>,
                       ghost before: seq<Disk>)
      returns (written: bool)
      requires world.OnDisk() == Disk(Published(candidate), Put(a.disk.journal, e.(status := ProxyApplied)))
      requires Walked(before, world.trail, a.disk, candidate, e, result)
      modifies world`journal, world`trail
      ensures world.journal == Finished(a.disk.journal, e, result, written)
      ensures Walked(before, world.trail, a.disk, candidate, e, result)
    {
      var f := e.(status := Committed, result := result);
      PutTwice(a.disk.journal, e.(status := ProxyApplied), f);
      written := world.WriteEntry(f);
      StepAfter(before, old(world.trail), a.disk, candidate, e, result, written);
    }

    /** Report a committed plan and remember it under its key. */
    method FinishPlan(ghost a: Sys, ghost candidate: seq<Workspace>, e: JournalEntry, i: nat, plan: Plan, op: Operation,
                      intent: Intent, ghost before: seq<Disk>)
      returns (reported: Result)
      requires Lawful(rules) && Completed(rules, a, candidate, e, Now())
      requires Walked(before, world.trail, a.disk, candidate, e, Some(AppliedResult(plan, op, true)))
      requires UniqueIDs(candidate) && i < |candidate| && candidate[i].workspaceID == e.workspaceID
      modifies this`replay, world`journal, world`trail
      ensures CommitStep(rules, a, candidate, e, e.key, intent, AppliedResult(plan, op, true), reported, Now())
      ensures Walked(before, world.trail, a.disk, candidate, e, Some(AppliedResult(plan, op, true)))
    {
      LoadedIsEffective(rules, a.cache, candidate, i);
      ProjectedIsAlike(candidate[i]);
      var verified := Effective(effective, e.workspaceID, rules.routes(workspaces[i]));
      var result := AppliedResult(plan, op, verified);
      var written := FinishEntry(e, Some(result), a, candidate, before);
      reported := Reported(result, written);
      if e.key != "" {
        replay := replay[(e.workspaceID, e.key) := Record(Some(intent), reported)];
      }
    }

    /** The part of ApplyRoutePlan after every check has passed. */
    method CommitPlan(wsID: string, i: nat, planned: Planned, intent: Intent, req: Request) returns (out: Outcome)
      requires Valid() && i < |workspaces| && LawfulPlan(workspaces[i], planned)
      requires workspaces[i].workspaceID == wsID
      modifies this, world
      ensures ProceedStep(rules, old(Now()), i, planned, intent, wsID, req, out, Now())
      ensures old(world.trail) <= world.trail
      ensures forall d | d in world.trail[|old(world.trail)|..] ::
        ProceedReaches(rules, old(Now()), i, planned, intent, wsID, req, d)
      ensures Accounted(out, old(compensations))
    {
      ghost var a := Now();
      var op := BeginOperation("route-apply", req.correlationID);
      var e := ApplyEntry(wsID, TrimSpace(req.key), intent, op, workspaces[i].route.routeVersion);
      PlannedIsReady(rules, a, i, planned, op, e);
      var candidate := PlannedCandidate(workspaces, i, planned, op);
      if !rules.valid(candidate) {
        return Refused(InvalidCandidate);
      }
      out := RunPlan(candidate, e, i, planned.plan, op, intent);
    }

    method RunPlan(candidate: seq<Workspace>, e: JournalEntry, i: nat, plan: Plan, op: Operation, intent: Intent)
      returns (out: Outcome)
      requires Lawful(rules) && Ready(Now(), candidate, e)
      requires i < |candidate| && candidate[i].workspaceID == e.workspaceID
      modifies this, world
      ensures out.NotApplied? || out.CommittedAs?
      ensures out.NotApplied? ==> Abandoned(rules, old(Now()), candidate, e, out.end, Now())
      ensures Accounted(out, old(compensations))
      ensures out.CommittedAs? ==>
        CommitStep(rules, old(Now()), candidate, e, e.key, intent, AppliedResult(plan, op, true), out.result, Now())
      ensures Walked(old(world.trail), world.trail, old(world.OnDisk()), candidate, e,
                     Some(AppliedResult(plan, op, true)))
    {
      ghost var a, trail := Now(), world.trail;
      var end := Transact(candidate, e, Some(AppliedResult(plan, op, true)));
      if end.Aborted? {
        out := NotApplied(end);
      } else {
        var reported := FinishPlan(a, candidate, e, i, plan, op, intent, trail);
        out := CommittedAs(reported);
      }
    }

    /** ApplyRoutePlan */
    method ApplyRoutePlan(wsID: string, req: Request) returns (out: Outcome)
      requires Valid()
      modifies this, world
      ensures Valid()
      ensures ApplyStep(rules, old(Now()), wsID, req, out, Now())
      ensures old(world.trail) <= world.trail
      ensures forall d | d in world.trail[|old(world.trail)|..] :: ApplyReaches(rules, old(Now()), wsID, req, d)
      ensures Accounted(out, old(compensations))
    {
      var checked := Check(rules.mode, wsID, req);
      if checked.Bad? {
        return Refused(checked.why);
      }
      out := ApplyChecked(wsID, req, checked.intent);
      ApplyKeepsGood(rules, old(Now()), wsID, req, out, Now());
    }

    /** The critical section of ApplyRoutePlan. */
    method ApplyChecked(wsID: string, req: Request, intent: Intent) returns (out: Outcome)
      requires Valid() && Check(rules.mode, wsID, req) == Fine(intent)
      modifies this, world
      ensures ApplyStep(rules, old(Now()), wsID, req, out, Now())
      ensures old(world.trail) <= world.trail
      ensures forall d | d in world.trail[|old(world.trail)|..] :: ApplyReaches(rules, old(Now()), wsID, req, d)
      ensures Accounted(out, old(compensations))
    {
      var key := TrimSpace(req.key);
      if key != "" && (wsID, key) in replay {
        var record := replay[(wsID, key)];
        if record.intent != Some(intent) {
          return Refused(KeyReused);
        }
        return Replay(record.result.(changed := false, status := IdempotentReplay));
      }
      var found := FindWorkspace(wsID);
      if found.None? {
        return Refused(UnknownWorkspace);
      }
      out := ApplyTo(wsID, found.value, req, intent);
    }

    /** Plan against the workspace as it is, compare, and carry out what is left to do. */
    method ApplyTo(wsID: string, i: nat, req: Request, intent: Intent) returns (out: Outcome)
      requires Valid() && Names(workspaces, wsID, i)
      requires Decide(rules, workspaces, replay, wsID, req) ==
               DecidePlanned(workspaces[i], i, req, intent, rules.plan(workspaces[i], Input(intent, req.strict)))
      modifies this, world
      ensures ApplyStep(rules, old(Now()), wsID, req, out, Now())
      ensures old(world.trail) <= world.trail
      ensures forall d | d in world.trail[|old(world.trail)|..] :: ApplyReaches(rules, old(Now()), wsID, req, d)
      ensures Accounted(out, old(compensations))
    {
      var ws := workspaces[i];
      var current := ws.route.routeVersion;
      nextRouteVersion := Max(nextRouteVersion, current);
      var input := PlanInput(intent.applicationID, intent.desiredMode, intent.routePattern, req.strict);
      var planned := rules.plan(ws, input);
      if planned.None? {
        return Refused(NotPlannable);
      }
      if Stale(req, current) {
        return Refused(VersionConflict(if req.baseVersion != 0 then req.baseVersion else Expected(req), current));
      }
      if req.fingerprint.Some? && req.fingerprint.value != planned.value.plan {
        return Refused(PlanChanged);
      }
      if planned.value.accidental {
        return Refused(AccidentalConflicts);
      }
      if !planned.value.changed {
        out := AnswerNoOp(wsID, ws, planned.value, intent, req);
      } else {
        out := CommitPlan(wsID, i, planned.value, intent, req);
      }
    }

    /** Ask the proxy whether its file is what memory says; hydrate the cache if so. */
    method Inspect(wsID: string, ws: Workspace) returns (inSync: bool)
      modifies this`effective, world`available
      ensures inSync ==> InFile(rules.render, world.proxy, workspaces)
      ensures effective ==
        if inSync && !CacheInSync(rules, old(effective), ws) then Recorded(rules.routes, old(effective), workspaces)
        else old(effective)
    {
      var cached := CacheInSync(rules, effective, ws);
      var up := world.Poll();
      if !up {
        return false;
      }
      var inspected := world.InspectRouting(rules.render, workspaces);
      inSync := inspected == Some(true);
      if inSync && !cached {
        RecordEffectiveRoutes(workspaces);
      }
    }

    /** SyncRoute */
    method SyncRoute(wsID: string, correlationID: string, repair: bool) returns (out: SyncOutcome)
      requires Valid()
      modifies this, world
      ensures Valid()
      ensures SyncStep(rules, old(Now()), wsID, correlationID, repair, out, Now())
      ensures old(world.trail) <= world.trail
      ensures forall d | d in world.trail[|old(world.trail)|..] :: SyncReaches(old(Now()), wsID, correlationID, d)
      ensures
        if out.SyncNotApplied? then
          out.end.Aborted? && (out.end.degraded <==> CompensationFailed(old(compensations)))
        else compensations == old(compensations)
    {
      out := SyncLocked(wsID, correlationID, repair);
      SyncKeepsGood(rules, old(Now()), wsID, correlationID, repair, out, Now());
    }

    /** The critical section of SyncRoute. */
    method SyncLocked(wsID: string, correlationID: string, repair: bool) returns (out: SyncOutcome)
      requires Valid()
      modifies this, world
      ensures SyncStep(rules, old(Now()), wsID, correlationID, repair, out, Now())
      ensures old(world.trail) <= world.trail
      ensures forall d | d in world.trail[|old(world.trail)|..] :: SyncReaches(old(Now()), wsID, correlationID, d)
      ensures
        if out.SyncNotApplied? then
          out.end.Aborted? && (out.end.degraded <==> CompensationFailed(old(compensations)))
        else compensations == old(compensations)
    {
      var found := FindWorkspace(wsID);
      if found.None? {
        return SyncRefused(UnknownWorkspace);
      }
      var i := found.value;
      var ws := workspaces[i];
      nextRouteVersion := Max(nextRouteVersion, ws.route.routeVersion);
      if rules.accidental(rules.routes(ws)) && repair {
        return SyncRefused(AccidentalConflicts);
      }
      var inSync := Inspect(wsID, ws);
      if inSync {
        var id := world.NewOperationID();
        return InSync(Operation(id, correlationID, ws.route.routeVersion, "route-sync"));
      }
      if !repair {
        return Drift;
      }
      out := Repair(wsID, i, correlationID);
    }

    /** The part of SyncRoute that reloads the proxy. */
    method Repair(wsID: string, i: nat, correlationID: string) returns (out: SyncOutcome)
      requires Valid() && i < |workspaces| && workspaces[i].workspaceID == wsID
      modifies this, world
      ensures RepairStep(rules, old(Now()), wsID, i, correlationID, out, Now())
      ensures Walked(old(world.trail), world.trail, old(world.OnDisk()),
                     RepairCandidate(old(Now()), i, correlationID),
                     RepairEntry(old(Now()), wsID, i, correlationID), None)
      ensures
        if out.SyncNotApplied? then
          out.end.Aborted? && (out.end.degraded <==> CompensationFailed(old(compensations)))
        else compensations == old(compensations)
    {
      ghost var a, trail := Now(), world.trail;
      var op := BeginOperation("route-sync", correlationID);
      var e := SyncEntry(wsID, op, workspaces[i].route.routeVersion);
      SyncIsReady(rules, a, i, op, e);
      var candidate := SyncCandidate(workspaces, i, op);
      var end := Transact(candidate, e, None);
      if end.Aborted? {
        return SyncNotApplied(end);
      }
      var written := FinishEntry(e, None, Begun(a), candidate, trail);
      out := Repaired(op, !written);
    }

    // ---- Other mutations ----

    /** mutate */
    method Mutate(required: bool, change: Change, persist: Persist, correlationID: string) returns (out: MutateOutcome)
      requires Valid() && LawfulChange(change, persist)
      modifies this, world
      ensures Valid()
      ensures MutateStep(rules, old(Now()), required, change, correlationID, out, Now())
      ensures old(world.trail) <= world.trail
      ensures forall d | d in world.trail[|old(world.trail)|..] ::
        MutateReaches(rules, old(Now()), change, correlationID, d)
    {
      if !change.accepts(workspaces) {
        return Rejected;
      }
      var previous := workspaces;
      var op := BeginOperation(change.kind, correlationID);
      var candidate := change.edit(previous, op);
      if !rules.valid(candidate) {
        out := Invalid;
      } else {
        out := CarryOut(candidate, op, required, persist);
      }
      MutateKeepsGood(rules, old(Now()), required, change, persist, correlationID, out, Now());
    }

    /** Route a valid candidate, save it, and only then make it current. */
    method CarryOut(candidate: seq<Workspace>, op: Operation, required: bool, persist: Persist)
      returns (out: MutateOutcome)
      requires UniqueIDs(candidate) && workspaces == world.durable
      requires persist == SaveRows ==> SameDefinitions(workspaces, candidate)
      modifies this`workspaces, this`effective, this`compensations, world`durable, world`proxy, world`available,
        world`trail
      ensures CarriedOut(rules, old(Now()), required, candidate, op, out, Now())
      ensures old(world.trail) <= world.trail
      ensures forall d | d in world.trail[|old(world.trail)|..] ::
        d == old(world.OnDisk()) || d == old(world.OnDisk()).(durable := Published(candidate))
    {
      var previous := workspaces;
      var ok, published := ApplyRouting(candidate, required);
      if !ok {
        var restore := RollbackAfterApplyFailure(previous);
        return NotRouted(restore);
      }
      ghost var proxy, cache := world.proxy, effective;
      if persist == SaveRows {
        PublishedKeepsDefinitions(previous, candidate);
      }
      PublishedIsUnique(candidate);
      ok := Save(published, persist);
      if !ok {
        var restored, _ := ApplyRouting(previous, required);
        assert Routed(rules, required, old(world.proxy), old(effective), candidate, proxy, cache);
        return NotSaved(restored);
      }
      workspaces := published;
      out := Mutated(op);
    }

    /** The way a mutation persists its candidate. */
    method Save(candidate: seq<Workspace>, persist: Persist) returns (ok: bool)
      requires UniqueIDs(candidate) && (persist == SaveRows ==> SameDefinitions(world.durable, candidate))
      modifies world`durable, world`trail
      ensures world.durable == if ok then candidate else old(world.durable)
      ensures world.trail == old(world.trail) + [world.OnDisk()]
    {
      if persist == SaveRows {
        SaveWritesCandidate(world.durable, candidate);
        ok := world.SaveState(candidate);
      } else {
        ok := world.ReplaceWorkspaces(candidate);
      }
    }

    // ---- Starting ----

    /** The highest version any workspace or application carries. */
    method ReserveVersions()
      modifies this`nextRouteVersion
      ensures nextRouteVersion == Max(old(nextRouteVersion), HighestVersion(workspaces))
    {
      var start := nextRouteVersion;
      for i := 0 to |workspaces|
        invariant nextRouteVersion == Max(start, HighestVersion(workspaces[..i]))
      {
        var ws := workspaces[i];
        assert workspaces[..i + 1][..i] == workspaces[..i];
        var before := nextRouteVersion;
        nextRouteVersion := Max(nextRouteVersion, ws.route.routeVersion);
        for j := 0 to |ws.applications|
          invariant nextRouteVersion == Max(Max(before, ws.route.routeVersion), AppsVersion(ws.applications[..j]))
        {
          assert ws.applications[..j + 1][..j] == ws.applications[..j];
          nextRouteVersion := Max(nextRouteVersion, ws.applications[j].route.routeVersion);
        }
        assert ws.applications[..|ws.applications|] == ws.applications;
      }
      assert workspaces[..|workspaces|] == workspaces;
    }

    /** restoreRouteJournal */
    method RestoreRouteJournal()
      requires replay == map[]
      modifies this`nextRouteVersion, this`replay
      ensures nextRouteVersion == Max(old(nextRouteVersion), HighestEntry(world.journal))
      ensures replay == RestoredRecords(world.journal)
    {
      var start, journal := nextRouteVersion, world.journal;
      for i := 0 to |journal|
        invariant nextRouteVersion == Max(start, HighestEntry(journal[..i]))
        invariant replay == RestoredRecords(journal[..i])
      {
        var e := journal[i];
        assert journal[..i + 1][..i] == journal[..i];
        nextRouteVersion := Max(nextRouteVersion, e.routeVersion);
        if e.status == Committed && e.key != "" {
          replay := replay[(e.workspaceID, e.key) := Record(IntentIn(e), ResultOf(e))];
        }
      }
      assert journal[..|journal|] == journal;
    }

    /** reconcileRouteJournal */
    method ReconcileRouteJournal() returns (ok: bool)
      modifies this`replay, world`journal, world`trail
      ensures ok ==>
        Reconciled(world.journal, replay)
        == Reconcile(workspaces, old(world.journal), Reconciled(old(world.journal), old(replay)))
    {
      var entries := world.journal;
      ghost var start := Reconciled(world.journal, replay);
      for i := 0 to |entries|
        invariant Reconciled(world.journal, replay) == Reconcile(workspaces, entries[..i], start)
      {
        var e := entries[i];
        assert entries[..i + 1][..i] == entries[..i];
        if Pending(e) {
          if MatchesCandidate(workspaces, e) && e.key != "" {
            replay := replay[(e.workspaceID, e.key) := Record(IntentIn(e), ResultOf(e))];
          }
          var written := world.WriteEntry(Decided(workspaces, e));
          if !written {
            return false;
          }
        }
      }
      assert entries[..|entries|] == entries;
      ok := true;
    }

    /** Load, in a new process. Failing to load the proxy or to close an entry is only logged;
        recovered says that neither happened. */
    method Load() returns (recovered: bool)
      requires workspaces == [] && nextRouteVersion == 0 && effective == map[] && replay == map[]
      modifies this, world
      ensures workspaces == world.durable == old(world.durable)
      ensures nextRouteVersion == Max(HighestVersion(workspaces), HighestEntry(old(world.journal)))
      ensures recovered ==> Now() == Reloaded(rules, old(world.OnDisk()), old(world.tokens))
    {
      workspaces := world.durable;
      ReserveVersions();
      RestoreRouteJournal();
      var ok, _ := ApplyRouting(workspaces, true);
      if !ok {
        return false;
      }
      recovered := ReconcileRouteJournal();
    }
  }
}
