/** The changes callers make through mutate, each of which stamps what it touches. */
module Changes {
  import opened Text
  import opened Model
  import opened Requests
  import opened AppNames
  import opened Relevance
  import opened Protocol
  import opened Invariants
  import opened Mutations

  // ---- Changes to one workspace ----

  function EditOne(wsID: string, edit: (Workspace, Operation) -> Workspace)
    : (seq<Workspace>, Operation) -> seq<Workspace>
  {
    (wss: seq<Workspace>, op: Operation) =>
      var i := IndexOf(wss, wsID);
      if i.None? then wss else wss[i.value := edit(wss[i.value], op)]
  }

  /** An edit that stamps the workspace, brings in no operation but the new one, and keeps to
      state columns if it is saved row by row. */
  ghost predicate LawfulEdit(edit: (Workspace, Operation) -> Workspace, persist: Persist) {
    && (forall ws: Workspace, op: Operation ::
          IsStamped(edit(ws, op), op.routeVersion, op.operationID)
            && (persist == SaveRows ==> SameWorkspace(ws, edit(ws, op))))
    && (forall tokens: nat, ws: Workspace, op: Operation | Traced(tokens, ws) && Issued(tokens, op.operationID) ::
          Traced(tokens, edit(ws, op)))
  }

  /** A change after which every workspace is as it was or stamped. */
  ghost predicate StampsWhole(change: Change) {
    forall memory: seq<Workspace>, op: Operation, ws: Workspace |
      change.accepts(memory) && ws in change.edit(memory, op) ::
      ws in memory || IsStamped(ws, op.routeVersion, op.operationID)
  }

  lemma EditedIsStamped(wss: seq<Workspace>, wsID: string, edit: (Workspace, Operation) -> Workspace, persist: Persist,
                        op: Operation)
    requires LawfulEdit(edit, persist)
    ensures forall ws | ws in EditOne(wsID, edit)(wss, op) ::
      ws in wss || IsStamped(ws, op.routeVersion, op.operationID)
    ensures Stamped(wss, EditOne(wsID, edit)(wss, op), op.routeVersion, op.operationID)
    ensures persist == SaveRows ==> SameDefinitions(wss, EditOne(wsID, edit)(wss, op))
  {
    var i, after := IndexOf(wss, wsID), EditOne(wsID, edit)(wss, op);
    forall ws | ws in after
      ensures ws in wss || IsStamped(ws, op.routeVersion, op.operationID)
    {
      var k :| 0 <= k < |after| && after[k] == ws;
      assert wss[k] in wss;
      assert ws == wss[k] || ws == edit(wss[k], op);
    }
  }

  lemma EditedIsIssued(tokens: nat, wss: seq<Workspace>, wsID: string, edit: (Workspace, Operation) -> Workspace,
                       persist: Persist, op: Operation)
    requires LawfulEdit(edit, persist) && OperationsIssued(tokens, wss) && Issued(tokens, op.operationID)
    ensures OperationsIssued(tokens, EditOne(wsID, edit)(wss, op))
  {
    var i := IndexOf(wss, wsID);
    if i.Some? {
      assert wss[i.value] in wss;
      ReplacingIsIssued(tokens, wss, i.value, edit(wss[i.value], op));
    }
  }

  /** Editing one workspace is a change that may be made. */
  lemma EditOneIsLawful(kind: string, wsID: string, accepts: seq<Workspace> -> bool,
                        edit: (Workspace, Operation) -> Workspace, persist: Persist)
    requires LawfulEdit(edit, persist)
    ensures LawfulChange(Change(kind, accepts, EditOne(wsID, edit)), persist)
    ensures StampsWhole(Change(kind, accepts, EditOne(wsID, edit)))
  {
    forall wss: seq<Workspace>, op: Operation
      ensures Stamped(wss, EditOne(wsID, edit)(wss, op), op.routeVersion, op.operationID)
      ensures persist == SaveRows ==> SameDefinitions(wss, EditOne(wsID, edit)(wss, op))
      ensures forall ws | ws in EditOne(wsID, edit)(wss, op) ::
        ws in wss || IsStamped(ws, op.routeVersion, op.operationID)
    {
      EditedIsStamped(wss, wsID, edit, persist, op);
    }
    forall tokens: nat, wss: seq<Workspace>, op: Operation | OperationsIssued(tokens, wss)
      && Issued(tokens, op.operationID)
      ensures OperationsIssued(tokens, EditOne(wsID, edit)(wss, op))
    {
      EditedIsIssued(tokens, wss, wsID, edit, persist, op);
    }
  }

  /** Edit the application at an index, and stamp it and the workspace. */
  function EditedAt(index: nat, edit: (Workspace, Application) -> Application, ws: Workspace, op: Operation): Workspace
  {
    if index < |ws.applications| then EditedWorkspace(ws, index, edit(ws, ws.applications[index]), op)
    else Stamp(ws, op)
  }

  function AppEdited(index: nat, edit: (Workspace, Application) -> Application): (Workspace, Operation) -> Workspace {
    (ws: Workspace, op: Operation) => EditedAt(index, edit, ws, op)
  }

  function Flip(ws: Workspace, app: Application): Application {
    if ws.IsLocalApps() then app else app.(active := !app.active)
  }

  function WithPattern(pattern: Option<string>): (Workspace, Application) -> Application {
    (ws: Workspace, app: Application) => app.(routePattern := pattern)
  }

  lemma StampKeepsDefinition(ws: Workspace, op: Operation)
    ensures SameWorkspace(ws, Stamp(ws, op))
  {
    forall app | app in ws.applications ensures SameApp(app, app) {}
  }

  lemma AppEditKeepsDefinition(index: nat, edit: (Workspace, Application) -> Application, ws: Workspace, op: Operation)
    requires forall ws, app :: SameApp(app, edit(ws, app))
    ensures SameWorkspace(ws, EditedAt(index, edit, ws, op))
  {
    if index < |ws.applications| {
      EditKeepsDefinition(ws, index, edit(ws, ws.applications[index]), op);
    } else {
      StampKeepsDefinition(ws, op);
    }
  }

  lemma AppEditIsStamped(index: nat, edit: (Workspace, Application) -> Application, ws: Workspace, op: Operation)
    ensures IsStamped(EditedAt(index, edit, ws, op), op.routeVersion, op.operationID)
  {
  }

  lemma AppEditIsTraced(tokens: nat, index: nat, edit: (Workspace, Application) -> Application, ws: Workspace,
                        op: Operation)
    requires Traced(tokens, ws) && Issued(tokens, op.operationID)
    ensures Traced(tokens, EditedAt(index, edit, ws, op))
  {
    if index < |ws.applications| {
      EditedIsTraced(tokens, ws, index, edit(ws, ws.applications[index]), op);
    }
  }

  lemma AppEditedIsLawful(index: nat, edit: (Workspace, Application) -> Application)
    requires forall ws, app :: SameApp(app, edit(ws, app))
    ensures LawfulEdit(AppEdited(index, edit), SaveRows)
  {
    var whole := AppEdited(index, edit);
    forall ws: Workspace, op: Operation
      ensures IsStamped(whole(ws, op), op.routeVersion, op.operationID) && SameWorkspace(ws, whole(ws, op))
    {
      AppEditKeepsDefinition(index, edit, ws, op);
      AppEditIsStamped(index, edit, ws, op);
    }
    forall tokens: nat, ws: Workspace, op: Operation | Traced(tokens, ws) && Issued(tokens, op.operationID)
      ensures Traced(tokens, whole(ws, op))
    {
      AppEditIsTraced(tokens, index, edit, ws, op);
    }
  }

  /** ToggleApp */
  function Toggle(wsID: string, index: nat, accepts: seq<Workspace> -> bool): Change {
    Change("toggle", accepts, EditOne(wsID, AppEdited(index, Flip)))
  }

  lemma ToggleIsLawful(wsID: string, index: nat, accepts: seq<Workspace> -> bool)
    ensures LawfulChange(Toggle(wsID, index, accepts), SaveRows) && StampsWhole(Toggle(wsID, index, accepts))
  {
    AppEditedIsLawful(index, Flip);
    EditOneIsLawful("toggle", wsID, accepts, AppEdited(index, Flip), SaveRows);
  }

  /** UpdateRoutePattern */
  function UpdatePattern(wsID: string, index: nat, pattern: Option<string>, accepts: seq<Workspace> -> bool): Change {
    Change("update-pattern", accepts, EditOne(wsID, AppEdited(index, WithPattern(pattern))))
  }

  lemma UpdatePatternIsLawful(wsID: string, index: nat, pattern: Option<string>, accepts: seq<Workspace> -> bool)
    ensures LawfulChange(UpdatePattern(wsID, index, pattern, accepts), SaveRows)
      && StampsWhole(UpdatePattern(wsID, index, pattern, accepts))
  {
    AppEditedIsLawful(index, WithPattern(pattern));
    EditOneIsLawful("update-pattern", wsID, accepts, AppEdited(index, WithPattern(pattern)), SaveRows);
  }

  function SwitchedTo(ws: Workspace, app: Application, active: bool): Application {
    if !ws.IsLocalApps() && app.port > 0 then app.(active := active) else app
  }

  function Switched(ws: Workspace, active: bool): Workspace {
    ws.(applications :=
          seq(|ws.applications|, i requires 0 <= i < |ws.applications| => SwitchedTo(ws, ws.applications[i], active)))
  }

  /** ToggleAllToLocal and ToggleAllToRemote: applications with a local port, in workspaces that
      have a choice. */
  function AllToggled(active: bool): (Workspace, Operation) -> Workspace {
    (ws: Workspace, op: Operation) => StampAll(Switched(ws, active), op)
  }

  lemma SwitchKeepsDefinition(ws: Workspace, active: bool, op: Operation)
    ensures SameWorkspace(ws, StampAll(Switched(ws, active), op))
  {
    var after := StampAll(Switched(ws, active), op);
    forall i | 0 <= i < |ws.applications|
      ensures SameApp(ws.applications[i], after.applications[i])
    {
      assert after.applications[i] == StampApp(SwitchedTo(ws, ws.applications[i], active), op);
    }
  }

  function ToggleAll(wsID: string, active: bool, accepts: seq<Workspace> -> bool): Change {
    Change("toggle-all", accepts, EditOne(wsID, AllToggled(active)))
  }

  lemma ToggleAllIsLawful(wsID: string, active: bool, accepts: seq<Workspace> -> bool)
    ensures LawfulChange(ToggleAll(wsID, active, accepts), SaveRows) && StampsWhole(ToggleAll(wsID, active, accepts))
  {
    forall ws: Workspace, op: Operation
      ensures SameWorkspace(ws, AllToggled(active)(ws, op))
    {
      SwitchKeepsDefinition(ws, active, op);
    }
    forall tokens: nat, ws: Workspace, op: Operation | Issued(tokens, op.operationID)
      ensures Traced(tokens, AllToggled(active)(ws, op))
    {
      StampAllIsTraced(tokens, Switched(ws, active), op);
    }
    EditOneIsLawful("toggle-all", wsID, accepts, AllToggled(active), SaveRows);
  }

  /** UpdateWorkspaceApplications: new applications and routing defaults, all stamped. */
  function Replaced(update: Workspace -> Workspace): (Workspace, Operation) -> Workspace {
    (ws: Workspace, op: Operation) => StampAll(update(ws), op)
  }

  function UpdateApplications(wsID: string, update: Workspace -> Workspace, accepts: seq<Workspace> -> bool): Change {
    Change("upsert", accepts, EditOne(wsID, Replaced(update)))
  }

  lemma UpdateApplicationsIsLawful(wsID: string, update: Workspace -> Workspace, accepts: seq<Workspace> -> bool)
    ensures LawfulChange(UpdateApplications(wsID, update, accepts), ReplaceRows)
      && StampsWhole(UpdateApplications(wsID, update, accepts))
  {
    forall tokens: nat, ws: Workspace, op: Operation | Issued(tokens, op.operationID)
      ensures Traced(tokens, Replaced(update)(ws, op))
    {
      StampAllIsTraced(tokens, update(ws), op);
    }
    forall ws: Workspace, op: Operation
      ensures IsStamped(Replaced(update)(ws, op), op.routeVersion, op.operationID)
    {
      assert Replaced(update)(ws, op) == StampAll(update(ws), op);
    }
    EditOneIsLawful("upsert", wsID, accepts, Replaced(update), ReplaceRows);
  }

  /** EditSessionApplication and an applied session refresh: the workspace is stamped, and its
      applications keep the last operations they had or have none. */
  function Rewritten(update: Workspace -> Workspace): (Workspace, Operation) -> Workspace {
    (ws: Workspace, op: Operation) => Stamp(update(ws), op)
  }

  ghost predicate KeepsOperations(update: Workspace -> Workspace) {
    forall ws, app | app in update(ws).applications ::
      app.lastOperation.None? || exists b | b in ws.applications :: b.lastOperation == app.lastOperation
  }

  function RewriteSession(wsID: string, update: Workspace -> Workspace, accepts: seq<Workspace> -> bool): Change {
    Change("upsert", accepts, EditOne(wsID, Rewritten(update)))
  }

  lemma RewrittenIsTraced(tokens: nat, update: Workspace -> Workspace, ws: Workspace, op: Operation)
    requires KeepsOperations(update) && Traced(tokens, ws)
    ensures Traced(tokens, Rewritten(update)(ws, op))
  {
    forall app | app in update(ws).applications && app.lastOperation.Some?
      ensures Issued(tokens, app.lastOperation.value.operationID)
    {
      var b :| b in ws.applications && b.lastOperation == app.lastOperation;
    }
  }

  lemma RewriteSessionIsLawful(wsID: string, update: Workspace -> Workspace, accepts: seq<Workspace> -> bool)
    requires KeepsOperations(update)
    ensures LawfulChange(RewriteSession(wsID, update, accepts), ReplaceRows)
      && StampsWhole(RewriteSession(wsID, update, accepts))
  {
    forall tokens: nat, ws: Workspace, op: Operation | Traced(tokens, ws)
      ensures Traced(tokens, Rewritten(update)(ws, op))
    {
      RewrittenIsTraced(tokens, update, ws, op);
    }
    forall ws: Workspace, op: Operation
      ensures IsStamped(Rewritten(update)(ws, op), op.routeVersion, op.operationID)
    {
      assert Rewritten(update)(ws, op) == Stamp(update(ws), op);
    }
    EditOneIsLawful("upsert", wsID, accepts, Rewritten(update), ReplaceRows);
  }

  // ---- Changes to the list ----

  /** SyncRouting stamps every workspace. */
  function StampEvery(): (seq<Workspace>, Operation) -> seq<Workspace> {
    (wss: seq<Workspace>, op: Operation) => seq(|wss|, i requires 0 <= i < |wss| => StampAll(wss[i], op))
  }

  lemma SyncRoutingIsLawful(accepts: seq<Workspace> -> bool)
    ensures LawfulChange(Change("sync", accepts, StampEvery()), SaveRows)
      && StampsWhole(Change("sync", accepts, StampEvery()))
  {
    forall wss: seq<Workspace>, op: Operation
      ensures SameDefinitions(wss, StampEvery()(wss, op))
    {
      forall i | 0 <= i < |wss|
        ensures SameWorkspace(wss[i], StampEvery()(wss, op)[i])
      {
        StampAllKeepsDefinition(wss[i], op);
      }
    }
    forall tokens: nat, wss: seq<Workspace>, op: Operation | Issued(tokens, op.operationID)
      ensures OperationsIssued(tokens, StampEvery()(wss, op))
    {
      forall i | 0 <= i < |wss| ensures Traced(tokens, StampAll(wss[i], op)) { StampAllIsTraced(tokens, wss[i], op); }
    }
  }

  /** DeleteWorkspace */
  function Deleted(wsID: string): (seq<Workspace>, Operation) -> seq<Workspace> {
    (wss: seq<Workspace>, op: Operation) =>
      var i := IndexOf(wss, wsID);
      if i.None? then wss else wss[..i.value] + wss[i.value + 1..]
  }

  lemma DeleteIsLawful(wsID: string, accepts: seq<Workspace> -> bool)
    ensures LawfulChange(Change("delete", accepts, Deleted(wsID)), ReplaceRows)
      && StampsWhole(Change("delete", accepts, Deleted(wsID)))
  {
  }

  /** CreateWorkspace */
  function Created(ws: Workspace): (seq<Workspace>, Operation) -> seq<Workspace> {
    (wss: seq<Workspace>, op: Operation) => wss + [StampAll(ws, op)]
  }

  lemma CreateIsLawful(ws: Workspace, accepts: seq<Workspace> -> bool)
    ensures LawfulChange(Change("upsert", accepts, Created(ws)), ReplaceRows)
      && StampsWhole(Change("upsert", accepts, Created(ws)))
  {
    forall tokens: nat, op: Operation | Issued(tokens, op.operationID)
      ensures Traced(tokens, StampAll(ws, op))
    {
      StampAllIsTraced(tokens, ws, op);
    }
  }

  /** CreateRoutingSession: applications without operations, in a stamped workspace. */
  function SessionCreated(make: seq<Workspace> -> Workspace): (seq<Workspace>, Operation) -> seq<Workspace> {
    (wss: seq<Workspace>, op: Operation) => wss + [Stamp(make(wss), op)]
  }

  lemma CreateSessionIsLawful(make: seq<Workspace> -> Workspace, accepts: seq<Workspace> -> bool)
    requires forall wss, app | app in make(wss).applications :: app.lastOperation.None?
    ensures LawfulChange(Change("upsert", accepts, SessionCreated(make)), ReplaceRows)
    ensures StampsWhole(Change("upsert", accepts, SessionCreated(make)))
  {
    forall tokens: nat, wss: seq<Workspace>, op: Operation
      ensures Traced(tokens, Stamp(make(wss), op))
    {
    }
    forall wss: seq<Workspace>, op: Operation, ws: Workspace | ws in SessionCreated(make)(wss, op)
      ensures ws in wss || IsStamped(ws, op.routeVersion, op.operationID)
    {
      assert SessionCreated(make)(wss, op) == wss + [Stamp(make(wss), op)];
    }
  }

  // ---- Registering an alias ----

  /** One binding of the identity gets the alias, unless it has it, and the operation. */
  function BoundTo(token: string -> string, canonical: string, alias: string, op: Operation,
                   app: Application): Application
  {
    if app.CanonicalAppID() != canonical then app
    else StampApp(if HasAlias(token, app, alias) then app else app.(aliases := app.aliases + [alias]), op)
  }

  function BindingsOf(token: string -> string, canonical: string, alias: string, op: Operation,
                      ws: Workspace): Workspace
  {
    ws.(applications := seq(|ws.applications|, i requires 0 <= i < |ws.applications| =>
      BoundTo(token, canonical, alias, op, ws.applications[i])))
  }

  /** Every workspace's bindings of the identity, and the requested workspace itself. */
  function AliasRegistered(token: string -> string, wsID: string, canonical: string, alias: string)
    : (seq<Workspace>, Operation) -> seq<Workspace>
  {
    (wss: seq<Workspace>, op: Operation) =>
      var target := IndexOf(wss, wsID);
      seq(|wss|, i requires 0 <= i < |wss| =>
        var bound := BindingsOf(token, canonical, alias, op, wss[i]);
        if target == Some(i) then Stamp(bound, op) else bound)
  }

  /** The application a reference names in the requested workspace. */
  function Referenced(token: string -> string, wsID: string, reference: string, wss: seq<Workspace>): Option<string> {
    var i := IndexOf(wss, wsID);
    if i.None? then None
    else
      var apps := wss[i.value].applications;
      var found := FindApp(token, apps, reference);
      if found.None? || found.value >= |apps| then None else Some(apps[found.value].CanonicalAppID())
  }

  /** No application of another identity has the alias as its name or among its aliases. */
  predicate AliasFree(token: string -> string, canonical: string, alias: string, wss: seq<Workspace>) {
    forall ws, app | ws in wss && app in ws.applications && app.CanonicalAppID() != canonical ::
      token(app.CanonicalAppID()) != alias && !HasAlias(token, app, alias)
  }

  /** RegisterApplicationAlias, for a normalised alias. */
  function RegisterAlias(token: string -> string, wsID: string, reference: string, alias: string): Change {
    Change("upsert",
           (wss: seq<Workspace>) =>
             var canonical := Referenced(token, wsID, reference, wss);
             alias != "" && canonical.Some? && AliasFree(token, canonical.value, alias, wss),
           (wss: seq<Workspace>, op: Operation) =>
             var canonical := Referenced(token, wsID, reference, wss);
             if canonical.None? then wss else AliasRegistered(token, wsID, canonical.value, alias)(wss, op))
  }

  lemma BindingsRebind(token: string -> string, canonical: string, alias: string, op: Operation, ws: Workspace)
    ensures Rebound(ws, BindingsOf(token, canonical, alias, op, ws), op.operationID)
  {
    var bound := BindingsOf(token, canonical, alias, op, ws);
    forall i | 0 <= i < |ws.applications|
      ensures BareApp(bound.applications[i]) == BareApp(ws.applications[i])
    {
    }
    assert BareApps(bound.applications) == BareApps(ws.applications);
  }

  lemma BindingsAreTraced(tokens: nat, token: string -> string, canonical: string, alias: string, op: Operation,
                          ws: Workspace)
    requires Traced(tokens, ws) && Issued(tokens, op.operationID)
    ensures Traced(tokens, BindingsOf(token, canonical, alias, op, ws))
  {
    var bound := BindingsOf(token, canonical, alias, op, ws);
    forall app | app in bound.applications && app.lastOperation.Some?
      ensures Issued(tokens, app.lastOperation.value.operationID)
    {
      var i :| 0 <= i < |bound.applications| && bound.applications[i] == app;
      assert ws.applications[i] in ws.applications;
    }
  }

  lemma AliasIsStamped(token: string -> string, wsID: string, canonical: string, alias: string, wss: seq<Workspace>,
                       op: Operation)
    ensures Stamped(wss, AliasRegistered(token, wsID, canonical, alias)(wss, op), op.routeVersion, op.operationID)
  {
    var after := AliasRegistered(token, wsID, canonical, alias)(wss, op);
    forall ws | ws in after
      ensures StampedOne(wss, ws, op.routeVersion, op.operationID)
    {
      var i :| 0 <= i < |after| && after[i] == ws;
      BindingsRebind(token, canonical, alias, op, wss[i]);
      assert wss[i] in wss;
      var bound := BindingsOf(token, canonical, alias, op, wss[i]);
      assert ws == bound || ws == Stamp(bound, op);
    }
  }

  lemma AliasIsIssued(tokens: nat, token: string -> string, wsID: string, canonical: string, alias: string,
                      wss: seq<Workspace>, op: Operation)
    requires OperationsIssued(tokens, wss) && Issued(tokens, op.operationID)
    ensures OperationsIssued(tokens, AliasRegistered(token, wsID, canonical, alias)(wss, op))
  {
    var after := AliasRegistered(token, wsID, canonical, alias)(wss, op);
    forall ws | ws in after
      ensures Traced(tokens, ws)
    {
      var i :| 0 <= i < |after| && after[i] == ws;
      assert wss[i] in wss;
      BindingsAreTraced(tokens, token, canonical, alias, op, wss[i]);
    }
  }

  /** Registering an alias is a change that may be made. */
  lemma RegisterAliasIsLawful(token: string -> string, wsID: string, reference: string, alias: string)
    ensures LawfulChange(RegisterAlias(token, wsID, reference, alias), ReplaceRows)
  {
    var change := RegisterAlias(token, wsID, reference, alias);
    forall wss: seq<Workspace>, op: Operation
      ensures Stamped(wss, change.edit(wss, op), op.routeVersion, op.operationID)
    {
      var canonical := Referenced(token, wsID, reference, wss);
      if canonical.Some? {
        AliasIsStamped(token, wsID, canonical.value, alias, wss, op);
      }
    }
    forall tokens: nat, wss: seq<Workspace>, op: Operation | OperationsIssued(tokens, wss)
      && Issued(tokens, op.operationID)
      ensures OperationsIssued(tokens, change.edit(wss, op))
    {
      var canonical := Referenced(token, wsID, reference, wss);
      if canonical.Some? {
        AliasIsIssued(tokens, token, wsID, canonical.value, alias, wss, op);
      }
    }
  }

  /** Whether a workspace binds an application's identity. */
  predicate Binds(ws: Workspace, canonical: string) {
    exists app | app in ws.applications :: app.CanonicalAppID() == canonical
  }

  lemma BindingsCarry(token: string -> string, canonical: string, alias: string, op: Operation, ws: Workspace, k: nat)
    requires k < |ws.applications|
    ensures var after := Projected(BindingsOf(token, canonical, alias, op, ws));
      && |after.applications| == |ws.applications| && after.route == ws.route && after.workspaceID == ws.workspaceID
      && after.applications[k].route.routeVersion == ws.route.routeVersion
      && after.applications[k].lastOperation ==
           if ws.applications[k].CanonicalAppID() == canonical then Some(op) else ws.applications[k].lastOperation
  {
  }

  lemma RegisteredElsewhere(token: string -> string, wsID: string, canonical: string, alias: string,
                            wss: seq<Workspace>, op: Operation, i: nat)
    requires i < |wss| && wss[i].workspaceID != wsID
    ensures var after := Published(AliasRegistered(token, wsID, canonical, alias)(wss, op));
      |after| == |wss| && after[i] == Projected(BindingsOf(token, canonical, alias, op, wss[i]))
  {
  }

  /** Any other workspace that binds the identity changes, and routes alike, under the version it
      had: once published, its bindings have no version of their own either. */
  lemma SiblingsKeepTheirVersion(token: string -> string, wsID: string, canonical: string, alias: string,
                                 wss: seq<Workspace>, op: Operation, i: nat, tokens: nat)
    requires i < |wss| && wss[i].workspaceID != wsID && Binds(wss[i], canonical)
    requires Traced(tokens, wss[i]) && !Issued(tokens, op.operationID)
    ensures var after := Published(AliasRegistered(token, wsID, canonical, alias)(wss, op));
      && |after| == |wss| && after[i] != wss[i] && Alike(after[i], wss[i])
      && after[i].workspaceID == wss[i].workspaceID && after[i].route == wss[i].route
      && |after[i].applications| == |wss[i].applications|
      && forall k | 0 <= k < |wss[i].applications| ::
           && after[i].applications[k].route.routeVersion == wss[i].route.routeVersion
           && after[i].applications[k].lastOperation ==
                if wss[i].applications[k].CanonicalAppID() == canonical then Some(op)
                else wss[i].applications[k].lastOperation
  {
    RegisteredElsewhere(token, wsID, canonical, alias, wss, op, i);
    BindingsDiffer(token, canonical, alias, op, wss[i], tokens);
  }

  lemma BindingsDiffer(token: string -> string, canonical: string, alias: string, op: Operation, ws: Workspace,
                       tokens: nat)
    requires Binds(ws, canonical) && Traced(tokens, ws) && !Issued(tokens, op.operationID)
    ensures var after := Projected(BindingsOf(token, canonical, alias, op, ws));
      && after != ws && Alike(after, ws) && |after.applications| == |ws.applications|
      && after.route == ws.route && after.workspaceID == ws.workspaceID
      && forall k | 0 <= k < |ws.applications| ::
           && after.applications[k].route.routeVersion == ws.route.routeVersion
           && after.applications[k].lastOperation ==
                if ws.applications[k].CanonicalAppID() == canonical then Some(op) else ws.applications[k].lastOperation
  {
    BindingsRebind(token, canonical, alias, op, ws);
    ProjectedIsAlike(BindingsOf(token, canonical, alias, op, ws));
    forall k | 0 <= k < |ws.applications|
      ensures var after := Projected(BindingsOf(token, canonical, alias, op, ws));
        && after.applications[k].route.routeVersion == ws.route.routeVersion
        && after.applications[k].lastOperation ==
             if ws.applications[k].CanonicalAppID() == canonical then Some(op) else ws.applications[k].lastOperation
    {
      BindingsCarry(token, canonical, alias, op, ws, k);
    }
    var app :| app in ws.applications && app.CanonicalAppID() == canonical;
    var k :| 0 <= k < |ws.applications| && ws.applications[k] == app;
    BindingsCarry(token, canonical, alias, op, ws, k);
  }
}
