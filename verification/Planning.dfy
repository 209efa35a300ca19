/** planForWorkspace: the plan of a request, as the transaction protocol takes it. */
module Planning {
  import opened Text
  import opened Model
  import opened Routes
  import opened Differences
  import opened Protocol
  import opened Relevance
  import opened AppNames
  import Conflicts
  import Patterns
  import Plans
  import Renderer
  import Rendering
  import Requests
  import RouteBuilder

  /** What planning takes from its surroundings: identity tokens, validation, warnings, and how
      the renderer writes the sections of the workspaces. */
  datatype Checks = Checks(
    token: string -> string, pattern: string -> bool, metadata: (Workspace, Application, bool) -> bool,
    warnings: (Workspace, Application, string, seq<Route>, bool) -> seq<string>, workspaces: seq<Workspace> -> bool,
    env: Renderer.Env, text: seq<Rendering.Section> -> string)

  /** normalizeMode */
  function NormalizeMode(mode: string): Option<string> {
    var m := Lower(TrimSpace(mode));
    if m == "local" || m == "remote" then Some(m) else None
  }

  // ---- The edit ----

  /** The route pattern a request leaves, if it is allowed. */
  function EditedPattern(pattern: string -> bool, current: Option<string>,
                         asked: Option<string>): Option<Option<string>>
  {
    if asked.None? then Some(current)
    else if TrimSpace(asked.value) == "" then Some(None)
    else if pattern(asked.value) then Some(Some(Patterns.NormalizeRequestPath(asked.value)))
    else None
  }

  function Edited(app: Application, mode: string, routePattern: Option<string>): Application {
    app.(active := mode == "local", routePattern := routePattern)
  }

  function EditedAt(ws: Workspace, index: nat, edited: Application): Workspace
    requires index < |ws.applications|
  {
    ws.(applications := ws.applications[index := edited])
  }

  // ---- The plan ----

  /** Whether the difference of two projections is empty. */
  predicate Differ(before: seq<Route>, after: seq<Route>) {
    var left, right := ByKey(Plans.ChangeKey, before), ByKey(Plans.ChangeKey, after);
    exists k | k in left.Keys + right.Keys :: !Same(Plans.RouteEquivalent, Lookup(left, k), Lookup(right, k))
  }

  /** hasAccidentalConflicts(conflictsForRoutes(routes)) */
  predicate HasAccidentalConflict(routes: seq<Route>) {
    exists c | c in Conflicts.ConflictsForRoutes(routes) :: !c.intentional
  }

  function PlanAt(checks: Checks, ws: Workspace, index: nat, mode: string, asked: Option<string>,
                  routePattern: Option<string>, strict: bool): Planned
    requires index < |ws.applications|
  {
    var app := ws.applications[index];
    var edited := Edited(app, mode, routePattern);
    var before, after := NormalizedRoutes(ws), NormalizedRoutes(EditedAt(ws, index, edited));
    Planned(
      Plan(ws.workspaceID, ws.EnvironmentID(), ws.route.routeVersion, app.CanonicalAppID(), mode, asked, before, after,
           checks.warnings(ws, app, mode, after, strict), strict),
      index, edited, Differ(before, after), HasAccidentalConflict(after))
  }

  /** planForWorkspace */
  function PlanFor(checks: Checks, ws: Workspace, input: PlanInput): Option<Planned> {
    var mode, index := NormalizeMode(input.desiredMode), FindApp(checks.token, ws.applications, input.application);
    if mode.None? || index.None? || index.value >= |ws.applications| then None
    else if FindApp(checks.token, ws.applications, ws.applications[index.value].CanonicalAppID()).None? then None
    else
      var routePattern := EditedPattern(checks.pattern, ws.applications[index.value].routePattern, input.routePattern);
      if routePattern.None? || !checks.metadata(ws, ws.applications[index.value], input.strict) then None
      else Some(PlanAt(checks, ws, index.value, mode.value, input.routePattern, routePattern.value, input.strict))
  }

  predicate Valid(checks: Checks, wss: seq<Workspace>) {
    UniqueIDs(wss) && checks.workspaces(wss)
  }

  /** The rules the registry runs with. */
  function RulesOf(checks: Checks): Rules {
    Rules(NormalizeMode,
          (ws: Workspace, input: PlanInput) => PlanFor(checks, ws, input),
          NormalizedRoutes,
          (wss: seq<Workspace>) => checks.text(Rendering.Sections(checks.env, wss)),
          HasAccidentalConflict,
          (wss: seq<Workspace>) => Valid(checks, wss))
  }

  lemma PlanAtIsLawful(checks: Checks, ws: Workspace, index: nat, mode: string, asked: Option<string>,
                       routePattern: Option<string>, strict: bool)
    requires index < |ws.applications|
    ensures Requests.LawfulPlan(ws, PlanAt(checks, ws, index, mode, asked, routePattern, strict))
  {
  }

  /** Planning keeps what the transaction protocol relies on. */
  lemma RulesAreLawful(checks: Checks)
    ensures Requests.Lawful(RulesOf(checks))
  {
    var rules := RulesOf(checks);
    forall ws, input | rules.plan(ws, input).Some?
      ensures Requests.LawfulPlan(ws, rules.plan(ws, input).value)
    {
      var mode, index := NormalizeMode(input.desiredMode), FindApp(checks.token, ws.applications, input.application);
      var routePattern := EditedPattern(checks.pattern, ws.applications[index.value].routePattern, input.routePattern);
      PlanAtIsLawful(checks, ws, index.value, mode.value, input.routePattern, routePattern.value, input.strict);
    }
    forall a, b | Alike(a, b)
      ensures rules.routes(a) == rules.routes(b)
    {
      RoutesDependOnBare(a, b);
    }
    forall a, b | TwinLists(a, b)
      ensures rules.render(a) == rules.render(b)
    {
      Rendering.TwinsReadTheSame(checks.env, a, b);
    }
  }

  // ---- What is planned is what is committed ----

  lemma StampingIsBare(ws: Workspace, index: nat, edited: Application, op: Operation)
    requires index < |ws.applications|
    ensures Bare(EditedWorkspace(ws, index, edited, op)) == Bare(EditedAt(ws, index, edited))
  {
    var a, b := EditedWorkspace(ws, index, edited, op), EditedAt(ws, index, edited);
    assert BareApps(a.applications) == BareApps(b.applications);
  }

  /** The routes of the committed workspace are those of the plan's after side. */
  lemma CommittedRoutesArePlanned(checks: Checks, ws: Workspace, input: PlanInput, op: Operation)
    requires PlanFor(checks, ws, input).Some?
    ensures var p := PlanFor(checks, ws, input).value;
      p.index < |ws.applications| && NormalizedRoutes(EditedWorkspace(ws, p.index, p.edited, op)) == p.plan.after
  {
    var p := PlanFor(checks, ws, input).value;
    StampingIsBare(ws, p.index, p.edited, op);
    RoutesDependOnBare(EditedWorkspace(ws, p.index, p.edited, op), EditedAt(ws, p.index, p.edited));
  }

  // ---- When a plan has nothing to do ----

  lemma DifferIsNonempty(before: seq<Route>, after: seq<Route>, keys: seq<string>)
    requires Plans.IsKeyList(keys, ByKey(Plans.ChangeKey, before).Keys + ByKey(Plans.ChangeKey, after).Keys)
    ensures Differ(before, after) <==> Plans.Difference(before, after, keys) != []
  {
    var left, right := ByKey(Plans.ChangeKey, before), ByKey(Plans.ChangeKey, after);
    var changes := Plans.Difference(before, after, keys);
    if changes != [] {
      ChangesAreExact(Plans.RouteEquivalent, left, right, keys, changes[0]);
    }
    if Differ(before, after) {
      var k :| k in left.Keys + right.Keys && !Same(Plans.RouteEquivalent, Lookup(left, k), Lookup(right, k));
      ChangesAreExact(Plans.RouteEquivalent, left, right, keys, ChangeAt(left, right, k));
    }
  }

  /** The no-op branch is taken exactly when the edited workspace has the routes it had. */
  lemma NoOpIffSameRoutes(checks: Checks, ws: Workspace, input: PlanInput, keys: seq<string>)
    requires PlanFor(checks, ws, input).Some?
    requires var p := PlanFor(checks, ws, input).value;
      && Plans.IsKeyList(keys, ByKey(Plans.ChangeKey, p.plan.before).Keys + ByKey(Plans.ChangeKey, p.plan.after).Keys)
      && RouteBuilder.ValidWorkspace(ws) && p.index < |ws.applications|
      && RouteBuilder.ValidWorkspace(EditedAt(ws, p.index, p.edited))
    ensures var p := PlanFor(checks, ws, input).value;
      !p.changed <==> SameElements(Plans.RouteEquivalent, p.plan.before, p.plan.after)
  {
    var p := PlanFor(checks, ws, input).value;
    var plan := p.plan;
    RouteBuilder.NormalizedRoutesAreWellFormed(ws);
    RouteBuilder.NormalizedRoutesAreWellFormed(EditedAt(ws, p.index, p.edited));
    DifferIsNonempty(plan.before, plan.after, keys);
    Plans.RouteDiffIsEmptyIffSame(plan.before, plan.after, keys);
  }

  // ---- Canonical plans ----

  function InputOf(plan: Plan): PlanInput {
    PlanInput(plan.applicationID, plan.desiredMode, plan.routePattern, plan.strict)
  }

  lemma ModesAreNormal()
    ensures NormalizeMode("local") == Some("local") && NormalizeMode("remote") == Some("remote")
  {
    LettersAreNormal("local");
    LettersAreNormal("remote");
  }

  lemma LettersAreNormal(s: string)
    requires forall c | c in s :: 'a' <= c <= 'z'
    ensures Lower(TrimSpace(s)) == s
  {
    TrimSpaceIsIdentity(s);
    LowerLetters(s);
  }

  lemma {:induction false} LowerLetters(s: string)
    requires forall c | c in s :: 'a' <= c <= 'z'
    ensures Lower(s) == s
  {
    if s != "" {
      assert s[0] in s && forall c | c in s[1..] :: c in s;
      LowerLetters(s[1..]);
      assert s == [s[0]] + s[1..];
    }
  }

  /** Planning a plan again gives that plan. */
  lemma PlansAreCanonical(checks: Checks, ws: Workspace, input: PlanInput)
    requires PlanFor(checks, ws, input).Some?
    ensures PlanFor(checks, ws, InputOf(PlanFor(checks, ws, input).value.plan)) == PlanFor(checks, ws, input)
  {
    var p := PlanFor(checks, ws, input).value;
    ModesAreNormal();
    CanonicalFindsTheSame(checks.token, ws.applications, input.application);
    CanonicalFindsTheSame(checks.token, ws.applications, p.plan.applicationID);
  }
}
