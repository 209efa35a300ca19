/** Refreshing a routing session: a three-way merge of the pinned baseline, the session's own
    edits and the environment of today, field by field. */
module Sessions {
  import opened Text
  import opened Model
  import opened Routes
  import opened Keyed
  import opened Differences

  // ---- Application configurations, as reflection sees them ----

  datatype Value =
    | Str(text: string) | Strs(texts: Option<seq<string>>) | Ptr(ptr: Option<string>)
    | Num(number: int) | Flag(flag: bool) | State(state: RouteState) | Op(op: Option<Operation>)

  /** The fields of an application configuration in declaration order. */
  const FIELDS := [
    "ID", "AppID", "ServiceID", "Repository", "Aliases", "Name", "Path", "PublicPath", "Domain", "RemoteBaseUrl",
    "Port", "Health", "Active", "RoutePattern", "RouteOverride", "RouteOverrideSet", "Context", "UpstreamContext",
    "FrontendRoot", "FrontendRootSource", "LegacyPublicPath", "LegacyUpstreamContext", "StripOrigin", "Route",
    "LastOperation"]

  const ID: nat := 0
  const ALIASES: nat := 4
  const PORT: nat := 10
  const ACTIVE: nat := 12
  const OVERRIDE_SET: nat := 15
  const ROUTE: nat := 23
  const LAST_OPERATION: nat := 24
  const WIDTH: nat := 25

  type Config = c: seq<Value> | |c| == WIDTH witness seq(WIDTH, _ => Num(0))

  function Identity(c: Config): Value {
    c[ID]
  }

  /** The fields the merge never touches. */
  predicate Own(field: nat) {
    field == PORT || field == ACTIVE || field == ROUTE || field == LAST_OPERATION
  }

  /** The indices stand for the names. */
  lemma FieldsAreNamed(field: nat)
    requires field < WIDTH
    ensures |FIELDS| == WIDTH
    ensures FIELDS[ID] == "ID" && FIELDS[ALIASES] == "Aliases" && FIELDS[OVERRIDE_SET] == "RouteOverrideSet"
    ensures Own(field) <==> FIELDS[field] in ["Port", "Active", "Route", "LastOperation"]
  {
    assert FIELDS[PORT] == "Port" && FIELDS[ACTIVE] == "Active" && FIELDS[ROUTE] == "Route"
      && FIELDS[LAST_OPERATION] == "LastOperation";
    assert |"Port"| == 4 && |"Active"| == 6 && |"Route"| == 5 && |"LastOperation"| == 13;
  }

  function MergedField(a: Config, pinned: Config, next: Config, field: nat): Value
    requires field < WIDTH
  {
    if !Own(field) && a[field] == pinned[field] then next[field] else a[field]
  }

  /** What the session left alone follows the environment; what it customised stays. */
  function Merged(a: Config, pinned: Config, next: Config): Config {
    seq(WIDTH, field requires 0 <= field < WIDTH => MergedField(a, pinned, next, field))
  }

  /** The loop over the fields. */
  method MergeFields(a: Config, pinned: Config, next: Config) returns (m: Config)
    ensures m == Merged(a, pinned, next)
  {
    m := a;
    for i := 0 to WIDTH
      invariant forall f | 0 <= f < i :: m[f] == MergedField(a, pinned, next, f)
      invariant forall f | i <= f < WIDTH :: m[f] == a[f]
    {
      if !Own(i) && m[i] == pinned[i] {
        m := m[i := next[i]];
      }
    }
  }

  /** sameSessionConfig, with the alias normalisation of the identity model. */
  function Comparable(aliases: Config -> Value, c: Config): Config {
    c[OVERRIDE_SET := Flag(false)][ALIASES := aliases(c)][ROUTE := Num(0)][LAST_OPERATION := Op(None)]
  }

  predicate SameConfig(aliases: Config -> Value, a: Config, b: Config) {
    Comparable(aliases, a) == Comparable(aliases, b)
  }

  // ---- The merge of the lists ----

  datatype Change = Updated(id: Value) | Removed(id: Value) | Added(id: Value) | RemoteUpdated | HostnameUpdated

  datatype Conflict = NewClashes(id: Value) | RemovedButCustomised(id: Value)

  type Index = map<Value, Config>

  /** What becomes of an application of the session. */
  function KeptFrom(aliases: Config -> Value, pinned: Index, latest: Index): Config -> seq<Config> {
    (a: Config) =>
      var id := Identity(a);
      if id !in pinned then [a]
      else if id !in latest then if SameConfig(aliases, a, pinned[id]) then [] else [a]
      else [Merged(a, pinned[id], latest[id])]
  }

  function ChangesFrom(aliases: Config -> Value, pinned: Index, latest: Index): Config -> seq<Change> {
    (a: Config) =>
      var id := Identity(a);
      if id !in pinned then []
      else if id !in latest then if SameConfig(aliases, a, pinned[id]) then [Removed(id)] else []
      else if SameConfig(aliases, a, Merged(a, pinned[id], latest[id])) then [] else [Updated(id)]
  }

  function ConflictsFrom(aliases: Config -> Value, pinned: Index, latest: Index): Config -> seq<Conflict> {
    (a: Config) =>
      var id := Identity(a);
      if id !in pinned then if id in latest then [NewClashes(id)] else []
      else if id !in latest && !SameConfig(aliases, a, pinned[id]) then [RemovedButCustomised(id)]
      else []
  }

  /** The environment's applications that are new to the session. */
  function AddedFrom(seen: set<Value>, pinned: Index): Config -> seq<Config> {
    (a: Config) => if Identity(a) in seen || Identity(a) in pinned then [] else [a]
  }

  function AddedChange(seen: set<Value>, pinned: Index): Config -> seq<Change> {
    (a: Config) => if Identity(a) in seen || Identity(a) in pinned then [] else [Added(Identity(a))]
  }

  datatype Merge = Merge(apps: seq<Config>, changes: seq<Change>, conflicts: seq<Conflict>)

  function Identities(apps: seq<Config>): set<Value> {
    set a | a in apps :: Identity(a)
  }

  function MergeLists(aliases: Config -> Value, current: seq<Config>, baseline: seq<Config>, today: seq<Config>): Merge
  {
    var pinned, latest, seen := ByKey(Identity, baseline), ByKey(Identity, today), Identities(current);
    Merge(FlatMap(KeptFrom(aliases, pinned, latest), current) + FlatMap(AddedFrom(seen, pinned), today),
          FlatMap(ChangesFrom(aliases, pinned, latest), current) + FlatMap(AddedChange(seen, pinned), today),
          FlatMap(ConflictsFrom(aliases, pinned, latest), current))
  }

  /** The first loop of refreshSession. */
  method MergeCurrent(aliases: Config -> Value, current: seq<Config>, pinned: Index, latest: Index)
    returns (apps: seq<Config>, changes: seq<Change>, conflicts: seq<Conflict>, seen: set<Value>)
    ensures apps == FlatMap(KeptFrom(aliases, pinned, latest), current)
    ensures changes == FlatMap(ChangesFrom(aliases, pinned, latest), current)
    ensures conflicts == FlatMap(ConflictsFrom(aliases, pinned, latest), current)
    ensures seen == Identities(current)
  {
    apps, changes, conflicts, seen := [], [], [], {};
    for i := 0 to |current|
      invariant apps == FlatMap(KeptFrom(aliases, pinned, latest), current[..i])
      invariant changes == FlatMap(ChangesFrom(aliases, pinned, latest), current[..i])
      invariant conflicts == FlatMap(ConflictsFrom(aliases, pinned, latest), current[..i])
      invariant seen == Identities(current[..i])
    {
      var a := current[i];
      assert current[..i + 1][..i] == current[..i] && current[..i + 1] == current[..i] + [a];
      seen := seen + {Identity(a)};
      var kept, change, conflict := MergeApplication(aliases, a, pinned, latest);
      apps, changes, conflicts := apps + kept, changes + change, conflicts + conflict;
    }
    assert current[..|current|] == current;
  }

  /** One turn of that loop. */
  method MergeApplication(aliases: Config -> Value, a: Config, pinned: Index, latest: Index)
    returns (kept: seq<Config>, change: seq<Change>, conflict: seq<Conflict>)
    ensures kept == KeptFrom(aliases, pinned, latest)(a)
    ensures change == ChangesFrom(aliases, pinned, latest)(a)
    ensures conflict == ConflictsFrom(aliases, pinned, latest)(a)
  {
    var id := Identity(a);
    kept, change, conflict := [a], [], [];
    if id !in pinned {
      if id in latest {
        conflict := [NewClashes(id)];
      }
      return;
    }
    if id !in latest {
      if !SameConfig(aliases, a, pinned[id]) {
        conflict := [RemovedButCustomised(id)];
      } else {
        kept, change := [], [Removed(id)];
      }
      return;
    }
    var merged := MergeFields(a, pinned[id], latest[id]);
    if !SameConfig(aliases, a, merged) {
      change := [Updated(id)];
    }
    kept := [merged];
  }

  method MergeSession(aliases: Config -> Value, current: seq<Config>, baseline: seq<Config>, today: seq<Config>)
    returns (m: Merge)
    ensures m == MergeLists(aliases, current, baseline, today)
  {
    var pinned := Differences.Index(Identity, baseline);
    var latest := Differences.Index(Identity, today);
    var apps, changes, conflicts, seen := MergeCurrent(aliases, current, pinned, latest);
    apps := AppendEach(AddedFrom(seen, pinned), today, apps);
    changes := AppendEach(AddedChange(seen, pinned), today, changes);
    m := Merge(apps, changes, conflicts);
  }

  // ---- The laws of the merged list ----

  lemma MergedKeepsIdentity(a: Config, pinned: Config, next: Config)
    requires Identity(next) == Identity(a)
    ensures Identity(Merged(a, pinned, next)) == Identity(a)
  {
  }

  /** An inherited application is in the merged list, with the environment's value in every
      field the session left alone and its own value in every other; port, activation and
      operations are always the session's own. */
  lemma FieldLaws(aliases: Config -> Value, current: seq<Config>, baseline: seq<Config>, today: seq<Config>, a: Config)
    returns (x: Config)
    requires a in current && Identity(a) in ByKey(Identity, baseline) && Identity(a) in ByKey(Identity, today)
    ensures x in MergeLists(aliases, current, baseline, today).apps && Identity(x) == Identity(a)
    ensures var pinned, next := ByKey(Identity, baseline)[Identity(a)], ByKey(Identity, today)[Identity(a)];
      forall field | 0 <= field < WIDTH ::
        && (Own(field) || a[field] != pinned[field] ==> x[field] == a[field])
        && (!Own(field) && a[field] == pinned[field] ==> x[field] == next[field])
  {
    var pinned, latest := ByKey(Identity, baseline), ByKey(Identity, today);
    ByKeyFiles(Identity, today);
    x := Merged(a, pinned[Identity(a)], latest[Identity(a)]);
    MergedKeepsIdentity(a, pinned[Identity(a)], latest[Identity(a)]);
    assert KeptFrom(aliases, pinned, latest)(a) == [x];
    FlatMapHas(KeptFrom(aliases, pinned, latest), current, x);
  }

  /** Whatever the session has is kept under its identity, unless nothing distinguishes it from
      what the environment has dropped. */
  lemma DroppedOnlyIfUntouched(aliases: Config -> Value, current: seq<Config>, baseline: seq<Config>,
                               today: seq<Config>, a: Config)
    requires a in current
    ensures var m, pinned, latest := MergeLists(aliases, current, baseline, today), ByKey(Identity, baseline),
      ByKey(Identity, today);
      || (exists x | x in m.apps :: Identity(x) == Identity(a))
      || (Identity(a) in pinned && Identity(a) !in latest && SameConfig(aliases, a, pinned[Identity(a)]))
  {
    var pinned, latest := ByKey(Identity, baseline), ByKey(Identity, today);
    var kept := KeptFrom(aliases, pinned, latest)(a);
    ByKeyFiles(Identity, today);
    if kept != [] {
      FlatMapHas(KeptFrom(aliases, pinned, latest), current, kept[0]);
      assert Identity(kept[0]) == Identity(a);
    }
  }

  lemma KeptIsOfCurrent(aliases: Config -> Value, current: seq<Config>, pinned: Index, latest: Index, x: Config)
    requires Filed(Identity, latest) && x in FlatMap(KeptFrom(aliases, pinned, latest), current)
    ensures exists a | a in current :: Identity(a) == Identity(x) && x in KeptFrom(aliases, pinned, latest)(a)
  {
    FlatMapHas(KeptFrom(aliases, pinned, latest), current, x);
  }

  /** An application deleted in the session is not added again. */
  lemma DeletionsStay(aliases: Config -> Value, current: seq<Config>, baseline: seq<Config>, today: seq<Config>,
                      x: Config)
    requires x in MergeLists(aliases, current, baseline, today).apps
    ensures Identity(x) in Identities(current) || (x in today && Identity(x) !in ByKey(Identity, baseline))
  {
    var pinned, latest, seen := ByKey(Identity, baseline), ByKey(Identity, today), Identities(current);
    ByKeyFiles(Identity, today);
    if x in FlatMap(KeptFrom(aliases, pinned, latest), current) {
      KeptIsOfCurrent(aliases, current, pinned, latest, x);
    } else {
      FlatMapHas(AddedFrom(seen, pinned), today, x);
    }
  }

  /** An application new in the environment is taken over as it is. */
  lemma NewcomersArrive(aliases: Config -> Value, current: seq<Config>, baseline: seq<Config>, today: seq<Config>,
                        n: Config)
    requires n in today && Identity(n) !in Identities(current) && Identity(n) !in ByKey(Identity, baseline)
    ensures n in MergeLists(aliases, current, baseline, today).apps
    ensures Added(Identity(n)) in MergeLists(aliases, current, baseline, today).changes
  {
    var pinned, seen := ByKey(Identity, baseline), Identities(current);
    FlatMapHas(AddedFrom(seen, pinned), today, n);
    FlatMapHas(AddedChange(seen, pinned), today, Added(Identity(n)));
  }

  /** One application at most from each, under the same key. */
  ghost predicate Singular<T, K>(key: T -> K, f: T -> seq<T>, xs: seq<T>) {
    forall x | x in xs :: |f(x)| <= 1 && forall y | y in f(x) :: key(y) == key(x)
  }

  lemma {:induction false} FlatMapKeepsDistinct<T(!new), K>(key: T -> K, f: T -> seq<T>, xs: seq<T>)
    requires DistinctBy(key, xs) && Singular(key, f, xs)
    ensures DistinctBy(key, FlatMap(f, xs))
    ensures forall y | y in FlatMap(f, xs) :: exists x | x in xs :: key(x) == key(y)
  {
    if xs != [] {
      var init, last := xs[..|xs| - 1], xs[|xs| - 1];
      assert xs == init + [last];
      FlatMapKeepsDistinct(key, f, init);
      var rest := FlatMap(f, init);
      if f(last) != [] {
        assert f(last) == [f(last)[0]] && f(last)[0] in f(last);
        forall i | 0 <= i < |rest|
          ensures key(rest[i]) != key(last)
        {
          assert rest[i] in rest;
          var x :| x in init && key(x) == key(rest[i]);
          var k :| 0 <= k < |init| && init[k] == x;
          assert key(xs[k]) != key(xs[|xs| - 1]);
        }
      }
    }
  }

  lemma ConcatKeepsDistinct<T, K>(key: T -> K, a: seq<T>, b: seq<T>)
    requires DistinctBy(key, a) && DistinctBy(key, b)
    requires forall x, y | x in a && y in b :: key(x) != key(y)
    ensures DistinctBy(key, a + b)
  {
  }

  /** Each application once. */
  lemma MergeKeepsIdentitiesDistinct(aliases: Config -> Value, current: seq<Config>, baseline: seq<Config>,
                                     today: seq<Config>)
    requires DistinctBy(Identity, current) && DistinctBy(Identity, today)
    ensures DistinctBy(Identity, MergeLists(aliases, current, baseline, today).apps)
  {
    var pinned, latest, seen := ByKey(Identity, baseline), ByKey(Identity, today), Identities(current);
    ByKeyFiles(Identity, today);
    var kept, added := FlatMap(KeptFrom(aliases, pinned, latest), current), FlatMap(AddedFrom(seen, pinned), today);
    FlatMapKeepsDistinct(Identity, KeptFrom(aliases, pinned, latest), current);
    FlatMapKeepsDistinct(Identity, AddedFrom(seen, pinned), today);
    forall x, y | x in kept && y in added
      ensures Identity(x) != Identity(y)
    {
      KeptIsOfCurrent(aliases, current, pinned, latest, x);
      FlatMapHas(AddedFrom(seen, pinned), today, y);
    }
    ConcatKeepsDistinct(Identity, kept, added);
  }

  // ---- Nothing to merge ----

  lemma MergingWithItself(a: Config, pinned: Config)
    ensures Merged(a, pinned, pinned) == a
  {
  }

  lemma {:induction false} FlatMapOfSingletons<T>(f: T -> seq<T>, xs: seq<T>)
    requires forall x | x in xs :: f(x) == [x]
    ensures FlatMap(f, xs) == xs
  {
    if xs != [] {
      FlatMapOfSingletons(f, xs[..|xs| - 1]);
    }
  }

  lemma {:induction false} FlatMapOfNothing<T, R>(f: T -> seq<R>, xs: seq<T>)
    requires forall x | x in xs :: f(x) == []
    ensures FlatMap(f, xs) == []
  {
    if xs != [] {
      FlatMapOfNothing(f, xs[..|xs| - 1]);
    }
  }

  /** With the environment as the baseline, a merge leaves any session as it is. */
  lemma MergeConverges(aliases: Config -> Value, current: seq<Config>, today: seq<Config>)
    ensures MergeLists(aliases, current, today, today) == Merge(current, [], [])
  {
    var pinned, seen := ByKey(Identity, today), Identities(current);
    ByKeyFiles(Identity, today);
    forall a | a in current
      ensures KeptFrom(aliases, pinned, pinned)(a) == [a]
      ensures ChangesFrom(aliases, pinned, pinned)(a) == [] && ConflictsFrom(aliases, pinned, pinned)(a) == []
    {
      if Identity(a) in pinned {
        MergingWithItself(a, pinned[Identity(a)]);
      }
    }
    FlatMapOfSingletons(KeptFrom(aliases, pinned, pinned), current);
    FlatMapOfNothing(ChangesFrom(aliases, pinned, pinned), current);
    FlatMapOfNothing(ConflictsFrom(aliases, pinned, pinned), current);
    forall n | n in today
      ensures AddedFrom(seen, pinned)(n) == [] && AddedChange(seen, pinned)(n) == []
    {
      assert Identity(n) in pinned;
    }
    FlatMapOfNothing(AddedFrom(seen, pinned), today);
    FlatMapOfNothing(AddedChange(seen, pinned), today);
  }

  // ---- The preview and its token ----

  /** A routing session: its revision, what it is pinned to, and what it has. */
  datatype Session = Session(
    revision: nat, environmentID: string, hostPrefix: string, baseline: seq<Config>, baselineVersion: nat,
    baselineRemote: string, apps: seq<Config>, remote: string, localDomain: string)

  /** What a refresh takes from the environment: its applications as a baseline for the session's
      host prefix, and its routing defaults. */
  datatype Environment = Environment(today: seq<Config>, version: nat, remote: string, localDomain: string)

  /** The payload whose hash is the token. */
  datatype Token = Token(
    revision: nat, environmentID: string, hostPrefix: string, baseline: seq<Config>, baselineVersion: nat,
    baselineRemote: string, apps: seq<Config>, remote: string, today: seq<Config>)

  function TokenOf(s: Session, e: Environment): Token {
    Token(s.revision, s.environmentID, s.hostPrefix, s.baseline, s.baselineVersion, s.baselineRemote, s.apps, e.remote,
          e.today)
  }

  /** sessionHostname, for a normalised prefix. */
  function SessionHostname(prefix: string, inherited: string): string {
    var host := Lower(TrimSpace(TrimSuffix(inherited, ".")));
    if prefix == "" || host == "" then host else prefix + "." + host
  }

  /** What else speaks against a session: the errors of validating all workspaces with it, and
      its accidental route conflicts. */
  type Problems = Session -> seq<string>

  datatype Preview = Preview(session: Session, changes: seq<Change>, conflicts: seq<Conflict>, problems: seq<string>,
                             token: Token)

  function RefreshedRemote(s: Session, e: Environment): string {
    if s.remote == s.baselineRemote then e.remote else s.remote
  }

  function RemoteChange(s: Session, e: Environment): seq<Change> {
    if s.remote == s.baselineRemote && s.remote != e.remote then [RemoteUpdated] else []
  }

  function HostnameChange(s: Session, e: Environment): seq<Change> {
    if s.localDomain != SessionHostname(s.hostPrefix, e.localDomain) then [HostnameUpdated] else []
  }

  /** The session a refresh leads to. Refilling empty aliases and repositories from the
      applications the session had is left to a function of both lists. */
  function Refreshed(aliases: Config -> Value, refill: (seq<Config>, seq<Config>) -> seq<Config>, s: Session,
                     e: Environment): Session
  {
    s.(baseline := e.today, baselineVersion := e.version, baselineRemote := e.remote,
       apps := refill(s.apps, MergeLists(aliases, s.apps, s.baseline, e.today).apps), remote := RefreshedRemote(s, e),
       localDomain := SessionHostname(s.hostPrefix, e.localDomain))
  }

  /** refreshSession */
  function Refresh(aliases: Config -> Value, refill: (seq<Config>, seq<Config>) -> seq<Config>, problems: Problems,
                   s: Session, e: Environment): Preview
  {
    var m, session := MergeLists(aliases, s.apps, s.baseline, e.today), Refreshed(aliases, refill, s, e);
    Preview(session, m.changes + RemoteChange(s, e) + HostnameChange(s, e), m.conflicts, problems(session),
            TokenOf(s, e))
  }

  datatype Applied =
    | Accepted(session: Session)
    | StalePreview
    | Unresolved(conflicts: seq<Conflict>, problems: seq<string>)

  /** RefreshRoutingSession with apply set: the preview is computed again under the lock. */
  method ApplyRefresh(aliases: Config -> Value, refill: (seq<Config>, seq<Config>) -> seq<Config>, problems: Problems,
                      s: Session, e: Environment, token: Option<Token>, version: nat)
    returns (r: Applied)
    ensures r.StalePreview? <==> token != Some(TokenOf(s, e))
    ensures !r.StalePreview? ==>
      var preview := Refresh(aliases, refill, problems, s, e);
      r == if preview.conflicts == [] && preview.problems == [] then Accepted(preview.session.(revision := version))
           else Unresolved(preview.conflicts, preview.problems)
  {
    var m := MergeSession(aliases, s.apps, s.baseline, e.today);
    if token != Some(TokenOf(s, e)) {
      return StalePreview;
    }
    var remote, host := RefreshedRemote(s, e), SessionHostname(s.hostPrefix, e.localDomain);
    var session := s.(baseline := e.today, baselineVersion := e.version, baselineRemote := e.remote,
                      apps := refill(s.apps, m.apps), remote := remote, localDomain := host);
    if m.conflicts != [] || problems(session) != [] {
      return Unresolved(m.conflicts, problems(session));
    }
    r := Accepted(session.(revision := version));
  }

  /** After a refresh, and whatever else the session is given meanwhile, merging the same
      environment has nothing to add; what remains is what validation has to say. */
  lemma RefreshConverges(aliases: Config -> Value, refill: (seq<Config>, seq<Config>) -> seq<Config>,
                         problems: Problems, s: Session, e: Environment, revision: nat)
    ensures var first := Refreshed(aliases, refill, s, e).(revision := revision);
      var again := Refresh(aliases, refill, problems, first, e);
      && again.changes == [] && again.conflicts == [] && again.problems == problems(again.session)
      && again.session == first.(apps := refill(first.apps, first.apps))
  {
    var refreshed := Refreshed(aliases, refill, s, e);
    MergeConverges(aliases, refreshed.apps, e.today);
  }

  /** Of one revision of a session, and up to the environment's local domain and version, a
      token stands for one merge. */
  lemma TokenCoversThePreview(aliases: Config -> Value, refill: (seq<Config>, seq<Config>) -> seq<Config>,
                              shown: Problems, found: Problems, s: Session, e: Environment, f: Environment)
    requires TokenOf(s, e) == TokenOf(s, f)
    ensures var p, q := Refresh(aliases, refill, shown, s, e), Refresh(aliases, refill, found, s, f);
      && q.session == p.session.(baselineVersion := f.version,
                                 localDomain := SessionHostname(s.hostPrefix, f.localDomain))
      && q.conflicts == p.conflicts
      && (q.changes == p.changes <==> HostnameChange(s, e) == HostnameChange(s, f))
  {
    var m := MergeLists(aliases, s.apps, s.baseline, e.today);
    assert e.today == f.today && e.remote == f.remote;
  }

  /** What is applied is what was shown, exactly when the environment's domain still leads to the
      same hostname, its version has not moved and validation says the same: the token covers
      none of these. */
  lemma AppliedIsShownIff(aliases: Config -> Value, refill: (seq<Config>, seq<Config>) -> seq<Config>, shown: Problems,
                          found: Problems, s: Session, e: Environment, f: Environment)
    requires TokenOf(s, e) == TokenOf(s, f)
    ensures Refresh(aliases, refill, shown, s, e) == Refresh(aliases, refill, found, s, f) <==>
      && SessionHostname(s.hostPrefix, e.localDomain) == SessionHostname(s.hostPrefix, f.localDomain)
        && e.version == f.version
      && shown(Refreshed(aliases, refill, s, e)) == found(Refreshed(aliases, refill, s, e))
  {
    TokenCoversThePreview(aliases, refill, shown, found, s, e, f);
  }

  /** An environment that moves to another domain between preview and apply. */
  lemma DomainEscapesTheToken(aliases: Config -> Value, refill: (seq<Config>, seq<Config>) -> seq<Config>,
                              problems: Problems)
    ensures var s := Session(1, "dev", "s", [], 1, "", [], "", "s.a");
      var e, f := Environment([], 1, "", "a"), Environment([], 2, "", "b");
      && TokenOf(s, e) == TokenOf(s, f)
      && Refresh(aliases, refill, problems, s, e).changes == []
      && Refresh(aliases, refill, problems, s, f).changes == [HostnameUpdated]
      && Refresh(aliases, refill, problems, s, f).session.localDomain == "s.b"
  {
    var s := Session(1, "dev", "s", [], 1, "", [], "", "s.a");
    MergeConverges(aliases, [], []);
    OneLetterHost('a');
    OneLetterHost('b');
    assert SessionHostname("s", "a") == "s.a" && SessionHostname("s", "b") == "s.b";
  }

  lemma OneLetterHost(c: char)
    requires 'a' <= c <= 'z'
    ensures Lower(TrimSpace(TrimSuffix([c], "."))) == [c]
  {
    TrimSpaceIsIdentity([c]);
    assert [c][1..] == "" && Lower("") == "";
  }
}
