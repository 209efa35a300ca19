/** Route plans: the mutation a plan intends, the projection before and after it, and their
    difference. */
module Plans {
  import opened Text
  import opened Routes
  import opened Keyed
  import opened StableSort
  import opened Differences
  import Conflicts

  // ---- Differences ----

  predicate RouteEquivalent(a: Route, b: Route) {
    && a.workspaceID == b.workspaceID && a.publicHost == b.publicHost && a.pattern == b.pattern && a.exact == b.exact
    && a.canonicalAppID == b.canonicalAppID && a.serviceID == b.serviceID && a.desiredMode == b.desiredMode
    && a.effectiveMode == b.effectiveMode && a.target == b.target && a.localTarget == b.localTarget
    && a.remoteTarget == b.remoteTarget && a.remoteFallback == b.remoteFallback
    && a.upstreamContext == b.upstreamContext && a.intentionalOverride == b.intentionalOverride
  }

  function KeyParts(route: Route): seq<string> {
    [route.publicHost, route.pattern, route.canonicalAppID, route.serviceID]
  }

  function ChangeKey(route: Route): string {
    Join(KeyParts(route), '\0')
  }

  ghost predicate IsKeyList(keys: seq<string>, all: set<string>) {
    && Sorted(Less, keys)
    && (forall i, j | 0 <= i < j < |keys| :: keys[i] != keys[j])
    && (forall k :: k in keys <==> k in all)
  }

  /** What diffRoutes returns for keys in this order. */
  function Difference(before: seq<Route>, after: seq<Route>, keys: seq<string>): seq<Change<Route>> {
    ChangesFor(RouteEquivalent, ByKey(ChangeKey, before), ByKey(ChangeKey, after), keys)
  }

  method ListKeys(left: set<string>, right: set<string>) returns (keys: seq<string>)
    ensures IsKeyList(keys, left + right)
  {
    keys := [];
    var rest := left + right;
    while rest != {}
      invariant forall k :: k in keys <==> k in left + right && k !in rest
      invariant forall i, j | 0 <= i < j < |keys| :: keys[i] != keys[j]
      invariant rest <= left + right
    {
      var k :| k in rest;
      keys := keys + [k];
      rest := rest - {k};
    }
    LessIsStrictWeak();
    SortOrders(Less, keys);
    SortKeepsElements(Less, keys);
    SortKeepsDistinct(Less, Self, keys);
    keys := Sort(Less, keys);
    assert forall i, j | 0 <= i < j < |keys| :: Self(keys[i]) != Self(keys[j]);
  }

  function Self(s: string): string {
    s
  }

  lemma LessIsStrictWeak()
    ensures StrictWeakOrder(Less)
  {
    forall x, y, z
      ensures !Less(x, x)
      ensures Less(x, y) && Less(y, z) ==> Less(x, z)
      ensures Less(x, z) ==> Less(x, y) || Less(y, z)
    {
      LessIsIrreflexive(x);
      LessIsTotal(x, y);
      if Less(x, y) && Less(y, z) {
        LessIsTransitive(x, y, z);
      }
      if Less(x, z) && Less(y, x) {
        LessIsTransitive(y, x, z);
      }
    }
  }

  /** A change and the application it is filed under. */
  datatype RouteChange = RouteChange(applicationID: string, change: Change<Route>)

  function AppOf(route: Option<Route>): string {
    if route.Some? then route.value.canonicalAppID else ""
  }

  function File(c: Change<Route>): RouteChange {
    RouteChange(if AppOf(c.after) != "" then AppOf(c.after) else AppOf(c.before), c)
  }

  function FileAll(changes: seq<Change<Route>>): seq<RouteChange> {
    seq(|changes|, i requires 0 <= i < |changes| => File(changes[i]))
  }

  /** diffRoutes */
  method DiffRoutes(before: seq<Route>, after: seq<Route>) returns (changes: seq<RouteChange>)
    ensures exists keys ::
      && IsKeyList(keys, ByKey(ChangeKey, before).Keys + ByKey(ChangeKey, after).Keys)
      && changes == FileAll(Difference(before, after, keys))
  {
    var left := Index(ChangeKey, before);
    var right := Index(ChangeKey, after);
    var keys := ListKeys(left.Keys, right.Keys);
    var found := ListChanges(RouteEquivalent, left, right, keys);
    assert IsKeyList(keys, ByKey(ChangeKey, before).Keys + ByKey(ChangeKey, after).Keys);
    changes := [];
    for i := 0 to |found|
      invariant changes == FileAll(found[..i])
    {
      changes := changes + [File(found[i])];
      assert FileAll(found[..i + 1]) == FileAll(found[..i]) + [File(found[i])];
    }
    assert found[..|found|] == found;
  }

  lemma RouteEquivalenceRespectsKeys()
    ensures Equivalence(ChangeKey, RouteEquivalent)
  {
  }

  // ---- A route difference is a patch ----

  lemma NonemptyHasSome(s: seq<string>)
    ensures s != [] ==> exists k :: k in s
  {
    if s != [] {
      assert s[0] in s;
    }
  }

  lemma {:induction false} AscendingIsDetermined(a: seq<string>, b: seq<string>)
    requires forall i, j | 0 <= i < j < |a| :: Less(a[i], a[j])
    requires forall i, j | 0 <= i < j < |b| :: Less(b[i], b[j])
    requires forall k :: k in a <==> k in b
    ensures a == b
  {
    if a == [] {
      NonemptyHasSome(b);
    } else {
      assert a[0] in b;
      assert b[0] in a;
      var i :| 0 <= i < |b| && b[i] == a[0];
      var j :| 0 <= j < |a| && a[j] == b[0];
      if i != 0 && j != 0 {
        LessIsAsymmetric(a[0], b[0]);
        assert false;
      }
      LessIsIrreflexive(a[0]);
      forall k
        ensures k in a[1..] <==> k in b[1..]
      {
        assert k in a[1..] ==> k in a;
        assert k in b[1..] ==> k in b;
        assert a == [a[0]] + a[1..] && b == [b[0]] + b[1..];
      }
      AscendingIsDetermined(a[1..], b[1..]);
    }
  }

  lemma KeyListAscends(keys: seq<string>, all: set<string>)
    requires IsKeyList(keys, all)
    ensures forall i, j | 0 <= i < j < |keys| :: Less(keys[i], keys[j])
  {
    forall i, j | 0 <= i < j < |keys|
      ensures Less(keys[i], keys[j])
    {
      LessIsTotal(keys[i], keys[j]);
    }
  }

  /** The order of the keys is determined, so the difference is one list. */
  lemma KeyListIsDetermined(a: seq<string>, b: seq<string>, all: set<string>)
    requires IsKeyList(a, all) && IsKeyList(b, all)
    ensures a == b
  {
    KeyListAscends(a, all);
    KeyListAscends(b, all);
    AscendingIsDetermined(a, b);
  }

  /** Applying the difference to the old projection gives the new one. */
  lemma RouteDiffIsAPatch(before: seq<Route>, after: seq<Route>, keys: seq<string>)
    requires IsKeyList(keys, ByKey(ChangeKey, before).Keys + ByKey(ChangeKey, after).Keys)
    ensures SameMap(RouteEquivalent, Patch(ChangeKey, ByKey(ChangeKey, before), Difference(before, after, keys)),
                    ByKey(ChangeKey, after))
  {
    RouteEquivalenceRespectsKeys();
    ByKeyFiles(ChangeKey, before);
    ByKeyFiles(ChangeKey, after);
    DiffIsAPatch(ChangeKey, RouteEquivalent, ByKey(ChangeKey, before), ByKey(ChangeKey, after), keys);
  }

  lemma DistinctKeysDistinctChangeKeys(a: Route, b: Route)
    requires Conflicts.WellFormed(a) && Conflicts.WellFormed(b) && RouteKey(a) != RouteKey(b)
    ensures ChangeKey(a) != ChangeKey(b)
  {
  }

  lemma PartsAreFree(route: Route)
    requires Conflicts.WellFormed(route)
    ensures Free('\0', KeyParts(route))
  {
  }

  lemma ThirdPart(a: Route, b: Route)
    requires KeyParts(a) == KeyParts(b)
    ensures a.canonicalAppID == b.canonicalAppID
  {
    assert KeyParts(a)[2] == a.canonicalAppID && KeyParts(b)[2] == b.canonicalAppID;
  }

  lemma SameChangeKeySameApp(a: Route, b: Route)
    requires Conflicts.WellFormed(a) && Conflicts.WellFormed(b) && ChangeKey(a) == ChangeKey(b)
    ensures a.canonicalAppID == b.canonicalAppID
  {
    PartsAreFree(a);
    PartsAreFree(b);
    JoinIsInjective(KeyParts(a), KeyParts(b), '\0');
    ThirdPart(a, b);
  }

  lemma SidesHaveOneOwner(before: Option<Route>, after: Option<Route>, key: string)
    requires before.Some? ==> Conflicts.WellFormed(before.value) && ChangeKey(before.value) == key
    requires after.Some? ==> Conflicts.WellFormed(after.value) && ChangeKey(after.value) == key
    ensures var id := File(Change(before, after)).applicationID;
      (before.Some? ==> before.value.canonicalAppID == id) && (after.Some? ==> after.value.canonicalAppID == id)
  {
    if before.Some? && after.Some? {
      SameChangeKeySameApp(before.value, after.value);
    }
  }

  /** A change is filed under the application that owns both of its sides. */
  lemma ChangesAreFiledUnderTheirOwner(before: seq<Route>, after: seq<Route>, keys: seq<string>, c: Change<Route>)
    requires Conflicts.WorkspaceRoutes(before) && Conflicts.WorkspaceRoutes(after)
    requires c in Difference(before, after, keys)
    ensures c.before.Some? ==> c.before.value.canonicalAppID == File(c).applicationID
    ensures c.after.Some? ==> c.after.value.canonicalAppID == File(c).applicationID
  {
    var k := ChangeHasKey(ChangeKey, RouteEquivalent, before, after, keys, c);
    SidesHaveOneOwner(c.before, c.after, k);
  }

  /** A projection has one route per change key, so nothing is lost on the way. */
  lemma ProjectionHasOneRoutePerKey(routes: seq<Route>)
    requires Conflicts.WorkspaceRoutes(routes)
    ensures DistinctBy(ChangeKey, routes)
  {
    forall i, j | 0 <= i < j < |routes|
      ensures ChangeKey(routes[i]) != ChangeKey(routes[j])
    {
      DistinctKeysDistinctChangeKeys(routes[i], routes[j]);
    }
  }

  /** The difference of two projections is empty exactly when they hold the same routes. */
  lemma RouteDiffIsEmptyIffSame(before: seq<Route>, after: seq<Route>, keys: seq<string>)
    requires Conflicts.WorkspaceRoutes(before)
    requires Conflicts.WorkspaceRoutes(after)
    requires IsKeyList(keys, ByKey(ChangeKey, before).Keys + ByKey(ChangeKey, after).Keys)
    ensures Difference(before, after, keys) == [] <==> SameElements(RouteEquivalent, before, after)
  {
    RouteEquivalenceRespectsKeys();
    ProjectionHasOneRoutePerKey(before);
    ProjectionHasOneRoutePerKey(after);
    DiffIsEmptyIffSame(ChangeKey, RouteEquivalent, before, after, keys);
  }
}
