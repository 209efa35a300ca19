/** compactLocations: groups of exact and prefix locations with the same proxy become one
    regular-expression location plus an ordered map from URI to proof id. */
module Compact {
  import opened Text
  import opened Nginx
  import opened StableSort
  import Regex

  // ---- Which locations are folded ----

  predicate Mergeable(l: Location) {
    l.pattern != "/" && l.redirect == "" && l.rewrite == "" && !l.trace && !l.stripOrigin && l.proxy.passURI == ""
  }

  predicate InGroup(l: Location, proxy: Proxy) {
    Mergeable(l) && l.proxy == proxy
  }

  predicate CatchAll(l: Location) {
    l.pattern == "/" && l.modifier == ""
  }

  predicate Overlap(a: Location, b: Location) {
    if a.modifier == "=" && b.modifier == "=" then a.pattern == b.pattern
    else if a.modifier == "=" then b.pattern <= a.pattern
    else if b.modifier == "=" then a.pattern <= b.pattern
    else b.pattern <= a.pattern || a.pattern <= b.pattern
  }

  predicate Clashes(l: Location, other: Location) {
    !InGroup(other, l.proxy) && !CatchAll(other) && Overlap(l, other)
  }

  predicate Safe(locations: seq<Location>, l: Location) {
    forall other | other in locations :: !Clashes(l, other)
  }

  predicate Before(a: Location, b: Location) {
    if (a.modifier == "=") != (b.modifier == "=") then a.modifier == "="
    else |a.pattern| > |b.pattern|
  }

  /** One group, in order. */
  function Members(part: seq<Location>, proxy: Proxy): seq<Location> {
    if part == [] then []
    else
      var rest, l := Members(part[..|part| - 1], proxy), part[|part| - 1];
      if InGroup(l, proxy) then rest + [l] else rest
  }

  function SafeOf(all: seq<Location>, part: seq<Location>): seq<Location> {
    if part == [] then []
    else
      var rest, l := SafeOf(all, part[..|part| - 1]), part[|part| - 1];
      if Safe(all, l) then rest + [l] else rest
  }

  function SafeMembers(locations: seq<Location>, proxy: Proxy): seq<Location> {
    SafeOf(locations, Members(locations, proxy))
  }

  predicate Big(locations: seq<Location>, proxy: Proxy) {
    |SafeMembers(locations, proxy)| >= 4
  }

  /** The proxies of the mergeable locations, by first appearance. */
  function ProxyOrder(part: seq<Location>): seq<Proxy> {
    if part == [] then []
    else
      var rest, l := ProxyOrder(part[..|part| - 1]), part[|part| - 1];
      if Mergeable(l) && l.proxy !in rest then rest + [l.proxy] else rest
  }

  function BigProxies(locations: seq<Location>, order: seq<Proxy>): seq<Proxy> {
    if order == [] then []
    else
      var rest, p := BigProxies(locations, order[..|order| - 1]), order[|order| - 1];
      if Big(locations, p) then rest + [p] else rest
  }

  predicate Removed(locations: seq<Location>, l: Location) {
    Mergeable(l) && Safe(locations, l) && Big(locations, l.proxy)
  }

  function Kept(all: seq<Location>, part: seq<Location>): seq<Location> {
    if part == [] then []
    else
      var rest, l := Kept(all, part[..|part| - 1]), part[|part| - 1];
      if Removed(all, l) then rest else rest + [l]
  }

  // ---- What they are folded into ----

  function MapName(server: nat, k: nat): string {
    "rementor_location_" + Decimal(server) + "_" + Decimal(k)
  }

  function AlternativeFor(l: Location): string {
    Regex.QuoteMeta(l.pattern) + if l.modifier == "=" then "$" else ""
  }

  function AlternativesFor(safe: seq<Location>): seq<string> {
    seq(|safe|, i requires 0 <= i < |safe| => AlternativeFor(safe[i]))
  }

  function EntriesFor(safe: seq<Location>): seq<RouteProofEntry> {
    seq(|safe|, i requires 0 <= i < |safe| => RouteProofEntry("^" + AlternativeFor(safe[i]), safe[i].proofIndex))
  }

  function SortedSafe(locations: seq<Location>, proxy: Proxy): (safe: seq<Location>)
    ensures |safe| == |SafeMembers(locations, proxy)|
  {
    SortKeepsElements(Before, SafeMembers(locations, proxy));
    Sort(Before, SafeMembers(locations, proxy))
  }

  function MergedPattern(safe: seq<Location>): string {
    "^(?:" + Join(AlternativesFor(safe), '|') + ")"
  }

  function MergedLocation(safe: seq<Location>, name: string): Location
    requires |safe| > 0
  {
    safe[0].(modifier := "~", pattern := MergedPattern(safe), proofSelector := "$" + name)
  }

  function Merged(locations: seq<Location>, server: nat, big: seq<Proxy>): seq<Location>
    requires forall k | 0 <= k < |big| :: Big(locations, big[k])
  {
    seq(|big|, k requires 0 <= k < |big| =>
      assert Big(locations, big[k]); MergedLocation(SortedSafe(locations, big[k]), MapName(server, k)))
  }

  function MergedMaps(locations: seq<Location>, server: nat, big: seq<Proxy>): seq<RouteProofMap> {
    seq(|big|, k requires 0 <= k < |big| =>
          RouteProofMap(MapName(server, k), EntriesFor(SortedSafe(locations, big[k]))))
  }

  lemma {:induction false} BigProxiesAreBig(locations: seq<Location>, order: seq<Proxy>)
    ensures forall p :: p in BigProxies(locations, order) <==> p in order && Big(locations, p)
    ensures (forall i, j | 0 <= i < j < |order| :: order[i] != order[j]) ==>
      forall i, j | 0 <= i < j < |BigProxies(locations, order)| ::
        BigProxies(locations, order)[i] != BigProxies(locations, order)[j]
  {
    if order != [] {
      BigProxiesAreBig(locations, order[..|order| - 1]);
      assert order == order[..|order| - 1] + [order[|order| - 1]];
    }
  }

  function CompactedBig(locations: seq<Location>): (big: seq<Proxy>)
    ensures forall k | 0 <= k < |big| :: Big(locations, big[k])
  {
    BigProxiesAreBig(locations, ProxyOrder(locations));
    BigProxies(locations, ProxyOrder(locations))
  }

  function CompactedLocations(locations: seq<Location>, server: nat): seq<Location> {
    Kept(locations, locations) + Merged(locations, server, CompactedBig(locations))
  }

  function CompactedMaps(locations: seq<Location>, server: nat): seq<RouteProofMap> {
    MergedMaps(locations, server, CompactedBig(locations))
  }

  /** The first n servers, compacted. */
  function CompactedServers(servers: seq<Server>, n: nat): (compacted: seq<Server>)
    requires n <= |servers|
    ensures |compacted| == n
  {
    if n == 0 then []
    else
      var server := servers[n - 1];
      CompactedServers(servers, n - 1) + [server.(locations := CompactedLocations(server.locations, n - 1))]
  }

  lemma {:induction false} CompactedServersAt(servers: seq<Server>, n: nat, s: nat)
    requires s < n <= |servers|
    ensures CompactedServers(servers, n)[s].locations == CompactedLocations(servers[s].locations, s)
  {
    if s < n - 1 {
      CompactedServersAt(servers, n - 1, s);
    }
  }

  /** The maps of the first n servers. */
  function AllMaps(servers: seq<Server>, n: nat): seq<RouteProofMap>
    requires n <= |servers|
  {
    if n == 0 then [] else AllMaps(servers, n - 1) + CompactedMaps(servers[n - 1].locations, n - 1)
  }

  // ---- Facts about the folded sets ----

  lemma {:induction false} MembersAre(part: seq<Location>, proxy: Proxy)
    ensures forall l :: l in Members(part, proxy) <==> l in part && InGroup(l, proxy)
  {
    if part != [] {
      MembersAre(part[..|part| - 1], proxy);
      assert part == part[..|part| - 1] + [part[|part| - 1]];
    }
  }

  lemma {:induction false} SafeOfAre(all: seq<Location>, part: seq<Location>)
    ensures forall l :: l in SafeOf(all, part) <==> l in part && Safe(all, l)
  {
    if part != [] {
      SafeOfAre(all, part[..|part| - 1]);
      assert part == part[..|part| - 1] + [part[|part| - 1]];
    }
  }

  lemma SortedSafeAre(locations: seq<Location>, proxy: Proxy)
    ensures forall l :: l in SortedSafe(locations, proxy) <==> l in locations && InGroup(l, proxy) && Safe(locations, l)
    ensures Sorted(Before, SortedSafe(locations, proxy))
  {
    MembersAre(locations, proxy);
    SafeOfAre(locations, Members(locations, proxy));
    SortKeepsElements(Before, SafeMembers(locations, proxy));
    SortOrders(Before, SafeMembers(locations, proxy));
  }

  lemma {:induction false} ProxyOrderCovers(part: seq<Location>)
    ensures forall l | l in part && Mergeable(l) :: l.proxy in ProxyOrder(part)
    ensures forall i, j | 0 <= i < j < |ProxyOrder(part)| :: ProxyOrder(part)[i] != ProxyOrder(part)[j]
  {
    if part != [] {
      ProxyOrderCovers(part[..|part| - 1]);
      assert part == part[..|part| - 1] + [part[|part| - 1]];
    }
  }

  lemma {:induction false} KeptAre(all: seq<Location>, part: seq<Location>)
    ensures forall l :: l in Kept(all, part) <==> l in part && !Removed(all, l)
  {
    if part != [] {
      KeptAre(all, part[..|part| - 1]);
      assert part == part[..|part| - 1] + [part[|part| - 1]];
    }
  }

  // ---- The loops of compactLocations ----

  function Pick(locations: seq<Location>, indexes: seq<nat>): seq<Location>
    requires forall k | 0 <= k < |indexes| :: indexes[k] < |locations|
  {
    seq(|indexes|, k requires 0 <= k < |indexes| => locations[indexes[k]])
  }

  /** The indexes below n of one group. */
  function Indexes(locations: seq<Location>, n: nat, proxy: Proxy): seq<nat>
    requires n <= |locations|
  {
    if n == 0 then []
    else Indexes(locations, n - 1, proxy) + if InGroup(locations[n - 1], proxy) then [n - 1] else []
  }

  lemma {:induction false} IndexesAre(locations: seq<Location>, n: nat, proxy: Proxy)
    requires n <= |locations|
    ensures forall k | 0 <= k < |Indexes(locations, n, proxy)| :: Indexes(locations, n, proxy)[k] < n
    ensures forall i | 0 <= i < n :: i in Indexes(locations, n, proxy) <==> InGroup(locations[i], proxy)
  {
    if n > 0 {
      IndexesAre(locations, n - 1, proxy);
    }
  }

  lemma {:induction false} IndexesPickMembers(locations: seq<Location>, n: nat, proxy: Proxy)
    requires n <= |locations|
    requires forall k | 0 <= k < |Indexes(locations, n, proxy)| :: Indexes(locations, n, proxy)[k] < |locations|
    ensures Pick(locations, Indexes(locations, n, proxy)) == Members(locations[..n], proxy)
  {
    if n > 0 {
      IndexesAre(locations, n - 1, proxy);
      IndexesPickMembers(locations, n - 1, proxy);
      assert locations[..n][..n - 1] == locations[..n - 1];
    }
  }

  ghost predicate Grouped(locations: seq<Location>, n: nat, groups: map<Proxy, seq<nat>>, order: seq<Proxy>)
    requires n <= |locations|
  {
    && (forall p :: p in groups <==> p in order)
    && (forall p :: Indexes(locations, n, p) == if p in groups then groups[p] else [])
  }

  lemma GroupedSkips(locations: seq<Location>, n: nat, groups: map<Proxy, seq<nat>>, order: seq<Proxy>)
    requires n < |locations| && Grouped(locations, n, groups, order) && !Mergeable(locations[n])
    ensures Grouped(locations, n + 1, groups, order)
  {
  }

  lemma GroupedAdds(locations: seq<Location>, n: nat, groups: map<Proxy, seq<nat>>, order: seq<Proxy>)
    requires n < |locations| && Grouped(locations, n, groups, order) && Mergeable(locations[n])
    ensures var p := locations[n].proxy;
      Grouped(locations, n + 1, groups[p := (if p in groups then groups[p] else []) + [n]],
              if p in groups then order else order + [p])
  {
  }

  method GroupByProxy(locations: seq<Location>) returns (groups: map<Proxy, seq<nat>>, order: seq<Proxy>)
    ensures order == ProxyOrder(locations)
    ensures forall p | p in order :: p in groups && groups[p] == Indexes(locations, |locations|, p)
  {
    groups, order := map[], [];
    for i := 0 to |locations|
      invariant order == ProxyOrder(locations[..i])
      invariant Grouped(locations, i, groups, order)
    {
      var l := locations[i];
      assert locations[..i + 1][..i] == locations[..i];
      if !Mergeable(l) {
        GroupedSkips(locations, i, groups, order);
        continue;
      }
      GroupedAdds(locations, i, groups, order);
      if l.proxy in groups {
        groups := groups[l.proxy := groups[l.proxy] + [i]];
      } else {
        order := order + [l.proxy];
        groups := groups[l.proxy := [i]];
        assert [] + [i] == [i];
      }
    }
    assert locations[..|locations|] == locations;
  }

  method OverlapsOutside(locations: seq<Location>, i: nat, members: set<nat>) returns (overlap: bool)
    requires i < |locations|
    requires forall j | 0 <= j < |locations| :: j in members <==> InGroup(locations[j], locations[i].proxy)
    ensures overlap <==> !Safe(locations, locations[i])
  {
    overlap := false;
    for j := 0 to |locations|
      invariant !overlap && forall m | 0 <= m < j :: !Clashes(locations[i], locations[m])
    {
      if j in members || CatchAll(locations[j]) {
        continue;
      }
      if Overlap(locations[i], locations[j]) {
        overlap := true;
        assert Clashes(locations[i], locations[j]);
        break;
      }
    }
  }

  lemma SafeOfAppends(all: seq<Location>, part: seq<Location>, l: Location)
    ensures SafeOf(all, part + [l]) == SafeOf(all, part) + if Safe(all, l) then [l] else []
  {
    assert (part + [l])[..|part|] == part;
  }

  lemma PickAppends(locations: seq<Location>, indexes: seq<nat>, k: nat)
    requires forall m | 0 <= m < |indexes| :: indexes[m] < |locations|
    requires k < |indexes|
    ensures Pick(locations, indexes[..k + 1]) == Pick(locations, indexes[..k]) + [locations[indexes[k]]]
  {
  }

  method SafeIndexes(locations: seq<Location>, indexes: seq<nat>, proxy: Proxy) returns (safe: seq<nat>)
    requires forall k | 0 <= k < |indexes| :: indexes[k] < |locations|
    requires forall i | 0 <= i < |locations| :: i in indexes <==> InGroup(locations[i], proxy)
    ensures forall k | 0 <= k < |safe| :: safe[k] < |locations|
    ensures Pick(locations, safe) == SafeOf(locations, Pick(locations, indexes))
    ensures forall i | 0 <= i < |locations| :: i in safe <==> i in indexes && Safe(locations, locations[i])
  {
    var members := set i | i in indexes;
    safe := [];
    for k := 0 to |indexes|
      invariant forall m | 0 <= m < |safe| :: safe[m] < |locations|
      invariant Pick(locations, safe) == SafeOf(locations, Pick(locations, indexes[..k]))
      invariant forall i | 0 <= i < |locations| :: i in safe <==> i in indexes[..k] && Safe(locations, locations[i])
    {
      var i := indexes[k];
      assert indexes[..k + 1] == indexes[..k] + [i];
      var overlap := OverlapsOutside(locations, i, members);
      PickAppends(locations, indexes, k);
      SafeOfAppends(locations, Pick(locations, indexes[..k]), locations[i]);
      if !overlap {
        assert Pick(locations, safe + [i]) == Pick(locations, safe) + [locations[i]];
        safe := safe + [i];
      }
    }
    assert indexes[..|indexes|] == indexes;
  }

  method MergeGroup(safe: seq<Location>, name: string) returns (merged: Location, proofMap: RouteProofMap)
    requires |safe| > 0
    ensures merged == MergedLocation(safe, name)
    ensures proofMap == RouteProofMap(name, EntriesFor(safe))
  {
    var entries, alternatives := [], [];
    for i := 0 to |safe|
      invariant entries == EntriesFor(safe[..i]) && alternatives == AlternativesFor(safe[..i])
    {
      var pattern := Regex.QuoteMeta(safe[i].pattern);
      if safe[i].modifier == "=" {
        pattern := pattern + "$";
      }
      assert pattern == AlternativeFor(safe[i]);
      entries := entries + [RouteProofEntry("^" + pattern, safe[i].proofIndex)];
      alternatives := alternatives + [pattern];
    }
    assert safe[..|safe|] == safe;
    proofMap := RouteProofMap(name, entries);
    merged := safe[0].(modifier := "~", pattern := "^(?:" + Join(alternatives, '|') + ")", proofSelector := "$" + name);
  }

  lemma BigProxiesAppends(locations: seq<Location>, order: seq<Proxy>, n: nat)
    requires n < |order|
    ensures BigProxies(locations, order[..n + 1])
         == BigProxies(locations, order[..n]) + if Big(locations, order[n]) then [order[n]] else []
  {
    assert order[..n + 1][..n] == order[..n];
  }

  /** What the loop over proxies has done once it folded the groups big. */
  ghost predicate Folded(locations: seq<Location>, server: nat, big: seq<Proxy>,
                         merged: seq<Location>, maps: seq<RouteProofMap>, removed: set<nat>) {
    && (forall k | 0 <= k < |big| :: Big(locations, big[k]))
    && merged == Merged(locations, server, big)
    && maps == MergedMaps(locations, server, big)
    && (forall i | 0 <= i < |locations| :: i in removed <==>
        Removed(locations, locations[i]) && locations[i].proxy in big)
  }

  lemma MergedGrows(locations: seq<Location>, server: nat, big: seq<Proxy>, proxy: Proxy)
    requires (forall k | 0 <= k < |big| :: Big(locations, big[k])) && Big(locations, proxy)
    requires forall k | 0 <= k < |big + [proxy]| :: Big(locations, (big + [proxy])[k])
    ensures Merged(locations, server, big + [proxy])
      == Merged(locations, server, big) + [MergedLocation(SortedSafe(locations, proxy), MapName(server, |big|))]
  {
  }

  lemma MergedMapsGrow(locations: seq<Location>, server: nat, big: seq<Proxy>, proxy: Proxy)
    requires (forall k | 0 <= k < |big| :: Big(locations, big[k])) && Big(locations, proxy)
    requires forall k | 0 <= k < |big + [proxy]| :: Big(locations, (big + [proxy])[k])
    ensures MergedMaps(locations, server, big + [proxy])
      == MergedMaps(locations, server, big)
        + [RouteProofMap(MapName(server, |big|), EntriesFor(SortedSafe(locations, proxy)))]
  {
  }

  lemma FoldedGrows(locations: seq<Location>, server: nat, big: seq<Proxy>, merged: seq<Location>,
                    maps: seq<RouteProofMap>, removed: set<nat>, proxy: Proxy, safe: seq<nat>)
    requires Folded(locations, server, big, merged, maps, removed) && Big(locations, proxy)
    requires forall i | 0 <= i < |locations| :: i in safe <==>
      InGroup(locations[i], proxy) && Safe(locations, locations[i])
    ensures Folded(locations, server, big + [proxy],
                   merged + [MergedLocation(SortedSafe(locations, proxy), MapName(server, |merged|))],
                   maps + [RouteProofMap(MapName(server, |merged|), EntriesFor(SortedSafe(locations, proxy)))],
                   removed + set i | i in safe)
  {
    assert forall k | 0 <= k < |big + [proxy]| :: Big(locations, (big + [proxy])[k]);
    MergedGrows(locations, server, big, proxy);
    MergedMapsGrow(locations, server, big, proxy);
  }

  method MergeGroups(locations: seq<Location>, server: nat)
    returns (merged: seq<Location>, maps: seq<RouteProofMap>, removed: set<nat>)
    ensures merged == Merged(locations, server, CompactedBig(locations))
    ensures maps == CompactedMaps(locations, server)
    ensures forall i | 0 <= i < |locations| :: i in removed <==> Removed(locations, locations[i])
  {
    var groups, order := GroupByProxy(locations);
    merged, maps, removed := [], [], {};
    ghost var big: seq<Proxy> := [];
    assert Folded(locations, server, big, merged, maps, removed);
    for n := 0 to |order|
      invariant big == BigProxies(locations, order[..n])
      invariant Folded(locations, server, big, merged, maps, removed)
    {
      var proxy := order[n];
      IndexesAre(locations, |locations|, proxy);
      var safe := SafeIndexes(locations, groups[proxy], proxy);
      assert Pick(locations, safe) == SafeMembers(locations, proxy) by {
        assert locations[..|locations|] == locations;
        IndexesPickMembers(locations, |locations|, proxy);
      }
      BigProxiesAppends(locations, order, n);
      if |safe| < 4 {
        continue;
      }
      SortKeepsElements(Before, Pick(locations, safe));
      var l, m := MergeGroup(Sort(Before, Pick(locations, safe)), MapName(server, |merged|));
      FoldedGrows(locations, server, big, merged, maps, removed, proxy, safe);
      big := big + [proxy];
      merged, maps, removed := merged + [l], maps + [m], removed + set i | i in safe;
    }
    assert order[..|order|] == order;
    ProxyOrderCovers(locations);
    BigProxiesAreBig(locations, order);
  }

  method KeepRest(locations: seq<Location>, removed: set<nat>) returns (kept: seq<Location>)
    requires forall i | 0 <= i < |locations| :: i in removed <==> Removed(locations, locations[i])
    ensures kept == Kept(locations, locations)
  {
    kept := [];
    for i := 0 to |locations|
      invariant kept == Kept(locations, locations[..i])
    {
      assert locations[..i + 1][..i] == locations[..i];
      if i !in removed {
        kept := kept + [locations[i]];
      }
    }
    assert locations[..|locations|] == locations;
  }

  method CompactServer(server: Server, si: nat) returns (compacted: Server, maps: seq<RouteProofMap>)
    ensures compacted == server.(locations := CompactedLocations(server.locations, si))
    ensures maps == CompactedMaps(server.locations, si)
  {
    var merged, m, removed := MergeGroups(server.locations, si);
    var kept := KeepRest(server.locations, removed);
    compacted, maps := server.(locations := kept + merged), m;
  }

  lemma CompactedServersStep(servers: seq<Server>, current: seq<Server>, si: nat, server: Server)
    requires si < |servers| && current == CompactedServers(servers, si) + servers[si..]
    requires server == servers[si].(locations := CompactedLocations(servers[si].locations, si))
    ensures current[si := server] == CompactedServers(servers, si + 1) + servers[si + 1..]
  {
  }

  method CompactEach(servers: seq<Server>) returns (current: seq<Server>, routeMaps: seq<RouteProofMap>)
    ensures current == CompactedServers(servers, |servers|)
    ensures routeMaps == AllMaps(servers, |servers|)
  {
    current, routeMaps := servers, [];
    for si := 0 to |servers|
      invariant current == CompactedServers(servers, si) + servers[si..]
      invariant routeMaps == AllMaps(servers, si)
    {
      var server, maps := CompactServer(servers[si], si);
      CompactedServersStep(servers, current, si, server);
      current, routeMaps := current[si := server], routeMaps + maps;
    }
  }

  method CompactLocations(cfg: Config)
    modifies cfg
    ensures cfg.servers == CompactedServers(old(cfg.servers), |old(cfg.servers)|)
    ensures cfg.routeMaps == old(cfg.routeMaps) + AllMaps(old(cfg.servers), |old(cfg.servers)|)
    ensures cfg.proofMaps == old(cfg.proofMaps)
  {
    var servers, maps := CompactEach(cfg.servers);
    cfg.servers, cfg.routeMaps := servers, cfg.routeMaps + maps;
  }
}
