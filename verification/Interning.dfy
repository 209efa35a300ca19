/** Proof interning: every location gets the index of its proof in eight parallel columns. */
module Interning {
  import opened Nginx

  const PROOF_NAMES := ["app", "service", "workspace", "environment", "session", "mode", "version", "operation"]

  function ProofFields(p: ResponseProof): (fields: seq<string>)
    ensures |fields| == 8
  {
    [p.appID, p.serviceID, p.workspace, p.environment, p.session, p.effectiveMode, p.routeVersion, p.operationID]
  }

  function IndexOf(table: seq<ResponseProof>, p: ResponseProof): (i: nat)
    requires p in table
    ensures i < |table| && table[i] == p
  {
    if table[0] == p then 0 else 1 + IndexOf(table[1..], p)
  }

  // ---- Specification ----

  datatype Interned<T> = Interned(table: seq<ResponseProof>, items: seq<T>)

  function Enter(table: seq<ResponseProof>, p: ResponseProof): seq<ResponseProof> {
    if p in table then table else table + [p]
  }

  function InternLocations(table: seq<ResponseProof>, locations: seq<Location>): Interned<Location> {
    if locations == [] then Interned(table, [])
    else
      var l, before := locations[|locations| - 1], InternLocations(table, locations[..|locations| - 1]);
      var after := Enter(before.table, l.proof);
      Interned(after, before.items + [l.(proofIndex := IndexOf(after, l.proof))])
  }

  function InternServers(servers: seq<Server>): Interned<Server> {
    if servers == [] then Interned([], [])
    else
      var server, before := servers[|servers| - 1], InternServers(servers[..|servers| - 1]);
      var after := InternLocations(before.table, server.locations);
      Interned(after.table, before.items + [server.(locations := after.items)])
  }

  function Column(table: seq<ResponseProof>, k: nat): seq<string>
    requires k < 8
  {
    seq(|table|, i requires 0 <= i < |table| => ProofFields(table[i])[k])
  }

  function Columns(table: seq<ResponseProof>): seq<ProofMap> {
    seq(8, k requires 0 <= k < 8 => ProofMap(PROOF_NAMES[k], Column(table, k)))
  }

  // ---- The loops of buildConfig ----

  ghost predicate Remembers(seen: map<ResponseProof, nat>, table: seq<ResponseProof>) {
    forall p :: (p in seen <==> p in table) && (p in seen ==> seen[p] < |table| && seen[p] == IndexOf(table, p))
  }

  method Append(columns: seq<ProofMap>, ghost table: seq<ResponseProof>, p: ResponseProof) returns (out: seq<ProofMap>)
    requires columns == Columns(table)
    ensures out == Columns(table + [p])
  {
    var values := ProofFields(p);
    out := columns;
    for k := 0 to 8
      invariant |out| == 8
      invariant forall m | 0 <= m < k :: out[m] == Columns(table + [p])[m]
      invariant forall m | k <= m < 8 :: out[m] == columns[m]
    {
      out := out[k := out[k].(values := out[k].values + [values[k]])];
      assert Column(table + [p], k) == Column(table, k) + [values[k]];
    }
  }

  lemma {:induction false} IndexOfAppended(table: seq<ResponseProof>, p: ResponseProof, q: ResponseProof)
    requires p !in table && (q in table || q == p)
    ensures IndexOf(table + [p], q) == if q in table then IndexOf(table, q) else |table|
  {
    if table != [] && table[0] != q {
      assert (table + [p])[1..] == table[1..] + [p];
      IndexOfAppended(table[1..], p, q);
    } else if table == [] {
      assert (table + [p])[0] == p;
    }
  }

  lemma RemembersMore(seen: map<ResponseProof, nat>, table: seq<ResponseProof>, p: ResponseProof)
    requires Remembers(seen, table) && p !in table
    ensures Remembers(seen[p := |table|], table + [p])
  {
    forall q
      ensures q in seen[p := |table|] <==> q in table + [p]
      ensures q in seen[p := |table|] ==> seen[p := |table|][q] == IndexOf(table + [p], q)
    {
      if q in table || q == p {
        IndexOfAppended(table, p, q);
      }
    }
  }

  method InternServer(locations: seq<Location>, start: map<ResponseProof, nat>, columns: seq<ProofMap>,
                      ghost table: seq<ResponseProof>)
    returns (out: seq<Location>, seen: map<ResponseProof, nat>, maps: seq<ProofMap>)
    requires Remembers(start, table) && columns == Columns(table)
    ensures out == InternLocations(table, locations).items
    ensures Remembers(seen, InternLocations(table, locations).table)
    ensures maps == Columns(InternLocations(table, locations).table)
  {
    out, seen, maps := [], start, columns;
    ghost var current := table;
    for j := 0 to |locations|
      invariant InternLocations(table, locations[..j]) == Interned(current, out)
      invariant Remembers(seen, current) && maps == Columns(current)
    {
      var l := locations[j];
      assert locations[..j + 1][..j] == locations[..j];
      if l.proof !in seen {
        RemembersMore(seen, current, l.proof);
        seen := seen[l.proof := |maps[0].values|];
        maps := Append(maps, current, l.proof);
        current := current + [l.proof];
      }
      out := out + [l.(proofIndex := seen[l.proof])];
    }
    assert locations[..|locations|] == locations;
  }

  method InternEach(servers: seq<Server>) returns (out: seq<Server>, maps: seq<ProofMap>)
    ensures out == InternServers(servers).items
    ensures maps == Columns(InternServers(servers).table)
  {
    maps := seq(8, k requires 0 <= k < 8 => ProofMap(PROOF_NAMES[k], []));
    assert forall k | 0 <= k < 8 :: Column([], k) == [];
    var seen: map<ResponseProof, nat> := map[];
    out := [];
    ghost var table: seq<ResponseProof> := [];
    for i := 0 to |servers|
      invariant InternServers(servers[..i]) == Interned(table, out)
      invariant Remembers(seen, table) && maps == Columns(table)
    {
      assert servers[..i + 1][..i] == servers[..i];
      var locations;
      ghost var before := table;
      locations, seen, maps := InternServer(servers[i].locations, seen, maps, before);
      table := InternLocations(before, servers[i].locations).table;
      out := out + [servers[i].(locations := locations)];
    }
    assert servers[..|servers|] == servers;
  }

  method InternProofs(cfg: Config)
    modifies cfg
    ensures cfg.servers == InternServers(old(cfg.servers)).items
    ensures cfg.proofMaps == Columns(InternServers(old(cfg.servers)).table)
    ensures cfg.routeMaps == old(cfg.routeMaps)
  {
    var servers, maps := InternEach(cfg.servers);
    cfg.servers, cfg.proofMaps := servers, maps;
  }

  // ---- What interning means ----

  lemma {:induction false} InternLocationsGrows(table: seq<ResponseProof>, locations: seq<Location>)
    ensures table <= InternLocations(table, locations).table
    ensures |InternLocations(table, locations).items| == |locations|
  {
    if locations != [] {
      InternLocationsGrows(table, locations[..|locations| - 1]);
    }
  }

  /** Each location keeps everything but its index, which points at its proof. */
  lemma {:induction false} InternLocationsAt(table: seq<ResponseProof>, locations: seq<Location>, j: nat)
    requires j < |locations|
    ensures |InternLocations(table, locations).items| == |locations|
    ensures var r := InternLocations(table, locations);
      && r.items[j] == locations[j].(proofIndex := r.items[j].proofIndex)
      && r.items[j].proofIndex < |r.table| && r.table[r.items[j].proofIndex] == locations[j].proof
  {
    var init := locations[..|locations| - 1];
    InternLocationsGrows(table, init);
    if j < |init| {
      InternLocationsAt(table, init, j);
    }
  }

  lemma {:induction false} InternServersAt(servers: seq<Server>, s: nat)
    requires s < |servers|
    ensures |InternServers(servers).items| == |servers|
    ensures exists table ::
      && InternLocations(table, servers[s].locations).table <= InternServers(servers).table
      && InternServers(servers).items[s] == servers[s].(locations := InternLocations(table, servers[s].locations).items)
  {
    var init, last := servers[..|servers| - 1], servers[|servers| - 1];
    var before := InternServers(init);
    InternLocationsGrows(before.table, last.locations);
    InternServersLength(init);
    if s < |init| {
      InternServersAt(init, s);
      var table :| InternLocations(table, init[s].locations).table <= before.table
        && before.items[s] == init[s].(locations := InternLocations(table, init[s].locations).items);
      assert InternLocations(table, servers[s].locations).table <= InternServers(servers).table;
    } else {
      assert InternLocations(before.table, servers[s].locations).table <= InternServers(servers).table;
    }
  }

  lemma {:induction false} InternServersLength(servers: seq<Server>)
    ensures |InternServers(servers).items| == |servers|
  {
    if servers != [] {
      InternServersLength(servers[..|servers| - 1]);
    }
  }

  predicate DistinctProofs(table: seq<ResponseProof>) {
    forall i, j | 0 <= i < j < |table| :: table[i] != table[j]
  }

  lemma {:induction false} InternLocationsDistinct(table: seq<ResponseProof>, locations: seq<Location>)
    requires DistinctProofs(table)
    ensures DistinctProofs(InternLocations(table, locations).table)
  {
    if locations != [] {
      InternLocationsDistinct(table, locations[..|locations| - 1]);
    }
  }

  lemma {:induction false} InternServersDistinct(servers: seq<Server>)
    ensures DistinctProofs(InternServers(servers).table)
  {
    if servers != [] {
      InternServersDistinct(servers[..|servers| - 1]);
      InternLocationsDistinct(InternServers(servers[..|servers| - 1]).table, servers[|servers| - 1].locations);
    }
  }

  /** Location j of server s, before and after interning. */
  lemma InternedLocation(servers: seq<Server>, s: nat, j: nat)
    requires s < |servers| && j < |servers[s].locations|
    ensures var r := InternServers(servers);
      && |r.items| == |servers| && |r.items[s].locations| == |servers[s].locations|
      && var l := r.items[s].locations[j];
        && l == servers[s].locations[j].(proofIndex := l.proofIndex)
        && l.proofIndex < |r.table| && r.table[l.proofIndex] == l.proof
  {
    InternServersAt(servers, s);
    var r := InternServers(servers);
    var table :| InternLocations(table, servers[s].locations).table <= r.table
      && r.items[s] == servers[s].(locations := InternLocations(table, servers[s].locations).items);
    InternLocationsAt(table, servers[s].locations, j);
  }

  /** Across the whole configuration two locations share an index exactly when their proofs are equal. */
  lemma SharedIndexIffEqualProof(servers: seq<Server>, s: nat, j: nat, t: nat, k: nat)
    requires s < |servers| && j < |servers[s].locations| && t < |servers| && k < |servers[t].locations|
    ensures var r := InternServers(servers).items;
      && |r| == |servers| && j < |r[s].locations| && k < |r[t].locations|
      && (r[s].locations[j].proofIndex == r[t].locations[k].proofIndex
          <==> servers[s].locations[j].proof == servers[t].locations[k].proof)
  {
    InternedLocation(servers, s, j);
    InternedLocation(servers, t, k);
    InternServersDistinct(servers);
    var r := InternServers(servers);
    var a, b := r.items[s].locations[j].proofIndex, r.items[t].locations[k].proofIndex;
    assert a < b ==> r.table[a] != r.table[b];
    assert b < a ==> r.table[b] != r.table[a];
  }

  // ---- The header a proof id yields ----

  /** The map from proof id to header value, with its default. */
  function HeaderValue(columns: seq<ProofMap>, k: nat, id: nat): string
    requires k < |columns|
  {
    if id < |columns[k].values| then columns[k].values[id] else "unknown"
  }

  function Headers(columns: seq<ProofMap>, id: nat): seq<string> {
    seq(|columns|, k requires 0 <= k < |columns| => HeaderValue(columns, k, id))
  }

  lemma HeadersOfEntry(table: seq<ResponseProof>, id: nat)
    requires id < |table|
    ensures Headers(Columns(table), id) == ProofFields(table[id])
  {
    forall k | 0 <= k < 8
      ensures HeaderValue(Columns(table), k, id) == ProofFields(table[id])[k]
    {
      assert Columns(table)[k].values == Column(table, k);
    }
  }
}
