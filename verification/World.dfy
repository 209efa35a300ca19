/** Everything outside the process: the database, the journal table, the proxy. Each step
    succeeds or fails as it likes; transactions are atomic. */
module Environment {
  import opened Text
  import opened Model
  import opened Protocol

  class World {
    var durable: seq<Workspace>
    var journal: seq<JournalEntry>
    var proxy: Served
    var available: bool
    var tokens: nat

    /** What each step left on disk: the points a crash can restart from. */
    ghost var trail: seq<Disk>

    constructor (rows: seq<Workspace>)
      ensures durable == rows && journal == [] && tokens == 0 && trail == []
    {
      durable, journal, tokens, trail := rows, [], 0, [];
      proxy, available := Unsettled(None), *;
    }

    ghost function OnDisk(): Disk
      reads this
    {
      Disk(durable, journal)
    }

    /** config.SaveState */
    method SaveState(wss: seq<Workspace>) returns (ok: bool)
      modifies this`durable, this`trail
      ensures durable == if ok then Saved(old(durable), wss) else old(durable)
      ensures trail == old(trail) + [OnDisk()]
    {
      ok := *;
      if ok {
        durable := Saved(durable, wss);
      }
      trail := trail + [OnDisk()];
    }

    /** config.ReplaceWorkspaces */
    method ReplaceWorkspaces(wss: seq<Workspace>) returns (ok: bool)
      modifies this`durable, this`trail
      ensures durable == if ok then wss else old(durable)
      ensures trail == old(trail) + [OnDisk()]
    {
      ok := *;
      if ok {
        durable := wss;
      }
      trail := trail + [OnDisk()];
    }

    /** BeginRouteOperation and UpdateRouteOperation: one upsert. */
    method WriteEntry(e: JournalEntry) returns (ok: bool)
      modifies this`journal, this`trail
      ensures journal == if ok then Put(old(journal), e) else old(journal)
      ensures trail == old(trail) + [OnDisk()]
    {
      ok := *;
      if ok {
        journal := Put(journal, e);
      }
      trail := trail + [OnDisk()];
    }

    /** AtomicRoutingApplier.ApplyRouting. A failed apply may leave anything loaded, unless the
        provider turns out to be unavailable: then it has not touched the proxy. */
    method ApplyRouting(wss: seq<Workspace>) returns (ok: bool)
      modifies this`proxy, this`available
      ensures ok ==> proxy == Serving(wss)
      ensures !ok && !available ==> proxy == old(proxy)
    {
      ok := *;
      available := *;
      if ok {
        proxy := Serving(wss);
      } else if available {
        proxy := *;
      }
    }

    /** RoutingInspector.InspectRouting: a read-only comparison with the file the proxy includes. */
    method InspectRouting(render: seq<Workspace> -> string, wss: seq<Workspace>) returns (inspected: Option<bool>)
      ensures inspected.Some? ==> (inspected.value <==> InFile(render, proxy, wss))
    {
      var failed: bool := *;
      inspected := if failed then None else Some(InFile(render, proxy, wss));
    }

    /** RoutingProvider.IsAvailable, asked at any time. */
    method Poll() returns (up: bool)
      modifies this`available
      ensures up == available
    {
      available := *;
      up := available;
    }

    /** newOperationID: never the same twice, also across restarts. */
    method NewOperationID() returns (id: string)
      modifies this`tokens
      ensures id == OperationName(old(tokens)) && tokens == old(tokens) + 1
    {
      id := OperationName(tokens);
      tokens := tokens + 1;
    }
  }
}
