/** mutate: every other change to the workspaces, routed before it is saved. */
module Mutations {
  import opened Text
  import opened Model
  import opened Protocol
  import opened Requests
  import opened Invariants

  /** A change: what it refuses, and what it makes of the workspaces and the new operation. */
  datatype Change = Change(
    kind: string, accepts: seq<Workspace> -> bool, edit: (seq<Workspace>, Operation) -> seq<Workspace>)

  datatype Persist = SaveRows | ReplaceRows

  datatype MutateOutcome =
    | Rejected
    | Invalid
    | NotRouted(restore: Rollback)
    | NotSaved(restored: bool)
    | Mutated(operation: Operation)

  /** What a change may do: it stamps what it touches, it brings in no operation but the new one,
      and what is saved row by row it only edits in state columns. */
  ghost predicate LawfulChange(change: Change, persist: Persist) {
    && (forall memory: seq<Workspace>, op: Operation | change.accepts(memory) ::
          && Stamped(memory, change.edit(memory, op), op.routeVersion, op.operationID)
          && (persist == SaveRows ==> SameDefinitions(memory, change.edit(memory, op))))
    && (forall tokens: nat, memory: seq<Workspace>, op: Operation |
          change.accepts(memory) && OperationsIssued(tokens, memory) && Issued(tokens, op.operationID) ::
          OperationsIssued(tokens, change.edit(memory, op)))
  }

  function MutateOperation(a: Sys, change: Change, correlationID: string): Operation {
    Begins(a, change.kind, correlationID)
  }

  function MutateCandidate(a: Sys, change: Change, correlationID: string): seq<Workspace> {
    change.edit(a.memory, MutateOperation(a, change, correlationID))
  }

  /** A proxy that has the workspaces, or, when it was not required, one that was not there. */
  ghost predicate Routed(rules: Rules, required: bool, proxy: Served, cache: Cache, wss: seq<Workspace>, now: Served,
                         cacheNow: Cache)
  {
    || (now == Serving(wss) && cacheNow == Recorded(rules.routes, cache, wss))
    || (!required && now == proxy && cacheNow == MarkedUnavailable(cache, wss))
  }

  ghost predicate RestoredAfterApply(rules: Rules, a: Sys, restore: Rollback, b: Sys) {
    && b == a.(cache := b.cache, proxy := b.proxy)
    && match restore
       case NotRequired => b.proxy == a.proxy && b.cache == a.cache
       case Restored => b.proxy == Serving(a.memory) && b.cache == Recorded(rules.routes, a.cache, a.memory)
       case RestoreFailed => b.cache == a.cache
       case NotNeeded => false
  }

  ghost predicate RestoredAfterSave(rules: Rules, a: Sys, required: bool, candidate: seq<Workspace>, restored: bool,
                                    b: Sys)
  {
    && b == a.(cache := b.cache, proxy := b.proxy)
    && exists proxy, cache :: Routed(rules, required, a.proxy, a.cache, candidate, proxy, cache)
         && if restored then Routed(rules, required, proxy, cache, a.memory, b.proxy, b.cache) else b.cache == cache
  }

  /** The steps after validation: route, save, then memory. */
  ghost predicate CarriedOut(rules: Rules, a: Sys, required: bool, candidate: seq<Workspace>, op: Operation,
                             out: MutateOutcome, b: Sys)
  {
    match out
    case NotRouted(restore) => RestoredAfterApply(rules, a, restore, b)
    case NotSaved(restored) => RestoredAfterSave(rules, a, required, candidate, restored, b)
    case Mutated(operation) =>
      && operation == op
      && b == a.(memory := Published(candidate), disk := a.disk.(durable := Published(candidate)), cache := b.cache,
                 proxy := b.proxy)
      && Routed(rules, required, a.proxy, a.cache, candidate, b.proxy, b.cache)
    case _ => false
  }

  ghost predicate MutateStep(rules: Rules, a: Sys, required: bool, change: Change, correlationID: string,
                             out: MutateOutcome, b: Sys)
  {
    var candidate := MutateCandidate(a, change, correlationID);
    if !change.accepts(a.memory) then out == Rejected && b == a
    else if !rules.valid(candidate) then out == Invalid && b == Begun(a)
    else CarriedOut(rules, Begun(a), required, candidate, MutateOperation(a, change, correlationID), out, b)
  }

  predicate MutateReaches(rules: Rules, a: Sys, change: Change, correlationID: string, d: Disk) {
    var candidate := MutateCandidate(a, change, correlationID);
    d == a.disk || (change.accepts(a.memory) && rules.valid(candidate) && d == a.disk.(durable := Published(candidate)))
  }

  // ---- Honesty of marked caches ----

  lemma {:induction false} MarkedElsewhere(cache: Cache, wss: seq<Workspace>, id: string)
    requires forall ws | ws in wss :: ws.workspaceID != id
    ensures CachedAt(MarkedUnavailable(cache, wss), id) == CachedAt(cache, id)
  {
    if wss != [] {
      MarkedElsewhere(cache, wss[..|wss| - 1], id);
    }
  }

  lemma {:induction false} MarkedAt(cache: Cache, wss: seq<Workspace>, id: string)
    requires exists ws | ws in wss :: ws.workspaceID == id
    ensures id in MarkedUnavailable(cache, wss) && !MarkedUnavailable(cache, wss)[id].verified
  {
    var init, last := wss[..|wss| - 1], wss[|wss| - 1];
    assert wss == init + [last];
    if last.workspaceID != id {
      MarkedAt(cache, init, id);
    }
  }

  /** Marking claims nothing. */
  lemma MarkingIsHonest(rules: Rules, cache: Cache, memory: seq<Workspace>, wss: seq<Workspace>)
    requires Honest(rules, memory, cache)
    ensures Honest(rules, memory, MarkedUnavailable(cache, wss))
  {
    var after := MarkedUnavailable(cache, wss);
    forall ws | ws in memory && ReportedVerified(after, ws)
      ensures after[ws.workspaceID].routes == Some(rules.routes(ws))
    {
      var id := ws.workspaceID;
      if exists w | w in wss :: w.workspaceID == id {
        MarkedAt(cache, wss, id);
        assert false;
      } else {
        MarkedElsewhere(cache, wss, id);
        assert CachedAt(after, id) == CachedAt(cache, id);
      }
    }
  }

  lemma MarkedIsHonestAbout(rules: Rules, cache: Cache, wss: seq<Workspace>)
    ensures Honest(rules, wss, MarkedUnavailable(cache, wss))
  {
    forall ws | ws in wss
      ensures !ReportedVerified(MarkedUnavailable(cache, wss), ws)
    {
      MarkedAt(cache, wss, ws.workspaceID);
    }
  }

  lemma RoutedIsHonest(rules: Rules, required: bool, proxy: Served, cache: Cache, memory: seq<Workspace>,
                       candidate: seq<Workspace>, version: nat, id: string, now: Served, cacheNow: Cache)
    requires Lawful(rules) && UniqueIDs(memory) && UniqueIDs(candidate) && Honest(rules, memory, cache)
    requires Stamped(memory, candidate, version, id)
    requires forall ws | ws in memory :: ws.route.routeVersion < version
    requires Routed(rules, required, proxy, cache, candidate, now, cacheNow)
    ensures Honest(rules, memory, cacheNow) && Honest(rules, candidate, cacheNow)
  {
    RecordingACandidateIsHonest(rules, cache, memory, candidate, version, id);
    RecordingIsHonest(rules, cache, candidate);
    MarkingIsHonest(rules, cache, memory, candidate);
    MarkedIsHonestAbout(rules, cache, candidate);
  }

  lemma UndoneMutationIsHonest(rules: Rules, a: Sys, required: bool, candidate: seq<Workspace>, restored: bool,
                                  version: nat, id: string, b: Sys)
    requires Lawful(rules) && UniqueIDs(a.memory) && UniqueIDs(candidate) && Honest(rules, a.memory, a.cache)
    requires Stamped(a.memory, candidate, version, id)
    requires forall ws | ws in a.memory :: ws.route.routeVersion < version
    requires RestoredAfterSave(rules, a, required, candidate, restored, b)
    ensures Honest(rules, a.memory, b.cache)
  {
    var proxy, cache :| Routed(rules, required, a.proxy, a.cache, candidate, proxy, cache)
      && if restored then Routed(rules, required, proxy, cache, a.memory, b.proxy, b.cache) else b.cache == cache;
    RoutedIsHonest(rules, required, a.proxy, a.cache, a.memory, candidate, version, id, proxy, cache);
    if restored {
      SameIsStamped(a.memory, version, id);
      RoutedIsHonest(rules, required, proxy, cache, a.memory, a.memory, version, id, b.proxy, b.cache);
    }
  }

  /** What a mutation that goes through makes of memory. */
  lemma PublishingAChangeKeepsGood(rules: Rules, a: Sys, required: bool, candidate: seq<Workspace>, op: Operation,
                                   b: Sys)
    requires Good(rules, a) && UniqueIDs(candidate) && OperationsIssued(a.tokens + 1, candidate)
    requires Stamped(a.memory, candidate, a.next + 1, OperationName(a.tokens))
    requires CarriedOut(rules, Begun(a), required, candidate, op, Mutated(op), b)
    ensures Good(rules, b)
  {
    BeginningKeepsGood(rules, a);
    BelowLater(a.memory, a.next, a.next + 1);
    PublishedIsBelow(a.memory, candidate, a.next + 1, OperationName(a.tokens));
    PublishedIsUnique(candidate);
    PublishedIsIssued(a.tokens + 1, candidate);
    RoutedIsHonest(rules, required, a.proxy, a.cache, a.memory, candidate, a.next + 1, OperationName(a.tokens), b.proxy,
                   b.cache);
    HonestIsPublished(rules, candidate, b.cache);
  }

  lemma CarryingOutKeepsGood(rules: Rules, a: Sys, required: bool, candidate: seq<Workspace>, op: Operation,
                             out: MutateOutcome, b: Sys)
    requires Good(rules, a) && UniqueIDs(candidate) && OperationsIssued(a.tokens + 1, candidate)
    requires Stamped(a.memory, candidate, a.next + 1, OperationName(a.tokens))
    requires CarriedOut(rules, Begun(a), required, candidate, op, out, b)
    ensures Good(rules, b)
  {
    BeginningKeepsGood(rules, a);
    match out {
      case NotRouted(_) => RecordingIsHonest(rules, a.cache, a.memory);
      case NotSaved(restored) =>
        UndoneMutationIsHonest(rules, Begun(a), required, candidate, restored, a.next + 1, OperationName(a.tokens), b);
      case Mutated(_) => PublishingAChangeKeepsGood(rules, a, required, candidate, op, b);
    }
  }

  /** The candidate of a change, when its operation has just been named. */
  lemma ChangeStarts(rules: Rules, a: Sys, change: Change, persist: Persist, correlationID: string)
    requires Good(rules, a) && LawfulChange(change, persist) && change.accepts(a.memory)
    ensures Stamped(a.memory, MutateCandidate(a, change, correlationID), a.next + 1, OperationName(a.tokens))
    ensures OperationsIssued(a.tokens + 1, MutateCandidate(a, change, correlationID))
    ensures persist == SaveRows ==> SameDefinitions(a.memory, MutateCandidate(a, change, correlationID))
  {
    NextNameIsFresh(a.tokens);
    OperationsIssuedLater(a.tokens, a.tokens + 1, a.memory);
  }

  /** Every mutation keeps the invariant. */
  lemma MutateKeepsGood(rules: Rules, a: Sys, required: bool, change: Change, persist: Persist, correlationID: string,
                        out: MutateOutcome, b: Sys)
    requires Good(rules, a) && LawfulChange(change, persist)
    requires MutateStep(rules, a, required, change, correlationID, out, b)
    ensures Good(rules, b)
  {
    var op, candidate := MutateOperation(a, change, correlationID), MutateCandidate(a, change, correlationID);
    if change.accepts(a.memory) {
      ChangeStarts(rules, a, change, persist, correlationID);
      if rules.valid(candidate) {
        CarryingOutKeepsGood(rules, a, required, candidate, op, out, b);
      } else {
        BeginningKeepsGood(rules, a);
      }
    }
  }
}
