/** Loading after a restart: what the journal gives back, and how its open entries are decided. */
module Recovery {
  import opened Text
  import opened Model
  import opened Protocol
  import opened Transaction
  import opened Requests
  import opened Invariants

  // ---- Versions ----

  function AppsVersion(apps: seq<Application>): nat {
    if apps == [] then 0 else Max(AppsVersion(apps[..|apps| - 1]), apps[|apps| - 1].route.routeVersion)
  }

  function HighestVersion(wss: seq<Workspace>): nat {
    if wss == [] then 0
    else
      var last := wss[|wss| - 1];
      Max(HighestVersion(wss[..|wss| - 1]), Max(last.route.routeVersion, AppsVersion(last.applications)))
  }

  function HighestEntry(journal: seq<JournalEntry>): nat {
    if journal == [] then 0 else Max(HighestEntry(journal[..|journal| - 1]), journal[|journal| - 1].routeVersion)
  }

  lemma {:induction false} AppsVersionBounds(apps: seq<Application>)
    ensures forall app | app in apps :: app.route.routeVersion <= AppsVersion(apps)
  {
    if apps != [] {
      AppsVersionBounds(apps[..|apps| - 1]);
      assert apps == apps[..|apps| - 1] + [apps[|apps| - 1]];
    }
  }

  lemma {:induction false} HighestVersionBounds(wss: seq<Workspace>)
    ensures VersionsBelow(wss, HighestVersion(wss))
  {
    if wss != [] {
      var init, last := wss[..|wss| - 1], wss[|wss| - 1];
      HighestVersionBounds(init);
      BelowLater(init, HighestVersion(init), HighestVersion(wss));
      AppsVersionBounds(last.applications);
      assert wss == init + [last];
    }
  }

  lemma {:induction false} HighestEntryBounds(journal: seq<JournalEntry>)
    ensures forall e | e in journal :: e.routeVersion <= HighestEntry(journal)
  {
    if journal != [] {
      HighestEntryBounds(journal[..|journal| - 1]);
      assert journal == journal[..|journal| - 1] + [journal[|journal| - 1]];
    }
  }

  // ---- Idempotency records ----

  /** routeResultFromJournal */
  function ResultOf(e: JournalEntry): Result {
    if e.result.Some? then e.result.value
    else Result(None, Operation(e.operationID, e.correlationID, e.routeVersion, "route-apply"), false, true, Recovered,
                false)
  }

  /** journalIntentFingerprint: the intent of the plan in the result, if there is one. */
  function IntentIn(e: JournalEntry): Option<Intent> {
    var plan := ResultOf(e).plan;
    if plan.Some? && plan.value.applicationID != "" && plan.value.desiredMode != "" then Some(IntentOf(plan.value))
    else e.intent
  }

  function Restored(replay: Protocol.Replay, e: JournalEntry): Protocol.Replay {
    if e.key == "" then replay else replay[(e.workspaceID, e.key) := Record(IntentIn(e), ResultOf(e))]
  }

  function RestoredRecords(journal: seq<JournalEntry>): Protocol.Replay {
    if journal == [] then map[]
    else
      var rest, last := RestoredRecords(journal[..|journal| - 1]), journal[|journal| - 1];
      if last.status == Committed then Restored(rest, last) else rest
  }

  // ---- Deciding the open entries ----

  /** The saved workspace has the version the entry was going to give it. */
  predicate MatchesCandidate(memory: seq<Workspace>, e: JournalEntry) {
    var i := IndexOf(memory, e.workspaceID);
    i.Some? && memory[i.value].route.routeVersion == e.routeVersion
  }

  function Decided(memory: seq<Workspace>, e: JournalEntry): JournalEntry {
    if MatchesCandidate(memory, e) then e.(status := Committed, rollback := NotNeeded)
    else e.(status := RolledBack, rollback := Protocol.Restored)
  }

  datatype Reconciled = Reconciled(journal: seq<JournalEntry>, replay: Protocol.Replay)

  function ReconcileOne(memory: seq<Workspace>, s: Reconciled, e: JournalEntry): Reconciled {
    if !Pending(e) then s
    else Reconciled(Put(s.journal, Decided(memory, e)),
                    if MatchesCandidate(memory, e) then Restored(s.replay, e) else s.replay)
  }

  /** reconcileRouteJournal, over the entries as they were loaded. */
  function Reconcile(memory: seq<Workspace>, entries: seq<JournalEntry>, s: Reconciled): Reconciled {
    if entries == [] then s
    else ReconcileOne(memory, Reconcile(memory, entries[..|entries| - 1], s), entries[|entries| - 1])
  }

  /** The state a complete load leaves, as a function of what is on disk. */
  function Reloaded(rules: Rules, disk: Disk, tokens: nat): Sys {
    var s := Reconcile(disk.durable, disk.journal, Reconciled(disk.journal, RestoredRecords(disk.journal)));
    Sys(disk.durable, Max(HighestVersion(disk.durable), HighestEntry(disk.journal)),
        Recorded(rules.routes, map[], disk.durable), s.replay, Disk(disk.durable, s.journal),
        Serving(disk.durable), tokens)
  }

  // ---- At most one open entry ----

  /** Every entry of the journal has been decided. */
  predicate Closed(journal: seq<JournalEntry>) {
    forall e | e in journal :: !Pending(e)
  }

  lemma {:induction false} ClosedNeedsNothing(memory: seq<Workspace>, entries: seq<JournalEntry>, s: Reconciled)
    requires Closed(entries)
    ensures Reconcile(memory, entries, s) == s
  {
    if entries != [] {
      ClosedNeedsNothing(memory, entries[..|entries| - 1], s);
    }
  }

  /** With one entry after a closed journal, only that entry can be open. */
  lemma LastEntryDecides(memory: seq<Workspace>, journal: seq<JournalEntry>, f: JournalEntry, s: Reconciled)
    requires Closed(journal)
    ensures Reconcile(memory, Put(journal, f), s) == ReconcileOne(memory, s, f)
  {
    var rest := Without(journal, f.operationID);
    forall e | e in rest
      ensures !Pending(e)
    {
      WithoutHas(journal, f.operationID, e);
    }
    ClosedNeedsNothing(memory, rest, s);
    assert Put(journal, f)[..|rest|] == rest;
  }

  // ---- What a load establishes ----

  lemma ReconcileOneIsIssued(memory: seq<Workspace>, s: Reconciled, e: JournalEntry, tokens: nat)
    requires EntriesIssued(tokens, s.journal) && Issued(tokens, e.operationID)
    ensures EntriesIssued(tokens, ReconcileOne(memory, s, e).journal)
  {
    PutIsIssued(tokens, s.journal, Decided(memory, e));
  }

  lemma {:induction false} ReconcileIsIssued(memory: seq<Workspace>, entries: seq<JournalEntry>, s: Reconciled,
                                             tokens: nat)
    requires EntriesIssued(tokens, s.journal) && EntriesIssued(tokens, entries)
    ensures EntriesIssued(tokens, Reconcile(memory, entries, s).journal)
  {
    if entries != [] {
      var init := entries[..|entries| - 1];
      assert entries == init + [entries[|entries| - 1]];
      ReconcileIsIssued(memory, init, s, tokens);
      ReconcileOneIsIssued(memory, Reconcile(memory, init, s), entries[|entries| - 1], tokens);
    }
  }

  /** A complete load leaves memory, durable state and proxy agreeing, with every version taken. */
  lemma ReloadIsGood(rules: Rules, disk: Disk, tokens: nat)
    requires Lawful(rules) && UniqueIDs(disk.durable) && EntriesIssued(tokens, disk.journal)
    requires OperationsIssued(tokens, disk.durable)
    ensures Good(rules, Reloaded(rules, disk, tokens))
  {
    var s := Reconciled(disk.journal, RestoredRecords(disk.journal));
    HighestVersionBounds(disk.durable);
    RecordingIsHonest(rules, map[], disk.durable);
    ReconcileIsIssued(disk.durable, disk.journal, s, tokens);
  }

  /** A load reserves every version that is on disk: the next operation's is above them all. */
  lemma LoadReservesVersions(rules: Rules, disk: Disk, tokens: nat, kind: string, correlationID: string)
    ensures var b := Reloaded(rules, disk, tokens);
      var version := Begins(b, kind, correlationID).routeVersion;
      && (forall e | e in disk.journal :: e.routeVersion < version)
      && (forall ws | ws in disk.durable :: ws.route.routeVersion < version && AppsBelow(ws, version - 1))
  {
    HighestEntryBounds(disk.journal);
    HighestVersionBounds(disk.durable);
    BelowLater(disk.durable, HighestVersion(disk.durable), Reloaded(rules, disk, tokens).next);
  }

  // ---- Crash safety ----

  /** A transaction on a workspace that exists, which the candidate gives the entry's version. */
  ghost predicate Targets(a: Sys, candidate: seq<Workspace>, e: JournalEntry) {
    && |candidate| == |a.memory|
    && exists i :: Names(a.memory, e.workspaceID, i) && Names(candidate, e.workspaceID, i)
         && candidate[i].route.routeVersion == e.routeVersion
  }

  lemma IndexIs(wss: seq<Workspace>, id: string, i: int)
    requires UniqueIDs(wss) && Names(wss, id, i)
    ensures IndexOf(wss, id) == Some(i)
  {
  }

  /** Only the candidate has the entry's version. */
  lemma OnlyCandidateMatches(rules: Rules, a: Sys, candidate: seq<Workspace>, e: JournalEntry, f: JournalEntry)
    requires Starts(rules, a, candidate, e) && Targets(a, candidate, e) && Advances(e, f)
    ensures MatchesCandidate(Published(candidate), f) && !MatchesCandidate(a.memory, f)
      && Published(candidate) != a.memory
  {
    var i :| Names(a.memory, e.workspaceID, i) && Names(candidate, e.workspaceID, i)
         && candidate[i].route.routeVersion == e.routeVersion;
    IndexIs(a.memory, e.workspaceID, i);
    PublishedIsUnique(candidate);
    assert Names(Published(candidate), e.workspaceID, i);
    IndexIs(Published(candidate), e.workspaceID, i);
    assert a.memory[i] in a.memory;
  }

  /** What a restart makes of an interrupted transaction. */
  ghost predicate Recovers(rules: Rules, a: Sys, candidate: seq<Workspace>, e: JournalEntry, d: Disk, b: Sys) {
    && (d.durable == a.memory || d.durable == Published(candidate))
    && (forall x | x in d.journal && Pending(x) :: x.operationID == e.operationID)
    && b.memory == d.durable && b.disk.durable == d.durable && b.proxy == Serving(d.durable)
    && Closed(b.disk.journal)
    && (forall x | x in b.disk.journal && x.operationID == e.operationID :: x.status == Committed <==>
        d.durable == Published(candidate))
    && (d.durable == Published(candidate) ==> exists x | x in b.disk.journal :: x.operationID == e.operationID)
    && Good(rules, b)
  }

  lemma FreshEntry(tokens: nat, journal: seq<JournalEntry>, x: JournalEntry)
    requires EntriesIssued(tokens, journal) && x in journal
    ensures x.operationID != OperationName(tokens)
  {
    NextNameIsFresh(tokens);
    assert Issued(tokens, x.operationID);
  }

  lemma ClosedAfterPut(journal: seq<JournalEntry>, f: JournalEntry)
    requires Closed(journal)
    ensures forall x | x in Put(journal, f) && Pending(x) :: x == f
    ensures !Pending(f) ==> Closed(Put(journal, f))
  {
    forall x | x in Put(journal, f) && Pending(x)
      ensures x == f
    {
      PutHas(journal, f, x);
    }
  }

  /** The entry as a load leaves it. */
  function Settled(memory: seq<Workspace>, f: JournalEntry): JournalEntry {
    if Pending(f) then Decided(memory, f) else f
  }

  lemma EntryIsSettled(memory: seq<Workspace>, journal: seq<JournalEntry>, f: JournalEntry, s: Reconciled)
    requires Closed(journal) && s.journal == Put(journal, f)
    ensures Reconcile(memory, Put(journal, f), s).journal == Put(journal, Settled(memory, f))
  {
    LastEntryDecides(memory, journal, f, s);
    PutTwice(journal, f, Settled(memory, f));
  }

  lemma OnlyEntryOfItsName(journal: seq<JournalEntry>, g: JournalEntry)
    ensures g in Put(journal, g)
    ensures forall x | x in Put(journal, g) && x.operationID == g.operationID :: x == g
  {
    PutHas(journal, g, g);
    forall x | x in Put(journal, g) && x.operationID == g.operationID
      ensures x == g
    {
      PutHas(journal, g, x);
    }
  }

  lemma EntryKeepsGood(rules: Rules, a: Sys, candidate: seq<Workspace>, e: JournalEntry, f: JournalEntry,
                       durable: seq<Workspace>)
    requires Starts(rules, a, candidate, e) && Advances(e, f)
    requires durable == a.memory || durable == Published(candidate)
    ensures Good(rules, Reloaded(rules, Disk(durable, Put(a.disk.journal, f)), a.tokens + 1))
  {
    NextNameIsFresh(a.tokens);
    IssuedLater(a.tokens, a.tokens + 1, a.disk.journal);
    PutIsIssued(a.tokens + 1, a.disk.journal, f);
    OperationsIssuedLater(a.tokens, a.tokens + 1, a.memory);
    PublishingKeepsGood(rules, a, candidate, e);
    ReloadIsGood(rules, Disk(durable, Put(a.disk.journal, f)), a.tokens + 1);
  }

  lemma SettledRight(rules: Rules, a: Sys, candidate: seq<Workspace>, e: JournalEntry, f: JournalEntry,
                     durable: seq<Workspace>)
    requires Starts(rules, a, candidate, e) && Targets(a, candidate, e) && Advances(e, f)
    requires
      if durable == a.memory then f.status != Committed
      else durable == Published(candidate) && (f.status == ProxyApplied || f.status == Committed)
    ensures Settled(durable, f).status == Committed <==> durable == Published(candidate)
  {
    OnlyCandidateMatches(rules, a, candidate, e, f);
  }

  /** A closed journal with one more entry, before and after that entry is settled. */
  lemma OneMoreEntry(journal: seq<JournalEntry>, f: JournalEntry, g: JournalEntry)
    requires Closed(journal) && !Pending(g)
    ensures forall x | x in Put(journal, f) && Pending(x) :: x == f
    ensures Closed(Put(journal, g)) && g in Put(journal, g)
    ensures forall x | x in Put(journal, g) && x.operationID == g.operationID :: x == g
  {
    ClosedAfterPut(journal, f);
    ClosedAfterPut(journal, g);
    OnlyEntryOfItsName(journal, g);
  }

  /** With the entry on disk. */
  lemma EntryOnDisk(rules: Rules, a: Sys, candidate: seq<Workspace>, e: JournalEntry, f: JournalEntry, d: Disk)
    requires Starts(rules, a, candidate, e) && Targets(a, candidate, e) && Closed(a.disk.journal)
    requires Advances(e, f) && d.journal == Put(a.disk.journal, f)
    requires if d.durable == a.memory then f.status != Committed
             else d.durable == Published(candidate) && (f.status == ProxyApplied || f.status == Committed)
    ensures Recovers(rules, a, candidate, e, d, Reloaded(rules, d, a.tokens + 1))
  {
    SettledRight(rules, a, candidate, e, f, d.durable);
    OneMoreEntry(a.disk.journal, f, Settled(d.durable, f));
    EntryIsSettled(d.durable, a.disk.journal, f, Reconciled(d.journal, RestoredRecords(d.journal)));
    EntryKeepsGood(rules, a, candidate, e, f, d.durable);
    RecoversAs(rules, a, candidate, e, Settled(d.durable, f), d, Reloaded(rules, d, a.tokens + 1));
  }

  lemma RecoversAs(rules: Rules, a: Sys, candidate: seq<Workspace>, e: JournalEntry, g: JournalEntry, d: Disk, b: Sys)
    requires d.durable == a.memory || d.durable == Published(candidate)
    requires forall x | x in d.journal && Pending(x) :: x.operationID == e.operationID
    requires b.memory == d.durable && b.disk.durable == d.durable && b.proxy == Serving(d.durable)
    requires Closed(b.disk.journal) && g in b.disk.journal && g.operationID == e.operationID
    requires forall x | x in b.disk.journal && x.operationID == g.operationID :: x == g
    requires g.status == Committed <==> d.durable == Published(candidate)
    requires Good(rules, b)
    ensures Recovers(rules, a, candidate, e, d, b)
  {
  }

  /** Before the entry is on disk. */
  lemma NothingOnDisk(rules: Rules, a: Sys, candidate: seq<Workspace>, e: JournalEntry)
    requires Starts(rules, a, candidate, e) && Targets(a, candidate, e) && Closed(a.disk.journal)
    ensures Recovers(rules, a, candidate, e, a.disk, Reloaded(rules, a.disk, a.tokens + 1))
  {
    var s := Reconciled(a.disk.journal, RestoredRecords(a.disk.journal));
    ClosedNeedsNothing(a.memory, a.disk.journal, s);
    OnlyCandidateMatches(rules, a, candidate, e, e);
    BeginningKeepsGood(rules, a);
    ReloadIsGood(rules, a.disk, a.tokens + 1);
    forall x | x in a.disk.journal
      ensures x.operationID != e.operationID
    {
      FreshEntry(a.tokens, a.disk.journal, x);
    }
  }

  /** From any point of a transaction a restart finds at most one open entry, commits it exactly
      when the rows had been saved, and leaves memory, rows and proxy the same. */
  lemma CrashSafety(rules: Rules, a: Sys, candidate: seq<Workspace>, e: JournalEntry, result: Option<Result>, d: Disk)
    requires Starts(rules, a, candidate, e) && Targets(a, candidate, e) && Closed(a.disk.journal)
    requires Reached(a.disk, candidate, e, result, d)
    ensures Recovers(rules, a, candidate, e, d, Reloaded(rules, d, a.tokens + 1))
  {
    if d == a.disk {
      NothingOnDisk(rules, a, candidate, e);
    } else if ReachedBefore(a.disk, e, d) {
      var f :| Advances(e, f) && f.status != Committed && d == Disk(a.disk.durable, Put(a.disk.journal, f));
      EntryOnDisk(rules, a, candidate, e, f, d);
    } else {
      var written :| d == Disk(Published(candidate), Finished(a.disk.journal, e, result, written));
      OnlyCandidateMatches(rules, a, candidate, e, FinishedEntry(e, result, written));
      EntryOnDisk(rules, a, candidate, e, FinishedEntry(e, result, written), d);
    }
  }
}
