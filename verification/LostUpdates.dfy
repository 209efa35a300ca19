/** Why the journal must not lose updates: what a restart makes of an entry that was left open. */
module LostUpdates {
  import opened Text
  import opened Model
  import opened Protocol
  import opened Transaction
  import opened Requests
  import opened Invariants
  import opened Recovery
  import opened Runs
  import opened Versions
  import opened Idempotency
  import opened Replays

  // ---- What a restart makes of an open entry ----

  ghost predicate OnlyNamed(journal: seq<JournalEntry>, f: JournalEntry) {
    f in journal && forall x | x in journal && x.operationID == f.operationID :: x == f
  }

  lemma PutOther(journal: seq<JournalEntry>, f: JournalEntry, g: JournalEntry)
    requires OnlyNamed(journal, f) && g.operationID != f.operationID
    ensures OnlyNamed(Put(journal, g), f)
  {
    PutHas(journal, g, f);
    forall x | x in Put(journal, g) && x.operationID == f.operationID ensures x == f { PutHas(journal, g, x); }
  }

  /** Entries are decided independently of each other. */
  lemma {:induction false} OpenEntryIsDecided(memory: seq<Workspace>, entries: seq<JournalEntry>, s: Reconciled,
                                              f: JournalEntry)
    requires Pending(f) && OnlyNamed(s.journal, f)
    requires forall x | x in entries && x.operationID == f.operationID :: x == f
    ensures OnlyNamed(Reconcile(memory, entries, s).journal, if f in entries then Decided(memory, f) else f)
  {
    if entries != [] {
      var init, last := entries[..|entries| - 1], entries[|entries| - 1];
      assert entries == init + [last];
      var r := Reconcile(memory, init, s);
      OpenEntryIsDecided(memory, init, s, f);
      if last == f {
        OnlyEntryOfItsName(r.journal, Decided(memory, f));
      } else if Pending(last) {
        PutOther(r.journal, if f in init then Decided(memory, f) else f, Decided(memory, last));
      }
    }
  }

  /** A restart commits an open entry exactly when its workspace has the entry's version, and
      then answers its key. */
  lemma RestartDecides(rules: Rules, disk: Disk, tokens: nat, f: JournalEntry)
    requires Pending(f) && OnlyNamed(disk.journal, f)
    ensures var b := Reloaded(rules, disk, tokens);
      && OnlyNamed(b.disk.journal, Decided(disk.durable, f))
      && (MatchesCandidate(disk.durable, f) && f.key != "" ==> (f.workspaceID, f.key) in b.replay)
  {
    OpenEntryIsDecided(disk.durable, disk.journal, Reconciled(disk.journal, RestoredRecords(disk.journal)), f);
    LoadIsKnown(rules, disk, tokens);
  }

  // ---- Open entries in a run ----

  lemma OpenEntryOf(journal: seq<JournalEntry>, g: JournalEntry, f: JournalEntry)
    requires f in Put(journal, g) && f.operationID == g.operationID
    ensures f == g && OnlyNamed(Put(journal, g), f)
  {
    OnlyEntryOfItsName(journal, g);
  }

  ghost function VersionIn(s: Sys, id: string): nat {
    if Registered(s, id) then WorkspaceOf(s, id).route.routeVersion else 0
  }

  ghost predicate HasVersion(s: Sys, id: string, version: nat) {
    Registered(s, id) && WorkspaceOf(s, id).route.routeVersion == version
  }

  /** The operation committed. */
  ghost predicate TookVersion(ev: Event) {
    (ev.Requested? && ev.out.CommittedAs?) || (ev.Synced? && ev.sync.Repaired?)
  }

  lemma OpenRequestEntry(rules: Rules, a: Sys, wsID: string, req: Request, out: Outcome, b: Sys, f: JournalEntry)
    requires Good(rules, a) && ApplyStep(rules, a, wsID, req, out, b)
    requires f in b.disk.journal && f.operationID == OperationName(a.tokens) && Pending(f)
    ensures OnlyNamed(b.disk.journal, f) && f.workspaceID == wsID && f.routeVersion == a.next + 1
  {
    DecisionIsPlanned(rules, a.memory, a.replay, wsID, req);
    var d := Decide(rules, a.memory, a.replay, wsID, req);
    if b.disk.journal == a.disk.journal {
      FreshEntry(a.tokens, a.disk.journal, f);
      assert false;
    } else if d.NoOp? {
      var op := NoOpOperation(a, a.memory[d.i], req.correlationID);
      OpenEntryOf(a.disk.journal,
                  NoOpEntry(wsID, TrimSpace(req.key), d.intent, op, NoOpResult(a, a.memory[d.i], d.planned, op)), f);
      assert false;
    } else {
      OpenPlanEntry(rules, a, d.i, d.planned, d.intent, wsID, req, out, b, f);
    }
  }

  lemma OpenPlanEntry(rules: Rules, a: Sys, i: nat, planned: Planned, intent: Intent, wsID: string, req: Request,
                      out: Outcome, b: Sys, f: JournalEntry)
    requires ProceedStep(rules, a, i, planned, intent, wsID, req, out, b) && b.disk.journal != a.disk.journal
    requires f in b.disk.journal && f.operationID == OperationName(a.tokens)
    ensures OnlyNamed(b.disk.journal, f) && f.workspaceID == wsID && f.routeVersion == a.next + 1
  {
    var op := Begins(a, "route-apply", req.correlationID);
    var e := ApplyEntry(wsID, TrimSpace(req.key), intent, op, a.memory[i].route.routeVersion);
    if out.NotApplied? {
      var g :| Advances(e, g) && g.status != Committed && b.disk.journal == Put(a.disk.journal, g);
      OpenEntryOf(a.disk.journal, g, f);
    } else {
      var result := Some(AppliedResult(planned.plan, op, true));
      var written :| b.disk.journal == Finished(a.disk.journal, e, result, written);
      OpenEntryOf(a.disk.journal, FinishedEntry(e, result, written), f);
    }
  }

  lemma OpenSyncEntry(rules: Rules, a: Sys, wsID: string, correlationID: string, repair: bool, out: SyncOutcome, b: Sys,
                      f: JournalEntry)
    requires Good(rules, a) && SyncStep(rules, a, wsID, correlationID, repair, out, b)
    requires f in b.disk.journal && f.operationID == OperationName(a.tokens) && Pending(f)
    ensures OnlyNamed(b.disk.journal, f) && f.workspaceID == wsID && f.routeVersion == a.next + 1
  {
    if b.disk.journal == a.disk.journal {
      FreshEntry(a.tokens, a.disk.journal, f);
      assert false;
    } else {
      var e := RepairEntry(a, wsID, IndexOf(a.memory, wsID).value, correlationID);
      if out.Repaired? {
        OpenEntryOf(a.disk.journal, FinishedEntry(e, None, !out.degraded), f);
      } else {
        var g :| Advances(e, g) && g.status != Committed && b.disk.journal == Put(a.disk.journal, g);
        OpenEntryOf(a.disk.journal, g, f);
      }
    }
  }

  /** An entry an operation leaves open carries the operation's workspace and version, which the
      workspace has exactly if the operation committed. */
  lemma OpenEntryIsTheOperations(rules: Rules, a: Sys, ev: Event, b: Sys, f: JournalEntry)
    requires Good(rules, a) && Step(rules, a, ev, b) && !IsCrash(ev)
    requires f in b.disk.journal && f.operationID == OperationName(a.tokens) && Pending(f)
    ensures OnlyNamed(b.disk.journal, f) && (ev.Requested? || ev.Synced?) && f.workspaceID == ev.wsID
      && f.routeVersion == a.next + 1
    ensures HasVersion(b, f.workspaceID, f.routeVersion) <==> TookVersion(ev)
    ensures !TookVersion(ev) ==> b.memory == a.memory
  {
    match ev {
      case Requested(wsID, req, out) =>
        OpenRequestEntry(rules, a, wsID, req, out, b, f);
        if out.CommittedAs? {
          CommitChangesMemory(rules, a, wsID, req, out, b);
          StepKeepsGood(rules, a, ev, b);
          IndexIs(b.memory, wsID, Decide(rules, a.memory, a.replay, wsID, req).i);
        } else {
          AllOrNothing(rules, a, wsID, req, out, b);
        }
      case Synced(wsID, correlationID, repair, out) =>
        OpenSyncEntry(rules, a, wsID, correlationID, repair, out, b, f);
        SyncAllOrNothing(rules, a, wsID, correlationID, repair, out, b);
      case Changed(_, _, _, _, _) =>
        FreshEntry(a.tokens, a.disk.journal, f);
        assert false;
    }
  }

  /** Nothing but a restart touches it. */
  lemma OpenEntryStays(rules: Rules, a: Sys, ev: Event, b: Sys, f: JournalEntry)
    requires Good(rules, a) && Step(rules, a, ev, b) && !IsCrash(ev) && OnlyNamed(a.disk.journal, f)
    ensures OnlyNamed(b.disk.journal, f)
  {
    var none := ("", "");
    InProcessExtends(rules, a, ev, b, none);
    if b.disk.journal != a.disk.journal {
      var g :| Adds(a, g, none) && b.disk.journal == Put(a.disk.journal, g);
      FreshEntry(a.tokens, a.disk.journal, f);
      PutOther(a.disk.journal, f, g);
    }
  }

  lemma OpenEntryStaysNext(rules: Rules, run: Run, k: nat, f: JournalEntry)
    requires IsRun(rules, run) && k < |run.events| && !IsCrash(run.events[k])
    requires OnlyNamed(run.states[k].disk.journal, f)
    ensures OnlyNamed(run.states[k + 1].disk.journal, f)
  {
    EveryStateIsGood(rules, run, k);
    assert StepAt(rules, run, k);
    OpenEntryStays(rules, run.states[k], run.events[k], run.states[k + 1], f);
  }

  lemma {:induction false} OpenEntryStaysThroughout(rules: Rules, run: Run, i: nat, j: nat, f: JournalEntry)
    requires IsRun(rules, run) && i <= j < |run.states|
    requires forall k | i <= k < j :: !IsCrash(run.events[k])
    requires OnlyNamed(run.states[i].disk.journal, f)
    ensures OnlyNamed(run.states[j].disk.journal, f)
    decreases j
  {
    if i < j {
      OpenEntryStaysThroughout(rules, run, i, j - 1, f);
      OpenEntryStaysNext(rules, run, j - 1, f);
    }
  }

  /** The entry of an operation whose closing update was lost. */
  ghost predicate LostUpdate(rules: Rules, run: Run, i: nat, j: nat, f: JournalEntry) {
    && IsRun(rules, run) && i < j < |run.states|
    && (forall k | i <= k < j :: !IsCrash(run.events[k]))
    && f in run.states[i + 1].disk.journal && f.operationID == OperationName(run.states[i].tokens) && Pending(f)
  }

  lemma LostUpdateBegins(rules: Rules, run: Run, i: nat, f: JournalEntry)
    requires IsRun(rules, run) && i < |run.events| && !IsCrash(run.events[i])
    requires f in run.states[i + 1].disk.journal && f.operationID == OperationName(run.states[i].tokens) && Pending(f)
    ensures OnlyNamed(run.states[i + 1].disk.journal, f)
    ensures HasVersion(run.states[i + 1], f.workspaceID, f.routeVersion) <==> TookVersion(run.events[i])
    ensures !TookVersion(run.events[i]) ==> VersionIn(run.states[i + 1], f.workspaceID) < f.routeVersion
  {
    EveryStateIsGood(rules, run, i);
    assert StepAt(rules, run, i);
    OpenEntryIsTheOperations(rules, run.states[i], run.events[i], run.states[i + 1], f);
    if !TookVersion(run.events[i]) {
      SameMemoryIsBelow(rules, run.states[i], run.states[i + 1], f.workspaceID);
    }
  }

  lemma SameMemoryIsBelow(rules: Rules, a: Sys, b: Sys, id: string)
    requires Good(rules, a) && b.memory == a.memory
    ensures VersionIn(b, id) <= a.next
  {
    if Registered(a, id) {
      assert WorkspaceOf(a, id) in a.memory;
    }
  }

  lemma LostUpdateStaysOpen(rules: Rules, run: Run, i: nat, j: nat, f: JournalEntry)
    requires LostUpdate(rules, run, i, j, f)
    ensures OnlyNamed(run.states[j].disk.journal, f) && Good(rules, run.states[j])
    ensures HasVersion(run.states[i + 1], f.workspaceID, f.routeVersion) <==> TookVersion(run.events[i])
  {
    LostUpdateBegins(rules, run, i, f);
    OpenEntryStaysThroughout(rules, run, i + 1, j, f);
    EveryStateIsGood(rules, run, j);
  }

  lemma RestartDecidesByVersion(rules: Rules, s: Sys, f: JournalEntry) returns (g: JournalEntry)
    requires Good(rules, s) && Pending(f) && OnlyNamed(s.disk.journal, f)
    ensures OnlyNamed(Reloaded(rules, s.disk, s.tokens).disk.journal, g) && g.operationID == f.operationID
    ensures g.status == if HasVersion(s, f.workspaceID, f.routeVersion) then Committed else RolledBack
  {
    RestartDecides(rules, s.disk, s.tokens, f);
    g := Decided(s.memory, f);
  }

  /** The next restart decides the entry rightly, for a committed operation, exactly when the
      workspace still has the entry's version, and for an aborted one exactly when it does not
      have it. */
  lemma LostUpdateIsDecidedByVersion(rules: Rules, run: Run, i: nat, j: nat, f: JournalEntry) returns (g: JournalEntry)
    requires LostUpdate(rules, run, i, j, f)
    ensures OnlyNamed(Reloaded(rules, run.states[j].disk, run.states[j].tokens).disk.journal, g)
      && g.operationID == f.operationID
    ensures g.status == if HasVersion(run.states[j], f.workspaceID, f.routeVersion) then Committed else RolledBack
    ensures HasVersion(run.states[i + 1], f.workspaceID, f.routeVersion) <==> TookVersion(run.events[i])
  {
    LostUpdateStaysOpen(rules, run, i, j, f);
    g := RestartDecidesByVersion(rules, run.states[j], f);
  }

  /** The workspace is registered throughout, and its version never falls. */
  ghost predicate Rising(run: Run, i: nat, j: nat, id: string) {
    && j < |run.states|
    && (forall k | i <= k <= j :: Registered(run.states[k], id))
    && (forall k, m | i <= k <= m <= j :: VersionIn(run.states[k], id) <= VersionIn(run.states[m], id))
  }

  lemma RegisteredIsRising(rules: Rules, run: Run, i: nat, j: nat, id: string)
    requires IsRun(rules, run) && i <= j < |run.states| && RegisteredIn(run.states[i..j + 1], id)
    ensures Rising(run, i, j, id)
  {
    forall k | i <= k <= j
      ensures Registered(run.states[k], id)
    {
      assert run.states[k] == run.states[i..j + 1][k - i];
    }
    forall k, m | i <= k <= m <= j
      ensures VersionIn(run.states[k], id) <= VersionIn(run.states[m], id)
    {
      forall s | s in run.states[k..m + 1] ensures Registered(s, id) { assert s in run.states[i..j + 1]; }
      VersionsIdentifyRoutes(rules, run, k, m, id);
    }
  }

  lemma StaysAt(run: Run, i: nat, j: nat, id: string, version: nat)
    requires i <= j && Rising(run, i, j, id) && HasVersion(run.states[i], id, version)
    ensures HasVersion(run.states[j], id, version) <==> forall k | i <= k <= j :: HasVersion(run.states[k], id, version)
  {
    if HasVersion(run.states[j], id, version) {
      forall k | i <= k <= j ensures HasVersion(run.states[k], id, version) {
        assert VersionIn(run.states[i], id) <= VersionIn(run.states[k], id) <= VersionIn(run.states[j], id);
      }
    }
  }

  /** A committed operation is decided rightly exactly as long as nothing has moved its workspace
      on. */
  lemma CommitIsForgottenIffMoved(rules: Rules, run: Run, i: nat, j: nat, f: JournalEntry) returns (g: JournalEntry)
    requires LostUpdate(rules, run, i, j, f) && TookVersion(run.events[i])
    requires RegisteredIn(run.states[i + 1..j + 1], f.workspaceID)
    ensures OnlyNamed(Reloaded(rules, run.states[j].disk, run.states[j].tokens).disk.journal, g)
      && g.operationID == f.operationID
    ensures g.status == Committed <==>
      forall k | i + 1 <= k <= j :: HasVersion(run.states[k], f.workspaceID, f.routeVersion)
  {
    g := LostUpdateIsDecidedByVersion(rules, run, i, j, f);
    RegisteredIsRising(rules, run, i + 1, j, f.workspaceID);
    StaysAt(run, i + 1, j, f.workspaceID, f.routeVersion);
  }

  /** The step gives the workspace the version, and it has kept it since. */
  ghost predicate TakenFor(run: Run, k: nat, j: nat, id: string, version: nat)
    requires k < j < |run.states|
  {
    VersionIn(run.states[k], id) < version && forall m | k < m <= j :: HasVersion(run.states[m], id, version)
  }

  lemma {:induction false} SomeStepTakes(run: Run, i: nat, j: nat, id: string, version: nat) returns (k: nat)
    requires i <= j && Rising(run, i, j, id)
    requires VersionIn(run.states[i], id) < version && HasVersion(run.states[j], id, version)
    ensures i <= k < j && TakenFor(run, k, j, id, version)
    decreases j
  {
    if VersionIn(run.states[j - 1], id) < version {
      k := j - 1;
    } else {
      assert VersionIn(run.states[j - 1], id) <= VersionIn(run.states[j], id);
      k := SomeStepTakes(run, i, j - 1, id, version);
    }
  }

  /** An aborted operation is decided wrongly exactly when the version it gave back went to its
      own workspace, and the workspace still has it. */
  lemma AbortIsForgedIffVersionTaken(rules: Rules, run: Run, i: nat, j: nat, f: JournalEntry) returns (g: JournalEntry)
    requires LostUpdate(rules, run, i, j, f) && !TookVersion(run.events[i])
    requires RegisteredIn(run.states[i + 1..j + 1], f.workspaceID)
    ensures OnlyNamed(Reloaded(rules, run.states[j].disk, run.states[j].tokens).disk.journal, g)
      && g.operationID == f.operationID
    ensures g.status == Committed <==> exists k | i < k < j :: TakenFor(run, k, j, f.workspaceID, f.routeVersion)
  {
    g := LostUpdateIsDecidedByVersion(rules, run, i, j, f);
    if g.status == Committed {
      RegisteredIsRising(rules, run, i + 1, j, f.workspaceID);
      LostUpdateBegins(rules, run, i, f);
      var k := SomeStepTakes(run, i + 1, j, f.workspaceID, f.routeVersion);
    } else {
      NotTaken(run, i, j, f);
    }
  }

  lemma NotTaken(run: Run, i: nat, j: nat, f: JournalEntry)
    requires i < j < |run.states| && !HasVersion(run.states[j], f.workspaceID, f.routeVersion)
    ensures !exists k | i < k < j :: TakenFor(run, k, j, f.workspaceID, f.routeVersion)
  {
  }

  // ---- Examples ----

  /** Reconciling an open entry that is followed by a closed one. */
  lemma OpenBeforeClosed(memory: seq<Workspace>, journal: seq<JournalEntry>, f: JournalEntry, g: JournalEntry,
                         s: Reconciled)
    requires Closed(journal) && Pending(f) && !Pending(g) && f.operationID != g.operationID
    ensures Reconcile(memory, Put(Put(journal, f), g), s) == ReconcileOne(memory, s, f)
  {
    var first := Put(journal, f);
    var rest, init := Without(first, g.operationID), Without(journal, f.operationID);
    assert first[..|first| - 1] == init && first[|first| - 1] == f;
    assert rest == Without(init, g.operationID) + [f];
    assert Put(first, g)[..|rest|] == rest;
    assert rest[..|rest| - 1] == Without(init, g.operationID);
    forall e | e in Without(init, g.operationID)
      ensures !Pending(e)
    {
      WithoutHas(init, g.operationID, e);
      WithoutHas(journal, f.operationID, e);
    }
    ClosedNeedsNothing(memory, Without(init, g.operationID), s);
  }

  /** A failed operation whose closing update was lost gives its version back; when the next
      operation takes that version, a restart mistakes the failed one for committed, and answers
      its key as if it had taken effect. */
  lemma LostUpdateForgesACommit(memory: seq<Workspace>, journal: seq<JournalEntry>, f: JournalEntry, g: JournalEntry,
                                rules: Rules, tokens: nat)
    requires Closed(journal) && Pending(f) && g.status == Committed && f.operationID != g.operationID
    requires f.key != "" && f.routeVersion == g.routeVersion && f.workspaceID == g.workspaceID
    requires MatchesCandidate(memory, g)
    ensures var b := Reloaded(rules, Disk(memory, Put(Put(journal, f), g)), tokens);
      && (f.workspaceID, f.key) in b.replay
      && exists e | e in b.disk.journal :: e.operationID == f.operationID && e.status == Committed
  {
    var disk := Put(Put(journal, f), g);
    OpenBeforeClosed(memory, journal, f, g, Reconciled(disk, RestoredRecords(disk)));
    PutHas(disk, Decided(memory, f), Decided(memory, f));
  }

  /** A committed operation whose last update was lost is mistaken for rolled back once another
      operation has moved its workspace on. */
  lemma LostUpdateForgetsACommit(memory: seq<Workspace>, journal: seq<JournalEntry>, f: JournalEntry, g: JournalEntry,
                                 rules: Rules, tokens: nat)
    requires Closed(journal) && f.status == ProxyApplied && g.status == Committed && f.operationID != g.operationID
    requires f.routeVersion != g.routeVersion && f.workspaceID == g.workspaceID
    requires MatchesCandidate(memory, g)
    ensures var b := Reloaded(rules, Disk(memory, Put(Put(journal, f), g)), tokens);
      exists e | e in b.disk.journal :: e.operationID == f.operationID && e.status == RolledBack
  {
    var disk := Put(Put(journal, f), g);
    OpenBeforeClosed(memory, journal, f, g, Reconciled(disk, RestoredRecords(disk)));
    PutHas(disk, Decided(memory, f), Decided(memory, f));
  }

  lemma TwoNames(tokens: nat)
    ensures OperationName(tokens) != OperationName(tokens + 1)
  {
    NextNameIsFresh(tokens + 1);
    assert Issued(tokens + 1, OperationName(tokens));
  }

  lemma AbandonmentLeavesEntry(rules: Rules, a: Sys, i: nat, planned: Planned, intent: Intent, wsID: string,
                               req: Request, end: Ended, b: Sys)
    returns (f: JournalEntry)
    requires Closed(a.disk.journal) && !Closed(b.disk.journal)
    requires ProceedStep(rules, a, i, planned, intent, wsID, req, NotApplied(end), b)
    ensures b.disk.journal == Put(a.disk.journal, f) && Pending(f)
    ensures f.operationID == OperationName(a.tokens) && f.routeVersion == a.next + 1
    ensures (f.workspaceID, f.key) == (wsID, TrimSpace(req.key))
    ensures b.memory == a.memory && b.next == a.next && b.tokens == a.tokens + 1
  {
    var op := Begins(a, "route-apply", req.correlationID);
    var e := ApplyEntry(wsID, TrimSpace(req.key), intent, op, a.memory[i].route.routeVersion);
    f :| Advances(e, f) && f.status != Committed && b.disk.journal == Put(a.disk.journal, f);
    ClosedAfterPut(a.disk.journal, f);
  }

  /** The open entry a failed request leaves when its last update is lost. */
  lemma FailureLeavesEntry(rules: Rules, a: Sys, wsID: string, req: Request, end: Ended, b: Sys)
    returns (f: JournalEntry)
    requires Good(rules, a) && Closed(a.disk.journal)
    requires ApplyStep(rules, a, wsID, req, NotApplied(end), b) && !Closed(b.disk.journal)
    ensures b.disk.journal == Put(a.disk.journal, f) && Pending(f)
    ensures f.operationID == OperationName(a.tokens) && f.routeVersion == a.next + 1
    ensures (f.workspaceID, f.key) == (wsID, TrimSpace(req.key))
    ensures b.memory == a.memory && b.next == a.next && b.tokens == a.tokens + 1
  {
    var d := Decide(rules, a.memory, a.replay, wsID, req);
    f := AbandonmentLeavesEntry(rules, a, d.i, d.planned, d.intent, wsID, req, end, b);
  }

  lemma CommitLeavesEntry(rules: Rules, a: Sys, wsID: string, req: Request, result: Result, b: Sys)
    returns (g: JournalEntry)
    requires Good(rules, a) && ApplyStep(rules, a, wsID, req, CommittedAs(result), b) && !result.degraded
    ensures b.disk.journal == Put(a.disk.journal, g) && g.status == Committed
    ensures g.operationID == OperationName(a.tokens) && g.routeVersion == a.next + 1 && g.workspaceID == wsID
    ensures MatchesCandidate(b.memory, g) && b.disk.durable == b.memory
  {
    DecisionIsPlanned(rules, a.memory, a.replay, wsID, req);
    ApplyKeepsGood(rules, a, wsID, req, CommittedAs(result), b);
    var d, op := Decide(rules, a.memory, a.replay, wsID, req), Begins(a, "route-apply", req.correlationID);
    var e := ApplyEntry(wsID, TrimSpace(req.key), d.intent, op, a.memory[d.i].route.routeVersion);
    g := e.(status := Committed, result := Some(AppliedResult(d.planned.plan, op, true)));
    IndexIs(b.memory, wsID, d.i);
  }

  /** Such runs exist whenever a request fails with its entry left open and another one for the
      same workspace succeeds: the failed request is then answered as if it had succeeded. */
  lemma RunForgesACommit(rules: Rules, a: Sys, wsID: string, first: Request, end: Ended, b: Sys, second: Request,
                         result: Result, c: Sys, tokens: nat)
    requires Good(rules, a) && Closed(a.disk.journal) && TrimSpace(first.key) != ""
    requires ApplyStep(rules, a, wsID, first, NotApplied(end), b) && !Closed(b.disk.journal)
    requires ApplyStep(rules, b, wsID, second, CommittedAs(result), c) && !result.degraded
    ensures b.memory == a.memory && (wsID, TrimSpace(first.key)) in Reloaded(rules, c.disk, tokens).replay
  {
    ApplyKeepsGood(rules, a, wsID, first, NotApplied(end), b);
    var f := FailureLeavesEntry(rules, a, wsID, first, end, b);
    var g := CommitLeavesEntry(rules, b, wsID, second, result, c);
    TwoNames(a.tokens);
    LostUpdateForgesACommit(c.memory, a.disk.journal, f, g, rules, tokens);
  }

  predicate ValidAs(rules: Rules, memory: seq<Workspace>, i: nat, planned: Planned, op: Operation)
    requires Applicable(memory, i, planned)
  {
    rules.valid(PlannedCandidate(memory, i, planned, op))
  }

  /** The request goes ahead with this plan, and its candidate is valid whatever the operation. */
  ghost predicate GoesAhead(rules: Rules, a: Sys, wsID: string, req: Request, i: nat, planned: Planned, intent: Intent)
  {
    && Decide(rules, a.memory, a.replay, wsID, req) == Proceed(i, planned, intent) && Applicable(a.memory, i, planned)
    && forall op :: ValidAs(rules, a.memory, i, planned, op)
  }

  lemma WithoutKeyDecidesAlike(rules: Rules, memory: seq<Workspace>, replay: Protocol.Replay, wsID: string,
                               req: Request)
    requires Decide(rules, memory, replay, wsID, req).Proceed?
    ensures Decide(rules, memory, replay, wsID, req.(key := "")) == Decide(rules, memory, replay, wsID, req)
  {
    var second, intent := req.(key := ""), Check(rules.mode, wsID, req).intent;
    assert Check(rules.mode, wsID, second) == Check(rules.mode, wsID, req);
    assert DecideFresh(rules, memory, wsID, second, intent) == DecideFresh(rules, memory, wsID, req, intent) by {
      forall ws, i, planned
        ensures DecidePlanned(ws, i, second, intent, planned) == DecidePlanned(ws, i, req, intent, planned)
      {
        assert Stale(second, ws.route.routeVersion) == Stale(req, ws.route.routeVersion);
      }
    }
  }

  /** The proxy refuses the candidate without having been touched, and the update that would
      have closed the entry is lost. */
  lemma FailsLeavingEntry(rules: Rules, a: Sys, i: nat, planned: Planned, intent: Intent, wsID: string, req: Request)
    returns (b: Sys)
    requires Applicable(a.memory, i, planned)
    requires rules.valid(PlannedCandidate(a.memory, i, planned, Begins(a, "route-apply", req.correlationID)))
    ensures ProceedStep(rules, a, i, planned, intent, wsID, req, NotApplied(Aborted(AtProxy, NotRequired, false)), b)
    ensures b == a.(tokens := a.tokens + 1, disk := b.disk) && !Closed(b.disk.journal)
  {
    var op := Begins(a, "route-apply", req.correlationID);
    var e := ApplyEntry(wsID, TrimSpace(req.key), intent, op, a.memory[i].route.routeVersion);
    b := a.(tokens := a.tokens + 1, disk := a.disk.(journal := Put(a.disk.journal, e)));
    PutHas(a.disk.journal, e, e);
    assert Advances(e, e);
  }

  lemma CommitsCleanly(rules: Rules, a: Sys, i: nat, planned: Planned, intent: Intent, wsID: string, req: Request)
    returns (result: Result, b: Sys)
    requires Applicable(a.memory, i, planned)
    requires rules.valid(PlannedCandidate(a.memory, i, planned, Begins(a, "route-apply", req.correlationID)))
    ensures ProceedStep(rules, a, i, planned, intent, wsID, req, CommittedAs(result), b) && !result.degraded
  {
    var op := Begins(a, "route-apply", req.correlationID);
    var e := ApplyEntry(wsID, TrimSpace(req.key), intent, op, a.memory[i].route.routeVersion);
    var candidate := PlannedCandidate(a.memory, i, planned, op);
    result := AppliedResult(planned.plan, op, true);
    b := Begun(a).(memory := Published(candidate), cache := Recorded(rules.routes, a.cache, candidate),
                   proxy := Serving(candidate),
                   disk := Disk(Published(candidate), Finished(a.disk.journal, e, Some(result), true)),
                   replay := Remember(a.replay, wsID, TrimSpace(req.key), intent, result));
    assert CommitStep(rules, Begun(a), candidate, e, TrimSpace(req.key), intent, result, Reported(result, true), b);
  }

  lemma TwoStepsForge(rules: Rules, a: Sys, wsID: string, req: Request, i: nat, planned: Planned, intent: Intent)
    returns (b: Sys, result: Result, c: Sys)
    requires GoesAhead(rules, a, wsID, req, i, planned, intent)
    ensures ProceedStep(rules, a, i, planned, intent, wsID, req, NotApplied(Aborted(AtProxy, NotRequired, false)), b)
    ensures ProceedStep(rules, b, i, planned, intent, wsID, req.(key := ""), CommittedAs(result), c)
    ensures b == a.(tokens := a.tokens + 1, disk := b.disk) && !Closed(b.disk.journal) && !result.degraded
  {
    assert ValidAs(rules, a.memory, i, planned, Begins(a, "route-apply", req.correlationID));
    b := FailsLeavingEntry(rules, a, i, planned, intent, wsID, req);
    assert ValidAs(rules, b.memory, i, planned, Begins(b, "route-apply", req.correlationID));
    result, c := CommitsCleanly(rules, b, i, planned, intent, wsID, req.(key := ""));
  }

  /** From any state in which a keyed request would go ahead, two steps lead there: the request
      fails, and the same change without a key succeeds. */
  lemma ForgeryHappens(rules: Rules, a: Sys, wsID: string, req: Request, i: nat, planned: Planned, intent: Intent,
                       tokens: nat)
    returns (b: Sys, result: Result, c: Sys)
    requires Good(rules, a) && Closed(a.disk.journal) && TrimSpace(req.key) != ""
    requires GoesAhead(rules, a, wsID, req, i, planned, intent)
    ensures ApplyStep(rules, a, wsID, req, NotApplied(Aborted(AtProxy, NotRequired, false)), b)
    ensures ApplyStep(rules, b, wsID, req.(key := ""), CommittedAs(result), c)
    ensures b.memory == a.memory && (wsID, TrimSpace(req.key)) in Reloaded(rules, c.disk, tokens).replay
  {
    b, result, c := TwoStepsForge(rules, a, wsID, req, i, planned, intent);
    WithoutKeyDecidesAlike(rules, a.memory, a.replay, wsID, req);
    RunForgesACommit(rules, a, wsID, req, Aborted(AtProxy, NotRequired, false), b, req.(key := ""), result, c, tokens);
  }
}
