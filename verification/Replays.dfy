/** What requests with a used key are answered, over whole runs with crashes. */
module Replays {
  import opened Text
  import opened Model
  import opened Protocol
  import opened Transaction
  import opened Requests
  import opened Invariants
  import opened Recovery
  import opened Runs
  import opened Versions
  import opened Idempotency

  // ---- Every committed key is on record ----

  ghost predicate KnownIn(journal: seq<JournalEntry>, replay: Protocol.Replay) {
    forall e | e in journal && e.status == Committed && e.key != "" :: (e.workspaceID, e.key) in replay
  }

  ghost predicate Known(s: Sys) {
    KnownIn(s.disk.journal, s.replay)
  }

  lemma PutIsKnown(journal: seq<JournalEntry>, replay: Protocol.Replay, f: JournalEntry, now: Protocol.Replay)
    requires KnownIn(journal, replay) && replay.Keys <= now.Keys
    requires f.status == Committed && f.key != "" ==> (f.workspaceID, f.key) in now
    ensures KnownIn(Put(journal, f), now)
  {
    forall e | e in Put(journal, f) && e.status == Committed && e.key != ""
      ensures (e.workspaceID, e.key) in now
    {
      PutHas(journal, f, e);
    }
  }

  lemma {:induction false} ReconcileIsKnown(memory: seq<Workspace>, entries: seq<JournalEntry>, s: Reconciled)
    requires KnownIn(s.journal, s.replay)
    ensures KnownIn(Reconcile(memory, entries, s).journal, Reconcile(memory, entries, s).replay)
  {
    if entries != [] {
      var r, last := Reconcile(memory, entries[..|entries| - 1], s), entries[|entries| - 1];
      ReconcileIsKnown(memory, entries[..|entries| - 1], s);
      if Pending(last) {
        PutIsKnown(r.journal, r.replay, Decided(memory, last), ReconcileOne(memory, r, last).replay);
      }
    }
  }

  /** A load puts every committed key on record. */
  lemma LoadIsKnown(rules: Rules, disk: Disk, tokens: nat)
    ensures Known(Reloaded(rules, disk, tokens))
  {
    forall e | e in disk.journal && e.status == Committed && e.key != ""
      ensures (e.workspaceID, e.key) in RestoredRecords(disk.journal)
    {
      CommittedIsRestored(disk.journal, e);
    }
    ReconcileIsKnown(disk.durable, disk.journal, Reconciled(disk.journal, RestoredRecords(disk.journal)));
  }

  lemma ProceedIsKnown(rules: Rules, a: Sys, i: nat, planned: Planned, intent: Intent, wsID: string, req: Request,
                       out: Outcome, b: Sys)
    requires ProceedStep(rules, a, i, planned, intent, wsID, req, out, b) && Known(a)
    ensures Known(b)
  {
    var op := Begins(a, "route-apply", req.correlationID);
    var e := ApplyEntry(wsID, TrimSpace(req.key), intent, op, a.memory[i].route.routeVersion);
    if out.NotApplied? && b.disk.journal != a.disk.journal {
      var f :| Advances(e, f) && f.status != Committed && b.disk.journal == Put(a.disk.journal, f);
      PutIsKnown(a.disk.journal, a.replay, f, b.replay);
    } else if out.CommittedAs? {
      var result := Some(AppliedResult(planned.plan, op, true));
      var written :| b.disk.journal == Finished(a.disk.journal, e, result, written);
      PutIsKnown(a.disk.journal, a.replay, FinishedEntry(e, result, written), b.replay);
    }
  }

  lemma RequestIsKnown(rules: Rules, a: Sys, wsID: string, req: Request, out: Outcome, b: Sys)
    requires Good(rules, a) && ApplyStep(rules, a, wsID, req, out, b) && Known(a)
    ensures Known(b)
  {
    match Decide(rules, a.memory, a.replay, wsID, req) {
      case Proceed(i, planned, intent) => ProceedIsKnown(rules, a, i, planned, intent, wsID, req, out, b);
      case NoOp(i, planned, intent) =>
        var op := NoOpOperation(a, a.memory[i], req.correlationID);
        PutIsKnown(a.disk.journal, a.replay,
                   NoOpEntry(wsID, TrimSpace(req.key), intent, op, NoOpResult(a, a.memory[i], planned, op)), b.replay);
      case _ =>
    }
  }

  lemma SyncIsKnown(rules: Rules, a: Sys, wsID: string, correlationID: string, repair: bool, out: SyncOutcome, b: Sys)
    requires SyncStep(rules, a, wsID, correlationID, repair, out, b) && Known(a)
    ensures Known(b)
  {
    if (out.SyncNotApplied? || out.Repaired?) && b.disk.journal != a.disk.journal {
      var e := RepairEntry(a, wsID, IndexOf(a.memory, wsID).value, correlationID);
      if out.Repaired? {
        PutIsKnown(a.disk.journal, a.replay, FinishedEntry(e, None, !out.degraded), b.replay);
      } else {
        var f :| Advances(e, f) && f.status != Committed && b.disk.journal == Put(a.disk.journal, f);
        PutIsKnown(a.disk.journal, a.replay, f, b.replay);
      }
    }
  }

  lemma StepIsKnown(rules: Rules, a: Sys, ev: Event, b: Sys)
    requires Good(rules, a) && Step(rules, a, ev, b) && Known(a)
    ensures Known(b)
  {
    match ev {
      case Requested(wsID, req, out) => RequestIsKnown(rules, a, wsID, req, out, b);
      case Synced(wsID, correlationID, repair, out) => SyncIsKnown(rules, a, wsID, correlationID, repair, out, b);
      case Changed(_, _, _, _, _) =>
      case CrashedRequest(_, _, disk) => LoadIsKnown(rules, disk, a.tokens + 1);
      case CrashedSync(_, _, disk) => LoadIsKnown(rules, disk, a.tokens + 1);
      case CrashedChange(_, _, _, disk) => LoadIsKnown(rules, disk, a.tokens + 1);
    }
  }

  lemma {:induction false} KnownThroughout(rules: Rules, run: Run, i: nat)
    requires IsRun(rules, run) && Known(run.states[0]) && i < |run.states|
    ensures Known(run.states[i])
  {
    if i > 0 {
      KnownThroughout(rules, run, i - 1);
      EveryStateIsGood(rules, run, i - 1);
      assert StepAt(rules, run, i - 1);
      StepIsKnown(rules, run.states[i - 1], run.events[i - 1], run.states[i]);
    }
  }

  // ---- The one entry of a key ----

  ghost predicate OnlyEntry(journal: seq<JournalEntry>, key: (string, string), e: JournalEntry) {
    e in journal && HasKey(e, key) && forall x | x in journal && HasKey(x, key) :: x == e
  }

  /** What the journal gives back for a key. */
  function RecordOf(e: JournalEntry): Record {
    Record(IntentIn(e), ResultOf(e))
  }

  ghost predicate Remembers(s: Sys, key: (string, string), e: JournalEntry, record: Record) {
    key in s.replay && s.replay[key] == record && OnlyEntry(s.disk.journal, key, e)
  }

  lemma {:induction false} OnlyEntryIsRestored(journal: seq<JournalEntry>, key: (string, string), e: JournalEntry)
    requires OnlyEntry(journal, key, e) && key.1 != ""
    ensures key in RestoredRecords(journal) && RestoredRecords(journal)[key] == RecordOf(e)
  {
    var init, last := journal[..|journal| - 1], journal[|journal| - 1];
    assert journal == init + [last] && last in journal;
    if last != e {
      assert !HasKey(last, key);
      OnlyEntryIsRestored(init, key, e);
    } else {
      assert key == (e.workspaceID, e.key);
    }
  }

  lemma OnlyEntryStays(rules: Rules, a: Sys, journal: seq<JournalEntry>, key: (string, string), e: JournalEntry)
    requires Good(rules, a) && Extends(a, journal, key) && OnlyEntry(a.disk.journal, key, e) && key in a.replay
    requires key.1 != ""
    ensures OnlyEntry(journal, key, e)
  {
    EntriesStay(rules, a, journal, e, key);
    if journal != a.disk.journal {
      var f :| Adds(a, f, key) && journal == Put(a.disk.journal, f);
      forall x | x in journal && HasKey(x, key) ensures x == e { PutHas(a.disk.journal, f, x); }
    }
  }

  lemma OtherEntryIsDecided(rules: Rules, a: Sys, d: Disk, f: JournalEntry, key: (string, string), e: JournalEntry)
    requires Good(rules, a) && Closed(a.disk.journal) && Adds(a, f, key) && d.journal == Put(a.disk.journal, f)
    requires OnlyEntry(a.disk.journal, key, e) && OnlyEntry(d.journal, key, e) && key in a.replay && key.1 != ""
    ensures Remembers(Reloaded(rules, d, a.tokens + 1), key, e, RecordOf(e))
  {
    var s := Reconciled(d.journal, RestoredRecords(d.journal));
    var g := Settled(d.durable, f);
    LastEntryDecides(d.durable, a.disk.journal, f, s);
    EntryIsSettled(d.durable, a.disk.journal, f, s);
    OnlyEntryIsRestored(d.journal, key, e);
    assert Adds(a, g, key);
    PutExtends(a, g, key);
    OnlyEntryStays(rules, a, Put(a.disk.journal, g), key, e);
  }

  /** A load answers from the journal. */
  lemma LoadRemembers(rules: Rules, a: Sys, d: Disk, key: (string, string), e: JournalEntry)
    requires Good(rules, a) && Closed(a.disk.journal) && Extends(a, d.journal, key)
    requires OnlyEntry(a.disk.journal, key, e) && key in a.replay && key.1 != ""
    ensures Remembers(Reloaded(rules, d, a.tokens + 1), key, e, RecordOf(e))
  {
    OnlyEntryStays(rules, a, d.journal, key, e);
    if d.journal == a.disk.journal {
      OnlyEntryIsRestored(d.journal, key, e);
      ClosedNeedsNothing(d.durable, d.journal, Reconciled(d.journal, RestoredRecords(d.journal)));
    } else {
      var f :| Adds(a, f, key) && d.journal == Put(a.disk.journal, f);
      OtherEntryIsDecided(rules, a, d, f, key, e);
    }
  }

  lemma StepRemembers(rules: Rules, a: Sys, ev: Event, b: Sys, key: (string, string), e: JournalEntry, record: Record)
    requires Good(rules, a) && Closed(a.disk.journal) && Step(rules, a, ev, b)
    requires Remembers(a, key, e, record) && key.1 != ""
    ensures Remembers(b, key, e, if IsCrash(ev) then RecordOf(e) else record)
  {
    if IsCrash(ev) {
      CrashingExtends(rules, a, ev, b, key);
      LoadRemembers(rules, a, ev.disk, key, e);
    } else {
      InProcessExtends(rules, a, ev, b, key);
      OnlyEntryStays(rules, a, b.disk.journal, key, e);
      RecordsStay(rules, a, ev, b, key);
    }
  }

  ghost predicate CrashedIn(run: Run, i: nat, j: nat) {
    exists k | i <= k < j && k < |run.events| :: IsCrash(run.events[k])
  }

  lemma CrashedByNext(run: Run, i: nat, j: nat)
    requires i <= j < |run.events|
    ensures CrashedIn(run, i, j + 1) <==> CrashedIn(run, i, j) || IsCrash(run.events[j])
  {
  }

  /** The record as it is after the events in between. */
  ghost function RecordAfter(run: Run, i: nat, j: nat, e: JournalEntry, record: Record): Record {
    if CrashedIn(run, i, j) then RecordOf(e) else record
  }

  lemma NextRemembers(rules: Rules, run: Run, i: nat, k: nat, key: (string, string), e: JournalEntry, record: Record)
    requires IsRun(rules, run) && Undisturbed(run) && i <= k < |run.events| && key.1 != ""
    requires Remembers(run.states[k], key, e, RecordAfter(run, i, k, e, record))
    ensures Remembers(run.states[k + 1], key, e, RecordAfter(run, i, k + 1, e, record))
  {
    EveryStateIsGood(rules, run, k);
    assert Closed(run.states[k].disk.journal);
    assert StepAt(rules, run, k);
    StepRemembers(rules, run.states[k], run.events[k], run.states[k + 1], key, e, RecordAfter(run, i, k, e, record));
    CrashedByNext(run, i, k);
  }

  lemma {:induction false} RemembersThroughout(rules: Rules, run: Run, i: nat, j: nat, key: (string, string),
                                               e: JournalEntry, record: Record)
    requires IsRun(rules, run) && Undisturbed(run) && i <= j < |run.states| && key.1 != ""
    requires Remembers(run.states[i], key, e, record)
    ensures Remembers(run.states[j], key, e, RecordAfter(run, i, j, e, record))
    decreases j
  {
    if i == j {
      assert !CrashedIn(run, i, j);
    } else {
      RemembersThroughout(rules, run, i, j - 1, key, e, record);
      NextRemembers(rules, run, i, j - 1, key, e, record);
    }
  }

  // ---- What taking effect leaves ----

  /** The operation, the plan and the intent of a request that takes effect. */
  function TakenOperation(a: Sys, req: Request): Operation {
    Begins(a, "route-apply", req.correlationID)
  }

  function TakenPlan(rules: Rules, a: Sys, wsID: string, req: Request): Plan
    requires Decide(rules, a.memory, a.replay, wsID, req).Proceed?
  {
    Decide(rules, a.memory, a.replay, wsID, req).planned.plan
  }

  /** The journal entry of a request that took effect: with its result, or, if a crash came
      before that was written, without one. */
  predicate IsEntryOf(e: JournalEntry, wsID: string, req: Request, intent: Intent, op: Operation, plan: Plan) {
    && e.operationID == op.operationID && e.correlationID == op.correlationID && e.routeVersion == op.routeVersion
    && e.workspaceID == wsID && e.key == TrimSpace(req.key) && e.intent == Some(intent) && e.status == Committed
    && (e.result == None || e.result == Some(AppliedResult(plan, op, true)))
  }

  lemma FreshKeyIsOnly(journal: seq<JournalEntry>, replay: Protocol.Replay, f: JournalEntry, key: (string, string))
    requires KnownIn(journal, replay) && key !in replay && key.1 != "" && HasKey(f, key)
    ensures OnlyEntry(Put(journal, f), key, f)
  {
    PutHas(journal, f, f);
    forall x | x in Put(journal, f) && HasKey(x, key) ensures x == f { PutHas(journal, f, x); }
  }

  lemma CommitRemembers(rules: Rules, a: Sys, candidate: seq<Workspace>, e: JournalEntry, intent: Intent,
                        result: Result, reported: Result, b: Sys)
    returns (f: JournalEntry)
    requires CommitStep(rules, a, candidate, e, e.key, intent, result, reported, b)
    requires Known(a) && (e.workspaceID, e.key) !in a.replay && e.key != "" && Closed(b.disk.journal)
    ensures f == e.(status := Committed, result := Some(result)) && reported == result
    ensures Remembers(b, (e.workspaceID, e.key), f, Record(Some(intent), result))
  {
    var written :| b.disk.journal == Finished(a.disk.journal, e, Some(result), written)
      && reported == Reported(result, written);
    f := FinishedEntry(e, Some(result), written);
    PutHas(a.disk.journal, f, f);
    assert !Pending(f);
    FreshKeyIsOnly(a.disk.journal, a.replay, f, (e.workspaceID, e.key));
  }

  lemma SettledIsRecorded(memory: seq<Workspace>, journal: seq<JournalEntry>, f: JournalEntry)
    requires Closed(journal) && MatchesCandidate(memory, f) && f.key != ""
    requires f.status == ProxyApplied || f.status == Committed
    ensures var replay :=
      Reconcile(memory, Put(journal, f), Reconciled(Put(journal, f), RestoredRecords(Put(journal, f)))).replay;
      && (f.workspaceID, f.key) in replay
      && replay[(f.workspaceID, f.key)] == RecordOf(Settled(memory, f))
  {
    LastEntryDecides(memory, journal, f, Reconciled(Put(journal, f), RestoredRecords(Put(journal, f))));
    if f.status == Committed {
      LastRecord(journal, f);
    }
  }

  /** A load that finds the rows saved commits the entry, and remembers it as the journal has it. */
  lemma CrashRemembers(rules: Rules, a: Sys, candidate: seq<Workspace>, e: JournalEntry, result: Option<Result>,
                       d: Disk)
    returns (g: JournalEntry)
    requires Starts(rules, a, candidate, e) && Targets(a, candidate, e) && Closed(a.disk.journal)
    requires ReachedAfter(a.disk, candidate, e, result, d)
    requires Known(a) && (e.workspaceID, e.key) !in a.replay && e.key != "" && e.result == None
    ensures g.status == Committed && Advances(e, g) && (g.result == None || g.result == result)
    ensures Remembers(Reloaded(rules, d, a.tokens + 1), (e.workspaceID, e.key), g, RecordOf(g))
  {
    var written :| d == Disk(Published(candidate), Finished(a.disk.journal, e, result, written));
    var f := FinishedEntry(e, result, written);
    OnlyCandidateMatches(rules, a, candidate, e, f);
    g := Settled(Published(candidate), f);
    SettledIsRecorded(Published(candidate), a.disk.journal, f);
    EntryIsSettled(Published(candidate), a.disk.journal, f, Reconciled(d.journal, RestoredRecords(d.journal)));
    FreshKeyIsOnly(a.disk.journal, a.replay, g, (e.workspaceID, e.key));
  }

  lemma CommittedRequestRemembers(rules: Rules, a: Sys, i: nat, planned: Planned, intent: Intent, wsID: string,
                                  req: Request, result: Result, b: Sys)
    returns (e: JournalEntry)
    requires Known(a) && (wsID, TrimSpace(req.key)) !in a.replay && TrimSpace(req.key) != "" && Closed(b.disk.journal)
    requires ProceedStep(rules, a, i, planned, intent, wsID, req, CommittedAs(result), b)
    ensures var op := TakenOperation(a, req);
      && IsEntryOf(e, wsID, req, intent, op, planned.plan) && e.result.Some?
        && result == AppliedResult(planned.plan, op, true)
      && Remembers(b, (wsID, TrimSpace(req.key)), e, Record(Some(intent), result))
  {
    var op := TakenOperation(a, req);
    var start := ApplyEntry(wsID, TrimSpace(req.key), intent, op, a.memory[i].route.routeVersion);
    e := CommitRemembers(rules, Begun(a), PlannedCandidate(a.memory, i, planned, op), start, intent,
                         AppliedResult(planned.plan, op, true), result, b);
  }

  lemma SavedRequestRemembers(rules: Rules, a: Sys, i: nat, planned: Planned, intent: Intent, wsID: string,
                              req: Request, d: Disk)
    returns (e: JournalEntry)
    requires Good(rules, a) && Closed(a.disk.journal) && Names(a.memory, wsID, i) && LawfulPlan(a.memory[i], planned)
    requires Known(a) && (wsID, TrimSpace(req.key)) !in a.replay && TrimSpace(req.key) != ""
    requires ProceedReaches(rules, a, i, planned, intent, wsID, req, d) && d.durable != a.disk.durable
    ensures IsEntryOf(e, wsID, req, intent, TakenOperation(a, req), planned.plan)
    ensures Remembers(Reloaded(rules, d, a.tokens + 1), (wsID, TrimSpace(req.key)), e, RecordOf(e))
  {
    var op := TakenOperation(a, req);
    var start := ApplyEntry(wsID, TrimSpace(req.key), intent, op, a.memory[i].route.routeVersion);
    PlannedStarts(rules, a, i, planned, op, start);
    PlanTargets(a, i, planned, op, start);
    e := CrashRemembers(rules, a, PlannedCandidate(a.memory, i, planned, op), start,
                        Some(AppliedResult(planned.plan, op, true)), d);
  }

  /** A request that takes effect has passed every check. */
  lemma TakingProceeds(rules: Rules, a: Sys, ev: Event, b: Sys)
    requires Good(rules, a) && Step(rules, a, ev, b) && Takes(a, ev)
    ensures Check(rules.mode, ev.wsID, ev.req).Fine?
    ensures var d := Decide(rules, a.memory, a.replay, ev.wsID, ev.req);
      && d.Proceed? && d.intent == Check(rules.mode, ev.wsID, ev.req).intent
      && Names(a.memory, ev.wsID, d.i) && LawfulPlan(a.memory[d.i], d.planned)
      && (TrimSpace(ev.req.key) != "" ==> (ev.wsID, TrimSpace(ev.req.key)) !in a.replay)
      && if ev.Requested? then
           ProceedStep(rules, a, d.i, d.planned, d.intent, ev.wsID, ev.req, CommittedAs(ev.out.result), b)
         else
           && ProceedReaches(rules, a, d.i, d.planned, d.intent, ev.wsID, ev.req, ev.disk)
           && b == Reloaded(rules, ev.disk, a.tokens + 1)
  {
    DecisionIsPlanned(rules, a.memory, a.replay, ev.wsID, ev.req);
  }

  ghost predicate LeavesEntry(a: Sys, ev: Event, b: Sys, intent: Intent, plan: Plan, e: JournalEntry)
    requires Takes(a, ev)
  {
    var op := TakenOperation(a, ev.req);
    && IsEntryOf(e, ev.wsID, ev.req, intent, op, plan)
    && (ev.Requested? ==> e.result.Some? && ev.out.result == AppliedResult(plan, op, true))
    && Remembers(b, (ev.wsID, TrimSpace(ev.req.key)), e,
                 if IsCrash(ev) then RecordOf(e) else Record(Some(intent), AppliedResult(plan, op, true)))
  }

  /** Taking effect leaves one entry for the key. */
  lemma TakingRemembers(rules: Rules, a: Sys, ev: Event, b: Sys) returns (e: JournalEntry)
    requires Good(rules, a) && Known(a) && Closed(a.disk.journal) && Step(rules, a, ev, b) && Takes(a, ev)
    requires Closed(b.disk.journal)
    requires TrimSpace(ev.req.key) != ""
    ensures Check(rules.mode, ev.wsID, ev.req).Fine? && Decide(rules, a.memory, a.replay, ev.wsID, ev.req).Proceed?
    ensures LeavesEntry(a, ev, b, Check(rules.mode, ev.wsID, ev.req).intent, TakenPlan(rules, a, ev.wsID, ev.req), e)
  {
    TakingProceeds(rules, a, ev, b);
    var d := Decide(rules, a.memory, a.replay, ev.wsID, ev.req);
    if ev.Requested? {
      e := CommittedRequestRemembers(rules, a, d.i, d.planned, d.intent, ev.wsID, ev.req, ev.out.result, b);
    } else {
      e := SavedRequestRemembers(rules, a, d.i, d.planned, d.intent, ev.wsID, ev.req, ev.disk);
    }
  }

  // ---- The theorem ----

  /** The entry of a request that took effect, and what is on record for it later. */
  lemma EffectIsRemembered(rules: Rules, run: Run, i: nat, j: nat, key: (string, string))
    returns (e: JournalEntry, record: Record)
    requires IsRun(rules, run) && Undisturbed(run) && Known(run.states[0]) && i < j < |run.states| && i < |run.events|
    requires key.1 != ""
    requires Takes(run.states[i], run.events[i]) && IsAbout(run.events[i], key)
    ensures Check(rules.mode, key.0, run.events[i].req).Fine?
    ensures var a, req := run.states[i], run.events[i].req; Decide(rules, a.memory, a.replay, key.0, req).Proceed?
    ensures var a, req := run.states[i], run.events[i].req;
      IsEntryOf(e, key.0, req, Check(rules.mode, key.0, req).intent, TakenOperation(a, req),
                TakenPlan(rules, a, key.0, req))
    ensures run.events[i].Requested? ==> e.result.Some?
    ensures Remembers(run.states[j], key, e, record)
    ensures record.intent == if CrashedIn(run, i, j) then IntentIn(e)
      else Some(Check(rules.mode, key.0, run.events[i].req).intent)
    ensures record.result.operation == TakenOperation(run.states[i], run.events[i].req)
  {
    EveryStateIsGood(rules, run, i);
    KnownThroughout(rules, run, i);
    assert Closed(run.states[i].disk.journal) && Closed(run.states[i + 1].disk.journal);
    assert StepAt(rules, run, i);
    e := TakingRemembers(rules, run.states[i], run.events[i], run.states[i + 1]);
    RemembersThroughout(rules, run, i + 1, j, key, e, run.states[i + 1].replay[key]);
    record := run.states[j].replay[key];
    assert CrashedIn(run, i, j) <==> IsCrash(run.events[i]) || CrashedIn(run, i + 1, j);
  }

  /** Whatever happens in between, a later request with the key of one that took effect changes
      nothing: with the intent on record it is answered with that one's operation, with any other
      it is refused. On record is the first request's intent, and after a crash the one its
      journal entry gives back. */
  lemma LaterRequestsGetTheOperation(rules: Rules, run: Run, i: nat, j: nat, key: (string, string))
    returns (e: JournalEntry)
    requires IsRun(rules, run) && Undisturbed(run) && Known(run.states[0]) && i < j < |run.events| && key.1 != ""
    requires Takes(run.states[i], run.events[i]) && IsAbout(run.events[i], key)
    requires run.events[j].Requested? && IsAbout(run.events[j], key)
    requires Check(rules.mode, key.0, run.events[j].req).Fine?
    ensures run.states[j + 1] == run.states[j]
    ensures Check(rules.mode, key.0, run.events[i].req).Fine?
    ensures var a, req := run.states[i], run.events[i].req; Decide(rules, a.memory, a.replay, key.0, req).Proceed?
    ensures var a, req := run.states[i], run.events[i].req;
      IsEntryOf(e, key.0, req, Check(rules.mode, key.0, req).intent, TakenOperation(a, req),
                TakenPlan(rules, a, key.0, req))
    ensures run.events[i].Requested? ==> e.result.Some?
    ensures OnlyEntry(run.states[j].disk.journal, key, e)
    ensures var first, later := Check(rules.mode, key.0, run.events[i].req).intent,
      Check(rules.mode, key.0, run.events[j].req).intent;
      if (if CrashedIn(run, i, j) then IntentIn(e) else Some(first)) == Some(later)
      then IsReplayOf(run.events[j].out, TakenOperation(run.states[i], run.events[i].req))
      else run.events[j].out == Refused(KeyReused)
  {
    var record;
    e, record := EffectIsRemembered(rules, run, i, j, key);
    assert StepAt(rules, run, j);
    RecordAnswers(rules, run.states[j], run.events[j], run.states[j + 1], key, record);
  }

  predicate IsReplayOf(out: Outcome, op: Operation) {
    out.Replay? && out.result.operation == op && out.result.status == IdempotentReplay && !out.result.changed
  }

  /** If the first request named its application and environment the way its plan does, crashes
      make no difference. */
  lemma CanonicalRequestsReplay(rules: Rules, run: Run, i: nat, j: nat, key: (string, string))
    requires IsRun(rules, run) && Undisturbed(run) && Known(run.states[0]) && i < j < |run.events| && key.1 != ""
    requires Takes(run.states[i], run.events[i]) && IsAbout(run.events[i], key)
    requires run.events[j].Requested? && IsAbout(run.events[j], key)
    requires Check(rules.mode, key.0, run.events[j].req).Fine?
    ensures Check(rules.mode, key.0, run.events[i].req).Fine?
    ensures var a, req := run.states[i], run.events[i].req; Decide(rules, a.memory, a.replay, key.0, req).Proceed?
    ensures var a, first := run.states[i], Check(rules.mode, key.0, run.events[i].req).intent;
      IntentOf(TakenPlan(rules, a, key.0, run.events[i].req)) == first ==>
        if first == Check(rules.mode, key.0, run.events[j].req).intent
        then IsReplayOf(run.events[j].out, TakenOperation(a, run.events[i].req))
        else run.events[j].out == Refused(KeyReused)
  {
    var e := LaterRequestsGetTheOperation(rules, run, i, j, key);
  }
}
