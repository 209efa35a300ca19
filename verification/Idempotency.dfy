/** At most one effect per idempotency key, over whole runs with crashes. */
module Idempotency {
  import opened Text
  import opened Model
  import opened Protocol
  import opened Transaction
  import opened Requests
  import opened Invariants
  import opened Recovery
  import opened Runs
  import opened Versions

  predicate HasKey(e: JournalEntry, key: (string, string)) {
    e.status == Committed && (e.workspaceID, e.key) == key
  }

  /** The key has had its effect, in memory and in the journal. */
  ghost predicate Spent(s: Sys, key: (string, string)) {
    key in s.replay && exists e | e in s.disk.journal :: HasKey(e, key)
  }

  /** Where an operation that started in this state can have taken the journal: its entry has a
      name of its own and, if this key was on record, another key. */
  ghost predicate Extends(a: Sys, journal: seq<JournalEntry>, key: (string, string)) {
    || journal == a.disk.journal
    || exists f :: Adds(a, f, key) && journal == Put(a.disk.journal, f)
  }

  predicate Adds(a: Sys, f: JournalEntry, key: (string, string)) {
    f.operationID == OperationName(a.tokens) && (key in a.replay && key.1 != "" ==> (f.workspaceID, f.key) != key)
  }

  lemma EntriesStay(rules: Rules, a: Sys, journal: seq<JournalEntry>, e: JournalEntry, key: (string, string))
    requires Good(rules, a) && Extends(a, journal, key) && e in a.disk.journal
    ensures e in journal
  {
    if journal != a.disk.journal {
      var f :| Adds(a, f, key) && journal == Put(a.disk.journal, f);
      FreshEntry(a.tokens, a.disk.journal, e);
      PutHas(a.disk.journal, f, e);
    }
  }

  lemma PutExtends(a: Sys, f: JournalEntry, key: (string, string))
    requires Adds(a, f, key)
    ensures Extends(a, Put(a.disk.journal, f), key)
  {
  }

  lemma ReachedExtends(a: Sys, candidate: seq<Workspace>, e: JournalEntry, result: Option<Result>, d: Disk,
                       key: (string, string))
    requires Adds(a, e, key) && Reached(a.disk, candidate, e, result, d)
    ensures Extends(a, d.journal, key)
  {
    if ReachedBefore(a.disk, e, d) {
      var f :| Advances(e, f) && f.status != Committed && d == Disk(a.disk.durable, Put(a.disk.journal, f));
      PutExtends(a, f, key);
    } else if d != a.disk {
      var written :| d == Disk(Published(candidate), Finished(a.disk.journal, e, result, written));
      PutExtends(a, FinishedEntry(e, result, written), key);
    }
  }

  // ---- Loading ----

  lemma {:induction false} CommittedIsRestored(journal: seq<JournalEntry>, e: JournalEntry)
    requires e in journal && e.status == Committed && e.key != ""
    ensures (e.workspaceID, e.key) in RestoredRecords(journal)
  {
    var init, last := journal[..|journal| - 1], journal[|journal| - 1];
    assert journal == init + [last];
    if e != last {
      CommittedIsRestored(init, e);
    }
  }

  lemma ReconcileOneKeeps(memory: seq<Workspace>, s: Reconciled, f: JournalEntry, e: JournalEntry,
                          key: (string, string))
    requires e.operationID != f.operationID
    ensures e in s.journal ==> e in ReconcileOne(memory, s, f).journal
    ensures key in s.replay ==> key in ReconcileOne(memory, s, f).replay
  {
    if Pending(f) {
      PutHas(s.journal, Decided(memory, f), e);
    }
  }

  /** A load keeps a committed entry and its key. */
  lemma LoadKeeps(rules: Rules, a: Sys, d: Disk, e: JournalEntry, key: (string, string))
    requires Good(rules, a) && Closed(a.disk.journal) && Extends(a, d.journal, key)
    requires e in a.disk.journal && HasKey(e, key) && key.1 != ""
    ensures Spent(Reloaded(rules, d, a.tokens + 1), key)
  {
    var s := Reconciled(d.journal, RestoredRecords(d.journal));
    EntriesStay(rules, a, d.journal, e, key);
    CommittedIsRestored(d.journal, e);
    if d.journal == a.disk.journal {
      ClosedNeedsNothing(d.durable, d.journal, s);
    } else {
      var f :| Adds(a, f, key) && d.journal == Put(a.disk.journal, f);
      LastEntryDecides(d.durable, a.disk.journal, f, s);
      FreshEntry(a.tokens, a.disk.journal, e);
      ReconcileOneKeeps(d.durable, s, f, e, key);
    }
    assert e in Reloaded(rules, d, a.tokens + 1).disk.journal;
  }

  // ---- Once spent, always spent ----

  lemma RequestExtends(rules: Rules, a: Sys, wsID: string, req: Request, out: Outcome, b: Sys, key: (string, string))
    requires Good(rules, a) && ApplyStep(rules, a, wsID, req, out, b)
    ensures Extends(a, b.disk.journal, key) && a.replay.Keys <= b.replay.Keys
  {
    DecisionIsPlanned(rules, a.memory, a.replay, wsID, req);
    match Decide(rules, a.memory, a.replay, wsID, req) {
      case Proceed(i, planned, intent) => ProceedExtends(rules, a, i, planned, intent, wsID, req, out, b, key);
      case NoOp(i, planned, intent) =>
        if b.disk.journal != a.disk.journal {
          var op := NoOpOperation(a, a.memory[i], req.correlationID);
          PutExtends(a, NoOpEntry(wsID, TrimSpace(req.key), intent, op, NoOpResult(a, a.memory[i], planned, op)), key);
        }
      case _ =>
    }
  }

  lemma ProceedExtends(rules: Rules, a: Sys, i: nat, planned: Planned, intent: Intent, wsID: string, req: Request,
                       out: Outcome, b: Sys, key: (string, string))
    requires ProceedStep(rules, a, i, planned, intent, wsID, req, out, b)
    requires key in a.replay && key.1 != "" ==> (wsID, TrimSpace(req.key)) != key
    ensures Extends(a, b.disk.journal, key) && a.replay.Keys <= b.replay.Keys
  {
    var op := Begins(a, "route-apply", req.correlationID);
    var e := ApplyEntry(wsID, TrimSpace(req.key), intent, op, a.memory[i].route.routeVersion);
    if out.NotApplied? && b.disk.journal != a.disk.journal {
      var f :| Advances(e, f) && f.status != Committed && b.disk.journal == Put(a.disk.journal, f);
      PutExtends(a, f, key);
    } else if out.CommittedAs? {
      var result := Some(AppliedResult(planned.plan, op, true));
      var written :| b.disk.journal == Finished(a.disk.journal, e, result, written);
      PutExtends(a, FinishedEntry(e, result, written), key);
    }
  }

  lemma SyncExtends(rules: Rules, a: Sys, wsID: string, correlationID: string, repair: bool, out: SyncOutcome, b: Sys,
                    key: (string, string))
    requires Good(rules, a) && SyncStep(rules, a, wsID, correlationID, repair, out, b)
    ensures Extends(a, b.disk.journal, key) && b.replay == a.replay
  {
    if (out.SyncNotApplied? || out.Repaired?) && b.disk.journal != a.disk.journal {
      var e := RepairEntry(a, wsID, IndexOf(a.memory, wsID).value, correlationID);
      if out.Repaired? {
        PutExtends(a, FinishedEntry(e, None, !out.degraded), key);
      } else {
        var f :| Advances(e, f) && f.status != Committed && b.disk.journal == Put(a.disk.journal, f);
        PutExtends(a, f, key);
      }
    }
  }

  lemma CrashExtends(rules: Rules, a: Sys, wsID: string, req: Request, d: Disk, key: (string, string))
    requires Good(rules, a) && ApplyReaches(rules, a, wsID, req, d)
    ensures Extends(a, d.journal, key)
  {
    DecisionIsPlanned(rules, a.memory, a.replay, wsID, req);
    match Decide(rules, a.memory, a.replay, wsID, req) {
      case Proceed(i, planned, intent) =>
        if d != a.disk {
          var op := Begins(a, "route-apply", req.correlationID);
          ReachedExtends(a, PlannedCandidate(a.memory, i, planned, op),
                         ApplyEntry(wsID, TrimSpace(req.key), intent, op, a.memory[i].route.routeVersion),
                         Some(AppliedResult(planned.plan, op, true)), d, key);
        }
      case NoOp(i, planned, intent) =>
        if d != a.disk {
          var op := NoOpOperation(a, a.memory[i], req.correlationID);
          PutExtends(a, NoOpEntry(wsID, TrimSpace(req.key), intent, op, NoOpResult(a, a.memory[i], planned, op)), key);
        }
      case _ =>
    }
  }

  lemma CrashedSyncExtends(a: Sys, wsID: string, correlationID: string, d: Disk, key: (string, string))
    requires SyncReaches(a, wsID, correlationID, d)
    ensures Extends(a, d.journal, key)
  {
    if d != a.disk {
      var i := IndexOf(a.memory, wsID).value;
      ReachedExtends(a, RepairCandidate(a, i, correlationID), RepairEntry(a, wsID, i, correlationID), None, d, key);
    }
  }

  lemma InProcessKeeps(rules: Rules, a: Sys, b: Sys, key: (string, string))
    requires Good(rules, a) && Extends(a, b.disk.journal, key) && a.replay.Keys <= b.replay.Keys && Spent(a, key)
    ensures Spent(b, key)
  {
    var e :| e in a.disk.journal && HasKey(e, key);
    EntriesStay(rules, a, b.disk.journal, e, key);
  }

  predicate IsCrash(ev: Event) {
    ev.CrashedRequest? || ev.CrashedSync? || ev.CrashedChange?
  }

  lemma InProcessExtends(rules: Rules, a: Sys, ev: Event, b: Sys, key: (string, string))
    requires Good(rules, a) && Step(rules, a, ev, b) && !IsCrash(ev)
    ensures Extends(a, b.disk.journal, key) && a.replay.Keys <= b.replay.Keys
  {
    match ev {
      case Requested(wsID, req, out) => RequestExtends(rules, a, wsID, req, out, b, key);
      case Synced(wsID, correlationID, repair, out) => SyncExtends(rules, a, wsID, correlationID, repair, out, b, key);
      case Changed(required, change, persist, correlationID, out) =>
    }
  }

  lemma CrashingExtends(rules: Rules, a: Sys, ev: Event, b: Sys, key: (string, string))
    requires Good(rules, a) && Step(rules, a, ev, b) && IsCrash(ev)
    ensures Extends(a, ev.disk.journal, key) && b == Reloaded(rules, ev.disk, a.tokens + 1)
  {
    match ev {
      case CrashedRequest(wsID, req, disk) => CrashExtends(rules, a, wsID, req, disk, key);
      case CrashedSync(wsID, correlationID, disk) => CrashedSyncExtends(a, wsID, correlationID, disk, key);
      case CrashedChange(change, persist, correlationID, disk) =>
    }
  }

  lemma SpentStays(rules: Rules, a: Sys, ev: Event, b: Sys, key: (string, string))
    requires Good(rules, a) && Closed(a.disk.journal) && Step(rules, a, ev, b)
    requires Spent(a, key) && key.1 != ""
    ensures Spent(b, key)
  {
    if IsCrash(ev) {
      CrashingExtends(rules, a, ev, b, key);
      var e :| e in a.disk.journal && HasKey(e, key);
      LoadKeeps(rules, a, ev.disk, e, key);
    } else {
      InProcessExtends(rules, a, ev, b, key);
      InProcessKeeps(rules, a, b, key);
    }
  }

  // ---- The first effect spends the key ----

  lemma CommitSpends(rules: Rules, a: Sys, candidate: seq<Workspace>, e: JournalEntry, intent: Intent, result: Result,
                     reported: Result, b: Sys)
    requires CommitStep(rules, a, candidate, e, e.key, intent, result, reported, b)
    requires Closed(b.disk.journal) && e.key != ""
    ensures Spent(b, (e.workspaceID, e.key))
  {
    var written :| b.disk.journal == Finished(a.disk.journal, e, Some(result), written)
      && reported == Reported(result, written);
    var f := FinishedEntry(e, Some(result), written);
    PutHas(a.disk.journal, f, f);
    assert !Pending(f);
    assert HasKey(f, (e.workspaceID, e.key));
  }

  /** The load decides the entry for the candidate, and with it the key. */
  lemma LoadGivesKeyBack(memory: seq<Workspace>, journal: seq<JournalEntry>, f: JournalEntry, s: Reconciled)
    requires Closed(journal) && s == Reconciled(Put(journal, f), RestoredRecords(Put(journal, f)))
    requires MatchesCandidate(memory, f) && f.key != "" && (f.status == ProxyApplied || f.status == Committed)
    ensures var now := Reconcile(memory, Put(journal, f), s);
      (f.workspaceID, f.key) in now.replay && exists g | g in now.journal :: HasKey(g, (f.workspaceID, f.key))
  {
    PutHas(journal, f, f);
    LastEntryDecides(memory, journal, f, s);
    var g := Settled(memory, f);
    PutHas(s.journal, g, g);
    assert HasKey(g, (f.workspaceID, f.key));
    if f.status == Committed {
      CommittedIsRestored(s.journal, f);
    }
  }

  /** An interrupted commit gets its key back from the journal. */
  lemma CrashSpends(rules: Rules, a: Sys, candidate: seq<Workspace>, e: JournalEntry, result: Option<Result>, d: Disk)
    requires Starts(rules, a, candidate, e) && Targets(a, candidate, e) && Closed(a.disk.journal)
    requires ReachedAfter(a.disk, candidate, e, result, d) && e.key != ""
    ensures Spent(Reloaded(rules, d, a.tokens + 1), (e.workspaceID, e.key))
  {
    var written :| d == Disk(Published(candidate), Finished(a.disk.journal, e, result, written));
    var f := FinishedEntry(e, result, written);
    OnlyCandidateMatches(rules, a, candidate, e, f);
    LoadGivesKeyBack(Published(candidate), a.disk.journal, f, Reconciled(d.journal, RestoredRecords(d.journal)));
  }

  lemma TakingSpends(rules: Rules, a: Sys, ev: Event, b: Sys)
    requires Good(rules, a) && Closed(a.disk.journal) && Step(rules, a, ev, b) && Takes(a, ev) && Closed(b.disk.journal)
    requires TrimSpace(ev.req.key) != ""
    ensures Spent(b, (ev.wsID, TrimSpace(ev.req.key)))
  {
    var wsID, req := ev.wsID, ev.req;
    DecisionIsPlanned(rules, a.memory, a.replay, wsID, req);
    var dec := Decide(rules, a.memory, a.replay, wsID, req);
    var op := Begins(a, "route-apply", req.correlationID);
    var e := ApplyEntry(wsID, TrimSpace(req.key), dec.intent, op, a.memory[dec.i].route.routeVersion);
    var candidate := PlannedCandidate(a.memory, dec.i, dec.planned, op);
    if ev.Requested? {
      CommitSpends(rules, Begun(a), candidate, e, dec.intent, AppliedResult(dec.planned.plan, op, true), ev.out.result,
                   b);
    } else {
      PlannedStarts(rules, a, dec.i, dec.planned, op, e);
      PlanTargets(a, dec.i, dec.planned, op, e);
      CrashSpends(rules, a, candidate, e, Some(AppliedResult(dec.planned.plan, op, true)), ev.disk);
    }
  }

  // ---- The theorem ----

  lemma SpentNext(rules: Rules, run: Run, k: nat, key: (string, string))
    requires IsRun(rules, run) && Undisturbed(run) && k < |run.events|
    requires Spent(run.states[k], key) && key.1 != ""
    ensures Spent(run.states[k + 1], key)
  {
    EveryStateIsGood(rules, run, k);
    assert Closed(run.states[k].disk.journal) && StepAt(rules, run, k);
    SpentStays(rules, run.states[k], run.events[k], run.states[k + 1], key);
  }

  lemma {:induction false} SpentThroughout(rules: Rules, run: Run, i: nat, j: nat, key: (string, string))
    requires IsRun(rules, run) && Undisturbed(run) && i <= j < |run.states|
    requires Spent(run.states[i], key) && key.1 != ""
    ensures Spent(run.states[j], key)
    decreases j
  {
    if i < j {
      SpentThroughout(rules, run, i, j - 1, key);
      SpentNext(rules, run, j - 1, key);
    }
  }

  /** The request an event is about, if it is about one. */
  predicate IsAbout(ev: Event, key: (string, string)) {
    (ev.Requested? || ev.CrashedRequest?) && (ev.wsID, TrimSpace(ev.req.key)) == key
  }

  /** What a request gets whose key is on record. */
  function Answer(rules: Rules, a: Sys, wsID: string, req: Request): Outcome
    requires (wsID, TrimSpace(req.key)) in a.replay
  {
    var record := a.replay[(wsID, TrimSpace(req.key))];
    match Check(rules.mode, wsID, req)
    case Bad(why) => Refused(why)
    case Fine(intent) => if record.intent == Some(intent) then Outcome.Replay(Replayed(record)) else Refused(KeyReused)
  }

  /** With a spent key nothing changes: the same intent is answered from the record, any other
      is refused. */
  lemma SpentAnswers(rules: Rules, a: Sys, ev: Event, b: Sys, key: (string, string))
    requires Good(rules, a) && Step(rules, a, ev, b) && Spent(a, key) && key.1 != "" && IsAbout(ev, key)
    ensures ev.Requested? ==> b == a && ev.out == Answer(rules, a, ev.wsID, ev.req)
    ensures ev.CrashedRequest? ==> ev.disk == a.disk
  {
  }

  lemma ProceedKeepsRecords(rules: Rules, a: Sys, i: nat, planned: Planned, intent: Intent, wsID: string, req: Request,
                            out: Outcome, b: Sys, key: (string, string))
    requires ProceedStep(rules, a, i, planned, intent, wsID, req, out, b)
    requires key in a.replay && key != (wsID, TrimSpace(req.key))
    ensures key in b.replay && b.replay[key] == a.replay[key]
  {
  }

  lemma RequestKeepsRecords(rules: Rules, a: Sys, wsID: string, req: Request, out: Outcome, b: Sys,
                            key: (string, string))
    requires Good(rules, a) && ApplyStep(rules, a, wsID, req, out, b) && key in a.replay && key.1 != ""
    ensures key in b.replay && b.replay[key] == a.replay[key]
  {
    DecisionIsPlanned(rules, a.memory, a.replay, wsID, req);
    match Decide(rules, a.memory, a.replay, wsID, req) {
      case Proceed(i, planned, intent) => ProceedKeepsRecords(rules, a, i, planned, intent, wsID, req, out, b, key);
      case _ =>
    }
  }

  /** A record, once made, is not overwritten while the process lives. */
  lemma RecordsStay(rules: Rules, a: Sys, ev: Event, b: Sys, key: (string, string))
    requires Good(rules, a) && Step(rules, a, ev, b) && !IsCrash(ev) && key in a.replay && key.1 != ""
    ensures key in b.replay && b.replay[key] == a.replay[key]
  {
    match ev {
      case Requested(wsID, req, out) => RequestKeepsRecords(rules, a, wsID, req, out, b, key);
      case Synced(wsID, correlationID, repair, out) => SyncExtends(rules, a, wsID, correlationID, repair, out, b, key);
      case Changed(required, change, persist, correlationID, out) =>
    }
  }

  lemma RecordStaysNext(rules: Rules, run: Run, k: nat, key: (string, string))
    requires IsRun(rules, run) && k < |run.events| && !IsCrash(run.events[k])
    requires key in run.states[k].replay && key.1 != ""
    ensures key in run.states[k + 1].replay && run.states[k + 1].replay[key] == run.states[k].replay[key]
  {
    EveryStateIsGood(rules, run, k);
    assert StepAt(rules, run, k);
    RecordsStay(rules, run.states[k], run.events[k], run.states[k + 1], key);
  }

  lemma {:induction false} RecordsStayThroughout(rules: Rules, run: Run, i: nat, j: nat, key: (string, string))
    requires IsRun(rules, run) && i <= j < |run.states|
    requires forall k | i <= k < j :: !IsCrash(run.events[k])
    requires key in run.states[i].replay && key.1 != ""
    ensures key in run.states[j].replay && run.states[j].replay[key] == run.states[i].replay[key]
    decreases j
  {
    if i < j {
      RecordsStayThroughout(rules, run, i, j - 1, key);
      RecordStaysNext(rules, run, j - 1, key);
    }
  }

  lemma CommitIsRecorded(rules: Rules, a: Sys, wsID: string, req: Request, result: Result, b: Sys)
    requires Good(rules, a) && ApplyStep(rules, a, wsID, req, CommittedAs(result), b) && TrimSpace(req.key) != ""
    ensures Check(rules.mode, wsID, req).Fine?
    ensures (wsID, TrimSpace(req.key)) in b.replay
    ensures b.replay[(wsID, TrimSpace(req.key))] == Record(Some(Check(rules.mode, wsID, req).intent), result)
  {
    DecisionIsPlanned(rules, a.memory, a.replay, wsID, req);
  }

  /** A request whose key is on record. */
  lemma RecordAnswers(rules: Rules, a: Sys, ev: Event, b: Sys, key: (string, string), record: Record)
    requires Step(rules, a, ev, b) && ev.Requested? && IsAbout(ev, key) && key.1 != ""
    requires key in a.replay && a.replay[key] == record && Check(rules.mode, key.0, ev.req).Fine?
    ensures b == a
    ensures ev.out ==
      if record.intent == Some(Check(rules.mode, key.0, ev.req).intent) then Outcome.Replay(Replayed(record))
      else Refused(KeyReused)
  {
  }

  lemma CommitStaysOnRecord(rules: Rules, run: Run, i: nat, j: nat, key: (string, string))
    requires IsRun(rules, run) && i < j < |run.states| && key.1 != ""
    requires forall k | i <= k < j :: !IsCrash(run.events[k])
    requires run.events[i].Requested? && run.events[i].out.CommittedAs? && IsAbout(run.events[i], key)
    ensures Check(rules.mode, key.0, run.events[i].req).Fine? && key in run.states[j].replay
    ensures run.states[j].replay[key]
      == Record(Some(Check(rules.mode, key.0, run.events[i].req).intent), run.events[i].out.result)
  {
    EveryStateIsGood(rules, run, i);
    assert StepAt(rules, run, i);
    CommitIsRecorded(rules, run.states[i], run.events[i].wsID, run.events[i].req, run.events[i].out.result,
                     run.states[i + 1]);
    RecordsStayThroughout(rules, run, i + 1, j, key);
  }

  /** While the process lives a later request with the key of a committed one gets that result
      if its intent is the same, and is refused otherwise; neither changes anything. */
  lemma LaterRequestsReplay(rules: Rules, run: Run, i: nat, j: nat, key: (string, string))
    requires IsRun(rules, run) && i < j < |run.events| && key.1 != ""
    requires forall k | i <= k <= j :: !IsCrash(run.events[k])
    requires run.events[i].Requested? && run.events[i].out.CommittedAs? && IsAbout(run.events[i], key)
    requires run.events[j].Requested? && IsAbout(run.events[j], key)
    requires Check(rules.mode, key.0, run.events[j].req).Fine?
    ensures run.states[j + 1] == run.states[j] && Check(rules.mode, key.0, run.events[i].req).Fine?
    ensures var first, later := Check(rules.mode, key.0, run.events[i].req).intent,
      Check(rules.mode, key.0, run.events[j].req).intent;
      run.events[j].out ==
        if first == later then Outcome.Replay(run.events[i].out.result.(changed := false, status := IdempotentReplay))
        else Refused(KeyReused)
  {
    CommitStaysOnRecord(rules, run, i, j, key);
    assert StepAt(rules, run, j);
    RecordAnswers(rules, run.states[j], run.events[j], run.states[j + 1], key, run.states[j].replay[key]);
  }

  /** After the first effect of a key, no request with that key has another one. */
  lemma AtMostOneEffect(rules: Rules, run: Run, i: nat, j: nat, key: (string, string))
    requires IsRun(rules, run) && Undisturbed(run) && i < j < |run.events|
    requires IsAbout(run.events[i], key) && IsAbout(run.events[j], key) && key.1 != ""
    requires Takes(run.states[i], run.events[i])
    ensures !Takes(run.states[j], run.events[j])
    ensures run.events[j].Requested? ==> run.states[j + 1] == run.states[j]
    ensures run.events[j].CrashedRequest? ==> run.events[j].disk == run.states[j].disk
  {
    EveryStateIsGood(rules, run, i);
    EveryStateIsGood(rules, run, j);
    assert Closed(run.states[i].disk.journal) && Closed(run.states[i + 1].disk.journal);
    assert StepAt(rules, run, i);
    TakingSpends(rules, run.states[i], run.events[i], run.states[i + 1]);
    SpentThroughout(rules, run, i + 1, j, key);
    assert StepAt(rules, run, j);
    SpentAnswers(rules, run.states[j], run.events[j], run.states[j + 1], key);
  }

  /** The event leaves other rows, or a proxy that is neither as it was nor has what memory says. */
  ghost predicate Disturbs(a: Sys, b: Sys) {
    b.disk.durable != a.disk.durable || (b.proxy != a.proxy && b.proxy != Serving(b.memory))
  }

  /** The caller was told that the proxy could not be put back. */
  predicate ReportedDegraded(ev: Event) {
    ev.Requested? && ev.out.NotApplied? && ev.out.end.Aborted? && ev.out.end.degraded
  }

  lemma CrashingDisturbsRows(rules: Rules, a: Sys, ev: Event, b: Sys)
    requires Step(rules, a, ev, b) && ev.CrashedRequest?
    ensures Disturbs(a, b) <==> ev.disk.durable != a.disk.durable
  {
  }

  /** A request that disturbs rows or proxy took effect, or its caller was told. */
  lemma DisturbingIsTakingOrTold(rules: Rules, a: Sys, ev: Event, b: Sys)
    requires Good(rules, a) && Step(rules, a, ev, b) && (ev.Requested? || ev.CrashedRequest?) && Disturbs(a, b)
    ensures Takes(a, ev) || ReportedDegraded(ev)
  {
    if ev.CrashedRequest? {
      CrashingDisturbsRows(rules, a, ev, b);
    } else {
      AllOrNothing(rules, a, ev.wsID, ev.req, ev.out, b);
    }
  }

  /** Of two requests with one key both disturb rows or proxy only if the caller of the first was
      told that it left the proxy degraded; and then the first left the rows alone. */
  lemma TwoEffectsMeanDegraded(rules: Rules, run: Run, i: nat, j: nat, key: (string, string))
    requires IsRun(rules, run) && Undisturbed(run) && i < j < |run.events|
    requires IsAbout(run.events[i], key) && IsAbout(run.events[j], key) && key.1 != ""
    requires Disturbs(run.states[i], run.states[i + 1]) && Disturbs(run.states[j], run.states[j + 1])
    ensures ReportedDegraded(run.events[i]) && run.states[i + 1].disk.durable == run.states[i].disk.durable
  {
    EveryStateIsGood(rules, run, i);
    assert StepAt(rules, run, i) && StepAt(rules, run, j);
    if Takes(run.states[i], run.events[i]) {
      AtMostOneEffect(rules, run, i, j, key);
      if run.events[j].CrashedRequest? {
        CrashingDisturbsRows(rules, run.states[j], run.events[j], run.states[j + 1]);
      }
      assert false;
    }
    DisturbingIsTakingOrTold(rules, run.states[i], run.events[i], run.states[i + 1]);
    AllOrNothing(rules, run.states[i], run.events[i].wsID, run.events[i].req, run.events[i].out, run.states[i + 1]);
  }

  // ---- What a restart answers ----

  /** The record of the last entry. */
  lemma LastRecord(journal: seq<JournalEntry>, f: JournalEntry)
    requires f.status == Committed && f.key != ""
    ensures var records := RestoredRecords(Put(journal, f));
      (f.workspaceID, f.key) in records && records[(f.workspaceID, f.key)] == Record(IntentIn(f), ResultOf(f))
  {
    var rest := Without(journal, f.operationID);
    assert (rest + [f])[..|rest|] == rest;
  }

  /** After a restart right behind it a committed request is answered with its result exactly
      when it named its application and environment the way the plan does; otherwise its own key
      is held against it. */
  lemma RestartReplaysIffCanonical(rules: Rules, a: Sys, wsID: string, req: Request, out: Outcome, b: Sys, tokens: nat)
    requires Good(rules, a) && ApplyStep(rules, a, wsID, req, out, b) && out.CommittedAs?
    requires Closed(b.disk.journal) && TrimSpace(req.key) != ""
    requires Lawful(rules) && out.result.plan.Some?
    requires out.result.plan.value.applicationID != "" && out.result.plan.value.desiredMode != ""
    ensures Check(rules.mode, wsID, req).Fine?
    ensures var c, intent := Reloaded(rules, b.disk, tokens), Check(rules.mode, wsID, req).intent;
      Decide(rules, c.memory, c.replay, wsID, req) ==
        if IntentOf(out.result.plan.value) == intent then
          Again(out.result.(changed := false, status := IdempotentReplay))
        else Refuse(KeyReused)
  {
    DecisionIsPlanned(rules, a.memory, a.replay, wsID, req);
    var d := Decide(rules, a.memory, a.replay, wsID, req);
    var op := Begins(a, "route-apply", req.correlationID);
    var e := ApplyEntry(wsID, TrimSpace(req.key), d.intent, op, a.memory[d.i].route.routeVersion);
    var result := AppliedResult(d.planned.plan, op, true);
    var written :| b.disk.journal == Finished(a.disk.journal, e, Some(result), written)
      && out.result == Reported(result, written);
    var f := FinishedEntry(e, Some(result), written);
    PutHas(a.disk.journal, f, f);
    assert !Pending(f);
    LastRecord(a.disk.journal, f);
    ClosedNeedsNothing(b.disk.durable, b.disk.journal, Reconciled(b.disk.journal, RestoredRecords(b.disk.journal)));
  }
}
