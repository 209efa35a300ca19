/** The steps ApplyRoutePlan and SyncRoute share: journal, proxy, durable state, memory, with a
    compensation for every failure. */
module Transaction {
  import opened Text
  import opened Model
  import opened Protocol

  datatype Stage = AtJournal | AtProxy | AtProxyEntry | AtPersist

  datatype Ended = Done | Aborted(stage: Stage, rollback: Rollback, degraded: bool)

  // ---- What is on disk while a transaction runs ----

  /** The same journal entry, further along. */
  predicate Advances(e: JournalEntry, f: JournalEntry) {
    f == e.(status := f.status, degraded := f.degraded, rollback := f.rollback, result := f.result)
  }

  ghost predicate ReachedBefore(start: Disk, e: JournalEntry, d: Disk) {
    exists f :: Advances(e, f) && f.status != Committed && d == Disk(start.durable, Put(start.journal, f))
  }

  function FinishedEntry(e: JournalEntry, result: Option<Result>, written: bool): JournalEntry {
    if written then e.(status := Committed, result := result) else e.(status := ProxyApplied)
  }

  /** The journal has the result, or still has the entry as it was. */
  function Finished(journal: seq<JournalEntry>, e: JournalEntry, result: Option<Result>,
                    written: bool): seq<JournalEntry>
  {
    Put(journal, FinishedEntry(e, result, written))
  }

  ghost predicate ReachedAfter(start: Disk, candidate: seq<Workspace>, e: JournalEntry, result: Option<Result>, d: Disk)
  {
    exists written :: d == Disk(Published(candidate), Finished(start.journal, e, result, written))
  }

  /** A crash can leave the old rows with an entry that is not committed, or the published
      candidate with an entry that is past the proxy or committed with its result. */
  ghost predicate Reached(start: Disk, candidate: seq<Workspace>, e: JournalEntry, result: Option<Result>, d: Disk) {
    d == start || ReachedBefore(start, e, d) || ReachedAfter(start, candidate, e, result, d)
  }

  ghost predicate Walked(before: seq<Disk>, now: seq<Disk>, start: Disk, candidate: seq<Workspace>, e: JournalEntry,
                         result: Option<Result>)
  {
    before <= now && forall d | d in now[|before|..] :: Reached(start, candidate, e, result, d)
  }

  lemma WalkOn(before: seq<Disk>, now: seq<Disk>, start: Disk, candidate: seq<Workspace>, e: JournalEntry,
               result: Option<Result>, d: Disk)
    requires Walked(before, now, start, candidate, e, result) && Reached(start, candidate, e, result, d)
    ensures Walked(before, now + [d], start, candidate, e, result)
  {
    assert (now + [d])[|before|..] == now[|before|..] + [d];
  }

  lemma StepBefore(before: seq<Disk>, now: seq<Disk>, start: Disk, candidate: seq<Workspace>, e: JournalEntry,
                   result: Option<Result>, f: JournalEntry)
    requires Walked(before, now, start, candidate, e, result) && Advances(e, f) && f.status != Committed
    ensures Walked(before, now + [Disk(start.durable, Put(start.journal, f))], start, candidate, e, result)
  {
    var d := Disk(start.durable, Put(start.journal, f));
    assert ReachedBefore(start, e, d);
    WalkOn(before, now, start, candidate, e, result, d);
  }

  lemma StepAfter(before: seq<Disk>, now: seq<Disk>, start: Disk, candidate: seq<Workspace>, e: JournalEntry,
                  result: Option<Result>, written: bool)
    requires Walked(before, now, start, candidate, e, result)
    ensures Walked(before, now + [Disk(Published(candidate), Finished(start.journal, e, result, written))], start,
                   candidate, e, result)
  {
    var d := Disk(Published(candidate), Finished(start.journal, e, result, written));
    assert ReachedAfter(start, candidate, e, result, d);
    WalkOn(before, now, start, candidate, e, result, d);
  }

  // ---- What a transaction leaves behind ----

  ghost predicate Started(a: Sys, e: JournalEntry) {
    a.memory == a.disk.durable && e.status == Prepared && a.next == e.routeVersion > 0
  }

  /** A candidate that a state save can write, and the entry that announces it. */
  ghost predicate Ready(a: Sys, candidate: seq<Workspace>, e: JournalEntry) {
    && Started(a, e)
    && UniqueIDs(a.memory) && SameDefinitions(a.memory, candidate) && UniqueIDs(candidate)
  }

  /** The proxy and the cache are ahead of the rows and of memory. */
  ghost predicate Loaded(rules: Rules, a: Sys, candidate: seq<Workspace>, e: JournalEntry, status: Status, b: Sys) {
    b == a.(cache := Recorded(rules.routes, a.cache, candidate),
            disk := a.disk.(journal := Put(a.disk.journal, e.(status := status))),
            proxy := Serving(candidate))
  }

  /** The proxy has the candidate, memory and the rows have it published. */
  ghost predicate Completed(rules: Rules, a: Sys, candidate: seq<Workspace>, e: JournalEntry, b: Sys) {
    b == a.(memory := Published(candidate),
            cache := Recorded(rules.routes, a.cache, candidate),
            disk := Disk(Published(candidate), Put(a.disk.journal, e.(status := ProxyApplied))),
            proxy := Serving(candidate))
  }

  /** Nothing but the cache, the journal and the proxy has moved, and the proxy only as far as
      the compensation says. */
  ghost predicate Undone(rules: Rules, a: Sys, candidate: seq<Workspace>, rollback: Rollback, b: Sys) {
    && b == a.(next := b.next, cache := b.cache, disk := a.disk.(journal := b.disk.journal), proxy := b.proxy)
    && (rollback == NotRequired ==> b.proxy == a.proxy)
    && (rollback == Restored ==> b.proxy == Serving(a.memory))
    && rollback != NotNeeded
    && CacheLeft(rules, a, candidate, b.cache)
  }

  /** Memory and durable state are as before; so is the proxy unless degraded is reported. */
  ghost predicate Abandoned(rules: Rules, a: Sys, candidate: seq<Workspace>, e: JournalEntry, end: Ended, b: Sys) {
    && end.Aborted?
    && Undone(rules, a, candidate, end.rollback, b)
    && b.next == e.routeVersion - 1
    && (end.degraded <==> end.rollback == RestoreFailed)
    && JournalLeft(a.disk.journal, e, end, b.disk.journal)
  }

  ghost predicate CacheLeft(rules: Rules, a: Sys, candidate: seq<Workspace>, cache: Cache) {
    || cache == a.cache
    || cache == Recorded(rules.routes, a.cache, a.memory)
    || cache == Recorded(rules.routes, a.cache, candidate)
    || cache == Recorded(rules.routes, Recorded(rules.routes, a.cache, candidate), a.memory)
  }

  /** The entry is closed, unless the update that would have closed it was lost. */
  ghost predicate JournalLeft(journal: seq<JournalEntry>, e: JournalEntry, end: Ended, now: seq<JournalEntry>) {
    if end.Aborted? && end.stage == AtJournal then now == journal
    else exists f :: Advances(e, f) && f.status != Committed && now == Put(journal, f)
  }

  function FailedEntry(e: JournalEntry, rollback: Rollback): JournalEntry {
    e.(status := Failed, degraded := rollback == RestoreFailed, rollback := rollback)
  }

  function RolledBackEntry(e: JournalEntry, rollback: Rollback): JournalEntry {
    e.(status := RolledBack, degraded := rollback == RestoreFailed, rollback := rollback)
  }

  ghost predicate WrittenAs(journal: seq<JournalEntry>, e: JournalEntry, g: JournalEntry, now: seq<JournalEntry>) {
    Advances(e, g) && g.status != Committed && now == Put(journal, g)
  }

  lemma SavingAgainChangesNothing(wss: seq<Workspace>)
    requires UniqueIDs(wss)
    ensures Saved(wss, wss) == wss
  {
    SaveWritesCandidate(wss, wss);
  }
}
