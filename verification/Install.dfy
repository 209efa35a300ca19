/** Installing a rendered configuration: the file, what the workers serve, and the text last
    known to be served. */
module Install {
  import opened Text

  /** The file nginx includes, what its workers have loaded of it, and lastRendered. */
  datatype State = State(file: Option<string>, running: Option<string>, last: string)

  /** A reload is asynchronous: the workers end up with the file or stay as they were, whatever
      the command says. */
  predicate Reloads(a: State, b: State) {
    b == a.(running := b.running) && (b.running == a.running || b.running == a.file)
  }

  /** Putting the previous file back is best effort. */
  predicate Restores(a: State, previous: Option<string>, ok: bool, b: State) {
    b == a.(file := b.file) && (ok ==> b.file == previous)
  }

  datatype Installed =
    | Served
    | Untouched
    | Failed(restored: bool)

  /** What an installation can leave. */
  predicate Outcome(a: State, rendered: string, verify: bool, r: Installed, b: State) {
    match r
    case Untouched => b == a
    case Served =>
      && b.file == Some(rendered) && b.last == rendered
      && (b.running == Some(rendered) || (!verify && b.running == a.running))
    case Failed(restored) =>
      && b.last == a.last && (restored ==> b.file == a.file)
      && b.running in {a.running, Some(rendered), b.file}
  }

  class Installer {
    var file: Option<string>
    var running: Option<string>
    var last: string

    constructor ()
      ensures Now() == State(None, None, "")
    {
      file, running, last := None, None, "";
    }

    function Now(): State
      reads this
    {
      State(file, running, last)
    }

    /** Anything that can fail without changing the file or the workers: creating the directory,
        writing the temporary file, reading the old one, testing the configuration. */
    method Attempt() returns (ok: bool) {
      ok := *;
    }

    method Reload() returns (ok: bool)
      modifies this`running
      ensures Reloads(old(Now()), Now())
    {
      ok := *;
      var loads: bool := *;
      if loads {
        running := file;
      }
    }

    /** A signal to the master when it is known, the command otherwise. */
    method ReloadOnce(fast: bool) returns (ok: bool)
      modifies this`running
      ensures Reloads(old(Now()), Now())
    {
      if fast {
        ok := Reload();
        if ok {
          return;
        }
      }
      ok := Reload();
    }

    /** Asks the workers for the digest of what they serve. */
    method VerifyServing(rendered: string) returns (ok: bool)
      ensures ok ==> running == Some(rendered)
    {
      var answered: bool := *;
      ok := answered && running == Some(rendered);
    }

    method Restore(previous: Option<string>) returns (ok: bool)
      modifies this`file
      ensures Restores(old(Now()), previous, ok, Now())
    {
      ok := *;
      if ok {
        file := previous;
      } else {
        file := *;
      }
    }

    /** install */
    method Install(rendered: string, verify: bool) returns (r: Installed)
      modifies this
      ensures Outcome(old(Now()), rendered, verify, r, Now())
    {
      var ok := Attempt();
      if !ok {
        return Untouched;
      }
      var previous := file;
      file := Some(rendered);
      var known := Attempt();
      var fast := verify && (if previous.Some? then previous.value else "") == last && known;
      if !fast {
        ok := Attempt();
        if !ok {
          var restored := Restore(previous);
          return Failed(restored);
        }
      }
      ok := ReloadOnce(fast);
      if !ok {
        var restored := Restore(previous);
        var again := ReloadOnce(fast);
        return Failed(restored);
      }
      if verify {
        ok := VerifyServing(rendered);
        if !ok {
          var restored := Restore(previous);
          var again := ReloadOnce(fast);
          return Failed(restored);
        }
      }
      last := rendered;
      r := Served;
    }

    /** InspectRouting compares the file, and asks nginx whether it includes it. */
    method Inspect(rendered: string) returns (inSync: Option<bool>)
      ensures inSync.Some? ==> (inSync.value <==> file == Some(rendered))
    {
      if file != Some(rendered) {
        return Some(false);
      }
      var ok := Attempt();
      inSync := if ok then Some(true) else None;
    }
  }

  /** Nothing is allowed that the steps of a failed installation do not lead to: the new text is
      in place, a reload, the old file put back, another reload. */
  lemma FailuresHappen(a: State, rendered: string, verify: bool, restored: bool, b: State)
    returns (loaded: State, back: State)
    requires Outcome(a, rendered, verify, Failed(restored), b)
    ensures Reloads(a.(file := Some(rendered)), loaded) && Restores(loaded, a.file, restored, back) && Reloads(back, b)
  {
    loaded := a.(file := Some(rendered), running := if b.running == Some(rendered) then Some(rendered) else a.running);
    back := loaded.(file := b.file);
  }

  // ---- What an inspection tells ----

  datatype Installation = Installation(rendered: string, verify: bool, result: Installed)

  /** An execution of these installations can end here. */
  ghost predicate Reaches(start: State, h: seq<Installation>, s: State) {
    if h == [] then s == start
    else
      var last := h[|h| - 1];
      exists m :: Reaches(start, h[..|h| - 1], m) && Outcome(m, last.rendered, last.verify, last.result, s)
  }

  /** In every execution an inspection that answers true, which compares the file, tells what the
      workers serve. */
  ghost predicate InspectionTells(start: State, h: seq<Installation>) {
    forall s | Reaches(start, h, s) && s.file.Some? :: s.running == s.file
  }

  /** What the results of the installations so far leave no doubt about: file and workers have
      this text, or there is no file. */
  datatype Knowledge =
    | Known(text: Option<string>)
    | Absent
    | Doubtful

  function Learned(k: Knowledge, next: Installation): Knowledge {
    match next.result
    case Untouched => k
    case Served => if next.verify || k == Known(Some(next.rendered)) then Known(Some(next.rendered)) else Doubtful
    case Failed(restored) =>
      if !restored then Doubtful
      else if k == Known(None) || k == Absent then Absent
      else if k == Known(Some(next.rendered)) then k
      else Doubtful
  }

  function KnowledgeOf(file: Option<string>, h: seq<Installation>): Knowledge {
    if h == [] then Known(file) else Learned(KnowledgeOf(file, h[..|h| - 1]), h[|h| - 1])
  }

  predicate Agrees(k: Knowledge, s: State) {
    match k
    case Known(text) => s.file == text && s.running == text
    case Absent => s.file == None
    case Doubtful => true
  }

  lemma {:induction false} KnowledgeHolds(start: State, h: seq<Installation>, s: State)
    requires start.file == start.running && Reaches(start, h, s)
    ensures Agrees(KnowledgeOf(start.file, h), s)
  {
    if h != [] {
      var last := h[|h| - 1];
      var m :| Reaches(start, h[..|h| - 1], m) && Outcome(m, last.rendered, last.verify, last.result, s);
      KnowledgeHolds(start, h[..|h| - 1], m);
    }
  }

  lemma ReachesOn(start: State, h: seq<Installation>, m: State, s: State)
    requires h != [] && Reaches(start, h[..|h| - 1], m)
    requires Outcome(m, h[|h| - 1].rendered, h[|h| - 1].verify, h[|h| - 1].result, s)
    ensures Reaches(start, h, s)
  {
  }

  /** Two outcomes from two states with different workers, when doubt remains or begins. */
  lemma DoubtStays(k: Knowledge, next: Installation, x: State, y: State) returns (a: State, b: State)
    requires !k.Known? && x.running != y.running && Agrees(k, x) && Agrees(k, y)
    requires k.Doubtful? ==> x.file.Some? && x.running != x.file
    requires !Learned(k, next).Known?
    ensures a.running != b.running && (Learned(k, next).Doubtful? ==> a.file.Some? && a.running != a.file)
    ensures (Outcome(x, next.rendered, next.verify, next.result, a)
             && Outcome(y, next.rendered, next.verify, next.result, b))
         || (Outcome(y, next.rendered, next.verify, next.result, a)
             && Outcome(x, next.rendered, next.verify, next.result, b))
  {
    match next.result {
      case Untouched => a, b := x, y;
      case Served =>
        var text := Some(next.rendered);
        a, b := x.(file := text, last := next.rendered), y.(file := text, last := next.rendered);
        if a.running == text {
          a, b := b, a;
        }
      case Failed(restored) =>
        a, b := x, y;
        if k.Absent? && !restored {
          a := x.(file := Some(if x.running == Some("") then "-" else ""));
        }
    }
  }

  lemma DoubtBegins(text: Option<string>, next: Installation, x: State) returns (a: State, b: State)
    requires x.file == x.running == text && !Learned(Known(text), next).Known?
    ensures a.running != b.running && (Learned(Known(text), next).Doubtful? ==> a.file.Some? && a.running != a.file)
    ensures Outcome(x, next.rendered, next.verify, next.result, a)
      && Outcome(x, next.rendered, next.verify, next.result, b)
  {
    if next.result.Served? {
      a := x.(file := Some(next.rendered), last := next.rendered);
      b := a.(running := Some(next.rendered));
    } else if next.result.restored {
      a, b := x.(running := Some(next.rendered)), x;
    } else {
      var other := Some(if text == Some("") then "-" else "");
      a, b := x.(file := other), x.(file := other, running := other);
    }
  }

  /** Where there is doubt, executions differ in what the workers serve. */
  lemma {:induction false} DoubtIsReal(start: State, h: seq<Installation>) returns (a: State, b: State)
    requires start.file == start.running && !KnowledgeOf(start.file, h).Known?
    ensures Reaches(start, h, a) && Reaches(start, h, b) && a.running != b.running
    ensures KnowledgeOf(start.file, h).Doubtful? ==> a.file.Some? && a.running != a.file
  {
    var init, last := h[..|h| - 1], h[|h| - 1];
    var k := KnowledgeOf(start.file, init);
    if k.Known? {
      var x := KnownIsReached(start, init);
      a, b := DoubtBegins(k.text, last, x);
      ReachesOn(start, h, x, a);
      ReachesOn(start, h, x, b);
    } else {
      var x, y := DoubtIsReal(start, init);
      KnowledgeHolds(start, init, x);
      KnowledgeHolds(start, init, y);
      a, b := DoubtStays(k, last, x, y);
      var swapped := !Outcome(x, last.rendered, last.verify, last.result, a)
        || !Outcome(y, last.rendered, last.verify, last.result, b);
      ReachesOn(start, h, if swapped then y else x, a);
      ReachesOn(start, h, if swapped then x else y, b);
    }
  }

  lemma {:induction false} SomeEndIsReached(start: State, h: seq<Installation>) returns (s: State)
    ensures Reaches(start, h, s)
  {
    if h == [] {
      s := start;
    } else {
      var last := h[|h| - 1];
      var m := SomeEndIsReached(start, h[..|h| - 1]);
      s := if last.result.Served? then State(Some(last.rendered), Some(last.rendered), last.rendered) else m;
      ReachesOn(start, h, m, s);
    }
  }

  lemma KnownIsReached(start: State, h: seq<Installation>) returns (s: State)
    requires start.file == start.running && KnowledgeOf(start.file, h).Known?
    ensures Reaches(start, h, s) && s.file == s.running == KnowledgeOf(start.file, h).text
  {
    s := SomeEndIsReached(start, h);
    KnowledgeHolds(start, h, s);
  }

  /** From file and workers that agree: after these installations an inspection that answers true
      tells what the workers serve, in every execution, exactly when their results leave no
      doubt. */
  lemma InspectionTellsIff(start: State, h: seq<Installation>)
    requires start.file == start.running
    ensures InspectionTells(start, h) <==> !KnowledgeOf(start.file, h).Doubtful?
  {
    if KnowledgeOf(start.file, h).Doubtful? {
      var a, b := DoubtIsReal(start, h);
    } else {
      forall s | Reaches(start, h, s) && s.file.Some?
        ensures s.running == s.file
      {
        KnowledgeHolds(start, h, s);
      }
    }
  }

  lemma {:induction false} UntouchedTeachesNothing(file: Option<string>, h: seq<Installation>, i: nat)
    requires i <= |h| && forall k | i <= k < |h| :: h[k].result.Untouched?
    ensures KnowledgeOf(file, h) == KnowledgeOf(file, h[..i])
    decreases |h|
  {
    if i < |h| {
      assert h[..|h| - 1][..i] == h[..i];
      UntouchedTeachesNothing(file, h[..|h| - 1], i);
    } else {
      assert h[..i] == h;
    }
  }

  /** Where there is a file and the last installation to touch it brought another text, that one
      decides: it was served, and verified. */
  lemma LastTouchDecides(start: State, h: seq<Installation>, i: nat)
    requires start.file == start.running && i < |h|
    requires !h[i].result.Untouched? && forall k | i < k < |h| :: h[k].result.Untouched?
    requires var k := KnowledgeOf(start.file, h[..i]);
      k.Doubtful? || (k.Known? && k.text.Some? && k.text.value != h[i].rendered)
    ensures InspectionTells(start, h) <==> h[i].result.Served? && h[i].verify
  {
    InspectionTellsIff(start, h);
    UntouchedTeachesNothing(start.file, h, i + 1);
    assert h[..i + 1][..i] == h[..i];
  }

  /** One failed installation is enough: from any file and workers that agree on a text, and for
      any other text, the old file can be back while the workers serve the new text. Inspection
      then finds the old text. */
  lemma InspectionCanMislead(a: State, rendered: string, verify: bool) returns (b: State)
    requires a.file.Some? && a.file == a.running && a.file != Some(rendered)
    ensures Outcome(a, rendered, verify, Failed(true), b)
    ensures b.file == a.file && b.running == Some(rendered)
    ensures !InspectionTells(a, [Installation(rendered, verify, Failed(true))])
  {
    b := a.(running := Some(rendered));
    var h := [Installation(rendered, verify, Failed(true))];
    assert h[..0] == [] && Reaches(a, h[..0], a);
    ReachesOn(a, h, a, b);
  }
}
