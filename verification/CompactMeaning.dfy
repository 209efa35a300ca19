/** Compaction preserves what every request gets: the same rendered behaviour and the
    same proof id. The one exception is PCRE's `$`, and it is characterised exactly. */
module CompactMeaning {
  import opened Text
  import opened Nginx
  import opened Compact
  import opened StableSort
  import Regex

  /** What the renderer hands to compactLocations: see ConfigBuilder.ServersAreRenderable. */
  predicate Renderable(locations: seq<Location>) {
    && Unique(locations)
    && forall l | l in locations ::
      && (l.modifier == "=" || l.modifier == "")
      && l.proofSelector == "" && Plain(l.pattern)
  }

  predicate Plain(pattern: string) {
    pattern != "" && pattern[0] == '/' && '\n' !in pattern
  }

  /** The alternative made from l matches uri. */
  predicate Hits(l: Location, uri: string) {
    if l.modifier == "=" then uri == l.pattern || uri == l.pattern + "\n" else l.pattern <= uri
  }

  lemma AlternativeHits(l: Location, uri: string)
    ensures Regex.MatchesHere(AlternativeFor(l), uri) <==> Hits(l, uri)
  {
    Regex.QuotedExact(l.pattern, uri);
    Regex.QuotedPrefix(l.pattern, uri);
    assert Regex.QuoteMeta(l.pattern) + "" == Regex.QuoteMeta(l.pattern);
  }

  lemma EntryHits(l: Location, uri: string)
    requires Plain(l.pattern)
    ensures Regex.Matches("^" + AlternativeFor(l), uri) <==> Hits(l, uri)
  {
    var re := "^" + AlternativeFor(l);
    assert AlternativeFor(l)[0] == '/';
    assert re[1] == '/' && re[1..] == AlternativeFor(l);
    assert |re| >= 4 ==> re[..4][1] == '/' && "^(?:"[1] == '(';
    AlternativeHits(l, uri);
  }

  lemma MergedHits(safe: seq<Location>, uri: string)
    requires |safe| > 0
    ensures Regex.Matches(MergedPattern(safe), uri) <==> exists i | 0 <= i < |safe| :: Hits(safe[i], uri)
  {
    var re, alternatives := MergedPattern(safe), AlternativesFor(safe);
    var body := Join(alternatives, '|');
    assert re == "^(?:" + body + ")";
    assert re[..4] == "^(?:" && re[|re| - 1] == ')' && re[4..|re| - 1] == body;
    var literals := seq(|safe|, i requires 0 <= i < |safe| => safe[i].pattern);
    forall i | 0 <= i < |safe|
      ensures Regex.IsQuoted(alternatives[i], literals[i])
    {
      assert Regex.QuoteMeta(literals[i]) + "" == Regex.QuoteMeta(literals[i]);
    }
    Regex.AlternativesOfJoin(alternatives, literals);
    forall i | 0 <= i < |safe|
      ensures Regex.MatchesHere(alternatives[i], uri) <==> Hits(safe[i], uri)
    {
      AlternativeHits(safe[i], uri);
    }
  }

  // ---- Overlap arguments ----

  /** Two locations that answer one request overlap. */
  lemma HitsOverlap(a: Location, b: Location, uri: string)
    requires Plain(a.pattern) && Plain(b.pattern)
    requires Hits(a, uri) && Hits(b, uri)
    ensures Overlap(a, b)
  {
    NewlineIsNotInPattern(a, uri);
    NewlineIsNotInPattern(b, uri);
    if a.modifier != "=" && b.modifier != "=" {
      if |a.pattern| <= |b.pattern| {
        PrefixesCompare(a.pattern, b.pattern, uri);
      } else {
        PrefixesCompare(b.pattern, a.pattern, uri);
      }
    }
  }

  /** uri without one final newline. */
  function Chomp(uri: string): string {
    if uri != "" && uri[|uri| - 1] == '\n' then uri[..|uri| - 1] else uri
  }

  lemma NewlineIsNotInPattern(l: Location, uri: string)
    requires Plain(l.pattern) && Hits(l, uri)
    ensures l.pattern <= Chomp(uri)
    ensures l.modifier == "=" ==> l.pattern == Chomp(uri)
  {
    if uri != "" && uri[|uri| - 1] == '\n' {
      assert l.pattern != uri;
      assert l.pattern <= uri && |l.pattern| < |uri|;
      assert l.pattern == uri[..|uri| - 1][..|l.pattern|];
    }
  }

  /** Safe locations of different groups never answer the same request. */
  lemma SafeGroupsAreDisjoint(locations: seq<Location>, a: Location, b: Location, uri: string)
    requires Renderable(locations) && a in locations && b in locations
    requires Safe(locations, a) && Mergeable(b)
    requires Hits(a, uri) && Hits(b, uri)
    ensures a.proxy == b.proxy
  {
    HitsOverlap(a, b, uri);
    assert !Clashes(a, b);
  }

  /** The crux: a location longer than a safe one and under it is in its group, and safe too.
      Whatever it clashes with would clash with the shorter location. */
  lemma LongerThanSafeIsSafe(locations: seq<Location>, l: Location, w: Location, uri: string)
    requires Renderable(locations) && l in locations && w in locations
    requires l.modifier == "" && w.modifier == ""
    requires Mergeable(l) && Safe(locations, l)
    requires l.pattern <= uri && w.pattern <= uri && |l.pattern| <= |w.pattern|
    ensures InGroup(w, l.proxy) && Safe(locations, w)
  {
    PrefixesCompare(l.pattern, w.pattern, uri);
    assert !Clashes(l, w);
    assert w.pattern == "/" ==> l.pattern == "/";
    forall o | o in locations
      ensures !Clashes(w, o)
    {
      OverlapPassesDown(l, w, o);
      assert !Clashes(l, o);
    }
  }

  /** What overlaps a prefix location overlaps every shorter prefix of it. */
  lemma OverlapPassesDown(l: Location, w: Location, o: Location)
    requires l.modifier == "" && w.modifier == "" && l.pattern <= w.pattern
    ensures Overlap(w, o) ==> Overlap(l, o)
  {
    if w.pattern <= o.pattern {
      PrefixTransitive(l.pattern, w.pattern, o.pattern);
    } else if o.pattern <= w.pattern && |l.pattern| <= |o.pattern| {
      PrefixesCompare(l.pattern, o.pattern, w.pattern);
    } else if o.pattern <= w.pattern {
      PrefixesCompare(o.pattern, l.pattern, w.pattern);
    }
  }

  // ---- The ordered map finds the right proof ----

  lemma {:induction false} LookupFindsFirst(safe: seq<Location>, w: Location, uri: string)
    requires Sorted(Before, safe) && w in safe && Hits(w, uri)
    requires forall l | l in safe :: Plain(l.pattern)
    requires forall l | l in safe && Hits(l, uri) :: l == w || Before(w, l)
    ensures LookupEntries(EntriesFor(safe), uri) == w.proofIndex
  {
    var entries := EntriesFor(safe);
    EntryHits(safe[0], uri);
    var j :| 0 <= j < |safe| && safe[j] == w;
    assert j == 0 || !Before(safe[j], safe[0]);
    if !Hits(safe[0], uri) {
      assert entries[1..] == EntriesFor(safe[1..]);
      LookupFindsFirst(safe[1..], w, uri);
    }
  }

  /** The request whose answer the compacted server gives for uri: uri itself, unless uri is
      a folded exact location followed by a newline. */
  function Target(locations: seq<Location>, uri: string): string {
    if uri != Chomp(uri) && ExactFolded(locations, Chomp(uri)) then Chomp(uri) else uri
  }

  predicate ExactFolded(locations: seq<Location>, path: string) {
    exists l | l in locations :: Removed(locations, l) && l.modifier == "=" && l.pattern == path
  }

  /** The location the original server picks for the target is folded, in the same group, and
      first among the group's matching entries, as soon as any folded location matches. */
  lemma FoldedWinner(locations: seq<Location>, l: Location, uri: string) returns (w: Location)
    requires Renderable(locations) && l in locations && Removed(locations, l) && Hits(l, uri)
    requires forall x | x in locations && MatchesExact(x, uri) :: Removed(locations, x)
    ensures Picks(locations, Target(locations, uri), w)
    ensures Removed(locations, w) && w.proxy == l.proxy && Hits(w, uri)
    ensures forall m | m in locations && Removed(locations, m) && Hits(m, uri) :: m == w || Before(w, m)
  {
    if e :| e in locations && Removed(locations, e) && e.modifier == "=" && Hits(e, uri) {
      w := e;
      NewlineIsNotInPattern(e, uri);
      assert ExactFolded(locations, Chomp(uri));
      assert MatchesExact(w, Target(locations, uri));
      SafeGroupsAreDisjoint(locations, e, l, uri);
      forall m | m in locations && Removed(locations, m) && Hits(m, uri)
        ensures m == w || Before(w, m)
      {
        if m.modifier == "=" {
          NewlineIsNotInPattern(m, uri);
          UniqueMeansEqual(locations, m, w);
        }
      }
    } else {
      w := FoldedPrefixWinner(locations, l, uri);
    }
  }

  lemma FoldedPrefixWinner(locations: seq<Location>, l: Location, uri: string) returns (w: Location)
    requires Renderable(locations) && l in locations && Removed(locations, l) && Hits(l, uri)
    requires forall x | x in locations && MatchesExact(x, uri) :: Removed(locations, x)
    requires forall e | e in locations && Removed(locations, e) && e.modifier == "=" :: !Hits(e, uri)
    ensures Picks(locations, Target(locations, uri), w)
    ensures Removed(locations, w) && w.proxy == l.proxy && Hits(w, uri)
    ensures forall m | m in locations && Removed(locations, m) && Hits(m, uri) :: m == w || Before(w, m)
  {
    assert uri != Chomp(uri) ==> uri == Chomp(uri) + "\n";
    assert Target(locations, uri) == uri;
    SelectPicks(locations, uri);
    assert MatchesPrefix(l, uri);
    w := Select(locations, uri).value;
    LongerThanSafeIsSafe(locations, l, w, uri);
    forall m | m in locations && Removed(locations, m) && Hits(m, uri)
      ensures m == w || Before(w, m)
    {
      if |m.pattern| == |w.pattern| {
        PrefixesCompare(m.pattern, w.pattern, uri);
        UniqueMeansEqual(locations, m, w);
      }
    }
  }

  // ---- Selection in the compacted server ----

  lemma MergedIsFold(locations: seq<Location>, server: nat, m: Location) returns (k: nat)
    requires m in Merged(locations, server, CompactedBig(locations))
    ensures k < |CompactedBig(locations)|
    ensures m == MergedLocation(SortedSafe(locations, CompactedBig(locations)[k]), MapName(server, k))
  {
    k :| 0 <= k < |CompactedBig(locations)| && Merged(locations, server, CompactedBig(locations))[k] == m;
  }

  lemma BigGroupIsMerged(locations: seq<Location>, l: Location) returns (k: nat)
    requires l in locations && Removed(locations, l)
    ensures k < |CompactedBig(locations)| && CompactedBig(locations)[k] == l.proxy
    ensures forall j | 0 <= j < |CompactedBig(locations)| && CompactedBig(locations)[j] == l.proxy :: j == k
  {
    ProxyOrderCovers(locations);
    BigProxiesAreBig(locations, ProxyOrder(locations));
    k :| 0 <= k < |CompactedBig(locations)| && CompactedBig(locations)[k] == l.proxy;
  }

  /** A merged location matches exactly when some folded location of its group does. */
  lemma MergedMatches(locations: seq<Location>, server: nat, k: nat, uri: string)
    requires k < |CompactedBig(locations)|
    ensures var p := CompactedBig(locations)[k];
      MatchesRegex(MergedLocation(SortedSafe(locations, p), MapName(server, k)), uri)
      <==> exists l | l in locations && Removed(locations, l) && l.proxy == p :: Hits(l, uri)
  {
    var p := CompactedBig(locations)[k];
    assert Big(locations, p);
    var safe := SortedSafe(locations, p);
    SortedSafeAre(locations, p);
    MergedHits(safe, uri);
    forall l | l in locations && Removed(locations, l) && l.proxy == p && Hits(l, uri)
      ensures exists i | 0 <= i < |safe| :: Hits(safe[i], uri)
    {
      assert l in safe;
    }
  }

  lemma KeptHasNoRegex(locations: seq<Location>, uri: string)
    requires Renderable(locations)
    ensures FirstRegex(Kept(locations, locations), uri) == None
  {
    KeptAre(locations, locations);
    FirstRegexFinds(Kept(locations, locations), uri);
  }

  lemma {:induction false} FirstRegexOfConcat(a: seq<Location>, b: seq<Location>, uri: string)
    ensures FirstRegex(a + b, uri) == if FirstRegex(a, uri).Some? then FirstRegex(a, uri) else FirstRegex(b, uri)
  {
    if a == [] {
      assert a + b == b;
    } else {
      assert (a + b)[1..] == a[1..] + b;
      FirstRegexOfConcat(a[1..], b, uri);
    }
  }

  /** Of the merged locations only the group of l can match a request l matches. */
  lemma OnlyGroupMatches(locations: seq<Location>, server: nat, l: Location, k: nat, r: Location, uri: string)
    requires Renderable(locations) && l in locations && Removed(locations, l) && Hits(l, uri)
    requires k < |CompactedBig(locations)| && CompactedBig(locations)[k] == l.proxy
    requires forall j | 0 <= j < |CompactedBig(locations)| && CompactedBig(locations)[j] == l.proxy :: j == k
    requires r in Merged(locations, server, CompactedBig(locations)) && MatchesRegex(r, uri)
    ensures r == MergedLocation(SortedSafe(locations, CompactedBig(locations)[k]), MapName(server, k))
  {
    var j := MergedIsFold(locations, server, r);
    MergedMatches(locations, server, j, uri);
    var m :| m in locations && Removed(locations, m) && m.proxy == CompactedBig(locations)[j] && Hits(m, uri);
    SafeGroupsAreDisjoint(locations, m, l, uri);
  }

  lemma CompactedHasNoExact(locations: seq<Location>, server: nat, uri: string)
    requires Renderable(locations)
    requires forall x | x in locations && MatchesExact(x, uri) :: Removed(locations, x)
    ensures FirstExact(CompactedLocations(locations, server), uri) == None
  {
    KeptAre(locations, locations);
    FirstExactFinds(CompactedLocations(locations, server), uri);
  }

  /** When a folded location matches, the only matching regular expression is its group's. */
  lemma CompactedSelectsGroup(locations: seq<Location>, server: nat, l: Location, uri: string) returns (k: nat)
    requires Renderable(locations) && l in locations && Removed(locations, l) && Hits(l, uri)
    requires forall x | x in locations && MatchesExact(x, uri) :: Removed(locations, x)
    ensures k < |CompactedBig(locations)| && CompactedBig(locations)[k] == l.proxy
    ensures Select(CompactedLocations(locations, server), uri)
         == Some(MergedLocation(SortedSafe(locations, CompactedBig(locations)[k]), MapName(server, k)))
  {
    var kept, merged := Kept(locations, locations), Merged(locations, server, CompactedBig(locations));
    CompactedHasNoExact(locations, server, uri);
    FirstRegexFinds(merged, uri);
    FirstRegexOfConcat(kept, merged, uri);
    KeptHasNoRegex(locations, uri);
    k := BigGroupIsMerged(locations, l);
    MergedMatches(locations, server, k, uri);
    assert merged[k] in merged;
    OnlyGroupMatches(locations, server, l, k, FirstRegex(merged, uri).value, uri);
  }

  lemma CompactedSelectsKeptExact(locations: seq<Location>, server: nat, x: Location, uri: string)
    requires Renderable(locations) && x in locations && MatchesExact(x, uri) && !Removed(locations, x)
    ensures Select(CompactedLocations(locations, server), uri) == Select(locations, uri) == Some(x)
  {
    var out := CompactedLocations(locations, server);
    KeptAre(locations, locations);
    FirstExactFinds(out, uri);
    FirstExactFinds(locations, uri);
    assert x in out;
    UniqueMeansEqual(locations, x, FirstExact(out, uri).value);
    UniqueMeansEqual(locations, x, FirstExact(locations, uri).value);
  }

  /** When no folded location matches, the kept locations decide, as before. */
  lemma CompactedSelectsKept(locations: seq<Location>, server: nat, uri: string)
    requires Renderable(locations)
    requires forall l | l in locations && Removed(locations, l) :: !Hits(l, uri)
    ensures Select(CompactedLocations(locations, server), uri) == Select(locations, uri)
  {
    FirstExactFinds(locations, uri);
    if FirstExact(locations, uri).Some? {
      CompactedSelectsKeptExact(locations, server, FirstExact(locations, uri).value, uri);
    } else {
      CompactedHasNoRegex(locations, server, uri);
      FirstRegexFinds(locations, uri);
      SelectsSamePrefix(locations, server, uri);
    }
  }

  lemma CompactedHasNoRegex(locations: seq<Location>, server: nat, uri: string)
    requires Renderable(locations)
    requires forall l | l in locations && Removed(locations, l) :: !Hits(l, uri)
    requires forall l | l in locations :: !MatchesExact(l, uri)
    ensures FirstExact(CompactedLocations(locations, server), uri) == None
    ensures FirstRegex(CompactedLocations(locations, server), uri) == None
  {
    var kept, merged := Kept(locations, locations), Merged(locations, server, CompactedBig(locations));
    CompactedHasNoExact(locations, server, uri);
    FirstRegexOfConcat(kept, merged, uri);
    KeptHasNoRegex(locations, uri);
    FirstRegexFinds(merged, uri);
    if FirstRegex(merged, uri).Some? {
      var j := MergedIsFold(locations, server, FirstRegex(merged, uri).value);
      MergedMatches(locations, server, j, uri);
      assert false;
    }
  }

  lemma SelectsSamePrefix(locations: seq<Location>, server: nat, uri: string)
    requires Renderable(locations)
    requires forall l | l in locations && Removed(locations, l) :: !Hits(l, uri)
    ensures LongestPrefix(CompactedLocations(locations, server), uri) == LongestPrefix(locations, uri)
  {
    var out := CompactedLocations(locations, server);
    KeptAre(locations, locations);
    LongestPrefixFinds(out, uri);
    LongestPrefixFinds(locations, uri);
    var a, b := LongestPrefix(out, uri), LongestPrefix(locations, uri);
    if b.Some? {
      assert !Removed(locations, b.value) && b.value in out;
      PrefixesCompare(a.value.pattern, b.value.pattern, uri);
      UniqueMeansEqual(locations, a.value, b.value);
    }
  }

  // ---- The theorem for one server ----

  /** The maps hold this server's entries under this server's names. */
  ghost predicate MapsServe(maps: seq<RouteProofMap>, locations: seq<Location>, server: nat) {
    forall k, uri | 0 <= k < |CompactedBig(locations)| ::
      LookupMap(maps, "$" + MapName(server, k), uri)
      == LookupEntries(EntriesFor(SortedSafe(locations, CompactedBig(locations)[k])), uri)
  }

  lemma TargetIsIdentity(locations: seq<Location>, uri: string)
    requires '\n' !in uri || forall l | l in locations && Removed(locations, l) :: !Hits(l, uri)
    ensures Target(locations, uri) == uri
  {
    assert uri != Chomp(uri) ==> uri == Chomp(uri) + "\n";
  }

  lemma AnswersWhenFolded(maps: seq<RouteProofMap>, locations: seq<Location>, server: nat, l: Location, uri: string)
    requires Renderable(locations) && MapsServe(maps, locations, server)
    requires l in locations && Removed(locations, l) && Hits(l, uri)
    requires forall x | x in locations && MatchesExact(x, uri) :: Removed(locations, x)
    ensures Respond(maps, CompactedLocations(locations, server), uri) == Respond([], locations, Target(locations, uri))
  {
    var w := FoldedWinner(locations, l, uri);
    var k := CompactedSelectsGroup(locations, server, l, uri);
    var safe := SortedSafe(locations, l.proxy);
    SortedSafeAre(locations, l.proxy);
    LookupFindsFirst(safe, w, uri);
    assert Big(locations, l.proxy);
    var m := MergedLocation(safe, MapName(server, k));
    assert safe[0] in safe;
    assert Rendered(m) == Rendered(w);
    assert ProofId(maps, m, uri) == w.proofIndex;
    SelectPicks(locations, Target(locations, uri));
    PicksIsUnique(locations, Target(locations, uri), w, Select(locations, Target(locations, uri)).value);
  }

  /** For every request the compacted server answers what the original answers for its target. */
  lemma CompactionAnswersTarget(maps: seq<RouteProofMap>, locations: seq<Location>, server: nat, uri: string)
    requires Renderable(locations) && MapsServe(maps, locations, server)
    ensures Respond(maps, CompactedLocations(locations, server), uri) == Respond([], locations, Target(locations, uri))
  {
    SelectPicks(locations, uri);
    if x :| x in locations && MatchesExact(x, uri) && !Removed(locations, x) {
      CompactedSelectsKeptExact(locations, server, x, uri);
      TargetIsIdentity(locations, uri);
    } else if l :| l in locations && Removed(locations, l) && Hits(l, uri) {
      AnswersWhenFolded(maps, locations, server, l, uri);
    } else {
      CompactedSelectsKept(locations, server, uri);
      TargetIsIdentity(locations, uri);
    }
  }

  // ---- The theorem for a whole configuration ----

  lemma MapNameIsInjective(a: nat, k: nat, b: nat, m: nat)
    requires MapName(a, k) == MapName(b, m)
    ensures a == b && k == m
  {
    var stem := "rementor_location_";
    DecimalNonempty(a);
    DecimalNonempty(b);
    var x, y := Decimal(a) + "_" + Decimal(k), Decimal(b) + "_" + Decimal(m);
    assert stem + x == MapName(a, k) && stem + y == MapName(b, m);
    assert (stem + x)[|stem|..] == x && (stem + y)[|stem|..] == y;
    SplitAtSeparator('_', Decimal(a), Decimal(k), Decimal(b), Decimal(m));
    DecimalIsInjective(a, b);
    DecimalIsInjective(k, m);
  }

  lemma {:induction false} LookupFindsMap(maps: seq<RouteProofMap>, m: RouteProofMap, uri: string)
    requires m in maps && forall x | x in maps && x.name == m.name :: x == m
    ensures LookupMap(maps, "$" + m.name, uri) == LookupEntries(m.entries, uri)
  {
    assert ("$" + m.name)[1..] == m.name && ("$" + maps[0].name)[1..] == maps[0].name;
    if maps[0] != m {
      LookupFindsMap(maps[1..], m, uri);
    }
  }

  lemma {:induction false} AllMapsSource(servers: seq<Server>, n: nat, m: RouteProofMap) returns (s: nat, k: nat)
    requires n <= |servers| && m in AllMaps(servers, n)
    ensures s < n && k < |CompactedBig(servers[s].locations)| && m == CompactedMaps(servers[s].locations, s)[k]
  {
    if m in CompactedMaps(servers[n - 1].locations, n - 1) {
      s := n - 1;
      k :| 0 <= k < |CompactedMaps(servers[s].locations, s)| && m == CompactedMaps(servers[s].locations, s)[k];
    } else {
      s, k := AllMapsSource(servers, n - 1, m);
    }
  }

  lemma {:induction false} AllMapsHave(servers: seq<Server>, n: nat, s: nat, m: RouteProofMap)
    requires s < n <= |servers| && m in CompactedMaps(servers[s].locations, s)
    ensures m in AllMaps(servers, n)
  {
    if s < n - 1 {
      AllMapsHave(servers, n - 1, s, m);
    }
  }

  lemma AllMapsServe(servers: seq<Server>, s: nat)
    requires s < |servers|
    ensures MapsServe(AllMaps(servers, |servers|), servers[s].locations, s)
  {
    forall k, uri | 0 <= k < |CompactedBig(servers[s].locations)|
      ensures LookupMap(AllMaps(servers, |servers|), "$" + MapName(s, k), uri)
        == LookupEntries(EntriesFor(SortedSafe(servers[s].locations, CompactedBig(servers[s].locations)[k])), uri)
    {
      AllMapsServeOne(servers, s, k, uri);
    }
  }

  lemma AllMapsServeOne(servers: seq<Server>, s: nat, k: nat, uri: string)
    requires s < |servers| && k < |CompactedBig(servers[s].locations)|
    ensures LookupMap(AllMaps(servers, |servers|), "$" + MapName(s, k), uri)
        == LookupEntries(EntriesFor(SortedSafe(servers[s].locations, CompactedBig(servers[s].locations)[k])), uri)
  {
    var maps := AllMaps(servers, |servers|);
    var m := CompactedMaps(servers[s].locations, s)[k];
    AllMapsHave(servers, |servers|, s, m);
    forall x | x in maps && x.name == m.name
      ensures x == m
    {
      var t, j := AllMapsSource(servers, |servers|, x);
      MapNameIsInjective(s, k, t, j);
    }
    LookupFindsMap(maps, m, uri);
  }

  function CompactedAnswer(servers: seq<Server>, s: nat, uri: string): Answer
    requires s < |servers|
  {
    Respond(AllMaps(servers, |servers|), CompactedServers(servers, |servers|)[s].locations, uri)
  }

  /** Compaction preserves meaning: every server answers every request that does not end in a
      newline exactly as before, with the same proof id. */
  lemma CompactionPreservesMeaning(servers: seq<Server>, s: nat, uri: string)
    requires s < |servers| && Renderable(servers[s].locations)
    requires uri == Chomp(uri)
    ensures CompactedAnswer(servers, s, uri) == Respond([], servers[s].locations, uri)
  {
    AllMapsServe(servers, s);
    CompactedServersAt(servers, |servers|, s);
    CompactionAnswersTarget(AllMaps(servers, |servers|), servers[s].locations, s, uri);
  }

  /** Of its own locations only one that was not folded can be at the ready location's place. */
  lemma CompactedReadyIff(locations: seq<Location>, server: nat)
    ensures (exists l | l in CompactedLocations(locations, server) :: IsReady(l))
      <==> exists l | l in locations :: IsReady(l) && !Removed(locations, l)
  {
    KeptAre(locations, locations);
    var merged := Merged(locations, server, CompactedBig(locations));
    forall l | l in merged ensures !IsReady(l) {
      var k :| 0 <= k < |merged| && merged[k] == l;
    }
  }

  /** Every folded exact location lies below a prefix location that renders alike and has its
      proof index: the one that answers its path plus a newline, which a `$` cannot tell from the
      path. */
  predicate NewlineBlind(locations: seq<Location>) {
    forall l | l in locations && Removed(locations, l) && l.modifier == "=" :: SameBelow(locations, l)
  }

  predicate SameBelow(locations: seq<Location>, l: Location) {
    var below := LongestPrefix(locations, l.pattern);
    below.Some? && Rendered(below.value) == Rendered(l) && below.value.proofIndex == l.proofIndex
  }

  lemma {:induction false} PrefixesIgnoreNewline(locations: seq<Location>, path: string)
    requires forall l | l in locations :: Plain(l.pattern)
    ensures LongestPrefix(locations, path + "\n") == LongestPrefix(locations, path)
  {
    if locations != [] {
      var l := locations[0];
      PrefixesIgnoreNewline(locations[1..], path);
      if l.pattern <= path + "\n" {
        NewlineIsNotInPrefix(l.pattern, path);
      }
    }
  }

  lemma NewlineIsNotInPrefix(pattern: string, path: string)
    requires pattern <= path + "\n"
    ensures pattern <= path || '\n' in pattern
  {
    if |pattern| == |path| + 1 {
      assert pattern[|path|] == '\n';
    }
  }

  /** What the structure says about the answers. */
  lemma SameBelowIffSameAnswer(locations: seq<Location>, l: Location)
    requires Renderable(locations) && l in locations && l.modifier == "="
    ensures SameBelow(locations, l) <==> Respond([], locations, l.pattern + "\n") == Respond([], locations, l.pattern)
  {
    var path := l.pattern;
    SelectPicks(locations, path);
    PicksIsUnique(locations, path, l, Select(locations, path).value);
    FirstExactFinds(locations, path + "\n");
    FirstRegexFinds(locations, path + "\n");
    PrefixesIgnoreNewline(locations, path);
    LongestPrefixFinds(locations, path);
  }

  lemma CompactedAnswerIsTarget(servers: seq<Server>, s: nat, uri: string)
    requires s < |servers| && Renderable(servers[s].locations)
    ensures CompactedAnswer(servers, s, uri)
      == Respond([], servers[s].locations, Target(servers[s].locations, uri))
  {
    AllMapsServe(servers, s);
    CompactedServersAt(servers, |servers|, s);
    CompactionAnswersTarget(AllMaps(servers, |servers|), servers[s].locations, s, uri);
  }

  lemma NewlineBlindTarget(locations: seq<Location>, uri: string)
    requires Renderable(locations) && NewlineBlind(locations)
    ensures Respond([], locations, Target(locations, uri)) == Respond([], locations, uri)
  {
    if Target(locations, uri) != uri {
      var l :| l in locations && Removed(locations, l) && l.modifier == "=" && l.pattern == Chomp(uri);
      assert uri == Chomp(uri) + "\n";
      SameBelowIffSameAnswer(locations, l);
    }
  }

  lemma TargetOfNewline(locations: seq<Location>, l: Location)
    requires l in locations && Removed(locations, l) && l.modifier == "="
    ensures Target(locations, l.pattern + "\n") == l.pattern
  {
    assert Chomp(l.pattern + "\n") == l.pattern;
  }

  /** Meaning is preserved for every request whatsoever exactly when the server is newline-blind. */
  lemma CompactionPreservesEverythingIff(servers: seq<Server>, s: nat)
    requires s < |servers| && Renderable(servers[s].locations)
    ensures (forall uri :: CompactedAnswer(servers, s, uri) == Respond([], servers[s].locations, uri))
      <==> NewlineBlind(servers[s].locations)
  {
    var locations := servers[s].locations;
    if NewlineBlind(locations) {
      forall uri
        ensures CompactedAnswer(servers, s, uri) == Respond([], locations, uri)
      {
        CompactedAnswerIsTarget(servers, s, uri);
        NewlineBlindTarget(locations, uri);
      }
    } else {
      var l :| l in locations && Removed(locations, l) && l.modifier == "=" && !SameBelow(locations, l);
      SameBelowIffSameAnswer(locations, l);
      CompactedAnswerIsTarget(servers, s, l.pattern + "\n");
      TargetOfNewline(locations, l);
    }
  }

  // ---- A server that is not newline-blind ----

  function ExampleProxy(host: string): Proxy {
    Proxy("https", host, 443, "", host, host, "https", true)
  }

  function ExampleLocation(id: nat, modifier: string, pattern: string, host: string): Location {
    Location(id, "", modifier, pattern, "", "", ExampleProxy(host), "", true, true, false, false,
             ResponseProof("", "", "", "", "", "", "", ""), false)
  }

  /** Four exact routes to one host above a fallback to another. */
  predicate FourRoutesAndFallback(e: seq<Location>) {
    && |e| == 5
    && e[0] == ExampleLocation(1, "=", "/a", "apps") && e[1] == ExampleLocation(2, "=", "/b", "apps")
    && e[2] == ExampleLocation(3, "=", "/c", "apps") && e[3] == ExampleLocation(4, "=", "/d", "apps")
    && e[4] == ExampleLocation(5, "", "/", "fallback")
  }

  lemma FourDistinct<T>(s: seq<T>, a: T, b: T, c: T, d: T)
    requires a in s && b in s && c in s && d in s
    requires a != b && a != c && a != d && b != c && b != d && c != d
    ensures |s| >= 4
  {
    var four, all := multiset{a, b, c, d}, multiset(s);
    assert a in all && b in all && c in all && d in all;
    assert four <= all;
    assert all == four + (all - four);
  }

  lemma ExampleIsFolded(e: seq<Location>)
    requires FourRoutesAndFallback(e)
    ensures Renderable(e) && Removed(e, e[0])
  {
    var p := ExampleProxy("apps");
    forall i | 0 <= i < 4
      ensures InGroup(e[i], p) && Safe(e, e[i])
    {
    }
    MembersAre(e, p);
    SafeOfAre(e, Members(e, p));
    FourDistinct(SafeMembers(e, p), e[0], e[1], e[2], e[3]);
  }

  lemma ExampleSelects(e: seq<Location>)
    requires FourRoutesAndFallback(e) && Renderable(e)
    ensures Select(e, "/a\n") == Some(e[4]) && Select(e, "/a") == Some(e[0])
  {
    SelectPicks(e, "/a\n");
    SelectPicks(e, "/a");
    assert Picks(e, "/a\n", e[4]);
    assert Picks(e, "/a", e[0]);
    PicksIsUnique(e, "/a\n", e[4], Select(e, "/a\n").value);
    PicksIsUnique(e, "/a", e[0], Select(e, "/a").value);
  }

  /** A request for /a followed by a newline reached the fallback, and reaches /a's
      application once the four routes are folded. */
  lemma DollarAcceptsNewline(e: seq<Location>)
    requires FourRoutesAndFallback(e)
    ensures Renderable(e) && !NewlineBlind(e)
    ensures Respond([], e, "/a\n") == Served(Rendered(e[4]), 5)
    ensures CompactedAnswer([Server("s", [], e)], 0, "/a\n") == Served(Rendered(e[0]), 1)
  {
    ExampleIsFolded(e);
    ExampleSelects(e);
    SameBelowIffSameAnswer(e, e[0]);
    CompactedAnswerIsTarget([Server("s", [], e)], 0, "/a\n");
    TargetOfNewline(e, e[0]);
    assert e[0].pattern + "\n" == "/a\n";
  }
}
