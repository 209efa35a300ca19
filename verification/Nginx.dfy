/** The generated configuration and what nginx does with it: location selection, the
    ordered regular-expression maps, and the proof headers. */
module Nginx {
  import opened Text
  import Regex

  datatype Proxy = Proxy(
    scheme: string, host: string, port: int, passURI: string, headerHost: string,
    forwardedHost: string, forwardedProto: string, sslServerName: bool)

  datatype ResponseProof = ResponseProof(
    appID: string, serviceID: string, workspace: string, environment: string,
    session: string, effectiveMode: string, routeVersion: string, operationID: string)

  datatype Location = Location(
    proofIndex: nat, proofSelector: string, modifier: string, pattern: string,
    rewrite: string, rewritePattern: string, proxy: Proxy, redirect: string,
    addCORS: bool, passHeaders: bool, stripOrigin: bool, proxyRequests: bool,
    proof: ResponseProof, trace: bool)

  datatype Server = Server(name: string, listen: seq<string>, locations: seq<Location>)

  datatype RouteProofEntry = RouteProofEntry(pattern: string, proofIndex: nat)

  datatype RouteProofMap = RouteProofMap(name: string, entries: seq<RouteProofEntry>)

  datatype ProofMap = ProofMap(name: string, values: seq<string>)

  /** The configuration under construction. */
  class Config {
    var routeMaps: seq<RouteProofMap>
    var servers: seq<Server>
    var proofMaps: seq<ProofMap>

    constructor (servers: seq<Server>)
      ensures this.servers == servers && routeMaps == [] && proofMaps == []
    {
      this.servers, routeMaps, proofMaps := servers, [], [];
    }
  }

  // ---- Location selection ----

  predicate MatchesExact(l: Location, uri: string) {
    l.modifier == "=" && l.pattern == uri
  }

  predicate MatchesPrefix(l: Location, uri: string) {
    l.modifier == "" && l.pattern <= uri
  }

  predicate MatchesRegex(l: Location, uri: string) {
    l.modifier == "~" && Regex.Matches(l.pattern, uri)
  }

  function FirstExact(locations: seq<Location>, uri: string): Option<Location> {
    if locations == [] then None
    else if MatchesExact(locations[0], uri) then Some(locations[0])
    else FirstExact(locations[1..], uri)
  }

  function FirstRegex(locations: seq<Location>, uri: string): Option<Location> {
    if locations == [] then None
    else if MatchesRegex(locations[0], uri) then Some(locations[0])
    else FirstRegex(locations[1..], uri)
  }

  function LongestPrefix(locations: seq<Location>, uri: string): Option<Location> {
    if locations == [] then None
    else
      var rest := LongestPrefix(locations[1..], uri);
      if !MatchesPrefix(locations[0], uri) then rest
      else if rest.Some? && |rest.value.pattern| > |locations[0].pattern| then rest
      else Some(locations[0])
  }

  /** An exact location wins at once; otherwise the first matching regular expression
      overrides the longest matching prefix. */
  function Select(locations: seq<Location>, uri: string): Option<Location> {
    var exact := FirstExact(locations, uri);
    if exact.Some? then exact
    else
      var regex := FirstRegex(locations, uri);
      if regex.Some? then regex else LongestPrefix(locations, uri)
  }

  lemma {:induction false} FirstExactFinds(locations: seq<Location>, uri: string)
    ensures match FirstExact(locations, uri)
      case Some(l) => l in locations && MatchesExact(l, uri)
      case None => forall l | l in locations :: !MatchesExact(l, uri)
  {
    if locations != [] {
      FirstExactFinds(locations[1..], uri);
    }
  }

  lemma {:induction false} FirstRegexFinds(locations: seq<Location>, uri: string)
    ensures match FirstRegex(locations, uri)
      case Some(l) => l in locations && MatchesRegex(l, uri)
      case None => forall l | l in locations :: !MatchesRegex(l, uri)
  {
    if locations != [] {
      FirstRegexFinds(locations[1..], uri);
    }
  }

  lemma {:induction false} LongestPrefixFinds(locations: seq<Location>, uri: string)
    ensures match LongestPrefix(locations, uri)
      case Some(w) =>
        && w in locations && MatchesPrefix(w, uri)
        && forall l | l in locations && MatchesPrefix(l, uri) :: |l.pattern| <= |w.pattern|
      case None => forall l | l in locations :: !MatchesPrefix(l, uri)
  {
    if locations != [] {
      LongestPrefixFinds(locations[1..], uri);
    }
  }

  /** No two locations of a server share modifier and pattern; nginx refuses a
      configuration where two do. */
  predicate Unique(locations: seq<Location>) {
    forall i, j | 0 <= i < j < |locations| ::
      locations[i].modifier != locations[j].modifier || locations[i].pattern != locations[j].pattern
  }

  lemma UniqueMeansEqual(locations: seq<Location>, a: Location, b: Location)
    requires Unique(locations) && a in locations && b in locations
    requires a.modifier == b.modifier && a.pattern == b.pattern
    ensures a == b
  {
    var i :| 0 <= i < |locations| && locations[i] == a;
    var j :| 0 <= j < |locations| && locations[j] == b;
    assert !(i < j) && !(j < i);
  }

  /** Among locations without regular expressions, who is selected, declaratively. */
  predicate Picks(locations: seq<Location>, uri: string, w: Location) {
    && w in locations
    && (MatchesExact(w, uri)
        || (&& (forall l | l in locations :: !MatchesExact(l, uri))
            && MatchesPrefix(w, uri)
            && (forall l | l in locations && MatchesPrefix(l, uri) :: |l.pattern| <= |w.pattern|)))
  }

  /** Select computes Picks; with unique locations there is only one such location. */
  lemma SelectPicks(locations: seq<Location>, uri: string)
    requires forall l | l in locations :: l.modifier == "=" || l.modifier == ""
    ensures match Select(locations, uri)
      case Some(w) => Picks(locations, uri, w)
      case None => forall l | l in locations :: !MatchesExact(l, uri) && !MatchesPrefix(l, uri)
  {
    FirstExactFinds(locations, uri);
    FirstRegexFinds(locations, uri);
    LongestPrefixFinds(locations, uri);
  }

  lemma PicksIsUnique(locations: seq<Location>, uri: string, a: Location, b: Location)
    requires Unique(locations) && Picks(locations, uri, a) && Picks(locations, uri, b)
    ensures a == b
  {
    if !MatchesExact(a, uri) {
      PrefixesCompare(a.pattern, b.pattern, uri);
    }
    UniqueMeansEqual(locations, a, b);
  }

  // ---- What a request gets ----

  /** Everything the server template emits for a location apart from its proof id. */
  datatype Behaviour =
    | Redirects(target: string)
    | Proxies(rewrite: string, rewritePattern: string, stripOrigin: bool, proxy: Proxy, trace: Option<ResponseProof>)

  function Rendered(l: Location): Behaviour {
    if l.redirect != "" then Redirects(l.redirect)
    else Proxies(l.rewrite, if l.rewrite == "" then "" else l.rewritePattern, l.stripOrigin, l.proxy,
                 if l.trace then Some(l.proof) else None)
  }

  /** An ordered map: the first matching entry, else the default 0. */
  function LookupEntries(entries: seq<RouteProofEntry>, uri: string): nat {
    if entries == [] then 0
    else if Regex.Matches(entries[0].pattern, uri) then entries[0].proofIndex
    else LookupEntries(entries[1..], uri)
  }

  function LookupMap(maps: seq<RouteProofMap>, selector: string, uri: string): nat {
    if maps == [] then 0
    else if selector == "$" + maps[0].name then LookupEntries(maps[0].entries, uri)
    else LookupMap(maps[1..], selector, uri)
  }

  function ProofId(maps: seq<RouteProofMap>, l: Location, uri: string): nat {
    if l.proofSelector == "" then l.proofIndex else LookupMap(maps, l.proofSelector, uri)
  }

  datatype Answer = NotFound | Served(behaviour: Behaviour, proofId: nat)

  function Respond(maps: seq<RouteProofMap>, locations: seq<Location>, uri: string): Answer {
    match Select(locations, uri)
    case None => NotFound
    case Some(l) => Served(Rendered(l), ProofId(maps, l, uri))
  }

  // ---- The location every server is printed with ----

  const READY_PATH := "/__rementor/config-ready"

  /** The server template puts this location before the server's own. */
  const READY := Location(0, "", "=", READY_PATH, "", "", Proxy("", "", 0, "", "", "", "", false), "", false, false,
                          false, false, ResponseProof("", "", "", "", "", "", "", ""), false)

  predicate IsReady(l: Location) {
    l.modifier == "=" && l.pattern == READY_PATH
  }

  function Printed(locations: seq<Location>): seq<Location> {
    [READY] + locations
  }

  /** The ready location answers by itself, with headers of its own instead of the server's. */
  datatype Reply = Ready | Passed(answer: Answer)

  function ReplyOf(maps: seq<RouteProofMap>, locations: seq<Location>, uri: string): Reply {
    match Select(Printed(locations), uri)
    case None => Passed(NotFound)
    case Some(l) => if IsReady(l) then Ready else Passed(Served(Rendered(l), ProofId(maps, l, uri)))
  }

  /** It takes its own path and leaves every other one alone. */
  lemma PrintedSelects(locations: seq<Location>, uri: string)
    ensures Select(Printed(locations), uri) == if uri == READY_PATH then Some(READY) else Select(locations, uri)
  {
    assert Printed(locations)[1..] == locations;
  }

  lemma ReplyIs(maps: seq<RouteProofMap>, locations: seq<Location>, uri: string)
    ensures ReplyOf(maps, locations, uri) == if uri == READY_PATH then Ready else Passed(Respond(maps, locations, uri))
  {
    PrintedSelects(locations, uri);
    FirstExactFinds(locations, uri);
    FirstRegexFinds(locations, uri);
    LongestPrefixFinds(locations, uri);
  }

  /** nginx accepts the printed server unless one of its own locations is at that place. */
  lemma PrintedIsUniqueIff(locations: seq<Location>)
    requires Unique(locations)
    ensures Unique(Printed(locations)) <==> !exists l | l in locations :: IsReady(l)
  {
    var printed := Printed(locations);
    if l :| l in locations && IsReady(l) {
      var i :| 0 <= i < |locations| && locations[i] == l;
      assert printed[0] == READY && printed[i + 1] == l;
    } else {
      forall i, j | 0 <= i < j < |printed|
        ensures printed[i].modifier != printed[j].modifier || printed[i].pattern != printed[j].pattern
      {
        assert printed[j] == locations[j - 1] && printed[j] in locations;
      }
    }
  }
}
