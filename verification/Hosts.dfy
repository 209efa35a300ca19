/** ValidateSessionHosts: no hostname of a session is answered by anything else. */
module Hosts {
  import opened Text
  import opened Model
  import opened Routes
  import opened Keyed

  // ---- Overlapping host patterns ----

  predicate Wildcard(host: string) {
    "*." <= host
  }

  /** hostsOverlap */
  predicate HostsOverlap(a: string, b: string) {
    || a == b
    || (Wildcard(a) && HasSuffix(b, a[1..]))
    || (Wildcard(b) && HasSuffix(a, b[1..]))
  }

  /** What a host pattern of a server answers. */
  predicate HostMatches(pattern: string, host: string) {
    if Wildcard(pattern) then HasSuffix(host, pattern[1..]) && |host| > |pattern[1..]| else host == pattern
  }

  lemma SuffixesNest(a: string, b: string, host: string)
    requires HasSuffix(host, a) && HasSuffix(host, b) && |a| <= |b|
    ensures HasSuffix(b, a)
  {
    assert b == host[|host| - |b|..];
    assert a == host[|host| - |a|..] == b[|b| - |a|..];
  }

  predicate IsHost(host: string) {
    host != "" && host[0] != '.'
  }

  /** A host both answer. */
  function Shared(a: string, b: string): string {
    if !Wildcard(a) then a
    else if !Wildcard(b) then b
    else "x" + (if |a| >= |b| then a else b)[1..]
  }

  lemma WildcardAnswersHost(pattern: string, host: string)
    requires Wildcard(pattern) && IsHost(host) && HasSuffix(host, pattern[1..])
    ensures HostMatches(pattern, host) && |pattern| <= |host|
  {
    var start := |host| - |pattern[1..]|;
    assert host[start] == host[start..][0] == '.';
  }

  lemma WildcardsShare(a: string, b: string)
    requires Wildcard(a) && Wildcard(b) && HasSuffix(b, a[1..]) && |a| <= |b|
    ensures HostMatches(a, "x" + b[1..]) && HostMatches(b, "x" + b[1..])
  {
    var host := "x" + b[1..];
    assert host[|host| - |a[1..]|..] == b[|b| - |a[1..]|..];
    assert host[|host| - |b[1..]|..] == b[1..];
  }

  lemma EqualTails(a: string, b: string)
    requires Wildcard(a) && HasSuffix(b, a[1..]) && |a| == |b|
    ensures b[1..] == a[1..] && HasSuffix(a, b[1..])
  {
  }

  lemma OverlapHasHost(a: string, b: string)
    requires IsHost(a) && IsHost(b) && HostsOverlap(a, b)
    ensures HostMatches(a, Shared(a, b)) && HostMatches(b, Shared(a, b))
  {
    if a == b {
      if Wildcard(a) { WildcardsShare(a, a); }
    } else if Wildcard(a) && HasSuffix(b, a[1..]) {
      WildcardAnswersHost(a, b);
      if Wildcard(b) {
        WildcardsShare(a, b);
        if |a| == |b| {
          EqualTails(a, b);
        }
      }
    } else {
      WildcardAnswersHost(b, a);
      if Wildcard(a) {
        WildcardsShare(b, a);
        if |a| == |b| {
          EqualTails(b, a);
          assert false;
        }
      }
    }
  }

  /** Two patterns overlap exactly when some host is answered by both. */
  lemma OverlapIsSharedHost(a: string, b: string)
    requires IsHost(a) && IsHost(b)
    ensures HostsOverlap(a, b) <==> exists host :: HostMatches(a, host) && HostMatches(b, host)
  {
    if HostsOverlap(a, b) {
      OverlapHasHost(a, b);
    }
    forall host | HostMatches(a, host) && HostMatches(b, host)
      ensures HostsOverlap(a, b)
    {
      if Wildcard(a) && Wildcard(b) {
        if |a| <= |b| { TailsNest(a, b, host); } else { TailsNest(b, a, host); }
      }
    }
  }

  lemma TailsNest(a: string, b: string, host: string)
    requires Wildcard(a) && Wildcard(b) && |a| <= |b|
    requires HasSuffix(host, a[1..]) && HasSuffix(host, b[1..])
    ensures HasSuffix(b, a[1..])
  {
    SuffixesNest(a[1..], b[1..], host);
    assert b[|b| - |a[1..]|..] == b[1..][|b[1..]| - |a[1..]|..];
  }

  // ---- The owners of hostnames ----

  datatype Owner = Owner(host: string, id: string, session: bool)

  /** The hostnames one workspace claims, without the blank ones. */
  function HostsOf(ws: Workspace): seq<string> {
    NonBlank([ws.LocalDomain()]) + FlatMap(DomainOf, ws.applications)
  }

  function DomainOf(app: Application): seq<string> {
    NonBlank([app.domain])
  }

  function NonBlank(host: seq<string>): seq<string> {
    if host == [""] then [] else host
  }

  function OwnerOf(ws: Workspace): string -> seq<Owner> {
    (host: string) => [Owner(Lower(host), ws.workspaceID, ws.session.Some?)]
  }

  function OwnersOf(ws: Workspace): seq<Owner> {
    FlatMap(OwnerOf(ws), HostsOf(ws))
  }

  /** Every claim in the order they are made; the control plane comes first. */
  function Owners(workspaces: seq<Workspace>, controlHost: string): seq<Owner> {
    [Owner(Lower(controlHost), "control-plane", false)] + FlatMap(OwnersOf, workspaces)
  }

  /** Two claims of which one is a session's. */
  predicate Clashing(a: Owner, b: Owner) {
    (a.session || b.session) && HostsOverlap(b.host, a.host)
  }

  ghost predicate Unambiguous(owners: seq<Owner>) {
    forall i, j | 0 <= i < j < |owners| :: !Clashing(owners[i], owners[j])
  }

  /** The loops: each claim against all earlier ones. */
  method ValidateSessionHosts(workspaces: seq<Workspace>, controlHost: string)
    returns (conflict: Option<(Owner, Owner)>)
    ensures conflict.None? <==> Unambiguous(Owners(workspaces, controlHost))
    ensures conflict.Some? ==>
      && Clashing(conflict.value.1, conflict.value.0)
      && conflict.value.0 in Owners(workspaces, controlHost)
      && conflict.value.1 in Owners(workspaces, controlHost)
  {
    var claims := AppendEach(OwnersOf, workspaces, [Owner(Lower(controlHost), "control-plane", false)]);
    conflict := FindClash(claims);
  }

  method FindClash(claims: seq<Owner>) returns (clash: Option<(Owner, Owner)>)
    ensures clash.None? <==> Unambiguous(claims)
    ensures clash.Some? ==> Clashing(clash.value.1, clash.value.0) && clash.value.0 in claims && clash.value.1 in claims
  {
    for j := 0 to |claims|
      invariant forall i, k | 0 <= i < k < j :: !Clashing(claims[i], claims[k])
    {
      var earlier := ClashesWith(claims, j);
      if earlier.Some? {
        return Some((claims[j], claims[earlier.value]));
      }
    }
    clash := None;
  }

  method ClashesWith(claims: seq<Owner>, j: nat) returns (earlier: Option<nat>)
    requires j < |claims|
    ensures earlier.Some? ==> earlier.value < j && Clashing(claims[earlier.value], claims[j])
    ensures earlier.None? ==> forall i | 0 <= i < j :: !Clashing(claims[i], claims[j])
  {
    for i := 0 to j
      invariant forall k | 0 <= k < i :: !Clashing(claims[k], claims[j])
    {
      if Clashing(claims[i], claims[j]) {
        return Some(i);
      }
    }
    earlier := None;
  }
}
