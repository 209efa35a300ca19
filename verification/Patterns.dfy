/** Request paths and route patterns. */
module Patterns {
  import opened Text

  function NormalizeRequestPath(path: string): string {
    var p := TrimSpace(path);
    if p == "" then "/"
    else
      var q := BeforeQuery(p);
      var r := if "/" <= q then q else "/" + q;
      if |r| > 1 then TrimRightSlash(r) else r
  }

  datatype PatternInfo = PatternInfo(path: string, exact: bool, length: nat)

  function RoutePatternInfo(pattern: string): PatternInfo {
    var p := TrimSpace(pattern);
    if p == "" || p == "/" || p == "/*" then PatternInfo("/", false, 0)
    else if HasSuffix(p, "/*") then
      var prefix := NormalizeRequestPath(TrimSuffix(p, "/*"));
      PatternInfo(prefix, false, |prefix|)
    else PatternInfo(NormalizeRequestPath(p), true, |NormalizeRequestPath(p)|)
  }

  // ---- The canonical forms validation lets through ----

  /** An absolute path without query, wildcard, empty segment or trailing slash. */
  predicate CanonicalPath(p: string) {
    && "/" <= p && NoSpace(p) && '?' !in p && '#' !in p && '*' !in p
    && (forall i | 0 <= i < |p| - 1 :: !(p[i] == '/' && p[i + 1] == '/'))
    && (p == "/" || p[|p| - 1] != '/')
  }

  // A lone wildcard, a canonical path, or a non-root canonical path and a wildcard.
  predicate CanonicalPattern(p: string) {
    p == "/*" || CanonicalPath(p)
      || (HasSuffix(p, "/*") && CanonicalPath(TrimSuffix(p, "/*")) && TrimSuffix(p, "/*") != "/")
  }

  lemma CanonicalPathIsNormal(p: string)
    requires CanonicalPath(p)
    ensures NormalizeRequestPath(p) == p && TrimSpace(p) == p
    ensures !HasSuffix(p, "/*")
  {
    TrimSpaceIsIdentity(p);
    BeforeQueryIsIdentity(p);
    assert |p| >= 2 ==> p[|p| - 1] in p && p[|p| - 2..][1] == p[|p| - 1];
  }

  lemma WildcardPatternInfo(base: string)
    requires CanonicalPath(base) && base != "/"
    ensures var p := base + "/*";
      && TrimSpace(p) == p && HasSuffix(p, "/*") && TrimSuffix(p, "/*") == base
      && RoutePatternInfo(p) == PatternInfo(base, false, |base|)
  {
    var p := base + "/*";
    assert NoSpace(p) by {
      assert forall c | c in p :: c in base || c == '/' || c == '*';
    }
    TrimSpaceIsIdentity(p);
    CanonicalPathIsNormal(base);
    assert p[|p| - 2..] == "/*";
    assert |base| > 0 ==> p != "/*";
  }

  lemma RootPatternInfo()
    ensures TrimSpace("/*") == "/*" && HasSuffix("/*", "/*")
    ensures RoutePatternInfo("/*") == PatternInfo("/", false, 0)
  {
    TrimSpaceIsIdentity("/*");
  }

  /** What a canonical pattern means. */
  lemma CanonicalPatternInfo(p: string)
    requires CanonicalPattern(p)
    ensures TrimSpace(p) == p
    ensures p == "/*" || p == "/" ==> RoutePatternInfo(p) == PatternInfo("/", false, 0)
    ensures p != "/" && !HasSuffix(p, "/*") ==> CanonicalPath(p) && RoutePatternInfo(p) == PatternInfo(p, true, |p|)
    ensures p != "/*" && HasSuffix(p, "/*") ==>
      var base := TrimSuffix(p, "/*");
      CanonicalPath(base) && base != "/" && p == base + "/*" && RoutePatternInfo(p) == PatternInfo(base, false, |base|)
    ensures CanonicalPath(RoutePatternInfo(p).path)
  {
    RootPatternInfo();
    if p != "/*" {
      if CanonicalPath(p) {
        CanonicalPathIsNormal(p);
      } else {
        var base := TrimSuffix(p, "/*");
        assert p == base + "/*";
        WildcardPatternInfo(base);
      }
    }
  }

  /** A request path as the resolver sees it after normalisation. */
  predicate NormalPath(path: string) {
    NormalizeRequestPath(path) == path
  }

  lemma NormalPathIsAbsolute(path: string)
    requires NormalPath(path)
    ensures path != "" && path[0] == '/'
    ensures |path| > 1 ==> path[|path| - 1] != '/'
  {
    var p := TrimSpace(path);
    if p != "" {
      var q := BeforeQuery(p);
      var r := if "/" <= q then q else "/" + q;
      assert r[0] == '/';
      assert path == if |r| > 1 then TrimRightSlash(r) else r;
      TrimRightSlashEnds(r);
      if path == "" {
        assert false;
      }
      assert path <= r ==> path[0] == r[0];
    }
  }

  lemma {:induction false} TrimRightSlashEnds(s: string)
    ensures TrimRightSlash(s) <= s
    ensures TrimRightSlash(s) != "" ==> TrimRightSlash(s)[|TrimRightSlash(s)| - 1] != '/'
  {
    if s != "" && s[|s| - 1] == '/' {
      TrimRightSlashEnds(s[..|s| - 1]);
    }
  }
}
