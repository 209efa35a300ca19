/** String helpers with the meaning the Go standard library gives them. Strings are
    sequences of characters; `p <= s` is Dafny's own prefix test. */
module Text {

  datatype Option<+T> = None | Some(value: T)

  /** The characters strings.TrimSpace removes. */
  predicate IsSpace(c: char) {
    c in "\t\n\U{000B}\U{000C}\r \U{0085}\U{00A0}\U{1680}\U{2028}\U{2029}\U{202F}\U{205F}\U{3000}"
    || '\U{2000}' <= c <= '\U{200A}'
  }

  function TrimLeftSpace(s: string): string {
    if s != "" && IsSpace(s[0]) then TrimLeftSpace(s[1..]) else s
  }

  function TrimRightSpace(s: string): string {
    if s != "" && IsSpace(s[|s| - 1]) then TrimRightSpace(s[..|s| - 1]) else s
  }

  function TrimSpace(s: string): string {
    TrimRightSpace(TrimLeftSpace(s))
  }

  /** strings.TrimRight(s, "/") */
  function TrimRightSlash(s: string): string {
    if s != "" && s[|s| - 1] == '/' then TrimRightSlash(s[..|s| - 1]) else s
  }

  predicate HasSuffix(s: string, suffix: string) {
    |suffix| <= |s| && s[|s| - |suffix|..] == suffix
  }

  function TrimSuffix(s: string, suffix: string): string {
    if HasSuffix(s, suffix) then s[..|s| - |suffix|] else s
  }

  /** The part of s before the first '?' or '#'. */
  function BeforeQuery(s: string): string {
    if s == "" || s[0] in "?#" then "" else [s[0]] + BeforeQuery(s[1..])
  }

  predicate NoSpace(s: string) {
    forall c | c in s :: !IsSpace(c)
  }

  lemma TrimSpaceIsIdentity(s: string)
    requires NoSpace(s)
    ensures TrimSpace(s) == s
  {
    if s != "" {
      assert s[0] in s && s[|s| - 1] in s;
    }
  }

  lemma {:induction false} BeforeQueryIsIdentity(s: string)
    requires '?' !in s && '#' !in s
    ensures BeforeQuery(s) == s
  {
    if s != "" {
      assert s[0] in s;
      BeforeQueryIsIdentity(s[1..]);
    }
  }

  /** Two prefixes of one string are comparable. */
  lemma PrefixesCompare<T>(p: seq<T>, q: seq<T>, s: seq<T>)
    requires p <= s && q <= s && |p| <= |q|
    ensures p <= q
  {
    assert p == s[..|p|] && q == s[..|q|];
    assert q[..|p|] == s[..|p|];
  }

  lemma PrefixTransitive<T>(p: seq<T>, q: seq<T>, s: seq<T>)
    requires p <= q && q <= s
    ensures p <= s
  {
    assert s[..|p|] == q[..|p|];
  }

  // ---- The order Go's < puts on strings ----

  predicate Less(a: string, b: string) {
    b != "" && (a == "" || a[0] < b[0] || (a[0] == b[0] && Less(a[1..], b[1..])))
  }

  lemma {:induction false} LessIsIrreflexive(a: string)
    ensures !Less(a, a)
  {
    if a != "" {
      LessIsIrreflexive(a[1..]);
    }
  }

  lemma {:induction false} LessIsTotal(a: string, b: string)
    ensures Less(a, b) || Less(b, a) || a == b
  {
    if a != "" && b != "" && a[0] == b[0] {
      LessIsTotal(a[1..], b[1..]);
      assert a == [a[0]] + a[1..] && b == [b[0]] + b[1..];
    }
  }

  lemma {:induction false} LessIsTransitive(a: string, b: string, c: string)
    requires Less(a, b) && Less(b, c)
    ensures Less(a, c)
  {
    if a != "" && a[0] == b[0] && b[0] == c[0] {
      LessIsTransitive(a[1..], b[1..], c[1..]);
    }
  }

  lemma LessIsAsymmetric(a: string, b: string)
    requires Less(a, b)
    ensures !Less(b, a)
  {
    if Less(b, a) {
      LessIsTransitive(a, b, a);
      LessIsIrreflexive(a);
    }
  }

  // ---- strings.Join with a separator that no part contains ----

  function Join(parts: seq<string>, sep: char): string {
    if parts == [] then ""
    else if |parts| == 1 then parts[0]
    else parts[0] + [sep] + Join(parts[1..], sep)
  }

  predicate Free(sep: char, parts: seq<string>) {
    forall i | 0 <= i < |parts| :: sep !in parts[i]
  }

  lemma {:induction false} SplitAtSeparator(sep: char, a: string, x: string, b: string, y: string)
    requires sep !in a && sep !in b
    requires a + [sep] + x == b + [sep] + y
    ensures a == b && x == y
  {
    var l := a + [sep] + x;
    var r := b + [sep] + y;
    assert l[0] == if a == "" then sep else a[0];
    assert r[0] == if b == "" then sep else b[0];
    assert (a == "") == (b == "");
    if a == "" {
      assert l[1..] == x && r[1..] == y;
    } else {
      assert l[1..] == a[1..] + [sep] + x && r[1..] == b[1..] + [sep] + y;
      SplitAtSeparator(sep, a[1..], x, b[1..], y);
      assert a == [a[0]] + a[1..] && b == [b[0]] + b[1..];
    }
  }

  /** Joined keys are equal only when every part is. */
  lemma {:induction false} JoinIsInjective(a: seq<string>, b: seq<string>, sep: char)
    requires |a| == |b| && Free(sep, a) && Free(sep, b)
    requires Join(a, sep) == Join(b, sep)
    ensures a == b
  {
    if |a| > 1 {
      SplitAtSeparator(sep, a[0], Join(a[1..], sep), b[0], Join(b[1..], sep));
      JoinIsInjective(a[1..], b[1..], sep);
      assert a == [a[0]] + a[1..] && b == [b[0]] + b[1..];
    }
  }

  // ---- Decimal numerals ----

  function Digit(n: nat): char
    requires n < 10
  {
    "0123456789"[n]
  }

  function Decimal(n: nat): string {
    if n < 10 then [Digit(n)] else Decimal(n / 10) + [Digit(n % 10)]
  }

  lemma {:induction false} DecimalIsInjective(a: nat, b: nat)
    requires Decimal(a) == Decimal(b)
    ensures a == b
    decreases a
  {
    var x, y := Decimal(a), Decimal(b);
    DecimalNonempty(a);
    DecimalNonempty(b);
    assert x[|x| - 1] == Digit(a % 10) && y[|y| - 1] == Digit(b % 10);
    if a >= 10 {
      DecimalNonempty(a / 10);
      assert x[..|x| - 1] == Decimal(a / 10);
      if b >= 10 {
        assert y[..|y| - 1] == Decimal(b / 10);
        DecimalIsInjective(a / 10, b / 10);
      }
    } else if b >= 10 {
      DecimalNonempty(b / 10);
    }
  }

  lemma {:induction false} DecimalNonempty(n: nat)
    ensures Decimal(n) != ""
    ensures forall c | c in Decimal(n) :: c in "0123456789"
  {
    if n >= 10 {
      DecimalNonempty(n / 10);
    }
  }
}
