/** The fragment of regular expressions Rementor generates, read the way nginx's PCRE
    engine reads it. A `$` matches at the end of the subject and also just before one
    final newline, which is PCRE's default. */
module Regex {
  import opened Text

  const META := "\\.+*?()|[]{}^$"

  /** regexp.QuoteMeta */
  function QuoteMeta(s: string): string {
    if s == "" then ""
    else (if s[0] in META then ['\\', s[0]] else [s[0]]) + QuoteMeta(s[1..])
  }

  /** Whether the alternative re, anchored at the start of s, matches. */
  predicate MatchesHere(re: string, s: string)
    decreases |re|
  {
    if re == "" then true
    else if re[0] == '\\' && |re| >= 2 then s != "" && s[0] == re[1] && MatchesHere(re[2..], s[1..])
    else if re[0] == '$' then (s == "" || s == "\n") && MatchesHere(re[1..], s)
    else s != "" && s[0] == re[0] && MatchesHere(re[1..], s[1..])
  }

  /** Splits at the unescaped '|'. */
  function Alternatives(re: string): (alternatives: seq<string>)
    ensures alternatives != []
  {
    if re == "" then [""]
    else if re[0] == '|' then [""] + Alternatives(re[1..])
    else
      var k := if re[0] == '\\' && |re| >= 2 then 2 else 1;
      var rest := Alternatives(re[k..]);
      [re[..k] + rest[0]] + rest[1..]
  }

  predicate MatchesAny(alternatives: seq<string>, s: string) {
    exists i | 0 <= i < |alternatives| :: MatchesHere(alternatives[i], s)
  }

  /** `^(?:a|b|...)` and `^a`, the two forms the generated configuration uses. */
  predicate Matches(re: string, s: string) {
    if |re| >= 5 && re[..4] == "^(?:" && re[|re| - 1] == ')' then
      MatchesAny(Alternatives(re[4..|re| - 1]), s)
    else
      re != "" && re[0] == '^' && MatchesHere(re[1..], s)
  }

  /** A quoted string matches itself, literally, as a prefix. */
  lemma {:induction false} QuotedThen(p: string, tail: string, s: string)
    ensures MatchesHere(QuoteMeta(p) + tail, s) <==> p <= s && MatchesHere(tail, s[|p|..])
  {
    var re := QuoteMeta(p) + tail;
    if p == "" {
      assert re == tail && s[0..] == s;
    } else {
      var k := if p[0] in META then 2 else 1;
      assert re[k..] == QuoteMeta(p[1..]) + tail;
      if s != "" && s[0] == p[0] {
        QuotedThen(p[1..], tail, s[1..]);
        assert p == [p[0]] + p[1..] && s == [s[0]] + s[1..];
        assert p <= s <==> p[1..] <= s[1..];
        if p <= s {
          assert s[1..][|p[1..]|..] == s[|p|..];
        }
      } else {
        assert !(p <= s);
        assert !MatchesHere(re, s);
      }
    }
  }

  lemma QuotedPrefix(p: string, s: string)
    ensures MatchesHere(QuoteMeta(p), s) <==> p <= s
  {
    QuotedThen(p, "", s);
    assert QuoteMeta(p) + "" == QuoteMeta(p);
  }

  /** With `$` a quoted string matches itself, and itself followed by one newline. */
  lemma QuotedExact(p: string, s: string)
    ensures MatchesHere(QuoteMeta(p) + "$", s) <==> s == p || s == p + "\n"
  {
    QuotedThen(p, "$", s);
    if p <= s {
      assert s == p + s[|p|..];
      assert MatchesHere("$", s[|p|..]) <==> s[|p|..] == "" || s[|p|..] == "\n";
      assert s == p + "\n" ==> s[|p|..] == "\n";
    }
  }

  predicate IsQuoted(alternative: string, p: string) {
    alternative == QuoteMeta(p) || alternative == QuoteMeta(p) + "$"
  }

  lemma {:induction false} AlternativesAfterQuoted(p: string, tail: string)
    ensures Alternatives(QuoteMeta(p) + tail)
         == [QuoteMeta(p) + Alternatives(tail)[0]] + Alternatives(tail)[1..]
  {
    var re := QuoteMeta(p) + tail;
    if p == "" {
      assert re == tail;
      assert QuoteMeta(p) + Alternatives(tail)[0] == Alternatives(tail)[0];
    } else {
      var k := if p[0] in META then 2 else 1;
      assert re[k..] == QuoteMeta(p[1..]) + tail;
      AlternativesAfterQuoted(p[1..], tail);
      assert QuoteMeta(p) == re[..k] + QuoteMeta(p[1..]);
      var rest := Alternatives(tail);
      calc {
        re[..k] + (QuoteMeta(p[1..]) + rest[0]);
        (re[..k] + QuoteMeta(p[1..])) + rest[0];
        QuoteMeta(p) + rest[0];
      }
    }
  }

  lemma AlternativesAfterEnd(end: string, rest: string)
    requires end == "" || end == "$"
    ensures Alternatives(end + "|" + rest) == [end] + Alternatives(rest)
  {
    var bar := "|" + rest;
    assert bar[1..] == rest;
    assert Alternatives(bar) == [""] + Alternatives(rest);
    if end == "" {
      assert end + "|" + rest == bar;
    } else {
      var re := end + "|" + rest;
      assert re[1..] == bar && re[..1] == "$";
      assert "$" + "" == "$";
      assert Alternatives(re) == ["$"] + Alternatives(bar)[1..];
    }
  }

  lemma AlternativesSplitOff(alternative: string, p: string, rest: string)
    requires IsQuoted(alternative, p)
    ensures Alternatives(alternative + "|" + rest) == [alternative] + Alternatives(rest)
  {
    var end := if alternative == QuoteMeta(p) then "" else "$";
    AlternativesAfterEnd(end, rest);
    assert alternative == QuoteMeta(p) + end;
    assert alternative + "|" + rest == QuoteMeta(p) + (end + "|" + rest);
    AlternativesAfterQuoted(p, end + "|" + rest);
  }

  lemma AlternativesOfOne(alternative: string, p: string)
    requires IsQuoted(alternative, p)
    ensures Alternatives(alternative) == [alternative]
  {
    var end := if alternative == QuoteMeta(p) then "" else "$";
    assert alternative == QuoteMeta(p) + end;
    assert end == "$" ==> Alternatives(end[1..]) == [""] && end[..1] + "" == end;
    assert Alternatives(end) == [end];
    AlternativesAfterQuoted(p, end);
  }

  /** Splitting undoes joining: quoting leaves no unescaped '|' behind. */
  lemma {:induction false} AlternativesOfJoin(alternatives: seq<string>, literals: seq<string>)
    requires 0 < |alternatives| == |literals|
    requires forall i | 0 <= i < |literals| :: IsQuoted(alternatives[i], literals[i])
    ensures Alternatives(Join(alternatives, '|')) == alternatives
  {
    if |alternatives| == 1 {
      AlternativesOfOne(alternatives[0], literals[0]);
    } else {
      AlternativesOfJoin(alternatives[1..], literals[1..]);
      AlternativesSplitOff(alternatives[0], literals[0], Join(alternatives[1..], '|'));
    }
  }
}
