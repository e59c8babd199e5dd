/** The few string operations of Go's standard library that the modelled code relies on. */
module Text {
  import opened Wrappers

  /** unicode.IsSpace. */
  predicate IsSpace(c: char) {
    || c in "\t\n\r " || c == '\U{b}' || c == '\U{c}' || c == '\U{85}' || c == '\U{a0}' || c == '\U{1680}'
    || '\U{2000}' <= c <= '\U{200a}' || c in "\U{2028}\U{2029}\U{202f}\U{205f}\U{3000}"
  }

  function TrimLeft(s: string): string {
    if s != [] && IsSpace(s[0]) then TrimLeft(s[1..]) else s
  }

  function TrimRight(s: string): string {
    if s != [] && IsSpace(s[|s| - 1]) then TrimRight(s[..|s| - 1]) else s
  }

  /** strings.TrimSpace. */
  function TrimSpace(s: string): string {
    TrimRight(TrimLeft(s))
  }

  /** strings.Cut at the first space. */
  function CutSpace(s: string): Option<(string, string)> {
    if s == [] then None
    else if s[0] == ' ' then Some(([], s[1..]))
    else
      match CutSpace(s[1..])
      case None => None
      case Some((before, after)) => Some(([s[0]] + before, after))
  }

  function LowerAscii(c: char): char {
    if 'A' <= c <= 'Z' then c - 'A' + 'a' else c
  }

  /** strings.EqualFold against a lower-case word whose letters fold to nothing outside ASCII. */
  predicate EqualFoldAscii(s: string, lower: string) {
    |s| == |lower| && forall i | 0 <= i < |s| :: LowerAscii(s[i]) == lower[i]
  }

  /** strings.CutPrefix. */
  function CutPrefix(s: string, prefix: string): (r: Option<string>)
    ensures forall body :: s == prefix + body <==> r == Some(body)
  {
    if prefix <= s then
      assert s == prefix + s[|prefix|..];
      Some(s[|prefix|..])
    else None
  }

  /** A character of unpadded base64url. */
  predicate UrlSafe(c: char) {
    'A' <= c <= 'Z' || 'a' <= c <= 'z' || '0' <= c <= '9' || c == '-' || c == '_'
  }

  predicate IsBlank(s: string) {
    forall i | 0 <= i < |s| :: IsSpace(s[i])
  }

  predicate HasNoOuterSpace(t: string) {
    t == "" || (!IsSpace(t[0]) && !IsSpace(t[|t| - 1]))
  }

  /** `t` is what stands in `s` between spaces. */
  ghost predicate IsTrimmed(t: string, s: string) {
    HasNoOuterSpace(t) && exists u, v :: IsBlank(u) && IsBlank(v) && s == u + t + v
  }

  lemma {:induction false} TrimLeftSplits(s: string) returns (u: string)
    ensures s == u + TrimLeft(s) && IsBlank(u)
    ensures TrimLeft(s) == "" || !IsSpace(TrimLeft(s)[0])
  {
    if s != [] && IsSpace(s[0]) {
      var first, after := [s[0]], s[1..];
      var rest := TrimLeftSplits(after);
      u := first + rest;
      assert s == first + after && first + (rest + TrimLeft(after)) == u + TrimLeft(after);
    } else {
      u := "";
    }
  }

  lemma {:induction false} TrimRightSplits(s: string) returns (v: string)
    ensures s == TrimRight(s) + v && IsBlank(v)
    ensures TrimRight(s) == "" || !IsSpace(TrimRight(s)[|TrimRight(s)| - 1])
  {
    if s != [] && IsSpace(s[|s| - 1]) {
      var before, last := s[..|s| - 1], [s[|s| - 1]];
      var rest := TrimRightSplits(before);
      v := rest + last;
      assert s == before + last && TrimRight(before) + rest + last == TrimRight(before) + v;
    } else {
      v := "";
    }
  }

  lemma {:induction false} TrimLeftOf(u: string, t: string)
    requires IsBlank(u)
    ensures TrimLeft(u + t) == TrimLeft(t)
  {
    if u == "" {
      assert u + t == t;
    } else {
      assert (u + t)[1..] == u[1..] + t;
      TrimLeftOf(u[1..], t);
    }
  }

  lemma {:induction false} TrimRightOf(t: string, v: string)
    requires IsBlank(v)
    ensures TrimRight(t + v) == TrimRight(t)
  {
    if v == "" {
      assert t + v == t;
    } else {
      assert (t + v)[..|t + v| - 1] == t + v[..|v| - 1];
      TrimRightOf(t, v[..|v| - 1]);
    }
  }

  /** TrimSpace takes away the spaces at both ends, and nothing else. */
  lemma TrimSpaceIff(s: string, t: string)
    ensures TrimSpace(s) == t <==> IsTrimmed(t, s)
  {
    var u := TrimLeftSplits(s);
    var v := TrimRightSplits(TrimLeft(s));
    var trimmed := TrimSpace(s);
    assert s == u + trimmed + v;
    if trimmed != "" {
      assert trimmed[0] == TrimLeft(s)[0];
    }
    assert IsTrimmed(trimmed, s);
    if IsTrimmed(t, s) {
      TrimmedIsTrimSpace(t, s);
    }
  }

  lemma TrimmedIsTrimSpace(t: string, s: string)
    requires IsTrimmed(t, s)
    ensures TrimSpace(s) == t
  {
    var u, v :| IsBlank(u) && IsBlank(v) && s == u + t + v;
    assert u + t + v == u + (t + v);
    TrimLeftOf(u, t + v);
    if t == "" {
      assert t + v == v + "";
      TrimLeftOf(v, "");
    } else {
      assert TrimLeft(t + v) == t + v;
      TrimRightOf(t, v);
    }
  }

  lemma IsTrimmedAlready(t: string)
    requires HasNoOuterSpace(t)
    ensures IsTrimmed(t, t)
  {
    assert IsBlank("") && t == "" + t + "";
  }

  lemma {:induction false} CutSpaceIff(s: string, before: string, after: string)
    ensures CutSpace(s) == Some((before, after)) <==> s == before + " " + after && ' ' !in before
  {
    if s == [] {
    } else if s[0] == ' ' {
      assert before != "" ==> (before + " " + after)[0] == before[0];
      assert before == "" ==> before + " " + after == " " + after && (" " + after)[1..] == after;
      assert s == " " + s[1..];
    } else {
      assert before != "" ==> before == [before[0]] + before[1..] && (before + " " + after)[0] == before[0];
      assert before != "" ==> (before + " " + after)[1..] == before[1..] + " " + after;
      if before != "" {
        CutSpaceIff(s[1..], before[1..], after);
      } else {
        assert (before + " " + after)[0] == ' ';
      }
      assert s == [s[0]] + s[1..];
    }
  }
}
