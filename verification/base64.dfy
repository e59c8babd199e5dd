/**
 Unpadded base64url (RFC 4648 section 5) as Go's encoding/base64 reads and writes it. Its decoder skips line breaks and
 ignores the spare bits of the last character, so one byte string has many spellings.
 */
module Base64 {
  import opened Octets
  import opened Text
  import opened Wrappers

  const ALPHABET := "ABCDEFGHIJKLMNOPQRSTUVWXYZabcdefghijklmnopqrstuvwxyz0123456789-_"

  function DigitOf(c: char): (r: Option<int>)
    ensures r.Some? ==> 0 <= r.value < 64
  {
    if 'A' <= c <= 'Z' then Some((c - 'A') as int)
    else if 'a' <= c <= 'z' then Some((c - 'a') as int + 26)
    else if '0' <= c <= '9' then Some((c - '0') as int + 52)
    else if c == '-' then Some(62)
    else if c == '_' then Some(63)
    else None
  }

  predicate IsSextet(d: int) {
    0 <= d < 64
  }

  function CharOf(d: int): (c: char)
    requires IsSextet(d)
    ensures DigitOf(c) == Some(d) && UrlSafe(c)
  {
    if d < 26 then 'A' + d as char
    else if d < 52 then 'a' + (d - 26) as char
    else if d < 62 then '0' + (d - 52) as char
    else if d == 62 then '-'
    else '_'
  }

  /** The digits of a text, line breaks skipped; nothing when any other character occurs. */
  function Digits(text: string): (r: Option<seq<int>>)
    ensures r.Some? ==> forall i | 0 <= i < |r.value| :: IsSextet(r.value[i])
  {
    if text == [] then Some([])
    else if text[|text| - 1] in "\r\n" then Digits(text[..|text| - 1])
    else
      var before, last := Digits(text[..|text| - 1]), DigitOf(text[|text| - 1]);
      if before.Some? && last.Some? then Some(before.value + [last.value]) else None
  }

  function First(d0: int, d1: int): byte
    requires IsSextet(d0) && IsSextet(d1)
  {
    (d0 * 4 + d1 / 16) as byte
  }

  function Second(d1: int, d2: int): byte
    requires IsSextet(d1) && IsSextet(d2)
  {
    (d1 % 16 * 16 + d2 / 4) as byte
  }

  function Third(d2: int, d3: int): byte
    requires IsSextet(d2) && IsSextet(d3)
  {
    (d2 % 4 * 64 + d3) as byte
  }

  /** The bytes of up to four sextets: two or three leave spare bits, and one alone is refused. */
  function JoinQuantum(s: seq<int>): Option<seq<byte>>
    requires 0 < |s| <= 4 && forall i | 0 <= i < |s| :: IsSextet(s[i])
  {
    if |s| == 1 then None
    else if |s| == 2 then Some([First(s[0], s[1])])
    else if |s| == 3 then Some([First(s[0], s[1]), Second(s[1], s[2])])
    else Some([First(s[0], s[1]), Second(s[1], s[2]), Third(s[2], s[3])])
  }

  function Join(s: seq<int>): Option<seq<byte>>
    requires forall i | 0 <= i < |s| :: IsSextet(s[i])
  {
    if s == [] then Some([])
    else if |s| <= 4 then JoinQuantum(s)
    else
      var quantum, rest := JoinQuantum(s[..4]), Join(s[4..]);
      if rest.None? then None else Some(quantum.value + rest.value)
  }

  function Decode(text: string): Option<seq<byte>> {
    var digits := Digits(text);
    if digits.None? then None else Join(digits.value)
  }

  // The four sextets of three bytes; of fewer bytes, the first two or three of them.
  function S0(b0: byte): (d: int)
    ensures IsSextet(d)
  {
    b0 as int / 4
  }

  function S1(b0: byte, b1: byte): (d: int)
    ensures IsSextet(d)
  {
    b0 as int % 4 * 16 + b1 as int / 16
  }

  function S2(b1: byte, b2: byte): (d: int)
    ensures IsSextet(d)
  {
    b1 as int % 16 * 4 + b2 as int / 64
  }

  function S3(b2: byte): (d: int)
    ensures IsSextet(d)
  {
    b2 as int % 64
  }

  function SplitQuantum(b: seq<byte>): (s: seq<int>)
    requires 0 < |b| <= 3
    ensures |s| == |b| + 1 && forall i | 0 <= i < |s| :: IsSextet(s[i])
  {
    if |b| == 1 then [S0(b[0]), S1(b[0], 0)]
    else if |b| == 2 then [S0(b[0]), S1(b[0], b[1]), S2(b[1], 0)]
    else [S0(b[0]), S1(b[0], b[1]), S2(b[1], b[2]), S3(b[2])]
  }

  function Split(bytes: seq<byte>): (s: seq<int>)
    ensures forall i | 0 <= i < |s| :: IsSextet(s[i])
    ensures bytes != [] ==> s != []
  {
    if bytes == [] then []
    else if |bytes| <= 3 then SplitQuantum(bytes)
    else SplitQuantum(bytes[..3]) + Split(bytes[3..])
  }

  function Spell(s: seq<int>): (text: string)
    requires forall i | 0 <= i < |s| :: IsSextet(s[i])
    ensures |text| == |s| && forall i | 0 <= i < |s| :: text[i] == CharOf(s[i])
  {
    seq(|s|, i requires 0 <= i < |s| => CharOf(s[i]))
  }

  function Encode(bytes: seq<byte>): (text: string)
    ensures bytes != [] ==> text != []
    ensures forall i | 0 <= i < |text| :: UrlSafe(text[i])
  {
    Spell(Split(bytes))
  }

  lemma {:induction false} SpellingIsRead(s: seq<int>)
    requires forall i | 0 <= i < |s| :: IsSextet(s[i])
    ensures Digits(Spell(s)) == Some(s)
  {
    if s != [] {
      var n := |s| - 1;
      SpellingIsRead(s[..n]);
      assert Spell(s)[..n] == Spell(s[..n]);
      assert s == s[..n] + [s[n]];
    }
  }

  lemma BitsRejoin(b0: byte, b1: byte, b2: byte)
    ensures First(S0(b0), S1(b0, b1)) == b0
    ensures Second(S1(b0, b1), S2(b1, b2)) == b1
    ensures Third(S2(b1, b2), S3(b2)) == b2
  {
  }

  lemma QuantumIsJoined(b: seq<byte>)
    requires 0 < |b| <= 3
    ensures JoinQuantum(SplitQuantum(b)) == Some(b)
  {
    if |b| == 1 {
      OneIsJoined(b, 0, SplitQuantum(b));
    } else if |b| == 2 {
      TwoAreJoined(b, SplitQuantum(b));
    } else {
      ThreeAreJoined(b, SplitQuantum(b));
    }
  }

  lemma OneIsJoined(b: seq<byte>, next: byte, s: seq<int>)
    requires |b| == 1 && s == [S0(b[0]), S1(b[0], next)]
    ensures JoinQuantum(s) == Some(b)
  {
    BitsRejoin(b[0], next, next);
    var r := JoinQuantum(s).value;
    assert |r| == 1 && r[0] == b[0];
    assert r == b;
  }

  lemma TwoAreJoined(b: seq<byte>, s: seq<int>)
    requires |b| == 2 && s == [S0(b[0]), S1(b[0], b[1]), S2(b[1], 0)]
    ensures JoinQuantum(s) == Some(b)
  {
    BitsRejoin(b[0], b[1], 0);
    var r := JoinQuantum(s).value;
    assert |r| == 2 && r[0] == b[0] && r[1] == b[1];
    assert r == b;
  }

  lemma ThreeAreJoined(b: seq<byte>, s: seq<int>)
    requires |b| == 3 && s == [S0(b[0]), S1(b[0], b[1]), S2(b[1], b[2]), S3(b[2])]
    ensures JoinQuantum(s) == Some(b)
  {
    BitsRejoin(b[0], b[1], b[2]);
    var r := JoinQuantum(s).value;
    assert |r| == 3 && r[0] == b[0] && r[1] == b[1] && r[2] == b[2];
    assert r == b;
  }

  lemma {:induction false} SplitIsJoined(bytes: seq<byte>)
    ensures Join(Split(bytes)) == Some(bytes)
  {
    if bytes == [] {
    } else if |bytes| <= 3 {
      QuantumIsJoined(bytes);
    } else {
      var head, tail := SplitQuantum(bytes[..3]), Split(bytes[3..]);
      QuantumIsJoined(bytes[..3]);
      SplitIsJoined(bytes[3..]);
      assert (head + tail)[..4] == head && (head + tail)[4..] == tail;
      assert bytes == bytes[..3] + bytes[3..];
    }
  }

  /** What was written is read back. */
  lemma EncodedIsDecoded(bytes: seq<byte>)
    ensures Decode(Encode(bytes)) == Some(bytes)
  {
    SpellingIsRead(Split(bytes));
    SplitIsJoined(bytes);
  }

  lemma {:induction false} DigitsSkip(before: string, c: char, after: string)
    requires c in "\r\n"
    ensures Digits(before + [c] + after) == Digits(before + after)
  {
    if after == "" {
      assert before + [c] + after == before + [c] && before + after == before;
      assert (before + [c])[..|before|] == before;
    } else {
      var front, last := after[..|after| - 1], after[|after| - 1];
      var long, short := before + [c] + after, before + after;
      assert long[..|long| - 1] == before + [c] + front && short[..|short| - 1] == before + front;
      assert long[|long| - 1] == short[|short| - 1] == last;
      DigitsSkip(before, c, front);
    }
  }

  /** Line breaks are not noticed, wherever they stand: every byte string has more than one spelling. */
  lemma LineBreaksAreSkipped(before: string, c: char, after: string)
    requires c in "\r\n"
    ensures Decode(before + [c] + after) == Decode(before + after)
  {
    DigitsSkip(before, c, after);
  }

  lemma LineBreakIsSkipped(text: string)
    ensures Decode(text + "\n") == Decode(text)
  {
    LineBreaksAreSkipped(text, '\n', "");
    assert text + ['\n'] + "" == text + "\n" && text + "" == text;
  }

  lemma {:induction false} LastQuantumCounts(s: seq<int>, t: seq<int>, u: seq<int>)
    requires |s| % 4 == 0 && 0 < |t| == |u| < 4
    requires forall i | 0 <= i < |s| :: IsSextet(s[i])
    requires (forall i | 0 <= i < |t| :: IsSextet(t[i])) && (forall i | 0 <= i < |u| :: IsSextet(u[i]))
    requires JoinQuantum(t) == JoinQuantum(u)
    ensures Join(s + t) == Join(s + u)
  {
    if s == [] {
      assert s + t == t && s + u == u;
    } else {
      assert (s + t)[..4] == s[..4] == (s + u)[..4];
      assert (s + t)[4..] == s[4..] + t && (s + u)[4..] == s[4..] + u;
      LastQuantumCounts(s[4..], t, u);
    }
  }

  /** Nor are the bits of a last digit that no byte uses: four of them where one byte fills two digits, two where two
      bytes fill three. */
  lemma SpareBitsAreIgnored(s: seq<int>, t: seq<int>, d: int, e: int)
    requires |s| % 4 == 0 && 1 <= |t| <= 2 && IsSextet(d) && IsSextet(e)
    requires (forall i | 0 <= i < |s| :: IsSextet(s[i])) && (forall i | 0 <= i < |t| :: IsSextet(t[i]))
    requires if |t| == 1 then d / 16 == e / 16 else d / 4 == e / 4
    ensures Decode(Spell(s + t + [d])) == Decode(Spell(s + t + [e]))
  {
    LastQuantumCounts(s, t + [d], t + [e]);
    assert s + (t + [d]) == s + t + [d] && s + (t + [e]) == s + t + [e];
    SpellingIsRead(s + t + [d]);
    SpellingIsRead(s + t + [e]);
  }
}
