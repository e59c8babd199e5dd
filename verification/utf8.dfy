/**
 UTF-8 as RFC 3629 defines it: the syntax of section 4, which utf8.Valid decides, and the encoding of section 3,
 with the proof that the two describe the same byte strings.
 */
module Utf8 {
  import opened Octets

  predicate IsTail(b: byte) {
    0x80 <= b <= 0xBF
  }

  /** How many bytes a character has that starts with this byte; 0 when none does. */
  function LeadLength(b: byte): (n: nat)
    ensures n <= 4
  {
    if b <= 0x7F then 1
    else if 0xC2 <= b <= 0xDF then 2
    else if 0xE0 <= b <= 0xEF then 3
    else if 0xF0 <= b <= 0xF4 then 4
    else 0
  }

  /** The bytes of one character (RFC 3629 section 4). */
  predicate IsCharacter(bytes: seq<byte>)
    requires |bytes| > 0
  {
    && |bytes| == LeadLength(bytes[0])
    && (forall i | 0 < i < |bytes| :: IsTail(bytes[i]))
    && (bytes[0] == 0xE0 ==> bytes[1] >= 0xA0)
    && (bytes[0] == 0xED ==> bytes[1] <= 0x9F)
    && (bytes[0] == 0xF0 ==> bytes[1] >= 0x90)
    && (bytes[0] == 0xF4 ==> bytes[1] <= 0x8F)
  }

  /** The length of the well-formed character that starts the data, or 0 when none does. */
  function FirstLength(data: seq<byte>): (n: nat)
    ensures n <= 4 && n <= |data|
  {
    if |data| == 0 then 0
    else
      var n := LeadLength(data[0]);
      if 0 < n <= |data| && IsCharacter(data[..n]) then n else 0
  }

  /** utf8.Valid. */
  predicate Valid(data: seq<byte>)
    decreases |data|
  {
    |data| == 0 || (FirstLength(data) > 0 && Valid(data[FirstLength(data)..]))
  }

  // ----- the encoding (section 3) -----

  predicate IsScalar(c: int) {
    0 <= c <= 0x10FFFF && !(0xD800 <= c <= 0xDFFF)
  }

  function Encode(c: int): (bytes: seq<byte>)
    requires IsScalar(c)
    ensures 1 <= |bytes| <= 4
  {
    if c < 0x80 then [c as byte]
    else if c < 0x800 then [(0xC0 + c / 64) as byte, Continuation(c)]
    else if c < 0x1_0000 then [(0xE0 + c / 4096) as byte, Continuation(c / 64), Continuation(c)]
    else [(0xF0 + c / 262144) as byte, Continuation(c / 4096), Continuation(c / 64), Continuation(c)]
  }

  function Continuation(c: int): byte {
    (0x80 + c % 64) as byte
  }

  predicate AreScalars(s: seq<int>) {
    forall i | 0 <= i < |s| :: IsScalar(s[i])
  }

  function EncodeAll(s: seq<int>): seq<byte>
    requires AreScalars(s)
  {
    if s == [] then [] else Encode(s[0]) + EncodeAll(s[1..])
  }

  /** The character whose encoding starts the data. */
  function FirstScalar(data: seq<byte>): (c: int)
    requires FirstLength(data) > 0
  {
    var n := FirstLength(data);
    if n == 1 then data[0] as int
    else if n == 2 then (data[0] as int - 0xC0) * 64 + Payload(data[1])
    else if n == 3 then (data[0] as int - 0xE0) * 4096 + Payload(data[1]) * 64 + Payload(data[2])
    else (data[0] as int - 0xF0) * 262144 + Payload(data[1]) * 4096 + Payload(data[2]) * 64 + Payload(data[3])
  }

  function Payload(b: byte): int {
    b as int - 0x80
  }

  lemma FirstIsEncoded(data: seq<byte>)
    requires FirstLength(data) > 0
    ensures IsScalar(FirstScalar(data))
    ensures Encode(FirstScalar(data)) == data[..FirstLength(data)]
  {
    var n := FirstLength(data);
    if n == 2 {
      FirstOfTwo(data);
    } else if n == 3 {
      FirstOfThree(data);
    } else if n == 4 {
      FirstOfFour(data);
    }
  }

  lemma FirstOfTwo(data: seq<byte>)
    requires FirstLength(data) == 2
    ensures IsScalar(FirstScalar(data)) && Encode(FirstScalar(data)) == data[..2]
  {
    assert FirstScalar(data) / 64 == data[0] as int - 0xC0;
  }

  lemma FirstOfThree(data: seq<byte>)
    requires FirstLength(data) == 3
    ensures IsScalar(FirstScalar(data)) && Encode(FirstScalar(data)) == data[..3]
  {
    var c := FirstScalar(data);
    assert c / 64 == (data[0] as int - 0xE0) * 64 + Payload(data[1]);
    assert c / 4096 == data[0] as int - 0xE0;
  }

  lemma FirstOfFour(data: seq<byte>)
    requires FirstLength(data) == 4
    ensures IsScalar(FirstScalar(data)) && Encode(FirstScalar(data)) == data[..4]
  {
    var c := FirstScalar(data);
    assert c / 64 == (data[0] as int - 0xF0) * 4096 + Payload(data[1]) * 64 + Payload(data[2]);
    assert c / 4096 == (data[0] as int - 0xF0) * 64 + Payload(data[1]);
    assert c / 262144 == data[0] as int - 0xF0;
  }

  lemma EncodedIsFirst(c: int, rest: seq<byte>)
    requires IsScalar(c)
    ensures FirstLength(Encode(c) + rest) == |Encode(c)|
    ensures FirstScalar(Encode(c) + rest) == c
  {
    var data := Encode(c) + rest;
    assert data[..|Encode(c)|] == Encode(c);
    EncodedReadsBack(c);
    assert forall i | 0 <= i < |Encode(c)| :: data[i] == Encode(c)[i];
  }

  /** The encoding of one character is that character and nothing more. */
  lemma EncodedReadsBack(c: int)
    requires IsScalar(c)
    ensures IsCharacter(Encode(c)) && FirstLength(Encode(c)) == |Encode(c)| && FirstScalar(Encode(c)) == c
  {
    assert Encode(c)[..|Encode(c)|] == Encode(c);
    if 0x800 <= c < 0x1_0000 {
      ThreeReadBack(c);
    } else if 0x1_0000 <= c {
      FourReadBack(c);
    }
  }

  lemma ThreeReadBack(c: int)
    requires IsScalar(c) && 0x800 <= c < 0x1_0000
    ensures IsCharacter(Encode(c)) && FirstLength(Encode(c)) == 3 && FirstScalar(Encode(c)) == c
  {
    assert Encode(c)[..3] == Encode(c);
    assert c / 64 == c / 4096 * 64 + c / 64 % 64;
  }

  lemma FourReadBack(c: int)
    requires IsScalar(c) && 0x1_0000 <= c
    ensures IsCharacter(Encode(c)) && FirstLength(Encode(c)) == 4 && FirstScalar(Encode(c)) == c
  {
    assert Encode(c)[..4] == Encode(c);
    assert c / 64 == c / 4096 * 64 + c / 64 % 64;
    assert c / 4096 == c / 262144 * 64 + c / 4096 % 64;
  }

  /** The characters of a valid byte string. */
  function Decode(data: seq<byte>): seq<int>
    requires Valid(data)
    decreases |data|
  {
    if |data| == 0 then [] else [FirstScalar(data)] + Decode(data[FirstLength(data)..])
  }

  lemma EncodeCons(data: seq<byte>, n: nat, c: int, s: seq<int>)
    requires IsScalar(c) && AreScalars(s) && n <= |data|
    requires Encode(c) == data[..n] && EncodeAll(s) == data[n..]
    ensures AreScalars([c] + s) && EncodeAll([c] + s) == data
  {
    assert ([c] + s)[1..] == s;
    assert data == data[..n] + data[n..];
  }

  /** Valid accepts nothing but encodings. */
  lemma {:induction false} ValidIsEncoded(data: seq<byte>)
    requires Valid(data)
    ensures AreScalars(Decode(data)) && EncodeAll(Decode(data)) == data
    decreases |data|
  {
    if |data| > 0 {
      var n := FirstLength(data);
      FirstIsEncoded(data);
      ValidIsEncoded(data[n..]);
      EncodeCons(data, n, FirstScalar(data), Decode(data[n..]));
    }
  }

  /** Valid accepts every encoding, and the characters can be read back. */
  lemma {:induction false} EncodedIsValid(s: seq<int>)
    requires AreScalars(s)
    ensures Valid(EncodeAll(s)) && Decode(EncodeAll(s)) == s
    decreases |s|
  {
    if s != [] {
      var rest := EncodeAll(s[1..]);
      EncodedIsValid(s[1..]);
      EncodedIsFirst(s[0], rest);
      assert EncodeAll(s)[|Encode(s[0])|..] == rest;
      assert s == [s[0]] + s[1..];
    }
  }

  /** What utf8.Valid accepts is exactly what some sequence of Unicode scalar values encodes to. */
  lemma ValidIff(data: seq<byte>)
    ensures Valid(data) <==> exists s :: AreScalars(s) && EncodeAll(s) == data
  {
    if Valid(data) {
      ValidIsEncoded(data);
    } else if s :| AreScalars(s) && EncodeAll(s) == data {
      EncodedIsValid(s);
    }
  }

  // ----- cutting -----

  /** A character is complete or not by its own bytes. */
  lemma FirstDependsOnItself(data: seq<byte>, n: nat)
    requires FirstLength(data) <= n <= |data|
    ensures FirstLength(data) > 0 ==> FirstLength(data[..n]) == FirstLength(data)
  {
    assert data[..n][..FirstLength(data)] == data[..FirstLength(data)];
  }

  lemma SliceOfRest(data: seq<byte>, k: nat, m: nat, n: nat)
    requires k <= m <= n <= |data|
    ensures data[..m][k..] == data[k..][..m - k]
    ensures data[m..n] == data[k..][m - k..n - k]
  {
  }

  lemma ValidCons(data: seq<byte>, k: nat)
    requires k == FirstLength(data) > 0 && Valid(data[k..])
    ensures Valid(data)
  {
  }

  lemma CutAfterFirst(data: seq<byte>, n: nat, cut: nat)
    requires FirstLength(data) > 0 && FirstLength(data) + cut <= n <= |data|
    requires var k := FirstLength(data); Valid(data[k..][..n - k - cut])
    ensures var k := FirstLength(data); data[n - cut..n] == data[k..][n - k - cut..n - k]
    ensures Valid(data[..n - cut])
  {
    var k := FirstLength(data);
    SliceOfRest(data, k, n - cut, n);
    FirstDependsOnItself(data, n - cut);
    ValidCons(data[..n - cut], k);
  }

  /** Some bytes at the beginning of a character, but not all of them. */
  ghost predicate IsPart(part: seq<byte>) {
    exists c :: IsScalar(c) && part < Encode(c)
  }

  lemma CutInsideFirst(data: seq<byte>, n: nat)
    requires n < FirstLength(data)
    ensures data[n - n..n] == data[..n] && IsPart(data[..n])
    ensures n <= 3 && Valid(data[..n - n])
  {
    FirstIsEncoded(data);
    assert data[..n] < Encode(FirstScalar(data));
  }

  /** A valid string cut anywhere is a valid string and at most three bytes of one more character. */
  lemma {:induction false} CutLeavesPrefix(data: seq<byte>, n: nat) returns (cut: nat)
    requires Valid(data) && n <= |data|
    ensures cut <= 3 && cut <= n && Valid(data[..n - cut])
    ensures cut > 0 ==> IsPart(data[n - cut..n])
    decreases |data|
  {
    var k := FirstLength(data);
    if n == 0 {
      cut := 0;
    } else if n < k {
      cut := n;
      CutInsideFirst(data, n);
    } else {
      cut := CutLeavesPrefix(data[k..], n - k);
      CutAfterFirst(data, n, cut);
    }
  }

  lemma FirstStays(a: seq<byte>, b: seq<byte>)
    requires FirstLength(a) > 0
    ensures FirstLength(a + b) == FirstLength(a)
  {
    assert (a + b)[..FirstLength(a)] == a[..FirstLength(a)];
  }

  lemma {:induction false} ValidConcat(a: seq<byte>, b: seq<byte>)
    requires Valid(a) && Valid(b)
    ensures Valid(a + b)
    decreases |a|
  {
    if a == [] {
      assert a + b == b;
    } else {
      var k := FirstLength(a);
      ValidConcat(a[k..], b);
      assert (a + b)[k..] == a[k..] + b;
      FirstStays(a, b);
    }
  }
}
