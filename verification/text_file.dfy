/**
 Reading a text file of bounded size: the cut Download makes (internal/truenas/download.go:66-76) and the test that
 tells text from binary (internal/server/read_file.go:46-64).
 */
module TextFile {
  import opened Octets
  import opened Utf8

  const UTF_MAX := 4

  datatype Download = Download(data: seq<byte>, truncated: bool)

  /** One byte more than the limit is read, so that a longer body shows; the extra byte is cut off again. */
  method ReadBounded(body: seq<byte>, max: nat) returns (r: Download)
    ensures r == Cut(body, max)
  {
    var data := if |body| > max + 1 then body[..max + 1] else body;
    if |data| > max {
      return Download(data[..max], true);
    }
    return Download(data, false);
  }

  /** The first bytes of the body up to the limit, and whether there were more. */
  function Cut(body: seq<byte>, max: nat): Download {
    if |body| <= max then Download(body, false) else Download(body[..max], true)
  }

  predicate ValidWithout(data: seq<byte>, cut: int) {
    0 <= cut <= |data| && Valid(data[..|data| - cut])
  }

  predicate IsTextData(data: seq<byte>, truncated: bool) {
    && 0 !in data
    && (Valid(data) || (truncated && exists cut | 0 < cut < UTF_MAX :: ValidWithout(data, cut)))
  }

  method IsText(data: seq<byte>, truncated: bool) returns (ok: bool)
    ensures ok <==> IsTextData(data, truncated)
  {
    for i := 0 to |data|
      invariant 0 !in data[..i]
    {
      if data[i] == 0 {
        return false;
      }
    }
    assert data[..|data|] == data;
    if Valid(data) {
      return true;
    }
    if !truncated {
      return false;
    }
    var cut := 1;
    while cut < UTF_MAX && cut <= |data|
      invariant 1 <= cut <= UTF_MAX
      invariant forall c | 0 < c < cut :: !ValidWithout(data, c)
      decreases UTF_MAX - cut
    {
      if Valid(data[..|data| - cut]) {
        assert ValidWithout(data, cut);
        return true;
      }
      cut := cut + 1;
    }
    return false;
  }

  /** UTF-8 text without NUL, which is what a text file holds. */
  predicate IsTextFile(body: seq<byte>) {
    Valid(body) && 0 !in body
  }

  /** Every text file is read as text, whatever its length and wherever the limit cuts it, and the limit decides what
      of it is returned. */
  lemma TextSurvivesTheCut(body: seq<byte>, max: nat)
    requires IsTextFile(body)
    ensures var got := Cut(body, max);
      && IsTextData(got.data, got.truncated)
      && got.data == body[..if |body| < max then |body| else max]
      && (got.truncated <==> |body| > max)
  {
    if |body| > max {
      var cut := CutLeavesPrefix(body, max);
      assert body[..max][..max - cut] == body[..max - cut];
      if cut == 0 {
        assert body[..max - cut] == body[..max];
      } else {
        assert ValidWithout(body[..max], cut);
      }
    } else {
      assert body == body[..|body|];
    }
  }

  /** A file that is not cut is read as text only if it is text. */
  lemma UncutIsExact(body: seq<byte>, max: nat)
    requires |body| <= max
    ensures var got := Cut(body, max); IsTextData(got.data, got.truncated) <==> IsTextFile(body)
  {
  }

  /** What is read as text is text followed by at most three bytes, none of them NUL, and by none when nothing was
      cut. */
  lemma AcceptedIsTextAndThreeBytes(body: seq<byte>, max: nat) returns (text: seq<byte>, tail: seq<byte>)
    requires IsTextData(Cut(body, max).data, Cut(body, max).truncated)
    ensures Cut(body, max).data == text + tail && IsTextFile(text) && |tail| <= 3 && 0 !in tail
    ensures |body| <= max ==> tail == []
  {
    var data := Cut(body, max).data;
    if Valid(data) {
      text, tail := data, [];
    } else {
      var cut :| 0 < cut < UTF_MAX && ValidWithout(data, cut);
      text, tail := data[..|data| - cut], data[|data| - cut..];
    }
    assert data == text + tail;
  }

  // ----- how far the test is from exact on a cut file -----

  /** Bytes that begin a character without completing it. */
  predicate BeginsCharacter(tail: seq<byte>, c: int) {
    IsScalar(c) && tail < Encode(c)
  }

  ghost predicate IsPartOfCharacter(tail: seq<byte>) {
    exists c :: BeginsCharacter(tail, c)
  }

  ghost predicate EndsInsideCharacter(data: seq<byte>, cut: int) {
    ValidWithout(data, cut) && (cut == 0 || IsPartOfCharacter(data[|data| - cut..]))
  }

  /** The data is the beginning of some text file exactly when it is text followed by nothing or by part of a character:
      the test asks less of the tail. */
  lemma CutOfTextIff(data: seq<byte>)
    ensures (exists rest :: IsTextFile(data + rest)) <==>
            0 !in data && exists cut | 0 <= cut <= 3 :: EndsInsideCharacter(data, cut)
  {
    if rest :| IsTextFile(data + rest) {
      CutEndsInside(data, rest);
    }
    if cut :| 0 !in data && 0 <= cut <= 3 && EndsInsideCharacter(data, cut) {
      CutIsCompleted(data, cut);
    }
  }

  lemma CutEndsInside(data: seq<byte>, rest: seq<byte>)
    requires IsTextFile(data + rest)
    ensures 0 !in data && exists cut | 0 <= cut <= 3 :: EndsInsideCharacter(data, cut)
  {
    var cut := CutLeavesPrefix(data + rest, |data|);
    assert (data + rest)[..|data| - cut] == data[..|data| - cut];
    assert (data + rest)[|data| - cut..|data|] == data[|data| - cut..];
    if cut > 0 {
      var c :| IsScalar(c) && data[|data| - cut..] < Encode(c);
      assert BeginsCharacter(data[|data| - cut..], c);
    }
    assert EndsInsideCharacter(data, cut);
    assert forall b :: b in data ==> b in data + rest;
  }

  lemma CutIsCompleted(data: seq<byte>, cut: int)
    requires 0 !in data && EndsInsideCharacter(data, cut)
    ensures exists rest :: IsTextFile(data + rest)
  {
    var text, tail := data[..|data| - cut], data[|data| - cut..];
    if cut == 0 {
      assert data + [] == text;
      assert IsTextFile(data + []);
    } else {
      var c :| BeginsCharacter(tail, c);
      CompleteCharacter(text, tail, c);
      assert data == text + tail;
      assert IsTextFile(data + Encode(c)[|tail|..]);
    }
  }

  lemma CompleteCharacter(text: seq<byte>, tail: seq<byte>, c: int)
    requires IsTextFile(text) && tail != [] && BeginsCharacter(tail, c) && 0 !in tail
    ensures IsTextFile(text + tail + Encode(c)[|tail|..])
  {
    var character, rest := Encode(c), Encode(c)[|tail|..];
    EncodedIsValid([c]);
    assert EncodeAll([c]) == character by {
      assert EncodeAll([c]) == character + EncodeAll([c][1..]);
      assert [c][1..] == [];
    }
    ValidConcat(text, character);
    assert text + tail + rest == text + character;
    assert 0 !in character;
  }

  /** The test accepts more than that: a cut file of one byte that begins no character. */
  lemma GarbageTailIsAccepted()
    ensures IsTextData([0xFF], true)
    ensures !exists rest :: IsTextFile([0xFF] + rest)
  {
    assert ValidWithout([0xFF], 1);
    forall rest: seq<byte> ensures !IsTextFile([0xFF] + rest) {
      assert FirstLength([0xFF] + rest) == 0;
    }
  }
}
