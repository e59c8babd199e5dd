/**
 Keeping a secret out of an error text (internal/truenas/client.go:458-463), and for exactly which secrets that
 succeeds: the replacement text itself may put the secret back together.
 */
module Scrub {
  import opened Wrappers

  const REDACTED := "[redacted]"

  predicate OccursAt(s: string, key: string, j: int) {
    0 <= j <= |s| - |key| && s[j..j + |key|] == key
  }

  ghost predicate Contains(s: string, key: string) {
    exists j :: OccursAt(s, key, j)
  }

  /** The first position at or after `j` where the key occurs. */
  function IndexFrom(s: string, key: string, j: nat): (r: Option<nat>)
    requires j <= |s| + 1
    ensures r.Some? ==> j <= r.value && OccursAt(s, key, r.value) && forall i | j <= i < r.value :: !OccursAt(s, key, i)
    ensures r.None? ==> forall i | j <= i :: !OccursAt(s, key, i)
    decreases |s| + 1 - j
  {
    if j > |s| then None else if OccursAt(s, key, j) then Some(j) else IndexFrom(s, key, j + 1)
  }

  function Index(s: string, key: string): Option<nat> {
    IndexFrom(s, key, 0)
  }

  /** strings.ReplaceAll with the fixed replacement: left to right, without overlaps. */
  function ReplaceAll(s: string, key: string): string
    requires key != ""
    decreases |s|
  {
    var i := Index(s, key);
    if i.None? then s else s[..i.value] + REDACTED + ReplaceAll(s[i.value + |key|..], key)
  }

  /** scrub. */
  function Scrubbed(message: string, secret: string): string {
    if secret == "" || Index(message, secret).None? then message else ReplaceAll(message, secret)
  }

  // ----- the ways in which a secret can come back -----

  /** The secret begins as the replacement ends. */
  predicate StartsInside(key: string, i: int) {
    0 < i <= |key| && i <= |REDACTED| && key[..i] == REDACTED[|REDACTED| - i..]
  }

  predicate Compatible(u: string) {
    u <= REDACTED || REDACTED <= u
  }

  // Text that can stand right before an occurrence of the key without the key occurring earlier.
  predicate CanPrecede(t: string, key: string) {
    Index(t + key, key) == Some(|t|)
  }

  /** The secret goes on as the replacement begins, after text that can stand before it. */
  predicate RunsInto(key: string, i: int) {
    0 < i < |key| && CanPrecede(key[..i], key) && Compatible(key[i..])
  }

  /** The secret is not put back together by the replacement. */
  ghost predicate IsSafe(key: string) {
    && !Contains(REDACTED, key)
    && (forall i :: !StartsInside(key, i))
    && (forall i :: !RunsInto(key, i))
  }

  lemma OccursIn(s: string, key: string, j: int, from: nat, to: nat)
    requires from <= to <= |s| && from <= j && j + |key| <= to
    ensures OccursAt(s, key, j) <==> OccursAt(s[from..to], key, j - from)
  {
    var a, b := s[j..j + |key|], s[from..to][j - from..j - from + |key|];
    assert forall i | 0 <= i < |key| :: a[i] == s[j + i] == s[from..to][j - from + i] == b[i];
    assert a == b;
  }

  /** What stands between two matches could stand there alone, and so could every end of it. */
  lemma EndCanPrecede(p: string, key: string, j: nat)
    requires j <= |p| && CanPrecede(p, key)
    ensures CanPrecede(p[j..], key)
  {
    var t := p[j..];
    assert (p + key)[j..] == t + key;
    assert OccursAt(t + key, key, |t|) by {
      assert (t + key)[|t|..|t| + |key|] == key;
    }
    forall i: nat | i < |t| ensures !OccursAt(t + key, key, i) {
      OccursIn(p + key, key, j + i, j, |p + key|);
      assert !OccursAt(p + key, key, j + i);
    }
  }

  lemma FirstMatchCanPrecede(s: string, key: string)
    requires Index(s, key).Some?
    ensures CanPrecede(s[..Index(s, key).value], key)
  {
    var i := Index(s, key).value;
    var p := s[..i];
    assert p + key == s[..i + |key|];
    assert OccursAt(p + key, key, i);
    forall j: nat | j < i ensures !OccursAt(p + key, key, j) {
      OccursIn(s, key, j, 0, i + |key|);
    }
  }

  /** One replacement brings no secret back that is safe. */
  lemma JoinIsClean(p: string, rest: string, key: string)
    requires key != "" && IsSafe(key) && CanPrecede(p, key) && !Contains(rest, key)
    ensures !Contains(p + REDACTED + rest, key)
  {
    var s := p + REDACTED + rest;
    var n, m := |p|, |p| + |REDACTED|;
    forall j ensures !OccursAt(s, key, j) {
      if OccursAt(s, key, j) {
        if m <= j {
          assert s[m..|s|] == rest;
          OccursIn(s, key, j, m, |s|);
        } else if n <= j {
          MatchInReplacement(p, rest, key, j);
        } else {
          MatchBeforeReplacement(p, rest, key, j);
        }
      }
    }
  }

  lemma MatchInReplacement(p: string, rest: string, key: string, j: nat)
    requires key != "" && |p| <= j < |p| + |REDACTED|
    requires OccursAt(p + REDACTED + rest, key, j)
    ensures Contains(REDACTED, key) || exists i :: StartsInside(key, i)
  {
    var s := p + REDACTED + rest;
    var n, m := |p|, |p| + |REDACTED|;
    assert s[n..m] == REDACTED;
    if j + |key| <= m {
      OccursIn(s, key, j, n, m);
    } else {
      assert s[j..m] == REDACTED[j - n..];
      assert s[j..m] == key[..m - j];
      assert StartsInside(key, m - j);
    }
  }

  lemma MatchBeforeReplacement(p: string, rest: string, key: string, j: nat)
    requires key != "" && j < |p| && CanPrecede(p, key)
    requires OccursAt(p + REDACTED + rest, key, j)
    ensures exists i :: RunsInto(key, i)
  {
    var s := p + REDACTED + rest;
    var i := |p| - j;
    if j + |key| <= |p| {
      assert (p + key)[..|p|] == s[..|p|] == p;
      OccursIn(s, key, j, 0, |p|);
      OccursIn(p + key, key, j, 0, |p|);
      assert false;
    } else {
      assert key[..i] == p[j..];
      EndCanPrecede(p, key, j);
      var tail := REDACTED + rest;
      assert s[|p|..] == tail;
      assert key[i..] == tail[..|key| - i];
      assert tail[..|REDACTED|] == REDACTED;
      assert RunsInto(key, i);
    }
  }

  lemma {:induction false} SafeIsClean(s: string, key: string)
    requires key != "" && IsSafe(key)
    ensures !Contains(ReplaceAll(s, key), key)
    decreases |s|
  {
    if Index(s, key).Some? {
      var i := Index(s, key).value;
      FirstMatchCanPrecede(s, key);
      SafeIsClean(s[i + |key|..], key);
      JoinIsClean(s[..i], ReplaceAll(s[i + |key|..], key), key);
    }
  }

  lemma ShortIsKept(s: string, key: string)
    requires |s| < |key|
    ensures ReplaceAll(s, key) == s
  {
  }

  /** A message that shows the secret, when the secret is not safe. */
  lemma UnsafeShows(key: string) returns (message: string)
    requires key != "" && !IsSafe(key)
    ensures Contains(Scrubbed(message, key), key)
  {
    if Contains(REDACTED, key) {
      message := key;
      ReplacedFirst(key, "");
      assert key + "" == key && REDACTED + "" == REDACTED;
    } else if i :| StartsInside(key, i) {
      message := ShowsAfter(key, i);
    } else {
      var i :| RunsInto(key, i);
      message := ShowsBefore(key, i);
    }
  }

  lemma OccursAcross(a: string, b: string, key: string, k: nat)
    requires k <= |a| <= k + |key| && a[k..] == key[..|a| - k] && b == key[|a| - k..]
    ensures OccursAt(a + b, key, k)
  {
    assert (a + b)[k..k + |key|] == a[k..] + b == key;
  }

  lemma ShowsAfter(key: string, i: int) returns (message: string)
    requires StartsInside(key, i)
    ensures Contains(Scrubbed(message, key), key)
  {
    var rest := key[i..];
    message := key + rest;
    ReplacedFirst(key, rest);
    OccursAcross(REDACTED, rest, key, |REDACTED| - i);
  }

  lemma ReplacedFirst(key: string, rest: string)
    requires key != "" && |rest| < |key|
    ensures Scrubbed(key + rest, key) == REDACTED + rest
  {
    ReplacedBetween("", key, rest);
    assert "" + key + rest == key + rest && "" + REDACTED + rest == REDACTED + rest;
  }

  lemma ShowsBefore(key: string, i: int) returns (message: string)
    requires RunsInto(key, i)
    ensures Contains(Scrubbed(message, key), key)
  {
    var t, u := key[..i], key[i..];
    assert t + u == key;
    var rest := GoesOn(u);
    PutTogether(t, u, rest, key);
    message := t + key + rest;
  }

  lemma PutTogether(t: string, u: string, rest: string, key: string)
    requires key == t + u && key != "" && CanPrecede(t, key) && |rest| < |key| && u <= REDACTED + rest
    ensures Contains(Scrubbed(t + key + rest, key), key)
  {
    var tail := REDACTED + rest;
    PrefixOccurs(t, u, tail);
    assert t + tail == t + REDACTED + rest;
    ReplacedBetween(t, key, rest);
  }

  lemma GoesOn(u: string) returns (rest: string)
    requires Compatible(u)
    ensures u <= REDACTED + rest && |rest| <= |u|
  {
    if REDACTED <= u {
      rest := u[|REDACTED|..];
      assert u == REDACTED + rest;
    } else {
      rest := "";
    }
  }

  lemma PrefixOccurs(t: string, u: string, tail: string)
    requires u <= tail
    ensures OccursAt(t + tail, t + u, 0)
  {
    assert (t + tail)[0..|t + u|] == t + tail[..|u|];
  }

  lemma FirstMatchIs(t: string, key: string, rest: string)
    requires key != "" && (t == "" || CanPrecede(t, key))
    ensures Index(t + key + rest, key) == Some(|t|)
  {
    var s := t + key + rest;
    forall j: nat | j < |t| ensures !OccursAt(s, key, j) {
      assert s[0..|t| + |key|] == t + key;
      OccursIn(s, key, j, 0, |t| + |key|);
    }
    assert OccursAt(s, key, |t|);
  }

  lemma ReplacedBetween(t: string, key: string, rest: string)
    requires key != "" && |rest| < |key| && (t == "" || CanPrecede(t, key))
    ensures Scrubbed(t + key + rest, key) == t + REDACTED + rest
  {
    var s := t + key + rest;
    FirstMatchIs(t, key, rest);
    assert s[..|t|] == t && s[|t| + |key|..] == rest;
    ShortIsKept(rest, key);
  }

  /** No scrubbed message contains the secret, whatever the message, if and only if the secret is safe. */
  lemma CleanIff(key: string)
    requires key != ""
    ensures (forall message :: !Contains(Scrubbed(message, key), key)) <==> IsSafe(key)
  {
    if IsSafe(key) {
      forall message ensures !Contains(Scrubbed(message, key), key) {
        SafeIsClean(message, key);
      }
    } else {
      var message := UnsafeShows(key);
    }
  }

  predicate HasNoBracket(key: string) {
    '[' !in key && ']' !in key
  }

  /** For a secret without brackets, as API keys are, that comes down to not being part of the word "redacted". */
  lemma BracketFreeIsSafeIff(key: string)
    requires key != "" && HasNoBracket(key)
    ensures IsSafe(key) <==> !Contains("redacted", key)
  {
    assert REDACTED[1..9] == "redacted";
    forall i ensures !StartsInside(key, i) {
      if 0 < i <= |key| && i <= |REDACTED| {
        assert key[..i][i - 1] in key && REDACTED[|REDACTED| - i..][i - 1] == ']';
      }
    }
    forall i ensures !RunsInto(key, i) {
      if 0 < i < |key| {
        assert key[i..][0] in key && REDACTED[0] == '[';
      }
    }
    if j :| OccursAt(REDACTED, key, j) {
      assert j > 0 by {
        assert key[0] == REDACTED[j];
      }
      assert j + |key| <= 9 by {
        assert key[|key| - 1] == REDACTED[j + |key| - 1];
      }
      OccursIn(REDACTED, key, j, 1, 9);
    }
    if j :| OccursAt("redacted", key, j) {
      OccursIn(REDACTED, key, j + 1, 1, 9);
    }
  }

  // ----- what is kept -----

  function Join(pieces: seq<string>, separator: string): string
    requires pieces != []
  {
    if |pieces| == 1 then pieces[0] else pieces[0] + separator + Join(pieces[1..], separator)
  }

  lemma JoinMore(piece: string, others: seq<string>, separator: string)
    requires others != []
    ensures Join([piece] + others, separator) == piece + separator + Join(others, separator)
  {
    assert ([piece] + others)[1..] == others;
  }

  /** The message falls into these pieces with the secret between them, the first match first each time. */
  ghost predicate Splits(pieces: seq<string>, message: string, secret: string) {
    && pieces != [] && message == Join(pieces, secret)
    && (forall i | 0 <= i < |pieces| - 1 :: CanPrecede(pieces[i], secret))
    && !Contains(pieces[|pieces| - 1], secret)
  }

  lemma SplitsMore(piece: string, others: seq<string>, rest: string, secret: string)
    requires CanPrecede(piece, secret) && Splits(others, rest, secret)
    ensures Splits([piece] + others, piece + secret + rest, secret)
  {
    JoinMore(piece, others, secret);
    var pieces := [piece] + others;
    forall i | 0 <= i < |pieces| - 1
      ensures CanPrecede(pieces[i], secret)
    {
      assert i > 0 ==> pieces[i] == others[i - 1];
    }
    assert pieces[|pieces| - 1] == others[|others| - 1];
  }

  lemma {:induction false} ReplacedPieces(message: string, secret: string) returns (pieces: seq<string>)
    requires secret != ""
    ensures Splits(pieces, message, secret) && ReplaceAll(message, secret) == Join(pieces, REDACTED)
    decreases |message|
  {
    if Index(message, secret).None? {
      pieces := [message];
      assert Splits(pieces, message, secret);
    } else {
      var i := Index(message, secret).value;
      var rest := message[i + |secret|..];
      var others := ReplacedPieces(rest, secret);
      FirstMatchCanPrecede(message, secret);
      SplitsMore(message[..i], others, rest, secret);
      JoinMore(message[..i], others, REDACTED);
      assert message == message[..i] + secret + rest;
      pieces := [message[..i]] + others;
    }
  }

  /** Everything but the secret is kept: the same pieces with the replacement between them are the scrubbed message. */
  lemma PiecesAreKept(message: string, secret: string) returns (pieces: seq<string>)
    requires secret != ""
    ensures Splits(pieces, message, secret) && Scrubbed(message, secret) == Join(pieces, REDACTED)
  {
    pieces := ReplacedPieces(message, secret);
  }

  /** Those pieces are the only ones. */
  lemma {:induction false} PiecesAreUnique(pieces: seq<string>, others: seq<string>, message: string, secret: string)
    requires secret != "" && Splits(pieces, message, secret) && Splits(others, message, secret)
    ensures pieces == others
    decreases |pieces|
  {
    FirstPiece(pieces, message, secret);
    FirstPiece(others, message, secret);
    if Index(message, secret).Some? {
      var i := Index(message, secret).value;
      PiecesAreUnique(pieces[1..], others[1..], message[i + |secret|..], secret);
      assert pieces == [pieces[0]] + pieces[1..] && others == [others[0]] + others[1..];
    }
  }

  lemma FirstPiece(pieces: seq<string>, message: string, secret: string)
    requires secret != "" && Splits(pieces, message, secret)
    ensures Index(message, secret).None? <==> |pieces| == 1
    ensures |pieces| == 1 ==> pieces == [message]
    ensures |pieces| > 1 ==>
      var i := Index(message, secret).value;
      pieces[0] == message[..i] && Splits(pieces[1..], message[i + |secret|..], secret)
  {
    if |pieces| > 1 {
      var piece, tail := pieces[0], Join(pieces[1..], secret);
      assert CanPrecede(piece, secret);
      FirstMatchIs(piece, secret, tail);
      assert message[|piece| + |secret|..] == tail;
      forall i | 0 <= i < |pieces[1..]| - 1
        ensures CanPrecede(pieces[1..][i], secret)
      {
        assert CanPrecede(pieces[i + 1], secret);
      }
    }
  }

  lemma {:induction false} LengthMoves(s: string, key: string)
    requires key != ""
    ensures |key| == |REDACTED| ==> |ReplaceAll(s, key)| == |s|
    ensures |key| < |REDACTED| ==> |ReplaceAll(s, key)| >= |s|
    ensures |key| > |REDACTED| ==> |ReplaceAll(s, key)| <= |s|
    decreases |s|
  {
    if Index(s, key).Some? {
      LengthMoves(s[Index(s, key).value + |key|..], key);
    }
  }

  /** A message stays as it is exactly if it does not mention the secret, or there is none, or it is the replacement. */
  lemma UnchangedIff(message: string, secret: string)
    ensures Scrubbed(message, secret) == message <==>
            secret == "" || !Contains(message, secret) || secret == REDACTED
  {
    if secret != "" && Index(message, secret).Some? {
      var i := Index(message, secret).value;
      var rest := message[i + |secret|..];
      LengthMoves(rest, secret);
      assert message == message[..i] + secret + rest;
      if secret == REDACTED {
        RedactedIsItself(message);
      } else if |secret| == |REDACTED| {
        assert message[i..i + |secret|] == secret;
        assert Scrubbed(message, secret)[i..i + |secret|] == REDACTED;
      }
    }
  }

  lemma {:induction false} RedactedIsItself(s: string)
    ensures ReplaceAll(s, REDACTED) == s
    decreases |s|
  {
    if Index(s, REDACTED).Some? {
      var i := Index(s, REDACTED).value;
      RedactedIsItself(s[i + |REDACTED|..]);
      assert s == s[..i] + REDACTED + s[i + |REDACTED|..];
    }
  }
}
