/**
 How often one authorization code can be redeemed, when requests run concurrently. A request decodes the code at one
 clock reading (internal/oauth/token_handler.go:53), reads the clock again for its claim and takes the cache's lock
 later still (internal/oauth/replay.go:33-35). The claim is for the text of the code, not for what it decodes to
 (internal/oauth/code.go:63-66).
 */
module SingleRedemption {
  import opened Clock
  import opened Octets
  import opened Replay
  import opened Wrappers

  // CodeTTL of internal/oauth/code.go.
  const CODE_TTL: int := 60 * SECOND

  // A request that reached its claim: when it decoded the code, read the cache's clock, and took the lock.
  datatype Attempt = Attempt(text: string, decodeAt: int, readAt: int, effectAt: int) {
    function Delay(): int {
      effectAt - decodeAt
    }
  }

  type Decoder = string -> Option<seq<byte>>

  ghost predicate HasOneSpelling(decode: Decoder, value: seq<byte>) {
    forall t, u | decode(t) == Some(value) && decode(u) == Some(value) :: t == u
  }

  /** A code issued at `issued` still decodes at `t`. */
  predicate Decodes(issued: int, t: int) {
    Unix(t) < Unix(issued + CODE_TTL)
  }

  function Claims(run: seq<Attempt>): (log: seq<ClaimRequest>)
    ensures |log| == |run|
    ensures forall i | 0 <= i < |run| :: log[i] == ClaimRequest(run[i].text, CODE_TTL, run[i].readAt)
  {
    seq(|run|, i requires 0 <= i < |run| => ClaimRequest(run[i].text, CODE_TTL, run[i].readAt))
  }

  // The attempt presents a spelling of a code that was issued and had not expired.
  predicate IsPossible(decode: Decoder, issued: map<seq<byte>, int>, attempt: Attempt) {
    var value := decode(attempt.text);
    && value.Some? && value.value in issued
    && issued[value.value] <= attempt.decodeAt <= attempt.readAt <= attempt.effectAt
    && Decodes(issued[value.value], attempt.decodeAt)
  }

  /** Attempts in the order in which they take the lock, on one clock that never goes back. */
  ghost predicate IsRun(run: seq<Attempt>, decode: Decoder, issued: map<seq<byte>, int>) {
    && (forall i | 0 <= i < |run| :: IsPossible(decode, issued, run[i]))
    && (forall i, j | 0 <= i < j < |run| :: run[i].effectAt <= run[j].effectAt)
  }

  /** Both attempts present the same code, in whatever spelling, and both claims are accepted. */
  ghost predicate RedeemedTwice(run: seq<Attempt>, decode: Decoder, i: nat, j: nat) {
    && i < j < |run| && decode(run[i].text) == decode(run[j].text)
    && Accepted(Claims(run), i) && Accepted(Claims(run), j)
  }

  lemma DecodesUntil(issued: int, t: int)
    ensures Decodes(issued, t) <==> t < issued + CODE_TTL - Fraction(issued)
  {
    assert Fraction(issued + CODE_TTL) == Fraction(issued);
  }

  /** The second redemption of one text took longer than the code's age at the first, plus the part of a second that
      truncation cut off the code's life. */
  lemma SecondRedemptionIsSlow(run: seq<Attempt>, decode: Decoder, issued: map<seq<byte>, int>, i: nat, j: nat)
    requires IsRun(run, decode, issued) && RedeemedTwice(run, decode, i, j) && run[i].text == run[j].text
    ensures var issuedAt := issued[decode(run[i].text).value];
      run[j].Delay() > run[i].readAt - issuedAt + Fraction(issuedAt)
  {
    var log := Claims(run);
    AcceptedIff(log, j);
    assert !(Remembered(log, i, j) && log[j].now < log[i].Until());
    var k :| i < k <= j && log[k].now >= log[i].Until();
    assert IsPossible(decode, issued, run[k]) && IsPossible(decode, issued, run[j]);
    assert run[k].effectAt <= run[j].effectAt;
    DecodesUntil(issued[decode(run[j].text).value], run[j].decodeAt);
  }

  /** So a code with one spelling yields tokens at most once, when no request is slower than the code's age at its first
      claim; and without delay unconditionally. */
  lemma AtMostOneRedemption(run: seq<Attempt>, decode: Decoder, issued: map<seq<byte>, int>, i: nat, j: nat)
    requires IsRun(run, decode, issued) && i < j < |run| && decode(run[i].text) == decode(run[j].text)
    requires HasOneSpelling(decode, decode(run[i].text).value) && Accepted(Claims(run), i)
    requires run[j].Delay() == 0 || run[j].Delay() <= run[i].readAt - issued[decode(run[i].text).value]
    ensures !Accepted(Claims(run), j)
  {
    assert IsPossible(decode, issued, run[i]);
    if Accepted(Claims(run), j) {
      SecondRedemptionIsSlow(run, decode, issued, i, j);
    }
  }

  // Some run with no request slower than `delay` redeems a code issued at `issuedAt` twice, first at age `age`.
  ghost predicate CanRedeemTwice(decode: Decoder, value: seq<byte>, issuedAt: int, age: int, delay: int) {
    exists run: seq<Attempt>, i: nat, j: nat ::
      && IsRun(run, decode, map[value := issuedAt])
      && RedeemedTwice(run, decode, i, j)
      && run[i].readAt == issuedAt + age
      && forall k | 0 <= k < |run| :: run[k].Delay() <= delay
  }

  // The last instant at which the code decodes, or `t` if that is earlier.
  function DecodeBy(issuedAt: int, t: int): int {
    var last := issuedAt + CODE_TTL - Fraction(issuedAt) - 1;
    if t < last then t else last
  }

  // Two attempts with texts `t` and `u`, the first at age `age`, the second `later` after it.
  function TwoAttempts(t: string, u: string, issuedAt: int, age: int, later: int): seq<Attempt> {
    var first := issuedAt + age;
    [Attempt(t, DecodeBy(issuedAt, first), first, first),
     Attempt(u, DecodeBy(issuedAt, first + later), first + later, first + later)]
  }

  /** Exactly when double redemption is possible: some request may take longer than the age at the first claim plus the
      truncated part of a second; or the code has two spellings and a claim can be made at that age at all. */
  lemma DoubleRedemptionIff(decode: Decoder, value: seq<byte>, text: string, issuedAt: int, age: int, delay: int)
    requires decode(text) == Some(value) && age >= 0 && delay >= 0
    ensures CanRedeemTwice(decode, value, issuedAt, age, delay) <==>
            || delay > age + Fraction(issuedAt)
            || (!HasOneSpelling(decode, value) && delay > age + Fraction(issuedAt) - CODE_TTL)
  {
    if CanRedeemTwice(decode, value, issuedAt, age, delay) {
      var issued := map[value := issuedAt];
      var run: seq<Attempt>, i: nat, j: nat :| IsRun(run, decode, issued) && RedeemedTwice(run, decode, i, j) &&
        run[i].readAt == issuedAt + age && forall k | 0 <= k < |run| :: run[k].Delay() <= delay;
      assert IsPossible(decode, issued, run[i]) && IsPossible(decode, issued, run[j]);
      if run[i].text == run[j].text {
        SecondRedemptionIsSlow(run, decode, issued, i, j);
      } else {
        DecodesUntil(issuedAt, run[i].decodeAt);
      }
    }
    if delay > age + Fraction(issuedAt) {
      SlowRunRedeemsTwice(decode, value, text, issuedAt, age, delay);
    }
    if !HasOneSpelling(decode, value) && delay > age + Fraction(issuedAt) - CODE_TTL {
      var t, u :| decode(t) == Some(value) && decode(u) == Some(value) && t != u;
      RespelledRunRedeemsTwice(decode, value, t, u, issuedAt, age, delay);
    }
  }

  /** The second attempt decodes at the last possible instant and claims when the first claim expires. */
  lemma SlowRunRedeemsTwice(decode: Decoder, value: seq<byte>, text: string, issuedAt: int, age: int, delay: int)
    requires decode(text) == Some(value) && age >= 0 && delay > age + Fraction(issuedAt)
    ensures CanRedeemTwice(decode, value, issuedAt, age, delay)
  {
    var run := TwoAttempts(text, text, issuedAt, age, CODE_TTL);
    DecodesUntil(issuedAt, run[0].decodeAt);
    DecodesUntil(issuedAt, run[1].decodeAt);
    var log := Claims(run);
    AcceptedIff(log, 0);
    AcceptedIff(log, 1);
    assert IsRun(run, decode, map[value := issuedAt]) && RedeemedTwice(run, decode, 0, 1);
    assert run[0].readAt == issuedAt + age;
  }

  /** Two attempts at the same instant, with two spellings: neither claim knows of the other. */
  lemma RespelledRunRedeemsTwice(
    decode: Decoder, value: seq<byte>, t: string, u: string, issuedAt: int, age: int, delay: int)
    requires decode(t) == Some(value) && decode(u) == Some(value) && t != u
    requires age >= 0 && delay >= 0 && delay > age + Fraction(issuedAt) - CODE_TTL
    ensures CanRedeemTwice(decode, value, issuedAt, age, delay)
  {
    var run := TwoAttempts(t, u, issuedAt, age, 0);
    DecodesUntil(issuedAt, run[0].decodeAt);
    DecodesUntil(issuedAt, run[1].decodeAt);
    var log := Claims(run);
    AcceptedIff(log, 0);
    AcceptedIff(log, 1);
    assert IsRun(run, decode, map[value := issuedAt]) && RedeemedTwice(run, decode, 0, 1);
    assert run[0].readAt == issuedAt + age;
  }
}
