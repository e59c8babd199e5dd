/** Over whole runs of the authorization server: how often one authorization yields tokens, and that it does. */
module OauthSingleUse {
  import opened Oauth
  import opened OauthProvenance
  import opened Text
  import opened Wrappers
  import Base64
  import SingleRedemption

  predicate GrantsText(run: Run, i: nat, code: string) {
    && i < |run.steps| && i < |run.states|
    && run.steps[i].DoRedeem? && run.steps[i].grant.code == code && run.Answer(i).Granted?
  }

  /** Step `b` gave tokens for the code of authorization `a`, in whatever spelling. */
  ghost predicate Grants(run: Run, a: nat, b: nat) {
    Redeems(run, a, b) && b < |run.states| && run.Answer(b).Granted?
  }

  /** One clock that never goes back: a redemption decodes its code, then reads the cache's clock, and takes the cache's
      lock at `at[k]`; redemptions are steps in the order in which they take the lock. */
  ghost predicate OnOneClock(run: Run, at: seq<int>) {
    && |at| == |run.steps|
    && (forall i, j | 0 <= i < j < |at| :: at[i] <= at[j])
    && (forall k | 0 <= k < |at| && run.steps[k].DoAuthorize? :: run.steps[k].now == at[k])
    && (forall k | 0 <= k < |at| && run.steps[k].DoRedeem? ::
          run.steps[k].now <= run.steps[k].claimAt <= at[k])
  }

  /** ... and every redemption happens in an instant. */
  ghost predicate IsInstant(run: Run, at: seq<int>) {
    OnOneClock(run, at) && forall k | 0 <= k < |at| && run.steps[k].DoRedeem? :: run.steps[k].now == at[k]
  }

  // ----- a code that was never redeemed can be -----

  /** No redemption with this text got as far as its claim. */
  ghost predicate NeverClaimed(run: Run, n: nat, code: string)
    requires n <= |run.steps| && n < |run.states|
  {
    forall k | 0 <= k < n && run.steps[k].DoRedeem? && run.steps[k].grant.code == code ::
      CheckCodeGrant(run.cfg, run.states[k], run.steps[k].grant, run.steps[k].now).Some?
  }

  lemma {:induction false} NeverClaimedIsUnseen(run: Run, n: nat, code: string)
    requires run.Valid() && n <= |run.steps| && NeverClaimed(run, n, code)
    ensures code !in run.states[n].seen
  {
    if n > 0 {
      NeverClaimedIsUnseen(run, n - 1, code);
    }
  }

  /** Failed attempts do not spend a code: however many requests with a wrong client, redirect or verifier came before,
      the right request gets tokens, unless a right one was there before it. */
  lemma FailedAttemptsKeepCode(
    run: Run, a: nat, n: nat, grant: CodeGrant, now: int, claimAt: int, accessRaw: Raw, refreshRaw: Raw)
    requires run.Valid() && a < n <= |run.steps| && run.steps[a].DoAuthorize? && run.Answer(a).Redirected?
    requires Unwrap(run.cfg, CODE_PREFIX, grant.code) == Some(run.steps[a].raw) && grant.verifier != ""
    requires NeverClaimed(run, n, grant.code)
    ensures var form := run.steps[a].form;
      RedeemCode(run.cfg, run.states[n], grant, now, claimAt, accessRaw, refreshRaw).1.Granted? <==>
        && grant.clientId == form.clientId && grant.redirectUri == form.redirectUri
        && run.cfg.s256(grant.verifier) == form.challenge
        && now < EndOfLife(run.steps[a].now, SingleRedemption.CODE_TTL)
  {
    NeverClaimedIsUnseen(run, n, grant.code);
    CodeChecksOutIff(run, a, n, grant, now);
  }

  // ----- one text, one grant -----

  predicate IsClaimed(run: Run, m: nat, code: string, until: int) {
    m < |run.states| && code in run.states[m].seen && run.states[m].seen[code] == until
  }

  /** A claim lasts as long as no redemption reads a clock that has reached its end. */
  lemma {:induction false} ClaimStays(run: Run, n: nat, m: nat, code: string, until: int)
    requires run.Valid() && n <= m <= |run.steps| && IsClaimed(run, n, code, until)
    requires forall k | n <= k < m && run.steps[k].DoRedeem? :: run.steps[k].claimAt < until
    ensures IsClaimed(run, m, code, until)
  {
    if n < m {
      ClaimStays(run, n, m - 1, code, until);
      StepKeepsClaim(run, m - 1, code, until);
    }
  }

  lemma StepKeepsClaim(run: Run, k: nat, code: string, until: int)
    requires run.Valid() && k < |run.steps| && IsClaimed(run, k, code, until)
    requires run.steps[k].DoRedeem? ==> run.steps[k].claimAt < until
    ensures IsClaimed(run, k + 1, code, until)
  {
  }

  /** Step `a` handed out a code and step `i` gave tokens for it. No later step gives tokens for the same text again,
      if it takes no longer from decoding the code to its claim taking effect than the code's age at the first
      claim. */
  lemma TextGrantsOnce(run: Run, at: seq<int>, a: nat, i: nat, j: nat)
    requires run.Valid() && OnOneClock(run, at) && Grants(run, a, i) && i < j < |run.steps|
    requires run.steps[j].DoRedeem? && at[j] - run.steps[j].now <= run.steps[i].claimAt - run.steps[a].now
    ensures !GrantsText(run, j, run.steps[i].grant.code)
  {
    var code := run.steps[i].grant.code;
    if GrantsText(run, j, code) {
      var end := run.steps[i].claimAt + SingleRedemption.CODE_TTL;
      CodeChecksOutIff(run, a, j, run.steps[j].grant, run.steps[j].now);
      assert at[j] < end;
      ClaimStays(run, i + 1, j, code, end);
    }
  }

  lemma OneSpellingIsOneCode(run: Run, a: nat, b: nat, c: nat)
    requires Redeems(run, a, b) && Redeems(run, a, c)
    requires SingleRedemption.HasOneSpelling(run.cfg.decode, run.steps[a].raw)
    ensures run.steps[b].grant.code == run.steps[c].grant.code
  {
    var x, y := CutPrefix(run.steps[b].grant.code, CODE_PREFIX), CutPrefix(run.steps[c].grant.code, CODE_PREFIX);
    assert x.value == y.value;
  }

  /** An authorization whose code has one spelling yields tokens at most once, when no redemption is slower than the
      code's age at the other. */
  lemma AuthorizationGrantsOnce(run: Run, at: seq<int>, a: nat, b: nat, c: nat)
    requires run.Valid() && OnOneClock(run, at) && Grants(run, a, b) && Grants(run, a, c)
    requires SingleRedemption.HasOneSpelling(run.cfg.decode, run.steps[a].raw)
    requires at[b] - run.steps[b].now <= run.steps[c].claimAt - run.steps[a].now
    requires at[c] - run.steps[c].now <= run.steps[b].claimAt - run.steps[a].now
    ensures b == c
  {
    OneSpellingIsOneCode(run, a, b, c);
    if b < c {
      TextGrantsOnce(run, at, a, b, c);
    } else if c < b {
      TextGrantsOnce(run, at, a, c, b);
    }
  }

  // ----- many spellings, many grants -----

  // Some client can register, and some verifier has a challenge.
  ghost predicate IsUsable(cfg: Config, uri: string, verifier: string) {
    IsLawful(cfg) && uri != "" && UriAllowed(cfg, uri) && verifier != "" && cfg.s256(verifier) != ""
  }

  // Bytes longer than the code, so that they are fresh.
  function FreshRaw(raw: Raw, i: nat): (r: Raw)
    ensures |r| == |raw| + 1 + i
  {
    seq(|raw| + 1 + i, _ => 0)
  }

  function RegisterStep(uri: string): Step {
    DoRegister([uri], "client")
  }

  function AuthorizeStep(cfg: Config, uri: string, verifier: string, raw: Raw): Step {
    DoAuthorize(Form("code", "client", uri, cfg.s256(verifier), "S256"), "", "key", true, 0, raw)
  }

  function RedeemStep(uri: string, verifier: string, raw: Raw, text: string, i: nat): Step {
    DoRedeem(CodeGrant("client", CODE_PREFIX + text, verifier, uri), 0, 0, FreshRaw(raw, i), FreshRaw(raw, i + 1))
  }

  // A sealed code as an authorization at instant 0 leaves it, and a request for it.
  ghost predicate CanRedeem(cfg: Config, st: State, raw: Raw, grant: CodeGrant) {
    && raw in st.vault && st.vault[raw].purpose == ForCode && st.vault[raw].payload.expiresAt == 60
    && MatchesCode(cfg, st.vault[raw].payload, grant) && Unwrap(cfg, CODE_PREFIX, grant.code) == Some(raw)
    && grant.verifier != "" && grant.redirectUri != "" && grant.clientId != "" && grant.code !in st.seen
  }

  lemma CodeIsReady(cfg: Config, uri: string, verifier: string, raw: Raw, text: string)
    requires IsUsable(cfg, uri, verifier) && raw != [] && cfg.decode(text) == Some(raw)
    ensures var r1 := Serve(cfg, EMPTY, RegisterStep(uri));
      var r2 := Serve(cfg, r1.0, AuthorizeStep(cfg, uri, verifier, raw));
      && r1.1 == ClientRegistered("client") && r1.0.vault == map[]
      && r2.1 == Redirected(CODE_PREFIX + cfg.encode(raw)) && r2.0.vault.Keys == {raw} && r2.0.seen == map[]
      && CanRedeem(cfg, r2.0, raw, CodeGrant("client", CODE_PREFIX + text, verifier, uri))
  {
    assert CutPrefix(CODE_PREFIX + text, CODE_PREFIX) == Some(text);
    var r1 := Serve(cfg, EMPTY, RegisterStep(uri));
    assert r1.0.clients == map["client" := [uri]];
  }

  /** A request that can redeem is granted, and leaves any request with another spelling as it was. */
  lemma SpellingIsGranted(cfg: Config, st: State, raw: Raw, grant: CodeGrant, other: CodeGrant, i: nat)
    requires CanRedeem(cfg, st, raw, grant) && CanRedeem(cfg, st, raw, other)
    requires forall r | r in st.vault :: |r| <= |raw| + i
    ensures var (st1, answer) := RedeemCode(cfg, st, grant, 0, 0, FreshRaw(raw, i), FreshRaw(raw, i + 1));
      && answer.Granted?
      && (grant.code != other.code ==> CanRedeem(cfg, st1, raw, other))
      && forall r | r in st1.vault :: |r| <= |raw| + i + 2
  {
    assert CheckCodeGrant(cfg, st, grant, 0).None?;
  }

  lemma FreshIsPossible(st: State, step: Step, raw: Raw, i: nat)
    requires step.DoRedeem? && step.accessRaw == FreshRaw(raw, i) && step.refreshRaw == FreshRaw(raw, i + 1)
    requires forall r | r in st.vault :: |r| <= |raw| + i
    ensures Possible(st, step)
  {
  }

  // Two redemptions of one code in a state that is ready for both.
  lemma BothAreGranted(cfg: Config, raw: Raw, st2: State, s2: Step, s3: Step)
    requires s2.DoRedeem? && s2.now == s2.claimAt == 0 && s3.DoRedeem? && s3.now == s3.claimAt == 0
    requires s2.accessRaw == FreshRaw(raw, 0) && s2.refreshRaw == FreshRaw(raw, 1)
    requires s3.accessRaw == FreshRaw(raw, 2) && s3.refreshRaw == FreshRaw(raw, 3)
    requires CanRedeem(cfg, st2, raw, s2.grant) && CanRedeem(cfg, st2, raw, s3.grant)
    requires s2.grant.code != s3.grant.code && st2.vault.Keys == {raw}
    ensures Possible(st2, s2) && Serve(cfg, st2, s2).1.Granted?
    ensures var st3 := Serve(cfg, st2, s2).0; Possible(st3, s3) && Serve(cfg, st3, s3).1.Granted?
  {
    SpellingIsGranted(cfg, st2, raw, s2.grant, s3.grant, 0);
    FreshIsPossible(st2, s2, raw, 0);
    var st3 := Serve(cfg, st2, s2).0;
    SpellingIsGranted(cfg, st3, raw, s3.grant, s3.grant, 2);
    FreshIsPossible(st3, s3, raw, 2);
  }

  function TwoSpellingsSteps(cfg: Config, uri: string, verifier: string, raw: Raw, t: string, u: string): seq<Step> {
    [RegisterStep(uri), AuthorizeStep(cfg, uri, verifier, raw),
     RedeemStep(uri, verifier, raw, t, 0), RedeemStep(uri, verifier, raw, u, 2)]
  }

  lemma TwoSpellingsRun(cfg: Config, uri: string, verifier: string, raw: Raw, t: string, u: string)
    returns (run: Run)
    requires IsUsable(cfg, uri, verifier) && raw != []
    requires cfg.decode(t) == Some(raw) && cfg.decode(u) == Some(raw) && t != u
    ensures run.Valid() && run.cfg == cfg && run.steps == TwoSpellingsSteps(cfg, uri, verifier, raw, t, u)
    ensures run.Answer(0) == ClientRegistered("client") && run.Answer(1) == Redirected(CODE_PREFIX + cfg.encode(raw))
    ensures run.Answer(2).Granted? && run.Answer(3).Granted?
  {
    var s := TwoSpellingsSteps(cfg, uri, verifier, raw, t, u);
    CodeIsReady(cfg, uri, verifier, raw, t);
    CodeIsReady(cfg, uri, verifier, raw, u);
    assert s[2].grant.code[|CODE_PREFIX|..] == t && s[3].grant.code[|CODE_PREFIX|..] == u;
    BothAreGranted(cfg, raw, Serve(cfg, Serve(cfg, EMPTY, s[0]).0, s[1]).0, s[2], s[3]);
    run := RunOfFour(cfg, s);
  }

  /** A client registers and authorizes, and presents both spellings of its code at once: both are granted. */
  lemma TwoSpellingsAreGrantedTwice(cfg: Config, uri: string, verifier: string, raw: Raw, t: string, u: string)
    returns (run: Run)
    requires IsUsable(cfg, uri, verifier) && raw != []
    requires cfg.decode(t) == Some(raw) && cfg.decode(u) == Some(raw) && t != u
    ensures run.cfg == cfg && run.Valid() && IsInstant(run, [0, 0, 0, 0])
    ensures run.Answer(1) == Redirected(CODE_PREFIX + cfg.encode(raw))
    ensures Grants(run, 1, 2) && run.steps[2].grant.code == CODE_PREFIX + t
    ensures Grants(run, 1, 3) && run.steps[3].grant.code == CODE_PREFIX + u
  {
    run := TwoSpellingsRun(cfg, uri, verifier, raw, t, u);
    AuthorizedInRun(run, uri, raw);
    GrantsInRun(run, 2, t);
    GrantsInRun(run, 3, u);
    FourInAnInstant(run);
  }

  lemma FourInAnInstant(run: Run)
    requires |run.steps| == 4 && run.steps[0].DoRegister?
    requires run.steps[1].DoAuthorize? && run.steps[1].now == 0
    requires forall k | 2 <= k < 4 :: run.steps[k].DoRedeem? && run.steps[k].now == run.steps[k].claimAt == 0
    ensures IsInstant(run, [0, 0, 0, 0])
  {
  }

  lemma GrantsInRun(run: Run, b: nat, text: string)
    requires 1 < b < |run.steps| && b < |run.states| && run.steps[1].DoAuthorize? && run.steps[b].DoRedeem?
    requires Authorized(run, 1, run.steps[1].raw)
    requires run.steps[b].grant.code == CODE_PREFIX + text && run.cfg.decode(text) == Some(run.steps[1].raw)
    requires var form, grant := run.steps[1].form, run.steps[b].grant;
      && grant.clientId == form.clientId && grant.redirectUri == form.redirectUri
      && run.cfg.s256(grant.verifier) == form.challenge
    requires run.Answer(b).Granted?
    ensures Grants(run, 1, b)
  {
    assert CutPrefix(CODE_PREFIX + text, CODE_PREFIX) == Some(text);
  }

  lemma RunOfFour(cfg: Config, s: seq<Step>) returns (run: Run)
    requires IsLawful(cfg) && |s| == 4
    requires Possible(EMPTY, s[0])
    requires var st1 := Serve(cfg, EMPTY, s[0]).0; Possible(st1, s[1])
    requires var st2 := Serve(cfg, Serve(cfg, EMPTY, s[0]).0, s[1]).0; Possible(st2, s[2])
    requires var st3 := Serve(cfg, Serve(cfg, Serve(cfg, EMPTY, s[0]).0, s[1]).0, s[2]).0; Possible(st3, s[3])
    ensures run.Valid() && run.cfg == cfg && run.steps == s
    ensures run.states[1] == Serve(cfg, EMPTY, s[0]).0 && run.states[2] == Serve(cfg, run.states[1], s[1]).0
    ensures run.states[3] == Serve(cfg, run.states[2], s[2]).0
  {
    var st1 := Serve(cfg, EMPTY, s[0]).0;
    var st2 := Serve(cfg, st1, s[1]).0;
    var st3 := Serve(cfg, st2, s[2]).0;
    run := Run(cfg, [EMPTY, st1, st2, st3, Serve(cfg, st3, s[3]).0], s);
  }

  lemma AuthorizedInRun(run: Run, uri: string, raw: Raw)
    requires run.Valid() && |run.steps| >= 2 && run.steps[0] == RegisterStep(uri) && UriAllowed(run.cfg, uri)
    requires run.Answer(0) == ClientRegistered("client")
    requires run.steps[1].DoAuthorize? && run.steps[1].raw == raw && run.steps[1].verdict
    requires run.steps[1].form.clientId == "client" && run.steps[1].form.redirectUri == uri
    requires run.Answer(1) == Redirected(CODE_PREFIX + run.cfg.encode(raw))
    ensures Authorized(run, 1, raw)
  {
    assert RegisteredWith(run, 0, run.steps[1].form);
  }

  /** When redemptions take no time, every authorization yields tokens at most once if and only if no sealed value has a
      second spelling. */
  lemma GrantsOnceIff(cfg: Config, uri: string, verifier: string)
    requires IsUsable(cfg, uri, verifier)
    ensures (forall raw | raw != [] :: SingleRedemption.HasOneSpelling(cfg.decode, raw)) <==>
            forall run: Run, at, a, b, c | run.cfg == cfg && run.Valid() && IsInstant(run, at) &&
                                           Grants(run, a, b) && Grants(run, a, c) :: b == c
  {
    if forall raw | raw != [] :: SingleRedemption.HasOneSpelling(cfg.decode, raw) {
      forall run: Run, at, a, b, c | run.cfg == cfg && run.Valid() && IsInstant(run, at) &&
                                     Grants(run, a, b) && Grants(run, a, c)
        ensures b == c
      {
        AuthorizationGrantsOnce(run, at, a, b, c);
      }
    } else {
      var raw: Raw :| raw != [] && !SingleRedemption.HasOneSpelling(cfg.decode, raw);
      var t, u :| cfg.decode(t) == Some(raw) && cfg.decode(u) == Some(raw) && t != u;
      var run := TwoSpellingsAreGrantedTwice(cfg, uri, verifier, raw, t, u);
    }
  }

  /** The codec in use: internal/oauth/seal.go writes and reads unpadded base64url. */
  ghost predicate UsesBase64(cfg: Config) {
    (forall raw :: cfg.encode(raw) == Base64.Encode(raw)) && (forall t :: cfg.decode(t) == Base64.Decode(t))
  }

  lemma Base64IsLawful(cfg: Config)
    requires UsesBase64(cfg)
    ensures IsLawful(cfg)
  {
    forall raw: Raw ensures cfg.decode(cfg.encode(raw)) == Some(raw) {
      Base64.EncodedIsDecoded(raw);
    }
  }

  /** Its decoder skips line breaks, so no code has one spelling, and a code that is followed by a line break is granted
      beside the code itself. */
  lemma LineBreakIsGrantedToo(cfg: Config, uri: string, verifier: string, raw: Raw) returns (run: Run)
    requires UsesBase64(cfg) && IsUsable(cfg, uri, verifier) && raw != []
    ensures run.cfg == cfg && run.Valid() && IsInstant(run, [0, 0, 0, 0])
    ensures Grants(run, 1, 2) && Redirected(run.steps[2].grant.code) == run.Answer(1)
    ensures Grants(run, 1, 3) && run.steps[3].grant.code == run.steps[2].grant.code + "\n"
    ensures !SingleRedemption.HasOneSpelling(cfg.decode, raw)
  {
    var t := cfg.encode(raw);
    LineBreakSpells(cfg, raw);
    run := TwoSpellingsAreGrantedTwice(cfg, uri, verifier, raw, t, t + "\n");
    assert CODE_PREFIX + (t + "\n") == CODE_PREFIX + t + "\n";
  }

  lemma LineBreakSpells(cfg: Config, raw: Raw)
    requires UsesBase64(cfg)
    ensures cfg.decode(cfg.encode(raw)) == cfg.decode(cfg.encode(raw) + "\n") == Some(raw)
  {
    Base64.EncodedIsDecoded(raw);
    Base64.LineBreakIsSkipped(cfg.encode(raw));
  }
}
