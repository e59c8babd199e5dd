/**
 Where an access token comes from. Over every run of the authorization server, with clients and attackers
 free to send anything at any time, a token that the resource side accepts leads back through any number of
 refreshes to one redemption and one authorization.
 */
module OauthProvenance {
  import opened Wrappers
  import opened Clock
  import opened Text
  import opened Oauth
  import opened Replay
  import SingleRedemption

  datatype Step =
    | DoRegister(uris: seq<string>, newId: string)
    | DoAuthorize(form: Form, username: string, apiKey: string, verdict: bool, now: int, raw: Raw)
    | DoRedeem(grant: CodeGrant, now: int, claimAt: int, accessRaw: Raw, refreshRaw: Raw)
    | DoRefresh(token: string, now: int, accessRaw: Raw, refreshRaw: Raw)

  const EMPTY := State(map[], map[], map[])

  // Randomness is fresh, and a client_id determines the metadata it was issued for.
  predicate Possible(st: State, step: Step) {
    match step
    case DoRegister(uris, id) => id != "" && (id in st.clients ==> st.clients[id] == uris)
    case DoAuthorize(_, _, _, _, _, raw) => IsFresh(st, raw)
    case DoRedeem(_, _, _, a, b) => IsFresh(st, a) && IsFresh(st, b) && a != b
    case DoRefresh(_, _, a, b) => IsFresh(st, a) && IsFresh(st, b) && a != b
  }

  function Serve(cfg: Config, st: State, step: Step): (State, Response) {
    match step
    case DoRegister(uris, id) => Register(cfg, st, uris, id)
    case DoAuthorize(form, username, apiKey, verdict, now, raw) =>
      Authorize(cfg, st, form, username, apiKey, verdict, now, raw)
    case DoRedeem(grant, now, claimAt, a, b) => RedeemCode(cfg, st, grant, now, claimAt, a, b)
    case DoRefresh(token, now, a, b) => Refresh(cfg, st, token, now, a, b)
  }

  datatype Run = Run(cfg: Config, states: seq<State>, steps: seq<Step>) {
    ghost predicate Valid() {
      && IsLawful(cfg)
      && |states| == |steps| + 1
      && states[0] == EMPTY
      && forall i | 0 <= i < |steps| ::
           Possible(states[i], steps[i]) && states[i + 1] == Serve(cfg, states[i], steps[i]).0
    }

    function Answer(i: nat): Response
      requires i < |steps| && i < |states|
    {
      Serve(cfg, states[i], steps[i]).1
    }
  }

  // ----- lineage -----

  datatype Lineage = Redemption(authorized: nat, redeemed: nat) | Refreshed(parent: Lineage, at: nat)

  // Step `i` sealed `raw` and handed it out, as an access token or as a refresh token.
  ghost predicate Issues(run: Run, i: nat, raw: Raw, access: bool)
    requires i < |run.steps| && i < |run.states|
  {
    && run.Answer(i).Granted?
    && if access then run.Answer(i).access == ACCESS_PREFIX + run.cfg.encode(raw)
       else run.Answer(i).refresh == Some(REFRESH_PREFIX + run.cfg.encode(raw))
  }

  /** Step `a` is an authorization the validator accepted, for a redirect that its client had registered before, and
      it sealed `raw` and handed it out as a code. */
  ghost predicate Authorized(run: Run, a: nat, raw: Raw) {
    && a < |run.steps| && a < |run.states|
    && run.steps[a].DoAuthorize? && run.steps[a].raw == raw
    && run.Answer(a) == Redirected(CODE_PREFIX + run.cfg.encode(raw))
    && run.steps[a].verdict
    && exists r :: 0 <= r < a && RegisteredWith(run, r, run.steps[a].form)
  }

  ghost predicate RegisteredWith(run: Run, r: nat, form: Form) {
    && r < |run.steps| && r < |run.states|
    && run.steps[r].DoRegister?
    && run.Answer(r) == ClientRegistered(form.clientId)
    && form.redirectUri in run.steps[r].uris && UriAllowed(run.cfg, form.redirectUri)
  }

  /** Step `b` presented some spelling of the code of authorization `a`, with the same client and redirect, and with a
      verifier whose S256 hash is the challenge recorded there. */
  ghost predicate Redeems(run: Run, a: nat, b: nat) {
    && a < b < |run.steps|
    && run.steps[b].DoRedeem?
    && Unwrap(run.cfg, CODE_PREFIX, run.steps[b].grant.code).Some?
    && Authorized(run, a, Unwrap(run.cfg, CODE_PREFIX, run.steps[b].grant.code).value)
    && run.steps[b].grant.clientId == run.steps[a].form.clientId
    && run.steps[b].grant.redirectUri == run.steps[a].form.redirectUri
    && run.cfg.s256(run.steps[b].grant.verifier) == run.steps[a].form.challenge
  }

  /** `raw` was issued before step `n` at the end of `lineage`. */
  ghost predicate Descends(run: Run, n: nat, lineage: Lineage, raw: Raw, access: bool)
    requires run.Valid()
  {
    match lineage
    case Redemption(a, b) =>
      b < n && b < |run.steps| && Redeems(run, a, b) && Issues(run, b, raw, access)
    case Refreshed(parent, c) =>
      && c < n && c < |run.steps|
      && run.steps[c].DoRefresh?
      && Issues(run, c, raw, access)
      && Unwrap(run.cfg, REFRESH_PREFIX, run.steps[c].token).Some?
      && Descends(run, c, parent, Unwrap(run.cfg, REFRESH_PREFIX, run.steps[c].token).value, false)
  }

  function Root(lineage: Lineage): nat {
    match lineage
    case Redemption(a, _) => a
    case Refreshed(parent, _) => Root(parent)
  }

  function Last(lineage: Lineage): nat {
    match lineage
    case Redemption(_, b) => b
    case Refreshed(_, c) => c
  }

  function IssueTime(step: Step): int {
    match step
    case DoRegister(_, _) => 0
    case DoAuthorize(_, _, _, _, now, _) => now
    case DoRedeem(_, now, _, _, _) => now
    case DoRefresh(_, now, _, _) => now
  }

  // ----- the invariant -----

  ghost predicate CodeTraced(run: Run, n: nat, raw: Raw, payload: Payload) {
    && payload.CodePayload?
    && exists a :: 0 <= a < n && Authorized(run, a, raw) &&
         run.steps[a].form.clientId == payload.clientId &&
         run.steps[a].form.redirectUri == payload.redirectUri &&
         run.steps[a].form.challenge == payload.challenge &&
         TrimSpace(run.steps[a].apiKey) == payload.credential.apiKey
  }

  ghost predicate TokenTraced(run: Run, n: nat, raw: Raw, payload: Payload, access: bool)
    requires run.Valid()
  {
    && payload.TokenPayload?
    && exists lineage :: TracedBy(run, n, lineage, raw, payload, access)
  }

  ghost predicate TracedBy(run: Run, n: nat, lineage: Lineage, raw: Raw, payload: Payload, access: bool)
    requires run.Valid()
  {
    && Descends(run, n, lineage, raw, access)
    && Root(lineage) < |run.steps| && run.steps[Root(lineage)].DoAuthorize?
    && TrimSpace(run.steps[Root(lineage)].apiKey) == payload.credential.apiKey
    && Last(lineage) < |run.steps|
    && payload.expiresAt ==
       Unix(IssueTime(run.steps[Last(lineage)]) + (if access then run.cfg.accessTtl else run.cfg.refreshTtl))
  }

  ghost predicate SealTraced(run: Run, n: nat, raw: Raw, sealed: Sealed)
    requires run.Valid()
  {
    match sealed.purpose
    case ForCode => CodeTraced(run, n, raw, sealed.payload)
    case ForAccess => TokenTraced(run, n, raw, sealed.payload, true)
    case ForRefresh => TokenTraced(run, n, raw, sealed.payload, false)
  }

  ghost predicate ClientTraced(run: Run, n: nat, id: string, uris: seq<string>) {
    exists r :: 0 <= r < n && r < |run.steps| && r < |run.states| &&
      run.steps[r] == DoRegister(uris, id) && run.Answer(r) == ClientRegistered(id)
  }

  ghost predicate Traced(run: Run, n: nat)
    requires run.Valid() && n <= |run.steps|
  {
    && (forall raw | raw in run.states[n].vault :: SealTraced(run, n, raw, run.states[n].vault[raw]))
    && (forall id | id in run.states[n].clients :: ClientTraced(run, n, id, run.states[n].clients[id]))
  }

  lemma SealTracedLater(run: Run, n: nat, raw: Raw, sealed: Sealed)
    requires run.Valid() && SealTraced(run, n, raw, sealed)
    ensures SealTraced(run, n + 1, raw, sealed)
  {
    if !sealed.purpose.ForCode? {
      var access := sealed.purpose.ForAccess?;
      var lineage :| TracedBy(run, n, lineage, raw, sealed.payload, access);
      assert TracedBy(run, n + 1, lineage, raw, sealed.payload, access);
    }
  }

  lemma StepTraced(run: Run, n: nat)
    requires run.Valid() && n < |run.steps| && Traced(run, n)
    ensures Traced(run, n + 1)
  {
    var st, st1 := run.states[n], run.states[n + 1];
    forall raw | raw in st1.vault
      ensures SealTraced(run, n + 1, raw, st1.vault[raw])
    {
      if raw in st.vault && st1.vault[raw] == st.vault[raw] {
        SealTracedLater(run, n, raw, st.vault[raw]);
      } else {
        match run.steps[n]
        case DoRegister(_, _) =>
        case DoAuthorize(_, _, _, _, _, _) => NewCodeTraced(run, n, raw);
        case DoRedeem(_, _, _, _, _) => RedeemedTraced(run, n, raw);
        case DoRefresh(_, _, _, _) => RefreshedTraced(run, n, raw);
      }
    }
    forall id | id in st1.clients
      ensures ClientTraced(run, n + 1, id, st1.clients[id])
    {
      ClientStaysTraced(run, n, id);
    }
  }

  lemma ClientStaysTraced(run: Run, n: nat, id: string)
    requires run.Valid() && n < |run.steps| && id in run.states[n + 1].clients
    requires id in run.states[n].clients ==> ClientTraced(run, n, id, run.states[n].clients[id])
    ensures ClientTraced(run, n + 1, id, run.states[n + 1].clients[id])
  {
  }

  lemma NewCodeTraced(run: Run, n: nat, raw: Raw)
    requires run.Valid() && n < |run.steps| && Traced(run, n) && run.steps[n].DoAuthorize?
    requires raw in run.states[n + 1].vault
    requires raw in run.states[n].vault ==> run.states[n + 1].vault[raw] != run.states[n].vault[raw]
    ensures SealTraced(run, n + 1, raw, run.states[n + 1].vault[raw])
  {
    var form := run.steps[n].form;
    assert ClientTraced(run, n, form.clientId, run.states[n].clients[form.clientId]);
    var r :| 0 <= r < n && run.steps[r] == DoRegister(run.states[n].clients[form.clientId], form.clientId) &&
      run.Answer(r) == ClientRegistered(form.clientId);
    assert RegisteredWith(run, r, form);
    assert Authorized(run, n, raw);
  }

  /** What a step that issued tokens under `credential` at `now` added to the vault. */
  ghost predicate IssuedFor(run: Run, n: nat, credential: Credential, now: int)
    requires n < |run.steps| && n + 1 < |run.states|
  {
    && IssueTime(run.steps[n]) == now
    && forall raw | raw in run.states[n + 1].vault &&
                     (raw in run.states[n].vault ==> run.states[n + 1].vault[raw] != run.states[n].vault[raw]) ::
         var sealed := run.states[n + 1].vault[raw];
         || (sealed == Sealed(ForAccess, TokenPayload(credential, Unix(now + run.cfg.accessTtl))) &&
             Issues(run, n, raw, true))
         || (sealed == Sealed(ForRefresh, TokenPayload(credential, Unix(now + run.cfg.refreshTtl))) &&
             Issues(run, n, raw, false))
  }

  lemma IssueIsIssuedFor(run: Run, n: nat, st: State, credential: Credential)
    requires n < |run.steps| && n + 1 < |run.states| && (run.steps[n].DoRedeem? || run.steps[n].DoRefresh?)
    requires st.vault == run.states[n].vault
    requires (run.states[n + 1], run.Answer(n)) ==
             IssueTokens(run.cfg, st, credential, run.steps[n].now, run.steps[n].accessRaw, run.steps[n].refreshRaw)
    ensures IssuedFor(run, n, credential, run.steps[n].now)
  {
  }

  /** The payload a redemption opened, when it issued anything. */
  lemma RedemptionOpens(run: Run, n: nat) returns (code: Raw)
    requires run.Valid() && n < |run.steps| && run.steps[n].DoRedeem?
    requires run.states[n + 1].vault != run.states[n].vault
    ensures var st, grant := run.states[n], run.steps[n].grant;
      && Unwrap(run.cfg, CODE_PREFIX, grant.code) == Some(code)
      && code in st.vault && st.vault[code].purpose.ForCode? && MatchesCode(run.cfg, st.vault[code].payload, grant)
      && IssuedFor(run, n, st.vault[code].payload.credential, run.steps[n].now)
  {
    var st, step := run.states[n], run.steps[n];
    code := Unwrap(run.cfg, CODE_PREFIX, step.grant.code).value;
    var claim := ServeClaim(st.seen, step.grant.code, SingleRedemption.CODE_TTL, step.claimAt);
    IssueIsIssuedFor(run, n, st.(seen := claim.0), st.vault[code].payload.credential);
  }

  lemma RedeemedTraced(run: Run, n: nat, raw: Raw)
    requires run.Valid() && n < |run.steps| && Traced(run, n) && run.steps[n].DoRedeem?
    requires raw in run.states[n + 1].vault
    requires raw in run.states[n].vault ==> run.states[n + 1].vault[raw] != run.states[n].vault[raw]
    ensures SealTraced(run, n + 1, raw, run.states[n + 1].vault[raw])
  {
    var code := RedemptionOpens(run, n);
    var payload := run.states[n].vault[code].payload;
    assert SealTraced(run, n, code, run.states[n].vault[code]);
    var a :| 0 <= a < n && Authorized(run, a, code) &&
      run.steps[a].form.clientId == payload.clientId && run.steps[a].form.redirectUri == payload.redirectUri &&
      run.steps[a].form.challenge == payload.challenge && TrimSpace(run.steps[a].apiKey) == payload.credential.apiKey;
    LineageOfIssue(run, n, raw, payload.credential, Redemption(a, n));
  }

  /** Tokens issued at step `n` descend along `lineage` when everything before the issue does. */
  lemma LineageOfIssue(run: Run, n: nat, raw: Raw, credential: Credential, lineage: Lineage)
    requires run.Valid() && n < |run.steps| && Last(lineage) == n
    requires IssuedFor(run, n, credential, IssueTime(run.steps[n]))
    requires raw in run.states[n + 1].vault
    requires raw in run.states[n].vault ==> run.states[n + 1].vault[raw] != run.states[n].vault[raw]
    requires forall raw, access :: Issues(run, n, raw, access) ==> Descends(run, n + 1, lineage, raw, access)
    requires Root(lineage) < |run.steps| && run.steps[Root(lineage)].DoAuthorize?
    requires TrimSpace(run.steps[Root(lineage)].apiKey) == credential.apiKey
    ensures SealTraced(run, n + 1, raw, run.states[n + 1].vault[raw])
  {
    var sealed := run.states[n + 1].vault[raw];
    var access := sealed.purpose.ForAccess?;
    assert Issues(run, n, raw, access);
    assert TracedBy(run, n + 1, lineage, raw, sealed.payload, access);
  }

  lemma RefreshOpens(run: Run, n: nat) returns (presented: Raw)
    requires run.Valid() && n < |run.steps| && run.steps[n].DoRefresh?
    requires run.states[n + 1].vault != run.states[n].vault
    ensures var st := run.states[n];
      && Unwrap(run.cfg, REFRESH_PREFIX, run.steps[n].token) == Some(presented)
      && presented in st.vault && st.vault[presented].purpose.ForRefresh?
      && IssuedFor(run, n, st.vault[presented].payload.credential, run.steps[n].now)
  {
    presented := Unwrap(run.cfg, REFRESH_PREFIX, run.steps[n].token).value;
    IssueIsIssuedFor(run, n, run.states[n], run.states[n].vault[presented].payload.credential);
  }

  lemma RefreshedTraced(run: Run, n: nat, raw: Raw)
    requires run.Valid() && n < |run.steps| && Traced(run, n) && run.steps[n].DoRefresh?
    requires raw in run.states[n + 1].vault
    requires raw in run.states[n].vault ==> run.states[n + 1].vault[raw] != run.states[n].vault[raw]
    ensures SealTraced(run, n + 1, raw, run.states[n + 1].vault[raw])
  {
    var presented := RefreshOpens(run, n);
    var payload := run.states[n].vault[presented].payload;
    assert SealTraced(run, n, presented, run.states[n].vault[presented]);
    var parent :| TracedBy(run, n, parent, presented, payload, false);
    LineageOfIssue(run, n, raw, payload.credential, Refreshed(parent, n));
  }

  lemma {:induction false} RunTraced(run: Run, n: nat)
    requires run.Valid() && n <= |run.steps|
    ensures Traced(run, n)
  {
    if n > 0 {
      RunTraced(run, n - 1);
      StepTraced(run, n - 1);
    }
  }

  /** Every access token that a request unwraps to an API key, in whatever spelling, was issued, through some number of
      refreshes, from a redemption by the right client, redirect and verifier of an authorization at which the validator
      accepted that key; and its lifetime has not passed. */
  lemma AcceptedTokenDescends(run: Run, n: nat, keyHeader: string, authorization: string, now: int, apiKey: string)
    returns (lineage: Lineage, raw: Raw)
    requires run.Valid() && n <= |run.steps|
    requires TrimSpace(keyHeader) == ""
    requires BearerToken(authorization).Some? && ACCESS_PREFIX <= BearerToken(authorization).value
    requires CredentialFromRequest(run.cfg, run.states[n], true, keyHeader, authorization, now) == Key(apiKey)
    ensures Unwrap(run.cfg, ACCESS_PREFIX, BearerToken(authorization).value) == Some(raw)
    ensures Descends(run, n, lineage, raw, true)
    ensures Root(lineage) < |run.steps| && run.steps[Root(lineage)].DoAuthorize?
    ensures TrimSpace(run.steps[Root(lineage)].apiKey) == apiKey && run.steps[Root(lineage)].verdict
    ensures Last(lineage) < n && now < IssueTime(run.steps[Last(lineage)]) + run.cfg.accessTtl
  {
    RunTraced(run, n);
    raw := Unwrap(run.cfg, ACCESS_PREFIX, BearerToken(authorization).value).value;
    var sealed := run.states[n].vault[raw];
    assert SealTraced(run, n, raw, sealed);
    lineage :| TracedBy(run, n, lineage, raw, sealed.payload, true);
    RootIsAuthorized(run, n, lineage, raw, true);
    ExpiryIsExact(IssueTime(run.steps[Last(lineage)]), run.cfg.accessTtl, now);
  }

  /** Every lineage starts at an authorization that the validator accepted, for a redirect that the client had
      registered and that is https or leads to a loopback address. */
  lemma {:induction false} RootIsAuthorized(run: Run, n: nat, lineage: Lineage, raw: Raw, access: bool)
    requires run.Valid() && Descends(run, n, lineage, raw, access)
    ensures Root(lineage) < n && Root(lineage) < |run.steps|
    ensures run.steps[Root(lineage)].DoAuthorize? && run.steps[Root(lineage)].verdict
    ensures Authorized(run, Root(lineage), run.steps[Root(lineage)].raw)
    ensures UriAllowed(run.cfg, run.steps[Root(lineage)].form.redirectUri)
  {
    match lineage
    case Redemption(_, _) =>
    case Refreshed(parent, c) =>
      RootIsAuthorized(run, c, parent, Unwrap(run.cfg, REFRESH_PREFIX, run.steps[c].token).value, false);
  }

  // ----- and back: what was issued works -----

  /** A seal, once made, opens the same way ever after: the server keeps nothing it could forget. */
  lemma {:induction false} SealsLast(run: Run, i: nat, j: nat, raw: Raw)
    requires run.Valid() && i <= j <= |run.steps| && raw in run.states[i].vault
    ensures raw in run.states[j].vault && run.states[j].vault[raw] == run.states[i].vault[raw]
  {
    if i < j {
      SealsLast(run, i, j - 1, raw);
    }
  }

  lemma BearerCarries(token: string)
    requires token != "" && HasNoOuterSpace(token)
    ensures BearerToken("Bearer " + token) == Some(token)
  {
    var scheme := "Bearer";
    IsTrimmedAlready(scheme);
    IsTrimmedAlready(token);
    assert "Bearer " + token == scheme + " " + token && EqualFoldAscii(scheme, "bearer");
    assert Presents(scheme + " " + token, token);
    BearerTokenIff("Bearer " + token, token);
  }

  lemma IssuedTextHasNoSpace(cfg: Config, raw: Raw)
    requires IsLawful(cfg) && raw != []
    ensures HasNoOuterSpace(ACCESS_PREFIX + cfg.encode(raw))
  {
    var text := cfg.encode(raw);
    assert UrlSafe(text[|text| - 1]) && (ACCESS_PREFIX + text)[|ACCESS_PREFIX + text| - 1] == text[|text| - 1];
  }

  predicate IsGrant(run: Run, b: nat) {
    && b < |run.steps| && b < |run.states|
    && (run.steps[b].DoRedeem? || run.steps[b].DoRefresh?) && run.Answer(b).Granted?
  }

  /** A client_id that was issued is known ever after, with exactly the redirects it was issued for. */
  lemma {:induction false} ClientsLast(run: Run, r: nat, n: nat, id: string)
    requires run.Valid() && r < n <= |run.steps| && run.steps[r].DoRegister?
    requires run.steps[r].newId == id && run.Answer(r) == ClientRegistered(id)
    ensures id != "" && id in run.states[n].clients && run.states[n].clients[id] == run.steps[r].uris
  {
    if r < n - 1 {
      ClientsLast(run, r, n - 1, id);
    }
  }

  /** So an authorization request in the name of an issued client_id is in order, in every later state, exactly if it
      asks for a code with an S256 challenge and for one of the redirects of its registration. */
  lemma RegisteredIsRecognised(run: Run, r: nat, n: nat, form: Form)
    requires run.Valid() && r < n <= |run.steps| && run.steps[r].DoRegister?
    requires run.steps[r].newId == form.clientId && run.Answer(r) == ClientRegistered(form.clientId)
    ensures ParseAuthorizeRequest(run.states[n], form).None? <==>
            && form.redirectUri != "" && form.redirectUri in run.steps[r].uris
            && form.responseType == "code" && form.challengeMethod == "S256" && form.challenge != ""
  {
    ClientsLast(run, r, n, form.clientId);
  }

  /** What a grant handed out is sealed, with its time to live. */
  lemma GrantSeals(run: Run, b: nat)
    requires run.Valid() && IsGrant(run, b)
    ensures var vault, a := run.states[b + 1].vault, run.steps[b].accessRaw;
      && run.Answer(b).access == ACCESS_PREFIX + run.cfg.encode(a)
      && a != [] && a in vault && vault[a].purpose.ForAccess? && vault[a].payload.TokenPayload?
      && vault[a].payload.expiresAt == Unix(IssueTime(run.steps[b]) + run.cfg.accessTtl)
    ensures run.Answer(b).refresh.Some? ==>
      var vault, r := run.states[b + 1].vault, run.steps[b].refreshRaw;
      && run.Answer(b).refresh == Some(REFRESH_PREFIX + run.cfg.encode(r)) && run.cfg.refreshTtl > 0
      && r != [] && r in vault && vault[r].purpose.ForRefresh? && vault[r].payload.TokenPayload?
      && vault[r].payload.expiresAt == Unix(IssueTime(run.steps[b]) + run.cfg.refreshTtl)
  {
  }

  /** An access token handed out at step `b` unwraps, in every later state and whatever happened since, to the key it
      was issued for, at exactly the instants before the last whole second of its life. */
  lemma GrantedTokenUnwraps(run: Run, b: nat, n: nat, now: int)
    requires run.Valid() && b < n <= |run.steps| && IsGrant(run, b)
    ensures run.steps[b].accessRaw in run.states[b + 1].vault
    ensures CredentialFromRequest(run.cfg, run.states[n], true, "", "Bearer " + run.Answer(b).access, now) ==
              if now < EndOfLife(IssueTime(run.steps[b]), run.cfg.accessTtl)
              then Key(run.states[b + 1].vault[run.steps[b].accessRaw].payload.credential.apiKey)
              else InvalidCredential
  {
    var raw, token := run.steps[b].accessRaw, run.Answer(b).access;
    GrantedTokenOpens(run, b, n, now);
    IssuedTextHasNoSpace(run.cfg, raw);
    BearerCarries(token);
  }

  lemma GrantedTokenOpens(run: Run, b: nat, n: nat, now: int)
    requires run.Valid() && b < n <= |run.steps| && IsGrant(run, b)
    ensures var raw, vault := run.steps[b].accessRaw, run.states[b + 1].vault;
      && raw != [] && raw in vault && run.Answer(b).access == ACCESS_PREFIX + run.cfg.encode(raw)
      && Open(run.cfg, run.states[n], ACCESS_PREFIX, ForAccess, run.Answer(b).access, now) ==
         if now < EndOfLife(IssueTime(run.steps[b]), run.cfg.accessTtl) then Some(vault[raw].payload) else None
  {
    GrantSeals(run, b);
    SealsLast(run, b + 1, n, run.steps[b].accessRaw);
    SealedOpensUntil(
      run.cfg, run.states[n], ACCESS_PREFIX, run.steps[b].accessRaw, IssueTime(run.steps[b]), run.cfg.accessTtl);
  }

  /** A refresh token handed out at step `b` yields tokens, in every later state, at exactly the instants before the
      last whole second of its life. */
  lemma GrantedRefreshWorks(run: Run, b: nat, n: nat, now: int, accessRaw: Raw, refreshRaw: Raw)
    requires run.Valid() && b < n <= |run.steps| && IsGrant(run, b) && run.Answer(b).refresh.Some?
    ensures Refresh(run.cfg, run.states[n], run.Answer(b).refresh.value, now, accessRaw, refreshRaw).1.Granted? <==>
            now < EndOfLife(IssueTime(run.steps[b]), run.cfg.refreshTtl)
  {
    var raw := run.steps[b].refreshRaw;
    GrantSeals(run, b);
    SealsLast(run, b + 1, n, raw);
    SealedOpensUntil(run.cfg, run.states[n], REFRESH_PREFIX, raw, IssueTime(run.steps[b]), run.cfg.refreshTtl);
    assert Open(run.cfg, run.states[n], REFRESH_PREFIX, ForRefresh, run.Answer(b).refresh.value, now).Some? <==>
           now < EndOfLife(IssueTime(run.steps[b]), run.cfg.refreshTtl);
  }

  /** A code passes every check, in whatever spelling, in exactly the requests that repeat its client and redirect,
      prove its challenge, and come before the last whole second of its minute. */
  lemma CodeChecksOutIff(run: Run, a: nat, n: nat, grant: CodeGrant, now: int)
    requires run.Valid() && a < n <= |run.steps| && run.steps[a].DoAuthorize? && run.Answer(a).Redirected?
    requires Unwrap(run.cfg, CODE_PREFIX, grant.code) == Some(run.steps[a].raw) && grant.verifier != ""
    ensures var form := run.steps[a].form;
      CheckCodeGrant(run.cfg, run.states[n], grant, now).None? <==>
        && grant.clientId == form.clientId
        && grant.redirectUri == form.redirectUri
        && run.cfg.s256(grant.verifier) == form.challenge
        && now < EndOfLife(run.steps[a].now, SingleRedemption.CODE_TTL)
  {
    var form := run.steps[a].form;
    assert form.clientId != "" && form.redirectUri != "";
    SealsLast(run, a + 1, n, run.steps[a].raw);
    ExpiryIsExact(run.steps[a].now, SingleRedemption.CODE_TTL, now);
  }
}
