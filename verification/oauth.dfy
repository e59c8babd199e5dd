/**
 The authorization server of internal/oauth: registration, authorization, and the token endpoint.

 Sealing and signing are ideal. `vault` holds the bytes of everything that seal has produced under the server's key,
 with its purpose and payload; open succeeds exactly on those, for the purpose they were sealed for. What is handed
 out is a text for those bytes, and what comes back is decoded first, so one sealed value may come back in several
 spellings. `clients` holds every client_id whose signature verifies, that is, every one that was issued. SHA-256 of
 a code is taken to be collision-free, so a code is tracked under its own text. Randomness (fresh bytes for each
 seal), the validator's verdict and each reading of the clock are inputs.
 */
module Oauth {
  import opened Octets
  import opened Wrappers
  import opened Clock
  import opened Text
  import opened Replay
  import SingleRedemption

  const CODE_PREFIX := "tnmcp_code_"
  const ACCESS_PREFIX := "tnmcp_at_"
  const REFRESH_PREFIX := "tnmcp_rt_"

  type Raw = seq<byte>

  datatype Credential = Credential(username: string, apiKey: string)

  datatype Purpose = ForCode | ForAccess | ForRefresh

  datatype Payload =
    | CodePayload(credential: Credential, clientId: string, redirectUri: string, challenge: string, expiresAt: int)
    | TokenPayload(credential: Credential, expiresAt: int)

  datatype Sealed = Sealed(purpose: Purpose, payload: Payload)

  // What url.ParseRequestURI makes of a redirect URI.
  datatype Uri = Uri(absolute: bool, scheme: string, host: string)

  // s256 is BASE64URL(SHA256(.)) of RFC 7636 section 4.6; encode and decode are the codec of sealed values.
  datatype Config = Config(
    accessTtl: int, refreshTtl: int, s256: string -> string, parseUri: string -> Option<Uri>,
    encode: Raw -> string, decode: string -> Option<Raw>)

  datatype State = State(clients: map<string, seq<string>>, vault: map<Raw, Sealed>, seen: map<string, int>)

  datatype Form = Form(
    responseType: string, clientId: string, redirectUri: string, challenge: string, challengeMethod: string)

  datatype Response =
    | ClientRegistered(clientId: string)
    | Redirected(code: string)
    | ConsentForm
    | Problem(message: string)
    | OAuthError(error: string)
    | Granted(access: string, expiresIn: int, refresh: Option<string>)

  /** The codec reads back what it wrote, in characters of unpadded base64url. */
  ghost predicate IsLawful(cfg: Config) {
    forall raw | raw != [] ::
      && cfg.decode(cfg.encode(raw)) == Some(raw)
      && cfg.encode(raw) != "" && forall i | 0 <= i < |cfg.encode(raw)| :: UrlSafe(cfg.encode(raw)[i])
  }

  predicate IsFresh(st: State, raw: Raw) {
    raw != [] && raw !in st.vault
  }

  function Seal(st: State, raw: Raw, purpose: Purpose, payload: Payload): State {
    st.(vault := st.vault[raw := Sealed(purpose, payload)])
  }

  /** The sealed bytes that a text stands for, whether or not anything was sealed under them. */
  function Unwrap(cfg: Config, prefix: string, token: string): Option<Raw> {
    var body := CutPrefix(token, prefix);
    if body.None? then None else cfg.decode(body.value)
  }

  /** DecodeCode and decodeToken: cut the prefix, decode, open for the purpose, check the expiry. */
  function Open(cfg: Config, st: State, prefix: string, purpose: Purpose, token: string, now: int): (r: Option<Payload>)
  {
    var raw := Unwrap(cfg, prefix, token);
    if raw.None? || raw.value !in st.vault then None
    else
      var sealed := st.vault[raw.value];
      if sealed.purpose != purpose || Unix(now) >= sealed.payload.expiresAt then None else Some(sealed.payload)
  }

  // ----- registration -----

  const LOOPBACK := ["127.0.0.1", "::1", "localhost"]

  /** validateRedirectURIScheme: https, or http to a loopback address. */
  predicate UriAllowed(cfg: Config, raw: string) {
    var uri := cfg.parseUri(raw);
    && uri.Some? && uri.value.absolute
    && (uri.value.scheme == "https" || (uri.value.scheme == "http" && uri.value.host in LOOPBACK))
  }

  function Register(cfg: Config, st: State, uris: seq<string>, clientId: string): (r: (State, Response)) {
    if |uris| == 0 then (st, OAuthError("invalid_redirect_uri"))
    else if exists i :: 0 <= i < |uris| && !UriAllowed(cfg, uris[i]) then (st, OAuthError("invalid_redirect_uri"))
    else (st.(clients := st.clients[clientId := uris]), ClientRegistered(clientId))
  }

  // ----- authorization -----

  /** parseAuthorizeRequest: the first requirement the form fails, or nothing. */
  function ParseAuthorizeRequest(st: State, form: Form): (problem: Option<string>)
    ensures problem.None? <==>
      && form.responseType == "code" && form.challengeMethod == "S256" && form.challenge != ""
      && form.clientId != "" && form.clientId in st.clients
      && form.redirectUri != "" && form.redirectUri in st.clients[form.clientId]
  {
    if form.responseType != "code" then Some("response_type")
    else if form.clientId == "" then Some("client_id is required")
    else if form.clientId !in st.clients then Some("client_id is not recognized")
    else if form.redirectUri == "" then Some("redirect_uri is required")
    else if form.redirectUri !in st.clients[form.clientId] then Some("redirect_uri is not registered")
    else if form.challengeMethod != "S256" || form.challenge == "" then Some("code_challenge")
    else None
  }

  /** handleAuthorizePost; `verdict` is the validator's answer for the trimmed key. */
  function Authorize(
    cfg: Config, st: State, form: Form, username: string, apiKey: string, verdict: bool, now: int, raw: Raw)
    : (r: (State, Response))
  {
    var problem := ParseAuthorizeRequest(st, form);
    if problem.Some? then (st, Problem(problem.value))
    else if TrimSpace(apiKey) == "" then (st, ConsentForm)
    else if !verdict then (st, ConsentForm)
    else
      var credential := Credential(TrimSpace(username), TrimSpace(apiKey));
      (Seal(st, raw, ForCode,
            CodePayload(
              credential, form.clientId, form.redirectUri, form.challenge, Unix(now + SingleRedemption.CODE_TTL))),
       Redirected(CODE_PREFIX + cfg.encode(raw)))
  }

  // ----- the token endpoint -----

  predicate VerifyPkce(cfg: Config, challenge: string, verifier: string) {
    cfg.s256(verifier) == challenge
  }

  function IssueTokens(cfg: Config, st: State, credential: Credential, now: int, accessRaw: Raw, refreshRaw: Raw)
    : (r: (State, Response))
  {
    var st1 := Seal(st, accessRaw, ForAccess, TokenPayload(credential, Unix(now + cfg.accessTtl)));
    var access := ACCESS_PREFIX + cfg.encode(accessRaw);
    if cfg.refreshTtl > 0 then
      (Seal(st1, refreshRaw, ForRefresh, TokenPayload(credential, Unix(now + cfg.refreshTtl))),
       Granted(access, WholeSeconds(cfg.accessTtl), Some(REFRESH_PREFIX + cfg.encode(refreshRaw))))
    else (st1, Granted(access, WholeSeconds(cfg.accessTtl), None))
  }

  datatype CodeGrant = CodeGrant(clientId: string, code: string, verifier: string, redirectUri: string)

  /** What handleAuthorizationCodeGrant checks before it claims the code (RFC 6749 section 4.1.3). */
  function CheckCodeGrant(cfg: Config, st: State, grant: CodeGrant, now: int): (r: Option<string>) {
    if grant.code == "" || grant.verifier == "" || grant.redirectUri == "" || grant.clientId == "" then
      Some("invalid_request")
    else
      var payload := Open(cfg, st, CODE_PREFIX, ForCode, grant.code, now);
      if payload.None? || payload.value.TokenPayload? then Some("invalid_grant")
      else if grant.clientId != payload.value.clientId then Some("invalid_grant")
      else if grant.redirectUri != payload.value.redirectUri then Some("invalid_grant")
      else if !VerifyPkce(cfg, payload.value.challenge, grant.verifier) then Some("invalid_grant")
      else None
  }

  /** handleAuthorizationCodeGrant; `now` is its own clock reading, `claimAt` the cache's. */
  function RedeemCode(
    cfg: Config, st: State, grant: CodeGrant, now: int, claimAt: int, accessRaw: Raw, refreshRaw: Raw)
    : (r: (State, Response))
  {
    var error := CheckCodeGrant(cfg, st, grant, now);
    if error.Some? then (st, OAuthError(error.value))
    else
      var claim := ServeClaim(st.seen, grant.code, SingleRedemption.CODE_TTL, claimAt);
      var st1 := st.(seen := claim.0);
      if !claim.1 then (st1, OAuthError("invalid_grant"))
      else
        var payload := Open(cfg, st, CODE_PREFIX, ForCode, grant.code, now).value;
        IssueTokens(cfg, st1, payload.credential, now, accessRaw, refreshRaw)
  }

  /** handleRefreshTokenGrant (RFC 6749 section 6). */
  function Refresh(cfg: Config, st: State, token: string, now: int, accessRaw: Raw, refreshRaw: Raw)
    : (r: (State, Response))
  {
    if cfg.refreshTtl <= 0 then (st, OAuthError("unsupported_grant_type"))
    else if token == "" then (st, OAuthError("invalid_request"))
    else
      var payload := Open(cfg, st, REFRESH_PREFIX, ForRefresh, token, now);
      if payload.None? then (st, OAuthError("invalid_grant"))
      else IssueTokens(cfg, st, payload.value.credential, now, accessRaw, refreshRaw)
  }

  // ----- the resource side: CredentialFromRequest of internal/server/session.go -----

  datatype KeyResult = Key(apiKey: string) | NoCredential | InvalidCredential

  // The bearer value of an Authorization header, when there is one.
  function BearerToken(authorization: string): (r: Option<string>) {
    var cut := CutSpace(authorization);
    if cut.None? || !EqualFoldAscii(TrimSpace(cut.value.0), "bearer") || TrimSpace(cut.value.1) == "" then None
    else Some(TrimSpace(cut.value.1))
  }

  function CredentialFromRequest(
    cfg: Config, st: State, oauth: bool, keyHeader: string, authorization: string, now: int): (r: KeyResult)
  {
    if TrimSpace(keyHeader) != "" then Key(TrimSpace(keyHeader))
    else
      var token := BearerToken(authorization);
      if token.None? then NoCredential
      else if oauth && ACCESS_PREFIX <= token.value then
        var payload := Open(cfg, st, ACCESS_PREFIX, ForAccess, token.value, now);
        if payload.None? then InvalidCredential else Key(payload.value.credential.apiKey)
      else Key(token.value)
  }

  /** The header is the word "bearer" in any case, a space, and the token, with further spaces around either. */
  ghost predicate Presents(authorization: string, token: string) {
    token != "" && exists scheme, word, value ::
      && authorization == scheme + " " + value && ' ' !in scheme
      && IsTrimmed(word, scheme) && EqualFoldAscii(word, "bearer") && IsTrimmed(token, value)
  }

  lemma BearerTokenIff(authorization: string, token: string)
    ensures BearerToken(authorization) == Some(token) <==> Presents(authorization, token)
  {
    var cut := CutSpace(authorization);
    if cut.Some? {
      var (scheme, value) := cut.value;
      CutSpaceIff(authorization, scheme, value);
      TrimSpaceIff(scheme, TrimSpace(scheme));
      TrimSpaceIff(value, TrimSpace(value));
    }
    if Presents(authorization, token) {
      var scheme, word, value :| authorization == scheme + " " + value && ' ' !in scheme &&
        IsTrimmed(word, scheme) && EqualFoldAscii(word, "bearer") && IsTrimmed(token, value);
      CutSpaceIff(authorization, scheme, value);
      TrimSpaceIff(scheme, word);
      TrimSpaceIff(value, token);
    }
  }

  /** The key a presented token stands for: an access token of this server for the one it opens to, if it does; any
      other token for itself. */
  predicate StandsFor(cfg: Config, st: State, oauth: bool, token: string, now: int, apiKey: string) {
    if oauth && ACCESS_PREFIX <= token then
      var payload := Open(cfg, st, ACCESS_PREFIX, ForAccess, token, now);
      payload.Some? && payload.value.credential.apiKey == apiKey
    else apiKey == token
  }

  /** Whose request it is: that of the key in the key header, if there is one, whatever else is presented; else that of
      the key the bearer token stands for. A request without either has no credential, and one whose access token does
      not open is refused. */
  lemma CredentialIff(
    cfg: Config, st: State, oauth: bool, keyHeader: string, authorization: string, now: int, apiKey: string)
    ensures var answer := CredentialFromRequest(cfg, st, oauth, keyHeader, authorization, now);
      && (answer == Key(apiKey) <==>
            if !IsBlank(keyHeader) then IsTrimmed(apiKey, keyHeader)
            else exists token :: Presents(authorization, token) && StandsFor(cfg, st, oauth, token, now, apiKey))
      && (answer == NoCredential <==> IsBlank(keyHeader) && forall token :: !Presents(authorization, token))
  {
    TrimSpaceIff(keyHeader, apiKey);
    BlankIff(keyHeader);
    forall token
      ensures BearerToken(authorization) == Some(token) <==> Presents(authorization, token)
    {
      BearerTokenIff(authorization, token);
    }
    var token := BearerToken(authorization);
    assert token.Some? ==> Presents(authorization, token.value);
  }

  lemma BlankIff(s: string)
    ensures TrimSpace(s) == "" <==> IsBlank(s)
  {
    TrimSpaceIff(s, "");
    if IsBlank(s) {
      assert IsBlank("") && s == s + "" + "";
    }
  }

  // ----- expiry -----

  /** A value sealed at `t` for `ttl` is accepted at every instant up to t + ttl - 1s and at none from t + ttl on;
      exactly, until the last whole second of its life. */
  lemma ExpiryIsExact(t: int, ttl: int, u: int)
    ensures Unix(u) < Unix(t + ttl) <==> u < t + ttl - Fraction(t + ttl)
    ensures u <= t + ttl - SECOND ==> Unix(u) < Unix(t + ttl)
    ensures u >= t + ttl ==> !(Unix(u) < Unix(t + ttl))
  {
  }

  /** The token opens to the payload at every instant before `end`, and to nothing from then on. */
  ghost predicate OpensUntil(
    cfg: Config, st: State, prefix: string, purpose: Purpose, token: string, payload: Payload, end: int)
  {
    forall t :: Open(cfg, st, prefix, purpose, token, t) == if t < end then Some(payload) else None
  }

  // The instant from which something sealed at `t` for `ttl` is no longer accepted.
  function EndOfLife(t: int, ttl: int): int {
    t + ttl - Fraction(t + ttl)
  }

  lemma SealedOpensUntil(cfg: Config, st: State, prefix: string, raw: Raw, t: int, ttl: int)
    requires IsLawful(cfg) && raw != [] && raw in st.vault && st.vault[raw].payload.expiresAt == Unix(t + ttl)
    ensures OpensUntil(
      cfg, st, prefix, st.vault[raw].purpose, prefix + cfg.encode(raw), st.vault[raw].payload, EndOfLife(t, ttl))
  {
    assert CutPrefix(prefix + cfg.encode(raw), prefix) == Some(cfg.encode(raw));
    forall u
      ensures Unix(u) < Unix(t + ttl) <==> u < EndOfLife(t, ttl)
    {
      ExpiryIsExact(t, ttl, u);
    }
  }

  // ----- what the endpoints promise a caller -----

  /** expires_in is the time to live in whole seconds, rounded toward zero, and for a time to live that is not negative
      it overstates the true life by less than a second. */
  predicate TellsLifetime(cfg: Config, answer: Response, now: int)
    requires answer.Granted?
  {
    var told, life := answer.expiresIn * SECOND, EndOfLife(now, cfg.accessTtl) - now;
    if cfg.accessTtl >= 0 then 0 <= cfg.accessTtl - told < SECOND && told - life < SECOND
    else 0 <= told - cfg.accessTtl < SECOND
  }

  /** The tokens of an answer open to the credential for exactly as long as they live, and it says how long that is. */
  ghost predicate CarriesCredential(cfg: Config, st: State, answer: Response, credential: Credential, now: int)
    requires answer.Granted?
  {
    && TellsLifetime(cfg, answer, now)
    && OpensUntil(cfg, st, ACCESS_PREFIX, ForAccess, answer.access,
         TokenPayload(credential, Unix(now + cfg.accessTtl)), EndOfLife(now, cfg.accessTtl))
    && (answer.refresh.Some? <==> cfg.refreshTtl > 0)
    && (answer.refresh.Some? ==>
          OpensUntil(cfg, st, REFRESH_PREFIX, ForRefresh, answer.refresh.value,
            TokenPayload(credential, Unix(now + cfg.refreshTtl)), EndOfLife(now, cfg.refreshTtl)))
  }

  /** What was sealed before is still sealed, and opens the same way. */
  predicate KeepsSeals(st: State, st1: State) {
    forall raw | raw in st.vault :: raw in st1.vault && st1.vault[raw] == st.vault[raw]
  }

  lemma WholeSecondsAreClose(ttl: int)
    ensures if ttl >= 0 then 0 <= ttl - WholeSeconds(ttl) * SECOND < SECOND
            else 0 <= WholeSeconds(ttl) * SECOND - ttl < SECOND
  {
  }

  lemma TokensCarry(cfg: Config, st: State, credential: Credential, now: int, accessRaw: Raw, refreshRaw: Raw)
    requires IsLawful(cfg) && IsFresh(st, accessRaw) && IsFresh(st, refreshRaw) && accessRaw != refreshRaw
    ensures var (st1, answer) := IssueTokens(cfg, st, credential, now, accessRaw, refreshRaw);
      answer.Granted? && CarriesCredential(cfg, st1, answer, credential, now) && KeepsSeals(st, st1)
  {
    var st1 := IssueTokens(cfg, st, credential, now, accessRaw, refreshRaw).0;
    WholeSecondsAreClose(cfg.accessTtl);
    SealedOpensUntil(cfg, st1, ACCESS_PREFIX, accessRaw, now, cfg.accessTtl);
    if cfg.refreshTtl > 0 {
      SealedOpensUntil(cfg, st1, REFRESH_PREFIX, refreshRaw, now, cfg.refreshTtl);
    }
  }

  /** A client that is told expires_in finds its access token good at every instant but the last second of that time,
      at the most, and bad from the end of it on. */
  lemma ExpiresInOverstatesByLessThanASecond(
    cfg: Config, st: State, credential: Credential, now: int, accessRaw: Raw, refreshRaw: Raw, t: int)
    requires IsLawful(cfg) && IsFresh(st, accessRaw) && IsFresh(st, refreshRaw) && accessRaw != refreshRaw
    requires cfg.accessTtl >= 0
    ensures var (st1, answer) := IssueTokens(cfg, st, credential, now, accessRaw, refreshRaw);
      && answer.Granted?
      && var opens := Open(cfg, st1, ACCESS_PREFIX, ForAccess, answer.access, t).Some?;
         && (t <= now + (answer.expiresIn - 1) * SECOND ==> opens)
         && (t >= now + cfg.accessTtl ==> !opens)
  {
    TokensCarry(cfg, st, credential, now, accessRaw, refreshRaw);
  }

  // A grant request leaves out something it must say.
  predicate IsIncomplete(grant: CodeGrant) {
    grant.code == "" || grant.verifier == "" || grant.redirectUri == "" || grant.clientId == ""
  }

  /** The request repeats the client and the redirect of the code and proves its challenge. */
  predicate MatchesCode(cfg: Config, payload: Payload, grant: CodeGrant) {
    && payload.CodePayload?
    && grant.clientId == payload.clientId && grant.redirectUri == payload.redirectUri
    && cfg.s256(grant.verifier) == payload.challenge
  }

  /** No request with this text of a code is granted anything when its claim reads the clock before `end`. */
  ghost predicate IsSpentUntil(cfg: Config, st: State, code: string, end: int) {
    forall grant: CodeGrant, now, claimAt, a, b | grant.code == code && claimAt < end ::
      !RedeemCode(cfg, st, grant, now, claimAt, a, b).1.Granted?
  }

  lemma GrantMeans(cfg: Config, st: State, grant: CodeGrant, now: int, claimAt: int, accessRaw: Raw, refreshRaw: Raw)
    requires IsLawful(cfg) && IsFresh(st, accessRaw) && IsFresh(st, refreshRaw) && accessRaw != refreshRaw
    requires RedeemCode(cfg, st, grant, now, claimAt, accessRaw, refreshRaw).1.Granted?
    ensures var (st1, answer) := RedeemCode(cfg, st, grant, now, claimAt, accessRaw, refreshRaw);
      var payload := Open(cfg, st, CODE_PREFIX, ForCode, grant.code, now);
      && payload.Some? && MatchesCode(cfg, payload.value, grant)
      && CarriesCredential(cfg, st1, answer, payload.value.credential, now) && KeepsSeals(st, st1)
      && IsSpentUntil(cfg, st1, grant.code, claimAt + SingleRedemption.CODE_TTL)
  {
    var payload := Open(cfg, st, CODE_PREFIX, ForCode, grant.code, now).value;
    var claimed := st.(seen := ServeClaim(st.seen, grant.code, SingleRedemption.CODE_TTL, claimAt).0);
    TokensCarry(cfg, claimed, payload.credential, now, accessRaw, refreshRaw);
  }

  lemma RefreshMeans(cfg: Config, st: State, token: string, now: int, accessRaw: Raw, refreshRaw: Raw)
    requires IsLawful(cfg) && IsFresh(st, accessRaw) && IsFresh(st, refreshRaw) && accessRaw != refreshRaw
    ensures var (st1, answer) := Refresh(cfg, st, token, now, accessRaw, refreshRaw);
      var payload := Open(cfg, st, REFRESH_PREFIX, ForRefresh, token, now);
      && (answer.Granted? <==> cfg.refreshTtl > 0 && payload.Some?)
      && (answer.Granted? ==> CarriesCredential(cfg, st1, answer, payload.value.credential, now))
      && KeepsSeals(st, st1)
  {
    var payload := Open(cfg, st, REFRESH_PREFIX, ForRefresh, token, now);
    if cfg.refreshTtl > 0 && payload.Some? {
      assert token != "";
      TokensCarry(cfg, st, payload.value.credential, now, accessRaw, refreshRaw);
    }
  }
}
