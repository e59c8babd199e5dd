/** The handlers of internal/oauth (register.go, authorize.go, token_handler.go): each runs step by step, and the token
    endpoint changes the replay cache. */
module OauthHandler {
  import opened Wrappers
  import opened Clock
  import opened Replay
  import opened Oauth
  import opened Text
  import SingleRedemption

  class Handler {
    const cfg: Config
    const codes: ReplayCache
    var clients: map<string, seq<string>>
    var vault: map<Raw, Sealed>

    constructor (cfg: Config)
      ensures this.cfg == cfg && fresh(codes)
      ensures View() == State(map[], map[], map[])
    {
      this.cfg := cfg;
      codes := new ReplayCache();
      clients, vault := map[], map[];
    }

    ghost function View(): State
      reads this, codes
    {
      State(clients, vault, codes.seen)
    }

    /** Fresh bytes for the seals of one request. */
    ghost predicate CanSeal(accessRaw: Raw, refreshRaw: Raw)
      reads this, codes
    {
      IsLawful(cfg) && IsFresh(View(), accessRaw) && IsFresh(View(), refreshRaw) && accessRaw != refreshRaw
    }

    method HandleRegister(uris: seq<string>, clientId: string) returns (response: Response)
      modifies this`clients
      ensures (View(), response) == Oauth.Register(cfg, old(View()), uris, clientId)
      ensures response == ClientRegistered(clientId) <==> uris != [] && forall uri | uri in uris :: UriAllowed(cfg, uri)
      ensures response != ClientRegistered(clientId) ==>
                response == OAuthError("invalid_redirect_uri") && clients == old(clients)
    {
      if |uris| == 0 {
        return OAuthError("invalid_redirect_uri");
      }
      for i := 0 to |uris|
        invariant forall j | 0 <= j < i :: UriAllowed(cfg, uris[j])
      {
        if !UriAllowed(cfg, uris[i]) {
          return OAuthError("invalid_redirect_uri");
        }
      }
      clients := clients[clientId := uris];
      return ClientRegistered(clientId);
    }

    /** ValidateRedirectURI: exact match against one of the registered ones. */
    method ValidateRedirectUri(registered: seq<string>, uri: string) returns (ok: bool)
      ensures ok <==> uri in registered
    {
      for i := 0 to |registered|
        invariant uri !in registered[..i]
      {
        if registered[i] == uri {
          return true;
        }
      }
      assert registered[..|registered|] == registered;
      return false;
    }

    method ParseAuthorizeRequest(form: Form) returns (problem: Option<string>)
      ensures problem == Oauth.ParseAuthorizeRequest(View(), form)
    {
      if form.responseType != "code" {
        return Some("response_type");
      }
      if form.clientId == "" {
        return Some("client_id is required");
      }
      if form.clientId !in clients {
        return Some("client_id is not recognized");
      }
      if form.redirectUri == "" {
        return Some("redirect_uri is required");
      }
      var registered := ValidateRedirectUri(clients[form.clientId], form.redirectUri);
      if !registered {
        return Some("redirect_uri is not registered");
      }
      if form.challengeMethod != "S256" || form.challenge == "" {
        return Some("code_challenge");
      }
      return None;
    }

    /** A code is handed out only for a key that the validator accepted (`verdict`), and opens to that key and to the
        request's client, redirect and challenge until the last whole second of its minute. */
    method HandleAuthorizePost(form: Form, username: string, apiKey: string, verdict: bool, now: int, raw: Raw)
      returns (response: Response)
      requires IsLawful(cfg) && IsFresh(View(), raw)
      modifies this`vault
      ensures (View(), response) == Oauth.Authorize(cfg, old(View()), form, username, apiKey, verdict, now, raw)
      ensures response.Redirected? <==>
              verdict && TrimSpace(apiKey) != "" && Oauth.ParseAuthorizeRequest(old(View()), form).None?
      ensures response.Redirected? ==>
                OpensUntil(cfg, View(), CODE_PREFIX, ForCode, response.code,
                  CodePayload(Credential(TrimSpace(username), TrimSpace(apiKey)), form.clientId, form.redirectUri,
                    form.challenge, Unix(now + SingleRedemption.CODE_TTL)),
                  EndOfLife(now, SingleRedemption.CODE_TTL))
      ensures KeepsSeals(old(View()), View()) && (!response.Redirected? ==> View() == old(View()))
    {
      var problem := ParseAuthorizeRequest(form);
      if problem.Some? {
        return Problem(problem.value);
      }
      var user, key := TrimSpace(username), TrimSpace(apiKey);
      if key == "" {
        return ConsentForm;
      }
      if !verdict {
        return ConsentForm;
      }
      var payload := CodePayload(
        Credential(user, key), form.clientId, form.redirectUri, form.challenge, Unix(now + SingleRedemption.CODE_TTL));
      vault := vault[raw := Sealed(ForCode, payload)];
      SealedOpensUntil(cfg, View(), CODE_PREFIX, raw, now, SingleRedemption.CODE_TTL);
      return Redirected(CODE_PREFIX + cfg.encode(raw));
    }

    /** Tokens are granted only for the credential in a code that this very request matches; and once granted, the same
        text is granted nothing more until its claim ends. */
    method HandleAuthorizationCodeGrant(grant: CodeGrant, now: int, claimAt: int, accessRaw: Raw, refreshRaw: Raw)
      returns (response: Response)
      requires CanSeal(accessRaw, refreshRaw)
      modifies this`vault, codes
      ensures (View(), response) == RedeemCode(cfg, old(View()), grant, now, claimAt, accessRaw, refreshRaw)
      ensures response.Granted? ==>
                var payload := Open(cfg, old(View()), CODE_PREFIX, ForCode, grant.code, now);
                && payload.Some? && MatchesCode(cfg, payload.value, grant)
                && CarriesCredential(cfg, View(), response, payload.value.credential, now)
      ensures response.Granted? ==> IsSpentUntil(cfg, View(), grant.code, claimAt + SingleRedemption.CODE_TTL)
      ensures IsIncomplete(grant) <==> response == OAuthError("invalid_request")
      ensures response.Granted? || response == OAuthError("invalid_request") || response == OAuthError("invalid_grant")
      ensures KeepsSeals(old(View()), View()) && (!response.Granted? ==> vault == old(vault))
    {
      ghost var before := View();
      if grant.code == "" || grant.verifier == "" || grant.redirectUri == "" || grant.clientId == "" {
        return OAuthError("invalid_request");
      }
      var payload := Open(cfg, State(clients, vault, codes.seen), CODE_PREFIX, ForCode, grant.code, now);
      if payload.None? || payload.value.TokenPayload? {
        return OAuthError("invalid_grant");
      }
      if grant.clientId != payload.value.clientId {
        return OAuthError("invalid_grant");
      }
      if grant.redirectUri != payload.value.redirectUri {
        return OAuthError("invalid_grant");
      }
      if !VerifyPkce(cfg, payload.value.challenge, grant.verifier) {
        return OAuthError("invalid_grant");
      }
      var first := codes.Claim(grant.code, SingleRedemption.CODE_TTL, claimAt);
      if !first {
        return OAuthError("invalid_grant");
      }
      response := IssueTokens(payload.value.credential, now, accessRaw, refreshRaw);
      GrantMeans(cfg, before, grant, now, claimAt, accessRaw, refreshRaw);
    }

    /** Tokens are granted exactly for a refresh token that still opens, and for its credential. */
    method HandleRefreshTokenGrant(token: string, now: int, accessRaw: Raw, refreshRaw: Raw)
      returns (response: Response)
      requires CanSeal(accessRaw, refreshRaw)
      modifies this`vault
      ensures (View(), response) == Oauth.Refresh(cfg, old(View()), token, now, accessRaw, refreshRaw)
      ensures var payload := Open(cfg, old(View()), REFRESH_PREFIX, ForRefresh, token, now);
        && (response.Granted? <==> cfg.refreshTtl > 0 && payload.Some?)
        && (response.Granted? ==> CarriesCredential(cfg, View(), response, payload.value.credential, now))
        && (!response.Granted? ==>
              response == OAuthError(
                if cfg.refreshTtl <= 0 then "unsupported_grant_type"
                else if token == "" then "invalid_request" else "invalid_grant"))
      ensures KeepsSeals(old(View()), View()) && (!response.Granted? ==> View() == old(View()))
    {
      RefreshMeans(cfg, View(), token, now, accessRaw, refreshRaw);
      if cfg.refreshTtl <= 0 {
        return OAuthError("unsupported_grant_type");
      }
      if token == "" {
        return OAuthError("invalid_request");
      }
      var payload := Open(cfg, State(clients, vault, codes.seen), REFRESH_PREFIX, ForRefresh, token, now);
      if payload.None? {
        return OAuthError("invalid_grant");
      }
      response := IssueTokens(payload.value.credential, now, accessRaw, refreshRaw);
    }

    /** Both tokens open to the credential for as long as they live, and everything sealed before still opens. */
    method IssueTokens(credential: Credential, now: int, accessRaw: Raw, refreshRaw: Raw)
      returns (response: Response)
      requires CanSeal(accessRaw, refreshRaw)
      modifies this`vault
      ensures (View(), response) == Oauth.IssueTokens(cfg, old(View()), credential, now, accessRaw, refreshRaw)
      ensures response.Granted? && CarriesCredential(cfg, View(), response, credential, now)
      ensures KeepsSeals(old(View()), View())
    {
      TokensCarry(cfg, View(), credential, now, accessRaw, refreshRaw);
      vault := vault[accessRaw := Sealed(ForAccess, TokenPayload(credential, Unix(now + cfg.accessTtl)))];
      var access := ACCESS_PREFIX + cfg.encode(accessRaw);
      if cfg.refreshTtl > 0 {
        vault := vault[refreshRaw := Sealed(ForRefresh, TokenPayload(credential, Unix(now + cfg.refreshTtl)))];
        return Granted(access, WholeSeconds(cfg.accessTtl), Some(REFRESH_PREFIX + cfg.encode(refreshRaw)));
      }
      return Granted(access, WholeSeconds(cfg.accessTtl), None);
    }
  }
}
