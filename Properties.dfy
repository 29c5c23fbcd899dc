/**
 * Properties of the flows, stated over their behaviour predicates: what the
 * repository's tests check, and what the source and RFCs 6749 and 7636
 * promise about teardown, PKCE, the request bodies and the refresh fallback.
 */
module AuthenticatorProperties {
  import opened Wrappers
  import opened AuthenticatorInterfaces
  import opened Forms
  import opened Challenge
  import opened Popup
  import opened TokenExchange
  import opened Expiration
  import opened Authenticator

  /** A popup that does not open: one `popup_not_opened` report, `undefined`, no listener and no timer. */
  lemma PopupNotOpened(config: AuthConfig, env: Environment, t: AuthorizeTrace)
    requires config.AuthorizationCodeConfig? && AuthorizeCodeBehaviour(config, env, t)
    requires !env.popupOpens
    ensures t.result == Returned(None) && t.session == None && t.tokenRequest == None
    ensures config.hasErrorHandler ==> t.errors == [ErrorObject("popup_not_opened")]
    ensures !config.hasErrorHandler ==> t.errors == []
  {
  }

  /** An event that cannot settle a session: a tick on an open popup, or a message of another name. */
  predicate Inert(redirect: RedirectConfiguration, e: Event)
  {
    match e
    case Tick(closed) => !closed
    case Message(data) =>
      data.None? || (data.value.name != redirect.authorizedMessage && data.value.name != redirect.rejectedMessage)
  }

  lemma {:induction false} InertEventsChangeNothing(redirect: RedirectConfiguration, events: seq<Event>)
    requires forall j :: 0 <= j < |events| ==> Inert(redirect, events[j])
    ensures Run(Initial, redirect, events) == Initial
    decreases |events|
  {
    if events != [] {
      assert Step(Initial, redirect, events[0]) == Initial;
      InertEventsChangeNothing(redirect, events[1..]);
    }
  }

  /**
   * A popup found closed by a tick before any sentinel message: one
   * `popup_closed_unexpectedly` report, `undefined`, no token request, one teardown.
   */
  lemma PopupClosedBeforeAnyMessage(config: AuthConfig, env: Environment, t: AuthorizeTrace, k: nat)
    requires config.AuthorizationCodeConfig? && AuthorizeCodeBehaviour(config, env, t)
    requires env.popupOpens && k < |env.events| && env.events[k] == Tick(true)
    requires forall j :: 0 <= j < k ==> Inert(config.redirect, env.events[j])
    ensures t.result == Returned(None) && t.tokenRequest == None
    ensures t.errors == Reported(config, AuthErrorObject(PopupClosedError))
    ensures t.session.Some? && t.session.value.popupCloseCalls == 1
  {
    var r := config.redirect;
    var es := env.events;
    InertEventsChangeNothing(r, es[..k]);
    RunAppend(Initial, r, es[..k], [es[k]]);
    assert es[..k + 1] == es[..k] + [es[k]];
    FirstSettlementWins(r, es[..k + 1], es[k + 1..]);
    assert es[..k + 1] + es[k + 1..] == es;
  }

  /**
   * Whatever the events, the popup is closed, the listener removed and the
   * interval cleared at most once, and exactly once when the call stops waiting.
   */
  lemma SessionTornDownAtMostOnce(config: AuthConfig, env: Environment, t: AuthorizeTrace)
    requires config.AuthorizationCodeConfig? && AuthorizeCodeBehaviour(config, env, t)
    requires t.session.Some?
    ensures var s := t.session.value;
      s.popupCloseCalls <= 1 && s.listenerRemovals <= 1 && s.intervalClears <= 1 &&
      (s.popupCloseCalls == 1 <==> !t.result.StillWaiting?) &&
      (s.listenerRegistered <==> t.result.StillWaiting?)
  {
    TeardownAtMostOnce(config.redirect, env.events);
  }

  /**
   * A resolved code is redeemed: the body carries the `authorization_code`
   * grant, the code, the client id and the redirect URL, and a token gives a
   * result that carries the code.
   */
  lemma ResolvedCodeIsRedeemed(config: AuthConfig, env: Environment, t: AuthorizeTrace, code: string)
    requires config.AuthorizationCodeConfig? && AuthorizeCodeBehaviour(config, env, t)
    requires env.popupOpens && Run(Initial, config.redirect, env.events).outcome == Resolved(code)
    ensures t.tokenRequest.Some?
    ensures var body := t.tokenRequest.value.body;
      Lookup(body, "grant_type") == Some("authorization_code") &&
      Lookup(body, "code") == Some(code) &&
      Lookup(body, "client_id") == Some(config.clientId) &&
      Lookup(body, "redirect_uri") == Some(config.redirect.url)
    ensures t.result.Returned? && t.result.value.Some? ==> t.result.value.value.authorizationCode == Some(code)
  {
    var tf := TokenFields(AuthorizationCodeGrant, code, config, VerifierText(AttemptChallenge(config, env)));
    assert tf[0].0 == "grant_type" && tf[1].0 == "code" && tf[2].0 == "client_id" && tf[3].0 == "redirect_uri";
  }

  /**
   * PKCE binds the two requests: with PKCE on, the URL carries `S256` and the
   * challenge, the token request carries the verifier, and the challenge is
   * the base64url of the digest of the verifier's ASCII octets (section 4.2
   * of RFC 7636). With PKCE off, neither is sent.
   */
  lemma PkceBindsChallengeAndVerifier(config: AuthConfig, env: Environment, t: AuthorizeTrace, code: string)
    requires config.AuthorizationCodeConfig? && AuthorizeCodeBehaviour(config, env, t)
    requires env.popupOpens && Run(Initial, config.redirect, env.events).outcome == Resolved(code)
    ensures t.tokenRequest.Some?
    ensures UsesPKCE(config) ==>
      var c := CreateChallenge(env.crypto);
      Lookup(t.query, "code_challenge_method") == Some("S256") &&
      Lookup(t.query, "code_challenge") == Some(c.challenge) &&
      Lookup(t.tokenRequest.value.body, "code_verifier") == Some(c.verifier) &&
      c.challenge == Base64Url(env.crypto.btoa(env.crypto.digest(Ascii(c.verifier))))
    ensures !UsesPKCE(config) ==>
      Lookup(t.query, "code_challenge") == None && Lookup(t.tokenRequest.value.body, "code_verifier") == None
  {
    var challenge := AttemptChallenge(config, env);
    var qf := QueryFields(config, ChallengeText(challenge));
    var tf := TokenFields(AuthorizationCodeGrant, code, config, VerifierText(challenge));
    assert qf[4].0 == "code_challenge_method" && qf[5].0 == "code_challenge";
    assert tf[6].0 == "code_verifier";
    if UsesPKCE(config) {
      assert |challenge.value.verifier| == VerifierLength;
    }
  }

  /**
   * The client-credentials body: the secret is sent as the `code` (and again
   * as `client_secret` when non-empty); no redirect URL and no verifier; the
   * scope only when scopes are defined.
   */
  lemma ClientCredentialsBody(config: AuthConfig, env: Environment, t: CredentialsTrace)
    requires config.ClientCredentialsConfig? && CredentialsBehaviour(config, env, t)
    ensures var body := t.tokenRequest.body;
      Lookup(body, "grant_type") == Some("client_credentials") &&
      Lookup(body, "code") == Some(config.clientSecret) &&
      Lookup(body, "redirect_uri") == None &&
      Lookup(body, "code_verifier") == None &&
      (config.clientSecret != "" ==> Lookup(body, "client_secret") == Some(config.clientSecret)) &&
      (Lookup(body, "scope").Some? <==> config.optionalScopes.Some?)
  {
    var tf := TokenFields(ClientCredentialsGrant, config.clientSecret, config, None);
    assert tf[0].0 == "grant_type" && tf[1].0 == "code" && tf[3].0 == "redirect_uri";
    assert tf[4].0 == "scope" && tf[5].0 == "client_secret" && tf[6].0 == "code_verifier";
  }

  lemma TokenFieldsHead(grant: GrantType, code: string, config: AuthConfig, verifier: Option<string>)
    ensures var t := TokenFields(grant, code, config, verifier);
      Present(t) == [("grant_type", GrantTypeName(grant)), ("code", code), ("client_id", config.clientId)] + Present(t[3..])
  {
    var t := TokenFields(grant, code, config, verifier);
    assert t == t[..3] + t[3..];
    PresentAppend(t[..3], t[3..]);
    assert [] == Present(t[..0]);
    PresentPrefix(t, 0);
    PresentPrefix(t, 1);
    PresentPrefix(t, 2);
  }

  /** Every token-request body starts with `grant_type`, `code`, `client_id`, in that order. */
  lemma TokenBodyStartsWithGrantCodeClient(body: Form, grant: GrantType, code: string, config: AuthConfig,
                                           verifier: Option<string>)
    requires Lists(body, TokenFields(grant, code, config, verifier))
    ensures |body| >= 3
    ensures body[..3] == [("grant_type", GrantTypeName(grant)), ("code", code), ("client_id", config.clientId)]
  {
    TokenFieldOrderDistinct();
    ListsUnique(body, TokenFields(grant, code, config, verifier));
    TokenFieldsHead(grant, code, config, verifier);
  }

  /** A refresh body is `grant_type=refresh_token`, the refresh token, the client id, then the secret if non-empty. */
  lemma RefreshBodyExact(body: Form, config: AuthConfig, refresh: RefreshConfiguration)
    requires Lists(body, RefreshFields(config, refresh))
    ensures body == [("grant_type", "refresh_token"), ("refresh_token", refresh.refreshToken), ("client_id", config.clientId)] +
                    (if NonEmpty(config.Secret()).Some? then [("client_secret", config.Secret().value)] else [])
  {
    TokenFieldOrderDistinct();
    var t := RefreshFields(config, refresh);
    ListsUnique(body, t);
    assert [] == Present(t[..0]);
    PresentPrefix(t, 0);
    PresentPrefix(t, 1);
    PresentPrefix(t, 2);
    PresentPrefix(t, 3);
    assert t[..4] == t;
  }

  /**
   * `refresh` never raises: a failed exchange (no response, any status other
   * than 200, malformed JSON) leads to exactly one authorization flow, the
   * one the grant type names, whose outcome is returned; a successful one to none.
   */
  lemma RefreshFallsBackExactlyOnce(config: AuthConfig, refresh: RefreshConfiguration, response: Response,
                                    env: Environment, t: RefreshTrace)
    requires RefreshBehaviour(config, refresh, response, env, t)
    ensures FetchOutcome(response).Failure? ==>
      t.codeFlowCalls + t.credentialsFlowCalls == 1 &&
      (t.codeFlowCalls == 1 <==> config.Grant() == AuthorizationCodeGrant) &&
      (t.fallback.CodeFlow? ==> t.result == LiftCodeResult(t.fallback.code.result)) &&
      (t.fallback.CredentialsFlow? ==> t.result == LiftCredentialsResult(t.fallback.credentials.result))
    ensures FetchOutcome(response).Success? ==> t.codeFlowCalls + t.credentialsFlowCalls == 0 && t.result.Returned?
    ensures response.HttpResponse? && response.status != 200 ==> t.codeFlowCalls + t.credentialsFlowCalls == 1
  {
  }

  /**
   * A token obtained by the code flow gives a result with the token's access
   * token and the expiration date of its advertised lifetime: after `now`
   * when the lifetime is positive, and never more than a day ahead.
   */
  lemma CodeFlowResultExpiry(config: AuthConfig, env: Environment, t: AuthorizeTrace)
    requires config.AuthorizationCodeConfig? && AuthorizeCodeBehaviour(config, env, t)
    requires t.result.Returned? && t.result.value.Some?
    ensures env.tokenResponse.HttpResponse? && env.tokenResponse.json.Some?
    ensures var token := env.tokenResponse.json.value; var res := t.result.value.value;
      res.accessToken == token.accessToken &&
      res.accessTokenExpirationDate == AccessTokenExpirationDate(token.expiresIn, env.now) &&
      res.accessTokenExpirationDate <= env.now + DayMs &&
      (Lifetime(token.expiresIn) > 0 ==> env.now < res.accessTokenExpirationDate)
  {
    var token := env.tokenResponse.json.value;
    if Lifetime(token.expiresIn) > 0 {
      ExpiresAfterNow(token.expiresIn, env.now);
    }
  }
}
