/**
 * The three flows of `PapirflyAuthenticator`: authorization code (with the
 * popup session and optional PKCE), client credentials, and refresh with its
 * fallback to re-authorization. Everything outside the core (the popup window,
 * the browser's events, crypto, the token endpoint, the clock) arrives as an
 * `Environment`; each flow returns a trace of what it did and what it returned.
 */
module Authenticator {
  import opened Wrappers
  import opened AuthenticatorInterfaces
  import opened Forms
  import opened Expiration
  import opened Challenge
  import opened Popup
  import opened TokenExchange

  /** The `key` of the challenge method (its digest is SHA-256). */
  const ChallengeMethodKey: string := "S256"

  /** What an attempt meets outside the core. */
  datatype Environment = Environment(
    popupOpens: bool,         // whether `open` returns a window
    events: seq<Event>,       // what the browser delivers to the popup session, in order
    crypto: Crypto,
    tokenResponse: Response,  // the token endpoint's answer to the flow's token request
    now: int)                 // `Date.now()`, in milliseconds

  /** How an async call ends: it returns a value or `undefined`, or it is still awaiting the popup. */
  datatype Completion<T> = Returned(value: Option<T>) | StillWaiting

  /** What `authorizeWithAuthorizationCode` did: the URL it opened, the session, the token request, the errors it reported. */
  datatype AuthorizeTrace = AuthorizeTrace(
    query: Form,
    popupUrl: string,
    session: Option<SessionState>,
    tokenRequest: Option<TokenRequest>,
    errors: seq<Failure>,
    result: Completion<AuthorizeResult>)

  /** What `authorizeWithClientCredentials` did. */
  datatype CredentialsTrace = CredentialsTrace(
    tokenRequest: TokenRequest,
    errors: seq<Failure>,
    result: Option<AuthorizeResult>)

  /** What `refresh` returns: a refreshed session, or the result of the re-authorization it fell back to. */
  datatype Granted = Refreshed(refreshed: RefreshResult) | Reauthorized(authorized: AuthorizeResult)

  datatype Fallback = NoFallback | CodeFlow(code: AuthorizeTrace) | CredentialsFlow(credentials: CredentialsTrace)

  /** What `refresh` did: its request, how often it called each authorization flow, and what it returned. */
  datatype RefreshTrace = RefreshTrace(
    refreshRequest: TokenRequest,
    codeFlowCalls: nat,
    credentialsFlowCalls: nat,
    fallback: Fallback,
    result: Completion<Granted>)

  /** `config.throwError?.(error, config)`: the call happens only when a callback is configured. */
  function Reported(config: AuthConfig, f: Failure): seq<Failure>
  {
    if config.hasErrorHandler then [f] else []
  }

  const PopupNotOpenedError: Failure := ErrorObject(ErrorCodeName(PopupNotOpened))

  const QueryFieldOrder: seq<string> :=
    ["response_type", "client_id", "scope", "redirect_uri", "code_challenge_method", "code_challenge"]

  /**
   * The query of the authorization URL (section 4.1.1 of RFC 6749): response
   * type, client id, `+`-joined scopes and redirect URL; with a challenge, the
   * method `S256` and the challenge (section 4.3 of RFC 7636).
   */
  function QueryFields(config: AuthConfig, challenge: Option<string>): (t: FieldTable)
    requires config.AuthorizationCodeConfig?
    ensures Names(t) == QueryFieldOrder
  {
    var t := [
      ("response_type", Some("code")),
      ("client_id", Some(config.clientId)),
      ("scope", Some(Join(config.scopes, '+'))),
      ("redirect_uri", Some(config.redirect.url)),
      ("code_challenge_method", if challenge.Some? then Some(ChallengeMethodKey) else None),
      ("code_challenge", challenge)];
    assert Names(t) == QueryFieldOrder;
    t
  }

  lemma QueryFieldOrderDistinct()
    ensures Distinct(QueryFieldOrder)
  {
  }

  function ChallengeText(c: Option<CodeChallenge>): Option<string>
  {
    if c.Some? then Some(c.value.challenge) else None
  }

  function VerifierText(c: Option<CodeChallenge>): Option<string>
  {
    if c.Some? then Some(c.value.verifier) else None
  }

  /** `urlParams`: the four pairs, then the challenge pairs when there is a challenge. */
  method AuthorizationQuery(config: AuthConfig, challenge: Option<CodeChallenge>) returns (pairs: Form)
    requires config.AuthorizationCodeConfig?
    ensures Lists(pairs, QueryFields(config, ChallengeText(challenge)))
  {
    ghost var t := QueryFields(config, ChallengeText(challenge));
    pairs := [
      ("response_type", "code"),
      ("client_id", config.clientId),
      ("scope", Join(config.scopes, '+')),
      ("redirect_uri", config.redirect.url)];
    assert [] == Present(t[..0]);
    PresentPrefix(t, 0);
    PresentPrefix(t, 1);
    PresentPrefix(t, 2);
    PresentPrefix(t, 3);
    assert pairs == Present(t[..4]);
    if challenge.Some? {
      pairs := pairs + [("code_challenge_method", ChallengeMethodKey), ("code_challenge", challenge.value.challenge)];
    }
    PresentPrefix(t, 4);
    PresentPrefix(t, 5);
    assert pairs == Present(t[..6]);
    assert t[..6] == t;
    QueryFieldOrderDistinct();
    PresentLists(t);
  }

  /** The URL the popup opens: the endpoint, `?`, and the query. */
  function AuthorizationUrl(config: AuthConfig, pairs: Form): string
  {
    config.service.authorizationEndpoint + "?" + JoinQuery(pairs)
  }

  /** The authorization URL spelled out: unescaped `name=value` pairs joined by `&`, in order. */
  lemma AuthorizationUrlText(config: AuthConfig, pairs: Form, challenge: Option<string>)
    requires config.AuthorizationCodeConfig?
    requires Lists(pairs, QueryFields(config, challenge))
    ensures AuthorizationUrl(config, pairs) ==
      config.service.authorizationEndpoint + "?" +
      QueryText(config.clientId, Join(config.scopes, '+'), config.redirect.url, challenge)
  {
    QueryPairsExact(config, pairs, challenge);
    JoinedQuery(config.clientId, Join(config.scopes, '+'), config.redirect.url, challenge);
  }

  /** The query string spelled out. */
  function QueryText(clientId: string, scope: string, redirectUrl: string, challenge: Option<string>): string
  {
    "response_type=code" + "&" +
    "client_id=" + clientId + "&" +
    "scope=" + scope + "&" +
    "redirect_uri=" + redirectUrl +
    (if challenge.Some? then "&" + "code_challenge_method=S256" + "&" + "code_challenge=" + challenge.value else "")
  }

  lemma JoinedQuery(clientId: string, scope: string, redirectUrl: string, challenge: Option<string>)
    ensures JoinQuery(
      [("response_type", "code"), ("client_id", clientId), ("scope", scope), ("redirect_uri", redirectUrl)] +
      (if challenge.Some? then [("code_challenge_method", ChallengeMethodKey), ("code_challenge", challenge.value)] else []))
      == QueryText(clientId, scope, redirectUrl, challenge)
  {
    var base := [("response_type", "code"), ("client_id", clientId), ("scope", scope), ("redirect_uri", redirectUrl)];
    var head := "response_type=code" + "&" + "client_id=" + clientId + "&" + "scope=" + scope + "&" +
                "redirect_uri=" + redirectUrl;
    JoinedBase(clientId, scope, redirectUrl);
    if challenge.Some? {
      JoinedWithChallenge(base, head, challenge.value);
    } else {
      assert base + [] == base;
    }
  }

  lemma JoinedBase(clientId: string, scope: string, redirectUrl: string)
    ensures JoinQuery([("response_type", "code"), ("client_id", clientId), ("scope", scope), ("redirect_uri", redirectUrl)])
      == "response_type=code" + "&" + "client_id=" + clientId + "&" + "scope=" + scope + "&" + "redirect_uri=" + redirectUrl
  {
    var base := [("response_type", "code"), ("client_id", clientId), ("scope", scope), ("redirect_uri", redirectUrl)];
    var r := RenderPairs(base);
    assert r[0] == "response_type=code";
    assert r[1] == "client_id=" + clientId;
    assert r[2] == "scope=" + scope;
    assert r[3] == "redirect_uri=" + redirectUrl;
    assert r == [r[0], r[1], r[2], r[3]];
    JoinFour(r[0], r[1], r[2], r[3]);
  }

  lemma JoinedWithChallenge(base: Form, head: string, challenge: string)
    requires |base| >= 1 && JoinQuery(base) == head
    ensures JoinQuery(base + [("code_challenge_method", ChallengeMethodKey), ("code_challenge", challenge)])
      == head + "&" + "code_challenge_method=S256" + "&" + "code_challenge=" + challenge
  {
    var extra := [("code_challenge_method", ChallengeMethodKey), ("code_challenge", challenge)];
    var r := RenderPairs(base);
    RenderPairsAppend(base, extra);
    var r4 := RenderPair(extra[0]);
    var r5 := RenderPair(extra[1]);
    assert r4 == "code_challenge_method=S256";
    assert r5 == "code_challenge=" + challenge;
    assert RenderPairs(base + extra) == (r + [r4]) + [r5];
    JoinSnoc(r, r4, '&');
    JoinSnoc(r + [r4], r5, '&');
  }

  lemma JoinFour(a: string, b: string, c: string, d: string)
    ensures Join([a, b, c, d], '&') == a + "&" + b + "&" + c + "&" + d
  {
    assert [a, b, c, d][1..] == [b, c, d];
    assert [b, c, d][1..] == [c, d];
    assert [c, d][1..] == [d];
    assert Join([c, d], '&') == c + "&" + d;
    assert Join([b, c, d], '&') == b + "&" + (c + "&" + d);
    assert Join([a, b, c, d], '&') == a + "&" + (b + "&" + (c + "&" + d));
  }

  /** The query pairs are the four fixed pairs, followed by the two challenge pairs when there is a challenge. */
  lemma QueryPairsExact(config: AuthConfig, pairs: Form, challenge: Option<string>)
    requires config.AuthorizationCodeConfig?
    requires Lists(pairs, QueryFields(config, challenge))
    ensures pairs ==
      [("response_type", "code"), ("client_id", config.clientId),
       ("scope", Join(config.scopes, '+')), ("redirect_uri", config.redirect.url)] +
      (if challenge.Some? then [("code_challenge_method", ChallengeMethodKey), ("code_challenge", challenge.value)] else [])
  {
    QueryFieldOrderDistinct();
    ListsUnique(pairs, QueryFields(config, challenge));
    QueryFieldsPresent(config, challenge);
  }

  lemma QueryFieldsPresent(config: AuthConfig, challenge: Option<string>)
    requires config.AuthorizationCodeConfig?
    ensures Present(QueryFields(config, challenge)) ==
      [("response_type", "code"), ("client_id", config.clientId),
       ("scope", Join(config.scopes, '+')), ("redirect_uri", config.redirect.url)] +
      (if challenge.Some? then [("code_challenge_method", ChallengeMethodKey), ("code_challenge", challenge.value)] else [])
  {
    var t := QueryFields(config, challenge);
    var p0 := [("response_type", "code")];
    var p1 := p0 + [("client_id", config.clientId)];
    var p2 := p1 + [("scope", Join(config.scopes, '+'))];
    var p3 := p2 + [("redirect_uri", config.redirect.url)];
    assert [] == Present(t[..0]);
    PresentPrefix(t, 0);
    assert Present(t[..1]) == p0;
    PresentPrefix(t, 1);
    assert Present(t[..2]) == p1;
    PresentPrefix(t, 2);
    assert Present(t[..3]) == p2;
    PresentPrefix(t, 3);
    assert Present(t[..4]) == p3;
    PresentPrefix(t, 4);
    PresentPrefix(t, 5);
    assert t[..6] == t;
  }

  /** The result of a redeemed authorization code: the token's fields, the configured scopes and the code. */
  function CodeFlowResult(token: TokenJson, config: AuthConfig, code: string, now: int): (r: AuthorizeResult)
    requires config.AuthorizationCodeConfig?
    ensures r.accessToken == token.accessToken && r.refreshToken == token.refreshToken && r.tokenType == token.tokenType
    ensures r.scopes == config.scopes && r.authorizationCode == Some(code) && r.codeVerifier == None
    ensures r.accessTokenExpirationDate == AccessTokenExpirationDate(token.expiresIn, now)
    ensures r.accessTokenExpirationDate <= now + DayMs
  {
    AuthorizeResult(token.accessToken, AccessTokenExpirationDate(token.expiresIn, now), token.refreshToken,
                    token.tokenType, config.scopes, Some(code), None)
  }

  /** The result of a client-credentials exchange; absent scopes read as `[]`. */
  function CredentialsResult(token: TokenJson, config: AuthConfig, now: int): (r: AuthorizeResult)
    requires config.ClientCredentialsConfig?
    ensures r.accessToken == token.accessToken && r.refreshToken == token.refreshToken && r.tokenType == token.tokenType
    ensures r.accessTokenExpirationDate == AccessTokenExpirationDate(token.expiresIn, now)
    ensures config.optionalScopes.None? ==> r.scopes == []
    ensures config.optionalScopes.Some? ==> r.scopes == config.optionalScopes.value
    ensures r.authorizationCode == None && r.accessTokenExpirationDate <= now + DayMs
  {
    AuthorizeResult(token.accessToken, AccessTokenExpirationDate(token.expiresIn, now), token.refreshToken,
                    token.tokenType, config.optionalScopes.GetOr([]), None, None)
  }

  function RefreshResultOf(token: TokenJson, now: int): (r: RefreshResult)
    ensures r.accessTokenExpirationDate <= now + DayMs
    ensures r.accessToken == token.accessToken && r.refreshToken == token.refreshToken && r.tokenType == token.tokenType
    ensures r.accessTokenExpirationDate == AccessTokenExpirationDate(token.expiresIn, now)
  {
    RefreshResult(token.accessToken, AccessTokenExpirationDate(token.expiresIn, now), token.refreshToken, token.tokenType)
  }

  /** The challenge an attempt draws: one when PKCE is on, none otherwise. */
  function AttemptChallenge(config: AuthConfig, env: Environment): Option<CodeChallenge>
    requires config.AuthorizationCodeConfig?
  {
    if UsesPKCE(config) then Some(CreateChallenge(env.crypto)) else None
  }

  /**
   * What `authorizeWithAuthorizationCode` does. It opens the URL. A popup that
   * does not open is reported as `popup_not_opened` and the call returns
   * `undefined` with no session. Otherwise the session runs over the events.
   * While it is pending the call waits. A rejection is reported and gives
   * `undefined`. A resolved code is redeemed with the verifier: the token
   * gives the result, and a failure is reported and gives `undefined`.
   */
  ghost predicate AuthorizeCodeBehaviour(config: AuthConfig, env: Environment, t: AuthorizeTrace)
    requires config.AuthorizationCodeConfig?
  {
    var challenge := AttemptChallenge(config, env);
    Lists(t.query, QueryFields(config, ChallengeText(challenge))) &&
    t.popupUrl == AuthorizationUrl(config, t.query) &&
    if !env.popupOpens then
      t.session == None && t.tokenRequest == None &&
      t.errors == Reported(config, PopupNotOpenedError) && t.result == Returned(None)
    else
      var s := Run(Initial, config.redirect, env.events);
      t.session == Some(s) &&
      match s.outcome
      case Pending =>
        t.tokenRequest == None && t.errors == [] && t.result == StillWaiting
      case Rejected(reason) =>
        t.tokenRequest == None && t.errors == Reported(config, AuthErrorObject(reason)) && t.result == Returned(None)
      case Resolved(code) =>
        t.tokenRequest.Some? &&
        t.tokenRequest.value == TokenRequestFor(config, t.tokenRequest.value.body) &&
        Lists(t.tokenRequest.value.body, TokenFields(AuthorizationCodeGrant, code, config, VerifierText(challenge))) &&
        match FetchOutcome(env.tokenResponse)
        case Success(token) => t.errors == [] && t.result == Returned(Some(CodeFlowResult(token, config, code, env.now)))
        case Failure(f) => t.errors == Reported(config, f) && t.result == Returned(None)
  }

  /** Authorization-code flow: the session is driven by the events until it settles or they run out. */
  method AuthorizeWithAuthorizationCode(config: AuthConfig, env: Environment) returns (t: AuthorizeTrace)
    requires config.AuthorizationCodeConfig?
    ensures AuthorizeCodeBehaviour(config, env, t)
  {
    var challenge: Option<CodeChallenge> := None;
    if config.usePKCE != Some(false) {
      challenge := Some(CreateChallenge(env.crypto));
    }
    var query := AuthorizationQuery(config, challenge);
    var url := AuthorizationUrl(config, query);
    if !env.popupOpens {
      t := AuthorizeTrace(query, url, None, None, Reported(config, PopupNotOpenedError), Returned(None));
      return;
    }
    var session := new PopupSession(config.redirect);
    var i := 0;
    while i < |env.events| && session.outcome.Pending?
      invariant 0 <= i <= |env.events|
      invariant session.Valid() && session.redirect == config.redirect
      invariant session.State() == Run(Initial, config.redirect, env.events[..i])
    {
      session.Dispatch(env.events[i]);
      RunAppend(Initial, config.redirect, env.events[..i], [env.events[i]]);
      assert env.events[..i + 1] == env.events[..i] + [env.events[i]];
      i := i + 1;
    }
    if i < |env.events| {
      FirstSettlementWins(config.redirect, env.events[..i], env.events[i..]);
      assert env.events[..i] + env.events[i..] == env.events;
    } else {
      assert env.events[..i] == env.events;
    }
    var final := session.State();
    match final.outcome
    case Pending =>
      t := AuthorizeTrace(query, url, Some(final), None, [], StillWaiting);
    case Rejected(reason) =>
      t := AuthorizeTrace(query, url, Some(final), None, Reported(config, AuthErrorObject(reason)), Returned(None));
    case Resolved(code) =>
      var body := GetTokenBody(code, AuthorizationCodeGrant, config, VerifierText(challenge));
      var request := TokenRequestFor(config, body);
      match FetchOutcome(env.tokenResponse)
      case Success(token) =>
        t := AuthorizeTrace(query, url, Some(final), Some(request), [],
                            Returned(Some(CodeFlowResult(token, config, code, env.now))));
      case Failure(f) =>
        t := AuthorizeTrace(query, url, Some(final), Some(request), Reported(config, f), Returned(None));
  }

  /**
   * What `authorizeWithClientCredentials` does: it redeems the secret as the
   * code; the token gives the result, a failure is reported and gives `undefined`.
   */
  ghost predicate CredentialsBehaviour(config: AuthConfig, env: Environment, t: CredentialsTrace)
    requires config.ClientCredentialsConfig?
  {
    t.tokenRequest == TokenRequestFor(config, t.tokenRequest.body) &&
    Lists(t.tokenRequest.body, TokenFields(ClientCredentialsGrant, config.clientSecret, config, None)) &&
    match FetchOutcome(env.tokenResponse)
    case Success(token) => t.errors == [] && t.result == Some(CredentialsResult(token, config, env.now))
    case Failure(f) => t.errors == Reported(config, f) && t.result == None
  }

  method AuthorizeWithClientCredentials(config: AuthConfig, env: Environment) returns (t: CredentialsTrace)
    requires config.ClientCredentialsConfig?
    ensures CredentialsBehaviour(config, env, t)
  {
    var body := GetTokenBody(config.clientSecret, ClientCredentialsGrant, config, None);
    var request := TokenRequestFor(config, body);
    match FetchOutcome(env.tokenResponse)
    case Success(token) =>
      t := CredentialsTrace(request, [], Some(CredentialsResult(token, config, env.now)));
    case Failure(f) =>
      t := CredentialsTrace(request, Reported(config, f), None);
  }

  function LiftCodeResult(c: Completion<AuthorizeResult>): Completion<Granted>
  {
    match c
    case StillWaiting => StillWaiting
    case Returned(None) => Returned(None)
    case Returned(Some(r)) => Returned(Some(Reauthorized(r)))
  }

  function LiftCredentialsResult(o: Option<AuthorizeResult>): Completion<Granted>
  {
    if o.Some? then Returned(Some(Reauthorized(o.value))) else Returned(None)
  }

  /**
   * What `refresh` does: a successful refresh exchange gives the refreshed
   * result and calls no flow; any failure of it (no response, a status other
   * than 200, malformed JSON) calls exactly one authorization flow, chosen by
   * the configuration's grant type, whose outcome becomes the result.
   */
  ghost predicate RefreshBehaviour(config: AuthConfig, refresh: RefreshConfiguration, refreshResponse: Response,
                                   env: Environment, t: RefreshTrace)
  {
    t.refreshRequest == TokenRequestFor(config, t.refreshRequest.body) &&
    Lists(t.refreshRequest.body, RefreshFields(config, refresh)) &&
    match FetchOutcome(refreshResponse)
    case Success(token) =>
      t.codeFlowCalls == 0 && t.credentialsFlowCalls == 0 && t.fallback == NoFallback &&
      t.result == Returned(Some(Refreshed(RefreshResultOf(token, env.now))))
    case Failure(_) =>
      if config.AuthorizationCodeConfig? then
        t.codeFlowCalls == 1 && t.credentialsFlowCalls == 0 && t.fallback.CodeFlow? &&
        AuthorizeCodeBehaviour(config, env, t.fallback.code) &&
        t.result == LiftCodeResult(t.fallback.code.result)
      else
        t.codeFlowCalls == 0 && t.credentialsFlowCalls == 1 && t.fallback.CredentialsFlow? &&
        CredentialsBehaviour(config, env, t.fallback.credentials) &&
        t.result == LiftCredentialsResult(t.fallback.credentials.result)
  }

  method Refresh(config: AuthConfig, refresh: RefreshConfiguration, refreshResponse: Response, env: Environment)
    returns (t: RefreshTrace)
    ensures RefreshBehaviour(config, refresh, refreshResponse, env, t)
  {
    var body := RefreshBody(config, refresh);
    var request := TokenRequestFor(config, body);
    var codeFlowCalls, credentialsFlowCalls := 0, 0;
    match FetchOutcome(refreshResponse)
    case Success(token) =>
      t := RefreshTrace(request, 0, 0, NoFallback, Returned(Some(Refreshed(RefreshResultOf(token, env.now)))));
    case Failure(_) =>
      if config.AuthorizationCodeConfig? {
        codeFlowCalls := codeFlowCalls + 1;
        var a := AuthorizeWithAuthorizationCode(config, env);
        t := RefreshTrace(request, codeFlowCalls, credentialsFlowCalls, CodeFlow(a), LiftCodeResult(a.result));
      } else {
        credentialsFlowCalls := credentialsFlowCalls + 1;
        var c := AuthorizeWithClientCredentials(config, env);
        t := RefreshTrace(request, codeFlowCalls, credentialsFlowCalls, CredentialsFlow(c), LiftCredentialsResult(c.result));
      }
  }
}
