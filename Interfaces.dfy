/**
 * The configuration, result and error types of the authenticator
 * (src/PapirflyAuthenticatorInterfaces.ts). The TypeScript interfaces that
 * extend one another become one tagged union on the grant type.
 */
module AuthenticatorInterfaces {
  import opened Wrappers

  /** Preferred encoding of token-request bodies: exactly one of the two. */
  datatype ContentType = FormData | UrlEncoded

  /** Endpoints of the authorization server and the body encoding it expects. */
  datatype ServiceConfiguration = ServiceConfiguration(
    authorizationEndpoint: string,
    tokenEndpoint: string,
    contentType: ContentType)

  /** The redirect URL and the two names the redirect page uses for its messages. */
  datatype RedirectConfiguration = RedirectConfiguration(
    url: string,
    authorizedMessage: string,
    rejectedMessage: string)

  datatype GrantType =
    | ClientCredentialsGrant
    | RefreshTokenGrant
    | PasswordGrant
    | AuthorizationCodeGrant

  /** The wire name of a grant type. */
  function GrantTypeName(g: GrantType): string {
    match g
    case ClientCredentialsGrant => "client_credentials"
    case RefreshTokenGrant => "refresh_token"
    case PasswordGrant => "password"
    case AuthorizationCodeGrant => "authorization_code"
  }

  /**
   * A configuration for one of the two authorization flows. `hasErrorHandler`
   * says whether the optional `throwError` callback is supplied.
   * An authorization-code configuration always carries scopes and a redirect
   * configuration, and its secret and PKCE flag are optional (absent PKCE flag
   * means PKCE is on). A client-credentials configuration always carries a
   * secret, and its scopes are optional.
   */
  datatype AuthConfig =
    | AuthorizationCodeConfig(
        service: ServiceConfiguration,
        hasErrorHandler: bool,
        clientId: string,
        optionalSecret: Option<string>,
        scopes: seq<string>,
        redirect: RedirectConfiguration,
        usePKCE: Option<bool>)
    | ClientCredentialsConfig(
        service: ServiceConfiguration,
        hasErrorHandler: bool,
        clientId: string,
        clientSecret: string,
        optionalScopes: Option<seq<string>>)
  {
    /** The `grantType` discriminator. */
    function Grant(): GrantType {
      if AuthorizationCodeConfig? then AuthorizationCodeGrant else ClientCredentialsGrant
    }

    /** The `clientSecret` field as the source reads it from either variant. */
    function Secret(): Option<string> {
      if AuthorizationCodeConfig? then optionalSecret else Some(clientSecret)
    }

    /** The `scopes` field as the source reads it from either variant. */
    function ScopeList(): Option<seq<string>> {
      if AuthorizationCodeConfig? then Some(scopes) else optionalScopes
    }
  }

  /** PKCE is on unless the flag is explicitly `false`. */
  predicate UsesPKCE(config: AuthConfig)
    requires config.AuthorizationCodeConfig?
  {
    config.usePKCE != Some(false)
  }

  /** A refresh configuration; its grant type is always `refresh_token`. */
  datatype RefreshConfiguration = RefreshConfiguration(refreshToken: string) {
    function Grant(): GrantType { RefreshTokenGrant }
  }

  /** The verifier and challenge of one PKCE attempt (the source spells the first `verifyer`). */
  datatype CodeChallenge = CodeChallenge(verifier: string, challenge: string)

  /** The JSON body of a successful token response. */
  datatype TokenJson = TokenJson(
    accessToken: string,
    tokenType: string,
    expiresIn: Option<int>,
    refreshToken: Option<string>)

  /** What an authorization returns; `accessTokenExpirationDate` is an absolute time in milliseconds. */
  datatype AuthorizeResult = AuthorizeResult(
    accessToken: string,
    accessTokenExpirationDate: int,
    refreshToken: Option<string>,
    tokenType: string,
    scopes: seq<string>,
    authorizationCode: Option<string>,
    codeVerifier: Option<string>)

  /** What a successful refresh returns. */
  datatype RefreshResult = RefreshResult(
    accessToken: string,
    accessTokenExpirationDate: int,
    refreshToken: Option<string>,
    tokenType: string)

  /** The `{error, error_description}` record a rejection carries. */
  datatype AuthError = AuthError(error: string, errorDescription: string)

  /** The error codes: those of RFC 6749 sections 4.1.2.1 and 5.2, and the two popup codes. */
  datatype ErrorCode =
    | UnauthorizedClient
    | AccessDenied
    | UnsupportedResponseType
    | InvalidScope
    | ServerError
    | TemporarilyUnavailable
    | InvalidRequest
    | InvalidClient
    | InvalidGrant
    | UnsupportedGrantType
    | PopupClosedUnexpectedly
    | PopupNotOpened

  function ErrorCodeName(c: ErrorCode): string {
    match c
    case UnauthorizedClient => "unauthorized_client"
    case AccessDenied => "access_denied"
    case UnsupportedResponseType => "unsupported_response_type"
    case InvalidScope => "invalid_scope"
    case ServerError => "server_error"
    case TemporarilyUnavailable => "temporarily_unavailable"
    case InvalidRequest => "invalid_request"
    case InvalidClient => "invalid_client"
    case InvalidGrant => "invalid_grant"
    case UnsupportedGrantType => "unsupported_grant_type"
    case PopupClosedUnexpectedly => "popup_closed_unexpectedly"
    case PopupNotOpened => "popup_not_opened"
  }

  /** Authorization-endpoint error codes, section 4.1.2.1 of RFC 6749. */
  const AuthorizationErrorCodes: set<string> :=
    {"unauthorized_client", "access_denied", "unsupported_response_type",
     "invalid_scope", "server_error", "temporarily_unavailable"}

  /** Token-endpoint error codes, section 5.2 of RFC 6749. */
  const TokenErrorCodes: set<string> :=
    {"invalid_request", "invalid_client", "invalid_grant",
     "unauthorized_client", "unsupported_grant_type", "invalid_scope"}

  /** The authenticator's own codes. */
  const AppErrorCodes: set<string> := {"popup_closed_unexpectedly", "popup_not_opened"}

  /**
   * `ErrorCode` is exactly the union of the three sets: every code has a name
   * in the union, every name in the union belongs to exactly one code.
   */
  lemma ErrorCodeIsUnion()
    ensures forall c: ErrorCode :: ErrorCodeName(c) in AuthorizationErrorCodes + TokenErrorCodes + AppErrorCodes
    ensures forall c, d: ErrorCode :: ErrorCodeName(c) == ErrorCodeName(d) ==> c == d
    ensures forall s :: s in AuthorizationErrorCodes + TokenErrorCodes + AppErrorCodes ==>
              exists c: ErrorCode :: ErrorCodeName(c) == s
  {
    forall s | s in AuthorizationErrorCodes + TokenErrorCodes + AppErrorCodes
      ensures exists c: ErrorCode :: ErrorCodeName(c) == s
    {
      if s == "unauthorized_client" { assert ErrorCodeName(UnauthorizedClient) == s; }
      else if s == "access_denied" { assert ErrorCodeName(AccessDenied) == s; }
      else if s == "unsupported_response_type" { assert ErrorCodeName(UnsupportedResponseType) == s; }
      else if s == "invalid_scope" { assert ErrorCodeName(InvalidScope) == s; }
      else if s == "server_error" { assert ErrorCodeName(ServerError) == s; }
      else if s == "temporarily_unavailable" { assert ErrorCodeName(TemporarilyUnavailable) == s; }
      else if s == "invalid_request" { assert ErrorCodeName(InvalidRequest) == s; }
      else if s == "invalid_client" { assert ErrorCodeName(InvalidClient) == s; }
      else if s == "invalid_grant" { assert ErrorCodeName(InvalidGrant) == s; }
      else if s == "unsupported_grant_type" { assert ErrorCodeName(UnsupportedGrantType) == s; }
      else if s == "popup_closed_unexpectedly" { assert ErrorCodeName(PopupClosedUnexpectedly) == s; }
      else { assert ErrorCodeName(PopupNotOpened) == s; }
    }
  }
}
