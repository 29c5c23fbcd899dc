/**
 * Token requests: the form bodies `getToken` and `refresh` build by
 * successive appends, the request `fetchToken` sends, and its status rule
 * (any status other than 200 throws an error carrying status and body text).
 * The transport itself is not modelled: a request meets a `Response`.
 */
module TokenExchange {
  import opened Wrappers
  import opened AuthenticatorInterfaces
  import opened Forms

  /** What `fetchToken` throws, and what the flows pass to the error callback. */
  datatype Failure =
    | ErrorObject(message: string)    // an `Error` with this message
    | AuthErrorObject(e: AuthError)   // an `{error, error_description}` record
    | NetworkError                    // `fetch` itself rejected
    | MalformedJson                   // `response.json()` rejected

  /** What the token endpoint answers: nothing, or a status, its body text and that text parsed as JSON. */
  datatype Response =
    | NoResponse
    | HttpResponse(status: nat, text: string, json: Option<TokenJson>)

  /**
   * A POST to `endpoint`, its body encoded as `encoding` says, with the
   * `Content-Type` header the source sets (none for `FormData`, whose
   * multipart header the browser supplies).
   */
  datatype TokenRequest = TokenRequest(endpoint: string, encoding: ContentType, contentTypeHeader: Option<string>,
                                       body: Form)

  const UrlEncodedMediaType: string := "application/x-www-form-urlencoded"

  /** `fetchToken`: the request goes to the token endpoint in the configured encoding. */
  function TokenRequestFor(config: AuthConfig, body: Form): TokenRequest
  {
    match config.service.contentType
    case UrlEncoded => TokenRequest(config.service.tokenEndpoint, UrlEncoded, Some(UrlEncodedMediaType), body)
    case FormData => TokenRequest(config.service.tokenEndpoint, FormData, None, body)
  }

  function DigitChar(d: nat): char
    requires d < 10
  {
    ('0' as int + d) as char
  }

  predicate IsDigits(s: string)
  {
    forall i :: 0 <= i < |s| ==> '0' <= s[i] <= '9'
  }

  /** The number a string of decimal digits denotes, most significant digit first. */
  function DecimalValue(s: string): nat
    requires IsDigits(s)
    decreases |s|
  {
    if s == [] then 0 else DecimalValue(s[..|s| - 1]) * 10 + (s[|s| - 1] as int - '0' as int)
  }

  /** `${n}` for a non-negative integer: its decimal digits, which read back as `n`. */
  function DecimalString(n: nat): (s: string)
    ensures |s| >= 1 && IsDigits(s)
    ensures DecimalValue(s) == n
    decreases n
  {
    if n < 10 then
      [DigitChar(n)]
    else
      var p := DecimalString(n / 10);
      var s := p + [DigitChar(n % 10)];
      assert s[..|s| - 1] == p;
      s
  }

  /** The message of a failed exchange: status, colon, body text. */
  function FetchErrorMessage(status: nat, text: string): string
  {
    DecimalString(status) + ": " + text
  }

  /** The message exactly as the source writes it, with two stray characters after the text. */
  function FetchErrorMessageAsWritten(status: nat, text: string): string
  {
    DecimalString(status) + ": " + text + ")}"
  }

  /** What a reader of the message takes as the server's text: all after the first `": "`. */
  function TextAfterStatus(msg: string): string
    decreases |msg|
  {
    if msg == [] then []
    else if msg[0] == ':' then (if |msg| >= 2 then msg[2..] else [])
    else TextAfterStatus(msg[1..])
  }

  lemma {:induction false} TextAfterStatusSkips(a: string, b: string)
    requires ':' !in a
    ensures TextAfterStatus(a + b) == TextAfterStatus(b)
    decreases |a|
  {
    if a == [] {
      assert a + b == b;
    } else {
      assert a[0] in a;
      assert (a + b)[0] == a[0];
      assert (a + b)[1..] == a[1..] + b;
      TextAfterStatusSkips(a[1..], b);
    }
  }

  /** The corrected message carries the body text unchanged. */
  lemma FetchErrorMessageCarriesText(status: nat, text: string)
    ensures TextAfterStatus(FetchErrorMessage(status, text)) == text
  {
    var d := DecimalString(status);
    assert ':' !in d;
    assert FetchErrorMessage(status, text) == d + (": " + text);
    TextAfterStatusSkips(d, ": " + text);
  }

  /** The message as written garbles every body text: `")}"` is glued to it. */
  lemma FetchErrorMessageAsWrittenGarbles(status: nat, text: string)
    ensures TextAfterStatus(FetchErrorMessageAsWritten(status, text)) == text + ")}"
    ensures TextAfterStatus(FetchErrorMessageAsWritten(status, text)) != text
  {
    var d := DecimalString(status);
    assert ':' !in d;
    assert FetchErrorMessageAsWritten(status, text) == d + (": " + (text + ")}"));
    TextAfterStatusSkips(d, ": " + (text + ")}"));
  }

  /** A 404 "Not Found" answer, as the source reports it. */
  lemma NotFoundAsWritten()
    ensures FetchErrorMessageAsWritten(404, "Not Found") == "404: Not Found)}"
    ensures FetchErrorMessage(404, "Not Found") == "404: Not Found"
  {
    assert DecimalString(404) == "404";
  }

  /** The status rule of `fetchToken`: only a 200 whose body parses yields a token. */
  function FetchOutcome(response: Response): (r: Result<TokenJson, Failure>)
    ensures r.Success? <==> response.HttpResponse? && response.status == 200 && response.json.Some?
    ensures r.Success? ==> r.value == response.json.value
    ensures response.HttpResponse? && response.status != 200 ==>
              r == Failure(ErrorObject(FetchErrorMessage(response.status, response.text)))
  {
    match response
    case NoResponse => Failure(NetworkError)
    case HttpResponse(status, text, json) =>
      if status != 200 then Failure(ErrorObject(FetchErrorMessage(status, text)))
      else if json.None? then Failure(MalformedJson)
      else Success(json.value)
  }

  /** `if (x) append(...)` on an optional string: absent and empty values are skipped. */
  function NonEmpty(o: Option<string>): Option<string>
  {
    if o.Some? && o.value != "" then o else None
  }

  const TokenFieldOrder: seq<string> :=
    ["grant_type", "code", "client_id", "redirect_uri", "scope", "client_secret", "code_verifier"]

  const RefreshFieldOrder: seq<string> := ["grant_type", "refresh_token", "client_id", "client_secret"]

  /**
   * The fields of a `getToken` body: grant type, code and client id always;
   * the redirect URL for authorization-code configurations; the `+`-joined
   * scopes whenever scopes are defined (an empty list gives ""); the secret
   * and the verifier when non-empty.
   */
  function TokenFields(grant: GrantType, code: string, config: AuthConfig, verifier: Option<string>): (t: FieldTable)
    ensures Names(t) == TokenFieldOrder
  {
    var t := [
      ("grant_type", Some(GrantTypeName(grant))),
      ("code", Some(code)),
      ("client_id", Some(config.clientId)),
      ("redirect_uri", if config.AuthorizationCodeConfig? then Some(config.redirect.url) else None),
      ("scope", if config.ScopeList().Some? then Some(Join(config.ScopeList().value, '+')) else None),
      ("client_secret", NonEmpty(config.Secret())),
      ("code_verifier", NonEmpty(verifier))];
    assert Names(t) == TokenFieldOrder;
    t
  }

  /** The fields of a `refresh` body: grant type, refresh token, client id, and the secret when non-empty. */
  function RefreshFields(config: AuthConfig, refresh: RefreshConfiguration): (t: FieldTable)
    ensures Names(t) == RefreshFieldOrder
  {
    var t := [
      ("grant_type", Some(GrantTypeName(refresh.Grant()))),
      ("refresh_token", Some(refresh.refreshToken)),
      ("client_id", Some(config.clientId)),
      ("client_secret", NonEmpty(config.Secret()))];
    assert Names(t) == RefreshFieldOrder;
    t
  }

  lemma TokenFieldOrderDistinct()
    ensures Distinct(TokenFieldOrder) && Distinct(RefreshFieldOrder)
  {
  }

  /** The body of `getToken`, appended field by field. */
  method GetTokenBody(code: string, grant: GrantType, config: AuthConfig, verifier: Option<string>)
    returns (body: Form)
    ensures Lists(body, TokenFields(grant, code, config, verifier))
  {
    ghost var t := TokenFields(grant, code, config, verifier);
    body := [];
    assert body == Present(t[..0]);
    body := body + [("grant_type", GrantTypeName(grant))];
    PresentPrefix(t, 0);
    assert body == Present(t[..1]);
    body := body + [("code", code)];
    PresentPrefix(t, 1);
    assert body == Present(t[..2]);
    body := body + [("client_id", config.clientId)];
    PresentPrefix(t, 2);
    assert body == Present(t[..3]);
    if config.AuthorizationCodeConfig? {
      body := body + [("redirect_uri", config.redirect.url)];
    }
    PresentPrefix(t, 3);
    assert body == Present(t[..4]);
    if config.ScopeList().Some? {
      body := body + [("scope", Join(config.ScopeList().value, '+'))];
    }
    PresentPrefix(t, 4);
    assert body == Present(t[..5]);
    if config.Secret().Some? && config.Secret().value != "" {
      body := body + [("client_secret", config.Secret().value)];
    }
    PresentPrefix(t, 5);
    assert body == Present(t[..6]);
    if verifier.Some? && verifier.value != "" {
      body := body + [("code_verifier", verifier.value)];
    }
    PresentPrefix(t, 6);
    assert body == Present(t[..7]);
    assert t[..7] == t;
    TokenFieldOrderDistinct();
    PresentLists(t);
  }

  /** The body of `refresh`, appended field by field. */
  method RefreshBody(config: AuthConfig, refresh: RefreshConfiguration) returns (body: Form)
    ensures Lists(body, RefreshFields(config, refresh))
  {
    ghost var t := RefreshFields(config, refresh);
    body := [];
    assert body == Present(t[..0]);
    body := body + [("grant_type", GrantTypeName(refresh.Grant()))];
    PresentPrefix(t, 0);
    assert body == Present(t[..1]);
    body := body + [("refresh_token", refresh.refreshToken)];
    PresentPrefix(t, 1);
    assert body == Present(t[..2]);
    body := body + [("client_id", config.clientId)];
    PresentPrefix(t, 2);
    assert body == Present(t[..3]);
    if config.Secret().Some? && config.Secret().value != "" {
      body := body + [("client_secret", config.Secret().value)];
    }
    PresentPrefix(t, 3);
    assert body == Present(t[..4]);
    assert t[..4] == t;
    TokenFieldOrderDistinct();
    PresentLists(t);
  }
}
