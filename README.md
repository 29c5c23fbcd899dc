# papirfly-authenticator in Dafny

This project models the core of `PapirflyAuthenticator`. That is a browser OAuth2 client with three flows:

- **Authorization code.** It uses an optional PKCE challenge (RFC 7636). The flow opens a popup at the authorization endpoint. It listens for a sentinel message from the redirect page, or notices that the popup was closed. Then it exchanges the code at the token endpoint.
- **Client credentials.** The client secret is sent as the `code`.
- **Refresh.** It exchanges a refresh token and, on any failure, falls back to re-authorizing with the flow that the configuration's grant type names.

The model covers these pieces:
- the configuration and result records and the error-code vocabulary;
- the order and content of the authorization query and of both form bodies;
- the status rule of the token exchange;
- the expiration-date arithmetic;
- the construction of the PKCE verifier and challenge;
- the popup session as a state machine, with a class whose methods are tied to it.

The modules are:
- `Wrappers`: `Option` and `Result`.
- `AuthenticatorInterfaces`: the configuration, result and error types of `PapirflyAuthenticatorInterfaces`.
- `Forms`: ordered name/value lists, used for the `urlParams` array and for `FormData`.
  - A body is specified by a table of optional fields (`Lists`). The table determines the body uniquely.
  - The module also holds `join`/split and the `&`-joined query.
- `Expiration`: `getAccessTokenExpirationDate`.
- `Challenge`: `createChallenge`, with the verifier alphabet, the base64url rewrite and its inverse.
- `Popup`: the listener, the `closePopup` teardown and the 500 ms poller.
  - They are pure step functions over a `SessionState`.
  - The `PopupSession` class has mutable fields, and each of its methods is proved to perform one step.
- `TokenExchange`: `fetchToken` and `getToken`. The methods `GetTokenBody` and `RefreshBody` build the bodies append by append.
- `Authenticator`: the three flows.
  - Each flow is a method. Its postcondition is a behaviour predicate that relates the environment (popup, browser events, crypto, token response, clock) to the trace of what the flow did.
  - For the code flow, the method drives a `PopupSession` over the event sequence.
- `AuthenticatorProperties`: theorems about the flows. They include those checked by the repository's tests.

Things outside the core are parameters:
- the clock is a `now` value;
- the random bytes, the SHA-256 digest and `btoa` are functions inside a `Crypto` value;
- `window.open`'s result is `popupOpens`;
- the browser's message and timer events are an `Event` sequence;
- the token endpoint's answer is a `Response`;
- the optional `throwError` callback is `hasErrorHandler`, with reported errors collected in the trace.

Three details of the code are worth stating outright:
- **Digest input.** The digest is taken over the verifier's ASCII codes (`chars`, src/PapirflyAuthenticator.ts:218-223), as section 4.2 of RFC 7636 requires, not over the raw random bytes. `Challenge.DigestInputIsAsciiOfVerifier` states this.
- **Cap threshold.** The one-day cap applies exactly when the effective lifetime exceeds 96 000 seconds (0.9 × 96 000 s = 24 h). `Expiration.CapAppliesExactly` states this.
- **Error message of a failed exchange.** The source's message has a stray `)}` (see "## Findings"). The flows use the corrected message; "## Left out" names the members this affects.

## Model

| member | source | states |
|---|---|---|
| AuthenticatorInterfaces.ErrorCodeIsUnion | src/PapirflyAuthenticatorInterfaces.ts:158-176 | every error code's name lies in the union of the authorization, token and application code sets; names are injective; every name in the union is some code's name |
| Forms.ListsUnique | src/PapirflyAuthenticator.ts:164-172 | a body that lists a table with distinct field names is exactly that table's present fields, in table order |
| Forms.SplitJoin | src/PapirflyAuthenticator.ts:18 | joining non-empty lists of separator-free pieces with `+` (or `&`) and splitting again gives back the pieces |
| Forms.ParseJoinQuery | src/PapirflyAuthenticator.ts:30-34 | the `&`-joined `name=value` query parses back into the parameter list when names contain no `=` or `&` and values no `&` |
| Expiration.AccessTokenExpirationDate | src/PapirflyAuthenticator.ts:148-155 | the date is at most a day after `now`; it is at most `now` plus 900 ms per second of effective lifetime; and it is one of the two |
| Expiration.ExpiresAfterNow | src/PapirflyAuthenticator.ts:148-155 | with a positive effective lifetime the date is strictly after `now` |
| Expiration.DefaultLifetime | src/PapirflyAuthenticator.ts:151 | an absent lifetime, a lifetime of 0 and a lifetime of 3600 all give `now` + 3 240 000 ms |
| Expiration.Monotone | src/PapirflyAuthenticator.ts:148-155 | a longer advertised lifetime never gives an earlier date |
| Expiration.CapAppliesExactly | src/PapirflyAuthenticator.ts:148-155 | the one-day cap cuts the margin if and only if the effective lifetime exceeds 96 000 seconds |
| Challenge.AlphabetAt | src/PapirflyAuthenticator.ts:215 | every character of the 62-character alphabet is an ASCII letter or digit |
| Challenge.VerifierChar | src/PapirflyAuthenticator.ts:218-220 | a byte maps to an ASCII alphanumeric character |
| Challenge.Verifier | src/PapirflyAuthenticator.ts:216-221 | the verifier has one alphanumeric character per random byte |
| Challenge.DigestInputIsAsciiOfVerifier | src/PapirflyAuthenticator.ts:218-223 | the digested octets are exactly the verifier's character codes |
| Challenge.TrailingCount | src/PapirflyAuthenticator.ts:225 | the count is the length of the maximal run of the character at the end of the string |
| Challenge.Base64Url | src/PapirflyAuthenticator.ts:225 | the rewrite contains no `+` and no `/`, does not end in `=`, and is no longer than its input |
| Challenge.Base64UrlRoundTrip | src/PapirflyAuthenticator.ts:225 | on well-formed base64, undoing the rewrite and restoring the padding gives back the input |
| Challenge.CreateChallenge | src/PapirflyAuthenticator.ts:214-226 | the verifier has 50 characters, the i-th is the alphabet at the i-th random byte modulo 62, and the challenge is the base64url of the digest of the verifier's ASCII octets |
| Challenge.ChallengeConforms | src/PapirflyAuthenticator.ts:214-226 | the verifier's length is within 43..128 and it uses only unreserved characters; the challenge contains no `+` or `/` and no trailing `=`, and when the digest's base64 is well formed it uses only unreserved characters |
| Popup.StepPreservesInvariant | src/PapirflyAuthenticator.ts:42-75 | every message or tick keeps the session invariant: teardown counters at most 1, and torn down exactly when settled |
| Popup.RunPreservesInvariant | src/PapirflyAuthenticator.ts:42-75 | any event sequence keeps the session invariant |
| Popup.SettledIsFinal | src/PapirflyAuthenticator.ts:42-75 | once the promise is settled, no further event changes the session |
| Popup.RunAppend | src/PapirflyAuthenticator.ts:42-75 | running two event sequences one after the other is running their concatenation |
| Popup.TeardownAtMostOnce | src/PapirflyAuthenticator.ts:56-67 | over any events the popup is closed, the listener removed and the interval cleared at most once, and exactly once when settled |
| Popup.FirstSettlementWins | src/PapirflyAuthenticator.ts:42-75 | events after the first settlement change nothing |
| Popup.MessageOutcome | src/PapirflyAuthenticator.ts:44-53 | the authorized name resolves with the code (even when it is also the rejected name); the rejected name alone rejects with error and description; any other name leaves the session unchanged |
| Popup.TickOutcome | src/PapirflyAuthenticator.ts:68-74 | a tick rejects with `popup_closed_unexpectedly` if and only if the popup reads closed before teardown; otherwise it changes nothing |
| Popup.PopupSession.constructor | src/PapirflyAuthenticator.ts:42-54 | a new session has its listener registered and timer running, nothing torn down, and is pending |
| Popup.PopupSession.ClosePopup | src/PapirflyAuthenticator.ts:56-67 | the new state is the teardown of the old one |
| Popup.PopupSession.OnMessage | src/PapirflyAuthenticator.ts:44-53 | the new state is the message step of the old one; a settled session is unchanged |
| Popup.PopupSession.OnTick | src/PapirflyAuthenticator.ts:68-74 | the new state is the tick step of the old one; a settled session is unchanged |
| Popup.PopupSession.Dispatch | src/PapirflyAuthenticator.ts:44-74 | the new state is the step of the old one on the event, and the session stays valid |
| TokenExchange.DecimalString | src/PapirflyAuthenticator.ts:196 | a status renders as a non-empty string of decimal digits whose decimal value is the status |
| TokenExchange.FetchErrorMessageCarriesText | src/PapirflyAuthenticator.ts:194-197 | the text after the status and `: ` in the corrected message is exactly the response text |
| TokenExchange.FetchErrorMessageAsWrittenGarbles | src/PapirflyAuthenticator.ts:196 | in the message as written, the text after the status is the response text followed by `)}`, so never the response text |
| TokenExchange.NotFoundAsWritten | src/PapirflyAuthenticator.ts:196 | a 404 "Not Found" gives "404: Not Found)}" as written and "404: Not Found" corrected |
| TokenExchange.FetchOutcome | src/PapirflyAuthenticator.ts:177-207 | a token results if and only if the status is 200 and the body parses, and then it is the parsed body; any other status fails with the status-and-text message |
| TokenExchange.TokenFields | src/PapirflyAuthenticator.ts:163-172 | the token body's fields are, in order, grant type, code, client id, redirect URL, scope, secret, verifier |
| TokenExchange.RefreshFields | src/PapirflyAuthenticator.ts:122-127 | the refresh body's fields are, in order, grant type, refresh token, client id, secret |
| TokenExchange.GetTokenBody | src/PapirflyAuthenticator.ts:157-175 | the body built append by append lists the token table: its names in table order, each field present with its value exactly when the source appends it |
| TokenExchange.RefreshBody | src/PapirflyAuthenticator.ts:122-127 | the body built append by append lists the refresh table |
| Authenticator.QueryFields | src/PapirflyAuthenticator.ts:15-29 | the query's fields are, in order, response type, client id, scope, redirect URL, challenge method, challenge |
| Authenticator.AuthorizationQuery | src/PapirflyAuthenticator.ts:15-29 | the pushed parameter list lists the query table: the four fixed pairs, then `S256` and the challenge only when there is a challenge |
| Authenticator.AuthorizationUrlText | src/PapirflyAuthenticator.ts:30-36 | the URL is the endpoint, `?`, then the unescaped `name=value` pairs joined by `&`, with scopes joined by `+` |
| Authenticator.CodeFlowResult | src/PapirflyAuthenticator.ts:80-87 | the result carries the token's access token, refresh token and type, the configured scopes and the authorization code, no verifier, and expires at `getAccessTokenExpirationDate` of the token's lifetime (so within a day) |
| Authenticator.CredentialsResult | src/PapirflyAuthenticator.ts:102-108 | the result carries the token's access token, refresh token and type, the configured scopes or `[]` when none, no authorization code, and expires at `getAccessTokenExpirationDate` of the token's lifetime (so within a day) |
| Authenticator.RefreshResultOf | src/PapirflyAuthenticator.ts:132-137 | the result carries the token's access token, refresh token and type, and expires at `getAccessTokenExpirationDate` of the token's lifetime (so within a day) |
| Authenticator.AuthorizeWithAuthorizationCode | src/PapirflyAuthenticator.ts:12-92 | the trace satisfies the authorization-code behaviour: query and URL, popup-not-opened path, session over the events, rejection reported, code redeemed with the verifier, exchange failure reported |
| Authenticator.AuthorizeWithClientCredentials | src/PapirflyAuthenticator.ts:97-113 | the trace satisfies the client-credentials behaviour: secret redeemed as the code, token mapped to the result, failure reported |
| Authenticator.Refresh | src/PapirflyAuthenticator.ts:118-146 | the trace satisfies the refresh behaviour: a successful exchange gives the refreshed result, and any failure falls back to the flow of the configured grant type |
| AuthenticatorProperties.PopupNotOpened | __tests__/OAuth2Utils.test.ts:24-32 | a popup that does not open is reported once (when a callback is set), gives `undefined`, and starts no session and no token request |
| AuthenticatorProperties.InertEventsChangeNothing | src/PapirflyAuthenticator.ts:44-74 | open-popup ticks and messages of other names leave a new session as it was |
| AuthenticatorProperties.PopupClosedBeforeAnyMessage | __tests__/OAuth2Utils.test.ts:34-44 | a popup found closed before any sentinel message is reported once as `popup_closed_unexpectedly`, gives `undefined`, sends no token request and is torn down once |
| AuthenticatorProperties.SessionTornDownAtMostOnce | src/PapirflyAuthenticator.ts:56-74 | in the flow's trace the popup is closed at most once, and exactly once when the call stops waiting |
| AuthenticatorProperties.ResolvedCodeIsRedeemed | src/PapirflyAuthenticator.ts:78-87 | a resolved code is sent with the `authorization_code` grant, the client id and the redirect URL, and a successful result carries it |
| AuthenticatorProperties.PkceBindsChallengeAndVerifier | src/PapirflyAuthenticator.ts:22-29 | with PKCE on, the URL carries `S256` and the challenge, the token body carries the verifier of the same challenge, and the challenge is derived from that verifier; with PKCE off, neither is sent |
| AuthenticatorProperties.ClientCredentialsBody | src/PapirflyAuthenticator.ts:101 | the client-credentials body sends the secret as `code` (and as `client_secret` when non-empty), no redirect URL, no verifier, and a scope exactly when scopes are set |
| AuthenticatorProperties.TokenFieldsHead | src/PapirflyAuthenticator.ts:166-168 | the present token fields start with grant type, code and client id |
| AuthenticatorProperties.TokenBodyStartsWithGrantCodeClient | src/PapirflyAuthenticator.ts:166-168 | every token body starts with `grant_type`, `code`, `client_id`, in that order |
| AuthenticatorProperties.RefreshBodyExact | src/PapirflyAuthenticator.ts:122-127 | the refresh body is exactly grant type `refresh_token`, refresh token, client id, then the secret when non-empty |
| AuthenticatorProperties.RefreshFallsBackExactlyOnce | __tests__/OAuth2Utils.test.ts:46-76 | a failed refresh exchange calls exactly one authorization flow, the one the grant type names, and returns its outcome; a successful one calls none |

## Left out

- The network:
  - `fetch` is a `Response` value, and a thrown `fetch` is `NoResponse`.
  - The URL-encoded rendering of the body by `URLSearchParams` is not modelled. The model records only the chosen encoding and the ordered fields.
- Browser APIs become inputs:
  - `window.open` is `popupOpens`.
  - `addEventListener`, `setInterval` and `popup.closed` are the event sequence.
  - The 500 ms polling period is not modelled. Only the order of events matters.
- `JSON.parse` of message data:
  - A message is either parsed fields or unparseable; an unparseable message is inert.
  - A non-string `name` compared with `==` is not modelled.
  - A message without a `code` field resolves to `undefined`, which `FormData.append` sends as the text `"undefined"`. The model's parsed message always carries a code string.
- `response.json()` is an optional parsed token. Its field types are not checked, and that mirrors the source's unchecked cast.
- The cryptographic primitives (`crypto.getRandomValues`, `crypto.subtle.digest`, `btoa`) are functions in a `Crypto` value. That two challenges differ is a property of the random source, so the randomness test is not modelled.
- Expiration.AccessTokenExpirationDate: uses integer milliseconds. It does not model floating-point rounding of `expires_in × 0.9 × 1000` or non-numeric `expires_in` values such as `NaN`.
- The two separate `Date.now()` reads in `getAccessTokenExpirationDate` are one `now` value.
- Asynchrony and the promise returned by `throwError` are not modelled.
  - A pending authorization is `StillWaiting`.
  - `throwError` is called only when it is present, and its promise is not awaited.
  - A `throwError` that itself throws synchronously makes the flow's promise reject. The model treats the callback as returning normally.
- Authenticator.AuthorizeWithAuthorizationCode: the session stops at the first settlement. Later events are not delivered to it, which `Popup.FirstSettlementWins` shows changes nothing.
- TokenExchange.FetchOutcome: a status other than 200 fails with the corrected message `status: text`, not the `status: text)}` that src/PapirflyAuthenticator.ts:196 throws. The as-written message is `TokenExchange.FetchErrorMessageAsWritten` (see "## Findings").
- Authenticator.AuthorizeWithAuthorizationCode: a failed exchange is reported to `throwError` with the corrected `status: text` message of `TokenExchange.FetchOutcome`, not the source's `status: text)}`.
- Authenticator.AuthorizeWithClientCredentials: a failed exchange is reported to `throwError` with the corrected `status: text` message of `TokenExchange.FetchOutcome`, not the source's `status: text)}`.
- The exported wrapper functions (src/PapirflyAuthenticator.ts:229-236) only forward to the class methods and have no members of their own.

## Findings

| source | as written | input that shows it | evidently intended | confidence | as-written member | corrected member |
|---|---|---|---|---|---|---|
| src/PapirflyAuthenticator.ts:196 | the error message is `${status}: ${text})}`, with a stray `)}` after the response text | status 404 with text "Not Found" gives "404: Not Found)}" | `${status}: ${text}` | high, not executed | TokenExchange.FetchErrorMessageAsWrittenGarbles | TokenExchange.FetchErrorMessageCarriesText |
