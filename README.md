# ephemeral-oauth: the authorization-server core in Dafny

This project models the core of ephemeral-oauth, an OAuth 2.0 authorization server written for
serverless functions (RFC 6749, with bearer tokens per RFC 6750). The core is a set of request
pipelines. Each one takes a normalised request and a backend ("the model" in the system's own
words) and either raises one tagged OAuth error or produces a token, a redirect or a validated
record. The Dafny model covers these pipelines:

- the error taxonomy (`Errors`): thirteen kinds, each with a fixed wire name and numeric code;
- the helpers every grant type shares (`BaseGrant`): token generation that defers to the
  backend's generator, expiry times, and the scope checks;
- the authorization-code grant (`AuthorizationCodeGrant`), with single-use revocation against a
  store;
- the password grant (`PasswordGrant`);
- the two client-credentials grants: the scope-carrying one that the token endpoint registers
  (`ClientCredentials`) and the scope-less one (`ClientCredentialsGrantType`);
- validation of a backend token record (`TokenModel`), including the key-filtering loop for
  extended attributes, and the JSON token response built from it (`TokenResponse`);
- the code-carrying redirect (`RedirectUri`);
- bearer-token extraction and validation at the resource server (`Authenticate`);
- the authorization endpoint's option, client, scope, state and redirect rules (`Authorize`);
- the token endpoint's option, credential, client and lifetime rules and its dispatch
  (`TokenHandler`).

The backend is split in two. Its read-side capabilities are optional functions in the
`Domain.Model` datatype: `getClient`, `getUser`, `getUserFromClient`, `getAccessToken`, the
three generators and `validateScope`. An absent capability is `None`. The capabilities that change
stored state act on the `Persistence.Store` class, which holds a map of authorization codes and
the sequence of saved tokens. `Domain.Model` keeps one flag per store capability, recording
whether the backend offers it.

These are parameters rather than effects:

- Time: `now` is an integer number of milliseconds. Lifetimes are seconds.
- Randomness: the random token that `generateRandomToken` would return.
- The unseen URI validator: `isUri`.

JavaScript truthiness is explicit:

- a request parameter is `Option<string>`, truthy when present and non-empty;
- a client lifetime of `0` stands for an absent one;
- `a || b` on parameters is `Validator.Or`.

The VSCHAR and NQSCHAR checks follow Appendix A of RFC 6749: %x20-7E, and the same without `"`
and `\`, with at least one character. The model takes it that an absent parameter passes them and an
empty one fails; see "## Left out".

## Model

| member | source | states |
|---|---|---|
| Errors.Code | src/errors/index.js:13-116 | 403 exactly for insufficient_scope, 500 exactly for invalid_argument, 503 exactly for server_error, 401 exactly for invalid_token and unauthorized_request, 400 exactly for the other eight kinds |
| Errors.NewError | src/errors/index.js:1-11 | every error keeps its kind and message, is exposed, carries its kind's code, and keeps a context only when it is a server_error |
| Errors.NameRoundTrip | src/errors/index.js:13-116 | each kind is recovered from its wire name |
| Errors.NamesDistinct | src/errors/index.js:13-116 | two kinds have the same wire name exactly when they are the same kind |
| BaseGrant.CreateBaseGrantTypeHelpers | src/grant-types/base-grant-type.js:12-26 | succeeds exactly with a non-zero access lifetime and a model; a missing lifetime is reported before a missing model, both as invalid_argument; the helpers keep both lifetimes and the model |
| BaseGrant.GenerateAccessToken | src/grant-types/base-grant-type.js:28-36 | the backend generator's token when it has one, else the random token |
| BaseGrant.GenerateRefreshToken | src/grant-types/base-grant-type.js:38-46 | the backend refresh generator's token when it has one, else the random token |
| BaseGrant.AccessTokenExpiresAt | src/grant-types/base-grant-type.js:48-54 | the access token expires exactly `accessTokenLifetime` whole seconds after `now`, so a positive lifetime gives a future expiry |
| BaseGrant.RefreshTokenExpiresAt | src/grant-types/base-grant-type.js:56-62 | the refresh token expires exactly `refreshTokenLifetime` whole seconds after `now`, so a positive lifetime gives a future expiry |
| BaseGrant.SecondsRoundTrip | src/grant-types/base-grant-type.js:48-62 | an expiry set `s` seconds after `now` gives back `s` whole seconds, and lies after `now` exactly when `s > 0` |
| BaseGrant.GetScope | src/grant-types/base-grant-type.js:64-70 | `body.scope` is returned unchanged exactly when it passes NQSCHAR; otherwise invalid_argument, not invalid_scope |
| BaseGrant.ValidateScope | src/grant-types/base-grant-type.js:72-84 | without a backend validator the scope passes unchanged; a falsy answer is invalid_scope; a truthy answer replaces the scope |
| AuthorizationCodeGrant.Create | src/grant-types/authorization-code-grant-type.js:11-33 | the helpers' failures come first; then it succeeds exactly when the model offers `getAuthorizationCode`, `revokeAuthorizationCode` and `saveToken`; the first one missing is invalid_argument naming that capability |
| AuthorizationCodeGrant.GetAuthorizationCode | src/grant-types/authorization-code-grant-type.js:38-78 | a missing or non-VSCHAR code is invalid_request before any lookup; an unknown code or another client's code is invalid_grant; a stored code without client, then without user, is server_error; a missing (non-Date) expiry is server_error; an expiry before `now` is invalid_grant and one equal to `now` is accepted; a stored non-URI redirect URI is invalid_grant; success returns the stored code |
| AuthorizationCodeGrant.ValidateRedirectUri | src/grant-types/authorization-code-grant-type.js:85-99 | passes exactly when the stored code has no redirect URI, or the request's `redirect_uri` (body first, then query) is a URI equal to it; otherwise invalid_request |
| AuthorizationCodeGrant.RevokeAuthorizationCode | src/grant-types/authorization-code-grant-type.js:106-114 | a code still stored is removed and returned unchanged; a code already gone is invalid_grant |
| AuthorizationCodeGrant.SaveToken | src/grant-types/authorization-code-grant-type.js:116-134 | the saved token has generated access and refresh tokens, expiries `now` plus each lifetime, a null scope and the authorization code attached; it is appended to the store |
| AuthorizationCodeGrant.Handle | src/grant-types/authorization-code-grant-type.js:136-152 | a request failing any check changes nothing; otherwise the code is revoked and exactly one token is saved for the exchanging client and the code's user |
| AuthorizationCodeGrant.SingleUse | src/grant-types/authorization-code-grant-type.js:106-114 | after a successful redemption removes the code, the same request at any later time is invalid_grant |
| AuthorizationCodeGrant.ExchangeTwice | src/grant-types/authorization-code-grant-type.js:136-152 | against one store, when the first exchange succeeds the second is invalid_grant and only one token is saved |
| PasswordGrant.Create | src/grant-types/password-grant-type.js:11-30 | the helpers' failures come first; then it succeeds exactly when the model offers `getUser` and `saveToken`; a missing `getUser`, then a missing `saveToken`, is invalid_argument naming it |
| PasswordGrant.GetUser | src/grant-types/password-grant-type.js:35-51 | a missing username is invalid_request before the password is looked at; a missing password is invalid_request; no user from the backend is invalid_grant; otherwise the backend's user |
| PasswordGrant.Prepare | src/grant-types/password-grant-type.js:72-83 | a missing request or client is invalid_argument; a bad scope is invalid_argument whatever `getUser` would answer; success is exactly a good scope and a found user |
| PasswordGrant.SaveToken | src/grant-types/password-grant-type.js:53-70 | the saved token has access and refresh tokens with their expiries, a null scope whatever was requested, and no authorization code; it is appended to the store |
| PasswordGrant.Handle | src/grant-types/password-grant-type.js:72-86 | a failed check saves nothing, in particular when no user is found; otherwise one token is saved for the client and the user |
| ClientCredentials.Create | src/grant-types/client-credentials.js:8-26 | the helpers' failures come first; then it succeeds exactly when the model offers `getUserFromClient` and `saveToken`; a missing `getUserFromClient`, then a missing `saveToken`, is invalid_argument naming it; the scope-less variant (client-credentials-grant-type.js:8-24) makes the same checks and uses this member |
| ClientCredentials.GetUserFromClient | src/grant-types/client-credentials.js:28-36 | the backend's user for the client, or invalid_grant when there is none; the scope-less variant (client-credentials-grant-type.js:26-34) uses this member |
| ClientCredentials.Prepare | src/grant-types/client-credentials.js:52-63 | a missing request or client is invalid_argument; the scope is checked before the user is resolved; success yields the requested scope and the resolved user |
| ClientCredentials.SaveToken | src/grant-types/client-credentials.js:38-50 | a scope the backend rejects saves nothing; otherwise the saved token has an access token, its expiry and the validated scope, and no refresh token or authorization code |
| ClientCredentials.Handle | src/grant-types/client-credentials.js:52-66 | a failed check saves nothing; otherwise exactly the token built from the validated scope is saved for the client and its user |
| ClientCredentialsGrantType.PrepareUser | src/grant-types/client-credentials-grant-type.js:51-60 | a missing request or client is invalid_argument; otherwise the user resolved for the client |
| ClientCredentialsGrantType.HandleScopeless | src/grant-types/client-credentials-grant-type.js:36-63 | a failed check saves nothing; otherwise exactly an access token, its expiry and a null scope are saved for the same client and the user resolved for it |
| Persistence.Store.RevokeAuthorizationCode | src/grant-types/authorization-code-grant-type.js:107 | reports success exactly when the code was stored, removes it, and keeps every stored code filed under its own string |
| Persistence.Store.SaveToken | src/grant-types/password-grant-type.js:69 | appends the token with its client and user and returns that record |
| Persistence.Store.SaveAuthorizationCode | src/handlers/authorize.js:140-149 | files the code under its string with client and user attached, keeping the store's invariant |
| TokenModel.CollectCustomAttributes | src/token/validate-token-model.js:46-54 | the loop collects exactly the truthy fields whose key is not one of the seven fixed attributes, with their values |
| TokenModel.ValidateTokenModel | src/token/validate-token-model.js:15-61 | the step-by-step validation equals the record validation `TokenModelOf`, whose properties are the lemmas below |
| TokenModel.RequiredFieldOrder | src/token/validate-token-model.js:18-36 | missing accessToken, client and user are invalid_argument in that order; a truthy expiry that is not a date is invalid_argument; success is exactly all three present and both expiries dates or falsy |
| TokenModel.AttributesCopied | src/token/validate-token-model.js:38-54 | the seven fixed attributes reach the model unchanged; `customAttributes` exists exactly when extended attributes are allowed and then holds exactly the truthy non-fixed fields |
| TokenModel.LifetimeRoundTrip | src/token/validate-token-model.js:56-58 | an expiry set `L` seconds after `now` gives `accessTokenLifetime == L` at that `now` |
| TokenModel.NoExpiryNoLifetime | src/token/validate-token-model.js:56-58 | without a truthy expiry there is no `accessTokenLifetime` |
| TokenResponse.CreateTokenResponse | src/token/create-token-response.js:5-36 | fails with invalid_argument exactly when the access token is falsy; the keys are `access_token`, `token_type`, `expires_in` exactly when the lifetime is non-zero, `refresh_token` exactly when it is truthy, and the custom keys; custom values override the fixed ones |
| TokenResponse.ScopeOnlyFromCustom | src/token/create-token-response.js:15-33 | the response has `scope` exactly when a custom attribute of that name exists |
| TokenResponse.ResponseForIssuedToken | src/token/create-token-response.js:15-26 | a record with a token, client, user and an expiry `L` seconds ahead yields exactly `{access_token, token_type: "Bearer", expires_in: L}`, plus `refresh_token` when the record has one |
| RedirectUri.CreateRedirectUri | src/token/create-redirect-uri.js:6-24 | a missing code, then a missing URI, are invalid_argument; the result's query holds `code` overwriting any earlier one, keeps every other parameter, and the raw search string is cleared |
| Authenticate.FirstMatch | src/handlers/authenticate.js:45 | the leftmost index where `Bearer`, one whitespace character and one non-whitespace character occur, or none when there is no such index |
| Authenticate.RunEnd | src/handlers/authenticate.js:45 | the end of the greedy non-whitespace run |
| Authenticate.GetBearerToken | src/handlers/authenticate.js:44-52 | fails with invalid_request exactly when the pattern matches nowhere; otherwise the whole non-whitespace run after the leftmost `Bearer` and one whitespace character |
| Authenticate.BearerRoundTrip | src/handlers/authenticate.js:44-52 | `Bearer ` followed by a token without whitespace gives that token back |
| Authenticate.GetTokenFromRequestBody | src/handlers/authenticate.js:73-85 | a GET is invalid_request; a content type other than `application/x-www-form-urlencoded` is invalid_request; otherwise the body's `access_token` |
| Authenticate.GetTokenFromRequest | src/handlers/authenticate.js:92-109 | a header token and a body token together are invalid_request; only a header uses the bearer extraction; only a body uses the body rules; neither is unauthorized_request |
| Authenticate.GetAccessToken | src/handlers/authenticate.js:15-27 | an unknown token is invalid_token; a record without a user is server_error; otherwise the backend's record |
| Authenticate.ValidateAccessToken | src/handlers/authenticate.js:32-42 | a non-date expiry is server_error; an expiry before `now` is invalid_token; one equal to `now` is accepted and the token is returned unchanged |
| Authenticate.Authenticate | src/handlers/authenticate.js:111-134 | extraction failures pass through; success is exactly an extracted token the backend knows, with a user and an unexpired date, and returns the backend's record |
| Authenticate.OneMethodOnly | src/handlers/authenticate.js:92-98 | a header token and a body token together are invalid_request whatever the backend holds |
| Authenticate.AuthenticateByAuthoriser | src/handlers/authenticate.js:136-152 | an absent token is server_error; bearer failures pass through; success is exactly an admitted bearer token, returning the backend's record |
| Authenticate.Handle | src/handlers/authenticate.js:154-179 | a missing model, then a model without `getAccessToken`, are invalid_argument before any token work; then the authoriser or the request path runs |
| Authenticate.HeaderTokenAdmitted | src/handlers/authenticate.js:59-63 | a request whose only credential is the header `Bearer <token>` is admitted exactly when the backend admits that token |
| Authorize.MergeDefaults | src/handlers/authorize.js:202-207 | `allowEmptyState` defaults to false, the handler to present, the code lifetime to 300 seconds; a key the caller sets wins even when falsy |
| Authorize.CheckOptions | src/handlers/authorize.js:209-227 | a falsy handler, a zero lifetime, a missing model, then a model without `getClient`, then one without `saveAuthorizationCode`, are invalid_argument in that order, each with its own message; success returns the merged options |
| Authorize.AuthorizationCodeExpiresAt | src/handlers/authorize.js:33-39 | the expiry lies exactly `lifetime` whole seconds after `now`, so a positive lifetime gives a future expiry |
| Authorize.GenerateAuthorizationCode | src/handlers/authorize.js:22-28 | the backend generator's code when it has one, else the random token |
| Authorize.GetClient | src/handlers/authorize.js:44-84 | a missing or non-VSCHAR `client_id` (body first) is invalid_request; a non-URI `redirect_uri` is invalid_request before the lookup; no client or no grants is invalid_client; grants without `authorization_code` is unauthorized_client; no registered redirect URIs, then a requested `redirect_uri` that is not registered, are invalid_client with their own messages; success is exactly the case with registered redirect URIs that include a requested one, and returns the backend's client |
| Authorize.GetScope | src/handlers/authorize.js:89-97 | the scope (body first) is returned unchanged exactly when it passes NQSCHAR; otherwise invalid_scope |
| Authorize.GetState | src/handlers/authorize.js:103-115 | a missing state is invalid_request unless empty states are allowed; a non-VSCHAR state is invalid_request; otherwise the state as given |
| Authorize.GetRedirectUri | src/handlers/authorize.js:136-138 | the requested redirect URI (body first) when given, else the client's first registered one |
| Authorize.RedirectIsRegistered | src/handlers/authorize.js:75-81 | after `getClient` succeeds, the effective redirect URI is one the client registered |
| Authorize.SaveAuthorizationCode | src/handlers/authorize.js:140-149 | the code is filed with its expiry, redirect URI, scope, client and user; nothing else in the store changes |
| Authorize.IssuedCodeRedeemable | src/handlers/authorize.js:140-149 | a stored code can be exchanged with the same redirect URI exactly by a client with the same id and only until it expires, and yields the user it was issued to |
| Authorize.CreateErrorRedirectUri | src/handlers/authorize.js:171-183 | the query becomes exactly `error`, plus `error_description` exactly when the error has a message |
| Authorize.CreateAuthorizationCodeResponse | src/handlers/authorize.js:185-198 | status 301; `state` is added exactly when present and every other query parameter is kept |
| TokenHandler.MergeDefaults | src/handlers/token.js:117-123 | defaults 3600, 1209600, false and `{}`; a key the caller sets wins |
| TokenHandler.CheckConfig | src/handlers/token.js:125-135 | a falsy access lifetime, then a falsy refresh lifetime, then a model without `getClient` are invalid_argument; success returns the merged options |
| TokenHandler.GetClientCredentials | src/handlers/token.js:15-30 | credentials exactly when both `client_id` and `client_secret` are present; otherwise invalid_client |
| TokenHandler.GetClient | src/handlers/token.js:32-69 | a credential failure yields no client; otherwise the backend's answer for the id and secret |
| TokenHandler.CheckClient | src/handlers/token.js:151-161 | no client is invalid_client; missing grants or grants that are not an array are server_error; success is exactly an array of grants |
| TokenHandler.AccessTokenLifetime | src/handlers/token.js:71-73 | the client's access lifetime when truthy, else the option |
| TokenHandler.RefreshTokenLifetime | src/handlers/token.js:75-77 | the client's refresh lifetime when truthy, else the option |
| TokenHandler.Prepare | src/handlers/token.js:115-161 | option failures first, then the client checks on the client looked up with the body's credentials |
| TokenHandler.ClientCredentialsOutcome | src/handlers/token.js:104-112 | the registered grant, built from the effective lifetimes, passes back its construction error, its argument, scope or user error, or the backend's scope verdict; otherwise an access-only token for the client's user with the validated scope and the effective access lifetime |
| TokenHandler.HandleGrantType | src/handlers/token.js:79-113 | a missing `grant_type` is invalid_request; an unregistered name is server_error; `client_credentials` gives exactly the grant's outcome; a failure saves nothing and a success saves exactly the returned token |
| TokenHandler.HandleToken | src/handlers/token.js:115-174 | option and client failures come first and save nothing; after them a `client_credentials` request gives exactly the grant's outcome for the checked client; a success saves exactly the returned token |

## Left out

- The transport adapters are not part of this model. The request arrives already normalised.
  - src/utils/parse-aws-event.js is one of them, so its POST-only rule is left out.
  - The token endpoint's `../utils/parse-event` is not among the files modelled.
- src/grant-types/refresh-token-grant-type.js is not part of this model. Its lookup, expiry and rotation logic is commented out, and what remains refers to undefined names.
- The authorization endpoint's top-level sequence is not modelled as one operation, because it uses names that are never defined there (`options`, `responseTypes`, `url`, `parseAWSEvent`, and `uri` and `state` in its catch). The same holds for its `getUser` and `getResponseType`. Its steps are modelled one by one.
- URL parsing and formatting are not part of this model. A redirect is the `Domain.Uri` record. The `Location` header holds that record, not a formatted string.
- Authorize.CreateErrorRedirectUri: keeps the parsed URI's raw `search` field, as the code does. Because formatting is left out, the model does not say that the formatted URI would then still show the old query.
- Authorize.CreateAuthorizationCodeResponse: the code assigns to the caller's URI object. The model returns the updated URI instead, and no caller reads the old object afterwards.
- The token endpoint's `requireClientAuthentication` and `alwaysIssueNewRefreshToken` options have no effect in the code beyond being passed along, so the model only records the default of the first.
- Client secrets are passed to `getClient` but are otherwise not checked; the commented-out checks are not modelled.
- Async sequencing is not modelled. Every step runs in order, including the calls the code does not await: `validateScope` in client-credentials.js:39, and `validateRedirectUri` and `revokeAuthorizationCode` in authorization-code-grant-type.js:147-149.
- Dates are integer milliseconds. Invalid dates (`NaN`) and fractional lifetimes are left out.
- Tokens and codes from `generateRandomToken` are a parameter. Their length and alphabet are not modelled.
- Storage atomicity and concurrent access to the backend are not modelled. `revokeAuthorizationCode` is an atomic remove.
- Authenticate.AuthenticateByAuthoriser: states only the kind of the error for an absent token, because in the code the message is the runtime's own `TypeError` text.
- TokenHandler.HandleGrantType: states only the kind for an unregistered grant name, because in the code the message is the runtime's own "not a constructor" text.
- The VSCHAR, NQSCHAR and URI checks of `../validator/is` are not among the files modelled. The model assumes that an absent parameter passes the VSCHAR and NQSCHAR checks and an empty one fails, as the optional `scope` and the `allowEmptyState` option need. It also assumes that an absent value is never a URI (`Validator.UriParam`); a present one is judged by the `isUri` parameter.
- TokenHandler.TokenConfig always holds a backend, so `config.model.getClient` at src/handlers/token.js:131 cannot fail on a missing model: the handler factory at src/index.js:8-10 refuses to build the endpoints without a `model`, and :14 passes those options to the token handler.

## Where the model follows the evident intent

The code has unfinished spots that would throw at run time. The model follows the evident intent
at each of these:

- src/errors/index.js:45 and :124 define and export `InavlidGrantError`, but the grants import `InvalidGrantError`. The model raises invalid_grant.
- src/grant-types/authorization-code-grant-type.js does not import `ServerError`. The model raises server_error at :53-66.
- src/handlers/authenticate.js:23 and :34 raise `LambdaError`, which is never defined. The model raises server_error.
- src/handlers/authenticate.js:45 and :62 use `token` where `authenticationHeader` is meant.
- src/handlers/authenticate.js:128-132 would wrap a non-OAuth error in that undefined class, and :177 re-wraps every error as a bare `OAuthError`. The model passes the tagged error through.
- src/grant-types/base-grant-type.js:74 shadows `scope` inside its own initializer. The model passes the requested scope to `validateScope`.
- src/grant-types/authorization-code-grant-type.js:151 saves the token for an undefined `user`. The model uses the code's user.
- src/handlers/authorize.js does not import `InvalidScopeError`. The model's `getScope` raises invalid_scope.
- src/handlers/token.js imports its error classes from src/utils/errors.js. Those classes carry no kind, and :176 refers to an undefined `e`. The model raises the tagged kinds the names say.
- src/handlers/token.js:163 passes its arguments in the wrong order, and :172-174 return the client rather than a token. The model dispatches the request and client to the grant and returns the saved token.
- The same call at src/handlers/token.js:163 also leaves out `handleGrantType`'s third argument, `options`. The model passes the merged and checked options of :116-135, so the default lifetimes reach the grant.
- src/handlers/token.js:12 registers an arrow function that `new` cannot construct. The model constructs the grant with the options built at :104-109.

The error classes set `code` but leave `status` undefined, since `this.status = this.statusCode` reads
a field that is never set. The model records `code` only.

At two places the code departs from RFC 6749, and the model follows the code:

- Section 5.2 of RFC 6749 has the token endpoint answer an unregistered `grant_type` with unsupported_grant_type, and a grant the client may not use with unauthorized_client. Both checks are commented out in src/handlers/token.js, so an unregistered name ends in server_error.
- Section 5.1 of RFC 6749 has the token response carry `scope` whenever it differs from the requested one. The builder emits it only through custom attributes.
