/** The authorization endpoint's checks (src/handlers/authorize.js, section 4.1 of RFC 6749):
    options and their defaults, the client and its redirect URI, scope and state, the issued
    code and its expiry, and the redirects sent back to the client. */
module Authorize {
  import opened Wrappers
  import opened Errors
  import opened Domain
  import opened Validator
  import opened BaseGrant
  import opened Persistence
  import AuthorizationCodeGrant

  /** The default lifetime of an authorization code, in seconds (five minutes). */
  const DefaultAuthorizationCodeLifetime := 300

  /** The options the caller passes; None marks a key the caller did not set. `authenticateHandler`
      records only whether the value given is truthy. */
  datatype AuthorizeConfig = AuthorizeConfig(
    allowEmptyState: Option<bool>,
    authenticateHandler: Option<bool>,
    authorizationCodeLifetime: Option<int>,
    model: Option<Model>)

  /** The options after the defaults are filled in; the backend is the caller's `model`. */
  datatype AuthorizeOptions = AuthorizeOptions(
    allowEmptyState: bool,
    authenticateHandler: bool,
    authorizationCodeLifetime: int)

  /** The defaults merged under the caller's options: a key the caller sets replaces the
      default even when its value is falsy. */
  function MergeDefaults(config: AuthorizeConfig): (o: AuthorizeOptions)
    ensures o.allowEmptyState <==> config.allowEmptyState == Some(true)
    ensures o.authenticateHandler <==> config.authenticateHandler != Some(false)
    ensures config.authorizationCodeLifetime.None? ==> o.authorizationCodeLifetime == DefaultAuthorizationCodeLifetime
    ensures config.authorizationCodeLifetime.Some? ==> o.authorizationCodeLifetime == config.authorizationCodeLifetime.value
  {
    AuthorizeOptions(
      if config.allowEmptyState.Some? then config.allowEmptyState.value else false,
      if config.authenticateHandler.Some? then config.authenticateHandler.value else true,
      if config.authorizationCodeLifetime.Some? then config.authorizationCodeLifetime.value
      else DefaultAuthorizationCodeLifetime)
  }

  /** The handler's option checks, in source order, on the merged options. */
  function CheckOptions(config: AuthorizeConfig): (r: Result<AuthorizeOptions, OAuthError>)
    ensures config.authenticateHandler == Some(false) ==>
      r == Failure(Raise(InvalidArgument, "Invalid argument: options does not implement `authenticateHandler()`"))
    ensures config.authenticateHandler != Some(false) && config.authorizationCodeLifetime == Some(0) ==>
      r == Failure(Raise(InvalidArgument, "Missing parameter: `authorizationCodeLifetime`"))
    ensures config.authenticateHandler != Some(false) && config.authorizationCodeLifetime != Some(0) && config.model.None? ==>
      r == Failure(Raise(InvalidArgument, "Missing parameter: `model`"))
    ensures config.authenticateHandler != Some(false) && config.authorizationCodeLifetime != Some(0) &&
            config.model.Some? && config.model.value.getClient.None? ==>
      r == Failure(Raise(InvalidArgument, "Invalid argument: model does not implement `getClient()`"))
    ensures config.authenticateHandler != Some(false) && config.authorizationCodeLifetime != Some(0) &&
            config.model.Some? && config.model.value.getClient.Some? && !config.model.value.saveAuthorizationCode ==>
      r == Failure(Raise(InvalidArgument, "Invalid argument: model does not implement `saveAuthorizationCode()`"))
    ensures r.Success? <==>
      && config.authenticateHandler != Some(false) && config.authorizationCodeLifetime != Some(0)
      && config.model.Some? && config.model.value.getClient.Some? && config.model.value.saveAuthorizationCode
    ensures r.Success? ==> r.value == MergeDefaults(config)
  {
    var options := MergeDefaults(config);
    if !options.authenticateHandler then
      Failure(Raise(InvalidArgument, "Invalid argument: options does not implement `authenticateHandler()`"))
    else if options.authorizationCodeLifetime == 0 then
      Failure(Raise(InvalidArgument, "Missing parameter: `authorizationCodeLifetime`"))
    else if config.model.None? then Failure(Raise(InvalidArgument, "Missing parameter: `model`"))
    else if config.model.value.getClient.None? then
      Failure(Raise(InvalidArgument, "Invalid argument: model does not implement `getClient()`"))
    else if !config.model.value.saveAuthorizationCode then
      Failure(Raise(InvalidArgument, "Invalid argument: model does not implement `saveAuthorizationCode()`"))
    else
      Success(options)
  }

  /** `getAuthorizationCodeLifetime`: the code expires `lifetime` seconds after `now`. */
  function AuthorizationCodeExpiresAt(now: int, lifetime: int): (at: int)
    ensures SecondsUntil(at, now) == lifetime
    ensures lifetime > 0 ==> at > now
  {
    SecondsRoundTrip(now, lifetime);
    SecondsAfter(now, lifetime)
  }

  /** `generateAuthorizationCode`: the backend's generator when it has one, else the random token. */
  function GenerateAuthorizationCode(model: Model, client: Client, user: User, random: string): (code: string)
    ensures model.generateAuthorizationCode.Some? ==> code == model.generateAuthorizationCode.value(client, user)
    ensures model.generateAuthorizationCode.None? ==> code == random
  {
    match model.generateAuthorizationCode
    case Some(generate) => generate(client, user)
    case None => random
  }

  /** The `redirect_uri` the authorization request carries, from the body first, then the query. */
  function RequestedRedirectUri(request: Request): Option<string>
  {
    Or(Param(request.body, "redirect_uri"), Param(request.query, "redirect_uri"))
  }

  /** The `client_id` the authorization request carries, from the body first, then the query. */
  function RequestedClientId(request: Request): Option<string>
  {
    Or(Param(request.body, "client_id"), Param(request.query, "client_id"))
  }

  /** `getClient`: the client id's presence and syntax and the redirect URI's syntax are checked
      before the backend is asked; then the client must exist, have grants that include
      `authorization_code`, have at least one registered redirect URI, and have registered the
      requested one. */
  function GetClient(request: Request, lookup: (string, Option<string>) -> Option<Client>, isUri: string -> bool)
    : (r: Result<Client, OAuthError>)
    ensures !Truthy(RequestedClientId(request)) ==> r == Failure(Raise(InvalidRequest, "Missing parameter: `client_id`"))
    ensures Truthy(RequestedClientId(request)) && !VsChars(RequestedClientId(request).value) ==>
      r == Failure(Raise(InvalidRequest, "Invalid parameter: `client_id`"))
    ensures Truthy(RequestedClientId(request)) && VsChars(RequestedClientId(request).value) &&
            Truthy(RequestedRedirectUri(request)) && !isUri(RequestedRedirectUri(request).value) ==>
      r == Failure(Raise(InvalidRequest, "Invalid request: `redirect_uri` is not a valid URI"))
    ensures Truthy(RequestedClientId(request)) && VsChars(RequestedClientId(request).value) &&
            (Truthy(RequestedRedirectUri(request)) ==> isUri(RequestedRedirectUri(request).value)) ==>
      var found := lookup(RequestedClientId(request).value, None);
      && (found.None? ==> r == Failure(Raise(InvalidClient, "Invalid client: client credentials are invalid")))
      && (found.Some? && !HasGrants(found.value) ==>
            r == Failure(Raise(InvalidClient, "Invalid client: missing client `grants`")))
      && (found.Some? && HasGrants(found.value) && !Includes(found.value.grants.value, "authorization_code") ==>
            r == Failure(Raise(UnauthorizedClient, "Unauthorized client: `grant_type` is invalid")))
      && (found.Some? && HasGrants(found.value) && Includes(found.value.grants.value, "authorization_code") &&
          (found.value.redirectUris.None? || |found.value.redirectUris.value| == 0) ==>
            r == Failure(Raise(InvalidClient, "Invalid client: missing client `redirectUri`")))
      && (found.Some? && HasGrants(found.value) && Includes(found.value.grants.value, "authorization_code") &&
          found.value.redirectUris.Some? && |found.value.redirectUris.value| > 0 &&
          Truthy(RequestedRedirectUri(request)) &&
          RequestedRedirectUri(request).value !in found.value.redirectUris.value ==>
            r == Failure(Raise(InvalidClient, "Invalid client: `redirect_uri` does not match client value")))
    ensures r.Success? <==>
      var id := RequestedClientId(request);
      var uri := RequestedRedirectUri(request);
      && Truthy(id) && VsChars(id.value) && (Truthy(uri) ==> isUri(uri.value))
      && var found := lookup(id.value, None);
      && found.Some? && HasGrants(found.value) && Includes(found.value.grants.value, "authorization_code")
      && found.value.redirectUris.Some? && |found.value.redirectUris.value| > 0
      && (Truthy(uri) ==> uri.value in found.value.redirectUris.value)
    ensures r.Success? ==> r.value == lookup(RequestedClientId(request).value, None).value
  {
    var clientId := RequestedClientId(request);
    var redirectUri := RequestedRedirectUri(request);
    if !Truthy(clientId) then Failure(Raise(InvalidRequest, "Missing parameter: `client_id`"))
    else if !VsChars(clientId.value) then Failure(Raise(InvalidRequest, "Invalid parameter: `client_id`"))
    else if Truthy(redirectUri) && !isUri(redirectUri.value) then
      Failure(Raise(InvalidRequest, "Invalid request: `redirect_uri` is not a valid URI"))
    else
      match lookup(clientId.value, None)
      case None => Failure(Raise(InvalidClient, "Invalid client: client credentials are invalid"))
      case Some(client) =>
        if !HasGrants(client) then Failure(Raise(InvalidClient, "Invalid client: missing client `grants`"))
        else if !Includes(client.grants.value, "authorization_code") then
          Failure(Raise(UnauthorizedClient, "Unauthorized client: `grant_type` is invalid"))
        else if client.redirectUris.None? || |client.redirectUris.value| == 0 then
          Failure(Raise(InvalidClient, "Invalid client: missing client `redirectUri`"))
        else if Truthy(redirectUri) && redirectUri.value !in client.redirectUris.value then
          Failure(Raise(InvalidClient, "Invalid client: `redirect_uri` does not match client value"))
        else Success(client)
  }

  /** `getScope`: the scope from the body first, then the query; given but not NQSCHAR is
      invalid_scope. An absent scope passes through as absent. */
  function GetScope(request: Request): (r: Result<Option<string>, OAuthError>)
    ensures var scope := Or(Param(request.body, "scope"), Param(request.query, "scope"));
      && (r.Success? <==> NqsCharParam(scope))
      && (r.Success? ==> r.value == scope)
      && (r.Failure? ==> r.error == Raise(InvalidScope, "Invalid parameter: `scope`"))
  {
    var scope := Or(Param(request.body, "scope"), Param(request.query, "scope"));
    if !NqsCharParam(scope) then Failure(Raise(InvalidScope, "Invalid parameter: `scope`"))
    else Success(scope)
  }

  /** `getState`: the state from the body first, then the query. It is required unless empty
      states are allowed, and when given it must be VSCHAR. */
  function GetState(request: Request, allowEmptyState: bool): (r: Result<Option<string>, OAuthError>)
    ensures var state := Or(Param(request.body, "state"), Param(request.query, "state"));
      && (!allowEmptyState && !Truthy(state) ==> r == Failure(Raise(InvalidRequest, "Missing parameter: `state`")))
      && (r.Success? <==> (allowEmptyState || Truthy(state)) && VsCharParam(state))
      && (r.Success? ==> r.value == state)
      && (r.Failure? ==> r.error.kind == InvalidRequest)
  {
    var state := Or(Param(request.body, "state"), Param(request.query, "state"));
    if !allowEmptyState && !Truthy(state) then Failure(Raise(InvalidRequest, "Missing parameter: `state`"))
    else if !VsCharParam(state) then Failure(Raise(InvalidRequest, "Invalid parameter: `state`"))
    else Success(state)
  }

  /** `getRedirectUri`: the requested redirect URI when one is given, otherwise the client's
      first registered one. */
  function GetRedirectUri(request: Request, client: Client): (r: string)
    requires client.redirectUris.Some? && |client.redirectUris.value| > 0
    ensures Truthy(RequestedRedirectUri(request)) ==> r == RequestedRedirectUri(request).value
    ensures !Truthy(RequestedRedirectUri(request)) ==> r == client.redirectUris.value[0]
  {
    var requested := RequestedRedirectUri(request);
    if Truthy(requested) then requested.value else client.redirectUris.value[0]
  }

  /** The redirect URI an authorization code is bound to is always one the client registered:
      `getClient` refuses a requested URI that is not registered, and the fallback is the
      client's first registered URI. */
  lemma {:induction false} RedirectIsRegistered(request: Request, lookup: (string, Option<string>) -> Option<Client>,
                                                isUri: string -> bool)
    requires GetClient(request, lookup, isUri).Success?
    ensures var client := GetClient(request, lookup, isUri).value;
      client.redirectUris.Some? && |client.redirectUris.value| > 0 &&
      GetRedirectUri(request, client) in client.redirectUris.value
  {
    var client := GetClient(request, lookup, isUri).value;
    assert client.redirectUris.value[0] in client.redirectUris.value;
  }

  /** The code record `saveAuthorizationCode` hands to the backend, once the backend has attached
      the client and the user. */
  function StoredCode(authorizationCode: string, expiresAt: int, scope: Option<string>, client: Client,
                      redirectUri: string, user: User): AuthorizationCode
  {
    AuthorizationCode(authorizationCode, Some(expiresAt), Some(redirectUri), scope, Some(client), Some(user))
  }

  /** `saveAuthorizationCode`: files the code, its expiry, redirect URI and scope for the client
      and user; nothing else in the store changes. */
  method SaveAuthorizationCode(store: Store, authorizationCode: string, expiresAt: int, scope: Option<string>,
                               client: Client, redirectUri: string, user: User) returns (saved: AuthorizationCode)
    requires store.Valid()
    modifies store
    ensures store.Valid()
    ensures saved == StoredCode(authorizationCode, expiresAt, scope, client, redirectUri, user)
    ensures store.codes == old(store.codes)[authorizationCode := saved]
    ensures store.tokens == old(store.tokens)
  {
    var code := AuthorizationCode(authorizationCode, Some(expiresAt), Some(redirectUri), scope, None, None);
    saved := store.SaveAuthorizationCode(code, client, user);
  }

  /** A code the authorization endpoint stored can be exchanged at the token endpoint with the
      same redirect URI exactly by a client with the same id, and only until it expires. */
  lemma {:induction false} IssuedCodeRedeemable(codes: map<string, AuthorizationCode>, authorizationCode: string,
                                                expiresAt: int, scope: Option<string>, client: Client,
                                                redirectUri: string, user: User, request: Request,
                                                exchanging: Client, isUri: string -> bool, later: int)
    requires VsChars(authorizationCode)
    requires Param(request.body, "code") == Some(authorizationCode)
    requires isUri(redirectUri)
    requires AuthorizationCodeGrant.RequestRedirectUri(request) == Some(redirectUri)
    ensures var stored := codes[authorizationCode := StoredCode(authorizationCode, expiresAt, scope, client, redirectUri, user)];
      var redeemed := AuthorizationCodeGrant.Redeem(stored, Some(request), Some(exchanging), isUri, later);
      && (redeemed.Success? <==> exchanging.id == client.id && later <= expiresAt)
      && (redeemed.Success? ==> redeemed.value.user == Some(user))
  {
    var code := StoredCode(authorizationCode, expiresAt, scope, client, redirectUri, user);
    var stored := codes[authorizationCode := code];
    var fetched := AuthorizationCodeGrant.GetAuthorizationCode(request, exchanging, stored, isUri, later);
    assert fetched.Success? <==> exchanging.id == client.id && later <= expiresAt;
    if fetched.Success? {
      assert fetched.value == code;
      assert AuthorizationCodeGrant.ValidateRedirectUri(request, code, isUri).Pass?;
    }
  }

  /** `createErrorRedirectUri`: the redirect's query is replaced by the error's name, plus its
      description when the error has a message. */
  function CreateErrorRedirectUri(redirectUri: Uri, error: OAuthError): (r: Uri)
    ensures r.location == redirectUri.location && r.search == redirectUri.search
    ensures r.query.Keys == {"error"} + (if error.message != "" then {"error_description"} else {})
    ensures "error" in r.query && r.query["error"] == KindName(error.kind)
    ensures error.message != "" ==> r.query["error_description"] == error.message
  {
    var query := map["error" := error.Name()];
    redirectUri.(query := if error.message != "" then query["error_description" := error.message] else query)
  }

  /** The redirect response: status 301 and the location to send the user agent to. */
  datatype Response = Response(statusCode: int, location: Uri)

  /** `createAuthorizationCodeResponse`: a permanent redirect to the URI, with `state` added to
      its query when there is one and every other query parameter kept. */
  function CreateAuthorizationCodeResponse(redirectUri: Uri, state: Option<string>): (r: Response)
    ensures r.statusCode == 301
    ensures r.location.location == redirectUri.location && r.location.search == redirectUri.search
    ensures r.location.query.Keys == redirectUri.query.Keys + (if Truthy(state) then {"state"} else {})
    ensures Truthy(state) ==> r.location.query["state"] == state.value
    ensures forall key | key in redirectUri.query && (key != "state" || !Truthy(state)) ::
      r.location.query[key] == redirectUri.query[key]
  {
    Response(301, if Truthy(state) then redirectUri.(query := redirectUri.query["state" := state.value]) else redirectUri)
  }
}
