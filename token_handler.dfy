/** The token endpoint's own rules (src/handlers/token.js, section 3.2 of RFC 6749): option
    defaults and checks, client credentials from the form body, the client's `grants`, the
    effective token lifetimes and the dispatch to the registered grant type. */
module TokenHandler {
  import opened Wrappers
  import opened Errors
  import opened Domain
  import opened Validator
  import opened BaseGrant
  import opened Persistence
  import ClientCredentials

  /** Default access-token lifetime: one hour, in seconds. */
  const DefaultAccessTokenLifetime := 60 * 60
  /** Default refresh-token lifetime: two weeks, in seconds. */
  const DefaultRefreshTokenLifetime := 60 * 60 * 24 * 14

  /** The options the caller passes; None marks a key the caller did not set. The backend is
      always present: the handler factory refuses to build the endpoints without one. */
  datatype TokenConfig = TokenConfig(
    accessTokenLifetime: Option<int>,
    refreshTokenLifetime: Option<int>,
    allowExtendedTokenAttributes: Option<bool>,
    requireClientAuthentication: Option<map<string, bool>>,
    model: Model)

  /** The options after the defaults are filled in. */
  datatype TokenOptions = TokenOptions(
    accessTokenLifetime: int,
    refreshTokenLifetime: int,
    allowExtendedTokenAttributes: bool,
    requireClientAuthentication: map<string, bool>)

  /** `Object.assign({defaults}, ...options)`: every key the caller sets wins, falsy or not. */
  function MergeDefaults(config: TokenConfig): (o: TokenOptions)
    ensures o.accessTokenLifetime ==
      if config.accessTokenLifetime.Some? then config.accessTokenLifetime.value else 3600
    ensures o.refreshTokenLifetime ==
      if config.refreshTokenLifetime.Some? then config.refreshTokenLifetime.value else 1209600
    ensures o.allowExtendedTokenAttributes <==> config.allowExtendedTokenAttributes == Some(true)
    ensures config.requireClientAuthentication.None? ==> o.requireClientAuthentication == map[]
    ensures config.requireClientAuthentication.Some? ==>
      o.requireClientAuthentication == config.requireClientAuthentication.value
  {
    TokenOptions(
      if config.accessTokenLifetime.Some? then config.accessTokenLifetime.value else DefaultAccessTokenLifetime,
      if config.refreshTokenLifetime.Some? then config.refreshTokenLifetime.value else DefaultRefreshTokenLifetime,
      if config.allowExtendedTokenAttributes.Some? then config.allowExtendedTokenAttributes.value else false,
      if config.requireClientAuthentication.Some? then config.requireClientAuthentication.value else map[])
  }

  /** The option checks: both lifetimes must be truthy and the backend must offer `getClient`. */
  function CheckConfig(config: TokenConfig): (r: Result<TokenOptions, OAuthError>)
    ensures var o := MergeDefaults(config);
      && (o.accessTokenLifetime == 0 ==> r == Failure(Raise(InvalidArgument, "Missing option: `accessTokenLifetime`")))
      && (o.accessTokenLifetime != 0 && o.refreshTokenLifetime == 0 ==>
            r == Failure(Raise(InvalidArgument, "Missing option: `refreshTokenLifetime`")))
      && (o.accessTokenLifetime != 0 && o.refreshTokenLifetime != 0 && config.model.getClient.None? ==>
            r == Failure(Raise(InvalidArgument, "model does not implement `getClient()`")))
      && (r.Success? <==> o.accessTokenLifetime != 0 && o.refreshTokenLifetime != 0 && config.model.getClient.Some?)
      && (r.Success? ==> r.value == o)
  {
    var o := MergeDefaults(config);
    if o.accessTokenLifetime == 0 then Failure(Raise(InvalidArgument, "Missing option: `accessTokenLifetime`"))
    else if o.refreshTokenLifetime == 0 then Failure(Raise(InvalidArgument, "Missing option: `refreshTokenLifetime`"))
    else if config.model.getClient.None? then Failure(Raise(InvalidArgument, "model does not implement `getClient()`"))
    else Success(o)
  }

  /** A caller who sets nothing gets the documented defaults, and they pass the checks when the
      backend offers `getClient`. */
  lemma {:induction false} DefaultsAccepted(model: Model)
    requires model.getClient.Some?
    ensures CheckConfig(TokenConfig(None, None, None, None, model)) ==
      Success(TokenOptions(3600, 1209600, false, map[]))
  {
  }

  /** Client id and secret read from the form body. */
  datatype Credentials = Credentials(clientId: string, clientSecret: string)

  /** `getClientCredentials`: both `client_id` and `client_secret` must be present in the body. */
  function GetClientCredentials(body: map<string, string>): (r: Result<Credentials, OAuthError>)
    ensures r.Success? <==> Truthy(Param(body, "client_id")) && Truthy(Param(body, "client_secret"))
    ensures r.Success? ==> r.value == Credentials(body["client_id"], body["client_secret"])
    ensures r.Failure? ==> r.error == Raise(InvalidClient, "Cannot read client credentials from body")
  {
    var id := Param(body, "client_id");
    var secret := Param(body, "client_secret");
    if Truthy(id) && Truthy(secret) then Success(Credentials(id.value, secret.value))
    else Failure(Raise(InvalidClient, "Cannot read client credentials from body"))
  }

  /** `getClient`: the backend's client for the credentials. A failure to read the credentials is
      swallowed, so the result is simply no client. */
  function GetClient(body: map<string, string>, lookup: (string, Option<string>) -> Option<Client>): (r: Option<Client>)
    ensures GetClientCredentials(body).Failure? ==> r.None?
    ensures GetClientCredentials(body).Success? ==>
      var credentials := GetClientCredentials(body).value;
      r == lookup(credentials.clientId, Some(credentials.clientSecret))
  {
    match GetClientCredentials(body)
    case Failure(_) => None
    case Success(credentials) => lookup(credentials.clientId, Some(credentials.clientSecret))
  }

  /** The handler's checks on the client it got: none is invalid_client; missing `grants`, or
      `grants` that are not an array, are server errors. */
  function CheckClient(client: Option<Client>): (r: Result<Client, OAuthError>)
    ensures client.None? ==> r == Failure(Raise(InvalidClient, "client is invalid"))
    ensures client.Some? && !HasGrants(client.value) ==> r == Failure(Raise(ServerError, "missing client `grants`"))
    ensures client.Some? && HasGrants(client.value) && !client.value.grants.value.GrantArray? ==>
      r == Failure(Raise(ServerError, "`grants` must be an array"))
    ensures r.Success? <==> client.Some? && client.value.grants.Some? && client.value.grants.value.GrantArray?
    ensures r.Success? ==> r.value == client.value
  {
    if client.None? then Failure(Raise(InvalidClient, "client is invalid"))
    else if !HasGrants(client.value) then Failure(Raise(ServerError, "missing client `grants`"))
    else if !client.value.grants.value.GrantArray? then Failure(Raise(ServerError, "`grants` must be an array"))
    else Success(client.value)
  }

  /** `getAccessTokenLifetime`: the client's own lifetime when it has one, else the option. */
  function AccessTokenLifetime(client: Client, options: TokenOptions): (l: int)
    ensures client.accessTokenLifetime != 0 ==> l == client.accessTokenLifetime
    ensures client.accessTokenLifetime == 0 ==> l == options.accessTokenLifetime
  {
    if client.accessTokenLifetime != 0 then client.accessTokenLifetime else options.accessTokenLifetime
  }

  /** `getRefreshTokenLifetime`: the client's own lifetime when it has one, else the option. */
  function RefreshTokenLifetime(client: Client, options: TokenOptions): (l: int)
    ensures client.refreshTokenLifetime != 0 ==> l == client.refreshTokenLifetime
    ensures client.refreshTokenLifetime == 0 ==> l == options.refreshTokenLifetime
  {
    if client.refreshTokenLifetime != 0 then client.refreshTokenLifetime else options.refreshTokenLifetime
  }

  /** After the option checks, the effective lifetimes are never falsy. */
  lemma {:induction false} EffectiveLifetimesSet(config: TokenConfig, client: Client)
    requires CheckConfig(config).Success?
    ensures AccessTokenLifetime(client, CheckConfig(config).value) != 0
    ensures RefreshTokenLifetime(client, CheckConfig(config).value) != 0
  {
  }

  /** Everything the endpoint checks before it dispatches: options, then the client. */
  function Prepare(config: TokenConfig, request: Request): (r: Result<(TokenOptions, Client), OAuthError>)
    ensures CheckConfig(config).Failure? ==> r == Failure(CheckConfig(config).error)
    ensures CheckConfig(config).Success? ==>
      var checked := CheckClient(GetClient(request.body, config.model.getClient.value));
      && (checked.Failure? ==> r == Failure(checked.error))
      && (checked.Success? ==> r == Success((CheckConfig(config).value, checked.value)))
  {
    var options :- CheckConfig(config);
    var client :- CheckClient(GetClient(request.body, config.model.getClient.value));
    Success((options, client))
  }

  /** A request without both credentials in its body ends in invalid_client once the options
      pass, whatever the backend holds. */
  lemma {:induction false} MissingCredentialsInvalidClient(config: TokenConfig, request: Request)
    requires CheckConfig(config).Success?
    requires !Truthy(Param(request.body, "client_id")) || !Truthy(Param(request.body, "client_secret"))
    ensures Prepare(config, request) == Failure(Raise(InvalidClient, "client is invalid"))
  {
  }

  /** The options the registered grant type is built from. */
  function GrantOptionsFor(client: Client, options: TokenOptions, model: Model): GrantOptions
  {
    GrantOptions(AccessTokenLifetime(client, options), RefreshTokenLifetime(client, options), Some(model))
  }

  /** What the registered client-credentials grant returns for this request and client: the
      grant's construction error, its argument, scope or user error, the backend's scope
      verdict, or the access-only token it saves for the client's user. */
  function ClientCredentialsOutcome(request: Request, client: Client, options: TokenOptions, model: Model,
                                    now: int, randomAccess: string): (r: Result<SavedToken, OAuthError>)
    ensures var created := ClientCredentials.Create(GrantOptionsFor(client, options, model));
      && (created.Failure? ==> r == Failure(created.error))
      && (created.Success? ==>
            var prepared := ClientCredentials.Prepare(created.value, Some(request), Some(client));
            && (prepared.Failure? ==> r == Failure(prepared.error))
            && (prepared.Success? ==>
                  var validated := ValidateScope(created.value.helpers, prepared.value.1, client, prepared.value.0);
                  && (validated.Failure? ==> r == Failure(validated.error))
                  && (validated.Success? ==>
                        && r.Success? && r.value.client == client && r.value.user == prepared.value.1
                        && r.value.token.scope == validated.value
                        && r.value.token.accessTokenExpiresAt == SecondsAfter(now, AccessTokenLifetime(client, options))
                        && r.value.token.refreshToken.None?)))
  {
    var g :- ClientCredentials.Create(GrantOptionsFor(client, options, model));
    var (scope, user) :- ClientCredentials.Prepare(g, Some(request), Some(client));
    var validated :- ValidateScope(g.helpers, user, client, scope);
    Success(SavedToken(ClientCredentials.IssuedToken(g, client, user, scope, validated, now, randomAccess), client, user))
  }

  /** `handleGrantType`: `grant_type` is required; `client_credentials` is the only registered
      grant type and any other name is a server error; the grant is built with the effective
      lifetimes and handles the request. The only saved token is the grant's, access-only, with
      the client's effective lifetime. */
  method HandleGrantType(request: Request, client: Client, options: TokenOptions, model: Model, store: Store,
                         now: int, randomAccess: string) returns (r: Result<SavedToken, OAuthError>)
    modifies store
    ensures store.codes == old(store.codes)
    ensures r.Failure? ==> store.tokens == old(store.tokens)
    ensures !Truthy(Param(request.body, "grant_type")) ==>
      r == Failure(Raise(InvalidRequest, "Missing parameter: `grant_type`"))
    ensures Truthy(Param(request.body, "grant_type")) && request.body["grant_type"] != "client_credentials" ==>
      r.Failure? && r.error.kind == ServerError
    ensures Param(request.body, "grant_type") == Some("client_credentials") ==>
      r == ClientCredentialsOutcome(request, client, options, model, now, randomAccess)
    ensures r.Success? ==> store.tokens == old(store.tokens) + [r.value]
  {
    var grantType := Param(request.body, "grant_type");
    if !Truthy(grantType) {
      return Failure(Raise(InvalidRequest, "Missing parameter: `grant_type`"));
    }
    if grantType.value != "client_credentials" {
      return Failure(Raise(ServerError, "Server error: no grant type is registered for `grant_type`"));
    }
    var created := ClientCredentials.Create(GrantOptionsFor(client, options, model));
    if created.Failure? {
      return Failure(created.error);
    }
    r := ClientCredentials.Handle(created.value, store, Some(request), Some(client), now, randomAccess);
  }

  /** The endpoint: options and client first; nothing is saved unless they pass. */
  method HandleToken(config: TokenConfig, request: Request, store: Store, now: int, randomAccess: string)
    returns (r: Result<SavedToken, OAuthError>)
    modifies store
    ensures store.codes == old(store.codes)
    ensures r.Failure? ==> store.tokens == old(store.tokens)
    ensures Prepare(config, request).Failure? ==> r == Failure(Prepare(config, request).error)
    ensures Prepare(config, request).Success? && Param(request.body, "grant_type") == Some("client_credentials") ==>
      var (options, client) := Prepare(config, request).value;
      r == ClientCredentialsOutcome(request, client, options, config.model, now, randomAccess)
    ensures r.Success? ==>
      && Prepare(config, request).Success?
      && Param(request.body, "grant_type") == Some("client_credentials")
      && store.tokens == old(store.tokens) + [r.value]
  {
    var prepared := Prepare(config, request);
    if prepared.Failure? {
      return Failure(prepared.error);
    }
    var (options, client) := prepared.value;
    r := HandleGrantType(request, client, options, config.model, store, now, randomAccess);
  }
}
