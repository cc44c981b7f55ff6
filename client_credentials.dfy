/** The client-credentials grant that the token endpoint registers
    (src/grant-types/client-credentials.js, section 4.4 of RFC 6749): check the scope syntax,
    resolve the user the client acts for, let the backend validate the scope, then save an
    access token only. */
module ClientCredentials {
  import opened Wrappers
  import opened Errors
  import opened Domain
  import opened Validator
  import opened BaseGrant
  import opened Persistence

  /** The grant: the shared helpers and the backend's `getUserFromClient`. */
  datatype Grant = Grant(helpers: Helpers, getUserFromClient: Client -> Option<User>)

  /** Builds the grant: the shared helpers' checks, then `getUserFromClient`, then `saveToken`.
      The scope-less variant in ClientCredentialsGrantType is built by the same checks. */
  function Create(options: GrantOptions): (r: Result<Grant, OAuthError>)
    ensures CreateBaseGrantTypeHelpers(options).Failure? ==>
      r == Failure(CreateBaseGrantTypeHelpers(options).error)
    ensures r.Success? <==>
      && options.accessTokenLifetime != 0 && options.model.Some?
      && options.model.value.getUserFromClient.Some? && options.model.value.saveToken
    ensures CreateBaseGrantTypeHelpers(options).Success? && options.model.value.getUserFromClient.None? ==>
      r == Failure(Raise(InvalidArgument, "Invalid argument: model does not implement `getUserFromClient()`"))
    ensures CreateBaseGrantTypeHelpers(options).Success? && options.model.value.getUserFromClient.Some? &&
            !options.model.value.saveToken ==>
      r == Failure(Raise(InvalidArgument, "Invalid argument: model does not implement `saveToken()`"))
    ensures r.Success? ==>
      && r.value.helpers == CreateBaseGrantTypeHelpers(options).value
      && r.value.getUserFromClient == options.model.value.getUserFromClient.value
  {
    var h :- CreateBaseGrantTypeHelpers(options);
    if h.model.getUserFromClient.None? then
      Failure(Raise(InvalidArgument, "Invalid argument: model does not implement `getUserFromClient()`"))
    else if !h.model.saveToken then
      Failure(Raise(InvalidArgument, "Invalid argument: model does not implement `saveToken()`"))
    else
      Success(Grant(h, h.model.getUserFromClient.value))
  }

  /** `getUserFromClient`: the backend's user for the client, or invalid_grant when it has none. */
  function GetUserFromClient(g: Grant, client: Client): (r: Result<User, OAuthError>)
    ensures g.getUserFromClient(client).Some? ==> r == Success(g.getUserFromClient(client).value)
    ensures g.getUserFromClient(client).None? ==>
      r == Failure(Raise(InvalidGrant, "Invalid grant: user credentials are invalid"))
  {
    match g.getUserFromClient(client)
    case None => Failure(Raise(InvalidGrant, "Invalid grant: user credentials are invalid"))
    case Some(user) => Success(user)
  }

  /** The checks `handle` makes before it saves: request and client present, the scope's
      syntax, then the user. A bad scope is refused before the user is looked up. */
  function Prepare(g: Grant, request: Option<Request>, client: Option<Client>): (r: Result<(Option<string>, User), OAuthError>)
    ensures request.None? ==> r == Failure(Raise(InvalidArgument, "Missing parameter: `eventRequest`"))
    ensures request.Some? && client.None? ==> r == Failure(Raise(InvalidArgument, "Missing parameter: `client`"))
    ensures request.Some? && client.Some? && GetScope(request.value).Failure? ==>
      r == Failure(Raise(InvalidArgument, "Invalid parameter: `scope`"))
    ensures r.Success? <==>
      request.Some? && client.Some? && GetScope(request.value).Success? && GetUserFromClient(g, client.value).Success?
    ensures r.Success? ==>
      r.value == (Param(request.value.body, "scope"), GetUserFromClient(g, client.value).value)
  {
    if request.None? then Failure(Raise(InvalidArgument, "Missing parameter: `eventRequest`"))
    else if client.None? then Failure(Raise(InvalidArgument, "Missing parameter: `client`"))
    else
      var scope :- GetScope(request.value);
      var user :- GetUserFromClient(g, client.value);
      Success((scope, user))
  }

  /** The token `saveToken` builds: an access token (generated from the requested scope), its
      expiry and the validated scope; no refresh-token fields. */
  function IssuedToken(g: Grant, client: Client, user: User, scope: Option<string>, validatedScope: Option<string>,
                       now: int, randomAccess: string): Token
  {
    Token(
      GenerateAccessToken(g.helpers, client, user, scope, randomAccess),
      AccessTokenExpiresAt(g.helpers, now),
      None,
      None,
      validatedScope,
      None)
  }

  /** `saveToken(user, client, scope)`: a scope the backend rejects saves nothing; otherwise the
      saved token carries the scope `validateScope` returned. */
  method SaveToken(g: Grant, store: Store, user: User, client: Client, scope: Option<string>, now: int,
                   randomAccess: string) returns (r: Result<SavedToken, OAuthError>)
    modifies store
    ensures store.codes == old(store.codes)
    ensures var validated := ValidateScope(g.helpers, user, client, scope);
      validated.Failure? ==> r == Failure(validated.error) && store.tokens == old(store.tokens)
    ensures var validated := ValidateScope(g.helpers, user, client, scope);
      validated.Success? ==>
        && r.Success? && r.value.client == client && r.value.user == user
        && r.value.token.accessToken == GenerateAccessToken(g.helpers, client, user, scope, randomAccess)
        && r.value.token.accessTokenExpiresAt == SecondsAfter(now, g.helpers.accessTokenLifetime)
        && r.value.token.scope == validated.value
        && r.value.token.refreshToken == None && r.value.token.refreshTokenExpiresAt == None
        && r.value.token.authorizationCode == None
        && store.tokens == old(store.tokens) + [r.value]
  {
    var validated := ValidateScope(g.helpers, user, client, scope);
    if validated.Failure? {
      return Failure(validated.error);
    }
    var saved := store.SaveToken(IssuedToken(g, client, user, scope, validated.value, now, randomAccess), client, user);
    r := Success(saved);
  }

  /** `handle`: nothing is saved unless every check passes; then one access-only token is saved
      for the client and its user. */
  method Handle(g: Grant, store: Store, request: Option<Request>, client: Option<Client>, now: int,
                randomAccess: string) returns (r: Result<SavedToken, OAuthError>)
    modifies store
    ensures store.codes == old(store.codes)
    ensures var prepared := Prepare(g, request, client);
      prepared.Failure? ==> r == Failure(prepared.error) && store.tokens == old(store.tokens)
    ensures var prepared := Prepare(g, request, client);
      prepared.Success? ==>
        var (scope, user) := prepared.value;
        var validated := ValidateScope(g.helpers, user, client.value, scope);
        && (validated.Failure? ==> r == Failure(validated.error) && store.tokens == old(store.tokens))
        && (validated.Success? ==>
              && r == Success(SavedToken(IssuedToken(g, client.value, user, scope, validated.value, now, randomAccess),
                                         client.value, user))
              && store.tokens == old(store.tokens) + [r.value])
  {
    var prepared := Prepare(g, request, client);
    if prepared.Failure? {
      return Failure(prepared.error);
    }
    var (scope, user) := prepared.value;
    r := SaveToken(g, store, user, client.value, scope, now, randomAccess);
  }
}
