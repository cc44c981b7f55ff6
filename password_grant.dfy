/** The resource-owner password grant (src/grant-types/password-grant-type.js, section 4.3
    of RFC 6749): check the scope syntax, resolve the user from username and password, then save
    an access and a refresh token. */
module PasswordGrant {
  import opened Wrappers
  import opened Errors
  import opened Domain
  import opened Validator
  import opened BaseGrant
  import opened Persistence

  /** The grant: the shared helpers and the backend's `getUser`. */
  datatype Grant = Grant(helpers: Helpers, getUser: (string, string) -> Option<User>)

  /** Builds the grant: the shared helpers' checks, then `getUser`, then `saveToken`. */
  function Create(options: GrantOptions): (r: Result<Grant, OAuthError>)
    ensures CreateBaseGrantTypeHelpers(options).Failure? ==>
      r == Failure(CreateBaseGrantTypeHelpers(options).error)
    ensures r.Success? <==>
      && options.accessTokenLifetime != 0 && options.model.Some?
      && options.model.value.getUser.Some? && options.model.value.saveToken
    ensures CreateBaseGrantTypeHelpers(options).Success? && options.model.value.getUser.None? ==>
      r == Failure(Raise(InvalidArgument, "Invalid argument: model does not implement `getUser()`"))
    ensures CreateBaseGrantTypeHelpers(options).Success? && options.model.value.getUser.Some? &&
            !options.model.value.saveToken ==>
      r == Failure(Raise(InvalidArgument, "Invalid argument: model does not implement `saveToken()`"))
    ensures r.Success? ==>
      r.value.helpers == CreateBaseGrantTypeHelpers(options).value && r.value.getUser == options.model.value.getUser.value
  {
    var h :- CreateBaseGrantTypeHelpers(options);
    if h.model.getUser.None? then
      Failure(Raise(InvalidArgument, "Invalid argument: model does not implement `getUser()`"))
    else if !h.model.saveToken then
      Failure(Raise(InvalidArgument, "Invalid argument: model does not implement `saveToken()`"))
    else
      Success(Grant(h, h.model.getUser.value))
  }

  /** `getUser`: `username` is required before `password`; the backend's answer decides the
      rest, and no user is invalid_grant. */
  function GetUser(g: Grant, request: Request): (r: Result<User, OAuthError>)
    ensures !Truthy(Param(request.body, "username")) ==>
      r == Failure(Raise(InvalidRequest, "Missing parameter: `username`"))
    ensures Truthy(Param(request.body, "username")) && !Truthy(Param(request.body, "password")) ==>
      r == Failure(Raise(InvalidRequest, "Missing parameter: `password`"))
    ensures Truthy(Param(request.body, "username")) && Truthy(Param(request.body, "password")) ==>
      var found := g.getUser(request.body["username"], request.body["password"]);
      && (found.Some? ==> r == Success(found.value))
      && (found.None? ==> r == Failure(Raise(InvalidGrant, "Invalid grant: user credentials are invalid")))
  {
    var username := Param(request.body, "username");
    var password := Param(request.body, "password");
    if !Truthy(username) then Failure(Raise(InvalidRequest, "Missing parameter: `username`"))
    else if !Truthy(password) then Failure(Raise(InvalidRequest, "Missing parameter: `password`"))
    else
      match g.getUser(username.value, password.value)
      case None => Failure(Raise(InvalidGrant, "Invalid grant: user credentials are invalid"))
      case Some(user) => Success(user)
  }

  /** The checks `handle` makes before it saves: request and client present, scope syntax,
      then the user. A bad scope is refused whatever `getUser` would answer. */
  function Prepare(g: Grant, request: Option<Request>, client: Option<Client>): (r: Result<User, OAuthError>)
    ensures request.None? ==> r == Failure(Raise(InvalidArgument, "Missing parameter: `eventRequest`"))
    ensures request.Some? && client.None? ==> r == Failure(Raise(InvalidArgument, "Missing parameter: `client`"))
    ensures request.Some? && client.Some? && GetScope(request.value).Failure? ==>
      r == Failure(Raise(InvalidArgument, "Invalid parameter: `scope`"))
    ensures r.Success? <==>
      request.Some? && client.Some? && GetScope(request.value).Success? && GetUser(g, request.value).Success?
    ensures r.Success? ==> r == GetUser(g, request.value)
  {
    if request.None? then Failure(Raise(InvalidArgument, "Missing parameter: `eventRequest`"))
    else if client.None? then Failure(Raise(InvalidArgument, "Missing parameter: `client`"))
    else
      var _ :- GetScope(request.value);
      GetUser(g, request.value)
  }

  /** The token `saveToken` builds: access and refresh tokens with their expiries and a null
      scope, whatever scope was requested. */
  function IssuedToken(g: Grant, client: Client, user: User, now: int, randomAccess: string, randomRefresh: string): Token
  {
    Token(
      GenerateAccessToken(g.helpers, client, user, None, randomAccess),
      AccessTokenExpiresAt(g.helpers, now),
      Some(GenerateRefreshToken(g.helpers, client, user, None, randomRefresh)),
      Some(RefreshTokenExpiresAt(g.helpers, now)),
      None,
      None)
  }

  /** `saveToken(user, client, scope)`: the requested scope is not carried into the token. */
  method SaveToken(g: Grant, store: Store, user: User, client: Client, scope: Option<string>, now: int,
                   randomAccess: string, randomRefresh: string) returns (saved: SavedToken)
    modifies store
    ensures saved.client == client && saved.user == user
    ensures saved.token.accessToken == GenerateAccessToken(g.helpers, client, user, None, randomAccess)
    ensures saved.token.refreshToken == Some(GenerateRefreshToken(g.helpers, client, user, None, randomRefresh))
    ensures saved.token.accessTokenExpiresAt == SecondsAfter(now, g.helpers.accessTokenLifetime)
    ensures saved.token.refreshTokenExpiresAt == Some(SecondsAfter(now, g.helpers.refreshTokenLifetime))
    ensures saved.token.scope == None && saved.token.authorizationCode == None
    ensures store.tokens == old(store.tokens) + [saved]
    ensures store.codes == old(store.codes)
  {
    saved := store.SaveToken(IssuedToken(g, client, user, now, randomAccess, randomRefresh), client, user);
  }

  /** `handle`: a failed check saves nothing; otherwise one token is saved for the client and
      the resolved user. */
  method Handle(g: Grant, store: Store, request: Option<Request>, client: Option<Client>, now: int,
                randomAccess: string, randomRefresh: string) returns (r: Result<SavedToken, OAuthError>)
    modifies store
    ensures store.codes == old(store.codes)
    ensures var prepared := Prepare(g, request, client);
      prepared.Failure? ==> r == Failure(prepared.error) && store.tokens == old(store.tokens)
    ensures var prepared := Prepare(g, request, client);
      prepared.Success? ==>
        && r == Success(SavedToken(IssuedToken(g, client.value, prepared.value, now, randomAccess, randomRefresh),
                                   client.value, prepared.value))
        && store.tokens == old(store.tokens) + [r.value]
  {
    var prepared := Prepare(g, request, client);
    if prepared.Failure? {
      return Failure(prepared.error);
    }
    var scope := GetScope(request.value);
    var saved := SaveToken(g, store, prepared.value, client.value, scope.value, now, randomAccess, randomRefresh);
    r := Success(saved);
  }
}
