/** The scope-less client-credentials grant (src/grant-types/client-credentials-grant-type.js):
    the same construction checks and user resolution as ClientCredentials, no scope handling,
    and a token with a null scope and no refresh token. */
module ClientCredentialsGrantType {
  import opened Wrappers
  import opened Errors
  import opened Domain
  import opened BaseGrant
  import opened Persistence
  import opened ClientCredentials

  /** The checks `handle` makes before it saves: request and client present, then the user. */
  function PrepareUser(g: Grant, request: Option<Request>, client: Option<Client>): (r: Result<User, OAuthError>)
    ensures request.None? ==> r == Failure(Raise(InvalidArgument, "Missing parameter: `eventRequest`"))
    ensures request.Some? && client.None? ==> r == Failure(Raise(InvalidArgument, "Missing parameter: `client`"))
    ensures request.Some? && client.Some? ==> r == GetUserFromClient(g, client.value)
  {
    if request.None? then Failure(Raise(InvalidArgument, "Missing parameter: `eventRequest`"))
    else if client.None? then Failure(Raise(InvalidArgument, "Missing parameter: `client`"))
    else GetUserFromClient(g, client.value)
  }

  /** The token `saveToken(user, client)` builds: exactly an access token, its expiry and a null scope. */
  function ScopelessToken(g: Grant, client: Client, user: User, now: int, randomAccess: string): Token
  {
    Token(GenerateAccessToken(g.helpers, client, user, None, randomAccess), AccessTokenExpiresAt(g.helpers, now),
          None, None, None, None)
  }

  /** `handle`: a failed check saves nothing; otherwise exactly `{accessToken, accessTokenExpiresAt,
      scope: null}` is saved against the same client and the user resolved for it. */
  method HandleScopeless(g: Grant, store: Store, request: Option<Request>, client: Option<Client>, now: int,
                         randomAccess: string) returns (r: Result<SavedToken, OAuthError>)
    modifies store
    ensures store.codes == old(store.codes)
    ensures var user := PrepareUser(g, request, client);
      user.Failure? ==> r == Failure(user.error) && store.tokens == old(store.tokens)
    ensures var user := PrepareUser(g, request, client);
      user.Success? ==>
        && r.Success? && r.value.client == client.value && r.value.user == user.value
        && r.value.user == g.getUserFromClient(client.value).value
        && r.value.token.accessToken == GenerateAccessToken(g.helpers, client.value, user.value, None, randomAccess)
        && r.value.token.accessTokenExpiresAt == SecondsAfter(now, g.helpers.accessTokenLifetime)
        && r.value.token.scope == None
        && r.value.token.refreshToken == None && r.value.token.refreshTokenExpiresAt == None
        && r.value.token.authorizationCode == None
        && store.tokens == old(store.tokens) + [r.value]
  {
    var user := PrepareUser(g, request, client);
    if user.Failure? {
      return Failure(user.error);
    }
    var saved := store.SaveToken(ScopelessToken(g, client.value, user.value, now, randomAccess), client.value, user.value);
    r := Success(saved);
  }
}
