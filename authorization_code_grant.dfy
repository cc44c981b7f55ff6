/** The authorization-code grant (src/grant-types/authorization-code-grant-type.js,
    sections 4.1.2 and 4.1.3 of RFC 6749): fetch the stored code, check ownership, expiry and
    the redirect URI, revoke the code, then save a fresh access and refresh token. */
module AuthorizationCodeGrant {
  import opened Wrappers
  import opened Errors
  import opened Domain
  import opened Validator
  import opened BaseGrant
  import opened Persistence

  datatype Grant = Grant(helpers: Helpers)

  /** Builds the grant: the shared helpers' checks first, then the three backend capabilities
      the grant calls, in source order. */
  function Create(options: GrantOptions): (r: Result<Grant, OAuthError>)
    ensures CreateBaseGrantTypeHelpers(options).Failure? ==>
      r == Failure(CreateBaseGrantTypeHelpers(options).error)
    ensures r.Success? <==>
      && options.accessTokenLifetime != 0 && options.model.Some?
      && options.model.value.getAuthorizationCode
      && options.model.value.revokeAuthorizationCode
      && options.model.value.saveToken
    ensures CreateBaseGrantTypeHelpers(options).Success? && !options.model.value.getAuthorizationCode ==>
      r == Failure(Raise(InvalidArgument, "Invalid argument: model does not implement `getAuthorizationCode()`"))
    ensures CreateBaseGrantTypeHelpers(options).Success? && options.model.value.getAuthorizationCode &&
            !options.model.value.revokeAuthorizationCode ==>
      r == Failure(Raise(InvalidArgument, "Invalid argument: model does not implement `revokeAuthorizationCode()`"))
    ensures CreateBaseGrantTypeHelpers(options).Success? && options.model.value.getAuthorizationCode &&
            options.model.value.revokeAuthorizationCode && !options.model.value.saveToken ==>
      r == Failure(Raise(InvalidArgument, "Invalid argument: model does not implement `saveToken()`"))
    ensures r.Success? ==> r.value.helpers == CreateBaseGrantTypeHelpers(options).value
  {
    var h :- CreateBaseGrantTypeHelpers(options);
    if !h.model.getAuthorizationCode then
      Failure(Raise(InvalidArgument, "Invalid argument: model does not implement `getAuthorizationCode()`"))
    else if !h.model.revokeAuthorizationCode then
      Failure(Raise(InvalidArgument, "Invalid argument: model does not implement `revokeAuthorizationCode()`"))
    else if !h.model.saveToken then
      Failure(Raise(InvalidArgument, "Invalid argument: model does not implement `saveToken()`"))
    else
      Success(Grant(h))
  }

  /** A stored code the given client may exchange at `now`: it names its client and user, the
      client ids agree, its expiry is a Date not before `now`, and a stored redirect URI is a URI. */
  predicate Redeemable(code: AuthorizationCode, client: Client, isUri: string -> bool, now: int)
  {
    && code.client.Some? && code.user.Some?
    && code.client.value.id == client.id
    && code.expiresAt.Some? && now <= code.expiresAt.value
    && (Truthy(code.redirectUri) ==> isUri(code.redirectUri.value))
  }

  /** `getAuthorizationCode`: the `code` parameter's syntax is checked before the backend is
      asked; an unknown code, another client's code or an expired code is invalid_grant; a
      stored code missing its client or user is a server_error. */
  function GetAuthorizationCode(request: Request, client: Client, codes: map<string, AuthorizationCode>,
                                isUri: string -> bool, now: int): (r: Result<AuthorizationCode, OAuthError>)
    ensures var p := Param(request.body, "code");
      r.Success? <==> Truthy(p) && VsChars(p.value) && p.value in codes && Redeemable(codes[p.value], client, isUri, now)
    ensures var p := Param(request.body, "code");
      r.Success? ==> Truthy(p) && p.value in codes && r.value == codes[p.value]
    ensures var p := Param(request.body, "code");
      !Truthy(p) ==> r == Failure(Raise(InvalidRequest, "Missing parameter: `code`"))
    ensures var p := Param(request.body, "code");
      Truthy(p) && !VsChars(p.value) ==> r == Failure(Raise(InvalidRequest, "Invalid parameter: `code`"))
    ensures var p := Param(request.body, "code");
      Truthy(p) && VsChars(p.value) && p.value !in codes ==>
      r == Failure(Raise(InvalidGrant, "Invalid grant: authorization code is invalid"))
    ensures var p := Param(request.body, "code");
      Truthy(p) && VsChars(p.value) && p.value in codes ==>
      var code := codes[p.value];
      && (code.client.None? ==>
            r == Failure(Raise(ServerError, "Server error: `getAuthorizationCode()` did not return a `client` object")))
      && (code.client.Some? && code.user.None? ==>
            r == Failure(Raise(ServerError, "Server error: `getAuthorizationCode()` did not return a `user` object")))
      && (code.client.Some? && code.user.Some? && code.client.value.id != client.id ==>
            r == Failure(Raise(InvalidGrant, "Invalid grant: authorization code is invalid")))
      && (code.client.Some? && code.user.Some? && code.client.value.id == client.id &&
          code.expiresAt.None? ==>
            r == Failure(Raise(ServerError, "Server error: `expiresAt` must be a Date instance")))
      && (code.client.Some? && code.user.Some? && code.client.value.id == client.id &&
          code.expiresAt.Some? && code.expiresAt.value < now ==>
            r == Failure(Raise(InvalidGrant, "Invalid grant: authorization code has expired")))
      && (code.client.Some? && code.user.Some? && code.client.value.id == client.id &&
          code.expiresAt.Some? && now <= code.expiresAt.value &&
          Truthy(code.redirectUri) && !isUri(code.redirectUri.value) ==>
            r == Failure(Raise(InvalidGrant, "Invalid grant: `redirect_uri` is not a valid URI")))
  {
    var p := Param(request.body, "code");
    if !Truthy(p) then Failure(Raise(InvalidRequest, "Missing parameter: `code`"))
    else if !VsChars(p.value) then Failure(Raise(InvalidRequest, "Invalid parameter: `code`"))
    else if p.value !in codes then Failure(Raise(InvalidGrant, "Invalid grant: authorization code is invalid"))
    else
      var code := codes[p.value];
      if code.client.None? then
        Failure(Raise(ServerError, "Server error: `getAuthorizationCode()` did not return a `client` object"))
      else if code.user.None? then
        Failure(Raise(ServerError, "Server error: `getAuthorizationCode()` did not return a `user` object"))
      else if code.client.value.id != client.id then
        Failure(Raise(InvalidGrant, "Invalid grant: authorization code is invalid"))
      else if code.expiresAt.None? then
        Failure(Raise(ServerError, "Server error: `expiresAt` must be a Date instance"))
      else if code.expiresAt.value < now then
        Failure(Raise(InvalidGrant, "Invalid grant: authorization code has expired"))
      else if Truthy(code.redirectUri) && !isUri(code.redirectUri.value) then
        Failure(Raise(InvalidGrant, "Invalid grant: `redirect_uri` is not a valid URI"))
      else
        Success(code)
  }

  /** The `redirect_uri` the exchange request carries, from the body first, then the query. */
  function RequestRedirectUri(request: Request): Option<string>
  {
    Or(Param(request.body, "redirect_uri"), Param(request.query, "redirect_uri"))
  }

  /** `validateRedirectUri`: a code stored without a redirect URI accepts any request; otherwise
      the request's `redirect_uri` must be a URI equal to the stored one. */
  function ValidateRedirectUri(request: Request, code: AuthorizationCode, isUri: string -> bool): (r: Outcome<OAuthError>)
    ensures r.Pass? <==>
      !Truthy(code.redirectUri) ||
      (UriParam(isUri, RequestRedirectUri(request)) && RequestRedirectUri(request).value == code.redirectUri.value)
    ensures r.Fail? ==> r.error.kind == InvalidRequest
  {
    if !Truthy(code.redirectUri) then Pass
    else
      var given := RequestRedirectUri(request);
      if !UriParam(isUri, given) then Fail(Raise(InvalidRequest, "Invalid request: `redirect_uri` is not a valid URI"))
      else if given.value != code.redirectUri.value then Fail(Raise(InvalidRequest, "Invalid request: `redirect_uri` is invalid"))
      else Pass
  }

  /** The checks `handle` makes before it revokes the code: request and client present, the
      code fetched and validated, then the redirect URI. */
  function Redeem(codes: map<string, AuthorizationCode>, request: Option<Request>, client: Option<Client>,
                  isUri: string -> bool, now: int): (r: Result<AuthorizationCode, OAuthError>)
  {
    if request.None? then Failure(Raise(InvalidArgument, "Missing parameter: `eventRequest`"))
    else if client.None? then Failure(Raise(InvalidArgument, "Missing parameter: `client`"))
    else
      var code :- GetAuthorizationCode(request.value, client.value, codes, isUri, now);
      match ValidateRedirectUri(request.value, code, isUri)
      case Fail(e) => Failure(e)
      case Pass => Success(code)
  }

  /** `revokeAuthorizationCode`: a failed revocation is invalid_grant; a successful one returns
      the code unchanged. */
  method RevokeAuthorizationCode(store: Store, code: AuthorizationCode) returns (r: Result<AuthorizationCode, OAuthError>)
    requires store.Valid()
    modifies store
    ensures store.Valid()
    ensures store.codes == old(store.codes) - {code.authorizationCode}
    ensures store.tokens == old(store.tokens)
    ensures code.authorizationCode in old(store.codes) ==> r == Success(code)
    ensures code.authorizationCode !in old(store.codes) ==>
      r == Failure(Raise(InvalidGrant, "Invalid grant: authorization code is invalid"))
  {
    var status := store.RevokeAuthorizationCode(code);
    if !status {
      return Failure(Raise(InvalidGrant, "Invalid grant: authorization code is invalid"));
    }
    return Success(code);
  }

  /** The token `saveToken` builds: a new access token and a new refresh token with their
      expiries, no scope, and the authorization code attached. */
  function IssuedToken(g: Grant, client: Client, user: User, authorizationCode: string, now: int,
                       randomAccess: string, randomRefresh: string): Token
  {
    Token(
      GenerateAccessToken(g.helpers, client, user, None, randomAccess),
      AccessTokenExpiresAt(g.helpers, now),
      Some(GenerateRefreshToken(g.helpers, client, user, None, randomRefresh)),
      Some(RefreshTokenExpiresAt(g.helpers, now)),
      None,
      Some(authorizationCode))
  }

  /** `saveToken`: hands the issued token to the backend, bound to the client and user. */
  method SaveToken(g: Grant, store: Store, user: User, client: Client, authorizationCode: string, now: int,
                   randomAccess: string, randomRefresh: string) returns (saved: SavedToken)
    modifies store
    ensures saved.client == client && saved.user == user
    ensures saved.token.accessToken == GenerateAccessToken(g.helpers, client, user, None, randomAccess)
    ensures saved.token.refreshToken == Some(GenerateRefreshToken(g.helpers, client, user, None, randomRefresh))
    ensures saved.token.accessTokenExpiresAt == SecondsAfter(now, g.helpers.accessTokenLifetime)
    ensures saved.token.refreshTokenExpiresAt == Some(SecondsAfter(now, g.helpers.refreshTokenLifetime))
    ensures saved.token.scope == None && saved.token.authorizationCode == Some(authorizationCode)
    ensures store.tokens == old(store.tokens) + [saved]
    ensures store.codes == old(store.codes)
  {
    saved := store.SaveToken(IssuedToken(g, client, user, authorizationCode, now, randomAccess, randomRefresh), client, user);
  }

  /** `handle`: a request that fails a check changes nothing; one that passes revokes the code
      and saves a token for the exchanging client and the code's user. */
  method Handle(g: Grant, store: Store, request: Option<Request>, client: Option<Client>, isUri: string -> bool,
                now: int, randomAccess: string, randomRefresh: string) returns (r: Result<SavedToken, OAuthError>)
    requires store.Valid()
    modifies store
    ensures store.Valid()
    ensures var redeemed := Redeem(old(store.codes), request, client, isUri, now);
      redeemed.Failure? ==>
        r == Failure(redeemed.error) && store.codes == old(store.codes) && store.tokens == old(store.tokens)
    ensures var redeemed := Redeem(old(store.codes), request, client, isUri, now);
      redeemed.Success? ==>
        var code := redeemed.value;
        && store.codes == old(store.codes) - {code.authorizationCode}
        && r == Success(SavedToken(
                  IssuedToken(g, client.value, code.user.value, code.authorizationCode, now, randomAccess, randomRefresh),
                  client.value, code.user.value))
        && store.tokens == old(store.tokens) + [r.value]
  {
    var redeemed := Redeem(store.codes, request, client, isUri, now);
    if redeemed.Failure? {
      return Failure(redeemed.error);
    }
    var code := redeemed.value;
    assert code.authorizationCode in store.codes;
    var revoked := RevokeAuthorizationCode(store, code);
    match revoked
    case Failure(e) =>
      r := Failure(e);
    case Success(_) =>
      var saved := SaveToken(g, store, code.user.value, client.value, code.authorizationCode, now, randomAccess, randomRefresh);
      r := Success(saved);
  }

  /** Single use: once a code has been redeemed and revoked, presenting the same request again,
      at any time, is invalid_grant. */
  lemma {:induction false} SingleUse(codes: map<string, AuthorizationCode>, request: Option<Request>, client: Option<Client>,
                                     isUri: string -> bool, now: int, later: int)
    requires KeyedByCode(codes)
    requires Redeem(codes, request, client, isUri, now).Success?
    ensures var code := Redeem(codes, request, client, isUri, now).value;
      Redeem(codes - {code.authorizationCode}, request, client, isUri, later) ==
        Failure(Raise(InvalidGrant, "Invalid grant: authorization code is invalid"))
  {
    var code := Redeem(codes, request, client, isUri, now).value;
    var p := Param(request.value.body, "code");
    assert code == codes[p.value];
    assert code.authorizationCode == p.value;
    var rest := codes - {code.authorizationCode};
    assert p.value !in rest;
    assert GetAuthorizationCode(request.value, client.value, rest, isUri, later) ==
      Failure(Raise(InvalidGrant, "Invalid grant: authorization code is invalid"));
  }

  /** Two exchanges of the same request against one store: when the first succeeds, the
      second is refused with invalid_grant and saves nothing. */
  method ExchangeTwice(g: Grant, store: Store, request: Option<Request>, client: Option<Client>, isUri: string -> bool,
                       now: int, later: int, randoms: seq<string>) returns (first: Result<SavedToken, OAuthError>, second: Result<SavedToken, OAuthError>)
    requires store.Valid() && |randoms| == 4
    modifies store
    ensures store.Valid()
    ensures first.Success? ==>
      && second == Failure(Raise(InvalidGrant, "Invalid grant: authorization code is invalid"))
      && store.tokens == old(store.tokens) + [first.value]
  {
    first := Handle(g, store, request, client, isUri, now, randoms[0], randoms[1]);
    if first.Success? {
      SingleUse(old(store.codes), request, client, isUri, now, later);
    }
    second := Handle(g, store, request, client, isUri, later, randoms[2], randoms[3]);
  }
}
