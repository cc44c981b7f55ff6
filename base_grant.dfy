/** The helpers every grant type shares (src/grant-types/base-grant-type.js): token
    generation that defers to the backend's generator, expiry times, and scope checks. */
module BaseGrant {
  import opened Wrappers
  import opened Errors
  import opened Domain
  import opened Validator

  /** The options a grant type is built from; a lifetime of 0 stands for an absent one. */
  datatype GrantOptions = GrantOptions(accessTokenLifetime: int, refreshTokenLifetime: int, model: Option<Model>)

  /** The configuration the helpers close over. */
  datatype Helpers = Helpers(accessTokenLifetime: int, refreshTokenLifetime: int, model: Model)

  /** `createBaseGrantTypeHelpers`: refuses a missing access-token lifetime, then a missing model. */
  function CreateBaseGrantTypeHelpers(options: GrantOptions): (r: Result<Helpers, OAuthError>)
    ensures r.Success? <==> options.accessTokenLifetime != 0 && options.model.Some?
    ensures options.accessTokenLifetime == 0 ==>
      r == Failure(Raise(InvalidArgument, "Missing parameter: `accessTokenLifetime`"))
    ensures options.accessTokenLifetime != 0 && options.model.None? ==>
      r == Failure(Raise(InvalidArgument, "Missing parameter: `model`"))
    ensures r.Success? ==>
      && r.value.accessTokenLifetime == options.accessTokenLifetime
      && r.value.refreshTokenLifetime == options.refreshTokenLifetime
      && r.value.model == options.model.value
  {
    if options.accessTokenLifetime == 0 then
      Failure(Raise(InvalidArgument, "Missing parameter: `accessTokenLifetime`"))
    else if options.model.None? then
      Failure(Raise(InvalidArgument, "Missing parameter: `model`"))
    else
      Success(Helpers(options.accessTokenLifetime, options.refreshTokenLifetime, options.model.value))
  }

  /** `generateAccessToken`: the backend's generator when it has one, else the random token. */
  function GenerateAccessToken(h: Helpers, client: Client, user: User, scope: Option<string>, random: string): (t: string)
    ensures h.model.generateAccessToken.Some? ==> t == h.model.generateAccessToken.value(client, user, scope)
    ensures h.model.generateAccessToken.None? ==> t == random
  {
    match h.model.generateAccessToken
    case Some(generate) => generate(client, user, scope)
    case None => random
  }

  /** `generateRefreshToken`: the backend's refresh generator when it has one, else the random token. */
  function GenerateRefreshToken(h: Helpers, client: Client, user: User, scope: Option<string>, random: string): (t: string)
    ensures h.model.generateRefreshToken.Some? ==> t == h.model.generateRefreshToken.value(client, user, scope)
    ensures h.model.generateRefreshToken.None? ==> t == random
  {
    match h.model.generateRefreshToken
    case Some(generate) => generate(client, user, scope)
    case None => random
  }

  /** A time `seconds` later than `now` (milliseconds), as `setSeconds(getSeconds() + seconds)` gives. */
  function SecondsAfter(now: int, seconds: int): int
  {
    now + 1000 * seconds
  }

  /** `getAccessTokenExpiresAt`: the access token expires its lifetime in seconds after `now`. */
  function AccessTokenExpiresAt(h: Helpers, now: int): (at: int)
    ensures SecondsUntil(at, now) == h.accessTokenLifetime
    ensures h.accessTokenLifetime > 0 ==> at > now
  {
    SecondsRoundTrip(now, h.accessTokenLifetime);
    SecondsAfter(now, h.accessTokenLifetime)
  }

  /** `getRefreshTokenExpiresAt`: the refresh token expires its lifetime in seconds after `now`. */
  function RefreshTokenExpiresAt(h: Helpers, now: int): (at: int)
    ensures SecondsUntil(at, now) == h.refreshTokenLifetime
    ensures h.refreshTokenLifetime > 0 ==> at > now
  {
    SecondsRoundTrip(now, h.refreshTokenLifetime);
    SecondsAfter(now, h.refreshTokenLifetime)
  }

  /** Whole seconds from `now` until `at`, rounded down (`Math.floor((at - now) / 1000)`;
      the divisor is positive, so Dafny's division rounds down as well). */
  function SecondsUntil(at: int, now: int): int
  {
    (at - now) / 1000
  }

  /** Counting the seconds back from an expiry computed for `seconds` gives `seconds` again,
      and the expiry lies in the future exactly when the lifetime is positive. */
  lemma {:induction false} SecondsRoundTrip(now: int, seconds: int)
    ensures SecondsUntil(SecondsAfter(now, seconds), now) == seconds
    ensures SecondsAfter(now, seconds) > now <==> seconds > 0
  {
    assert SecondsAfter(now, seconds) - now == 1000 * seconds;
  }

  /** `getScope`: `body.scope` as given when it passes the NQSCHAR check (an absent scope
      passes); otherwise invalid_argument. */
  function GetScope(request: Request): (r: Result<Option<string>, OAuthError>)
    ensures r.Success? <==> NqsCharParam(Param(request.body, "scope"))
    ensures r.Success? ==> r.value == Param(request.body, "scope")
    ensures r.Failure? ==> r.error == Raise(InvalidArgument, "Invalid parameter: `scope`")
  {
    var scope := Param(request.body, "scope");
    if !NqsCharParam(scope) then Failure(Raise(InvalidArgument, "Invalid parameter: `scope`"))
    else Success(scope)
  }

  /** `validateScope`: without a backend validator the scope passes through; otherwise a falsy
      answer is invalid_scope and a truthy one replaces the scope. */
  function ValidateScope(h: Helpers, user: User, client: Client, scope: Option<string>): (r: Result<Option<string>, OAuthError>)
    ensures h.model.validateScope.None? ==> r == Success(scope)
    ensures h.model.validateScope.Some? ==>
      var answer := h.model.validateScope.value(user, client, scope);
      && (Truthy(answer) ==> r == Success(answer))
      && (!Truthy(answer) ==> r == Failure(Raise(InvalidScope, "Invalid scope: Requested scope is invalid")))
  {
    match h.model.validateScope
    case None => Success(scope)
    case Some(validate) =>
      var answer := validate(user, client, scope);
      if !Truthy(answer) then Failure(Raise(InvalidScope, "Invalid scope: Requested scope is invalid"))
      else Success(answer)
  }
}
