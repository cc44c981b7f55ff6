/** The JSON body of a successful token response (src/token/create-token-response.js,
    section 5.1 of RFC 6749), built from a validated token model. */
module TokenResponse {
  import opened Wrappers
  import opened Errors
  import opened BaseGrant
  import opened TokenModel

  /** The fields the builder sets itself, before the custom attributes are merged in. */
  function BaseResponse(m: TokenModel): map<string, Value>
  {
    var withToken := map["access_token" := m.accessToken, "token_type" := Str("Bearer")];
    var withLifetime :=
      if m.accessTokenLifetime.Some? && m.accessTokenLifetime.value != 0
      then withToken["expires_in" := Num(m.accessTokenLifetime.value)]
      else withToken;
    if m.refreshToken.Some? && IsTruthy(m.refreshToken.value)
    then withLifetime["refresh_token" := m.refreshToken.value]
    else withLifetime
  }

  /** The custom attributes merged into the response; an absent set counts as empty. */
  function CustomOf(m: TokenModel): map<string, Value>
  {
    if m.customAttributes.Some? then m.customAttributes.value else map[]
  }

  /** The response: invalid_argument without a truthy access token; otherwise the fixed fields
      with the custom attributes spread over them, so a custom key wins over a fixed one. */
  function CreateTokenResponse(m: TokenModel): (r: Result<map<string, Value>, OAuthError>)
    ensures !IsTruthy(m.accessToken) <==> r.Failure?
    ensures r.Failure? ==> r.error == Raise(InvalidArgument, "Missing parameter: `accessToken`")
    ensures r.Success? ==>
      var custom := CustomOf(m);
      && (forall key :: key in r.value <==>
            key in custom || key in {"access_token", "token_type"}
            || (key == "expires_in" && m.accessTokenLifetime.Some? && m.accessTokenLifetime.value != 0)
            || (key == "refresh_token" && m.refreshToken.Some? && IsTruthy(m.refreshToken.value)))
      && (forall key | key in custom :: r.value[key] == custom[key])
      && ("access_token" !in custom ==> r.value["access_token"] == m.accessToken)
      && ("token_type" !in custom ==> r.value["token_type"] == Str("Bearer"))
      && ("expires_in" !in custom && m.accessTokenLifetime.Some? && m.accessTokenLifetime.value != 0 ==>
            r.value["expires_in"] == Num(m.accessTokenLifetime.value))
      && ("refresh_token" !in custom && m.refreshToken.Some? && IsTruthy(m.refreshToken.value) ==>
            r.value["refresh_token"] == m.refreshToken.value)
  {
    if !IsTruthy(m.accessToken) then Failure(Raise(InvalidArgument, "Missing parameter: `accessToken`"))
    else Success(BaseResponse(m) + CustomOf(m))
  }

  /** The builder never emits `scope` of its own: it appears only when a custom attribute of that
      name was carried over. */
  lemma {:induction false} ScopeOnlyFromCustom(m: TokenModel)
    requires CreateTokenResponse(m).Success?
    ensures "scope" in CreateTokenResponse(m).value <==> "scope" in CustomOf(m)
  {
    assert "scope" !in BaseResponse(m);
  }

  /** End to end: a record holding an access token, a client, a user and an expiry set
      `lifetime` seconds after `now`, validated without extended attributes and turned into a
      response at that same `now`, yields exactly the access token, the Bearer type and
      `expires_in == lifetime`, plus `refresh_token` when the record holds one. */
  lemma {:induction false} ResponseForIssuedToken(data: map<string, Value>, now: int, lifetime: int)
    requires Has(data, "accessToken") && Has(data, "client") && Has(data, "user")
    requires lifetime != 0
    requires Field(data, "accessTokenExpiresAt") == Some(Date(SecondsAfter(now, lifetime)))
    requires !NonDate(data, "refreshTokenExpiresAt")
    ensures TokenModelOf(data, false, now).Success?
    ensures var response := CreateTokenResponse(TokenModelOf(data, false, now).value);
      && response.Success?
      && response.value.Keys ==
           {"access_token", "token_type", "expires_in"} + (if Has(data, "refreshToken") then {"refresh_token"} else {})
      && response.value["access_token"] == data["accessToken"]
      && response.value["token_type"] == Str("Bearer")
      && response.value["expires_in"] == Num(lifetime)
      && (Has(data, "refreshToken") ==> response.value["refresh_token"] == data["refreshToken"])
  {
    RequiredFieldOrder(data, false, now);
    LifetimeRoundTrip(data, false, now, lifetime);
    var m := TokenModelOf(data, false, now).value;
    assert CustomOf(m) == map[];
    var response := CreateTokenResponse(m);
    assert response.value == BaseResponse(m);
  }
}
