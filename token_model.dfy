/** Validation of the raw token record a backend returns (src/token/validate-token-model.js):
    required fields, Date checks, the copy of the seven fixed attributes, the extended
    attributes and the remaining lifetime in seconds. */
module TokenModel {
  import opened Wrappers
  import opened Errors
  import opened BaseGrant

  /** A field value of a raw record. Dates are milliseconds; objects (clients, users) are
      opaque references. */
  datatype Value = Null | Bool(b: bool) | Num(n: int) | Str(s: string) | Date(ms: int) | Obj(ref: string)

  /** JavaScript truthiness of a field value. */
  predicate IsTruthy(v: Value)
  {
    match v
    case Null => false
    case Bool(b) => b
    case Num(n) => n != 0
    case Str(s) => s != ""
    case Date(_) => true
    case Obj(_) => true
  }

  /** A field that is present and truthy. */
  predicate Has(data: map<string, Value>, key: string)
  {
    key in data && IsTruthy(data[key])
  }

  function Field(data: map<string, Value>, key: string): Option<Value>
  {
    if key in data then Some(data[key]) else None
  }

  /** The fixed attributes of a token model. */
  const ModelAttributes: seq<string> :=
    ["accessToken", "accessTokenExpiresAt", "refreshToken", "refreshTokenExpiresAt", "scope", "client", "user"]

  /** The validated token model. Optional fields are None when the record lacks the key. */
  datatype TokenModel = TokenModel(
    accessToken: Value,
    accessTokenExpiresAt: Option<Value>,
    client: Value,
    refreshToken: Option<Value>,
    refreshTokenExpiresAt: Option<Value>,
    scope: Option<Value>,
    user: Value,
    customAttributes: Option<map<string, Value>>,
    accessTokenLifetime: Option<int>)

  /** The extended attributes: every truthy field whose key is not a fixed attribute. */
  function CustomAttributesOf(data: map<string, Value>): map<string, Value>
  {
    map key | key in data && IsTruthy(data[key]) && key !in ModelAttributes :: data[key]
  }

  /** A present, truthy field that is not a Date. */
  predicate NonDate(data: map<string, Value>, key: string)
  {
    Has(data, key) && !data[key].Date?
  }

  /** The record validation, stated as a function of the record, the extended-attributes
      option and the current time. */
  function TokenModelOf(data: map<string, Value>, allowExtendedTokenAttributes: bool, now: int): Result<TokenModel, OAuthError>
  {
    if !Has(data, "accessToken") then Failure(Raise(InvalidArgument, "Missing parameter: `accessToken`"))
    else if !Has(data, "client") then Failure(Raise(InvalidArgument, "Missing parameter: `client`"))
    else if !Has(data, "user") then Failure(Raise(InvalidArgument, "Missing parameter: `user`"))
    else if NonDate(data, "accessTokenExpiresAt") then Failure(Raise(InvalidArgument, "Invalid parameter: `accessTokenExpiresAt`"))
    else if NonDate(data, "refreshTokenExpiresAt") then Failure(Raise(InvalidArgument, "Invalid parameter: `refreshTokenExpiresAt`"))
    else
      var expiresAt := Field(data, "accessTokenExpiresAt");
      Success(TokenModel(
        data["accessToken"], expiresAt, data["client"], Field(data, "refreshToken"),
        Field(data, "refreshTokenExpiresAt"), Field(data, "scope"), data["user"],
        if allowExtendedTokenAttributes then Some(CustomAttributesOf(data)) else None,
        if expiresAt.Some? && IsTruthy(expiresAt.value) then Some(SecondsUntil(expiresAt.value.ms, now)) else None))
  }

  /** The `for...in` loop that fills `customAttributes`, one key at a time. */
  method CollectCustomAttributes(data: map<string, Value>) returns (custom: map<string, Value>)
    ensures custom == CustomAttributesOf(data)
  {
    custom := map[];
    var pending := data.Keys;
    while pending != {}
      invariant pending <= data.Keys
      invariant forall key :: key in custom <==>
        key in data && key !in pending && IsTruthy(data[key]) && key !in ModelAttributes
      invariant forall key | key in custom :: custom[key] == data[key]
      decreases pending
    {
      var key :| key in pending;
      if IsTruthy(data[key]) && key !in ModelAttributes {
        custom := custom[key := data[key]];
      }
      pending := pending - {key};
    }
  }

  /** validate-token-model.js: the guard chain, the attribute copy, the extended attributes
      and the remaining lifetime. */
  method ValidateTokenModel(data: map<string, Value>, allowExtendedTokenAttributes: bool, now: int)
    returns (r: Result<TokenModel, OAuthError>)
    ensures r == TokenModelOf(data, allowExtendedTokenAttributes, now)
  {
    if !Has(data, "accessToken") {
      return Failure(Raise(InvalidArgument, "Missing parameter: `accessToken`"));
    }
    if !Has(data, "client") {
      return Failure(Raise(InvalidArgument, "Missing parameter: `client`"));
    }
    if !Has(data, "user") {
      return Failure(Raise(InvalidArgument, "Missing parameter: `user`"));
    }
    if NonDate(data, "accessTokenExpiresAt") {
      return Failure(Raise(InvalidArgument, "Invalid parameter: `accessTokenExpiresAt`"));
    }
    if NonDate(data, "refreshTokenExpiresAt") {
      return Failure(Raise(InvalidArgument, "Invalid parameter: `refreshTokenExpiresAt`"));
    }
    var model := TokenModel(
      data["accessToken"], Field(data, "accessTokenExpiresAt"), data["client"], Field(data, "refreshToken"),
      Field(data, "refreshTokenExpiresAt"), Field(data, "scope"), data["user"], None, None);
    if allowExtendedTokenAttributes {
      var custom := CollectCustomAttributes(data);
      model := model.(customAttributes := Some(custom));
    }
    if model.accessTokenExpiresAt.Some? && IsTruthy(model.accessTokenExpiresAt.value) {
      model := model.(accessTokenLifetime := Some(SecondsUntil(model.accessTokenExpiresAt.value.ms, now)));
    }
    r := Success(model);
  }

  /** The required fields are checked in the order accessToken, client, user, and each missing
      one is invalid_argument; a present expiry that is not a Date is invalid_argument too. */
  lemma {:induction false} RequiredFieldOrder(data: map<string, Value>, allow: bool, now: int)
    ensures var r := TokenModelOf(data, allow, now);
      && (!Has(data, "accessToken") ==> r == Failure(Raise(InvalidArgument, "Missing parameter: `accessToken`")))
      && (Has(data, "accessToken") && !Has(data, "client") ==>
            r == Failure(Raise(InvalidArgument, "Missing parameter: `client`")))
      && (Has(data, "accessToken") && Has(data, "client") && !Has(data, "user") ==>
            r == Failure(Raise(InvalidArgument, "Missing parameter: `user`")))
      && (r.Success? <==>
            Has(data, "accessToken") && Has(data, "client") && Has(data, "user") &&
            !NonDate(data, "accessTokenExpiresAt") && !NonDate(data, "refreshTokenExpiresAt"))
      && (r.Failure? ==> r.error.kind == InvalidArgument)
  {
  }

  /** A valid record's fixed attributes reach the model unchanged, and the model has
      `customAttributes` exactly when extended attributes are allowed, holding exactly the truthy
      fields outside the fixed list. */
  lemma {:induction false} AttributesCopied(data: map<string, Value>, allow: bool, now: int)
    requires TokenModelOf(data, allow, now).Success?
    ensures var m := TokenModelOf(data, allow, now).value;
      && m.accessToken == data["accessToken"] && m.client == data["client"] && m.user == data["user"]
      && m.accessTokenExpiresAt == Field(data, "accessTokenExpiresAt")
      && m.refreshToken == Field(data, "refreshToken")
      && m.refreshTokenExpiresAt == Field(data, "refreshTokenExpiresAt")
      && m.scope == Field(data, "scope")
      && (m.customAttributes.Some? <==> allow)
      && (allow ==> forall key :: key in m.customAttributes.value <==>
                      key in data && IsTruthy(data[key]) && key !in ModelAttributes)
      && (allow ==> forall key | key in m.customAttributes.value :: m.customAttributes.value[key] == data[key])
  {
  }

  /** For a record whose expiry was computed as `lifetime` seconds after `now`, the model gives
      back exactly `lifetime` as `accessTokenLifetime` at that same `now`. */
  lemma {:induction false} LifetimeRoundTrip(data: map<string, Value>, allow: bool, now: int, lifetime: int)
    requires TokenModelOf(data, allow, now).Success?
    requires Field(data, "accessTokenExpiresAt") == Some(Date(SecondsAfter(now, lifetime)))
    ensures TokenModelOf(data, allow, now).value.accessTokenLifetime == Some(lifetime)
  {
    SecondsRoundTrip(now, lifetime);
  }

  /** A record without a truthy expiry gets no `accessTokenLifetime`. */
  lemma {:induction false} NoExpiryNoLifetime(data: map<string, Value>, allow: bool, now: int)
    requires TokenModelOf(data, allow, now).Success?
    requires !Has(data, "accessTokenExpiresAt")
    ensures TokenModelOf(data, allow, now).value.accessTokenLifetime == None
  {
  }
}
