/** The protected-resource side (src/handlers/authenticate.js): take the bearer token from the
    Authorization header or the form body (sections 2.1 and 2.2 of RFC 6750), look it up in the
    backend and check that it has not expired. */
module Authenticate {
  import opened Wrappers
  import opened Errors
  import opened Domain
  import opened Validator

  /** The characters the regular-expression class `\s` matches. */
  predicate IsWs(c: char)
  {
    c == '\t' || c == '\n' || c == '\U{000B}' || c == '\U{000C}' || c == '\r' || c == ' '
    || c == '\U{00A0}' || c == '\U{1680}' || ('\U{2000}' <= c <= '\U{200A}')
    || c == '\U{2028}' || c == '\U{2029}' || c == '\U{202F}' || c == '\U{205F}'
    || c == '\U{3000}' || c == '\U{FEFF}'
  }

  /** `/Bearer\s(\S+)/` can match starting at index `i`: the word, one whitespace character,
      then at least one non-whitespace character. */
  predicate MatchAt(s: string, i: int)
  {
    0 <= i && i + 8 <= |s| && s[i..i + 6] == "Bearer" && IsWs(s[i + 6]) && !IsWs(s[i + 7])
  }

  /** The leftmost index at or after `i` where the pattern matches, as the regex search finds it. */
  function FirstMatch(s: string, i: nat): (r: Option<nat>)
    requires i <= |s|
    ensures r.Some? ==> i <= r.value && MatchAt(s, r.value)
    ensures forall j | i <= j && (r.None? || j < r.value) :: !MatchAt(s, j)
    decreases |s| - i
  {
    if i + 8 > |s| then None
    else if MatchAt(s, i) then Some(i)
    else FirstMatch(s, i + 1)
  }

  /** The end of the greedy `\S+` run that starts at `j`. */
  function RunEnd(s: string, j: nat): (r: nat)
    requires j <= |s|
    ensures j <= r <= |s|
    ensures forall k | j <= k < r :: !IsWs(s[k])
    ensures r == |s| || IsWs(s[r])
    decreases |s| - j
  {
    if j == |s| || IsWs(s[j]) then j else RunEnd(s, j + 1)
  }

  /** `getBearerToken`: the captured group of the leftmost match, or invalid_request when the
      header does not match at all. */
  function GetBearerToken(header: string): (r: Result<string, OAuthError>)
    ensures r.Failure? <==> forall i | 0 <= i <= |header| :: !MatchAt(header, i)
    ensures r.Failure? ==> r.error == Raise(InvalidRequest, "Invalid request: malformed authorization header")
    ensures r.Success? ==>
      && r.value != []
      && (forall k | 0 <= k < |r.value| :: !IsWs(r.value[k]))
      && exists i | MatchAt(header, i) ::
           && (forall j | 0 <= j < i :: !MatchAt(header, j))
           && i + 7 + |r.value| <= |header|
           && header[i + 7..i + 7 + |r.value|] == r.value
           && (i + 7 + |r.value| == |header| || IsWs(header[i + 7 + |r.value|]))
  {
    match FirstMatch(header, 0)
    case None => Failure(Raise(InvalidRequest, "Invalid request: malformed authorization header"))
    case Some(i) =>
      var e := RunEnd(header, i + 7);
      assert header[i + 7..e][..] == header[i + 7..e];
      Success(header[i + 7..e])
  }

  /** A header written as "Bearer " followed by a token without whitespace gives back that token. */
  lemma {:induction false} BearerRoundTrip(token: string)
    requires token != []
    requires forall k | 0 <= k < |token| :: !IsWs(token[k])
    ensures GetBearerToken("Bearer " + token) == Success(token)
  {
    var header := "Bearer " + token;
    assert header[0..6] == "Bearer";
    assert header[7] == token[0];
    assert MatchAt(header, 0);
    assert FirstMatch(header, 0) == Some(0);
    assert forall k | 7 <= k < |header| :: header[k] == token[k - 7];
    RunEndOfToken(header, 7);
    assert header[7..RunEnd(header, 7)] == token;
  }

  /** From any index inside a whitespace-free tail, the run reaches the end of the string. */
  lemma {:induction false} RunEndOfToken(s: string, j: nat)
    requires j <= |s|
    requires forall k | j <= k < |s| :: !IsWs(s[k])
    ensures RunEnd(s, j) == |s|
    decreases |s| - j
  {
    if j < |s| {
      RunEndOfToken(s, j + 1);
    }
  }

  /** `getTokenFromRequestBody`: never on GET, and only from a form-encoded body. */
  function GetTokenFromRequestBody(request: Request): (r: Result<Option<string>, OAuthError>)
    ensures request.httpMethod == "GET" ==>
      r == Failure(Raise(InvalidRequest, "Invalid request: token may not be passed in the body when using the GET verb"))
    ensures request.httpMethod != "GET" && Param(request.headers, "Content-Type") != Some("application/x-www-form-urlencoded") ==>
      r == Failure(Raise(InvalidRequest, "Invalid request: content must be application/x-www-form-urlencoded"))
    ensures r.Success? <==>
      request.httpMethod != "GET" && Param(request.headers, "Content-Type") == Some("application/x-www-form-urlencoded")
    ensures r.Success? ==> r.value == Param(request.body, "access_token")
  {
    if request.httpMethod == "GET" then
      Failure(Raise(InvalidRequest, "Invalid request: token may not be passed in the body when using the GET verb"))
    else if Param(request.headers, "Content-Type") != Some("application/x-www-form-urlencoded") then
      Failure(Raise(InvalidRequest, "Invalid request: content must be application/x-www-form-urlencoded"))
    else
      Success(Param(request.body, "access_token"))
  }

  /** `getTokenFromRequest`: exactly one of the header and the body may carry the token. */
  function GetTokenFromRequest(request: Request): (r: Result<Option<string>, OAuthError>)
    ensures var header := Param(request.headers, "Authorization");
      var body := Param(request.body, "access_token");
      && (Truthy(header) && Truthy(body) ==>
            r == Failure(Raise(InvalidRequest, "Invalid request: only one authentication method is allowed")))
      && (Truthy(header) && !Truthy(body) ==>
            r == match GetBearerToken(header.value)
                 case Success(t) => Success(Some(t))
                 case Failure(e) => Failure(e))
      && (!Truthy(header) && Truthy(body) ==> r == GetTokenFromRequestBody(request))
      && (!Truthy(header) && !Truthy(body) ==>
            r == Failure(Raise(UnauthorizedRequest, "Unauthorized request: no authentication given")))
  {
    var header := Param(request.headers, "Authorization");
    var body := Param(request.body, "access_token");
    if Truthy(header) && Truthy(body) then
      Failure(Raise(InvalidRequest, "Invalid request: only one authentication method is allowed"))
    else if Truthy(header) then
      var token :- GetBearerToken(header.value);
      Success(Some(token))
    else if Truthy(body) then
      GetTokenFromRequestBody(request)
    else
      Failure(Raise(UnauthorizedRequest, "Unauthorized request: no authentication given"))
  }

  /** `getAccessToken`: an unknown token is invalid_token; a record without a user is a fault of
      the backend, reported as server_error. */
  function GetAccessToken(lookup: string -> Option<AccessToken>, token: Option<string>): (r: Result<AccessToken, OAuthError>)
    ensures token.None? || lookup(token.value).None? ==>
      r == Failure(Raise(InvalidToken, "Invalid token: access token is invalid"))
    ensures token.Some? && lookup(token.value).Some? && lookup(token.value).value.user.None? ==>
      r == Failure(Raise(ServerError, "Lambda error: `getAccessToken()` did not return a `user` object"))
    ensures r.Success? <==> token.Some? && lookup(token.value).Some? && lookup(token.value).value.user.Some?
    ensures r.Success? ==> r.value == lookup(token.value).value
  {
    if token.None? then Failure(Raise(InvalidToken, "Invalid token: access token is invalid"))
    else
      match lookup(token.value)
      case None => Failure(Raise(InvalidToken, "Invalid token: access token is invalid"))
      case Some(accessToken) =>
        if accessToken.user.None? then
          Failure(Raise(ServerError, "Lambda error: `getAccessToken()` did not return a `user` object"))
        else Success(accessToken)
  }

  /** `validateAccessToken`: the expiry must be a date and not before `now`; a token expiring
      exactly now is still accepted, and a valid token is returned unchanged. */
  function ValidateAccessToken(accessToken: AccessToken, now: int): (r: Result<AccessToken, OAuthError>)
    ensures accessToken.accessTokenExpiresAt.None? ==>
      r == Failure(Raise(ServerError, "Lambda error: `accessTokenExpiresAt` must be a Date instance"))
    ensures accessToken.accessTokenExpiresAt.Some? && accessToken.accessTokenExpiresAt.value < now ==>
      r == Failure(Raise(InvalidToken, "Invalid token: access token has expired"))
    ensures r.Success? <==> accessToken.accessTokenExpiresAt.Some? && accessToken.accessTokenExpiresAt.value >= now
    ensures r.Success? ==> r.value == accessToken
  {
    match accessToken.accessTokenExpiresAt
    case None => Failure(Raise(ServerError, "Lambda error: `accessTokenExpiresAt` must be a Date instance"))
    case Some(expiresAt) =>
      if expiresAt < now then Failure(Raise(InvalidToken, "Invalid token: access token has expired"))
      else Success(accessToken)
  }

  /** A token the backend knows, with a user and an expiry at or after `now`. */
  predicate Admissible(lookup: string -> Option<AccessToken>, token: string, now: int)
  {
    && lookup(token).Some? && lookup(token).value.user.Some?
    && lookup(token).value.accessTokenExpiresAt.Some? && lookup(token).value.accessTokenExpiresAt.value >= now
  }

  /** `authenticate`: extract, look up, validate. It succeeds exactly when the request carries a
      token the backend admits, and then returns the backend's record for that token. */
  function Authenticate(request: Request, lookup: string -> Option<AccessToken>, now: int): (r: Result<AccessToken, OAuthError>)
    ensures GetTokenFromRequest(request).Failure? ==> r == Failure(GetTokenFromRequest(request).error)
    ensures r.Success? <==>
      && GetTokenFromRequest(request).Success? && GetTokenFromRequest(request).value.Some?
      && Admissible(lookup, GetTokenFromRequest(request).value.value, now)
    ensures r.Success? ==> r.value == lookup(GetTokenFromRequest(request).value.value).value
  {
    var token :- GetTokenFromRequest(request);
    var accessToken :- GetAccessToken(lookup, token);
    ValidateAccessToken(accessToken, now)
  }

  /** A request carrying a token in both the header and the body is refused with
      invalid_request whatever the backend holds. */
  lemma {:induction false} OneMethodOnly(request: Request, lookup: string -> Option<AccessToken>, now: int)
    requires Truthy(Param(request.headers, "Authorization")) && Truthy(Param(request.body, "access_token"))
    ensures Authenticate(request, lookup, now) ==
      Failure(Raise(InvalidRequest, "Invalid request: only one authentication method is allowed"))
  {
  }

  /** `authenticateByAuthoriser`: the same checks on the authoriser event's token. An absent
      token cannot be matched and is reported as server_error. */
  function AuthenticateByAuthoriser(authorisationToken: Option<string>, lookup: string -> Option<AccessToken>, now: int)
    : (r: Result<AccessToken, OAuthError>)
    ensures authorisationToken.None? ==> r.Failure? && r.error.kind == ServerError
    ensures authorisationToken.Some? && GetBearerToken(authorisationToken.value).Failure? ==>
      r == Failure(GetBearerToken(authorisationToken.value).error)
    ensures r.Success? <==>
      && authorisationToken.Some? && GetBearerToken(authorisationToken.value).Success?
      && Admissible(lookup, GetBearerToken(authorisationToken.value).value, now)
    ensures r.Success? ==> r.value == lookup(GetBearerToken(authorisationToken.value).value).value
  {
    if authorisationToken.None? then
      Failure(Raise(ServerError, "Lambda error: authorisation token is missing"))
    else
      var token :- GetBearerToken(authorisationToken.value);
      var accessToken :- GetAccessToken(lookup, Some(token));
      ValidateAccessToken(accessToken, now)
  }

  /** What the endpoint receives: the normalised request and, for an authoriser invocation, the
      raw authorisation token. */
  datatype Event = Event(request: Request, authorisationToken: Option<string>)

  /** The endpoint's options. */
  datatype Options = Options(model: Option<Model>, isAuthoriser: bool)

  /** The exported handler: the backend and its `getAccessToken` are required before any token
      work; then the authoriser or the request path runs. */
  function Handle(event: Event, options: Options, now: int): (r: Result<AccessToken, OAuthError>)
    ensures options.model.None? ==> r == Failure(Raise(InvalidArgument, "Missing parameter: `model`"))
    ensures options.model.Some? && options.model.value.getAccessToken.None? ==>
      r == Failure(Raise(InvalidArgument, "Invalid argument: model does not implement `getAccessToken()`"))
    ensures options.model.Some? && options.model.value.getAccessToken.Some? ==>
      var lookup := options.model.value.getAccessToken.value;
      r == if options.isAuthoriser then AuthenticateByAuthoriser(event.authorisationToken, lookup, now)
           else Authenticate(event.request, lookup, now)
  {
    if options.model.None? then Failure(Raise(InvalidArgument, "Missing parameter: `model`"))
    else if options.model.value.getAccessToken.None? then
      Failure(Raise(InvalidArgument, "Invalid argument: model does not implement `getAccessToken()`"))
    else if options.isAuthoriser then
      AuthenticateByAuthoriser(event.authorisationToken, options.model.value.getAccessToken.value, now)
    else
      Authenticate(event.request, options.model.value.getAccessToken.value, now)
  }

  /** End to end over the header path: a request whose only credential is the header
      "Bearer <token>" is admitted exactly when the backend admits that token. */
  lemma {:induction false} HeaderTokenAdmitted(request: Request, token: string, lookup: string -> Option<AccessToken>, now: int)
    requires token != [] && forall k | 0 <= k < |token| :: !IsWs(token[k])
    requires Param(request.headers, "Authorization") == Some("Bearer " + token)
    requires !Truthy(Param(request.body, "access_token"))
    ensures Authenticate(request, lookup, now).Success? <==> Admissible(lookup, token, now)
  {
    BearerRoundTrip(token);
  }
}
