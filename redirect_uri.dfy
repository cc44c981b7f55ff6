/** The redirect that carries an issued authorization code back to the client
    (src/token/create-redirect-uri.js, section 4.1.2 of RFC 6749), over an already parsed URI. */
module RedirectUri {
  import opened Wrappers
  import opened Errors
  import opened Domain
  import opened Validator

  /** `createRedirectUri({code, redirectUri})`: the code is required first, then the URI; the
      result is the URI with `code` set in its query and the raw search string dropped. */
  function CreateRedirectUri(code: Option<string>, redirectUri: Option<Uri>): (r: Result<Uri, OAuthError>)
    ensures !Truthy(code) ==> r == Failure(Raise(InvalidArgument, "Missing parameter: `code`"))
    ensures Truthy(code) && redirectUri.None? ==>
      r == Failure(Raise(InvalidArgument, "Missing parameter: `redirectUri`"))
    ensures r.Success? <==> Truthy(code) && redirectUri.Some?
    ensures r.Success? ==>
      && r.value.location == redirectUri.value.location
      && "code" in r.value.query && r.value.query["code"] == code.value
      && r.value.query.Keys == redirectUri.value.query.Keys + {"code"}
      && (forall key | key in redirectUri.value.query && key != "code" ::
            r.value.query[key] == redirectUri.value.query[key])
      && r.value.search.None?
  {
    if !Truthy(code) then Failure(Raise(InvalidArgument, "Missing parameter: `code`"))
    else if redirectUri.None? then Failure(Raise(InvalidArgument, "Missing parameter: `redirectUri`"))
    else
      var uri := redirectUri.value;
      Success(uri.(query := uri.query["code" := code.value], search := None))
  }
}
