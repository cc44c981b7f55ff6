/** The entities the request pipelines pass around: the normalised request, clients,
    users, authorization codes, tokens, parsed URIs, and the backend ("the model") seen as
    a set of optional capabilities. */
module Domain {
  import opened Wrappers

  /** The normalised request `{headers, method, query, body}`; every field value is a string. */
  datatype Request = Request(
    httpMethod: string,
    headers: map<string, string>,
    query: map<string, string>,
    body: map<string, string>)

  /** Reading `obj[key]`: absent keys read as None (undefined). */
  function Param(m: map<string, string>, key: string): Option<string>
  {
    if key in m then Some(m[key]) else None
  }

  /** Opaque identity: the core only tests whether a user is present. */
  datatype User = User(id: string)

  /** A client's `grants`: normally an array of grant names, possibly a bare string. */
  datatype Grants = GrantArray(names: seq<string>) | GrantText(text: string)

  /** A client as the backend returns it. A lifetime of 0 stands for an absent (falsy) value:
      the core only reads these through `||`. */
  datatype Client = Client(
    id: string,
    grants: Option<Grants>,
    redirectUris: Option<seq<string>>,
    accessTokenLifetime: int,
    refreshTokenLifetime: int)

  /** `client.grants` is truthy (an array, even empty, is truthy; an empty string is not). */
  predicate HasGrants(c: Client)
  {
    c.grants.Some? && (c.grants.value.GrantArray? || c.grants.value.text != "")
  }

  /** lodash `includes(grants, name)`: membership in an array, substring search in a string. */
  predicate Includes(g: Grants, name: string)
  {
    match g
    case GrantArray(names) => name in names
    case GrantText(text) => exists i | 0 <= i <= |text| - |name| :: OccursAt(text, name, i)
  }

  /** `name` occurs in `text` starting at index `i`. */
  predicate OccursAt(text: string, name: string, i: int)
  {
    0 <= i <= |text| - |name| && text[i..i + |name|] == name
  }

  /** A stored authorization code. `expiresAt` is None when the stored value is not a Date;
      `client` and `user` are attached by the backend when the code is saved. */
  datatype AuthorizationCode = AuthorizationCode(
    authorizationCode: string,
    expiresAt: Option<int>,
    redirectUri: Option<string>,
    scope: Option<string>,
    client: Option<Client>,
    user: Option<User>)

  /** The token record a grant hands to the backend's `saveToken`. Times are milliseconds. */
  datatype Token = Token(
    accessToken: string,
    accessTokenExpiresAt: int,
    refreshToken: Option<string>,
    refreshTokenExpiresAt: Option<int>,
    scope: Option<string>,
    authorizationCode: Option<string>)

  /** An access-token record returned by the backend's `getAccessToken`; `accessTokenExpiresAt`
      is None when the stored value is not a Date. */
  datatype AccessToken = AccessToken(
    accessToken: string,
    accessTokenExpiresAt: Option<int>,
    user: Option<User>,
    scope: Option<string>)

  /** A parsed URI: everything but the query (`location`), the query as a map, and the raw
      `search` string that the formatter prefers when it is set. */
  datatype Uri = Uri(location: string, query: map<string, string>, search: Option<string>)

  type Generator = (Client, User, Option<string>) -> string

  /** The backend. Read-side capabilities are optional functions; the capabilities that
      change stored state are flags, and the Store class performs them. */
  datatype Model = Model(
    getClient: Option<(string, Option<string>) -> Option<Client>>,
    getUser: Option<(string, string) -> Option<User>>,
    getUserFromClient: Option<Client -> Option<User>>,
    getAccessToken: Option<string -> Option<AccessToken>>,
    generateAccessToken: Option<Generator>,
    generateRefreshToken: Option<Generator>,
    generateAuthorizationCode: Option<(Client, User) -> string>,
    validateScope: Option<(User, Client, Option<string>) -> Option<string>>,
    getAuthorizationCode: bool,
    revokeAuthorizationCode: bool,
    saveAuthorizationCode: bool,
    saveToken: bool)
}
