/** The backend's stored state: the authorization codes it can look up and revoke, and the
    tokens it has saved. The grants and handlers call into it; the core owns no other state. */
module Persistence {
  import opened Wrappers
  import opened Domain

  /** A token as `saveToken(token, client, user)` records and returns it. */
  datatype SavedToken = SavedToken(token: Token, client: Client, user: User)

  /** Every stored code is filed under its own code string. */
  ghost predicate KeyedByCode(codes: map<string, AuthorizationCode>)
  {
    forall k | k in codes :: codes[k].authorizationCode == k
  }

  class Store {
    var codes: map<string, AuthorizationCode>
    var tokens: seq<SavedToken>

    ghost predicate Valid()
      reads this
    {
      KeyedByCode(codes)
    }

    constructor (initial: map<string, AuthorizationCode>)
      requires KeyedByCode(initial)
      ensures Valid() && codes == initial && tokens == []
    {
      codes := initial;
      tokens := [];
    }

    /** `revokeAuthorizationCode(code)`: an atomic compare-and-invalidate. It reports success
        exactly when the code was still stored, and removes it. */
    method RevokeAuthorizationCode(code: AuthorizationCode) returns (status: bool)
      requires Valid()
      modifies this
      ensures Valid()
      ensures status == (code.authorizationCode in old(codes))
      ensures codes == old(codes) - {code.authorizationCode}
      ensures tokens == old(tokens)
    {
      status := code.authorizationCode in codes;
      codes := codes - {code.authorizationCode};
    }

    /** `saveToken(token, client, user)`: appends the token and returns the saved record. */
    method SaveToken(token: Token, client: Client, user: User) returns (saved: SavedToken)
      modifies this
      ensures saved == SavedToken(token, client, user)
      ensures tokens == old(tokens) + [saved]
      ensures codes == old(codes)
    {
      saved := SavedToken(token, client, user);
      tokens := tokens + [saved];
    }

    /** `saveAuthorizationCode(code, client, user)`: files the code under its code string with
        its owning client and user attached. */
    method SaveAuthorizationCode(code: AuthorizationCode, client: Client, user: User) returns (saved: AuthorizationCode)
      requires Valid()
      modifies this
      ensures Valid()
      ensures saved == code.(client := Some(client), user := Some(user))
      ensures codes == old(codes)[code.authorizationCode := saved]
      ensures tokens == old(tokens)
    {
      saved := code.(client := Some(client), user := Some(user));
      codes := codes[code.authorizationCode := saved];
    }
  }
}
