/** The closed error taxonomy of src/errors/index.js: one kind per error class, its
    wire name and its numeric `code`. */
module Errors {
  import opened Wrappers

  datatype ErrorKind =
    | AccessDenied
    | InsufficientScope
    | InvalidArgument
    | InvalidClient
    | InvalidGrant
    | InvalidRequest
    | InvalidScope
    | InvalidToken
    | UnauthorizedClient
    | UnauthorizedRequest
    | UnsupportedGrantType
    | UnsupportedResponseType
    | ServerError

  /** The wire name each error class assigns to `name`. */
  function KindName(k: ErrorKind): string
  {
    match k
    case AccessDenied => "access_denied"
    case InsufficientScope => "insufficient_scope"
    case InvalidArgument => "invalid_argument"
    case InvalidClient => "invalid_client"
    case InvalidGrant => "invalid_grant"
    case InvalidRequest => "invalid_request"
    case InvalidScope => "invalid_scope"
    case InvalidToken => "invalid_token"
    case UnauthorizedClient => "unauthorized_client"
    case UnauthorizedRequest => "unauthorized_request"
    case UnsupportedGrantType => "unsupported_grant_type"
    case UnsupportedResponseType => "unsupported_response_type"
    case ServerError => "server_error"
  }

  /** The inverse of KindName on the thirteen wire names. */
  function KindOfName(name: string): Option<ErrorKind>
  {
    if name == "access_denied" then Some(AccessDenied)
    else if name == "insufficient_scope" then Some(InsufficientScope)
    else if name == "invalid_argument" then Some(InvalidArgument)
    else if name == "invalid_client" then Some(InvalidClient)
    else if name == "invalid_grant" then Some(InvalidGrant)
    else if name == "invalid_request" then Some(InvalidRequest)
    else if name == "invalid_scope" then Some(InvalidScope)
    else if name == "invalid_token" then Some(InvalidToken)
    else if name == "unauthorized_client" then Some(UnauthorizedClient)
    else if name == "unauthorized_request" then Some(UnauthorizedRequest)
    else if name == "unsupported_grant_type" then Some(UnsupportedGrantType)
    else if name == "unsupported_response_type" then Some(UnsupportedResponseType)
    else if name == "server_error" then Some(ServerError)
    else None
  }

  /** The numeric `code` each error class sets. */
  function Code(k: ErrorKind): (c: int)
    ensures c == 403 <==> k == InsufficientScope
    ensures c == 500 <==> k == InvalidArgument
    ensures c == 503 <==> k == ServerError
    ensures c == 401 <==> k == InvalidToken || k == UnauthorizedRequest
    ensures c == 400 <==> k in {AccessDenied, InvalidClient, InvalidGrant, InvalidRequest, InvalidScope,
                                UnauthorizedClient, UnsupportedGrantType, UnsupportedResponseType}
  {
    match k
    case AccessDenied => 400
    case InsufficientScope => 403
    case InvalidArgument => 500
    case InvalidClient => 400
    case InvalidGrant => 400
    case InvalidRequest => 400
    case InvalidScope => 400
    case InvalidToken => 401
    case UnauthorizedClient => 400
    case UnauthorizedRequest => 401
    case UnsupportedGrantType => 400
    case UnsupportedResponseType => 400
    case ServerError => 503
  }

  /** Reading a kind back from its wire name gives the kind. */
  lemma NameRoundTrip(k: ErrorKind)
    ensures KindOfName(KindName(k)) == Some(k)
  {
    match k
    case AccessDenied =>
    case InsufficientScope =>
    case InvalidArgument =>
    case InvalidClient =>
    case InvalidGrant =>
    case InvalidRequest =>
    case InvalidScope =>
    case InvalidToken =>
    case UnauthorizedClient =>
    case UnauthorizedRequest =>
    case UnsupportedGrantType =>
    case UnsupportedResponseType =>
    case ServerError =>
  }

  /** Wire names are pairwise distinct, so the name identifies the kind. */
  lemma NamesDistinct(j: ErrorKind, k: ErrorKind)
    ensures KindName(j) == KindName(k) <==> j == k
  {
    NameRoundTrip(j);
    NameRoundTrip(k);
  }

  /** An error as raised: its kind, the constructor's message, the numeric code, the
      `expose` flag and the diagnostic context. */
  datatype OAuthError = OAuthError(kind: ErrorKind, message: string, code: int, expose: bool, context: Option<string>)
  {
    function Name(): string { KindName(kind) }
  }

  /** Constructs the error class of `kind`. Only ServerError's constructor takes a context;
      every other class drops it. */
  function NewError(kind: ErrorKind, message: string, context: Option<string>): (e: OAuthError)
    ensures e.kind == kind && e.message == message && e.Name() == KindName(kind)
    ensures e.code == Code(kind) && e.expose
    ensures kind == ServerError ==> e.context == context
    ensures kind != ServerError ==> e.context == None
  {
    OAuthError(kind, message, Code(kind), true, if kind == ServerError then context else None)
  }

  /** Shorthand for raising an error without context. */
  function Raise(kind: ErrorKind, message: string): OAuthError
  {
    NewError(kind, message, None)
  }
}
