/**
 * The error values the authentication package returns: a sentinel, a
 * sentinel with a cause attached, or an error produced by a collaborator
 * (the base64 decoder, a user store), carried verbatim as `Foreign`.  The
 * package's own `Error` type and its `WithCause`/`cause` are declared
 * outside the modelled files; attaching a cause is taken to yield a new
 * value of the same kind carrying the cause.
 */
module Errors {

  datatype Kind =
    | NoAuthorizationHeader
    | BadAuthorizationHeader
    | UnsupportedAuthScheme
    | NotAdmin
    | InvalidToken
    | InvalidIssuer
    | InvalidClientIP
    | MissingUserID
    | MissingExp
    | EncodeTokenFailed
    | BadCredentials
    | UnsupportedContentType
    | MalformedContent

  datatype Error =
    | Sentinel(kind: Kind)
    | Caused(kind: Kind, cause: string)
    | Foreign(message: string)

  /** `sentinel.WithCause(err)`: the same kind with the cause attached, distinct from the bare sentinel. */
  function WithCause(k: Kind, cause: string): (e: Error)
    ensures e.Caused? && e.kind == k && e.cause == cause
    ensures e != Sentinel(k)
  {
    Caused(k, cause)
  }

  /**
   * The text of a sentinel.  The package's errors file spells out the
   * first two; for the others, which are declared elsewhere, the Go
   * identifier stands in.
   */
  function KindText(k: Kind): string {
    match k
    case NoAuthorizationHeader => "Authorization header is not set"
    case BadAuthorizationHeader => "Invalid authorization header is not set"
    case InvalidToken => "ErrInvalidToken"
    case UnsupportedAuthScheme => "errUnsupportedAuthScheme"
    case NotAdmin => "errNotAdmin"
    case InvalidIssuer => "ErrInvalidIssuer"
    case InvalidClientIP => "ErrInvalidClientIP"
    case MissingUserID => "ErrMissingUserID"
    case MissingExp => "ErrMissingExp"
    case EncodeTokenFailed => "ErrEncodeTokenFailed"
    case BadCredentials => "errBadCredentials"
    case UnsupportedContentType => "errUnsupportedContentType"
    case MalformedContent => "errMalformedContent"
  }

  /** `err.Error()`. */
  function Message(e: Error): string {
    match e
    case Sentinel(k) => KindText(k)
    case Caused(k, c) => KindText(k) + ": " + c
    case Foreign(m) => m
  }
}
