/** The slice of the gRPC vocabulary the server core uses: status codes, the
    two kinds of Go `error` a handler can return, and what a unary handler
    hands back. */
module Grpc {
  import opened Options

  /** The status codes the code base produces or passes through. */
  datatype Code = Canceled | Unknown | InvalidArgument | NotFound | PermissionDenied
                | Unauthenticated | Internal | Unavailable

  /** A Go `error`: either a gRPC status (`status.FromError` reports ok) or
      any other error, such as a database or formatting error. */
  datatype Error = Status(code: Code, message: string) | Plain(text: string)

  /** The response value of a call; `Nil` is Go's nil response. */
  datatype Reply = Nil | Reply(body: string)

  /** What running a handler produces: a normal return of `(res, err)`, or a
      panic that unwinds out of it. */
  datatype Outcome = Returned(res: Reply, err: Option<Error>) | Panicked(cause: string)

  /** The request payload of a call; the core never looks inside it. */
  type Request = string
}
