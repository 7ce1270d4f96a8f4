/** The stream primitives a handler sees, replaced by explicit values. */
module Rpc {
  datatype Option<T> = None | Some(value: T)

  /** A Go `error` value other than io.EOF; its contents are opaque to the handlers. */
  datatype Error = Error(description: string)

  /** What a unary handler returns: a response with a nil error, or an error. */
  datatype Result<T> = Ok(value: T) | Fail(error: Error)

  /** The outcome of one `Send` or `SendAndClose` on a stream. */
  datatype SendStatus = Delivered | Failed(error: Error)

  /** The outcome of one `Recv` on a client stream: a message, io.EOF
      (the client closed its side), or any other error. */
  datatype RecvResult = Msg(content: string) | EOF | Err(error: Error)

  /** The Go `error` a send outcome stands for: nil when delivered. */
  function ErrorOf(s: SendStatus): (e: Option<Error>)
    ensures e.None? <==> s.Delivered?
    ensures s.Failed? ==> e == Some(s.error)
  {
    match s
    case Delivered => None
    case Failed(err) => Some(err)
  }
}
