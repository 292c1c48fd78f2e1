/** Machine-level types and the error conventions shared by the session layer
    and the network helpers. Go's multiple return `([]byte, error)` is the
    `BytesOrError` record; a nil slice is the empty sequence. */
module Base {

  newtype byte = x: int | 0 <= x < 0x100

  /** Go `uint64` (session ids) and `uint` on a 64-bit target (request ids). */
  newtype uint64 = x: int | 0 <= x < 0x1_0000_0000_0000_0000

  /** Go `int` on a 64-bit target (user ids, Unix timestamps). */
  newtype int64 = x: int | -0x8000_0000_0000_0000 <= x < 0x8000_0000_0000_0000

  type Bytes = seq<byte>

  datatype Option<+T> = None | Some(value: T)

  /** Go errors compare by identity. `RpcLocal` is the package-level sentinel
      `ErrRPCLocal`; every error produced by a collaborator (route decoding,
      JSON encoding, the serializer, the remote dispatcher) is a `Failure`. */
  datatype Error = RpcLocal | Failure(msg: string)

  /** A collaborator call that yields a value or an error. */
  datatype Result<+T> = Ok(value: T) | Err(error: Error)

  /** A Go `([]byte, error)` pair. */
  datatype BytesOrError = BytesOrError(data: Bytes, err: Option<Error>)
}
