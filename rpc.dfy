/** The parts of the `rpc` package that the session layer fills in and hands to
    the transport. */
module Rpc {
  import opened Base

  /** Message kinds used by the session layer. */
  datatype MsgKind = UserRpc | HandlerPush | HandlerResponse

  /** An outbound `rpc.Response`, restricted to the four fields the session
      layer sets. */
  datatype Response = Response(Route: string, Kind: MsgKind, Reply: Bytes, Sid: uint64)
}
