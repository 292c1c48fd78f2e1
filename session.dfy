/** The per-client session of the server framework and its routing decisions:
    where a push or a response goes, whether an RPC may be dispatched, and how
    binding a user id changes the session.

    Collaborators are explicit: the node configuration is a `Config` value, the
    remote-session index is a map, route decoding and argument encoding are
    function parameters, and everything the Go code hands to the transport or
    to the remote dispatcher is appended to the outbox of a `Transport`. */
module Sessions {
  import opened Base
  import Rpc

  /** `SessionStatus` is a byte; its constants are built with `iota` after a
      skipped blank, so they start at 1. */
  newtype SessionStatus = x: int | 0 <= x < 0x100

  const SS_START: SessionStatus := 1
  const SS_HANDSHAKING: SessionStatus := 2
  const SS_WORKING: SessionStatus := 3
  const SS_CLOSED: SessionStatus := 4

  predicate IsNamedStatus(s: SessionStatus) {
    s == SS_START || s == SS_HANDSHAKING || s == SS_WORKING || s == SS_CLOSED
  }

  /** The named statuses are exactly 1..4; the zero value of the type is none
      of them. */
  lemma StatusConstants()
    ensures SS_START == 1 && SS_HANDSHAKING == 2 && SS_WORKING == 3 && SS_CLOSED == 4
    ensures !IsNamedStatus(0)
    ensures forall s: SessionStatus :: IsNamedStatus(s) <==> 1 <= s <= 4
  {
  }

  /** The node-wide settings read by the session (`App.Config`). */
  datatype Config = Config(IsFrontend: bool, Type: string)

  /** A decoded route: the server type it targets and the remaining handler
      path, which the session layer passes on without looking at it. */
  datatype RouteInfo = RouteInfo(serverType: string, handler: string)

  /** A remote-session record, reduced to the map from backend session id to
      frontend sid. */
  datatype RemoteSession = RemoteSession(bsessionIdMap: map<uint64, uint64>)

  /** The remote-session index: raw session id to remote-session record. A
      missing key is the error path of `getRemoteSessionBySid`. */
  type RemoteIndex = map<uint64, RemoteSession>

  /** Everything the session hands to a collaborator that sends. */
  datatype Event =
    | NetPush(session: Session, route: string, data: Bytes)           // netService.Push
    | NetResponse(session: Session, data: Bytes)                      // netService.Response
    | WriteResponse(rs: RemoteSession, resp: Rpc.Response)            // writeResponse
    | RemoteRequest(kind: Rpc.MsgKind, ri: RouteInfo, session: Session, args: Bytes) // remote.request

  /** The outcome of the RPC checks: an error to return, or the request to send. */
  datatype Gate = Reject(err: Error) | Dispatch(ri: RouteInfo, args: Bytes)

  /** The checks `RPC` and `AsyncRPC` make before sending, in the order they
      make them: route decoding, argument encoding, then a same-server-type
      target is refused with `ErrRPCLocal`. */
  function RpcGate<A>(cfg: Config, decodeRouteInfo: string -> Result<RouteInfo>,
                      marshal: seq<A> -> Result<Bytes>, route: string, args: seq<A>): (g: Gate)
    ensures decodeRouteInfo(route).Err? ==> g == Reject(decodeRouteInfo(route).error)
    ensures decodeRouteInfo(route).Ok? && marshal(args).Err? ==> g == Reject(marshal(args).error)
    ensures decodeRouteInfo(route).Ok? && marshal(args).Ok? && cfg.Type == decodeRouteInfo(route).value.serverType
            ==> g == Reject(RpcLocal)
    ensures g.Dispatch? <==>
            decodeRouteInfo(route).Ok? && marshal(args).Ok? && cfg.Type != decodeRouteInfo(route).value.serverType
    ensures g.Dispatch? ==> g.ri == decodeRouteInfo(route).value && g.args == marshal(args).value
  {
    match decodeRouteInfo(route)
    case Err(e) => Reject(e)
    case Ok(ri) =>
      match marshal(args)
      case Err(e) => Reject(e)
      case Ok(encodeArgs) =>
        if cfg.Type == ri.serverType then Reject(RpcLocal) else Dispatch(ri, encodeArgs)
  }

  /** The sending side of the node: an outbox of everything handed over so far. */
  class Transport {
    var sent: seq<Event>

    constructor ()
      ensures sent == []
    {
      sent := [];
    }

    method Deliver(e: Event)
      modifies this
      ensures sent == old(sent) + [e]
    {
      sent := sent + [e];
    }
  }

  /** A user session. No method below except `Bind` may modify it; `Bind` may
      modify only `Uid`. */
  class Session {
    var Id: uint64
    var Uid: int64
    var reqId: uint64
    var status: SessionStatus
    var lastTime: int64
    var rawSessionId: uint64

    /** `newSession`: `id` is what the session-id allocator returned and `now`
        the clock reading in Unix seconds. */
    constructor (id: uint64, now: int64)
      ensures Id == id && status == SS_START && lastTime == now
      ensures Uid == 0 && reqId == 0 && rawSessionId == 0
    {
      Id := id;
      Uid := 0;
      reqId := 0;
      status := SS_START;
      lastTime := now;
      rawSessionId := 0;
    }

    /** A backend proxy session can reach its frontend peer: its raw session is
        in the index and that record maps this session's id. */
    predicate Reachable(index: RemoteIndex)
      reads this
    {
      rawSessionId in index && Id in index[rawSessionId].bsessionIdMap
    }

    /** The backend path shared by `Push` and `Response`: drop on a lookup miss,
        otherwise one response addressed to the mapped frontend sid. */
    function Forwarded(index: RemoteIndex, route: string, kind: Rpc.MsgKind, data: Bytes): Option<Event>
      reads this
    {
      if rawSessionId !in index then None
      else
        var rs := index[rawSessionId];
        if Id !in rs.bsessionIdMap then None
        else Some(WriteResponse(rs, Rpc.Response(route, kind, data, rs.bsessionIdMap[Id])))
    }

    /** What `Push(route, data)` sends. */
    function PushEffect(cfg: Config, index: RemoteIndex, route: string, data: Bytes): (e: Option<Event>)
      reads this
      // a frontend hands the push to its own net service, whatever the index holds
      ensures cfg.IsFrontend ==> e == Some(NetPush(this, route, data))
      // a backend sends something exactly when both lookups succeed ...
      ensures !cfg.IsFrontend ==> (e.Some? <==> Reachable(index))
      // ... and then it is one push addressed to the mapped frontend sid
      ensures !cfg.IsFrontend && e.Some? ==>
              e.value == WriteResponse(index[rawSessionId],
                Rpc.Response(route, Rpc.HandlerPush, data, index[rawSessionId].bsessionIdMap[Id]))
    {
      if cfg.IsFrontend then Some(NetPush(this, route, data))
      else Forwarded(index, route, Rpc.HandlerPush, data)
    }

    /** What `Response(data)` sends. */
    function ResponseEffect(cfg: Config, index: RemoteIndex, data: Bytes): (e: Option<Event>)
      reads this
      ensures cfg.IsFrontend ==> e == Some(NetResponse(this, data))
      ensures !cfg.IsFrontend ==> (e.Some? <==> Reachable(index))
      // the response leaves the route at its empty default
      ensures !cfg.IsFrontend && e.Some? ==>
              e.value == WriteResponse(index[rawSessionId],
                Rpc.Response("", Rpc.HandlerResponse, data, index[rawSessionId].bsessionIdMap[Id]))
    {
      if cfg.IsFrontend then Some(NetResponse(this, data))
      else Forwarded(index, "", Rpc.HandlerResponse, data)
    }

    method Push(cfg: Config, index: RemoteIndex, net: Transport, route: string, data: Bytes)
      modifies net
      ensures PushEffect(cfg, index, route, data).None? ==> net.sent == old(net.sent)
      ensures PushEffect(cfg, index, route, data).Some? ==>
              net.sent == old(net.sent) + [PushEffect(cfg, index, route, data).value]
      ensures unchanged(this)
    {
      if cfg.IsFrontend {
        net.Deliver(NetPush(this, route, data));
      } else {
        if rawSessionId !in index {
          // the lookup error is logged and the push is dropped
          return;
        }
        var rs := index[rawSessionId];
        if Id !in rs.bsessionIdMap {
          // "sid not exists" is logged and the push is dropped
          return;
        }
        var sid := rs.bsessionIdMap[Id];
        var resp := Rpc.Response(route, Rpc.HandlerPush, data, sid);
        net.Deliver(WriteResponse(rs, resp));
      }
    }

    method Response(cfg: Config, index: RemoteIndex, net: Transport, data: Bytes)
      modifies net
      ensures ResponseEffect(cfg, index, data).None? ==> net.sent == old(net.sent)
      ensures ResponseEffect(cfg, index, data).Some? ==>
              net.sent == old(net.sent) + [ResponseEffect(cfg, index, data).value]
      ensures unchanged(this)
    {
      if cfg.IsFrontend {
        net.Deliver(NetResponse(this, data));
      } else {
        if rawSessionId !in index {
          return;
        }
        var rs := index[rawSessionId];
        if Id !in rs.bsessionIdMap {
          return;
        }
        var sid := rs.bsessionIdMap[Id];
        var resp := Rpc.Response("", Rpc.HandlerResponse, data, sid);
        net.Deliver(WriteResponse(rs, resp));
      }
    }

    /** `Bind` as written: the new uid is stored only when one is already set. */
    method Bind(uid: int64)
      modifies this`Uid
      ensures Uid == BindUid(old(Uid), uid)
    {
      if Uid > 0 {
        Uid := uid;
      } else {
        // "uid invalid" is logged
      }
    }

    method AsyncRPC<A>(cfg: Config, decodeRouteInfo: string -> Result<RouteInfo>,
                       marshal: seq<A> -> Result<Bytes>, net: Transport,
                       route: string, args: seq<A>) returns (err: Option<Error>)
      modifies net
      ensures RpcGate(cfg, decodeRouteInfo, marshal, route, args).Reject? ==> net.sent == old(net.sent)
      ensures var g := RpcGate(cfg, decodeRouteInfo, marshal, route, args);
              g.Dispatch? ==> net.sent == old(net.sent) + [RemoteRequest(Rpc.UserRpc, g.ri, this, g.args)]
      ensures err == match RpcGate(cfg, decodeRouteInfo, marshal, route, args)
                     case Reject(e) => Some(e)
                     case Dispatch(_, _) => None
      ensures unchanged(this)
    {
      var ri := decodeRouteInfo(route);
      if ri.Err? {
        return Some(ri.error);
      }
      var encodeArgs := marshal(args);
      if encodeArgs.Err? {
        return Some(encodeArgs.error);
      }
      if cfg.Type == ri.value.serverType {
        return Some(RpcLocal);
      }
      net.Deliver(RemoteRequest(Rpc.UserRpc, ri.value, this, encodeArgs.value));
      return None;
    }

    /** `reply` is what the remote dispatcher answers to the request, if one is sent. */
    method RPC<A>(cfg: Config, decodeRouteInfo: string -> Result<RouteInfo>,
                  marshal: seq<A> -> Result<Bytes>, net: Transport,
                  route: string, args: seq<A>, reply: BytesOrError) returns (r: BytesOrError)
      modifies net
      ensures RpcGate(cfg, decodeRouteInfo, marshal, route, args).Reject? ==> net.sent == old(net.sent)
      ensures var g := RpcGate(cfg, decodeRouteInfo, marshal, route, args);
              g.Dispatch? ==> net.sent == old(net.sent) + [RemoteRequest(Rpc.UserRpc, g.ri, this, g.args)]
      ensures r == match RpcGate(cfg, decodeRouteInfo, marshal, route, args)
                   case Reject(e) => BytesOrError([], Some(e))
                   case Dispatch(_, _) => reply
      ensures unchanged(this)
    {
      var ri := decodeRouteInfo(route);
      if ri.Err? {
        return BytesOrError([], Some(ri.error));
      }
      var encodeArgs := marshal(args);
      if encodeArgs.Err? {
        return BytesOrError([], Some(encodeArgs.error));
      }
      if cfg.Type == ri.value.serverType {
        return BytesOrError([], Some(RpcLocal));
      }
      net.Deliver(RemoteRequest(Rpc.UserRpc, ri.value, this, encodeArgs.value));
      return reply;
    }
  }

  /** The uid `Bind(uid)` leaves behind, as the guard is written. */
  function BindUid(prior: int64, uid: int64): int64 {
    if prior > 0 then uid else prior
  }

  /** The uid after a series of binds, each step given by `bind`. */
  function ApplyBinds(bind: (int64, int64) -> int64, prior: int64, uids: seq<int64>): int64
    decreases uids
  {
    if uids == [] then prior else ApplyBinds(bind, bind(prior, uids[0]), uids[1..])
  }

  /** An unbound session (uid 0, or any non-positive uid) is never bound, however
      many times and with whatever uids `Bind` is called. */
  lemma {:induction false} UnboundSessionNeverBound(prior: int64, uids: seq<int64>)
    requires prior <= 0
    ensures ApplyBinds(BindUid, prior, uids) == prior
  {
    if uids != [] {
      UnboundSessionNeverBound(BindUid(prior, uids[0]), uids[1..]);
    }
  }

  /** A bound session is silently rebound: every positive uid overwrites the
      previous one, so the last one wins. */
  lemma {:induction false} BoundSessionIsOverwritten(prior: int64, uids: seq<int64>)
    requires prior > 0 && uids != []
    requires forall i :: 0 <= i < |uids| ==> uids[i] > 0
    ensures ApplyBinds(BindUid, prior, uids) == uids[|uids| - 1]
    decreases uids
  {
    if |uids| > 1 {
      BoundSessionIsOverwritten(uids[0], uids[1..]);
    }
  }

  /** A bound session also accepts a non-positive uid, and from then on it can
      never be bound again. */
  lemma {:induction false} BoundSessionUnboundForGood(prior: int64, uid: int64, uids: seq<int64>)
    requires prior > 0 && uid <= 0
    ensures BindUid(prior, uid) == uid
    ensures ApplyBinds(BindUid, BindUid(prior, uid), uids) == uid
  {
    UnboundSessionNeverBound(uid, uids);
  }

  /** A freshly created session stays unbound after `Bind`, whatever the uid. */
  method BindOnFreshSession(id: uint64, now: int64, uid: int64) returns (bound: int64)
    ensures bound == 0
  {
    var s := new Session(id, now);
    s.Bind(uid);
    bound := s.Uid;
  }

  /** The corrected binding rule: a positive uid is stored only on a session
      not yet bound to a positive uid, and a bound uid is never overwritten.
      The `else` branch of `Bind` logs "uid invalid", which names the uid as
      the thing being checked; as written the guard tests the session's prior
      uid instead. */
  function IntendedBindUid(prior: int64, uid: int64): int64 {
    if prior <= 0 && uid > 0 then uid else prior
  }

  /** The first positive uid of a series, or 0 when there is none. */
  function FirstPositive(uids: seq<int64>): (r: int64)
    ensures r == 0 <==> forall i :: 0 <= i < |uids| ==> uids[i] <= 0
    ensures r != 0 ==> r > 0 && exists i :: 0 <= i < |uids| && uids[i] == r && forall j :: 0 <= j < i ==> uids[j] <= 0
  {
    if uids == [] then 0
    else if uids[0] > 0 then uids[0]
    else
      var r := FirstPositive(uids[1..]);
      assert forall i :: 1 <= i < |uids| ==> uids[i] == uids[1..][i - 1];
      r
  }

  /** Under the intended rule a bound session keeps its uid. */
  lemma {:induction false} IntendedBindKeepsBoundUid(prior: int64, uids: seq<int64>)
    requires prior > 0
    ensures ApplyBinds(IntendedBindUid, prior, uids) == prior
  {
    if uids != [] {
      IntendedBindKeepsBoundUid(IntendedBindUid(prior, uids[0]), uids[1..]);
    }
  }

  /** Under the intended rule a fresh session is bound exactly once, to the first
      positive uid it is offered, and never overwritten afterwards. */
  lemma {:induction false} IntendedBindBindsOnce(uids: seq<int64>)
    ensures ApplyBinds(IntendedBindUid, 0, uids) == FirstPositive(uids)
  {
    if uids != [] {
      if uids[0] > 0 {
        IntendedBindKeepsBoundUid(uids[0], uids[1..]);
      } else {
        IntendedBindBindsOnce(uids[1..]);
      }
    }
  }
}
