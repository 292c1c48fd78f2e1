# starx sessions: push/response proxying, RPC gating and payload serialization

This project models the per-client `Session` of the starx server framework in Dafny and proves properties about it. A fleet has two node roles. A frontend node holds the client sockets. A backend node runs handlers and reaches a client only through a remote-session record. The model covers:

- how a session is created, and how `Bind` changes its user id;
- where `Push` and `Response` send a message on either role, and when they drop it;
- the checks `RPC` and `AsyncRPC` make before dispatching a `UserRpc` request;
- `serializeOrRaw`, which passes raw bytes through and encodes everything else with the configured serializer.

The modules are:

- `Base` (base.dfy): Go's machine integers as newtypes, `Option`, `Result`, the error type and the `([]byte, error)` pair `BytesOrError`.
- `Rpc` (rpc.dfy): the message kinds and the `rpc.Response` record the session fills in.
- `Network` (network.dfy): `serializeOrRaw`.
- `Sessions` (session.dfy): the status constants, the `Session` class and a `Transport` class. Each routing decision is also written as a function that specifies its method.

Collaborators the source reaches through globals or calls are explicit inputs here:

- the node configuration `App.Config` is a `Config` value;
- the remote-session index behind `getRemoteSessionBySid` is a map;
- `decodeRouteInfo` and `json.Marshal` are function parameters that return a value or an error;
- the serializer is a function parameter;
- the session-id allocator's result and the clock reading are constructor parameters;
- what `remote.request` answers is a parameter of `RPC`.

Everything the session hands to `netService.Push`, `netService.Response`, `writeResponse` or `remote.request` is appended to the `sent` outbox of a `Transport`. So "emits nothing" and "emits exactly one message" become exact statements about that sequence.

None of `Push`, `Response`, `RPC` or `AsyncRPC` has the session in its `modifies` clause, so none of them can change a session field. `Bind` may modify `Uid` only.

Points where the Go code behaves differently from what a reader might expect:

- The RPC checks run in the order of session.go:115-124. The route is decoded, then the arguments are encoded, and only then is a same-server-type target refused with `ErrRPCLocal`. So a decode error or an encode error is returned even for a route that targets the node's own server type.
- `Bind` logs "uid invalid" in its `else` branch (session.go:103-104), so the branch reads as a check on the uid being bound. The guard at session.go:101 tests the session's current `Uid` instead. As a result, a session is only ever rebound, never bound in the first place (see Findings).
- `status` is assigned only in `newSession` (session.go:44), and nothing in session.go reads it. So the model has no status transitions and no closed-session check.

## Model

| member | source | states |
|---|---|---|
| `Sessions.StatusConstants` | session.go:11-19 | `SS_START`..`SS_CLOSED` are 1, 2, 3 and 4. A status is named exactly when it lies in 1..4, so the byte's zero value is not a named status. |
| `Sessions.Session.constructor` | session.go:40-46 | A new session has the allocator's id, status `SS_START`, `Uid` 0, `reqId` 0 and the clock reading as `lastTime`. |
| `Sessions.Session.PushEffect` | session.go:54-75 | On a frontend: one `netService.Push` of this session, route and data, whatever the index holds. On a backend: a message exactly when the raw-session lookup and the sid lookup both succeed. That message is one `writeResponse` to the found record, with `Route=route`, `Kind=HandlerPush`, `Reply=data` and the mapped sid. |
| `Sessions.Session.ResponseEffect` | session.go:78-98 | The same as `PushEffect`, through `netService.Response` on a frontend and with `Kind=HandlerResponse` on a backend. The route is left at the empty default. |
| `Sessions.Session.Push` | session.go:54-75 | When `PushEffect` gives nothing (a lookup miss on a backend), the outbox is unchanged. Otherwise it grows by exactly that one message. The session is unchanged. |
| `Sessions.Session.Response` | session.go:78-98 | When `ResponseEffect` gives nothing, the outbox is unchanged. Otherwise it grows by exactly that one message. The session is unchanged. |
| `Sessions.Session.Bind` | session.go:100-106 | As written: `Uid` becomes `uid` when the prior `Uid > 0`; otherwise it is unchanged. No other field changes. |
| `Sessions.UnboundSessionNeverBound` | session.go:100-106 | Any series of `Bind` calls on a session whose `Uid` is 0 or negative leaves `Uid` unchanged. |
| `Sessions.BoundSessionIsOverwritten` | session.go:100-106 | On a session that is already bound, each positive uid overwrites the previous one, so the last one wins. |
| `Sessions.BoundSessionUnboundForGood` | session.go:100-106 | On a bound session, `Bind` with 0 or a negative uid stores it. After that, no series of binds ever binds the session again. |
| `Sessions.BindOnFreshSession` | session.go:100-106 | Creating a session and calling `Bind` with any uid leaves `Uid` at 0. |
| `Sessions.IntendedBindKeepsBoundUid` | session.go:100-106 | Under the corrected rule, a bound session keeps its uid through any series of binds. |
| `Sessions.IntendedBindBindsOnce` | session.go:100-106 | Under the corrected rule, a fresh session ends up bound to the first positive uid it is offered. If it is offered none, it stays at 0. |
| `Sessions.RpcGate` | session.go:114-145 | Errors are checked in order: a route-decode error first, then an argument-encode error, then `ErrRPCLocal` when the route's server type equals the node's type. A request is dispatched exactly when all three checks pass, and it carries the decoded route and the encoded arguments. |
| `Sessions.Session.AsyncRPC` | session.go:114-129 | When `RpcGate` rejects the call, the outbox is unchanged. Otherwise it grows by exactly one `UserRpc` request for this session, carrying the decoded route and the encoded arguments. The call returns the gate's error, or nil once the request is sent. The session is unchanged. |
| `Sessions.Session.RPC` | session.go:131-145 | The same outbox effect as `AsyncRPC`. On a rejection it returns no data and the gate's error. Otherwise it returns exactly what the dispatcher answered. The session is unchanged. |
| `Network.SerializeOrRaw` | network/utils.go:10-21 | Raw bytes come back unchanged, without error. Other values are serialized: on success the serializer's data comes back without error; on failure, no data and the serializer's own error. The error is non-nil exactly when the value is not raw and the serializer failed. |
| `Network.RawIgnoresSerializer` | network/utils.go:11-13 | For raw bytes the result is the same whichever serializer is configured, so the serializer is never consulted. |

## Findings

| source | as written | input that shows it | evidently intended | confidence | as-written member | corrected member |
|---|---|---|---|---|---|---|
| session.go:100-106 | `Bind` stores the uid only when `session.Uid > 0`, that is, only on a session that is already bound | A fresh session (`Uid` 0) and `Bind(42)`: `Uid` stays 0. A session bound to 42 and `Bind(7)`: `Uid` becomes 7. A session bound to 42 and `Bind(0)`: `Uid` becomes 0, and no later `Bind` changes it. | Store a positive uid only on a session that is not yet bound, and never overwrite a bound uid | not executed; high (the `else` branch logs "uid invalid", a check on the argument) | `Sessions.BindOnFreshSession` | `Sessions.IntendedBindBindsOnce` |

The corrected rule is the function `IntendedBindUid`, with its properties proved in `IntendedBindBindsOnce` and `IntendedBindKeepsBoundUid`. The `Session` class itself keeps the guard as the source writes it. This model describes the code; the correction sits beside it and is not substituted into it. `UnboundSessionNeverBound`, `BoundSessionIsOverwritten` and `BoundSessionUnboundForGood` state the as-written behaviour for any series of binds.

## Left out

- `gobEncode` and `gobDecode` (network/utils.go:23-33) are thin wrappers over Go's `encoding/gob` and are not modelled. No round-trip property is claimed.
- `json.Marshal` of the RPC arguments is an abstract function that may fail. Its encoding is not modelled.
- `decodeRouteInfo` is not part of this model. It is an abstract function that returns a route or an error. `RouteInfo` keeps only the server type and an opaque handler path.
- The transport and its collaborators are not modelled beyond the outbox: `netService.Push`, `netService.Response`, `netService.send`, `writeResponse`, `remote.request` and `getRemoteSessionBySid`. Their internals and delivery failures are not modelled. The index lookup is a map membership test.
- `rpc.Response` and the remote-session record keep only the fields the session layer reads or writes. The numeric values of the `rpc` message kinds are not modelled, because the `rpc` package is not part of this model.
- Logging (`Error`, `log.Error`) is left out. It is a side channel with no effect on state or results.
- `time.Now()` is not modelled. The clock reading is a constructor parameter.
- `Send` (session.go:49-51) is a one-line delegation to the net service with nothing to state.
- `String` (session.go:108-112) is string formatting and is not modelled.
- `Sync` and `SyncAll` (session.go:148-155) have empty bodies.
- Status transitions are not modelled, because no code changes `status` after creation.
- Concurrency on the shared session and the shared index is out of scope for a sequential model.
- Go's nil slice and empty slice are both the empty sequence. "No data" on an error path is `[]`.
