# Session routing of the ffgate client gateway, in Dafny

`ffgate_t` (`fflib/rpc/ffgate.cpp`) is the client-facing gateway of the FFRPC
framework. It accepts client connections and authenticates each one with the
`session_mgr` service. Each authenticated connection is bound to a session id.
The gateway forwards the session's payloads to its assigned logic service.
Other services can reassign, close, push to or broadcast to sessions through
control-plane requests.

All of its handlers run one at a time on the RPC task queue. The model
therefore treats each handler as one atomic transition over four pieces of
state:

- the session record attached to each socket, `sessionData` (a socket without a record is absent);
- the sockets waiting for a verification answer (`m_wait_verify_set`), `waitVerify`;
- the routing entry per session id (`m_client_set`), `clients`, each entry holding the socket, the assigned logic service and a FIFO of bodies;
- the log `effects`: every outbound call together with its continuation, and every close, release, push and response.

Layout:

- `types.dfy`, module `GateTypes`: sockets (`Sock = Null | Live(id)`), `SessionData`, `ClientInfo`, requests, continuations, effects, the `session_mgr` answer. `Lookup` and `Touch` model reading and inserting through `std::map::operator[]`.
- `transitions.dfy`, module `GateSpec`: the state as a value (`GateState`) and one step function per handler, whose contracts state what the handler does. It also holds the invariant `Inv`, and `SendsTo`/`KnownIds` for the push loops.
- `properties.dfy`, module `GateProperties`: each handler preserves `Inv` and keeps empty queues empty. It also proves what the two pushes deliver, and that stale events do no harm.
- `gate.dfy`, module `GateImpl`: class `Gate` with the source's members as fields and one method per handler, updating those fields in place (with loops for the two pushes). Each method ensures `State() == XStep(old(State()))` and keeps `Valid()`.
- `scenarios.dfy`, module `GateScenarios`: runs from a fresh gateway (fast path, pipelining, supersession, stale answer, rejection, phantom entry, control plane), each proved from the method contracts.

`Inv` says four things:
- a waiting socket carries an unbound record;
- no queue is longer than `MAX_MSG_QUEUE_SIZE`;
- a live socket recorded for session `k` is authenticated with id `k`;
- as a consequence, no two sessions share a socket, and no push reaches a pending socket.

Behaviour kept as the code has it, where it differs from the gateway's stated design:

- **One in flight per session is not enforced.** `route_logic_msg` forwards right away whenever the queue is empty, and never queues the body it forwards. Every queue therefore stays empty forever (`QueuesEmpty` is preserved by every handler). Each body is forwarded at once, and several calls of one session can be outstanding together (`PipelinedBodies`). The drain in `route_logic_msg_callback` is modelled in full, but no run of the code ever reaches it.
- **`operator[]` inserts.** A lookup through `m_client_set[id]` in `handle_broken_impl`, `verify_session_callback` and `route_logic_msg` creates a default entry (null socket, empty service, empty queue) for an absent id. The model keeps this (`Touch`). An old connection's break after its successor's break does leave such an entry behind (`PhantomEntry`). Pushes then go to a null socket, and `close_session` then closes one: the model logs `Close(Null)`, while in the source this is a null-pointer dereference.
- **Unknown ids get no answer.** `change_session_logic` and `close_session` return without responding for an unknown id; they do not acknowledge the request.
- **Prior sockets are closed unconditionally.** A successful verification closes any previously recorded non-null socket of that id, without comparing it to the new one.

## Model

| member | source | states |
|---|---|---|
| `GateTypes.Lookup` | fflib/rpc/ffgate.cpp:87 | reading `m_client_set[id]` yields the entry if present, else the default entry (null socket, empty service, empty queue) |
| `GateTypes.Touch` | fflib/rpc/ffgate.cpp:176 | `operator[]` adds the key with the default entry when absent and leaves every present entry as it was |
| `GateSpec.BrokenStep` | fflib/rpc/ffgate.cpp:71-101 | the record is always detached and the socket released last; a waiting socket leaves the wait set; an authenticated socket still recorded for its id erases the entry and issues exactly one `session_offline(id, online_time)`; a superseded socket leaves the newer entry intact and issues no offline call (an absent id gets a default entry) |
| `GateSpec.MsgStep` | fflib/rpc/ffgate.cpp:103-121 | no record: verification starts; a record not yet valid: only the socket is closed, no map or set changes; a valid record: the body is routed |
| `GateSpec.VerifyStep` | fflib/rpc/ffgate.cpp:124-139 | attaches an unbound, invalid record carrying the clock reading, adds the socket to the wait set, issues exactly one `session_online` to `session_mgr` with key = body, that online time and the gate name, continuation bound to the socket; `m_client_set` unchanged |
| `GateSpec.VerifyCallbackStep` | fflib/rpc/ffgate.cpp:141-168 | socket not waiting: the state is unchanged; non-empty `err`: the socket leaves the wait set and is closed, entries unchanged; success: the socket leaves the wait set, its record is bound to the id and becomes valid, the entry records the socket and the assigned service and keeps its queue, a previously recorded non-null socket is closed, every other entry unchanged |
| `GateSpec.RouteStep` | fflib/rpc/ffgate.cpp:171-198 | full queue: the socket is closed, no call, nothing queued; empty queue: exactly one call to the assigned service with `{id, body}`, queue stays empty; otherwise the body is appended at the back with no call; the queue never exceeds the bound; all other entries unchanged |
| `GateSpec.RouteCallbackStep` | fflib/rpc/ffgate.cpp:201-225 | missing entry, other socket recorded or empty queue: nothing happens; otherwise exactly one call carrying the queue's front, and the queue becomes its tail (length minus one) |
| `GateSpec.ChangeLogicStep` | fflib/rpc/ffgate.cpp:228-243 | unknown id: no change and no response; known id: only that entry's service changes, and the request is answered once |
| `GateSpec.CloseSessionStep` | fflib/rpc/ffgate.cpp:246-260 | unknown id: no change and no response; known id: the recorded socket is closed and the request answered once, nothing else changes |
| `GateSpec.SendsTo` | fflib/rpc/ffgate.cpp:267-279 | the loop's pushes: at most one per listed id, each a push of the body with command 0 |
| `GateSpec.KnownIds` | fflib/rpc/ffgate.cpp:272-276 | an id is kept exactly when it is listed and has an entry |
| `GateSpec.RouteToSessionStep` | fflib/rpc/ffgate.cpp:263-284 | only the log changes: the pushes of `SendsTo`, then one response |
| `GateSpec.BroadcastStep` | fflib/rpc/ffgate.cpp:287-301 | only the log changes: one push per entry in visiting order, then one response |
| `GateProperties.BrokenPreservesInv` | fflib/rpc/ffgate.cpp:71-101 | a break keeps the invariant, and keeps every queue empty if all were |
| `GateProperties.MsgPreservesInv` | fflib/rpc/ffgate.cpp:103-139 | a client payload (verification start, early close or routing) keeps the invariant and empty queues |
| `GateProperties.RoutePreservesInv` | fflib/rpc/ffgate.cpp:171-198 | routing keeps every queue within the bound and keeps empty queues empty: a body is only ever appended to a non-empty queue |
| `GateProperties.VerifyCallbackPreservesInv` | fflib/rpc/ffgate.cpp:141-168 | binding a session keeps the invariant: the newly recorded socket is authenticated with that id, and no other entry named it |
| `GateProperties.RouteCallbackPreservesInv` | fflib/rpc/ffgate.cpp:201-225 | the queue drain keeps the invariant and empty queues |
| `GateProperties.ChangeLogicPreservesInv` | fflib/rpc/ffgate.cpp:228-243 | reassigning a logic service keeps the invariant and empty queues |
| `GateProperties.SendsToKnownIds` | fflib/rpc/ffgate.cpp:267-279 | `route_msg_to_session` sends exactly one push, in list order, to the recorded socket of each listed id that has an entry, and nothing for unknown ids |
| `GateProperties.KnownIdsAllKnown` | fflib/rpc/ffgate.cpp:272-276 | when every listed id has an entry, none is skipped |
| `GateProperties.BroadcastOncePerEntry` | fflib/rpc/ffgate.cpp:291-295 | the broadcast sends exactly as many pushes as there are entries, the j-th to the j-th visited entry's socket, and every entry's socket receives the body |
| `GateProperties.PushesReachOnlyAuthenticated` | fflib/rpc/ffgate.cpp:278 | every live socket pushed to is authenticated and not waiting for verification |
| `GateProperties.SessionsHaveDistinctSockets` | fflib/rpc/ffgate.cpp:159-164 | two sessions never record the same live socket |
| `GateProperties.BrokenKeepsOtherSessions` | fflib/rpc/ffgate.cpp:87-94 | the break of any socket other than the one recorded for a session leaves that session's entry unchanged |
| `GateProperties.ReplyAfterBreakIsIgnored` | fflib/rpc/ffgate.cpp:144-149 | after a socket's break it is not waiting, and a verification answer for it then changes nothing |
| `GateImpl.Gate.constructor` | fflib/rpc/ffgate.cpp:8-11 | a fresh gateway: no records, no waiting sockets, no entries, empty log |
| `GateImpl.Gate.HandleBrokenImpl` | fflib/rpc/ffgate.cpp:71-101 | updates the members in place to `BrokenStep` of the old state, keeping the invariant |
| `GateImpl.Gate.HandleMsgImpl` | fflib/rpc/ffgate.cpp:103-121 | updates the members to `MsgStep` of the old state, keeping the invariant |
| `GateImpl.Gate.VerifySessionId` | fflib/rpc/ffgate.cpp:124-139 | for a socket without a record, updates the members to `VerifyStep` of the old state |
| `GateImpl.Gate.VerifySessionCallback` | fflib/rpc/ffgate.cpp:141-168 | updates the members to `VerifyCallbackStep` of the old state, keeping the invariant |
| `GateImpl.Gate.RouteLogicMsg` | fflib/rpc/ffgate.cpp:171-198 | for a socket with a record, updates the members to `RouteStep` of the old state |
| `GateImpl.Gate.RouteLogicMsgCallback` | fflib/rpc/ffgate.cpp:201-225 | pops the queue front in place and logs its call, equal to `RouteCallbackStep` of the old state |
| `GateImpl.Gate.ChangeSessionLogic` | fflib/rpc/ffgate.cpp:228-243 | updates the members to `ChangeLogicStep` of the old state |
| `GateImpl.Gate.CloseSession` | fflib/rpc/ffgate.cpp:246-260 | updates the members to `CloseSessionStep` of the old state |
| `GateImpl.Gate.RouteMsgToSession` | fflib/rpc/ffgate.cpp:263-284 | the loop over the listed ids logs exactly `SendsTo` of them, then one response; nothing else changes |
| `GateImpl.Gate.BroadcastMsgToSession` | fflib/rpc/ffgate.cpp:287-301 | the loop over the entries visits every key exactly once, logs one push per entry in that order, then one response; nothing else changes |
| `GateScenarios.VerifiedFastPath` | fflib/rpc/ffgate.cpp:184-191 | key "K1" answered with "S1" on "L1", then "hello": exactly one `session_online` call and then exactly one call to "L1" with `{S1, hello}` |
| `GateScenarios.PipelinedBodies` | fflib/rpc/ffgate.cpp:184-195 | "a", "b", "c" before any reply: three immediate calls to "L1", the queue stays empty and the first reply forwards nothing |
| `GateScenarios.Supersession` | fflib/rpc/ffgate.cpp:159-164 | a second login as "S1" closes the first socket and takes over; the first socket's break keeps the new entry and issues no offline call |
| `GateScenarios.StaleVerifyReply` | fflib/rpc/ffgate.cpp:144-149 | a verification answer arriving after the break creates no entry and closes nothing |
| `GateScenarios.RejectedKey` | fflib/rpc/ffgate.cpp:152-156 | a rejected key closes the socket; a payload sent before the break closes it again; no entry is ever made |
| `GateScenarios.PhantomEntry` | fflib/rpc/ffgate.cpp:87 | the newer socket breaks first, then the older: the older one's break leaves a default entry with a null socket, so `close_session` then closes a null socket |
| `GateScenarios.ControlPlane` | fflib/rpc/ffgate.cpp:228-284 | unknown ids are neither changed nor answered; a push to `[unknown, known]` reaches only the known session and is answered once |

## Left out

- `open` and `close` (argument parsing, broker connection, listener set-up): start-up I/O. The gate name and the queue bound are constructor parameters instead.
- `handle_broken` and `handle_msg`: they only put the `_impl` handlers on the task queue. The model has each `_impl` handler as one atomic method call.
- The RPC transport, callback generation, `msg_sender_t::send`, `socket_t::close` and `safe_delete` are foreign code. They appear only as `Call`, `Send`, `Close` and `Release` entries in the log. A close does not itself cause a break; the break arrives later as a separate `HandleBrokenImpl` call. `Close(Null)` and `Send(Null, …)` stand for calls on a null pointer; the model does not say what those do.
- `rpc/ffgate.h` is not part of this model. So `session_data_t`, `client_info_t` and `MAX_MSG_QUEUE_SIZE` are modelled from their use in `ffgate.cpp`: `set_id` binds the id and makes the record valid, and the bound is a constant of at least 1. `online_time` is set when the record is created; the model takes that clock reading as a parameter.
- Logging, and the `new`/`delete` of session records (the model attaches and detaches a value instead).
- Socket handles are plain numbers. After a release the same handle may appear again as a new connection; the model does not track pointer reuse.
- The command number and framing of incoming client messages: only the body is used, as in the source.
- GateImpl.Gate.BroadcastMsgToSession: visits the entries in an order it chooses, which it returns and proves to list every key once. It does not model `std::map`'s ascending key order, which only affects pushes to different sockets.
