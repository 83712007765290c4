/**
 * The values the client gateway `ffgate_t` works with: socket handles, the
 * per-socket session record, the per-session routing entry, the outbound
 * requests it issues and the effects it has on its collaborators.
 */
module GateTypes {

  /** An opaque handle of a live client connection; the transport owns it. */
  type SocketId = nat

  /** A socket pointer as stored in a routing entry: it may be null. */
  datatype Sock = Null | Live(id: SocketId)

  /**
   * `session_data_t`: attached to a socket when its first payload arrives.
   * `id` is empty and `valid` false until a session id is bound to it.
   */
  datatype SessionData = SessionData(id: string, onlineTime: int, valid: bool)

  /**
   * `client_info_t`: the routing entry of one session id, holding the socket
   * that currently represents the session, the logic service its traffic goes
   * to, and the FIFO of client bodies waiting to be forwarded.
   */
  datatype ClientInfo = ClientInfo(sock: Sock, allocLogicService: string, requestQueue: seq<string>)

  /** The entry that `operator[]` creates for an absent key. */
  const DEFAULT_CLIENT_INFO := ClientInfo(Null, "", [])

  /** The service that authenticates session keys and hears of disconnects. */
  const SESSION_MGR := "session_mgr"

  /** The command number used for server-initiated pushes to a client. */
  const PUSH_CMD: nat := 0

  /** Payloads of the outbound RPC calls. */
  datatype Request =
    | GateSessionOnline(sessionKey: string, onlineTime: int, gateName: string)
    | GateSessionOffline(sessionId: string, onlineTime: int)
    | GateRouteLogicMsg(sessionId: string, body: string)

  /** The continuation registered with an outbound call, with its bound arguments. */
  datatype Continuation =
    | NoCallback
    | VerifyCallback(sock: SocketId)
    | RouteCallback(sessionId: string, sock: SocketId)

  /** What the gateway asks of its collaborators, in the order it asks. */
  datatype Effect =
    | Call(service: string, request: Request, callback: Continuation)  // ffrpc_t::call
    | Close(sock: Sock)                                                 // socket_t::close
    | Release(handle: SocketId)                                         // socket_t::safe_delete
    | Send(sock: Sock, cmd: nat, body: string)                          // msg_sender_t::send
    | Respond                                                           // ffreq_t::response

  /** The answer of `session_mgr` to a `GateSessionOnline` call; an empty `err` means success. */
  datatype OnlineReply = OnlineReply(sessionId: string, err: string, allocLogicService: string)

  /** Reading `clients[id]` through `operator[]`: the entry, or the default one. */
  function Lookup(clients: map<string, ClientInfo>, id: string): (info: ClientInfo)
    ensures id in clients ==> info == clients[id]
    ensures id !in clients ==> info == DEFAULT_CLIENT_INFO
  {
    if id in clients then clients[id] else DEFAULT_CLIENT_INFO
  }

  /**
   * The side effect of `operator[]` on `std::map`: an absent key gets a
   * default entry, a present one is left alone.
   */
  function Touch(clients: map<string, ClientInfo>, id: string): (r: map<string, ClientInfo>)
    ensures r.Keys == clients.Keys + {id}
    ensures r[id] == Lookup(clients, id)
    ensures forall k :: k in clients ==> r[k] == clients[k]
  {
    clients[id := Lookup(clients, id)]
  }
}
