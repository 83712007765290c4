/**
 * The gateway's state as a value and one step function per handler of
 * `ffgate_t`. Each handler runs to completion on the single task queue, so
 * each is one atomic transition from the state before to the state after.
 */
module GateSpec {
  import opened GateTypes

  /**
   * `sessionData` holds the record attached to each socket (absent = NULL),
   * `waitVerify` is `m_wait_verify_set`, `clients` is `m_client_set`, and
   * `effects` is the log of everything asked of the collaborators so far.
   */
  datatype GateState = GateState(
    sessionData: map<SocketId, SessionData>,
    waitVerify: set<SocketId>,
    clients: map<string, ClientInfo>,
    effects: seq<Effect>)

  const INITIAL := GateState(map[], {}, map[], [])

  /** Socket `s` is authenticated and its bound session id is `k`. */
  ghost predicate Owns(st: GateState, k: string, s: SocketId) {
    s in st.sessionData && st.sessionData[s].valid && st.sessionData[s].id == k
  }

  /**
   * The invariant every handler keeps: a waiting socket carries an unbound
   * record; no queue is longer than the bound; and a live socket recorded
   * for a session id is an authenticated socket bound to that same id (so
   * no socket represents two sessions, and no pending socket represents any).
   */
  ghost predicate Inv(st: GateState, maxQueue: nat) {
    && st.waitVerify <= st.sessionData.Keys
    && (forall s :: s in st.waitVerify ==> !st.sessionData[s].valid)
    && (forall k :: k in st.clients ==> |st.clients[k].requestQueue| <= maxQueue)
    && (forall k :: k in st.clients && st.clients[k].sock.Live? ==> Owns(st, k, st.clients[k].sock.id))
  }

  /** Every session's request queue is empty. */
  ghost predicate QueuesEmpty(st: GateState) {
    forall k :: k in st.clients ==> st.clients[k].requestQueue == []
  }

  /** `handle_broken_impl`: the connection `s` broke. */
  function BrokenStep(st: GateState, s: SocketId): (r: GateState)
    // the record is detached and the socket released in every case
    ensures r.sessionData == st.sessionData - {s}
    ensures |r.effects| > |st.effects| && r.effects[..|st.effects|] == st.effects
    ensures r.effects[|r.effects| - 1] == Release(s)
    // a socket that never sent anything: nothing else happens
    ensures s !in st.sessionData ==>
      r.waitVerify == st.waitVerify && r.clients == st.clients && r.effects == st.effects + [Release(s)]
    // a socket still waiting for verification leaves the wait set
    ensures s in st.sessionData && !st.sessionData[s].valid ==>
      r.waitVerify == st.waitVerify - {s} && r.clients == st.clients && r.effects == st.effects + [Release(s)]
    // an authenticated socket that is still the session's current socket:
    // the entry goes and session_mgr hears of the disconnect, once
    ensures s in st.sessionData && st.sessionData[s].valid && Lookup(st.clients, st.sessionData[s].id).sock == Live(s) ==>
      var d := st.sessionData[s];
      && r.waitVerify == st.waitVerify
      && r.clients == st.clients - {d.id}
      && r.effects == st.effects + [Call(SESSION_MGR, GateSessionOffline(d.id, d.onlineTime), NoCallback), Release(s)]
    // an authenticated socket that was superseded: the newer entry survives,
    // no offline call; an absent id gets a default entry (operator[])
    ensures s in st.sessionData && st.sessionData[s].valid && Lookup(st.clients, st.sessionData[s].id).sock != Live(s) ==>
      var d := st.sessionData[s];
      && r.waitVerify == st.waitVerify
      && r.clients.Keys == st.clients.Keys + {d.id}
      && (forall k :: k in st.clients ==> r.clients[k] == st.clients[k])
      && r.clients[d.id] == Lookup(st.clients, d.id)
      && r.effects == st.effects + [Release(s)]
  {
    if s !in st.sessionData then
      st.(effects := st.effects + [Release(s)])
    else
      var d := st.sessionData[s];
      var detached := st.sessionData - {s};
      if !d.valid then
        GateState(detached, st.waitVerify - {s}, st.clients, st.effects + [Release(s)])
      else if Lookup(st.clients, d.id).sock == Live(s) then
        GateState(detached, st.waitVerify, st.clients - {d.id},
                  st.effects + [Call(SESSION_MGR, GateSessionOffline(d.id, d.onlineTime), NoCallback), Release(s)])
      else
        GateState(detached, st.waitVerify, Touch(st.clients, d.id), st.effects + [Release(s)])
  }

  /**
   * `verify_session_id`: the first payload of connection `s` is its session
   * key; `onlineTime` is the clock reading stored in the new record.
   */
  function VerifyStep(st: GateState, gateName: string, body: string, s: SocketId, onlineTime: int): (r: GateState)
    ensures s in r.sessionData && r.sessionData[s] == SessionData("", onlineTime, false)
    ensures forall t :: t in st.sessionData && t != s ==> t in r.sessionData && r.sessionData[t] == st.sessionData[t]
    ensures r.sessionData.Keys == st.sessionData.Keys + {s}
    ensures r.waitVerify == st.waitVerify + {s}
    ensures r.clients == st.clients
    ensures r.effects == st.effects + [Call(SESSION_MGR, GateSessionOnline(body, onlineTime, gateName), VerifyCallback(s))]
  {
    st.(sessionData := st.sessionData[s := SessionData("", onlineTime, false)],
        waitVerify := st.waitVerify + {s},
        effects := st.effects + [Call(SESSION_MGR, GateSessionOnline(body, onlineTime, gateName), VerifyCallback(s))])
  }

  /** `verify_session_callback`: `session_mgr` answered the verification of `s`. */
  function VerifyCallbackStep(st: GateState, s: SocketId, reply: OnlineReply): (r: GateState)
    requires s in st.waitVerify ==> s in st.sessionData
    // the socket broke before the answer: nothing at all happens
    ensures s !in st.waitVerify ==> r == st
    // rejected: the socket stops waiting and is closed; no entry changes
    ensures s in st.waitVerify && reply.err != "" ==>
      r == st.(waitVerify := st.waitVerify - {s}, effects := st.effects + [Close(Live(s))])
    // accepted: the id is bound, the entry points at `s` and at the assigned
    // service, keeps its queue, and a previously recorded socket is closed
    ensures s in st.waitVerify && reply.err == "" ==>
      var id := reply.sessionId;
      var before := Lookup(st.clients, id);
      && r.waitVerify == st.waitVerify - {s}
      && r.sessionData == st.sessionData[s := SessionData(id, st.sessionData[s].onlineTime, true)]
      && r.clients.Keys == st.clients.Keys + {id}
      && r.clients[id] == ClientInfo(Live(s), reply.allocLogicService, before.requestQueue)
      && (forall k :: k in st.clients && k != id ==> r.clients[k] == st.clients[k])
      && r.effects == st.effects + (if before.sock.Live? then [Close(before.sock)] else [])
  {
    if s !in st.waitVerify then st
    else if reply.err != "" then
      st.(waitVerify := st.waitVerify - {s}, effects := st.effects + [Close(Live(s))])
    else
      var d := st.sessionData[s].(id := reply.sessionId, valid := true);
      var info := Lookup(st.clients, d.id);
      var closes := if info.sock.Live? then [Close(info.sock)] else [];
      GateState(st.sessionData[s := d], st.waitVerify - {s},
                st.clients[d.id := info.(sock := Live(s), allocLogicService := reply.allocLogicService)],
                st.effects + closes)
  }

  /** `route_logic_msg`: authenticated connection `s` sent `body`. */
  function RouteStep(st: GateState, maxQueue: nat, body: string, s: SocketId): (r: GateState)
    requires s in st.sessionData
    ensures r.sessionData == st.sessionData && r.waitVerify == st.waitVerify
    ensures
      var id := st.sessionData[s].id;
      var q := Lookup(st.clients, id).requestQueue;
      && r.clients.Keys == st.clients.Keys + {id}
      && (forall k :: k in st.clients && k != id ==> r.clients[k] == st.clients[k])
      && r.clients[id].sock == Lookup(st.clients, id).sock
      && r.clients[id].allocLogicService == Lookup(st.clients, id).allocLogicService
      // a full queue closes the connection: no call, nothing queued
      && (|q| == maxQueue ==>
            r.clients[id].requestQueue == q && r.effects == st.effects + [Close(Live(s))])
      // an empty queue: forwarded at once, and the queue stays empty
      && (|q| != maxQueue && q == [] ==>
            r.clients[id].requestQueue == [] &&
            r.effects == st.effects + [Call(Lookup(st.clients, id).allocLogicService, GateRouteLogicMsg(id, body), RouteCallback(id, s))])
      // otherwise the body waits at the back of the queue
      && (|q| != maxQueue && q != [] ==>
            r.clients[id].requestQueue == q + [body] && r.effects == st.effects)
      // the queue never grows past the bound
      && (|q| <= maxQueue ==> |r.clients[id].requestQueue| <= maxQueue)
  {
    var id := st.sessionData[s].id;
    var info := Lookup(st.clients, id);
    if |info.requestQueue| == maxQueue then
      st.(clients := Touch(st.clients, id), effects := st.effects + [Close(Live(s))])
    else if info.requestQueue == [] then
      st.(clients := Touch(st.clients, id),
          effects := st.effects + [Call(info.allocLogicService, GateRouteLogicMsg(id, body), RouteCallback(id, s))])
    else
      st.(clients := st.clients[id := info.(requestQueue := info.requestQueue + [body])])
  }

  /** `handle_msg_impl`: payload `body` arrived on connection `s`. */
  function MsgStep(st: GateState, gateName: string, maxQueue: nat, body: string, s: SocketId, onlineTime: int): (r: GateState)
    // no record yet: the payload is a session key to verify
    ensures s !in st.sessionData ==> r == VerifyStep(st, gateName, body, s, onlineTime)
    // a payload before verification finished: only the socket is closed
    ensures s in st.sessionData && !st.sessionData[s].valid ==>
      r == st.(effects := st.effects + [Close(Live(s))])
    // an authenticated socket: the payload is routed
    ensures s in st.sessionData && st.sessionData[s].valid ==> r == RouteStep(st, maxQueue, body, s)
  {
    if s !in st.sessionData then VerifyStep(st, gateName, body, s, onlineTime)
    else if !st.sessionData[s].valid then st.(effects := st.effects + [Close(Live(s))])
    else RouteStep(st, maxQueue, body, s)
  }

  /** `route_logic_msg_callback`: the logic service answered a call bound to `(id, s)`. */
  function RouteCallbackStep(st: GateState, id: string, s: SocketId): (r: GateState)
    ensures r.sessionData == st.sessionData && r.waitVerify == st.waitVerify
    // a missing entry, a reassigned socket or an empty queue: nothing happens
    ensures id !in st.clients || st.clients[id].sock != Live(s) || st.clients[id].requestQueue == [] ==> r == st
    // otherwise the front of the queue is forwarded and the queue becomes its tail
    ensures id in st.clients && st.clients[id].sock == Live(s) && st.clients[id].requestQueue != [] ==>
      var info := st.clients[id];
      && r.clients == st.clients[id := info.(requestQueue := info.requestQueue[1..])]
      && |r.clients[id].requestQueue| == |info.requestQueue| - 1
      && r.effects == st.effects + [Call(info.allocLogicService, GateRouteLogicMsg(id, info.requestQueue[0]), RouteCallback(id, s))]
  {
    if id !in st.clients || st.clients[id].sock != Live(s) then st
    else
      var info := st.clients[id];
      if info.requestQueue == [] then st
      else
        st.(clients := st.clients[id := info.(requestQueue := info.requestQueue[1..])],
            effects := st.effects + [Call(info.allocLogicService, GateRouteLogicMsg(id, info.requestQueue[0]), RouteCallback(id, s))])
  }

  /** `change_session_logic`: reassign session `id` to logic service `service`. */
  function ChangeLogicStep(st: GateState, id: string, service: string): (r: GateState)
    // an unknown id: no change and no response
    ensures id !in st.clients ==> r == st
    ensures id in st.clients ==>
      && r.sessionData == st.sessionData && r.waitVerify == st.waitVerify
      && r.clients.Keys == st.clients.Keys
      && r.clients[id].allocLogicService == service
      && r.clients[id].sock == st.clients[id].sock
      && r.clients[id].requestQueue == st.clients[id].requestQueue
      && (forall k :: k in st.clients && k != id ==> r.clients[k] == st.clients[k])
      && r.effects == st.effects + [Respond]
  {
    if id !in st.clients then st
    else st.(clients := st.clients[id := st.clients[id].(allocLogicService := service)],
             effects := st.effects + [Respond])
  }

  /** `close_session`: force-close the socket of session `id`. */
  function CloseSessionStep(st: GateState, id: string): (r: GateState)
    // an unknown id: no change and no response
    ensures id !in st.clients ==> r == st
    // a known id: its recorded socket is closed and the request answered once;
    // nothing else changes (the entry goes only when the break arrives)
    ensures id in st.clients ==>
      r == st.(effects := st.effects + [Close(st.clients[id].sock), Respond])
  {
    if id !in st.clients then st
    else st.(effects := st.effects + [Close(st.clients[id].sock), Respond])
  }

  /**
   * The pushes of `body` to the sessions listed in `ids`, one per listed id
   * that has an entry, in list order; unknown ids are skipped.
   */
  function SendsTo(ids: seq<string>, clients: map<string, ClientInfo>, body: string): (r: seq<Effect>)
    ensures |r| <= |ids|
    ensures forall j :: 0 <= j < |r| ==> r[j].Send? && r[j].cmd == PUSH_CMD && r[j].body == body
    decreases |ids|
  {
    if ids == [] then []
    else
      var last := ids[|ids| - 1];
      SendsTo(ids[..|ids| - 1], clients, body) + (if last in clients then [Send(clients[last].sock, PUSH_CMD, body)] else [])
  }

  /** The listed ids that have an entry, in list order. */
  function KnownIds(ids: seq<string>, clients: map<string, ClientInfo>): (r: seq<string>)
    ensures |r| <= |ids|
    ensures forall k :: k in r <==> k in ids && k in clients
    decreases |ids|
  {
    if ids == [] then []
    else
      var last := ids[|ids| - 1];
      assert ids == ids[..|ids| - 1] + [last];
      KnownIds(ids[..|ids| - 1], clients) + (if last in clients then [last] else [])
  }

  /** `route_msg_to_session`: push `body` to the listed sessions, then answer once. */
  function RouteToSessionStep(st: GateState, ids: seq<string>, body: string): (r: GateState)
    ensures r.sessionData == st.sessionData && r.waitVerify == st.waitVerify && r.clients == st.clients
    ensures r.effects == st.effects + SendsTo(ids, st.clients, body) + [Respond]
  {
    st.(effects := st.effects + SendsTo(ids, st.clients, body) + [Respond])
  }

  /** `order` lists every key of `keys` exactly once. */
  ghost predicate Enumerates(order: seq<string>, keys: set<string>) {
    && |order| == |keys|
    && (forall i, j :: 0 <= i < j < |order| ==> order[i] != order[j])
    && (forall k :: k in order <==> k in keys)
  }

  /**
   * `broadcast_msg_to_session`: push `body` to every entry, visiting the
   * entries in `order`, then answer once.
   */
  function BroadcastStep(st: GateState, order: seq<string>, body: string): (r: GateState)
    requires Enumerates(order, st.clients.Keys)
    ensures r.sessionData == st.sessionData && r.waitVerify == st.waitVerify && r.clients == st.clients
    ensures r.effects == st.effects + SendsTo(order, st.clients, body) + [Respond]
  {
    st.(effects := st.effects + SendsTo(order, st.clients, body) + [Respond])
  }
}
