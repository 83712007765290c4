/**
 * The gateway object `ffgate_t`. Its members are updated in place by the
 * handlers, which the task queue runs one at a time; each method below is one
 * handler, and its new state is the matching step function of `GateSpec`
 * applied to the old one.
 */
module GateImpl {
  import opened GateTypes
  import opened GateSpec
  import opened GateProperties

  class Gate {
    /** `m_gate_name` */
    const gateName: string
    /** `MAX_MSG_QUEUE_SIZE` */
    const maxMsgQueueSize: nat

    /** The record attached to each socket with `set_data` (absent = NULL). */
    var sessionData: map<SocketId, SessionData>
    /** `m_wait_verify_set` */
    var waitVerify: set<SocketId>
    /** `m_client_set` */
    var clients: map<string, ClientInfo>
    /** Calls, closes, releases, pushes and responses issued so far. */
    var effects: seq<Effect>

    ghost function State(): GateState
      reads this
    {
      GateState(sessionData, waitVerify, clients, effects)
    }

    ghost predicate Valid()
      reads this
    {
      Inv(State(), maxMsgQueueSize)
    }

    constructor (gateName: string, maxMsgQueueSize: nat)
      requires maxMsgQueueSize >= 1
      ensures Valid()
      ensures this.gateName == gateName && this.maxMsgQueueSize == maxMsgQueueSize
      ensures State() == INITIAL
    {
      this.gateName := gateName;
      this.maxMsgQueueSize := maxMsgQueueSize;
      sessionData := map[];
      waitVerify := {};
      clients := map[];
      effects := [];
    }

    /** `handle_broken_impl` */
    method HandleBrokenImpl(s: SocketId)
      requires Valid()
      modifies this
      ensures Valid()
      ensures State() == BrokenStep(old(State()), s)
    {
      BrokenPreservesInv(State(), maxMsgQueueSize, s);
      if s !in sessionData {
        effects := effects + [Release(s)];
        return;
      }
      var d := sessionData[s];
      if !d.valid {
        waitVerify := waitVerify - {s};
      } else {
        var recorded := Lookup(clients, d.id).sock;
        clients := Touch(clients, d.id);
        if recorded == Live(s) {
          clients := clients - {d.id};
          effects := effects + [Call(SESSION_MGR, GateSessionOffline(d.id, d.onlineTime), NoCallback)];
        }
      }
      sessionData := sessionData - {s};
      effects := effects + [Release(s)];
    }

    /** `handle_msg_impl`; `onlineTime` is the clock reading a new record would get. */
    method HandleMsgImpl(body: string, s: SocketId, onlineTime: int)
      requires Valid()
      modifies this
      ensures Valid()
      ensures State() == MsgStep(old(State()), gateName, maxMsgQueueSize, body, s, onlineTime)
    {
      MsgPreservesInv(State(), gateName, maxMsgQueueSize, body, s, onlineTime);
      if s !in sessionData {
        VerifySessionId(body, s, onlineTime);
      } else if !sessionData[s].valid {
        effects := effects + [Close(Live(s))];
      } else {
        RouteLogicMsg(body, s);
      }
    }

    /** `verify_session_id`, reached only for a socket with no record. */
    method VerifySessionId(body: string, s: SocketId, onlineTime: int)
      requires Valid() && s !in sessionData
      modifies this
      ensures Valid()
      ensures State() == VerifyStep(old(State()), gateName, body, s, onlineTime)
    {
      MsgPreservesInv(State(), gateName, maxMsgQueueSize, body, s, onlineTime);
      sessionData := sessionData[s := SessionData("", onlineTime, false)];
      waitVerify := waitVerify + {s};
      effects := effects + [Call(SESSION_MGR, GateSessionOnline(body, onlineTime, gateName), VerifyCallback(s))];
    }

    /** `verify_session_callback` */
    method VerifySessionCallback(s: SocketId, reply: OnlineReply)
      requires Valid()
      modifies this
      ensures Valid()
      ensures State() == VerifyCallbackStep(old(State()), s, reply)
    {
      VerifyCallbackPreservesInv(State(), maxMsgQueueSize, s, reply);
      if s !in waitVerify {
        return;
      }
      waitVerify := waitVerify - {s};
      if reply.err != "" {
        effects := effects + [Close(Live(s))];
        return;
      }
      var d := sessionData[s].(id := reply.sessionId, valid := true);
      sessionData := sessionData[s := d];
      var info := Lookup(clients, d.id);
      if info.sock.Live? {
        effects := effects + [Close(info.sock)];
      }
      clients := clients[d.id := info.(sock := Live(s), allocLogicService := reply.allocLogicService)];
    }

    /** `route_logic_msg`, reached only for a socket with a record. */
    method RouteLogicMsg(body: string, s: SocketId)
      requires Valid() && s in sessionData
      modifies this
      ensures Valid()
      ensures State() == RouteStep(old(State()), maxMsgQueueSize, body, s)
    {
      RoutePreservesInv(State(), maxMsgQueueSize, body, s);
      var id := sessionData[s].id;
      var info := Lookup(clients, id);
      clients := Touch(clients, id);
      if |info.requestQueue| == maxMsgQueueSize {
        effects := effects + [Close(Live(s))];
        return;
      }
      if info.requestQueue == [] {
        effects := effects + [Call(info.allocLogicService, GateRouteLogicMsg(id, body), RouteCallback(id, s))];
      } else {
        clients := clients[id := info.(requestQueue := info.requestQueue + [body])];
      }
    }

    /** `route_logic_msg_callback`, with the session id and socket it was bound to. */
    method RouteLogicMsgCallback(id: string, s: SocketId)
      requires Valid()
      modifies this
      ensures Valid()
      ensures State() == RouteCallbackStep(old(State()), id, s)
    {
      RouteCallbackPreservesInv(State(), maxMsgQueueSize, id, s);
      if id !in clients || clients[id].sock != Live(s) {
        return;
      }
      var info := clients[id];
      if info.requestQueue == [] {
        return;
      }
      effects := effects + [Call(info.allocLogicService, GateRouteLogicMsg(id, info.requestQueue[0]), RouteCallback(id, s))];
      clients := clients[id := info.(requestQueue := info.requestQueue[1..])];
    }

    /** `change_session_logic` */
    method ChangeSessionLogic(id: string, service: string)
      requires Valid()
      modifies this
      ensures Valid()
      ensures State() == ChangeLogicStep(old(State()), id, service)
    {
      ChangeLogicPreservesInv(State(), maxMsgQueueSize, id, service);
      if id !in clients {
        return;
      }
      clients := clients[id := clients[id].(allocLogicService := service)];
      effects := effects + [Respond];
    }

    /** `close_session` */
    method CloseSession(id: string)
      requires Valid()
      modifies this
      ensures Valid()
      ensures State() == CloseSessionStep(old(State()), id)
    {
      if id !in clients {
        return;
      }
      effects := effects + [Close(clients[id].sock), Respond];
    }

    /** `route_msg_to_session` */
    method RouteMsgToSession(ids: seq<string>, body: string)
      requires Valid()
      modifies this
      ensures Valid()
      ensures State() == RouteToSessionStep(old(State()), ids, body)
    {
      var i := 0;
      while i < |ids|
        invariant 0 <= i <= |ids|
        invariant sessionData == old(sessionData) && waitVerify == old(waitVerify) && clients == old(clients)
        invariant effects == old(effects) + SendsTo(ids[..i], clients, body)
      {
        assert ids[..i + 1][..i] == ids[..i];
        if ids[i] in clients {
          effects := effects + [Send(clients[ids[i]].sock, PUSH_CMD, body)];
        }
        i := i + 1;
      }
      assert ids[..|ids|] == ids;
      effects := effects + [Respond];
    }

    /**
     * `broadcast_msg_to_session`; `order` is the order in which the entries
     * were visited.
     */
    method BroadcastMsgToSession(body: string) returns (order: seq<string>)
      requires Valid()
      modifies this
      ensures Valid()
      ensures Enumerates(order, old(clients).Keys)
      ensures State() == BroadcastStep(old(State()), order, body)
    {
      var rest := clients.Keys;
      order := [];
      while rest != {}
        invariant sessionData == old(sessionData) && waitVerify == old(waitVerify) && clients == old(clients)
        invariant |order| + |rest| == |clients.Keys|
        invariant forall i, j :: 0 <= i < j < |order| ==> order[i] != order[j]
        invariant forall k :: k in clients.Keys <==> k in order || k in rest
        invariant forall k :: k in order ==> k !in rest
        invariant effects == old(effects) + SendsTo(order, clients, body)
        decreases rest
      {
        var k :| k in rest;
        assert (order + [k])[..|order|] == order;
        effects := effects + [Send(clients[k].sock, PUSH_CMD, body)];
        order := order + [k];
        rest := rest - {k};
      }
      effects := effects + [Respond];
    }
  }
}
