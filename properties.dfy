/**
 * What the handlers of `ffgate_t` keep true across calls, and what the two
 * push operations deliver.
 */
module GateProperties {
  import opened GateTypes
  import opened GateSpec

  // ---------------------------------------------------------------------
  // The invariant, handler by handler. Each lemma also shows that a state in
  // which every queue is empty stays that way: `route_logic_msg` only ever
  // appends to a queue that is already non-empty. The step functions'
  // contracts are enough for Dafny to prove these without further hints.
  // ---------------------------------------------------------------------

  lemma BrokenPreservesInv(st: GateState, maxQueue: nat, s: SocketId)
    requires Inv(st, maxQueue)
    ensures Inv(BrokenStep(st, s), maxQueue)
    ensures QueuesEmpty(st) ==> QueuesEmpty(BrokenStep(st, s))
  {
  }

  lemma MsgPreservesInv(st: GateState, gateName: string, maxQueue: nat, body: string, s: SocketId, onlineTime: int)
    requires Inv(st, maxQueue)
    ensures Inv(MsgStep(st, gateName, maxQueue, body, s, onlineTime), maxQueue)
    ensures QueuesEmpty(st) ==> QueuesEmpty(MsgStep(st, gateName, maxQueue, body, s, onlineTime))
  {
  }

  lemma RoutePreservesInv(st: GateState, maxQueue: nat, body: string, s: SocketId)
    requires Inv(st, maxQueue) && s in st.sessionData
    ensures Inv(RouteStep(st, maxQueue, body, s), maxQueue)
    ensures QueuesEmpty(st) ==> QueuesEmpty(RouteStep(st, maxQueue, body, s))
  {
  }

  lemma VerifyCallbackPreservesInv(st: GateState, maxQueue: nat, s: SocketId, reply: OnlineReply)
    requires Inv(st, maxQueue)
    ensures Inv(VerifyCallbackStep(st, s, reply), maxQueue)
    ensures QueuesEmpty(st) ==> QueuesEmpty(VerifyCallbackStep(st, s, reply))
  {
  }

  lemma RouteCallbackPreservesInv(st: GateState, maxQueue: nat, id: string, s: SocketId)
    requires Inv(st, maxQueue)
    ensures Inv(RouteCallbackStep(st, id, s), maxQueue)
    ensures QueuesEmpty(st) ==> QueuesEmpty(RouteCallbackStep(st, id, s))
  {
  }

  lemma ChangeLogicPreservesInv(st: GateState, maxQueue: nat, id: string, service: string)
    requires Inv(st, maxQueue)
    ensures Inv(ChangeLogicStep(st, id, service), maxQueue)
    ensures QueuesEmpty(st) ==> QueuesEmpty(ChangeLogicStep(st, id, service))
  {
  }

  // ---------------------------------------------------------------------
  // Pushes.
  // ---------------------------------------------------------------------

  /**
   * `route_msg_to_session` pushes, in list order, exactly one message to the
   * recorded socket of each listed id that has an entry, and nothing else:
   * the loop is "filter the known ids, then send to each".
   */
  lemma {:induction false} SendsToKnownIds(ids: seq<string>, clients: map<string, ClientInfo>, body: string)
    ensures |SendsTo(ids, clients, body)| == |KnownIds(ids, clients)|
    ensures forall j :: 0 <= j < |KnownIds(ids, clients)| ==>
      KnownIds(ids, clients)[j] in clients &&
      SendsTo(ids, clients, body)[j] == Send(clients[KnownIds(ids, clients)[j]].sock, PUSH_CMD, body)
    decreases |ids|
  {
    if ids != [] {
      SendsToKnownIds(ids[..|ids| - 1], clients, body);
    }
  }

  /** When every listed id is known, none is skipped. */
  lemma {:induction false} KnownIdsAllKnown(ids: seq<string>, clients: map<string, ClientInfo>)
    requires forall i :: 0 <= i < |ids| ==> ids[i] in clients
    ensures KnownIds(ids, clients) == ids
    decreases |ids|
  {
    if ids != [] {
      var init := ids[..|ids| - 1];
      assert forall i :: 0 <= i < |init| ==> init[i] == ids[i];
      KnownIdsAllKnown(init, clients);
      assert ids == init + [ids[|ids| - 1]];
    }
  }

  /**
   * `broadcast_msg_to_session` pushes exactly one message per entry: the
   * j-th push goes to the socket of the j-th entry visited, and, since the
   * visit lists every key once, every entry's socket is pushed to.
   */
  lemma BroadcastOncePerEntry(clients: map<string, ClientInfo>, order: seq<string>, body: string)
    requires Enumerates(order, clients.Keys)
    ensures |SendsTo(order, clients, body)| == |clients|
    ensures forall j :: 0 <= j < |order| ==>
      SendsTo(order, clients, body)[j] == Send(clients[order[j]].sock, PUSH_CMD, body)
    ensures forall k :: k in clients ==> Send(clients[k].sock, PUSH_CMD, body) in SendsTo(order, clients, body)
  {
    assert forall i :: 0 <= i < |order| ==> order[i] in clients;
    KnownIdsAllKnown(order, clients);
    SendsToKnownIds(order, clients, body);
    var r := SendsTo(order, clients, body);
    forall k | k in clients
      ensures Send(clients[k].sock, PUSH_CMD, body) in r
    {
      assert k in order;
      var j :| 0 <= j < |order| && order[j] == k;
      assert r[j] == Send(clients[k].sock, PUSH_CMD, body);
    }
  }

  /**
   * Neither push reaches a socket that is still waiting for verification:
   * every live socket pushed to is authenticated, bound to the id whose
   * entry named it.
   */
  lemma PushesReachOnlyAuthenticated(st: GateState, maxQueue: nat, ids: seq<string>, body: string)
    requires Inv(st, maxQueue)
    ensures forall j :: 0 <= j < |SendsTo(ids, st.clients, body)| && SendsTo(ids, st.clients, body)[j].sock.Live? ==>
      var t := SendsTo(ids, st.clients, body)[j].sock.id;
      t in st.sessionData && st.sessionData[t].valid && t !in st.waitVerify
  {
  }

  /** Two sessions never record the same live socket. */
  lemma SessionsHaveDistinctSockets(st: GateState, maxQueue: nat, k1: string, k2: string)
    requires Inv(st, maxQueue)
    requires k1 in st.clients && k2 in st.clients && k1 != k2
    requires st.clients[k1].sock.Live?
    ensures st.clients[k1].sock != st.clients[k2].sock
  {
  }

  // ---------------------------------------------------------------------
  // Stale events.
  // ---------------------------------------------------------------------

  /**
   * A break of any socket other than the one recorded for session `k`
   * leaves `k`'s entry as it was: a superseded connection cannot tear down
   * the session that replaced it.
   */
  lemma BrokenKeepsOtherSessions(st: GateState, maxQueue: nat, s: SocketId, k: string)
    requires Inv(st, maxQueue)
    requires k in st.clients && st.clients[k].sock != Live(s)
    ensures k in BrokenStep(st, s).clients && BrokenStep(st, s).clients[k] == st.clients[k]
  {
  }

  /**
   * A verification answer for a socket whose break was already handled
   * changes nothing: no entry is made or altered and nothing is closed.
   */
  lemma ReplyAfterBreakIsIgnored(st: GateState, maxQueue: nat, s: SocketId, reply: OnlineReply)
    requires Inv(st, maxQueue)
    ensures s !in BrokenStep(st, s).waitVerify
    ensures VerifyCallbackStep(BrokenStep(st, s), s, reply) == BrokenStep(st, s)
  {
  }
}
