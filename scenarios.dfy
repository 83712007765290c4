/**
 * Runs of the gateway from a fresh object, each proved from the handlers'
 * contracts alone. Socket handles are small numbers and clock readings are
 * made up; the gateway is called "gate@0" with room for two queued bodies.
 */
module GateScenarios {
  import opened GateTypes
  import opened GateSpec
  import opened GateImpl

  /**
   * A client sends key "K1", session_mgr binds it to "S1" on "L1", and the
   * client's next body goes to "L1" at once.
   */
  method VerifiedFastPath() returns (log: seq<Effect>)
    ensures log == [
      Call(SESSION_MGR, GateSessionOnline("K1", 100, "gate@0"), VerifyCallback(1)),
      Call("L1", GateRouteLogicMsg("S1", "hello"), RouteCallback("S1", 1))]
  {
    var g := new Gate("gate@0", 2);
    g.HandleMsgImpl("K1", 1, 100);
    g.VerifySessionCallback(1, OnlineReply("S1", "", "L1"));
    g.HandleMsgImpl("hello", 1, 101);
    log := g.effects;
  }

  /**
   * Three bodies sent before any reply are each forwarded at once, and the
   * queue stays empty, so the reply to the first forwards nothing: as
   * written, several calls of one session can be in flight together.
   */
  method PipelinedBodies() returns (log: seq<Effect>, queue: seq<string>)
    ensures |log| == 4
    ensures log[1..] == [
      Call("L1", GateRouteLogicMsg("S1", "a"), RouteCallback("S1", 1)),
      Call("L1", GateRouteLogicMsg("S1", "b"), RouteCallback("S1", 1)),
      Call("L1", GateRouteLogicMsg("S1", "c"), RouteCallback("S1", 1))]
    ensures queue == []
  {
    var g := new Gate("gate@0", 2);
    g.HandleMsgImpl("K1", 1, 100);
    g.VerifySessionCallback(1, OnlineReply("S1", "", "L1"));
    g.HandleMsgImpl("a", 1, 101);
    g.HandleMsgImpl("b", 1, 102);
    g.HandleMsgImpl("c", 1, 103);
    g.RouteLogicMsgCallback("S1", 1);
    log := g.effects;
    queue := g.clients["S1"].requestQueue;
  }

  /**
   * Connection 1 logs in as "S1" on "L1", then connection 2 logs in as "S1"
   * on "L2": the common start of the supersession runs.
   */
  method TwoLoginsOfOneSession() returns (g: Gate)
    ensures fresh(g) && g.Valid() && g.gateName == "gate@0" && g.maxMsgQueueSize == 2
    ensures g.State() == GateState(
      map[1 := SessionData("S1", 100, true), 2 := SessionData("S1", 200, true)],
      {},
      map["S1" := ClientInfo(Live(2), "L2", [])],
      [Call(SESSION_MGR, GateSessionOnline("K1", 100, "gate@0"), VerifyCallback(1)),
       Call(SESSION_MGR, GateSessionOnline("K2", 200, "gate@0"), VerifyCallback(2)),
       Close(Live(1))])
  {
    g := new Gate("gate@0", 2);
    g.HandleMsgImpl("K1", 1, 100);
    assert g.State() == GateState(map[1 := SessionData("", 100, false)], {1}, map[],
      [Call(SESSION_MGR, GateSessionOnline("K1", 100, "gate@0"), VerifyCallback(1))]);
    g.VerifySessionCallback(1, OnlineReply("S1", "", "L1"));
    assert g.State() == GateState(map[1 := SessionData("S1", 100, true)], {}, map["S1" := ClientInfo(Live(1), "L1", [])],
      [Call(SESSION_MGR, GateSessionOnline("K1", 100, "gate@0"), VerifyCallback(1))]);
    g.HandleMsgImpl("K2", 2, 200);
    assert g.State() == GateState(
      map[1 := SessionData("S1", 100, true), 2 := SessionData("", 200, false)], {2},
      map["S1" := ClientInfo(Live(1), "L1", [])],
      [Call(SESSION_MGR, GateSessionOnline("K1", 100, "gate@0"), VerifyCallback(1)),
       Call(SESSION_MGR, GateSessionOnline("K2", 200, "gate@0"), VerifyCallback(2))]);
    g.VerifySessionCallback(2, OnlineReply("S1", "", "L2"));
  }

  /**
   * A second connection authenticates as "S1": the first is closed and the
   * second takes over; the first one's later break leaves the new entry and
   * tells session_mgr nothing.
   */
  method Supersession() returns (log: seq<Effect>, clients: map<string, ClientInfo>)
    ensures clients == map["S1" := ClientInfo(Live(2), "L2", [])]
    ensures log == [Call(SESSION_MGR, GateSessionOnline("K1", 100, "gate@0"), VerifyCallback(1)), Call(SESSION_MGR, GateSessionOnline("K2", 200, "gate@0"), VerifyCallback(2)), Close(Live(1)), Release(1)]
    ensures forall e :: e in log ==> !(e.Call? && e.request.GateSessionOffline?)
  {
    var g := TwoLoginsOfOneSession();
    g.HandleBrokenImpl(1);
    log := g.effects;
    clients := g.clients;
  }

  /** A verification answer that arrives after its connection broke changes nothing. */
  method StaleVerifyReply() returns (log: seq<Effect>, clients: map<string, ClientInfo>)
    ensures clients == map[]
    ensures log == [Call(SESSION_MGR, GateSessionOnline("K1", 100, "gate@0"), VerifyCallback(1)), Release(1)]
  {
    var g := new Gate("gate@0", 2);
    g.HandleMsgImpl("K1", 1, 100);
    g.HandleBrokenImpl(1);
    g.VerifySessionCallback(1, OnlineReply("S1", "", "L1"));
    log := g.effects;
    clients := g.clients;
  }

  /**
   * A rejected key closes the connection; a payload it still sends before
   * the break only closes it again, and no entry is ever made.
   */
  method RejectedKey() returns (log: seq<Effect>, clients: map<string, ClientInfo>)
    ensures clients == map[]
    ensures log == [
      Call(SESSION_MGR, GateSessionOnline("K1", 100, "gate@0"), VerifyCallback(1)),
      Close(Live(1)), Close(Live(1)), Release(1)]
  {
    var g := new Gate("gate@0", 2);
    g.HandleMsgImpl("K1", 1, 100);
    g.VerifySessionCallback(1, OnlineReply("", "bad key", ""));
    g.HandleMsgImpl("early", 1, 101);
    g.HandleBrokenImpl(1);
    log := g.effects;
    clients := g.clients;
  }

  /**
   * After a supersession, if the newer connection breaks first, the older
   * one's break finds no entry and `operator[]` leaves a default one behind
   * with a null socket; closing that session then closes a null socket.
   */
  method PhantomEntry() returns (log: seq<Effect>, clients: map<string, ClientInfo>)
    ensures clients == map["S1" := DEFAULT_CLIENT_INFO]
    ensures log == [
      Call(SESSION_MGR, GateSessionOnline("K1", 100, "gate@0"), VerifyCallback(1)),
      Call(SESSION_MGR, GateSessionOnline("K2", 200, "gate@0"), VerifyCallback(2)),
      Close(Live(1)),
      Call(SESSION_MGR, GateSessionOffline("S1", 200), NoCallback), Release(2),
      Release(1),
      Close(Null), Respond]
  {
    var g := TwoLoginsOfOneSession();
    g.HandleBrokenImpl(2);
    g.HandleBrokenImpl(1);
    g.CloseSession("S1");
    log := g.effects;
    clients := g.clients;
  }

  /**
   * Control-plane requests: an unknown id is neither changed nor answered;
   * a push to a mixed list reaches only the known session and is answered.
   */
  method ControlPlane() returns (log: seq<Effect>, clients: map<string, ClientInfo>)
    ensures clients == map["S1" := ClientInfo(Live(1), "L9", [])]
    ensures log == [Call(SESSION_MGR, GateSessionOnline("K1", 100, "gate@0"), VerifyCallback(1)), Respond, Send(Live(1), PUSH_CMD, "news"), Respond]
  {
    var g := new Gate("gate@0", 2);
    g.HandleMsgImpl("K1", 1, 100);
    g.VerifySessionCallback(1, OnlineReply("S1", "", "L1"));
    g.ChangeSessionLogic("S7", "L8");
    g.CloseSession("S7");
    g.ChangeSessionLogic("S1", "L9");
    g.RouteMsgToSession(["S7", "S1"], "news");
    log := g.effects;
    clients := g.clients;
  }
}
