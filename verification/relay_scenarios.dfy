/**
 * Event sequences that exhibit how the relay registry of
 * src/services/WebSocketManager.js behaves as written: a repeated request
 * for a busy agent orphans the earlier provider socket, the orphan's late
 * final frame tears down the newer one, and a disconnect sweeps exactly the
 * disconnecting client's entries.
 */
module RelayScenarios {
  import opened Relay
  import Config

  /**
   * Two requests of one client for the same agent, then the final frame of
   * the first provider socket, then the final frame of the second. The second
   * request replaces the first socket without closing it; the first socket's
   * final frame closes and removes the second; the second's own final frame
   * then finds nothing to clean up; the first socket is never closed. The
   * client is told `finished` twice.
   */
  method OrphanedStreamScenario(
    config: Config.AppConfig, clientId: string, ws: SocketId, first: string, second: string)
    returns (older: SocketId, newer: SocketId,
             closedAfterOverwrite: seq<SocketId>, closedAfterOrphanFinal: seq<SocketId>,
             closedAtEnd: seq<SocketId>, keyStoredAtEnd: bool, toClient: seq<Delivery>)
    requires "agent1" in config.agents && IsGeneratedClientId(clientId)
    ensures older != newer
    ensures closedAfterOverwrite == []
    ensures closedAfterOrphanFinal == [newer]
    ensures closedAtEnd == [newer] && older !in closedAtEnd
    ensures !keyStoredAtEnd
    ensures toClient == [Delivery(ws, ToClient(AgentFinished("agent1"))),
                         Delivery(ws, ToClient(AgentFinished("agent1")))]
  {
    var key := ConnectionKey(clientId, "agent1");
    var mgr;
    mgr, older, newer := RepeatedRequest(config, clientId, ws, first, second);
    closedAfterOverwrite := mgr.closed;
    mgr.OnProviderMessage(older, ProviderReply("", true));
    assert key !in mgr.elevenlabsConnections;
    assert mgr.sent == [Delivery(ws, ToClient(AgentFinished("agent1")))];
    closedAfterOrphanFinal := mgr.closed;
    mgr.OnProviderMessage(newer, ProviderReply("", true));
    closedAtEnd := mgr.closed;
    keyStoredAtEnd := key in mgr.elevenlabsConnections;
    toClient := mgr.sent;
  }

  /** One client asks the first agent to speak twice; the second socket replaces the first. */
  method RepeatedRequest(config: Config.AppConfig, clientId: string, ws: SocketId, first: string, second: string)
    returns (mgr: WebSocketManager, older: SocketId, newer: SocketId)
    requires "agent1" in config.agents && IsGeneratedClientId(clientId)
    ensures fresh(mgr) && mgr.Valid() && mgr.config == config
    ensures older == ProviderSocket(0) && newer == ProviderSocket(1)
    ensures mgr.elevenlabsConnections == map[ConnectionKey(clientId, "agent1") := newer]
    ensures older in mgr.listeners && newer in mgr.listeners
    ensures mgr.listeners[older].clientId == mgr.listeners[newer].clientId == clientId
    ensures mgr.listeners[older].agentId == mgr.listeners[newer].agentId == "agent1"
    ensures mgr.listeners[older].client == mgr.listeners[newer].client == ws
    ensures mgr.sent == [] && mgr.closed == []
  {
    var key := ConnectionKey(clientId, "agent1");
    mgr := new WebSocketManager(config);
    mgr.HandleConnection(ws, clientId);
    mgr.HandleMessage(clientId, ws, Request("agent1", first));
    older := mgr.elevenlabsConnections[key];
    assert older == ProviderSocket(0);
    mgr.HandleMessage(clientId, ws, Request("agent1", second));
    newer := mgr.elevenlabsConnections[key];
  }

  /** Keys of two different generated client ids never coincide. */
  lemma DistinctOwnersDistinctKeys(a: string, b: string, x: string, y: string)
    requires IsGeneratedClientId(a) && IsGeneratedClientId(b) && a != b
    ensures ConnectionKey(a, x) != ConnectionKey(b, y)
  {
    PrefixMatchIsOwnerMatch(a, b, y);
    assert HasPrefix(ConnectionKey(a, x), a + "-") by {
      assert ConnectionKey(a, x)[..|a + "-"|] == a + "-";
    }
  }

  /**
   * Client `a` has both agents busy and client `b` one; then `a` disconnects
   * and its close event fires again. The first disconnect closes exactly the
   * two provider sockets of `a` and keeps the entry of `b`; the repeated
   * disconnect closes nothing more.
   */
  method DisconnectScenario(
    config: Config.AppConfig, a: string, b: string, wsA: SocketId, wsB: SocketId)
    returns (closedLog: seq<SocketId>, remainingKeys: set<string>, closedAfterRepeat: seq<SocketId>)
    requires "agent1" in config.agents && "agent2" in config.agents
    requires IsGeneratedClientId(a) && IsGeneratedClientId(b) && a != b
    ensures |closedLog| == 2
    ensures forall s :: s in closedLog <==> s == ProviderSocket(0) || s == ProviderSocket(2)
    ensures remainingKeys == {ConnectionKey(b, "agent1")}
    ensures closedAfterRepeat == closedLog
  {
    var ka1, kb1, ka2 := ConnectionKey(a, "agent1"), ConnectionKey(b, "agent1"), ConnectionKey(a, "agent2");
    var mgr := ThreeStreams(config, a, b, wsA, wsB);
    var before := mgr.elevenlabsConnections;
    SweepOfThree(before, a, b);

    var visited := mgr.HandleDisconnect(a);
    ClosedBySweepOfTwo(before, visited, ka1, ka2);
    closedLog := mgr.closed;
    remainingKeys := mgr.elevenlabsConnections.Keys;

    var after := mgr.elevenlabsConnections;
    var again := mgr.HandleDisconnect(a);
    WithoutPrefixIdempotent(before, a + "-");
    assert after.Keys - mgr.elevenlabsConnections.Keys == {};
    EnumerationSize(again, {});
    closedAfterRepeat := mgr.closed;
  }

  /** Two clients connect; `a` asks both agents to speak and `b` the first one. */
  method ThreeStreams(
    config: Config.AppConfig, a: string, b: string, wsA: SocketId, wsB: SocketId)
    returns (mgr: WebSocketManager)
    requires "agent1" in config.agents && "agent2" in config.agents
    requires IsGeneratedClientId(a) && IsGeneratedClientId(b)
    ensures fresh(mgr) && mgr.Valid() && mgr.closed == []
    ensures mgr.elevenlabsConnections == map[
              ConnectionKey(a, "agent1") := ProviderSocket(0),
              ConnectionKey(b, "agent1") := ProviderSocket(1),
              ConnectionKey(a, "agent2") := ProviderSocket(2)]
  {
    mgr := new WebSocketManager(config);
    mgr.HandleConnection(wsA, a);
    mgr.HandleConnection(wsB, b);
    var registry: map<string, SocketId> := map[];
    mgr.HandleMessage(a, wsA, Request("agent1", "hello"));
    registry := registry[ConnectionKey(a, "agent1") := ProviderSocket(0)];
    assert mgr.elevenlabsConnections == registry && mgr.providerCount == 1;
    mgr.HandleMessage(b, wsB, Request("agent1", "hello"));
    registry := registry[ConnectionKey(b, "agent1") := ProviderSocket(1)];
    assert mgr.elevenlabsConnections == registry && mgr.providerCount == 2;
    mgr.HandleMessage(a, wsA, Request("agent2", "hello"));
  }

  /** Closing the sockets of an enumeration of two keys closes each of the two once. */
  lemma ClosedBySweepOfTwo(m: map<string, SocketId>, visited: seq<string>, k1: string, k2: string)
    requires Enumerates(visited, {k1, k2}) && k1 != k2 && k1 in m && k2 in m
    ensures forall k | k in visited :: k in m
    ensures |SocketsAt(m, visited)| == 2
    ensures forall s :: s in SocketsAt(m, visited) <==> s == m[k1] || s == m[k2]
  {
    EnumerationSize(visited, {k1, k2});
    SocketsAtIndex(m, visited);
    var closes := SocketsAt(m, visited);
    assert visited[0] in {k1, k2} && visited[1] in {k1, k2};
    assert visited == [k1, k2] || visited == [k2, k1];
    assert closes == [m[visited[0]], m[visited[1]]];
  }

  /** The disconnect sweep of `a` over the registry of the scenario above. */
  lemma SweepOfThree(m: map<string, SocketId>, a: string, b: string)
    requires IsGeneratedClientId(a) && IsGeneratedClientId(b) && a != b
    requires m == map[ConnectionKey(a, "agent1") := ProviderSocket(0),
                      ConnectionKey(b, "agent1") := ProviderSocket(1),
                      ConnectionKey(a, "agent2") := ProviderSocket(2)]
    ensures m.Keys - WithoutPrefix(m, a + "-").Keys == {ConnectionKey(a, "agent1"), ConnectionKey(a, "agent2")}
    ensures WithoutPrefix(m, a + "-").Keys == {ConnectionKey(b, "agent1")}
    ensures m[ConnectionKey(a, "agent1")] == ProviderSocket(0)
    ensures m[ConnectionKey(a, "agent2")] == ProviderSocket(2)
  {
    var ka1, kb1, ka2 := ConnectionKey(a, "agent1"), ConnectionKey(b, "agent1"), ConnectionKey(a, "agent2");
    DistinctOwnersDistinctKeys(a, b, "agent1", "agent1");
    DistinctOwnersDistinctKeys(a, b, "agent2", "agent1");
    assert ka1 != ka2 by { assert ka1[|ka1| - 1] != ka2[|ka2| - 1]; }
    PrefixMatchIsOwnerMatch(a, a, "agent1");
    PrefixMatchIsOwnerMatch(a, b, "agent1");
    PrefixMatchIsOwnerMatch(a, a, "agent2");
  }
}
