/**
 * The connection registry of the backend: for each session id, the set of
 * WebSocket connections that follow it. The lock and the awaits are left
 * out; each operation runs as one step. Whether a send fails is an input:
 * the set of connections whose `send_text` raises during a broadcast.
 */
module WebSockets {
  import opened Models

  /** A client connection; only its identity matters here. */
  datatype WebSocket = WebSocket(id: nat)

  type Registry = map<string, set<WebSocket>>

  /** `connect`: add the connection to its session's set, creating the set if needed. */
  function ConnectMap(m: Registry, sessionId: string, ws: WebSocket): (r: Registry)
    ensures sessionId in r && ws in r[sessionId]
    ensures r.Keys == m.Keys + {sessionId}
    ensures forall k :: k in m && k != sessionId ==> r[k] == m[k]
    ensures sessionId in m ==> r[sessionId] == m[sessionId] + {ws}
    ensures sessionId !in m ==> r[sessionId] == {ws}
  {
    var conns := if sessionId in m then m[sessionId] else {};
    m[sessionId := conns + {ws}]
  }

  /** `disconnect`: discard the connection, and drop the session once its set is empty. */
  function DisconnectMap(m: Registry, sessionId: string, ws: WebSocket): (r: Registry)
    ensures sessionId in r ==> sessionId in m && ws !in r[sessionId] && r[sessionId] == m[sessionId] - {ws} && r[sessionId] != {}
    ensures sessionId in m && sessionId !in r ==> m[sessionId] - {ws} == {}
    ensures r.Keys <= m.Keys && r.Keys + {sessionId} >= m.Keys
    ensures forall k :: k in m && k != sessionId ==> k in r && r[k] == m[k]
  {
    if sessionId in m then
      var rest := m[sessionId] - {ws};
      if rest == {} then m - {sessionId} else m[sessionId := rest]
    else m
  }

  /** The registry after a broadcast to `sessionId` during which the sends to `failing` raised. */
  function BroadcastMap(m: Registry, sessionId: string, failing: set<WebSocket>): (r: Registry)
    ensures r.Keys == m.Keys
    ensures sessionId in m ==> r[sessionId] == m[sessionId] - failing
    ensures forall k :: k in m && k != sessionId ==> r[k] == m[k]
  {
    if sessionId in m then m[sessionId := m[sessionId] - failing] else m
  }

  /** No session is listed with an empty set of connections. */
  predicate NoEmptySets(m: Registry)
  {
    forall k :: k in m ==> m[k] != {}
  }

  /** Adding a connection that is already there changes nothing. */
  lemma ConnectIdempotent(m: Registry, sessionId: string, ws: WebSocket)
    ensures ConnectMap(ConnectMap(m, sessionId, ws), sessionId, ws) == ConnectMap(m, sessionId, ws)
  {
  }

  /** Disconnecting a connection just connected restores the registry, when no set was empty and it was new. */
  lemma DisconnectUndoesConnect(m: Registry, sessionId: string, ws: WebSocket)
    requires NoEmptySets(m)
    requires sessionId in m ==> ws !in m[sessionId]
    ensures DisconnectMap(ConnectMap(m, sessionId, ws), sessionId, ws) == m
  {
    var c := ConnectMap(m, sessionId, ws);
    if sessionId in m {
      assert c[sessionId] - {ws} == m[sessionId];
    } else {
      assert c[sessionId] - {ws} == {};
      assert c - {sessionId} == m;
    }
  }

  /**
   * `disconnect` changes nothing for an unknown session, or for a connection
   * that is not in a non-empty set.
   */
  lemma DisconnectAbsentIsNoop(m: Registry, sessionId: string, ws: WebSocket)
    requires sessionId !in m || (ws !in m[sessionId] && m[sessionId] != {})
    ensures DisconnectMap(m, sessionId, ws) == m
  {
    if sessionId in m {
      assert m[sessionId] - {ws} == m[sessionId];
    }
  }

  /** `connect` and `disconnect` keep every listed set non-empty. */
  lemma ConnectDisconnectKeepNoEmptySets(m: Registry, sessionId: string, ws: WebSocket)
    requires NoEmptySets(m)
    ensures NoEmptySets(ConnectMap(m, sessionId, ws))
    ensures NoEmptySets(DisconnectMap(m, sessionId, ws))
  {
  }

  /**
   * `broadcast` does not: when every send to a session fails, its key stays
   * with an empty set. A later `disconnect` of any connection then removes it.
   */
  lemma BroadcastCanLeaveEmptySet()
    ensures var m: Registry := map["s" := {WebSocket(1)}];
            var b := BroadcastMap(m, "s", {WebSocket(1)});
            NoEmptySets(m) && !NoEmptySets(b) && b == map["s" := {}]
            && DisconnectMap(b, "s", WebSocket(2)) == map[]
  {
    var m: Registry := map["s" := {WebSocket(1)}];
    var b := BroadcastMap(m, "s", {WebSocket(1)});
    assert b["s"] == {};
    assert DisconnectMap(b, "s", WebSocket(2)) == b - {"s"};
  }

  /** The registry, updated in place. */
  class WebSocketManager {
    var activeConnections: Registry

    constructor()
      ensures activeConnections == map[]
    {
      activeConnections := map[];
    }

    method Connect(sessionId: string, ws: WebSocket)
      modifies this
      ensures activeConnections == ConnectMap(old(activeConnections), sessionId, ws)
    {
      if sessionId !in activeConnections {
        activeConnections := activeConnections[sessionId := {}];
      }
      activeConnections := activeConnections[sessionId := activeConnections[sessionId] + {ws}];
    }

    method Disconnect(sessionId: string, ws: WebSocket)
      modifies this
      ensures activeConnections == DisconnectMap(old(activeConnections), sessionId, ws)
    {
      if sessionId in activeConnections {
        activeConnections := activeConnections[sessionId := activeConnections[sessionId] - {ws}];
        if activeConnections[sessionId] == {} {
          activeConnections := activeConnections - {sessionId};
        }
      }
    }

    /**
     * Send the session's full results to each of its connections, collecting
     * the ones whose send fails, then discard those. `delivered` is the set
     * of connections the message reached.
     */
    method Broadcast(sessionId: string, results: seq<EstimationResult>, failing: set<WebSocket>)
      returns (message: WebSocketMessage, delivered: set<WebSocket>)
      modifies this
      ensures message == WebSocketMessage(sessionId, results)
      ensures activeConnections == BroadcastMap(old(activeConnections), sessionId, failing)
      ensures sessionId in old(activeConnections) ==> delivered == old(activeConnections)[sessionId] - failing
      ensures sessionId !in old(activeConnections) ==> delivered == {}
    {
      message := WebSocketMessage(sessionId, results);
      delivered := {};
      if sessionId in activeConnections {
        var disconnected;
        delivered, disconnected := SendToEach(activeConnections[sessionId], failing);
        DiscardEach(sessionId, disconnected);
        assert old(activeConnections)[sessionId] - disconnected == old(activeConnections)[sessionId] - failing;
      }
    }

    /** Discard each of `dropped` from the session's set, one at a time. */
    method DiscardEach(sessionId: string, dropped: set<WebSocket>)
      requires sessionId in activeConnections
      modifies this
      ensures activeConnections == old(activeConnections)[sessionId := old(activeConnections)[sessionId] - dropped]
    {
      var toDiscard := dropped;
      ghost var conns := activeConnections[sessionId];
      assert conns - (dropped - toDiscard) == conns;
      assert activeConnections == old(activeConnections)[sessionId := conns];
      while toDiscard != {}
        invariant toDiscard <= dropped
        invariant activeConnections == old(activeConnections)[sessionId := conns - (dropped - toDiscard)]
        decreases |toDiscard|
      {
        var c :| c in toDiscard;
        assert conns - (dropped - (toDiscard - {c})) == (conns - (dropped - toDiscard)) - {c};
        activeConnections := activeConnections[sessionId := activeConnections[sessionId] - {c}];
        toDiscard := toDiscard - {c};
      }
      assert dropped - toDiscard == dropped;
    }
  }

  /**
   * The send loop: every connection is tried once; the ones whose send
   * raises are collected as disconnected, the others received the message.
   */
  method SendToEach(conns: set<WebSocket>, failing: set<WebSocket>) returns (delivered: set<WebSocket>, disconnected: set<WebSocket>)
    ensures delivered == conns - failing
    ensures disconnected == conns * failing
  {
    delivered := {};
    disconnected := {};
    var pending := conns;
    while pending != {}
      invariant pending <= conns
      invariant disconnected == (conns - pending) * failing
      invariant delivered == (conns - pending) - failing
      decreases |pending|
    {
      var c :| c in pending;
      if c in failing {
        disconnected := disconnected + {c};
      } else {
        delivered := delivered + {c};
      }
      pending := pending - {c};
    }
  }
}
