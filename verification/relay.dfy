/**
 * The server relay registry (src/services/WebSocketManager.js).
 *
 * One manager owns two registries: client id to client socket, and the key
 * `clientId-agentId` to the provider (text-to-speech) socket opened for that
 * agent. Sockets are abstract ids; the network is two logs: every frame
 * handed to a socket's `send`, in order, and every socket `close` was called on.
 * The listeners the code registers on a provider socket are closures over the
 * request; their captured values are kept in `listeners`.
 */
module Relay {
  import opened Wrappers
  import Config

  datatype SocketId = ClientSocket(n: nat) | ProviderSocket(n: nat)

  /** A client frame after `JSON.parse` and destructuring of `{agentId, text}`. */
  datatype ClientRequest = Unparsable | Request(agentId: string, text: string)

  /** The JSON objects the relay sends to a browser client. */
  datatype ClientFrame =
    | ServerError(error: string)                   // {error}
    | AgentAudio(agentId: string, audio: string)   // {agentId, audio}
    | AgentFinished(agentId: string)               // {agentId, status: 'finished'}
    | AgentError(agentId: string, error: string)   // {agentId, error}

  /** The JSON objects the relay sends to the provider. */
  datatype ProviderFrame =
    | Priming(text: string, xiApiKey: string, tryTriggerGeneration: bool,
              stability: real, similarityBoost: real)
    | TextInput(text: string)

  /**
   * A provider frame after `JSON.parse`: `audio` is the empty string when the
   * field is absent, null or empty (all falsy), `isFinal` is its truthiness.
   */
  datatype ProviderReply = ProviderReply(audio: string, isFinal: bool)

  datatype Payload = ToClient(frame: ClientFrame) | ToProvider(request: ProviderFrame)

  /** One call of `send` on a socket. */
  datatype Delivery = Delivery(socket: SocketId, payload: Payload)

  /** What the open/message/error listeners of one provider socket close over. */
  datatype Binding = Binding(
    clientId: string, client: SocketId, agentId: string, text: string,
    profile: Config.AgentProfile, url: string)

  const InternalServerError := "Internal Server Error"
  const InvalidAgent := "INVALID_AGENT"
  const ElevenLabsError := "ELEVENLABS_ERROR"
  const ClientIdPrefix := "client-"

  /** The registry key of the provider connection of one agent of one client. */
  function ConnectionKey(clientId: string, agentId: string): string
  {
    clientId + "-" + agentId
  }

  /** The streaming endpoint opened for an agent. */
  function StreamUrl(profile: Config.AgentProfile): string
  {
    "wss://api.elevenlabs.io/v1/text-to-speech/" + profile.voiceId + "/stream-input?"
      + "model_id=" + profile.modelId + "&output_format=pcm_44100"
  }

  predicate IsBase36Digit(c: char)
  {
    ('0' <= c <= '9') || ('a' <= c <= 'z')
  }

  /**
   * The shape of `generateClientId()`: `client-` followed by at most nine
   * base-36 digits of a random fraction. No id of this shape has a `-` after
   * its prefix.
   */
  predicate IsGeneratedClientId(id: string)
  {
    && |ClientIdPrefix| <= |id| <= |ClientIdPrefix| + 9
    && id[..|ClientIdPrefix|] == ClientIdPrefix
    && forall i | |ClientIdPrefix| <= i < |id| :: IsBase36Digit(id[i])
  }

  /** `key.startsWith(prefix)`. */
  predicate HasPrefix(key: string, prefix: string)
  {
    |prefix| <= |key| && key[..|prefix|] == prefix
  }

  /** The entries a disconnect of the owner of `prefix` leaves in place. */
  function WithoutPrefix(m: map<string, SocketId>, prefix: string): map<string, SocketId>
  {
    map k | k in m && !HasPrefix(k, prefix) :: m[k]
  }

  /**
   * The registry part-way through a disconnect sweep: the entries not yet
   * visited, and the visited ones that do not start with `prefix`.
   */
  ghost function Swept(m: map<string, SocketId>, remaining: set<string>, prefix: string): map<string, SocketId>
  {
    map k | k in m && (k in remaining || !HasPrefix(k, prefix)) :: m[k]
  }

  /** One step of the sweep: visiting `key` drops it exactly when it starts with `prefix`. */
  lemma SweepStep(m: map<string, SocketId>, remaining: set<string>, prefix: string, key: string)
    requires key in remaining && remaining <= m.Keys
    ensures HasPrefix(key, prefix) ==> Swept(m, remaining - {key}, prefix) == Swept(m, remaining, prefix) - {key}
    ensures !HasPrefix(key, prefix) ==> Swept(m, remaining - {key}, prefix) == Swept(m, remaining, prefix)
    ensures key in Swept(m, remaining, prefix) && Swept(m, remaining, prefix)[key] == m[key]
  {
  }

  /** The sockets stored under `keys`, in the order of `keys`. */
  function SocketsAt(m: map<string, SocketId>, keys: seq<string>): seq<SocketId>
    requires forall k | k in keys :: k in m
  {
    if keys == [] then [] else SocketsAt(m, keys[..|keys| - 1]) + [m[keys[|keys| - 1]]]
  }

  /** `order` lists every key of `keys` exactly once. */
  ghost predicate Enumerates(order: seq<string>, keys: set<string>)
  {
    && (forall k :: k in order <==> k in keys)
    && (forall i, j | 0 <= i < j < |order| :: order[i] != order[j])
  }

  /**
   * The disconnect filter `key.startsWith(clientId + '-')` selects exactly the
   * keys of that client, provided both ids have the generated shape. (For
   * arbitrary ids it does not: `c` would also match the keys of `c-x`.)
   */
  lemma PrefixMatchIsOwnerMatch(clientId: string, owner: string, agentId: string)
    requires IsGeneratedClientId(clientId) && IsGeneratedClientId(owner)
    ensures HasPrefix(ConnectionKey(owner, agentId), clientId + "-") <==> owner == clientId
  {
    var key, prefix := ConnectionKey(owner, agentId), clientId + "-";
    if HasPrefix(key, prefix) {
      var n := |clientId|;
      if |owner| > n {
        PrefixedAt(key, prefix, n);
        assert false;
      } else if |owner| < n {
        PrefixedAt(key, prefix, |owner|);
        assert false;
      }
      assert owner == key[..n];
    }
  }

  /** A key that starts with `prefix` agrees with it at every index of `prefix`. */
  lemma PrefixedAt(key: string, prefix: string, i: nat)
    ensures HasPrefix(key, prefix) && i < |prefix| ==> key[i] == prefix[i]
  {
    if HasPrefix(key, prefix) && i < |prefix| {
      assert key[..|prefix|][i] == key[i];
    }
  }

  /** A second disconnect of the same client removes nothing more. */
  lemma WithoutPrefixIdempotent(m: map<string, SocketId>, prefix: string)
    ensures WithoutPrefix(WithoutPrefix(m, prefix), prefix) == WithoutPrefix(m, prefix)
  {
  }

  /**
   * One step of the sweep on the ghost visit order: a visited key that
   * starts with `prefix` is appended, distinct from the keys before it.
   */
  lemma SweepVisit(original: map<string, SocketId>, remaining: set<string>, prefix: string, key: string,
                   visited: seq<string>)
    requires key in remaining && remaining <= original.Keys
    requires forall k :: k in visited <==> k in original && k !in remaining && HasPrefix(k, prefix)
    requires forall i, j | 0 <= i < j < |visited| :: visited[i] != visited[j]
    ensures HasPrefix(key, prefix) ==>
              var next := visited + [key];
              && (forall k :: k in next <==> k in original && k !in remaining - {key} && HasPrefix(k, prefix))
              && (forall i, j | 0 <= i < j < |next| :: next[i] != next[j])
    ensures !HasPrefix(key, prefix) ==>
              forall k :: k in visited <==> k in original && k !in remaining - {key} && HasPrefix(k, prefix)
  {
    if HasPrefix(key, prefix) {
      assert key !in visited;
    }
  }

  /** Closing the socket of one more key extends the close log by that socket. */
  lemma CloseLogSnoc(m: map<string, SocketId>, keys: seq<string>, k: string,
                     log: seq<SocketId>, base: seq<SocketId>)
    requires forall x | x in keys :: x in m
    requires k in m
    requires log == base + SocketsAt(m, keys)
    ensures log + [m[k]] == base + SocketsAt(m, keys + [k])
  {
    SocketsAtSnoc(m, keys, k);
  }

  lemma {:induction false} SocketsAtSnoc(m: map<string, SocketId>, keys: seq<string>, k: string)
    requires forall x | x in keys :: x in m
    requires k in m
    ensures SocketsAt(m, keys + [k]) == SocketsAt(m, keys) + [m[k]]
  {
    assert (keys + [k])[..|keys|] == keys;
  }

  /** `SocketsAt` has one socket per key, the one stored under that key. */
  lemma {:induction false} SocketsAtIndex(m: map<string, SocketId>, keys: seq<string>)
    requires forall k | k in keys :: k in m
    ensures |SocketsAt(m, keys)| == |keys|
    ensures forall i | 0 <= i < |keys| :: SocketsAt(m, keys)[i] == m[keys[i]]
  {
    if keys != [] {
      SocketsAtIndex(m, keys[..|keys| - 1]);
    }
  }

  /** An enumeration of a set of keys has as many elements as the set. */
  lemma {:induction false} EnumerationSize(order: seq<string>, keys: set<string>)
    requires Enumerates(order, keys)
    ensures |order| == |keys|
  {
    if order != [] {
      var last := order[|order| - 1];
      var front := order[..|order| - 1];
      assert order == front + [last];
      forall k ensures k in front <==> k in keys - {last} {
        if k in front {
          var i :| 0 <= i < |front| && front[i] == k;
          assert order[i] != order[|order| - 1];
        }
      }
      EnumerationSize(front, keys - {last});
    } else {
      assert forall k :: k !in keys;
    }
  }

  /**
   * Every registered provider socket has listeners whose client and agent
   * give back its key; every socket with listeners was opened by the manager
   * for a generated client id and a configured agent.
   */
  ghost predicate Consistent(registry: map<string, SocketId>, listeners: map<SocketId, Binding>,
                             providerCount: nat, agents: map<string, Config.AgentProfile>)
  {
    && (forall k | k in registry ::
          && registry[k] in listeners
          && ConnectionKey(listeners[registry[k]].clientId, listeners[registry[k]].agentId) == k)
    && (forall p | p in listeners ::
          && p.ProviderSocket? && p.n < providerCount
          && IsGeneratedClientId(listeners[p].clientId)
          && listeners[p].agentId in agents)
  }

  /** Dropping entries from a consistent registry keeps it consistent. */
  lemma RegistrySubmap(sub: map<string, SocketId>, registry: map<string, SocketId>,
                       listeners: map<SocketId, Binding>, providerCount: nat,
                       agents: map<string, Config.AgentProfile>)
    requires Consistent(registry, listeners, providerCount, agents)
    requires forall k | k in sub :: k in registry && sub[k] == registry[k]
    ensures Consistent(sub, listeners, providerCount, agents)
  {
  }

  /**
   * At the end of the sweep the registry is the original without the
   * prefixed entries, and the visit order lists exactly the removed keys.
   */
  lemma SweepDone(original: map<string, SocketId>, remaining: set<string>, prefix: string, visited: seq<string>)
    requires remaining == {}
    requires forall k :: k in visited <==> k in original && k !in remaining && HasPrefix(k, prefix)
    requires forall i, j | 0 <= i < j < |visited| :: visited[i] != visited[j]
    ensures Swept(original, remaining, prefix) == WithoutPrefix(original, prefix)
    ensures Enumerates(visited, original.Keys - WithoutPrefix(original, prefix).Keys)
    ensures forall k | k in visited :: k in original
  {
  }

  class WebSocketManager {
    /** The module-level configuration the class reads. */
    const config: Config.AppConfig
    /** `this.connections`: client id to client socket. */
    var connections: map<string, SocketId>
    /** `this.elevenlabsConnections`: `clientId-agentId` to provider socket. */
    var elevenlabsConnections: map<string, SocketId>
    /** The listeners registered on each provider socket ever opened. */
    var listeners: map<SocketId, Binding>
    /** Number of provider sockets opened so far; the next one gets this index. */
    var providerCount: nat
    /** Every `send`, in order. */
    var sent: seq<Delivery>
    /** Every `close`, in order. */
    var closed: seq<SocketId>

    /**
     * Every registered provider socket has listeners whose client and agent
     * give back its key; every socket with listeners was opened by this manager.
     */
    ghost predicate Valid()
      reads this
    {
      Consistent(elevenlabsConnections, listeners, providerCount, config.agents)
    }

    constructor (config: Config.AppConfig)
      ensures Valid()
      ensures this.config == config
      ensures connections == map[] && elevenlabsConnections == map[]
      ensures listeners == map[] && providerCount == 0 && sent == [] && closed == []
    {
      this.config := config;
      connections := map[];
      elevenlabsConnections := map[];
      listeners := map[];
      providerCount := 0;
      sent := [];
      closed := [];
    }

    /** A new client socket is registered under its generated id. */
    method HandleConnection(ws: SocketId, clientId: string)
      requires Valid() && IsGeneratedClientId(clientId)
      modifies this`connections
      ensures Valid()
      ensures connections == old(connections)[clientId := ws]
    {
      connections := connections[clientId := ws];
    }

    /**
     * A client frame, including the `try/catch` around it: a frame that does
     * not parse gets `{error: 'Internal Server Error'}`, an unknown agent gets
     * `{error: 'INVALID_AGENT'}`, and neither opens anything. A known agent
     * gets a fresh provider socket stored under `clientId-agentId`, replacing
     * (without closing) whatever was stored there.
     */
    method HandleMessage(clientId: string, ws: SocketId, message: ClientRequest)
      requires Valid() && IsGeneratedClientId(clientId)
      modifies this`elevenlabsConnections, this`listeners, this`providerCount, this`sent
      ensures Valid()
      ensures closed == old(closed)
      ensures message.Unparsable? ==>
                && sent == old(sent) + [Delivery(ws, ToClient(ServerError(InternalServerError)))]
                && unchanged(this`elevenlabsConnections, this`listeners, this`providerCount)
      ensures message.Request? && message.agentId !in config.agents ==>
                && sent == old(sent) + [Delivery(ws, ToClient(ServerError(InvalidAgent)))]
                && unchanged(this`elevenlabsConnections, this`listeners, this`providerCount)
      ensures message.Request? && message.agentId in config.agents ==>
                var provider := ProviderSocket(old(providerCount));
                var profile := config.agents[message.agentId];
                && provider !in old(listeners)
                && elevenlabsConnections ==
                     old(elevenlabsConnections)[ConnectionKey(clientId, message.agentId) := provider]
                && listeners == old(listeners)[provider := Binding(
                     clientId, ws, message.agentId, message.text, profile, StreamUrl(profile))]
                && providerCount == old(providerCount) + 1
                && sent == old(sent)
    {
      if message.Unparsable? {
        sent := sent + [Delivery(ws, ToClient(ServerError(InternalServerError)))];
        return;
      }
      var agentId, text := message.agentId, message.text;
      if agentId !in config.agents {
        sent := sent + [Delivery(ws, ToClient(ServerError(InvalidAgent)))];
        return;
      }
      var profile := config.agents[agentId];
      var provider := ProviderSocket(providerCount);
      providerCount := providerCount + 1;
      elevenlabsConnections := elevenlabsConnections[ConnectionKey(clientId, agentId) := provider];
      listeners := listeners[provider := Binding(clientId, ws, agentId, text, profile, StreamUrl(profile))];
    }

    /** The provider socket opened: the priming frame, then the client's text unchanged. */
    method OnProviderOpen(provider: SocketId)
      requires Valid() && provider in listeners
      modifies this`sent
      ensures Valid()
      ensures var b := listeners[provider];
        sent == old(sent) + [
          Delivery(provider, ToProvider(Priming(" ", config.apiKey, true,
            b.profile.settings.stability, b.profile.settings.similarityBoost))),
          Delivery(provider, ToProvider(TextInput(b.text)))]
    {
      var b := listeners[provider];
      var settings := b.profile.settings;
      sent := sent + [Delivery(provider, ToProvider(Priming(" ", config.apiKey, true,
        settings.stability, settings.similarityBoost)))];
      sent := sent + [Delivery(provider, ToProvider(TextInput(b.text)))];
    }

    /**
     * A provider frame: audio, if any, is forwarded to the owning client tagged
     * with the agent; a final frame then sends `finished` and cleans up the key,
     * closing whatever socket is stored under it now.
     */
    method OnProviderMessage(provider: SocketId, reply: ProviderReply)
      requires Valid() && provider in listeners
      modifies this`sent, this`elevenlabsConnections, this`closed
      ensures Valid()
      ensures var b := listeners[provider];
        && sent == old(sent)
             + (if reply.audio != "" then [Delivery(b.client, ToClient(AgentAudio(b.agentId, reply.audio)))] else [])
             + (if reply.isFinal then [Delivery(b.client, ToClient(AgentFinished(b.agentId)))] else [])
      ensures var key := ConnectionKey(listeners[provider].clientId, listeners[provider].agentId);
        if reply.isFinal && key in old(elevenlabsConnections) then
          && elevenlabsConnections == old(elevenlabsConnections) - {key}
          && closed == old(closed) + [old(elevenlabsConnections)[key]]
        else
          && elevenlabsConnections == old(elevenlabsConnections)
          && closed == old(closed)
    {
      var b := listeners[provider];
      if reply.audio != "" {
        sent := sent + [Delivery(b.client, ToClient(AgentAudio(b.agentId, reply.audio)))];
      }
      if reply.isFinal {
        sent := sent + [Delivery(b.client, ToClient(AgentFinished(b.agentId)))];
        CleanupElevenLabsConnection(b.clientId, b.agentId);
      }
    }

    /** A provider transport error: the client is told, the key is cleaned up. */
    method OnProviderError(provider: SocketId)
      requires Valid() && provider in listeners
      modifies this`sent, this`elevenlabsConnections, this`closed
      ensures Valid()
      ensures var b := listeners[provider];
        sent == old(sent) + [Delivery(b.client, ToClient(AgentError(b.agentId, ElevenLabsError)))]
      ensures var key := ConnectionKey(listeners[provider].clientId, listeners[provider].agentId);
        if key in old(elevenlabsConnections) then
          && elevenlabsConnections == old(elevenlabsConnections) - {key}
          && closed == old(closed) + [old(elevenlabsConnections)[key]]
        else
          && elevenlabsConnections == old(elevenlabsConnections)
          && closed == old(closed)
    {
      var b := listeners[provider];
      sent := sent + [Delivery(b.client, ToClient(AgentError(b.agentId, ElevenLabsError)))];
      CleanupElevenLabsConnection(b.clientId, b.agentId);
    }

    /**
     * Closes and forgets whatever socket is stored under the key now, which
     * need not be the socket whose listener asked; no-op when the key is absent.
     */
    method CleanupElevenLabsConnection(clientId: string, agentId: string)
      requires Valid()
      modifies this`elevenlabsConnections, this`closed
      ensures Valid()
      ensures var key := ConnectionKey(clientId, agentId);
        if key in old(elevenlabsConnections) then
          && elevenlabsConnections == old(elevenlabsConnections) - {key}
          && closed == old(closed) + [old(elevenlabsConnections)[key]]
        else
          && elevenlabsConnections == old(elevenlabsConnections)
          && closed == old(closed)
    {
      var key := ConnectionKey(clientId, agentId);
      if key in elevenlabsConnections {
        var connection := elevenlabsConnections[key];
        closed := closed + [connection];
        elevenlabsConnections := elevenlabsConnections - {key};
      }
    }

    /**
     * The client socket closed: its id is forgotten, and every provider entry
     * whose key starts with `clientId-` is closed and removed, each once, in
     * the order `visited`; every other entry stays.
     */
    method HandleDisconnect(clientId: string) returns (ghost visited: seq<string>)
      requires Valid()
      modifies this`connections, this`elevenlabsConnections, this`closed
      ensures Valid()
      ensures connections == old(connections) - {clientId}
      ensures elevenlabsConnections == WithoutPrefix(old(elevenlabsConnections), clientId + "-")
      ensures Enumerates(visited, old(elevenlabsConnections).Keys - elevenlabsConnections.Keys)
      ensures forall k | k in visited :: k in old(elevenlabsConnections)
      ensures closed == old(closed) + SocketsAt(old(elevenlabsConnections), visited)
    {
      var prefix := clientId + "-";
      connections := connections - {clientId};
      ghost var original := elevenlabsConnections;
      var remaining := elevenlabsConnections.Keys;
      visited := [];
      while remaining != {}
        invariant connections == old(connections) - {clientId}
        invariant remaining <= original.Keys
        invariant elevenlabsConnections == Swept(original, remaining, prefix)
        invariant forall k :: k in visited <==> k in original && k !in remaining && HasPrefix(k, prefix)
        invariant forall i, j | 0 <= i < j < |visited| :: visited[i] != visited[j]
        invariant closed == old(closed) + SocketsAt(original, visited)
        decreases remaining
      {
        var key :| key in remaining;
        SweepStep(original, remaining, prefix, key);
        SweepVisit(original, remaining, prefix, key, visited);
        if HasPrefix(key, prefix) {
          var connection := elevenlabsConnections[key];
          CloseLogSnoc(original, visited, key, closed, old(closed));
          closed := closed + [connection];
          elevenlabsConnections := elevenlabsConnections - {key};
          visited := visited + [key];
        }
        remaining := remaining - {key};
      }
      SweepDone(original, remaining, prefix, visited);
      RegistrySubmap(WithoutPrefix(original, prefix), original, listeners, providerCount, config.agents);
    }

    /** `handleError` delegates to `handleDisconnect`. */
    method HandleError(clientId: string) returns (ghost visited: seq<string>)
      requires Valid()
      modifies this`connections, this`elevenlabsConnections, this`closed
      ensures Valid()
      ensures connections == old(connections) - {clientId}
      ensures elevenlabsConnections == WithoutPrefix(old(elevenlabsConnections), clientId + "-")
      ensures Enumerates(visited, old(elevenlabsConnections).Keys - elevenlabsConnections.Keys)
      ensures forall k | k in visited :: k in old(elevenlabsConnections)
      ensures closed == old(closed) + SocketsAt(old(elevenlabsConnections), visited)
    {
      visited := HandleDisconnect(clientId);
    }

    /** Calls `close` on the socket of every entry of `m`, each once, in the order `order`. */
    method CloseEach(m: map<string, SocketId>) returns (ghost order: seq<string>)
      modifies this`closed
      ensures Enumerates(order, m.Keys)
      ensures closed == old(closed) + SocketsAt(m, order)
    {
      var remaining := m.Keys;
      order := [];
      while remaining != {}
        invariant remaining <= m.Keys
        invariant forall k :: k in order <==> k in m && k !in remaining
        invariant forall i, j | 0 <= i < j < |order| :: order[i] != order[j]
        invariant closed == old(closed) + SocketsAt(m, order)
        decreases remaining
      {
        var key :| key in remaining;
        closed := closed + [m[key]];
        SocketsAtSnoc(m, order, key);
        order := order + [key];
        remaining := remaining - {key};
      }
    }

    /**
     * Process teardown: `close` on every client socket, then on every provider
     * socket; neither registry loses an entry.
     */
    method Shutdown() returns (ghost clientOrder: seq<string>, ghost providerOrder: seq<string>)
      requires Valid()
      modifies this`closed
      ensures Valid()
      ensures Enumerates(clientOrder, connections.Keys)
      ensures Enumerates(providerOrder, elevenlabsConnections.Keys)
      ensures closed == old(closed) + SocketsAt(connections, clientOrder)
                                    + SocketsAt(elevenlabsConnections, providerOrder)
    {
      clientOrder := CloseEach(connections);
      providerOrder := CloseEach(elevenlabsConnections);
    }
  }

  /**
   * In a consistent registry, the prefix test of a disconnect removes exactly
   * the entries opened for that client and keeps every other client's.
   */
  lemma DisconnectRemovesExactlyOwnEntries(mgr: WebSocketManager, clientId: string)
    requires mgr.Valid() && IsGeneratedClientId(clientId)
    ensures forall k | k in mgr.elevenlabsConnections ::
              (k in WithoutPrefix(mgr.elevenlabsConnections, clientId + "-")
               <==> mgr.listeners[mgr.elevenlabsConnections[k]].clientId != clientId)
  {
    forall k | k in mgr.elevenlabsConnections
      ensures (k in WithoutPrefix(mgr.elevenlabsConnections, clientId + "-")
               <==> mgr.listeners[mgr.elevenlabsConnections[k]].clientId != clientId)
    {
      var b := mgr.listeners[mgr.elevenlabsConnections[k]];
      PrefixMatchIsOwnerMatch(clientId, b.clientId, b.agentId);
    }
  }
}
