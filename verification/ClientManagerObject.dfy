/** ClientManager as an object: its Set and Map updated in place, its scans as loops. */
module ClientManagerObject {
  import opened Frames
  import CM = ClientManager
  import TunnelId

  /** A client, null, or the exception of normalizeTunnelId. */
  datatype Lookup = Client(ws: nat) | Nobody | Throws

  class ClientManager {
    const maxTunnelClients: nat

    /** The Set of clients in insertion order, the tunnel-id map, and each WebSocket's tunnelId. */
    var clients: seq<nat>
    var clientsByTunnelId: map<string, nat>
    var tunnelIds: map<nat, string>

    /** Which WebSockets are OPEN, those of tunnel clients and those of agents. */
    var openClients: set<nat>
    var openAgents: set<nat>

    function Val(): CM.Registry
      reads this
    {
      CM.Registry(clients, clientsByTunnelId, tunnelIds, openClients, openAgents)
    }

    constructor (max: nat)
      ensures maxTunnelClients == max && Val() == CM.Registry([], map[], map[], {}, {})
    {
      maxTunnelClients := max;
      clients, clientsByTunnelId, tunnelIds, openClients, openAgents := [], map[], map[], {}, {};
    }

    /** getActiveClient: the OPEN client whose buffer holds least; `load` is every bufferedAmount. */
    method GetActiveClient(load: map<nat, nat>) returns (best: Option<nat>)
      ensures best == CM.LeastLoaded(clients, openClients, load)
      ensures best.None? <==> forall ws :: ws in clients ==> ws !in openClients
      ensures best.Some? ==> best.value in clients && best.value in openClients
      ensures best.Some? ==> forall ws :: ws in clients && ws in openClients ==> CM.Load(load, best.value) <= CM.Load(load, ws)
      ensures best.Some? ==> exists k: nat :: CM.IsLeast(clients, openClients, load, k) && clients[k] == best.value
    {
      best := None;
      for i := 0 to |clients|
        invariant best == CM.LeastLoaded(clients[..i], openClients, load)
      {
        assert clients[..i + 1][..i] == clients[..i];
        var ws := clients[i];
        if ws in openClients {
          if best.None? || CM.Load(load, ws) < CM.Load(load, best.value) {
            best := Some(ws);
          }
        }
      }
      assert clients[..|clients|] == clients;
      CM.LeastLoadedOk(clients, openClients, load);
      CM.LeastLoadedFirst(clients, openClients, load);
    }

    /**
     * getClientByTunnelId: it throws exactly on an id that does not normalize, and otherwise finds the OPEN client
     * registered under the normalized id; an absent id names nobody.
     */
    method GetClientByTunnelId(tunnelId: string) returns (found: Lookup)
      ensures found.Throws? <==> TunnelId.Normalize(tunnelId).None?
      ensures found.Client? ==> var id := TunnelId.Normalize(tunnelId).value;
                id != "" && id in clientsByTunnelId && clientsByTunnelId[id] == found.ws && found.ws in openClients
      ensures found.Nobody? ==> var id := TunnelId.Normalize(tunnelId).value;
                id == "" || id !in clientsByTunnelId || clientsByTunnelId[id] !in openClients
      ensures CM.Indexed(Val()) && found.Client? ==> CM.Answers(Val(), found.ws, TunnelId.Normalize(tunnelId).value)
      ensures CM.Indexed(Val()) && found.Nobody? && TunnelId.Normalize(tunnelId).value != "" ==>
                forall other: nat :: !CM.Answers(Val(), other, TunnelId.Normalize(tunnelId).value)
    {
      hide TunnelId.Normalize, CM.Indexed, CM.Answers;
      var normalized := TunnelId.Normalize(tunnelId);
      if normalized.None? {
        return Throws;
      }
      var id := normalized.value;
      if id == "" {
        return Nobody;
      }
      if CM.Indexed(Val()) { CM.NamedIsMapped(Val(), id); }
      if id !in clientsByTunnelId || clientsByTunnelId[id] !in openClients {
        return Nobody;
      }
      return Client(clientsByTunnelId[id]);
    }

    /** resolveTargetClient; None stands for the error results. */
    method ResolveTargetClient(tunnelId: string) returns (r: Option<(nat, string)>)
      ensures r == CM.Resolve(Val(), tunnelId)
    {
      hide TunnelId.Normalize;
      var normalized := TunnelId.Normalize(tunnelId);
      if normalized.None? {
        return None;
      }
      if normalized.value != "" {
        var found := GetClientByTunnelId(normalized.value);
        if !found.Client? {
          return None;
        }
        return Some((found.ws, normalized.value));
      }
      var open: seq<nat> := [];
      for i := 0 to |clients|
        invariant open == CM.OpenOnes(clients[..i], openClients)
      {
        assert clients[..i + 1][..i] == clients[..i];
        if clients[i] in openClients {
          open := open + [clients[i]];
        }
      }
      assert clients[..|clients|] == clients;
      if |open| != 1 {
        return None;
      }
      return Some((open[0], if open[0] in tunnelIds then tunnelIds[open[0]] else ""));
    }

    /** addClient; false when the WebSocket is closed at once. */
    method AddClient(ws: nat, tunnelId: string) returns (ok: bool)
      modifies this
      ensures Val() == CM.AddClient(old(Val()), maxTunnelClients, ws, tunnelId)
      ensures ok == CM.Admits(old(Val()), maxTunnelClients, tunnelId)
    {
      hide TunnelId.Normalize;
      var normalized := TunnelId.Normalize(tunnelId);
      if normalized.None? {
        return false;
      }
      var id := normalized.value;
      if |clients| >= maxTunnelClients {
        return false;
      }
      if id != "" && id in clientsByTunnelId {
        if clientsByTunnelId[id] in openClients {
          return false;
        }
        clientsByTunnelId := clientsByTunnelId - {id};
      }
      tunnelIds := tunnelIds[ws := id];
      openClients := openClients + {ws};
      clients := clients + [ws];
      if id != "" {
        clientsByTunnelId := clientsByTunnelId[id := ws];
        assert clientsByTunnelId == old(clientsByTunnelId)[id := ws];
      }
      return true;
    }

    /** cleanupClient, the registry half. */
    method Forget(ws: nat)
      modifies this
      ensures Val() == CM.ForgetClient(old(Val()), ws)
    {
      clients := CM.Without(clients, ws);
      var id := if ws in tunnelIds then tunnelIds[ws] else "";
      if id != "" && id in clientsByTunnelId && clientsByTunnelId[id] == ws {
        clientsByTunnelId := clientsByTunnelId - {id};
      }
    }

    /** A WebSocket's readyState leaves OPEN. */
    method Close(ws: nat)
      modifies this
      ensures Val() == old(Val()).(openClients := old(openClients) - {ws}, openAgents := old(openAgents))
    {
      openClients := openClients - {ws};
    }
  }
}
