/** ClientManager: the registry of tunnel clients, its tunnel-id map, and how a client is picked. */
module ClientManager {
  import opened Frames
  import TunnelId

  /** The clients (a JS Set, so in insertion order), the tunnel-id map, each WebSocket's tunnel id, and
      which WebSockets of tunnel clients and of agents are OPEN. */
  datatype Registry = Registry(clients: seq<nat>, byTunnel: map<string, nat>, tunnelOf: map<nat, string>,
                               openClients: set<nat>, openAgents: set<nat>)

  function Load(load: map<nat, nat>, ws: nat): nat {
    if ws in load then load[ws] else 0
  }

  /** getActiveClient: the first OPEN client with the least bufferedAmount. */
  function LeastLoaded(clients: seq<nat>, open: set<nat>, load: map<nat, nat>): Option<nat> {
    if |clients| == 0 then None
    else
      var best := LeastLoaded(clients[..|clients| - 1], open, load);
      var ws := clients[|clients| - 1];
      if ws !in open then best
      else if best.None? || Load(load, ws) < Load(load, best.value) then Some(ws)
      else best
  }

  function OpenOnes(clients: seq<nat>, open: set<nat>): seq<nat> {
    if |clients| == 0 then []
    else OpenOnes(clients[..|clients| - 1], open) + if clients[|clients| - 1] in open then [clients[|clients| - 1]] else []
  }

  function TunnelOf(reg: Registry, ws: nat): string {
    if ws in reg.tunnelOf then reg.tunnelOf[ws] else ""
  }

  /** resolveTargetClient: the client to use, with its tunnel id; None stands for an error result. */
  function Resolve(reg: Registry, target: string): Option<(nat, string)> {
    var n := TunnelId.Normalize(target);
    if n.None? then None
    else if n.value != "" then
      if n.value in reg.byTunnel && reg.byTunnel[n.value] in reg.openClients then Some((reg.byTunnel[n.value], n.value)) else None
    else
      var open := OpenOnes(reg.clients, reg.openClients);
      if |open| == 1 then Some((open[0], TunnelOf(reg, open[0]))) else None
  }

  function Without(s: seq<nat>, x: nat): seq<nat> {
    if |s| == 0 then [] else Without(s[..|s| - 1], x) + if s[|s| - 1] == x then [] else [s[|s| - 1]]
  }

  /** Whether addClient takes a new WebSocket in; if not, it closes it at once. */
  predicate Admits(reg: Registry, maxClients: nat, tunnelId: string) {
    var n := TunnelId.Normalize(tunnelId);
    && n.Some?
    && |reg.clients| < maxClients
    && !(n.value != "" && n.value in reg.byTunnel && reg.byTunnel[n.value] in reg.openClients)
  }

  /** addClient on a new, OPEN WebSocket. A stale holder of the id loses its place in the map only. */
  function AddClient(reg: Registry, maxClients: nat, ws: nat, tunnelId: string): Registry {
    if !Admits(reg, maxClients, tunnelId) then reg
    else
      var id := TunnelId.Normalize(tunnelId).value;
      reg.(clients := reg.clients + [ws], openClients := reg.openClients + {ws},
           byTunnel := if id == "" then reg.byTunnel else reg.byTunnel[id := ws],
           tunnelOf := reg.tunnelOf[ws := id])
  }

  /** cleanupClient, the registry half. */
  function ForgetClient(reg: Registry, ws: nat): Registry {
    var t := TunnelOf(reg, ws);
    reg.(clients := Without(reg.clients, ws),
         byTunnel := if t != "" && t in reg.byTunnel && reg.byTunnel[t] == ws then reg.byTunnel - {t} else reg.byTunnel)
  }

  // ---------------------------------------------------------------------------
  // The map against the registry
  // ---------------------------------------------------------------------------

  /** Through adds, stale replacements, disconnects and late close events, the map names every OPEN client. */
  ghost predicate Indexed(reg: Registry) {
    && (forall i, j :: 0 <= i < j < |reg.clients| ==> reg.clients[i] != reg.clients[j])
    && (forall t :: t in reg.byTunnel ==> t != "" && reg.byTunnel[t] in reg.clients && TunnelOf(reg, reg.byTunnel[t]) == t)
    && (forall ws :: ws in reg.clients ==> ws in reg.tunnelOf)
    && (forall ws :: ws in reg.clients && ws in reg.openClients && TunnelOf(reg, ws) != "" ==>
          TunnelOf(reg, ws) in reg.byTunnel && reg.byTunnel[TunnelOf(reg, ws)] == ws)
    && (forall ws :: ws in reg.openClients ==> ws in reg.clients)
  }

  lemma AddClientIndexed(reg: Registry, maxClients: nat, ws: nat, tunnelId: string)
    requires Indexed(reg) && ws !in reg.tunnelOf
    ensures Indexed(AddClient(reg, maxClients, ws, tunnelId))
  {
    hide TunnelId.Normalize;
    if Admits(reg, maxClients, tunnelId) {
      var r := AddClient(reg, maxClients, ws, tunnelId);
      assert ws !in reg.clients && ws !in reg.openClients;
      assert forall w :: w in r.clients <==> w in reg.clients || w == ws;
      assert forall w :: w != ws ==> TunnelOf(r, w) == TunnelOf(reg, w);
    }
  }

  lemma {:induction false} WithoutOk(s: seq<nat>, x: nat)
    ensures |Without(s, x)| <= |s|
    ensures forall y :: y in Without(s, x) <==> y in s && y != x
    ensures (forall i, j :: 0 <= i < j < |s| ==> s[i] != s[j])
            ==> forall i, j :: 0 <= i < j < |Without(s, x)| ==> Without(s, x)[i] != Without(s, x)[j]
  {
    if |s| > 0 {
      var n := |s| - 1;
      WithoutOk(s[..n], x);
      assert s == s[..n] + [s[n]];
      assert s[n] in s[..n] ==> exists i :: 0 <= i < n && s[i] == s[n];
    }
  }

  lemma ForgetClientIndexed(reg: Registry, ws: nat)
    requires Indexed(reg) && ws !in reg.openClients
    ensures Indexed(ForgetClient(reg, ws))
  {
    WithoutOk(reg.clients, ws);
    assert forall w :: TunnelOf(ForgetClient(reg, ws), w) == TunnelOf(reg, w);
  }

  // ---------------------------------------------------------------------------
  // Lookups
  // ---------------------------------------------------------------------------

  /** getActiveClient fails iff no client is OPEN, and otherwise returns an OPEN one of least load. */
  lemma {:induction false} LeastLoadedOk(clients: seq<nat>, open: set<nat>, load: map<nat, nat>)
    ensures var b := LeastLoaded(clients, open, load);
            && (b.None? <==> forall i :: 0 <= i < |clients| ==> clients[i] !in open)
            && (b.Some? ==> b.value in clients && b.value in open
                            && forall i :: 0 <= i < |clients| && clients[i] in open ==> Load(load, b.value) <= Load(load, clients[i]))
  {
    if |clients| > 0 {
      var n := |clients| - 1;
      LeastLoadedOk(clients[..n], open, load);
      assert forall i :: 0 <= i < n ==> clients[..n][i] == clients[i];
      var b := LeastLoaded(clients[..n], open, load);
      if b.None? {
        forall i | 0 <= i < n ensures clients[i] !in open { assert clients[..n][i] !in open; }
      }
    }
  }

  /** The client at position k is OPEN, has the least buffered of those that are, and is the first of these. */
  predicate IsLeast(clients: seq<nat>, open: set<nat>, load: map<nat, nat>, k: nat) {
    && k < |clients| && clients[k] in open
    && (forall i :: 0 <= i < |clients| && clients[i] in open ==> Buffered(load, clients[k]) <= Buffered(load, clients[i]))
    && (forall i :: 0 <= i < k && clients[i] in open ==> Buffered(load, clients[k]) < Buffered(load, clients[i]))
  }

  /** bufferedAmount; a WebSocket of which none is reported has nothing buffered. */
  function Buffered(load: map<nat, nat>, ws: nat): nat {
    (map[ws := 0] + load)[ws]
  }

  /** Of several clients with the least buffered, getActiveClient returns the one that joined first. */
  lemma {:induction false} LeastLoadedFirst(clients: seq<nat>, open: set<nat>, load: map<nat, nat>)
    ensures var b := LeastLoaded(clients, open, load);
            if b.None? then forall i :: 0 <= i < |clients| ==> clients[i] !in open
            else exists k: nat :: IsLeast(clients, open, load, k) && clients[k] == b.value
  {
    if |clients| > 0 {
      var n := |clients| - 1;
      var prefix := clients[..n];
      LeastLoadedFirst(prefix, open, load);
      assert forall i :: 0 <= i < n ==> prefix[i] == clients[i];
      var b := LeastLoaded(prefix, open, load);
      if b.Some? {
        var k: nat :| IsLeast(prefix, open, load, k) && prefix[k] == b.value;
        assert IsLeast(clients, open, load, k) || IsLeast(clients, open, load, n);
      } else if clients[n] in open {
        forall i | 0 <= i < n ensures clients[i] !in open { assert prefix[i] !in open; }
        assert IsLeast(clients, open, load, n);
      }
    }
  }

  lemma {:induction false} OpenOnesOk(clients: seq<nat>, open: set<nat>)
    ensures forall ws :: ws in OpenOnes(clients, open) <==> ws in clients && ws in open
    ensures (forall i, j :: 0 <= i < j < |clients| ==> clients[i] != clients[j])
            ==> forall i, j :: 0 <= i < j < |OpenOnes(clients, open)| ==> OpenOnes(clients, open)[i] != OpenOnes(clients, open)[j]
  {
    if |clients| > 0 {
      var n := |clients| - 1;
      OpenOnesOk(clients[..n], open);
      assert clients == clients[..n] + [clients[n]];
      assert clients[n] in clients[..n] ==> exists i :: 0 <= i < n && clients[i] == clients[n];
    }
  }

  /** An OPEN registered client with this tunnel id. */
  ghost predicate Answers(reg: Registry, ws: nat, id: string) {
    ws in reg.clients && ws in reg.openClients && TunnelOf(reg, ws) == id
  }

  /** A named lookup yields the unique OPEN client of that name, and fails iff there is none. */
  lemma NamedLookup(reg: Registry, id: string)
    requires Indexed(reg) && TunnelId.IsTunnelId(id)
    ensures Resolve(reg, id).Some? <==> exists ws :: Answers(reg, ws, id)
    ensures forall ws: nat :: Answers(reg, ws, id) ==> Resolve(reg, id) == Some((ws, id))
  {
    hide OpenOnes;
    assert TunnelId.Normalize(id) == Some(id);
    if id in reg.byTunnel && reg.byTunnel[id] in reg.openClients {
      assert Answers(reg, reg.byTunnel[id], id);
    }
  }

  /** The map answers for the registry. */
  lemma NamedIsMapped(reg: Registry, id: string)
    requires Indexed(reg) && TunnelId.IsTunnelId(id)
    ensures id in reg.byTunnel && reg.byTunnel[id] in reg.openClients ==> Answers(reg, reg.byTunnel[id], id)
    ensures id !in reg.byTunnel || reg.byTunnel[id] !in reg.openClients ==> forall ws: nat :: !Answers(reg, ws, id)
  {
  }

  lemma {:induction false} DistinctSize(s: seq<nat>, members: set<nat>)
    requires forall i, j :: 0 <= i < j < |s| ==> s[i] != s[j]
    requires forall x :: x in members <==> x in s
    ensures |members| == |s|
  {
    if |s| == 0 {
      assert members == {};
    } else {
      var n := |s| - 1;
      assert s == s[..n] + [s[n]];
      DistinctSize(s[..n], members - {s[n]});
    }
  }

  /** An unnamed lookup succeeds iff exactly one client is OPEN, and then yields that one. */
  lemma UnnamedLookup(reg: Registry)
    requires Indexed(reg)
    ensures Resolve(reg, "").Some? <==> |reg.openClients| == 1
    ensures Resolve(reg, "").Some? ==> reg.openClients == {Resolve(reg, "").value.0}
  {
    hide OpenOnes;
    OpenOnesOk(reg.clients, reg.openClients);
    var open := OpenOnes(reg.clients, reg.openClients);
    DistinctSize(open, reg.openClients);
    if |open| == 1 {
      assert forall x :: x in reg.openClients ==> x == open[0];
    }
  }

  /** Whatever the request, a resolved client is OPEN and registered under the id it is reported with. */
  lemma ResolveOk(reg: Registry, target: string)
    requires Indexed(reg)
    ensures var c := Resolve(reg, target);
            c.Some? ==> c.value.0 in reg.openClients && c.value.0 in reg.clients && TunnelOf(reg, c.value.0) == c.value.1
  {
    OpenOnesOk(reg.clients, reg.openClients);
    var open := OpenOnes(reg.clients, reg.openClients);
    assert |open| == 1 ==> open[0] in open;
  }

  // ---------------------------------------------------------------------------
  // Coming and going
  // ---------------------------------------------------------------------------

  /** The tunnel id is valid, there is room, and no OPEN client has that id. */
  ghost predicate MayJoin(reg: Registry, maxClients: nat, tunnelId: string) {
    var n := TunnelId.Normalize(tunnelId);
    n.Some? && |reg.clients| < maxClients && (n.value == "" || forall other: nat :: !Answers(reg, other, n.value))
  }

  /** A new WebSocket is taken in, under its normalized id, if and only if it may join. */
  lemma AdmittedIff(reg: Registry, maxClients: nat, ws: nat, tunnelId: string)
    requires Indexed(reg) && ws !in reg.tunnelOf
    ensures if MayJoin(reg, maxClients, tunnelId) then Joined(reg, AddClient(reg, maxClients, ws, tunnelId), ws, TunnelId.Normalize(tunnelId).value)
            else AddClient(reg, maxClients, ws, tunnelId) == reg
  {
    hide TunnelId.Normalize, TunnelId.IsTunnelId;
    var n := TunnelId.Normalize(tunnelId);
    if n.Some? && n.value != "" { NamedIsMapped(reg, n.value); }
    if Admits(reg, maxClients, tunnelId) { AdmittedJoins(reg, maxClients, ws, tunnelId); }
  }

  /** One client more, OPEN and under its id; the others keep their ids, and nobody stops or starts being OPEN. */
  ghost predicate Joined(reg: Registry, r: Registry, ws: nat, id: string) {
    && r.clients == reg.clients + [ws] && r.openClients == reg.openClients + {ws} && r.openAgents == reg.openAgents
    && TunnelOf(r, ws) == id && (forall other :: other != ws ==> TunnelOf(r, other) == TunnelOf(reg, other))
    && Indexed(r)
  }

  lemma AdmittedJoins(reg: Registry, maxClients: nat, ws: nat, tunnelId: string)
    requires Indexed(reg) && ws !in reg.tunnelOf && Admits(reg, maxClients, tunnelId)
    ensures Joined(reg, AddClient(reg, maxClients, ws, tunnelId), ws, TunnelId.Normalize(tunnelId).value)
  {
    hide TunnelId.Normalize, Indexed;
    AddClientIndexed(reg, maxClients, ws, tunnelId);
  }

  /** Without drops every occurrence and nothing else; of distinct elements, one at most. */
  lemma {:induction false} WithoutSize(s: seq<nat>, x: nat)
    requires forall i, j :: 0 <= i < j < |s| ==> s[i] != s[j]
    ensures |Without(s, x)| == |s| - if x in s then 1 else 0
  {
    if |s| > 0 {
      var n := |s| - 1;
      WithoutSize(s[..n], x);
      assert s == s[..n] + [s[n]];
      if s[n] == x { assert x !in s[..n]; }
    }
  }

  /** One client fewer, if it was one; everybody else stays what they were, to every lookup. */
  ghost predicate Forgotten(reg: Registry, r: Registry, ws: nat) {
    && Indexed(r) && (forall other :: other in r.clients <==> other in reg.clients && other != ws)
    && |r.clients| == |reg.clients| - (if ws in reg.clients then 1 else 0)
    && r.openClients == reg.openClients && r.openAgents == reg.openAgents
    && (forall other: nat, id :: Answers(r, other, id) <==> Answers(reg, other, id))
  }

  /** Forgetting a client that is no longer OPEN frees its place, and changes no lookup. */
  lemma ForgottenOnly(reg: Registry, ws: nat)
    requires Indexed(reg) && ws !in reg.openClients
    ensures Forgotten(reg, ForgetClient(reg, ws), ws)
  {
    ForgetClientIndexed(reg, ws);
    WithoutOk(reg.clients, ws);
    WithoutSize(reg.clients, ws);
  }
}
