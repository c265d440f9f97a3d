/**
 * The relay as a value: StreamManager's id map, TcpRouter's and TcpAgentServer's books, ClientManager's
 * registry, and every stream record ever created. A record is named by its handle, its position in
 * `all`; late callbacks go by handle, frames go by stream id through `streams`.
 */
module Relay {
  import opened Frames
  import opened ClientManager
  import S = RelayStream
  import H = HttpStream
  import Ids = StreamIds
  import TunnelId

  /** The relay's settings. A limit of 0 on ports or agents means "no limit". */
  datatype Config = Config(host: string, maxStreams: nat, maxClients: nat, allowedPorts: set<int>,
                           agentPortLimit: nat, agentStreamLimit: nat, directPortLimit: nat, destBuffer: nat)

  datatype Entry = Tcp(t: S.Stream) | Web(h: H.Http) {
    function Id(): nat { if Tcp? then t.ident.id else h.id }
    function Ws(): nat { if Tcp? then t.ident.ws else h.ws }
    predicate Cleaned() { if Tcp? then t.cleaned else h.cleaned }
  }

  predicate IsTcp(all: seq<Entry>, h: nat) {
    h < |all| && all[h].Tcp?
  }

  /** The record under handle h, where there is one. */
  function RecordAt(all: seq<Entry>, h: nat): Entry {
    if h < |all| then all[h] else Web(H.Created(0, 0))
  }

  /** The TCP stream under handle h, where there is one. */
  function TcpAt(all: seq<Entry>, h: nat): S.Stream {
    if IsTcp(all, h) then all[h].t else S.Fresh(0, 0, S.External, 0, 0, "")
  }

  /** _agentStreams and the two _connCountByPort maps. */
  datatype Books = Books(agentStreams: map<nat, set<nat>>, agentCount: map<int, nat>, directCount: map<int, nat>)

  /** History: connect-level rejections and stray aborts sent to each agent. */
  datatype Sent = Sent(rejections: map<nat, seq<ConnectReply>>, strays: map<nat, seq<nat>>)

  datatype Relay = Relay(all: seq<Entry>, streams: map<nat, nat>, nextId: Ids.Id, books: Books, reg: Registry, sent: Sent)

  function Initial(): Relay {
    Relay([], map[], 1, Books(map[], map[], map[]), Registry([], map[], map[], {}, {}), Sent(map[], map[]))
  }

  /** Buffer levels and answers of the outside world during one step. */
  datatype Readings = Readings(full: bool, low: bool, highs: seq<bool>, load: map<nat, nat>, web: H.HttpEnv)

  function At<K(==)>(m: map<K, nat>, k: K): nat {
    if k in m then m[k] else 0
  }

  function EnvOf(r: Relay, cfg: Config, rd: Readings, i: S.Identity): S.Env {
    S.Env(i.ws in r.reg.openClients, i.peer.Agent? && i.peer.ws in r.reg.openAgents, rd.full, rd.low, rd.highs, cfg.destBuffer)
  }

  function WebEnvOf(r: Relay, rd: Readings, ws: nat): H.HttpEnv {
    rd.web.(wsOpen := ws in r.reg.openClients)
  }

  // ---------------------------------------------------------------------------
  // Books
  // ---------------------------------------------------------------------------

  /** The onCleanup closures: `get(port) || 1`, minus one, never below zero. */
  function Decrement(m: map<int, nat>, p: int): map<int, nat> {
    var c := if At(m, p) == 0 then 1 else At(m, p);
    m[p := c - 1]
  }

  function Release(b: Books, i: S.Identity): Books {
    match i.peer
    case External => b.(directCount := Decrement(b.directCount, i.serverPort))
    case Agent(a) =>
      b.(agentCount := Decrement(b.agentCount, i.serverPort),
         agentStreams := if a in b.agentStreams then b.agentStreams[a := b.agentStreams[a] - {i.id}] else b.agentStreams)
  }

  /**
   * onCleanup has been called between these two values of a record, `to - from` times. TcpRouter's
   * closure acts on its first call only; TcpAgentServer's acts on every one.
   */
  function Settled(b: Books, i: S.Identity, from: nat, to: nat): Books
    decreases to - from
  {
    if to <= from then b
    else Settled(if i.peer.External? && from > 0 then b else Release(b, i), i, from + 1, to)
  }

  /**
   * Put the new value of record h in place: if it was cleaned up it leaves the id map, and for every
   * call of its onCleanup the books of its port and of its agent are settled.
   */
  function Settle(r: Relay, h: nat, e': Entry): Relay {
    if h >= |r.all| then r
    else
      var e := r.all[h];
      r.(all := r.all[h := e'],
         streams := if !e.Cleaned() && e'.Cleaned() then r.streams - {e.Id()} else r.streams,
         books := if e.Tcp? && e'.Tcp? then Settled(r.books, e.t.ident, e.t.cleanups, e'.t.cleanups) else r.books)
  }

  /** The books once a stream is opened; TcpAgentServer and TcpRouter each keep their own counter. */
  function Charge(b: Books, i: S.Identity): Books {
    match i.peer
    case External => b.(directCount := b.directCount[i.serverPort := At(b.directCount, i.serverPort) + 1])
    case Agent(a) =>
      b.(agentCount := b.agentCount[i.serverPort := At(b.agentCount, i.serverPort) + 1],
         agentStreams := if a in b.agentStreams then b.agentStreams[a := b.agentStreams[a] + {i.id}] else b.agentStreams)
  }

  /** A new record under a freshly allocated id. */
  function Register(r: Relay, id: nat, e: Entry): Relay {
    r.(all := r.all + [e], streams := r.streams[id := |r.all|], nextId := Ids.Next(id),
       books := if e.Tcp? then Charge(r.books, e.t.ident) else r.books)
  }

  // ---------------------------------------------------------------------------
  // Teardown of many streams
  // ---------------------------------------------------------------------------

  /** Whose streams go: those of a tunnel client, or the TCP ones whose ids an agent owned. */
  datatype Victims = OfClient(ws: nat) | OfIds(ids: set<nat>)

  predicate Selected(r: Relay, who: Victims, h: nat) {
    && h < |r.all|
    && var e := r.all[h];
    && e.Id() in r.streams && r.streams[e.Id()] == h
    && match who
       case OfClient(ws) => e.Ws() == ws
       case OfIds(ids) => e.Tcp? && e.Id() in ids
  }

  function Aborted(r: Relay, cfg: Config, rd: Readings, e: Entry, notify: bool): Entry {
    match e
    case Tcp(t) => Tcp(S.Abort(t, EnvOf(r, cfg, rd, t.ident), notify))
    case Web(w) => Web(H.Abort(w, WebEnvOf(r, rd, w.ws), notify))
  }

  /** Abort the selected streams, oldest first, from handle h on. */
  function AbortAll(r: Relay, cfg: Config, rd: Readings, who: Victims, h: nat): (r': Relay)
    ensures |r'.all| == |r.all| && r'.nextId == r.nextId && r'.reg == r.reg
    decreases |r.all| - h
  {
    if h >= |r.all| then r
    else
      var r1 := if Selected(r, who, h) then Settle(r, h, Aborted(r, cfg, rd, r.all[h], who.OfIds?)) else r;
      AbortAll(r1, cfg, rd, who, h + 1)
  }

  /** A tunnel client is forgotten, and its streams aborted. */
  function Leave(r: Relay, cfg: Config, rd: Readings, ws: nat): Relay {
    AbortAll(r.(reg := ForgetClient(r.reg, ws)), cfg, rd, OfClient(ws), 0)
  }

  /** cleanupAgent: the agent is forgotten, and the streams it owned aborted. */
  function Disown(r: Relay, cfg: Config, rd: Readings, a: nat): Relay {
    AbortAll(r.(books := r.books.(agentStreams := r.books.agentStreams - {a})), cfg, rd, OfIds(OwnedBy(r.books, a)), 0)
  }

  // ---------------------------------------------------------------------------
  // Opening streams
  // ---------------------------------------------------------------------------

  function OpenTcp(r: Relay, cfg: Config, rd: Readings, id: nat, ws: nat, peer: S.Peer, port: int, requestId: nat,
      target: string): Entry {
    var record := S.Fresh(id, ws, peer, port, requestId, target);
    Tcp(S.ToClient(record, EnvOf(r, cfg, rd, record.ident), TcpOpen(true, cfg.host, port)))
  }

  function Reject(r: Relay, a: nat, reply: ConnectReply): Relay {
    if a !in r.reg.openAgents then r
    else r.(sent := r.sent.(rejections := r.sent.rejections[a := (if a in r.sent.rejections then r.sent.rejections[a] else []) + [reply]]))
  }

  function Stray(r: Relay, a: nat, id: nat): Relay {
    if a !in r.reg.openAgents then r
    else r.(sent := r.sent.(strays := r.sent.strays[a := (if a in r.sent.strays then r.sent.strays[a] else []) + [id]]))
  }

  /** The reject closure of _handleTcpConnect: it names the request only if the request named itself. */
  function RejectBody(q: ConnectRequest, target: string): ConnectReply {
    if q.requestId > 0 || target != "" then ConnectReply(q.port, q.requestId, target) else ConnectReply(None, 0, "")
  }

  /** The ids an agent owns. */
  function OwnedBy(b: Books, a: nat): set<nat> {
    if a in b.agentStreams then b.agentStreams[a] else {}
  }

  /** TcpAgentServer._handleTcpConnect with TcpRouter.createAgentStream. */
  function Connect(r: Relay, cfg: Config, rd: Readings, a: nat, q: ConnectRequest): Relay {
    var n := TunnelId.Normalize(q.target);
    if n.None? then Reject(r, a, ConnectReply(q.port, q.requestId, ""))
    else if q.port.None? || q.port.value !in cfg.allowedPorts then Reject(r, a, RejectBody(q, n.value))
    else
      var port := q.port.value;
      if cfg.agentPortLimit > 0 && At(r.books.agentCount, port) >= cfg.agentPortLimit then Reject(r, a, RejectBody(q, n.value))
      else if cfg.agentStreamLimit > 0 && |OwnedBy(r.books, a)| >= cfg.agentStreamLimit then Reject(r, a, RejectBody(q, n.value))
      else
        var c := Resolve(r.reg, n.value);
        if c.None? || |r.streams| >= cfg.maxStreams then Reject(r, a, RejectBody(q, n.value))
        else
          var id := Ids.Allocate(r.streams.Keys, r.nextId);
          if id.None? then Reject(r, a, RejectBody(q, n.value))
          else
            Register(r, id.value, OpenTcp(r, cfg, rd, id.value, c.value.0, S.Agent(a), port, q.requestId, c.value.1))
  }

  /** TcpRouter._handleConnection. */
  function AcceptDirect(r: Relay, cfg: Config, rd: Readings, port: int, ipAllowed: bool): Relay
  {
    if !ipAllowed then r
    else if cfg.directPortLimit > 0 && At(r.books.directCount, port) >= cfg.directPortLimit then r
    else if |r.streams| >= cfg.maxStreams then r
    else
      var ws := LeastLoaded(r.reg.clients, r.reg.openClients, rd.load);
      if ws.None? then r
      else
        var id := Ids.Allocate(r.streams.Keys, r.nextId);
        if id.None? then r
        else
          Register(r, id.value, OpenTcp(r, cfg, rd, id.value, ws.value, S.External, port, 0, ""))
  }

  /** HttpRouter._proxyHttpRequest. */
  function AcceptWeb(r: Relay, cfg: Config, rd: Readings): Relay
  {
    if |r.streams| >= cfg.maxStreams then r
    else
      var ws := LeastLoaded(r.reg.clients, r.reg.openClients, rd.load);
      if ws.None? then r
      else
        var id := Ids.Allocate(r.streams.Keys, r.nextId);
        if id.None? then r else Register(r, id.value, Web(H.Created(id.value, ws.value)))
  }

  // ---------------------------------------------------------------------------
  // Frames
  // ---------------------------------------------------------------------------

  /** StreamManager.handleClientFrame. */
  function FromClient(r: Relay, cfg: Config, rd: Readings, ws: nat, id: nat, f: Frame): Relay {
    if id !in r.streams || r.streams[id] >= |r.all| || r.all[r.streams[id]].Ws() != ws then r
    else
      var h := r.streams[id];
      match r.all[h]
      case Tcp(t) => Settle(r, h, Tcp(S.FromClient(t, EnvOf(r, cfg, rd, t.ident), f)))
      case Web(w) => Settle(r, h, Web(H.FromClient(w, WebEnvOf(r, rd, ws), f)))
  }

  /** The stream id of the frames that belong to no stream. */
  const NO_STREAM: nat := 0

  /** TcpAgentServer._handleFrame. */
  function FromAgent(r: Relay, cfg: Config, rd: Readings, a: nat, id: nat, f: Frame): Relay {
    if f.TcpConnect? then
      if id != NO_STREAM then Stray(r, a, id) else Connect(r, cfg, rd, a, f.request)
    else if id !in r.streams || r.streams[id] >= |r.all| || !r.all[r.streams[id]].Tcp? || r.all[r.streams[id]].t.ident.peer.External? then
      if f.TcpData? || f.TcpClose? then Stray(r, a, id) else r
    else
      var h := r.streams[id];
      var t := r.all[h].t;
      if t.ident.peer.ws != a then r else Settle(r, h, Tcp(S.FromAgent(t, EnvOf(r, cfg, rd, t.ident), f)))
  }

  // ---------------------------------------------------------------------------
  // The steps of the relay
  // ---------------------------------------------------------------------------

  datatype Event =
    | ClientJoins(ws: nat, tunnelId: string)
    | ClientCloses(ws: nat)                      // its readyState leaves OPEN
    | ClientLeaves(ws: nat)                      // its close or error event
    | AgentJoins(a: nat)
    | AgentCloses(a: nat)
    | AgentLeaves(a: nat)                        // close or error event, or server shutdown
    | ClientSends(ws: nat, id: nat, f: Frame)
    | AgentSends(a: nat, id: nat, f: Frame)
    | DirectConnection(port: int, ipAllowed: bool)
    | WebRequest
    | StreamEvent(h: nat, ev: S.Local)
    | WebEvent(h: nat, w: H.Local)

  /** No stream was ever opened for agent a. */
  predicate NeverServed(all: seq<Entry>, a: nat) {
    forall h :: 0 <= h < |all| && all[h].Tcp? ==> all[h].t.ident.peer != S.Agent(a)
  }

  /**
   * When a step can happen. WebSockets are new when they join and no longer OPEN when their close or
   * error event fires; a TCP_CONNECT comes from a registered agent.
   */
  predicate Enabled(r: Relay, cfg: Config, rd: Readings, ev: Event) {
    match ev
    case ClientJoins(ws, _) => ws !in r.reg.tunnelOf && ws !in r.reg.openClients
    case ClientLeaves(ws) => ws !in r.reg.openClients
    case AgentJoins(a) => a !in r.books.agentStreams && a !in r.reg.openAgents
                          && NeverServed(r.all, a)
    case AgentSends(a, _, f) => f.TcpConnect? ==> a in r.books.agentStreams
    case StreamEvent(h, l) =>
      h < |r.all| && r.all[h].Tcp? && S.Possible(r.all[h].t, EnvOf(r, cfg, rd, r.all[h].t.ident), l)
    case WebEvent(h, l) => h < |r.all| && r.all[h].Web? && H.Possible(r.all[h].h, l)
    case _ => true
  }

  /** A step, where it can happen. */
  function Step(r: Relay, cfg: Config, rd: Readings, ev: Event): Relay {
    match ev
    case ClientJoins(ws, tunnelId) => r.(reg := AddClient(r.reg, cfg.maxClients, ws, tunnelId))
    case ClientCloses(ws) => r.(reg := r.reg.(openClients := r.reg.openClients - {ws}))
    case ClientLeaves(ws) => Leave(r, cfg, rd, ws)
    case AgentJoins(a) => r.(books := r.books.(agentStreams := r.books.agentStreams[a := {}]), reg := r.reg.(openAgents := r.reg.openAgents + {a}))
    case AgentCloses(a) => r.(reg := r.reg.(openAgents := r.reg.openAgents - {a}))
    case AgentLeaves(a) => if a !in r.books.agentStreams then r else Disown(r, cfg, rd, a)
    case ClientSends(ws, id, f) => FromClient(r, cfg, rd, ws, id, f)
    case AgentSends(a, id, f) => FromAgent(r, cfg, rd, a, id, f)
    case DirectConnection(port, ipAllowed) => AcceptDirect(r, cfg, rd, port, ipAllowed)
    case WebRequest => AcceptWeb(r, cfg, rd)
    case StreamEvent(h, l) => if !IsTcp(r.all, h) then r else Settle(r, h, Tcp(S.OnLocal(r.all[h].t, EnvOf(r, cfg, rd, r.all[h].t.ident), l)))
    case WebEvent(h, l) => if h >= |r.all| || r.all[h].Tcp? then r else Settle(r, h, Web(H.OnLocal(r.all[h].h, WebEnvOf(r, rd, r.all[h].h.ws), l)))
  }
}
