/**
 * The whole tunnel: local agents, the relay, and tunnel clients, joined by their WebSockets.
 *
 * A WebSocket direction is kept as one log per stream (what was sent) and a read position (what has
 * arrived), so frames of one stream stay in order and frames of different streams may overtake each
 * other: every real interleaving is one of these. A frame that arrives is dispatched by its stream id
 * through the receiver's own map, as in the source, so it could reach a wrong stream; the invariant
 * shows that it never does.
 */
module Tunnel {
  import opened Frames
  import opened TunnelLegs
  import R = Relay
  import S = RelayStream
  import C = TcpClient
  import A = TcpAgent
  import TunnelId

  datatype Hop = Hop(near: Near, far: Far)

  /** A local connection an agent has asked the relay to open. */
  datatype Issue = Issue(sock: nat, port: int, target: string)

  /**
   * One WebSocket connection of an agent: its first request id, the TCP_CONNECTs it sent and how many
   * of them arrived, the connections still waiting, and how far it has read the relay's connect-level
   * rejections and stray aborts.
   */
  datatype AgentConn = AgentConn(first: nat, issued: seq<Issue>, asked: nat, pending: seq<A.Pending>, rejected: nat, aborted: nat)

  /** `clientIds` and `agentIds` are the endpoints' maps from (connection, stream id) to their records. */
  datatype Tunnel = Tunnel(r: R.Relay, hops: seq<Hop>, clientIds: map<(nat, nat), nat>, agentIds: map<(nat, nat), nat>,
                           clientUp: set<nat>, agentUp: set<nat>, agents: map<nat, AgentConn>) {
    /** The relay's record of stream h, its legs, and the connection of agent a, where there are such. */
    function Str(h: nat): S.Stream { R.TcpAt(r.all, h) }
    function HopAt(h: nat): Hop { HopIn(hops, h) }
    function Conn(a: nat): AgentConn { if a in agents then agents[a] else AgentConn(1, [], 0, [], 0, 0) }
  }

  function Initial(): Tunnel {
    Tunnel(R.Initial(), [], map[], map[], {}, {}, map[])
  }

  /** Buffer levels at an endpoint during one step. */
  datatype Levels = Levels(full: bool, low: bool, high: bool)

  function ClientEnv(t: Tunnel, lv: Levels, ws: nat): C.Env {
    C.Env(ws in t.clientUp, lv.full, lv.low, lv.high)
  }

  function AgentEnv(t: Tunnel, lv: Levels, a: nat): A.Env {
    A.Env(a in t.agentUp, lv.full, lv.low, lv.high)
  }

  function NoHop(): Hop {
    Hop(Near(None, 0, 0), Far(None, 0, 0, 0))
  }

  function HopIn(hops: seq<Hop>, h: nat): Hop {
    if h < |hops| then hops[h] else NoHop()
  }

  function Extended(hops: seq<Hop>, n: int): (r: seq<Hop>)
    ensures |r| >= n && hops <= r
  {
    if |hops| >= n then hops else hops + seq(n - |hops|, i => NoHop())
  }

  /** The relay moves; new streams get empty legs. */
  function WithRelay(t: Tunnel, r: R.Relay): Tunnel {
    t.(r := r, hops := Extended(t.hops, |r.all|))
  }

  // ---------------------------------------------------------------------------
  // Records at the endpoints
  // ---------------------------------------------------------------------------

  /** Handle h is a TCP stream of this tunnel. */
  predicate IsStream(t: Tunnel, h: nat) {
    R.IsTcp(t.r.all, h) && h < |t.hops|
  }

  function ClientKey(i: S.Identity): (nat, nat) {
    (i.ws, i.id)
  }

  /** A step of the client's record of stream h; cleanup takes it out of the client's map. */
  function PutClient(t: Tunnel, h: nat, c: C.Stream): Tunnel {
    if !IsStream(t, h) then t
    else
      var before := t.hops[h].near;
      t.(hops := t.hops[h := t.hops[h].(near := before.(c := Some(c)))],
         clientIds := if !before.Rec().cleaned && c.cleaned then t.clientIds - {ClientKey(t.Str(h).ident)} else t.clientIds)
  }

  function AgentKey(i: S.Identity): (nat, nat) {
    (i.AgentWs(), i.id)
  }

  function PutAgent(t: Tunnel, h: nat, a: A.Stream): Tunnel {
    if !IsStream(t, h) then t
    else
      var before := t.hops[h].far;
      t.(hops := t.hops[h := t.hops[h].(far := before.(a := Some(a)))],
         agentIds := if !before.Rec().cleaned && a.cleaned then t.agentIds - {AgentKey(t.Str(h).ident)} else t.agentIds)
  }

  function WithHop(t: Tunnel, h: nat, hop: Hop): Tunnel {
    if h < |t.hops| then t.(hops := t.hops[h := hop]) else t
  }

  function WithNear(t: Tunnel, h: nat, n: Near): Tunnel {
    WithHop(t, h, t.HopAt(h).(near := n))
  }

  function WithFar(t: Tunnel, h: nat, f: Far): Tunnel {
    WithHop(t, h, t.HopAt(h).(far := f))
  }

  // ---------------------------------------------------------------------------
  // Frames arriving
  // ---------------------------------------------------------------------------

  /** A frame is under way: from the client to the relay, from the agent to the relay, and back. */
  predicate ClientSent(t: Tunnel, h: nat) {
    IsStream(t, h) && var n := t.HopAt(h).near; n.c.Some? && n.kr < |n.Rec().sent|
  }

  predicate AgentSent(t: Tunnel, h: nat) {
    && IsStream(t, h) && t.Str(h).ident.peer.Agent?
    && var f := t.HopAt(h).far; f.a.Some? && f.ka < |f.Rec().sent| && !FrameAt(f.Rec().sent, f.ka).TcpConnect?
  }

  predicate SentToClient(t: Tunnel, h: nat) {
    IsStream(t, h) && t.HopAt(h).near.kc < |t.Str(h).sent.toClient|
  }

  predicate SentToAgent(t: Tunnel, h: nat) {
    && IsStream(t, h) && t.HopAt(h).far.kg < |t.Str(h).sent.toFar|
    && t.Str(h).ident.peer.Agent? && t.Str(h).ident.AgentWs() in t.agents
  }

  function NextFromClient(t: Tunnel, h: nat): Frame {
    FrameAt(t.HopAt(h).near.Rec().sent, t.HopAt(h).near.kr)
  }

  function NextFromAgent(t: Tunnel, h: nat): Frame {
    FrameAt(t.HopAt(h).far.Rec().sent, t.HopAt(h).far.ka)
  }

  function NextToClient(t: Tunnel, h: nat): Frame {
    FrameAt(t.Str(h).sent.toClient, t.HopAt(h).near.kc)
  }

  function NextToAgent(t: Tunnel, h: nat): Frame {
    FrameAt(t.Str(h).sent.toFar, t.HopAt(h).far.kg)
  }

  /** The relay is given the client's next frame on stream h. */
  function RelayReadsClient(t: Tunnel, cfg: R.Config, rd: R.Readings, h: nat): Tunnel {
    var n, i := t.HopAt(h).near, t.Str(h).ident;
    WithNear(t, h, n.ReadByRelay()).(r := R.FromClient(t.r, cfg, rd, i.ws, i.id, NextFromClient(t, h)))
  }

  /** The relay is given the agent's next frame on stream h. */
  function RelayReadsAgent(t: Tunnel, cfg: R.Config, rd: R.Readings, h: nat): Tunnel {
    var f, i := t.HopAt(h).far, t.Str(h).ident;
    WithFar(t, h, f.ReadByRelay()).(r := R.FromAgent(t.r, cfg, rd, i.AgentWs(), i.id, NextFromAgent(t, h)))
  }

  /** The client is given the relay's next frame on stream h; `admit` is its answer to a TCP_OPEN. */
  function ClientReads(t: Tunnel, lv: Levels, h: nat, admit: bool): Tunnel {
    var n, i := t.HopAt(h).near, t.Str(h).ident;
    var f := NextToClient(t, h);
    var e := ClientEnv(t, lv, i.ws);
    var t1 := WithNear(t, h, n.ReadByClient());
    if f.TcpOpen? then
      var c := C.Open(i.id, e, f.wellFormed, admit);
      WithNear(t, h, Near(Some(c), n.kc + 1, 0)).(clientIds := if c.cleaned then t.clientIds else t.clientIds[ClientKey(i) := h])
    else if ClientKey(i) !in t.clientIds then t1
    else
      var g := t.clientIds[ClientKey(i)];
      if IsStream(t1, g) && t1.hops[g].near.c.Some? then PutClient(t1, g, C.FromServer(t1.hops[g].near.c.value, e, f)) else t1
  }

  /** An agent's pending connects without the one this reply answers. */
  function Answered(conn: AgentConn, reply: ConnectReply): AgentConn {
    var p := A.Find(conn.pending, reply);
    if p.None? then conn else conn.(pending := A.Remove(conn.pending, p.value))
  }

  /**
   * The agent is given the relay's next frame on stream h. `alive` says whether the local socket a
   * TCP_CONNECT_ACK finds is still there: registerStream does nothing otherwise.
   */
  function AgentReads(t: Tunnel, lv: Levels, h: nat, alive: bool): Tunnel {
    var f, i := t.HopAt(h).far, t.Str(h).ident;
    var a, g := i.AgentWs(), NextToAgent(t, h);
    var t1 := WithFar(t, h, f.ReadByAgent());
    if g.TcpConnectAck? then
      var p := A.Find(t.Conn(a).pending, g.reply);
      var agents := t.agents[a := Answered(t.Conn(a), g.reply)];
      if p.None? || !alive then t1.(agents := agents)
      else
        var bound := Far(Some(A.Registered(i.id)), t.Conn(a).pending[p.value].sock, f.kg + 1, 0);
        WithFar(t, h, bound).(agents := agents, agentIds := t.agentIds[AgentKey(i) := h])
    else if g.ConnectRejected? then t1.(agents := t.agents[a := Answered(t.Conn(a), g.reply)])
    else if AgentKey(i) !in t.agentIds then t1
    else
      var b := t.agentIds[AgentKey(i)];
      if IsStream(t1, b) && t1.hops[b].far.a.Some? then PutAgent(t1, b, A.FromServer(t1.hops[b].far.a.value, AgentEnv(t, lv, a), g)) else t1
  }

  function At<V>(m: map<nat, seq<V>>, k: nat): seq<V> {
    if k in m then m[k] else []
  }

  /** The next stray abort on its way to agent a, and the stream id it names. */
  predicate StraySent(t: Tunnel, a: nat) {
    a in t.agents && t.Conn(a).aborted < |At(t.r.sent.strays, a)|
  }

  function StrayAt(t: Tunnel, a: nat, k: nat): nat {
    if k < |At(t.r.sent.strays, a)| then At(t.r.sent.strays, a)[k] else 0
  }

  function StrayId(t: Tunnel, a: nat): nat {
    StrayAt(t, a, t.Conn(a).aborted)
  }

  /** The next connect-level rejection on its way to agent a. */
  predicate RejectionSent(t: Tunnel, a: nat) {
    a in t.agents && t.Conn(a).rejected < |At(t.r.sent.rejections, a)|
  }

  function RejectionAt(t: Tunnel, a: nat, k: nat): ConnectReply {
    if k < |At(t.r.sent.rejections, a)| then At(t.r.sent.rejections, a)[k] else ConnectReply(None, 0, "")
  }

  function NextRejection(t: Tunnel, a: nat): ConnectReply {
    RejectionAt(t, a, t.Conn(a).rejected)
  }

  function WithConn(t: Tunnel, a: nat, conn: AgentConn): Tunnel {
    t.(agents := t.agents[a := conn])
  }

  /** The agent is given the relay's next stray abort, for a stream id it may or may not hold. */
  function AgentReadsStray(t: Tunnel, lv: Levels, a: nat): Tunnel {
    var key := (a, StrayId(t, a));
    var t1 := WithConn(t, a, StrayRead(t.Conn(a)));
    if key !in t.agentIds then t1
    else
      var b := t.agentIds[key];
      if IsStream(t1, b) && t1.hops[b].far.a.Some? then PutAgent(t1, b, A.FromServer(t1.hops[b].far.a.value, AgentEnv(t, lv, a), TcpAbort)) else t1
  }

  function StrayRead(conn: AgentConn): AgentConn {
    conn.(aborted := conn.aborted + 1)
  }

  /** The agent's k-th local connection, and its TCP_CONNECT. */
  function IssueAt(conn: AgentConn, k: int): Issue {
    if 0 <= k < |conn.issued| then conn.issued[k] else Issue(0, 0, "")
  }

  function Request(conn: AgentConn, k: nat): ConnectRequest {
    ConnectRequest(Some(IssueAt(conn, k).port), conn.first + k, IssueAt(conn, k).target)
  }

  /** The TCP_CONNECT of agent a that arrives next. */
  predicate RequestSent(t: Tunnel, a: nat) {
    a in t.agents && t.Conn(a).asked < |t.Conn(a).issued|
  }

  function NextRequest(t: Tunnel, a: nat): ConnectRequest {
    Request(t.Conn(a), t.Conn(a).asked)
  }

  function RelayMoves(t: Tunnel, r': R.Relay, v: R.Event): Tunnel {
    WithRelay(t, r').(clientUp := if v.ClientJoins? then t.clientUp + {v.ws} else t.clientUp)
  }

  function AgentJoined(t: Tunnel, r': R.Relay, a: nat, first: nat): Tunnel {
    WithRelay(t, r').(agentUp := t.agentUp + {a}, agents := t.agents[a := AgentConn(first, [], 0, [], 0, 0)])
  }

  /** The relay has dealt with the next TCP_CONNECT of agent a. */
  function AgentRequested(t: Tunnel, r': R.Relay, a: nat): Tunnel {
    WithRelay(t, r').(agents := t.agents[a := Asked(t.Conn(a))])
  }

  function Asked(conn: AgentConn): AgentConn {
    conn.(asked := conn.asked + 1)
  }

  function Rejected(conn: AgentConn, reply: ConnectReply): AgentConn {
    Answered(conn, reply).(rejected := conn.rejected + 1)
  }

  /** A local connection: it takes the next request id, waits, and its TCP_CONNECT is sent. */
  function Issued(conn: AgentConn, i: Issue): AgentConn {
    conn.(issued := conn.issued + [i], pending := conn.pending + [A.Pending(i.sock, i.port, i.target, conn.first + |conn.issued|)])
  }

  // ---------------------------------------------------------------------------
  // The steps of the tunnel
  // ---------------------------------------------------------------------------

  datatype Event =
    | RelayEvent(ev: R.Event)                    // anything at the relay that is not a frame of a TCP stream
    | AgentJoins(a: nat, first: nat)
    | AgentRequest(a: nat)                       // an agent's next TCP_CONNECT arrives
    | ClientFrame(h: nat) | AgentFrame(h: nat) | ToClient(h: nat, admit: bool) | ToAgent(h: nat, alive: bool)
    | Rejection(a: nat) | StrayAbort(a: nat)     // the agent's next one arrives
    | ClientLocal(h: nat, c: C.Local) | AgentLocal(h: nat, l: A.Local)
    | LocalConnect(a: nat, sock: nat, port: int, target: string)
    | LocalGone(a: nat, sock: nat)
    | ClientCloses(ws: nat) | AgentCloses(a: nat)   // readyState leaves OPEN at the endpoint
    | PendingGone(a: nat)                        // cleanupAll's first half

  /** WebSockets keep order: what the relay had sent on streams of the same id arrives before the stray abort does. */
  ghost predicate StrayInTurn(t: Tunnel, a: nat) {
    forall h: nat :: IsStream(t, h) && t.Str(h).ident.peer == S.Agent(a) && t.Str(h).ident.id == StrayId(t, a) ==>
      t.HopAt(h).far.kg == |t.Str(h).sent.toFar|
  }

  /** No frame of this stream id is under way where a new stream would read it. */
  ghost predicate Reusable(t: Tunnel, i: S.Identity) {
    && (forall h: nat :: IsStream(t, h) && t.Str(h).ident.id == i.id ==>
          var s, hop := t.Str(h), t.HopAt(h);
          && (s.ident.ws == i.ws ==> hop.near.kc == |s.sent.toClient| && (hop.near.c.Some? ==> hop.near.kr == |hop.near.Rec().sent|))
          && (s.ident.peer == i.peer && i.peer.Agent? ==>
                && hop.far.kg == |s.sent.toFar| && (hop.far.a.Some? ==> hop.far.ka == |hop.far.Rec().sent|)
                && (i.AgentWs() !in t.r.reg.openAgents ==> hop.far.a.None? || hop.far.Rec().cleaned)))
    && (i.peer.Agent? && i.AgentWs() in t.agents ==> Avoids(At(t.r.sent.strays, i.AgentWs()), t.Conn(i.AgentWs()).aborted, i.id))
  }

  /** No stray abort from the k-th on names this id. */
  ghost predicate Avoids(strays: seq<nat>, k: nat, id: nat) {
    forall j :: k <= j < |strays| ==> strays[j] != id
  }

  /** Every stream this relay step opens takes an id that is free to reuse. */
  ghost predicate OpensReusable(t: Tunnel, r': R.Relay) {
    forall h :: |t.r.all| <= h < |r'.all| && r'.all[h].Tcp? ==> Reusable(t, r'.all[h].t.ident)
  }

  /** The relay steps that are not driven by a modelled endpoint. HTTP-mode frames go to HTTP streams. */
  predicate Own(t: Tunnel, ev: R.Event) {
    match ev
    case AgentSends(_, _, _) => false
    case AgentJoins(_) => false
    case ClientSends(ws, id, f) => NotTcp(t.r, id)
    case _ => true
  }

  /** No TCP stream is registered under this id. */
  predicate NotTcp(r: R.Relay, id: nat) {
    id !in r.streams || !R.IsTcp(r.all, r.streams[id])
  }

  /** What agents send on, and what routes name: no target, or a tunnel id. */
  predicate Routable(target: string) {
    target == "" || TunnelId.IsTunnelId(target)
  }

  ghost predicate Enabled(t: Tunnel, cfg: R.Config, rd: R.Readings, lv: Levels, ev: Event) {
    match ev
    case RelayEvent(v) => Own(t, v) && R.Enabled(t.r, cfg, rd, v) && OpensReusable(t, R.Step(t.r, cfg, rd, v))
    case AgentJoins(a, first) => 0 < first <= A.MAX_SAFE_INTEGER && a !in t.agents && R.Enabled(t.r, cfg, rd, R.AgentJoins(a))
    case AgentRequest(a) => RequestSent(t, a) && a in t.r.books.agentStreams && OpensReusable(t, R.Connect(t.r, cfg, rd, a, NextRequest(t, a)))
    case ClientFrame(h) => ClientSent(t, h)
    case AgentFrame(h) => AgentSent(t, h)
    case ToClient(h, _) => SentToClient(t, h)
    case ToAgent(h, _) => SentToAgent(t, h)
    case Rejection(a) => RejectionSent(t, a)
    case StrayAbort(a) => StraySent(t, a) && StrayInTurn(t, a)
    case ClientLocal(h, l) => ClientCan(t, lv, h, l)
    case AgentLocal(h, l) => AgentCan(t, h, l)
    case LocalConnect(a, _, _, target) => a in t.agents && a in t.agentUp && Routable(target) && t.Conn(a).first + |t.Conn(a).issued| <= A.MAX_SAFE_INTEGER
    case LocalGone(a, _) => a in t.agents
    case PendingGone(a) => a in t.agents && a !in t.agentUp
    case _ => true
  }

  /** Something can happen at the client's end of stream h, or at the agent's. */
  predicate ClientCan(t: Tunnel, lv: Levels, h: nat, l: C.Local) {
    IsStream(t, h) && t.HopAt(h).near.c.Some? && C.Possible(t.HopAt(h).near.Rec(), ClientEnv(t, lv, t.Str(h).ident.ws), l)
  }

  predicate AgentCan(t: Tunnel, h: nat, l: A.Local) {
    && IsStream(t, h) && t.Str(h).ident.peer.Agent? && t.HopAt(h).far.a.Some? && A.Possible(t.HopAt(h).far.Rec(), l)
    && (l.Shutdown? ==> t.Str(h).ident.AgentWs() !in t.agentUp)
  }

  function ClientStep(t: Tunnel, lv: Levels, h: nat, l: C.Local): Tunnel {
    PutClient(t, h, C.OnLocal(t.HopAt(h).near.Rec(), ClientEnv(t, lv, t.Str(h).ident.ws), l))
  }

  function AgentStep(t: Tunnel, lv: Levels, h: nat, l: A.Local): Tunnel {
    PutAgent(t, h, A.OnLocal(t.HopAt(h).far.Rec(), AgentEnv(t, lv, t.Str(h).ident.AgentWs()), l))
  }

  /** A step, where it can happen. */
  function Step(t: Tunnel, cfg: R.Config, rd: R.Readings, lv: Levels, ev: Event): Tunnel {
    match ev
    case RelayEvent(v) => RelayMoves(t, R.Step(t.r, cfg, rd, v), v)
    case AgentJoins(a, first) => AgentJoined(t, R.Step(t.r, cfg, rd, R.AgentJoins(a)), a, first)
    case AgentRequest(a) => AgentRequested(t, R.Connect(t.r, cfg, rd, a, NextRequest(t, a)), a)
    case ClientFrame(h) => RelayReadsClient(t, cfg, rd, h)
    case AgentFrame(h) => RelayReadsAgent(t, cfg, rd, h)
    case ToClient(h, admit) => ClientReads(t, lv, h, admit)
    case ToAgent(h, alive) => AgentReads(t, lv, h, alive)
    case Rejection(a) => WithConn(t, a, Rejected(t.Conn(a), NextRejection(t, a)))
    case StrayAbort(a) => AgentReadsStray(t, lv, a)
    case ClientLocal(h, l) => ClientStep(t, lv, h, l)
    case AgentLocal(h, l) => AgentStep(t, lv, h, l)
    case LocalConnect(a, sock, port, target) => WithConn(t, a, Issued(t.Conn(a), Issue(sock, port, target)))
    case LocalGone(a, sock) => WithConn(t, a, t.Conn(a).(pending := A.RemoveSock(t.Conn(a).pending, sock)))
    case ClientCloses(ws) => t.(clientUp := t.clientUp - {ws})
    case AgentCloses(a) => t.(agentUp := t.agentUp - {a})
    case PendingGone(a) => WithConn(t, a, t.Conn(a).(pending := []))
  }
}
