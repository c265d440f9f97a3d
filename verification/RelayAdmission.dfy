/**
 * Which streams the relay opens: a request is served if and only if every condition for it holds, and what it
 * comes to then; and, over every run, no stream is there that was not admitted so.
 */
module RelayAdmission {
  import opened Frames
  import opened Relay
  import opened RelayInvariant
  import opened RelayMoves
  import opened RelayRuns
  import CM = ClientManager
  import RC = RelayControl
  import S = RelayStream
  import H = HttpStream
  import Ids = StreamIds
  import TunnelId

  // ---------------------------------------------------------------------------
  // The conditions
  // ---------------------------------------------------------------------------

  /** A count that may still grow; a limit of 0 means none. */
  predicate Below(count: nat, limit: nat) {
    limit == 0 || count < limit
  }

  /** There is a place for one more stream, and an id for it. */
  ghost predicate HasRoom(r: Relay, cfg: Config) {
    |r.streams| < cfg.maxStreams && exists id: nat :: Ids.IsId(id) && id !in r.streams
  }

  /** The OPEN client a request means: the one of that tunnel id, or the only one there is. */
  ghost predicate Meant(reg: CM.Registry, tunnelId: string, ws: nat) {
    if tunnelId == "" then reg.openClients == {ws} else CM.Answers(reg, ws, tunnelId)
  }

  /** The tunnel id a request names, "" for none. */
  function Named(q: ConnectRequest): string {
    var n := TunnelId.Normalize(q.target); if n.Some? then n.value else ""
  }

  function PortOf(q: ConnectRequest): int {
    if q.port.Some? then q.port.value else 0
  }

  /** Every condition for serving a TCP_CONNECT. */
  ghost predicate Servable(r: Relay, cfg: Config, a: nat, q: ConnectRequest) {
    && TunnelId.Normalize(q.target).Some?
    && q.port.Some? && q.port.value in cfg.allowedPorts
    && Below(At(r.books.agentCount, PortOf(q)), cfg.agentPortLimit)
    && Below(|OwnedBy(r.books, a)|, cfg.agentStreamLimit)
    && (exists ws: nat :: Meant(r.reg, Named(q), ws))
    && HasRoom(r, cfg)
  }

  ghost predicate DirectServable(r: Relay, cfg: Config, port: int, ipAllowed: bool) {
    ipAllowed && Below(At(r.books.directCount, port), cfg.directPortLimit) && r.reg.openClients != {} && HasRoom(r, cfg)
  }

  ghost predicate WebServable(r: Relay, cfg: Config) {
    r.reg.openClients != {} && HasRoom(r, cfg)
  }

  // ---------------------------------------------------------------------------
  // What they lead to
  // ---------------------------------------------------------------------------

  /** One record more, under the first free id; the other records, the registry and what agents were sent stay. */
  ghost predicate Adds(r: Relay, r': Relay, e: Entry) {
    && r'.all == r.all + [e] && Ids.FirstFree(r.streams.Keys, r.nextId, e.Id())
    && r'.streams == r.streams[e.Id() := |r.all|] && r'.nextId == Ids.Next(e.Id())
    && r'.reg == r.reg && r'.sent == r.sent
  }

  /** A stream that has just been opened: its client has been sent TCP_OPEN for the configured host, and nobody anything else. */
  predicate Opened(t: S.Stream, cfg: Config, ws: nat, peer: S.Peer, port: int, requestId: nat, target: string) {
    && t.ident == S.Identity(t.ident.id, ws, peer, port, requestId, target)
    && t.sent.toClient == [TcpOpen(true, cfg.host, port)] && FreshTcp(t) && !t.cleaned
  }

  /** The request is served: one stream for its agent, its port, its request id and the client it means, on the books. */
  ghost predicate Serves(r: Relay, r': Relay, cfg: Config, a: nat, q: ConnectRequest) {
    && |r'.all| == |r.all| + 1 && r'.all[|r.all|].Tcp?
    && var t := r'.all[|r.all|].t;
    && Adds(r, r', Tcp(t)) && Meant(r.reg, Named(q), t.ident.ws)
    && Opened(t, cfg, t.ident.ws, S.Agent(a), PortOf(q), q.requestId, CM.TunnelOf(r.reg, t.ident.ws))
    && r'.books == Books(r.books.agentStreams[a := OwnedBy(r.books, a) + {t.ident.id}],
                         r.books.agentCount[PortOf(q) := At(r.books.agentCount, PortOf(q)) + 1], r.books.directCount)
  }

  /** What a rejection repeats of the request, so that the agent knows which one it answers. */
  function NamesBack(q: ConnectRequest): ConnectReply {
    if TunnelId.Normalize(q.target).Some? && q.requestId == 0 && Named(q) == "" then ConnectReply(None, 0, "")
    else ConnectReply(q.port, q.requestId, Named(q))
  }

  /** The request is rejected: an agent that is OPEN gets one rejection, and nothing else changes. */
  predicate Rejects(r: Relay, r': Relay, a: nat, q: ConnectRequest) {
    && r' == r.(sent := r'.sent) && r'.sent.strays == r.sent.strays
    && r'.sent.rejections == if a !in r.reg.openAgents then r.sent.rejections
                             else r.sent.rejections[a := (if a in r.sent.rejections then r.sent.rejections[a] else []) + [NamesBack(q)]]
  }

  /** The OPEN client that has the least buffered; of several such, the one that joined first. */
  ghost predicate LeastBusy(r: Relay, rd: Readings, ws: nat) {
    exists k: nat :: CM.IsLeast(r.reg.clients, r.reg.openClients, rd.load, k) && r.reg.clients[k] == ws
  }

  ghost predicate DirectServes(r: Relay, r': Relay, cfg: Config, rd: Readings, port: int) {
    && |r'.all| == |r.all| + 1 && r'.all[|r.all|].Tcp?
    && var t := r'.all[|r.all|].t;
    && Adds(r, r', Tcp(t)) && LeastBusy(r, rd, t.ident.ws)
    && Opened(t, cfg, t.ident.ws, S.External, port, 0, "")
    && r'.books == r.books.(directCount := r.books.directCount[port := At(r.books.directCount, port) + 1])
  }

  /** The record of a request: its client has been sent REQ_META, and nothing has been called on the response. */
  ghost predicate WebServes(r: Relay, r': Relay, rd: Readings) {
    && |r'.all| == |r.all| + 1 && r'.all[|r.all|].Web?
    && var w := r'.all[|r.all|].h;
    && Adds(r, r', Web(w)) && LeastBusy(r, rd, w.ws) && r'.books == r.books
    && !w.cleaned && w.toClient == [ReqMeta] && w.res.calls == [] && !w.res.started && !w.requestEnded
  }

  // ---------------------------------------------------------------------------
  // One request
  // ---------------------------------------------------------------------------

  /** The lookup finds exactly the client a request means. */
  lemma ResolvesMeant(reg: CM.Registry, tunnelId: string)
    requires CM.Indexed(reg) && (tunnelId == "" || TunnelId.IsTunnelId(tunnelId))
    ensures CM.Resolve(reg, tunnelId).Some? <==> exists ws: nat :: Meant(reg, tunnelId, ws)
    ensures var c := CM.Resolve(reg, tunnelId); c.Some? ==> Meant(reg, tunnelId, c.value.0) && c.value.1 == CM.TunnelOf(reg, c.value.0)
  {
    hide CM.Resolve, CM.Indexed;
    CM.ResolveOk(reg, tunnelId);
    if tunnelId == "" {
      CM.UnnamedLookup(reg);
      if CM.Resolve(reg, "").Some? { assert Meant(reg, "", CM.Resolve(reg, "").value.0); }
      if exists ws: nat :: Meant(reg, "", ws) { var ws: nat :| Meant(reg, "", ws); assert |reg.openClients| == 1; }
    } else {
      CM.NamedLookup(reg, tunnelId);
      if exists ws :: CM.Answers(reg, ws, tunnelId) { var ws :| CM.Answers(reg, ws, tunnelId); assert Meant(reg, tunnelId, ws); }
      if exists ws: nat :: Meant(reg, tunnelId, ws) { var ws: nat :| Meant(reg, tunnelId, ws); assert CM.Answers(reg, ws, tunnelId); }
    }
  }

  lemma RoomIff(r: Relay, cfg: Config)
    ensures HasRoom(r, cfg) <==> |r.streams| < cfg.maxStreams && Ids.Allocate(r.streams.Keys, r.nextId).Some?
    ensures var id := Ids.Allocate(r.streams.Keys, r.nextId); id.Some? ==> Ids.FirstFree(r.streams.Keys, r.nextId, id.value)
  {
    hide Ids.Allocate, Ids.FirstFree;
    Ids.AllocateIsFirst(r.streams.Keys, r.nextId);
    Ids.AllocateFailsIffFull(r.streams.Keys, r.nextId);
    if HasRoom(r, cfg) {
      var id: nat :| Ids.IsId(id) && id !in r.streams;
      assert id !in r.streams.Keys;
    }
    var id := Ids.Allocate(r.streams.Keys, r.nextId);
    if id.Some? { assert id.value !in r.streams; }
  }

  lemma OpenedNow(r: Relay, cfg: Config, rd: Readings, id: nat, ws: nat, peer: S.Peer, port: int, requestId: nat, target: string)
    requires ws in r.reg.openClients
    ensures var e := OpenTcp(r, cfg, rd, id, ws, peer, port, requestId, target);
            e.Tcp? && e.t.ident.id == id && e.t.ident.ws == ws && Opened(e.t, cfg, ws, peer, port, requestId, target)
  {
    hide DataOf, S.ClientTalk, FreshTcp;
    OpenTcpFresh(r, cfg, rd, id, ws, peer, port, requestId, target);
    assert [] + [TcpOpen(true, cfg.host, port)] == [TcpOpen(true, cfg.host, port)];
  }

  /** The conditions, one by one, as the code finds them out. */
  lemma ServableIff(r: Relay, cfg: Config, a: nat, q: ConnectRequest)
    requires CM.Indexed(r.reg)
    ensures Servable(r, cfg, a, q) <==>
            && TunnelId.Normalize(q.target).Some? && q.port.Some? && q.port.value in cfg.allowedPorts
            && Below(At(r.books.agentCount, PortOf(q)), cfg.agentPortLimit) && Below(|OwnedBy(r.books, a)|, cfg.agentStreamLimit)
            && CM.Resolve(r.reg, Named(q)).Some? && |r.streams| < cfg.maxStreams && Ids.Allocate(r.streams.Keys, r.nextId).Some?
  {
    hide CM.Resolve, CM.Indexed, Ids.Allocate, Ids.FirstFree, Meant, HasRoom, Below;
    if TunnelId.Normalize(q.target).Some? { ResolvesMeant(r.reg, Named(q)); }
    RoomIff(r, cfg);
  }

  lemma ConnectServes(r: Relay, cfg: Config, rd: Readings, a: nat, q: ConnectRequest)
    requires Inv(r, cfg) && a in r.books.agentStreams && Servable(r, cfg, a, q)
    ensures Serves(r, Connect(r, cfg, rd, a, q), cfg, a, q)
  {
    hide InvBut, CM.Resolve, CM.Indexed, CM.TunnelOf, TunnelId.Normalize, TunnelId.IsTunnelId, OpenTcp, Ids.Allocate, Ids.FirstFree, FreshTcp,
         Meant, HasRoom, Servable;
    IndexedOf(r, cfg);
    ServableIff(r, cfg, a, q);
    RoomIff(r, cfg);
    ResolvesMeant(r.reg, Named(q));
    CM.ResolveOk(r.reg, Named(q));
    var c, id := CM.Resolve(r.reg, Named(q)), Ids.Allocate(r.streams.Keys, r.nextId);
    OpenedNow(r, cfg, rd, id.value, c.value.0, S.Agent(a), PortOf(q), q.requestId, c.value.1);
  }

  lemma ConnectRejects(r: Relay, cfg: Config, rd: Readings, a: nat, q: ConnectRequest)
    requires Inv(r, cfg) && a in r.books.agentStreams && !Servable(r, cfg, a, q)
    ensures Rejects(r, Connect(r, cfg, rd, a, q), a, q)
  {
    hide InvBut, CM.Resolve, CM.Indexed, TunnelId.Normalize, TunnelId.IsTunnelId, OpenTcp, Ids.Allocate, Servable;
    IndexedOf(r, cfg);
    ServableIff(r, cfg, a, q);
  }

  /** A TCP_CONNECT of a registered agent is served if and only if every condition for it holds, and rejected once otherwise. */
  lemma ConnectServesIff(r: Relay, cfg: Config, rd: Readings, a: nat, q: ConnectRequest)
    requires Inv(r, cfg) && a in r.books.agentStreams
    ensures var r' := Connect(r, cfg, rd, a, q);
            if Servable(r, cfg, a, q) then Serves(r, r', cfg, a, q) else Rejects(r, r', a, q)
  {
    hide Inv, Connect, Servable, Serves, Rejects;
    if Servable(r, cfg, a, q) { ConnectServes(r, cfg, rd, a, q); } else { ConnectRejects(r, cfg, rd, a, q); }
  }

  lemma IndexedOf(r: Relay, cfg: Config)
    requires Inv(r, cfg)
    ensures CM.Indexed(r.reg)
  {
    hide CM.Indexed;
    Clauses(r, cfg, {});
  }

  /** A direct connection is taken if and only if every condition for it holds; otherwise nothing changes. */
  lemma AcceptDirectIff(r: Relay, cfg: Config, rd: Readings, port: int, ipAllowed: bool)
    requires Inv(r, cfg)
    ensures var r' := AcceptDirect(r, cfg, rd, port, ipAllowed);
            if DirectServable(r, cfg, port, ipAllowed) then DirectServes(r, r', cfg, rd, port) else r' == r
  {
    hide InvBut, CM.LeastLoaded, CM.Indexed, OpenTcp, Ids.Allocate, Ids.FirstFree, FreshTcp, HasRoom, LeastBusy;
    IndexedOf(r, cfg);
    RoomIff(r, cfg);
    LeastLoadedIff(r, rd);
    var ws, id := CM.LeastLoaded(r.reg.clients, r.reg.openClients, rd.load), Ids.Allocate(r.streams.Keys, r.nextId);
    if ws.Some? && id.Some? { OpenedNow(r, cfg, rd, id.value, ws.value, S.External, port, 0, ""); }
  }

  /** And so is an HTTP request. */
  lemma AcceptWebIff(r: Relay, cfg: Config, rd: Readings)
    requires Inv(r, cfg)
    ensures var r' := AcceptWeb(r, cfg, rd);
            if WebServable(r, cfg) then WebServes(r, r', rd) else r' == r
  {
    hide InvBut, CM.LeastLoaded, CM.Indexed, Ids.Allocate, Ids.FirstFree, HasRoom, LeastBusy;
    IndexedOf(r, cfg);
    RoomIff(r, cfg);
    LeastLoadedIff(r, rd);
  }

  lemma LeastLoadedIff(r: Relay, rd: Readings)
    requires CM.Indexed(r.reg)
    ensures var ws := CM.LeastLoaded(r.reg.clients, r.reg.openClients, rd.load);
            if ws.Some? then LeastBusy(r, rd, ws.value) && ws.value in r.reg.openClients && r.reg.openClients != {}
            else r.reg.openClients == {}
  {
    hide CM.LeastLoaded;
    CM.LeastLoadedFirst(r.reg.clients, r.reg.openClients, rd.load);
  }

  /** The requests for a stream: a TCP_CONNECT, which belongs to no stream, a connection, an HTTP request. */
  predicate Asks(ev: Event) {
    (ev.AgentSends? && ev.f.TcpConnect? && ev.id == NO_STREAM) || ev.DirectConnection? || ev.WebRequest?
  }

  /** What a request comes to. */
  ghost predicate Answered(r: Relay, r': Relay, cfg: Config, rd: Readings, ev: Event) {
    match ev
    case AgentSends(a, _, f) =>
      f.TcpConnect? ==> if Servable(r, cfg, a, f.request) then Serves(r, r', cfg, a, f.request) else Rejects(r, r', a, f.request)
    case DirectConnection(port, ok) => if DirectServable(r, cfg, port, ok) then DirectServes(r, r', cfg, rd, port) else r' == r
    case WebRequest => if WebServable(r, cfg) then WebServes(r, r', rd) else r' == r
    case _ => true
  }

  /** Each is served in its own step, if and only if it can be. */
  lemma RequestsServedIff(r: Relay, cfg: Config, rd: Readings, ev: Event)
    requires Inv(r, cfg) && Enabled(r, cfg, rd, ev) && Asks(ev)
    ensures Answered(r, Step(r, cfg, rd, ev), cfg, rd, ev)
  {
    hide InvBut, Connect, AcceptDirect, AcceptWeb, Servable, Serves, Rejects, DirectServable, DirectServes, WebServable, WebServes, NeverServed;
    match ev
    case AgentSends(a, _, f) => ConnectServesIff(r, cfg, rd, a, f.request);
    case DirectConnection(port, ok) => AcceptDirectIff(r, cfg, rd, port, ok);
    case WebRequest => AcceptWebIff(r, cfg, rd);
    case _ =>
  }

  // ---------------------------------------------------------------------------
  // Who is registered
  // ---------------------------------------------------------------------------

  /** What a step makes of the clients and agents: nobody comes, goes or closes but by their own event. */
  ghost predicate RegistryMoved(r: Relay, r': Relay, cfg: Config, ev: Event) {
    match ev
    case ClientJoins(ws, id) =>
      if CM.MayJoin(r.reg, cfg.maxClients, id) then CM.Joined(r.reg, r'.reg, ws, TunnelId.Normalize(id).value) else r'.reg == r.reg
    case ClientLeaves(ws) => CM.Forgotten(r.reg, r'.reg, ws)
    case ClientCloses(ws) => r'.reg == r.reg.(openClients := r'.reg.openClients) && r'.reg.openClients == r.reg.openClients - {ws}
    case AgentJoins(a) => r'.reg == r.reg.(openAgents := r'.reg.openAgents) && r'.reg.openAgents == r.reg.openAgents + {a}
    case AgentCloses(a) => r'.reg == r.reg.(openAgents := r'.reg.openAgents) && r'.reg.openAgents == r.reg.openAgents - {a}
    case _ => r'.reg == r.reg
  }

  /** An agent is registered from its joining to its leaving, with nothing to its name at first. */
  ghost predicate AgentsMoved(r: Relay, r': Relay, ev: Event) {
    && r'.books.agentStreams.Keys == (if ev.AgentJoins? then r.books.agentStreams.Keys + {ev.a}
                                      else if ev.AgentLeaves? then r.books.agentStreams.Keys - {ev.a}
                                      else r.books.agentStreams.Keys)
    && (ev.AgentJoins? ==> OwnedBy(r'.books, ev.a) == {})
  }

  lemma RegistryMoves(r: Relay, cfg: Config, rd: Readings, ev: Event)
    requires Inv(r, cfg) && Enabled(r, cfg, rd, ev)
    ensures RegistryMoved(r, Step(r, cfg, rd, ev), cfg, ev)
  {
    hide InvBut, S.FromClient, S.FromAgent, S.OnLocal, H.FromClient, H.OnLocal, S.Possible, H.Possible, Connect, AcceptDirect, AcceptWeb, Settled,
         AbortAll, CM.AddClient, CM.ForgetClient, CM.Indexed, CM.MayJoin, CM.Joined, CM.Forgotten, TunnelId.Normalize, NeverServed;
    IndexedOf(r, cfg);
    match ev
    case ClientJoins(ws, id) => CM.AdmittedIff(r.reg, cfg.maxClients, ws, id);
    case ClientLeaves(ws) => CM.ForgottenOnly(r.reg, ws);
    case AgentSends(a, id, f) => if f.TcpConnect? { ConnectKeeps(r, cfg, rd, a, f.request); }
    case DirectConnection(port, ok) => AcceptKeeps(r, cfg, rd, port, ok);
    case WebRequest => AcceptKeeps(r, cfg, rd, 0, true);
    case _ =>
  }

  /** A request for a stream registers nobody, and forgets nobody. */
  lemma ConnectKeeps(r: Relay, cfg: Config, rd: Readings, a: nat, q: ConnectRequest)
    ensures var r' := Connect(r, cfg, rd, a, q); r'.reg == r.reg && r'.books.agentStreams.Keys == r.books.agentStreams.Keys
  {
    hide OpenTcp;
  }

  lemma AcceptKeeps(r: Relay, cfg: Config, rd: Readings, port: int, ok: bool)
    ensures var r' := AcceptDirect(r, cfg, rd, port, ok); r'.reg == r.reg && r'.books.agentStreams.Keys == r.books.agentStreams.Keys
    ensures var r' := AcceptWeb(r, cfg, rd); r'.reg == r.reg && r'.books.agentStreams.Keys == r.books.agentStreams.Keys
  {
    hide OpenTcp;
  }

  lemma {:induction false} SettledKeeps(b: Books, i: S.Identity, from: nat, to: nat)
    ensures Settled(b, i, from, to).agentStreams.Keys == b.agentStreams.Keys
    decreases if from < to then to - from else 0
  {
    if from < to { SettledKeeps(if i.peer.External? && from > 0 then b else Release(b, i), i, from + 1, to); }
  }

  lemma SettleKeeps(r: Relay, h: nat, e': Entry)
    ensures Settle(r, h, e').books.agentStreams.Keys == r.books.agentStreams.Keys
  {
    hide Settled;
    if h < |r.all| && r.all[h].Tcp? && e'.Tcp? { SettledKeeps(r.books, r.all[h].t.ident, r.all[h].t.cleanups, e'.t.cleanups); }
  }

  lemma {:induction false} AbortAllKeeps(r: Relay, cfg: Config, rd: Readings, who: Victims, h: nat)
    ensures AbortAll(r, cfg, rd, who, h).books.agentStreams.Keys == r.books.agentStreams.Keys
    decreases |r.all| - h
  {
    hide Settle, Aborted, Selected;
    if h < |r.all| {
      var e' := Aborted(r, cfg, rd, r.all[h], who.OfIds?);
      SettleKeeps(r, h, e');
      SettleFrame(r, h, e');
      AbortAllKeeps(if Selected(r, who, h) then Settle(r, h, e') else r, cfg, rd, who, h + 1);
    }
  }

  lemma AgentsMove(r: Relay, cfg: Config, rd: Readings, ev: Event)
    requires Inv(r, cfg) && Enabled(r, cfg, rd, ev)
    ensures AgentsMoved(r, Step(r, cfg, rd, ev), ev)
  {
    hide InvBut, S.FromClient, S.FromAgent, S.OnLocal, H.FromClient, H.OnLocal, S.Possible, H.Possible, Connect, AcceptDirect, AcceptWeb, Settle,
         AbortAll, CM.AddClient, CM.ForgetClient, NeverServed;
    match ev
    case ClientLeaves(ws) => AbortAllKeeps(r.(reg := CM.ForgetClient(r.reg, ws)), cfg, rd, OfClient(ws), 0);
    case AgentLeaves(a) =>
      AbortAllKeeps(r.(books := r.books.(agentStreams := r.books.agentStreams - {a})), cfg, rd, OfIds(OwnedBy(r.books, a)), 0);
    case ClientSends(ws, id, f) =>
      if id in r.streams && r.streams[id] < |r.all| {
        match r.all[r.streams[id]]
        case Tcp(t) => SettleKeeps(r, r.streams[id], Tcp(S.FromClient(t, EnvOf(r, cfg, rd, t.ident), f)));
        case Web(w) => SettleKeeps(r, r.streams[id], Web(H.FromClient(w, WebEnvOf(r, rd, ws), f)));
      }
    case AgentSends(a, id, f) =>
      if f.TcpConnect? {
        ConnectKeeps(r, cfg, rd, a, f.request);
      } else if id in r.streams && r.streams[id] < |r.all| && r.all[r.streams[id]].Tcp? {
        var t := r.all[r.streams[id]].t;
        SettleKeeps(r, r.streams[id], Tcp(S.FromAgent(t, EnvOf(r, cfg, rd, t.ident), f)));
      }
    case DirectConnection(port, ok) => AcceptKeeps(r, cfg, rd, port, ok);
    case WebRequest => AcceptKeeps(r, cfg, rd, 0, true);
    case StreamEvent(g, l) => SettleKeeps(r, g, Tcp(S.OnLocal(r.all[g].t, EnvOf(r, cfg, rd, r.all[g].t.ident), l)));
    case WebEvent(g, l) => SettleKeeps(r, g, Web(H.OnLocal(r.all[g].h, WebEnvOf(r, rd, r.all[g].h.ws), l)));
    case _ =>
  }

  // ---------------------------------------------------------------------------
  // Every stream of a run
  // ---------------------------------------------------------------------------

  /** The request could be served, and t is the stream of it. */
  ghost predicate ServedBy(r: Relay, cfg: Config, ev: Event, t: S.Stream) {
    match ev
    case AgentSends(a, id, f) =>
      && f.TcpConnect? && id == NO_STREAM && Servable(r, cfg, a, f.request)
      && t.ident.peer == S.Agent(a) && t.ident.serverPort == PortOf(f.request) && t.ident.requestId == f.request.requestId
    case DirectConnection(port, ok) => DirectServable(r, cfg, port, ok) && t.ident.peer == S.External && t.ident.serverPort == port
    case _ => false
  }

  /** Handle h is in use already before the last step. */
  predicate IsOld(cfg: Config, script: Script, h: nat) {
    h < |After(cfg, Before(script)).all|
  }

  /** The step that opened the stream under handle h was a request that could be served, and it is the stream of that request. */
  ghost predicate Admitted(cfg: Config, script: Script, h: nat) {
    script != []
    && if IsOld(cfg, script, h) then Admitted(cfg, Before(script), h)
       else ServedBy(After(cfg, Before(script)), cfg, Last(script).1, StreamAfter(cfg, script, h))
  }

  /** What a stream was opened for never changes. */
  lemma SameFor(cfg: Config, script: Script, h: nat)
    requires script != [] && StreamOfRun(cfg, script, h) && IsOld(cfg, script, h)
    ensures StreamOfRun(cfg, Before(script), h)
    ensures StreamAfter(cfg, script, h).ident == StreamAfter(cfg, Before(script), h).ident
  {
    hide Step, Enabled, Moved, InvBut;
    RunInv(cfg, Before(script));
    if IsTcp(After(cfg, Before(script)).all, h) {
      StepMoved(After(cfg, Before(script)), cfg, Last(script).0, Last(script).1, h);
      RC.SameIdent(After(cfg, Before(script)), cfg, Last(script).0, Last(script).1, h);
    } else {
      WebStays(After(cfg, Before(script)), cfg, Last(script).0, Last(script).1, h);
    }
  }

  lemma OthersOpenNothing(r: Relay, cfg: Config, rd: Readings, ev: Event)
    requires !Asks(ev)
    ensures |Step(r, cfg, rd, ev).all| == |r.all|
  {
    hide S.FromClient, S.FromAgent, S.OnLocal, H.FromClient, H.OnLocal, CM.AddClient, CM.ForgetClient, Connect, AcceptDirect, AcceptWeb, AbortAll,
         Settled;
  }

  /** The step that opens a stream. */
  lemma OpensAdmitted(cfg: Config, script: Script, h: nat)
    requires script != [] && StreamOfRun(cfg, script, h) && !IsOld(cfg, script, h)
    ensures Admitted(cfg, script, h)
  {
    hide InvBut, Connect, AcceptDirect, AcceptWeb, Servable, DirectServable, WebServable, CM.Indexed, CM.TunnelOf, Meant, LeastBusy, FreshTcp,
         Ids.FirstFree, S.FromClient, S.FromAgent, S.OnLocal, H.FromClient, H.OnLocal, CM.AddClient, CM.ForgetClient, AbortAll, Settle;
    var r := After(cfg, Before(script));
    var (rd, ev) := Last(script);
    RunInv(cfg, Before(script));
    if !Asks(ev) {
      OthersOpenNothing(r, cfg, rd, ev);
    } else {
      RequestsServedIff(r, cfg, rd, ev);
    }
  }

  lemma AdmittedPort(cfg: Config, script: Script, h: nat)
    requires script != [] && !IsOld(cfg, script, h) && Admitted(cfg, script, h)
    ensures var i := StreamAfter(cfg, script, h).ident; i.peer.Agent? ==> i.serverPort in cfg.allowedPorts
  {
    hide Run, After, HasRoom, Below, Meant;
  }

  /**
   * In every run, every TCP stream was opened by a request that met every condition when it came, and is the
   * stream of that request; so an agent's stream is for an allowed port, and no stream is there for an address
   * that is not allowed.
   */
  lemma {:induction false} AllAdmitted(cfg: Config, script: Script, h: nat)
    requires StreamOfRun(cfg, script, h)
    ensures Admitted(cfg, script, h)
    ensures var i := StreamAfter(cfg, script, h).ident; i.peer.Agent? ==> i.serverPort in cfg.allowedPorts
  {
    hide Step, Enabled, Servable, DirectServable, Run;
    if script == [] {
      NothingAtFirst(cfg, h);
    } else if IsOld(cfg, script, h) {
      SameFor(cfg, script, h);
      AllAdmitted(cfg, Before(script), h);
    } else {
      OpensAdmitted(cfg, script, h);
      AdmittedPort(cfg, script, h);
    }
  }
}
