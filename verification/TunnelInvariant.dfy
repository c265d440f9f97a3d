/** What every step of the whole tunnel keeps, as long as no stream id is reused while frames carrying it are under way. */
module TunnelInvariant {
  import opened Frames
  import opened Tunnel
  import opened TunnelLegs
  import CM = ClientManager
  import R = Relay
  import RI = RelayInvariant
  import S = RelayStream
  import SI = RelayStreamInvariant
  import SE = RelayStreamEffects
  import A = TcpAgent
  import H = HttpStream
  import Ids = StreamIds

  // ---------------------------------------------------------------------------
  // The invariant
  // ---------------------------------------------------------------------------

  ghost predicate LegOk(s: S.Stream, hop: Hop, clientUp: set<nat>, agentUp: set<nat>, heard: set<nat>) {
    && ClientLeg(s, hop.near, s.ident.ws in clientUp)
    && (s.ident.peer.Agent? ==> AgentLeg(s, hop.far, s.ident.AgentWs() in agentUp, s.ident.AgentWs() in heard))
  }

  ghost predicate LegsOk(all: seq<R.Entry>, hops: seq<Hop>, clientUp: set<nat>, agentUp: set<nat>, heard: set<nat>) {
    forall h :: 0 <= h < |all| && h < |hops| && all[h].Tcp? ==> LegOk(all[h].t, hops[h], clientUp, agentUp, heard)
  }

  /** The client's record of stream h is in place, under this key. */
  predicate ClientHolds(all: seq<R.Entry>, hops: seq<Hop>, h: nat, key: (nat, nat)) {
    && h < |all| && h < |hops| && all[h].Tcp?
    && hops[h].near.c.Some? && !hops[h].near.Rec().cleaned && ClientKey(all[h].t.ident) == key
  }

  /** The clients' maps hold exactly the records in place: no TCP_OPEN ever overwrote one. */
  ghost predicate ClientIndexed(all: seq<R.Entry>, hops: seq<Hop>, ids: map<(nat, nat), nat>) {
    && (forall key :: key in ids ==> ClientHolds(all, hops, ids[key], key))
    && (forall h: nat, key :: ClientHolds(all, hops, h, key) ==> key in ids && ids[key] == h)
  }

  predicate AgentHolds(all: seq<R.Entry>, hops: seq<Hop>, h: nat, key: (nat, nat)) {
    && h < |all| && h < |hops| && all[h].Tcp? && all[h].t.ident.peer.Agent?
    && hops[h].far.a.Some? && !hops[h].far.Rec().cleaned && AgentKey(all[h].t.ident) == key
  }

  ghost predicate AgentIndexed(all: seq<R.Entry>, hops: seq<Hop>, ids: map<(nat, nat), nat>) {
    && (forall key :: key in ids ==> AgentHolds(all, hops, ids[key], key))
    && (forall h: nat, key :: AgentHolds(all, hops, h, key) ==> key in ids && ids[key] == h)
  }

  predicate Gone(s: S.Stream) {
    s.cleaned && s.sock.destroyed
  }

  /** Nothing of this stream is left at the client, nor on the way to or from it. */
  predicate NearQuiet(s: S.Stream, n: Near) {
    n.kc == |s.sent.toClient| && n.c.Some? && n.Rec().cleaned && n.kr == |n.Rec().sent|
  }

  predicate FarQuiet(s: S.Stream, f: Far) {
    f.kg == |s.sent.toFar| && (f.a.Some? ==> f.Rec().cleaned && f.ka == |f.Rec().sent|)
  }

  /** Stream s is over wherever stream i could meet its frames. */
  predicate OverFor(s: S.Stream, hop: Hop, i: S.Identity) {
    && Gone(s)
    && (s.ident.ws == i.ws ==> NearQuiet(s, hop.near))
    && (s.ident.peer == i.peer && i.peer.Agent? ==> FarQuiet(s, hop.far))
  }

  /** Every stream that had the id of i is over for it. */
  ghost predicate ApartFrom(all: seq<R.Entry>, hops: seq<Hop>, i: S.Identity) {
    forall g :: 0 <= g < |all| && g < |hops| && all[g].Tcp? && all[g].t.ident.id == i.id ==> OverFor(all[g].t, hops[g], i)
  }

  /** Of two streams that had the same id, the older one is over. */
  ghost predicate Apart(all: seq<R.Entry>, hops: seq<Hop>) {
    forall g, h :: 0 <= g < h < |all| && h < |hops| && all[g].Tcp? && all[h].Tcp? && all[g].t.ident.id == all[h].t.ident.id ==>
      OverFor(all[g].t, hops[g], all[h].t.ident)
  }

  /** The stream was opened for this request of the connection: same port, and on the client of that tunnel id. */
  predicate ServesRequest(i: S.Identity, conn: AgentConn, tunnelOf: map<nat, string>) {
    && conn.first <= i.requestId < conn.first + conn.asked && conn.asked <= |conn.issued|
    && var q := conn.issued[i.requestId - conn.first];
       && q.port == i.serverPort
       && (q.target != "" ==> i.target == q.target)
       && i.ws in tunnelOf && tunnelOf[i.ws] == i.target
  }

  /** Every agent stream serves a request of its agent, and the socket bound to it is the one that asked. */
  ghost predicate Served(all: seq<R.Entry>, hops: seq<Hop>, agents: map<nat, AgentConn>, tunnelOf: map<nat, string>) {
    forall h :: 0 <= h < |all| && h < |hops| && all[h].Tcp? && all[h].t.ident.peer.Agent? ==>
      var i := all[h].t.ident;
      && i.AgentWs() in agents && ServesRequest(i, agents[i.AgentWs()], tunnelOf)
      && (hops[h].far.a.Some? ==> hops[h].far.sock == agents[i.AgentWs()].issued[i.requestId - agents[i.AgentWs()].first].sock)
  }

  predicate SamePeer(e: R.Entry, e': R.Entry) {
    e.Tcp? && e'.Tcp? && e.t.ident.peer.Agent? && e.t.ident.peer == e'.t.ident.peer
  }

  /** No request is served by two streams. */
  ghost predicate ServedOnce(all: seq<R.Entry>) {
    forall g, h :: 0 <= g < h < |all| && SamePeer(all[g], all[h]) ==> all[g].t.ident.requestId != all[h].t.ident.requestId
  }

  ghost predicate PendingOk(pending: seq<A.Pending>, conn: AgentConn) {
    && (forall i :: 0 <= i < |pending| ==>
          && conn.first <= pending[i].requestId < conn.first + |conn.issued|
          && conn.issued[pending[i].requestId - conn.first] == Issue(pending[i].sock, pending[i].targetPort, pending[i].target))
    && (forall i, j :: 0 <= i < j < |pending| ==> pending[i].requestId < pending[j].requestId)
  }

  ghost predicate ConnOk(conn: AgentConn) {
    && conn.first > 0 && conn.asked <= |conn.issued| && conn.first + |conn.issued| <= A.MAX_SAFE_INTEGER + 1
    && (forall k :: 0 <= k < |conn.issued| ==> Routable(conn.issued[k].target))
    && PendingOk(conn.pending, conn)
  }

  ghost predicate ConnsOk(agents: map<nat, AgentConn>) {
    forall a :: a in agents ==> ConnOk(agents[a])
  }

  predicate OfAgent(e: R.Entry, a: nat) {
    e.Tcp? && e.t.ident.peer == S.Agent(a)
  }

  /** No stream of agent a serves this request. */
  ghost predicate Unserved(all: seq<R.Entry>, a: nat, requestId: int) {
    forall h :: 0 <= h < |all| && OfAgent(all[h], a) ==> all[h].t.ident.requestId != requestId
  }

  /** A rejected request was asked, is rejected once, and opened no stream. */
  ghost predicate RejectedOk(all: seq<R.Entry>, rejected: seq<ConnectReply>, conn: AgentConn, a: nat) {
    && conn.rejected <= |rejected|
    && (forall k :: 0 <= k < |rejected| ==> conn.first <= rejected[k].requestId < conn.first + conn.asked)
    && (forall j, k :: 0 <= j < k < |rejected| ==> rejected[j].requestId < rejected[k].requestId)
    && (forall k, h :: 0 <= k < |rejected| && 0 <= h < |all| && OfAgent(all[h], a) ==> all[h].t.ident.requestId != rejected[k].requestId)
  }

  ghost predicate RejectionsOk(all: seq<R.Entry>, rejections: map<nat, seq<ConnectReply>>, agents: map<nat, AgentConn>) {
    && (forall a :: a in rejections ==> a in agents)
    && (forall a :: a in agents ==> RejectedOk(all, At(rejections, a), agents[a], a))
  }

  /** A stray abort on its way names no stream of that agent that is still live at the relay. */
  ghost predicate StrayedOk(all: seq<R.Entry>, strays: seq<nat>, conn: AgentConn, a: nat) {
    && conn.aborted <= |strays|
    && (forall k, h :: conn.aborted <= k < |strays| && 0 <= h < |all| && OfAgent(all[h], a) ==>
          all[h].t.ident.id == strays[k] ==> all[h].t.cleaned)
  }

  ghost predicate StraysOk(all: seq<R.Entry>, strays: map<nat, seq<nat>>, agents: map<nat, AgentConn>) {
    && (forall a :: a in strays ==> a in agents)
    && (forall a :: a in agents ==> StrayedOk(all, At(strays, a), agents[a], a))
  }

  datatype Clause =
    | RelaySide | Legs | ClientMaps | AgentMaps | IdReuse | Requests | RequestsOnce | Waiting | RejectionsSent | StraysSent

  ghost predicate Meets(c: Clause, t: Tunnel, cfg: R.Config) {
    match c
    case RelaySide => RI.Inv(t.r, cfg)
    case Legs => |t.hops| == |t.r.all| && LegsOk(t.r.all, t.hops, t.clientUp, t.agentUp, t.r.reg.openAgents)
    case ClientMaps => ClientIndexed(t.r.all, t.hops, t.clientIds)
    case AgentMaps => AgentIndexed(t.r.all, t.hops, t.agentIds)
    case IdReuse => Apart(t.r.all, t.hops)
    case Requests => Served(t.r.all, t.hops, t.agents, t.r.reg.tunnelOf)
    case RequestsOnce => ServedOnce(t.r.all)
    case Waiting => ConnsOk(t.agents)
    case RejectionsSent => RejectionsOk(t.r.all, t.r.sent.rejections, t.agents)
    case StraysSent => StraysOk(t.r.all, t.r.sent.strays, t.agents)
  }

  /** Quantified over its clauses, so that stating it does not spell them out: lemma Clauses does. */
  ghost predicate Inv(t: Tunnel, cfg: R.Config) {
    forall c :: Meets(c, t, cfg)
  }

  lemma Clauses(t: Tunnel, cfg: R.Config)
    ensures Inv(t, cfg) <==>
            && RI.Inv(t.r, cfg)
            && |t.hops| == |t.r.all|
            && LegsOk(t.r.all, t.hops, t.clientUp, t.agentUp, t.r.reg.openAgents)
            && ClientIndexed(t.r.all, t.hops, t.clientIds)
            && AgentIndexed(t.r.all, t.hops, t.agentIds)
            && Apart(t.r.all, t.hops)
            && Served(t.r.all, t.hops, t.agents, t.r.reg.tunnelOf)
            && ServedOnce(t.r.all)
            && ConnsOk(t.agents)
            && RejectionsOk(t.r.all, t.r.sent.rejections, t.agents)
            && StraysOk(t.r.all, t.r.sent.strays, t.agents)
  {
    hide LegsOk, ClientIndexed, AgentIndexed, Apart, Served, ServedOnce, ConnsOk, RejectionsOk, StraysOk;
    if Inv(t, cfg) {
      assert Meets(RelaySide, t, cfg) && Meets(Legs, t, cfg) && Meets(ClientMaps, t, cfg) && Meets(AgentMaps, t, cfg)
          && Meets(IdReuse, t, cfg) && Meets(Requests, t, cfg) && Meets(RequestsOnce, t, cfg) && Meets(Waiting, t, cfg)
          && Meets(RejectionsSent, t, cfg) && Meets(StraysSent, t, cfg);
    }
  }

  lemma InitialInv(cfg: R.Config)
    ensures Inv(Initial(), cfg)
  {
    RI.InitialInv(cfg);
    Clauses(Initial(), cfg);
  }

  // ---------------------------------------------------------------------------
  // What the relay does on its own
  // ---------------------------------------------------------------------------

  ghost predicate CalmEntry(e: R.Entry, e': R.Entry) {
    e.Tcp? == e'.Tcp? && (e.Tcp? ==> SE.Unprompted(e.t, e'.t))
  }

  /** No stream is given a frame; new ones may be added. */
  ghost predicate Calm(all: seq<R.Entry>, all': seq<R.Entry>) {
    |all| <= |all'| && forall h :: 0 <= h < |all| ==> CalmEntry(all[h], all'[h])
  }

  lemma CalmSame(e: R.Entry)
    ensures CalmEntry(e, e)
  {
  }

  lemma UnpromptedTransitive(s: S.Stream, t: S.Stream, u: S.Stream)
    requires SE.Unprompted(s, t) && SE.Unprompted(t, u)
    ensures SE.Unprompted(s, u)
  {
  }

  lemma CalmRefl(all: seq<R.Entry>)
    ensures Calm(all, all)
  {
    hide CalmEntry;
    forall h | 0 <= h < |all| ensures CalmEntry(all[h], all[h]) { CalmSame(all[h]); }
  }

  lemma CalmTransitive(a: seq<R.Entry>, b: seq<R.Entry>, c: seq<R.Entry>)
    requires Calm(a, b) && Calm(b, c)
    ensures Calm(a, c)
  {
    hide SE.Unprompted;
    forall h | 0 <= h < |a| ensures CalmEntry(a[h], c[h]) {
      assert CalmEntry(a[h], b[h]) && CalmEntry(b[h], c[h]);
      if a[h].Tcp? { UnpromptedTransitive(a[h].t, b[h].t, c[h].t); }
    }
  }

  lemma CalmUpdate(all: seq<R.Entry>, h: nat, e': R.Entry)
    requires h < |all| && CalmEntry(all[h], e')
    ensures Calm(all, all[h := e'])
  {
    hide CalmEntry;
    CalmRefl(all);
  }

  lemma CalmAppend(all: seq<R.Entry>, e: R.Entry)
    ensures Calm(all, all + [e])
  {
    hide CalmEntry;
    CalmRefl(all);
  }

  lemma AbortedCalm(r: R.Relay, cfg: R.Config, rd: R.Readings, h: nat, notify: bool)
    requires var e := R.RecordAt(r.all, h); RI.EntryOk(r.reg, cfg, e) && (notify || e.Ws() !in r.reg.openClients)
    ensures CalmEntry(R.RecordAt(r.all, h), R.Aborted(r, cfg, rd, R.RecordAt(r.all, h), notify))
  {
    hide SE.Unprompted, S.Abort, SI.Inv, H.Abort;
    match R.RecordAt(r.all, h)
    case Tcp(s) =>
      RI.TcpReady(r, cfg, rd, s);
      SE.AbortUnprompted(s, R.EnvOf(r, cfg, rd, s.ident), notify);
    case Web(w) =>
  }

  lemma EntriesSettle(r: R.Relay, cfg: R.Config, h: nat, e': R.Entry)
    requires h < |r.all| && RI.EntriesOk(r.all, r.reg, cfg) && RI.EntryOk(r.reg, cfg, e')
    ensures RI.EntriesOk(R.Settle(r, h, e').all, R.Settle(r, h, e').reg, cfg)
    ensures R.Settle(r, h, e').reg == r.reg && R.Settle(r, h, e').sent == r.sent && |R.Settle(r, h, e').all| == |r.all|
    ensures R.Settle(r, h, e').all == r.all[h := e']
  {
    hide RI.EntryOk;
  }

  lemma EntryIn(all: seq<R.Entry>, reg: CM.Registry, cfg: R.Config, h: nat)
    requires RI.EntriesOk(all, reg, cfg) && h < |all|
    ensures RI.EntryOk(reg, cfg, all[h])
  {
    hide RI.EntryOk;
  }

  lemma {:induction false} AbortAllCalm(r: R.Relay, cfg: R.Config, rd: R.Readings, who: R.Victims, h: nat)
    requires RI.EntriesOk(r.all, r.reg, cfg) && RI.Departed(who, r.reg)
    ensures var r' := R.AbortAll(r, cfg, rd, who, h); Calm(r.all, r'.all) && r'.sent == r.sent && r'.reg == r.reg
    decreases |r.all| - h
  {
    hide RI.EntryOk, RI.EntriesOk, CalmEntry, Calm, R.Settle, R.Aborted;
    if h >= |r.all| {
      CalmRefl(r.all);
    } else if R.Selected(r, who, h) {
      var e' := R.Aborted(r, cfg, rd, r.all[h], who.OfIds?);
      EntryIn(r.all, r.reg, cfg, h);
      AbortedCalm(r, cfg, rd, h, who.OfIds?);
      RI.AbortedOk(r, cfg, rd, h, who.OfIds?);
      EntriesSettle(r, cfg, h, e');
      CalmUpdate(r.all, h, e');
      AbortAllCalm(R.Settle(r, h, e'), cfg, rd, who, h + 1);
      CalmTransitive(r.all, R.Settle(r, h, e').all, R.AbortAll(R.Settle(r, h, e'), cfg, rd, who, h + 1).all);
    } else {
      AbortAllCalm(r, cfg, rd, who, h + 1);
    }
  }

  /** A stream that has just been opened, before anything reached either end. */
  predicate Newborn(s: S.Stream) {
    && !s.cleaned && |s.sent.toClient| > 0 && s.sent.toFar == []
    && s.took == S.Took([], [], false, false, false, false) && s.awaitingClientAck == s.ident.peer.Agent?
  }

  lemma NewbornLegs(s: S.Stream, clientUp: set<nat>, agentUp: set<nat>, heard: set<nat>)
    requires Newborn(s)
    ensures LegOk(s, NoHop(), clientUp, agentUp, heard)
  {
  }

  lemma OpenTcpNewborn(r: R.Relay, cfg: R.Config, rd: R.Readings, id: nat, ws: nat, peer: S.Peer, port: int,
      requestId: nat, target: string)
    requires ws in r.reg.openClients
    ensures var e := R.OpenTcp(r, cfg, rd, id, ws, peer, port, requestId, target);
            e.Tcp? && Newborn(e.t) && e.t.ident == S.Identity(id, ws, peer, port, requestId, target)
  {
    hide DataOf, S.ClientTalk;
  }

  /** A TCP stream was added, and which. */
  predicate AddsTcp(all: seq<R.Entry>, all': seq<R.Entry>) {
    |all'| > |all| && all'[|all|].Tcp?
  }

  function Added(all: seq<R.Entry>, all': seq<R.Entry>): S.Stream {
    R.TcpAt(all', |all|)
  }

  /** At most one entry was added, and if it is a TCP stream it is newborn, under an id that was free. */
  ghost predicate OpensOne(r: R.Relay, r': R.Relay) {
    && |r.all| <= |r'.all| <= |r.all| + 1
    && (AddsTcp(r.all, r'.all) ==>
          var s := Added(r.all, r'.all); Newborn(s) && s.ident.id !in r.streams && s.ident.ws in r.reg.openClients)
  }

  lemma AcceptDirectOpens(r: R.Relay, cfg: R.Config, rd: R.Readings, port: int, ok: bool)
    ensures var r' := R.AcceptDirect(r, cfg, rd, port, ok);
            && OpensOne(r, r') && Calm(r.all, r'.all) && r'.sent == r.sent && r'.reg == r.reg
            && (AddsTcp(r.all, r'.all) ==> Added(r.all, r'.all).ident.peer.External?)
  {
    hide Calm, Newborn, CM.LeastLoaded, R.OpenTcp;
    CalmRefl(r.all);
    CM.LeastLoadedOk(r.reg.clients, r.reg.openClients, rd.load);
    var ws, id := CM.LeastLoaded(r.reg.clients, r.reg.openClients, rd.load), Ids.Allocate(r.streams.Keys, r.nextId);
    if ws.Some? && id.Some? {
      OpenTcpNewborn(r, cfg, rd, id.value, ws.value, S.External, port, 0, "");
      CalmAppend(r.all, R.OpenTcp(r, cfg, rd, id.value, ws.value, S.External, port, 0, ""));
    }
  }

  lemma AcceptWebOpens(r: R.Relay, cfg: R.Config, rd: R.Readings)
    ensures var r' := R.AcceptWeb(r, cfg, rd);
            && OpensOne(r, r') && Calm(r.all, r'.all) && r'.sent == r.sent && r'.reg == r.reg
            && !AddsTcp(r.all, r'.all)
  {
    hide Calm, Newborn, CM.LeastLoaded;
    CalmRefl(r.all);
    var ws, id := CM.LeastLoaded(r.reg.clients, r.reg.openClients, rd.load), Ids.Allocate(r.streams.Keys, r.nextId);
    if ws.Some? && id.Some? {
      CalmAppend(r.all, R.Web(H.Created(id.value, ws.value)));
    }
  }

  /** A frame that reaches an HTTP stream, or nothing, leaves the TCP streams alone. */
  lemma WebFrameCalm(r: R.Relay, cfg: R.Config, rd: R.Readings, ws: nat, id: nat, f: Frame)
    requires id !in r.streams || r.streams[id] >= |r.all| || r.all[r.streams[id]].Web?
    ensures var r' := R.FromClient(r, cfg, rd, ws, id, f);
            Calm(r.all, r'.all) && |r'.all| == |r.all| && r'.sent == r.sent && r'.reg == r.reg
  {
    hide Calm, H.FromClient, S.FromClient;
    CalmRefl(r.all);
    if id in r.streams && r.streams[id] < |r.all| && r.all[r.streams[id]].Ws() == ws {
      var h := r.streams[id];
      var e' := R.Web(H.FromClient(r.all[h].h, R.WebEnvOf(r, rd, ws), f));
      CalmUpdate(r.all, h, e');
    }
  }

  lemma StreamEventCalm(r: R.Relay, cfg: R.Config, rd: R.Readings, h: nat, l: S.Local)
    requires RI.Inv(r, cfg) && R.Enabled(r, cfg, rd, R.StreamEvent(h, l))
    ensures var r' := R.Step(r, cfg, rd, R.StreamEvent(h, l));
            Calm(r.all, r'.all) && |r'.all| == |r.all| && r'.sent == r.sent && r'.reg == r.reg
  {
    hide Calm, S.OnLocal, RI.InvBut, SI.Inv, SE.Unprompted;
    var s := r.all[h].t;
    RI.EntryAt(r, cfg, h);
    RI.TcpReady(r, cfg, rd, s);
    SE.OnLocalUnprompted(s, R.EnvOf(r, cfg, rd, s.ident), l);
    CalmUpdate(r.all, h, R.Tcp(S.OnLocal(s, R.EnvOf(r, cfg, rd, s.ident), l)));
  }

  lemma WebEventCalm(r: R.Relay, cfg: R.Config, rd: R.Readings, h: nat, l: H.Local)
    requires R.Enabled(r, cfg, rd, R.WebEvent(h, l))
    ensures var r' := R.Step(r, cfg, rd, R.WebEvent(h, l));
            Calm(r.all, r'.all) && |r'.all| == |r.all| && r'.sent == r.sent && r'.reg == r.reg
  {
    hide Calm, H.OnLocal;
    var w := r.all[h].h;
    CalmUpdate(r.all, h, R.Web(H.OnLocal(w, R.WebEnvOf(r, rd, w.ws), l)));
  }

  /** How the registry may change: tunnel ids stick, and only an agent that joins becomes OPEN. */
  ghost predicate RegGrows(reg: CM.Registry, reg': CM.Registry) {
    && (forall ws :: ws in reg.tunnelOf ==> ws in reg'.tunnelOf && reg'.tunnelOf[ws] == reg.tunnelOf[ws])
    && reg'.openAgents <= reg.openAgents
  }

  /** What the relay's own steps leave alone. */
  ghost predicate OwnStep(r: R.Relay, r': R.Relay) {
    && OpensOne(r, r') && Calm(r.all, r'.all) && r'.sent == r.sent && RegGrows(r.reg, r'.reg)
    && (AddsTcp(r.all, r'.all) ==> Added(r.all, r'.all).ident.peer.External?)
  }

  lemma OwnStepOk(t: Tunnel, cfg: R.Config, rd: R.Readings, ev: R.Event)
    requires RI.Inv(t.r, cfg) && Own(t, ev) && R.Enabled(t.r, cfg, rd, ev)
    ensures OwnStep(t.r, R.Step(t.r, cfg, rd, ev))
  {
    hide RI.InvBut, Calm, Newborn, R.FromClient, R.FromAgent, R.AcceptDirect, R.AcceptWeb, R.AbortAll, R.Settle,
         S.OnLocal, H.OnLocal, CM.Admits, S.Possible, H.Possible;
    var r := t.r;
    match ev
    case ClientLeaves(ws) => LeavesEntries(r, cfg, ws); AbortAllCalm(r.(reg := CM.ForgetClient(r.reg, ws)), cfg, rd, R.OfClient(ws), 0);
    case AgentLeaves(a) =>
      CalmRefl(r.all);
      if a in r.books.agentStreams {
        LeavesAgent(r, cfg);
        AbortAllCalm(r.(books := r.books.(agentStreams := r.books.agentStreams - {a})), cfg, rd, R.OfIds(r.books.agentStreams[a]), 0);
      }
    case ClientSends(ws, id, f) => WebFrameCalm(r, cfg, rd, ws, id, f);
    case DirectConnection(port, ok) => AcceptDirectOpens(r, cfg, rd, port, ok);
    case WebRequest => AcceptWebOpens(r, cfg, rd);
    case StreamEvent(h, l) => StreamEventCalm(r, cfg, rd, h, l);
    case WebEvent(h, l) => WebEventCalm(r, cfg, rd, h, l);
    case _ => CalmRefl(r.all);
  }

  lemma LeavesEntries(r: R.Relay, cfg: R.Config, ws: nat)
    requires RI.Inv(r, cfg)
    ensures RI.EntriesOk(r.all, CM.ForgetClient(r.reg, ws), cfg)
  {
    hide RI.EntryOk, RI.Registered, RI.Accounted, RI.Owned, CM.Indexed;
    RI.Clauses(r, cfg, {});
    RI.EntriesReg(r.all, cfg, r.reg, CM.ForgetClient(r.reg, ws));
  }

  lemma LeavesAgent(r: R.Relay, cfg: R.Config)
    requires RI.Inv(r, cfg)
    ensures RI.EntriesOk(r.all, r.reg, cfg)
  {
    hide RI.EntryOk;
    RI.Clauses(r, cfg, {});
  }
}
