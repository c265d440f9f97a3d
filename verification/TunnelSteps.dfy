/** Every step of the tunnel keeps its invariant. */
module TunnelSteps {
  import opened Frames
  import opened Tunnel
  import opened TunnelLegs
  import opened TunnelInvariant
  import CM = ClientManager
  import R = Relay
  import RI = RelayInvariant
  import S = RelayStream
  import SI = RelayStreamInvariant
  import SE = RelayStreamEffects
  import C = TcpClient
  import A = TcpAgent
  import H = HttpStream
  import Ids = StreamIds
  import TunnelId

  // ---------------------------------------------------------------------------
  // The relay moves on its own, and may open a stream
  // ---------------------------------------------------------------------------

  lemma LegUnprompted(s: S.Stream, s': S.Stream, e: S.Env, hop: Hop, clientUp: set<nat>, agentUp: set<nat>,
      heard: set<nat>, heard': set<nat>)
    requires LegOk(s, hop, clientUp, agentUp, heard) && SE.Unprompted(s, s') && SI.Inv(s', e) && heard' <= heard
    ensures LegOk(s', hop, clientUp, agentUp, heard')
  {
    hide ClientLeg, AgentLeg, SI.InvWith;
    NearUnprompted(s, s', e, hop.near, s.ident.ws in clientUp);
    if s.ident.peer.Agent? {
      var a := s.ident.AgentWs();
      FarUnprompted(s, s', e, hop.far, a in agentUp, a in heard);
      FarCloses(s', hop.far, a in agentUp, a in agentUp, a in heard, a in heard');
    }
  }

  lemma LegsCalm(r: R.Relay, r': R.Relay, cfg: R.Config, hops: seq<Hop>, clientUp: set<nat>, agentUp: set<nat>)
    requires LegsOk(r.all, hops, clientUp, agentUp, r.reg.openAgents) && |hops| == |r.all|
    requires Calm(r.all, r'.all) && OpensOne(r, r') && r'.reg.openAgents <= r.reg.openAgents && RI.EntriesOk(r'.all, r'.reg, cfg)
    ensures LegsOk(r'.all, Extended(hops, |r'.all|), clientUp, agentUp, r'.reg.openAgents)
  {
    hide LegOk, SE.Unprompted, RI.EntryOk, Newborn, SI.InvWith, SI.Inv;
    var hops' := Extended(hops, |r'.all|);
    forall h | 0 <= h < |r'.all| && h < |hops'| && r'.all[h].Tcp?
      ensures LegOk(r'.all[h].t, hops'[h], clientUp, agentUp, r'.reg.openAgents)
    {
      if h < |r.all| {
        assert CalmEntry(r.all[h], r'.all[h]);
        EntryIn(r'.all, r'.reg, cfg, h);
        TcpEntry(r'.reg, cfg, r'.all[h]);
        LegUnprompted(r.all[h].t, r'.all[h].t, RI.Surroundings(r'.reg, cfg, r'.all[h].t.ident), hops[h], clientUp, agentUp, r.reg.openAgents, r'.reg.openAgents);
      } else {
        NewbornLegs(r'.all[h].t, clientUp, agentUp, r'.reg.openAgents);
      }
    }
  }

  lemma TcpEntry(reg: CM.Registry, cfg: R.Config, e: R.Entry)
    requires RI.EntryOk(reg, cfg, e) && e.Tcp?
    ensures SI.Inv(e.t, RI.Surroundings(reg, cfg, e.t.ident))
  {
    hide SI.Inv, H.Inv;
  }

  lemma IndexCalm(all: seq<R.Entry>, all': seq<R.Entry>, hops: seq<Hop>, clientIds: map<(nat, nat), nat>,
      agentIds: map<(nat, nat), nat>)
    requires Calm(all, all') && |hops| == |all| && ClientIndexed(all, hops, clientIds) && AgentIndexed(all, hops, agentIds)
    ensures ClientIndexed(all', Extended(hops, |all'|), clientIds) && AgentIndexed(all', Extended(hops, |all'|), agentIds)
  {
    hide SE.FarControl;
    var hops' := Extended(hops, |all'|);
    forall h: nat, key
      ensures ClientHolds(all', hops', h, key) <==> ClientHolds(all, hops, h, key)
      ensures AgentHolds(all', hops', h, key) <==> AgentHolds(all, hops, h, key)
    {
      if h < |all| { assert CalmEntry(all[h], all'[h]); }
    }
  }

  lemma OverForCalm(s: S.Stream, s': S.Stream, hop: Hop, i: S.Identity)
    requires SE.Unprompted(s, s') && OverFor(s, hop, i)
    ensures OverFor(s', hop, i)
  {
    hide SE.FarControl;
  }

  /** Once the id of a stream is free and nothing of it is under way, it is over at both ends as well. */
  lemma FreeIsOver(s: S.Stream, e: S.Env, hop: Hop, i: S.Identity, clientUp: set<nat>, agentUp: set<nat>, heard: set<nat>)
    requires SI.Inv(s, e) && LegOk(s, hop, clientUp, agentUp, heard) && s.cleaned
    requires s.ident.ws == i.ws ==> e.wsOpen && hop.near.kc == |s.sent.toClient| && (hop.near.c.Some? ==> hop.near.kr == |hop.near.Rec().sent|)
    requires s.ident.peer == i.peer && i.peer.Agent? ==>
               && hop.far.kg == |s.sent.toFar| && (hop.far.a.Some? ==> hop.far.ka == |hop.far.Rec().sent|)
               && e.agentOpen == (i.AgentWs() in heard)
               && (i.AgentWs() !in heard ==> hop.far.a.None? || hop.far.Rec().cleaned)
    ensures OverFor(s, hop, i)
  {
    hide S.ClientTalk, S.FarTalk, C.Word, A.Word, DataOf, AckFirst;
    assert s.sent.toClient[..|s.sent.toClient|] == s.sent.toClient;
    assert s.sent.toFar[..|s.sent.toFar|] == s.sent.toFar;
    if hop.near.c.Some? { assert hop.near.Rec().sent[..|hop.near.Rec().sent|] == hop.near.Rec().sent; }
    if hop.far.a.Some? { assert hop.far.Rec().sent[..|hop.far.Rec().sent|] == hop.far.Rec().sent; }
    TalkPrefix(s.sent.toClient, |s.sent.toClient|);
  }

  lemma ApartCalm(all: seq<R.Entry>, all': seq<R.Entry>, hops: seq<Hop>)
    requires Apart(all, hops) && Calm(all, all') && |hops| == |all| && |all'| <= |all| + 1
    requires AddsTcp(all, all') ==> ApartFrom(all, hops, Added(all, all').ident)
    ensures Apart(all', Extended(hops, |all'|))
  {
    hide SE.Unprompted, OverFor;
    var hops' := Extended(hops, |all'|);
    forall g, h | 0 <= g < h < |all'| && h < |hops'| && all'[g].Tcp? && all'[h].Tcp? && all'[g].t.ident.id == all'[h].t.ident.id
      ensures OverFor(all'[g].t, hops'[g], all'[h].t.ident)
    {
      CalmIdent(all, all', g);
      if h < |all| { CalmIdent(all, all', h); }
      assert OverFor(all[g].t, hops[g], all'[h].t.ident);
      OverForCalm(all[g].t, all'[g].t, hops[g], all'[h].t.ident);
    }
  }

  lemma CalmIdent(all: seq<R.Entry>, all': seq<R.Entry>, h: nat)
    requires Calm(all, all') && h < |all|
    ensures all[h].Tcp? == all'[h].Tcp?
    ensures all[h].Tcp? ==> SE.Unprompted(all[h].t, all'[h].t) && all'[h].t.ident == all[h].t.ident && (all[h].t.cleaned ==> all'[h].t.cleaned)
  {
    hide SE.FarControl;
    assert CalmEntry(all[h], all'[h]);
  }

  /** A new stream under a reusable id meets nothing of an older one. */
  lemma NewIsApart(t: Tunnel, cfg: R.Config, i: S.Identity, g: nat)
    requires Inv(t, cfg) && Reusable(t, i) && i.id !in t.r.streams && i.ws in t.r.reg.openClients && IsStream(t, g) && t.Str(g).ident.id == i.id
    ensures OverFor(t.Str(g), t.HopAt(g), i)
  {
    hide RI.EntryOk, LegOk, OverFor, RI.Owned, RI.Accounted, RI.NoOrphans, RI.Known, RI.Bounded, CM.Indexed, Apart,
         Served, ServedOnce, ConnsOk, RejectionsOk, StraysOk, ClientIndexed, AgentIndexed, SI.InvWith, SI.Inv;
    RI.Clauses(t.r, cfg, {});
    Clauses(t, cfg);
    var s := t.Str(g);
    RI.EntryAt(t.r, cfg, g);
    TcpEntry(t.r.reg, cfg, t.r.all[g]);
    assert RI.Live(t.r.all, g, i.id) <==> !s.cleaned;
    FreeIsOver(s, RI.Surroundings(t.r.reg, cfg, s.ident), t.HopAt(g), i, t.clientUp, t.agentUp, t.r.reg.openAgents);
  }

  lemma NewIsApartFromAll(t: Tunnel, cfg: R.Config, r': R.Relay)
    requires Inv(t, cfg) && OpensOne(t.r, r') && OpensReusable(t, r')
    ensures AddsTcp(t.r.all, r'.all) ==> ApartFrom(t.r.all, t.hops, Added(t.r.all, r'.all).ident)
  {
    hide Reusable, OverFor, Newborn;
    if AddsTcp(t.r.all, r'.all) {
      var i := r'.all[|t.r.all|].t.ident;
      forall g | 0 <= g < |t.r.all| && g < |t.hops| && t.r.all[g].Tcp? && t.r.all[g].t.ident.id == i.id
        ensures OverFor(t.r.all[g].t, t.hops[g], i)
      {
        NewIsApart(t, cfg, i, g);
      }
    }
  }

  /** Every WebSocket keeps its tunnel id. */
  ghost predicate Sticks(tunnelOf: map<nat, string>, tunnelOf': map<nat, string>) {
    forall ws :: ws in tunnelOf ==> ws in tunnelOf' && tunnelOf'[ws] == tunnelOf[ws]
  }

  lemma ServedCalm(all: seq<R.Entry>, all': seq<R.Entry>, hops: seq<Hop>, agents: map<nat, AgentConn>, tunnelOf: map<nat, string>,
      tunnelOf': map<nat, string>)
    requires Calm(all, all') && |hops| == |all| && |all'| <= |all| + 1 && Served(all, hops, agents, tunnelOf) && ServedOnce(all)
    requires Sticks(tunnelOf, tunnelOf')
    requires AddsTcp(all, all') ==> Added(all, all').ident.peer.External?
    ensures Served(all', Extended(hops, |all'|), agents, tunnelOf') && ServedOnce(all')
  {
    hide SE.Unprompted;
    forall h: nat | h < |all|
      ensures all[h].Tcp? == all'[h].Tcp?
      ensures all[h].Tcp? ==> all'[h].t.ident == all[h].t.ident
    {
      CalmIdent(all, all', h);
    }
  }

  lemma RepliesCalm(all: seq<R.Entry>, all': seq<R.Entry>, sent: R.Sent, agents: map<nat, AgentConn>)
    requires Calm(all, all') && |all'| <= |all| + 1 && RejectionsOk(all, sent.rejections, agents) && StraysOk(all, sent.strays, agents)
    requires AddsTcp(all, all') ==> Added(all, all').ident.peer.External?
    ensures RejectionsOk(all', sent.rejections, agents) && StraysOk(all', sent.strays, agents)
  {
    hide RejectedOk, StrayedOk, Calm, KeepsEntries;
    CalmKeeps(all, all');
    forall a | a in agents
      ensures RejectedOk(all', At(sent.rejections, a), agents[a], a) && StrayedOk(all', At(sent.strays, a), agents[a], a)
    {
      RejectedKeeps(all, all', At(sent.rejections, a), agents[a], a);
      StrayedKeeps(all, all', At(sent.strays, a), agents[a], a);
    }
  }

  lemma EntriesOf(r: R.Relay, cfg: R.Config)
    requires RI.Inv(r, cfg)
    ensures RI.EntriesOk(r.all, r.reg, cfg)
  {
    hide RI.EntriesOk;
    RI.Clauses(r, cfg, {});
  }

  lemma RelayEventInv(t: Tunnel, cfg: R.Config, rd: R.Readings, v: R.Event)
    requires Inv(t, cfg) && Own(t, v) && R.Enabled(t.r, cfg, rd, v) && OpensReusable(t, R.Step(t.r, cfg, rd, v))
    ensures Inv(RelayMoves(t, R.Step(t.r, cfg, rd, v), v), cfg)
  {
    hide R.Step, R.Enabled, RI.InvBut, LegsOk, ClientIndexed, AgentIndexed, Apart, Served, ServedOnce, ConnsOk,
         RejectionsOk, StraysOk, Calm, OpensReusable, Own, OpensOne;
    Clauses(t, cfg);
    var r' := R.Step(t.r, cfg, rd, v);
    RI.StepInv(t.r, cfg, rd, v);
    OwnStepOk(t, cfg, rd, v);
    EntriesOf(r', cfg);
    OneAtMost(t.r, r');
    LegsCalm(t.r, r', cfg, t.hops, t.clientUp, t.agentUp);
    IndexCalm(t.r.all, r'.all, t.hops, t.clientIds, t.agentIds);
    NewIsApartFromAll(t, cfg, r');
    ApartCalm(t.r.all, r'.all, t.hops);
    ServedCalm(t.r.all, r'.all, t.hops, t.agents, t.r.reg.tunnelOf, r'.reg.tunnelOf);
    RepliesCalm(t.r.all, r'.all, t.r.sent, t.agents);
    if v.ClientJoins? {
      ClientUpLegs(t, cfg, r', Extended(t.hops, |r'.all|), v.ws, v.tunnelId, rd);
    }
    Clauses(RelayMoves(t, r', v), cfg);
  }

  lemma OneAtMost(r: R.Relay, r': R.Relay)
    requires OpensOne(r, r')
    ensures |r.all| <= |r'.all| <= |r.all| + 1
  {
  }

  /** No stream runs over a WebSocket that has just joined. */
  lemma ClientUpLegs(t: Tunnel, cfg: R.Config, r': R.Relay, hops: seq<Hop>, ws: nat, tunnelId: string, rd: R.Readings)
    requires Inv(t, cfg) && R.Enabled(t.r, cfg, rd, R.ClientJoins(ws, tunnelId)) && r' == R.Step(t.r, cfg, rd, R.ClientJoins(ws, tunnelId))
    requires LegsOk(r'.all, hops, t.clientUp, t.agentUp, r'.reg.openAgents)
    ensures LegsOk(r'.all, hops, t.clientUp + {ws}, t.agentUp, r'.reg.openAgents)
  {
    hide ClientLeg, AgentLeg, RI.Owned, RI.Accounted, RI.NoOrphans, RI.EntriesOk, RI.Bounded, CM.Indexed,
         RI.Registered, Apart, Served, ServedOnce, ConnsOk, RejectionsOk, StraysOk, ClientIndexed, AgentIndexed,
         CM.Admits;
    RI.Clauses(t.r, cfg, {});
    Clauses(t, cfg);
  }

  // ---------------------------------------------------------------------------
  // Agents join and ask
  // ---------------------------------------------------------------------------

  lemma AgentUpLegs(all: seq<R.Entry>, hops: seq<Hop>, clientUp: set<nat>, agentUp: set<nat>, heard: set<nat>, a: nat)
    requires LegsOk(all, hops, clientUp, agentUp, heard)
    requires R.NeverServed(all, a)
    ensures LegsOk(all, hops, clientUp, agentUp + {a}, heard + {a})
  {
    hide ClientLeg, AgentLeg;
  }

  lemma AgentJoinsReplies(t: Tunnel, a: nat, conn: AgentConn)
    requires RejectionsOk(t.r.all, t.r.sent.rejections, t.agents) && StraysOk(t.r.all, t.r.sent.strays, t.agents)
    requires a !in t.agents && conn.rejected == 0 && conn.aborted == 0
    ensures RejectionsOk(t.r.all, t.r.sent.rejections, t.agents[a := conn]) && StraysOk(t.r.all, t.r.sent.strays, t.agents[a := conn])
  {
    hide RejectedOk, StrayedOk;
    assert At(t.r.sent.rejections, a) == [] && At(t.r.sent.strays, a) == [];
    NothingReplied(t.r.all, conn, a);
  }

  lemma NothingReplied(all: seq<R.Entry>, conn: AgentConn, a: nat)
    requires conn.rejected == 0 && conn.aborted == 0
    ensures RejectedOk(all, [], conn, a) && StrayedOk(all, [], conn, a)
  {
  }

  lemma AgentJoinsServed(t: Tunnel, a: nat, conn: AgentConn)
    requires Served(t.r.all, t.hops, t.agents, t.r.reg.tunnelOf) && ConnsOk(t.agents) && a !in t.agents && ConnOk(conn)
    ensures Served(t.r.all, t.hops, t.agents[a := conn], t.r.reg.tunnelOf) && ConnsOk(t.agents[a := conn])
  {
    hide ConnOk, ServesRequest;
    forall h | 0 <= h < |t.r.all| && h < |t.hops| && t.r.all[h].Tcp? && t.Str(h).ident.peer.Agent?
      ensures t.Str(h).ident.AgentWs() in t.agents && t.Str(h).ident.AgentWs() != a
    {
    }
  }

  lemma AgentJoinsInv(t: Tunnel, cfg: R.Config, rd: R.Readings, a: nat, first: nat)
    requires Inv(t, cfg) && 0 < first <= A.MAX_SAFE_INTEGER && a !in t.agents && R.Enabled(t.r, cfg, rd, R.AgentJoins(a))
    ensures Inv(AgentJoined(t, R.Step(t.r, cfg, rd, R.AgentJoins(a)), a, first), cfg)
  {
    hide RI.InvBut, LegsOk, ClientIndexed, AgentIndexed, Apart, Served, ServedOnce, ConnsOk, RejectionsOk, StraysOk;
    Clauses(t, cfg);
    RI.StepInv(t.r, cfg, rd, R.AgentJoins(a));
    AgentUpLegs(t.r.all, t.hops, t.clientUp, t.agentUp, t.r.reg.openAgents, a);
    NewConnOk(first);
    AgentJoinsReplies(t, a, AgentConn(first, [], 0, [], 0, 0));
    AgentJoinsServed(t, a, AgentConn(first, [], 0, [], 0, 0));
    Clauses(AgentJoined(t, R.Step(t.r, cfg, rd, R.AgentJoins(a)), a, first), cfg);
  }

  lemma NewConnOk(first: nat)
    requires 0 < first <= A.MAX_SAFE_INTEGER
    ensures ConnOk(AgentConn(first, [], 0, [], 0, 0))
  {
  }

  /** What one TCP_CONNECT comes to: a rejection that names it, or a new stream for exactly this request. */
  ghost predicate Connected(r: R.Relay, r': R.Relay, a: nat, q: ConnectRequest) {
    && r'.reg == r.reg && r'.sent.strays == r.sent.strays && OpensOne(r, r') && Calm(r.all, r'.all)
    && if |r'.all| == |r.all| then
         r'.sent.rejections == r.sent.rejections
         || exists reply: ConnectReply :: reply.requestId == q.requestId
              && r'.sent.rejections == r.sent.rejections[a := At(r.sent.rejections, a) + [reply]]
       else
         && r'.sent.rejections == r.sent.rejections && AddsTcp(r.all, r'.all)
         && var i := Added(r.all, r'.all).ident;
            && i.peer == S.Agent(a) && i.requestId == q.requestId && q.port == Some(i.serverPort)
            && (q.target != "" ==> i.target == q.target) && i.ws in r.reg.tunnelOf && r.reg.tunnelOf[i.ws] == i.target
  }

  lemma RejectConnected(r: R.Relay, a: nat, q: ConnectRequest, reply: ConnectReply)
    requires reply.requestId == q.requestId
    ensures Connected(r, R.Reject(r, a, reply), a, q)
  {
    hide Calm;
    CalmRefl(r.all);
  }

  lemma RoutableTarget(target: string)
    requires Routable(target)
    ensures TunnelId.Normalize(target) == Some(target)
  {
  }

  /** A resolved client is OPEN, registered under the tunnel id it is reported with, which is the one asked for. */
  lemma ResolvedName(reg: CM.Registry, target: string)
    requires CM.Indexed(reg) && Routable(target)
    ensures forall c :: CM.Resolve(reg, target) == Some(c) ==>
              c.0 in reg.openClients && c.0 in reg.tunnelOf && CM.TunnelOf(reg, c.0) == c.1 && (target != "" ==> c.1 == target)
  {
    hide CM.OpenOnes, TunnelId.IsTunnelId, TunnelId.Normalize;
    RoutableTarget(target);
    CM.ResolveOk(reg, target);
  }

  lemma OpenConnected(r: R.Relay, cfg: R.Config, rd: R.Readings, a: nat, q: ConnectRequest, id: nat, c: (nat, string), port: int)
    requires CM.Indexed(r.reg) && Routable(q.target) && q.port == Some(port) && CM.Resolve(r.reg, q.target) == Some(c) && id !in r.streams
    ensures Connected(r, R.Register(r, id, R.OpenTcp(r, cfg, rd, id, c.0, S.Agent(a), port, q.requestId, c.1)), a, q)
  {
    hide Calm, Newborn, R.OpenTcp, R.Charge, CM.Resolve, CM.Indexed, TunnelId.IsTunnelId, TunnelId.Normalize;
    ResolvedName(r.reg, q.target);
    OpenTcpNewborn(r, cfg, rd, id, c.0, S.Agent(a), port, q.requestId, c.1);
    CalmAppend(r.all, R.OpenTcp(r, cfg, rd, id, c.0, S.Agent(a), port, q.requestId, c.1));
  }

  lemma ConnectOutcome(r: R.Relay, cfg: R.Config, rd: R.Readings, a: nat, q: ConnectRequest)
    requires CM.Indexed(r.reg) && a in r.books.agentStreams && Routable(q.target) && q.port.Some? && q.requestId > 0
    ensures Connected(r, R.Connect(r, cfg, rd, a, q), a, q)
  {
    hide CM.Indexed, Connected, CM.Resolve, R.OpenTcp, R.Register, R.Reject, Routable, TunnelId.Normalize;
    RoutableTarget(q.target);
    RejectConnected(r, a, q, R.RejectBody(q, q.target));
    var c, id := CM.Resolve(r.reg, q.target), Ids.Allocate(r.streams.Keys, r.nextId);
    if c.Some? && id.Some? { OpenConnected(r, cfg, rd, a, q, id.value, c.value, q.port.value); }
  }

  /** The stream that was added, if any, is for the request agent a asked last. */
  predicate ForRequest(all: seq<R.Entry>, all': seq<R.Entry>, a: nat, conn: AgentConn, tunnelOf: map<nat, string>) {
    |all'| > |all| ==>
      && AddsTcp(all, all')
      && var i := Added(all, all').ident;
         i.peer == S.Agent(a) && i.requestId == conn.first + conn.asked && ServesRequest(i, Asked(conn), tunnelOf)
  }

  predicate Has(agents: map<nat, AgentConn>, a: nat, conn: AgentConn) {
    a in agents && agents[a] == conn
  }

  lemma ServedConnect(all: seq<R.Entry>, all': seq<R.Entry>, hops: seq<Hop>, agents: map<nat, AgentConn>,
      tunnelOf: map<nat, string>, a: nat, conn: AgentConn)
    requires Calm(all, all') && |hops| == |all| && |all'| <= |all| + 1 && Served(all, hops, agents, tunnelOf) && ServedOnce(all)
    requires Has(agents, a, conn) && conn.asked < |conn.issued| && ForRequest(all, all', a, conn, tunnelOf)
    ensures Served(all', Extended(hops, |all'|), agents[a := Asked(conn)], tunnelOf) && ServedOnce(all')
  {
    hide SE.Unprompted;
    forall h: nat | h < |all|
      ensures all[h].Tcp? == all'[h].Tcp?
      ensures all[h].Tcp? ==> all'[h].t.ident == all[h].t.ident
    {
      CalmIdent(all, all', h);
    }
  }

  /** The entries of an agent are kept, except for at most one new stream. */
  ghost predicate KeepsEntries(all: seq<R.Entry>, all': seq<R.Entry>) {
    && |all| <= |all'| <= |all| + 1
    && forall h: nat :: h < |all| ==> KeepsEntry(all[h], all'[h])
  }

  predicate KeepsEntry(e: R.Entry, e': R.Entry) {
    e.Tcp? == e'.Tcp? && (e.Tcp? ==> e'.t.ident == e.t.ident && (e.t.cleaned ==> e'.t.cleaned))
  }

  lemma CalmKeeps(all: seq<R.Entry>, all': seq<R.Entry>)
    requires Calm(all, all') && |all'| <= |all| + 1
    ensures KeepsEntries(all, all')
  {
    hide SE.Unprompted, CalmEntry;
    forall h: nat | h < |all| ensures KeepsEntry(all[h], all'[h]) {
      CalmIdent(all, all', h);
    }
  }

  lemma StrayedKeeps(all: seq<R.Entry>, all': seq<R.Entry>, strays: seq<nat>, conn: AgentConn, a: nat)
    requires KeepsEntries(all, all') && StrayedOk(all, strays, conn, a)
    requires AddsTcp(all, all') && Added(all, all').ident.peer == S.Agent(a) ==> Avoids(strays, conn.aborted, Added(all, all').ident.id)
    ensures StrayedOk(all', strays, conn, a)
  {
  }

  lemma RejectedKeeps(all: seq<R.Entry>, all': seq<R.Entry>, rejected: seq<ConnectReply>, conn: AgentConn, a: nat)
    requires KeepsEntries(all, all') && RejectedOk(all, rejected, conn, a)
    requires AddsTcp(all, all') && Added(all, all').ident.peer == S.Agent(a) ==> Added(all, all').ident.requestId >= conn.first + conn.asked
    ensures RejectedOk(all', rejected, conn, a)
  {
  }

  lemma RejectedAsked(all: seq<R.Entry>, rejected: seq<ConnectReply>, conn: AgentConn, a: nat)
    requires RejectedOk(all, rejected, conn, a)
    ensures RejectedOk(all, rejected, Asked(conn), a)
  {
  }

  /** The request just asked is rejected: no stream serves it, since streams serve earlier ones. */
  lemma RejectedAdds(all: seq<R.Entry>, hops: seq<Hop>, rejected: seq<ConnectReply>, reply: ConnectReply,
      agents: map<nat, AgentConn>, tunnelOf: map<nat, string>, a: nat, conn: AgentConn)
    requires Has(agents, a, conn) && RejectedOk(all, rejected, conn, a) && Served(all, hops, agents, tunnelOf) && |hops| == |all|
    requires reply.requestId == conn.first + conn.asked
    ensures RejectedOk(all, rejected + [reply], Asked(conn), a)
  {
    forall h: nat | h < |all| && OfAgent(all[h], a) ensures all[h].t.ident.requestId < reply.requestId { }
  }

  lemma RepliesConnect(r: R.Relay, r': R.Relay, hops: seq<Hop>, agents: map<nat, AgentConn>, tunnelOf: map<nat, string>,
      a: nat, conn: AgentConn, q: ConnectRequest)
    requires RejectionsOk(r.all, r.sent.rejections, agents) && StraysOk(r.all, r.sent.strays, agents)
    requires Served(r.all, hops, agents, tunnelOf) && |hops| == |r.all|
    requires Has(agents, a, conn) && q.requestId == conn.first + conn.asked && Connected(r, r', a, q)
    requires AddsTcp(r.all, r'.all) ==> Avoids(At(r.sent.strays, a), conn.aborted, Added(r.all, r'.all).ident.id)
    ensures RejectionsOk(r'.all, r'.sent.rejections, agents[a := Asked(conn)]) && StraysOk(r'.all, r'.sent.strays, agents[a := Asked(conn)])
  {
    hide RejectedOk, StrayedOk, Calm, Newborn, Served, KeepsEntries;
    CalmKeeps(r.all, r'.all);
    var agents' := agents[a := Asked(conn)];
    forall b | b in agents'
      ensures StrayedOk(r'.all, At(r'.sent.strays, b), agents'[b], b)
      ensures RejectedOk(r'.all, At(r'.sent.rejections, b), agents'[b], b)
    {
      StrayedKeeps(r.all, r'.all, At(r.sent.strays, b), agents[b], b);
      StrayedAsked(r'.all, At(r.sent.strays, b), agents[b], b);
      RejectedKeeps(r.all, r'.all, At(r.sent.rejections, b), agents[b], b);
      RejectedAsked(r'.all, At(r.sent.rejections, b), agents[b], b);
      if b == a && At(r'.sent.rejections, a) != At(r.sent.rejections, a) {
        var reply: ConnectReply :| reply.requestId == q.requestId && r'.sent.rejections == r.sent.rejections[a := At(r.sent.rejections, a) + [reply]];
        RejectedAdds(r.all, hops, At(r.sent.rejections, a), reply, agents, tunnelOf, a, conn);
        RejectedKeeps(r.all, r'.all, At(r.sent.rejections, a) + [reply], agents'[a], a);
      }
    }
  }

  lemma StrayedAsked(all: seq<R.Entry>, strays: seq<nat>, conn: AgentConn, a: nat)
    requires StrayedOk(all, strays, conn, a)
    ensures StrayedOk(all, strays, Asked(conn), a)
  {
  }

  lemma ConnAsked(agents: map<nat, AgentConn>, a: nat, conn: AgentConn)
    requires ConnsOk(agents) && Has(agents, a, conn) && conn.asked < |conn.issued|
    ensures ConnsOk(agents[a := Asked(conn)])
  {
  }

  lemma AgentRequestInv(t: Tunnel, cfg: R.Config, rd: R.Readings, a: nat)
    requires Inv(t, cfg) && RequestSent(t, a) && a in t.r.books.agentStreams
    requires OpensReusable(t, R.Connect(t.r, cfg, rd, a, NextRequest(t, a)))
    ensures Inv(AgentRequested(t, R.Connect(t.r, cfg, rd, a, NextRequest(t, a)), a), cfg)
  {
    hide R.Connect, RI.InvBut, LegsOk, ClientIndexed, AgentIndexed, Apart, Served, ServedOnce, ConnsOk, RejectionsOk,
         StraysOk, Calm, OpensOne, Connected, OpensReusable;
    Clauses(t, cfg);
    var q := NextRequest(t, a);
    var r' := R.Connect(t.r, cfg, rd, a, q);
    RI.ConnectInv(t.r, cfg, rd, a, q);
    RequestOk(t, cfg, a);
    ConnectOutcome(t.r, cfg, rd, a, q);
    ConnectedParts(t.r, r', a, q);
    EntriesOf(r', cfg);
    OneAtMost(t.r, r');
    LegsCalm(t.r, r', cfg, t.hops, t.clientUp, t.agentUp);
    IndexCalm(t.r.all, r'.all, t.hops, t.clientIds, t.agentIds);
    NewIsApartFromAll(t, cfg, r');
    ApartCalm(t.r.all, r'.all, t.hops);
    NewServes(t, r', a, q);
    ServedConnect(t.r.all, r'.all, t.hops, t.agents, t.r.reg.tunnelOf, a, t.Conn(a));
    NoStrayFor(t, r', a);
    RepliesConnect(t.r, r', t.hops, t.agents, t.r.reg.tunnelOf, a, t.Conn(a), q);
    ConnAsked(t.agents, a, t.Conn(a));
    Clauses(AgentRequested(t, r', a), cfg);
  }

  lemma RequestOk(t: Tunnel, cfg: R.Config, a: nat)
    requires Inv(t, cfg) && RequestSent(t, a)
    ensures CM.Indexed(t.r.reg) && Routable(NextRequest(t, a).target) && NextRequest(t, a).requestId > 0
  {
    hide RI.EntriesOk, RI.Owned, RI.Accounted, RI.NoOrphans, RI.Bounded, RI.Registered, CM.Indexed, LegsOk,
         ClientIndexed, AgentIndexed, Apart, Served, ServedOnce, RejectionsOk, StraysOk, PendingOk, Routable;
    RI.Clauses(t.r, cfg, {});
    Clauses(t, cfg);
    assert ConnOk(t.Conn(a));
  }

  lemma ConnectedParts(r: R.Relay, r': R.Relay, a: nat, q: ConnectRequest)
    requires Connected(r, r', a, q)
    ensures r'.reg == r.reg && r'.sent.strays == r.sent.strays && OpensOne(r, r') && Calm(r.all, r'.all)
  {
    hide OpensOne, Calm;
  }

  lemma NewServes(t: Tunnel, r': R.Relay, a: nat, q: ConnectRequest)
    requires RequestSent(t, a) && q == NextRequest(t, a) && Connected(t.r, r', a, q)
    ensures ForRequest(t.r.all, r'.all, a, t.Conn(a), t.r.reg.tunnelOf)
  {
    hide OpensOne, Calm;
  }

  lemma NoStrayFor(t: Tunnel, r': R.Relay, a: nat)
    requires OpensReusable(t, r') && a in t.agents
    ensures AddsTcp(t.r.all, r'.all) && Added(t.r.all, r'.all).ident.peer == S.Agent(a) ==>
              Avoids(At(t.r.sent.strays, a), t.Conn(a).aborted, Added(t.r.all, r'.all).ident.id)
  {
  }

  // ---------------------------------------------------------------------------
  // One stream moves
  // ---------------------------------------------------------------------------

  /** Everybody but stream h stays put, give or take relay steps that give no stream a frame. */
  ghost predicate OnlyMoves(all: seq<R.Entry>, all': seq<R.Entry>, hops: seq<Hop>, hops': seq<Hop>, h: nat) {
    && |all| == |all'| == |hops| && h < |all| && all[h].Tcp? && all'[h].Tcp?
    && |hops'| == |hops| && hops' == hops[h := hops'[h]]
    && all'[h].t.ident == all[h].t.ident && (all[h].t.cleaned ==> all'[h].t.cleaned)
    && (forall k :: 0 <= k < |all| && k != h ==> CalmEntry(all[k], all'[k]))
  }

  lemma MovesKeeps(all: seq<R.Entry>, all': seq<R.Entry>, hops: seq<Hop>, hops': seq<Hop>, h: nat)
    requires OnlyMoves(all, all', hops, hops', h)
    ensures KeepsEntries(all, all')
  {
    hide SE.Unprompted, CalmEntry;
    forall k: nat | k < |all| ensures KeepsEntry(all[k], all'[k]) {
      if k != h { EntryIdent(all[k], all'[k]); }
    }
  }

  lemma EntryIdent(e: R.Entry, e': R.Entry)
    requires CalmEntry(e, e')
    ensures KeepsEntry(e, e')
  {
    hide SE.FarControl;
  }

  lemma MovesLegs(r: R.Relay, r': R.Relay, cfg: R.Config, hops: seq<Hop>, hops': seq<Hop>, h: nat, clientUp: set<nat>,
      agentUp: set<nat>)
    requires OnlyMoves(r.all, r'.all, hops, hops', h) && r'.reg.openAgents == r.reg.openAgents && RI.EntriesOk(r'.all, r'.reg, cfg)
    requires LegsOk(r.all, hops, clientUp, agentUp, r.reg.openAgents) && LegOk(R.TcpAt(r'.all, h), HopIn(hops', h), clientUp, agentUp, r.reg.openAgents)
    ensures LegsOk(r'.all, hops', clientUp, agentUp, r'.reg.openAgents)
  {
    hide LegOk, SE.Unprompted, RI.EntryOk, SI.Inv;
    forall k | 0 <= k < |r'.all| && k < |hops'| && r'.all[k].Tcp?
      ensures LegOk(r'.all[k].t, hops'[k], clientUp, agentUp, r'.reg.openAgents)
    {
      if k != h {
        assert CalmEntry(r.all[k], r'.all[k]);
        EntryIn(r'.all, r'.reg, cfg, k);
        TcpEntry(r'.reg, cfg, r'.all[k]);
        LegUnprompted(r.all[k].t, r'.all[k].t, RI.Surroundings(r'.reg, cfg, r'.all[k].t.ident), hops[k], clientUp, agentUp, r.reg.openAgents, r'.reg.openAgents);
      }
    }
  }

  lemma MovesApart(all: seq<R.Entry>, all': seq<R.Entry>, hops: seq<Hop>, hops': seq<Hop>, h: nat)
    requires OnlyMoves(all, all', hops, hops', h) && Apart(all, hops)
    requires forall i :: OverFor(R.TcpAt(all, h), HopIn(hops, h), i) ==> OverFor(R.TcpAt(all', h), HopIn(hops', h), i)
    ensures Apart(all', hops')
  {
    hide SE.Unprompted, OverFor, CalmEntry;
    assert R.TcpAt(all, h) == all[h].t && R.TcpAt(all', h) == all'[h].t && HopIn(hops, h) == hops[h] && HopIn(hops', h) == hops'[h];
    forall g, k | 0 <= g < k < |all'| && k < |hops'| && all'[g].Tcp? && all'[k].Tcp? && all'[g].t.ident.id == all'[k].t.ident.id
      ensures OverFor(all'[g].t, hops'[g], all'[k].t.ident)
    {
      if k != h { EntryIdent(all[k], all'[k]); }
      if g != h {
        EntryIdent(all[g], all'[g]);
        CalmOver(all[g], all'[g], hops[g], all'[k].t.ident);
      }
    }
  }

  lemma CalmOver(e: R.Entry, e': R.Entry, hop: Hop, i: S.Identity)
    requires CalmEntry(e, e') && e.Tcp? && OverFor(e.t, hop, i)
    ensures e'.Tcp? && OverFor(e'.t, hop, i)
  {
    hide SE.Unprompted, OverFor;
    OverForCalm(e.t, e'.t, hop, i);
  }

  lemma MovesServed(all: seq<R.Entry>, all': seq<R.Entry>, hops: seq<Hop>, hops': seq<Hop>, h: nat, agents: map<nat, AgentConn>,
      tunnelOf: map<nat, string>)
    requires OnlyMoves(all, all', hops, hops', h) && Served(all, hops, agents, tunnelOf) && ServedOnce(all)
    requires HopIn(hops', h).far.a.Some? ==> HopIn(hops, h).far.a.Some? && HopIn(hops', h).far.sock == HopIn(hops, h).far.sock
    ensures Served(all', hops', agents, tunnelOf) && ServedOnce(all')
  {
    hide CalmEntry, ServesRequest;
    forall k: nat | k < |all| ensures KeepsEntry(all[k], all'[k]) {
      if k != h { EntryIdent(all[k], all'[k]); }
    }
  }

  lemma MovesReplies(all: seq<R.Entry>, all': seq<R.Entry>, sent: R.Sent, agents: map<nat, AgentConn>)
    requires KeepsEntries(all, all') && |all'| == |all| && RejectionsOk(all, sent.rejections, agents) && StraysOk(all, sent.strays, agents)
    ensures RejectionsOk(all', sent.rejections, agents) && StraysOk(all', sent.strays, agents)
  {
    hide RejectedOk, StrayedOk, KeepsEntries;
    forall a | a in agents
      ensures RejectedOk(all', At(sent.rejections, a), agents[a], a) && StrayedOk(all', At(sent.strays, a), agents[a], a)
    {
      RejectedKeeps(all, all', At(sent.rejections, a), agents[a], a);
      StrayedKeeps(all, all', At(sent.strays, a), agents[a], a);
    }
  }

  /** The endpoint maps after the record of stream h changed, came or went. */
  ghost predicate ClientIdsMove(all: seq<R.Entry>, hops: seq<Hop>, hop': Hop, h: nat, ids: map<(nat, nat), nat>,
      ids': map<(nat, nat), nat>) {
    var key := ClientKey(R.TcpAt(all, h).ident);
    var was := ClientHolds(all, hops, h, key);
    var now := hop'.near.c.Some? && !hop'.near.Rec().cleaned;
    && (was == now ==> ids' == ids)
    && (was && !now ==> ids' == ids - {key})
    && (!was && now ==> key !in ids && ids' == ids[key := h])
  }

  lemma MovesClientIds(all: seq<R.Entry>, all': seq<R.Entry>, hops: seq<Hop>, hops': seq<Hop>, h: nat, ids: map<(nat, nat), nat>,
      ids': map<(nat, nat), nat>)
    requires OnlyMoves(all, all', hops, hops', h) && ClientIndexed(all, hops, ids) && ClientIdsMove(all, hops, HopIn(hops', h), h, ids, ids')
    ensures ClientIndexed(all', hops', ids')
  {
    hide CalmEntry;
    var key := ClientKey(all[h].t.ident);
    forall k: nat, other | k != h
      ensures ClientHolds(all', hops', k, other) <==> ClientHolds(all, hops, k, other)
    {
      if k < |all| { EntryIdent(all[k], all'[k]); }
    }
    assert forall other :: ClientHolds(all', hops', h, other) ==> other == key;
  }

  ghost predicate AgentIdsMove(all: seq<R.Entry>, hops: seq<Hop>, hop': Hop, h: nat, ids: map<(nat, nat), nat>,
      ids': map<(nat, nat), nat>) {
    var key := AgentKey(R.TcpAt(all, h).ident);
    var was := AgentHolds(all, hops, h, key);
    var now := R.TcpAt(all, h).ident.peer.Agent? && hop'.far.a.Some? && !hop'.far.Rec().cleaned;
    && (was == now ==> ids' == ids)
    && (was && !now ==> ids' == ids - {key})
    && (!was && now ==> key !in ids && ids' == ids[key := h])
  }

  lemma MovesAgentIds(all: seq<R.Entry>, all': seq<R.Entry>, hops: seq<Hop>, hops': seq<Hop>, h: nat, ids: map<(nat, nat), nat>,
      ids': map<(nat, nat), nat>)
    requires OnlyMoves(all, all', hops, hops', h) && AgentIndexed(all, hops, ids) && AgentIdsMove(all, hops, HopIn(hops', h), h, ids, ids')
    ensures AgentIndexed(all', hops', ids')
  {
    hide CalmEntry;
    var key := AgentKey(all[h].t.ident);
    forall k: nat, other | k != h
      ensures AgentHolds(all', hops', k, other) <==> AgentHolds(all, hops, k, other)
    {
      if k < |all| { EntryIdent(all[k], all'[k]); }
    }
    assert forall other :: AgentHolds(all', hops', h, other) ==> other == key;
  }

  /** The parts of the invariant a moving stream must bring itself. */
  ghost predicate MovesWell(t: Tunnel, t': Tunnel, h: nat) {
    && OnlyMoves(t.r.all, t'.r.all, t.hops, t'.hops, h)
    && t'.r.reg == t.r.reg && t'.clientUp == t.clientUp && t'.agentUp == t.agentUp
    && LegOk(t'.Str(h), t'.HopAt(h), t.clientUp, t.agentUp, t.r.reg.openAgents)
    && (forall i :: OverFor(t.Str(h), t.HopAt(h), i) ==> OverFor(t'.Str(h), t'.HopAt(h), i))
    && ClientIdsMove(t.r.all, t.hops, t'.HopAt(h), h, t.clientIds, t'.clientIds)
    && AgentIdsMove(t.r.all, t.hops, t'.HopAt(h), h, t.agentIds, t'.agentIds)
  }

  /** The parts of the invariant that concern requests and replies. */
  ghost predicate RepliesOk(t: Tunnel) {
    && Served(t.r.all, t.hops, t.agents, t.r.reg.tunnelOf)
    && ConnsOk(t.agents)
    && RejectionsOk(t.r.all, t.r.sent.rejections, t.agents)
    && StraysOk(t.r.all, t.r.sent.strays, t.agents)
  }

  lemma MovesInv(t: Tunnel, t': Tunnel, cfg: R.Config, h: nat)
    requires Inv(t, cfg) && RI.Inv(t'.r, cfg) && MovesWell(t, t', h) && RepliesOk(t')
    ensures Inv(t', cfg)
  {
    hide RI.InvBut, LegsOk, ClientIndexed, AgentIndexed, Apart, Served, ServedOnce, ConnsOk, RejectionsOk, StraysOk,
         OnlyMoves, LegOk, OverFor, ClientIdsMove, AgentIdsMove, KeepsEntries;
    Clauses(t, cfg);
    EntriesOf(t'.r, cfg);
    MovesSizes(t, t', h);
    MovesKeeps(t.r.all, t'.r.all, t.hops, t'.hops, h);
    MovesLegs(t.r, t'.r, cfg, t.hops, t'.hops, h, t.clientUp, t.agentUp);
    MovesApart(t.r.all, t'.r.all, t.hops, t'.hops, h);
    MovesClientIds(t.r.all, t'.r.all, t.hops, t'.hops, h, t.clientIds, t'.clientIds);
    MovesAgentIds(t.r.all, t'.r.all, t.hops, t'.hops, h, t.agentIds, t'.agentIds);
    MovesServedOnce(t.r.all, t'.r.all);
    Clauses(t', cfg);
  }

  lemma MovesServedOnce(all: seq<R.Entry>, all': seq<R.Entry>)
    requires KeepsEntries(all, all') && |all'| == |all| && ServedOnce(all)
    ensures ServedOnce(all')
  {
    forall g, h | 0 <= g < h < |all'| && SamePeer(all'[g], all'[h])
      ensures all'[g].t.ident.requestId != all'[h].t.ident.requestId
    {
      assert KeepsEntry(all[g], all'[g]) && KeepsEntry(all[h], all'[h]);
      assert SamePeer(all[g], all[h]);
    }
  }

  lemma MovesSizes(t: Tunnel, t': Tunnel, h: nat)
    requires MovesWell(t, t', h)
    ensures |t'.r.all| == |t.r.all| && |t'.hops| == |t.hops| == |t.r.all| && IsStream(t, h) && IsStream(t', h)
  {
    hide LegOk, OverFor, ClientIdsMove, AgentIdsMove;
  }

  /** A move that touches no connection and sends no reply outside the stream. */
  lemma RepliesKept(t: Tunnel, t': Tunnel, h: nat)
    requires RepliesOk(t) && ServedOnce(t.r.all) && OnlyMoves(t.r.all, t'.r.all, t.hops, t'.hops, h)
    requires t'.agents == t.agents && t'.r.sent == t.r.sent && t'.r.reg == t.r.reg
    requires t'.HopAt(h).far.a.Some? ==> t.HopAt(h).far.a.Some? && t'.HopAt(h).far.sock == t.HopAt(h).far.sock
    ensures RepliesOk(t')
  {
    hide Served, ServedOnce, ConnsOk, RejectionsOk, StraysOk, OnlyMoves, KeepsEntries;
    MovesKeeps(t.r.all, t'.r.all, t.hops, t'.hops, h);
    MovesServed(t.r.all, t'.r.all, t.hops, t'.hops, h, t.agents, t.r.reg.tunnelOf);
    MovesSameSize(t.r.all, t'.r.all, t.hops, t'.hops, h);
    MovesReplies(t.r.all, t'.r.all, t.r.sent, t.agents);
  }

  lemma MovesSameSize(all: seq<R.Entry>, all': seq<R.Entry>, hops: seq<Hop>, hops': seq<Hop>, h: nat)
    requires OnlyMoves(all, all', hops, hops', h)
    ensures |all'| == |all| && h < |all| && h < |hops'| && h < |hops|
  {
  }

  /** What the invariant says about one stream. */
  lemma StreamAt(t: Tunnel, cfg: R.Config, h: nat)
    requires Inv(t, cfg) && IsStream(t, h)
    ensures LegOk(t.Str(h), t.HopAt(h), t.clientUp, t.agentUp, t.r.reg.openAgents)
    ensures SI.Inv(t.Str(h), RI.Surroundings(t.r.reg, cfg, t.Str(h).ident))
    ensures RI.EntryOk(t.r.reg, cfg, R.RecordAt(t.r.all, h))
    ensures t.Str(h).cleaned ==> Gone(t.Str(h))
  {
    hide RI.InvBut, RI.EntryOk, AgentLeg, ClientIndexed, AgentIndexed, Apart, Served, ServedOnce, ConnsOk,
         RejectionsOk, StraysOk, SI.FlowExact, SI.ReadExact, SI.Core, SI.LastTalk, SI.LiveTalk, C.Inv, NearIn, NearOut;
    Clauses(t, cfg);
    RI.EntryAt(t.r, cfg, h);
    TcpEntry(t.r.reg, cfg, t.r.all[h]);
  }

  lemma ApartOf(t: Tunnel, cfg: R.Config, g: nat, h: nat)
    requires Inv(t, cfg) && IsStream(t, g) && IsStream(t, h) && g < h && t.Str(g).ident.id == t.Str(h).ident.id
    ensures OverFor(t.Str(g), t.HopAt(g), t.Str(h).ident)
  {
    hide RI.InvBut, LegsOk, ClientIndexed, AgentIndexed, Served, ServedOnce, ConnsOk, RejectionsOk, StraysOk, OverFor;
    Clauses(t, cfg);
  }

  /** The id is registered, for record h. */
  predicate Holds(r: R.Relay, id: nat, h: nat) {
    id in r.streams && r.streams[id] == h
  }

  /** The relay's id map, as far as stream h is concerned. */
  lemma LookupAt(t: Tunnel, cfg: R.Config, h: nat)
    requires Inv(t, cfg) && IsStream(t, h)
    ensures var i := t.Str(h).ident;
            && (!t.Str(h).cleaned ==> Holds(t.r, i.id, h))
            && (i.id in t.r.streams ==> RI.Live(t.r.all, R.At(t.r.streams, i.id), i.id) && |t.r.all| == |t.hops|)
  {
    hide RI.EntriesOk, RI.Owned, RI.Accounted, RI.NoOrphans, RI.Bounded, RI.Known, CM.Indexed, LegsOk, ClientIndexed,
         AgentIndexed, Apart, Served, ServedOnce, ConnsOk, RejectionsOk, StraysOk;
    RI.Clauses(t.r, cfg, {});
    Clauses(t, cfg);
    assert RI.Live(t.r.all, h, t.Str(h).ident.id) <==> !t.Str(h).cleaned;
  }
}
