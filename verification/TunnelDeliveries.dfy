/** Frames that arrive: at the relay, at a tunnel client, at an agent. Each reaches its own stream or none. */
module TunnelDeliveries {
  import opened Frames
  import opened Tunnel
  import opened TunnelLegs
  import opened TunnelInvariant
  import opened TunnelSteps
  import R = Relay
  import RI = RelayInvariant
  import S = RelayStream
  import SI = RelayStreamInvariant
  import SE = RelayStreamEffects
  import C = TcpClient
  import A = TcpAgent
  import H = HttpStream

  // ---------------------------------------------------------------------------
  // The relay is given a frame
  // ---------------------------------------------------------------------------

  /** A client's frame reaches its own stream, or none of the TCP streams. */
  lemma ClientDispatch(t: Tunnel, cfg: R.Config, h: nat)
    requires Inv(t, cfg) && ClientSent(t, h)
    ensures var i := t.Str(h).ident;
            && (!t.Str(h).cleaned ==> Holds(t.r, i.id, h))
            && (t.Str(h).cleaned && i.id in t.r.streams ==>
                  var g := R.At(t.r.streams, i.id); g < |t.r.all| && (R.IsTcp(t.r.all, g) ==> R.TcpAt(t.r.all, g).ident.ws != i.ws))
  {
    hide Inv;
    LookupAt(t, cfg, h);
    var i := t.Str(h).ident;
    if t.Str(h).cleaned && i.id in t.r.streams {
      var g := t.r.streams[i.id];
      if t.r.all[g].Tcp? {
        if g < h { ApartOf(t, cfg, g, h); }
        if h < g { ApartOf(t, cfg, h, g); }
      }
    }
  }

  lemma ClientFrameMoves(t: Tunnel, cfg: R.Config, rd: R.Readings, h: nat)
    requires Inv(t, cfg) && ClientSent(t, h)
    ensures var t' := RelayReadsClient(t, cfg, rd, h);
            && t'.r.reg == t.r.reg && t'.r.sent == t.r.sent
            && OnlyMoves(t.r.all, t'.r.all, t.hops, t'.hops, h)
            && t'.HopAt(h) == t.HopAt(h).(near := t.HopAt(h).near.ReadByRelay())
            && if t.Str(h).cleaned then t'.Str(h) == t.Str(h)
               else t'.Str(h) == S.FromClient(t.Str(h), R.EnvOf(t.r, cfg, rd, t.Str(h).ident), NextFromClient(t, h))
  {
    hide Inv, S.FromClient, H.FromClient, CalmEntry, S.ClientTalk, S.FarTalk, DataOf;
    ClientDispatch(t, cfg, h);
    LookupAt(t, cfg, h);
    SizesAgree(t, cfg);
    var s := t.Str(h);
    CalmRefl(t.r.all);
    if !s.cleaned {
      FromClientIdent(t, cfg, rd, h);
    } else if s.ident.id in t.r.streams && t.r.all[t.r.streams[s.ident.id]].Web? {
      CalmEntryWeb(t.r.all[t.r.streams[s.ident.id]]);
    }
  }

  lemma CalmEntryWeb(e: R.Entry)
    requires e.Web?
    ensures forall w: H.Http :: CalmEntry(e, R.Web(w))
  {
  }

  lemma SizesAgree(t: Tunnel, cfg: R.Config)
    requires Inv(t, cfg)
    ensures |t.hops| == |t.r.all|
  {
    hide RI.InvBut, LegsOk, ClientIndexed, AgentIndexed, Apart, Served, ServedOnce, ConnsOk, RejectionsOk, StraysOk;
    Clauses(t, cfg);
  }

  lemma FromClientIdent(t: Tunnel, cfg: R.Config, rd: R.Readings, h: nat)
    requires Inv(t, cfg) && IsStream(t, h) && !t.Str(h).cleaned
    ensures forall f :: S.FromClient(t.Str(h), R.EnvOf(t.r, cfg, rd, t.Str(h).ident), f).ident == t.Str(h).ident
  {
    hide Inv, S.FromClient, SI.InvWith;
    StreamAt(t, cfg, h);
    RI.TcpReady(t.r, cfg, rd, t.Str(h));
    forall f ensures S.FromClient(t.Str(h), R.EnvOf(t.r, cfg, rd, t.Str(h).ident), f).ident == t.Str(h).ident {
      SI.FromClientInv(t.Str(h), R.EnvOf(t.r, cfg, rd, t.Str(h).ident), f);
    }
  }

  lemma ClientFrameLeg(t: Tunnel, cfg: R.Config, rd: R.Readings, h: nat)
    requires Inv(t, cfg) && ClientSent(t, h)
    ensures var s, hop := t.Str(h), t.HopAt(h);
            var hop' := hop.(near := hop.near.ReadByRelay());
            && (!s.cleaned ==> LegOk(S.FromClient(s, R.EnvOf(t.r, cfg, rd, s.ident), NextFromClient(t, h)), hop', t.clientUp, t.agentUp, t.r.reg.openAgents))
            && (s.cleaned ==> LegOk(s, hop', t.clientUp, t.agentUp, t.r.reg.openAgents))
  {
    hide Inv, S.FromClient, ClientLeg, AgentLeg, SI.InvWith;
    StreamAt(t, cfg, h);
    var s, n := t.Str(h), t.HopAt(h).near;
    if s.cleaned {
      NearDrops(s, n, s.ident.ws in t.clientUp);
    } else {
      var e := R.EnvOf(t.r, cfg, rd, s.ident);
      RI.TcpReady(t.r, cfg, rd, s);
      FromClientIdent(t, cfg, rd, h);
      NearReads(s, e, n, s.ident.ws in t.clientUp);
      if s.ident.peer.Agent? { FarFollows(s, e, n, s.ident.ws in t.clientUp, t.HopAt(h).far, s.ident.AgentWs() in t.agentUp); }
    }
  }

  lemma InvParts(t: Tunnel, cfg: R.Config)
    requires Inv(t, cfg)
    ensures RI.Inv(t.r, cfg) && RepliesOk(t) && ServedOnce(t.r.all) && |t.hops| == |t.r.all|
  {
    hide RI.InvBut, LegsOk, ClientIndexed, AgentIndexed, Apart, Served, ServedOnce, ConnsOk, RejectionsOk, StraysOk;
    Clauses(t, cfg);
  }

  lemma ClientFrameWell(t: Tunnel, cfg: R.Config, rd: R.Readings, h: nat)
    requires Inv(t, cfg) && ClientSent(t, h)
    ensures MovesWell(t, RelayReadsClient(t, cfg, rd, h), h)
  {
    hide Inv, R.FromClient, S.FromClient, OnlyMoves, LegOk;
    ClientFrameMoves(t, cfg, rd, h);
    ClientFrameLeg(t, cfg, rd, h);
    var t' := RelayReadsClient(t, cfg, rd, h);
    MovesSameSize(t.r.all, t'.r.all, t.hops, t'.hops, h);
    forall i | OverFor(t.Str(h), t.HopAt(h), i) ensures OverFor(t'.Str(h), t'.HopAt(h), i) {
      assert t.Str(h).ident.ws != i.ws;
    }
  }

  lemma ClientFrameInv(t: Tunnel, cfg: R.Config, rd: R.Readings, h: nat)
    requires Inv(t, cfg) && ClientSent(t, h)
    ensures Inv(RelayReadsClient(t, cfg, rd, h), cfg)
  {
    hide Inv, RI.InvBut, R.FromClient, OnlyMoves, MovesWell, RepliesOk, ServedOnce;
    var t' := RelayReadsClient(t, cfg, rd, h);
    InvParts(t, cfg);
    RI.FromClientInv(t.r, cfg, rd, t.Str(h).ident.ws, t.Str(h).ident.id, NextFromClient(t, h));
    ClientFrameMoves(t, cfg, rd, h);
    MovesSameSize(t.r.all, t'.r.all, t.hops, t'.hops, h);
    RepliesKept(t, t', h);
    ClientFrameWell(t, cfg, rd, h);
    MovesInv(t, t', cfg, h);
  }

  // ---------------------------------------------------------------------------
  // The relay is given an agent's frame
  // ---------------------------------------------------------------------------
  /** An agent's frame reaches its own stream, or no stream of that agent. */
  lemma AgentDispatch(t: Tunnel, cfg: R.Config, h: nat)
    requires Inv(t, cfg) && AgentSent(t, h)
    ensures var i := t.Str(h).ident;
            && (!t.Str(h).cleaned ==> Holds(t.r, i.id, h))
            && (t.Str(h).cleaned && i.id in t.r.streams ==> var g := R.At(t.r.streams, i.id); g < |t.r.all| && !OfAgent(R.RecordAt(t.r.all, g), i.AgentWs()))
  {
    hide Inv;
    LookupAt(t, cfg, h);
    var i := t.Str(h).ident;
    if t.Str(h).cleaned && i.id in t.r.streams {
      var g := t.r.streams[i.id];
      if t.r.all[g].Tcp? {
        if g < h { ApartOf(t, cfg, g, h); }
        if h < g { ApartOf(t, cfg, h, g); }
      }
    }
  }

  lemma FromAgentIdent(t: Tunnel, cfg: R.Config, rd: R.Readings, h: nat, f: Frame)
    requires Inv(t, cfg) && IsStream(t, h) && !t.Str(h).cleaned && t.Str(h).ident.peer.Agent?
    ensures S.FromAgent(t.Str(h), R.EnvOf(t.r, cfg, rd, t.Str(h).ident), f).ident == t.Str(h).ident
  {
    hide Inv, S.FromAgent, SI.InvWith;
    StreamAt(t, cfg, h);
    RI.TcpReady(t.r, cfg, rd, t.Str(h));
    SI.FromAgentInv(t.Str(h), R.EnvOf(t.r, cfg, rd, t.Str(h).ident), f);
  }

  lemma AgentFrameMoves(t: Tunnel, cfg: R.Config, rd: R.Readings, h: nat)
    requires Inv(t, cfg) && AgentSent(t, h)
    ensures var t', a := RelayReadsAgent(t, cfg, rd, h), t.Str(h).ident.AgentWs();
            && t'.r.reg == t.r.reg && t'.r.sent.rejections == t.r.sent.rejections
            && OnlyMoves(t.r.all, t'.r.all, t.hops, t'.hops, h)
            && t'.HopAt(h) == t.HopAt(h).(far := t.HopAt(h).far.ReadByRelay())
            && (if t.Str(h).cleaned then t'.r.all == t.r.all
                else t'.Str(h) == S.FromAgent(t.Str(h), R.EnvOf(t.r, cfg, rd, t.Str(h).ident), NextFromAgent(t, h)))
            && (t'.r.sent.strays == t.r.sent.strays
                || (t.Str(h).cleaned && t'.r.sent.strays == t.r.sent.strays[a := At(t.r.sent.strays, a) + [t.Str(h).ident.id]]))
  {
    hide Inv, S.FromAgent, CalmEntry, S.ClientTalk, S.FarTalk, DataOf, R.Connect;
    AgentDispatch(t, cfg, h);
    LookupAt(t, cfg, h);
    SizesAgree(t, cfg);
    CalmRefl(t.r.all);
    if !t.Str(h).cleaned {
      FromAgentIdent(t, cfg, rd, h, NextFromAgent(t, h));
    }
  }

  lemma AgentFrameLeg(t: Tunnel, cfg: R.Config, rd: R.Readings, h: nat)
    requires Inv(t, cfg) && AgentSent(t, h)
    ensures var s, hop := t.Str(h), t.HopAt(h);
            var hop' := hop.(far := hop.far.ReadByRelay());
            && (!s.cleaned ==> LegOk(S.FromAgent(s, R.EnvOf(t.r, cfg, rd, s.ident), NextFromAgent(t, h)), hop', t.clientUp, t.agentUp, t.r.reg.openAgents))
            && (s.cleaned ==> LegOk(s, hop', t.clientUp, t.agentUp, t.r.reg.openAgents))
  {
    hide Inv, S.FromAgent, ClientLeg, AgentLeg, SI.InvWith, SE.FarControl;
    StreamAt(t, cfg, h);
    var s, f, a := t.Str(h), t.HopAt(h).far, t.Str(h).ident.AgentWs();
    if s.cleaned {
      FarDrops(s, f, a in t.agentUp, a in t.r.reg.openAgents);
    } else {
      var e := R.EnvOf(t.r, cfg, rd, s.ident);
      var g := f.Rec().sent[f.ka];
      RI.TcpReady(t.r, cfg, rd, s);
      FromAgentIdent(t, cfg, rd, h, g);
      FarReads(s, e, f, a in t.agentUp, a in t.r.reg.openAgents);
      NearFollows(s, e, t.HopAt(h).near, s.ident.ws in t.clientUp, g);
    }
  }

  /** An agent's frame, seen from the client's leg. */
  lemma NearFollows(s: S.Stream, e: S.Env, n: Near, up: bool, g: Frame)
    requires ClientLeg(s, n, up) && SI.Inv(s, e) && !s.cleaned && s.ident.peer.Agent?
    ensures ClientLeg(S.FromAgent(s, e, g), n, up)
  {
    hide S.ClientTalk, S.FarTalk, C.Word, DataOf, C.Inv, S.FromAgent, SI.InvWith;
    SI.FromAgentInv(s, e, g);
    SE.FromAgentTakes(s, e, g);
    ClosedByClient(S.FromAgent(s, e, g), e);
    SamePrefix(s.sent.toClient, S.FromAgent(s, e, g).sent.toClient, n.kc);
  }

  lemma AgentFrameWell(t: Tunnel, cfg: R.Config, rd: R.Readings, h: nat)
    requires Inv(t, cfg) && AgentSent(t, h)
    ensures MovesWell(t, RelayReadsAgent(t, cfg, rd, h), h)
  {
    hide Inv, R.FromAgent, S.FromAgent, OnlyMoves, LegOk;
    AgentFrameMoves(t, cfg, rd, h);
    AgentFrameLeg(t, cfg, rd, h);
    var t' := RelayReadsAgent(t, cfg, rd, h);
    MovesSameSize(t.r.all, t'.r.all, t.hops, t'.hops, h);
    forall i | OverFor(t.Str(h), t.HopAt(h), i) ensures OverFor(t'.Str(h), t'.HopAt(h), i) {
      assert t.Str(h).ident.peer != i.peer;
    }
  }

  /** A stray abort is sent only for an id none of the agent's live streams has. */
  lemma StrayIsGone(t: Tunnel, cfg: R.Config, h: nat, g: nat)
    requires Inv(t, cfg) && AgentSent(t, h) && t.Str(h).cleaned
    requires OfAgent(R.RecordAt(t.r.all, g), t.Str(h).ident.AgentWs()) && t.Str(g).ident.id == t.Str(h).ident.id
    ensures t.Str(g).cleaned
  {
    hide Inv;
    SizesAgree(t, cfg);
    AgentDispatch(t, cfg, h);
    LookupAt(t, cfg, g);
  }

  lemma StraysAdd(all: seq<R.Entry>, strays: map<nat, seq<nat>>, agents: map<nat, AgentConn>, a: nat, id: nat)
    requires StraysOk(all, strays, agents) && a in agents
    requires forall g :: 0 <= g < |all| && OfAgent(all[g], a) && all[g].t.ident.id == id ==> all[g].t.cleaned
    ensures StraysOk(all, strays[a := At(strays, a) + [id]], agents)
  {
    var strays' := strays[a := At(strays, a) + [id]];
    forall b | b in agents ensures StrayedOk(all, At(strays', b), agents[b], b) {
      assert StrayedOk(all, At(strays, b), agents[b], b);
    }
  }

  lemma AgentFrameReplies(t: Tunnel, cfg: R.Config, rd: R.Readings, h: nat)
    requires Inv(t, cfg) && AgentSent(t, h)
    ensures RepliesOk(RelayReadsAgent(t, cfg, rd, h))
  {
    var t' := RelayReadsAgent(t, cfg, rd, h);
    var t1 := t'.(r := t'.r.(sent := t.r.sent));
    assert RepliesOk(t1) by {
      hide Inv, R.FromAgent, OnlyMoves, RepliesOk, ServedOnce;
      InvParts(t, cfg);
      AgentFrameMoves(t, cfg, rd, h);
      MovesSameSize(t.r.all, t'.r.all, t.hops, t'.hops, h);
      RepliesKept(t, t1, h);
    }
    hide Inv, R.FromAgent, OnlyMoves, Served, ConnsOk, RejectionsOk, StraysOk, S.FromAgent;
    AgentFrameMoves(t, cfg, rd, h);
    if t'.r.sent.strays != t.r.sent.strays {
      var i := t.Str(h).ident;
      forall g: nat | g < |t.r.all| && OfAgent(t.r.all[g], i.AgentWs()) && t.Str(g).ident.id == i.id ensures t.Str(g).cleaned {
        StrayIsGone(t, cfg, h, g);
      }
      AgentKnown(t, cfg, h);
      StraysAdd(t.r.all, t.r.sent.strays, t.agents, i.AgentWs(), i.id);
    }
  }

  lemma AgentKnown(t: Tunnel, cfg: R.Config, h: nat)
    requires Inv(t, cfg) && IsStream(t, h) && t.Str(h).ident.peer.Agent?
    ensures var i := t.Str(h).ident; i.AgentWs() in t.agents && ServesRequest(i, t.Conn(i.AgentWs()), t.r.reg.tunnelOf) && ConnOk(t.Conn(i.AgentWs()))
  {
    hide RI.InvBut, LegsOk, ClientIndexed, AgentIndexed, Apart, ServedOnce, RejectionsOk, StraysOk, ServesRequest,
         ConnOk;
    Clauses(t, cfg);
  }

  lemma AgentFrameInv(t: Tunnel, cfg: R.Config, rd: R.Readings, h: nat)
    requires Inv(t, cfg) && AgentSent(t, h)
    ensures Inv(RelayReadsAgent(t, cfg, rd, h), cfg)
  {
    hide Inv, RI.InvBut, R.FromAgent, OnlyMoves, MovesWell, RepliesOk, ServedOnce;
    var t' := RelayReadsAgent(t, cfg, rd, h);
    InvParts(t, cfg);
    RI.FromAgentInv(t.r, cfg, rd, t.Str(h).ident.AgentWs(), t.Str(h).ident.id, NextFromAgent(t, h));
    AgentFrameReplies(t, cfg, rd, h);
    AgentFrameWell(t, cfg, rd, h);
    MovesInv(t, t', cfg, h);
  }

  // ---------------------------------------------------------------------------
  // The client is given a frame
  // ---------------------------------------------------------------------------

  lemma ClientLookup(t: Tunnel, cfg: R.Config, h: nat, key: (nat, nat))
    requires Inv(t, cfg)
    ensures key in t.clientIds ==> ClientHolds(t.r.all, t.hops, R.At(t.clientIds, key), key)
    ensures ClientHolds(t.r.all, t.hops, h, key) ==> key in t.clientIds && R.At(t.clientIds, key) == h
  {
    hide RI.InvBut, LegsOk, AgentIndexed, Apart, Served, ServedOnce, ConnsOk, RejectionsOk, StraysOk, ClientHolds;
    Clauses(t, cfg);
  }

  /** Whoever the client's map finds for a frame of stream h is stream h. */
  lemma ClientFindsOwn(t: Tunnel, cfg: R.Config, h: nat)
    requires Inv(t, cfg) && SentToClient(t, h)
    ensures var key := ClientKey(t.Str(h).ident);
            key in t.clientIds <==> t.HopAt(h).near.c.Some? && !t.HopAt(h).near.Rec().cleaned
    ensures var key := ClientKey(t.Str(h).ident); key in t.clientIds ==> R.At(t.clientIds, key) == h
  {
    hide Inv;
    var key := ClientKey(t.Str(h).ident);
    ClientLookup(t, cfg, h, key);
    if key in t.clientIds {
      var g := t.clientIds[key];
      if g < h { ApartOf(t, cfg, g, h); }
      if h < g { ApartOf(t, cfg, h, g); }
    }
    assert ClientHolds(t.r.all, t.hops, h, key) <==> t.HopAt(h).near.c.Some? && !t.HopAt(h).near.Rec().cleaned;
  }

  /** The first frame on a stream is TCP_OPEN, so the client has a record for every later one. */
  lemma FirstIsOpen(s: S.Stream, e: S.Env, n: Near, up: bool)
    requires ClientLeg(s, n, up) && SI.Inv(s, e) && n.kc < |s.sent.toClient|
    ensures n.kc == 0 <==> FrameAt(s.sent.toClient, n.kc).TcpOpen?
    ensures n.kc > 0 ==> n.c.Some?
  {
    hide S.ClientTalk, S.FarTalk, C.Word, DataOf;
    var log := s.sent.toClient;
    assert S.ClientTalk(log) != S.Malformed;
    TalkPrefix(log, n.kc);
    TalkPrefix(log, n.kc + 1);
    TalkNext(log, n.kc);
  }

  /** What the client's record of stream h is after the next frame. */
  function NearAfter(t: Tunnel, lv: Levels, h: nat, admit: bool): Near {
    var n, i, f := t.HopAt(h).near, t.Str(h).ident, NextToClient(t, h);
    if f.TcpOpen? then Near(Some(C.Open(i.id, ClientEnv(t, lv, i.ws), f.wellFormed, admit)), n.kc + 1, 0)
    else if n.c.Some? && !n.Rec().cleaned then n.(c := Some(C.FromServer(n.Rec(), ClientEnv(t, lv, i.ws), f)), kc := n.kc + 1)
    else n.(kc := n.kc + 1)
  }

  lemma ClientReadsLeg(t: Tunnel, cfg: R.Config, lv: Levels, h: nat, admit: bool)
    requires Inv(t, cfg) && SentToClient(t, h)
    ensures var s, n := t.Str(h), t.HopAt(h).near;
            && LegOk(s, t.HopAt(h).(near := NearAfter(t, lv, h, admit)), t.clientUp, t.agentUp, t.r.reg.openAgents)
            && (FrameAt(s.sent.toClient, n.kc).TcpOpen? ==> n == NoHop().near)
  {
    hide Inv, ClientLeg, AgentLeg, SI.InvWith, C.Open, C.FromServer;
    StreamAt(t, cfg, h);
    var s, n := t.Str(h), t.HopAt(h).near;
    var e, ce, f := RI.Surroundings(t.r.reg, cfg, s.ident), ClientEnv(t, lv, s.ident.ws), FrameAt(s.sent.toClient, n.kc);
    FirstIsOpen(s, e, n, ce.wsOpen);
    if f.TcpOpen? {
      NearOpens(s, e, n, ce, f.wellFormed, admit);
    } else if !n.Rec().cleaned {
      NearWrites(s, e, n, ce);
    } else {
      NearIgnores(s, e, n, ce.wsOpen);
    }
  }

  lemma ClientReadsWell(t: Tunnel, cfg: R.Config, lv: Levels, h: nat, admit: bool)
    requires Inv(t, cfg) && SentToClient(t, h)
    ensures var t' := ClientReads(t, lv, h, admit);
            && MovesWell(t, t', h) && t' == t.(hops := t'.hops, clientIds := t'.clientIds)
            && t'.HopAt(h).far == t.HopAt(h).far
  {
    hide Inv, LegOk, C.Open, C.FromServer, CalmEntry;
    ClientReadsLeg(t, cfg, lv, h, admit);
    ClientFindsOwn(t, cfg, h);
    SizesAgree(t, cfg);
    CalmRefl(t.r.all);
    var t' := ClientReads(t, lv, h, admit);
    assert t'.hops == t.hops[h := t.HopAt(h).(near := NearAfter(t, lv, h, admit))];
    forall i | OverFor(t.Str(h), t.HopAt(h), i) ensures OverFor(t'.Str(h), t'.HopAt(h), i) {
      assert t.Str(h).ident.ws != i.ws;
    }
  }

  lemma ClientReadsInv(t: Tunnel, cfg: R.Config, lv: Levels, h: nat, admit: bool)
    requires Inv(t, cfg) && SentToClient(t, h)
    ensures Inv(ClientReads(t, lv, h, admit), cfg)
  {
    hide Inv, RI.InvBut, OnlyMoves, RepliesOk, ServedOnce, LegOk, OverFor, ClientIdsMove, AgentIdsMove, ClientReads;
    var t' := ClientReads(t, lv, h, admit);
    InvParts(t, cfg);
    ClientReadsWell(t, cfg, lv, h, admit);
    RepliesKept(t, t', h);
    MovesInv(t, t', cfg, h);
  }

  // ---------------------------------------------------------------------------
  // The agent is given a frame
  // ---------------------------------------------------------------------------

  lemma AgentLookup(t: Tunnel, cfg: R.Config, h: nat, key: (nat, nat))
    requires Inv(t, cfg)
    ensures key in t.agentIds ==> AgentHolds(t.r.all, t.hops, R.At(t.agentIds, key), key)
    ensures AgentHolds(t.r.all, t.hops, h, key) ==> key in t.agentIds && R.At(t.agentIds, key) == h
  {
    hide RI.InvBut, LegsOk, ClientIndexed, Apart, Served, ServedOnce, ConnsOk, RejectionsOk, StraysOk, AgentHolds;
    Clauses(t, cfg);
  }

  /** Whoever the agent's map finds for a frame of stream h is stream h. */
  lemma AgentFindsOwn(t: Tunnel, cfg: R.Config, h: nat)
    requires Inv(t, cfg) && SentToAgent(t, h)
    ensures var key := AgentKey(t.Str(h).ident);
            key in t.agentIds <==> t.HopAt(h).far.a.Some? && !t.HopAt(h).far.Rec().cleaned
    ensures var key := AgentKey(t.Str(h).ident); key in t.agentIds ==> R.At(t.agentIds, key) == h
  {
    hide Inv;
    var key := AgentKey(t.Str(h).ident);
    AgentLookup(t, cfg, h, key);
    if key in t.agentIds {
      var g := t.agentIds[key];
      if g < h { ApartOf(t, cfg, g, h); }
      if h < g { ApartOf(t, cfg, h, g); }
    }
    assert AgentHolds(t.r.all, t.hops, h, key) <==> t.HopAt(h).far.a.Some? && !t.HopAt(h).far.Rec().cleaned;
  }

  /** What the agent's end of stream h is after the next frame. */
  function FarAfter(t: Tunnel, lv: Levels, h: nat, alive: bool): Far {
    var f, i := t.HopAt(h).far, t.Str(h).ident;
    var a, g := i.AgentWs(), NextToAgent(t, h);
    if g.TcpConnectAck? then
      var p := A.Find(t.Conn(a).pending, g.reply);
      if p.None? || !alive then f.(kg := f.kg + 1)
      else Far(Some(A.Registered(i.id)), t.Conn(a).pending[p.value].sock, f.kg + 1, 0)
    else if f.a.Some? && !f.Rec().cleaned && !g.ConnectRejected? then f.(a := Some(A.FromServer(f.Rec(), AgentEnv(t, lv, a), g)), kg := f.kg + 1)
    else f.(kg := f.kg + 1)
  }

  lemma AgentReadsLeg(t: Tunnel, cfg: R.Config, lv: Levels, h: nat, alive: bool)
    requires Inv(t, cfg) && SentToAgent(t, h)
    ensures var s, f := t.Str(h), t.HopAt(h).far;
            && LegOk(s, t.HopAt(h).(far := FarAfter(t, lv, h, alive)), t.clientUp, t.agentUp, t.r.reg.openAgents)
            && (FrameAt(s.sent.toFar, f.kg).TcpConnectAck? ==> f.a.None? && ReplyOf(FrameAt(s.sent.toFar, f.kg)) == S.ReplyTo(s.ident))
            && (FrameAt(s.sent.toFar, f.kg).ConnectRejected? ==> f.a.Some? ==> f.Rec().cleaned)
  {
    hide Inv, ClientLeg, AgentLeg, SI.InvWith, A.Registered, A.FromServer, A.Find;
    StreamAt(t, cfg, h);
    var s, f := t.Str(h), t.HopAt(h).far;
    var e, a := RI.Surroundings(t.r.reg, cfg, s.ident), s.ident.AgentWs();
    var ae, heard := AgentEnv(t, lv, a), a in t.r.reg.openAgents;
    if FrameAt(s.sent.toFar, f.kg).TcpConnectAck? {
      FarAcked(s, e, f, ae.wsOpen, heard);
      FarIgnores(s, e, f, ae.wsOpen, heard);
      var p := A.Find(t.Conn(a).pending, FrameAt(s.sent.toFar, f.kg).reply);
      if p.Some? { FarBinds(s, e, f, ae.wsOpen, heard, t.Conn(a).pending[p.value].sock); }
    } else if f.a.Some? && !f.Rec().cleaned {
      FarWrites(s, e, f, ae, heard);
    } else {
      FarIgnores(s, e, f, ae.wsOpen, heard);
    }
  }

  lemma AgentReadsWell(t: Tunnel, cfg: R.Config, lv: Levels, h: nat, alive: bool)
    requires Inv(t, cfg) && SentToAgent(t, h)
    ensures var t' := AgentReads(t, lv, h, alive);
            && MovesWell(t, t', h) && t' == t.(hops := t'.hops, agentIds := t'.agentIds, agents := t'.agents)
            && t'.HopAt(h).far == FarAfter(t, lv, h, alive)
            && t'.agents == (if Replies(NextToAgent(t, h))
                             then t.agents[t.Str(h).ident.AgentWs() := Answered(t.Conn(t.Str(h).ident.AgentWs()), ReplyOf(NextToAgent(t, h)))]
                             else t.agents)
  {
    hide Inv, LegOk, A.Find, A.FromServer, CalmEntry, Answered;
    AgentReadsLeg(t, cfg, lv, h, alive);
    AgentFindsOwn(t, cfg, h);
    SizesAgree(t, cfg);
    CalmRefl(t.r.all);
    var t' := AgentReads(t, lv, h, alive);
    assert t'.hops == t.hops[h := t.HopAt(h).(far := FarAfter(t, lv, h, alive))];
    forall i | OverFor(t.Str(h), t.HopAt(h), i) ensures OverFor(t'.Str(h), t'.HopAt(h), i) {
      assert t.Str(h).ident.peer != i.peer;
    }
  }

  /** An answer takes exactly the connection it names off the waiting list. */
  lemma AnsweredOk(conn: AgentConn, reply: ConnectReply)
    requires ConnOk(conn) && 0 < reply.requestId <= A.MAX_SAFE_INTEGER
    ensures ConnOk(Answered(conn, reply))
    ensures forall p :: p in Answered(conn, reply).pending <==> p in conn.pending && p.requestId != reply.requestId
  {
    hide Routable, A.Remove, PendingOk;
    var i := A.Find(conn.pending, reply);
    if i.Some? {
      RemoveOk(conn.pending, conn, i.value);
      RemoveExact(conn.pending, conn, i.value);
      assert PendingOk(A.Remove(conn.pending, i.value), Answered(conn, reply)) by {
        PendingFrame(A.Remove(conn.pending, i.value), conn, Answered(conn, reply));
      }
    }
  }

  lemma PendingFrame(pending: seq<A.Pending>, conn: AgentConn, conn': AgentConn)
    requires PendingOk(pending, conn) && conn'.first == conn.first && conn.issued <= conn'.issued
    ensures PendingOk(pending, conn')
  {
  }

  lemma RemoveOk(pending: seq<A.Pending>, conn: AgentConn, i: nat)
    requires PendingOk(pending, conn) && i < |pending|
    ensures PendingOk(A.Remove(pending, i), conn)
  {
    var rest := A.Remove(pending, i);
    forall k | 0 <= k < |rest| ensures rest[k] == pending[if k < i then k else k + 1] { }
  }

  lemma RemoveExact(pending: seq<A.Pending>, conn: AgentConn, i: nat)
    requires PendingOk(pending, conn) && i < |pending|
    ensures forall p :: p in A.Remove(pending, i) <==> p in pending && p.requestId != pending[i].requestId
  {
    var rest := A.Remove(pending, i);
    assert forall k :: 0 <= k < |rest| ==> rest[k] == pending[if k < i then k else k + 1];
    forall p | p in pending && p.requestId != pending[i].requestId ensures p in rest {
      var k :| 0 <= k < |pending| && pending[k] == p;
      assert rest[if k < i then k else k - 1] == p;
    }
  }

  /** The waiting connection a reply finds is the one that asked. */
  lemma FoundAsked(conn: AgentConn, reply: ConnectReply)
    requires ConnOk(conn) && conn.first <= reply.requestId < conn.first + |conn.issued|
    ensures forall k :: A.Find(conn.pending, reply) == Some(k) ==> k < |conn.pending| && conn.pending[k].sock == conn.issued[reply.requestId - conn.first].sock
  {
    hide Routable;
  }

  /** How a connection may change between two of its requests being dealt with. */
  ghost predicate ConnFollows(conn: AgentConn, conn': AgentConn) {
    && ConnOk(conn') && conn'.first == conn.first && conn'.asked == conn.asked && conn.issued <= conn'.issued
    && conn.rejected <= conn'.rejected && conn.aborted <= conn'.aborted
  }

  lemma ConnRejected(all: seq<R.Entry>, rejected: seq<ConnectReply>, conn: AgentConn, conn': AgentConn, a: nat)
    requires RejectedOk(all, rejected, conn, a) && ConnFollows(conn, conn') && conn'.rejected <= |rejected|
    ensures RejectedOk(all, rejected, conn', a)
  {
    hide ConnOk, OfAgent;
  }

  lemma ConnStrayed(all: seq<R.Entry>, strays: seq<nat>, conn: AgentConn, conn': AgentConn, a: nat)
    requires StrayedOk(all, strays, conn, a) && ConnFollows(conn, conn') && conn'.aborted <= |strays|
    ensures StrayedOk(all, strays, conn', a)
  {
    hide ConnOk, OfAgent;
  }

  lemma ConnReplies(t: Tunnel, a: nat, conn: AgentConn)
    requires RepliesOk(t) && a in t.agents && ConnFollows(t.Conn(a), conn)
    requires conn.rejected <= |At(t.r.sent.rejections, a)| && conn.aborted <= |At(t.r.sent.strays, a)|
    ensures RepliesOk(WithConn(t, a, conn))
  {
    hide ConnOk, RejectedOk, StrayedOk, Served;
    ConnServed(t.r.all, t.hops, t.agents, t.r.reg.tunnelOf, a, conn);
    ConnRejected(t.r.all, At(t.r.sent.rejections, a), t.Conn(a), conn, a);
    ConnStrayed(t.r.all, At(t.r.sent.strays, a), t.Conn(a), conn, a);
  }

  lemma ConnServed(all: seq<R.Entry>, hops: seq<Hop>, agents: map<nat, AgentConn>, tunnelOf: map<nat, string>, a: nat,
      conn: AgentConn)
    requires Served(all, hops, agents, tunnelOf) && a in agents && ConnFollows(agents[a], conn)
    ensures Served(all, hops, agents[a := conn], tunnelOf)
  {
    hide ConnOk;
  }

  /** The stream's request is one of this connection's, and the socket bound to it, if any, is the one that asked. */
  ghost predicate Bound(i: S.Identity, f: Far, conn: AgentConn) {
    && conn.first <= i.requestId < conn.first + |conn.issued| && 0 < i.requestId <= A.MAX_SAFE_INTEGER
    && (f.a.Some? ==> f.sock == conn.issued[i.requestId - conn.first].sock)
  }

  lemma BoundAt(t: Tunnel, h: nat)
    requires RepliesOk(t) && IsStream(t, h) && t.Str(h).ident.peer.Agent?
    ensures var i := t.Str(h).ident;
            i.AgentWs() in t.agents && ConnOk(t.Conn(i.AgentWs())) && Bound(i, t.HopAt(h).far, t.Conn(i.AgentWs()))
  {
    hide RejectionsOk, StraysOk, PendingOk, Routable;
  }

  lemma ReplyNames(s: S.Stream, f: Far, up: bool, heard: bool)
    requires AgentLeg(s, f, up, heard) && f.kg < |s.sent.toFar|
    ensures var g := FrameAt(s.sent.toFar, f.kg); Replies(g) ==> ReplyOf(g) == S.ReplyTo(s.ident)
  {
    hide S.FarTalk, FarIn, FarOut, A.Inv;
  }

  /** The reply on a stream names a request its agent issued. */
  lemma ReplyInRange(t: Tunnel, cfg: R.Config, h: nat)
    requires Inv(t, cfg) && SentToAgent(t, h)
    ensures var i, g := t.Str(h).ident, NextToAgent(t, h);
            && ConnOk(t.Conn(i.AgentWs())) && Bound(i, t.HopAt(h).far, t.Conn(i.AgentWs()))
            && (Replies(g) ==> ReplyOf(g) == S.ReplyTo(i))
  {
    hide Inv, ClientLeg, AgentLeg, SI.Inv, RepliesOk, ConnOk, Bound, RI.Inv, RI.EntryOk;
    InvParts(t, cfg);
    BoundAt(t, h);
    StreamAt(t, cfg, h);
    ReplyNames(t.Str(h), t.HopAt(h).far, t.Str(h).ident.AgentWs() in t.agentUp, t.Str(h).ident.AgentWs() in t.r.reg.openAgents);
  }

  lemma FarAfterBound(t: Tunnel, cfg: R.Config, lv: Levels, h: nat, alive: bool)
    requires Inv(t, cfg) && SentToAgent(t, h)
    ensures Bound(t.Str(h).ident, FarAfter(t, lv, h, alive), t.Conn(t.Str(h).ident.AgentWs()))
  {
    hide Inv, ConnOk, A.Find, A.FromServer, A.Registered;
    ReplyInRange(t, cfg, h);
    var i, g := t.Str(h).ident, NextToAgent(t, h);
    if g.TcpConnectAck? && A.Find(t.Conn(i.AgentWs()).pending, g.reply).Some? { FoundAsked(t.Conn(i.AgentWs()), g.reply); }
  }

  lemma ServedHop(all: seq<R.Entry>, hops: seq<Hop>, agents: map<nat, AgentConn>, tunnelOf: map<nat, string>, h: nat, hop': Hop)
    requires Served(all, hops, agents, tunnelOf) && h < |all| == |hops| && all[h].Tcp? && all[h].t.ident.peer.Agent?
    requires all[h].t.ident.AgentWs() in agents ==> Bound(all[h].t.ident, hop'.far, agents[all[h].t.ident.AgentWs()])
    ensures Served(all, hops[h := hop'], agents, tunnelOf)
  {
    hide ServesRequest;
  }

  lemma RepliesHop(t: Tunnel, h: nat, hop': Hop)
    requires RepliesOk(t) && IsStream(t, h) && t.Str(h).ident.peer.Agent? && |t.hops| == |t.r.all|
    requires t.Str(h).ident.AgentWs() in t.agents ==> Bound(t.Str(h).ident, hop'.far, t.Conn(t.Str(h).ident.AgentWs()))
    ensures RepliesOk(WithHop(t, h, hop'))
  {
    hide RejectionsOk, StraysOk, ConnsOk, Served, Bound;
    ServedHop(t.r.all, t.hops, t.agents, t.r.reg.tunnelOf, h, hop');
  }

  lemma AgentReadsServed(t: Tunnel, cfg: R.Config, lv: Levels, h: nat, alive: bool)
    requires Inv(t, cfg) && SentToAgent(t, h)
    ensures RepliesOk(WithFar(t, h, FarAfter(t, lv, h, alive)))
  {
    hide Inv, RepliesOk, FarAfter, RI.Inv, ServedOnce, Bound;
    InvParts(t, cfg);
    FarAfterBound(t, cfg, lv, h, alive);
    RepliesHop(t, h, t.HopAt(h).(far := FarAfter(t, lv, h, alive)));
  }

  lemma AnsweredFollows(conn: AgentConn, reply: ConnectReply)
    requires ConnOk(conn) && 0 < reply.requestId <= A.MAX_SAFE_INTEGER
    ensures ConnFollows(conn, Answered(conn, reply)) && Answered(conn, reply) == conn.(pending := Answered(conn, reply).pending)
  {
    hide ConnOk;
    AnsweredOk(conn, reply);
  }

  lemma RepliesLimits(t: Tunnel, a: nat)
    requires RepliesOk(t) && a in t.agents
    ensures t.Conn(a).rejected <= |At(t.r.sent.rejections, a)| && t.Conn(a).aborted <= |At(t.r.sent.strays, a)| && ConnOk(t.Conn(a))
  {
    hide ConnOk, Served;
    assert RejectedOk(t.r.all, At(t.r.sent.rejections, a), t.Conn(a), a);
    assert StrayedOk(t.r.all, At(t.r.sent.strays, a), t.Conn(a), a);
  }

  lemma AnsweredReplies(t: Tunnel, a: nat, reply: ConnectReply)
    requires RepliesOk(t) && a in t.agents && 0 < reply.requestId <= A.MAX_SAFE_INTEGER
    ensures RepliesOk(WithConn(t, a, Answered(t.Conn(a), reply)))
  {
    hide RepliesOk, ConnOk, Answered;
    RepliesLimits(t, a);
    AnsweredFollows(t.Conn(a), reply);
    ConnReplies(t, a, Answered(t.Conn(a), reply));
  }

  lemma AgentReadsReplies(t: Tunnel, cfg: R.Config, lv: Levels, h: nat, alive: bool)
    requires Inv(t, cfg) && SentToAgent(t, h)
    ensures RepliesOk(AgentReads(t, lv, h, alive))
  {
    var t' := AgentReads(t, lv, h, alive);
    var i, g := t.Str(h).ident, NextToAgent(t, h);
    var t0 := t.(hops := t.hops[h := t.HopAt(h).(far := FarAfter(t, lv, h, alive))]);
    AgentReadsWell(t, cfg, lv, h, alive);
    assert t'.hops == t0.hops && t'.r == t.r by {
      hide Inv, RepliesOk, LegOk, OverFor, ClientIdsMove, AgentIdsMove, AgentReads, FarAfter, CalmEntry;
      assert t'.HopAt(h).near == t.HopAt(h).near by { AgentReadsNear(t, lv, h, alive); }
    }
    hide Inv, RepliesOk, MovesWell, AgentReads, FarAfter, ConnOk, Answered;
    AgentReadsServed(t, cfg, lv, h, alive);
    ReplyInRange(t, cfg, h);
    if g.TcpConnectAck? || g.ConnectRejected? {
      AnsweredReplies(t0, i.AgentWs(), g.reply);
      RepliesFrame(WithConn(t0, i.AgentWs(), Answered(t.Conn(i.AgentWs()), g.reply)), t');
    } else {
      RepliesFrame(t0, t');
    }
  }

  lemma AgentReadsNear(t: Tunnel, lv: Levels, h: nat, alive: bool)
    requires SentToAgent(t, h)
    ensures |AgentReads(t, lv, h, alive).hops| == |t.hops| && AgentReads(t, lv, h, alive).HopAt(h).near == t.HopAt(h).near
  {
    hide A.Find, A.FromServer, Answered;
  }

  lemma RepliesFrame(t: Tunnel, t': Tunnel)
    requires RepliesOk(t) && t'.r == t.r && t'.hops == t.hops && t'.agents == t.agents
    ensures RepliesOk(t')
  {
  }

  lemma AgentReadsInv(t: Tunnel, cfg: R.Config, lv: Levels, h: nat, alive: bool)
    requires Inv(t, cfg) && SentToAgent(t, h)
    ensures Inv(AgentReads(t, lv, h, alive), cfg)
  {
    hide Inv, RI.InvBut, OnlyMoves, RepliesOk, ServedOnce, LegOk, OverFor, ClientIdsMove, AgentIdsMove, AgentReads,
         FarAfter;
    InvParts(t, cfg);
    AgentReadsReplies(t, cfg, lv, h, alive);
    AgentReadsWell(t, cfg, lv, h, alive);
    MovesInv(t, AgentReads(t, lv, h, alive), cfg, h);
  }
}
