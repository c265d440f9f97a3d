/** The remaining steps of the tunnel, and its runs. */
module TunnelRuns {
  import opened Frames
  import opened Tunnel
  import opened TunnelLegs
  import opened TunnelInvariant
  import opened TunnelSteps
  import opened TunnelDeliveries
  import R = Relay
  import RI = RelayInvariant
  import SI = RelayStreamInvariant
  import C = TcpClient
  import A = TcpAgent

  // ---------------------------------------------------------------------------
  // Steps at an endpoint
  // ---------------------------------------------------------------------------

  lemma ClientGoneSilent(c: C.Stream, e: C.Env, ev: C.Local)
    requires C.Inv(c, e.wsOpen) && !c.took.crossed && c.cleaned && C.Possible(c, e, ev)
    ensures C.OnLocal(c, e, ev).cleaned && C.OnLocal(c, e, ev).sent == c.sent
  {
    hide C.Word, DataOf;
  }

  lemma AgentGoneSilent(a: A.Stream, e: A.Env, ev: A.Local)
    requires a.cleaned && A.Possible(a, ev)
    ensures A.OnLocal(a, e, ev).cleaned && A.OnLocal(a, e, ev).sent == a.sent
  {
    hide A.Word, DataOf;
  }

  lemma PutClientSame(t: Tunnel, h: nat, c: C.Stream)
    requires IsStream(t, h) && t.HopAt(h).near.c.Some?
    ensures var t' := PutClient(t, h, c);
            t'.r == t.r && t'.agents == t.agents && |t'.hops| == |t.hops| && t'.HopAt(h).far.sock == t.HopAt(h).far.sock
            && (t'.HopAt(h).far.a.Some? ==> t.HopAt(h).far.a.Some?)
  {
  }

  lemma PutClientWell(t: Tunnel, cfg: R.Config, h: nat, c: C.Stream)
    requires Inv(t, cfg) && IsStream(t, h) && t.HopAt(h).near.c.Some?
    requires LegOk(t.Str(h), t.HopAt(h).(near := t.HopAt(h).near.(c := Some(c))), t.clientUp, t.agentUp, t.r.reg.openAgents)
    requires t.HopAt(h).near.Rec().cleaned ==> c.cleaned && c.sent == t.HopAt(h).near.Rec().sent
    ensures MovesWell(t, PutClient(t, h, c), h) && OnlyMoves(t.r.all, PutClient(t, h, c).r.all, t.hops, PutClient(t, h, c).hops, h)
  {
    hide Inv, LegOk, CalmEntry;
    SizesAgree(t, cfg);
    CalmRefl(t.r.all);
  }

  /** The client's record of stream h changes, and nothing else. */
  lemma PutClientInv(t: Tunnel, cfg: R.Config, h: nat, c: C.Stream)
    requires Inv(t, cfg) && IsStream(t, h) && t.HopAt(h).near.c.Some?
    requires LegOk(t.Str(h), t.HopAt(h).(near := t.HopAt(h).near.(c := Some(c))), t.clientUp, t.agentUp, t.r.reg.openAgents)
    requires t.HopAt(h).near.Rec().cleaned ==> c.cleaned && c.sent == t.HopAt(h).near.Rec().sent
    ensures Inv(PutClient(t, h, c), cfg)
  {
    hide Inv, LegOk, OnlyMoves, RepliesOk, RI.Inv, MovesWell, ServedOnce, PutClient;
    InvParts(t, cfg);
    PutClientWell(t, cfg, h, c);
    PutClientSame(t, h, c);
    RepliesKept(t, PutClient(t, h, c), h);
    MovesInv(t, PutClient(t, h, c), cfg, h);
  }

  lemma PutAgentSame(t: Tunnel, h: nat, a: A.Stream)
    requires IsStream(t, h) && t.HopAt(h).far.a.Some?
    ensures var t' := PutAgent(t, h, a);
            t'.r == t.r && t'.agents == t.agents && |t'.hops| == |t.hops| && t'.HopAt(h).far.sock == t.HopAt(h).far.sock
            && (t'.HopAt(h).far.a.Some? ==> t.HopAt(h).far.a.Some?)
  {
  }

  lemma PutAgentWell(t: Tunnel, cfg: R.Config, h: nat, a: A.Stream)
    requires Inv(t, cfg) && IsStream(t, h) && t.Str(h).ident.peer.Agent? && t.HopAt(h).far.a.Some?
    requires LegOk(t.Str(h), t.HopAt(h).(far := t.HopAt(h).far.(a := Some(a))), t.clientUp, t.agentUp, t.r.reg.openAgents)
    requires t.HopAt(h).far.Rec().cleaned ==> a.cleaned && a.sent == t.HopAt(h).far.Rec().sent
    ensures MovesWell(t, PutAgent(t, h, a), h) && OnlyMoves(t.r.all, PutAgent(t, h, a).r.all, t.hops, PutAgent(t, h, a).hops, h)
  {
    hide Inv, LegOk, CalmEntry;
    SizesAgree(t, cfg);
    CalmRefl(t.r.all);
  }

  lemma PutAgentInv(t: Tunnel, cfg: R.Config, h: nat, a: A.Stream)
    requires Inv(t, cfg) && IsStream(t, h) && t.Str(h).ident.peer.Agent? && t.HopAt(h).far.a.Some?
    requires LegOk(t.Str(h), t.HopAt(h).(far := t.HopAt(h).far.(a := Some(a))), t.clientUp, t.agentUp, t.r.reg.openAgents)
    requires t.HopAt(h).far.Rec().cleaned ==> a.cleaned && a.sent == t.HopAt(h).far.Rec().sent
    ensures Inv(PutAgent(t, h, a), cfg)
  {
    hide Inv, LegOk, OnlyMoves, RepliesOk, RI.Inv, MovesWell, ServedOnce, PutAgent;
    InvParts(t, cfg);
    PutAgentWell(t, cfg, h, a);
    PutAgentSame(t, h, a);
    RepliesKept(t, PutAgent(t, h, a), h);
    MovesInv(t, PutAgent(t, h, a), cfg, h);
  }

  lemma ClientLocalInv(t: Tunnel, cfg: R.Config, lv: Levels, h: nat, ev: C.Local)
    requires Inv(t, cfg) && IsStream(t, h) && t.HopAt(h).near.c.Some?
    requires C.Possible(t.HopAt(h).near.Rec(), ClientEnv(t, lv, t.Str(h).ident.ws), ev)
    ensures Inv(PutClient(t, h, C.OnLocal(t.HopAt(h).near.Rec(), ClientEnv(t, lv, t.Str(h).ident.ws), ev)), cfg)
  {
    hide Inv, C.OnLocal, AgentLeg, SI.Inv, PutClient, RI.EntryOk, C.Inv, NearIn, NearOut;
    var s, n, e := t.Str(h), t.HopAt(h).near, ClientEnv(t, lv, t.Str(h).ident.ws);
    StreamAt(t, cfg, h);
    NearLocal(s, n, e, ev);
    if n.Rec().cleaned { ClientGoneSilent(n.Rec(), e, ev); }
    PutClientInv(t, cfg, h, C.OnLocal(n.Rec(), e, ev));
  }

  lemma AgentLocalInv(t: Tunnel, cfg: R.Config, lv: Levels, h: nat, ev: A.Local)
    requires Inv(t, cfg) && IsStream(t, h) && t.Str(h).ident.peer.Agent? && t.HopAt(h).far.a.Some?
    requires A.Possible(t.HopAt(h).far.Rec(), ev) && (ev.Shutdown? ==> t.Str(h).ident.AgentWs() !in t.agentUp)
    ensures Inv(PutAgent(t, h, A.OnLocal(t.HopAt(h).far.Rec(), AgentEnv(t, lv, t.Str(h).ident.AgentWs()), ev)), cfg)
  {
    hide Inv, A.OnLocal, ClientLeg, AgentLeg, SI.Inv, PutAgent, RI.EntryOk;
    var s, f, a := t.Str(h), t.HopAt(h).far, t.Str(h).ident.AgentWs();
    var e := AgentEnv(t, lv, a);
    StreamAt(t, cfg, h);
    FarLocal(s, f, e, a in t.r.reg.openAgents, ev);
    if f.Rec().cleaned { AgentGoneSilent(f.Rec(), e, ev); }
    PutAgentInv(t, cfg, h, A.OnLocal(f.Rec(), e, ev));
  }

  // ---------------------------------------------------------------------------
  // Steps of an agent's connection
  // ---------------------------------------------------------------------------

  lemma ConnInv(t: Tunnel, cfg: R.Config, a: nat, conn: AgentConn)
    requires Inv(t, cfg) && a in t.agents && ConnFollows(t.Conn(a), conn)
    requires conn.rejected <= |At(t.r.sent.rejections, a)| && conn.aborted <= |At(t.r.sent.strays, a)|
    ensures Inv(WithConn(t, a, conn), cfg)
  {
    Clauses(t, cfg);
    assert RepliesOk(t) && RepliesOk(WithConn(t, a, conn)) by {
      hide Inv, RepliesOk, ConnFollows, RI.Inv, ServedOnce;
      InvParts(t, cfg);
      ConnReplies(t, a, conn);
    }
    hide RI.InvBut, LegsOk, ClientIndexed, AgentIndexed, Apart, Served, ServedOnce, ConnsOk, RejectionsOk, StraysOk,
         ConnFollows;
    Clauses(WithConn(t, a, conn), cfg);
  }

  /** The agent's connection, as the invariant knows it. */
  lemma ConnAt(t: Tunnel, cfg: R.Config, a: nat)
    requires Inv(t, cfg) && a in t.agents
    ensures ConnOk(t.Conn(a))
    ensures t.Conn(a).rejected <= |At(t.r.sent.rejections, a)| && t.Conn(a).aborted <= |At(t.r.sent.strays, a)|
  {
    hide Inv, RepliesOk, RI.Inv, ServedOnce, ConnOk;
    InvParts(t, cfg);
    RepliesLimits(t, a);
  }

  lemma RejectedInRange(t: Tunnel, cfg: R.Config, a: nat, k: nat)
    requires Inv(t, cfg) && a in t.agents && k < |At(t.r.sent.rejections, a)|
    ensures var id := RejectionAt(t, a, k).requestId;
            && t.Conn(a).first <= id < t.Conn(a).first + t.Conn(a).asked && 0 < id <= A.MAX_SAFE_INTEGER
            && Unserved(t.r.all, a, id)
  {
    Clauses(t, cfg);
    ConnAt(t, cfg, a);
    hide RI.InvBut, LegsOk, ClientIndexed, AgentIndexed, Apart, Served, ServedOnce, ConnsOk, StraysOk, PendingOk,
         Routable;
    assert RejectedOk(t.r.all, At(t.r.sent.rejections, a), t.Conn(a), a);
  }

  lemma RejectionInv(t: Tunnel, cfg: R.Config, a: nat)
    requires Inv(t, cfg) && RejectionSent(t, a)
    ensures Inv(WithConn(t, a, Rejected(t.Conn(a), NextRejection(t, a))), cfg)
  {
    hide Inv, ConnOk, Answered;
    var reply := NextRejection(t, a);
    ConnAt(t, cfg, a);
    RejectedInRange(t, cfg, a, t.Conn(a).rejected);
    AnsweredFollows(t.Conn(a), reply);
    ConnFrame(Answered(t.Conn(a), reply), Rejected(t.Conn(a), reply));
    ConnInv(t, cfg, a, Rejected(t.Conn(a), reply));
  }

  lemma ConnFrame(conn: AgentConn, conn': AgentConn)
    requires ConnOk(conn) && conn' == conn.(rejected := conn'.rejected, aborted := conn'.aborted)
    ensures ConnOk(conn')
  {
    hide Routable;
  }

  lemma IssuedOk(conn: AgentConn, i: Issue)
    requires ConnOk(conn) && Routable(i.target) && conn.first + |conn.issued| <= A.MAX_SAFE_INTEGER
    ensures ConnFollows(conn, Issued(conn, i))
  {
    hide Routable;
  }

  lemma RemovedSock(pending: seq<A.Pending>, sock: nat) returns (i: nat)
    ensures i <= |pending| && A.RemoveSock(pending, sock) == if i == |pending| then pending else A.Remove(pending, i)
  {
    i := A.RemoveSockIsFirst(pending, sock);
  }

  lemma RemoveSockOk(conn: AgentConn, sock: nat)
    requires ConnOk(conn)
    ensures ConnFollows(conn, conn.(pending := A.RemoveSock(conn.pending, sock)))
  {
    hide Routable, PendingOk, A.RemoveSock;
    var i := RemovedSock(conn.pending, sock);
    var conn' := conn.(pending := A.RemoveSock(conn.pending, sock));
    if i < |conn.pending| { RemoveOk(conn.pending, conn, i); }
    PendingFrame(conn'.pending, conn, conn');
  }

  lemma PendingGoneOk(conn: AgentConn)
    requires ConnOk(conn)
    ensures ConnFollows(conn, conn.(pending := []))
  {
    hide Routable;
  }

  lemma LocalConnectInv(t: Tunnel, cfg: R.Config, a: nat, i: Issue)
    requires Inv(t, cfg) && a in t.agents && Routable(i.target) && t.Conn(a).first + |t.Conn(a).issued| <= A.MAX_SAFE_INTEGER
    ensures Inv(WithConn(t, a, Issued(t.Conn(a), i)), cfg)
  {
    hide Inv, ConnOk;
    ConnAt(t, cfg, a);
    IssuedOk(t.Conn(a), i);
    ConnInv(t, cfg, a, Issued(t.Conn(a), i));
  }

  lemma PendingEndsInv(t: Tunnel, cfg: R.Config, a: nat, sock: nat)
    requires Inv(t, cfg) && a in t.agents
    ensures Inv(WithConn(t, a, t.Conn(a).(pending := A.RemoveSock(t.Conn(a).pending, sock))), cfg)
    ensures Inv(WithConn(t, a, t.Conn(a).(pending := [])), cfg)
  {
    hide Inv, ConnOk, A.RemoveSock;
    ConnAt(t, cfg, a);
    RemoveSockOk(t.Conn(a), sock);
    PendingGoneOk(t.Conn(a));
    ConnInv(t, cfg, a, t.Conn(a).(pending := A.RemoveSock(t.Conn(a).pending, sock)));
    ConnInv(t, cfg, a, t.Conn(a).(pending := []));
  }

  // ---------------------------------------------------------------------------
  // Stray aborts, and closing WebSockets
  // ---------------------------------------------------------------------------

  /** An abort without a cause in the stream's own log reaches a record of agent a. */
  lemma StrayHits(t: Tunnel, cfg: R.Config, lv: Levels, b: nat, key: (nat, nat))
    requires Inv(t, cfg) && key in t.agentIds && R.At(t.agentIds, key) == b
    requires IsStream(t, b) ==> t.Str(b).cleaned && t.HopAt(b).far.kg == |t.Str(b).sent.toFar|
    ensures IsStream(t, b) && t.HopAt(b).far.a.Some?
    ensures Inv(PutAgent(t, b, A.FromServer(t.HopAt(b).far.Rec(), AgentEnv(t, lv, key.0), TcpAbort)), cfg)
  {
    hide Inv, ClientLeg, AgentLeg, A.FromServer, PutAgent, RI.EntryOk, SI.Inv;
    AgentLookup(t, cfg, b, key);
    StreamAt(t, cfg, b);
    FarStray(t.Str(b), t.HopAt(b).far, AgentEnv(t, lv, key.0), key.0 in t.r.reg.openAgents);
    PutAgentInv(t, cfg, b, A.FromServer(t.HopAt(b).far.Rec(), AgentEnv(t, lv, key.0), TcpAbort));
  }

  lemma StrayCounted(t: Tunnel, cfg: R.Config, a: nat)
    requires Inv(t, cfg) && StraySent(t, a)
    ensures Inv(WithConn(t, a, StrayRead(t.Conn(a))), cfg)
  {
    hide Inv, ConnOk, WithConn;
    ConnAt(t, cfg, a);
    ConnFrame(t.Conn(a), StrayRead(t.Conn(a)));
    ConnInv(t, cfg, a, StrayRead(t.Conn(a)));
  }

  /** A stray abort that finds a record finds one whose stream is gone at the relay, and whose log has been read to the end. */
  lemma StrayFinds(t: Tunnel, cfg: R.Config, a: nat, b: nat)
    requires Inv(t, cfg) && StraySent(t, a) && StrayInTurn(t, a)
    requires var key := (a, StrayId(t, a)); key in t.agentIds && R.At(t.agentIds, key) == b
    ensures IsStream(t, b) && t.Str(b).cleaned && t.HopAt(b).far.kg == |t.Str(b).sent.toFar|
  {
    Clauses(t, cfg);
    var key := (a, StrayId(t, a));
    assert AgentHolds(t.r.all, t.hops, b, key) by { hide Inv; AgentLookup(t, cfg, b, key); }
    hide RI.InvBut, LegsOk, ClientIndexed, AgentIndexed, Apart, Served, ServedOnce, ConnsOk, RejectionsOk;
    assert StrayedOk(t.r.all, At(t.r.sent.strays, a), t.Conn(a), a);
  }

  lemma StrayInv(t: Tunnel, cfg: R.Config, lv: Levels, a: nat)
    requires Inv(t, cfg) && StraySent(t, a) && StrayInTurn(t, a)
    ensures Inv(AgentReadsStray(t, lv, a), cfg)
  {
    hide Inv, A.FromServer, PutAgent, StrayInTurn;
    StrayCounted(t, cfg, a);
    var t1 := WithConn(t, a, StrayRead(t.Conn(a)));
    var key := (a, StrayId(t, a));
    if key in t.agentIds {
      StrayFinds(t, cfg, a, t.agentIds[key]);
      StrayHits(t1, cfg, lv, t.agentIds[key], key);
    }
  }

  lemma ClosesLegs(all: seq<R.Entry>, hops: seq<Hop>, clientUp: set<nat>, agentUp: set<nat>, heard: set<nat>,
      clientUp': set<nat>, agentUp': set<nat>)
    requires LegsOk(all, hops, clientUp, agentUp, heard) && clientUp' <= clientUp && agentUp' <= agentUp
    ensures LegsOk(all, hops, clientUp', agentUp', heard)
  {
    hide ClientLeg, AgentLeg;
    forall h | 0 <= h < |all| && h < |hops| && all[h].Tcp?
      ensures LegOk(all[h].t, hops[h], clientUp', agentUp', heard)
    {
      var i := all[h].t.ident;
      NearCloses(all[h].t, hops[h].near, i.ws in clientUp, i.ws in clientUp');
      if i.peer.Agent? { FarCloses(all[h].t, hops[h].far, i.AgentWs() in agentUp, i.AgentWs() in agentUp', i.AgentWs() in heard, i.AgentWs() in heard); }
    }
  }

  lemma ClosesInv(t: Tunnel, cfg: R.Config, ws: nat, a: nat)
    requires Inv(t, cfg)
    ensures Inv(t.(clientUp := t.clientUp - {ws}), cfg) && Inv(t.(agentUp := t.agentUp - {a}), cfg)
  {
    hide RI.InvBut, LegsOk, ClientIndexed, AgentIndexed, Apart, Served, ServedOnce, ConnsOk, RejectionsOk, StraysOk;
    Clauses(t, cfg);
    ClosesLegs(t.r.all, t.hops, t.clientUp, t.agentUp, t.r.reg.openAgents, t.clientUp - {ws}, t.agentUp);
    ClosesLegs(t.r.all, t.hops, t.clientUp, t.agentUp, t.r.reg.openAgents, t.clientUp, t.agentUp - {a});
    Clauses(t.(clientUp := t.clientUp - {ws}), cfg);
    Clauses(t.(agentUp := t.agentUp - {a}), cfg);
  }

  // ---------------------------------------------------------------------------
  // Every step, every run
  // ---------------------------------------------------------------------------

  lemma StepInv(t: Tunnel, cfg: R.Config, rd: R.Readings, lv: Levels, ev: Event)
    requires Inv(t, cfg) && Enabled(t, cfg, rd, lv, ev)
    ensures Inv(Step(t, cfg, rd, lv, ev), cfg)
  {
    hide Inv, RelayMoves, AgentJoined, AgentRequested, RelayReadsClient, RelayReadsAgent, ClientReads, AgentReads,
         AgentReadsStray, PutClient, PutAgent, WithConn, R.Step, R.Connect, R.Enabled, Own, OpensReusable, Issued,
         Rejected, C.OnLocal, A.OnLocal, C.Possible, A.Possible, Routable, A.RemoveSock, StrayInTurn;
    match ev
    case RelayEvent(v) => RelayEventInv(t, cfg, rd, v);
    case AgentJoins(a, first) => AgentJoinsInv(t, cfg, rd, a, first);
    case AgentRequest(a) => AgentRequestInv(t, cfg, rd, a);
    case ClientFrame(h) => ClientFrameInv(t, cfg, rd, h);
    case AgentFrame(h) => AgentFrameInv(t, cfg, rd, h);
    case ToClient(h, admit) => ClientReadsInv(t, cfg, lv, h, admit);
    case ToAgent(h, alive) => AgentReadsInv(t, cfg, lv, h, alive);
    case Rejection(a) => RejectionInv(t, cfg, a);
    case StrayAbort(a) => StrayInv(t, cfg, lv, a);
    case ClientLocal(h, l) => ClientLocalInv(t, cfg, lv, h, l);
    case AgentLocal(h, l) => AgentLocalInv(t, cfg, lv, h, l);
    case LocalConnect(a, sock, port, target) => LocalConnectInv(t, cfg, a, Issue(sock, port, target));
    case LocalGone(a, sock) => PendingEndsInv(t, cfg, a, sock);
    case ClientCloses(ws) => ClosesInv(t, cfg, ws, 0);
    case AgentCloses(a) => ClosesInv(t, cfg, 0, a);
    case PendingGone(a) => PendingEndsInv(t, cfg, a, 0);
  }

  type Script = seq<(R.Readings, Levels, Event)>

  /** The tunnel after a script of steps; None if some step could not have happened. */
  ghost function Run(cfg: R.Config, script: Script): Option<Tunnel> {
    if |script| == 0 then Some(Initial())
    else
      var n := |script| - 1;
      var before := Run(cfg, script[..n]);
      if before.Some? && Enabled(before.value, cfg, script[n].0, script[n].1, script[n].2)
      then Some(Step(before.value, cfg, script[n].0, script[n].1, script[n].2))
      else None
  }

  /** The first k steps of a script, and its k-th event. */
  function Prefix(script: Script, k: int): Script {
    if 0 <= k <= |script| then script[..k] else script
  }

  function EventAt(script: Script, k: int): Option<Event> {
    if 0 <= k < |script| then Some(script[k].2) else None
  }

  /** The script up to its last step. */
  function Before(script: Script): Script {
    if script == [] then [] else script[..|script| - 1]
  }

  /** The state a possible script leads to. */
  ghost function After(cfg: R.Config, script: Script): Tunnel {
    var t := Run(cfg, script);
    if t.Some? then t.value else Initial()
  }

  lemma {:induction false} RunInv(cfg: R.Config, script: Script)
    requires Run(cfg, script).Some?
    ensures Inv(After(cfg, script), cfg)
  {
    hide Inv, Step, Enabled;
    if |script| == 0 {
      InitialInv(cfg);
    } else {
      var n := |script| - 1;
      RunInv(cfg, script[..n]);
      StepInv(After(cfg, script[..n]), cfg, script[n].0, script[n].1, script[n].2);
    }
  }
}
